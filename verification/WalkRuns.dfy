/**
  The client's walk against the mailbox itself: its requests are transactions of one
  run, between which every other client and administrator may do what they like.
*/
module WalkRuns {
  import opened Results
  import opened Protocol
  import opened Mailbox
  import opened MailboxHistory
  import opened MailboxSafety
  import opened PageWalk
  import opened WalkGuard

  // ---------------------------------------------------------------- Requests within a run

  /**
    A request is lost, or reads a page in a transaction that first checks the caller and
    sweeps. A page that fails takes its sweep back, so that a sweep may remain or not.
  */
  datatype Request = Lost(error: ServerError) | Read(key: B32, now: nat, measure: Measure, swept: bool)

  /** Whatever the mailbox did since the last request, and then a request. */
  datatype Turn = Turn(events: seq<Event>, request: Request)

  /** The log when the request of a turn arrives. */
  function Arrival(l: Log, t: Turn): Log {
    RunLog(l, t.events)
  }

  function AfterTurn(l: Log, t: Turn): Log {
    if t.request.Read? && t.request.swept then StepLog(Arrival(l, t), SweepEvent(t.request.now)) else Arrival(l, t)
  }

  function Arrivals(l: Log, turns: seq<Turn>): (r: seq<Log>)
    ensures |r| == |turns|
    decreases |turns|
  {
    if |turns| == 0 then [] else [Arrival(l, turns[0])] + Arrivals(AfterTurn(l, turns[0]), turns[1..])
  }

  predicate PossibleTurns(l: Log, turns: seq<Turn>)
    decreases |turns|
  {
    |turns| == 0 || (PossibleRun(l, turns[0].events) && PossibleTurns(AfterTurn(l, turns[0]), turns[1..]))
  }

  /** The tables that a request reads: checks and sweep come before the page. */
  function ReadTables(s: Tables, caller: int, r: Request): Served<Tables> {
    match r
    case Lost(e) => Err(e)
    case Read(key, now, _, _) =>
      if !ServiceReady(s) then Err(Unavailable)
      else
        var _ :- Caller(s, caller, key);
        if now > MAX_NUMBER then Err(Unavailable) else Ok(Swept(s, now))
  }

  ghost function VisitOf(s: Tables, caller: int, r: Request): Visit {
    match ReadTables(s, caller, r)
    case Err(e) => Broken(e)
    case Ok(after) => Serve(ViewOf(after, caller, r.measure))
  }

  ghost predicate VisitsOf(visits: seq<Visit>, l: Log, caller: int, turns: seq<Turn>) {
    |visits| == |turns| && forall i :: 0 <= i < |turns| ==> visits[i] == VisitOf(Arrivals(l, turns)[i].tables, caller, turns[i].request)
  }

  // ---------------------------------------------------------------- The run guards the walk

  lemma TurnKeeps(l: Log, t: Turn)
    requires LogInv(l) && PossibleRun(l, t.events)
    ensures LogInv(Arrival(l, t)) && GuardedBy(l.tables, Arrival(l, t).tables)
    ensures LogInv(AfterTurn(l, t)) && GuardedBy(Arrival(l, t).tables, AfterTurn(l, t).tables)
  {
    RunKeepsInv(l, t.events);
    RunGuards(l, t.events);
    var arrived := Arrival(l, t);
    hide LogInv, StepLog, RunLog;
    if t.request.Read? && t.request.swept {
      StepKeepsInv(arrived, SweepEvent(t.request.now));
      StepGuards(arrived, SweepEvent(t.request.now));
    }
  }

  lemma {:induction false} ArrivalsKeep(l: Log, turns: seq<Turn>)
    requires LogInv(l) && PossibleTurns(l, turns)
    ensures forall i :: 0 <= i < |turns| ==> LogInv(Arrivals(l, turns)[i]) && GuardedBy(l.tables, Arrivals(l, turns)[i].tables)
    ensures forall i, j :: 0 <= i < j < |turns| ==> GuardedBy(Arrivals(l, turns)[i].tables, Arrivals(l, turns)[j].tables)
    decreases |turns|
  {
    if |turns| > 0 {
      var arrived, next := Arrival(l, turns[0]), AfterTurn(l, turns[0]);
      var rest := Arrivals(next, turns[1..]);
      TurnKeeps(l, turns[0]);
      ArrivalsKeep(next, turns[1..]);
      hide LogInv, GuardedBy, Arrival, AfterTurn;
      forall j | 0 <= j < |rest|
        ensures GuardedBy(arrived.tables, rest[j].tables) && GuardedBy(l.tables, rest[j].tables)
      {
        GuardIsTransitive(arrived.tables, next.tables, rest[j].tables);
        GuardIsTransitive(l.tables, arrived.tables, rest[j].tables);
      }
    }
  }

  lemma ReadIsGuarded(s: Tables, after: Tables, caller: int, first: Request, second: Request)
    requires GuardedBy(s, after) && ReadTables(s, caller, first).Ok? && ReadTables(after, caller, second).Ok?
    ensures GuardedBy(ReadTables(s, caller, first).value, ReadTables(after, caller, second).value)
  {
    hide ServiceReady, Caller, SweptRecord;
  }

  /** The visits of a walk, cut out of a run of the mailbox, are what the walk relies on. */
  lemma VisitsAreGuarded(l: Log, caller: int, turns: seq<Turn>, visits: seq<Visit>)
    requires LogInv(l) && PossibleTurns(l, turns) && VisitsOf(visits, l, caller, turns)
    ensures Guarded(visits)
  {
    ArrivalsKeep(l, turns);
    var logs := Arrivals(l, turns);
    hide LogInv, GuardedBy, ReadTables, ViewOf, Arrivals, View.Valid, SameRevision;
    forall i | 0 <= i < |visits| && visits[i].Serve?
      ensures visits[i].view.Valid()
    {
      ViewIsValid(ReadTables(logs[i].tables, caller, turns[i].request).value, caller, turns[i].request.measure);
    }
    forall i, j | 0 <= i < j < |visits| && visits[i].Serve? && visits[j].Serve?
      ensures SameRevision(visits[i].view, visits[j].view)
    {
      ReadIsGuarded(logs[i].tables, logs[j].tables, caller, turns[i].request, turns[j].request);
      GuardedViews(ReadTables(logs[i].tables, caller, turns[i].request).value, ReadTables(logs[j].tables, caller, turns[j].request).value,
                   caller, turns[i].request.measure, turns[j].request.measure);
    }
  }

  // ---------------------------------------------------------------- What the walk returns

  /** The row was read in some request of the stretch, for a counterpart that the caller may deal with. */
  ghost predicate RowRead(logs: seq<Log>, caller: int, turns: seq<Turn>, first: nat, end: nat, k: RowKey, r: Exchange)
    requires end <= |turns| == |logs|
  {
    exists i :: first <= i < end && ReadHolds(logs[i].tables, caller, turns[i].request, k, r)
  }

  predicate ReadHolds(s: Tables, caller: int, request: Request, k: RowKey, r: Exchange) {
    var read := ReadTables(s, caller, request);
    read.Ok? && k in read.value.exchanges && read.value.exchanges[k] == r
  }

  predicate MayDeal(s: Tables, caller: int, k: RowKey) {
    k in s.exchanges && k.Involves(caller) && PairAllowed(s.directory, caller, Counterpart(k, caller)).Ok?
  }

  /** One revision of the directory throughout the stretch. */
  ghost predicate OneDirectory(logs: seq<Log>, first: nat, end: nat) {
    first < end <= |logs|
    && forall i :: first <= i < end ==> SameDirectory(logs[first].tables, logs[i].tables)
  }

  /** The same revision, and no row gone. */
  ghost predicate SameDirectory(s: Tables, after: Tables) {
    after.visibility == s.visibility && after.directory == s.directory && after.bundles == s.bundles
    && s.exchanges.Keys <= after.exchanges.Keys
  }

  ghost predicate IsRow(logs: seq<Log>, caller: int, turns: seq<Turn>, first: nat, end: nat, entry: (int, Exchange))
    requires end <= |turns| == |logs|
  {
    exists k: RowKey :: k.Involves(caller) && Counterpart(k, caller) == entry.0 && RowRead(logs, caller, turns, first, end, k, entry.1)
  }

  /** Every entry is a row of the caller, under its counterpart. */
  ghost predicate EntriesAreRows(logs: seq<Log>, caller: int, turns: seq<Turn>, first: nat, end: nat, list: seq<(int, Exchange)>)
    requires end <= |turns| == |logs|
  {
    forall j :: 0 <= j < |list| ==> IsRow(logs, caller, turns, first, end, list[j])
  }

  /** Every row of the caller with an allowed counterpart at the start of the stretch is an entry. */
  ghost predicate RowsAreEntries(logs: seq<Log>, caller: int, turns: seq<Turn>, first: nat, end: nat, list: seq<(int, Exchange)>)
    requires first < end <= |turns| == |logs|
  {
    forall k :: MayDeal(logs[first].tables, caller, k) ==>
      exists j :: 0 <= j < |list| && list[j].0 == Counterpart(k, caller) && RowRead(logs, caller, turns, first, end, k, list[j].1)
  }

  /**
    One revision of the mailbox: the caller's peers in it, and each of its rows with an
    allowed counterpart once, as some request of the stretch read it.
  */
  ghost predicate MailboxSnapshot(logs: seq<Log>, caller: int, turns: seq<Turn>, first: nat, end: nat, s: State) {
    && |turns| == |logs| && OneDirectory(logs, first, end)
    && Exactly(PeersOf(logs[first].tables, caller), 0, MAX_NUMBER, s.peers)
    && (forall i, j :: 0 <= i < j < |s.exchanges| ==> s.exchanges[i].0 < s.exchanges[j].0)
    && EntriesAreRows(logs, caller, turns, first, end, s.exchanges)
    && RowsAreEntries(logs, caller, turns, first, end, s.exchanges)
  }

  lemma OpenEntry(s: Tables, caller: int, m: Measure, entry: (int, Exchange))
    requires var open := ViewOf(s, caller, m).Open(); entry.0 in open && open[entry.0] == entry.1
    ensures entry.0 in RecordsOf(s, caller) && RecordsOf(s, caller)[entry.0] == entry.1
  {
    hide PeersOf, RecordsOf, SizesOf, PairAllowed;
  }

  lemma RecordHasRow(s: Tables, caller: int, other: int) returns (k: RowKey)
    requires other in RecordsOf(s, caller)
    ensures k in s.exchanges && k.Involves(caller) && Counterpart(k, caller) == other && RecordsOf(s, caller)[other] == s.exchanges[k]
  {
    k := RowWith(s, caller, other);
  }

  lemma SameRow(s: Tables, caller: int, k: RowKey, q: RowKey)
    requires OneRowEach(s) && k in s.exchanges && q in s.exchanges && k.Involves(caller) && q.Involves(caller)
    requires Counterpart(k, caller) == Counterpart(q, caller)
    ensures k == q
  {
  }

  /** An entry that a view shows is the row of that counterpart. */
  lemma ShownIsRow(s: Tables, caller: int, request: Request, entry: (int, Exchange)) returns (k: RowKey)
    requires OneRowEach(s) && VisitOf(s, caller, request).Serve?
    requires var open := VisitOf(s, caller, request).view.Open(); entry.0 in open && open[entry.0] == entry.1
    ensures k.Involves(caller) && Counterpart(k, caller) == entry.0 && ReadHolds(s, caller, request, k, entry.1)
    ensures forall q :: q in s.exchanges && q.Involves(caller) && Counterpart(q, caller) == entry.0 ==> q == k
  {
    var read := ReadTables(s, caller, request).value;
    hide ReadTables, ViewOf, RecordsOf, View.Open, OneRowEach, RowKey.Involves, Counterpart;
    OpenEntry(read, caller, request.measure, entry);
    k := RecordHasRow(read, caller, entry.0);
    ReadKeepsKeys(s, caller, request);
    forall q | q in s.exchanges && q.Involves(caller) && Counterpart(q, caller) == entry.0
      ensures q == k
    {
      SameRow(s, caller, k, q);
    }
  }

  lemma ReadKeepsKeys(s: Tables, caller: int, request: Request)
    requires ReadTables(s, caller, request).Ok?
    ensures var read := ReadTables(s, caller, request).value;
            read.exchanges.Keys == s.exchanges.Keys && read.directory == s.directory && read.bundles == s.bundles
            && read.visibility == s.visibility
  {
    hide ServiceReady, Caller, SweptRecord;
  }

  /** An allowed row is open in the view of the request that reads it. */
  lemma DealtIsOpen(s: Tables, caller: int, request: Request, k: RowKey)
    requires VisitOf(s, caller, request).Serve? && MayDeal(s, caller, k)
    ensures Counterpart(k, caller) in VisitOf(s, caller, request).view.Open()
    ensures 0 < Counterpart(k, caller) <= MAX_NUMBER
  {
    ReadKeepsKeys(s, caller, request);
    var read := ReadTables(s, caller, request).value;
    hide ReadTables, RowWith;
    assert Counterpart(k, caller) in Counterparts(read, caller);
  }

  lemma VisitShows(s: Tables, caller: int, request: Request)
    requires VisitOf(s, caller, request).Serve?
    ensures var view := VisitOf(s, caller, request).view; view.revision == s.visibility && view.peers == PeersOf(s, caller)
  {
    ReadKeepsKeys(s, caller, request);
    hide ReadTables, RowWith;
  }

  /** Requests that were all served, at one revision. */
  ghost predicate OneStretch(logs: seq<Log>, caller: int, turns: seq<Turn>, visits: seq<Visit>, first: nat, end: nat) {
    && first < end <= |visits| == |turns| == |logs|
    && forall i :: first <= i < end ==>
         visits[i].Serve? && visits[i] == VisitOf(logs[i].tables, caller, turns[i].request)
         && OneRowEach(logs[i].tables) && SameDirectory(logs[first].tables, logs[i].tables)
  }

  lemma StretchOfRun(l: Log, caller: int, turns: seq<Turn>, visits: seq<Visit>, first: nat, end: nat)
    requires LogInv(l) && PossibleTurns(l, turns) && VisitsOf(visits, l, caller, turns)
    requires first < end <= |visits| && OneRevision(visits, first, end)
    ensures OneStretch(Arrivals(l, turns), caller, turns, visits, first, end)
  {
    var logs := Arrivals(l, turns);
    ArrivalsKeep(l, turns);
    hide LogInv, GuardedBy, VisitOf, Arrivals, PossibleTurns, OneRowEach, SameDirectory;
    forall i | first <= i < end
      ensures OneRowEach(logs[i].tables) && SameDirectory(logs[first].tables, logs[i].tables)
    {
      RowsAreSingle(logs[i]);
      VisitShows(logs[first].tables, caller, turns[first].request);
      VisitShows(logs[i].tables, caller, turns[i].request);
      GuardedIsSame(logs[first].tables, logs[i].tables, first == i);
    }
  }

  lemma GuardedIsSame(s: Tables, after: Tables, same: bool)
    requires if same then s == after else GuardedBy(s, after) && s.visibility == after.visibility
    ensures SameDirectory(s, after)
  {
  }

  lemma EntryIsRow(logs: seq<Log>, caller: int, turns: seq<Turn>, visits: seq<Visit>, first: nat, end: nat, entry: (int, Exchange)) returns (k: RowKey)
    requires OneStretch(logs, caller, turns, visits, first, end) && Shown(visits, first, end, entry)
    ensures k.Involves(caller) && Counterpart(k, caller) == entry.0 && RowRead(logs, caller, turns, first, end, k, entry.1)
    ensures forall q :: q in logs[first].tables.exchanges && q.Involves(caller) && Counterpart(q, caller) == entry.0 ==> q == k
  {
    var i :| first <= i < end && visits[i].Serve? && entry.0 in visits[i].view.Open() && visits[i].view.Open()[entry.0] == entry.1;
    hide VisitOf, ReadHolds, View.Open, RowKey.Involves, OneRowEach;
    k := ShownIsRow(logs[i].tables, caller, turns[i].request, entry);
    assert SameDirectory(logs[first].tables, logs[i].tables);
  }

  lemma AllEntriesAreRows(logs: seq<Log>, caller: int, turns: seq<Turn>, visits: seq<Visit>, first: nat, end: nat, list: seq<(int, Exchange)>)
    requires OneStretch(logs, caller, turns, visits, first, end) && Collected(visits, first, end, MAX_NUMBER, list)
    ensures EntriesAreRows(logs, caller, turns, first, end, list)
  {
    assert first < end <= |turns| == |logs|;
    hide OneStretch, Shown, RowRead;
    forall j | 0 <= j < |list|
      ensures IsRow(logs, caller, turns, first, end, list[j])
    {
      var k := EntryIsRow(logs, caller, turns, visits, first, end, list[j]);
    }
  }

  lemma AllRowsAreEntries(logs: seq<Log>, caller: int, turns: seq<Turn>, visits: seq<Visit>, first: nat, end: nat, list: seq<(int, Exchange)>)
    requires OneStretch(logs, caller, turns, visits, first, end) && Collected(visits, first, end, MAX_NUMBER, list)
    ensures RowsAreEntries(logs, caller, turns, first, end, list)
  {
    hide VisitOf, View.Open, RowRead, Shown, OneRowEach, SameDirectory, PairAllowed;
    forall k | MayDeal(logs[first].tables, caller, k)
      ensures exists j :: 0 <= j < |list| && list[j].0 == Counterpart(k, caller) && RowRead(logs, caller, turns, first, end, k, list[j].1)
    {
      DealtIsOpen(logs[first].tables, caller, turns[first].request, k);
      var j :| 0 <= j < |list| && list[j].0 == Counterpart(k, caller);
      var row := EntryIsRow(logs, caller, turns, visits, first, end, list[j]);
      assert row == k;
    }
  }

  lemma StretchIsOneDirectory(logs: seq<Log>, caller: int, turns: seq<Turn>, visits: seq<Visit>, first: nat, end: nat)
    requires OneStretch(logs, caller, turns, visits, first, end)
    ensures OneDirectory(logs, first, end) && visits[first].Serve? && visits[first].view.peers == PeersOf(logs[first].tables, caller)
  {
    VisitShows(logs[first].tables, caller, turns[first].request);
    hide VisitOf, OneRowEach, SameDirectory;
  }

  lemma SnapshotParts(visits: seq<Visit>, first: nat, end: nat, s: State)
    requires Snapshot(visits, first, end, s)
    ensures first < end <= |visits| && OneRevision(visits, first, end) && Collected(visits, first, end, MAX_NUMBER, s.exchanges)
    ensures Exactly(visits[first].view.peers, 0, MAX_NUMBER, s.peers)
    ensures forall i, j :: 0 <= i < j < |s.exchanges| ==> s.exchanges[i].0 < s.exchanges[j].0
  {
    hide Exactly, Shown, OneRevision;
  }

  /** Over any run of the mailbox, a snapshot of the visits is a snapshot of the mailbox. */
  lemma SnapshotOfMailbox(l: Log, caller: int, turns: seq<Turn>, visits: seq<Visit>, first: nat, end: nat, s: State)
    requires LogInv(l) && PossibleTurns(l, turns) && VisitsOf(visits, l, caller, turns) && Snapshot(visits, first, end, s)
    ensures MailboxSnapshot(Arrivals(l, turns), caller, turns, first, end, s)
  {
    var logs := Arrivals(l, turns);
    SnapshotParts(visits, first, end, s);
    hide LogInv, VisitsOf, PossibleTurns, Arrivals, Snapshot, OneRevision, Exactly, Collected, OneStretch, OneDirectory,
         PeersOf, RowsAreEntries, EntriesAreRows;
    StretchOfRun(l, caller, turns, visits, first, end);
    StretchIsOneDirectory(logs, caller, turns, visits, first, end);
    AllEntriesAreRows(logs, caller, turns, visits, first, end, s.exchanges);
    AllRowsAreEntries(logs, caller, turns, visits, first, end, s.exchanges);
  }

  // ---------------------------------------------------------------- When it succeeds

  /** The view that a request which is served reads. */
  ghost function ReadView(s: Tables, caller: int, r: Request): View
    requires ReadTables(s, caller, r).Ok?
  {
    ViewOf(ReadTables(s, caller, r).value, caller, r.measure)
  }

  /** From here on every request reaches its page, at one revision, and the page can be read. */
  ghost predicate SteadyTurns(logs: seq<Log>, caller: int, turns: seq<Turn>, start: nat)
    requires |turns| == |logs|
  {
    start < |turns|
    && forall i :: start <= i < |turns| ==>
         ReadTables(logs[i].tables, caller, turns[i].request).Ok? && logs[i].tables.visibility == logs[start].tables.visibility
         && Readable(ReadView(logs[i].tables, caller, turns[i].request))
  }

  ghost predicate EnoughTurns(logs: seq<Log>, caller: int, turns: seq<Turn>, start: nat)
    requires |turns| == |logs|
  {
    SteadyTurns(logs, caller, turns, start)
    && |turns| - start >= Objects(ReadView(logs[|turns| - 1].tables, caller, turns[|turns| - 1].request)) + 2
  }

  /** This request ends a walk with this error. */
  ghost predicate RequestFails(s: Tables, caller: int, r: Request, e: ServerError) {
    e != ServerError.Conflict
    && match ReadTables(s, caller, r)
       case Err(error) => e == error
       case Ok(_) => e == Unavailable && Oversized(ReadView(s, caller, r))
  }

  lemma VisitFails(s: Tables, caller: int, r: Request, e: ServerError)
    ensures FailsWith(VisitOf(s, caller, r), e) <==> RequestFails(s, caller, r, e)
  {
    if ReadTables(s, caller, r).Ok? {
      ViewIsValid(ReadTables(s, caller, r).value, caller, r.measure);
    }
    hide ReadTables, ViewOf, Oversized, View.Valid;
  }

  lemma VisitServes(s: Tables, caller: int, r: Request)
    requires ReadTables(s, caller, r).Ok?
    ensures VisitOf(s, caller, r) == Serve(ReadView(s, caller, r)) && ReadView(s, caller, r).revision == s.visibility
  {
    VisitShows(s, caller, r);
    hide ReadTables, ViewOf;
  }

  lemma TurnsAreEnough(l: Log, caller: int, turns: seq<Turn>, visits: seq<Visit>, start: nat)
    requires VisitsOf(visits, l, caller, turns) && EnoughTurns(Arrivals(l, turns), caller, turns, start)
    ensures Enough(visits, start)
  {
    var logs := Arrivals(l, turns);
    hide Arrivals, ReadTables, VisitOf, ReadView, Readable, Objects;
    forall i | start <= i < |turns|
      ensures visits[i] == Serve(ReadView(logs[i].tables, caller, turns[i].request))
              && visits[i].view.revision == logs[i].tables.visibility
    {
      VisitServes(logs[i].tables, caller, turns[i].request);
    }
  }

  lemma FailuresAreRequests(l: Log, caller: int, turns: seq<Turn>, visits: seq<Visit>, i: nat, e: ServerError)
    requires VisitsOf(visits, l, caller, turns) && i < |visits|
    ensures FailsWith(visits[i], e) <==> RequestFails(Arrivals(l, turns)[i].tables, caller, turns[i].request, e)
  {
    VisitFails(Arrivals(l, turns)[i].tables, caller, turns[i].request, e);
    hide Arrivals, VisitOf, FailsWith, RequestFails;
  }

  ghost predicate NoneFails(logs: seq<Log>, caller: int, turns: seq<Turn>)
    requires |turns| == |logs|
  {
    forall i, e :: 0 <= i < |turns| ==> !RequestFails(logs[i].tables, caller, turns[i].request, e)
  }

  /**
    The walk against a mailbox, from its first transaction on: whatever other clients and
    administrators do before and between its requests, a walk that succeeds returns the
    peers of one revision, and every row of the caller with an allowed counterpart that
    was there when the walk began, once, in a version that it had during the walk. A walk
    fails only as one of its requests does; and if none does, it succeeds once the
    requests meet one revision for as long as there are objects to list, and two more.
  */
  method FetchFromMailbox(ghost networkId: B16, ghost d: Directory, ghost turns: seq<Turn>, visits: seq<Visit>, caller: int)
    returns (answer: Option<Served<State>>)
    requires PossibleTurns(InitialLog(networkId, d), turns) && VisitsOf(visits, InitialLog(networkId, d), caller, turns)
    ensures answer.Some? && answer.value.Ok? ==>
              exists first: nat, end: nat ::
                MailboxSnapshot(Arrivals(InitialLog(networkId, d), turns), caller, turns, first, end, answer.value.value)
    ensures answer.Some? && answer.value.Err? ==>
              exists i :: 0 <= i < |turns|
                          && RequestFails(Arrivals(InitialLog(networkId, d), turns)[i].tables, caller, turns[i].request, answer.value.error)
    ensures NoneFails(Arrivals(InitialLog(networkId, d), turns), caller, turns)
            && (exists start: nat :: EnoughTurns(Arrivals(InitialLog(networkId, d), turns), caller, turns, start)) ==>
              answer.Some? && answer.value.Ok?
  {
    ghost var l := InitialLog(networkId, d);
    ghost var logs := Arrivals(l, turns);
    InitialInv(networkId, d);
    assert |visits| == |turns|;
    hide *;
    VisitsAreGuarded(l, caller, turns, visits);
    answer := FetchState(visits, caller);
    if answer.Some? && answer.value.Ok? {
      ghost var first: nat, end: nat :| Snapshot(visits, first, end, answer.value.value);
      SnapshotOfMailbox(l, caller, turns, visits, first, end, answer.value.value);
    } else if answer.Some? {
      ghost var i :| 0 <= i < |visits| && FailsWith(visits[i], answer.value.error);
      FailuresAreRequests(l, caller, turns, visits, i, answer.value.error);
      SomeFails(logs, caller, turns, i, answer.value.error);
    } else if start: nat :| EnoughTurns(logs, caller, turns, start) {
      TurnsAreEnough(l, caller, turns, visits, start);
    }
  }

  lemma SomeFails(logs: seq<Log>, caller: int, turns: seq<Turn>, i: nat, e: ServerError)
    requires |turns| == |logs| && i < |turns| && RequestFails(logs[i].tables, caller, turns[i].request, e)
    ensures !NoneFails(logs, caller, turns)
  {
    hide RequestFails;
  }
}
