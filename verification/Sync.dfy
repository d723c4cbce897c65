/**
  One sync cycle of a client over all of its peers: observe, reconcile, save, and only
  then send, with the failure of one peer left behind and the loop going on.
*/
module Sync {
  import opened Results
  import opened Numbers
  import opened Protocol
  import opened Mailbox
  import opened Engine
  import opened System

  /** One entry of the fetched directory. */
  datatype Entry = Entry(peerId: int, isServer: bool, advertised: Option<AdvertisedBundle>)

  /** What clock, randomness, storage, kernel and network contribute to one peer's turn. */
  datatype Weather = Weather(
    cycle: Cycle,
    counters: Option<(nat, nat)>,
    save: SaveOutcome,
    putSucceeds: bool,
    random: Byte,
    saveRetry: SaveOutcome)

  /** Everything that a sync cycle changes: memory, disk, and the messages handed to the network. */
  datatype Client = Client(
    self: Identity,
    memory: map<Number, Relationship>,
    disk: map<Number, Relationship>,
    sent: seq<(Number, Message)>)

  predicate Relevant(self: Identity, e: Entry) {
    !e.isServer && 1 <= e.peerId <= MAX_NUMBER && e.peerId != self.peerId && e.peerId != self.serverId && e.advertised.Some?
  }

  /** The record is about these two peers, in either role. */
  predicate Names(e: Exchange, self: int, other: int) {
    (e.key.initiatorId == self && e.key.responderId == other) || (e.key.initiatorId == other && e.key.responderId == self)
  }

  function ExchangeFor(exchanges: seq<Exchange>, self: int, other: int): Option<Exchange> {
    if |exchanges| == 0 then None
    else if Names(exchanges[0], self, other) then Some(exchanges[0])
    else ExchangeFor(exchanges[1..], self, other)
  }

  // ---------------------------------------------------------------- One peer's turn

  /** The relationship after the directory was looked at, if it may go on. */
  function Observed(self: Identity, memory: map<Number, Relationship>, other: Number, a: AdvertisedBundle): Option<Relationship> {
    if other !in memory then
      if a.lifecycle == Lifecycle.Retired then None else Some(NewRelationship(a.bundle))
    else
      match Observe(self, other, memory[other], a.bundle, a.lifecycle)
      case Err(_) => None
      case Ok(r) => Some(r)
  }

  /** Byte counters that differ from the last sample are activity. */
  function Sampled(r: Relationship, now: nat, counters: Option<(nat, nat)>): Relationship {
    if counters.None? then r
    else
      var (rx, tx) := counters.value;
      if r.activity.Some? && r.activity.value.rxBytes == rx && r.activity.value.txBytes == tx then r
      else r.(activity := Some(Activity(rx, tx, now)))
  }

  function SaveMap(memory: map<Number, Relationship>, disk: map<Number, Relationship>, save: SaveOutcome): map<Number, Relationship> {
    if save == FailedBeforeRename then disk else memory
  }

  /** After the call: save, then send, then note a failed send and save again. */
  function AfterCall(k: Client, other: Number, out: Outcome, x: Weather): Client {
    var memory := k.memory[other := out.relationship];
    if out.result.Err? then k.(memory := memory)
    else
      var saved := k.(memory := memory, disk := SaveMap(memory, k.disk, x.save));
      if x.save != Saved || !out.result.value.Send? then saved
      else
        var put := saved.(sent := saved.sent + [(other, out.result.value.message)]);
        if x.putSucceeds then put
        else
          match NoteSendFailure(out.relationship, x.cycle.now, x.random)
          case Err(_) => put
          case Ok(noted) =>
            var postponed := memory[other := noted];
            put.(memory := postponed, disk := SaveMap(postponed, put.disk, x.saveRetry))
  }

  function AfterTurn(k: Client, e: Entry, remote: Option<Exchange>, x: Weather): Client
    requires Relevant(k.self, e)
  {
    match Observed(k.self, k.memory, e.peerId, e.advertised.value)
    case None => k
    case Some(seen) =>
      AfterCall(k, e.peerId, Reconcile(k.self, e.peerId, Sampled(seen, x.cycle.now, x.counters), remote, x.cycle), x)
  }

  function ApplyAll(k: Client, entries: seq<Entry>, exchanges: seq<Exchange>, weather: seq<Weather>): Client
    requires |weather| == |entries|
    decreases |entries|
  {
    if |entries| == 0 then k
    else
      var next := if Relevant(k.self, entries[0])
                  then AfterTurn(k, entries[0], ExchangeFor(exchanges, k.self.peerId, entries[0].peerId), weather[0])
                  else k;
      ApplyAll(next, entries[1..], exchanges, weather[1..])
  }

  // ---------------------------------------------------------------- Isolation

  function OnlyAbout(q: Number, entries: seq<Entry>, weather: seq<Weather>): (r: (seq<Entry>, seq<Weather>))
    requires |weather| == |entries|
    ensures |r.0| == |r.1|
    decreases |entries|
  {
    if |entries| == 0 then ([], [])
    else
      var rest := OnlyAbout(q, entries[1..], weather[1..]);
      if entries[0].peerId == q then ([entries[0]] + rest.0, [weather[0]] + rest.1) else rest
  }

  predicate SameFor(q: Number, a: Client, b: Client) {
    a.self == b.self && (q in a.memory <==> q in b.memory) && (q in a.memory ==> a.memory[q] == b.memory[q])
  }

  lemma TurnIsLocal(k: Client, e: Entry, remote: Option<Exchange>, x: Weather, q: Number)
    requires Relevant(k.self, e) && q != e.peerId
    ensures SameFor(q, AfterTurn(k, e, remote, x), k)
  {
    hide Reconcile, Observed, Sampled, NoteSendFailure, Relevant;
  }

  lemma TurnReadsItsOwn(a: Client, b: Client, e: Entry, remote: Option<Exchange>, x: Weather)
    requires Relevant(a.self, e) && SameFor(e.peerId, a, b)
    ensures SameFor(e.peerId, AfterTurn(a, e, remote, x), AfterTurn(b, e, remote, x))
  {
    hide Reconcile, Sampled, NoteSendFailure, Observe;
  }

  /**
    Peers are independent: what a cycle does to the relationship with one peer is what
    it would do if the directory listed only that peer, whatever happens to the rest.
  */
  lemma {:induction false} PeersAreIndependent(a: Client, b: Client, entries: seq<Entry>, exchanges: seq<Exchange>, weather: seq<Weather>, q: Number)
    requires |weather| == |entries| && SameFor(q, a, b)
    ensures var own := OnlyAbout(q, entries, weather);
            SameFor(q, ApplyAll(a, entries, exchanges, weather), ApplyAll(b, own.0, exchanges, own.1))
    decreases |entries|
  {
    hide Relevant, AfterTurn, SameFor, ExchangeFor;
    if |entries| > 0 {
      var e, x := entries[0], weather[0];
      assert a.self == b.self by { SameSelf(q, a, b); }
      var remote := ExchangeFor(exchanges, a.self.peerId, e.peerId);
      var a' := if Relevant(a.self, e) then AfterTurn(a, e, remote, x) else a;
      if e.peerId == q {
        var b' := if Relevant(b.self, e) then AfterTurn(b, e, remote, x) else b;
        if Relevant(a.self, e) { TurnReadsItsOwn(a, b, e, remote, x); }
        PeersAreIndependent(a', b', entries[1..], exchanges, weather[1..], q);
        OwnFirst(q, entries, weather);
      } else {
        if Relevant(a.self, e) {
          TurnIsLocal(a, e, remote, x, q);
          SameForTransitive(q, a', a, b);
        }
        PeersAreIndependent(a', b, entries[1..], exchanges, weather[1..], q);
      }
    }
  }

  lemma SameSelf(q: Number, a: Client, b: Client)
    requires SameFor(q, a, b)
    ensures a.self == b.self
  {
  }

  lemma SameForTransitive(q: Number, a: Client, b: Client, c: Client)
    requires SameFor(q, a, b) && SameFor(q, b, c)
    ensures SameFor(q, a, c)
  {
  }

  lemma OwnFirst(q: Number, entries: seq<Entry>, weather: seq<Weather>)
    requires |weather| == |entries| > 0 && entries[0].peerId == q
    ensures var own, rest := OnlyAbout(q, entries, weather), OnlyAbout(q, entries[1..], weather[1..]);
            |own.0| > 0 && own.0[0] == entries[0] && own.1[0] == weather[0] && own.0[1..] == rest.0 && own.1[1..] == rest.1
  {
  }

  // ---------------------------------------------------------------- The record that a turn reads

  /**
    A peer's turn is given the first record whose two peers are the client and that peer,
    and none exactly when no record is about the two of them.
  */
  lemma {:induction false} FindsTheirRecord(exchanges: seq<Exchange>, self: int, other: int)
    ensures var found := ExchangeFor(exchanges, self, other);
            && (found.None? <==> forall e :: e in exchanges ==> {e.key.initiatorId as int, e.key.responderId as int} != {self, other})
            && (found.Some? ==>
                  {found.value.key.initiatorId as int, found.value.key.responderId as int} == {self, other}
                  && exists i :: 0 <= i < |exchanges| && exchanges[i] == found.value
                       && forall j :: 0 <= j < i ==> {exchanges[j].key.initiatorId as int, exchanges[j].key.responderId as int} != {self, other})
    decreases |exchanges|
  {
    if |exchanges| > 0 {
      var first, rest := exchanges[0], exchanges[1..];
      NamesAreSets(first, self, other);
      FindsTheirRecord(rest, self, other);
      assert forall e :: e in exchanges <==> e == first || e in rest;
      if !Names(first, self, other) && ExchangeFor(rest, self, other).Some? {
        var i :| 0 <= i < |rest| && rest[i] == ExchangeFor(rest, self, other).value
                 && forall j :: 0 <= j < i ==> {rest[j].key.initiatorId as int, rest[j].key.responderId as int} != {self, other};
        assert exchanges[i + 1] == rest[i];
        forall j | 0 <= j < i + 1
          ensures {exchanges[j].key.initiatorId as int, exchanges[j].key.responderId as int} != {self, other}
        {
          if j > 0 { assert exchanges[j] == rest[j - 1]; }
        }
      } else if Names(first, self, other) {
        assert exchanges[0] == first;
      }
      hide Names;
    }
  }

  lemma NamesAreSets(e: Exchange, self: int, other: int)
    ensures Names(e, self, other) <==> {e.key.initiatorId as int, e.key.responderId as int} == {self, other}
  {
    var ids := {e.key.initiatorId as int, e.key.responderId as int};
    if ids == {self, other} {
      assert self in ids && other in ids && (e.key.initiatorId as int) in {self, other} && (e.key.responderId as int) in {self, other};
    }
  }

  /** At most one record in the list is about these two. */
  predicate Single(exchanges: seq<Exchange>, self: int, other: int) {
    forall i, j :: 0 <= i < j < |exchanges| ==> !(Names(exchanges[i], self, other) && Names(exchanges[j], self, other))
  }

  lemma {:induction false} SingleIsFound(exchanges: seq<Exchange>, self: int, other: int, e: Exchange)
    requires Single(exchanges, self, other) && e in exchanges && Names(e, self, other)
    ensures ExchangeFor(exchanges, self, other) == Some(e)
    decreases |exchanges|
  {
    var i :| 0 <= i < |exchanges| && exchanges[i] == e;
    if i > 0 {
      assert exchanges[1..][i - 1] == e;
      SingleIsFound(exchanges[1..], self, other, e);
    }
  }

  lemma {:induction false} OnlyOneEntry(q: Number, entries: seq<Entry>, weather: seq<Weather>, j: nat)
    requires |weather| == |entries| && j < |entries| && entries[j].peerId == q
    requires forall i :: 0 <= i < |entries| && i != j ==> entries[i].peerId != q
    ensures OnlyAbout(q, entries, weather) == ([entries[j]], [weather[j]])
    decreases |entries|
  {
    if j > 0 {
      OnlyOneEntry(q, entries[1..], weather[1..], j - 1);
    } else {
      NoEntry(q, entries[1..], weather[1..]);
      assert [entries[0]] + [] == [entries[0]] && [weather[0]] + [] == [weather[0]];
    }
  }

  lemma {:induction false} NoEntry(q: Number, entries: seq<Entry>, weather: seq<Weather>)
    requires |weather| == |entries| && forall i :: 0 <= i < |entries| ==> entries[i].peerId != q
    ensures OnlyAbout(q, entries, weather) == ([], [])
    decreases |entries|
  {
    if |entries| > 0 {
      NoEntry(q, entries[1..], weather[1..]);
    }
  }

  lemma OneTurn(k: Client, e: Entry, exchanges: seq<Exchange>, x: Weather)
    requires Relevant(k.self, e)
    ensures ApplyAll(k, [e], exchanges, [x]) == AfterTurn(k, e, ExchangeFor(exchanges, k.self.peerId, e.peerId), x)
  {
    hide AfterTurn, ExchangeFor, Relevant;
    var next := AfterTurn(k, e, ExchangeFor(exchanges, k.self.peerId, e.peerId), x);
    assert [e][1..] == [] && [x][1..] == [];
    assert ApplyAll(next, [], exchanges, []) == next;
  }

  /**
    Each peer is reconciled with its own record. In a cycle over a directory that lists
    a relevant peer once, what happens to the relationship with it is its turn with the
    record about the two of them, the only one in the fetched list, or with none if the
    list has none: the records of other pairs make no difference.
  */
  lemma EachReadsItsRecord(k: Client, entries: seq<Entry>, exchanges: seq<Exchange>, weather: seq<Weather>, j: nat, record: Option<Exchange>)
    requires |weather| == |entries| && j < |entries|
    requires !entries[j].isServer && entries[j].advertised.Some? && 1 <= entries[j].peerId <= MAX_NUMBER
    requires entries[j].peerId != k.self.peerId && entries[j].peerId != k.self.serverId
    requires forall i :: 0 <= i < |entries| && i != j ==> entries[i].peerId != entries[j].peerId
    requires Single(exchanges, k.self.peerId, entries[j].peerId)
    requires if record.Some? then record.value in exchanges && Names(record.value, k.self.peerId, entries[j].peerId)
             else forall e :: e in exchanges ==> !Names(e, k.self.peerId, entries[j].peerId)
    ensures Relevant(k.self, entries[j])
    ensures SameFor(entries[j].peerId, ApplyAll(k, entries, exchanges, weather), AfterTurn(k, entries[j], record, weather[j]))
  {
    assert Relevant(k.self, entries[j]);
    var q: Number := entries[j].peerId;
    if record.Some? {
      SingleIsFound(exchanges, k.self.peerId, q, record.value);
    } else {
      NoneIsFound(exchanges, k.self.peerId, q);
    }
    assert SameFor(q, k, k);
    hide SameFor, AfterTurn, ExchangeFor, Relevant, Names, ApplyAll, OnlyAbout;
    PeersAreIndependent(k, k, entries, exchanges, weather, q);
    OnlyOneEntry(q, entries, weather, j);
    OneTurn(k, entries[j], exchanges, weather[j]);
  }

  lemma NoneIsFound(exchanges: seq<Exchange>, self: int, other: int)
    requires forall e :: e in exchanges ==> !Names(e, self, other)
    ensures ExchangeFor(exchanges, self, other) == None
  {
    FindsTheirRecord(exchanges, self, other);
    if ExchangeFor(exchanges, self, other).Some? {
      NamesAreSets(ExchangeFor(exchanges, self, other).value, self, other);
    }
    hide ExchangeFor, Names;
  }

  /** Replacing the records of other pairs changes nothing about this relationship. */
  lemma OthersRecordsDoNotMatter(k: Client, entries: seq<Entry>, first: seq<Exchange>, second: seq<Exchange>,
                                 weather: seq<Weather>, q: Number)
    requires |weather| == |entries| && Single(first, k.self.peerId, q) && Single(second, k.self.peerId, q)
    requires forall e :: Names(e, k.self.peerId, q) ==> (e in first <==> e in second)
    ensures SameFor(q, ApplyAll(k, entries, first, weather), ApplyAll(k, entries, second, weather))
  {
    var own := OnlyAbout(q, entries, weather);
    SameRecordFound(first, second, k.self.peerId, q);
    AboutOnly(q, entries, weather);
    assert SameFor(q, k, k);
    hide ExchangeFor, Names, Single, OnlyAbout;
    PeersAreIndependent(k, k, entries, first, weather, q);
    PeersAreIndependent(k, k, entries, second, weather, q);
    OwnRecordDecides(k, own.0, first, second, own.1, q);
  }

  lemma SameRecordFound(first: seq<Exchange>, second: seq<Exchange>, self: int, other: int)
    requires Single(first, self, other) && Single(second, self, other)
    requires forall e :: Names(e, self, other) ==> (e in first <==> e in second)
    ensures ExchangeFor(first, self, other) == ExchangeFor(second, self, other)
  {
    FindsTheirRecord(first, self, other);
    hide ExchangeFor, Single;
    if ExchangeFor(first, self, other).Some? {
      var e := ExchangeFor(first, self, other).value;
      NamesAreSets(e, self, other);
      SingleIsFound(second, self, other, e);
    } else {
      forall e | e in second
        ensures !Names(e, self, other)
      {
        NamesAreSets(e, self, other);
      }
      NoneIsFound(second, self, other);
    }
  }

  lemma {:induction false} AboutOnly(q: Number, entries: seq<Entry>, weather: seq<Weather>)
    requires |weather| == |entries|
    ensures forall e :: e in OnlyAbout(q, entries, weather).0 ==> e.peerId == q
    decreases |entries|
  {
    if |entries| > 0 {
      AboutOnly(q, entries[1..], weather[1..]);
    }
  }

  lemma {:induction false} OwnRecordDecides(k: Client, entries: seq<Entry>, first: seq<Exchange>, second: seq<Exchange>,
                                            weather: seq<Weather>, q: Number)
    requires |weather| == |entries| && forall e :: e in entries ==> e.peerId == q
    requires ExchangeFor(first, k.self.peerId, q) == ExchangeFor(second, k.self.peerId, q)
    ensures ApplyAll(k, entries, first, weather) == ApplyAll(k, entries, second, weather)
    decreases |entries|
  {
    hide ExchangeFor, Relevant;
    if |entries| > 0 {
      assert entries[0] in entries && forall e :: e in entries[1..] ==> e in entries;
      if Relevant(k.self, entries[0]) {
        var next := AfterTurn(k, entries[0], ExchangeFor(first, k.self.peerId, q), weather[0]);
        TurnKeepsSelf(k, entries[0], ExchangeFor(first, k.self.peerId, q), weather[0]);
        hide AfterTurn;
        OwnRecordDecides(next, entries[1..], first, second, weather[1..], q);
      } else {
        OwnRecordDecides(k, entries[1..], first, second, weather[1..], q);
      }
    }
  }

  lemma TurnKeepsSelf(k: Client, e: Entry, remote: Option<Exchange>, x: Weather)
    requires Relevant(k.self, e)
    ensures AfterTurn(k, e, remote, x).self == k.self
  {
    hide Reconcile, Observed, Sampled, NoteSendFailure;
  }

  // ---------------------------------------------------------------- Entries that are taken

  /** An entry that lists a server, the client itself, no usable identifier or no bundle is passed over. */
  lemma OthersArePassedOver(k: Client, e: Entry, exchanges: seq<Exchange>, x: Weather)
    requires e.isServer || e.advertised.None? || e.peerId < 1 || e.peerId > MAX_NUMBER || e.peerId == k.self.peerId || e.peerId == k.self.serverId
    ensures ApplyAll(k, [e], exchanges, [x]) == k
  {
    assert [e][1..] == [] && [x][1..] == [];
    hide AfterTurn;
    assert ApplyAll(k, [], exchanges, []) == k;
  }

  /** What an entry says may be followed: a new peer that is enabled, or a bundle that is the pinned one or a later one. */
  predicate Followed(k: Client, e: Entry)
    requires e.advertised.Some? && 1 <= e.peerId <= MAX_NUMBER
  {
    var a := e.advertised.value;
    if e.peerId in k.memory then
      a.bundle == k.memory[e.peerId].remote || a.bundle.bundleRevision > k.memory[e.peerId].remote.bundleRevision
    else a.lifecycle == Lifecycle.Enabled
  }

  lemma CallKeepsRemote(self: Identity, other: Number, r: Relationship, remote: Option<Exchange>, c: Cycle)
    ensures Reconcile(self, other, r, remote, c).relationship.remote == r.remote
  {
    hide Fold, Signed, Due, DurablySent, FindProposal, Message.Authenticate, Message.Confirm, Decision.Advance;
  }

  /**
    A turn follows the directory: an entry that conflicts with the pinned bundle, or
    introduces a retired peer, changes nothing at all; any other leaves a relationship
    that is pinned to the bundle it lists.
  */
  lemma TurnFollowsTheDirectory(k: Client, e: Entry, remote: Option<Exchange>, x: Weather)
    requires Relevant(k.self, e)
    ensures var after := AfterTurn(k, e, remote, x);
            if Followed(k, e) then e.peerId in after.memory && after.memory[e.peerId].remote == e.advertised.value.bundle
            else after == k
  {
    var observed := Observed(k.self, k.memory, e.peerId, e.advertised.value);
    if observed.Some? {
      var r := Sampled(observed.value, x.cycle.now, x.counters);
      CallKeepsRemote(k.self, e.peerId, r, remote, x.cycle);
      RetryKeepsRemote(Reconcile(k.self, e.peerId, r, remote, x.cycle).relationship, x.cycle.now, x.random);
    }
    hide Reconcile, NoteSendFailure;
  }

  lemma RetryKeepsRemote(r: Relationship, now: nat, random: Byte)
    ensures NoteSendFailure(r, now, random).Ok? ==> NoteSendFailure(r, now, random).value.remote == r.remote
  {
    hide Pow2;
  }

  // ---------------------------------------------------------------- Write-ahead over a whole cycle

  /** A message handed to the network is the newest one that a restart would find on disk. */
  predicate OnDisk(disk: map<Number, Relationship>, put: (Number, Message)) {
    put.0 in disk && disk[put.0].pending.Some?
    && |disk[put.0].pending.value.outbox| > 0
    && put.1 == disk[put.0].pending.value.outbox[|disk[put.0].pending.value.outbox| - 1]
  }

  /** The relationships already served this cycle are on disk as they are in memory, apart from retry counters. */
  predicate Settled(k: Client, from: nat) {
    forall i :: from <= i < |k.sent| ==> OnDisk(k.disk, k.sent[i]) && OnDisk(k.memory, k.sent[i])
  }

  /** A result that sends, sends the newest message of the exchange that it leaves in flight. */
  predicate SendsNewest(out: Outcome) {
    out.result.Ok? && out.result.value.Send? ==>
      out.relationship.pending.Some? && |out.relationship.pending.value.outbox| > 0
      && out.result.value.message == out.relationship.pending.value.outbox[|out.relationship.pending.value.outbox| - 1]
  }

  lemma EmitSendsNewest(self: Identity, r: Relationship, p: Pending, kind: Kind)
    ensures SendsNewest(Emit(self, r, p, kind))
  {
    hide Signed, Decision.Advance;
  }

  lemma DriveSendsNewest(self: Identity, other: Number, r: Relationship, p: Pending, c: Cycle)
    ensures SendsNewest(Drive(self, other, r, p, c))
  {
    EmitSendsNewest(self, r, p, Kind.Commit);
    EmitSendsNewest(self, r, p.(installed := true), Kind.Installed);
    EmitSendsNewest(self, r, p.(confirmed := true), Kind.Confirmed);
    hide Emit;
  }

  lemma OpeningSendsNewest(self: Identity, other: Number, r: Relationship, remote: Option<Exchange>, c: Cycle)
    ensures SendsNewest(Start(self, other, r, c)) && SendsNewest(Join(self, other, r, remote))
  {
    hide Signed, FindProposal, Message.Authenticate, Message.Confirm, Decision.Advance;
  }

  lemma ReconcileSendsNewest(self: Identity, other: Number, r: Relationship, remote: Option<Exchange>, c: Cycle)
    ensures SendsNewest(Reconcile(self, other, r, remote, c))
  {
    OpeningSendsNewest(self, other, r, remote, c);
    assert SendsNewest(Quiet(r, Ok(Idle)));
    if r.pending.Some? {
      ContinueSendsNewest(self, other, r, r.pending.value, remote, c);
    }
    hide Continue, Start, Join, SendsNewest;
  }

  lemma ContinueSendsNewest(self: Identity, other: Number, r: Relationship, p: Pending, remote: Option<Exchange>, c: Cycle)
    ensures SendsNewest(Continue(self, other, r, p, remote, c))
  {
    DriveSendsNewest(self, other, r, p.(decision := Absorb(p, remote, other).0), c);
    hide Absorb, Drive, DurablySent;
  }

  lemma PostponedKeepsOutbox(r: Relationship, now: nat, random: Byte)
    ensures var noted := NoteSendFailure(r, now, random);
            noted.Ok? ==> r.pending.Some? && noted.value.pending.Some? && noted.value.pending.value.outbox == r.pending.value.outbox
  {
    hide Pow2;
  }

  /** Sending only what was saved first; and a save writes all of memory, so other peers lose nothing. */
  lemma CallSendsFromDisk(k: Client, other: Number, out: Outcome, x: Weather)
    requires SendsNewest(out)
    ensures var k' := AfterCall(k, other, out, x);
            k'.sent == k.sent
            || (out.result.Ok? && out.result.value.Send? && k'.sent == k.sent + [(other, out.result.value.message)]
                && OnDisk(k'.disk, (other, out.result.value.message)) && OnDisk(k'.memory, (other, out.result.value.message)))
  {
    PostponedKeepsOutbox(out.relationship, x.cycle.now, x.random);
    hide NoteSendFailure;
  }

  lemma CallKeepsOthers(k: Client, other: Number, out: Outcome, x: Weather)
    ensures var k' := AfterCall(k, other, out, x);
            && k'.self == k.self
            && (forall q :: q != other ==> SameFor(q, k', k))
            && (forall q :: q != other && q in k.disk && q in k.memory ==> q in k'.disk && k'.disk[q] in {k.disk[q], k.memory[q]})
  {
    hide NoteSendFailure;
  }

  lemma CallSettles(k: Client, other: Number, out: Outcome, x: Weather, from: nat)
    requires Settled(k, from) && SendsNewest(out)
    requires forall i :: from <= i < |k.sent| ==> k.sent[i].0 != other
    ensures var k' := AfterCall(k, other, out, x);
            Settled(k', from) && k'.self == k.self && k.sent <= k'.sent
            && forall i :: |k.sent| <= i < |k'.sent| ==> k'.sent[i].0 == other
  {
    var k' := AfterCall(k, other, out, x);
    CallKeepsOthers(k, other, out, x);
    CallSendsFromDisk(k, other, out, x);
    hide AfterCall, SendsNewest;
    forall i | from <= i < |k'.sent|
      ensures OnDisk(k'.disk, k'.sent[i]) && OnDisk(k'.memory, k'.sent[i])
    {
      if i < |k.sent| {
        assert k'.sent[i] == k.sent[i] && k.sent[i].0 != other;
        assert OnDisk(k.disk, k.sent[i]) && OnDisk(k.memory, k.sent[i]);
      }
    }
  }

  lemma TurnSettles(k: Client, e: Entry, remote: Option<Exchange>, x: Weather, from: nat)
    requires Relevant(k.self, e) && Settled(k, from)
    requires forall i :: from <= i < |k.sent| ==> k.sent[i].0 != e.peerId
    ensures var k' := AfterTurn(k, e, remote, x);
            Settled(k', from) && k'.self == k.self && k.sent <= k'.sent
            && forall i :: |k.sent| <= i < |k'.sent| ==> k'.sent[i].0 == e.peerId
  {
    var observed := Observed(k.self, k.memory, e.peerId, e.advertised.value);
    hide Settled, AfterCall, Observed, Sampled, Reconcile, SendsNewest;
    if observed.Some? {
      var r := Sampled(observed.value, x.cycle.now, x.counters);
      ReconcileSendsNewest(k.self, e.peerId, r, remote, x.cycle);
      CallSettles(k, e.peerId, Reconcile(k.self, e.peerId, r, remote, x.cycle), x, from);
    }
  }

  /**
    Save before send, over a whole cycle: with each peer listed once, every message
    that the cycle handed to the network is, at the end of the cycle, the newest
    message of that peer's exchange on disk.
  */
  lemma {:induction false} SentIsOnDisk(k: Client, entries: seq<Entry>, exchanges: seq<Exchange>, weather: seq<Weather>, from: nat)
    requires |weather| == |entries| && Settled(k, from)
    requires forall i, j :: 0 <= i < j < |entries| ==> entries[i].peerId != entries[j].peerId
    requires forall i, j :: from <= i < |k.sent| && 0 <= j < |entries| ==> k.sent[i].0 != entries[j].peerId
    ensures Settled(ApplyAll(k, entries, exchanges, weather), from)
    decreases |entries|
  {
    hide Relevant, AfterTurn, Settled, ExchangeFor;
    if |entries| > 0 {
      var e := entries[0];
      if Relevant(k.self, e) {
        var remote := ExchangeFor(exchanges, k.self.peerId, e.peerId);
        TurnSettles(k, e, remote, weather[0], from);
        SentIsOnDisk(AfterTurn(k, e, remote, weather[0]), entries[1..], exchanges, weather[1..], from);
      } else {
        SentIsOnDisk(k, entries[1..], exchanges, weather[1..], from);
      }
    }
  }

  // ---------------------------------------------------------------- A turn is a run of the two-peer system

  /** One side of the two-peer system is this client's view of one peer. */
  predicate Mirrors(k: Client, n: Node, q: Number) {
    q in k.memory && q in k.disk
    && n.self == k.self && n.savedSelf == k.self && n.relationship == k.memory[q] && n.saved == k.disk[q]
  }

  /** The steps that a call and its aftermath are. */
  function CallSteps(side: bool, out: Outcome, remote: Option<Exchange>, x: Weather): seq<Step> {
    [CycleStep(side, remote, x.cycle, x.save)]
    + if x.save == Saved && out.result.Ok? && out.result.value.Send? && !x.putSucceeds
      then [BackoffStep(side, x.cycle.now, x.random, x.saveRetry)] else []
  }

  lemma RunOne(c: Setup, w: World, s: Step)
    ensures Run(c, w, [s]) == Next(c, w, s)
  {
    hide Next;
    assert Run(c, Next(c, w, s), []) == Next(c, w, s);
  }

  lemma RunTwo(c: Setup, w: World, s: Step, t: Step)
    ensures Run(c, w, [s, t]) == Next(c, Next(c, w, s), t)
  {
    hide Next;
    assert [s, t][1..] == [t];
    RunOne(c, Next(c, w, s), t);
  }

  lemma PutAt(w: World, side: bool, n: Node)
    ensures w.Put(side, n).At(side) == n
  {
  }

  function NodeAfterBackoff(n: Node, x: Weather): Node {
    var noted := NoteSendFailure(n.relationship, x.cycle.now, x.random);
    if noted.Err? then n else SavedAs(n.(relationship := noted.value), x.saveRetry)
  }

  function NodeAfterCall(n: Node, out: Outcome, x: Weather): Node {
    var changed := n.(relationship := out.relationship,
                      handed := if out.installs.Some? then n.handed + {out.installs.value} else n.handed);
    if out.result.Err? then changed
    else
      var kept := SavedAs(changed, x.save);
      if x.save == Saved && out.result.value.Send? then
        var put := kept.(sent := kept.sent + {out.result.value.message});
        if x.putSucceeds then put else NodeAfterBackoff(put, x)
      else kept
  }

  lemma CallOnNode(k: Client, n: Node, other: Number, out: Outcome, x: Weather)
    requires Mirrors(k, n, other)
    ensures var k', n' := AfterCall(k, other, out, x), NodeAfterCall(n, out, x);
            Mirrors(k', n', other)
            && ((k'.sent == k.sent && n'.sent == n.sent)
                || (out.result.Ok? && out.result.value.Send? && k'.sent == k.sent + [(other, out.result.value.message)]
                    && n'.sent == n.sent + {out.result.value.message}))
  {
    hide NoteSendFailure;
  }

  /** The call, the save, the send and the noted failure are one cycle step and at most one backoff step. */
  lemma CallIsARun(c: Setup, w: World, side: bool, k: Client, remote: Option<Exchange>, x: Weather)
    requires Mirrors(k, w.At(side), c.Id(!side))
    ensures var other := c.Id(!side);
            var out := Reconcile(k.self, other, k.memory[other], remote, x.cycle);
            var k' := AfterCall(k, other, out, x);
            var n' := Run(c, w, CallSteps(side, out, remote, x)).At(side);
            Mirrors(k', n', other)
            && ((k'.sent == k.sent && n'.sent == w.At(side).sent)
                || (out.result.Ok? && out.result.value.Send? && k'.sent == k.sent + [(other, out.result.value.message)]
                    && n'.sent == w.At(side).sent + {out.result.value.message}))
  {
    var other, n := c.Id(!side), w.At(side);
    var out := Reconcile(k.self, other, k.memory[other], remote, x.cycle);
    assert n.self == k.self && n.relationship == k.memory[other];
    CallOnNode(k, n, other, out, x);
    hide *;
    CallRuns(c, w, side, out, remote, x);
  }

  lemma CallRuns(c: Setup, w: World, side: bool, out: Outcome, remote: Option<Exchange>, x: Weather)
    requires out == Reconcile(w.At(side).self, c.Id(!side), w.At(side).relationship, remote, x.cycle)
    ensures Run(c, w, CallSteps(side, out, remote, x)).At(side) == NodeAfterCall(w.At(side), out, x)
  {
    var n, s := w.At(side), CycleStep(side, remote, x.cycle, x.save);
    CycleNode(c, w, side, remote, x);
    RunOne(c, w, s);
    if x.save == Saved && out.result.Ok? && out.result.value.Send? && !x.putSucceeds {
      var t := BackoffStep(side, x.cycle.now, x.random, x.saveRetry);
      assert CallSteps(side, out, remote, x) == [s, t];
      RunTwo(c, w, s, t);
      BackoffNode(c, Next(c, w, s), side, x.cycle.now, x.random, x.saveRetry);
    } else {
      assert CallSteps(side, out, remote, x) == [s];
    }
    hide Reconcile, NoteSendFailure, Next, Run;
  }

  lemma CycleNode(c: Setup, w: World, side: bool, remote: Option<Exchange>, x: Weather)
    ensures Next(c, w, CycleStep(side, remote, x.cycle, x.save)).At(side)
            == AfterCycle(w.At(side), c.Id(!side), remote, x.cycle, x.save)
  {
    var after := AfterCycle(w.At(side), c.Id(!side), remote, x.cycle, x.save);
    PutAt(w.(proposals := NewProposals(w, side, after)), side, after);
    hide AfterCycle;
  }

  lemma BackoffNode(c: Setup, w: World, side: bool, now: nat, random: Byte, save: SaveOutcome)
    ensures var n, noted := w.At(side), NoteSendFailure(w.At(side).relationship, now, random);
            Next(c, w, BackoffStep(side, now, random, save)).At(side)
            == if noted.Err? then n else SavedAs(n.(relationship := noted.value), save)
  {
    hide NoteSendFailure;
  }

  /** Another peer's turn is, for this peer, nothing or a save of what it has in memory. */
  lemma OthersTurnIsASave(c: Setup, w: World, side: bool, k: Client, e: Entry, remote: Option<Exchange>, x: Weather)
    requires Relevant(k.self, e) && e.peerId != c.Id(!side) && Mirrors(k, w.At(side), c.Id(!side))
    ensures var k' := AfterTurn(k, e, remote, x);
            Mirrors(k', w.At(side), c.Id(!side)) || Mirrors(k', Next(c, w, PersistStep(side)).At(side), c.Id(!side))
  {
    var observed := Observed(k.self, k.memory, e.peerId, e.advertised.value);
    PutAt(w, side, SavedAs(w.At(side), Saved));
    if observed.Some? {
      var r := Sampled(observed.value, x.cycle.now, x.counters);
      CallKeepsOthers(k, e.peerId, Reconcile(k.self, e.peerId, r, remote, x.cycle), x);
      hide AfterCall, Reconcile, Observed, Sampled;
    }
  }

  // ---------------------------------------------------------------- The loop

  class Syncer {
    const self: Identity
    var memory: map<Number, Relationship>
    var disk: map<Number, Relationship>
    var sent: seq<(Number, Message)>

    function Contents(): Client
      reads this
    {
      Client(self, memory, disk, sent)
    }

    constructor (self: Identity, disk: map<Number, Relationship>)
      ensures Contents() == Client(self, disk, disk, [])
    {
      this.self := self;
      this.memory, this.disk, this.sent := disk, disk, [];
    }

    method Find(exchanges: seq<Exchange>, other: int) returns (found: Option<Exchange>)
      ensures found == ExchangeFor(exchanges, self.peerId, other)
    {
      var i := 0;
      while i < |exchanges|
        invariant 0 <= i <= |exchanges|
        invariant ExchangeFor(exchanges, self.peerId, other) == ExchangeFor(exchanges[i..], self.peerId, other)
      {
        if Names(exchanges[i], self.peerId, other) { return Some(exchanges[i]); }
        i := i + 1;
      }
      return None;
    }

    method Save(outcome: SaveOutcome)
      modifies this`disk
      ensures disk == SaveMap(memory, old(disk), outcome)
    {
      if outcome != FailedBeforeRename { disk := memory; }
    }

    method Turn(e: Entry, remote: Option<Exchange>, x: Weather)
      requires Relevant(self, e)
      modifies this
      ensures Contents() == AfterTurn(old(Contents()), e, remote, x)
    {
      hide Observed, Sampled, Reconcile, NoteSendFailure;
      var other: Number := e.peerId;
      var seen := Observed(self, memory, other, e.advertised.value);
      if seen.None? { return; }
      var r := Sampled(seen.value, x.cycle.now, x.counters);
      var out := Reconcile(self, other, r, remote, x.cycle);
      memory := memory[other := out.relationship];
      if out.result.Err? { return; }
      Save(x.save);
      if x.save != Saved { return; }
      if out.result.value.Send? {
        sent := sent + [(other, out.result.value.message)];
        if !x.putSucceeds {
          var noted := NoteSendFailure(memory[other], x.cycle.now, x.random);
          if noted.Ok? {
            memory := memory[other := noted.value];
            Save(x.saveRetry);
          }
        }
      }
    }

    /** Every peer gets its turn; the failure of one never ends the cycle. */
    method Apply(entries: seq<Entry>, exchanges: seq<Exchange>, weather: seq<Weather>)
      requires |weather| == |entries|
      modifies this
      ensures Contents() == ApplyAll(old(Contents()), entries, exchanges, weather)
    {
      hide AfterTurn, Relevant, ExchangeFor;
      var i := 0;
      while i < |entries|
        invariant 0 <= i <= |entries|
        invariant ApplyAll(old(Contents()), entries, exchanges, weather) == ApplyAll(Contents(), entries[i..], exchanges, weather[i..])
      {
        var e := entries[i];
        assert entries[i..][0] == e && entries[i..][1..] == entries[i + 1..] && weather[i..][1..] == weather[i + 1..];
        if Relevant(self, e) {
          var remote := Find(exchanges, e.peerId);
          Turn(e, remote, weather[i]);
        }
        i := i + 1;
      }
    }
  }
}
