/** Why the paged walk may rely on the visibility revision: what the mailbox's tables show, over time. */
module WalkGuard {
  import opened Results
  import opened Protocol
  import opened Mailbox
  import opened MailboxHistory
  import opened MailboxSafety
  import opened PageWalk

  function Counterpart(k: RowKey, caller: int): int {
    if k.initiatorId == caller then k.responderId else k.initiatorId
  }

  function Counterparts(s: Tables, caller: int): set<int> {
    set k | k in s.exchanges && k.Involves(caller) :: Counterpart(k, caller)
  }

  ghost function RowWith(s: Tables, caller: int, other: int): RowKey
    requires other in Counterparts(s, caller)
  {
    var k :| k in s.exchanges && k.Involves(caller) && Counterpart(k, caller) == other; k
  }

  /** How large the encoded objects are; live endpoints make it differ from one request to the next. */
  datatype Measure = Measure(
    peer: (int, PeerItem) -> nat,
    bundle: (int, PeerItem) -> nat,
    cidr: (int, string) -> nat,
    record: (int, Exchange) -> nat)

  function PeersOf(s: Tables, caller: int): map<int, PeerItem> {
    map q | q in s.directory.peers && (caller, q) in s.directory.visible ::
      PeerItem(s.directory.peers[q], if q in s.bundles then Some(s.bundles[q]) else None)
  }

  ghost function RecordsOf(s: Tables, caller: int): map<int, Exchange> {
    map o | o in Counterparts(s, caller) :: s.exchanges[RowWith(s, caller, o)]
  }

  function SizesOf(peers: map<int, PeerItem>, cidrs: map<int, string>, records: map<int, Exchange>, m: Measure): Sizes {
    Sizes(map q | q in peers :: m.peer(q, peers[q]), map q | q in peers :: m.bundle(q, peers[q]),
          map q | q in cidrs :: m.cidr(q, cidrs[q]), map q | q in records :: m.record(q, records[q]))
  }

  /** What a transaction on these tables shows to a caller. */
  ghost function ViewOf(s: Tables, caller: int, m: Measure): View {
    View(s.visibility, PeersOf(s, caller), s.directory.cidrs, RecordsOf(s, caller),
         (set q | q in s.directory.peers && PairAllowed(s.directory, caller, q).Ok?),
         SizesOf(PeersOf(s, caller), s.directory.cidrs, RecordsOf(s, caller), m))
  }

  lemma ViewIsValid(s: Tables, caller: int, m: Measure)
    ensures ViewOf(s, caller, m).Valid()
  {
    hide RowWith, PairAllowed;
    assert forall o :: o in Counterparts(s, caller) ==> 1 <= o <= MAX_NUMBER;
  }

  ghost predicate OneRowEach(s: Tables) {
    && (forall k :: k in s.exchanges ==> k.initiatorId < k.responderId)
    && (forall k, k' :: k in s.exchanges && k' in s.exchanges && k.initiatorId == k'.initiatorId && k.responderId == k'.responderId
          ==> k == k')
  }

  lemma RowsAreSingle(l: Log)
    requires LogInv(l)
    ensures OneRowEach(l.tables)
  {
    forall k | k in l.tables.exchanges
      ensures k.initiatorId < k.responderId
    {
      OrderedKey(l, k);
    }
    hide ChainInv;
  }

  lemma OrderedKey(l: Log, k: RowKey)
    requires LogInv(l) && k in l.tables.exchanges
    ensures k.initiatorId < k.responderId
  {
    CurrentRowOk(l, k);
    hide DecisionReplays, BodiesMatch, DistinctReceipts;
  }

  lemma RecordIsRow(s: Tables, caller: int, k: RowKey)
    requires OneRowEach(s) && k in s.exchanges && k.Involves(caller)
    ensures Counterpart(k, caller) in RecordsOf(s, caller) && RecordsOf(s, caller)[Counterpart(k, caller)] == s.exchanges[k]
  {
    var other := Counterpart(k, caller);
    assert other in Counterparts(s, caller);
    var row := RowWith(s, caller, other);
    assert row == k;
  }

  /** No record of the caller hides behind another one: the walk by counterpart sees every row. */
  lemma ViewSeesEveryRow(networkId: B16, d: Directory, events: seq<Event>, caller: int, m: Measure, k: RowKey)
    requires PossibleRun(InitialLog(networkId, d), events)
    requires var s := RunLog(InitialLog(networkId, d), events).tables; k in s.exchanges && k.Involves(caller)
    ensures var s := RunLog(InitialLog(networkId, d), events).tables;
            Counterpart(k, caller) in ViewOf(s, caller, m).records
            && ViewOf(s, caller, m).records[Counterpart(k, caller)] == s.exchanges[k]
  {
    InitialInv(networkId, d);
    RunKeepsInv(InitialLog(networkId, d), events);
    hide *;
    RowsAreSingle(RunLog(InitialLog(networkId, d), events));
    RecordIsRow(RunLog(InitialLog(networkId, d), events).tables, caller, k);
    ViewRecords(RunLog(InitialLog(networkId, d), events).tables, caller, m);
  }

  lemma ViewRecords(s: Tables, caller: int, m: Measure)
    ensures ViewOf(s, caller, m).records == RecordsOf(s, caller)
  {
  }

  // ---------------------------------------------------------------- The revision guards the directory

  /** Later tables: a higher revision, or the same directory and bundles with no row gone. */
  ghost predicate GuardedBy(s: Tables, after: Tables) {
    s.visibility <= after.visibility
    && (s.visibility == after.visibility ==>
          after.directory == s.directory && after.bundles == s.bundles && s.exchanges.Keys <= after.exchanges.Keys)
  }

  lemma SubmitGuards(s: Tables, id: int, key: B32, other: int, m: Message, at: Moment)
    ensures GuardedBy(s, Submit(s, id, key, other, m, at).0)
  {
    hide SubmitInner, SweptRecord;
  }

  lemma RegisterGuards(s: Tables, id: int, key: B32, request: Registration, at: Moment)
    ensures GuardedBy(s, Register(s, id, key, request, at).0)
  {
    hide SweptRecord, ServiceReady, WithinBudget, ActiveInvolving;
  }

  lemma StepGuards(l: Log, e: Event)
    ensures GuardedBy(l.tables, StepLog(l, e).tables)
  {
    hide Recorded, SweptRecord, Submit, Register;
    match e
    case SubmitEvent(id, key, other, m, at) => SubmitGuards(l.tables, id, key, other, m, at);
    case RegisterEvent(id, key, request, at) => RegisterGuards(l.tables, id, key, request, at);
    case _ =>
  }

  lemma {:induction false} RunGuards(l: Log, events: seq<Event>)
    ensures GuardedBy(l.tables, RunLog(l, events).tables)
    decreases |events|
  {
    hide StepLog;
    if |events| > 0 {
      StepGuards(l, events[0]);
      RunGuards(StepLog(l, events[0]), events[1..]);
    }
  }

  lemma GuardIsTransitive(s: Tables, mid: Tables, after: Tables)
    requires GuardedBy(s, mid) && GuardedBy(mid, after)
    ensures GuardedBy(s, after)
  {
  }

  lemma GuardedViews(s: Tables, after: Tables, caller: int, first: Measure, second: Measure)
    requires GuardedBy(s, after)
    ensures SameRevision(ViewOf(s, caller, first), ViewOf(after, caller, second))
  {
    hide RowWith, SizesOf, PairAllowed;
    if s.visibility == after.visibility {
      assert Counterparts(s, caller) <= Counterparts(after, caller);
    }
  }

  /**
    Two transactions of the mailbox, with any run of writes in between, show the same
    peers, CIDRs and authorizations at the same revision, and no record is gone.
  */
  lemma ViewsAreGuarded(l: Log, events: seq<Event>, caller: int, first: Measure, second: Measure)
    ensures SameRevision(ViewOf(l.tables, caller, first), ViewOf(RunLog(l, events).tables, caller, second))
  {
    RunGuards(l, events);
    hide *;
    GuardedViews(l.tables, RunLog(l, events).tables, caller, first, second);
  }
}
