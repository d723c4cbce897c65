/**
  A run of the two-peer system that reaches the states which the consistency check
  refuses: the first exchange expires, the second one is joined.
*/
module Witness {
  import opened Results
  import opened Protocol
  import opened Mailbox
  import opened MailboxHistory
  import opened Engine
  import opened EngineFacts
  import opened System
  import opened SystemRuns
  import opened Duet
  import opened ProgressRuns
  import opened Validation

  const LIMITS := Limits(8, 8, 8, 8)

  /** Any two bundles, exchange identifiers, operator key and ciphertext will do. */
  datatype Cast = Cast(networkId: B16, first: Bundle, second: Bundle, exchange1: B16, exchange2: B16,
                       operatorPskId: B16, operatorPsk: B32, ciphertext: B1624)
  {
    predicate Valid() {
      && first.bundleRevision == 1 && second.bundleRevision == 1 && first.bundleId != second.bundleId
      && first.sigPublicKey != second.sigPublicKey && exchange1 != exchange2
    }
    function Roles(): Setup {
      Setup(1, 2, {first.sigPublicKey}, {second.sigPublicKey}, operatorPsk, operatorPsk)
    }
    function Listing(): Directory {
      Directory(map[1 := PeerRow(false, false, true, first.wgPublicKey), 2 := PeerRow(false, false, true, second.wgPublicKey),
                    3 := PeerRow(true, false, true, first.wgPublicKey)], {(1, 2), (2, 1)}, map[])
    }
    function Self(side: bool): Identity {
      Identity(networkId, if side then 1 else 2, 3, if side then first else second, Enrollment.Advertised)
    }
    function Peer(side: bool): Relationship {
      NewRelationship(if side then second else first).(operatorPskId := operatorPskId, operatorPsk := operatorPsk)
    }
    function NewPeer(side: bool): Node {
      Node(Self(side), Peer(side), Self(side), Peer(side), {}, {})
    }
    function Start(): World {
      World(InitialLog(networkId, Listing()), {}, NewPeer(true), NewPeer(false))
    }

    // The two exchanges.
    function Plan(n: Number): Transcript {
      Transcript(networkId, 1, 2, first, second, n, if n == 1 then exchange1 else exchange2, operatorPskId, ciphertext)
    }
    function Keys(n: Number): Candidate {
      CandidateFor(Plan(n), operatorPsk)
    }
    function Proposal(n: Number): Message {
      Line(Plan(n), true, Keys(n), Kind.Propose)
    }
    function Row(): RowKey {
      RowKey(1, 2, first.bundleId, second.bundleId)
    }
    function Opened(n: Number, now: nat): Exchange {
      Exchange(networkId, Row(), n, Plan(n).exchangeId, Sha3(Plan(n)), START, now, now + PREPARE_TTL, Some(Plan(n)),
               [Proposal(n)], [DigestOf(Proposal(n))], None)
    }
    function Expired(): Exchange {
      Opened(1, 0).(decision := START.Expire()).Compact()
    }

    /** The tables once both bundles are registered. */
    function Rows(swept: nat, exchanges: map<RowKey, Exchange>): Tables {
      Tables(networkId, Listing(), 3, swept, true, true,
             map[1 := AdvertisedBundle(1, Lifecycle.Enabled, first), 2 := AdvertisedBundle(1, Lifecycle.Enabled, second)],
             {first.bundleId, second.bundleId}, exchanges)
    }
  }

  function At(now: nat): Moment {
    Moment(now, LIMITS, true, true)
  }

  function Calling(c: Cast, now: nat, exchangeId: B16): Cycle {
    Cycle(now, 0, 0, exchangeId, c.ciphertext, true, Ok(true))
  }

  function Enrolls(bundle: Bundle): Registration {
    Registration(None, 1, Lifecycle.Enabled, bundle, false)
  }

  const LENGTH: nat := 10

  /** Registrations, a proposal that expires, a second proposal, and the responder's answer to it. */
  function StepAt(c: Cast, i: nat): Step
    requires i < LENGTH
  {
    match i
    case 0 => ServerStep(SwitchEvent(true, true))
    case 1 => ServerStep(RegisterEvent(1, c.first.wgPublicKey, Enrolls(c.first), At(0)))
    case 2 => ServerStep(RegisterEvent(2, c.second.wgPublicKey, Enrolls(c.second), At(0)))
    case 3 => CycleStep(true, None, Calling(c, 0, c.exchange1), Saved)
    case 4 => ServerStep(SubmitEvent(1, c.first.wgPublicKey, 2, c.Proposal(1), At(0)))
    case 5 => ServerStep(SweepEvent(600))
    case 6 => CycleStep(true, Some(c.Expired()), Calling(c, 600, c.exchange2), Saved)
    case 7 => CycleStep(true, None, Calling(c, 600, c.exchange2), Saved)
    case 8 => ServerStep(SubmitEvent(1, c.first.wgPublicKey, 2, c.Proposal(2), At(600)))
    case 9 => CycleStep(false, Some(c.Opened(2, 600)), Calling(c, 600, c.exchange2), Saved)
  }

  function Steps(c: Cast, n: nat): (steps: seq<Step>)
    requires n <= LENGTH
    ensures |steps| == n
  {
    if n == 0 then [] else Steps(c, n - 1) + [StepAt(c, n - 1)]
  }

  // ---------------------------------------------------------------- The mailbox

  lemma OneServer(c: Cast, s: Tables)
    requires s.directory == c.Listing() && s.enabled && s.managementReady
    ensures ServiceReady(s)
  {
    assert (set p | p in s.directory.peers && ServerPeer(s.directory.peers[p])) == {3};
  }

  lemma FirstRegistered(c: Cast)
    requires c.Valid()
    ensures var s := InitialLog(c.networkId, c.Listing()).tables.(enabled := true, managementReady := true);
            Register(s, 1, c.first.wgPublicKey, Registration(None, 1, Lifecycle.Enabled, c.first, false), At(0)).0
            == Tables(c.networkId, c.Listing(), 2, 1, true, true, map[1 := AdvertisedBundle(1, Lifecycle.Enabled, c.first)],
                      {c.first.bundleId}, map[])
  {
    var s := InitialLog(c.networkId, c.Listing()).tables.(enabled := true, managementReady := true);
    OneServer(c, Swept(s, 0));
    assert Swept(s, 0).exchanges == map[];
    hide ServiceReady;
  }

  lemma SecondRegistered(c: Cast)
    requires c.Valid()
    ensures var s := Tables(c.networkId, c.Listing(), 2, 1, true, true, map[1 := AdvertisedBundle(1, Lifecycle.Enabled, c.first)],
                            {c.first.bundleId}, map[]);
            Register(s, 2, c.second.wgPublicKey, Registration(None, 1, Lifecycle.Enabled, c.second, false), At(0)).0 == c.Rows(2, map[])
  {
    var s := Tables(c.networkId, c.Listing(), 2, 1, true, true, map[1 := AdvertisedBundle(1, Lifecycle.Enabled, c.first)],
                    {c.first.bundleId}, map[]);
    OneServer(c, Swept(s, 0));
    assert Swept(s, 0).exchanges == map[];
    hide ServiceReady;
  }

  function SceneOf(c: Cast, n: Number): Scene {
    Scene(c.Self(true), c.Self(false), c.Plan(n), c.operatorPsk)
  }

  /** At most a finished row of an earlier exchange is there. */
  predicate Vacant(c: Cast, rows: map<RowKey, Exchange>, n: Number) {
    rows.Keys <= {c.Row()} && (c.Row() in rows ==> rows[c.Row()].key == c.Row() && !rows[c.Row()].Active() && rows[c.Row()].sequence < n)
  }

  lemma NobodyActive(c: Cast, rows: map<RowKey, Exchange>, n: Number, peer: Option<int>)
    requires Vacant(c, rows, n)
    ensures ActiveCount(c.Rows(3, rows), peer) == 0
  {
    assert (set k | k in rows && rows[k].Active() && (peer.Some? ==> k.Involves(peer.value))) == {};
  }

  lemma PeersKnown(c: Cast, s: Tables, n: Number, side: bool)
    requires c.Valid() && s == c.Rows(3, s.exchanges)
    ensures var t := c.Plan(n);
            var id := SideId(t, side);
            Caller(s, id, SideBundle(t, side).wgPublicKey).Ok? && ActiveBundle(s, id) == Ok(SideBundle(t, side))
            && PairAllowed(s.directory, id, SideId(t, !side)).Ok?
  {
  }

  lemma RoomInTables(c: Cast, rows: map<RowKey, Exchange>, n: Number, now: nat)
    requires c.Valid() && now <= 600 && Vacant(c, rows, n)
    ensures HasRoom(SceneOf(c, n), c.Rows(3, rows), At(now))
  {
    NobodyActive(c, rows, n, None);
    NobodyActive(c, rows, n, Some(1));
    NobodyActive(c, rows, n, Some(2));
    hide ActiveCount;
  }

  lemma RoomForProposal(c: Cast, rows: map<RowKey, Exchange>, n: Number, now: nat)
    requires c.Valid() && now <= 600 && Vacant(c, rows, n)
    ensures Admits(SceneOf(c, n), c.Rows(3, rows), At(now))
  {
    var s, sc := c.Rows(3, rows), SceneOf(c, n);
    assert sc.t == c.Plan(n) && s.networkId == sc.t.networkId;
    OneServer(c, s);
    PeersKnown(c, s, n, true);
    PeersKnown(c, s, n, false);
    RoomInTables(c, rows, n, now);
    hide ServiceReady, HasRoom, Caller, ActiveBundle, PairAllowed, SideId, SideBundle, SceneOf, Cast.Plan, Cast.Rows, Vacant;
  }

  lemma NothingToSweep(c: Cast, swept: nat, rows: map<RowKey, Exchange>, n: Number, now: nat)
    requires Vacant(c, rows, n)
    ensures Swept(c.Rows(swept, rows), now) == c.Rows(3, rows)
  {
    assert Swept(c.Rows(swept, rows), now).exchanges == rows;
  }

  /** A proposal opens its exchange. */
  lemma ProposalStored(c: Cast, swept: nat, rows: map<RowKey, Exchange>, n: Number, now: nat)
    requires c.Valid() && now <= 600 && Vacant(c, rows, n)
    ensures Submit(c.Rows(swept, rows), 1, c.first.wgPublicKey, 2, c.Proposal(n), At(now)).0
            == c.Rows(3, map[c.Row() := c.Opened(n, now)])
  {
    var sc, m := SceneOf(c, n), c.Proposal(n);
    NothingToSweep(c, swept, rows, n, now);
    RoomForProposal(c, rows, n, now);
    LineIsAuthentic(c.Plan(n), true, c.Keys(n), Kind.Propose);
    SceneFacts(c, n, now);
    FreshRowReplaced(rows, c.Row(), c.Opened(n, now));
    hide Swept, Admits, SubmitInner, Vacant, SceneOf, Cast.Proposal, Cast.Opened, Cast.Valid, Cast.Rows,
         Message.Authenticate, Message.ValidateShape, Message.Confirm;
    SubmitInOpen(sc, c.Rows(3, rows), At(now), true, m);
  }

  lemma SceneFacts(c: Cast, n: Number, now: nat)
    requires c.Valid()
    ensures var sc := SceneOf(c, n);
            sc.Valid() && sc.Key() == c.Row() && OpeningRecord(sc, c.Proposal(n), now) == c.Opened(n, now)
  {
  }

  lemma FreshRowReplaced(rows: map<RowKey, Exchange>, k: RowKey, r: Exchange)
    requires rows.Keys <= {k}
    ensures rows[k := r] == map[k := r]
  {
  }

  lemma ProposalExpires(c: Cast)
    requires c.Valid()
    ensures Sweep(c.Rows(3, map[c.Row() := c.Opened(1, 0)]), 600).0 == c.Rows(3, map[c.Row() := c.Expired()])
  {
    assert Swept(c.Rows(3, map[c.Row() := c.Opened(1, 0)]), 600).exchanges == map[c.Row() := c.Expired()];
  }

  // ---------------------------------------------------------------- The endpoints

  function Offering(c: Cast, n: Number): Pending {
    FirstPending(c.Plan(n), c.Keys(n), START, c.Proposal(n))
  }

  lemma Proposes(c: Cast, n: Number, now: nat)
    requires c.Valid() && 1 <= n <= 2
    ensures var r := c.Peer(true).(sequence := n);
            Reconcile(c.Self(true), 2, r, None, Calling(c, now, c.Plan(n).exchangeId))
            == Quiet(r.(sequence := n + 1, pending := Some(Offering(c, n))), Ok(Send(c.Proposal(n))))
  {
    LineIsAuthentic(c.Plan(n), true, c.Keys(n), Kind.Propose);
    hide Message.Authenticate, Message.Confirm;
  }

  lemma Withdraws(c: Cast, now: nat)
    requires c.Valid()
    ensures var r := c.Peer(true).(sequence := 2);
            Reconcile(c.Self(true), 2, r.(pending := Some(Offering(c, 1))), Some(c.Expired()), Calling(c, now, c.exchange2)) == Quiet(r, Ok(Idle))
  {
    hide Fold, Signed;
  }

  lemma Answers(c: Cast, now: nat)
    requires c.Valid()
    ensures var out := Reconcile(c.Self(false), 1, c.Peer(false), Some(c.Opened(2, 600)), Calling(c, now, c.exchange2));
            && out.result.Ok? && out.relationship.pending.Some? && out.relationship.pending.value.transcript == c.Plan(2)
            && out.relationship.sequence == 1
  {
    LineIsAuthentic(c.Plan(2), true, c.Keys(2), Kind.Propose);
    LineIsAuthentic(c.Plan(2), false, c.Keys(2), Kind.Ready);
    hide Message.Authenticate, Message.Confirm;
  }

  // ---------------------------------------------------------------- The run

  datatype Stand = Stand(tables: Tables, r: Relationship, sent: set<Message>, proposals: set<Transcript>)

  /** Where the mailbox and the initiator stand, while the responder has not moved. */
  ghost predicate Stage(c: Cast, w: World, d: Stand) {
    && w.log.tables == d.tables && w.proposals == d.proposals
    && w.initiator == Node(c.Self(true), d.r, c.Self(true), d.r, d.sent, {}) && w.responder == c.NewPeer(false)
  }

  function Begun(c: Cast): Tables {
    InitialLog(c.networkId, c.Listing()).tables
  }

  function HalfRegistered(c: Cast): Tables {
    Tables(c.networkId, c.Listing(), 2, 1, true, true, map[1 := AdvertisedBundle(1, Lifecycle.Enabled, c.first)], {c.first.bundleId}, map[])
  }

  /** The initiator after a proposal. */
  function Waiting(c: Cast, n: Number): Relationship
    requires n <= 2
  {
    c.Peer(true).(sequence := n + 1, pending := Some(Offering(c, n)))
  }

  function StandAt(c: Cast, i: nat): Stand
    requires i < LENGTH
  {
    match i
    case 0 => Stand(Begun(c), c.Peer(true), {}, {})
    case 1 => Stand(Begun(c).(enabled := true, managementReady := true), c.Peer(true), {}, {})
    case 2 => Stand(HalfRegistered(c), c.Peer(true), {}, {})
    case 3 => Stand(c.Rows(2, map[]), c.Peer(true), {}, {})
    case 4 => Stand(c.Rows(2, map[]), Waiting(c, 1), {c.Proposal(1)}, {c.Plan(1)})
    case 5 => Stand(c.Rows(3, map[c.Row() := c.Opened(1, 0)]), Waiting(c, 1), {c.Proposal(1)}, {c.Plan(1)})
    case 6 => Stand(c.Rows(3, map[c.Row() := c.Expired()]), Waiting(c, 1), {c.Proposal(1)}, {c.Plan(1)})
    case 7 => Stand(c.Rows(3, map[c.Row() := c.Expired()]), c.Peer(true).(sequence := 2), {c.Proposal(1)}, {c.Plan(1)})
    case 8 => Stand(c.Rows(3, map[c.Row() := c.Expired()]), Waiting(c, 2), {c.Proposal(1), c.Proposal(2)}, {c.Plan(1), c.Plan(2)})
    case 9 => Stand(c.Rows(3, map[c.Row() := c.Opened(2, 600)]), Waiting(c, 2), {c.Proposal(1), c.Proposal(2)}, {c.Plan(1), c.Plan(2)})
  }

  lemma TablesDecide(l: Log, e: Event)
    ensures StepLog(l, e).tables == StepLog(Log(l.tables, map[]), e).tables
  {
    hide Submit, Register, Swept, Recorded;
  }

  lemma ServerStage(c: Cast, w: World, d: Stand, e: Event)
    requires Stage(c, w, d)
    ensures Stage(c, Next(c.Roles(), w, ServerStep(e)), d.(tables := StepLog(Log(d.tables, map[]), e).tables))
  {
    TablesDecide(w.log, e);
    hide StepLog;
  }

  lemma ProposeStage(c: Cast, w: World, d: Stand, n: Number, now: nat)
    requires c.Valid() && 1 <= n <= 2
    requires Stage(c, w, d) && d.r == c.Peer(true).(sequence := n)
    requires forall t :: t in d.proposals ==> t.exchangeId != c.Plan(n).exchangeId
    ensures var s := CycleStep(true, None, Calling(c, now, c.Plan(n).exchangeId), Saved);
            Allowed(c.Roles(), w, s)
            && Stage(c, Next(c.Roles(), w, s),
                     Stand(d.tables, Waiting(c, n), d.sent + {c.Proposal(n)}, d.proposals + {c.Plan(n)}))
  {
    Proposes(c, n, now);
    hide Reconcile, Cast.Proposal, Cast.Keys;
  }

  lemma WithdrawStage(c: Cast, w: World, d: Stand, now: nat)
    requires c.Valid() && Stage(c, w, d) && d.r == Waiting(c, 1)
    ensures var s := CycleStep(true, Some(c.Expired()), Calling(c, now, c.exchange2), Saved);
            Stage(c, Next(c.Roles(), w, s), d.(r := c.Peer(true).(sequence := 2)))
  {
    Withdraws(c, now);
    hide Reconcile, Cast.Proposal, Cast.Keys, Cast.Expired;
  }

  lemma SubmitAllowed(c: Cast, w: World, d: Stand, n: Number, now: nat)
    requires c.Valid() && Stage(c, w, d) && c.Proposal(n) in d.sent
    ensures Allowed(c.Roles(), w, ServerStep(SubmitEvent(1, c.first.wgPublicKey, 2, c.Proposal(n), At(now))))
  {
    var m := c.Proposal(n);
    forall side: bool, signer | signer in c.Roles().Keys(side) && m.VerifiedBy(signer)
      ensures exists s :: s in w.At(side).sent && s.signature == m.signature
    {
      assert side && w.At(true) == w.initiator && m in w.At(side).sent;
    }
    hide Cast.Proposal, Message.VerifiedBy, Setup.Keys;
  }

  lemma CurrentReadable(c: Setup, w: World, k: RowKey)
    requires Inv(c, w) && k in w.log.tables.exchanges && c.Owns(k)
    ensures Readable(c, w.log, w.log.tables.exchanges[k])
  {
    assert ChainInv(w.log);
    hide Inv, ChainOf;
    assert Version(w.log, k, |w.log.history[k]| - 1);
  }

  lemma {:induction false} RunAppends(c: Setup, w: World, steps: seq<Step>, s: Step)
    requires AllowedRun(c, w, steps) && Allowed(c, Run(c, w, steps), s)
    ensures AllowedRun(c, w, steps + [s]) && Run(c, w, steps + [s]) == Next(c, Run(c, w, steps), s)
    decreases |steps|
  {
    hide Allowed, Next;
    if |steps| == 0 {
      assert [s][1..] == [] && steps + [s] == [s];
      assert Run(c, w, [s]) == Run(c, Next(c, w, s), []) && AllowedRun(c, Next(c, w, s), []);
    } else {
      assert (steps + [s])[1..] == steps[1..] + [s];
      RunAppends(c, Next(c, w, steps[0]), steps[1..], s);
    }
  }

  ghost predicate Reached(c: Cast, i: nat, w: World) {
    i <= LENGTH && AllowedRun(c.Roles(), c.Start(), Steps(c, i)) && w == Run(c.Roles(), c.Start(), Steps(c, i))
  }

  lemma Advances(c: Cast, i: nat, w: World)
    requires i < LENGTH && Reached(c, i, w) && Allowed(c.Roles(), w, StepAt(c, i))
    ensures Reached(c, i + 1, Next(c.Roles(), w, StepAt(c, i)))
  {
    hide StepAt, Allowed, Next, Run, AllowedRun;
    RunAppends(c.Roles(), c.Start(), Steps(c, i), StepAt(c, i));
  }

  lemma StartIsInitial(c: Cast)
    requires c.Valid()
    ensures Initial(c.Roles(), c.Start()) && Reached(c, 0, c.Start()) && Stage(c, c.Start(), StandAt(c, 0))
  {
    assert c.Start().log == InitialLog(c.networkId, c.Listing());
  }

  /** The steps of the mailbox and what they leave in the tables. */
  lemma TablesMove(c: Cast, i: nat)
    requires c.Valid() && i in {0, 1, 2, 4, 5, 8}
    ensures StepAt(c, i).ServerStep?
    ensures StandAt(c, i + 1) == StandAt(c, i).(tables := StepLog(Log(StandAt(c, i).tables, map[]), StepAt(c, i).event).tables)
  {
    hide Recorded, Register, Submit, Sweep, Cast.Proposal, Cast.Plan, Cast.Opened, Cast.Expired, Cast.Rows, Offering;
    match i
    case 1 => FirstRegistered(c);
    case 2 => SecondRegistered(c);
    case 4 => ProposalStored(c, 2, map[], 1, 0);
    case 5 => ProposalExpires(c);
    case 8 => SecondStored(c);
    case _ =>
  }

  lemma SecondStored(c: Cast)
    requires c.Valid()
    ensures Submit(c.Rows(3, map[c.Row() := c.Expired()]), 1, c.first.wgPublicKey, 2, c.Proposal(2), At(600)).0
            == c.Rows(3, map[c.Row() := c.Opened(2, 600)])
  {
    assert Vacant(c, map[c.Row() := c.Expired()], 2);
    hide Submit;
    ProposalStored(c, 3, map[c.Row() := c.Expired()], 2, 600);
  }

  /** One step of the mailbox leads from one stage to the next. */
  lemma ServerMoves(c: Cast, i: nat, w: World) returns (w': World)
    requires c.Valid() && i in {0, 1, 2, 4, 5, 8} && Reached(c, i, w) && Stage(c, w, StandAt(c, i))
    ensures Reached(c, i + 1, w') && Stage(c, w', StandAt(c, i + 1))
  {
    MailboxStepAllowed(c, i, w);
    TablesMove(c, i);
    hide Reached, Stage, StandAt, StepAt, StepLog, Allowed;
    Advances(c, i, w);
    w' := Next(c.Roles(), w, StepAt(c, i));
    ServerStage(c, w, StandAt(c, i), StepAt(c, i).event);
  }

  lemma MailboxStepAllowed(c: Cast, i: nat, w: World)
    requires c.Valid() && i in {0, 1, 2, 4, 5, 8} && Stage(c, w, StandAt(c, i))
    ensures Allowed(c.Roles(), w, StepAt(c, i))
  {
    if i == 4 {
      SubmitAllowed(c, w, StandAt(c, 4), 1, 0);
    } else if i == 8 {
      SubmitAllowed(c, w, StandAt(c, 8), 2, 600);
    } else {
      hide Stage, Unforged, StandAt, Cast.Proposal;
    }
  }

  lemma ProposalMoves(c: Cast, i: nat, w: World) returns (w': World)
    requires c.Valid() && i in {3, 7} && Reached(c, i, w) && Stage(c, w, StandAt(c, i))
    ensures Reached(c, i + 1, w') && Stage(c, w', StandAt(c, i + 1))
  {
    var n, now := if i == 3 then 1 else 2, if i == 3 then 0 else 600;
    assert StandAt(c, i).r == c.Peer(true).(sequence := n)
           && (forall t :: t in StandAt(c, i).proposals ==> t.exchangeId != c.Plan(n).exchangeId)
           && StepAt(c, i) == CycleStep(true, None, Calling(c, now, c.Plan(n).exchangeId), Saved)
           && StandAt(c, i + 1) == Stand(StandAt(c, i).tables, Waiting(c, n), StandAt(c, i).sent + {c.Proposal(n)},
                                         StandAt(c, i).proposals + {c.Plan(n)}) by {
      hide Cast.Proposal, Cast.Opened, Cast.Expired, Cast.Rows, Reached, Stage;
    }
    hide Reached, Stage, StandAt, StepAt, Allowed, Next, Waiting, Cast.Plan, Cast.Proposal;
    ProposeStage(c, w, StandAt(c, i), n, now);
    Advances(c, i, w);
    w' := Next(c.Roles(), w, StepAt(c, i));
  }

  /** The initiator reads that its first exchange was aborted, and lets go of it. */
  lemma WithdrawalMoves(c: Cast, w: World) returns (w': World)
    requires c.Valid() && Reached(c, 6, w) && Stage(c, w, StandAt(c, 6))
    ensures Reached(c, 7, w') && Stage(c, w', StandAt(c, 7))
  {
    StoredRow(c, 6, w);
    ReadableRow(c, 6, w, c.Expired());
    WithdrawalStep(c, w);
    hide Reached, Stage, StandAt, StepAt, Readable, Allowed, Next, Waiting, Inv, Cast.Expired;
    WithdrawStage(c, w, StandAt(c, 6), 600);
    Advances(c, 6, w);
    w' := Next(c.Roles(), w, StepAt(c, 6));
  }

  lemma StoredRow(c: Cast, i: nat, w: World)
    requires i in {6, 9} && Stage(c, w, StandAt(c, i))
    ensures c.Row() in w.log.tables.exchanges
            && w.log.tables.exchanges[c.Row()] == if i == 6 then c.Expired() else c.Opened(2, 600)
  {
    hide Cast.Proposal, Cast.Opened, Cast.Expired, Offering;
  }

  lemma WithdrawalStep(c: Cast, w: World)
    requires c.Valid() && Stage(c, w, StandAt(c, 6)) && Readable(c.Roles(), w.log, c.Expired())
    ensures StandAt(c, 6).r == Waiting(c, 1) && StandAt(c, 7) == StandAt(c, 6).(r := c.Peer(true).(sequence := 2))
    ensures StepAt(c, 6) == CycleStep(true, Some(c.Expired()), Calling(c, 600, c.exchange2), Saved)
    ensures Allowed(c.Roles(), w, StepAt(c, 6))
  {
    hide Cast.Proposal, Cast.Opened, Cast.Expired, Cast.Rows, Offering, Readable;
  }

  lemma ReadableRow(c: Cast, i: nat, w: World, v: Exchange)
    requires c.Valid() && Reached(c, i, w) && c.Row() in w.log.tables.exchanges && w.log.tables.exchanges[c.Row()] == v
    ensures Inv(c.Roles(), w) && Readable(c.Roles(), w.log, v)
  {
    StartIsInitial(c);
    hide Initial, Inv, Run, AllowedRun, Readable, Steps;
    InitialKeepsInv(c.Roles(), c.Start());
    RunKeepsSystemInv(c.Roles(), c.Start(), Steps(c, i));
    CurrentReadable(c.Roles(), w, c.Row());
  }

  lemma SecondProposed(c: Cast) returns (w: World)
    requires c.Valid()
    ensures Reached(c, 9, w) && Stage(c, w, StandAt(c, 9))
  {
    StartIsInitial(c);
    hide Reached, Stage, StandAt, Cast.Start, Cast.Valid, Initial;
    w := ServerMoves(c, 0, c.Start());
    w := ServerMoves(c, 1, w);
    w := ServerMoves(c, 2, w);
    w := ProposalMoves(c, 3, w);
    w := ServerMoves(c, 4, w);
    w := ServerMoves(c, 5, w);
    w := WithdrawalMoves(c, w);
    w := ProposalMoves(c, 7, w);
    w := ServerMoves(c, 8, w);
  }

  /**
    The check refuses a state that is really reached, in memory and on disk: after this
    run, for any two bundles, the responder holds its answer to the second exchange, and
    has counted no sequence.
  */
  lemma ReachedStateIsRefused(c: Cast)
    requires c.Valid()
    ensures Initial(c.Roles(), c.Start()) && AllowedRun(c.Roles(), c.Start(), Steps(c, LENGTH))
    ensures var n := Run(c.Roles(), c.Start(), Steps(c, LENGTH)).responder;
            && n.saved == n.relationship && n.relationship.pending.Some?
            && n.relationship.sequence == 1 && n.relationship.pending.value.transcript.sequence == 2
            && ValidatePending(n.self, 1, n.relationship, n.relationship.pending.value) == Err(Invalid)
            && ValidatePending(n.savedSelf, 1, n.saved, n.saved.pending.value) == Err(Invalid)
  {
    StartIsInitial(c);
    var w := SecondProposed(c);
    AnswerMoves(c, w);
    hide Initial, Run, AllowedRun, Next, Steps, ValidateOutbox;
  }

  lemma AnswerMoves(c: Cast, w: World)
    requires c.Valid() && Reached(c, 9, w) && Stage(c, w, StandAt(c, 9))
    ensures var w' := Next(c.Roles(), w, StepAt(c, 9));
            && Reached(c, 10, w') && w'.responder.saved == w'.responder.relationship
            && w'.responder.relationship.pending.Some? && w'.responder.relationship.sequence == 1
            && w'.responder.relationship.pending.value.transcript.sequence == 2
  {
    StoredRow(c, 9, w);
    ReadableRow(c, 9, w, c.Opened(2, 600));
    AnswerStep(c, w);
    hide Reached, Stage, StandAt, StepAt, Readable, Allowed, Next, Inv, Cast.Opened;
    Advances(c, 9, w);
  }

  lemma AnswerStep(c: Cast, w: World)
    requires c.Valid() && Stage(c, w, StandAt(c, 9)) && Readable(c.Roles(), w.log, c.Opened(2, 600))
    ensures Allowed(c.Roles(), w, StepAt(c, 9))
    ensures var w' := Next(c.Roles(), w, StepAt(c, 9));
            && w'.responder.saved == w'.responder.relationship
            && w'.responder.relationship.pending.Some? && w'.responder.relationship.sequence == 1
            && w'.responder.relationship.pending.value.transcript.sequence == 2
  {
    Answers(c, 600);
    assert w.At(false) == c.NewPeer(false);
    hide StandAt, Readable, Reconcile, Cast.Proposal, Cast.Opened, Cast.Rows, Cast.Plan;
    assert c.Plan(2).sequence == 2 by { PlanSequence(c, 2); }
  }

  lemma PlanSequence(c: Cast, n: Number)
    ensures c.Plan(n).sequence == n
  {
  }

  /** The first proposal of the run is fresh: what is proved of fresh proposals is proved of something. */
  lemma FirstIsFresh(c: Cast)
    requires c.Valid()
    ensures Fresh(SceneOf(c, 1), Duet.State(None, Waiting(c, 1), c.Peer(false)), c.Peer(true), Calling(c, 0, c.exchange1))
  {
    Proposes(c, 1, 0);
    assert SceneOf(c, 1).Valid();
    hide Cast.Proposal, Signed;
  }

  /** There are bundles and identifiers for such a run. */
  lemma SomeCast() returns (c: Cast)
    ensures c.Valid()
  {
    var zeros: seq<Byte>, ones: seq<Byte> := seq(2000, _ => 0), seq(2000, _ => 1);
    var first := Bundle(zeros[..16], 1, zeros[..32], zeros[..1568], zeros[..56], zeros[..67]);
    var second := Bundle(ones[..16], 1, zeros[..32], zeros[..1568], zeros[..56], ones[..67]);
    c := Cast(zeros[..16], first, second, zeros[..16], ones[..16], zeros[..16], zeros[..32], zeros[..1624]);
    assert first.bundleId[0] != second.bundleId[0] && first.sigPublicKey[0] != second.sigPublicKey[0];
    assert c.exchange1[0] != c.exchange2[0];
  }
}
