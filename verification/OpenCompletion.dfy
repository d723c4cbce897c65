/**
  What a live backoff window can hide: from every fresh proposal there is a schedule after
  which a side completes although the server never received its last message.
*/
module OpenCompletion {
  import opened Results
  import opened Numbers
  import opened Protocol
  import opened Mailbox
  import opened MailboxHistory
  import opened Engine
  import opened EngineFacts
  import opened Simulation
  import opened Duet
  import opened Progress
  import opened ProgressRuns

  // ---------------------------------------------------------------- The schedule

  /** So many messages of each side have arrived; the sides take turns. */
  predicate Turns(a: nat, b: nat) {
    a <= 3 && (b == a || a == b + 1)
  }

  function Prompt(side: bool, c: Cycle): Poll {
    Poll(side, c, true, true, 0, 0)
  }

  /** The initiator's last message is lost. */
  function Loss(c: Cycle, random: Byte): Poll {
    Poll(true, c, false, false, 0, random)
  }

  function Schedule(a: nat, b: nat, c: Cycle, random: Byte): seq<Poll>
    requires Turns(a, b)
    decreases 6 - a - b
  {
    if a == 3 && b == 3 then [Loss(c, random)]
    else if a == b then [Prompt(true, c)] + Schedule(a + 1, b, c, random)
    else [Prompt(false, c)] + Schedule(a, b + 1, c, random)
  }

  // ---------------------------------------------------------------- Where it stands

  /** The record carries the first messages of a side's script, and no other of it. */
  ghost predicate HasArrived(sc: Scene, record: Option<Exchange>, side: bool, n: nat)
    requires n <= |ScriptKinds(side)|
  {
    forall k :: Carried(sc, record, side, k) <==> k in ScriptKinds(side)[..n]
  }

  ghost predicate Carrying(sc: Scene, record: Option<Exchange>, a: nat, b: nat) {
    a <= 4 && b <= 3 && HasArrived(sc, record, true, a) && HasArrived(sc, record, false, b)
  }

  predicate Flying(r: Relationship, n: nat) {
    r.pending.Some? && r.pending.value.nextRetryAt == 0 && |r.pending.value.outbox| == n
  }

  ghost predicate Holding(sc: Scene, st: State, a: nat, b: nat) {
    && StateInv(sc, st) && Carrying(sc, st.record, a, b)
    && Flying(st.initiator, if a == 0 then 1 else a)
    && if b == 0 then st.responder.pending.None? && !Done(sc, st.responder) else Flying(st.responder, b)
  }

  predicate Calm(c: Cycle) {
    c.installSucceeds && c.handshake == Ok(true)
  }

  lemma KindSets(a: nat, b: nat)
    requires a <= 4 && b <= 3
    ensures forall k :: k in ScriptKinds(true)[..a] <==>
              (k == Kind.Propose && a >= 1) || (k == Kind.Commit && a >= 2) || (k == Kind.Installed && a >= 3) || (k == Kind.Confirmed && a >= 4)
    ensures forall k :: k in ScriptKinds(false)[..b] <==>
              (k == Kind.Ready && b >= 1) || (k == Kind.Installed && b >= 2) || (k == Kind.Confirmed && b >= 3)
  {
    var first, second := ScriptKinds(true), ScriptKinds(false);
    assert first[..0] == [] && first[..1] == [Kind.Propose] && first[..2] == [Kind.Propose, Kind.Commit];
    assert first[..3] == [Kind.Propose, Kind.Commit, Kind.Installed] && first[..4] == first;
    assert second[..0] == [] && second[..1] == [Kind.Ready] && second[..2] == [Kind.Ready, Kind.Installed] && second[..3] == second;
  }

  /** The server's decision, from what has arrived. */
  lemma Decided(sc: Scene, record: Option<Exchange>, a: nat, b: nat)
    requires sc.Valid() && RecordInv(sc, record) && Current(sc, record) && Carrying(sc, record, a, b) && Turns(a, b)
    ensures var d := record.value.decision;
            && d.phase == (if b == 0 then Phase.Proposed else if a == 1 then Phase.Ready else Phase.Committed)
            && d.installed.responder == (b >= 2) && d.confirmed.responder == (b >= 3)
  {
    RecordDemands(sc, record, true, Kind.Propose);
    RecordDemands(sc, record, false, Kind.Ready);
    RecordDemands(sc, record, true, Kind.Commit);
    RecordDemands(sc, record, false, Kind.Installed);
    RecordDemands(sc, record, false, Kind.Confirmed);
    RecordDemands(sc, record, true, Kind.Confirmed);
    KindSets(a, b);
    hide RecordInv, Carried, Replay, Carries, ScriptKinds;
  }

  lemma TakesTurns(sc: Scene, st: State, a: nat, b: nat)
    requires Holding(sc, st, a, b) && Turns(a, b)
    ensures var side := a == b; ProgressRuns.Enabled(sc, side, st.record, st.At(side))
    ensures a > 0 ==> Current(sc, st.record) && st.record.value.Active()
  {
    assert a > 0 ==> Carried(sc, st.record, true, Kind.Propose) by { KindSets(a, b); hide Carried; }
    if Current(sc, st.record) {
      Decided(sc, st.record, a, b);
    }
    hide RecordInv, SideInv, Carrying, Demands, Replay, Carries;
  }

  // ---------------------------------------------------------------- One prompt

  lemma KindAt(side: bool, n: nat)
    requires n < |ScriptKinds(side)|
    ensures ScriptKinds(side)[n] !in ScriptKinds(side)[..n]
    ensures forall k :: k in ScriptKinds(side)[..n + 1] <==> k in ScriptKinds(side)[..n] || k == ScriptKinds(side)[n]
    ensures forall j :: 0 <= j < |ScriptKinds(side)| && ScriptKinds(side)[j] in ScriptKinds(side)[..n] ==> j < n
  {
  }

  /** What is queued is what has arrived, and one message more. */
  lemma NextQueued(sc: Scene, side: bool, record: Option<Exchange>, p: Pending, n: nat)
    requires sc.Valid() && Held(sc, side, record, p) && !Carried(sc, record, side, LastKind(side, p))
    requires n < |ScriptKinds(side)| && forall k :: Carried(sc, record, side, k) <==> k in ScriptKinds(side)[..n]
    ensures |p.outbox| == n + 1 && LastKind(side, p) == ScriptKinds(side)[n]
  {
    HeldIsPlaced(sc, side, record, p);
    KindAt(side, n);
    var last := |p.outbox| - 1;
    assert ScriptKinds(side)[last] !in ScriptKinds(side)[..n];
    hide PendingShape, Sound, Carried, Backed, Listed;
  }

  lemma DriveRetries(self: Identity, other: Number, r: Relationship, p: Pending, c: Cycle)
    requires p.nextRetryAt == 0
    ensures var q := Drive(self, other, r, p, c).relationship.pending; q.Some? ==> q.value.nextRetryAt == 0
  {
    hide Signed, Decision.Advance;
  }

  lemma OpeningRetries(self: Identity, other: Number, r: Relationship, remote: Option<Exchange>, c: Cycle)
    requires r.pending.None?
    ensures var q := Start(self, other, r, c).relationship.pending; q.Some? ==> q.value.nextRetryAt == 0
    ensures var q := Join(self, other, r, remote).relationship.pending; q.Some? ==> q.value.nextRetryAt == 0
  {
    hide Signed, Due, FindProposal, Message.Authenticate, Message.Confirm, Decision.Advance;
  }

  lemma RetryKept(self: Identity, other: Number, r: Relationship, remote: Option<Exchange>, c: Cycle)
    requires r.pending.Some? ==> r.pending.value.nextRetryAt == 0
    ensures var p := Reconcile(self, other, r, remote, c).relationship.pending; p.Some? ==> p.value.nextRetryAt == 0
  {
    hide Start, Join, Absorb, DurablySent, Drive;
    if r.pending.Some? {
      DriveRetries(self, other, r, r.pending.value.(decision := Absorb(r.pending.value, remote, other).0), c);
    } else {
      OpeningRetries(self, other, r, remote, c);
    }
  }

  /** A side whose turn it is sends its next message. */
  lemma SendsNext(sc: Scene, st: State, a: nat, b: nat, c: Cycle)
    requires Holding(sc, st, a, b) && Turns(a, b) && Calm(c)
    ensures var side := a == b;
            var out := Reconcile(sc.Self(side), SideId(sc.t, !side), st.At(side), st.record, c);
            && Cooperative(st.At(side), side, c) && Sends(sc, side, st.record, st.At(side), out)
            && Flying(out.relationship, if side then a + 1 else b + 1)
            && LastKind(side, out.relationship.pending.value) == ScriptKinds(side)[if side then a else b]
  {
    var side := a == b;
    var n := if side then a else b;
    var out := Reconcile(sc.Self(side), SideId(sc.t, !side), st.At(side), st.record, c);
    TakesTurns(sc, st, a, b);
    SideInvOf(sc, st, side);
    RetryKept(sc.Self(side), SideId(sc.t, !side), st.At(side), st.record, c);
    NotComplete(sc, st, a, b);
    assert sc.Valid() && RecordInv(sc, st.record) && Cooperative(st.At(side), side, c);
    assert n < |ScriptKinds(side)| && forall k :: Carried(sc, st.record, side, k) <==> k in ScriptKinds(side)[..n];
    hide Reconcile, StateInv, RecordInv, SideInv, Carrying, Cooperative, Carried, Held, ProgressRuns.Enabled;
    CallCases(sc, side, st.record, st.At(side), c);
    if !Sends(sc, side, st.record, st.At(side), out) {
      DoneNeedsComplete(sc, side, st.record, out.relationship);
    }
    assert !Carried(sc, st.record, side, LastKind(side, out.relationship.pending.value)) && out.relationship.pending.Some?;
    NextQueued(sc, side, st.record, out.relationship.pending.value, n);
  }

  lemma DoneNeedsComplete(sc: Scene, side: bool, record: Option<Exchange>, r: Relationship)
    requires SideInv(sc, side, record, r) && Done(sc, r)
    ensures Current(sc, record) && record.value.decision.phase == Phase.Complete
  {
    hide Held;
  }

  lemma NotComplete(sc: Scene, st: State, a: nat, b: nat)
    requires Holding(sc, st, a, b) && Turns(a, b)
    ensures !(Current(sc, st.record) && st.record.value.decision.phase == Phase.Complete)
  {
    TakesTurns(sc, st, a, b);
    if Current(sc, st.record) {
      RecordDemands(sc, st.record, true, Kind.Propose);
    }
    hide RecordInv, SideInv, Carried, Carries, Replay;
  }

  /** A prompt whose message arrives moves one message on. */
  lemma PromptMoves(sc: Scene, st: State, a: nat, b: nat, c: Cycle)
    requires Holding(sc, st, a, b) && Turns(a, b) && !(a == 3 && b == 3) && Calm(c)
    ensures var side := a == b;
            Eligible(st, Prompt(side, c))
            && Holding(sc, Turn(sc, st, Prompt(side, c)), if side then a + 1 else a, if side then b else b + 1)
  {
    var side, poll := a == b, Prompt(a == b, c);
    var out := Reconcile(sc.Self(side), SideId(sc.t, !side), st.At(side), st.record, c);
    SendsNext(sc, st, a, b, c);
    assert sc.Valid() && RecordInv(sc, st.record);
    SentTurn(sc, st, poll, out);
    SentTo(sc, st, poll, out);
    var p := out.relationship.pending.value;
    assert 1 <= |p.outbox| <= |ScriptKinds(side)|;
    MoreCarrying(sc, st, side, out, a, b);
    hide Reconcile, StateInv, RecordInv, Held, Carrying, Sends, Turn, Deliver, Cooperative;
  }

  lemma MoreCarrying(sc: Scene, st: State, side: bool, out: Outcome, a: nat, b: nat)
    requires sc.Valid() && RecordInv(sc, st.record) && Carrying(sc, st.record, a, b) && Sends(sc, side, st.record, st.At(side), out)
    requires a < 4 && b < 3 + (if side then 1 else 0) && Flying(out.relationship, if side then a + 1 else b + 1)
    requires LastKind(side, out.relationship.pending.value) == ScriptKinds(side)[if side then a else b]
    ensures var p := out.relationship.pending.value;
            Carrying(sc, Deliver(sc, st.record, side, p.outbox[|p.outbox| - 1], 0), if side then a + 1 else a, if side then b else b + 1)
  {
    var p := out.relationship.pending.value;
    var after := Deliver(sc, st.record, side, p.outbox[|p.outbox| - 1], 0);
    assert Held(sc, side, st.record, p) && !Carried(sc, st.record, side, LastKind(side, p)) by { hide Held, Carried; }
    HeldIsPlaced(sc, side, st.record, p);
    DeliveredIsTaken(sc, side, st.record, p, 0);
    hide Deliver, Held, RecordInv, Carried, HasArrived, CarriesOneMore, Sends, LastKind, Flying;
    NextArrives(sc, st.record, after, side, LastKind(side, p), if side then a else b);
    OthersArrived(sc, st.record, after, side, LastKind(side, p), if side then b else a);
  }

  lemma NextArrives(sc: Scene, record: Option<Exchange>, after: Option<Exchange>, side: bool, kind: Kind, n: nat)
    requires CarriesOneMore(sc, record, after, side, kind) && n < |ScriptKinds(side)| && HasArrived(sc, record, side, n)
    requires kind == ScriptKinds(side)[n]
    ensures HasArrived(sc, after, side, n + 1)
  {
    KindAt(side, n);
    hide Carried;
  }

  lemma OthersArrived(sc: Scene, record: Option<Exchange>, after: Option<Exchange>, side: bool, kind: Kind, n: nat)
    requires CarriesOneMore(sc, record, after, side, kind) && n <= |ScriptKinds(!side)| && HasArrived(sc, record, !side, n)
    ensures HasArrived(sc, after, !side, n)
  {
    hide Carried;
  }

  // ---------------------------------------------------------------- The last message is lost

  /** The last message is queued and lost; the other side's last one is there. */
  lemma LossMoves(sc: Scene, st: State, c: Cycle, random: Byte)
    requires Holding(sc, st, 3, 3) && Calm(c) && c.now < MAX_U64
    ensures Eligible(st, Loss(c, random))
    ensures var st' := Turn(sc, st, Loss(c, random));
            && StateInv(sc, st') && st'.record == st.record
            && st'.initiator.pending.Some? && |st'.initiator.pending.value.outbox| == 4 && st'.initiator.pending.value.nextRetryAt > c.now
  {
    var poll := Loss(c, random);
    var out := Reconcile(sc.Self(true), SideId(sc.t, false), st.At(true), st.record, c);
    SendsNext(sc, st, 3, 3, c);
    SentTurn(sc, st, poll, out);
    SentTo(sc, st, poll, out);
    hide Reconcile, StateInv, Carrying, Holding, Sends, Turn, Cooperative, Pow2;
  }

  /** A call inside the window completes, though the record is open and lacks the message. */
  lemma WindowCompletes(sc: Scene, st: State, c: Cycle)
    requires StateInv(sc, st) && Carrying(sc, st.record, 3, 3)
    requires st.initiator.pending.Some? && |st.initiator.pending.value.outbox| == 4 && st.initiator.pending.value.nextRetryAt > c.now
    ensures Current(sc, st.record) && st.record.value.Active() && !Carried(sc, st.record, true, Kind.Confirmed)
    ensures Reconcile(sc.initiator, sc.t.responderId, st.initiator, st.record, c).result == Ok(Action.Complete)
  {
    var record, p := st.record, st.initiator.pending.value;
    assert Carried(sc, record, true, Kind.Propose) && Carried(sc, record, false, Kind.Confirmed) && !Carried(sc, record, true, Kind.Confirmed) by {
      KindSets(3, 3);
      hide Carried;
    }
    Decided(sc, record, 3, 3);
    assert sc.Valid() && RecordInv(sc, record) && Held(sc, true, record, p) && SideInv(sc, true, record, st.initiator);
    InFlight(sc, true, record, st.initiator, c);
    AbsorbedView(sc, true, record, p);
    var absorbed := Absorb(p, record, sc.t.responderId);
    BothConfirmed(sc, record, p, p.(decision := absorbed.0));
    hide Reconcile, Absorb, Held, RecordInv, StateInv, SideInv, Carrying, Carried;
    ContinueCompletes(sc, st.initiator, p, record, c);
  }

  lemma BothConfirmed(sc: Scene, record: Option<Exchange>, p: Pending, q: Pending)
    requires sc.Valid() && RecordInv(sc, record) && Current(sc, record) && record.value.decision.confirmed.responder
    requires Held(sc, true, record, q) && |q.outbox| == 4 && Covers(record.value.decision, q.decision)
    ensures q.decision.phase == Phase.Complete
  {
    assert Demands(record.value.decision, false, Kind.Confirmed);
    assert Queued(q, Kind.Confirmed) by { LastIsConfirmed(q); }
    QueuedIsDemanded(true, q, Kind.Confirmed);
    hide Queued, Backed, Relayed, Listed, RecordInv, Script;
  }

  lemma LastIsConfirmed(q: Pending)
    requires PendingShape(true, q) && |q.outbox| == 4
    ensures Queued(q, Kind.Confirmed)
  {
    assert q.outbox[3] in q.outbox;
  }

  lemma ContinueCompletes(sc: Scene, r: Relationship, p: Pending, record: Option<Exchange>, c: Cycle)
    requires Absorb(p, record, sc.t.responderId).1.Ok? && Absorb(p, record, sc.t.responderId).0.phase == Phase.Complete
    requires p.nextRetryAt > c.now
    ensures Continue(sc.initiator, sc.t.responderId, r, p, record, c).result == Ok(Action.Complete)
  {
    hide Absorb, DurablySent;
  }

  // ---------------------------------------------------------------- From a fresh proposal

  lemma {:induction false} ScheduleLeadsThere(sc: Scene, st: State, a: nat, b: nat, c: Cycle, random: Byte)
    requires Holding(sc, st, a, b) && Turns(a, b) && Calm(c) && c.now < MAX_U64
    ensures EligibleRun(sc, st, Schedule(a, b, c, random))
    ensures var end := RunPolls(sc, st, Schedule(a, b, c, random));
            && Current(sc, end.record) && end.record.value.Active() && !Carried(sc, end.record, true, Kind.Confirmed)
            && Reconcile(sc.initiator, sc.t.responderId, end.initiator, end.record, c).result == Ok(Action.Complete)
    decreases 6 - a - b
  {
    var polls := Schedule(a, b, c, random);
    var next := Turn(sc, st, polls[0]);
    RunUnfolds(sc, st, polls);
    hide Holding, Turn, Eligible, Carried, Current, Reconcile;
    if a == 3 && b == 3 {
      LossMoves(sc, st, c, random);
      assert Carrying(sc, st.record, 3, 3) by { HoldingCarries(sc, st); }
      WindowCompletes(sc, next, c);
      assert polls == [Loss(c, random)] && polls[1..] == [];
    } else {
      PromptMoves(sc, st, a, b, c);
      assert polls[1..] == Schedule(if a == b then a + 1 else a, if a == b then b else b + 1, c, random);
      ScheduleLeadsThere(sc, next, if a == b then a + 1 else a, if a == b then b else b + 1, c, random);
    }
  }

  lemma HoldingCarries(sc: Scene, st: State)
    requires Holding(sc, st, 3, 3)
    ensures Carrying(sc, st.record, 3, 3)
  {
  }

  /**
    Any fresh proposal may end like this: seven calls, the last message of the initiator
    lost, and then a call inside the backoff window that completes although the record on
    the server is open and has not received that message.
  */
  lemma BackoffCanHideTheLoss(sc: Scene, st: State, before: Relationship, start: Cycle, c: Cycle, random: Byte)
    requires Fresh(sc, st, before, start) && Calm(c) && c.now < MAX_U64
    ensures EligibleRun(sc, st, Schedule(0, 0, c, random))
    ensures var end := RunPolls(sc, st, Schedule(0, 0, c, random));
            && Current(sc, end.record) && end.record.value.Active() && !Carried(sc, end.record, true, Kind.Confirmed)
            && Reconcile(sc.initiator, sc.t.responderId, end.initiator, end.record, c).result == Ok(Action.Complete)
  {
    FreshHolds(sc, st, before, start);
    hide *;
    assert Turns(0, 0) by { StartOfTurns(); }
    ScheduleLeadsThere(sc, st, 0, 0, c, random);
  }

  lemma StartOfTurns()
    ensures Turns(0, 0)
  {
  }

  lemma FreshHolds(sc: Scene, st: State, before: Relationship, start: Cycle)
    requires Fresh(sc, st, before, start)
    ensures Holding(sc, st, 0, 0)
  {
    FreshInv(sc, st, before, start);
    FreshHeld(sc, st, before, start);
    OpeningRetries(sc.initiator, sc.t.responderId, before, None, start);
    assert forall s: bool, k :: !Carried(sc, st.record, s, k);
    KindSets(0, 0);
    hide Start, StateInv, Held, Carried;
  }
}
