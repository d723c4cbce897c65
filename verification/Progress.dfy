/** Two sides that keep polling finish the exchange: a rank that every round lowers. */
module Progress {
  import opened Results
  import opened Protocol
  import opened Mailbox
  import opened MailboxHistory
  import opened Engine
  import opened EngineFacts
  import opened ReplayFacts
  import opened Simulation
  import opened Duet

  // ---------------------------------------------------------------- What holds between calls

  /** A view rests on what the record carries and on what the side itself queued. */
  ghost predicate Backed(sc: Scene, side: bool, record: Option<Exchange>, p: Pending) {
    forall s: bool, k :: Demands(p.decision, s, k) ==> Carried(sc, record, s, k) || (s == side && Queued(p, k))
  }

  ghost predicate Relayed(sc: Scene, side: bool, record: Option<Exchange>, p: Pending)
    requires |p.outbox| <= |ScriptKinds(side)|
  {
    forall j :: 0 <= j < |p.outbox| - 1 ==> Carried(sc, record, side, ScriptKinds(side)[j])
  }

  ghost predicate Listed(sc: Scene, side: bool, record: Option<Exchange>, p: Pending) {
    forall k :: Carried(sc, record, side, k) ==> Queued(p, k)
  }

  /** An exchange in flight, between calls. */
  ghost predicate Held(sc: Scene, side: bool, record: Option<Exchange>, p: Pending) {
    && p.transcript == sc.t && p.candidate == sc.Candidate()
    && PendingShape(side, p) && Sound(p.decision) && (p.decision.phase == Phase.Complete ==> p.confirmed)
    && Backed(sc, side, record, p) && Relayed(sc, side, record, p) && Listed(sc, side, record, p)
  }

  predicate Done(sc: Scene, r: Relationship) {
    r.pending.None? && r.confirmed.Some? && r.confirmed.value.exchangeId == sc.t.exchangeId
  }

  predicate Sane(sc: Scene, side: bool, r: Relationship) {
    && !r.gated && r.status != Status.Blocked
    && r.remote == SideBundle(sc.t, !side) && r.operatorPsk == sc.operatorPsk
  }

  ghost predicate SideInv(sc: Scene, side: bool, record: Option<Exchange>, r: Relationship) {
    && Sane(sc, side, r)
    && (r.pending.Some? ==> Held(sc, side, record, r.pending.value))
    && (r.pending.None? ==>
          if Done(sc, r) then
            Current(sc, record) && record.value.decision.phase == Phase.Complete && r.confirmed.value.psk == Psk(sc.Candidate())
          else !side && forall k :: !Carried(sc, record, false, k))
  }

  ghost predicate StateInv(sc: Scene, st: State) {
    && sc.Valid() && RecordInv(sc, st.record)
    && SideInv(sc, true, st.record, st.initiator) && SideInv(sc, false, st.record, st.responder)
  }

  // ---------------------------------------------------------------- Reading an open record

  lemma RecordDemands(sc: Scene, record: Option<Exchange>, s: bool, k: Kind)
    requires sc.Valid() && RecordInv(sc, record) && Current(sc, record)
    ensures Demands(record.value.decision, s, k) <==> Carried(sc, record, s, k)
    ensures Sound(record.value.decision) && Replay(record.value.receipts, sc.Key()) == Ok(record.value.decision)
    ensures !Carries(record.value.receipts, sc.Key(), true, Kind.Abort)
  {
    var e := record.value;
    assert !Carries(e.receipts, sc.Key(), true, Kind.Abort) by {
      hide DecisionReplays, BodiesMatch, Replay;
      if Carries(e.receipts, sc.Key(), true, Kind.Abort) {
        var i :| 0 <= i < |e.receipts| && SenderIsInitiator(e.receipts[i], sc.Key()) && e.receipts[i].messageType == Kind.Abort.Code();
        LineNeverAborts(sc, e, i);
      }
    }
    hide Carries, Script, BodiesMatch, Demands, DistinctReceipts;
    ReplayDemands(e.receipts, sc.Key(), s, k);
    ReplayOrdered(e.receipts, sc.Key());
  }

  lemma LineNeverAborts(sc: Scene, e: Exchange, i: nat)
    requires sc.Valid() && RecordInv(sc, Some(e)) && Current(sc, Some(e)) && i < |e.receipts|
    ensures e.receipts[i].messageType != Kind.Abort.Code()
  {
    hide DecisionReplays, BodiesMatch, Replay, DistinctReceipts, Script;
    var d := e.receipts[i];
    assert Faithful(d, sc.t) && IsLine(sc.t, sc.Candidate(), d.body.message);
    var s, kind := LineKind(sc.t, sc.Candidate(), d.body.message);
  }

  lemma OpenIsTranscribed(sc: Scene, record: Option<Exchange>)
    requires sc.Valid() && RecordInv(sc, record) && Current(sc, record) && record.value.Active()
    ensures Transcribed(sc, record.value.messages, record.value.receipts)
    ensures record.value.transcript == Some(sc.t) && record.value.key == sc.Key()
  {
    hide IsLine, DistinctReceipts, Replay;
    var e := record.value;
    forall i | 0 <= i < |e.messages|
      ensures e.receipts[i] == DigestOf(e.messages[i]) && IsLine(sc.t, sc.Candidate(), e.messages[i])
    {
      assert e.receipts[i] in e.receipts;
    }
  }

  /** What a side has queued, its own decision has taken into account. */
  lemma QueuedIsDemanded(side: bool, p: Pending, k: Kind)
    requires PendingShape(side, p) && Sound(p.decision) && (p.decision.phase == Phase.Complete ==> p.confirmed) && Queued(p, k)
    ensures Demands(p.decision, side, k)
  {
    var j := QueuedKind(side, p, k);
    hide Script;
  }

  lemma MessageIsCarried(sc: Scene, record: Option<Exchange>, i: nat, s: bool, k: Kind)
    requires sc.Valid() && Current(sc, record) && Transcribed(sc, record.value.messages, record.value.receipts) && i < |record.value.messages|
    requires record.value.messages[i].header.senderId == SideId(sc.t, s) && record.value.messages[i].header.messageType == k.Code()
    ensures Carried(sc, record, s, k)
  {
    hide IsLine, Replay;
    assert record.value.receipts[i] == DigestOf(record.value.messages[i]);
  }

  lemma CarriedIsSaid(sc: Scene, record: Option<Exchange>, s: bool, k: Kind)
    requires sc.Valid() && Current(sc, record) && Transcribed(sc, record.value.messages, record.value.receipts)
    ensures Carried(sc, record, s, k) <==> Said(record.value.messages, SideId(sc.t, s), k)
  {
    var e := record.value;
    hide IsLine, Replay;
    if Carried(sc, record, s, k) {
      var i :| 0 <= i < |e.receipts| && SenderIsInitiator(e.receipts[i], sc.Key()) == s && e.receipts[i].messageType == k.Code();
      var s', k' := MessageAt(sc, e.messages, e.receipts, i);
      assert e.messages[i] in e.messages;
    }
    if Said(e.messages, SideId(sc.t, s), k) {
      var m :| m in e.messages && m.header.senderId == SideId(sc.t, s) && m.header.messageType == k.Code();
      var i :| 0 <= i < |e.messages| && e.messages[i] == m;
      MessageIsCarried(sc, record, i, s, k);
    }
  }

  lemma HeldKnowsOwn(sc: Scene, side: bool, record: Option<Exchange>, p: Pending)
    requires sc.Valid() && RecordInv(sc, record) && Current(sc, record) && record.value.Active() && Held(sc, side, record, p)
    ensures KnowsOwn(sc, side, record.value.messages, p.decision)
  {
    OpenIsTranscribed(sc, record);
    hide RecordInv, PendingShape, Sound, Demands, Transcribed, Carried, Queued;
    forall i, k: Kind | 0 <= i < |record.value.messages| && record.value.messages[i].header.senderId == SideId(sc.t, side)
                        && record.value.messages[i].header.messageType == k.Code()
      ensures Demands(p.decision, side, k)
    {
      MessageIsCarried(sc, record, i, side, k);
      QueuedIsDemanded(side, p, k);
    }
  }

  /** Folding an open record of the scene succeeds and takes all of it in. */
  lemma FoldsAll(sc: Scene, side: bool, record: Option<Exchange>, p: Pending)
    requires sc.Valid() && RecordInv(sc, record) && Current(sc, record) && record.value.Active() && Held(sc, side, record, p)
    ensures var after := Fold(record.value.messages, SideId(sc.t, !side), sc.t, sc.Candidate(), p.decision);
            after.1 == Ok(Unit) && Sound(after.0) && Covers(record.value.decision, after.0)
  {
    var messages, receipts := record.value.messages, record.value.receipts;
    OpenIsTranscribed(sc, record);
    HeldKnowsOwn(sc, side, record, p);
    RecordDemands(sc, record, true, Kind.Propose);
    FirstIsProposal(sc, messages, receipts);
    assert Sound(p.decision) && |messages| == |receipts|;
    assert messages[0..] == messages;
    StartIsCovered(p.decision);
    hide *;
    var s, kind := FoldLine(sc, side, messages, receipts, 0, p.decision);
    ProposalNeverAdvances(p.decision, messages[0], kind, s);
    FoldReaches(sc, side, messages, receipts, 1, p.decision);
  }

  lemma StartIsCovered(d: Decision)
    ensures Covers(START, d)
  {
  }

  lemma ProposalNeverAdvances(d: Decision, m: Message, kind: Kind, s: bool)
    requires m.ValidateShape() == Ok(Kind.Propose) && m.header.messageType == kind.Code()
    ensures d.Advance(kind, s).Err?
  {
    ShapeNamesKind(m);
  }

  /** The exchange after reading an open record: still held, and covering the record. */
  lemma AbsorbedView(sc: Scene, side: bool, record: Option<Exchange>, p: Pending)
    requires sc.Valid() && RecordInv(sc, record) && Current(sc, record) && record.value.Active() && Held(sc, side, record, p)
    ensures var after := Absorb(p, record, SideId(sc.t, !side));
            after.1 == Ok(Unit) && Covers(record.value.decision, after.0) && Held(sc, side, record, p.(decision := after.0))
  {
    var other := SideId(sc.t, !side);
    var p' := p.(decision := Absorb(p, record, other).0);
    FoldsAll(sc, side, record, p);
    OpenIsTranscribed(sc, record);
    AbsorbFacts(side, p, record, other, true, true);
    FoldedAccounted(side, p, record, SideId(sc.t, side), other, false);
    assert Matches(record, p);
    hide PendingShape, Fold, RecordInv, Demands, Sound, Transcribed, Script, Carried, Said;
    forall s: bool, k | Demands(p'.decision, s, k)
      ensures Carried(sc, record, s, k) || (s == side && Queued(p', k))
    {
      if s != side && Said(record.value.messages, other, k) {
        CarriedIsSaid(sc, record, s, k);
      } else if s == side && Queued(p', k) {
      } else if s == side && Queued(p, k) {
        SameQueue(p, p', k);
      }
    }
    forall k | Carried(sc, record, side, k)
      ensures Queued(p', k)
    {
      SameQueue(p, p', k);
    }
  }

  lemma SameQueue(p: Pending, p': Pending, k: Kind)
    requires p'.outbox == p.outbox && Queued(p, k)
    ensures Queued(p', k)
  {
  }

  /** A side whose messages have all arrived sees exactly the server's decision. */
  lemma SettledView(sc: Scene, side: bool, record: Option<Exchange>, p: Pending)
    requires sc.Valid() && RecordInv(sc, record) && Current(sc, record) && Held(sc, side, record, p)
    requires Covers(record.value.decision, p.decision) && Carried(sc, record, side, LastKind(side, p))
    ensures p.decision == record.value.decision
  {
    var d, r := p.decision, record.value.decision;
    RecordDemands(sc, record, true, Kind.Abort);
    assert Sound(d) && Sound(r);
    hide *;
    forall s: bool, k | Demands(d, s, k)
      ensures Demands(r, s, k)
    {
      SettledDemand(sc, side, record, p, s, k);
    }
    CoversDemands(r, d);
    SoundNeverAborts(d);
    SoundNeverAborts(r);
    DemandsOrder(d, r);
    DemandsOrder(r, d);
    BelowBothWays(d, r);
  }

  lemma CoversDemands(d: Decision, e: Decision)
    requires Covers(d, e)
    ensures forall s: bool, k :: Demands(d, s, k) ==> Demands(e, s, k)
  {
  }

  lemma SettledDemand(sc: Scene, side: bool, record: Option<Exchange>, p: Pending, s: bool, k: Kind)
    requires sc.Valid() && RecordInv(sc, record) && Current(sc, record) && Held(sc, side, record, p)
    requires Carried(sc, record, side, LastKind(side, p)) && Demands(p.decision, s, k)
    ensures Demands(record.value.decision, s, k)
  {
    hide RecordInv, Demands, Carried, Queued;
    RecordDemands(sc, record, s, k);
    if s == side && Queued(p, k) {
      var j := QueuedKind(side, p, k);
      assert Carried(sc, record, side, ScriptKinds(side)[j]);
    }
  }

  lemma SoundNeverAborts(d: Decision)
    requires Sound(d)
    ensures !Demands(d, true, Kind.Abort) && (d.phase == Phase.Complete <==> d.confirmed == BOTH)
  {
  }

  lemma BelowBothWays(a: Decision, b: Decision)
    requires Below(a, b) && Below(b, a)
    ensures a == b
  {
  }

  // ---------------------------------------------------------------- One call

  predicate Cooperative(r: Relationship, side: bool, c: Cycle) {
    c.installSucceeds && c.handshake == Ok(true)
    && (r.pending.Some? ==> r.pending.value.nextRetryAt <= c.now)
    && (side && r.pending.None? ==> !Due(r, c))
  }

  /** The next message of the script is due, given what the server has decided. */
  predicate NextReady(d: Decision, side: bool, queued: nat) {
    if side then (queued == 1 && d.phase == Phase.Ready)
                 || (queued == 2 && d.phase == Phase.Committed && d.installed.responder)
                 || (queued == 3 && d.phase == Phase.Committed)
    else (queued == 1 || queued == 2) && d.phase == Phase.Committed
  }

  /** What a call does for an exchange that it leaves in flight. */
  ghost predicate Sends(sc: Scene, side: bool, record: Option<Exchange>, r: Relationship, out: Outcome) {
    && out.relationship.pending.Some?
    && SameBase(r, out.relationship) && out.relationship.status == r.status && out.relationship.confirmed == r.confirmed
    && Held(sc, side, record, out.relationship.pending.value)
    && var p := out.relationship.pending.value;
       out.result == Ok(Send(p.outbox[|p.outbox| - 1])) && !Carried(sc, record, side, LastKind(side, p))
       && (r.pending.Some? ==> |r.pending.value.outbox| <= |p.outbox|)
  }

  ghost predicate Waits(sc: Scene, side: bool, record: Option<Exchange>, r: Relationship, p: Pending, out: Outcome) {
    && out.result == Ok(Idle) && out.relationship.pending.Some?
    && out.relationship == r.(pending := out.relationship.pending)
    && Held(sc, side, record, out.relationship.pending.value)
    && out.relationship.pending.value.outbox == p.outbox
  }

  /** The exchange with one more line queued. */
  lemma EmittedHeld(sc: Scene, side: bool, record: Option<Exchange>, p: Pending, p': Pending, kind: Kind, m: Message)
    requires sc.Valid() && RecordInv(sc, record) && Current(sc, record) && Held(sc, side, record, p)
    requires Carried(sc, record, side, LastKind(side, p))
    requires |p.outbox| < |ScriptKinds(side)| && kind == ScriptKinds(side)[|p.outbox|]
    requires p.decision.Advance(kind, side) == Ok(p'.decision) && p'.outbox == p.outbox + [m] && m.header.messageType == kind.Code()
    requires p'.transcript == p.transcript && p'.candidate == p.candidate && PendingShape(side, p')
    ensures Held(sc, side, record, p') && !Carried(sc, record, side, kind) && kind == LastKind(side, p')
  {
    var n := |p.outbox|;
    AdvanceKeepsSound(p.decision, kind, side);
    NotYetCarried(sc, side, record, p, kind);
    if p'.decision.phase == Phase.Complete { ConfirmedIsLast(side, p.decision, p', n, kind); }
    hide PendingShape, Script, Sound, Demands, Carried, Decision.Advance, RecordInv, Queued, Backed, Relayed, Listed;
    QueueGrows(p, p', m, kind);
    BackedGrows(sc, side, record, p, p', kind);
    RelayedGrows(sc, side, record, p, p');
    ListedGrows(sc, side, record, p, p');
  }

  lemma BackedGrows(sc: Scene, side: bool, record: Option<Exchange>, p: Pending, p': Pending, kind: Kind)
    requires Backed(sc, side, record, p) && p.decision.Advance(kind, side) == Ok(p'.decision)
    requires Queued(p', kind) && forall k :: Queued(p, k) ==> Queued(p', k)
    ensures Backed(sc, side, record, p')
  {
    AdvanceDemands(p.decision, kind, side);
    hide Demands, Carried, Queued, Decision.Advance;
  }

  lemma RelayedGrows(sc: Scene, side: bool, record: Option<Exchange>, p: Pending, p': Pending)
    requires 1 <= |p.outbox| && |p'.outbox| == |p.outbox| + 1 <= |ScriptKinds(side)|
    requires Relayed(sc, side, record, p) && Carried(sc, record, side, LastKind(side, p))
    ensures Relayed(sc, side, record, p')
  {
    hide Carried;
  }

  lemma ListedGrows(sc: Scene, side: bool, record: Option<Exchange>, p: Pending, p': Pending)
    requires Listed(sc, side, record, p) && forall k :: Queued(p, k) ==> Queued(p', k)
    ensures Listed(sc, side, record, p')
  {
    hide Carried, Queued;
  }

  lemma NotYetCarried(sc: Scene, side: bool, record: Option<Exchange>, p: Pending, kind: Kind)
    requires Held(sc, side, record, p) && |p.outbox| < |ScriptKinds(side)| && kind == ScriptKinds(side)[|p.outbox|]
    ensures !Carried(sc, record, side, kind)
  {
    if Carried(sc, record, side, kind) {
      hide Script, Sound, Demands, Carried;
      var j := QueuedKind(side, p, kind);
    }
  }

  lemma QueueGrows(p: Pending, p': Pending, m: Message, kind: Kind)
    requires p'.outbox == p.outbox + [m] && m.header.messageType == kind.Code()
    ensures Queued(p', kind) && forall k :: Queued(p, k) ==> Queued(p', k)
  {
    assert m in p'.outbox;
    forall k | Queued(p, k)
      ensures Queued(p', k)
    {
      var q :| q in p.outbox && q.header.messageType == k.Code();
      assert q in p'.outbox;
    }
  }

  lemma ConfirmedIsLast(side: bool, d: Decision, p': Pending, n: nat, kind: Kind)
    requires PendingShape(side, p') && |p'.outbox| == n + 1 && n < |ScriptKinds(side)| && kind == ScriptKinds(side)[n]
    requires d.Advance(kind, side) == Ok(p'.decision) && p'.decision.phase == Phase.Complete
    ensures p'.confirmed
  {
  }

  lemma HeldIsPlaced(sc: Scene, side: bool, record: Option<Exchange>, p: Pending)
    requires sc.Valid() && Held(sc, side, record, p)
    ensures Placed(sc.Self(side), SideId(sc.t, !side), side, p)
    ensures PendingShape(side, p) && 1 <= |p.outbox| <= |ScriptKinds(side)| && p.transcript.initiatorId < p.transcript.responderId
    ensures sc.Self(side).peerId == SideId(sc.t, side) && sc.Self(!side).peerId == SideId(sc.t, !side)
  {
  }

  /** Signing the next line of the script: the line is sent, and the exchange is held with it. */
  lemma EmitSends(sc: Scene, side: bool, record: Option<Exchange>, r: Relationship, p: Pending, q: Pending, kind: Kind)
    requires sc.Valid() && RecordInv(sc, record) && Current(sc, record) && Held(sc, side, record, p) && r.pending.Some?
    requires Carried(sc, record, side, LastKind(side, p)) && |r.pending.value.outbox| <= |p.outbox| < |ScriptKinds(side)|
    requires kind == ScriptKinds(side)[|p.outbox|]
    requires q == p.(installed := p.installed || kind == Kind.Installed, confirmed := p.confirmed || kind == Kind.Confirmed)
    requires if kind == Kind.Commit then p.decision.phase == Phase.Ready else p.decision.phase == Phase.Committed
    requires kind == Kind.Installed && side ==> p.decision.installed.responder
    ensures Sends(sc, side, record, r, Emit(sc.Self(side), r, q, kind))
    ensures |Emit(sc.Self(side), r, q, kind).relationship.pending.value.outbox| == |p.outbox| + 1
  {
    var self, other := sc.Self(side), SideId(sc.t, !side);
    HeldIsPlaced(sc, side, record, p);
    assert Justified(side, p, true, true);
    EmitFacts(self, other, side, r, p, q, kind, true, true);
    assert p.decision.Advance(kind, side).Ok? by { NextAdvances(side, p, kind); }
    assert Placed(self, other, side, q);
    EmitEmits(self, other, side, r, q, kind);
    EmitKeepsBase(self, r, q, kind);
    var p' := Emit(self, r, q, kind).relationship.pending.value;
    var m :| p'.outbox == q.outbox + [m] && m.header.messageType == kind.Code();
    assert PendingShape(side, p') && p'.transcript == p.transcript && p'.candidate == p.candidate;
    hide Emit, Continued, PendingShape, Placed, Held, RecordInv, Justified, Carried, SameBase, Decision.Advance;
    EmittedHeld(sc, side, record, p, p', kind, m);
    HeldIsPlaced(sc, side, record, p');
  }

  lemma NextAdvances(side: bool, p: Pending, kind: Kind)
    requires PendingShape(side, p) && |p.outbox| < |ScriptKinds(side)| && kind == ScriptKinds(side)[|p.outbox|]
    requires if kind == Kind.Commit then p.decision.phase == Phase.Ready else p.decision.phase == Phase.Committed
    requires kind == Kind.Installed && side ==> p.decision.installed.responder
    ensures p.decision.Advance(kind, side).Ok?
  {
  }

  lemma EmitKeepsBase(self: Identity, r: Relationship, q: Pending, kind: Kind)
    ensures Emit(self, r, q, kind).relationship == r.(pending := Emit(self, r, q, kind).relationship.pending)
    ensures Emit(self, r, q, kind).result.Ok? && Emit(self, r, q, kind).relationship.pending.Some? ==>
              Emit(self, r, q, kind).result.value == Send(Emit(self, r, q, kind).relationship.pending.value.outbox[|q.outbox|])
              && |Emit(self, r, q, kind).relationship.pending.value.outbox| == |q.outbox| + 1
  {
    hide Signed, Decision.Advance;
  }

  /** With everything delivered, the side sends its next line if it is due, and waits otherwise. */
  lemma SettledDrive(sc: Scene, side: bool, record: Option<Exchange>, r: Relationship, p: Pending, c: Cycle)
    requires sc.Valid() && RecordInv(sc, record) && Current(sc, record) && Held(sc, side, record, p) && r.pending.Some?
    requires |r.pending.value.outbox| <= |p.outbox| && c.installSucceeds && c.handshake == Ok(true)
    requires !p.decision.Terminal() && Carried(sc, record, side, LastKind(side, p))
    ensures var out := Drive(sc.Self(side), SideId(sc.t, !side), r, p, c);
            if NextReady(p.decision, side, |p.outbox|)
            then Sends(sc, side, record, r, out) && |out.relationship.pending.value.outbox| == |p.outbox| + 1
            else Waits(sc, side, record, r, p, out)
  {
    var self, other := sc.Self(side), SideId(sc.t, !side);
    HeldIsPlaced(sc, side, record, p);
    var n, d := |p.outbox|, p.decision;
    if NextReady(d, side, n) {
      var kind := ScriptKinds(side)[n];
      var q := p.(installed := p.installed || kind == Kind.Installed, confirmed := p.confirmed || kind == Kind.Confirmed);
      assert Drive(self, other, r, p, c) == Emit(self, r, q, kind).(installs := Drive(self, other, r, p, c).installs) by {
        hide Emit, Held, RecordInv, Carried, Script;
      }
      hide Held, PendingShape, RecordInv, Placed, Drive, Emit, Carried;
      EmitSends(sc, side, record, r, p, q, kind);
      SendsIgnoresInstalls(sc, side, record, r, Emit(self, r, q, kind), Drive(self, other, r, p, c).installs);
    } else {
      hide Emit, Held, RecordInv, Carried, Script;
      assert Drive(self, other, r, p, c) == Quiet(r.(pending := Some(p)), Ok(Idle));
    }
  }

  lemma SendsIgnoresInstalls(sc: Scene, side: bool, record: Option<Exchange>, r: Relationship, out: Outcome, installs: Option<Candidate>)
    requires Sends(sc, side, record, r, out)
    ensures Sends(sc, side, record, r, out.(installs := installs))
  {
    hide Held, Carried;
  }

  /** The last message of the outbox counts as received exactly when the open record carries its kind. */
  lemma ReceivedIsCarried(sc: Scene, side: bool, record: Option<Exchange>, p: Pending)
    requires sc.Valid() && RecordInv(sc, record) && Current(sc, record) && record.value.Active() && Held(sc, side, record, p)
    ensures DurablySent(record, p, SideId(sc.t, side)) <==> Carried(sc, record, side, LastKind(side, p))
  {
    HeldIsPlaced(sc, side, record, p);
    OutboxKinds(side, p);
    OpenIsTranscribed(sc, record);
    assert Matches(record, p);
    hide Held, PendingShape, RecordInv, Transcribed, Carried, Placed, Script;
    CarriedIsSaid(sc, record, side, LastKind(side, p));
  }

  lemma ResendsUnreceived(self: Identity, other: Number, r: Relationship, p: Pending, remote: Option<Exchange>, c: Cycle)
    requires p.nextRetryAt <= c.now && |p.outbox| > 0 && Absorb(p, remote, other).1.Ok?
    ensures var p' := p.(decision := Absorb(p, remote, other).0);
            var out := Continue(self, other, r, p, remote, c);
            if p'.decision.phase != Phase.Aborted && !DurablySent(remote, p', self.peerId)
            then out == Quiet(r.(pending := Some(p')), Ok(Send(p'.outbox[|p'.outbox| - 1])))
            else out == Drive(self, other, r, p', c)
  {
    hide Absorb, DurablySent, Drive;
  }

  /** A call with an exchange in flight and its record open. */
  lemma OpenTurn(sc: Scene, side: bool, record: Option<Exchange>, r: Relationship, c: Cycle)
    requires sc.Valid() && RecordInv(sc, record) && Current(sc, record) && record.value.Active()
    requires SideInv(sc, side, record, r) && r.pending.Some? && Cooperative(r, side, c)
    ensures var p, out := r.pending.value, Continue(sc.Self(side), SideId(sc.t, !side), r, r.pending.value, record, c);
            1 <= |p.outbox| <= |ScriptKinds(side)|
            && if Carried(sc, record, side, LastKind(side, p)) && !NextReady(record.value.decision, side, |p.outbox|)
               then Waits(sc, side, record, r, p, out)
               else Sends(sc, side, record, r, out)
  {
    var self, other, p := sc.Self(side), SideId(sc.t, !side), r.pending.value;
    var p' := p.(decision := Absorb(p, record, other).0);
    HeldIsPlaced(sc, side, record, p);
    AbsorbedView(sc, side, record, p);
    ResendsUnreceived(self, other, r, p, record, c);
    assert p'.decision.phase != Phase.Aborted && c.installSucceeds && c.handshake == Ok(true) && !record.value.decision.Terminal();
    hide *;
    ReceivedIsCarried(sc, side, record, p');
    if Carried(sc, record, side, LastKind(side, p')) {
      SettledView(sc, side, record, p');
      SettledDrive(sc, side, record, r, p', c);
      WaitsSame(sc, side, record, r, p, p', Drive(self, other, r, p', c));
    } else {
      HeldSends(sc, side, record, r, p');
    }
    LastKindOfOutbox(side, p, p');
  }

  lemma LastKindOfOutbox(side: bool, p: Pending, p': Pending)
    requires 1 <= |p.outbox| <= |ScriptKinds(side)| && p'.outbox == p.outbox
    ensures LastKind(side, p) == LastKind(side, p')
  {
  }

  lemma WaitsSame(sc: Scene, side: bool, record: Option<Exchange>, r: Relationship, p: Pending, p': Pending, out: Outcome)
    requires p'.outbox == p.outbox
    ensures Waits(sc, side, record, r, p', out) ==> Waits(sc, side, record, r, p, out)
  {
    hide Held;
  }

  lemma HeldSends(sc: Scene, side: bool, record: Option<Exchange>, r: Relationship, p: Pending)
    requires Held(sc, side, record, p) && 1 <= |p.outbox| <= |ScriptKinds(side)| && !Carried(sc, record, side, LastKind(side, p))
    requires r.pending.Some? && r.pending.value.outbox == p.outbox
    ensures Sends(sc, side, record, r, Quiet(r.(pending := Some(p)), Ok(Send(p.outbox[|p.outbox| - 1]))))
  {
    hide Held, Carried;
  }

  /** A call before the server has anything of the exchange. */
  lemma UnseenTurn(sc: Scene, side: bool, record: Option<Exchange>, r: Relationship, c: Cycle)
    requires sc.Valid() && RecordInv(sc, record) && !Current(sc, record)
    requires SideInv(sc, side, record, r) && r.pending.Some? && Cooperative(r, side, c)
    ensures Sends(sc, side, record, r, Continue(sc.Self(side), SideId(sc.t, !side), r, r.pending.value, record, c))
  {
    var self, other, p := sc.Self(side), SideId(sc.t, !side), r.pending.value;
    HeldIsPlaced(sc, side, record, p);
    assert !Matches(record, p);
    assert p.decision.phase != Phase.Aborted;
    ResendsUnreceived(self, other, r, p, record, c);
    hide Continue, RecordInv, PendingShape, Placed, Drive, Script;
    assert Absorb(p, record, other) == (p.decision, Ok(Unit)) && !DurablySent(record, p, self.peerId);
    hide Held;
    HeldSends(sc, side, record, r, p);
  }

  /** A call that reads the completed record completes. */
  lemma CompleteTurn(sc: Scene, side: bool, record: Option<Exchange>, r: Relationship, c: Cycle)
    requires sc.Valid() && RecordInv(sc, record) && Current(sc, record) && record.value.decision.phase == Phase.Complete
    requires SideInv(sc, side, record, r) && r.pending.Some? && Cooperative(r, side, c)
    ensures var out := Continue(sc.Self(side), SideId(sc.t, !side), r, r.pending.value, record, c);
            out.result == Ok(Action.Complete) && Done(sc, out.relationship) && SideInv(sc, side, record, out.relationship)
  {
    var self, other, p := sc.Self(side), SideId(sc.t, !side), r.pending.value;
    HeldIsPlaced(sc, side, record, p);
    assert Matches(record, p) && record.value.messages == [] && p.decision.phase != Phase.Aborted;
    assert Absorb(p, record, other).1.Ok? && Absorb(p, record, other).0.phase == Phase.Complete by {
      hide Held, PendingShape, RecordOk, Placed, Script;
    }
    ResendsUnreceived(self, other, r, p, record, c);
    hide Continue, RecordInv, Absorb, Held, PendingShape, Placed, Script;
    assert DurablySent(record, p.(decision := Absorb(p, record, other).0), self.peerId);
  }

  // ---------------------------------------------------------------- A call with nothing in flight

  lemma ProposalIsFound(sc: Scene, record: Option<Exchange>)
    requires sc.Valid() && RecordInv(sc, record) && Current(sc, record) && record.value.Active()
    ensures record.value.transcript == Some(sc.t)
    ensures var found := FindProposal(record.value.messages, sc.t.initiatorId);
            found.Some? && found.value.Authenticate(sc.t).Ok? && found.value.Confirm(sc.Candidate()).Ok?
    ensures Carried(sc, record, true, Kind.Propose)
  {
    var e := record.value;
    OpenIsTranscribed(sc, record);
    RecordDemands(sc, record, true, Kind.Propose);
    FirstIsProposal(sc, e.messages, e.receipts);
    ShapeNamesKind(e.messages[0]);
    hide RecordInv, Transcribed, Message.ValidateShape, Message.Authenticate, Message.Confirm, Carried, IsLine;
    var s, kind := FirstLine(sc, e.messages, e.receipts);
  }

  lemma FirstLine(sc: Scene, messages: seq<Message>, receipts: seq<MessageDigest>) returns (s: bool, kind: Kind)
    requires Transcribed(sc, messages, receipts) && |messages| > 0
    ensures messages[0].Authenticate(sc.t).Ok? && messages[0].Confirm(sc.Candidate()).Ok?
  {
    s, kind := MessageAt(sc, messages, receipts, 0);
  }

  lemma JoinAnswers(sc: Scene, record: Option<Exchange>, r: Relationship)
    requires sc.Valid() && RecordInv(sc, record) && Current(sc, record) && record.value.decision.phase == Phase.Proposed
    requires Sane(sc, false, r) && r.pending.None?
    ensures Join(sc.responder, sc.t.initiatorId, r, record).relationship.pending.Some?
  {
    ProposalIsFound(sc, record);
    ReadyIsSigned(sc);
    assert START.Advance(Kind.Ready, false).Ok?;
    hide RecordInv, Carried, Message.Authenticate, Message.Confirm, FindProposal, Signed, Decision.Advance;
  }

  lemma ReadyIsSigned(sc: Scene)
    requires sc.Valid()
    ensures Signed(sc.t, Kind.Ready, sc.responder.peerId, sc.Candidate(), sc.responder.bundle.sigPublicKey).Ok?
  {
  }

  /** The responder answers a proposal that it finds. */
  lemma JoinSends(sc: Scene, record: Option<Exchange>, r: Relationship)
    requires sc.Valid() && RecordInv(sc, record) && Current(sc, record) && record.value.decision.phase == Phase.Proposed
    requires SideInv(sc, false, record, r) && r.pending.None?
    ensures Sends(sc, false, record, r, Join(sc.responder, sc.t.initiatorId, r, record))
  {
    assert Sane(sc, false, r) && forall k :: !Carried(sc, record, false, k) by { hide RecordInv, Carried, Held; }
    ProposalIsFound(sc, record);
    var p := JoinedExchange(sc, record, r);
    hide RecordInv, Message.Authenticate, Message.Confirm, FindProposal, Held, Carried, Join, Script, SideInv;
    AnsweredHeld(sc, record, p);
  }

  /** The exchange that an answer opens. */
  lemma JoinedExchange(sc: Scene, record: Option<Exchange>, r: Relationship) returns (p: Pending)
    requires sc.Valid() && RecordInv(sc, record) && Current(sc, record) && record.value.decision.phase == Phase.Proposed
    requires Sane(sc, false, r) && r.pending.None?
    ensures var out := Join(sc.responder, sc.t.initiatorId, r, record);
            && out.relationship == r.(pending := Some(p)) && |p.outbox| == 1 && out.result == Ok(Send(p.outbox[0]))
            && LastKind(false, p) == Kind.Ready
            && p.transcript == sc.t && p.candidate == sc.Candidate() && PendingShape(false, p)
            && p.outbox == Script(sc.t, false, p.candidate)[..1] && p.decision == Decision(Phase.Ready, NEITHER, NEITHER)
  {
    assert sc.t.initiatorId < sc.responder.peerId && r.operatorPsk == sc.operatorPsk;
    hide *;
    ProposalIsFound(sc, record);
    JoinAnswers(sc, record, r);
    JoinFacts(sc.responder, sc.t.initiatorId, r, record);
    JoinDecision(sc.responder, sc.t.initiatorId, r, record);
    p := Join(sc.responder, sc.t.initiatorId, r, record).relationship.pending.value;
    OpenedAnswer(sc.responder, sc.t.initiatorId, r, Join(sc.responder, sc.t.initiatorId, r, record), sc.t);
    SceneCandidate(sc);
  }

  lemma SceneCandidate(sc: Scene)
    ensures sc.Candidate() == CandidateFor(sc.t, sc.operatorPsk)
  {
  }

  lemma OpenedAnswer(self: Identity, other: Number, r: Relationship, out: Outcome, t: Transcript)
    requires Opened(self, other, false, r, out, t) && out.relationship.sequence == r.sequence
    ensures out.relationship.pending.Some?
    ensures var p := out.relationship.pending.value;
            && out.relationship == r.(pending := Some(p)) && |p.outbox| == 1 && out.result == Ok(Send(p.outbox[0]))
            && LastKind(false, p) == Kind.Ready
            && p.transcript == t && p.candidate == CandidateFor(t, r.operatorPsk) && PendingShape(false, p)
            && p.outbox == Script(t, false, p.candidate)[..1]
  {
    hide PendingShape, Placed, Justified;
  }

  lemma AnsweredHeld(sc: Scene, record: Option<Exchange>, p: Pending)
    requires sc.Valid() && (forall k :: !Carried(sc, record, false, k)) && Carried(sc, record, true, Kind.Propose)
    requires p.transcript == sc.t && p.candidate == sc.Candidate() && PendingShape(false, p)
    requires p.outbox == Script(sc.t, false, p.candidate)[..1] && p.decision == Decision(Phase.Ready, NEITHER, NEITHER)
    ensures Held(sc, false, record, p)
  {
    hide Carried;
    assert p.outbox[0] in p.outbox;
    assert Queued(p, Kind.Ready);
  }

  /** A side with nothing in flight and nothing to answer does nothing. */
  lemma IdleTurn(sc: Scene, side: bool, record: Option<Exchange>, r: Relationship, c: Cycle)
    requires sc.Valid() && RecordInv(sc, record) && SideInv(sc, side, record, r) && r.pending.None? && Cooperative(r, side, c)
    requires side || !(Current(sc, record) && record.value.decision.phase == Phase.Proposed)
    ensures Reconcile(sc.Self(side), SideId(sc.t, !side), r, record, c) == Quiet(r, Ok(Idle))
  {
    hide Carried, RecordOk, Signed;
  }

  // ---------------------------------------------------------------- A poll

  /** One poll: a call that reads the current record, and the fate of what it sends. */
  datatype Poll = Poll(side: bool, cycle: Cycle, arrives: bool, acknowledged: bool, at: nat, random: Byte)

  predicate Eligible(st: State, poll: Poll) {
    Cooperative(st.At(poll.side), poll.side, poll.cycle)
  }

  function Postponed(r: Relationship, now: nat, random: Byte): Relationship {
    var failed := NoteSendFailure(r, now, random);
    if failed.Ok? then failed.value else r
  }

  function Turn(sc: Scene, st: State, poll: Poll): State {
    var side := poll.side;
    var out := Reconcile(sc.Self(side), SideId(sc.t, !side), st.At(side), st.record, poll.cycle);
    if out.result.Err? || !out.result.value.Send? then st.Put(side, out.relationship)
    else
      var delivered := if poll.arrives then Deliver(sc, st.record, side, out.result.value.message, poll.at) else st.record;
      var noted := if poll.arrives && poll.acknowledged then out.relationship
                   else Postponed(out.relationship, poll.cycle.now, poll.random);
      st.(record := delivered).Put(side, noted)
  }
}
