/**
  How far an endpoint's own view of an exchange may run ahead of the server's: what
  each step of a local decision rests on, and who can vouch for it.
*/
module Simulation {
  import opened Results
  import opened Protocol
  import opened Mailbox
  import opened MailboxHistory
  import opened Engine
  import opened EngineFacts
  import opened ReplayFacts

  /** The messages without which a decision could not have been reached. */
  predicate Demands(d: Decision, initiator: bool, kind: Kind) {
    match kind
    case Propose => initiator
    case Ready => !initiator && d.phase in {Phase.Ready, Phase.Committed, Phase.Complete}
    case Commit => initiator && d.phase in {Phase.Committed, Phase.Complete}
    case Installed => d.installed.Of(initiator)
    case Confirmed => d.confirmed.Of(initiator) || d.phase == Phase.Complete
    case Abort => initiator && d.phase == Phase.Aborted
  }

  lemma AdvanceDemands(d: Decision, kind: Kind, sender: bool)
    requires d.Advance(kind, sender).Ok?
    ensures forall s: bool, k :: Demands(d.Advance(kind, sender).value, s, k) ==> Demands(d, s, k) || (s == sender && k == kind)
    ensures Demands(d.Advance(kind, sender).value, sender, kind)
  {
  }

  predicate Said(messages: seq<Message>, sender: Number, kind: Kind) {
    exists m :: m in messages && m.header.senderId == sender && m.header.messageType == kind.Code()
  }

  lemma SaidBySuffix(messages: seq<Message>, sender: Number, kind: Kind)
    requires |messages| > 0 && Said(messages[1..], sender, kind)
    ensures Said(messages, sender, kind)
  {
    var m :| m in messages[1..] && m.header.senderId == sender && m.header.messageType == kind.Code();
    assert m in messages;
  }

  lemma ShapeNamesKind(m: Message)
    requires m.ValidateShape().Ok?
    ensures m.ValidateShape().value.Code() == m.header.messageType
  {
  }

  /** A fold adds only demands that a message of the counterpart meets. */
  lemma {:induction false} FoldDemands(messages: seq<Message>, other: Number, t: Transcript, candidate: Candidate, d: Decision, s: bool, k: Kind)
    requires Demands(Fold(messages, other, t, candidate, d).0, s, k)
    ensures Demands(d, s, k) || (s == (other == t.initiatorId) && Said(messages, other, k))
  {
    hide Demands, Message.ValidateShape, Message.Authenticate, Message.Confirm, Decision.Advance, Said;
    if |messages| > 0 {
      var m, rest := messages[0], messages[1..];
      if m.header.senderId != other || m.ValidateShape().Err? {
        if m.header.senderId != other {
          FoldDemands(rest, other, t, candidate, d, s, k);
        }
      } else {
        var kind := m.ValidateShape().value;
        var trial := d.Advance(kind, m.header.senderId == t.initiatorId);
        if trial.Err? {
          FoldDemands(rest, other, t, candidate, d, s, k);
        } else if m.Authenticate(t).Ok? && m.Confirm(candidate).Ok? {
          FoldDemands(rest, other, t, candidate, trial.value, s, k);
          AdvanceDemands(d, kind, m.header.senderId == t.initiatorId);
          HeadSaid(messages, other);
        }
      }
      if Said(rest, other, k) {
        SaidBySuffix(messages, other, k);
      }
    }
  }

  lemma HeadSaid(messages: seq<Message>, other: Number)
    requires |messages| > 0 && messages[0].header.senderId == other && messages[0].ValidateShape().Ok?
    ensures Said(messages, other, messages[0].ValidateShape().value)
  {
    ShapeNamesKind(messages[0]);
    assert messages[0] in messages;
  }

  // ---------------------------------------------------------------- One call

  predicate Queued(p: Pending, kind: Kind) {
    exists m :: m in p.outbox && m.header.messageType == kind.Code()
  }

  /** Where the demands of the exchange after a call come from, and when its outbox may grow. */
  ghost predicate Accounted(side: bool, p: Pending, remote: Option<Exchange>, self: Number, other: Number, outside: bool, p': Pending) {
    && (forall s: bool, k :: Demands(p'.decision, s, k) ==>
          Demands(p.decision, s, k) || (s != side && Matches(remote, p) && Said(remote.value.messages, other, k))
          || (s == side && Queued(p', k)))
    && (p'.decision.phase == Phase.Complete ==> p.decision.phase == Phase.Complete || p'.confirmed)
    && (p.confirmed ==> p'.confirmed)
    && p.outbox <= p'.outbox
    && (p'.outbox != p.outbox ==>
          |p.outbox| > 0 && p'.outbox[..|p'.outbox| - 1] == p.outbox
          && (outside ==>
                Matches(remote, p)
                && exists m :: m in remote.value.messages && m.header.senderId == self
                               && m.header.messageType == p.outbox[|p.outbox| - 1].header.messageType))
  }

  /** A terminal record ends an open exchange in the call that reads it. */
  lemma AdoptionEnds(self: Identity, other: Number, r: Relationship, p: Pending, remote: Option<Exchange>, c: Cycle)
    requires Matches(remote, p) && remote.value.decision.Terminal() && !p.decision.Terminal()
    ensures Continue(self, other, r, p, remote, c).relationship.pending.None?
  {
  }

  /** The exchange before acting on it: what was folded in, with nothing emitted yet. */
  lemma FoldedAccounted(side: bool, p: Pending, remote: Option<Exchange>, self: Number, other: Number, outside: bool)
    requires PendingShape(side, p) && other == SideId(p.transcript, !side)
    requires !(Matches(remote, p) && remote.value.decision.Terminal() && !p.decision.Terminal())
    ensures Accounted(side, p, remote, self, other, outside, p.(decision := Absorb(p, remote, other).0))
  {
    var p' := p.(decision := Absorb(p, remote, other).0);
    if Matches(remote, p) {
      FoldFacts(side, remote.value.messages, other, p.transcript, p.candidate, p.decision, |p.outbox|, p.installed, p.confirmed);
      hide PendingShape, Demands, Said, Fold;
      forall s: bool, k | Demands(p'.decision, s, k)
        ensures Demands(p.decision, s, k) || (s != side && Said(remote.value.messages, other, k))
      {
        FoldDemands(remote.value.messages, other, p.transcript, p.candidate, p.decision, s, k);
        OtherSide(side, p.transcript, other);
      }
    } else {
      hide PendingShape, Demands, Said;
    }
  }

  lemma OtherSide(side: bool, t: Transcript, other: Number)
    requires t.initiatorId < t.responderId && other == SideId(t, !side)
    ensures (other == t.initiatorId) == !side
  {
  }

  /** What driving the exchange may emit. */
  ghost predicate Emitted(side: bool, p: Pending, p': Pending) {
    && (p' == p
        || exists kind, m ::
             p.decision.Advance(kind, side) == Ok(p'.decision) && p'.outbox == p.outbox + [m] && m.header.messageType == kind.Code()
             && (kind == Kind.Confirmed ==> p'.confirmed) && kind != Kind.Abort)
    && (p.confirmed ==> p'.confirmed)
    && (p'.decision.phase == Phase.Complete ==> p.decision.phase == Phase.Complete || p'.confirmed)
  }

  lemma EmitEmits(self: Identity, other: Number, side: bool, r: Relationship, p: Pending, kind: Kind)
    requires Placed(self, other, side, p) && p.transcript.initiatorId < p.transcript.responderId
    requires kind in ScriptKinds(side) && p.decision.Advance(kind, side).Ok?
    ensures Emit(self, r, p, kind).relationship.pending.Some?
    ensures var p' := Emit(self, r, p, kind).relationship.pending.value;
            p.decision.Advance(kind, side) == Ok(p'.decision) && p'.confirmed == p.confirmed
            && exists m :: p'.outbox == p.outbox + [m] && m.header.messageType == kind.Code()
    ensures Emit(self, r, p, kind).result == Ok(Send(Line(p.transcript, side, p.candidate, kind)))
  {
    SignedLine(self, other, side, p, kind);
    hide Decision.Advance, Signed, Placed;
    assert Emit(self, r, p, kind).relationship.pending.value.outbox == p.outbox + [Line(p.transcript, side, p.candidate, kind)];
  }

  lemma DriveEmits(self: Identity, other: Number, side: bool, r: Relationship, p: Pending, c: Cycle)
    requires PendingShape(side, p) && Placed(self, other, side, p)
    requires Drive(self, other, r, p, c).relationship.pending.Some?
    ensures Emitted(side, p, Drive(self, other, r, p, c).relationship.pending.value)
  {
    assert p.transcript.initiatorId < p.transcript.responderId;
    if p.decision.phase == Phase.Ready && side {
      assert p.decision.Advance(Kind.Commit, true).Ok?;
      hide Emit, PendingShape;
      EmitEmits(self, other, side, r, p, Kind.Commit);
    } else if p.decision.phase == Phase.Committed && !p.installed && (!side || p.decision.installed.responder) {
      var installed := p.(installed := true);
      assert p.decision.Advance(Kind.Installed, side).Ok?;
      hide Emit, PendingShape;
      EmitEmits(self, other, side, r, installed, Kind.Installed);
    } else if p.decision.phase == Phase.Committed && p.installed && !p.confirmed && c.handshake == Ok(true) {
      assert p.decision.Advance(Kind.Confirmed, side).Ok?;
      hide Emit, PendingShape;
      EmitEmits(self, other, side, r, p.(confirmed := true), Kind.Confirmed);
    } else {
      hide Emit, PendingShape;
    }
  }

  /** The call drives the exchange on only when the last message of its outbox needs no resending. */
  lemma DrivenOn(self: Identity, other: Number, r: Relationship, p: Pending, remote: Option<Exchange>, c: Cycle)
    requires |p.outbox| > 0
    ensures var p' := p.(decision := Absorb(p, remote, other).0);
            var out := Continue(self, other, r, p, remote, c);
            && (out.relationship.pending == Some(p')
                || (out == Drive(self, other, r, p', c)
                    && (p'.decision.phase == Phase.Aborted || DurablySent(remote, p', self.peerId) || p.nextRetryAt > c.now)))
            && (out.relationship.pending.Some? && out.relationship.pending.value != p' ==> !p'.decision.Terminal())
  {
    hide Absorb, DurablySent, Signed, Decision.Advance;
  }

  lemma ContinueAccounted(self: Identity, other: Number, side: bool, r: Relationship, p: Pending, remote: Option<Exchange>, c: Cycle)
    requires PendingShape(side, p) && Placed(self, other, side, p)
    requires Continue(self, other, r, p, remote, c).relationship.pending.Some?
    ensures Accounted(side, p, remote, self.peerId, other, p.nextRetryAt <= c.now,
                      Continue(self, other, r, p, remote, c).relationship.pending.value)
  {
    var p' := p.(decision := Absorb(p, remote, other).0);
    var p'' := Continue(self, other, r, p, remote, c).relationship.pending.value;
    var outside := p.nextRetryAt <= c.now;
    AdoptionNever(self, other, r, p, remote, c);
    assert |p.outbox| > 0 && other == SideId(p.transcript, !side);
    FoldedAccounted(side, p, remote, self.peerId, other, outside);
    AbsorbFacts(side, p, remote, other, true, true);
    DrivenOn(self, other, r, p, remote, c);
    assert Placed(self, other, side, p');
    hide PendingShape, Placed, Absorb, Demands, Said, Drive, Continue, Accounted;
    if p'' != p' {
      DriveEmits(self, other, side, r, p', c);
      EmissionAccounted(side, p, remote, self.peerId, other, outside, p', p'');
    }
  }

  lemma AdoptionNever(self: Identity, other: Number, r: Relationship, p: Pending, remote: Option<Exchange>, c: Cycle)
    requires Continue(self, other, r, p, remote, c).relationship.pending.Some?
    ensures !(Matches(remote, p) && remote.value.decision.Terminal() && !p.decision.Terminal())
  {
    if Matches(remote, p) && remote.value.decision.Terminal() && !p.decision.Terminal() {
      AdoptionEnds(self, other, r, p, remote, c);
    }
  }

  lemma EmissionAccounted(side: bool, p: Pending, remote: Option<Exchange>, self: Number, other: Number, outside: bool, p': Pending, p'': Pending)
    requires Accounted(side, p, remote, self, other, outside, p') && p' == p.(decision := p'.decision) && |p.outbox| > 0
    requires Emitted(side, p', p'') && p'' != p'
    requires !p'.decision.Terminal() && (outside ==> DurablySent(remote, p', self))
    requires Matches(remote, p) ==> !remote.value.decision.Terminal() || p.decision.Terminal()
    requires p.decision.Terminal() ==> p' == p
    ensures Accounted(side, p, remote, self, other, outside, p'')
  {
    hide Demands, Said, Decision.Advance;
    var kind, m :| p'.decision.Advance(kind, side) == Ok(p''.decision) && p''.outbox == p'.outbox + [m] && m.header.messageType == kind.Code();
    AdvanceDemands(p'.decision, kind, side);
    assert m in p''.outbox;
    assert Queued(p'', kind);
    forall s: bool, k | Demands(p''.decision, s, k)
      ensures Demands(p.decision, s, k) || (s != side && Matches(remote, p) && Said(remote.value.messages, other, k)) || (s == side && Queued(p'', k))
    {
      if Demands(p'.decision, s, k) && Queued(p', k) {
        var q :| q in p'.outbox && q.header.messageType == k.Code();
        assert q in p''.outbox;
      }
    }
  }

  // ---------------------------------------------------------------- Demands of a replay

  predicate Carries(receipts: seq<MessageDigest>, k: RowKey, s: bool, kind: Kind) {
    exists i :: 0 <= i < |receipts| && SenderIsInitiator(receipts[i], k) == s && receipts[i].messageType == kind.Code()
  }

  lemma CarriesPrefix(receipts: seq<MessageDigest>, k: RowKey, s: bool, kind: Kind, n: nat)
    requires n <= |receipts| && Carries(receipts[..n], k, s, kind)
    ensures Carries(receipts, k, s, kind)
  {
    var i :| 0 <= i < n && SenderIsInitiator(receipts[..n][i], k) == s && receipts[..n][i].messageType == kind.Code();
    assert receipts[i] == receipts[..n][i];
  }

  lemma AdvanceKeepsDemands(d: Decision, kind: Kind, sender: bool)
    requires d.Advance(kind, sender).Ok? && kind != Kind.Abort
    ensures forall s: bool, k :: Demands(d, s, k) ==> Demands(d.Advance(kind, sender).value, s, k)
  {
  }

  lemma CodesDiffer(code: Byte, kind: Kind)
    requires KindOf(code).Ok?
    ensures code == kind.Code() <==> KindOf(code).value == kind
  {
  }

  /** Without an abort, a replay meets the demand of every message, and only those. */
  lemma {:induction false} ReplayDemands(receipts: seq<MessageDigest>, k: RowKey, s: bool, kind: Kind)
    requires Replay(receipts, k).Ok? && !Carries(receipts, k, true, Kind.Abort)
    ensures Demands(Replay(receipts, k).value, s, kind) <==> Carries(receipts, k, s, kind)
  {
    var n := |receipts| - 1;
    var last := receipts[n];
    var lastKind := KindOf(last.messageType).value;
    CodesDiffer(last.messageType, kind);
    CodesDiffer(last.messageType, Kind.Abort);
    if n == 0 {
      assert Replay(receipts, k).value == START;
    } else {
      if Carries(receipts[..n], k, true, Kind.Abort) {
        CarriesPrefix(receipts, k, true, Kind.Abort, n);
      }
      ReplayDemands(receipts[..n], k, s, kind);
      var before := Replay(receipts[..n], k).value;
      AbortIsCarried(before, lastKind, last, receipts, k);
      AdvanceDemands(before, lastKind, SenderIsInitiator(last, k));
      AdvanceKeepsDemands(before, lastKind, SenderIsInitiator(last, k));
      if Carries(receipts[..n], k, s, kind) {
        CarriesPrefix(receipts, k, s, kind, n);
      }
      if Carries(receipts, k, s, kind) {
        var i :| 0 <= i < |receipts| && SenderIsInitiator(receipts[i], k) == s && receipts[i].messageType == kind.Code();
        if i < n { assert receipts[..n][i] == receipts[i]; }
      }
    }
  }

  lemma AbortIsCarried(before: Decision, lastKind: Kind, last: MessageDigest, receipts: seq<MessageDigest>, k: RowKey)
    requires |receipts| > 0 && last == receipts[|receipts| - 1] && KindOf(last.messageType) == Ok(lastKind)
    requires before.Advance(lastKind, SenderIsInitiator(last, k)).Ok? && !Carries(receipts, k, true, Kind.Abort)
    ensures lastKind != Kind.Abort
  {
    CodesDiffer(last.messageType, Kind.Abort);
  }

  /** No further along than: same or earlier phase, no flag that the other lacks. */
  predicate Below(a: Decision, b: Decision) {
    a.phase != Phase.Aborted && b.phase != Phase.Aborted
    && Rank(a.phase) <= Rank(b.phase) && Within(a.installed, b.installed) && Within(a.confirmed, b.confirmed)
  }

  lemma DemandsOrder(a: Decision, b: Decision)
    requires forall s: bool, k :: Demands(a, s, k) ==> Demands(b, s, k)
    requires !Demands(b, true, Kind.Abort) && (b.phase == Phase.Complete <==> b.confirmed == BOTH)
    ensures Below(a, b)
  {
    DemandMet(a, b, false, Kind.Ready);
    DemandMet(a, b, true, Kind.Commit);
    DemandMet(a, b, true, Kind.Abort);
    DemandMet(a, b, true, Kind.Installed);
    DemandMet(a, b, false, Kind.Installed);
    DemandMet(a, b, true, Kind.Confirmed);
    DemandMet(a, b, false, Kind.Confirmed);
  }

  lemma DemandMet(a: Decision, b: Decision, s: bool, k: Kind)
    requires forall s: bool, k :: Demands(a, s, k) ==> Demands(b, s, k)
    ensures Demands(a, s, k) ==> Demands(b, s, k)
  {
  }

  lemma CarriedIsBelow(d: Decision, receipts: seq<MessageDigest>, k: RowKey)
    requires Replay(receipts, k).Ok? && !Carries(receipts, k, true, Kind.Abort)
    requires forall s: bool, kind :: Demands(d, s, kind) ==> Carries(receipts, k, s, kind)
    ensures Below(d, Replay(receipts, k).value)
  {
    hide Demands, Carries, Below;
    var r := Replay(receipts, k).value;
    forall s: bool, kind | Demands(d, s, kind)
      ensures Demands(r, s, kind)
    {
      ReplayDemands(receipts, k, s, kind);
    }
    ReplayDemands(receipts, k, true, Kind.Abort);
    ReplayOrdered(receipts, k);
    DemandsOrder(d, r);
  }

  // ---------------------------------------------------------------- The next message of a side

  function LastKind(side: bool, p: Pending): Kind
    requires 1 <= |p.outbox| <= |ScriptKinds(side)|
  {
    ScriptKinds(side)[|p.outbox| - 1]
  }

  lemma OutboxKinds(side: bool, p: Pending)
    requires PendingShape(side, p)
    ensures forall j :: 0 <= j < |p.outbox| ==> p.outbox[j].header.messageType == ScriptKinds(side)[j].Code()
  {
    var script := Script(p.transcript, side, p.candidate);
    assert forall j :: 0 <= j < |p.outbox| ==> p.outbox[j] == script[j];
  }

  lemma QueuedKind(side: bool, p: Pending, kind: Kind) returns (j: nat)
    requires PendingShape(side, p) && Queued(p, kind)
    ensures j < |p.outbox| && ScriptKinds(side)[j] == kind
  {
    OutboxKinds(side, p);
    hide PendingShape;
    var m :| m in p.outbox && m.header.messageType == kind.Code();
    var i :| 0 <= i < |p.outbox| && p.outbox[i] == m;
    j := i;
  }

  /** The server, at whatever point it is, can still take the next message of a side that is one ahead. */
  lemma LastAdvances(side: bool, p: Pending, r: Decision)
    requires PendingShape(side, p) && (p.decision.phase == Phase.Complete ==> p.confirmed)
    requires OrderedFlags(r) && (r.phase == Phase.Complete <==> r.confirmed == BOTH) && r.phase != Phase.Aborted
    requires !Demands(r, side, LastKind(side, p))
    requires forall j :: 0 <= j < |p.outbox| - 1 ==> Demands(r, side, ScriptKinds(side)[j])
    requires forall s: bool, k :: Demands(p.decision, s, k) ==> Demands(r, s, k) || (s == side && k == LastKind(side, p))
    requires p.decision.phase != Phase.Aborted
    ensures r.Advance(LastKind(side, p), side).Ok?
  {
    var n, d := |p.outbox|, p.decision;
    if n >= 2 { assert Demands(r, side, ScriptKinds(side)[n - 2]); }
    DemandMetBut(d, r, false, Kind.Ready, side, LastKind(side, p));
    DemandMetBut(d, r, true, Kind.Commit, side, LastKind(side, p));
    DemandMetBut(d, r, false, Kind.Installed, side, LastKind(side, p));
    DemandMetBut(d, r, false, Kind.Confirmed, side, LastKind(side, p));
    hide Script;
  }

  lemma DemandMetBut(a: Decision, b: Decision, s: bool, k: Kind, side: bool, last: Kind)
    requires forall s: bool, k :: Demands(a, s, k) ==> Demands(b, s, k) || (s == side && k == last)
    ensures Demands(a, s, k) ==> Demands(b, s, k) || (s == side && k == last)
  {
  }
}
