/**
  What one call of `reconcile` keeps about the exchange in flight: its outbox is a
  prefix of a fixed script, its flags say how long that prefix is, and every step of
  its decision that the endpoint did not take itself has a message to show for it.
*/
module EngineFacts {
  import opened Results
  import opened Protocol
  import opened Mailbox
  import opened Engine

  // ---------------------------------------------------------------- The script of a role

  function SideId(t: Transcript, initiator: bool): Number {
    if initiator then t.initiatorId else t.responderId
  }

  function SideBundle(t: Transcript, initiator: bool): Bundle {
    if initiator then t.initiator else t.responder
  }

  function ScriptKinds(initiator: bool): seq<Kind> {
    if initiator then [Kind.Propose, Kind.Commit, Kind.Installed, Kind.Confirmed]
    else [Kind.Ready, Kind.Installed, Kind.Confirmed]
  }

  /** The one message of each kind that a side ever signs for an exchange. */
  function Line(t: Transcript, initiator: bool, candidate: Candidate, kind: Kind): Message {
    Signing(t, kind, SideId(t, initiator), candidate, SideBundle(t, initiator).sigPublicKey)
  }

  function Script(t: Transcript, initiator: bool, candidate: Candidate): seq<Message> {
    if initiator
    then [Line(t, true, candidate, Kind.Propose), Line(t, true, candidate, Kind.Commit),
          Line(t, true, candidate, Kind.Installed), Line(t, true, candidate, Kind.Confirmed)]
    else [Line(t, false, candidate, Kind.Ready), Line(t, false, candidate, Kind.Installed),
          Line(t, false, candidate, Kind.Confirmed)]
  }

  /** The candidate that a transcript gives a side that holds this operator key. */
  function CandidateFor(t: Transcript, operatorPsk: B32): Candidate {
    Derive(SharedSecret(PublicOf(t.responder), t.ciphertext), operatorPsk, t)
  }

  /**
    A message is well formed exactly when it is of version 1 and a known kind, names an
    ordered pair, comes from a side that says that kind or is the initiator's abort, and
    carries the two proposal fields exactly if it is a proposal.
  */
  lemma ShapeIsValidExactlyWhen(m: Message)
    ensures m.ValidateShape().Ok?
            <==> exists kind: Kind :: m.header.messageType == kind.Code() && WellFormed(m, kind)
    ensures forall kind: Kind :: m.header.messageType == kind.Code() && WellFormed(m, kind) ==> m.ValidateShape() == Ok(kind)
  {
    if m.ValidateShape().Ok? {
      assert m.header.messageType == m.ValidateShape().value.Code() && WellFormed(m, m.ValidateShape().value);
    }
  }

  predicate WellFormed(m: Message, kind: Kind) {
    && m.header.version == 1 && m.header.initiatorId < m.header.responderId
    && (m.header.senderId == m.header.initiatorId || m.header.senderId == m.header.responderId)
    && (kind in ScriptKinds(m.header.senderId == m.header.initiatorId) || (kind == Kind.Abort && m.header.senderId == m.header.initiatorId))
    && (m.ciphertext.Some? <==> kind == Kind.Propose) && (m.operatorPskId.Some? <==> kind == Kind.Propose)
  }

  // ---------------------------------------------------------------- The shape of a pending exchange

  predicate OrderedFlags(d: Decision) {
    (d.installed.initiator ==> d.installed.responder)
    && (d.confirmed.initiator ==> d.installed.initiator)
    && (d.confirmed.responder ==> d.installed.responder)
  }

  /** How an open local decision follows from the messages a side has queued. */
  predicate DecisionShape(initiator: bool, d: Decision, queued: nat, installed: bool, confirmed: bool) {
    match d.phase
    case Proposed => initiator && queued == 1 && d.installed == NEITHER && d.confirmed == NEITHER
    case Ready => queued == 1 && d.installed == NEITHER && d.confirmed == NEITHER
    case Committed =>
      (initiator ==> queued >= 2)
      && d.installed.Of(initiator) == installed && d.confirmed.Of(initiator) == confirmed
      && d.confirmed != BOTH && OrderedFlags(d)
    case _ => true
  }

  predicate PendingShape(initiator: bool, p: Pending) {
    var script := Script(p.transcript, initiator, p.candidate);
    && p.transcript.initiatorId < p.transcript.responderId
    && 1 <= |p.outbox| <= |script| && p.outbox == script[..|p.outbox|]
    && p.installed == (|p.outbox| >= |script| - 1)
    && p.confirmed == (|p.outbox| == |script|)
    && DecisionShape(initiator, p.decision, |p.outbox|, p.installed, p.confirmed)
  }

  /** A decision that could not have been reached without the counterpart being past commitment. */
  predicate Needs(initiator: bool, d: Decision) {
    d.installed.Of(!initiator) || (!initiator && d.phase == Phase.Committed)
  }

  predicate PastCommit(kind: Kind) {
    kind == Kind.Commit || kind == Kind.Installed || kind == Kind.Confirmed
  }

  /** A message of the counterpart that the server only accepts after commitment. */
  predicate Witness(m: Message, other: Number, t: Transcript) {
    m.header.senderId == other && m.Authenticate(t).Ok? && PastCommit(m.ValidateShape().value)
  }

  predicate Witnessed(messages: seq<Message>, other: Number, t: Transcript) {
    exists m :: m in messages && Witness(m, other, t)
  }

  // ---------------------------------------------------------------- Folding

  lemma AdvanceKeepsShape(initiator: bool, d: Decision, kind: Kind, queued: nat, installed: bool, confirmed: bool)
    requires DecisionShape(initiator, d, queued, installed, confirmed)
    requires queued == 1 ==> !installed && !confirmed
    requires d.Advance(kind, !initiator).Ok?
    ensures var after := d.Advance(kind, !initiator).value;
            && DecisionShape(initiator, after, queued, installed, confirmed)
            && (Needs(initiator, after) ==> Needs(initiator, d) || PastCommit(kind))
            && (after.phase == Phase.Complete ==> d.confirmed.Of(initiator))
            && !d.Terminal()
  {
  }

  /** What folding the counterpart's messages can do to a local decision. */
  lemma {:induction false} FoldFacts(initiator: bool, messages: seq<Message>, other: Number, t: Transcript, candidate: Candidate,
                                     d: Decision, queued: nat, installed: bool, confirmed: bool)
    requires DecisionShape(initiator, d, queued, installed, confirmed)
    requires queued == 1 ==> !installed && !confirmed
    requires other == SideId(t, !initiator) && t.initiatorId < t.responderId
    ensures var after := Fold(messages, other, t, candidate, d).0;
            && DecisionShape(initiator, after, queued, installed, confirmed)
            && (Needs(initiator, after) ==> Needs(initiator, d) || Witnessed(messages, other, t))
            && (after.phase == Phase.Complete ==> d.phase == Phase.Complete || confirmed)
            && (d.Terminal() ==> after == d)
  {
    hide DecisionShape, Needs, Message.ValidateShape, Message.Authenticate, Message.Confirm;
    if |messages| > 0 {
      var m, rest := messages[0], messages[1..];
      assert forall x :: x in rest ==> x in messages;
      if m.header.senderId != other || m.ValidateShape().Err? {
        FoldFacts(initiator, rest, other, t, candidate, d, queued, installed, confirmed);
      } else {
        var kind := m.ValidateShape().value;
        var trial := d.Advance(kind, m.header.senderId == t.initiatorId);
        if trial.Err? {
          FoldFacts(initiator, rest, other, t, candidate, d, queued, installed, confirmed);
        } else {
          AdvanceKeepsShape(initiator, d, kind, queued, installed, confirmed);
          if m.Authenticate(t).Ok? && m.Confirm(candidate).Ok? {
            FoldFacts(initiator, rest, other, t, candidate, trial.value, queued, installed, confirmed);
            if PastCommit(kind) { assert Witness(m, other, t); }
            ConfirmedFlag(initiator, d, queued, installed, confirmed);
          }
        }
      }
    }
  }

  lemma ConfirmedFlag(initiator: bool, d: Decision, queued: nat, installed: bool, confirmed: bool)
    requires DecisionShape(initiator, d, queued, installed, confirmed) && !d.Terminal()
    ensures d.confirmed.Of(initiator) ==> confirmed
  {
  }

  // ---------------------------------------------------------------- One call

  /**
    What the endpoint may rely on: `seen` says that a committed version of the record
    exists, `handed` that this candidate went to the installer.
  */
  predicate Justified(initiator: bool, p: Pending, seen: bool, handed: bool) {
    (Needs(initiator, p.decision) && !p.decision.Terminal() ==> seen)
    && (p.installed ==> seen && handed)
    && (p.decision.phase == Phase.Complete ==> handed)
  }

  predicate Placed(self: Identity, other: Number, initiator: bool, p: Pending) {
    initiator == (self.peerId < other)
    && SideId(p.transcript, initiator) == self.peerId && SideId(p.transcript, !initiator) == other
    && SideBundle(p.transcript, initiator).sigPublicKey == self.bundle.sigPublicKey
  }

  /** What the record that is read proves about this exchange. */
  predicate Evidence(initiator: bool, p: Pending, remote: Option<Exchange>, other: Number, seen: bool, handed: bool) {
    Matches(remote, p) ==>
      (Witnessed(remote.value.messages, other, p.transcript) ==> seen)
      && (remote.value.decision.phase == Phase.Complete ==> handed)
  }

  lemma AbsorbFacts(initiator: bool, p: Pending, remote: Option<Exchange>, other: Number, seen: bool, handed: bool)
    requires PendingShape(initiator, p) && Justified(initiator, p, seen, handed)
    requires other == SideId(p.transcript, !initiator)
    requires Evidence(initiator, p, remote, other, seen, handed)
    ensures var p' := p.(decision := Absorb(p, remote, other).0);
            PendingShape(initiator, p') && Justified(initiator, p', seen, handed)
            && (p.decision.Terminal() ==> p' == p)
  {
    if Matches(remote, p) && !(remote.value.decision.Terminal() && !p.decision.Terminal()) {
      FoldFacts(initiator, remote.value.messages, other, p.transcript, p.candidate, p.decision, |p.outbox|, p.installed, p.confirmed);
    }
  }

  /** The same relationship, except for what an exchange in flight changes. */
  predicate SameBase(r: Relationship, after: Relationship) {
    after.remote == r.remote && after.sequence == r.sequence && after.operatorPsk == r.operatorPsk
    && after.operatorPskId == r.operatorPskId && after.gated == r.gated
  }

  /** The exchange after a call, with `handed` taken after the call. */
  ghost predicate Continued(initiator: bool, r: Relationship, p: Pending, out: Outcome, seen: bool, handed: bool) {
    && SameBase(r, out.relationship)
    && (out.installs.Some? ==> out.installs.value == p.candidate && seen && handed)
    && (out.relationship.pending.Some? ==>
          var p' := out.relationship.pending.value;
          && p'.transcript == p.transcript && p'.candidate == p.candidate && p.outbox <= p'.outbox
          && PendingShape(initiator, p') && Justified(initiator, p', seen, handed))
    && (match out.result
        case Ok(Send(m)) =>
          out.relationship.pending.Some? && m == out.relationship.pending.value.outbox[|out.relationship.pending.value.outbox| - 1]
          && out.relationship.confirmed == r.confirmed
        case Ok(Complete) =>
          handed && out.relationship.pending.None?
          && out.relationship.confirmed.Some?
          && var key := out.relationship.confirmed.value;
             key.psk == Psk(p.candidate) && key.transcriptHash == Sha3(p.transcript)
             && key.sequence == p.transcript.sequence && key.exchangeId == p.transcript.exchangeId
        case _ => out.relationship.confirmed == r.confirmed)
  }

  /** Signing a line of the script never fails, and gives that line. */
  lemma SignedLine(self: Identity, other: Number, initiator: bool, p: Pending, kind: Kind)
    requires Placed(self, other, initiator, p) && p.transcript.initiatorId < p.transcript.responderId
    requires kind in ScriptKinds(initiator)
    ensures Signed(p.transcript, kind, self.peerId, p.candidate, self.bundle.sigPublicKey)
            == Ok(Line(p.transcript, initiator, p.candidate, kind))
    ensures initiator == (self.peerId == p.transcript.initiatorId)
  {
  }

  lemma EmitFacts(self: Identity, other: Number, initiator: bool, r: Relationship, before: Pending, p: Pending, kind: Kind, seen: bool, handed: bool)
    requires PendingShape(initiator, before) && Placed(self, other, initiator, before)
    requires Justified(initiator, before, seen, handed)
    requires |before.outbox| < |ScriptKinds(initiator)| && kind == ScriptKinds(initiator)[|before.outbox|]
    requires p == before.(installed := before.installed || kind == Kind.Installed,
                          confirmed := before.confirmed || kind == Kind.Confirmed)
    requires if kind == Kind.Commit then before.decision.phase == Phase.Ready else before.decision.phase == Phase.Committed
    requires kind == Kind.Installed ==> seen && handed && (initiator ==> before.decision.installed.responder)
    ensures Continued(initiator, r, before, Emit(self, r, p, kind), seen, handed)
    ensures Emit(self, r, p, kind).installs == None
  {
    SignedLine(self, other, initiator, p, kind);
    var line := Line(p.transcript, initiator, p.candidate, kind);
    var after := p.(decision := p.decision.Advance(kind, initiator).value, outbox := p.outbox + [line], attempts := 0, nextRetryAt := 0);
    EmittedShape(initiator, before, p, kind, after);
    hide Signed, PendingShape, Justified, Decision.Advance, Placed, Script;
    assert Emit(self, r, p, kind) == Quiet(r.(pending := Some(after)), Ok(Send(line)));
  }

  /** The exchange with its next line queued: still a prefix of the script, and still justified. */
  lemma EmittedShape(initiator: bool, before: Pending, p: Pending, kind: Kind, after: Pending)
    requires PendingShape(initiator, before)
    requires |before.outbox| < |ScriptKinds(initiator)| && kind == ScriptKinds(initiator)[|before.outbox|]
    requires p == before.(installed := before.installed || kind == Kind.Installed,
                          confirmed := before.confirmed || kind == Kind.Confirmed)
    requires if kind == Kind.Commit then before.decision.phase == Phase.Ready else before.decision.phase == Phase.Committed
    requires kind == Kind.Installed && initiator ==> before.decision.installed.responder
    requires p.decision.Advance(kind, initiator).Ok? ==>
               after == p.(decision := p.decision.Advance(kind, initiator).value,
                           outbox := p.outbox + [Line(p.transcript, initiator, p.candidate, kind)], attempts := 0, nextRetryAt := 0)
    ensures p.decision.Advance(kind, initiator).Ok?
    ensures PendingShape(initiator, after)
    ensures forall seen, handed :: Justified(initiator, before, seen, handed) && (kind == Kind.Installed ==> seen && handed) ==>
              Justified(initiator, after, seen, handed)
  {
    var script, n := Script(p.transcript, initiator, p.candidate), |p.outbox|;
    assert script[n] == Line(p.transcript, initiator, p.candidate, kind);
    assert script[..n + 1] == script[..n] + [script[n]];
    assert p.decision.Advance(kind, initiator).Ok?;
    assert after.outbox == script[..n + 1];
  }

  lemma HandedIsMonotone(initiator: bool, p: Pending, seen: bool, handed: bool)
    requires Justified(initiator, p, seen, handed)
    ensures Justified(initiator, p, seen, true)
  {
  }

  /** Keeping the exchange as it is, whether or not its last message is sent again. */
  lemma HeldFacts(initiator: bool, r: Relationship, p: Pending, result: Checked<Action>, seen: bool, handed: bool)
    requires PendingShape(initiator, p) && Justified(initiator, p, seen, handed)
    requires result.Ok? ==> result.value != Action.Complete
    requires result.Ok? && result.value.Send? ==> |p.outbox| > 0 && result.value.message == p.outbox[|p.outbox| - 1]
    ensures Continued(initiator, r, p, Quiet(r.(pending := Some(p)), result), seen, handed)
  {
    hide PendingShape, Justified;
  }

  lemma CommittedFacts(self: Identity, other: Number, initiator: bool, r: Relationship, p: Pending, c: Cycle, seen: bool, handed: bool)
    requires PendingShape(initiator, p) && Placed(self, other, initiator, p) && Justified(initiator, p, seen, handed)
    requires p.decision.phase == Phase.Committed
    ensures var out := Drive(self, other, r, p, c);
            Continued(initiator, r, p, out, seen, handed || out.installs.Some?)
  {
    if !p.installed && (!initiator || p.decision.installed.responder) {
      InstallFacts(self, other, initiator, r, p, c, seen, handed);
    } else if p.installed && !p.confirmed && c.handshake == Ok(true) {
      assert |p.outbox| == |ScriptKinds(initiator)| - 1;
      hide Script, Emit, Needs, Continued, PendingShape, Justified;
      EmitFacts(self, other, initiator, r, p, p.(confirmed := true), Kind.Confirmed, seen, handed);
    } else {
      hide PendingShape, Justified, Emit;
      HeldFacts(initiator, r, p, Drive(self, other, r, p, c).result, seen, handed);
    }
  }

  lemma InstallFacts(self: Identity, other: Number, initiator: bool, r: Relationship, p: Pending, c: Cycle, seen: bool, handed: bool)
    requires PendingShape(initiator, p) && Placed(self, other, initiator, p) && Justified(initiator, p, seen, handed)
    requires p.decision.phase == Phase.Committed && !p.installed && (!initiator || p.decision.installed.responder)
    ensures var out := Drive(self, other, r, p, c);
            out.installs.Some? && Continued(initiator, r, p, out, seen, true)
  {
    assert seen;
    assert |p.outbox| == |ScriptKinds(initiator)| - 2;
    HandedIsMonotone(initiator, p, seen, handed);
    hide Script, Emit, Needs, PendingShape, Justified;
    EmitFacts(self, other, initiator, r, p, p.(installed := true), Kind.Installed, seen, true);
  }

  lemma DriveFacts(self: Identity, other: Number, initiator: bool, r: Relationship, p: Pending, c: Cycle, seen: bool, handed: bool)
    requires PendingShape(initiator, p) && Placed(self, other, initiator, p) && Justified(initiator, p, seen, handed)
    ensures var out := Drive(self, other, r, p, c);
            Continued(initiator, r, p, out, seen, handed || out.installs.Some?)
  {
    if p.decision.phase == Phase.Committed {
      CommittedFacts(self, other, initiator, r, p, c, seen, handed);
    } else if p.decision.phase == Phase.Ready && initiator {
      assert |p.outbox| == 1;
      hide Script, Emit, Needs, Continued, PendingShape, Justified;
      EmitFacts(self, other, true, r, p, p, Kind.Commit, seen, handed);
    } else {
      hide PendingShape, Emit;
      if p.decision.phase in {Phase.Proposed, Phase.Ready} {
        HeldFacts(initiator, r, p, Ok(Idle), seen, handed);
      }
    }
  }

  /** A call either holds the absorbed exchange, perhaps sending again, or drives it on. */
  lemma ContinueCases(self: Identity, other: Number, r: Relationship, p: Pending, remote: Option<Exchange>, c: Cycle)
    ensures var p' := p.(decision := Absorb(p, remote, other).0);
            var out := Continue(self, other, r, p, remote, c);
            out == Drive(self, other, r, p', c)
            || (out == Quiet(r.(pending := Some(p')), out.result)
                && (out.result.Ok? ==> |p'.outbox| > 0 && out.result.value == Send(p'.outbox[|p'.outbox| - 1])))
  {
  }

  lemma ContinuedIgnoresDecision(initiator: bool, r: Relationship, p: Pending, d: Decision, out: Outcome, seen: bool, handed: bool)
    requires Continued(initiator, r, p.(decision := d), out, seen, handed)
    ensures Continued(initiator, r, p, out, seen, handed)
  {
    hide PendingShape, Justified;
  }

  lemma ContinueFacts(self: Identity, other: Number, initiator: bool, r: Relationship, p: Pending, remote: Option<Exchange>, c: Cycle,
                      seen: bool, handed: bool)
    requires PendingShape(initiator, p) && Placed(self, other, initiator, p) && Justified(initiator, p, seen, handed)
    requires Evidence(initiator, p, remote, other, seen, handed)
    ensures var out := Continue(self, other, r, p, remote, c);
            Continued(initiator, r, p, out, seen, handed || out.installs.Some?)
  {
    AbsorbFacts(initiator, p, remote, other, seen, handed);
    ContinueCases(self, other, r, p, remote, c);
    var p' := p.(decision := Absorb(p, remote, other).0);
    assert Placed(self, other, initiator, p');
    hide *;
    var out := Continue(self, other, r, p, remote, c);
    if out == Drive(self, other, r, p', c) {
      DriveFacts(self, other, initiator, r, p', c, seen, handed);
    } else {
      HeldFacts(initiator, r, p', out.result, seen, handed);
      assert out == Quiet(r.(pending := Some(p')), out.result);
      QuietInstallsNothing(r.(pending := Some(p')), out.result);
    }
    ContinuedIgnoresDecision(initiator, r, p, p'.decision, out, seen, handed || out.installs.Some?);
  }

  lemma QuietInstallsNothing(r: Relationship, result: Checked<Action>)
    ensures Quiet(r, result).installs == None
  {
  }

  /** A relationship as it is after a new exchange was opened. */
  ghost predicate Opened(self: Identity, other: Number, initiator: bool, r: Relationship, out: Outcome, t: Transcript) {
    && out.installs == None
    && out.relationship.(pending := r.pending, sequence := r.sequence) == r
    && out.relationship.pending.Some?
    && var p := out.relationship.pending.value;
      && p.transcript == t && p.candidate == CandidateFor(t, r.operatorPsk)
      && p.outbox == Script(t, initiator, p.candidate)[..1]
      && out.result == Ok(Send(p.outbox[0]))
      && PendingShape(initiator, p) && Placed(self, other, initiator, p) && Justified(initiator, p, false, false)
  }

  lemma StartFacts(self: Identity, other: Number, r: Relationship, c: Cycle)
    requires self.peerId < other && r.pending.None?
    ensures var out := Start(self, other, r, c);
            if out.relationship.pending.Some? then
              Opened(self, other, true, r, out, NewTranscript(self, other, r, c)) && out.relationship.sequence == r.sequence + 1
            else
              out == Quiet(r, out.result) && out.result != Ok(Action.Complete) && !(out.result.Ok? && out.result.value.Send?)
  {
    var t := NewTranscript(self, other, r, c);
    var candidate := CandidateFor(t, r.operatorPsk);
    assert Signed(t, Kind.Propose, self.peerId, candidate, self.bundle.sigPublicKey) == Ok(Line(t, true, candidate, Kind.Propose));
  }

  /** A proposal that a responder may answer: authentic, and its tag pins the candidate. */
  ghost predicate Answerable(self: Identity, other: Number, r: Relationship, ex: Exchange, t: Transcript) {
    ex.transcript == Some(t) && ex.decision.phase == Phase.Proposed
    && t.initiatorId == other && t.responderId == self.peerId && t.initiator == r.remote && t.responder == self.bundle
    && exists m :: m in ex.messages && m.header.senderId == other && m.header.messageType == Kind.Propose.Code()
                   && m.Authenticate(t).Ok? && m.Confirm(CandidateFor(t, r.operatorPsk)).Ok?
  }

  lemma {:induction false} FoundProposal(messages: seq<Message>, sender: Number)
    ensures var found := FindProposal(messages, sender);
            found.Some? ==> found.value in messages && found.value.header.senderId == sender
                            && found.value.header.messageType == Kind.Propose.Code()
  {
    if |messages| > 0 {
      FoundProposal(messages[1..], sender);
    }
  }

  lemma JoinFacts(self: Identity, other: Number, r: Relationship, remote: Option<Exchange>)
    requires other < self.peerId && r.pending.None?
    ensures var out := Join(self, other, r, remote);
            if out.relationship.pending.Some? then
              remote.Some? && remote.value.transcript.Some?
              && Answerable(self, other, r, remote.value, remote.value.transcript.value)
              && Opened(self, other, false, r, out, remote.value.transcript.value)
              && out.relationship.sequence == r.sequence
            else
              out == Quiet(r, out.result) && out.result != Ok(Action.Complete) && !(out.result.Ok? && out.result.value.Send?)
  {
    if remote.Some? && remote.value.transcript.Some? {
      var t := remote.value.transcript.value;
      FoundProposal(remote.value.messages, other);
      if t.responder == self.bundle && t.responderId == self.peerId && t.initiatorId == other {
        var candidate := CandidateFor(t, r.operatorPsk);
        assert Signed(t, Kind.Ready, self.peerId, candidate, self.bundle.sigPublicKey) == Ok(Line(t, false, candidate, Kind.Ready));
        assert START.Advance(Kind.Ready, false) == Ok(Decision(Phase.Ready, NEITHER, NEITHER));
      }
    }
  }

  lemma StartDecision(self: Identity, other: Number, r: Relationship, cycle: Cycle)
    requires r.pending.None?
    ensures var p := Start(self, other, r, cycle).relationship.pending; p.Some? ==> p.value.decision == START
  {
    hide Signed;
  }

  lemma JoinDecision(self: Identity, other: Number, r: Relationship, remote: Option<Exchange>)
    requires r.pending.None?
    ensures var p := Join(self, other, r, remote).relationship.pending;
            p.Some? ==> p.value.decision == Decision(Phase.Ready, NEITHER, NEITHER)
  {
    hide Signed, Message.Authenticate, Message.Confirm, FindProposal;
  }
}
