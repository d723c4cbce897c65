/**
  Write-ahead: what an endpoint submits is on its disk first, so that a restart from
  the snapshot never contradicts what was submitted before.
*/
module WriteAhead {
  import opened Results
  import opened Protocol
  import opened Mailbox
  import opened MailboxHistory
  import opened Engine
  import opened EngineFacts
  import opened System
  import opened SystemSafety
  import opened SystemRuns

  /** One copy of the initiator's state: its exchange is below its counter and holds what was sent for it. */
  ghost predicate Pinned(r: Relationship, sent: set<Message>) {
    r.pending.Some? ==>
      var p := r.pending.value;
      && p.transcript.sequence < r.sequence
      && forall m :: m in sent && m.header.sequence == p.transcript.sequence ==> m in p.outbox
  }

  ghost predicate OneHashPerSequence(sent: set<Message>) {
    forall a, b :: a in sent && b in sent && a.header.sequence == b.header.sequence ==> a.header.transcriptHash == b.header.transcriptHash
  }

  ghost predicate SequenceReserved(sent: set<Message>, saved: Relationship) {
    forall m :: m in sent ==> m.header.sequence < saved.sequence
  }

  /** The initiator's disk is ahead of the network, and its memory is ahead of its disk. */
  ghost predicate Ahead(n: Node) {
    && n.saved.sequence <= n.relationship.sequence
    && SequenceReserved(n.sent, n.saved)
    && Pinned(n.relationship, n.sent) && Pinned(n.saved, n.sent)
    && OneHashPerSequence(n.sent)
  }

  // ---------------------------------------------------------------- One reconciliation

  lemma ContinuedInRun(c: Setup, w: World, side: bool, remote: Option<Exchange>, cycle: Cycle)
    requires Inv(c, w) && w.At(side).relationship.pending.Some?
    requires remote.Some? ==> Readable(c, w.log, remote.value)
    ensures var n := w.At(side);
            var p := n.relationship.pending.value;
            var out := Continue(n.self, c.Id(!side), n.relationship, p, remote, cycle);
            PendingShape(side, p)
            && Continued(side, n.relationship, p, out, CommittedSeen(w.log, p.transcript), p.candidate in n.handed || out.installs.Some?)
  {
    var n := w.At(side);
    var p := n.relationship.pending.value;
    assert PendingOk(c, w, side, n.self, p) by { assert NodeInv(c, w, side); }
    EvidenceHolds(c, w, side, n.self, p, remote);
    PlacedByPendingOk(c, w, side, n.self, p);
    hide *;
    ContinueFacts(n.self, c.Id(!side), side, n.relationship, p, remote, cycle, CommittedSeen(w.log, p.transcript), p.candidate in n.handed);
  }

  /** What a reconciliation may do to the exchange and the counter, and what it may send. */
  ghost predicate Turned(side: bool, r: Relationship, out: Outcome) {
    && r.sequence <= out.relationship.sequence
    && (out.relationship.pending.Some? ==>
          var p' := out.relationship.pending.value;
          && PendingShape(side, p')
          && if r.pending.Some?
             then p'.transcript == r.pending.value.transcript && r.pending.value.outbox <= p'.outbox
                  && out.relationship.sequence == r.sequence
             else side ==> p'.transcript.sequence == r.sequence < out.relationship.sequence)
    && (out.result.Ok? && out.result.value.Send? ==>
          out.relationship.pending.Some? && out.result.value.message in out.relationship.pending.value.outbox)
  }

  lemma HeldTurn(side: bool, r: Relationship, p: Pending, out: Outcome, seen: bool, handed: bool)
    requires r.pending == Some(p) && PendingShape(side, p) && Continued(side, r, p, out, seen, handed)
    ensures Turned(side, r, out)
  {
    hide Justified, Script, DecisionShape;
    if out.result.Ok? && out.result.value.Send? {
      var outbox := out.relationship.pending.value.outbox;
      assert outbox[|outbox| - 1] in outbox;
    }
  }

  lemma OpenedTurn(self: Identity, other: Number, side: bool, r: Relationship, out: Outcome, t: Transcript)
    requires r.pending.None? && Opened(self, other, side, r, out, t)
    requires side ==> t.sequence == r.sequence && out.relationship.sequence == r.sequence + 1
    requires !side ==> out.relationship.sequence == r.sequence
    ensures Turned(side, r, out)
  {
    hide Justified, Script, DecisionShape, Placed;
    assert out.relationship.pending.value.outbox[0] in out.relationship.pending.value.outbox by {
      OpenedOutbox(self, other, side, r, out, t);
    }
  }

  lemma CycleTurns(c: Setup, w: World, side: bool, remote: Option<Exchange>, cycle: Cycle)
    requires Inv(c, w)
    requires remote.Some? ==> Readable(c, w.log, remote.value)
    ensures Turned(side, w.At(side).relationship, CycleOutcome(c, w, side, remote, cycle))
  {
    var n, other := w.At(side), c.Id(!side);
    var r := n.relationship;
    assert n.self.peerId == c.Id(side) && c.Valid() by { assert NodeInv(c, w, side); }
    hide Continue, Start, Join, Inv, Readable, Turned;
    if r.gated || r.status == Status.Blocked || n.self.enrollment == Enrollment.Retiring {
      IdleTurns(c, w, side);
    } else if r.pending.Some? {
      ContinueTurns(c, w, side, remote, cycle);
    } else if side {
      StartTurns(n.self, other, r, cycle);
    } else {
      JoinTurns(n.self, other, r, remote);
    }
  }

  lemma IdleTurns(c: Setup, w: World, side: bool)
    requires Inv(c, w)
    ensures var r := w.At(side).relationship; Turned(side, r, Quiet(r, Ok(Idle)))
  {
    var n := w.At(side);
    assert NodeInv(c, w, side);
    hide LogInv, MailInv, SentInv, HandedInv, Script, DecisionShape;
    if n.relationship.pending.Some? {
      ShapeOfCopy(c, w, side, n.self, n.relationship);
    }
  }

  lemma ShapeOfCopy(c: Setup, w: World, side: bool, self: Identity, r: Relationship)
    requires CopyOk(c, w, side, self, r) && r.pending.Some?
    ensures PendingShape(side, r.pending.value)
  {
    hide PendingShape;
  }

  lemma ContinueTurns(c: Setup, w: World, side: bool, remote: Option<Exchange>, cycle: Cycle)
    requires Inv(c, w) && w.At(side).relationship.pending.Some?
    requires remote.Some? ==> Readable(c, w.log, remote.value)
    ensures var n := w.At(side);
            Turned(side, n.relationship, Continue(n.self, c.Id(!side), n.relationship, n.relationship.pending.value, remote, cycle))
  {
    var n := w.At(side);
    var r := n.relationship;
    var p := r.pending.value;
    hide *;
    ContinuedInRun(c, w, side, remote, cycle);
    var out := Continue(n.self, c.Id(!side), r, p, remote, cycle);
    HeldTurn(side, r, p, out, CommittedSeen(w.log, p.transcript), p.candidate in n.handed || out.installs.Some?);
  }

  lemma StartTurns(self: Identity, other: Number, r: Relationship, cycle: Cycle)
    requires self.peerId < other && r.pending.None?
    ensures Turned(true, r, Start(self, other, r, cycle))
  {
    StartFacts(self, other, r, cycle);
    hide Opened, Start, PendingShape;
    var out := Start(self, other, r, cycle);
    if out.relationship.pending.Some? {
      OpenedTurn(self, other, true, r, out, NewTranscript(self, other, r, cycle));
    }
  }

  lemma JoinTurns(self: Identity, other: Number, r: Relationship, remote: Option<Exchange>)
    requires other < self.peerId && r.pending.None?
    ensures Turned(false, r, Join(self, other, r, remote))
  {
    JoinFacts(self, other, r, remote);
    hide Opened, Join, PendingShape, Answerable;
    var out := Join(self, other, r, remote);
    if out.relationship.pending.Some? {
      OpenedTurn(self, other, false, r, out, remote.value.transcript.value);
    }
  }

  // ---------------------------------------------------------------- One step

  /** Saving what a turn left behind and then sending keeps the disk ahead of the network. */
  lemma TurnKeepsAhead(n: Node, n': Node, out: Outcome)
    requires Ahead(n) && Turned(true, n.relationship, out)
    requires n'.relationship == out.relationship
    requires (n'.saved == n.saved && n'.sent == n.sent)
          || (n'.saved == out.relationship && n'.sent == n.sent)
          || (n'.saved == out.relationship && out.result.Ok? && out.result.value.Send? && n'.sent == n.sent + {out.result.value.message})
    ensures Ahead(n')
  {
    if out.relationship.pending.Some? {
      var p := out.relationship.pending.value;
      OutboxNamesTranscript(true, p);
      hide PendingShape;
      assert Pinned(out.relationship, n.sent);
    }
  }

  lemma OutboxNamesTranscript(side: bool, p: Pending)
    requires PendingShape(side, p)
    ensures forall m :: m in p.outbox ==> m.header.sequence == p.transcript.sequence && m.header.transcriptHash == Sha3(p.transcript)
  {
    var script := Script(p.transcript, side, p.candidate);
    forall m | m in p.outbox
      ensures m in script
    {
      assert m in script[..|p.outbox|];
    }
  }

  lemma CycleEffect(c: Setup, w: World, remote: Option<Exchange>, cycle: Cycle, save: SaveOutcome, side: bool)
    ensures var n, n' := w.At(side), Next(c, w, CycleStep(side, remote, cycle, save)).At(side);
            var out := CycleOutcome(c, w, side, remote, cycle);
            && n'.relationship == out.relationship
            && ((n'.saved == n.saved && n'.sent == n.sent)
                || (n'.saved == out.relationship && n'.sent == n.sent)
                || (n'.saved == out.relationship && out.result.Ok? && out.result.value.Send? && n'.sent == n.sent + {out.result.value.message}))
  {
    hide Reconcile;
  }

  /** Steps that send nothing: memory is saved, restored, or loses work. */
  lemma LocalKeepsAhead(c: Setup, w: World, s: Step)
    requires Ahead(w.initiator) && !s.ServerStep? && !s.CycleStep?
    ensures Ahead(Next(c, w, s).initiator)
  {
    if s.BackoffStep? && s.side {
      hide Ahead;
      BackoffKeepsAhead(w.initiator, s.now, s.random, s.save);
    }
  }

  lemma BackoffKeepsAhead(n: Node, now: nat, random: Byte, save: SaveOutcome)
    requires Ahead(n)
    ensures var r := NoteSendFailure(n.relationship, now, random);
            r.Ok? ==> Ahead(SavedAs(n.(relationship := r.value), save))
  {
  }

  lemma StepKeepsAhead(c: Setup, w: World, s: Step)
    requires Inv(c, w) && Allowed(c, w, s) && Ahead(w.initiator)
    ensures Ahead(Next(c, w, s).initiator)
  {
    if s.CycleStep? {
      var w' := Next(c, w, s);
      var out := CycleOutcome(c, w, s.side, s.remote, s.cycle);
      CycleEffect(c, w, s.remote, s.cycle, s.save, s.side);
      CycleReconciles(c, w, s.side, s.remote, s.cycle, s.save);
      CycleTurns(c, w, s.side, s.remote, s.cycle);
      assert w.At(true) == w.initiator && w'.At(true) == w'.initiator;
      hide *;
      if s.side {
        TurnKeepsAhead(w.initiator, w'.initiator, out);
      }
    } else if !s.ServerStep? {
      LocalKeepsAhead(c, w, s);
    }
  }

  lemma {:induction false} RunKeepsAhead(c: Setup, w: World, steps: seq<Step>)
    requires Inv(c, w) && AllowedRun(c, w, steps) && Ahead(w.initiator)
    ensures Ahead(Run(c, w, steps).initiator)
    decreases |steps|
  {
    hide Inv, Allowed, Next, Ahead;
    if |steps| > 0 {
      NextKeepsInv(c, w, steps[0]);
      StepKeepsAhead(c, w, steps[0]);
      RunKeepsAhead(c, Next(c, w, steps[0]), steps[1..]);
    }
  }

  // ---------------------------------------------------------------- Theorems

  /**
    The initiator never submits two different messages of one kind, proposals above
    all, with the same sequence, across every crash and every failed save.
  */
  lemma SubmissionsNeverFork(c: Setup, w: World, steps: seq<Step>, first: Message, second: Message)
    requires Initial(c, w) && AllowedRun(c, w, steps)
    requires first in Run(c, w, steps).initiator.sent && second in Run(c, w, steps).initiator.sent
    requires first.header.sequence == second.header.sequence && first.header.messageType == second.header.messageType
    ensures first == second
  {
    InitialKeepsInv(c, w);
    RunKeepsSystemInv(c, w, steps);
    assert Ahead(w.initiator) by { assert NewNode(c, true, w.initiator); }
    RunKeepsAhead(c, w, steps);
    var w' := Run(c, w, steps);
    assert SentInv(c, w', true) by { assert NodeInv(c, w', true); }
    assert w'.At(true) == w'.initiator;
    hide Inv, Run, Initial, AllowedRun, MayUse, Script;
    assert SentOk(c, w', true, first) && SentOk(c, w', true, second);
    assert first.header.transcriptHash == second.header.transcriptHash;
    SameLine(first.header.transcriptHash.transcript, true, CandidateFor(first.header.transcriptHash.transcript, c.initiatorOperator), first, second);
  }

  lemma SameLine(t: Transcript, side: bool, candidate: Candidate, first: Message, second: Message)
    requires first in Script(t, side, candidate) && second in Script(t, side, candidate)
    requires first.header.messageType == second.header.messageType
    ensures first == second
  {
  }

  /**
    Nothing leaves an endpoint before it is on its disk: whatever a step submits is,
    after that step, in the outbox that a restart would read back.
  */
  lemma SubmittedIsDurable(c: Setup, w: World, steps: seq<Step>, s: Step, side: bool, m: Message)
    requires Initial(c, w) && AllowedRun(c, w, steps) && Allowed(c, Run(c, w, steps), s)
    requires m in Next(c, Run(c, w, steps), s).At(side).sent && m !in Run(c, w, steps).At(side).sent
    ensures var saved := Next(c, Run(c, w, steps), s).At(side).saved;
            saved.pending.Some? && m in saved.pending.value.outbox && m.header.sequence == saved.pending.value.transcript.sequence
  {
    InitialKeepsInv(c, w);
    RunKeepsSystemInv(c, w, steps);
    var before := Run(c, w, steps);
    SendingStep(c, before, s, side, m);
    hide Run, Initial, AllowedRun;
    CycleEffect(c, before, s.remote, s.cycle, s.save, side);
    CycleTurns(c, before, side, s.remote, s.cycle);
    hide Inv, Allowed, Next, CycleOutcome, PendingShape;
    var out := CycleOutcome(c, before, side, s.remote, s.cycle);
    assert out.result.value.message == m;
    OutboxNamesTranscript(side, out.relationship.pending.value);
  }

  lemma SendingStep(c: Setup, w: World, s: Step, side: bool, m: Message)
    requires m in Next(c, w, s).At(side).sent && m !in w.At(side).sent
    ensures s.CycleStep? && s.side == side
  {
    hide Reconcile, StepLog, NoteSendFailure, Observe;
  }

  /**
    A restart is safe: the snapshot of the initiator counts past everything that was
    ever submitted, and holds every message of the exchange that it will resume.
  */
  lemma RestartResumes(c: Setup, w: World, steps: seq<Step>, m: Message)
    requires Initial(c, w) && AllowedRun(c, w, steps) && m in Run(c, w, steps).initiator.sent
    ensures var restarted := Next(c, Run(c, w, steps), CrashStep(true)).initiator.relationship;
            m.header.sequence < restarted.sequence
            && (restarted.pending.Some? && m.header.sequence == restarted.pending.value.transcript.sequence
                ==> m in restarted.pending.value.outbox)
  {
    InitialKeepsInv(c, w);
    assert Ahead(w.initiator) by { assert NewNode(c, true, w.initiator); }
    RunKeepsAhead(c, w, steps);
  }
}
