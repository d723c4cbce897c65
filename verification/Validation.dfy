/**
  The state's own consistency check, `validate`, against what the endpoints really
  reach: a responder never counts sequences, so from its second exchange on the
  check refuses the very state that `reconcile` built.
*/
module Validation {
  import opened Results
  import opened Numbers
  import opened Protocol
  import opened Mailbox
  import opened MailboxHistory
  import opened Engine
  import opened EngineFacts
  import opened System
  import opened SystemRuns
  import opened Duet

  // ---------------------------------------------------------------- The check

  function ValidateOutbox(self: Number, p: Pending, outbox: seq<Message>): Checked<Unit> {
    if |outbox| == 0 then Ok(Unit)
    else if outbox[0].header.senderId != self then Err(Invalid)
    else
      var _ :- outbox[0].Authenticate(p.transcript);
      var _ :- outbox[0].Confirm(p.candidate);
      ValidateOutbox(self, p, outbox[1..])
  }

  /** What `validate` asks of an exchange in flight; the keys in its bundles are taken as valid. */
  function ValidatePending(self: Identity, other: Number, r: Relationship, p: Pending): Checked<Unit> {
    var t := p.transcript;
    if t.initiatorId >= t.responderId
       || t.networkId != self.networkId
       || t.initiatorId != Min(self.peerId, other) || t.responderId != Max(self.peerId, other)
       || t.sequence > r.sequence || |p.outbox| > 8
       || SideBundle(t, self.peerId < other) != self.bundle || SideBundle(t, !(self.peerId < other)) != r.remote then
      Err(Invalid)
    else
      ValidateOutbox(self.peerId, p, p.outbox)
  }

  /** The loop over the outbox, stopping at the first message that fails. */
  method CheckOutbox(self: Number, p: Pending) returns (result: Checked<Unit>)
    ensures result == ValidateOutbox(self, p, p.outbox)
  {
    for i := 0 to |p.outbox|
      invariant ValidateOutbox(self, p, p.outbox) == ValidateOutbox(self, p, p.outbox[i..])
    {
      var message := p.outbox[i];
      assert p.outbox[i..][1..] == p.outbox[i + 1..];
      if message.header.senderId != self { return Err(Invalid); }
      var authentic := message.Authenticate(p.transcript);
      if authentic.Err? { return authentic; }
      var confirmed := message.Confirm(p.candidate);
      if confirmed.Err? { return confirmed; }
    }
    return Ok(Unit);
  }

  lemma {:induction false} OutboxIsAcceptedExactlyWhen(self: Number, p: Pending, outbox: seq<Message>)
    ensures ValidateOutbox(self, p, outbox).Ok?
            <==> forall m :: m in outbox ==> m.header.senderId == self && m.Authenticate(p.transcript).Ok? && m.Confirm(p.candidate).Ok?
    decreases |outbox|
  {
    hide Message.Authenticate, Message.Confirm;
    if |outbox| > 0 {
      OutboxIsAcceptedExactlyWhen(self, p, outbox[1..]);
      assert forall m :: m in outbox <==> m == outbox[0] || m in outbox[1..];
    }
  }

  /**
    What the check accepts: an exchange of this network between these two peers under
    their current bundles, no later than the counter, with at most eight messages in the
    outbox, each this endpoint's own, authentic and tagged with the candidate.
  */
  lemma CheckAcceptsExactlyWhen(self: Identity, other: Number, r: Relationship, p: Pending)
    ensures ValidatePending(self, other, r, p).Ok?
            <==> (var t := p.transcript;
                  && t.networkId == self.networkId && t.initiatorId < t.responderId
                  && {t.initiatorId, t.responderId} == {self.peerId, other}
                  && SideBundle(t, self.peerId == t.initiatorId) == self.bundle && SideBundle(t, self.peerId != t.initiatorId) == r.remote
                  && t.sequence <= r.sequence && |p.outbox| <= 8
                  && forall m :: m in p.outbox ==>
                       m.header.senderId == self.peerId && m.Authenticate(t).Ok? && m.Confirm(p.candidate).Ok?)
  {
    OutboxIsAcceptedExactlyWhen(self.peerId, p, p.outbox);
    PairIsOrdered(p.transcript.initiatorId, p.transcript.responderId, self.peerId, other);
    hide ValidateOutbox, Message.Authenticate, Message.Confirm;
  }

  lemma PairIsOrdered(a: Number, b: Number, c: Number, d: Number)
    ensures a < b && {a, b} == {c, d} <==> a < b && a == Min(c, d) && b == Max(c, d)
  {
    if {a, b} == {c, d} {
      assert a in {c, d} && b in {c, d} && c in {a, b} && d in {a, b};
    }
  }

  // ---------------------------------------------------------------- What every copy keeps

  /** An exchange in flight names this endpoint's network and bundle; an initiator has counted past it. */
  ghost predicate Rooted(side: bool, base: Number, self: Identity, r: Relationship) {
    && (!side ==> r.sequence == base)
    && (r.pending.Some? ==>
          var t := r.pending.value.transcript;
          t.networkId == self.networkId && SideBundle(t, side) == self.bundle && (side ==> t.sequence < r.sequence))
  }

  ghost predicate NodeRooted(side: bool, base: Number, n: Node) {
    Rooted(side, base, n.self, n.relationship) && Rooted(side, base, n.savedSelf, n.saved)
  }

  lemma DriveRoots(side: bool, base: Number, self: Identity, other: Number, r: Relationship, p: Pending, cycle: Cycle)
    requires Rooted(side, base, self, r.(pending := Some(p)))
    ensures Rooted(side, base, self, Drive(self, other, r, p, cycle).relationship)
  {
    hide Signed, Decision.Advance;
  }

  lemma ContinueRoots(side: bool, base: Number, self: Identity, other: Number, r: Relationship, p: Pending, remote: Option<Exchange>, cycle: Cycle)
    requires r.pending == Some(p) && Rooted(side, base, self, r)
    ensures Rooted(side, base, self, Continue(self, other, r, p, remote, cycle).relationship)
  {
    hide Absorb, DurablySent, Drive;
    DriveRoots(side, base, self, other, r, p.(decision := Absorb(p, remote, other).0), cycle);
  }

  lemma OpeningRoots(side: bool, base: Number, self: Identity, other: Number, r: Relationship, remote: Option<Exchange>, cycle: Cycle)
    requires r.pending.None? && Rooted(side, base, self, r) && side == (self.peerId < other)
    ensures side ==> Rooted(side, base, self, Start(self, other, r, cycle).relationship)
    ensures !side ==> Rooted(side, base, self, Join(self, other, r, remote).relationship)
  {
    hide Due, Signed, Derive, FindProposal, Message.Authenticate, Message.Confirm, Decision.Advance;
  }

  lemma CycleRoots(side: bool, base: Number, n: Node, other: Number, remote: Option<Exchange>, cycle: Cycle, save: SaveOutcome)
    requires NodeRooted(side, base, n) && side == (n.self.peerId < other)
    ensures NodeRooted(side, base, AfterCycle(n, other, remote, cycle, save))
  {
    hide Continue, Start, Join, Rooted;
    if n.relationship.pending.Some? {
      ContinueRoots(side, base, n.self, other, n.relationship, n.relationship.pending.value, remote, cycle);
    } else {
      OpeningRoots(side, base, n.self, other, n.relationship, remote, cycle);
    }
  }

  lemma LocalRoots(c: Setup, w: World, s: Step, side: bool, base: Number)
    requires Allowed(c, w, s) && NodeRooted(side, base, w.At(side)) && !s.CycleStep?
    ensures NodeRooted(side, base, Next(c, w, s).At(side))
  {
    hide Possible, Readable, Unforged, StepLog;
  }

  lemma StepRoots(c: Setup, w: World, s: Step, side: bool, base: Number)
    requires Inv(c, w) && Allowed(c, w, s) && NodeRooted(side, base, w.At(side))
    ensures NodeRooted(side, base, Next(c, w, s).At(side))
  {
    assert w.At(side).self.peerId == c.Id(side) && c.Valid() by { assert NodeInv(c, w, side); }
    hide Inv, NodeRooted, AfterCycle;
    if s.CycleStep? {
      if s.side == side {
        CycleRoots(side, base, w.At(side), c.Id(!side), s.remote, s.cycle, s.save);
      }
    } else {
      LocalRoots(c, w, s, side, base);
    }
  }

  lemma {:induction false} RunRoots(c: Setup, w: World, steps: seq<Step>, side: bool, base: Number)
    requires Inv(c, w) && AllowedRun(c, w, steps) && NodeRooted(side, base, w.At(side))
    ensures NodeRooted(side, base, Run(c, w, steps).At(side))
    decreases |steps|
  {
    hide Inv, Allowed, Next, NodeRooted;
    if |steps| > 0 {
      NextKeepsInv(c, w, steps[0]);
      StepRoots(c, w, steps[0], side, base);
      RunRoots(c, Next(c, w, steps[0]), steps[1..], side, base);
    }
  }

  // ---------------------------------------------------------------- When the check accepts

  lemma {:induction false} LinesValidate(side: bool, p: Pending, outbox: seq<Message>)
    requires p.transcript.initiatorId < p.transcript.responderId
    requires forall m :: m in outbox ==> m in Script(p.transcript, side, p.candidate)
    ensures ValidateOutbox(SideId(p.transcript, side), p, outbox).Ok?
  {
    hide Message.Authenticate, Message.Confirm;
    if |outbox| > 0 {
      assert outbox[0] in outbox;
      var kind :| kind in ScriptKinds(side) && outbox[0] == Line(p.transcript, side, p.candidate, kind);
      LineIsAuthentic(p.transcript, side, p.candidate, kind);
      LinesValidate(side, p, outbox[1..]);
    }
  }

  lemma OutboxValidates(side: bool, p: Pending)
    requires PendingShape(side, p)
    ensures ValidateOutbox(SideId(p.transcript, side), p, p.outbox).Ok? && |p.outbox| <= 4
  {
    forall m | m in p.outbox
      ensures m in Script(p.transcript, side, p.candidate)
    {
      assert m in Script(p.transcript, side, p.candidate)[..|p.outbox|];
    }
    LinesValidate(side, p, p.outbox);
  }

  /** The identity and the relationship of one side, in memory or on disk. */
  function CopyOf(n: Node, saved: bool): (Identity, Relationship) {
    if saved then (n.savedSelf, n.saved) else (n.self, n.relationship)
  }

  lemma RunCopies(c: Setup, w: World, steps: seq<Step>, side: bool, saved: bool)
    requires Initial(c, w) && AllowedRun(c, w, steps)
    ensures var (self, r) := CopyOf(Run(c, w, steps).At(side), saved);
            c.Valid() && CopyOk(c, Run(c, w, steps), side, self, r) && Rooted(side, w.responder.relationship.sequence, self, r)
  {
    InitialKeepsInv(c, w);
    RunKeepsSystemInv(c, w, steps);
    assert c.Valid() && NodeRooted(side, w.responder.relationship.sequence, w.At(side)) by { assert NewNode(c, side, w.At(side)); }
    RunRoots(c, w, steps, side, w.responder.relationship.sequence);
    assert NodeInv(c, Run(c, w, steps), side);
    hide Inv, Initial, AllowedRun, Run, CopyOk, Rooted;
  }

  /**
    In every run, in memory and on disk, the check accepts an exchange in flight exactly
    when the other side's bundle is still the pinned one and, for a responder, the
    exchange's sequence is no higher than the one that its relationship began with.
  */
  lemma ValidatesExactlyWhen(c: Setup, w: World, steps: seq<Step>, side: bool, saved: bool)
    requires Initial(c, w) && AllowedRun(c, w, steps)
    requires CopyOf(Run(c, w, steps).At(side), saved).1.pending.Some?
    ensures var (self, r) := CopyOf(Run(c, w, steps).At(side), saved);
            var t := r.pending.value.transcript;
            ValidatePending(self, c.Id(!side), r, r.pending.value).Ok?
            <==> SideBundle(t, !side) == r.remote && (side || t.sequence <= w.responder.relationship.sequence)
  {
    RunCopies(c, w, steps, side, saved);
    var (self, r) := CopyOf(Run(c, w, steps).At(side), saved);
    hide *;
    CopyValidatesExactlyWhen(c, Run(c, w, steps), side, w.responder.relationship.sequence, self, r);
  }

  lemma CopyValidatesExactlyWhen(c: Setup, w: World, side: bool, base: Number, self: Identity, r: Relationship)
    requires c.Valid() && CopyOk(c, w, side, self, r) && Rooted(side, base, self, r) && r.pending.Some?
    ensures var t := r.pending.value.transcript;
            ValidatePending(self, c.Id(!side), r, r.pending.value).Ok?
            <==> SideBundle(t, !side) == r.remote && (side || t.sequence <= base)
  {
    hide PendingShape, Justified, MayUse, ValidateOutbox;
    var p := r.pending.value;
    OutboxValidates(side, p);
    assert p.transcript.initiatorId < p.transcript.responderId by { assert Placed(self, c.Id(!side), side, p); }
  }

  /** The check refuses a responder's state from the second exchange on. */
  lemma SecondExchangeIsRefused(c: Setup, w: World, steps: seq<Step>, saved: bool)
    requires Initial(c, w) && AllowedRun(c, w, steps) && w.responder.relationship.sequence == 1
    requires var r := CopyOf(Run(c, w, steps).At(false), saved).1;
             r.pending.Some? && r.pending.value.transcript.sequence > 1
    ensures var (self, r) := CopyOf(Run(c, w, steps).At(false), saved);
            ValidatePending(self, c.initiatorId, r, r.pending.value) == Err(Invalid)
  {
    RunCopies(c, w, steps, false, saved);
    hide Initial, AllowedRun, Run, CopyOf, CopyOk, SideBundle, ValidateOutbox;
  }
}
