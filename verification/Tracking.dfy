/**
  The simulation invariant over whole runs: the server vouches for all that an
  endpoint has folded into its own view, up to its own latest message.
*/
module Tracking {
  import opened Results
  import opened Protocol
  import opened Mailbox
  import opened MailboxHistory
  import opened MailboxVersions
  import opened Engine
  import opened EngineFacts
  import opened System
  import opened SystemSafety
  import opened SystemRuns
  import opened Simulation
  import opened WriteAhead

  predicate Receipted(receipts: seq<MessageDigest>, sender: Number, code: Byte) {
    exists d :: d in receipts && d.senderId == sender && d.messageType == code
  }

  ghost predicate Vouches(log: Log, k: RowKey, i: nat, t: Transcript, sender: Number, code: Byte) {
    Version(log, k, i) && log.history[k][i].Active() && log.history[k][i].transcriptHash == Sha3(t)
    && Receipted(log.history[k][i].receipts, sender, code)
  }

  /** Some open version of the exchange has accepted this kind of message from this sender. */
  ghost predicate Acknowledged(log: Log, t: Transcript, sender: Number, code: Byte) {
    exists k, i: nat :: Vouches(log, k, i, t, sender, code)
  }

  /** With `strict`, no call was ever made inside a backoff window. */
  ghost predicate Tracked(strict: bool, log: Log, side: bool, p: Pending) {
    && (forall s: bool, k :: Demands(p.decision, s, k) ==>
          Acknowledged(log, p.transcript, SideId(p.transcript, s), k.Code()) || (s == side && Queued(p, k)))
    && (p.decision.phase == Phase.Complete ==> p.confirmed)
    && (strict ==> forall i :: 0 <= i < |p.outbox| - 1 ==>
          Acknowledged(log, p.transcript, SideId(p.transcript, side), p.outbox[i].header.messageType))
  }

  ghost predicate TrackedCopy(strict: bool, log: Log, side: bool, r: Relationship) {
    r.pending.Some? ==> Tracked(strict, log, side, r.pending.value)
  }

  ghost predicate TrackInv(strict: bool, w: World) {
    forall side: bool :: TrackedCopy(strict, w.log, side, w.At(side).relationship) && TrackedCopy(strict, w.log, side, w.At(side).saved)
  }

  predicate Unhurried(w: World, s: Step) {
    s.CycleStep? && w.At(s.side).relationship.pending.Some? ==> w.At(s.side).relationship.pending.value.nextRetryAt <= s.cycle.now
  }

  predicate UnhurriedRun(c: Setup, w: World, steps: seq<Step>)
    decreases |steps|
  {
    |steps| == 0 || (Unhurried(w, steps[0]) && UnhurriedRun(c, Next(c, w, steps[0]), steps[1..]))
  }

  // ---------------------------------------------------------------- Growth

  lemma AcknowledgedGrows(log: Log, log': Log, t: Transcript, sender: Number, code: Byte)
    requires Extends(log, log') && Acknowledged(log, t, sender, code)
    ensures Acknowledged(log', t, sender, code)
  {
    var k, i: nat :| Vouches(log, k, i, t, sender, code);
    assert Vouches(log', k, i, t, sender, code);
  }

  lemma TrackedGrows(strict: bool, log: Log, log': Log, side: bool, p: Pending)
    requires Extends(log, log') && Tracked(strict, log, side, p)
    ensures Tracked(strict, log', side, p)
  {
    hide Extends, Acknowledged, Demands, Queued;
    var t := p.transcript;
    forall s: bool, k | Demands(p.decision, s, k) && Acknowledged(log, t, SideId(t, s), k.Code())
      ensures Acknowledged(log', t, SideId(t, s), k.Code())
    {
      AcknowledgedGrows(log, log', t, SideId(t, s), k.Code());
    }
    forall i | strict && 0 <= i < |p.outbox| - 1
      ensures Acknowledged(log', t, SideId(t, side), p.outbox[i].header.messageType)
    {
      AcknowledgedGrows(log, log', t, SideId(t, side), p.outbox[i].header.messageType);
    }
  }

  // ---------------------------------------------------------------- What a served record vouches for

  lemma ServedVouches(c: Setup, w: World, v: Exchange, t: Transcript, m: Message)
    requires Inv(c, w) && Readable(c, w.log, v) && v.transcriptHash == Sha3(t) && m in v.messages
    ensures Acknowledged(w.log, t, m.header.senderId, m.header.messageType)
  {
    hide Inv, VersionOk, Replay, Readable, DistinctReceipts;
    var k, i := ServedVersion(c, w, v);
    var j :| 0 <= j < |v.messages| && v.messages[j] == m;
    assert v.receipts[j] == DigestOf(m);
    assert v.receipts[j] in v.receipts;
    assert Vouches(w.log, k, i, t, m.header.senderId, m.header.messageType);
  }

  lemma SaidIsAcknowledged(c: Setup, w: World, v: Exchange, t: Transcript, sender: Number, kind: Kind)
    requires Inv(c, w) && Readable(c, w.log, v) && v.transcriptHash == Sha3(t) && Said(v.messages, sender, kind)
    ensures Acknowledged(w.log, t, sender, kind.Code())
  {
    hide Inv, Readable;
    var m :| m in v.messages && m.header.senderId == sender && m.header.messageType == kind.Code();
    ServedVouches(c, w, v, t, m);
  }

  // ---------------------------------------------------------------- One reconciliation

  lemma ContinueTracked(strict: bool, c: Setup, w: World, side: bool, remote: Option<Exchange>, cycle: Cycle)
    requires Inv(c, w) && w.At(side).relationship.pending.Some? && (remote.Some? ==> Readable(c, w.log, remote.value))
    requires Tracked(strict, w.log, side, w.At(side).relationship.pending.value)
    requires strict ==> w.At(side).relationship.pending.value.nextRetryAt <= cycle.now
    ensures var n := w.At(side);
            TrackedCopy(strict, w.log, side, Continue(n.self, c.Id(!side), n.relationship, n.relationship.pending.value, remote, cycle).relationship)
  {
    var n, other := w.At(side), c.Id(!side);
    var p := n.relationship.pending.value;
    var out := Continue(n.self, other, n.relationship, p, remote, cycle);
    assert PendingOk(c, w, side, n.self, p) by { assert NodeInv(c, w, side); }
    PlacedByPendingOk(c, w, side, n.self, p);
    assert SideId(p.transcript, side) == n.self.peerId && SideId(p.transcript, !side) == other && |p.outbox| > 0;
    if out.relationship.pending.Some? {
      ContinueAccounted(n.self, other, side, n.relationship, p, remote, cycle);
      ContinuedInRun(c, w, side, remote, cycle);
      var p' := out.relationship.pending.value;
      assert p'.transcript == p.transcript;
      if Matches(remote, p) {
        MatchingIsSame(c, w, side, n.self, p, remote.value);
      }
      hide Inv, Continue, Continued, PendingOk, PendingShape, Placed, Justified, Readable, Demands, Said, Queued, Acknowledged, Accounted;
      AccountedTracked(strict, c, w, side, remote, p, n.self.peerId, other, p.nextRetryAt <= cycle.now, p');
    }
  }

  lemma AccountedTracked(strict: bool, c: Setup, w: World, side: bool, remote: Option<Exchange>, p: Pending,
                         self: Number, other: Number, outside: bool, p': Pending)
    requires Inv(c, w) && (remote.Some? ==> Readable(c, w.log, remote.value))
    requires Matches(remote, p) ==> remote.value.transcriptHash == Sha3(p.transcript)
    requires Tracked(strict, w.log, side, p) && (strict ==> outside) && p'.transcript == p.transcript
    requires SideId(p.transcript, side) == self && SideId(p.transcript, !side) == other
    requires Accounted(side, p, remote, self, other, outside, p')
    ensures Tracked(strict, w.log, side, p')
  {
    hide Inv, Readable, Demands, Said, Acknowledged, SideId;
    var t := p.transcript;
    forall s: bool, k | Demands(p'.decision, s, k)
      ensures Acknowledged(w.log, t, SideId(t, s), k.Code()) || (s == side && Queued(p', k))
    {
      if s != side && Matches(remote, p) && Said(remote.value.messages, other, k) {
        SaidIsAcknowledged(c, w, remote.value, t, other, k);
      } else if s == side && Queued(p, k) {
        var q :| q in p.outbox && q.header.messageType == k.Code();
        assert q in p'.outbox;
      }
    }
    forall i | strict && 0 <= i < |p'.outbox| - 1
      ensures Acknowledged(w.log, t, self, p'.outbox[i].header.messageType)
    {
      assert p'.outbox[i] == p.outbox[i];
      if i == |p.outbox| - 1 {
        var m :| m in remote.value.messages && m.header.senderId == self && m.header.messageType == p.outbox[i].header.messageType;
        ServedVouches(c, w, remote.value, t, m);
      }
    }
  }

  /** A proposal starts at the beginning; the initiator's own message is all it rests on. */
  lemma StartTracked(strict: bool, log: Log, self: Identity, other: Number, r: Relationship, cycle: Cycle)
    requires self.peerId < other && r.pending.None?
    ensures TrackedCopy(strict, log, true, Start(self, other, r, cycle).relationship)
  {
    StartFacts(self, other, r, cycle);
    StartDecision(self, other, r, cycle);
    hide Start, Acknowledged;
    var out := Start(self, other, r, cycle);
    if out.relationship.pending.Some? {
      var p := out.relationship.pending.value;
      assert p.outbox[0] in p.outbox;
      assert Queued(p, Kind.Propose);
    }
  }

  lemma JoinedOutbox(self: Identity, other: Number, r: Relationship, remote: Option<Exchange>)
    requires other < self.peerId && r.pending.None?
    ensures var out := Join(self, other, r, remote);
            out.relationship.pending.Some? ==>
              var p := out.relationship.pending.value;
              && remote.Some? && remote.value.transcript.Some?
              && p.transcript == remote.value.transcript.value && p.transcript.initiatorId == other
              && |p.outbox| == 1 && p.outbox[0].header.messageType == Kind.Ready.Code()
              && exists m :: m in remote.value.messages && m.header.senderId == other && m.header.messageType == Kind.Propose.Code()
  {
    JoinFacts(self, other, r, remote);
    hide Join, Message.Authenticate, Message.Confirm, PendingShape, Placed, Justified;
  }

  lemma JoinTracked(strict: bool, c: Setup, w: World, remote: Option<Exchange>)
    requires Inv(c, w) && w.responder.relationship.pending.None? && (remote.Some? ==> Readable(c, w.log, remote.value))
    ensures TrackedCopy(strict, w.log, false, Join(w.responder.self, c.initiatorId, w.responder.relationship, remote).relationship)
  {
    var n := w.responder;
    assert n.self.peerId == c.responderId && c.Valid() by { assert NodeInv(c, w, false) && w.At(false) == n; }
    JoinDecision(n.self, c.initiatorId, n.relationship, remote);
    JoinedOutbox(n.self, c.initiatorId, n.relationship, remote);
    var out := Join(n.self, c.initiatorId, n.relationship, remote);
    hide Join, Inv, Readable, TrackedCopy, Message.Authenticate, Message.Confirm, Script, PendingShape, Placed, Justified;
    if out.relationship.pending.Some? {
      AnsweredTracked(strict, c, w, remote.value, remote.value.transcript.value, out.relationship.pending.value);
    }
    assert TrackedCopy(strict, w.log, false, out.relationship) by {
      TrackedIsTrackedCopy(strict, w.log, false, out.relationship);
    }
  }

  lemma TrackedIsTrackedCopy(strict: bool, log: Log, side: bool, r: Relationship)
    requires r.pending.Some? ==> Tracked(strict, log, side, r.pending.value)
    ensures TrackedCopy(strict, log, side, r)
  {
  }

  lemma AnsweredTracked(strict: bool, c: Setup, w: World, v: Exchange, t: Transcript, p: Pending)
    requires Inv(c, w) && Readable(c, w.log, v) && v.transcript == Some(t)
    requires p.transcript == t && p.decision == Decision(Phase.Ready, NEITHER, NEITHER)
    requires |p.outbox| == 1 && p.outbox[0].header.messageType == Kind.Ready.Code()
    requires exists m :: m in v.messages && m.header.senderId == t.initiatorId && m.header.messageType == Kind.Propose.Code()
    ensures Tracked(strict, w.log, false, p)
  {
    hide Inv, Acknowledged, Readable;
    assert p.outbox[0] in p.outbox;
    assert Queued(p, Kind.Ready);
    ServedTranscript(c, w, v);
    var m :| m in v.messages && m.header.senderId == t.initiatorId && m.header.messageType == Kind.Propose.Code();
    ServedVouches(c, w, v, t, m);
  }

  lemma ServedTranscript(c: Setup, w: World, v: Exchange)
    requires Inv(c, w) && Readable(c, w.log, v) && v.transcript.Some?
    ensures v.transcriptHash == Sha3(v.transcript.value)
  {
    hide Inv, VersionOk, Replay, Readable, DistinctReceipts;
    var k, i := ServedVersion(c, w, v);
  }

  // ---------------------------------------------------------------- Every step

  lemma CycleTracked(strict: bool, c: Setup, w: World, side: bool, remote: Option<Exchange>, cycle: Cycle)
    requires Inv(c, w) && TrackInv(strict, w) && (remote.Some? ==> Readable(c, w.log, remote.value))
    requires strict && w.At(side).relationship.pending.Some? ==> w.At(side).relationship.pending.value.nextRetryAt <= cycle.now
    ensures TrackedCopy(strict, w.log, side, CycleOutcome(c, w, side, remote, cycle).relationship)
  {
    var n, other := w.At(side), c.Id(!side);
    assert n.self.peerId == c.Id(side) && c.Valid() by { assert NodeInv(c, w, side); }
    assert TrackedCopy(strict, w.log, side, n.relationship);
    hide Inv, TrackInv, Tracked, Continue, Start, Join, Readable;
    if n.relationship.gated || n.relationship.status == Status.Blocked || n.self.enrollment == Enrollment.Retiring {
    } else if n.relationship.pending.Some? {
      ContinueTracked(strict, c, w, side, remote, cycle);
    } else if side {
      StartTracked(strict, w.log, n.self, other, n.relationship, cycle);
    } else {
      JoinTracked(strict, c, w, remote);
    }
  }

  lemma RetriesTracked(strict: bool, log: Log, side: bool, p: Pending, attempts: nat, nextRetryAt: nat)
    requires Tracked(strict, log, side, p)
    ensures Tracked(strict, log, side, p.(attempts := attempts, nextRetryAt := nextRetryAt))
  {
    hide Acknowledged, Demands;
    var p' := p.(attempts := attempts, nextRetryAt := nextRetryAt);
    forall k | Queued(p, k)
      ensures Queued(p', k)
    {
    }
  }

  lemma PutTracked(strict: bool, w: World, side: bool, n: Node)
    requires TrackInv(strict, w)
    requires TrackedCopy(strict, w.log, side, n.relationship) && TrackedCopy(strict, w.log, side, n.saved)
    ensures TrackInv(strict, w.Put(side, n))
  {
    hide TrackedCopy;
    SideUnchanged(w, side, n);
    assert TrackedCopy(strict, w.log, !side, w.At(!side).relationship) && TrackedCopy(strict, w.log, !side, w.At(!side).saved);
  }

  lemma LocalTracked(strict: bool, c: Setup, w: World, s: Step)
    requires TrackInv(strict, w) && !s.ServerStep? && !s.CycleStep?
    ensures TrackInv(strict, Next(c, w, s))
  {
    hide Tracked;
    var n, n' := w.At(s.side), Next(c, w, s).At(s.side);
    assert TrackedCopy(strict, w.log, s.side, n.relationship) && TrackedCopy(strict, w.log, s.side, n.saved);
    LocalPuts(c, w, s);
    if s.BackoffStep? && n.relationship.pending.Some? {
      var r' := NoteSendFailure(n.relationship, s.now, s.random).value;
      RetriesTracked(strict, w.log, s.side, n.relationship.pending.value, r'.pending.value.attempts, r'.pending.value.nextRetryAt);
    }
    hide TrackInv;
    PutTracked(strict, w, s.side, n');
  }

  lemma ServerTracked(strict: bool, c: Setup, w: World, e: Event)
    requires TrackInv(strict, w)
    ensures TrackInv(strict, Next(c, w, ServerStep(e)))
  {
    var w' := Next(c, w, ServerStep(e));
    ServerGrows(c, w, e);
    hide StepLog, Tracked, Extends;
    forall side: bool
      ensures TrackedCopy(strict, w'.log, side, w'.At(side).relationship) && TrackedCopy(strict, w'.log, side, w'.At(side).saved)
    {
      assert TrackedCopy(strict, w.log, side, w.At(side).relationship) && TrackedCopy(strict, w.log, side, w.At(side).saved);
      var r, saved := w.At(side).relationship, w.At(side).saved;
      if r.pending.Some? { TrackedGrows(strict, w.log, w'.log, side, r.pending.value); }
      if saved.pending.Some? { TrackedGrows(strict, w.log, w'.log, side, saved.pending.value); }
    }
  }

  lemma TurnTracked(strict: bool, w: World, w': World, side: bool, out: Outcome)
    requires TrackInv(strict, w) && w'.log == w.log && w'.At(!side) == w.At(!side)
    requires TurnTaken(w.At(side), w'.At(side), out) && TrackedCopy(strict, w.log, side, out.relationship)
    ensures TrackInv(strict, w')
  {
    hide TrackedCopy;
    forall x: bool
      ensures TrackedCopy(strict, w'.log, x, w'.At(x).relationship) && TrackedCopy(strict, w'.log, x, w'.At(x).saved)
    {
      assert TrackedCopy(strict, w.log, x, w.At(x).relationship) && TrackedCopy(strict, w.log, x, w.At(x).saved);
    }
  }

  lemma NextTracked(strict: bool, c: Setup, w: World, s: Step)
    requires Inv(c, w) && TrackInv(strict, w) && Allowed(c, w, s) && (strict ==> Unhurried(w, s))
    ensures TrackInv(strict, Next(c, w, s))
  {
    if s.ServerStep? {
      ServerTracked(strict, c, w, s.event);
    } else if s.CycleStep? {
      CycleReconciles(c, w, s.side, s.remote, s.cycle, s.save);
      CycleTakesTurn(c, w, s.side, s.remote, s.cycle, s.save);
      CycleTracked(strict, c, w, s.side, s.remote, s.cycle);
      ReconciledGrows(c, w, Next(c, w, s), s.side, CycleOutcome(c, w, s.side, s.remote, s.cycle));
      hide *;
      TurnTracked(strict, w, Next(c, w, s), s.side, CycleOutcome(c, w, s.side, s.remote, s.cycle));
    } else {
      LocalTracked(strict, c, w, s);
    }
  }

  lemma {:induction false} RunTracked(strict: bool, c: Setup, w: World, steps: seq<Step>)
    requires Inv(c, w) && TrackInv(strict, w) && AllowedRun(c, w, steps) && (strict ==> UnhurriedRun(c, w, steps))
    ensures TrackInv(strict, Run(c, w, steps))
    decreases |steps|
  {
    hide Inv, Allowed, Next, TrackInv, Unhurried;
    if |steps| > 0 {
      NextKeepsInv(c, w, steps[0]);
      NextTracked(strict, c, w, steps[0]);
      RunTracked(strict, c, Next(c, w, steps[0]), steps[1..]);
    }
  }
}
