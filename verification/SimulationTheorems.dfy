/** The simulation between an endpoint and the server, and what completion proves. */
module SimulationTheorems {
  import opened Results
  import opened Protocol
  import opened Mailbox
  import opened MailboxHistory
  import opened MailboxSafety
  import opened Engine
  import opened EngineFacts
  import opened ReplayFacts
  import opened System
  import opened SystemSafety
  import opened SystemRuns
  import opened Simulation
  import opened WriteAhead
  import opened Tracking
  import opened Theorems

  // ---------------------------------------------------------------- The newest version

  /** The last version of this exchange that the server stored. */
  ghost predicate Newest(l: Log, k: RowKey, i: nat, t: Transcript) {
    Version(l, k, i) && l.history[k][i].transcriptHash == Sha3(t)
    && forall j: nat :: Version(l, k, j) && l.history[k][j].transcriptHash == Sha3(t) ==> j <= i
  }

  lemma SameHashChain(l: Log, k: RowKey, i: nat, k': RowKey, j: nat)
    requires ChainInv(l) && Version(l, k, i) && Version(l, k', j)
    requires l.history[k][i].transcriptHash == l.history[k'][j].transcriptHash
    ensures k == k' && RecordOk(k, l.history[k][i])
    ensures i < j ==> l.history[k][i].receipts <= l.history[k][j].receipts
  {
    assert ChainOf(k, l.history[k]) && ChainOf(k', l.history[k']);
    var a, b := l.history[k][i], l.history[k'][j];
    assert NamesTranscript(a) && NamesTranscript(b) && a.key == k && b.key == k';
    hide RecordOk;
    if i < j {
      assert Supersedes(a, b);
    }
  }

  lemma AcknowledgedInNewest(l: Log, k: RowKey, i: nat, t: Transcript, sender: Number, code: Byte)
    requires ChainInv(l) && Newest(l, k, i, t) && Acknowledged(l, t, sender, code)
    ensures Receipted(l.history[k][i].receipts, sender, code)
  {
    hide ChainInv, Receipted;
    var k', j: nat :| Vouches(l, k', j, t, sender, code);
    SameHashChain(l, k', j, k, i);
    assert j <= i;
    ReceiptedGrows(l.history[k][j].receipts, l.history[k][i].receipts, sender, code);
  }

  lemma ReceiptedGrows(receipts: seq<MessageDigest>, more: seq<MessageDigest>, sender: Number, code: Byte)
    requires receipts <= more && Receipted(receipts, sender, code)
    ensures Receipted(more, sender, code)
  {
    var d :| d in receipts && d.senderId == sender && d.messageType == code;
    assert d in more;
  }

  lemma ReceiptedIsCarried(k: RowKey, v: Exchange, t: Transcript, s: bool, kind: Kind)
    requires RecordOk(k, v) && v.transcriptHash == Sha3(t) && Receipted(v.receipts, SideId(t, s), kind.Code())
    ensures Carries(v.receipts, k, s, kind)
  {
    hide Replay, BodiesMatch, DistinctReceipts;
    var d :| d in v.receipts && d.senderId == SideId(t, s) && d.messageType == kind.Code();
    var i :| 0 <= i < |v.receipts| && v.receipts[i] == d;
  }

  /** What a version of this pair accepted from a side is one line of that side's script. */
  lemma ReceiptIsLine(c: Setup, w: World, k: RowKey, v: Exchange, t: Transcript, side: bool, j: nat)
    requires NodeInv(c, w, side) && RecordOk(k, v) && VersionOk(c, w, k, v) && c.Owns(k) && v.transcriptHash == Sha3(t)
    requires j < |v.receipts| && v.receipts[j].senderId == c.Id(side)
    ensures v.receipts[j].body.message in Script(t, side, CandidateFor(t, c.Operator(side)))
    ensures v.receipts[j] == DigestOf(v.receipts[j].body.message)
  {
    DigestIsSent(c, w, k, v, j, side);
    hide Script, NodeInv, VersionOk, Replay, BodiesMatch;
    assert Faithful(v.receipts[j], v.transcriptHash.transcript);
  }

  lemma NothingAborts(c: Setup, w: World, k: RowKey, v: Exchange)
    requires NodeInv(c, w, true) && RecordOk(k, v) && VersionOk(c, w, k, v) && c.Owns(k)
    ensures !Carries(v.receipts, k, true, Kind.Abort)
  {
    hide NodeInv, RecordOk, VersionOk;
    if Carries(v.receipts, k, true, Kind.Abort) {
      var j :| 0 <= j < |v.receipts| && SenderIsInitiator(v.receipts[j], k) && v.receipts[j].messageType == Kind.Abort.Code();
      HashIsTranscript(k, v);
      ReceiptIsLine(c, w, k, v, v.transcriptHash.transcript, true, j);
    }
  }

  lemma HashIsTranscript(k: RowKey, v: Exchange)
    requires RecordOk(k, v)
    ensures v.transcriptHash.Sha3? && v.key == k
  {
  }

  /** The accepted message of the kind that a side queued is the very message that it queued. */
  lemma QueuedIsReceipted(c: Setup, w: World, k: RowKey, v: Exchange, side: bool, p: Pending, j: nat)
    requires NodeInv(c, w, side) && RecordOk(k, v) && VersionOk(c, w, k, v) && c.Owns(k) && v.transcriptHash == Sha3(p.transcript)
    requires PendingShape(side, p) && p.candidate == CandidateFor(p.transcript, c.Operator(side))
    requires j < |p.outbox| && SideId(p.transcript, side) == c.Id(side)
    requires Receipted(v.receipts, c.Id(side), p.outbox[j].header.messageType)
    ensures DigestOf(p.outbox[j]) in v.receipts
  {
    var line := p.outbox[j];
    QueuedLine(side, p, j);
    hide NodeInv, RecordOk, VersionOk, PendingShape, Script, CandidateFor;
    var d :| d in v.receipts && d.senderId == c.Id(side) && d.messageType == line.header.messageType;
    var i :| 0 <= i < |v.receipts| && v.receipts[i] == d;
    ReceiptIsLine(c, w, k, v, p.transcript, side, i);
    SameLine(p.transcript, side, p.candidate, d.body.message, line);
  }

  lemma QueuedLine(side: bool, p: Pending, j: nat)
    requires PendingShape(side, p) && j < |p.outbox|
    ensures p.outbox[j] in Script(p.transcript, side, p.candidate)
  {
    assert p.outbox[j] == Script(p.transcript, side, p.candidate)[j];
  }

  // ---------------------------------------------------------------- One message ahead

  /** What an outbox and a local decision say about the newest version that the server stored. */
  ghost predicate Supported(side: bool, p: Pending, k: RowKey, receipts: seq<MessageDigest>)
    requires 1 <= |p.outbox| <= |ScriptKinds(side)|
  {
    && (forall j :: 0 <= j < |p.outbox| - 1 ==> Carries(receipts, k, side, ScriptKinds(side)[j]))
    && (forall s: bool, kind :: Demands(p.decision, s, kind) ==> Carries(receipts, k, s, kind) || (s == side && kind == LastKind(side, p)))
  }

  lemma NewestSupports(c: Setup, w: World, side: bool, self: Identity, p: Pending, k: RowKey, i: nat)
    requires Inv(c, w) && PendingOk(c, w, side, self, p) && Tracked(true, w.log, side, p) && Newest(w.log, k, i, p.transcript)
    ensures 1 <= |p.outbox| <= |ScriptKinds(side)| && Supported(side, p, k, w.log.history[k][i].receipts)
  {
    var v, t := w.log.history[k][i], p.transcript;
    OutboxKinds(side, p);
    assert 1 <= |p.outbox| <= |ScriptKinds(side)|;
    assert ChainInv(w.log) && RecordOk(k, v) by { assert ChainOf(k, w.log.history[k]); }
    hide Inv, PendingOk, PendingShape, Demands, Carries, RecordOk, ChainInv, Acknowledged, Newest, Receipted, Queued;
    forall j | 0 <= j < |p.outbox| - 1
      ensures Carries(v.receipts, k, side, ScriptKinds(side)[j])
    {
      AcknowledgedInNewest(w.log, k, i, t, SideId(t, side), p.outbox[j].header.messageType);
      ReceiptedIsCarried(k, v, t, side, ScriptKinds(side)[j]);
    }
    forall s: bool, kind | Demands(p.decision, s, kind)
      ensures Carries(v.receipts, k, s, kind) || (s == side && kind == LastKind(side, p))
    {
      if Acknowledged(w.log, t, SideId(t, s), kind.Code()) {
        AcknowledgedInNewest(w.log, k, i, t, SideId(t, s), kind.Code());
        ReceiptedIsCarried(k, v, t, s, kind);
      } else {
        ShapeOfPending(c, w, side, self, p);
        var j := QueuedKind(side, p, kind);
      }
    }
  }

  lemma ShapeOfPending(c: Setup, w: World, side: bool, self: Identity, p: Pending)
    requires PendingOk(c, w, side, self, p)
    ensures PendingShape(side, p) && p.candidate == CandidateFor(p.transcript, c.Operator(side))
  {
  }

  /** The local decision is no further than the server's, or than the server's after one more message of this side. */
  predicate OneAhead(side: bool, p: Pending, r: Decision)
    requires 1 <= |p.outbox| <= |ScriptKinds(side)|
  {
    Below(p.decision, r)
    || (r.Advance(LastKind(side, p), side).Ok? && Below(p.decision, r.Advance(LastKind(side, p), side).value))
  }

  lemma SupportedIsOneAhead(side: bool, p: Pending, k: RowKey, receipts: seq<MessageDigest>, t: Transcript)
    requires PendingShape(side, p) && (p.decision.phase == Phase.Complete ==> p.confirmed)
    requires Replay(receipts, k).Ok? && !Carries(receipts, k, true, Kind.Abort) && Supported(side, p, k, receipts)
    requires SenderIsInitiator(DigestOf(p.outbox[|p.outbox| - 1]), k) == side
    ensures OneAhead(side, p, Replay(receipts, k).value)
  {
    var r, last, digest := Replay(receipts, k).value, LastKind(side, p), DigestOf(p.outbox[|p.outbox| - 1]);
    OutboxKinds(side, p);
    ReplayOrdered(receipts, k);
    ReplayDemands(receipts, k, true, Kind.Abort);
    ReplayDemands(receipts, k, side, last);
    if Carries(receipts, k, side, last) {
      hide PendingShape, Demands, Carries, Below;
      CarriedIsBelow(p.decision, receipts, k);
    } else {
      assert p.decision.phase != Phase.Aborted by { NoLocalAbort(side, p, k, receipts); }
      assert r.phase != Phase.Aborted;
      hide Demands, Carries, Below;
      forall s: bool, kind
        ensures Demands(r, s, kind) <==> Carries(receipts, k, s, kind)
      {
        ReplayDemands(receipts, k, s, kind);
      }
      LastAdvances(side, p, r);
      AppendedIsBelow(side, p, k, receipts, digest);
    }
  }

  lemma NoLocalAbort(side: bool, p: Pending, k: RowKey, receipts: seq<MessageDigest>)
    requires 1 <= |p.outbox| <= |ScriptKinds(side)| && Supported(side, p, k, receipts) && !Carries(receipts, k, true, Kind.Abort)
    ensures p.decision.phase != Phase.Aborted
  {
  }

  lemma AppendedIsBelow(side: bool, p: Pending, k: RowKey, receipts: seq<MessageDigest>, digest: MessageDigest)
    requires 1 <= |p.outbox| <= |ScriptKinds(side)| && Supported(side, p, k, receipts)
    requires Replay(receipts, k).Ok? && !Carries(receipts, k, true, Kind.Abort)
    requires digest.messageType == LastKind(side, p).Code() && SenderIsInitiator(digest, k) == side
    requires Replay(receipts, k).value.Advance(LastKind(side, p), side).Ok?
    ensures Below(p.decision, Replay(receipts, k).value.Advance(LastKind(side, p), side).value)
  {
    var more, last := receipts + [digest], LastKind(side, p);
    hide Demands, Below, Decision.Advance;
    assert |receipts| > 0;
    ReplayAppend(receipts, digest, k);
    assert KindOf(digest.messageType) == Ok(last);
    assert more[..|receipts|] == receipts;
    forall s: bool, kind | Demands(p.decision, s, kind)
      ensures Carries(more, k, s, kind)
    {
      if Carries(receipts, k, s, kind) {
        CarriesPrefix(more, k, s, kind, |receipts|);
      } else {
        assert more[|receipts|] == digest;
      }
    }
    hide Carries;
    CarriedIsBelow(p.decision, more, k);
  }

  lemma TrackedPending(strict: bool, c: Setup, w: World, side: bool, r: Relationship)
    requires Inv(c, w) && TrackInv(strict, w)
    requires r in {w.At(side).relationship, w.At(side).saved} && r.pending.Some?
    ensures Tracked(strict, w.log, side, r.pending.value)
    ensures exists self :: PendingOk(c, w, side, self, r.pending.value)
  {
    assert NodeInv(c, w, side);
    assert TrackedCopy(strict, w.log, side, w.At(side).relationship) && TrackedCopy(strict, w.log, side, w.At(side).saved);
    hide PendingOk, Tracked, LogInv, MailInv, SentInv, HandedInv, KeyOk;
    assert PendingOk(c, w, side, w.At(side).self, r.pending.value) || PendingOk(c, w, side, w.At(side).savedSelf, r.pending.value);
  }

  lemma InitialTracked(strict: bool, c: Setup, w: World)
    requires Initial(c, w)
    ensures TrackInv(strict, w)
  {
    assert NewNode(c, true, w.initiator) && NewNode(c, false, w.responder);
  }

  lemma NewestVersionOk(c: Setup, w: World, t: Transcript, k: RowKey, i: nat)
    requires Inv(c, w) && Newest(w.log, k, i, t) && t.initiatorId == c.initiatorId && t.responderId == c.responderId
    ensures RecordOk(k, w.log.history[k][i]) && VersionOk(c, w, k, w.log.history[k][i]) && c.Owns(k)
  {
    assert ChainOf(k, w.log.history[k]);
    assert RecordOk(k, w.log.history[k][i]) && VersionOk(c, w, k, w.log.history[k][i]);
    hide NodeInv, VersionOk, ProposalsInv, GenerationInv, SweepInv, DecisionReplays, BodiesMatch;
    assert NamesTranscript(w.log.history[k][i]);
  }

  lemma ReplayOk(k: RowKey, v: Exchange)
    requires RecordOk(k, v)
    ensures Replay(v.receipts, k).Ok?
  {
  }

  lemma NewestIsOneBehind(c: Setup, w: World, side: bool, self: Identity, p: Pending, k: RowKey, i: nat)
    requires Inv(c, w) && PendingOk(c, w, side, self, p) && Tracked(true, w.log, side, p) && Newest(w.log, k, i, p.transcript)
    ensures 1 <= |p.outbox| <= |ScriptKinds(side)|
    ensures var receipts := w.log.history[k][i].receipts;
            && (forall j :: 0 <= j < |p.outbox| - 1 ==> DigestOf(p.outbox[j]) in receipts)
            && Replay(receipts, k).Ok? && OneAhead(side, p, Replay(receipts, k).value)
  {
    var v := w.log.history[k][i];
    ShapeOfPending(c, w, side, self, p);
    PlacedByPendingOk(c, w, side, self, p);
    var mine := SideId(p.transcript, side);
    assert mine == c.Id(side) && c.Valid() && ProposalOk(c, p.transcript) && (p.decision.phase == Phase.Complete ==> p.confirmed)
           && NodeInv(c, w, side) && NodeInv(c, w, true) && SideId(p.transcript, side) == p.outbox[|p.outbox| - 1].header.senderId by {
      PendingIdentity(c, w, side, self, p);
    }
    NewestVersionOk(c, w, p.transcript, k, i);
    NewestSupports(c, w, side, self, p, k, i);
    ReplayOk(k, v);
    NothingAborts(c, w, k, v);
    hide Inv, PendingOk, PendingShape, Demands, RecordOk, Carries, Acknowledged, Placed, Justified, NodeInv, VersionOk, OneAhead, Tracked;
    SupportedIsOneAhead(side, p, k, v.receipts, p.transcript);
    forall j | 0 <= j < |p.outbox| - 1
      ensures DigestOf(p.outbox[j]) in v.receipts
    {
      RelayedIsReceipted(c, w, side, self, p, k, i, j);
    }
  }

  lemma PendingIdentity(c: Setup, w: World, side: bool, self: Identity, p: Pending)
    requires Inv(c, w) && PendingOk(c, w, side, self, p)
    ensures SideId(p.transcript, side) == c.Id(side) && ProposalOk(c, p.transcript)
    ensures p.outbox[|p.outbox| - 1].header.senderId == SideId(p.transcript, side)
  {
    var script := Script(p.transcript, side, p.candidate);
    assert p.outbox[|p.outbox| - 1] == script[|p.outbox| - 1];
    hide LogInv, MailInv, NodeInv;
  }

  lemma RelayedIsReceipted(c: Setup, w: World, side: bool, self: Identity, p: Pending, k: RowKey, i: nat, j: nat)
    requires Inv(c, w) && PendingOk(c, w, side, self, p) && Tracked(true, w.log, side, p) && Newest(w.log, k, i, p.transcript)
    requires RecordOk(k, w.log.history[k][i]) && VersionOk(c, w, k, w.log.history[k][i]) && c.Owns(k)
    requires j < |p.outbox| - 1
    ensures DigestOf(p.outbox[j]) in w.log.history[k][i].receipts
  {
    ShapeOfPending(c, w, side, self, p);
    PendingIdentity(c, w, side, self, p);
    assert ChainInv(w.log) && NodeInv(c, w, side);
    assert Acknowledged(w.log, p.transcript, SideId(p.transcript, side), p.outbox[j].header.messageType);
    hide Inv, PendingOk, PendingShape, RecordOk, NodeInv, VersionOk, ChainInv, Acknowledged, Receipted, Tracked;
    AcknowledgedInNewest(w.log, k, i, p.transcript, SideId(p.transcript, side), p.outbox[j].header.messageType);
    QueuedIsReceipted(c, w, k, w.log.history[k][i], side, p, j);
  }

  /**
    The simulation. In every run without calls inside a backoff window, for the
    exchange that an endpoint has in flight, in memory or on disk: the newest version
    that the server stored has accepted every message of its outbox except the last,
    and its decision is no further than what the server's accepted messages give, or
    would give after its own last message.
  */
  lemma ViewIsOneMessageAhead(c: Setup, w: World, steps: seq<Step>, side: bool, r: Relationship, k: RowKey, i: nat)
    requires Initial(c, w) && AllowedRun(c, w, steps) && UnhurriedRun(c, w, steps)
    requires r in {Run(c, w, steps).At(side).relationship, Run(c, w, steps).At(side).saved} && r.pending.Some?
    requires Newest(Run(c, w, steps).log, k, i, r.pending.value.transcript)
    ensures var p, receipts := r.pending.value, Run(c, w, steps).log.history[k][i].receipts;
            && 1 <= |p.outbox| <= |ScriptKinds(side)|
            && (forall j :: 0 <= j < |p.outbox| - 1 ==> DigestOf(p.outbox[j]) in receipts)
            && Replay(receipts, k).Ok? && OneAhead(side, p, Replay(receipts, k).value)
  {
    InitialKeepsInv(c, w);
    RunKeepsSystemInv(c, w, steps);
    InitialTracked(true, c, w);
    RunTracked(true, c, w, steps);
    hide *;
    TrackedPending(true, c, Run(c, w, steps), side, r);
    var self :| PendingOk(c, Run(c, w, steps), side, self, r.pending.value);
    NewestIsOneBehind(c, Run(c, w, steps), side, self, r.pending.value, k, i);
  }

  /** Before the server has stored anything of an exchange, only its unanswered proposal exists. */
  lemma UnseenIsOnlyProposed(c: Setup, w: World, steps: seq<Step>, side: bool, r: Relationship)
    requires Initial(c, w) && AllowedRun(c, w, steps) && UnhurriedRun(c, w, steps)
    requires r in {Run(c, w, steps).At(side).relationship, Run(c, w, steps).At(side).saved} && r.pending.Some?
    requires forall k, i: nat :: Version(Run(c, w, steps).log, k, i) ==>
               Run(c, w, steps).log.history[k][i].transcriptHash != Sha3(r.pending.value.transcript)
    ensures side && |r.pending.value.outbox| == 1 && r.pending.value.decision == START
  {
    InitialKeepsInv(c, w);
    RunKeepsSystemInv(c, w, steps);
    InitialTracked(true, c, w);
    RunTracked(true, c, w, steps);
    var w' := Run(c, w, steps);
    TrackedPending(true, c, w', side, r);
    hide Inv, TrackInv, Run, UnhurriedRun, AllowedRun, Initial, PendingOk;
    var p := r.pending.value;
    var self :| PendingOk(c, w', side, self, p);
    ShapeOfPending(c, w', side, self, p);
    forall sender, code
      ensures !Acknowledged(w'.log, p.transcript, sender, code)
    {
    }
    UnvouchedIsOnlyProposed(w'.log, side, p);
  }

  lemma UnvouchedIsOnlyProposed(log: Log, side: bool, p: Pending)
    requires PendingShape(side, p) && Tracked(true, log, side, p)
    requires forall sender, code :: !Acknowledged(log, p.transcript, sender, code)
    ensures side && |p.outbox| == 1 && p.decision == START
  {
    hide Acknowledged, Script;
    var d := p.decision;
    assert !Acknowledged(log, p.transcript, SideId(p.transcript, side), p.outbox[0].header.messageType);
    assert |p.outbox| == 1;
    OutboxKinds(side, p);
    assert Demands(d, true, Kind.Propose);
    forall s: bool, k | Demands(d, s, k)
      ensures side && s && k == Kind.Propose
    {
      if Demands(d, true, Kind.Propose) && s == side && Queued(p, k) {
        var j := QueuedKind(side, p, k);
      }
    }
    OnlyProposalDemanded(d);
  }

  lemma OnlyProposalDemanded(d: Decision)
    requires forall s: bool, k :: Demands(d, s, k) ==> k == Kind.Propose
    ensures d == START
  {
    assert !Demands(d, false, Kind.Ready) && !Demands(d, true, Kind.Abort);
    assert !Demands(d, true, Kind.Installed) && !Demands(d, false, Kind.Installed);
    assert !Demands(d, true, Kind.Confirmed) && !Demands(d, false, Kind.Confirmed);
  }

  // ---------------------------------------------------------------- Completion

  /**
    An exchange that is complete in the endpoint's own view ends exactly when its last
    message is durably received, or unchecked inside a backoff window.
  */
  lemma CompletesExactlyWhen(self: Identity, other: Number, r: Relationship, p: Pending, remote: Option<Exchange>, c: Cycle)
    requires Absorb(p, remote, other).0.phase == Phase.Complete && |p.outbox| > 0
    ensures Continue(self, other, r, p, remote, c).result == Ok(Action.Complete)
            <==> Absorb(p, remote, other).1.Ok?
                 && (DurablySent(remote, p.(decision := Absorb(p, remote, other).0), self.peerId) || p.nextRetryAt > c.now)
  {
    hide Absorb, DurablySent, Signed, Decision.Advance;
  }

  lemma OnlyCompleteCompletes(self: Identity, other: Number, r: Relationship, p: Pending, remote: Option<Exchange>, c: Cycle)
    requires Continue(self, other, r, p, remote, c).result == Ok(Action.Complete)
    ensures Absorb(p, remote, other).0.phase == Phase.Complete
  {
    hide Absorb, DurablySent, Signed, Decision.Advance;
  }

  lemma MessageCarried(k: RowKey, v: Exchange, t: Transcript, s: bool, kind: Kind)
    requires RecordOk(k, v) && v.transcriptHash == Sha3(t) && Said(v.messages, SideId(t, s), kind)
    ensures Carries(v.receipts, k, s, kind)
  {
    hide Replay, DistinctReceipts;
    var m :| m in v.messages && m.header.senderId == SideId(t, s) && m.header.messageType == kind.Code();
    var j :| 0 <= j < |v.messages| && v.messages[j] == m;
    assert v.receipts[j] == DigestOf(m);
  }

  /** An open record never holds both confirmations. */
  lemma OpenLacksConfirmation(k: RowKey, v: Exchange)
    requires RecordOk(k, v) && v.Active() && !Carries(v.receipts, k, true, Kind.Abort)
    ensures !(Carries(v.receipts, k, true, Kind.Confirmed) && Carries(v.receipts, k, false, Kind.Confirmed))
  {
    ReplayOk(k, v);
    ReplayDemands(v.receipts, k, true, Kind.Confirmed);
    ReplayDemands(v.receipts, k, false, Kind.Confirmed);
    ReplayOrdered(v.receipts, k);
    hide Carries, Replay;
  }

  lemma CarriesGrows(receipts: seq<MessageDigest>, more: seq<MessageDigest>, k: RowKey, s: bool, kind: Kind)
    requires receipts <= more && Carries(receipts, k, s, kind)
    ensures Carries(more, k, s, kind)
  {
    assert more[..|receipts|] == receipts;
    CarriesPrefix(more, k, s, kind, |receipts|);
  }

  /** No two open versions of an exchange hold one confirmation each. */
  lemma OpenVersionsAgree(c: Setup, w: World, t: Transcript, k: RowKey, i: nat, k': RowKey, j: nat, s: bool)
    requires Inv(c, w) && ProposalOk(c, t)
    requires Version(w.log, k, i) && Version(w.log, k', j)
    requires w.log.history[k][i].transcriptHash == Sha3(t) == w.log.history[k'][j].transcriptHash
    requires w.log.history[k][i].Active() && w.log.history[k'][j].Active()
    requires Carries(w.log.history[k][i].receipts, k, s, Kind.Confirmed)
    ensures !Carries(w.log.history[k'][j].receipts, k', !s, Kind.Confirmed)
  {
    var a, b := w.log.history[k][i], w.log.history[k'][j];
    assert ChainInv(w.log) && NodeInv(c, w, true) && VersionOk(c, w, k, a) && VersionOk(c, w, k', b);
    hide Inv, NodeInv, VersionOk, Carries, ChainInv, RecordOk;
    SameHashChain(w.log, k, i, k', j);
    SameHashChain(w.log, k', j, k, i);
    KeyOfTranscript(c, k, a, t);
    NothingAborts(c, w, k, a);
    NothingAborts(c, w, k, b);
    OpenLacksConfirmation(k, a);
    OpenLacksConfirmation(k, b);
    if Carries(b.receipts, k, !s, Kind.Confirmed) {
      if i <= j {
        CarriesGrows(a.receipts, b.receipts, k, s, Kind.Confirmed);
      } else {
        CarriesGrows(b.receipts, a.receipts, k, !s, Kind.Confirmed);
      }
    }
  }

  lemma KeyOfTranscript(c: Setup, k: RowKey, v: Exchange, t: Transcript)
    requires RecordOk(k, v) && v.transcriptHash == Sha3(t) && ProposalOk(c, t)
    ensures c.Owns(k)
  {
    hide DecisionReplays, DistinctReceipts, BodiesMatch;
  }

  /** With its own confirmation in an open record, an endpoint cannot hold the exchange complete. */
  lemma OpenIsNotComplete(c: Setup, w: World, side: bool, self: Identity, p: Pending, v: Exchange, kind: Kind)
    requires Inv(c, w) && PendingOk(c, w, side, self, p) && Tracked(false, w.log, side, p)
    requires Readable(c, w.log, v) && v.Active() && Matches(Some(v), p) && kind == Kind.Confirmed
    requires Said(v.messages, SideId(p.transcript, side), kind)
    ensures !Demands(p.decision, !side, kind) && !Said(v.messages, SideId(p.transcript, !side), kind)
  {
    var t := p.transcript;
    PendingIdentity(c, w, side, self, p);
    MatchingIsSame(c, w, side, self, p, v);
    hide Inv, PendingOk, Carries, Said, Demands, Acknowledged, Readable, RecordOk, Queued, VersionOk;
    var k, i := ServedVersion(c, w, v);
    MessageCarried(k, v, t, side, kind);
    if Said(v.messages, SideId(t, !side), kind) {
      MessageCarried(k, v, t, !side, kind);
      OpenVersionsAgree(c, w, t, k, i, k, i, side);
    }
    if Acknowledged(w.log, t, SideId(t, !side), kind.Code()) {
      AcknowledgedVersion(c, w, t, side, kind, k, i);
    }
  }

  lemma AcknowledgedVersion(c: Setup, w: World, t: Transcript, side: bool, kind: Kind, k: RowKey, i: nat)
    requires Inv(c, w) && ProposalOk(c, t) && kind == Kind.Confirmed
    requires Version(w.log, k, i) && w.log.history[k][i].transcriptHash == Sha3(t) && w.log.history[k][i].Active()
    requires Carries(w.log.history[k][i].receipts, k, side, kind)
    ensures !Acknowledged(w.log, t, SideId(t, !side), kind.Code())
  {
    hide Carries, Receipted, RecordOk;
    assert ChainInv(w.log);
    if Acknowledged(w.log, t, SideId(t, !side), kind.Code()) {
      var k', j: nat :| Vouches(w.log, k', j, t, SideId(t, !side), kind.Code());
      assert ChainOf(k', w.log.history[k']);
      hide Inv, ChainInv;
      ReceiptedIsCarried(k', w.log.history[k'][j], t, !side, kind);
      OpenVersionsAgree(c, w, t, k, i, k', j, side);
    }
  }

  /** Folding an open record that holds our own last message never completes the exchange. */
  lemma OpenNeverCompletes(c: Setup, w: World, side: bool, self: Identity, p: Pending, v: Exchange)
    requires Inv(c, w) && PendingOk(c, w, side, self, p) && Tracked(false, w.log, side, p)
    requires Readable(c, w.log, v) && v.Active()
    requires DurablySent(Some(v), p.(decision := Absorb(p, Some(v), c.Id(!side)).0), c.Id(side))
    ensures Absorb(p, Some(v), c.Id(!side)).0.phase != Phase.Complete
  {
    var remote, other := Some(v), c.Id(!side);
    var p' := p.(decision := Absorb(p, remote, other).0);
    ShapeOfPending(c, w, side, self, p);
    PlacedByPendingOk(c, w, side, self, p);
    PendingIdentity(c, w, side, self, p);
    assert other == SideId(p.transcript, !side) && |p.outbox| > 0;
    OutboxKinds(side, p);
    FoldedAccounted(side, p, remote, c.Id(side), other, false);
    if p'.decision.phase == Phase.Complete {
      assert p'.confirmed;
      assert p.outbox[|p.outbox| - 1].header.messageType == Kind.Confirmed.Code();
      assert Said(v.messages, c.Id(side), Kind.Confirmed);
      assert Demands(p'.decision, !side, Kind.Confirmed);
      hide Inv, PendingOk, PendingShape, Readable, Demands, Said, Queued, Placed, Justified, Absorb;
      OpenIsNotComplete(c, w, side, self, p, v, Kind.Confirmed);
    }
  }

  /** An aborted record that a complete exchange reads was aborted by an administrator. */
  lemma AbortedIsTerminated(c: Setup, w: World, side: bool, self: Identity, p: Pending, v: Exchange)
    requires Inv(c, w) && PendingOk(c, w, side, self, p) && p.decision.phase == Phase.Complete
    requires Readable(c, w.log, v) && Matches(Some(v), p) && v.decision.phase == Phase.Aborted
    ensures v.termination.Some?
  {
    MatchingIsSame(c, w, side, self, p, v);
    assert HandedOk(c, w, side, p.candidate) by {
      assert NodeInv(c, w, side);
      hide LogInv, MailInv, CopyOk, SentInv, HandedOk;
    }
    hide PendingOk, NodeInv, MailInv, ProposalsInv, RecordOk, Readable, VersionOk;
    var k, i := ServedVersion(c, w, v);
    HandedSeen(c, w, side, self, p);
    var k', j: nat :| Version(w.log, k', j) && w.log.history[k'][j].transcriptHash == Sha3(p.transcript) && w.log.history[k'][j].decision.phase == Phase.Committed;
    CommittedNeverAborts(w.log, k', j, k, i);
  }

  lemma HandedSeen(c: Setup, w: World, side: bool, self: Identity, p: Pending)
    requires PendingOk(c, w, side, self, p) && HandedOk(c, w, side, p.candidate)
    ensures CommittedSeen(w.log, p.transcript)
  {
    hide CommittedSeen;
  }

  lemma CompletionReads(c: Setup, w: World, side: bool, remote: Option<Exchange>, cycle: Cycle)
    requires Inv(c, w) && TrackInv(false, w) && (remote.Some? ==> Readable(c, w.log, remote.value))
    requires CycleOutcome(c, w, side, remote, cycle).result == Ok(Action.Complete)
    requires Unhurried(w, CycleStep(side, remote, cycle, Saved))
    ensures var n := w.At(side);
            && n.relationship.pending.Some? && Matches(remote, n.relationship.pending.value)
            && (remote.value.decision.phase == Phase.Complete
                || (remote.value.decision.phase == Phase.Aborted && remote.value.termination.Some?))
  {
    var n, other := w.At(side), c.Id(!side);
    OnlyPendingCompletes(n.self, other, n.relationship, remote, cycle);
    var p := n.relationship.pending.value;
    assert PendingOk(c, w, side, n.self, p) && n.self.peerId == c.Id(side) by { assert NodeInv(c, w, side); }
    assert Tracked(false, w.log, side, p) by { assert TrackedCopy(false, w.log, side, n.relationship); }
    assert p.nextRetryAt <= cycle.now;
    ShapeOfPending(c, w, side, n.self, p);
    assert |p.outbox| > 0;
    hide Inv, TrackInv, Continue, CycleOutcome, PendingOk, PendingShape, Readable, Tracked;
    OnlyCompleteCompletes(n.self, other, n.relationship, p, remote, cycle);
    CompletesExactlyWhen(n.self, other, n.relationship, p, remote, cycle);
    if remote.value.Active() {
      hide Absorb, DurablySent;
      OpenNeverCompletes(c, w, side, n.self, p, remote.value);
    } else if remote.value.decision.phase == Phase.Aborted {
      AbortedIsTerminated(c, w, side, n.self, p, remote.value);
    }
  }

  /**
    A call outside a backoff window completes only on the server's word: the record
    that it read was terminal, and complete unless an administrator had ended it.
  */
  lemma CompletionReadsTerminal(c: Setup, w: World, steps: seq<Step>, side: bool, remote: Option<Exchange>, cycle: Cycle)
    requires Initial(c, w) && AllowedRun(c, w, steps)
    requires remote.Some? ==> Readable(c, Run(c, w, steps).log, remote.value)
    requires CycleOutcome(c, Run(c, w, steps), side, remote, cycle).result == Ok(Action.Complete)
    requires Unhurried(Run(c, w, steps), CycleStep(side, remote, cycle, Saved))
    ensures remote.Some?
            && (remote.value.decision.phase == Phase.Complete
                || (remote.value.decision.phase == Phase.Aborted && remote.value.termination.Some?))
  {
    InitialKeepsInv(c, w);
    RunKeepsSystemInv(c, w, steps);
    InitialTracked(false, c, w);
    RunTracked(false, c, w, steps);
    hide Inv, TrackInv, Run, Initial, AllowedRun, CycleOutcome, Unhurried, Readable;
    CompletionReads(c, Run(c, w, steps), side, remote, cycle);
  }
}
