/** Every step of the two-peer system keeps its invariant. */
module SystemSafety {
  import opened Results
  import opened Protocol
  import opened Mailbox
  import opened MailboxHistory
  import opened MailboxVersions
  import opened Engine
  import opened EngineFacts
  import opened ReplayFacts
  import opened System

  // ---------------------------------------------------------------- Growth

  /** What a run never takes back. */
  ghost predicate Grows(w: World, w': World) {
    && Extends(w.log, w'.log)
    && w.proposals <= w'.proposals
    && forall side: bool :: w.At(side).sent <= w'.At(side).sent && w.At(side).handed <= w'.At(side).handed
  }

  lemma VersionGrows(w: World, w': World, k: RowKey, i: nat)
    requires Grows(w, w') && Version(w.log, k, i)
    ensures Version(w'.log, k, i) && w'.log.history[k][i] == w.log.history[k][i]
  {
  }

  lemma CommittedSeenGrows(w: World, w': World, t: Transcript)
    requires Grows(w, w') && CommittedSeen(w.log, t)
    ensures CommittedSeen(w'.log, t)
  {
    var k, i: nat :| Version(w.log, k, i) && w.log.history[k][i].transcriptHash == Sha3(t) && w.log.history[k][i].decision.phase == Phase.Committed;
    VersionGrows(w, w', k, i);
  }

  lemma CopyGrows(c: Setup, w: World, w': World, side: bool, self: Identity, r: Relationship)
    requires Grows(w, w') && CopyOk(c, w, side, self, r)
    ensures CopyOk(c, w', side, self, r)
  {
    hide PendingShape, Extends;
    if r.pending.Some? && CommittedSeen(w.log, r.pending.value.transcript) {
      CommittedSeenGrows(w, w', r.pending.value.transcript);
    }
  }

  lemma SentGrows(c: Setup, w: World, w': World, side: bool, m: Message)
    requires Grows(w, w') && SentOk(c, w, side, m)
    ensures SentOk(c, w', side, m)
  {
    hide Script, Extends;
  }

  lemma HandedGrows(c: Setup, w: World, w': World, side: bool, candidate: Candidate)
    requires Grows(w, w') && HandedOk(c, w, side, candidate)
    ensures HandedOk(c, w', side, candidate)
  {
    hide Extends;
    CommittedSeenGrows(w, w', HashedTranscript(candidate.salt));
  }

  /** A side that a step leaves alone keeps its part of the invariant. */
  lemma SideGrows(c: Setup, w: World, w': World, side: bool)
    requires Grows(w, w') && NodeInv(c, w, side)
    requires w'.At(side) == w.At(side)
    ensures NodeInv(c, w', side)
  {
    hide CopyOk, SentOk, HandedOk, Grows;
    var n := w.At(side);
    CopyGrows(c, w, w', side, n.self, n.relationship);
    CopyGrows(c, w, w', side, n.savedSelf, n.saved);
    forall m | m in n.sent
      ensures SentOk(c, w', side, m)
    {
      SentGrows(c, w, w', side, m);
    }
    forall candidate | candidate in n.handed
      ensures HandedOk(c, w', side, candidate)
    {
      HandedGrows(c, w, w', side, candidate);
    }
  }

  lemma MailGrows(c: Setup, w: World, w': World)
    requires Grows(w, w') && MailInv(c, w) && w'.log == w.log
    ensures MailInv(c, w')
  {
    forall k, i: nat | Version(w.log, k, i)
      ensures VersionOk(c, w', k, w.log.history[k][i])
    {
    }
  }

  // ---------------------------------------------------------------- What a served record proves

  lemma ServedVersion(c: Setup, w: World, v: Exchange) returns (k: RowKey, i: nat)
    requires Inv(c, w) && Readable(c, w.log, v)
    ensures Version(w.log, k, i) && w.log.history[k][i] == v && c.Owns(k)
    ensures RecordOk(k, v) && VersionOk(c, w, k, v)
  {
    hide NodeInv, RecordOk, ProposalsInv, VersionOk;
    k, i :| Version(w.log, k, i) && w.log.history[k][i] == v && c.Owns(k);
    assert ChainOf(k, w.log.history[k]);
  }

  lemma DigestIsSent(c: Setup, w: World, k: RowKey, v: Exchange, j: nat, side: bool)
    requires NodeInv(c, w, side) && RecordOk(k, v) && VersionOk(c, w, k, v) && c.Owns(k)
    requires j < |v.receipts| && v.receipts[j].senderId == c.Id(side)
    ensures v.receipts[j].body.message in w.At(side).sent
    ensures SentOk(c, w, side, v.receipts[j].body.message)
    ensures v.receipts[j].body.message.header.transcriptHash == v.transcriptHash
    ensures v.receipts[j].body.message.header.messageType == v.receipts[j].messageType
  {
    hide SentOk, CopyOk, HandedOk, Replay, DistinctReceipts;
    assert v.receipts[j] in v.receipts;
    assert Faithful(v.receipts[j], v.transcriptHash.transcript);
  }

  /** Every stored record was proposed by the initiator of this run. */
  lemma ServedIsProposed(c: Setup, w: World, v: Exchange) returns (t: Transcript)
    requires Inv(c, w) && Readable(c, w.log, v)
    ensures v.transcriptHash == Sha3(t) && t in w.proposals && t.exchangeId == v.exchangeId && t.sequence == v.sequence
  {
    hide LogInv, VersionOk, SentOk, NodeInv, ProposalsInv, MailInv, Replay;
    var k, i := ServedVersion(c, w, v);
    t := v.transcriptHash.transcript;
    ReplayStartsWithProposal(v.receipts, k);
    DigestIsSent(c, w, k, v, 0, true);
    SentIsProposed(c, w, true, v.receipts[0].body.message);
  }

  lemma SentIsProposed(c: Setup, w: World, side: bool, m: Message)
    requires SentOk(c, w, side, m)
    ensures m.header.transcriptHash.Sha3? && m.header.transcriptHash.transcript in w.proposals
  {
  }

  /** The exchange identifier of a record singles out one proposal. */
  lemma MatchingIsSame(c: Setup, w: World, side: bool, self: Identity, p: Pending, v: Exchange)
    requires Inv(c, w) && Readable(c, w.log, v) && PendingOk(c, w, side, self, p)
    requires v.exchangeId == p.transcript.exchangeId
    ensures v.transcriptHash == Sha3(p.transcript)
  {
    hide LogInv, NodeInv, MailInv, PendingShape, Placed, Justified;
    var t := ServedIsProposed(c, w, v);
  }

  /** If the server completed an exchange, each side had handed its candidate over before. */
  lemma CompletedWasHanded(c: Setup, w: World, side: bool, v: Exchange)
    requires Inv(c, w) && Readable(c, w.log, v) && v.decision.phase == Phase.Complete
    ensures v.transcriptHash.Sha3? && CandidateFor(v.transcriptHash.transcript, c.Operator(side)) in w.At(side).handed
  {
    hide LogInv, VersionOk, SentOk, NodeInv, ProposalsInv, MailInv, Replay;
    var k, i := ServedVersion(c, w, v);
    ReplayOrdered(v.receipts, k);
    ReplayFlag(v.receipts, k, side, Kind.Installed);
    var j: nat :| j < |v.receipts| && v.receipts[j].messageType == Kind.Installed.Code() && SenderIsInitiator(v.receipts[j], k) == side;
    SenderOf(k, v, j, side);
    DigestIsSent(c, w, k, v, j, side);
    SentInstalledWasHanded(c, w, side, v.receipts[j].body.message);
  }

  lemma SenderOf(k: RowKey, v: Exchange, j: nat, side: bool)
    requires RecordOk(k, v) && j < |v.receipts| && SenderIsInitiator(v.receipts[j], k) == side
    ensures v.receipts[j].senderId == if side then k.initiatorId else k.responderId
  {
    hide Replay, DistinctReceipts;
    assert Faithful(v.receipts[j], v.transcriptHash.transcript);
  }

  lemma SentInstalledWasHanded(c: Setup, w: World, side: bool, m: Message)
    requires SentOk(c, w, side, m) && m.header.messageType == Kind.Installed.Code()
    ensures m.header.transcriptHash.Sha3?
            && CandidateFor(m.header.transcriptHash.transcript, c.Operator(side)) in w.At(side).handed
  {
    hide Script;
  }

  lemma EvidenceHolds(c: Setup, w: World, side: bool, self: Identity, p: Pending, remote: Option<Exchange>)
    requires Inv(c, w) && PendingOk(c, w, side, self, p)
    requires remote.Some? ==> Readable(c, w.log, remote.value)
    ensures Evidence(side, p, remote, c.Id(!side), CommittedSeen(w.log, p.transcript), p.candidate in w.At(side).handed)
  {
    if Matches(remote, p) {
      var v := remote.value;
      MatchingIsSame(c, w, side, self, p, v);
      assert p.candidate == CandidateFor(p.transcript, c.Operator(side));
      hide Inv, PendingOk, Readable, RecordOk;
      if v.decision.phase == Phase.Complete {
        CompletedWasHanded(c, w, side, v);
      }
      if Witnessed(v.messages, c.Id(!side), p.transcript) {
        var k, i := ServedVersion(c, w, v);
        WitnessedIsCommitted(k, v, c.Id(!side), p.transcript);
        assert CommittedSeen(w.log, p.transcript);
      }
    }
  }

  // ---------------------------------------------------------------- Reconciliation

  /** The world that one reconciliation leads to, before the save and the send. */
  ghost predicate Reconciled(c: Setup, w: World, w': World, side: bool, out: Outcome) {
    && Grows(w, w') && w'.log == w.log
    && (out.installs.Some? ==> out.installs.value in w'.At(side).handed)
    && (side && w.initiator.relationship.pending.None? && out.relationship.pending.Some? ==>
          out.relationship.pending.value.transcript in w'.proposals)
  }

  /** What has to be shown of the result of a reconciliation. */
  ghost predicate ResultOk(c: Setup, w': World, side: bool, self: Identity, out: Outcome) {
    && CopyOk(c, w', side, self, out.relationship)
    && (out.installs.Some? ==> HandedOk(c, w', side, out.installs.value))
    && (out.result.Ok? && out.result.value.Send? ==> SentOk(c, w', side, out.result.value.message))
  }

  /** The newest message of a well-formed exchange is one of its script's lines. */
  lemma LastLineIsSentOk(c: Setup, w: World, side: bool, self: Identity, p: Pending)
    requires PendingOk(c, w, side, self, p)
    ensures |p.outbox| > 0 && SentOk(c, w, side, p.outbox[|p.outbox| - 1])
  {
    hide CommittedSeen, DecisionShape;
    var m := p.outbox[|p.outbox| - 1];
    var script := Script(p.transcript, side, p.candidate);
    assert m == script[|p.outbox| - 1];
    assert m in script;
  }

  lemma ContinueKeeps(c: Setup, w: World, w': World, side: bool, remote: Option<Exchange>, cycle: Cycle)
    requires Inv(c, w) && w.At(side).relationship.pending.Some?
    requires remote.Some? ==> Readable(c, w.log, remote.value)
    requires var n := w.At(side);
             Reconciled(c, w, w', side, Continue(n.self, c.Id(!side), n.relationship, n.relationship.pending.value, remote, cycle))
    ensures var n := w.At(side);
            ResultOk(c, w', side, n.self, Continue(n.self, c.Id(!side), n.relationship, n.relationship.pending.value, remote, cycle))
  {
    var n := w.At(side);
    var r, other := n.relationship, c.Id(!side);
    var p := r.pending.value;
    var seen, handed := CommittedSeen(w.log, p.transcript), p.candidate in n.handed;
    assert PendingOk(c, w, side, n.self, p);
    EvidenceHolds(c, w, side, n.self, p, remote);
    PlacedByPendingOk(c, w, side, n.self, p);
    hide Continue, Inv, PendingShape, Placed, Justified, Evidence, Readable, Extends, Continued, ResultOk;
    ContinueFacts(n.self, other, side, r, p, remote, cycle, seen, handed);
    ContinuedKeeps(c, w, w', side, n.self, r, p, Continue(n.self, other, r, p, remote, cycle), seen, handed);
  }

  lemma PlacedByPendingOk(c: Setup, w: World, side: bool, self: Identity, p: Pending)
    requires PendingOk(c, w, side, self, p)
    ensures PendingShape(side, p) && Placed(self, c.Id(!side), side, p)
    ensures Justified(side, p, CommittedSeen(w.log, p.transcript), p.candidate in w.At(side).handed)
  {
  }

  lemma ContinuedKeeps(c: Setup, w: World, w': World, side: bool, self: Identity, r: Relationship, p: Pending, out: Outcome,
                       seen: bool, handed: bool)
    requires Reconciled(c, w, w', side, out) && CopyOk(c, w, side, self, r) && r.pending == Some(p)
    requires seen == CommittedSeen(w.log, p.transcript) && handed == (p.candidate in w.At(side).handed)
    requires Continued(side, r, p, out, seen, handed || out.installs.Some?)
    ensures ResultOk(c, w', side, self, out)
  {
    hide PendingShape, Extends;
    if out.installs.Some? {
      CommittedSeenGrows(w, w', p.transcript);
      assert HandedOk(c, w', side, p.candidate);
    }
    if out.relationship.pending.Some? {
      var p' := out.relationship.pending.value;
      JustifiedGrows(side, p', seen, handed || out.installs.Some?, p'.candidate in w'.At(side).handed);
      assert PendingOk(c, w', side, self, p');
      LastLineIsSentOk(c, w', side, self, p');
    }
    KeptKeyOk(c, w, w', side, self, r, p, out, seen, handed || out.installs.Some?);
  }

  lemma JustifiedGrows(side: bool, p: Pending, seen: bool, handed: bool, handed': bool)
    requires Justified(side, p, seen, handed) && (handed ==> handed')
    ensures Justified(side, p, seen, handed')
  {
  }

  /** The confirmed key is the old one or the one of the exchange that just completed. */
  lemma KeptKeyOk(c: Setup, w: World, w': World, side: bool, self: Identity, r: Relationship, p: Pending, out: Outcome, seen: bool, handed: bool)
    requires Grows(w, w') && w'.log == w.log && CopyOk(c, w, side, self, r) && r.pending == Some(p)
    requires Continued(side, r, p, out, seen, handed) && (handed ==> p.candidate in w'.At(side).handed)
    ensures out.relationship.confirmed.Some? ==> KeyOk(c, w', side, out.relationship.confirmed.value)
  {
    hide PendingShape, Extends, Placed;
  }

  lemma OpenedKeeps(c: Setup, w: World, w': World, side: bool, self: Identity, r: Relationship, out: Outcome, t: Transcript)
    requires Grows(w, w') && w'.log == w.log && CopyOk(c, w, side, self, r) && r.pending == None
    requires Opened(self, c.Id(!side), side, r, out, t) && MayUse(c, w', side, t)
    requires SideBundle(t, side).sigPublicKey in c.Keys(side)
    ensures ResultOk(c, w', side, self, out)
  {
    hide PendingShape, Extends, Script, SentOk;
    var p := out.relationship.pending.value;
    assert Justified(side, p, CommittedSeen(w'.log, t), p.candidate in w'.At(side).handed) by {
      JustifiedFromNothing(side, p, CommittedSeen(w'.log, t), p.candidate in w'.At(side).handed);
    }
    assert PendingOk(c, w', side, self, p);
    assert |p.outbox| == 1 by { OpenedOutbox(self, c.Id(!side), side, r, out, t); }
    LastLineIsSentOk(c, w', side, self, p);
    CopyGrows(c, w, w', side, self, r);
  }

  lemma OpenedOutbox(self: Identity, other: Number, side: bool, r: Relationship, out: Outcome, t: Transcript)
    requires Opened(self, other, side, r, out, t)
    ensures |out.relationship.pending.value.outbox| == 1
  {
  }

  lemma JustifiedFromNothing(side: bool, p: Pending, seen: bool, handed: bool)
    requires Justified(side, p, false, false)
    ensures Justified(side, p, seen, handed)
  {
  }

  lemma StartKeeps(c: Setup, w: World, w': World, cycle: Cycle)
    requires Inv(c, w) && w.initiator.relationship.pending.None?
    requires var n := w.initiator; Reconciled(c, w, w', true, Start(n.self, c.responderId, n.relationship, cycle))
    ensures var n := w.initiator; ResultOk(c, w', true, n.self, Start(n.self, c.responderId, n.relationship, cycle))
  {
    var n := w.initiator;
    StartFacts(n.self, c.responderId, n.relationship, cycle);
    var out := Start(n.self, c.responderId, n.relationship, cycle);
    assert w.At(true) == n;
    assert CopyOk(c, w, true, n.self, n.relationship);
    hide Start, Inv, PendingShape, Extends, Script;
    if out.relationship.pending.Some? {
      OpenedKeeps(c, w, w', true, n.self, n.relationship, out, NewTranscript(n.self, c.responderId, n.relationship, cycle));
    } else {
      CopyGrows(c, w, w', true, n.self, n.relationship);
    }
  }

  /** A proposal that the responder may answer was sent by the initiator, with its own tag. */
  lemma AnswerableIsAgreed(c: Setup, w: World, v: Exchange, t: Transcript)
    requires Inv(c, w) && Readable(c, w.log, v)
    requires Answerable(w.responder.self, c.initiatorId, w.responder.relationship, v, t)
    ensures MayUse(c, w, false, t)
  {
    var r := w.responder.relationship;
    assert CopyOk(c, w, false, w.responder.self, r) by { assert w.At(false) == w.responder; }
    var candidate := CandidateFor(t, r.operatorPsk);
    var m :| m in v.messages && m.header.senderId == c.initiatorId && m.header.messageType == Kind.Propose.Code()
             && m.Authenticate(t).Ok? && m.Confirm(candidate).Ok?;
    hide LogInv, SentOk, NodeInv, ProposalsInv, MailInv, Replay;
    var k, i := ServedVersion(c, w, v);
    var j :| 0 <= j < |v.messages| && v.messages[j] == m;
    assert v.receipts[j] == DigestOf(m);
    DigestIsSent(c, w, k, v, j, true);
    TagAgrees(c, w, m, t, candidate);
  }

  lemma TagAgrees(c: Setup, w: World, m: Message, t: Transcript, candidate: Candidate)
    requires SentOk(c, w, true, m) && m.Authenticate(t).Ok? && m.Confirm(candidate).Ok?
    requires t.initiatorId == c.initiatorId && m.header.senderId == t.initiatorId
    requires candidate == CandidateFor(t, c.responderOperator)
    ensures MayUse(c, w, false, t)
  {
    var own := CandidateFor(t, c.initiatorOperator);
    assert m.header.transcriptHash == Sha3(t);
    assert m in Script(t, true, own);
    assert m.mac == Hmac(InitiatorConfirmation(own), m.header);
    assert m.mac == Hmac(InitiatorConfirmation(candidate), m.header);
  }

  lemma JoinKeeps(c: Setup, w: World, w': World, remote: Option<Exchange>)
    requires Inv(c, w) && w.responder.relationship.pending.None?
    requires remote.Some? ==> Readable(c, w.log, remote.value)
    requires var n := w.responder; Reconciled(c, w, w', false, Join(n.self, c.initiatorId, n.relationship, remote))
    ensures var n := w.responder; ResultOk(c, w', false, n.self, Join(n.self, c.initiatorId, n.relationship, remote))
  {
    var n := w.responder;
    assert w.At(false) == n;
    assert CopyOk(c, w, false, n.self, n.relationship);
    JoinFacts(n.self, c.initiatorId, n.relationship, remote);
    var out := Join(n.self, c.initiatorId, n.relationship, remote);
    hide Join, Inv, PendingShape, Extends, Script, Readable;
    if out.relationship.pending.Some? {
      var t := remote.value.transcript.value;
      AnswerableIsAgreed(c, w, remote.value, t);
      OpenedKeeps(c, w, w', false, n.self, n.relationship, out, t);
    } else {
      CopyGrows(c, w, w', false, n.self, n.relationship);
    }
  }
}
