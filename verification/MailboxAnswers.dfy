/**
  What the mailbox answers: to whom, for which messages, and with what. A client acts on
  the answer, so that a retransmission must be told from a conflict.
*/
module MailboxAnswers {
  import opened Results
  import opened Numbers
  import opened Protocol
  import opened Mailbox
  import opened MailboxHistory
  import opened MailboxSafety

  /** Some run of the mailbox leads here. */
  ghost predicate Reachable(l: Log) {
    exists networkId: B16, d: Directory, events: seq<Event> ::
      PossibleRun(InitialLog(networkId, d), events) && l == RunLog(InitialLog(networkId, d), events)
  }

  lemma ReachableIsSound(l: Log)
    requires Reachable(l)
    ensures LogInv(l)
  {
    var networkId: B16, d: Directory, events: seq<Event> :|
      PossibleRun(InitialLog(networkId, d), events) && l == RunLog(InitialLog(networkId, d), events);
    InitialInv(networkId, d);
    hide LogInv, PossibleRun, RunLog;
    RunKeepsInv(InitialLog(networkId, d), events);
  }

  function RowNamed(m: Message): RowKey {
    RowKey(m.header.initiatorId, m.header.responderId, m.header.initiatorBundleId, m.header.responderBundleId)
  }

  /** A peer in good standing: listed, enabled, redeemed, not a server, with the key that the directory lists. */
  predicate InStanding(s: Tables, id: int) {
    id in s.directory.peers && (var p := s.directory.peers[id]; !p.isDisabled && p.isRedeemed && !p.isServer)
  }

  predicate HasBundle(s: Tables, id: int, bundleId: B16) {
    id in s.directory.peers && Usable(s, id, bundleId) && s.directory.peers[id].publicKey == s.bundles[id].bundle.wgPublicKey
  }

  /**
    The mailbox serves this caller about that peer: both are in good standing and see
    each other, the caller holds its listed key, and the message is well formed, the
    caller's own, and for the bundles that both have enabled.
  */
  predicate Served(s: Tables, id: int, key: B32, other: int, m: Message) {
    && ServiceReady(s)
    && id > 0 && other > 0 && id != other && InStanding(s, id) && InStanding(s, other) && s.directory.peers[id].publicKey == key
    && (id, other) in s.directory.visible && (other, id) in s.directory.visible
    && m.ValidateShape().Ok? && m.header.senderId == id
    && (m.header.initiatorId, m.header.responderId) == (Min(id, other), Max(id, other))
    && m.header.networkId == s.networkId
    && HasBundle(s, m.header.initiatorId, m.header.initiatorBundleId) && HasBundle(s, m.header.responderId, m.header.responderBundleId)
  }

  // ---------------------------------------------------------------- Who is answered

  lemma PairIsMutual(d: Directory, first: int, second: int)
    ensures PairAllowed(d, first, second).Ok? <==> PairAllowed(d, second, first).Ok?
  {
  }

  lemma InnerNeedsService(s: Tables, id: int, key: B32, other: int, m: Message, at: Moment)
    requires SubmitInner(s, id, key, other, m, at).Ok?
    ensures Served(s, id, key, other, m)
  {
    hide SubmitExisting, SubmitProposal, ServiceReady, Message.ValidateShape;
  }

  lemma ServedIsSwept(s: Tables, now: nat, id: int, key: B32, other: int, m: Message)
    ensures Served(Swept(s, now), id, key, other, m) <==> Served(s, id, key, other, m)
  {
    hide Message.ValidateShape, SweptRecord;
  }

  /** Only whoever is served is answered: nobody writes in another's name, to a stranger, or under a retired bundle. */
  lemma AnswersNeedService(s: Tables, id: int, key: B32, other: int, m: Message, at: Moment)
    requires Submit(s, id, key, other, m, at).1.Ok?
    ensures Served(s, id, key, other, m) && at.now <= MAX_NUMBER
  {
    hide Served, SubmitInner;
    InnerNeedsService(Swept(s, at.now), id, key, other, m, at);
    ServedIsSwept(s, at.now, id, key, other, m);
  }

  /** For whoever is served, the row decides. */
  lemma ServedInner(s: Tables, id: int, key: B32, other: int, m: Message, at: Moment)
    requires Served(s, id, key, other, m)
    ensures var k, kind := RowNamed(m), m.ValidateShape().value;
            var first, second := s.bundles[m.header.initiatorId].bundle, s.bundles[m.header.responderId].bundle;
            SubmitInner(s, id, key, other, m, at)
            == if k in s.exchanges && m.header.sequence < s.exchanges[k].sequence then Err(ServerError.Conflict)
               else if k in s.exchanges && m.header.sequence == s.exchanges[k].sequence then SubmitExisting(s.exchanges[k], kind, id < other, m)
               else if kind != Kind.Propose || exists q :: q in s.exchanges && q.Between(id, other) && s.exchanges[q].Active() then
                 Err(ServerError.Conflict)
               else SubmitProposal(s, id, other, k, first, second, m, at)
  {
    hide SubmitExisting, SubmitProposal, ServiceReady, Message.ValidateShape;
  }

  // ---------------------------------------------------------------- What the answer is

  lemma ServedNamesKey(s: Tables, id: int, key: B32, other: int, m: Message)
    requires Served(s, id, key, other, m)
    ensures m.ValidateShape().Ok? && (id < other <==> m.header.senderId == m.header.initiatorId)
    ensures KindOf(m.header.messageType) == m.ValidateShape()
  {
    hide HasBundle, InStanding, ServiceReady;
  }

  lemma ExistingAnswer(r: Exchange, kind: Kind, initiator: bool, m: Message)
    requires SubmitExisting(r, kind, initiator, m).Ok?
    ensures var reply := SubmitExisting(r, kind, initiator, m).value;
            DigestOf(m) in reply.record.receipts && reply.record.key == r.key && (!reply.stored ==> reply.record == r)
  {
    hide Message.Authenticate, Decision.Advance;
  }

  lemma ProposalAnswer(s: Tables, id: int, other: int, k: RowKey, first: Bundle, second: Bundle, m: Message, at: Moment)
    requires SubmitProposal(s, id, other, k, first, second, m, at).Ok?
    ensures var reply := SubmitProposal(s, id, other, k, first, second, m, at).value;
            DigestOf(m) in reply.record.receipts && reply.record.key == k && reply.stored
  {
    hide WithinBudget, ActiveCount, Message.Authenticate;
  }

  lemma InnerAnswer(l: Log, id: int, key: B32, other: int, m: Message, at: Moment)
    requires LogInv(l) && SubmitInner(l.tables, id, key, other, m, at).Ok?
    ensures var reply := SubmitInner(l.tables, id, key, other, m, at).value;
            && DigestOf(m) in reply.record.receipts && reply.record.key == RowNamed(m)
            && (!reply.stored ==> RowNamed(m) in l.tables.exchanges && l.tables.exchanges[RowNamed(m)] == reply.record)
  {
    var s, k := l.tables, RowNamed(m);
    InnerNeedsService(s, id, key, other, m, at);
    ServedInner(s, id, key, other, m, at);
    ServedNamesKey(s, id, key, other, m);
    var kind := m.ValidateShape().value;
    if k in s.exchanges { CurrentRowOk(l, k); }
    assert k in s.exchanges ==> s.exchanges[k].key == k by { hide NamesTranscript, DecisionReplays, BodiesMatch; }
    hide LogInv, RecordOk, Served, SubmitInner, SubmitExisting, SubmitProposal, Message.ValidateShape;
    if k in s.exchanges && m.header.sequence == s.exchanges[k].sequence {
      ExistingAnswer(s.exchanges[k], kind, id < other, m);
    } else {
      ProposalAnswer(s, id, other, k, s.bundles[m.header.initiatorId].bundle, s.bundles[m.header.responderId].bundle, m, at);
    }
  }

  /** A positive answer is the row that the tables then hold, and the message is among its receipts. */
  lemma AnswerIsStored(l: Log, id: int, key: B32, other: int, m: Message, at: Moment)
    requires Reachable(l) && Submit(l.tables, id, key, other, m, at).1.Ok?
    ensures var (after, answer) := Submit(l.tables, id, key, other, m, at);
            && RowNamed(m) in after.exchanges && after.exchanges[RowNamed(m)] == answer.value
            && DigestOf(m) in answer.value.receipts
  {
    ReachableIsSound(l);
    SweptKeepsInv(l, at.now);
    hide Reachable, LogInv, SubmitInner, Swept, Recorded, DigestOf;
    assert LogSwept(l, at.now).tables == Swept(l.tables, at.now);
    InnerAnswer(LogSwept(l, at.now), id, key, other, m, at);
  }

  // ---------------------------------------------------------------- Retransmissions

  lemma KnownIsAnswered(l: Log, id: int, key: B32, other: int, m: Message, at: Moment)
    requires LogInv(l) && Accepted(l, m) && Served(l.tables, id, key, other, m)
    requires RowNamed(m) in l.tables.exchanges && l.tables.exchanges[RowNamed(m)].sequence == m.header.sequence
    ensures SubmitInner(l.tables, id, key, other, m, at) == Ok(Reply(l.tables.exchanges[RowNamed(m)], false))
  {
    var k, i: nat :| AcceptedIn(l, k, i, m);
    ServedInner(l.tables, id, key, other, m, at);
    hide Served, SubmitInner, SubmitProposal, AcceptedIn, RecordOk, GenerationInv, SweepInv, Message.ValidateShape;
    AcceptedIsKnown(l, k, i, m);
    CurrentRowOk(l, k);
    AcceptedNamesItsRow(k, l.tables.exchanges[k], m);
  }

  /**
    A retransmission is answered with the row as it is now. A message that was ever
    accepted, and whose row is still at its sequence, gets that row, open or finished,
    whenever its sender is served: a lost reply costs nothing but the repetition.
  */
  lemma RetransmissionIsAnswered(l: Log, id: int, key: B32, other: int, m: Message, at: Moment)
    requires Reachable(l) && Accepted(l, m) && Served(l.tables, id, key, other, m) && at.now <= MAX_NUMBER
    requires RowNamed(m) in l.tables.exchanges && l.tables.exchanges[RowNamed(m)].sequence == m.header.sequence
    ensures var swept := Sweep(l.tables, at.now).0;
            RowNamed(m) in swept.exchanges
            && Submit(l.tables, id, key, other, m, at) == (swept, Ok(swept.exchanges[RowNamed(m)]))
  {
    ReachableIsSound(l);
    hide *;
    var swept := SweptFor(l, at.now, id, key, other, m);
    assert Accepted(swept, m) by { AcceptedStays(l, swept, at.now, m); }
    SweepKeepsSequence(l.tables, at.now, RowNamed(m));
    KnownIsAnswered(swept, id, key, other, m, at);
    SubmitIsInner(l.tables, id, key, other, m, at);
  }

  /** The log after the due sweep, which the write reads. */
  lemma SweptFor(l: Log, now: nat, id: int, key: B32, other: int, m: Message) returns (swept: Log)
    requires LogInv(l) && now <= MAX_NUMBER
    ensures swept == LogSwept(l, now) && swept.tables == Swept(l.tables, now) && LogInv(swept)
    ensures Served(swept.tables, id, key, other, m) <==> Served(l.tables, id, key, other, m)
  {
    SweptKeepsInv(l, now);
    ServedIsSwept(l.tables, now, id, key, other, m);
    swept := LogSwept(l, now);
    hide LogInv, Served, Swept, Recorded;
  }

  lemma AcceptedStays(l: Log, swept: Log, now: nat, m: Message)
    requires Accepted(l, m) && swept == LogSwept(l, now)
    ensures Accepted(swept, m)
  {
    SweepKeepsAccepted(l, now, m);
  }

  lemma SubmitIsInner(s: Tables, id: int, key: B32, other: int, m: Message, at: Moment)
    requires at.now <= MAX_NUMBER
    ensures Sweep(s, at.now).0 == Swept(s, at.now)
    ensures var inner := SubmitInner(Swept(s, at.now), id, key, other, m, at);
            Submit(s, id, key, other, m, at)
            == match inner
               case Err(e) => (Swept(s, at.now), Err(e))
               case Ok(reply) =>
                 (if reply.stored then Swept(s, at.now).(exchanges := Swept(s, at.now).exchanges[reply.record.key := reply.record])
                  else Swept(s, at.now), Ok(reply.record))
  {
    hide SubmitInner, Swept;
  }

  lemma SweepKeepsSequence(s: Tables, now: nat, k: RowKey)
    requires k in s.exchanges
    ensures k in Swept(s, now).exchanges
            && Swept(s, now).exchanges[k].sequence == s.exchanges[k].sequence
  {
  }

  // ---------------------------------------------------------------- Further messages

  /** The row is open, and this message continues it: authentic, not said before, and next in the replay of what was. */
  predicate Continues(r: Exchange, m: Message) {
    r.Active() && r.transcript.Some? && m.Authenticate(r.transcript.value).Ok?
    && (forall d :: d in r.receipts ==> d.senderId != m.header.senderId || d.messageType != m.header.messageType)
    && Replay(r.receipts + [DigestOf(m)], r.key).Ok?
  }

  lemma ExistingIsTakenExactlyWhen(k: RowKey, r: Exchange, m: Message)
    requires RecordOk(k, r) && k == RowNamed(m) && m.ValidateShape().Ok?
    ensures var reply := SubmitExisting(r, m.ValidateShape().value, m.header.senderId == m.header.initiatorId, m);
            && (reply.Ok? <==> DigestOf(m) in r.receipts || Continues(r, m))
            && (reply.Ok? && DigestOf(m) in r.receipts ==> reply.value == Reply(r, false))
            && (reply.Ok? && DigestOf(m) !in r.receipts ==>
                  reply.value.stored && reply.value.record.receipts == r.receipts + [DigestOf(m)]
                  && Ok(reply.value.record.decision) == Replay(r.receipts + [DigestOf(m)], k))
  {
    assert KindOf(m.header.messageType) == m.ValidateShape();
    if DigestOf(m) in r.receipts {
      AcceptedNamesItsRow(k, r, m);
    }
    if r.Active() {
      ReplayAppendOk(k, r, m);
    }
    AuthenticNames(m, r);
    hide Replay, Message.Authenticate, Message.ValidateShape, Decision.Advance, DistinctReceipts, KindOf;
  }

  lemma AuthenticNames(m: Message, r: Exchange)
    ensures r.transcript.Some? && m.Authenticate(r.transcript.value).Ok? ==>
              m.header.exchangeId == r.transcript.value.exchangeId && m.header.transcriptHash == Sha3(r.transcript.value)
  {
  }

  lemma ReplayAppendOk(k: RowKey, r: Exchange, m: Message)
    requires RecordOk(k, r) && k == RowNamed(m) && r.Active() && m.ValidateShape().Ok?
    ensures Replay(r.receipts + [DigestOf(m)], k)
            == r.decision.Advance(m.ValidateShape().value, m.header.senderId == m.header.initiatorId)
  {
    assert |r.receipts| > 0 by { assert Replay(r.receipts, k).Ok?; }
    ReplayAppend(r.receipts, DigestOf(m), k);
    assert KindOf(m.header.messageType) == m.ValidateShape();
    hide Replay, Message.Authenticate, Decision.Advance;
  }

  /**
    On a row at its sequence a message is answered positively exactly when the row knows
    it or it continues the open exchange; then the decision is the replay of what was
    accepted, with the message added.
  */
  lemma MessageIsTakenExactlyWhen(l: Log, id: int, key: B32, other: int, m: Message, at: Moment)
    requires Reachable(l) && Served(l.tables, id, key, other, m) && at.now <= MAX_NUMBER
    requires var rows := Sweep(l.tables, at.now).0.exchanges;
             RowNamed(m) in rows && rows[RowNamed(m)].sequence == m.header.sequence
    ensures var row := Sweep(l.tables, at.now).0.exchanges[RowNamed(m)];
            var answer := Submit(l.tables, id, key, other, m, at).1;
            && (answer.Ok? <==> DigestOf(m) in row.receipts || Continues(row, m))
            && (answer.Ok? && DigestOf(m) !in row.receipts ==>
                  answer.value.receipts == row.receipts + [DigestOf(m)]
                  && Ok(answer.value.decision) == Replay(answer.value.receipts, RowNamed(m)))
  {
    ReachableIsSound(l);
    hide *;
    var swept := SweptFor(l, at.now, id, key, other, m);
    SubmitIsInner(l.tables, id, key, other, m, at);
    var k := RowNamed(m);
    assert RecordOk(k, swept.tables.exchanges[k]) by { SoundRow(swept, k); }
    ServedInner(swept.tables, id, key, other, m, at);
    ServedNamesKey(swept.tables, id, key, other, m);
    ExistingIsTakenExactlyWhen(k, swept.tables.exchanges[k], m);
  }

  lemma SoundRow(l: Log, k: RowKey)
    requires LogInv(l) && k in l.tables.exchanges
    ensures RecordOk(k, l.tables.exchanges[k])
  {
    CurrentRowOk(l, k);
  }

  // ---------------------------------------------------------------- Proposals

  /** What the proposer says, under the bundles that both peers have enabled. */
  function TermsOf(s: Tables, m: Message): Transcript
    requires m.header.initiatorId in s.bundles && m.header.responderId in s.bundles && m.ciphertext.Some? && m.operatorPskId.Some?
  {
    Transcript(s.networkId, m.header.initiatorId, m.header.responderId, s.bundles[m.header.initiatorId].bundle,
               s.bundles[m.header.responderId].bundle, m.header.sequence, m.header.exchangeId, m.operatorPskId.value, m.ciphertext.value)
  }

  /** The mailbox may open an exchange for these peers: storage, limits, and nothing open between them. */
  predicate MayOpen(s: Tables, id: int, other: int, at: Moment) {
    && at.now + 600 <= MAX_NUMBER && at.keysValid
    && at.roomOnDisk && |s.directory.peers| <= at.limits.peerIds && |s.bundleHistory| <= at.limits.bundleIds
    && ActiveCount(s, Some(id)) < at.limits.peerActive && ActiveCount(s, Some(other)) < at.limits.peerActive
    && ActiveCount(s, None) < at.limits.globalActive
    && (forall q :: q in s.exchanges && q.Between(id, other) ==> !s.exchanges[q].Active())
  }

  /**
    Without a row at its sequence or above, a message is answered positively exactly when
    it is a proposal, authentic for the enabled bundles, and the mailbox may open an
    exchange; then a fresh record under its sequence is the answer.
  */
  lemma ProposalIsTakenExactlyWhen(s: Tables, id: int, key: B32, other: int, m: Message, at: Moment)
    requires Served(s, id, key, other, m) && at.now <= MAX_NUMBER
    requires RowNamed(m) in s.exchanges ==> s.exchanges[RowNamed(m)].sequence < m.header.sequence
    ensures m.ValidateShape() == Ok(Kind.Propose) ==> m.ciphertext.Some? && m.operatorPskId.Some?
    ensures m.header.initiatorId in s.bundles && m.header.responderId in s.bundles
    ensures var answer := Submit(s, id, key, other, m, at).1;
            && (answer.Ok? <==> m.ValidateShape() == Ok(Kind.Propose) && m.Authenticate(TermsOf(s, m)).Ok?
                                && MayOpen(Sweep(s, at.now).0, id, other, at))
            && (answer.Ok? ==>
                  answer.value == Exchange(s.networkId, RowNamed(m), m.header.sequence, m.header.exchangeId, Sha3(TermsOf(s, m)), START,
                                           at.now, at.now + 600, Some(TermsOf(s, m)), [m], [DigestOf(m)], None))
  {
    ServedIsSwept(s, at.now, id, key, other, m);
    SubmitIsInner(s, id, key, other, m, at);
    SweepKeepsTerms(s, at.now, RowNamed(m));
    ServedInner(Swept(s, at.now), id, key, other, m, at);
    ProposalShape(s, id, key, other, m);
    hide Served, Submit, SubmitInner, Swept, Sweep, SubmitExisting, ActiveCount, Message.Authenticate, Message.ValidateShape;
  }

  lemma SweepKeepsTerms(s: Tables, now: nat, k: RowKey)
    ensures Swept(s, now).bundles == s.bundles && Swept(s, now).networkId == s.networkId
    ensures k in Swept(s, now).exchanges <==> k in s.exchanges
    ensures k in s.exchanges ==> Swept(s, now).exchanges[k].sequence == s.exchanges[k].sequence
  {
    hide SweptRecord;
    if k in s.exchanges {
      SweepKeepsSequence(s, now, k);
    }
  }

  lemma ProposalShape(s: Tables, id: int, key: B32, other: int, m: Message)
    requires Served(s, id, key, other, m)
    ensures m.ValidateShape() == Ok(Kind.Propose) ==> m.ciphertext.Some? && m.operatorPskId.Some?
    ensures m.header.initiatorId in s.bundles && m.header.responderId in s.bundles && m.header.initiatorId < m.header.responderId
  {
  }

  /** A sequence below the row's is a conflict, whatever the message. */
  lemma LowerSequenceIsAConflict(s: Tables, id: int, key: B32, other: int, m: Message, at: Moment)
    requires Served(s, id, key, other, m) && at.now <= MAX_NUMBER
    requires RowNamed(m) in s.exchanges && m.header.sequence < s.exchanges[RowNamed(m)].sequence
    ensures Submit(s, id, key, other, m, at) == (Sweep(s, at.now).0, Err(ServerError.Conflict))
  {
    ServedIsSwept(s, at.now, id, key, other, m);
    SubmitIsInner(s, id, key, other, m, at);
    SweepKeepsTerms(s, at.now, RowNamed(m));
    ServedInner(Swept(s, at.now), id, key, other, m, at);
    hide Served, Submit, SubmitInner, Swept, Sweep, SubmitExisting, SubmitProposal;
  }

  // ---------------------------------------------------------------- Registrations

  /** The caller may speak for this key, and the request is a version 1 registration of it under the next revision. */
  predicate Eligible(s: Tables, id: int, key: B32, request: Registration, at: Moment) {
    && ServiceReady(s) && InStanding(s, id) && s.directory.peers[id].publicKey == key
    && at.keysValid && request.pqVersion == 1 && request.bundle.wgPublicKey == key
    && request.bundle.bundleRevision == (if request.expectedRevision.None? then 1 else request.expectedRevision.value + 1)
  }

  function CurrentRevision(s: Tables, id: int): Option<Number> {
    if id in s.bundles then Some(s.bundles[id].bundle.bundleRevision) else None
  }

  lemma RegistrationIsSwept(s: Tables, now: nat, id: int, key: B32, request: Registration, at: Moment)
    ensures Eligible(Swept(s, now), id, key, request, at) <==> Eligible(s, id, key, request, at)
    ensures CurrentRevision(Swept(s, now), id) == CurrentRevision(s, id) && Swept(s, now).bundles == s.bundles
            && Swept(s, now).bundleHistory == s.bundleHistory
  {
    hide SweptRecord;
  }

  /** The same registration again. */
  predicate Repeats(s: Tables, id: int, request: Registration) {
    id in s.bundles && s.bundles[id] == AdvertisedBundle(request.pqVersion, request.lifecycle, request.bundle)
  }

  /** This bundle may take the caller's place in the directory. */
  predicate MayAdvertise(s: Tables, id: int, request: Registration, at: Moment) {
    && request.expectedRevision == CurrentRevision(s, id) && at.roomOnDisk
    && |s.directory.peers| <= at.limits.peerIds && |s.bundleHistory| < at.limits.bundleIds
    && (forall k :: k in s.exchanges && k.Involves(id) ==> !s.exchanges[k].Active())
    && request.bundle.bundleId !in s.bundleHistory
    && (id in s.bundles ==> s.bundles[id].bundle.bundleId != request.bundle.bundleId)
  }

  /**
    A bundle is taken exactly when its owner registers it under the next revision and it
    repeats the current advertisement, or follows it under an unused identifier with no
    work open and room in the registry; the answer is what is advertised from then on.
  */
  lemma BundleIsTakenExactlyWhen(s: Tables, id: int, key: B32, request: Registration, at: Moment)
    requires request.lifecycle == Lifecycle.Enabled && at.now <= MAX_NUMBER
    ensures var (after, answer) := Register(s, id, key, request, at);
            var swept := Sweep(s, at.now).0;
            && (answer.Ok? <==> Eligible(s, id, key, request, at) && !request.emergency
                                && (Repeats(s, id, request) || MayAdvertise(swept, id, request, at)))
            && (answer.Ok? ==> id in after.bundles && after.bundles[id] == answer.value
                               && answer.value == AdvertisedBundle(1, Lifecycle.Enabled, request.bundle))
            && (answer.Err? || Repeats(s, id, request) ==> after == swept)
  {
    RegistrationIsSwept(s, at.now, id, key, request, at);
    var swept := Swept(s, at.now);
    InnerTakesBundle(swept, id, key, request, at);
    hide RegisterInner, Swept, Eligible, MayAdvertise;
  }

  lemma InnerTakesBundle(s: Tables, id: int, key: B32, request: Registration, at: Moment)
    requires request.lifecycle == Lifecycle.Enabled
    ensures var inner := RegisterInner(s, id, key, request, at);
            && (inner.Ok? <==> Eligible(s, id, key, request, at) && !request.emergency
                               && (Repeats(s, id, request) || MayAdvertise(s, id, request, at)))
            && (inner.Ok? ==> id in inner.value.0.bundles && inner.value.0.bundles[id] == inner.value.1
                              && inner.value.1 == AdvertisedBundle(1, Lifecycle.Enabled, request.bundle))
            && (inner.Ok? && Repeats(s, id, request) ==> inner.value.0 == s)
  {
    hide ServiceReady;
  }

  /** This retirement may take the place of the caller's bundle. */
  predicate MayRetire(s: Tables, id: int, request: Registration) {
    && request.expectedRevision == CurrentRevision(s, id) && id in s.bundles
    && request.bundle == s.bundles[id].bundle.(bundleRevision := request.bundle.bundleRevision)
    && (request.emergency || forall k :: k in s.exchanges && k.Involves(id) ==> !s.exchanges[k].Active())
  }

  /**
    A retirement is taken exactly when its owner asks for it under the next revision and
    it repeats the current one, or retires the current bundle, unchanged, with no work
    open or in an emergency.
  */
  lemma WithdrawalIsTakenExactlyWhen(s: Tables, id: int, key: B32, request: Registration, at: Moment)
    requires request.lifecycle == Lifecycle.Retired && at.now <= MAX_NUMBER
    ensures var (after, answer) := Register(s, id, key, request, at);
            var swept := Sweep(s, at.now).0;
            && (answer.Ok? <==> Eligible(s, id, key, request, at) && (Repeats(s, id, request) || MayRetire(swept, id, request)))
            && (answer.Ok? ==> id in after.bundles && after.bundles[id] == answer.value
                               && answer.value == AdvertisedBundle(1, Lifecycle.Retired, request.bundle))
            && (answer.Err? || Repeats(s, id, request) ==> after == swept)
  {
    RegistrationIsSwept(s, at.now, id, key, request, at);
    InnerTakesRetirement(Swept(s, at.now), id, key, request, at);
    hide RegisterInner, Swept, Eligible, MayRetire;
  }

  lemma InnerTakesRetirement(s: Tables, id: int, key: B32, request: Registration, at: Moment)
    requires request.lifecycle == Lifecycle.Retired
    ensures var inner := RegisterInner(s, id, key, request, at);
            && (inner.Ok? <==> Eligible(s, id, key, request, at) && (Repeats(s, id, request) || MayRetire(s, id, request)))
            && (inner.Ok? ==> id in inner.value.0.bundles && inner.value.0.bundles[id] == inner.value.1
                              && inner.value.1 == AdvertisedBundle(1, Lifecycle.Retired, request.bundle))
            && (inner.Ok? && Repeats(s, id, request) ==> inner.value.0 == s)
  {
    hide ServiceReady, Terminated;
  }

  // ---------------------------------------------------------------- Readiness

  /** The service is ready exactly when it is switched on, management is, and one single server peer is in standing. */
  lemma ReadyExactlyWhen(s: Tables)
    ensures ServiceReady(s) <==> s.enabled && s.managementReady && exists p :: OnlyServer(s, p)
  {
    var servers := set p | p in s.directory.peers && ServerPeer(s.directory.peers[p]);
    if |servers| == 1 {
      var p :| p in servers;
      forall q | q in servers
        ensures q == p
      {
        SubsetCardinality({p, q}, servers);
      }
      assert forall q :: ServerInStanding(s, q) ==> q in servers;
      assert OnlyServer(s, p);
    } else if p :| OnlyServer(s, p) {
      assert p in servers && forall q :: q in servers ==> ServerInStanding(s, q);
      assert servers == {p};
    }
  }

  ghost predicate OnlyServer(s: Tables, p: int) {
    ServerInStanding(s, p) && forall q :: ServerInStanding(s, q) ==> q == p
  }

  predicate ServerInStanding(s: Tables, p: int) {
    p in s.directory.peers && (var row := s.directory.peers[p]; row.isServer && !row.isDisabled && row.isRedeemed)
  }

  // ---------------------------------------------------------------- Shut out

  /**
    A disabled peer is shut out at once, and nobody else is touched: it is served by
    nothing and paired with nobody, the other peers and the rows that do not involve it
    stay as they were, and its finished rows do too.
  */
  lemma DisabledPeerIsShutOut(s: Tables, id: int, q: int, key: B32, m: Message)
    requires id in s.directory.peers
    ensures var after := DisablePeer(s, id).0;
            && DisablePeer(s, id).1.Ok? && after.visibility == s.visibility + 1
            && !Served(after, id, key, q, m) && !Served(after, q, key, id, m)
            && PairAllowed(after.directory, id, q).Err? && PairAllowed(after.directory, q, id).Err?
            && after.directory.peers.Keys == s.directory.peers.Keys
            && (forall p :: p in s.directory.peers && p != id ==> after.directory.peers[p] == s.directory.peers[p])
            && after.exchanges.Keys == s.exchanges.Keys
            && (forall k :: k in s.exchanges && (!k.Involves(id) || !s.exchanges[k].Active()) ==> after.exchanges[k] == s.exchanges[k])
            && (forall k :: k in s.exchanges && k.Involves(id) && s.exchanges[k].Active() ==>
                  after.exchanges[k].decision.phase == Phase.Aborted && after.exchanges[k].termination == Some("disabled")
                  && after.exchanges[k].transcript.None? && after.exchanges[k].messages == []
                  && after.exchanges[k].receipts == s.exchanges[k].receipts)
  {
    hide ServiceReady, HasBundle, Message.ValidateShape;
  }

  /**
    Removing an association aborts the open exchanges of the pairs that lose their
    authorization, and touches nothing else but what has expired at the epoch.
  */
  lemma DissociationTouchesOnlyTheRevoked(s: Tables, visible: set<(int, int)>)
    requires s.swept <= s.visibility
    ensures var after := DeleteAssociation(s, visible);
            && after.directory == s.directory.(visible := visible) && after.bundles == s.bundles
            && after.visibility == after.swept == s.visibility + 1
            && after.exchanges.Keys == s.exchanges.Keys
            && forall k :: k in s.exchanges ==>
                 var row := s.exchanges[k];
                 if row.Active() && row.prepareExpiresAt > 0 && PairAllowed(after.directory, row.key.initiatorId, row.key.responderId).Err? then
                   after.exchanges[k].decision == row.decision.(phase := Phase.Aborted) && after.exchanges[k].termination == Some("revoked")
                   && after.exchanges[k].receipts == row.receipts && after.exchanges[k].transcript.None?
                 else !row.Active() || row.prepareExpiresAt > 0 ==> after.exchanges[k] == row
  {
    hide PairAllowed;
  }
}
