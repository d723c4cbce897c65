/**
  The mailbox over every run of arbitrary requests: its invariant, replay safety,
  idempotent resubmission, and the refinement of the full sweep by the lazy one.
*/
module MailboxSafety {
  import opened Results
  import opened Numbers
  import opened Protocol
  import opened Mailbox
  import opened MailboxHistory

  // ---------------------------------------------------------------- Sweep and termination

  /** Changes that keep the set of rows and the bundles keep the generations. */
  lemma SameRowsKeepGeneration(s: Tables, after: Tables, past: set<RowKey>)
    requires GenerationInv(s, past)
    requires after.exchanges.Keys == s.exchanges.Keys && after.bundles == s.bundles && after.bundleHistory == s.bundleHistory
    requires KeepsRedeemed(s.directory, after.directory)
    ensures GenerationInv(after, past)
  {
  }

  /** Rows that evolve in place keep everything but the sweep marker, which the caller answers for. */
  lemma InPlaceKeepsInv(l: Log, after: Tables)
    requires LogInv(l) && EvolvesInPlace(l.tables.exchanges, after.exchanges)
    requires after.bundles == l.tables.bundles && after.bundleHistory == l.tables.bundleHistory
    requires KeepsRedeemed(l.tables.directory, after.directory)
    requires SweepInv(after)
    ensures LogInv(Logged(l, after))
  {
    hide ChainOf, Evolves, RecordOk;
    InPlaceKeepsChain(l, after);
    SameRowsKeepGeneration(l.tables, after, l.history.Keys);
    assert Logged(l, after).history.Keys == l.history.Keys;
  }

  lemma RowsNameTheirKey(l: Log)
    requires ChainInv(l)
    ensures forall k :: k in l.tables.exchanges ==> l.tables.exchanges[k].key == k
  {
    forall k | k in l.tables.exchanges
      ensures l.tables.exchanges[k].key == k
    {
      CurrentRowOk(l, k);
    }
  }

  /** A sweep leaves only allowed pairs active, whether or not it had to look at all of them. */
  lemma SweptRestoresSweepInv(s: Tables, now: nat)
    requires SweepInv(s) && forall k :: k in s.exchanges ==> s.exchanges[k].key == k
    ensures SweepInv(Swept(s, now))
  {
  }

  lemma SweptKeepsInv(l: Log, now: nat)
    requires LogInv(l)
    ensures LogInv(Logged(l, Swept(l.tables, now)))
  {
    hide ChainOf, Evolves, RecordOk, SweptRecord;
    SweptEvolves(l.tables, now);
    RowsNameTheirKey(l);
    SweptRestoresSweepInv(l.tables, now);
    InPlaceKeepsInv(l, Swept(l.tables, now));
  }

  lemma DisableKeepsInv(l: Log, id: int)
    requires LogInv(l) && id in l.tables.directory.peers
    ensures LogInv(Logged(l, DisablePeer(l.tables, id).0))
  {
    hide ChainOf, Evolves, RecordOk;
    var peers := l.tables.directory.peers[id := l.tables.directory.peers[id].(isDisabled := true)];
    var s := WithDirectory(l.tables, l.tables.directory.(peers := peers));
    TerminatedEvolves(s, id, "disabled");
    InPlaceKeepsInv(l, Terminated(s, id, "disabled"));
  }

  lemma AssociationKeepsInv(l: Log, visible: set<(int, int)>)
    requires LogInv(l)
    ensures LogInv(Logged(l, DeleteAssociation(l.tables, visible)))
  {
    hide ChainOf, Evolves, RecordOk, SweptRecord;
    var s := WithDirectory(l.tables, l.tables.directory.(visible := visible));
    SweptEvolves(s, 0);
    RowsNameTheirKey(l);
    SweptRestoresSweepInv(s, 0);
    InPlaceKeepsInv(l, Swept(s, 0));
  }

  lemma UnchangedKeepsLog(l: Log)
    ensures Logged(l, l.tables) == l || !ChainInv(l)
  {
    hide ChainOf;
    if ChainInv(l) {
      assert Logged(l, l.tables).history.Keys == l.history.Keys;
    }
  }

  // ---------------------------------------------------------------- Registration

  /** Replacing a bundle row by a fresh or a retired one leaves no usable past generation. */
  lemma WithBundleKeepsGeneration(s: Tables, grown: set<B16>, rows: map<RowKey, Exchange>, past: set<RowKey>, id: int, advertised: AdvertisedBundle)
    requires GenerationInv(s, past) && rows.Keys == s.exchanges.Keys && rows.Keys <= past
    requires s.bundleHistory <= grown && advertised.bundle.bundleId in grown
    requires id in s.directory.peers && s.directory.peers[id].isRedeemed
    requires advertised.lifecycle == Enabled ==> advertised.bundle.bundleId !in s.bundleHistory
    requires forall k :: k in rows && k.Involves(id) ==> !rows[k].Active()
    ensures GenerationInv(WithBundle(s.(bundleHistory := grown, exchanges := rows), id, advertised), past)
  {
    var after := WithBundle(s.(bundleHistory := grown, exchanges := rows), id, advertised);
    assert forall k :: k in after.exchanges ==> k in s.exchanges && !k.Involves(id);
    assert forall k :: k in s.exchanges && !k.Involves(id) ==> k in after.exchanges;
    assert after.bundles == s.bundles[id := advertised] && after.bundleHistory == grown && after.directory == s.directory;
    hide WithBundle, Usable, Owns;
    assert BundlesKnown(after) && PastKnown(after, past);
    ReplacedKeepsPins(s, after, id, advertised);
    ReplacedIsUnusable(s, after, past, id, advertised);
  }

  lemma ReplacedKeepsPins(s: Tables, after: Tables, id: int, advertised: AdvertisedBundle)
    requires RowsPinned(s) && after.bundles == s.bundles[id := advertised]
    requires forall k :: k in after.exchanges ==> k in s.exchanges && !k.Involves(id)
    ensures RowsPinned(after)
  {
  }

  /** Every past row of a replaced bundle names an identifier that is no longer in use. */
  lemma ReplacedIsUnusable(s: Tables, after: Tables, past: set<RowKey>, id: int, advertised: AdvertisedBundle)
    requires PastKnown(s, past) && PastUnusable(s, past) && after.bundles == s.bundles[id := advertised]
    requires forall k :: k in s.exchanges && !k.Involves(id) ==> k in after.exchanges
    requires advertised.lifecycle == Enabled ==> advertised.bundle.bundleId !in s.bundleHistory
    ensures PastUnusable(after, past)
  {
    forall k | k in past && k !in after.exchanges
      ensures !(Usable(after, k.initiatorId, k.initiatorBundleId) && Usable(after, k.responderId, k.responderBundleId))
    {
      assert k.initiatorBundleId in s.bundleHistory && k.responderBundleId in s.bundleHistory;
    }
  }

  lemma WithBundleKeepsInv(l: Log, grown: set<B16>, rows: map<RowKey, Exchange>, id: int, advertised: AdvertisedBundle)
    requires LogInv(l) && EvolvesInPlace(l.tables.exchanges, rows)
    requires l.tables.bundleHistory <= grown && advertised.bundle.bundleId in grown
    requires id in l.tables.directory.peers && l.tables.directory.peers[id].isRedeemed
    requires advertised.lifecycle == Enabled ==> advertised.bundle.bundleId !in l.tables.bundleHistory
    requires forall k :: k in rows && k.Involves(id) ==> !rows[k].Active()
    ensures LogInv(Logged(l, WithBundle(l.tables.(bundleHistory := grown, exchanges := rows), id, advertised)))
  {
    var after := WithBundle(l.tables.(bundleHistory := grown, exchanges := rows), id, advertised);
    var s, past := l.tables, l.history.Keys;
    assert SweepInv(after) && rows.Keys == s.exchanges.Keys && GenerationInv(s, past);
    hide *;
    WithBundleKeepsChain(l, grown, rows, id, advertised);
    WithBundleKeepsGeneration(s, grown, rows, past, id, advertised);
    LogInvOf(l, after);
  }

  lemma WithBundleKeepsChain(l: Log, grown: set<B16>, rows: map<RowKey, Exchange>, id: int, advertised: AdvertisedBundle)
    requires LogInv(l) && EvolvesInPlace(l.tables.exchanges, rows)
    ensures var after := WithBundle(l.tables.(bundleHistory := grown, exchanges := rows), id, advertised);
            ChainInv(Logged(l, after)) && Logged(l, after).history.Keys == l.history.Keys && rows.Keys <= l.history.Keys
  {
    var after := WithBundle(l.tables.(bundleHistory := grown, exchanges := rows), id, advertised);
    DroppedRows(l.tables.(bundleHistory := grown, exchanges := rows), id, advertised);
    hide WithBundle, GenerationInv, SweepInv, ChainOf, RecordOk, Evolves, Recorded;
    DroppingKeepsChain(l, rows, after);
    LoggedKeys(l, after);
  }

  lemma DroppedRows(s: Tables, id: int, advertised: AdvertisedBundle)
    ensures var after := WithBundle(s, id, advertised).exchanges;
            after.Keys <= s.exchanges.Keys && forall k :: k in after ==> after[k] == s.exchanges[k]
  {
  }

  lemma LogInvOf(l: Log, after: Tables)
    requires ChainInv(Logged(l, after)) && GenerationInv(after, Logged(l, after).history.Keys) && SweepInv(after)
    ensures LogInv(Logged(l, after))
  {
    hide ChainInv, GenerationInv, SweepInv;
  }

  lemma RegisterKeepsInv(l: Log, id: int, key: B32, request: Registration, at: Moment)
    requires LogInv(l)
    requires RegisterInner(l.tables, id, key, request, at).Ok?
    ensures LogInv(Logged(l, RegisterInner(l.tables, id, key, request, at).value.0))
  {
    hide ChainOf, RecordOk, Evolves;
    var s := l.tables;
    var desired := AdvertisedBundle(request.pqVersion, request.lifecycle, request.bundle);
    if id in s.bundles && s.bundles[id] == desired {
      UnchangedKeepsLog(l);
    } else {
      match request.lifecycle
      case Enabled =>
        NothingEvolves(s.exchanges);
        WithBundleKeepsInv(l, s.bundleHistory + {request.bundle.bundleId}, s.exchanges, id, desired);
      case Retired =>
        TerminatedEvolves(s, id, "retired");
        WithBundleKeepsInv(l, s.bundleHistory, Terminated(s, id, "retired").exchanges, id, desired);
    }
  }

  // ---------------------------------------------------------------- Phase messages

  lemma ReplayAppend(receipts: seq<MessageDigest>, d: MessageDigest, k: RowKey)
    requires |receipts| > 0
    ensures Replay(receipts + [d], k) ==
            (var kind :- KindOf(d.messageType);
             var before :- Replay(receipts, k);
             before.Advance(kind, SenderIsInitiator(d, k)))
  {
    assert (receipts + [d])[..|receipts|] == receipts;
  }

  lemma AdvanceMovesForward(d: Decision, kind: Kind, initiator: bool)
    requires d.Advance(kind, initiator).Ok?
    ensures var after := d.Advance(kind, initiator).value;
            !d.Terminal()
            && Within(d.installed, after.installed) && Within(d.confirmed, after.confirmed)
            && (if after.phase == Phase.Aborted then d.phase in {Phase.Proposed, Phase.Ready}
                else Rank(d.phase) <= Rank(after.phase))
  {
  }

  /** Accepting a message on an active record gives a well-formed successor of it. */
  lemma AcceptedRecordOk(k: RowKey, r: Exchange, kind: Kind, initiator: bool, m: Message)
    requires RecordOk(k, r)
    requires m.ValidateShape() == Ok(kind) && initiator == (m.header.senderId == k.initiatorId)
    requires SubmitExisting(r, kind, initiator, m).Ok? && SubmitExisting(r, kind, initiator, m).value.stored
    ensures var after := SubmitExisting(r, kind, initiator, m).value.record;
            RecordOk(k, after) && Evolves(r, after)
  {
    var decision := AcceptedDecision(k, r, kind, initiator, m);
    hide Replay, Message.ValidateShape, Message.Authenticate, Decision.Advance;
    AdvanceMovesForward(r.decision, kind, initiator);
    var receipts := r.receipts + [DigestOf(m)];
    var grown := r.(decision := decision, messages := r.messages + [m], receipts := receipts);
    assert SubmitExisting(r, kind, initiator, m) == Ok(Reply(grown.Compact(), true));
    assert DistinctReceipts(receipts);
  }

  /** The accepted message authenticates, and replaying it gives the stored decision. */
  lemma AcceptedDecision(k: RowKey, r: Exchange, kind: Kind, initiator: bool, m: Message) returns (decision: Decision)
    requires RecordOk(k, r)
    requires m.ValidateShape() == Ok(kind) && initiator == (m.header.senderId == k.initiatorId)
    requires SubmitExisting(r, kind, initiator, m).Ok? && SubmitExisting(r, kind, initiator, m).value.stored
    ensures r.Active() && r.decision.Advance(kind, initiator) == Ok(decision)
    ensures Replay(r.receipts + [DigestOf(m)], k) == Ok(decision)
    ensures Faithful(DigestOf(m), r.transcriptHash.transcript)
  {
    hide Decision.Advance, Message.Authenticate;
    decision := r.decision.Advance(kind, initiator).value;
    ReplayAppend(r.receipts, DigestOf(m), k);
  }

  lemma ProposedRecordOk(s: Tables, id: int, other: int, key: RowKey, first: Bundle, second: Bundle, m: Message, at: Moment)
    requires m.ValidateShape() == Ok(Kind.Propose)
    requires key == RowKey(m.header.initiatorId, m.header.responderId, first.bundleId, second.bundleId)
    requires SubmitProposal(s, id, other, key, first, second, m, at).Ok?
    ensures var r := SubmitProposal(s, id, other, key, first, second, m, at).value.record;
            RecordOk(key, r) && r.sequence == m.header.sequence && r.Active()
  {
    var r := SubmitProposal(s, id, other, key, first, second, m, at).value.record;
    assert r.receipts == [DigestOf(m)];
    assert Replay(r.receipts, key) == Ok(START);
  }

  /** The shape of every accepted submission. */
  lemma SubmitCases(s: Tables, id: int, key: B32, other: int, m: Message, at: Moment)
    requires SubmitInner(s, id, key, other, m, at).Ok?
    ensures PairAllowed(s.directory, id, other).Ok? && PairAllowed(s.directory, Min(id, other), Max(id, other)).Ok?
    ensures m.ValidateShape().Ok? && m.header.senderId == id
            && m.header.initiatorId == Min(id, other) && m.header.responderId == Max(id, other)
    ensures var row := RowKey(m.header.initiatorId, m.header.responderId, m.header.initiatorBundleId, m.header.responderBundleId);
            && Usable(s, row.initiatorId, row.initiatorBundleId) && Usable(s, row.responderId, row.responderBundleId)
            && var first, second := s.bundles[row.initiatorId].bundle, s.bundles[row.responderId].bundle;
            if row in s.exchanges && m.header.sequence == s.exchanges[row].sequence then
              SubmitInner(s, id, key, other, m, at) == SubmitExisting(s.exchanges[row], m.ValidateShape().value, id < other, m)
            else
              (row in s.exchanges ==> s.exchanges[row].sequence < m.header.sequence)
              && m.ValidateShape().value == Kind.Propose
              && !(exists k :: k in s.exchanges && k.Between(id, other) && s.exchanges[k].Active())
              && SubmitInner(s, id, key, other, m, at) == SubmitProposal(s, id, other, row, first, second, m, at)
  {
  }

  /** An accepted submission gives its row a legal next version. */
  lemma SubmitRowStep(l: Log, id: int, key: B32, other: int, m: Message, at: Moment)
    requires LogInv(l)
    requires SubmitInner(l.tables, id, key, other, m, at).Ok? && SubmitInner(l.tables, id, key, other, m, at).value.stored
    ensures var r := SubmitInner(l.tables, id, key, other, m, at).value.record;
            && RowStep(l, r.key, r)
            && r.key.initiatorId == Min(id, other) && r.key.responderId == Max(id, other)
            && Usable(l.tables, r.key.initiatorId, r.key.initiatorBundleId)
            && Usable(l.tables, r.key.responderId, r.key.responderBundleId)
            && PairAllowed(l.tables.directory, r.key.initiatorId, r.key.responderId).Ok?
  {
    var s := l.tables;
    SubmitCases(s, id, key, other, m, at);
    var row := RowKey(m.header.initiatorId, m.header.responderId, m.header.initiatorBundleId, m.header.responderBundleId);
    hide SubmitInner, SubmitProposal, ChainOf, RecordOk, PairAllowed, Message.ValidateShape, ActiveCount, ServiceReady;
    if row in s.exchanges {
      CurrentRowOk(l, row);
    }
    if row in s.exchanges && m.header.sequence == s.exchanges[row].sequence {
      AcceptedRecordOk(row, s.exchanges[row], m.ValidateShape().value, id < other, m);
    } else {
      ProposedRecordOk(s, id, other, row, s.bundles[row.initiatorId].bundle, s.bundles[row.responderId].bundle, m, at);
    }
  }

  lemma WrittenRowKeepsGeneration(s: Tables, past: set<RowKey>, r: Exchange)
    requires GenerationInv(s, past)
    requires Usable(s, r.key.initiatorId, r.key.initiatorBundleId) && Usable(s, r.key.responderId, r.key.responderBundleId)
    ensures GenerationInv(s.(exchanges := s.exchanges[r.key := r]), past + s.exchanges.Keys + {r.key})
  {
  }

  lemma WrittenRowKeepsSweep(s: Tables, r: Exchange)
    requires SweepInv(s) && PairAllowed(s.directory, r.key.initiatorId, r.key.responderId).Ok?
    ensures SweepInv(s.(exchanges := s.exchanges[r.key := r]))
  {
  }

  lemma WritingKeepsInv(l: Log, r: Exchange)
    requires LogInv(l) && RowStep(l, r.key, r)
    requires Usable(l.tables, r.key.initiatorId, r.key.initiatorBundleId)
    requires Usable(l.tables, r.key.responderId, r.key.responderBundleId)
    requires PairAllowed(l.tables.directory, r.key.initiatorId, r.key.responderId).Ok?
    ensures LogInv(Logged(l, l.tables.(exchanges := l.tables.exchanges[r.key := r])))
  {
    hide RowStep, ChainInv, GenerationInv, SweepInv, PairAllowed, Usable, Recorded;
    var after := l.tables.(exchanges := l.tables.exchanges[r.key := r]);
    WritingKeepsChain(l, after, r);
    WrittenRowKeepsGeneration(l.tables, l.history.Keys, r);
    WrittenRowKeepsSweep(l.tables, r);
    LoggedKeys(l, after);
    assert after.exchanges.Keys == l.tables.exchanges.Keys + {r.key};
    assert Logged(l, after).history.Keys == l.history.Keys + l.tables.exchanges.Keys + {r.key};
  }

  lemma SubmitKeepsInv(l: Log, id: int, key: B32, other: int, m: Message, at: Moment)
    requires LogInv(l)
    requires SubmitInner(l.tables, id, key, other, m, at).Ok? && SubmitInner(l.tables, id, key, other, m, at).value.stored
    ensures var r := SubmitInner(l.tables, id, key, other, m, at).value.record;
            LogInv(Logged(l, l.tables.(exchanges := l.tables.exchanges[r.key := r])))
  {
    SubmitRowStep(l, id, key, other, m, at);
    hide *;
    WritingKeepsInv(l, SubmitInner(l.tables, id, key, other, m, at).value.record);
  }

  // ---------------------------------------------------------------- Every run

  lemma SubmitEventKeepsInv(l: Log, id: int, key: B32, other: int, m: Message, at: Moment)
    requires LogInv(l)
    ensures LogInv(StepLog(l, SubmitEvent(id, key, other, m, at)))
  {
    hide ChainOf, GenerationInv, SweepInv, SubmitInner;
    UnchangedKeepsLog(l);
    if at.now <= MAX_NUMBER {
      var swept := LogSwept(l, at.now);
      SweptKeepsInv(l, at.now);
      UnchangedKeepsLog(swept);
      var inner := SubmitInner(swept.tables, id, key, other, m, at);
      if inner.Ok? && inner.value.stored {
        SubmitKeepsInv(swept, id, key, other, m, at);
      }
    }
  }

  lemma RegisterEventKeepsInv(l: Log, id: int, key: B32, request: Registration, at: Moment)
    requires LogInv(l)
    ensures LogInv(StepLog(l, RegisterEvent(id, key, request, at)))
  {
    hide ChainOf, GenerationInv, SweepInv, RegisterInner;
    UnchangedKeepsLog(l);
    if at.now <= MAX_NUMBER {
      var swept := LogSwept(l, at.now);
      SweptKeepsInv(l, at.now);
      UnchangedKeepsLog(swept);
      if RegisterInner(swept.tables, id, key, request, at).Ok? {
        RegisterKeepsInv(swept, id, key, request, at);
      }
    }
  }

  /** Every transaction keeps the invariant, whoever calls it and whatever it carries. */
  lemma StepKeepsInv(l: Log, e: Event)
    requires LogInv(l) && Possible(l.tables, e)
    ensures LogInv(StepLog(l, e))
  {
    hide ChainOf, Evolves, RecordOk, Swept, RegisterInner, SubmitInner;
    NothingEvolves(l.tables.exchanges);
    UnchangedKeepsLog(l);
    match e
    case SubmitEvent(id, key, other, m, at) => SubmitEventKeepsInv(l, id, key, other, m, at);
    case RegisterEvent(id, key, request, at) => RegisterEventKeepsInv(l, id, key, request, at);
    case SweepEvent(now) => if now <= MAX_NUMBER { SweptKeepsInv(l, now); }
    case DirectoryEvent(d) => InPlaceKeepsInv(l, WithDirectory(l.tables, d));
    case DisableEvent(id) => if id in l.tables.directory.peers { DisableKeepsInv(l, id); }
    case AssociationEvent(visible) => AssociationKeepsInv(l, visible);
    case SwitchEvent(enabled, managementReady) =>
      InPlaceKeepsInv(l, l.tables.(enabled := enabled, managementReady := managementReady));
  }

  function RunLog(l: Log, events: seq<Event>): Log
    decreases |events|
  {
    if |events| == 0 then l else RunLog(StepLog(l, events[0]), events[1..])
  }

  predicate PossibleRun(l: Log, events: seq<Event>)
    decreases |events|
  {
    |events| == 0 || (Possible(l.tables, events[0]) && PossibleRun(StepLog(l, events[0]), events[1..]))
  }

  lemma {:induction false} RunKeepsInv(l: Log, events: seq<Event>)
    requires LogInv(l) && PossibleRun(l, events)
    ensures LogInv(RunLog(l, events))
    decreases |events|
  {
    if |events| > 0 {
      StepKeepsInv(l, events[0]);
      RunKeepsInv(StepLog(l, events[0]), events[1..]);
    }
  }

  lemma InitialInv(networkId: B16, d: Directory)
    ensures LogInv(InitialLog(networkId, d))
  {
  }

  // ---------------------------------------------------------------- Replay safety

  /**
    For each pair and bundle pair, over the whole log: sequences never fall, and one
    sequence is bound to one exchange identifier and one transcript hash.
  */
  lemma ReplaySafety(networkId: B16, d: Directory, events: seq<Event>)
    requires PossibleRun(InitialLog(networkId, d), events)
    ensures var history := RunLog(InitialLog(networkId, d), events).history;
            forall k, i, j :: k in history && 0 <= i < j < |history[k]| ==>
              var a, b := history[k][i], history[k][j];
              a.sequence <= b.sequence
              && (a.sequence == b.sequence ==> a.exchangeId == b.exchangeId && a.transcriptHash == b.transcriptHash)
  {
    InitialInv(networkId, d);
    RunKeepsInv(InitialLog(networkId, d), events);
    hide RecordOk;
    var history := RunLog(InitialLog(networkId, d), events).history;
    forall k, i, j | k in history && 0 <= i < j < |history[k]|
      ensures Supersedes(history[k][i], history[k][j])
    {
      assert ChainOf(k, history[k]);
    }
  }

  /** A deleted row never comes back: only a pair that is no longer usable could have owned it. */
  lemma DeletedRowsStayDeleted(networkId: B16, d: Directory, events: seq<Event>, id: int, key: B32, other: int, m: Message, at: Moment)
    requires PossibleRun(InitialLog(networkId, d), events)
    ensures var l := RunLog(InitialLog(networkId, d), events);
            forall k :: k in l.history && k !in l.tables.exchanges ==> k !in Submit(l.tables, id, key, other, m, at).0.exchanges
  {
    InitialInv(networkId, d);
    RunKeepsInv(InitialLog(networkId, d), events);
    hide *;
    DeletedIsNotResubmitted(RunLog(InitialLog(networkId, d), events), id, key, other, m, at);
  }

  lemma DeletedIsNotResubmitted(l: Log, id: int, key: B32, other: int, m: Message, at: Moment)
    requires LogInv(l)
    ensures forall k :: k in l.history && k !in l.tables.exchanges ==> k !in Submit(l.tables, id, key, other, m, at).0.exchanges
  {
    assert ChainInv(l);
    hide *;
    SubmitAddsOneKey(l.tables, id, key, other, m, at);
    if at.now <= MAX_NUMBER {
      SweptKeepsInv(l, at.now);
      SweepKeepsKeys(l, at.now);
      StoredIsNoDeletedRow(LogSwept(l, at.now), id, key, other, m, at);
    }
  }

  lemma SubmitAddsOneKey(s: Tables, id: int, key: B32, other: int, m: Message, at: Moment)
    ensures at.now > MAX_NUMBER ==> Submit(s, id, key, other, m, at).0 == s
    ensures at.now <= MAX_NUMBER ==>
              var inner := SubmitInner(Swept(s, at.now), id, key, other, m, at);
              forall k :: k in Submit(s, id, key, other, m, at).0.exchanges ==>
                k in s.exchanges || (inner.Ok? && inner.value.stored && k == inner.value.record.key)
  {
    hide SubmitInner, SweptRecord;
  }

  lemma SweepKeepsKeys(l: Log, now: nat)
    requires ChainInv(l) && now <= MAX_NUMBER
    ensures LogSwept(l, now) == Logged(l, Swept(l.tables, now)) && LogSwept(l, now).tables == Swept(l.tables, now)
    ensures LogSwept(l, now).tables.exchanges.Keys == l.tables.exchanges.Keys
    ensures LogSwept(l, now).history.Keys == l.history.Keys
  {
    hide SweptRecord, ChainOf;
  }

  lemma StoredIsNoDeletedRow(l: Log, id: int, key: B32, other: int, m: Message, at: Moment)
    requires LogInv(l)
    ensures var inner := SubmitInner(l.tables, id, key, other, m, at);
            inner.Ok? && inner.value.stored ==>
              inner.value.record.key in l.tables.exchanges || inner.value.record.key !in l.history
  {
    hide SubmitInner, LogInv, RecordOk, Supersedes;
    var inner := SubmitInner(l.tables, id, key, other, m, at);
    if inner.Ok? && inner.value.stored {
      SubmitRowStep(l, id, key, other, m, at);
    }
  }

  // ---------------------------------------------------------------- Idempotence

  ghost predicate AcceptedIn(l: Log, k: RowKey, i: nat, m: Message) {
    k in l.history && i < |l.history[k]| && DigestOf(m) in l.history[k][i].receipts
  }

  /** A message was accepted at some time in the past of this log. */
  ghost predicate Accepted(l: Log, m: Message) {
    exists k, i: nat :: AcceptedIn(l, k, i, m)
  }

  lemma AcceptedNamesItsRow(k: RowKey, v: Exchange, m: Message)
    requires RecordOk(k, v) && DigestOf(m) in v.receipts
    ensures k == RowKey(m.header.initiatorId, m.header.responderId, m.header.initiatorBundleId, m.header.responderBundleId)
    ensures m.header.sequence == v.sequence && m.header.exchangeId == v.exchangeId && m.header.transcriptHash == v.transcriptHash
  {
    var i :| 0 <= i < |v.receipts| && v.receipts[i] == DigestOf(m);
    assert Faithful(v.receipts[i], v.transcriptHash.transcript);
  }

  lemma SweepExtendsHistory(l: Log, now: nat, k: RowKey)
    requires k in l.history
    ensures k in LogSwept(l, now).history && l.history[k] <= LogSwept(l, now).history[k]
  {
  }

  /** If its row still exists, an accepted message is below its sequence or among its receipts. */
  lemma AcceptedIsKnown(l: Log, k: RowKey, i: nat, m: Message)
    requires ChainInv(l) && AcceptedIn(l, k, i, m)
    ensures k == RowKey(m.header.initiatorId, m.header.responderId, m.header.initiatorBundleId, m.header.responderBundleId)
    ensures k in l.tables.exchanges ==>
              m.header.sequence < l.tables.exchanges[k].sequence
              || (m.header.sequence == l.tables.exchanges[k].sequence && DigestOf(m) in l.tables.exchanges[k].receipts)
  {
    hide RecordOk;
    var versions := l.history[k];
    assert ChainOf(k, versions);
    AcceptedNamesItsRow(k, versions[i], m);
    if k in l.tables.exchanges {
      assert EndsWith(versions, l.tables.exchanges[k]);
      assert versions[i] == versions[|versions| - 1] || Supersedes(versions[i], versions[|versions| - 1]);
    }
  }

  lemma AcceptedIsNeverStoredAgain(l: Log, id: int, key: B32, other: int, m: Message, at: Moment)
    requires LogInv(l) && Accepted(l, m)
    requires SubmitInner(l.tables, id, key, other, m, at).Ok?
    ensures !SubmitInner(l.tables, id, key, other, m, at).value.stored
  {
    hide ChainInv, SweepInv, Usable, SubmitInner, SubmitProposal, AcceptedIn, PairAllowed, Message.ValidateShape;
    SubmitCases(l.tables, id, key, other, m, at);
    var k, i: nat :| AcceptedIn(l, k, i, m);
    assert k in l.history by { assert AcceptedIn(l, k, i, m); AcceptedInHistory(l, k, i, m); }
    AcceptedIsKnown(l, k, i, m);
    assert k in l.tables.exchanges;
  }

  lemma AcceptedInHistory(l: Log, k: RowKey, i: nat, m: Message)
    requires AcceptedIn(l, k, i, m)
    ensures k in l.history
  {
  }

  lemma SweepKeepsAccepted(l: Log, now: nat, m: Message)
    requires Accepted(l, m)
    ensures Accepted(LogSwept(l, now), m)
  {
    var k, i: nat :| AcceptedIn(l, k, i, m);
    SweepExtendsHistory(l, now, k);
    assert AcceptedIn(LogSwept(l, now), k, i, m);
  }

  /**
    A message that was ever accepted changes nothing when it is submitted again, at
    any later time, by anyone, even after compaction, replacement or deletion of its
    row: only the sweep that is due takes place.
  */
  lemma ResubmissionIsInert(networkId: B16, d: Directory, events: seq<Event>, id: int, key: B32, other: int, m: Message, at: Moment)
    requires PossibleRun(InitialLog(networkId, d), events)
    requires Accepted(RunLog(InitialLog(networkId, d), events), m)
    ensures var s := RunLog(InitialLog(networkId, d), events).tables;
            Submit(s, id, key, other, m, at).0 == Sweep(s, at.now).0
  {
    var l := RunLog(InitialLog(networkId, d), events);
    InitialInv(networkId, d);
    RunKeepsInv(InitialLog(networkId, d), events);
    if at.now <= MAX_NUMBER {
      SweptKeepsInv(l, at.now);
      SweepKeepsAccepted(l, at.now, m);
      hide LogInv, SubmitInner, Accepted, RunLog, PossibleRun, Recorded, Swept;
      NothingStored(LogSwept(l, at.now), id, key, other, m, at);
    }
  }

  lemma NothingStored(l: Log, id: int, key: B32, other: int, m: Message, at: Moment)
    requires LogInv(l) && Accepted(l, m)
    ensures var inner := SubmitInner(l.tables, id, key, other, m, at); inner.Ok? ==> !inner.value.stored
  {
    hide *;
    if SubmitInner(l.tables, id, key, other, m, at).Ok? {
      AcceptedIsNeverStoredAgain(l, id, key, other, m, at);
    }
  }

  // ---------------------------------------------------------------- Rows and records

  /** Every unordered pair of peers has at most one row, active or not. */
  lemma OneRowPerPair(networkId: B16, d: Directory, events: seq<Event>)
    requires PossibleRun(InitialLog(networkId, d), events)
    ensures var rows := RunLog(InitialLog(networkId, d), events).tables.exchanges;
            forall k, k' :: k in rows && k' in rows && k.initiatorId == k'.initiatorId && k.responderId == k'.responderId ==> k == k'
  {
    InitialInv(networkId, d);
    RunKeepsInv(InitialLog(networkId, d), events);
  }

  /** An active record carries its transcript, its messages, and the decision that they replay to. */
  lemma ActiveRecordsReplay(networkId: B16, d: Directory, events: seq<Event>, k: RowKey)
    requires PossibleRun(InitialLog(networkId, d), events)
    requires k in RunLog(InitialLog(networkId, d), events).tables.exchanges
    ensures var r := RunLog(InitialLog(networkId, d), events).tables.exchanges[k];
            && r.transcriptHash.Sha3?
            && DistinctReceipts(r.receipts)
            && (r.Active() ==>
                  Replay(r.receipts, k) == Ok(r.decision)
                  && r.transcript == Some(r.transcriptHash.transcript)
                  && r.receipts == seq(|r.messages|, i requires 0 <= i < |r.messages| => DigestOf(r.messages[i]))
                  && forall m :: m in r.messages ==> m.Authenticate(r.transcriptHash.transcript).Ok?)
            && (r.decision.phase == Phase.Complete ==> Replay(r.receipts, k) == Ok(r.decision))
  {
    var l := RunLog(InitialLog(networkId, d), events);
    InitialInv(networkId, d);
    RunKeepsInv(InitialLog(networkId, d), events);
    CurrentRowOk(l, k);
    var r := l.tables.exchanges[k];
    hide Replay, Message.Authenticate;
    if r.Active() {
      forall m | m in r.messages
        ensures m.Authenticate(r.transcriptHash.transcript).Ok?
      {
        var i :| 0 <= i < |r.messages| && r.messages[i] == m;
        assert Faithful(r.receipts[i], r.transcriptHash.transcript);
      }
    }
  }

  // ---------------------------------------------------------------- The lazy sweep

  /** What a sweep without any shortcut would do to an active record. */
  function Rechecked(d: Directory, now: nat, r: Exchange): Exchange {
    if PairAllowed(d, r.key.initiatorId, r.key.responderId).Err? then r.Terminate("revoked")
    else if PrepareExpired(r, now) then r.(decision := r.decision.(phase := Phase.Aborted)).Compact()
    else r
  }

  function FullySwept(s: Tables, now: nat): map<RowKey, Exchange> {
    map k | k in s.exchanges ::
      if s.exchanges[k].Active() then Rechecked(s.directory, now, s.exchanges[k]) else s.exchanges[k]
  }

  lemma SweptRecordIsRechecked(d: Directory, changed: bool, now: nat, r: Exchange)
    requires r.Active()
    requires changed || PairAllowed(d, r.key.initiatorId, r.key.responderId).Ok?
    ensures (if VisitedBySweep(r, changed, now) then SweptRecord(d, changed, now, r) else r) == Rechecked(d, now, r)
  {
  }

  lemma LazySweepOf(s: Tables, now: nat)
    requires SweepInv(s) && forall k :: k in s.exchanges ==> s.exchanges[k].key == k
    ensures Swept(s, now).exchanges == FullySwept(s, now)
  {
    forall k | k in s.exchanges && s.exchanges[k].Active()
      ensures var r, changed := s.exchanges[k], s.visibility != s.swept;
              (if VisitedBySweep(r, changed, now) then SweptRecord(s.directory, changed, now, r) else r)
              == Rechecked(s.directory, now, r)
    {
      SweptRecordIsRechecked(s.directory, s.visibility != s.swept, now, s.exchanges[k]);
    }
    hide SweptRecord, Rechecked, PairAllowed;
  }

  /**
    In every reachable state the lazy sweep gives the table that rechecking the
    authorization and the expiry of every active record would give.
  */
  lemma LazySweepIsFull(networkId: B16, d: Directory, events: seq<Event>, now: nat)
    requires PossibleRun(InitialLog(networkId, d), events)
    ensures var s := RunLog(InitialLog(networkId, d), events).tables;
            Swept(s, now).exchanges == FullySwept(s, now)
  {
    var l := RunLog(InitialLog(networkId, d), events);
    InitialInv(networkId, d);
    RunKeepsInv(InitialLog(networkId, d), events);
    RowsNameTheirKey(l);
    LazySweepOf(l.tables, now);
  }

  // ---------------------------------------------------------------- Revocation

  /**
    Revocation takes effect in its own transaction: once a peer is disabled none of its
    exchanges is active, and once an association is removed no pair that lost its
    authorization has an active exchange left, so that granting it again resurrects nothing.
  */
  lemma RevocationIsImmediate(networkId: B16, d: Directory, events: seq<Event>, id: int, visible: set<(int, int)>)
    requires PossibleRun(InitialLog(networkId, d), events)
    ensures var s := RunLog(InitialLog(networkId, d), events).tables;
            && (id in s.directory.peers ==>
                  forall k :: k in DisablePeer(s, id).0.exchanges && k.Involves(id) ==> !DisablePeer(s, id).0.exchanges[k].Active())
            && (var after := DeleteAssociation(s, visible);
                forall k :: k in after.exchanges && after.exchanges[k].Active() ==>
                  PairAllowed(after.directory, k.initiatorId, k.responderId).Ok?)
  {
    InitialInv(networkId, d);
    RunKeepsInv(InitialLog(networkId, d), events);
    hide *;
    var l := RunLog(InitialLog(networkId, d), events);
    if id in l.tables.directory.peers {
      DisabledIsInactive(l.tables, id);
    }
    DissociatedIsSwept(l, visible);
  }

  lemma DisabledIsInactive(s: Tables, id: int)
    requires id in s.directory.peers
    ensures var after := DisablePeer(s, id).0.exchanges;
            after.Keys == s.exchanges.Keys && forall k :: k in after && k.Involves(id) ==> !after[k].Active()
  {
  }

  lemma DissociatedIsSwept(l: Log, visible: set<(int, int)>)
    requires LogInv(l)
    ensures var after := DeleteAssociation(l.tables, visible);
            forall k :: k in after.exchanges && after.exchanges[k].Active() ==>
              PairAllowed(after.directory, k.initiatorId, k.responderId).Ok?
  {
    AssociationKeepsInv(l, visible);
    hide ChainInv, GenerationInv, PairAllowed, SweptRecord, Recorded;
    assert SweepInv(DeleteAssociation(l.tables, visible));
  }
}
