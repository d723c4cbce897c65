/**
  What the mailbox keeps over every run, whatever its clients submit: a log of every
  version a row ever had, including rows that registration has since deleted.
*/
module MailboxHistory {
  import opened Results
  import opened Protocol
  import opened Mailbox

  // ---------------------------------------------------------------- One record

  function SenderIsInitiator(d: MessageDigest, k: RowKey): bool {
    d.senderId == k.initiatorId
  }

  /** The decision that the accepted messages give, folding from the proposal. */
  function Replay(receipts: seq<MessageDigest>, k: RowKey): Checked<Decision> {
    if |receipts| == 0 then Err(Invalid)
    else
      var last := receipts[|receipts| - 1];
      var kind :- KindOf(last.messageType);
      if |receipts| == 1 then
        if kind == Kind.Propose && SenderIsInitiator(last, k) then Ok(START) else Err(Error.Conflict)
      else
        var before :- Replay(receipts[..|receipts| - 1], k);
        before.Advance(kind, SenderIsInitiator(last, k))
  }

  predicate Faithful(d: MessageDigest, t: Transcript) {
    d == DigestOf(d.body.message) && d.body.message.Authenticate(t).Ok?
  }

  predicate DistinctReceipts(receipts: seq<MessageDigest>) {
    forall i, j :: 0 <= i < j < |receipts| ==>
      receipts[i].senderId != receipts[j].senderId || receipts[i].messageType != receipts[j].messageType
  }

  /** The hash in a record names the transcript that was proposed, even once it is compacted. */
  predicate NamesTranscript(r: Exchange) {
    r.transcriptHash.Sha3?
    && var t := r.transcriptHash.transcript;
      && t.networkId == r.networkId
      && RowKey(t.initiatorId, t.responderId, t.initiator.bundleId, t.responder.bundleId) == r.key
      && t.sequence == r.sequence
      && t.exchangeId == r.exchangeId
      && t.initiatorId < t.responderId
  }

  /** A record's decision is the replay of its receipts, overridden only by abortion. */
  predicate DecisionReplays(r: Exchange) {
    var replay := Replay(r.receipts, r.key);
    replay.Ok?
    && match r.decision.phase
       case Aborted =>
         r.decision == replay.value.(phase := Phase.Aborted)
         && (r.termination.None? ==> replay.value.phase in {Phase.Proposed, Phase.Ready, Phase.Aborted})
       case _ => r.decision == replay.value && r.termination.None?
  }

  predicate BodiesMatch(r: Exchange)
    requires r.transcriptHash.Sha3?
  {
    if r.Active() then
      r.transcript == Some(r.transcriptHash.transcript)
      && |r.messages| == |r.receipts|
      && forall i :: 0 <= i < |r.messages| ==> r.receipts[i] == DigestOf(r.messages[i])
    else
      r.transcript == None && r.messages == []
  }

  predicate RecordOk(k: RowKey, r: Exchange) {
    && r.key == k
    && NamesTranscript(r)
    && DistinctReceipts(r.receipts)
    && (forall i :: 0 <= i < |r.receipts| ==> Faithful(r.receipts[i], r.transcriptHash.transcript))
    && DecisionReplays(r)
    && BodiesMatch(r)
  }

  // ---------------------------------------------------------------- Order of versions

  function Rank(p: Phase): nat {
    match p
    case Proposed => 0
    case Ready => 1
    case Committed => 2
    case Complete => 3
    case Aborted => 4
  }

  predicate SameExchange(a: Exchange, b: Exchange) {
    a.key == b.key && a.sequence == b.sequence && a.exchangeId == b.exchangeId && a.transcriptHash == b.transcriptHash
  }

  predicate Within(a: Sides, b: Sides) {
    (a.initiator ==> b.initiator) && (a.responder ==> b.responder)
  }

  /** How one exchange may change: forward, or aborted before commitment, or terminated. */
  predicate Evolves(a: Exchange, b: Exchange) {
    a == b
    || (SameExchange(a, b) && a.Active() && a.receipts <= b.receipts
        && Within(a.decision.installed, b.decision.installed)
        && Within(a.decision.confirmed, b.decision.confirmed)
        && if b.decision.phase == Phase.Aborted
           then b.termination.Some? || a.decision.phase in {Phase.Proposed, Phase.Ready}
           else Rank(a.decision.phase) <= Rank(b.decision.phase))
  }

  predicate Supersedes(a: Exchange, b: Exchange) {
    a.sequence < b.sequence || Evolves(a, b)
  }

  lemma EvolvesTransitive(a: Exchange, b: Exchange, c: Exchange)
    requires Evolves(a, b) && Evolves(b, c)
    ensures Evolves(a, c)
  {
  }

  lemma SupersedesTransitive(a: Exchange, b: Exchange, c: Exchange)
    requires Supersedes(a, b) && Supersedes(b, c)
    ensures Supersedes(a, c)
  {
    if Evolves(a, b) && Evolves(b, c) {
      EvolvesTransitive(a, b, c);
    }
  }

  // ---------------------------------------------------------------- The log

  type History = map<RowKey, seq<Exchange>>

  datatype Log = Log(tables: Tables, history: History)

  function Recorded(history: History, before: map<RowKey, Exchange>, after: map<RowKey, Exchange>): History {
    map k | k in history.Keys + after.Keys ::
      var past := if k in history then history[k] else [];
      if k in after && (k !in before || before[k] != after[k]) then past + [after[k]] else past
  }

  function Logged(l: Log, after: Tables): Log {
    Log(after, Recorded(l.history, l.tables.exchanges, after.exchanges))
  }

  predicate Usable(s: Tables, peer: int, bundleId: B16) {
    peer in s.bundles && s.bundles[peer].lifecycle == Enabled && s.bundles[peer].bundle.bundleId == bundleId
  }

  predicate Owns(s: Tables, peer: int, bundleId: B16) {
    peer in s.bundles && s.bundles[peer].bundle.bundleId == bundleId
  }

  /** Versions of one row: each is well formed and supersedes every earlier one. */
  ghost predicate ChainOf(k: RowKey, versions: seq<Exchange>) {
    && (forall i :: 0 <= i < |versions| ==> RecordOk(k, versions[i]))
    && (forall i, j :: 0 <= i < j < |versions| ==> Supersedes(versions[i], versions[j]))
  }

  ghost predicate EndsWith(versions: seq<Exchange>, r: Exchange) {
    versions != [] && versions[|versions| - 1] == r
  }

  ghost predicate ChainInv(l: Log) {
    && (forall k :: k in l.history ==> ChainOf(k, l.history[k]))
    && (forall k :: k in l.tables.exchanges ==> k in l.history && EndsWith(l.history[k], l.tables.exchanges[k]))
  }

  ghost predicate BundlesKnown(s: Tables) {
    forall p :: p in s.bundles ==>
      p in s.directory.peers && s.directory.peers[p].isRedeemed && s.bundles[p].bundle.bundleId in s.bundleHistory
  }

  ghost predicate RowsPinned(s: Tables) {
    forall k :: k in s.exchanges ==>
      Owns(s, k.initiatorId, k.initiatorBundleId) && Owns(s, k.responderId, k.responderBundleId)
  }

  ghost predicate PastKnown(s: Tables, past: set<RowKey>) {
    forall k :: k in past ==> k.initiatorBundleId in s.bundleHistory && k.responderBundleId in s.bundleHistory
  }

  ghost predicate PastUnusable(s: Tables, past: set<RowKey>) {
    forall k :: k in past && k !in s.exchanges ==>
      !(Usable(s, k.initiatorId, k.initiatorBundleId) && Usable(s, k.responderId, k.responderBundleId))
  }

  /** A bundle identifier is registered once; rows are pinned to the current ones. */
  ghost predicate GenerationInv(s: Tables, past: set<RowKey>) {
    BundlesKnown(s) && RowsPinned(s) && PastKnown(s, past) && PastUnusable(s, past)
  }

  /** Once swept at the current visibility, every active pair is still allowed. */
  ghost predicate SweepInv(s: Tables) {
    && s.swept <= s.visibility
    && (s.swept == s.visibility ==>
          forall k :: k in s.exchanges && s.exchanges[k].Active() ==> PairAllowed(s.directory, k.initiatorId, k.responderId).Ok?)
  }

  ghost predicate LogInv(l: Log) {
    ChainInv(l) && GenerationInv(l.tables, l.history.Keys) && SweepInv(l.tables)
  }

  // ---------------------------------------------------------------- Runs

  datatype Event =
    | SubmitEvent(id: int, key: B32, other: int, message: Message, at: Moment)
    | RegisterEvent(id: int, key: B32, request: Registration, at: Moment)
    | SweepEvent(now: nat)
    | DirectoryEvent(directory: Directory)
    | DisableEvent(id: int)
    | AssociationEvent(visible: set<(int, int)>)
    | SwitchEvent(enabled: bool, managementReady: bool)

  /** Redeemed peers are never deleted and never lose their redemption. */
  predicate KeepsRedeemed(d: Directory, after: Directory) {
    forall p :: p in d.peers && d.peers[p].isRedeemed ==> p in after.peers && after.peers[p].isRedeemed
  }

  predicate Possible(s: Tables, e: Event) {
    e.DirectoryEvent? ==> KeepsRedeemed(s.directory, e.directory)
  }

  /** The writes inside a transaction are logged after the sweep that precedes them. */
  function LogSwept(l: Log, now: nat): Log {
    if now > MAX_NUMBER then l else Logged(l, Swept(l.tables, now))
  }

  function StepLog(l: Log, e: Event): Log {
    match e
    case SubmitEvent(id, key, other, m, at) => Logged(LogSwept(l, at.now), Submit(l.tables, id, key, other, m, at).0)
    case RegisterEvent(id, key, request, at) => Logged(LogSwept(l, at.now), Register(l.tables, id, key, request, at).0)
    case SweepEvent(now) => Logged(l, Sweep(l.tables, now).0)
    case DirectoryEvent(d) => Logged(l, WithDirectory(l.tables, d))
    case DisableEvent(id) => Logged(l, DisablePeer(l.tables, id).0)
    case AssociationEvent(visible) => Logged(l, DeleteAssociation(l.tables, visible))
    case SwitchEvent(enabled, managementReady) =>
      Logged(l, l.tables.(enabled := enabled, managementReady := managementReady))
  }

  function InitialLog(networkId: B16, d: Directory): Log {
    Log(Tables(networkId, d, 1, 0, false, false, map[], {}, map[]), map[])
  }

  // ---------------------------------------------------------------- Rows that evolve in place

  /** Same rows, each either untouched or a legal successor of itself. */
  ghost predicate EvolvesInPlace(before: map<RowKey, Exchange>, after: map<RowKey, Exchange>) {
    before.Keys == after.Keys
    && forall k :: k in before ==> Evolves(before[k], after[k]) && (RecordOk(k, before[k]) ==> RecordOk(k, after[k]))
  }

  lemma NothingEvolves(rows: map<RowKey, Exchange>)
    ensures EvolvesInPlace(rows, rows)
  {
  }

  lemma TerminateEvolves(k: RowKey, r: Exchange, reason: string)
    requires r.Active()
    ensures Evolves(r, r.Terminate(reason))
    ensures RecordOk(k, r) ==> RecordOk(k, r.Terminate(reason))
  {
  }

  lemma SweptRecordEvolves(k: RowKey, d: Directory, changed: bool, now: nat, r: Exchange)
    requires r.Active()
    ensures Evolves(r, SweptRecord(d, changed, now, r))
    ensures RecordOk(k, r) ==> RecordOk(k, SweptRecord(d, changed, now, r))
  {
  }

  lemma SweptEvolves(s: Tables, now: nat)
    ensures EvolvesInPlace(s.exchanges, Swept(s, now).exchanges)
  {
    var changed := s.visibility != s.swept;
    forall k | k in s.exchanges && VisitedBySweep(s.exchanges[k], changed, now)
      ensures var after := SweptRecord(s.directory, changed, now, s.exchanges[k]);
              Evolves(s.exchanges[k], after) && (RecordOk(k, s.exchanges[k]) ==> RecordOk(k, after))
    {
      SweptRecordEvolves(k, s.directory, changed, now, s.exchanges[k]);
    }
  }

  lemma TerminatedEvolves(s: Tables, id: int, reason: string)
    ensures EvolvesInPlace(s.exchanges, Terminated(s, id, reason).exchanges)
  {
    forall k | k in s.exchanges && s.exchanges[k].Active()
      ensures var after := s.exchanges[k].Terminate(reason);
              Evolves(s.exchanges[k], after) && (RecordOk(k, s.exchanges[k]) ==> RecordOk(k, after))
    {
      TerminateEvolves(k, s.exchanges[k], reason);
    }
  }

  /** Appending one version that the newest one allows keeps the chain of a row. */
  lemma ChainAppend(k: RowKey, versions: seq<Exchange>, r: Exchange)
    requires ChainOf(k, versions) && RecordOk(k, r)
    requires versions != [] ==> Supersedes(versions[|versions| - 1], r)
    ensures ChainOf(k, versions + [r])
  {
    hide RecordOk, Evolves;
    forall i | 0 <= i < |versions|
      ensures Supersedes(versions[i], r)
    {
      if i < |versions| - 1 {
        SupersedesTransitive(versions[i], versions[|versions| - 1], r);
      }
    }
  }

  /** What a row may become: a new row has no past, a kept row supersedes itself. */
  ghost predicate RowStep(l: Log, k: RowKey, r: Exchange) {
    RecordOk(k, r)
    && if k in l.tables.exchanges then Supersedes(l.tables.exchanges[k], r) else k !in l.history
  }

  lemma RowStepKeepsChain(l: Log, after: Tables, k: RowKey)
    requires ChainInv(l)
    requires k in after.exchanges ==> RowStep(l, k, after.exchanges[k])
    requires k in l.history || k in after.exchanges
    ensures var history := Recorded(l.history, l.tables.exchanges, after.exchanges);
            k in history && ChainOf(k, history[k]) && (k in after.exchanges ==> EndsWith(history[k], after.exchanges[k]))
  {
    hide RecordOk, Evolves, Supersedes;
    var past := if k in l.history then l.history[k] else [];
    if k in after.exchanges {
      ChainAppend(k, past, after.exchanges[k]);
    }
  }

  lemma ChainKept(l: Log, after: Tables)
    requires ChainInv(l)
    requires forall k :: k in after.exchanges ==> RowStep(l, k, after.exchanges[k])
    ensures ChainInv(Logged(l, after))
  {
    forall k | k in l.history || k in after.exchanges
      ensures var history := Recorded(l.history, l.tables.exchanges, after.exchanges);
              k in history && ChainOf(k, history[k]) && (k in after.exchanges ==> EndsWith(history[k], after.exchanges[k]))
    {
      RowStepKeepsChain(l, after, k);
    }
  }

  lemma CurrentRowOk(l: Log, k: RowKey)
    requires ChainInv(l) && k in l.tables.exchanges
    ensures RecordOk(k, l.tables.exchanges[k])
  {
    var versions := l.history[k];
    assert RecordOk(k, versions[|versions| - 1]);
  }

  lemma InPlaceKeepsChain(l: Log, after: Tables)
    requires ChainInv(l) && EvolvesInPlace(l.tables.exchanges, after.exchanges)
    ensures ChainInv(Logged(l, after))
  {
    forall k | k in after.exchanges
      ensures RowStep(l, k, after.exchanges[k])
    {
      CurrentRowOk(l, k);
    }
    ChainKept(l, after);
  }

  /** Rows may also evolve in place and then be dropped. */
  lemma DroppingKeepsChain(l: Log, rows: map<RowKey, Exchange>, after: Tables)
    requires ChainInv(l) && EvolvesInPlace(l.tables.exchanges, rows)
    requires forall k :: k in after.exchanges ==> k in rows && after.exchanges[k] == rows[k]
    ensures ChainInv(Logged(l, after))
  {
    hide ChainOf, RecordOk, Evolves;
    forall k | k in after.exchanges
      ensures RowStep(l, k, after.exchanges[k])
    {
      CurrentRowOk(l, k);
    }
    ChainKept(l, after);
  }

  /** Writing one legal next version of a row. */
  lemma WritingKeepsChain(l: Log, after: Tables, r: Exchange)
    requires ChainInv(l) && RowStep(l, r.key, r)
    requires after.exchanges == l.tables.exchanges[r.key := r]
    ensures ChainInv(Logged(l, after))
  {
    hide ChainOf, RecordOk;
    forall k | k in after.exchanges
      ensures RowStep(l, k, after.exchanges[k])
    {
      if k != r.key {
        CurrentRowOk(l, k);
      }
    }
    ChainKept(l, after);
  }

  lemma LoggedKeys(l: Log, after: Tables)
    ensures Logged(l, after).history.Keys == l.history.Keys + after.exchanges.Keys
  {
  }
}
