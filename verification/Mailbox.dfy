/**
  The transactional mailbox of the coordination server: what each database
  transaction does to the tables, as functions on a snapshot of them. Module
  MailboxServer holds the code that changes the tables in place.
*/
module Mailbox {
  import opened Results
  import opened Numbers
  import opened Protocol

  const PREPARE_TTL := 600

  // ---------------------------------------------------------------- Records

  /** The hash of a message's canonical JSON, as a term. */
  datatype BodyDigest = BodyDigest(message: Message)

  datatype MessageDigest = MessageDigest(senderId: Number, messageType: Byte, body: BodyDigest)

  function DigestOf(m: Message): MessageDigest {
    MessageDigest(m.header.senderId, m.header.messageType, BodyDigest(m))
  }

  /** The primary key of the exchange table. */
  datatype RowKey = RowKey(initiatorId: Number, responderId: Number, initiatorBundleId: B16, responderBundleId: B16) {
    predicate Involves(peer: int) {
      initiatorId == peer || responderId == peer
    }
    predicate Between(first: int, second: int) {
      initiatorId == Min(first, second) && responderId == Max(first, second)
    }
  }

  datatype Exchange = Exchange(
    networkId: B16,
    key: RowKey,
    sequence: Number,
    exchangeId: B16,
    transcriptHash: Digest,
    decision: Decision,
    createdAt: nat,
    prepareExpiresAt: nat,
    transcript: Option<Transcript>,
    messages: seq<Message>,
    receipts: seq<MessageDigest>,
    termination: Option<string>)
  {
    predicate Active() {
      !decision.Terminal()
    }

    function Compact(): Exchange {
      if decision.Terminal() then this.(transcript := None, messages := []) else this
    }

    /** Administrative invalidation, whatever the phase. */
    function Terminate(reason: string): Exchange {
      this.(decision := decision.(phase := Phase.Aborted), termination := Some(reason)).Compact()
    }
  }

  // ---------------------------------------------------------------- Directory

  datatype PeerRow = PeerRow(isServer: bool, isDisabled: bool, isRedeemed: bool, publicKey: B32)

  /**
    The peers, and the visibility relation that the CIDR tree and its associations
    give: (p, q) is in it when q is listed among the peers allowed to p.
  */
  datatype Directory = Directory(peers: map<Number, PeerRow>, visible: set<(int, int)>, cidrs: map<Number, string>)

  datatype Lifecycle = Enabled | Retired

  datatype AdvertisedBundle = AdvertisedBundle(pqVersion: nat, lifecycle: Lifecycle, bundle: Bundle)

  datatype Registration = Registration(
    expectedRevision: Option<Number>,
    pqVersion: nat,
    lifecycle: Lifecycle,
    bundle: Bundle,
    emergency: bool)

  datatype Limits = Limits(peerActive: nat, globalActive: nat, peerIds: nat, bundleIds: nat)

  datatype ServerError = Unauthorized | NotFound | InvalidQuery | Conflict | RateLimited | Unavailable | Pq(error: Error)

  type Served<+T> = Result<T, ServerError>

  /** The tables that the mailbox reads and writes. */
  datatype Tables = Tables(
    networkId: B16,
    directory: Directory,
    visibility: nat,
    swept: nat,
    enabled: bool,
    managementReady: bool,
    bundles: map<int, AdvertisedBundle>,
    bundleHistory: set<B16>,
    exchanges: map<RowKey, Exchange>)

  /** What the environment contributes to a write: clock, storage pressure and foreign key checks. */
  datatype Moment = Moment(now: nat, limits: Limits, roomOnDisk: bool, keysValid: bool)

  predicate ServerPeer(p: PeerRow) {
    p.isServer && !p.isDisabled && p.isRedeemed
  }

  predicate ServiceReady(s: Tables) {
    s.enabled && s.managementReady
    && |set p | p in s.directory.peers && ServerPeer(s.directory.peers[p])| == 1
  }

  function Caller(s: Tables, id: int, key: B32): Served<Unit> {
    if id !in s.directory.peers then Err(NotFound)
    else
      var peer := s.directory.peers[id];
      if peer.isDisabled || !peer.isRedeemed || peer.publicKey != key then Err(Unauthorized) else Ok(Unit)
  }

  function PairAllowed(d: Directory, first: int, second: int): Served<Unit> {
    if first <= 0 || second <= 0 || first == second then Err(Unauthorized)
    else if first !in d.peers then Err(NotFound)
    else if d.peers[first].isServer then Err(Unauthorized)
    else if second !in d.peers then Err(NotFound)
    else
      var a := d.peers[first];
      var b := d.peers[second];
      if b.isServer || a.isDisabled || b.isDisabled || !a.isRedeemed || !b.isRedeemed
         || (first, second) !in d.visible || (second, first) !in d.visible then
        Err(Unauthorized)
      else
        Ok(Unit)
  }

  function ActiveBundle(s: Tables, peer: int): Served<Bundle> {
    if peer !in s.bundles || s.bundles[peer].lifecycle != Enabled then Err(ServerError.Conflict)
    else if peer !in s.directory.peers then Err(NotFound)
    else if s.directory.peers[peer].publicKey != s.bundles[peer].bundle.wgPublicKey then Err(ServerError.Conflict)
    else Ok(s.bundles[peer].bundle)
  }

  /** `budget`: growth is refused when the disk reserve or a registry limit is reached. */
  predicate WithinBudget(s: Tables, at: Moment, newBundle: bool) {
    at.roomOnDisk
    && |s.directory.peers| <= at.limits.peerIds
    && |s.bundleHistory| <= at.limits.bundleIds
    && !(newBundle && |s.bundleHistory| == at.limits.bundleIds)
  }

  // ---------------------------------------------------------------- Sweep and termination

  /** What one visited record becomes; a record that stays active is not written back. */
  function SweptRecord(d: Directory, changed: bool, now: nat, r: Exchange): Exchange {
    var checked :=
      if changed && PairAllowed(d, r.key.initiatorId, r.key.responderId).Err?
      then r.(decision := r.decision.(phase := Phase.Aborted), termination := Some("revoked"))
      else r;
    var expired := if now >= checked.prepareExpiresAt then checked.(decision := checked.decision.Expire()) else checked;
    if expired.decision.Terminal() then expired.Compact() else r
  }

  predicate PrepareExpired(r: Exchange, now: nat) {
    (r.decision.phase == Phase.Proposed || r.decision.phase == Phase.Ready) && r.prepareExpiresAt <= now
  }

  predicate VisitedBySweep(r: Exchange, changed: bool, now: nat) {
    r.Active() && (changed || PrepareExpired(r, now))
  }

  function Swept(s: Tables, now: nat): Tables {
    var changed := s.visibility != s.swept;
    s.(exchanges := map k | k in s.exchanges ::
                      if VisitedBySweep(s.exchanges[k], changed, now)
                      then SweptRecord(s.directory, changed, now, s.exchanges[k])
                      else s.exchanges[k],
       swept := s.visibility)
  }

  function Terminated(s: Tables, id: int, reason: string): Tables {
    s.(exchanges := map k | k in s.exchanges ::
                      if s.exchanges[k].Active() && k.Involves(id)
                      then s.exchanges[k].Terminate(reason)
                      else s.exchanges[k])
  }

  // ---------------------------------------------------------------- Registration

  predicate ActiveInvolving(s: Tables, id: int) {
    exists k :: k in s.exchanges && s.exchanges[k].Active() && k.Involves(id)
  }

  /** Replace the caller's bundle row and drop the finished rows of its old generation. */
  function WithBundle(s: Tables, id: int, advertised: AdvertisedBundle): Tables {
    s.(bundles := s.bundles[id := advertised],
       visibility := s.visibility + 1,
       exchanges := map k | k in s.exchanges && !(k.Involves(id) && !s.exchanges[k].Active()) :: s.exchanges[k])
  }

  function RegisterInner(s: Tables, id: int, key: B32, request: Registration, at: Moment): Served<(Tables, AdvertisedBundle)> {
    if !ServiceReady(s) then Err(Unavailable)
    else
      var _ :- Caller(s, id, key);
      if s.directory.peers[id].isServer then Err(Unauthorized)
      else if !at.keysValid then Err(Pq(Invalid))
      else if request.pqVersion != 1 || (request.emergency && request.lifecycle != Retired)
              || key != request.bundle.wgPublicKey then Err(InvalidQuery)
      else
        var current := if id in s.bundles then Some(s.bundles[id]) else None;
        var desired := AdvertisedBundle(request.pqVersion, request.lifecycle, request.bundle);
        if request.expectedRevision.Some? && request.expectedRevision.value == MAX_NUMBER then Err(Pq(Invalid))
        else
          var next := if request.expectedRevision.None? then 1 else request.expectedRevision.value + 1;
          if request.bundle.bundleRevision != next then Err(ServerError.Conflict)
          else if current == Some(desired) then Ok((s, desired))
          else if (if current.None? then None else Some(current.value.bundle.bundleRevision)) != request.expectedRevision then
            Err(ServerError.Conflict)
          else if ActiveInvolving(s, id) && !(request.emergency && request.lifecycle == Retired) then Err(ServerError.Conflict)
          else match request.lifecycle
            case Enabled =>
              if !WithinBudget(s, at, true) then Err(RateLimited)
              else if (current.Some? && current.value.bundle.bundleId == request.bundle.bundleId)
                      || request.bundle.bundleId in s.bundleHistory then Err(ServerError.Conflict)
              else
                Ok((WithBundle(s.(bundleHistory := s.bundleHistory + {request.bundle.bundleId}), id, desired), desired))
            case Retired =>
              if current.None? || current.value.bundle.(bundleRevision := next) != request.bundle then Err(ServerError.Conflict)
              else Ok((WithBundle(Terminated(s, id, "retired"), id, desired), desired))
  }

  // ---------------------------------------------------------------- Phase messages

  /** The record to answer with, and whether it has to be written. */
  datatype Reply = Reply(record: Exchange, stored: bool)

  function ActiveCount(s: Tables, peer: Option<int>): nat {
    |set k | k in s.exchanges && s.exchanges[k].Active() && (peer.Some? ==> k.Involves(peer.value))|
  }

  /** A message for the exchange that the current bundle pair already has. */
  function SubmitExisting(record: Exchange, kind: Kind, initiator: bool, m: Message): Served<Reply> {
    if m.header.exchangeId != record.exchangeId || m.header.transcriptHash != record.transcriptHash then
      Err(ServerError.Conflict)
    else if DigestOf(m) in record.receipts then
      Ok(Reply(record, false))
    else if record.decision.Terminal()
            || exists r :: r in record.receipts && r.senderId == m.header.senderId && r.messageType == m.header.messageType then
      Err(ServerError.Conflict)
    else if record.transcript.None? then
      Err(Unavailable)
    else
      match m.Authenticate(record.transcript.value)
      case Err(e) => Err(Pq(e))
      case Ok(_) =>
        match record.decision.Advance(kind, initiator)
        case Err(e) => Err(Pq(e))
        case Ok(decision) =>
          Ok(Reply(record.(decision := decision, messages := record.messages + [m],
                           receipts := record.receipts + [DigestOf(m)]).Compact(), true))
  }

  function ProposedTranscript(s: Tables, first: Bundle, second: Bundle, m: Message): Transcript
    requires m.ciphertext.Some? && m.operatorPskId.Some?
  {
    Transcript(s.networkId, m.header.initiatorId, m.header.responderId, first, second, m.header.sequence,
               m.header.exchangeId, m.operatorPskId.value, m.ciphertext.value)
  }

  /** A proposal that opens a new exchange for the pair. */
  function SubmitProposal(s: Tables, id: int, other: int, key: RowKey, first: Bundle, second: Bundle, m: Message, at: Moment): Served<Reply>
  {
    if !WithinBudget(s, at, false) then Err(RateLimited)
    else if ActiveCount(s, Some(id)) >= at.limits.peerActive || ActiveCount(s, Some(other)) >= at.limits.peerActive
            || ActiveCount(s, None) >= at.limits.globalActive then Err(RateLimited)
    else if m.operatorPskId.None? || m.ciphertext.None? then Err(InvalidQuery)
    else
      var t := ProposedTranscript(s, first, second, m);
      if t.initiatorId >= t.responderId || !at.keysValid then Err(Pq(Invalid))
      else
        match m.Authenticate(t)
        case Err(e) => Err(Pq(e))
        case Ok(_) =>
          if at.now + PREPARE_TTL > MAX_NUMBER then Err(InvalidQuery)
          else
            Ok(Reply(Exchange(t.networkId, key, t.sequence, t.exchangeId, Sha3(t), START, at.now, at.now + PREPARE_TTL,
                              Some(t), [m], [DigestOf(m)], None), true))
  }

  function SubmitInner(s: Tables, id: int, key: B32, other: int, m: Message, at: Moment): Served<Reply> {
    if !ServiceReady(s) then Err(Unavailable)
    else
      var _ :- Caller(s, id, key);
      var _ :- PairAllowed(s.directory, id, other);
      match m.ValidateShape()
      case Err(e) => Err(Pq(e))
      case Ok(kind) =>
        if m.header.senderId != id || m.header.initiatorId != Min(id, other) || m.header.responderId != Max(id, other) then
          Err(Unauthorized)
        else
          var first :- ActiveBundle(s, Min(id, other));
          var second :- ActiveBundle(s, Max(id, other));
          if m.header.networkId != s.networkId || m.header.initiatorBundleId != first.bundleId
             || m.header.responderBundleId != second.bundleId then
            Err(ServerError.Conflict)
          else
            var row := RowKey(m.header.initiatorId, m.header.responderId, first.bundleId, second.bundleId);
            if row in s.exchanges && m.header.sequence < s.exchanges[row].sequence then
              Err(ServerError.Conflict)
            else if row in s.exchanges && m.header.sequence == s.exchanges[row].sequence then
              SubmitExisting(s.exchanges[row], kind, id < other, m)
            else if kind != Kind.Propose
                    || exists k :: k in s.exchanges && k.Between(id, other) && s.exchanges[k].Active() then
              Err(ServerError.Conflict)
            else
              SubmitProposal(s, id, other, row, first, second, m, at)
  }

  // ---------------------------------------------------------------- Transactions

  /**
    Expiry and revocation commit together with the write, but a refused write
    rolls back to after the sweep.
  */
  function Submit(s: Tables, id: int, key: B32, other: int, m: Message, at: Moment): (Tables, Served<Exchange>) {
    if at.now > MAX_NUMBER then (s, Err(Unavailable))
    else
      var swept := Swept(s, at.now);
      match SubmitInner(swept, id, key, other, m, at)
      case Err(e) => (swept, Err(e))
      case Ok(reply) =>
        (if reply.stored then swept.(exchanges := swept.exchanges[reply.record.key := reply.record]) else swept,
         Ok(reply.record))
  }

  function Register(s: Tables, id: int, key: B32, request: Registration, at: Moment): (Tables, Served<AdvertisedBundle>) {
    if at.now > MAX_NUMBER then (s, Err(Unavailable))
    else
      var swept := Swept(s, at.now);
      match RegisterInner(swept, id, key, request, at)
      case Err(e) => (swept, Err(e))
      case Ok((after, advertised)) => (after, Ok(advertised))
  }

  function Sweep(s: Tables, now: nat): (Tables, Served<Unit>) {
    if now > MAX_NUMBER then (s, Err(Unavailable)) else (Swept(s, now), Ok(Unit))
  }

  /** Any statement on peers, CIDRs or associations; its trigger bumps the visibility revision. */
  function WithDirectory(s: Tables, d: Directory): Tables {
    s.(directory := d, visibility := s.visibility + 1)
  }

  /** Disabling a peer and terminating its work are one transaction. */
  function DisablePeer(s: Tables, id: int): (Tables, Served<Unit>) {
    if id !in s.directory.peers then (s, Err(NotFound))
    else
      var peers := s.directory.peers[id := s.directory.peers[id].(isDisabled := true)];
      (Terminated(WithDirectory(s, s.directory.(peers := peers)), id, "disabled"), Ok(Unit))
  }

  /** Removing an association and sweeping what it allowed are one transaction. */
  function DeleteAssociation(s: Tables, visible: set<(int, int)>): Tables {
    Swept(WithDirectory(s, s.directory.(visible := visible)), 0)
  }
}
