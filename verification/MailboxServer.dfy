/**
  The mailbox as the server runs it: rows changed in place inside transactions. Each
  method is proved against the function of module Mailbox that says what its
  transaction does to a snapshot of the tables.
*/
module MailboxServer {
  import opened Results
  import opened Numbers
  import opened Protocol
  import opened Mailbox

  class Server {
    const networkId: B16
    var directory: Directory
    var visibility: nat
    var swept: nat
    var enabled: bool
    var managementReady: bool
    var bundles: map<int, AdvertisedBundle>
    var bundleHistory: set<B16>
    var exchanges: map<RowKey, Exchange>

    function Snapshot(): Tables
      reads this
    {
      Tables(networkId, directory, visibility, swept, enabled, managementReady, bundles, bundleHistory, exchanges)
    }

    /** Every row is stored under the key that its record names. */
    ghost predicate Valid()
      reads this
    {
      forall k :: k in exchanges ==> exchanges[k].key == k
    }

    constructor (networkId: B16, directory: Directory)
      ensures Valid()
      ensures Snapshot() == Tables(networkId, directory, 1, 0, false, false, map[], {}, map[])
    {
      this.networkId := networkId;
      this.directory := directory;
      visibility, swept := 1, 0;
      enabled, managementReady := false, false;
      bundles, bundleHistory, exchanges := map[], {}, map[];
    }

    /** The upsert of one record under its primary key. */
    method Save(record: Exchange)
      requires Valid()
      modifies this`exchanges
      ensures Valid() && exchanges == old(exchanges)[record.key := record]
    {
      exchanges := exchanges[record.key := record];
    }

    // ---------------------------------------------------------------- Visiting rows

    /** A row is reread, revoked or expired, and written back only if that ended it. */
    method SweepRecord(k: RowKey, changed: bool, now: nat)
      requires Valid() && k in exchanges
      modifies this`exchanges
      ensures Valid() && exchanges == old(exchanges)[k := SweptRecord(directory, changed, now, old(exchanges[k]))]
    {
      var record := exchanges[k];
      if changed {
        var allowed := PairAllowed(directory, record.key.initiatorId, record.key.responderId);
        if allowed.Err? {
          record := record.(decision := record.decision.(phase := Phase.Aborted), termination := Some("revoked"));
        }
      }
      if now >= record.prepareExpiresAt {
        record := record.(decision := record.decision.Expire());
      }
      if record.decision.Terminal() {
        record := record.Compact();
        Save(record);
      }
    }

    /** The due keys are collected first; then each row is swept, in any order. */
    method SweepDue(changed: bool, now: nat)
      requires Valid() && changed == (visibility != swept)
      modifies this`exchanges
      ensures Valid() && exchanges == Swept(old(Snapshot()), now).exchanges
    {
      hide SweptRecord, VisitedBySweep;
      ghost var before := exchanges;
      var visited := set k | k in exchanges && VisitedBySweep(exchanges[k], changed, now);
      var keys := visited;
      while keys != {}
        invariant Valid() && keys <= visited && exchanges.Keys == before.Keys
        invariant forall k :: k in before ==>
          exchanges[k] == if k in visited && k !in keys then SweptRecord(directory, changed, now, before[k]) else before[k]
        decreases |keys|
      {
        var k :| k in keys;
        keys := keys - {k};
        SweepRecord(k, changed, now);
      }
      assert exchanges == Swept(old(Snapshot()), now).exchanges;
    }

    method SweepInner(now: nat)
      requires Valid()
      modifies this`exchanges, this`swept
      ensures Valid() && Snapshot() == Swept(old(Snapshot()), now)
    {
      var changed := visibility != swept;
      SweepDue(changed, now);
      if changed {
        swept := visibility;
      }
    }

    method TerminateRecord(k: RowKey, reason: string)
      requires Valid() && k in exchanges
      modifies this`exchanges
      ensures Valid() && exchanges == old(exchanges)[k := old(exchanges[k]).Terminate(reason)]
    {
      var record := exchanges[k];
      record := record.(decision := record.decision.(phase := Phase.Aborted));
      record := record.(termination := Some(reason));
      record := record.Compact();
      Save(record);
    }

    method TerminatePeer(id: int, reason: string)
      requires Valid()
      modifies this`exchanges
      ensures Valid() && Snapshot() == Terminated(old(Snapshot()), id, reason)
    {
      hide Exchange.Terminate, Exchange.Active, RowKey.Involves;
      ghost var before := exchanges;
      var visited := set k | k in exchanges && exchanges[k].Active() && k.Involves(id);
      var keys := visited;
      while keys != {}
        invariant Valid() && keys <= visited && exchanges.Keys == before.Keys
        invariant forall k :: k in before ==>
          exchanges[k] == if k in visited && k !in keys then before[k].Terminate(reason) else before[k]
        decreases |keys|
      {
        var k :| k in keys;
        keys := keys - {k};
        TerminateRecord(k, reason);
      }
      assert exchanges == Terminated(old(Snapshot()), id, reason).exchanges;
    }

    // ---------------------------------------------------------------- Phase messages

    /** Accept a further message on a record that is already there. */
    method Accept(record: Exchange, kind: Kind, initiator: bool, m: Message) returns (result: Served<Exchange>)
      requires Valid() && record.key in exchanges && exchanges[record.key] == record
      modifies this`exchanges
      ensures Valid()
      ensures match SubmitExisting(record, kind, initiator, m)
              case Err(e) => result == Err(e) && exchanges == old(exchanges)
              case Ok(reply) =>
                result == Ok(reply.record)
                && exchanges == if reply.stored then old(exchanges)[reply.record.key := reply.record] else old(exchanges)
    {
      if m.header.exchangeId != record.exchangeId || m.header.transcriptHash != record.transcriptHash {
        return Err(ServerError.Conflict);
      }
      var digest := DigestOf(m);
      if digest in record.receipts {
        return Ok(record);
      }
      if record.decision.Terminal()
         || exists r :: r in record.receipts && r.senderId == m.header.senderId && r.messageType == m.header.messageType {
        return Err(ServerError.Conflict);
      }
      if record.transcript.None? {
        return Err(Unavailable);
      }
      var authentic := m.Authenticate(record.transcript.value);
      if authentic.Err? {
        return Err(Pq(authentic.error));
      }
      var advanced := record.decision.Advance(kind, initiator);
      if advanced.Err? {
        return Err(Pq(advanced.error));
      }
      var grown := record.(decision := advanced.value);
      grown := grown.(messages := grown.messages + [m]);
      grown := grown.(receipts := grown.receipts + [digest]);
      grown := grown.Compact();
      Save(grown);
      return Ok(grown);
    }

    /** A proposal opens an exchange if there is room for it, for both peers and in all. */
    method OpenExchange(id: int, other: int, row: RowKey, first: Bundle, second: Bundle, m: Message, at: Moment)
      returns (result: Served<Exchange>)
      requires Valid()
      modifies this`exchanges
      ensures Valid()
      ensures match SubmitProposal(old(Snapshot()), id, other, row, first, second, m, at)
              case Err(e) => result == Err(e) && Snapshot() == old(Snapshot())
              case Ok(reply) =>
                reply.stored && result == Ok(reply.record)
                && Snapshot() == old(Snapshot()).(exchanges := old(exchanges)[reply.record.key := reply.record])
    {
      hide WithinBudget, ActiveCount, Message.Authenticate;
      var s := Snapshot();
      if !WithinBudget(s, at, false) { return Err(RateLimited); }
      var global := ActiveCount(s, None);
      var peers := [id, other];
      for i := 0 to |peers|
        invariant i > 0 ==> ActiveCount(s, Some(id)) < at.limits.peerActive && global < at.limits.globalActive
        invariant i > 1 ==> ActiveCount(s, Some(other)) < at.limits.peerActive
      {
        var count := ActiveCount(s, Some(peers[i]));
        if count >= at.limits.peerActive || global >= at.limits.globalActive { return Err(RateLimited); }
      }
      if m.operatorPskId.None? { return Err(InvalidQuery); }
      if m.ciphertext.None? { return Err(InvalidQuery); }
      var t := Transcript(networkId, m.header.initiatorId, m.header.responderId, first, second, m.header.sequence,
                          m.header.exchangeId, m.operatorPskId.value, m.ciphertext.value);
      if t.initiatorId >= t.responderId || !at.keysValid { return Err(Pq(Invalid)); }
      var authentic := m.Authenticate(t);
      if authentic.Err? { return Err(Pq(authentic.error)); }
      if at.now + PREPARE_TTL > MAX_NUMBER { return Err(InvalidQuery); }
      var record := Exchange(t.networkId, row, t.sequence, t.exchangeId, Sha3(t), START, at.now, at.now + PREPARE_TTL,
                             Some(t), [m], [DigestOf(m)], None);
      Save(record);
      return Ok(record);
    }

    method SubmitInner(id: int, key: B32, other: int, m: Message, at: Moment) returns (result: Served<Exchange>)
      requires Valid()
      modifies this`exchanges
      ensures Valid()
      ensures match Mailbox.SubmitInner(old(Snapshot()), id, key, other, m, at)
              case Err(e) => result == Err(e) && Snapshot() == old(Snapshot())
              case Ok(reply) =>
                result == Ok(reply.record)
                && Snapshot() == if reply.stored then old(Snapshot()).(exchanges := old(exchanges)[reply.record.key := reply.record])
                                 else old(Snapshot())
    {
      hide PairAllowed, ServiceReady, Caller, ActiveBundle, SubmitProposal, SubmitExisting, Message.ValidateShape;
      var s := Snapshot();
      if !ServiceReady(s) { return Err(Unavailable); }
      var known := Caller(s, id, key);
      if known.Err? { return Err(known.error); }
      var allowed := PairAllowed(directory, id, other);
      if allowed.Err? { return Err(allowed.error); }
      var shape := m.ValidateShape();
      if shape.Err? { return Err(Pq(shape.error)); }
      if m.header.senderId != id || m.header.initiatorId != Min(id, other) || m.header.responderId != Max(id, other) {
        return Err(Unauthorized);
      }
      var first := ActiveBundle(s, Min(id, other));
      if first.Err? { return Err(first.error); }
      var second := ActiveBundle(s, Max(id, other));
      if second.Err? { return Err(second.error); }
      if m.header.networkId != networkId || m.header.initiatorBundleId != first.value.bundleId
         || m.header.responderBundleId != second.value.bundleId {
        return Err(ServerError.Conflict);
      }
      var row := RowKey(m.header.initiatorId, m.header.responderId, first.value.bundleId, second.value.bundleId);
      if row in exchanges {
        var record := exchanges[row];
        if m.header.sequence < record.sequence { return Err(ServerError.Conflict); }
        if m.header.sequence == record.sequence {
          result := Accept(record, shape.value, id < other, m);
          return;
        }
      }
      if shape.value != Kind.Propose || exists k :: k in exchanges && k.Between(id, other) && exchanges[k].Active() {
        return Err(ServerError.Conflict);
      }
      result := OpenExchange(id, other, row, first.value, second.value, m, at);
    }

    // ---------------------------------------------------------------- Registration

    /** The upsert of a bundle row, and the deletion of the finished rows of older generations. */
    method ReplaceBundle(id: int, advertised: AdvertisedBundle)
      requires Valid()
      modifies this`exchanges, this`bundles, this`visibility
      ensures Valid() && Snapshot() == WithBundle(old(Snapshot()), id, advertised)
    {
      bundles := bundles[id := advertised];
      visibility := visibility + 1;
      exchanges := map k | k in exchanges && !(k.Involves(id) && !exchanges[k].Active()) :: exchanges[k];
    }

    method RegisterInner(id: int, key: B32, request: Registration, at: Moment) returns (result: Served<AdvertisedBundle>)
      requires Valid()
      modifies this`exchanges, this`bundles, this`bundleHistory, this`visibility
      ensures Valid()
      ensures match Mailbox.RegisterInner(old(Snapshot()), id, key, request, at)
              case Err(e) => result == Err(e) && Snapshot() == old(Snapshot())
              case Ok((after, advertised)) => result == Ok(advertised) && Snapshot() == after
    {
      hide ServiceReady, ActiveInvolving, WithinBudget, Terminated, WithBundle;
      var s := Snapshot();
      if !ServiceReady(s) { return Err(Unavailable); }
      var known := Caller(s, id, key);
      if known.Err? { return Err(known.error); }
      if directory.peers[id].isServer { return Err(Unauthorized); }
      var current := if id in bundles then Some(bundles[id]) else None;
      var desired := AdvertisedBundle(request.pqVersion, request.lifecycle, request.bundle);
      if !at.keysValid { return Err(Pq(Invalid)); }
      if request.pqVersion != 1 || (request.emergency && request.lifecycle != Retired) || key != request.bundle.wgPublicKey {
        return Err(InvalidQuery);
      }
      if request.expectedRevision.Some? && request.expectedRevision.value == MAX_NUMBER { return Err(Pq(Invalid)); }
      var next := if request.expectedRevision.None? then 1 else request.expectedRevision.value + 1;
      if request.bundle.bundleRevision != next { return Err(ServerError.Conflict); }
      if current == Some(desired) { return Ok(desired); }
      var revision := if current.None? then None else Some(current.value.bundle.bundleRevision);
      if revision != request.expectedRevision { return Err(ServerError.Conflict); }
      if ActiveInvolving(s, id) && !(request.emergency && request.lifecycle == Retired) { return Err(ServerError.Conflict); }
      match request.lifecycle {
        case Enabled =>
          if !WithinBudget(s, at, true) { return Err(RateLimited); }
          if current.Some? && current.value.bundle.bundleId == request.bundle.bundleId { return Err(ServerError.Conflict); }
          if request.bundle.bundleId in bundleHistory { return Err(ServerError.Conflict); }
          bundleHistory := bundleHistory + {request.bundle.bundleId};
        case Retired =>
          if current.None? { return Err(ServerError.Conflict); }
          if current.value.bundle.(bundleRevision := next) != request.bundle { return Err(ServerError.Conflict); }
          TerminatePeer(id, "retired");
      }
      ReplaceBundle(id, desired);
      return Ok(desired);
    }

    // ---------------------------------------------------------------- Transactions

    /** Sweep, then the write, which leaves nothing behind if it is refused. */
    method Submit(id: int, key: B32, other: int, m: Message, at: Moment) returns (result: Served<Exchange>)
      requires Valid()
      modifies this
      ensures Valid()
      ensures (Snapshot(), result) == Mailbox.Submit(old(Snapshot()), id, key, other, m, at)
    {
      if at.now > MAX_NUMBER { return Err(Unavailable); }
      SweepInner(at.now);
      result := SubmitInner(id, key, other, m, at);
    }

    method Register(id: int, key: B32, request: Registration, at: Moment) returns (result: Served<AdvertisedBundle>)
      requires Valid()
      modifies this
      ensures Valid()
      ensures (Snapshot(), result) == Mailbox.Register(old(Snapshot()), id, key, request, at)
    {
      if at.now > MAX_NUMBER { return Err(Unavailable); }
      SweepInner(at.now);
      result := RegisterInner(id, key, request, at);
    }

    method Sweep(now: nat) returns (result: Served<Unit>)
      requires Valid()
      modifies this
      ensures Valid()
      ensures (Snapshot(), result) == Mailbox.Sweep(old(Snapshot()), now)
    {
      if now > MAX_NUMBER { return Err(Unavailable); }
      SweepInner(now);
      return Ok(Unit);
    }

    /** Disabling a peer and ending its exchanges are one transaction. */
    method DisablePeer(id: int) returns (result: Served<Unit>)
      requires Valid()
      modifies this
      ensures Valid()
      ensures (Snapshot(), result) == Mailbox.DisablePeer(old(Snapshot()), id)
    {
      if id !in directory.peers { return Err(NotFound); }
      directory := directory.(peers := directory.peers[id := directory.peers[id].(isDisabled := true)]);
      visibility := visibility + 1;
      TerminatePeer(id, "disabled");
      return Ok(Unit);
    }

    /** Removing an association and sweeping what it allowed are one transaction. */
    method DeleteAssociation(visible: set<(int, int)>)
      requires Valid()
      modifies this
      ensures Valid()
      ensures Snapshot() == Mailbox.DeleteAssociation(old(Snapshot()), visible)
    {
      directory := directory.(visible := visible);
      visibility := visibility + 1;
      SweepInner(0);
    }
  }
}
