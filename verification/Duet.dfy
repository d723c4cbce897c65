/**
  One exchange with nobody in the way: both sides eligible, an installer that
  succeeds, no sweep, and calls that read the current record. A message that is
  sent may be lost, or its reply may be lost.
*/
module Duet {
  import opened Results
  import opened Protocol
  import opened Mailbox
  import opened MailboxHistory
  import opened Engine
  import opened EngineFacts
  import opened ReplayFacts
  import opened Simulation

  /** The fixed facts of the exchange. */
  datatype Scene = Scene(initiator: Identity, responder: Identity, t: Transcript, operatorPsk: B32) {
    predicate Valid() {
      && initiator.peerId < responder.peerId
      && t.initiatorId == initiator.peerId && t.responderId == responder.peerId
      && t.networkId == initiator.networkId == responder.networkId
      && t.initiator == initiator.bundle && t.responder == responder.bundle
      && initiator.enrollment != Enrollment.Retiring && responder.enrollment != Enrollment.Retiring
    }
    function Self(side: bool): Identity {
      if side then initiator else responder
    }
    function Candidate(): Candidate {
      CandidateFor(t, operatorPsk)
    }
    function Key(): RowKey {
      RowKey(t.initiatorId, t.responderId, t.initiator.bundleId, t.responder.bundleId)
    }
  }

  datatype State = State(record: Option<Exchange>, initiator: Relationship, responder: Relationship) {
    function At(side: bool): Relationship {
      if side then initiator else responder
    }
    function Put(side: bool, r: Relationship): State {
      if side then this.(initiator := r) else this.(responder := r)
    }
  }

  // ---------------------------------------------------------------- Delivery

  function OpeningRecord(sc: Scene, m: Message, now: nat): Exchange {
    Exchange(sc.t.networkId, sc.Key(), sc.t.sequence, sc.t.exchangeId, Sha3(sc.t), START, now, now + PREPARE_TTL,
             Some(sc.t), [m], [DigestOf(m)], None)
  }

  /** What a message that reaches the server does to the record of the pair. */
  function Deliver(sc: Scene, record: Option<Exchange>, side: bool, m: Message, now: nat): Option<Exchange> {
    if m.ValidateShape().Err? then record
    else if record.Some? && m.header.sequence < record.value.sequence then record
    else if record.Some? && m.header.sequence == record.value.sequence then
      match SubmitExisting(record.value, m.ValidateShape().value, side, m)
      case Err(_) => record
      case Ok(reply) => Some(reply.record)
    else if m.ValidateShape().value != Kind.Propose || (record.Some? && record.value.Active()) || m.Authenticate(sc.t).Err? then record
    else Some(OpeningRecord(sc, m, now))
  }

  /** The pair's row holds this exchange already, or a later one. */
  predicate Stored(sc: Scene, s: Tables) {
    sc.Key() in s.exchanges && s.exchanges[sc.Key()].sequence >= sc.t.sequence
  }

  /** The server would open an exchange for this pair at this time. */
  predicate HasRoom(sc: Scene, s: Tables, at: Moment) {
    && at.now + PREPARE_TTL <= MAX_NUMBER && WithinBudget(s, at, false) && at.keysValid
    && ActiveCount(s, Some(sc.t.initiatorId)) < at.limits.peerActive && ActiveCount(s, Some(sc.t.responderId)) < at.limits.peerActive
    && ActiveCount(s, None) < at.limits.globalActive
    && (forall k :: k in s.exchanges && k != sc.Key() && k.Between(sc.t.initiatorId, sc.t.responderId) ==> !s.exchanges[k].Active())
  }

  function RowOf(s: Tables, k: RowKey): Option<Exchange> {
    if k in s.exchanges then Some(s.exchanges[k]) else None
  }

  /**
    These tables, once swept, let the pair exchange messages. They need room for a new
    exchange only until they hold this one.
  */
  predicate Admits(sc: Scene, s: Tables, at: Moment) {
    && ServiceReady(s) && s.networkId == sc.t.networkId
    && (forall side: bool :: var id := SideId(sc.t, side);
          && Caller(s, id, SideBundle(sc.t, side).wgPublicKey).Ok?
          && ActiveBundle(s, id) == Ok(SideBundle(sc.t, side))
          && PairAllowed(s.directory, id, SideId(sc.t, !side)).Ok?)
    && (!Stored(sc, s) ==> HasRoom(sc, s, at))
  }

  /** The server takes messages of this pair at this time, and sweeping leaves the pair's row alone. */
  predicate Open(sc: Scene, s: Tables, at: Moment) {
    at.now <= MAX_NUMBER && RowOf(Swept(s, at.now), sc.Key()) == RowOf(s, sc.Key()) && Admits(sc, Swept(s, at.now), at)
  }

  /** A mailbox transaction does to the row of the pair what `Deliver` says, and to other rows only what the sweep does. */
  lemma SubmitDelivers(sc: Scene, s: Tables, at: Moment, side: bool, m: Message)
    requires sc.Valid() && Open(sc, s, at)
    requires sc.Key() in s.exchanges ==> s.exchanges[sc.Key()].key == sc.Key()
    requires m.ValidateShape().Ok? && m.header == HeaderFor(sc.t, m.ValidateShape().value, SideId(sc.t, side))
    requires m.ciphertext.Some? ==> m.ciphertext.value == sc.t.ciphertext
    requires m.operatorPskId.Some? ==> m.operatorPskId.value == sc.t.operatorPskId
    ensures var after := Submit(s, SideId(sc.t, side), SideBundle(sc.t, side).wgPublicKey, SideId(sc.t, !side), m, at).0;
            RowOf(after, sc.Key()) == Deliver(sc, RowOf(s, sc.Key()), side, m, at.now)
            && forall k :: k != sc.Key() ==> RowOf(after, k) == RowOf(Swept(s, at.now), k)
  {
    SubmitInOpen(sc, Swept(s, at.now), at, side, m);
    if sc.Key() in s.exchanges {
      ExistingKeepsKey(s.exchanges[sc.Key()], m.ValidateShape().value, side, m);
    }
    hide SubmitInner, SubmitExisting, Admits, Caller, Swept, SideBundle, HeaderFor, ServiceReady, ActiveBundle, PairAllowed, WithinBudget, ActiveCount, Message.Authenticate, Message.ValidateShape;
  }

  lemma ExistingKeepsKey(r: Exchange, kind: Kind, initiator: bool, m: Message)
    ensures var reply := SubmitExisting(r, kind, initiator, m);
            reply.Ok? ==> reply.value.record.key == r.key && (!reply.value.stored ==> reply.value.record == r)
  {
    hide Message.Authenticate, Decision.Advance;
  }

  lemma SubmitInOpen(sc: Scene, s: Tables, at: Moment, side: bool, m: Message)
    requires sc.Valid() && Admits(sc, s, at)
    requires sc.Key() in s.exchanges ==> s.exchanges[sc.Key()].key == sc.Key()
    requires m.ValidateShape().Ok? && m.header == HeaderFor(sc.t, m.ValidateShape().value, SideId(sc.t, side))
    requires m.ciphertext.Some? ==> m.ciphertext.value == sc.t.ciphertext
    requires m.operatorPskId.Some? ==> m.operatorPskId.value == sc.t.operatorPskId
    ensures var inner := SubmitInner(s, SideId(sc.t, side), SideBundle(sc.t, side).wgPublicKey, SideId(sc.t, !side), m, at);
            var kind, row := m.ValidateShape().value, sc.Key();
            if row in s.exchanges && m.header.sequence < s.exchanges[row].sequence then inner.Err?
            else if row in s.exchanges && m.header.sequence == s.exchanges[row].sequence then
              inner == SubmitExisting(s.exchanges[row], kind, side, m)
            else if kind != Kind.Propose || (row in s.exchanges && s.exchanges[row].Active()) || m.Authenticate(sc.t).Err? then inner.Err?
            else inner == Ok(Reply(OpeningRecord(sc, m, at.now), true))
  {
  }

  // ---------------------------------------------------------------- Messages of the scene

  lemma LineIsAuthentic(t: Transcript, side: bool, candidate: Candidate, kind: Kind)
    requires t.initiatorId < t.responderId && kind in ScriptKinds(side)
    ensures var m := Line(t, side, candidate, kind);
            && m.ValidateShape() == Ok(kind) && m.Authenticate(t).Ok? && m.Confirm(candidate).Ok?
            && m.header.senderId == SideId(t, side) && m.header == HeaderFor(t, kind, SideId(t, side))
            && (m.ciphertext.Some? ==> m.ciphertext.value == t.ciphertext)
            && (m.operatorPskId.Some? ==> m.operatorPskId.value == t.operatorPskId)
  {
  }

  predicate IsLine(t: Transcript, candidate: Candidate, m: Message) {
    exists s: bool :: m in Script(t, s, candidate)
  }

  lemma LineKind(t: Transcript, candidate: Candidate, m: Message) returns (side: bool, kind: Kind)
    requires t.initiatorId < t.responderId && IsLine(t, candidate, m)
    ensures kind in ScriptKinds(side) && m == Line(t, side, candidate, kind)
    ensures m.ValidateShape() == Ok(kind) && m.Authenticate(t).Ok? && m.Confirm(candidate).Ok?
    ensures m.header.senderId == SideId(t, side) && m.header.messageType == kind.Code()
    ensures (m.header.senderId == t.initiatorId) == side
  {
    side :| m in Script(t, side, candidate);
    kind :| kind in ScriptKinds(side) && m == Line(t, side, candidate, kind);
    LineIsAuthentic(t, side, candidate, kind);
  }

  // ---------------------------------------------------------------- The record of the scene

  predicate Current(sc: Scene, record: Option<Exchange>) {
    record.Some? && record.value.exchangeId == sc.t.exchangeId && record.value.sequence == sc.t.sequence
  }

  /** The record is this exchange's, or an older one that is finished. */
  ghost predicate RecordInv(sc: Scene, record: Option<Exchange>) {
    if Current(sc, record) then
      var e := record.value;
      && RecordOk(sc.Key(), e) && e.transcriptHash == Sha3(sc.t)
      && e.decision.phase != Phase.Aborted
      && forall d :: d in e.receipts ==> IsLine(sc.t, sc.Candidate(), d.body.message)
    else
      record.Some? ==> !record.value.Active() && record.value.sequence < sc.t.sequence
  }

  predicate Carried(sc: Scene, record: Option<Exchange>, s: bool, kind: Kind) {
    Current(sc, record) && Carries(record.value.receipts, sc.Key(), s, kind)
  }

  /** A decision that some run of the machine without an abort reaches. */
  predicate Sound(d: Decision) {
    OrderedFlags(d) && (d.phase == Phase.Complete <==> d.confirmed == BOTH) && d.phase != Phase.Aborted
  }

  lemma AdvanceKeepsSound(d: Decision, kind: Kind, sender: bool)
    requires Sound(d) && d.Advance(kind, sender).Ok? && kind != Kind.Abort
    ensures Sound(d.Advance(kind, sender).value)
  {
  }

  /** A decision that is further along either takes the same step or has taken it already. */
  lemma FurtherAdvances(d: Decision, e: Decision, kind: Kind, sender: bool)
    requires d.Advance(kind, sender).Ok? && kind != Kind.Abort && Sound(e)
    requires forall s: bool, k :: Demands(d, s, k) ==> Demands(e, s, k)
    ensures e.Advance(kind, sender).Ok? || Demands(e, sender, kind)
  {
    DemandMet(d, e, false, Kind.Ready);
    DemandMet(d, e, true, Kind.Commit);
    DemandMet(d, e, false, Kind.Installed);
    DemandMet(d, e, true, Kind.Installed);
  }

  lemma {:induction false} ReplayPrefix(receipts: seq<MessageDigest>, k: RowKey, n: nat)
    requires Replay(receipts, k).Ok? && 1 <= n <= |receipts|
    ensures Replay(receipts[..n], k).Ok?
  {
    if n < |receipts| {
      ReplayPrefix(receipts[..|receipts| - 1], k, n);
      assert receipts[..|receipts| - 1][..n] == receipts[..n];
    } else {
      assert receipts[..n] == receipts;
    }
  }

  lemma ReplayLast(receipts: seq<MessageDigest>, k: RowKey)
    requires Replay(receipts, k).Ok? && |receipts| > 1
    ensures var n := |receipts| - 1;
            Replay(receipts[..n], k).Ok? && KindOf(receipts[n].messageType).Ok?
            && Replay(receipts[..n], k).value.Advance(KindOf(receipts[n].messageType).value, SenderIsInitiator(receipts[n], k))
               == Replay(receipts, k)
  {
    hide Decision.Advance;
  }

  lemma ReplayStep(receipts: seq<MessageDigest>, k: RowKey, n: nat)
    requires Replay(receipts, k).Ok? && 1 <= n < |receipts|
    ensures Replay(receipts[..n], k).Ok? && KindOf(receipts[n].messageType).Ok?
    ensures Replay(receipts[..n], k).value.Advance(KindOf(receipts[n].messageType).value, SenderIsInitiator(receipts[n], k))
            == Replay(receipts[..n + 1], k)
    ensures Replay(receipts[..n + 1], k).Ok?
  {
    hide Replay, Decision.Advance, KindOf;
    ReplayPrefix(receipts, k, n + 1);
    assert receipts[..n + 1][..n] == receipts[..n];
    ReplayLast(receipts[..n + 1], k);
  }

  /** An open record of the scene, message by message. */
  predicate Transcribed(sc: Scene, messages: seq<Message>, receipts: seq<MessageDigest>) {
    && sc.t.initiatorId < sc.t.responderId
    && |messages| == |receipts| && Replay(receipts, sc.Key()).Ok?
    && forall i :: 0 <= i < |messages| ==> receipts[i] == DigestOf(messages[i]) && IsLine(sc.t, sc.Candidate(), messages[i])
  }

  lemma MessageAt(sc: Scene, messages: seq<Message>, receipts: seq<MessageDigest>, n: nat) returns (s: bool, kind: Kind)
    requires Transcribed(sc, messages, receipts) && n < |messages|
    ensures messages[n].ValidateShape() == Ok(kind) && messages[n].Authenticate(sc.t).Ok? && messages[n].Confirm(sc.Candidate()).Ok?
    ensures messages[n].header.senderId == SideId(sc.t, s) && messages[n].header.messageType == kind.Code()
    ensures (messages[n].header.senderId == sc.t.initiatorId) == s && SenderIsInitiator(receipts[n], sc.Key()) == s
    ensures KindOf(receipts[n].messageType) == Ok(kind) && kind != Kind.Abort && kind in ScriptKinds(s)
  {
    hide Script, Replay;
    s, kind := LineKind(sc.t, sc.Candidate(), messages[n]);
  }

  lemma FirstIsProposal(sc: Scene, messages: seq<Message>, receipts: seq<MessageDigest>)
    requires Transcribed(sc, messages, receipts)
    ensures |receipts| > 0 && Replay(receipts[..1], sc.Key()) == Ok(START)
    ensures messages[0].header.senderId == sc.t.initiatorId && messages[0].ValidateShape() == Ok(Kind.Propose)
  {
    ReplayStartsWithProposal(receipts, sc.Key());
    ReplayPrefix(receipts, sc.Key(), 1);
    var s, kind := MessageAt(sc, messages, receipts, 0);
    hide Message.ValidateShape, Message.Authenticate, Message.Confirm, IsLine;
  }

  /** A side's own view contains every message that it has in the record. */
  predicate KnowsOwn(sc: Scene, side: bool, messages: seq<Message>, d: Decision) {
    forall i, k: Kind :: 0 <= i < |messages| && messages[i].header.senderId == SideId(sc.t, side) && messages[i].header.messageType == k.Code()
      ==> Demands(d, side, k)
  }

  lemma KnowsOwnAdvances(sc: Scene, side: bool, messages: seq<Message>, d: Decision, kind: Kind, sender: bool)
    requires KnowsOwn(sc, side, messages, d) && d.Advance(kind, sender).Ok? && kind != Kind.Abort
    ensures KnowsOwn(sc, side, messages, d.Advance(kind, sender).value)
  {
    AdvanceKeepsDemands(d, kind, sender);
    hide Demands, Decision.Advance;
  }

  ghost predicate Covers(d: Decision, e: Decision) {
    forall s: bool, k :: Demands(d, s, k) ==> Demands(e, s, k)
  }

  /** One step of folding lines of the script. */
  lemma FoldLine(sc: Scene, side: bool, messages: seq<Message>, receipts: seq<MessageDigest>, n: nat, d: Decision) returns (s: bool, kind: Kind)
    requires Transcribed(sc, messages, receipts) && n < |messages|
    ensures SenderIsInitiator(receipts[n], sc.Key()) == s && KindOf(receipts[n].messageType) == Ok(kind) && kind != Kind.Abort
    ensures messages[n].header.senderId == SideId(sc.t, s) && messages[n].header.messageType == kind.Code()
    ensures Fold(messages[n..], SideId(sc.t, !side), sc.t, sc.Candidate(), d)
            == Fold(messages[n + 1..], SideId(sc.t, !side), sc.t, sc.Candidate(),
                    if s != side && d.Advance(kind, s).Ok? then d.Advance(kind, s).value else d)
  {
    s, kind := MessageAt(sc, messages, receipts, n);
    assert messages[n..][0] == messages[n] && messages[n..][1..] == messages[n + 1..];
    hide Transcribed, Message.ValidateShape, Message.Authenticate, Message.Confirm, Decision.Advance;
  }

  /** One step of the fold: the next line is skipped or taken, and nothing is left out. */
  lemma FoldStep(sc: Scene, side: bool, messages: seq<Message>, receipts: seq<MessageDigest>, n: nat, d: Decision) returns (next: Decision)
    requires Transcribed(sc, messages, receipts) && 1 <= n < |messages|
    requires Sound(d) && KnowsOwn(sc, side, messages, d)
    requires Replay(receipts[..n], sc.Key()).Ok? && Covers(Replay(receipts[..n], sc.Key()).value, d)
    ensures Fold(messages[n..], SideId(sc.t, !side), sc.t, sc.Candidate(), d)
            == Fold(messages[n + 1..], SideId(sc.t, !side), sc.t, sc.Candidate(), next)
    ensures Sound(next) && KnowsOwn(sc, side, messages, next)
    ensures Replay(receipts[..n + 1], sc.Key()).Ok? && Covers(Replay(receipts[..n + 1], sc.Key()).value, next)
  {
    assert Replay(receipts, sc.Key()).Ok? && |receipts| == |messages|;
    hide *;
    var s, kind := FoldLine(sc, side, messages, receipts, n, d);
    ReplayStep(receipts, sc.Key(), n);
    next := if s != side && d.Advance(kind, s).Ok? then d.Advance(kind, s).value else d;
    LineFolded(sc, side, messages, n, s, kind, Replay(receipts[..n], sc.Key()).value, Replay(receipts[..n + 1], sc.Key()).value, d);
  }

  /** Folding an open record never fails and leaves nothing of it out. */
  lemma {:induction false} FoldReaches(sc: Scene, side: bool, messages: seq<Message>, receipts: seq<MessageDigest>, n: nat, d: Decision)
    requires Transcribed(sc, messages, receipts) && 1 <= n <= |messages|
    requires Sound(d) && KnowsOwn(sc, side, messages, d)
    requires Replay(receipts[..n], sc.Key()).Ok? && Covers(Replay(receipts[..n], sc.Key()).value, d)
    ensures Fold(messages[n..], SideId(sc.t, !side), sc.t, sc.Candidate(), d).1 == Ok(Unit)
    ensures Sound(Fold(messages[n..], SideId(sc.t, !side), sc.t, sc.Candidate(), d).0)
    ensures Replay(receipts, sc.Key()).Ok?
    ensures Covers(Replay(receipts, sc.Key()).value, Fold(messages[n..], SideId(sc.t, !side), sc.t, sc.Candidate(), d).0)
    decreases |messages| - n
  {
    assert Replay(receipts, sc.Key()).Ok? && |receipts| == |messages|;
    hide *;
    if n == |messages| {
      assert receipts[..n] == receipts;
      FoldNothing(messages[n..], SideId(sc.t, !side), sc.t, sc.Candidate(), d);
    } else {
      var next := FoldStep(sc, side, messages, receipts, n, d);
      FoldReaches(sc, side, messages, receipts, n + 1, next);
    }
  }

  /** What one folded line keeps, whether it is skipped or taken. */
  lemma LineFolded(sc: Scene, side: bool, messages: seq<Message>, n: nat, s: bool, kind: Kind, before: Decision, after: Decision, d: Decision)
    requires n < |messages| && messages[n].header.senderId == SideId(sc.t, s) && messages[n].header.messageType == kind.Code()
    requires before.Advance(kind, s) == Ok(after) && kind != Kind.Abort
    requires Sound(d) && KnowsOwn(sc, side, messages, d) && Covers(before, d)
    ensures var next := if s != side && d.Advance(kind, s).Ok? then d.Advance(kind, s).value else d;
            Sound(next) && KnowsOwn(sc, side, messages, next) && Covers(after, next)
  {
    hide *;
    StepCovers(before, kind, s, after, d);
    if s == side {
      OwnIsKnown(sc, side, messages, n, kind, d);
    } else if d.Advance(kind, s).Ok? {
      AdvanceKeepsSound(d, kind, s);
      KnowsOwnAdvances(sc, side, messages, d, kind, s);
    }
  }

  lemma FoldNothing(messages: seq<Message>, other: Number, t: Transcript, candidate: Candidate, d: Decision)
    requires |messages| == 0
    ensures Fold(messages, other, t, candidate, d) == (d, Ok(Unit))
  {
  }

  lemma OwnIsKnown(sc: Scene, side: bool, messages: seq<Message>, n: nat, kind: Kind, d: Decision)
    requires KnowsOwn(sc, side, messages, d) && n < |messages|
    requires messages[n].header.senderId == SideId(sc.t, side) && messages[n].header.messageType == kind.Code()
    ensures Demands(d, side, kind)
  {
  }

  lemma StepCovers(before: Decision, kind: Kind, s: bool, next: Decision, d: Decision)
    requires before.Advance(kind, s) == Ok(next) && Covers(before, d) && Sound(d) && kind != Kind.Abort
    ensures Demands(d, s, kind) ==> Covers(next, d)
    ensures d.Advance(kind, s).Ok? ==> Covers(next, d.Advance(kind, s).value)
    ensures d.Advance(kind, s).Ok? || Demands(d, s, kind)
  {
    FurtherAdvances(before, d, kind, s);
    AdvanceDemands(before, kind, s);
    if d.Advance(kind, s).Ok? {
      AdvanceDemands(d, kind, s);
      AdvanceKeepsDemands(d, kind, s);
    }
    hide Demands, Decision.Advance;
  }
}
