/**
  The client half of the exchange: what one call of `reconcile` does to the
  relationship with one data peer, as functions on values. Module Endpoint holds the
  object whose methods change the relationship in place.
*/
module Engine {
  import opened Results
  import opened Numbers
  import opened Protocol
  import opened Mailbox

  datatype Enrollment = Registering | Advertised | Retiring | Retired

  datatype Status = Advertised | Legacy | Preparing | Recovering | Confirmed | Blocked

  datatype Pending = Pending(
    transcript: Transcript,
    candidate: Candidate,
    decision: Decision,
    outbox: seq<Message>,
    installationIntent: bool,
    installed: bool,
    confirmed: bool,
    attempts: nat,
    nextRetryAt: nat)

  datatype ConfirmedKey = ConfirmedKey(
    localBundleId: B16,
    remoteBundleId: B16,
    sequence: Number,
    exchangeId: B16,
    transcriptHash: Digest,
    psk: Key,
    completedAt: nat)

  datatype Activity = Activity(rxBytes: nat, txBytes: nat, lastActiveAt: nat)

  datatype Relationship = Relationship(
    remote: Bundle,
    sequence: Number,
    priorPq: bool,
    operatorPskId: B16,
    operatorPsk: B32,
    confirmed: Option<ConfirmedKey>,
    pending: Option<Pending>,
    gated: bool,
    status: Status,
    activity: Option<Activity>)

  /** The parts of the endpoint that a reconciliation reads but never changes. */
  datatype Identity = Identity(networkId: B16, peerId: Number, serverId: Number, bundle: Bundle, enrollment: Enrollment)

  datatype Action = Send(message: Message) | Complete | Idle

  /** What clock, randomness and the installer contribute to one call. */
  datatype Cycle = Cycle(
    now: nat,
    rotationInterval: nat,
    idleTimeout: nat,
    exchangeId: B16,
    ciphertext: B1624,
    installSucceeds: bool,
    handshake: Checked<bool>)

  /** The changed relationship, the reply, and the candidate handed to the installer. */
  datatype Outcome = Outcome(relationship: Relationship, result: Checked<Action>, installs: Option<Candidate>)

  function Quiet(r: Relationship, result: Checked<Action>): Outcome {
    Outcome(r, result, None)
  }

  // ---------------------------------------------------------------- Starting and joining

  predicate Due(r: Relationship, c: Cycle) {
    r.confirmed.None?
    || (SaturatingSub(c.now, r.confirmed.value.completedAt) >= c.rotationInterval
        && !(c.idleTimeout != 0 && r.activity.Some?
             && SaturatingSub(c.now, r.activity.value.lastActiveAt) >= c.idleTimeout))
  }

  function FirstPending(t: Transcript, candidate: Candidate, decision: Decision, message: Message): Pending {
    Pending(t, candidate, decision, [message], false, false, false, 0, 0)
  }

  function NewTranscript(self: Identity, other: Number, r: Relationship, c: Cycle): Transcript {
    Transcript(self.networkId, self.peerId, other, self.bundle, r.remote, r.sequence, c.exchangeId, r.operatorPskId, c.ciphertext)
  }

  function Start(self: Identity, other: Number, r: Relationship, c: Cycle): Outcome {
    if !Due(r, c) then Quiet(r, Ok(Idle))
    else
      match NextNumber(r.sequence)
      case Err(e) => Quiet(r, Err(e))
      case Ok(next) =>
        var bumped := r.(sequence := next);
        var t := NewTranscript(self, other, r, c);
        var candidate := Derive(SharedSecret(PublicOf(r.remote), c.ciphertext), r.operatorPsk, t);
        match Signed(t, Kind.Propose, self.peerId, candidate, self.bundle.sigPublicKey)
        case Err(e) => Quiet(bumped, Err(e))
        case Ok(message) =>
          Quiet(bumped.(pending := Some(FirstPending(t, candidate, START, message))), Ok(Send(message)))
  }

  function FindProposal(messages: seq<Message>, sender: Number): Option<Message> {
    if |messages| == 0 then None
    else if messages[0].header.senderId == sender && messages[0].header.messageType == Kind.Propose.Code() then Some(messages[0])
    else FindProposal(messages[1..], sender)
  }

  function Join(self: Identity, other: Number, r: Relationship, remote: Option<Exchange>): Outcome {
    if remote.None? || remote.value.decision.phase != Phase.Proposed || remote.value.transcript.None? then Quiet(r, Ok(Idle))
    else
      var t := remote.value.transcript.value;
      if t.networkId != self.networkId || t.initiatorId != other || t.responderId != self.peerId
         || t.initiator != r.remote || t.responder != self.bundle then
        Quiet(r, Ok(Idle))
      else
        var candidate := Derive(Decapsulate(t.ciphertext, PublicOf(self.bundle)), r.operatorPsk, t);
        match FindProposal(remote.value.messages, other)
        case None => Quiet(r, Err(Invalid))
        case Some(propose) =>
          if propose.Authenticate(t).Err? then Quiet(r, Err(propose.Authenticate(t).error))
          else if propose.Confirm(candidate).Err? then Quiet(r, Err(propose.Confirm(candidate).error))
          else
            match START.Advance(Kind.Ready, false)
            case Err(e) => Quiet(r, Err(e))
            case Ok(decision) =>
              match Signed(t, Kind.Ready, self.peerId, candidate, self.bundle.sigPublicKey)
              case Err(e) => Quiet(r, Err(e))
              case Ok(message) =>
                Quiet(r.(pending := Some(FirstPending(t, candidate, decision, message))), Ok(Send(message)))
  }

  // ---------------------------------------------------------------- Reading the mailbox

  /** Fold the counterpart's messages into a local decision; the error stops the fold where it is. */
  function Fold(messages: seq<Message>, other: Number, t: Transcript, candidate: Candidate, d: Decision): (Decision, Checked<Unit>) {
    if |messages| == 0 then (d, Ok(Unit))
    else
      var m := messages[0];
      if m.header.senderId != other then Fold(messages[1..], other, t, candidate, d)
      else
        match m.ValidateShape()
        case Err(e) => (d, Err(e))
        case Ok(kind) =>
          match d.Advance(kind, m.header.senderId == t.initiatorId)
          case Err(_) => Fold(messages[1..], other, t, candidate, d)
          case Ok(trial) =>
            if m.Authenticate(t).Err? then (d, Err(m.Authenticate(t).error))
            else if m.Confirm(candidate).Err? then (d, Err(m.Confirm(candidate).error))
            else Fold(messages[1..], other, t, candidate, trial)
  }

  predicate Matches(remote: Option<Exchange>, p: Pending) {
    remote.Some? && remote.value.exchangeId == p.transcript.exchangeId && remote.value.sequence == p.transcript.sequence
  }

  /** Adopt a terminal record, or fold the messages of an open one. */
  function Absorb(p: Pending, remote: Option<Exchange>, other: Number): (Decision, Checked<Unit>) {
    if !Matches(remote, p) then (p.decision, Ok(Unit))
    else if remote.value.decision.Terminal() && !p.decision.Terminal() then (remote.value.decision, Ok(Unit))
    else Fold(remote.value.messages, other, p.transcript, p.candidate, p.decision)
  }

  predicate DurablySent(remote: Option<Exchange>, p: Pending, self: Number) {
    Matches(remote, p)
    && (remote.value.decision.Terminal()
        || |p.outbox| == 0
        || exists m :: m in remote.value.messages && m.header.senderId == self
                       && m.header.messageType == p.outbox[|p.outbox| - 1].header.messageType)
  }

  // ---------------------------------------------------------------- Acting on the decision

  /** Sign, advance the local decision and queue the message. */
  function Emit(self: Identity, r: Relationship, p: Pending, kind: Kind): Outcome {
    match Signed(p.transcript, kind, self.peerId, p.candidate, self.bundle.sigPublicKey)
    case Err(e) => Quiet(r.(pending := Some(p)), Err(e))
    case Ok(message) =>
      match p.decision.Advance(kind, self.peerId == p.transcript.initiatorId)
      case Err(e) => Quiet(r.(pending := Some(p)), Err(e))
      case Ok(decision) =>
        Quiet(r.(pending := Some(p.(decision := decision, outbox := p.outbox + [message], attempts := 0, nextRetryAt := 0))),
              Ok(Send(message)))
  }

  function Finish(self: Identity, r: Relationship, p: Pending, now: nat): Outcome {
    var key := ConfirmedKey(self.bundle.bundleId, r.remote.bundleId, p.transcript.sequence, p.transcript.exchangeId,
                            Sha3(p.transcript), Psk(p.candidate), now);
    Quiet(r.(confirmed := Some(key), priorPq := true, status := Status.Confirmed, pending := None), Ok(Action.Complete))
  }

  function Drive(self: Identity, other: Number, r: Relationship, p: Pending, c: Cycle): Outcome {
    var initiator := self.peerId < other;
    var waiting := Quiet(r.(pending := Some(p)), Ok(Idle));
    match p.decision.phase
    case Aborted => Quiet(r.(pending := None), Ok(Idle))
    case Proposed => waiting
    case Ready => if initiator then Emit(self, r, p, Kind.Commit) else waiting
    case Committed =>
      if !p.installed then
        if !initiator || p.decision.installed.responder then
          if !c.installSucceeds then Outcome(r.(pending := Some(p)), Err(Error.Installer), Some(p.candidate))
          else Emit(self, r, p.(installed := true), Kind.Installed).(installs := Some(p.candidate))
        else waiting
      else if !p.confirmed then
        match c.handshake
        case Err(_) => Quiet(r.(pending := Some(p)), Err(Error.Installer))
        case Ok(observed) => if observed then Emit(self, r, p.(confirmed := true), Kind.Confirmed) else waiting
      else waiting
    case Complete => Finish(self, r, p, c.now)
  }

  /** The relationship already has an exchange in flight. */
  function Continue(self: Identity, other: Number, r: Relationship, p: Pending, remote: Option<Exchange>, c: Cycle): Outcome {
    var absorbed := Absorb(p, remote, other);
    var p' := p.(decision := absorbed.0);
    if absorbed.1.Err? then Quiet(r.(pending := Some(p')), Err(absorbed.1.error))
    else if p'.decision.phase != Phase.Aborted && !DurablySent(remote, p', self.peerId)
            && p'.nextRetryAt <= c.now && |p'.outbox| > 0 then
      Quiet(r.(pending := Some(p')), Ok(Send(p'.outbox[|p'.outbox| - 1])))
    else
      Drive(self, other, r, p', c)
  }

  function Reconcile(self: Identity, other: Number, r: Relationship, remote: Option<Exchange>, c: Cycle): Outcome {
    if r.gated || r.status == Status.Blocked || self.enrollment == Enrollment.Retiring then Quiet(r, Ok(Idle))
    else match r.pending
      case Some(p) => Continue(self, other, r, p, remote, c)
      case None => if self.peerId < other then Start(self, other, r, c) else Join(self, other, r, remote)
  }

  // ---------------------------------------------------------------- Other changes of a relationship

  const MAX_U32: nat := 0xffff_ffff
  const MAX_U64: nat := 0xffff_ffff_ffff_ffff
  const BACKOFF_CAP: nat := 60

  /** `note_send_failure`: a jittered delay that doubles with each attempt, capped at a minute. */
  function NoteSendFailure(r: Relationship, now: nat, random: Byte): Checked<Relationship> {
    if r.pending.None? then Err(Invalid)
    else
      var attempts := Min(r.pending.value.attempts + 1, MAX_U32);
      var bound := Min(BACKOFF_CAP, Pow2(Min(attempts, 6)));
      var jitter := random % bound;
      var retryAt := Min(now + Min(jitter + 1, BACKOFF_CAP), MAX_U64);
      Ok(r.(pending := Some(r.pending.value.(attempts := attempts, nextRetryAt := retryAt))))
  }

  /** `observe_remote` on a relationship that exists. */
  function Observe(self: Identity, other: Number, r: Relationship, bundle: Bundle, lifecycle: Lifecycle): Checked<Relationship> {
    if bundle.bundleRevision < r.remote.bundleRevision
       || (bundle.bundleRevision == r.remote.bundleRevision && bundle != r.remote) then Err(Error.Conflict)
    else
      var pinned := r.pending.Some?
        && (if self.peerId < other then r.pending.value.transcript.responder else r.pending.value.transcript.initiator).bundleId
           == r.remote.bundleId;
      var dropped := if bundle.bundleId != r.remote.bundleId && pinned then None else r.pending;
      var refreshed := r.(remote := bundle, pending := dropped);
      if lifecycle == Lifecycle.Retired then Ok(refreshed.(status := Status.Blocked, pending := None))
      else if r.status == Status.Blocked && !r.gated then Ok(refreshed.(status := Status.Advertised))
      else Ok(refreshed)
  }

  /** What the administrative operations of an endpoint do to each of its relationships. */
  function Drained(r: Relationship): Relationship {
    r.(pending := None)
  }

  function Discarded(r: Relationship): Relationship {
    r.(pending := None, confirmed := None, gated := true, status := Status.Blocked)
  }

  function Fenced(r: Relationship): Relationship {
    r.(gated := true, status := Status.Blocked)
  }

  function NewRelationship(bundle: Bundle): Relationship {
    Relationship(bundle, 1, false, seq(16, _ => 0), seq(32, _ => 0), None, None, false, Status.Advertised, None)
  }
}
