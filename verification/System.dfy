/**
  Two data peers, the mailbox, and everything that can go wrong between them.

  A run interleaves mailbox transactions (of these two peers, of any other client,
  of an administrator), reconciliations that read any version of the record ever
  stored, saves that fail before or after the rename, crashes back to the saved
  snapshot, and the administrative operations of an endpoint. A message that an
  endpoint submits may be lost, delayed or delivered many times: delivery is a
  mailbox transaction that any step of the run may take.
*/
module System {
  import opened Results
  import opened Protocol
  import opened Mailbox
  import opened MailboxHistory
  import opened Engine
  import opened EngineFacts

  // ---------------------------------------------------------------- State

  /** The fixed facts of a run; side `true` is the initiator, the lower identifier. */
  datatype Setup = Setup(initiatorId: Number, responderId: Number, initiatorKeys: set<B67>, responderKeys: set<B67>,
                         initiatorOperator: B32, responderOperator: B32)
  {
    predicate Valid() {
      initiatorId < responderId
    }
    function Id(side: bool): Number {
      if side then initiatorId else responderId
    }
    /** The signing keys of every identity this side generates during the run. */
    function Keys(side: bool): set<B67> {
      if side then initiatorKeys else responderKeys
    }
    function Operator(side: bool): B32 {
      if side then initiatorOperator else responderOperator
    }
    predicate Owns(k: RowKey) {
      k.initiatorId == initiatorId && k.responderId == responderId
    }
  }

  /** One endpoint: in memory, on disk, and what it has ever sent or handed to its installer. */
  datatype Node = Node(
    self: Identity,
    relationship: Relationship,
    savedSelf: Identity,
    saved: Relationship,
    sent: set<Message>,
    handed: set<Candidate>)

  datatype World = World(log: Log, proposals: set<Transcript>, initiator: Node, responder: Node) {
    function At(side: bool): Node {
      if side then initiator else responder
    }
    function Put(side: bool, n: Node): World {
      if side then this.(initiator := n) else this.(responder := n)
    }
  }

  ghost predicate Version(log: Log, k: RowKey, i: nat) {
    k in log.history && i < |log.history[k]|
  }

  /** A record that the mailbox stored for this pair at some time. */
  ghost predicate Readable(c: Setup, log: Log, v: Exchange) {
    exists k, i: nat :: Version(log, k, i) && log.history[k][i] == v && c.Owns(k)
  }

  // ---------------------------------------------------------------- Steps

  datatype SaveOutcome = Saved | FailedBeforeRename | FailedAfterRename

  datatype Step =
    | ServerStep(event: Event)
    | CycleStep(side: bool, remote: Option<Exchange>, cycle: Cycle, save: SaveOutcome)
    | BackoffStep(side: bool, now: nat, random: Byte, save: SaveOutcome)
    | PersistStep(side: bool)
    | CrashStep(side: bool)
    | ObserveStep(side: bool, bundle: Bundle, lifecycle: Lifecycle)
    | ActivityStep(side: bool, activity: Activity)
    | DisableStep(side: bool)
    | RetireStep(side: bool)
    | ReplaceStep(side: bool, bundle: Bundle)
    | AcceptStep(side: bool, enrollment: Enrollment)

  /** Nobody signs with a key of these two endpoints but the endpoint, when it sends. */
  ghost predicate Unforged(c: Setup, w: World, m: Message) {
    forall side: bool, signer :: signer in c.Keys(side) && m.VerifiedBy(signer) ==>
      exists s :: s in w.At(side).sent && s.signature == m.signature
  }

  ghost predicate Allowed(c: Setup, w: World, s: Step) {
    match s
    case ServerStep(e) =>
      Possible(w.log.tables, e)
      && (e.SubmitEvent? ==> Unforged(c, w, e.message))
      && (e.RegisterEvent? ==> forall side: bool :: e.id == c.Id(side) ==> e.request.bundle.sigPublicKey in c.Keys(side))
    case CycleStep(side, remote, cycle, save) =>
      (remote.Some? ==> Readable(c, w.log, remote.value))
      && (side ==> forall t :: t in w.proposals ==> t.exchangeId != cycle.exchangeId)
    case ObserveStep(side, bundle, lifecycle) => bundle.sigPublicKey in c.Keys(!side)
    case ReplaceStep(side, bundle) => bundle.sigPublicKey in c.Keys(side) && w.At(side).relationship.pending.None?
    case _ => true
  }

  function SavedAs(n: Node, save: SaveOutcome): Node {
    if save == FailedBeforeRename then n else n.(saved := n.relationship, savedSelf := n.self)
  }

  /** One peer's turn in a sync cycle: reconcile, save, and only then send. */
  function AfterCycle(n: Node, other: Number, remote: Option<Exchange>, cycle: Cycle, save: SaveOutcome): Node {
    var out := Reconcile(n.self, other, n.relationship, remote, cycle);
    var changed := n.(relationship := out.relationship,
                      handed := if out.installs.Some? then n.handed + {out.installs.value} else n.handed);
    if out.result.Err? then changed
    else
      var kept := SavedAs(changed, save);
      if save == Saved && out.result.value.Send? then kept.(sent := kept.sent + {out.result.value.message}) else kept
  }

  function NewProposals(w: World, side: bool, after: Node): set<Transcript> {
    if side && w.initiator.relationship.pending.None? && after.relationship.pending.Some?
    then w.proposals + {after.relationship.pending.value.transcript}
    else w.proposals
  }

  function Next(c: Setup, w: World, s: Step): World {
    match s
    case ServerStep(e) => w.(log := StepLog(w.log, e))
    case CycleStep(side, remote, cycle, save) =>
      var n := AfterCycle(w.At(side), c.Id(!side), remote, cycle, save);
      w.(proposals := NewProposals(w, side, n)).Put(side, n)
    case BackoffStep(side, now, random, save) =>
      var n := w.At(side);
      (match NoteSendFailure(n.relationship, now, random)
       case Err(_) => w
       case Ok(r) => w.Put(side, SavedAs(n.(relationship := r), save)))
    case PersistStep(side) => w.Put(side, SavedAs(w.At(side), Saved))
    case CrashStep(side) => w.Put(side, w.At(side).(relationship := w.At(side).saved, self := w.At(side).savedSelf))
    case ObserveStep(side, bundle, lifecycle) =>
      var n := w.At(side);
      (match Observe(n.self, c.Id(!side), n.relationship, bundle, lifecycle)
       case Err(_) => w
       case Ok(r) => w.Put(side, n.(relationship := r)))
    case ActivityStep(side, activity) =>
      w.Put(side, w.At(side).(relationship := w.At(side).relationship.(activity := Some(activity))))
    case DisableStep(side) =>
      var n := w.At(side);
      w.Put(side, n.(self := n.self.(enrollment := Enrollment.Retiring), relationship := Drained(n.relationship)))
    case RetireStep(side) =>
      var n := w.At(side);
      w.Put(side, n.(self := n.self.(enrollment := Enrollment.Retiring),
                     relationship := Discarded(n.relationship)))
    case ReplaceStep(side, bundle) =>
      var n := w.At(side);
      w.Put(side, n.(self := n.self.(bundle := bundle, enrollment := Enrollment.Registering),
                     relationship := Fenced(n.relationship)))
    case AcceptStep(side, enrollment) => w.Put(side, w.At(side).(self := w.At(side).self.(enrollment := enrollment)))
  }

  /** The relationship has just been created from the other side's first bundle. */
  ghost predicate NewNode(c: Setup, side: bool, n: Node) {
    && n.self.peerId == c.Id(side) && n.self.bundle.sigPublicKey in c.Keys(side)
    && n.relationship.remote.sigPublicKey in c.Keys(!side)
    && n.relationship.operatorPsk == c.Operator(side)
    && n.relationship.confirmed == None && n.relationship.pending == None
    && n.savedSelf == n.self && n.saved == n.relationship
    && n.sent == {} && n.handed == {}
  }

  ghost predicate Initial(c: Setup, w: World) {
    && c.Valid()
    && (exists networkId, d :: w.log == InitialLog(networkId, d))
    && w.proposals == {}
    && NewNode(c, true, w.initiator) && NewNode(c, false, w.responder)
  }

  function Run(c: Setup, w: World, steps: seq<Step>): World
    decreases |steps|
  {
    if |steps| == 0 then w else Run(c, Next(c, w, steps[0]), steps[1..])
  }

  ghost predicate AllowedRun(c: Setup, w: World, steps: seq<Step>)
    decreases |steps|
  {
    |steps| == 0 || (Allowed(c, w, steps[0]) && AllowedRun(c, Next(c, w, steps[0]), steps[1..]))
  }

  // ---------------------------------------------------------------- Invariant

  ghost predicate CommittedSeen(log: Log, t: Transcript) {
    exists k, i: nat :: Version(log, k, i) && log.history[k][i].transcriptHash == Sha3(t) && log.history[k][i].decision.phase == Phase.Committed
  }

  /** The transcript of a proposal of this pair, under keys of this run. */
  ghost predicate ProposalOk(c: Setup, t: Transcript) {
    t.initiatorId == c.initiatorId && t.responderId == c.responderId
  }

  ghost predicate ProposalsInv(c: Setup, w: World) {
    (forall t :: t in w.proposals ==> ProposalOk(c, t))
    && (forall t, u :: t in w.proposals && u in w.proposals && t.exchangeId == u.exchangeId ==> t == u)
  }

  /** Both sides derive one candidate from this transcript: they hold the same operator key. */
  predicate Agreed(c: Setup, t: Transcript) {
    CandidateFor(t, c.initiatorOperator) == CandidateFor(t, c.responderOperator)
  }

  /** A side may use this transcript: it proposed it, or it checked the proposer's tag. */
  ghost predicate MayUse(c: Setup, w: World, side: bool, t: Transcript) {
    t in w.proposals && (!side ==> Agreed(c, t))
  }

  function HashedTranscript(d: Digest): Transcript
    requires d.Sha3?
  {
    d.transcript
  }

  ghost predicate SentOk(c: Setup, w: World, side: bool, m: Message) {
    && m.header.transcriptHash.Sha3?
    && var t := HashedTranscript(m.header.transcriptHash);
      && MayUse(c, w, side, t)
      && SideBundle(t, side).sigPublicKey in c.Keys(side)
      && m in Script(t, side, CandidateFor(t, c.Operator(side)))
      && (m.header.messageType in {Kind.Installed.Code(), Kind.Confirmed.Code()} ==>
            CandidateFor(t, c.Operator(side)) in w.At(side).handed)
  }

  ghost predicate SentInv(c: Setup, w: World, side: bool) {
    forall m :: m in w.At(side).sent ==> SentOk(c, w, side, m)
  }

  ghost predicate HandedOk(c: Setup, w: World, side: bool, candidate: Candidate) {
    && candidate.salt.Sha3?
    && var t := HashedTranscript(candidate.salt);
      && MayUse(c, w, side, t)
      && candidate == CandidateFor(t, c.Operator(side))
      && CommittedSeen(w.log, t)
  }

  ghost predicate HandedInv(c: Setup, w: World, side: bool) {
    forall candidate :: candidate in w.At(side).handed ==> HandedOk(c, w, side, candidate)
  }

  ghost predicate KeyOk(c: Setup, w: World, side: bool, key: ConfirmedKey) {
    && key.transcriptHash.Sha3?
    && var t := HashedTranscript(key.transcriptHash);
      && MayUse(c, w, side, t)
      && key.psk == Psk(CandidateFor(t, c.Operator(side)))
      && key.sequence == t.sequence && key.exchangeId == t.exchangeId
      && CandidateFor(t, c.Operator(side)) in w.At(side).handed
  }

  ghost predicate PendingOk(c: Setup, w: World, side: bool, self: Identity, p: Pending) {
    && MayUse(c, w, side, p.transcript)
    && p.candidate == CandidateFor(p.transcript, c.Operator(side))
    && SideBundle(p.transcript, side).sigPublicKey in c.Keys(side)
    && PendingShape(side, p) && Placed(self, c.Id(!side), side, p)
    && Justified(side, p, CommittedSeen(w.log, p.transcript), p.candidate in w.At(side).handed)
  }

  /** One copy of an endpoint's state, in memory or on disk. */
  ghost predicate CopyOk(c: Setup, w: World, side: bool, self: Identity, r: Relationship) {
    && self.peerId == c.Id(side) && self.bundle.sigPublicKey in c.Keys(side)
    && r.remote.sigPublicKey in c.Keys(!side) && r.operatorPsk == c.Operator(side)
    && (r.pending.Some? ==> PendingOk(c, w, side, self, r.pending.value))
    && (r.confirmed.Some? ==> KeyOk(c, w, side, r.confirmed.value))
  }

  ghost predicate NodeInv(c: Setup, w: World, side: bool) {
    var n := w.At(side);
    CopyOk(c, w, side, n.self, n.relationship) && CopyOk(c, w, side, n.savedSelf, n.saved)
    && SentInv(c, w, side) && HandedInv(c, w, side)
  }

  /** The keys behind a record are this pair's, and its messages are what they sent. */
  ghost predicate VersionOk(c: Setup, w: World, k: RowKey, v: Exchange) {
    c.Owns(k) ==>
      v.transcriptHash.Sha3?
      && (forall side: bool :: SideBundle(HashedTranscript(v.transcriptHash), side).sigPublicKey in c.Keys(side))
      && (forall d, side: bool :: d in v.receipts && d.senderId == c.Id(side) ==> d.body.message in w.At(side).sent)
  }

  ghost predicate MailInv(c: Setup, w: World) {
    (forall k, i: nat :: Version(w.log, k, i) ==> VersionOk(c, w, k, w.log.history[k][i]))
    && (forall side: bool :: c.Id(side) in w.log.tables.bundles ==>
          w.log.tables.bundles[c.Id(side)].bundle.sigPublicKey in c.Keys(side))
  }

  ghost predicate Inv(c: Setup, w: World) {
    && c.Valid() && LogInv(w.log) && ProposalsInv(c, w) && MailInv(c, w)
    && NodeInv(c, w, true) && NodeInv(c, w, false)
  }
}
