# A verified model of the post-quantum key exchange

innernet's peers agree on WireGuard pre-shared keys through a mailbox on the
coordination server. This project models that exchange and the machinery under it in
Dafny, and proves what it promises in every run: with lost and repeated messages, stale
reads, failed saves, crashes, expiry, revocation and arbitrary other clients.

The parts, by module:

- `Protocol`: identities, transcripts, signed messages, and the decision machine that
  both endpoints and the server use. Cryptography is a term algebra: a digest, tag,
  signature or shared secret is the term of the inputs it was computed from, with extra
  terms for byte strings that nothing computed. `Encoding` shows on the bytes why one
  digest may stand for one transcript, and `Kem` checks the key validation against the
  conversions of FIPS 203.
- `Mailbox` (what each server transaction does to the tables), `MailboxServer` (the code
  that changes them in place, proved equal), `MailboxHistory`, `MailboxSafety`,
  `MailboxVersions`, `MailboxGrowth`, `MailboxAnswers` (every version a row ever had, and what holds over
  every run of arbitrary requests), `Retirement` (retirements as the client prepares
  them).
- `Engine` (what one reconciliation does), `Endpoint` (the state object whose methods do
  it in place, proved equal), `EngineFacts`, `Timing`, `Completion`, `Sync` (the loop over all peers of
  one client, with saves and sends).
- `System`, `SystemSafety`, `SystemRuns`: the two endpoints and the mailbox as one
  transition system, with a durable snapshot for each endpoint, and its invariant.
  `Theorems`, `WriteAhead`, `Simulation`, `Tracking`, `SimulationTheorems` hold what
  follows for every run. `Validation` compares the state's own consistency check with the
  states that are reached.
- `Duet`, `Progress`, `ProgressRuns`: one exchange with nobody interfering, and the rank
  that brings it to completion on both sides; `MailboxProgress` states it of the
  mailbox's tables. `Witness` and `OpenCompletion` exhibit runs that end where the code
  and its intent part.
- `PageWalk`, `WalkGuard`, `WalkRuns`: the server's keyset page, the client's restartable
  walk, why the visibility revision guards it, and the walk against runs of the mailbox.
- `Admission`, `AdmissionRuns`, `AdmissionService`: token buckets and write permits with
  capacity kept for recovery work.
- `Store`: the crash-safe compare-and-swap file. `Netlink`: the message packer. `Cidr`:
  the table of networks and its tree. `Results` and `Numbers` are shared by all.

Functions on values say what an operation does; classes and methods with loops follow
the source's own steps and are proved to compute exactly those functions, so that the
theorems about the functions are theorems about the code's steps. Nothing was executed.

## Facts of the code that shape the theorems

- A call inside a backoff window skips the check that the last message was received
  (`pq/src/engine.rs:279-287`). `SimulationTheorems.CompletesExactlyWhen` gives the exact
  condition under which such a call completes, `OpenCompletion.BackoffCanHideTheLoss` a
  schedule in which one completes too early, and the statements about durable receipt
  require that calls wait the backoff out.
- `disable` and `emergency_retire` prepare a retirement under the unchanged bundle
  revision (`pq/src/state.rs:565-607`), while the server takes only the next one
  (`server/src/db/pq.rs:264-271`). `Retirement` proves that every server refuses the
  prepared request in every state, and exactly when a retirement is taken.
- `docs/design.md:285` has the responder persist an installation intent before it
  installs. The code never sets that field; what the code does persist first is the
  commit that it folded in, and the theorems rest on that alone.
- The check for the closest containing CIDR never refuses what the other checks of a
  creation let through (`Cidr.CreateIsAcceptedExactlyWhen`).
- A state directory that was created and never saved into can afterwards be neither
  loaded nor saved (`Store.AbandonedDirectoryStaysEmpty`).
- The endpoint state's `validate`, which no production path calls, asks that an exchange's
  sequence not exceed the relationship's counter (`pq/src/state.rs:384`). A responder
  never moves that counter, so from its second exchange on the check refuses its state;
  `Validation.ValidatesExactlyWhen` gives the exact condition over every run, and
  `Witness.ReachedStateIsRefused` a run that ends in such a state.
- A refused call for admission can still add a caller to the map, with full buckets
  (`Admission.RefusalChangesNothing`).

## Assumptions

- Signatures cannot be forged, hashes and tags are injective, and decapsulation undoes
  encapsulation. Exchange identifiers drawn by an initiator do not repeat.
- Identities register only keys that they generated; the pinned bundle of the other side
  is one of its own. Peers that redeemed their invitation are not deleted from the
  directory, and stay redeemed.
- The operator keys of the two sides are fixed for a run, and may differ. Peers and CIDRs
  have positive row identifiers.

## Model

| member | source | states |
|---|---|---|
| Protocol.AuthenticConfirmedIsSigned | pq/src/protocol.rs:226-304 | a message that authenticates and confirms is exactly the one that its sender signs for that transcript and candidate |
| EngineFacts.ShapeIsValidExactlyWhen | pq/src/protocol.rs:192-210 | exactly when a message is well formed, in terms of who says which kind |
| Encoding.BundlesDiffer | pq/src/protocol.rs:90-99 | the bytes of a bundle determine it |
| Encoding.TranscriptsDiffer | pq/src/protocol.rs:129-142 | transcript encoding is injective on all values |
| Encoding.EnvelopesDiffer | pq/src/protocol.rs:211-225 | envelope encoding is injective on all fields and on the bytes of the hash |
| Encoding.EncodingsNeverCollide | pq/src/protocol.rs:129-225 | no transcript encodes to the same bytes as an envelope |
| Encoding.WriteBundle | pq/src/protocol.rs:90-99 | appending field by field gives the bundle encoding |
| Encoding.WriteTranscript | pq/src/protocol.rs:129-142 | appending field by field gives the transcript encoding |
| Encoding.WriteEnvelope | pq/src/protocol.rs:211-225 | appending field by field gives the envelope encoding |
| Encoding.CursorsRoundTrip | server/src/api/pq.rs:137-178 | a cursor decodes for a caller and revision to a position exactly when it is the encoding of that position for them |
| Kem.ValidateKem | pq/src/crypto.rs:132-142 | the scan accepts exactly the keys whose first 1536 bytes survive ByteEncode12 of ByteDecode12 (FIPS 203, section 7.2) |
| Kem.SurvivesExactlyWhenReduced | pq/src/crypto.rs:132-142 | bytes survive the two conversions exactly when every twelve-bit group is below q |
| MailboxServer.Server.SweepRecord | server/src/db/pq.rs:534-560 | one visited record is revoked, expired and written back as the sweep specifies |
| MailboxServer.Server.SweepDue | server/src/db/pq.rs:503-560 | visiting the collected keys in any order gives the swept table |
| MailboxServer.Server.SweepInner | server/src/db/pq.rs:523-565 | the lazy sweep in place equals its specification, marker included |
| MailboxServer.Server.TerminateRecord | server/src/db/pq.rs:489-501 | one record is aborted with a reason and compacted |
| MailboxServer.Server.TerminatePeer | server/src/db/pq.rs:489-521 | every active exchange of a peer is terminated, and nothing else changes |
| MailboxServer.Server.Accept | server/src/db/pq.rs:408-431 | a further message is answered, refused or applied to its record as specified |
| MailboxServer.Server.OpenExchange | server/src/db/pq.rs:435-487 | a proposal in place: budget, counts for both peers and in all, transcript and authenticity in order, then the new record; a refusal changes nothing |
| MailboxServer.Server.SubmitInner | server/src/db/pq.rs:368-487 | a submission in place gives the specified answer and tables; a refusal changes nothing |
| MailboxServer.Server.ReplaceBundle | server/src/db/pq.rs:314-329 | the bundle row is replaced, the revision moves, and finished rows of the old generation go |
| MailboxServer.Server.RegisterInner | server/src/db/pq.rs:233-330 | a registration in place gives the specified answer and tables; a refusal changes nothing |
| MailboxServer.Server.Submit | server/src/db/pq.rs:214-366 | sweep and write are one transaction, and a refused write keeps only the sweep |
| MailboxServer.Server.Register | server/src/db/pq.rs:203-231 | the same for registrations |
| MailboxServer.Server.Sweep | server/src/db/pq.rs:566-571 | the sweep as a transaction of its own |
| MailboxServer.Server.DisablePeer | server/src/db/peer.rs:196-212 | disabling and terminating are one transaction |
| MailboxServer.Server.DeleteAssociation | server/src/db/association.rs:93-102 | removing an authorization and sweeping are one transaction |
| MailboxSafety.StepKeepsInv | server/src/db/pq.rs:203-571 | every transaction, whatever it carries, keeps the invariant on rows, versions, generations and sweep marker |
| MailboxSafety.ReplaySafety | server/src/db/pq.rs:398-434 | in every run, sequences of a pair and bundle pair never fall, and each is bound to one exchange and transcript hash forever |
| MailboxSafety.DeletedRowsStayDeleted | server/src/db/pq.rs:282-329 | a row that registration deleted is never opened again |
| MailboxSafety.ResubmissionIsInert | server/src/db/pq.rs:408-431 | a message that was ever accepted changes nothing when submitted again, at any time, beyond the due sweep |
| MailboxSafety.OneRowPerPair | server/src/db/pq.rs:323-328 | in every reachable state a pair of peers has at most one row |
| MailboxSafety.ActiveRecordsReplay | pq/src/protocol.rs:352-372 | every open record's decision is the fold of its accepted messages, its receipts match them and are distinct by sender and type |
| MailboxSafety.AcceptedRecordOk | pq/src/api.rs:88-95 | accepting a message gives a well-formed, compacted successor of the record |
| MailboxSafety.LazySweepIsFull | server/src/db/pq.rs:523-565 | in every reachable state the lazy sweep equals rechecking authorization and expiry of every active record |
| MailboxSafety.RevocationIsImmediate | server/src/db/association.rs:93-102 | after a disable or a removed association no exchange that it affects is active |
| MailboxAnswers.AnswersNeedService | server/src/db/pq.rs:368-398 | a positive answer goes only to a listed peer in standing with its own key, about a peer that it sees and that sees it, for a message of its own under the enabled bundles |
| MailboxAnswers.PairIsMutual | server/src/db/pq.rs:105-129 | authorization of a pair does not depend on which of the two asks |
| MailboxAnswers.ReadyExactlyWhen | server/src/db/pq.rs:22-34 | the service is ready exactly when it is on, management is ready, and one single server peer is in standing |
| MailboxAnswers.AnswerIsStored | server/src/db/pq.rs:408-487 | in every reachable state a positive answer is the row that the tables then hold, with the message among its receipts |
| MailboxAnswers.RetransmissionIsAnswered | server/src/db/pq.rs:408-415 | in every reachable state a message that was ever accepted, and whose row is still at its sequence, is answered with that row, open or finished |
| MailboxAnswers.MessageIsTakenExactlyWhen | server/src/db/pq.rs:402-431 | exactly when a message on a row at its sequence is taken: known, or authentic, new and next in the replay; the decision is then the replay |
| MailboxAnswers.LowerSequenceIsAConflict | server/src/db/pq.rs:402-405 | a lower sequence is a conflict, and only the sweep takes place |
| MailboxAnswers.ProposalIsTakenExactlyWhen | server/src/db/pq.rs:432-487 | exactly when a new exchange is opened, and the record that is then answered |
| MailboxAnswers.BundleIsTakenExactlyWhen | server/src/db/pq.rs:233-330 | exactly when a bundle is registered, and what is advertised from then on; a refusal or a repetition changes nothing beyond the sweep |
| MailboxAnswers.WithdrawalIsTakenExactlyWhen | server/src/db/pq.rs:233-330 | the same for retirements |
| MailboxAnswers.DisabledPeerIsShutOut | server/src/db/peer.rs:196-212 | a disabled peer is served by nothing and paired with nobody, its open exchanges are terminated and compacted, and nothing else changes |
| MailboxAnswers.DissociationTouchesOnlyTheRevoked | server/src/db/association.rs:93-102 | removing an association revokes the open exchanges of the pairs that lose authorization, and nothing else |
| MailboxVersions.StepVersions | server/src/db/pq.rs:345-487 | every stored version repeats the receipts of its row or adds the one submitted message |
| MailboxGrowth.RegistrationAdvances | server/src/db/pq.rs:233-330 | an accepted registration counts the revision on by one, enables only an unused bundle identifier, retires only the current bundle, and leaves the caller no rows |
| MailboxGrowth.RevisionsOnlyGrow | server/src/db/pq.rs:264-281 | over every run an advertised bundle only moves to higher revisions |
| MailboxGrowth.ActiveWorkIsBounded | server/src/db/pq.rs:437-449 | over every run the active exchanges per peer and in all stay within their limits |
| MailboxGrowth.RegistryIsBounded | server/src/db/pq.rs:184-201 | over every run the registry of bundle identifiers stays within its limit |
| Retirement.PreparedRetirementIsRefused | pq/src/state.rs:565-607 | the retirement that the client prepares is refused in every state of every server |
| Retirement.RetirementIsTakenExactlyWhen | server/src/db/pq.rs:250-313 | exactly when a retirement of an enabled bundle is taken |
| Endpoint.EndpointState.FoldMessages | pq/src/engine.rs:261-270 | the loop over the counterpart's messages computes the fold, stopping at the first invalid one |
| Endpoint.EndpointState.ReadRecord | pq/src/engine.rs:247-272 | a terminal record is adopted by an open exchange only; an open one is folded in |
| Endpoint.EndpointState.Queue | pq/src/engine.rs:297-310 | sign, advance, queue and reset the retry counters, or stop at the first that fails |
| Endpoint.EndpointState.Act | pq/src/engine.rs:289-384 | the phase match commits, installs, confirms, completes or waits as specified, with each installation recorded |
| Endpoint.EndpointState.Resume | pq/src/engine.rs:242-384 | reading, resending and acting in place equal the specified call |
| Endpoint.EndpointState.Reconcile | pq/src/engine.rs:89-385 | one call changes one relationship as specified and leaves all others alone |
| Endpoint.EndpointState.NoteSendFailure | pq/src/engine.rs:389-403 | the backoff is noted on one relationship only |
| Endpoint.EndpointState.ObserveRemote | pq/src/state.rs:463-521 | a directory entry creates or refreshes one relationship, or changes nothing |
| Endpoint.EndpointState.Replace | pq/src/state.rs:415-442 | a replacement is taken exactly with nothing in flight, the same interface key, a new identifier and the next revision, and fences every relationship |
| Endpoint.EndpointState.AcceptRegistration | pq/src/state.rs:444-457 | enrollment moves exactly on the server's matching reply |
| Endpoint.EndpointState.Disable | pq/src/state.rs:565-583 | a disable drains every relationship, keeps what is confirmed, and is refused once retiring |
| Endpoint.EndpointState.EmergencyRetire | pq/src/state.rs:590-607 | an emergency retirement blocks every relationship and forgets its secrets |
| Timing.BackoffIsBounded | pq/src/engine.rs:389-403 | failures are counted and retries put off by between one second and a window that never shrinks and is at most a minute, all up to the width of counter and clock |
| Timing.EveryDelayIsTaken | pq/src/engine.rs:389-403 | every delay of the window occurs for some random byte |
| Timing.OpensExactlyWhenDue | pq/src/engine.rs:119-186 | an initiator opens an exchange exactly when none was completed or the interval has passed without an idle pause, under the next sequence |
| Timing.DirectoryNeverRollsBack | pq/src/state.rs:463-521 | the pinned bundle moves only to higher revisions, and an exchange pinned to a replaced one is dropped |
| Completion.CompletionIsRecorded | pq/src/engine.rs:365-379 | a call that completes leaves the exchange's key confirmed under both bundles and at the time of the call, with nothing in flight and all else as it was |
| Completion.RenewalWaitsForTheInterval | pq/src/engine.rs:119-147 | over two calls: after a completion an initiator is idle until the interval has passed since it, and then opens the next exchange unless the tunnel is idle |
| Completion.NewMessageIsDue | pq/src/engine.rs:297-310 | a message that a call queues is the one it sends, and is due at once whatever the retries before it |
| Completion.FailedInstallIsReported | pq/src/engine.rs:312-337 | a failed installation is reported, queues nothing and leaves the exchange uninstalled |
| Completion.ConfirmationTakesAHandshake | pq/src/engine.rs:338-362 | a call that would confirm waits while no handshake is seen, fails if that cannot be told, and queues nothing in both cases |
| Completion.FoldFailsExactlyAtForgeries | pq/src/engine.rs:261-270 | reading a record fails exactly at a message in the counterpart's name that is malformed, or moves the decision without being authentic |
| Completion.FencedStaysIdle | pq/src/engine.rs:89-112 | after a replacement or an emergency retirement every call is idle, through any directory entry |
| Completion.RetiringStaysIdle | pq/src/engine.rs:89-112 | while an endpoint retires every call is idle, and its confirmed keys stay |
| Completion.ActivityFollowsTheCounters | pq/src/state.rs:531-551 | the activity mark moves to the present exactly when the byte counters differ from the last sample |
| Completion.IdleTunnelIsNotRenewed | pq/src/engine.rs:119-147 | with unchanged counters, a sample older than the timeout keeps an initiator from renewing |
| EngineFacts.FoldFacts | pq/src/engine.rs:261-270 | folding keeps the shape of a local decision, and every step past commitment has an authentic message to show |
| EngineFacts.ContinueFacts | pq/src/engine.rs:242-384 | a call on an exchange in flight keeps its outbox a prefix of the role's script, and installs only with proof of commitment |
| EngineFacts.JoinFacts | pq/src/engine.rs:189-239 | a responder answers only an authentic proposal under its pinned bundles whose tag matches its own candidate |
| SystemRuns.DeliveredIsSent | pq/src/protocol.rs:226-255 | what authenticates in a record of the pair is, field by field, what its sender sent |
| SystemRuns.NextKeepsInv | pq/src/engine.rs:89-385 | every step of the two-peer system keeps its invariant |
| Theorems.CommittedNeverAborts | server/src/db/pq.rs:523-565 | no version of an exchange that was ever committed is aborted without an administrative termination |
| Theorems.InstallIsSafe | pq/src/engine.rs:312-337 | in every run, once an endpoint has installed for an exchange, its record is past commitment and can only be ended by an administrator |
| Theorems.ConfirmedKeysAgree | pq/src/engine.rs:365-379 | in every run, two confirmed keys of one exchange, in memory or on disk, are equal, with equal sequence and hash |
| Theorems.DisagreeingOperatorsNeverAnswer | pq/src/engine.rs:207-224 | with different operator keys the responder never answers, installs or confirms |
| Theorems.CompletionWasInstalled | pq/src/engine.rs:365-379 | an endpoint that completes had handed that very candidate to its installer |
| WriteAhead.SubmissionsNeverFork | client-core/src/pq_sync.rs:326-374 | across crashes and failed saves an initiator never submits two different messages of one kind with one sequence |
| WriteAhead.SubmittedIsDurable | client-core/src/pq_sync.rs:343-351 | what a step submits is in the outbox of the snapshot on disk |
| WriteAhead.RestartResumes | pq/src/engine.rs:148-186 | the snapshot counts past everything ever submitted and holds every message of the exchange that it resumes |
| Validation.CheckOutbox | pq/src/state.rs:402-408 | the loop accepts an outbox exactly as specified, with the error of the first bad message |
| Validation.CheckAcceptsExactlyWhen | pq/src/state.rs:378-410 | what the check accepts of an exchange in flight, message by message |
| Validation.ValidatesExactlyWhen | pq/src/state.rs:367-411 | in every run, the check accepts an exchange in flight exactly when the counterpart's bundle is still the pinned one and, for a responder, the sequence has not passed the one that the relationship began with |
| Validation.SecondExchangeIsRefused | pq/src/state.rs:381-388 | the check refuses a responder's state from the second exchange on |
| Witness.ReachedStateIsRefused | pq/src/state.rs:381-388 | for any two bundles, a run of ten steps ends in a state, in memory and on disk, that the check refuses |
| Simulation.FoldDemands | pq/src/engine.rs:261-270 | a fold adds only what a message of the counterpart supports |
| Simulation.ReplayDemands | pq/src/protocol.rs:352-372 | a decision without abort holds exactly what its accepted messages support |
| Simulation.LastAdvances | pq/src/protocol.rs:352-372 | the server can still take the next message of a side that is one message ahead |
| SimulationTheorems.ViewIsOneMessageAhead | pq/src/engine.rs:247-285 | without calls inside a backoff window, all but the last message of an outbox are in the newest record's receipts, and the local decision is at most one own message ahead |
| SimulationTheorems.UnseenIsOnlyProposed | pq/src/engine.rs:148-186 | before the server has stored anything of an exchange only its proposal exists |
| SimulationTheorems.CompletesExactlyWhen | pq/src/engine.rs:279-287 | a locally complete exchange ends exactly when its last message is received or the backoff hides the check |
| OpenCompletion.BackoffCanHideTheLoss | pq/src/engine.rs:279-287 | after every fresh proposal there is a schedule in which a call inside the window completes while the record is open and lacks the last message |
| SimulationTheorems.CompletionReadsTerminal | pq/src/engine.rs:274-379 | a call outside a backoff window completes only on a terminal record, complete unless terminated |
| Duet.SubmitDelivers | server/src/db/pq.rs:368-487 | where the mailbox takes the pair's messages, a submission does to its row what delivery says, and to other rows what the sweep does; room is needed only for a new exchange |
| Duet.FoldReaches | pq/src/engine.rs:261-270 | folding an open record never fails and leaves nothing of it out |
| Progress.OpenTurn | pq/src/engine.rs:242-363 | with the record open, a call sends something new unless everything is received and the next step is not due |
| Progress.CompleteTurn | pq/src/engine.rs:247-379 | a call that reads the completed record completes |
| ProgressRuns.SomeoneIsEnabled | pq/src/engine.rs:61-82 | until both sides are done, one of them has something to do |
| ProgressRuns.TurnLowers | pq/src/engine.rs:274-380 | no poll raises the rank, and a poll of an enabled side whose message arrives lowers it |
| ProgressRuns.RoundsComplete | pq/src/engine.rs:274-380 | as many rounds as the rank complete the exchange, whatever is lost inside the rounds |
| ProgressRuns.ExchangeCompletes | pq/src/engine.rs:89-385 | a fresh proposal completes on both sides with equal keys within fifteen rounds |
| MailboxProgress.CallIsTurn | server/src/db/pq.rs:214-366 | a call that reads and writes the mailbox's tables is, seen from the pair, a poll |
| MailboxProgress.MailboxCompletes | pq/src/engine.rs:89-385 | the same against the mailbox itself, while others go on using it |
| Sync.PeersAreIndependent | client-core/src/pq_sync.rs:274-377 | what a cycle does to one peer's relationship does not depend on the other peers |
| Sync.SentIsOnDisk | client-core/src/pq_sync.rs:326-374 | every message that a cycle sent is the newest one of its exchange on disk |
| Sync.CallIsARun | client-core/src/pq_sync.rs:326-374 | a peer's turn in the loop is a run of at most two steps of the two-peer system |
| Sync.OthersTurnIsASave | client-core/src/pq_sync.rs:343-351 | another peer's turn is at most a save of what this peer has in memory |
| Sync.FindsTheirRecord | client-core/src/pq_sync.rs:243-248 | the record found is the first whose two peers are the client and that peer, in either role, and none exactly if there is none |
| Sync.EachReadsItsRecord | client-core/src/pq_sync.rs:290-375 | in a cycle, what happens to a listed peer is its turn with the one record about the two of them, or with none |
| Sync.OthersRecordsDoNotMatter | client-core/src/pq_sync.rs:290-375 | replacing the records of other pairs changes nothing about a relationship |
| Sync.TurnFollowsTheDirectory | client-core/src/pq_sync.rs:290-320 | an entry that conflicts with the pinned bundle or introduces a retired peer changes nothing; any other pins the bundle that it lists |
| Sync.OthersArePassedOver | client-core/src/pq_sync.rs:290-305 | entries for servers, for the client itself, or without identifier or bundle are passed over |
| Sync.Syncer.Find | client-core/src/pq_sync.rs:243-248 | the scan finds the record that `FindsTheirRecord` describes |
| Sync.Syncer.Turn | client-core/src/pq_sync.rs:290-375 | observe, reconcile, save, send and note a failure, in place, as specified |
| Sync.Syncer.Apply | client-core/src/pq_sync.rs:274-377 | the loop gives every relevant peer its turn, in order, whatever fails |
| PageWalk.NextAbove | server/src/api/pq.rs:275-294 | the scan finds the least identifier above the cursor |
| PageWalk.ReadPage | server/src/api/pq.rs:202-324 | a page is exactly what lies between its cursor and the next, within all budgets and broken off only when full, of consistent peers, with the reason for each refusal |
| PageWalk.FetchState | client-core/src/pq_sync.rs:217-241 | a success is the whole directory of one revision and each open record that was there throughout, once; an error is that of a visit; and once requests are steady for long enough there is an answer, so that a walk without failing visits succeeds |
| WalkGuard.ViewSeesEveryRow | server/src/db/pq.rs:323-328 | no record of a caller hides behind another of the same counterpart |
| WalkGuard.ViewsAreGuarded | server/src/db/mod.rs:71-78 | two transactions at one visibility revision show the same directory and lose no record |
| WalkRuns.VisitsAreGuarded | server/src/api/pq.rs:202-219 | requests cut out of any run of the mailbox, each checking the caller and sweeping first, are guarded by the revision |
| WalkRuns.SnapshotOfMailbox | client-core/src/pq_sync.rs:217-241 | over any run, what the walk returns is one revision of the mailbox: the caller's peers, and its row with each allowed counterpart once, in a version read during the walk |
| WalkRuns.FetchFromMailbox | client-core/src/pq_sync.rs:217-241 | the same against a mailbox from its first transaction on, whatever others do before and between the requests |
| Admission.RefusalChangesNothing | server/src/pq.rs:176-224 | a refused call leaves every bucket and permit as it was |
| Admission.AdmitConserves | server/src/pq.rs:176-224 | permits are conserved by admission |
| Admission.ReleaseConserves | server/src/pq.rs:138-140 | permits are conserved when they are dropped |
| AdmissionRuns.RunsLeaveReserve | server/src/pq.rs:158-160 | in every run new work leaves each caller's last write slot and the reserved quarter of all |
| AdmissionRuns.AdmittedExactlyWhen | server/src/pq.rs:176-224 | in every run, exactly who is admitted, in terms of token levels and held permits, for new work and other |
| AdmissionRuns.FirstCallIsAdmitted | server/src/pq.rs:176-224 | the first call that a service gets is admitted |
| Admission.RecoveryFindsASlot | server/src/pq.rs:199-223 | recovery work lacks a slot only while other recovery work holds the reserve |
| AdmissionRuns.RateBound | server/src/pq.rs:101-115 | after any run, over any further stretch of calls with readings in any order, admissions are at most burst plus rate times the time, per caller and in all, half for new work |
| AdmissionRuns.RunsStayTuned | server/src/pq.rs:176-224 | from its start on, every run of the service keeps the buckets as configured and the permits conserved |
| AdmissionRuns.RecoveryIsReserved | server/src/pq.rs:144-224 | in every run from the start of the service, recovery calls that fit the share kept from new work are refused only while recovery work itself holds the reserved slots, or to an unknown caller when the table of callers is full |
| AdmissionRuns.FullReserve | server/src/pq.rs:150-171 | full buckets cover new work's half and whatever is left of the other half, so that a first appearance at any time has its share |
| AdmissionService.Service.Open | server/src/pq.rs:46-65 | a service is built exactly for accepted limits |
| AdmissionService.Service.Test | server/src/pq.rs:189-206 | both buckets are taken from on copies, or neither |
| AdmissionService.Service.AdmitCall | server/src/pq.rs:176-224 | admission in place equals its specification |
| AdmissionService.Service.DropPermit | server/src/pq.rs:138-140 | a dropped permit returns its slots |
| Store.LoadsAreAtomic | pq/src/store.rs:265-363 | over every sequence of faults and crashes a load returns the last successful save or one that failed only after its rename |
| Store.SaveSucceedsExactlyWhen | pq/src/store.rs:265-363 | in every run, exactly when a save succeeds; then a load returns what was saved, under the next generation, even after a loss of power |
| Store.HandlesComeInStep | pq/src/store.rs:92-213 | a load, or creating the directory, brings the handle in step with the file |
| Store.EarlyFaultsLeaveNoTrace | pq/src/store.rs:329-356 | a save struck before its rename leaves everything as it was |
| Store.OpeningSettlesTheDirectory | pq/src/store.rs:92-165 | opening makes durable what is visible, and only the creator's handle is fresh |
| Store.LoadReadsExactly | pq/src/store.rs:190-213 | exactly what a load accepts, and how it tells newer versions from corruption |
| Store.GenerationsGrow | pq/src/store.rs:270-299 | the generation that survives a loss of power never goes back |
| Store.SavesReplaceOnlyKnownBytes | pq/src/store.rs:271-299 | a save replaces only bytes that its own handle loaded or wrote, whatever else writes the file |
| Store.LateFailureNeedsReload | pq/src/store.rs:356-362 | after a failure past the rename every save is refused until the handle loads again |
| Store.AbandonedDirectoryStaysEmpty | pq/src/store.rs:92-188 | a directory without a first save can be neither loaded nor saved after a restart |
| Store.Store.Open | pq/src/store.rs:92-165 | one owner at a time, and a fresh handle only for a directory that it created |
| Store.Store.Load | pq/src/store.rs:190-213 | loading in place equals its specification |
| Store.Store.SaveChecked | pq/src/store.rs:265-363 | the ordered steps of a save, struck at any boundary, equal their specification |
| Netlink.MessageIsItems | wireguard-control/src/backends/kernel.rs:235-263 | a message does to a device what its parts do one by one |
| Netlink.WholeConfigures | wireguard-control/src/backends/kernel.rs:235-263 | the update as one message sets exactly the settings that it names and then its peers, after dropping all others if so told |
| Netlink.ApplyPayload.Flush | wireguard-control/src/backends/kernel.rs:285-301 | flushing queues the message under construction and loses nothing |
| Netlink.ApplyPayload.Retain | wireguard-control/src/backends/kernel.rs:286-288 | dropping empty peer lists drops nothing that was pushed |
| Netlink.ApplyPayload.Push | wireguard-control/src/backends/kernel.rs:304-322 | an attribute is added, in order, exactly when it fits a message of its own |
| Netlink.ApplyPayload.PushPeer | wireguard-control/src/backends/kernel.rs:325-367 | a peer is added, in order, exactly when it fits a message of its own |
| Netlink.ApplyPayload.Finish | wireguard-control/src/backends/kernel.rs:369-372 | the queued messages hold everything pushed, and none is too long |
| Netlink.Apply | wireguard-control/src/backends/kernel.rs:235-263 | the split messages, applied in order, do to every device what the whole update does, and configure it as asked |
| Cidr.NestedOrDisjoint | server/src/db/cidr.rs:45-128 | any two networks of a forest are disjoint or nested along the tree |
| Cidr.ReachableTablesAreLaminar | server/src/db/cidr.rs:45-134 | every table that creations and deletions reach is an acyclic laminar forest |
| Cidr.CreateIsAcceptedExactlyWhen | server/src/db/cidr.rs:45-117 | exactly when a creation is accepted; the closest-parent check adds nothing |
| Cidr.CreateAddsTheRow | server/src/db/cidr.rs:101-114 | a creation adds the row asked for under a new identifier, and keeps the rest |
| Cidr.DeleteRemovesTheRow | server/src/db/cidr.rs:132-135 | exactly when a deletion is accepted; it removes that row and no other |
| Cidr.LeavesExact | shared/src/types.rs:287-303 | `leaves` lists each childless row at or below its root exactly once |
| Cidr.Database.Insert | server/src/db/cidr.rs:45-117 | the checks in order and the insertion equal their specification |
| Cidr.Database.Remove | server/src/db/cidr.rs:132-135 | a row is deleted only if nothing refers to it |

## Left out

- Cryptography itself (`pq/native/crypto.c` and the foreign calls of `pq/src/crypto.rs`): terms with the assumptions above; the validity of elliptic-curve keys in a bundle is a parameter of each write.
- HTTP, JSON and base64: a parsed message is a value, and encoded sizes are parameters of the page and the packer. The limit on the size of a stored record is not modelled.
- SQL: tables are maps and a transaction is one atomic step. A visibility revision past i64::MAX is not modelled.
- Several relationships of one endpoint in the two-peer system: it follows one pair. `Sync` shows that the loop over all peers is, for each pair, a run of that system.
- Bundles that another peer advertises enter the two-peer system as any bundle under one of its keys, fresh or stale; the order in which a client sees them is not constrained.
- Theorems.InstallIsSafe: counts a candidate as installed from the call on, whether or not the call succeeds and its result is saved.
- ProgressRuns.ExchangeCompletes: covers one exchange under calls that wait their backoff out; it says nothing after `replace`, which gates every relationship for good, nor about an exchange that a later sequence overtook on the server.
- PageWalk.ReadPage: endpoint addresses that the server fills into listed peers at the moment of reading are not part of a page's directory; they change without a revision.
- Store: temporary files, permissions, links, the size limit on the file and the lock file itself are not modelled; the lock is a flag. A loss of power after a save that failed past its rename may bring back the older file, which the two-peer system covers as a save that failed before it.
- Validation.ValidatesExactlyWhen: covers the check of each exchange in flight with valid bundle keys; the checks of management links, key validity and the number of relationships are not modelled.
- Cidr: renaming a network, which changes nothing else, is not modelled.
- Management-link rotation, invitations, command line, hosts files, NAT traversal and the rest of the user interface: separate from the exchange.
- Protocol: a decision is a value that its owner replaces, where the source assigns its fields in place; the in-place changes are those of the endpoint and of the server's rows.
