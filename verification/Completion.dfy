/**
  What calls of `reconcile` leave behind for the next ones: completed keys and when they
  are renewed, newly queued messages, failed installations, and relationships at rest.
*/
module Completion {
  import opened Results
  import opened Numbers
  import opened Protocol
  import opened Mailbox
  import opened Engine
  import opened EngineFacts
  import opened Sync
  import opened Timing

  // ---------------------------------------------------------------- Completion

  /** The key that completing this exchange at this time leaves confirmed. */
  ghost predicate KeyOf(self: Identity, r: Relationship, p: Pending, now: nat, key: ConfirmedKey) {
    && key.localBundleId == self.bundle.bundleId && key.remoteBundleId == r.remote.bundleId
    && key.sequence == p.transcript.sequence && key.exchangeId == p.transcript.exchangeId
    && key.transcriptHash == Sha3(p.transcript) && key.psk == Psk(p.candidate)
    && key.completedAt == now
  }

  lemma DriveCompletes(self: Identity, other: Number, r: Relationship, p: Pending, c: Cycle)
    requires Drive(self, other, r, p, c).result == Ok(Action.Complete)
    ensures var out := Drive(self, other, r, p, c);
            && out.relationship.confirmed.Some? && KeyOf(self, r, p, c.now, out.relationship.confirmed.value)
            && out.relationship == r.(pending := None, confirmed := out.relationship.confirmed, priorPq := true, status := Status.Confirmed)
            && out.installs.None?
  {
    hide Signed, Decision.Advance;
  }

  /**
    A call that completes leaves the exchange's key confirmed, under both bundles and at
    the time of the call, with nothing in flight and all else as it was.
  */
  lemma CompletionIsRecorded(self: Identity, other: Number, r: Relationship, remote: Option<Exchange>, c: Cycle)
    requires Reconcile(self, other, r, remote, c).result == Ok(Action.Complete)
    ensures var after := Reconcile(self, other, r, remote, c).relationship;
            && r.pending.Some? && !r.gated && r.status != Status.Blocked && self.enrollment != Enrollment.Retiring
            && after.confirmed.Some? && KeyOf(self, r, r.pending.value, c.now, after.confirmed.value)
            && after == r.(pending := None, confirmed := after.confirmed, priorPq := true, status := Status.Confirmed)
  {
    hide Start, Join, Drive, Absorb, DurablySent, KeyOf;
    if r.pending.Some? {
      var p := r.pending.value;
      ContinueCompletes(self, other, r, p, remote, c);
    } else {
      OpeningNeverCompletes(self, other, r, remote, c);
    }
  }

  lemma ContinueCompletes(self: Identity, other: Number, r: Relationship, p: Pending, remote: Option<Exchange>, c: Cycle)
    requires Continue(self, other, r, p, remote, c).result == Ok(Action.Complete)
    ensures var after := Continue(self, other, r, p, remote, c).relationship;
            && after.confirmed.Some? && KeyOf(self, r, p, c.now, after.confirmed.value)
            && after == r.(pending := None, confirmed := after.confirmed, priorPq := true, status := Status.Confirmed)
  {
    var p' := p.(decision := Absorb(p, remote, other).0);
    hide Absorb, Drive, DurablySent;
    if Drive(self, other, r, p', c).result == Ok(Action.Complete) {
      DriveCompletes(self, other, r, p', c);
    }
  }

  lemma OpeningNeverCompletes(self: Identity, other: Number, r: Relationship, remote: Option<Exchange>, c: Cycle)
    ensures Start(self, other, r, c).result != Ok(Action.Complete) && Join(self, other, r, remote).result != Ok(Action.Complete)
  {
    hide Signed, FindProposal, Message.Authenticate, Message.Confirm, Decision.Advance;
  }

  /** The tunnel has been idle for so long that renewing its key waits. */
  predicate IdlePaused(r: Relationship, c: Cycle) {
    c.idleTimeout != 0 && r.activity.Some? && SaturatingSub(c.now, r.activity.value.lastActiveAt) >= c.idleTimeout
  }

  /**
    Renewal, over two calls. After an initiator has completed an exchange, its next call
    stays idle until the interval has passed since that completion; from then on it opens
    the next exchange, unless the tunnel is idle.
  */
  lemma RenewalWaitsForTheInterval(self: Identity, other: Number, r: Relationship, remote: Option<Exchange>, c: Cycle,
                                   next: Option<Exchange>, c2: Cycle)
    requires self.peerId < other && r.sequence < MAX_NUMBER
    requires Reconcile(self, other, r, remote, c).result == Ok(Action.Complete)
    ensures var after := Reconcile(self, other, r, remote, c).relationship;
            var out := Reconcile(self, other, after, next, c2);
            var due := SaturatingSub(c2.now, c.now) >= c2.rotationInterval && !IdlePaused(r, c2);
            && (due ==> out.relationship.pending.Some? && out.relationship.sequence == r.sequence + 1
                        && out.relationship.pending.value.transcript.sequence == r.sequence
                        && out.relationship.confirmed == after.confirmed)
            && (!due ==> out == Quiet(after, Ok(Idle)))
  {
    CompletionIsRecorded(self, other, r, remote, c);
    var after := Reconcile(self, other, r, remote, c).relationship;
    OpensExactlyWhenDue(self, other, after, next, c2);
    OpeningKeepsConfirmed(self, other, after, c2);
    hide Start, Continue, Join;
  }

  lemma OpeningKeepsConfirmed(self: Identity, other: Number, r: Relationship, c: Cycle)
    ensures Start(self, other, r, c).relationship.confirmed == r.confirmed
  {
    hide Signed;
  }

  // ---------------------------------------------------------------- New messages, failed installations

  predicate Grew(r: Relationship, after: Relationship) {
    after.pending.Some? && (r.pending.None? || |after.pending.value.outbox| > |r.pending.value.outbox|)
  }

  lemma DriveQueues(self: Identity, other: Number, r: Relationship, p: Pending, c: Cycle)
    requires r.pending.Some? && r.pending.value.outbox == p.outbox
    ensures var out := Drive(self, other, r, p, c);
            Grew(r, out.relationship) ==>
              var q := out.relationship.pending.value;
              q.attempts == 0 && q.nextRetryAt == 0 && out.result == Ok(Send(q.outbox[|q.outbox| - 1]))
  {
    hide Signed, Decision.Advance;
  }

  /** A message that a call queues is due at once, whatever the retries of the one before it, and is what the call sends. */
  lemma NewMessageIsDue(self: Identity, other: Number, r: Relationship, remote: Option<Exchange>, c: Cycle)
    requires Grew(r, Reconcile(self, other, r, remote, c).relationship)
    ensures var out := Reconcile(self, other, r, remote, c);
            var q := out.relationship.pending.value;
            q.attempts == 0 && q.nextRetryAt == 0 && |q.outbox| > 0 && out.result == Ok(Send(q.outbox[|q.outbox| - 1]))
  {
    hide Start, Join, Absorb, DurablySent, Drive;
    if r.pending.Some? {
      DriveQueues(self, other, r, r.pending.value.(decision := Absorb(r.pending.value, remote, other).0), c);
    } else {
      OpeningQueues(self, other, r, remote, c);
    }
  }

  lemma OpeningQueues(self: Identity, other: Number, r: Relationship, remote: Option<Exchange>, c: Cycle)
    requires r.pending.None?
    ensures var out := Start(self, other, r, c);
            out.relationship.pending.Some? ==>
              var q := out.relationship.pending.value;
              q.attempts == 0 && q.nextRetryAt == 0 && |q.outbox| == 1 && out.result == Ok(Send(q.outbox[0]))
    ensures var out := Join(self, other, r, remote);
            out.relationship.pending.Some? ==>
              var q := out.relationship.pending.value;
              q.attempts == 0 && q.nextRetryAt == 0 && |q.outbox| == 1 && out.result == Ok(Send(q.outbox[0]))
  {
    hide Signed, Due, FindProposal, Message.Authenticate, Message.Confirm, Decision.Advance;
  }

  lemma DriveInstalls(self: Identity, other: Number, r: Relationship, p: Pending, c: Cycle)
    ensures var out := Drive(self, other, r, p, c);
            out.installs.Some? ==>
              out.installs == Some(p.candidate) && !p.installed && p.decision.phase == Phase.Committed
              && (!c.installSucceeds ==> out.result == Err(Error.Installer) && out.relationship == r.(pending := Some(p)))
  {
    hide Signed, Decision.Advance;
  }

  /**
    An installation that fails is reported and queues nothing: the exchange stays where
    the record has brought it, uninstalled, so that the next call tries again.
  */
  lemma FailedInstallIsReported(self: Identity, other: Number, r: Relationship, remote: Option<Exchange>, c: Cycle)
    requires Reconcile(self, other, r, remote, c).installs.Some? && !c.installSucceeds
    ensures var out := Reconcile(self, other, r, remote, c);
            && r.pending.Some? && out.installs == Some(r.pending.value.candidate) && out.result == Err(Error.Installer)
            && out.relationship.pending.Some? && !out.relationship.pending.value.installed
            && out.relationship == r.(pending := Some(r.pending.value.(decision := out.relationship.pending.value.decision)))
  {
    hide Start, Join, Absorb, DurablySent, Drive;
    if r.pending.Some? {
      DriveInstalls(self, other, r, r.pending.value.(decision := Absorb(r.pending.value, remote, other).0), c);
    } else {
      OpeningInstallsNothing(self, other, r, remote, c);
    }
  }

  lemma OpeningInstallsNothing(self: Identity, other: Number, r: Relationship, remote: Option<Exchange>, c: Cycle)
    ensures Start(self, other, r, c).installs.None? && Join(self, other, r, remote).installs.None?
  {
    hide Signed, Due, FindProposal, Message.Authenticate, Message.Confirm, Decision.Advance;
  }

  lemma DriveConfirms(self: Identity, other: Number, r: Relationship, p: Pending, c: Cycle, e: Error)
    requires var q := Drive(self, other, r, p, c.(handshake := Ok(true))).relationship.pending;
             q.Some? && q.value.confirmed && !p.confirmed
    ensures Drive(self, other, r, p, c.(handshake := Ok(false))) == Quiet(r.(pending := Some(p)), Ok(Idle))
    ensures Drive(self, other, r, p, c.(handshake := Err(e))) == Quiet(r.(pending := Some(p)), Err(Error.Installer))
  {
    hide Signed, Decision.Advance;
  }

  /**
    Confirmation takes a handshake. Where a call would confirm an exchange once the new
    key has been seen in use, it waits while it has not, and fails if it cannot tell; in
    both cases nothing is queued.
  */
  lemma ConfirmationTakesAHandshake(self: Identity, other: Number, r: Relationship, remote: Option<Exchange>, c: Cycle, e: Error)
    requires r.pending.Some? && !r.pending.value.confirmed
    requires var q := Reconcile(self, other, r, remote, c.(handshake := Ok(true))).relationship.pending; q.Some? && q.value.confirmed
    ensures var unseen := Reconcile(self, other, r, remote, c.(handshake := Ok(false)));
            var unknown := Reconcile(self, other, r, remote, c.(handshake := Err(e)));
            && unseen.result == Ok(Idle) && unknown.result == Err(Error.Installer) && unseen.relationship == unknown.relationship
            && unseen.relationship.pending.Some? && !unseen.relationship.pending.value.confirmed
            && unseen.relationship == r.(pending := Some(r.pending.value.(decision := unseen.relationship.pending.value.decision)))
  {
    hide Start, Join, Absorb, DurablySent, Drive;
    DriveConfirms(self, other, r, r.pending.value.(decision := Absorb(r.pending.value, remote, other).0), c, e);
  }

  // ---------------------------------------------------------------- Forged messages

  /** One message more, after a fold. */
  lemma {:induction false} FoldAppends(messages: seq<Message>, m: Message, other: Number, t: Transcript, candidate: Candidate, d: Decision)
    ensures var before := Fold(messages, other, t, candidate, d);
            Fold(messages + [m], other, t, candidate, d)
            == if before.1.Err? then before else Fold([m], other, t, candidate, before.0)
    decreases |messages|
  {
    hide Message.ValidateShape, Message.Authenticate, Message.Confirm, Decision.Advance;
    if |messages| == 0 {
      assert messages + [m] == [m];
    } else {
      assert (messages + [m])[1..] == messages[1..] + [m];
      var first := messages[0];
      var trial := if first.ValidateShape().Ok? then d.Advance(first.ValidateShape().value, first.header.senderId == t.initiatorId) else Err(Invalid);
      FoldAppends(messages[1..], m, other, t, candidate, d);
      if trial.Ok? { FoldAppends(messages[1..], m, other, t, candidate, trial.value); }
    }
  }

  /** The message, read at this decision, is no forgery: not the counterpart's, out of turn, or what the counterpart signed. */
  predicate Sincere(m: Message, other: Number, t: Transcript, candidate: Candidate, d: Decision) {
    m.header.senderId != other
    || (m.ValidateShape().Ok?
        && (d.Advance(m.ValidateShape().value, m.header.senderId == t.initiatorId).Ok? ==> m.Authenticate(t).Ok? && m.Confirm(candidate).Ok?))
  }

  /**
    Reading a record fails exactly at a forgery: some message in the counterpart's name
    that is malformed, or that would move the decision reached by the messages before it
    without being authentic for the exchange.
  */
  lemma {:induction false} FoldFailsExactlyAtForgeries(messages: seq<Message>, other: Number, t: Transcript, candidate: Candidate, d: Decision)
    ensures Fold(messages, other, t, candidate, d).1.Ok?
            <==> forall i :: 0 <= i < |messages| ==> Sincere(messages[i], other, t, candidate, Fold(messages[..i], other, t, candidate, d).0)
    decreases |messages|
  {
    if |messages| > 0 {
      var n := |messages| - 1;
      var init, last := messages[..n], messages[n];
      assert init + [last] == messages;
      FoldAppends(init, last, other, t, candidate, d);
      FoldFailsExactlyAtForgeries(init, other, t, candidate, d);
      FoldOne(last, other, t, candidate, Fold(init, other, t, candidate, d).0);
      hide Fold, Sincere;
      assert forall i :: 0 <= i < n ==> messages[i] == init[i] && messages[..i] == init[..i];
    }
  }

  lemma FoldOne(m: Message, other: Number, t: Transcript, candidate: Candidate, d: Decision)
    ensures Fold([m], other, t, candidate, d).1.Ok? <==> Sincere(m, other, t, candidate, d)
  {
    hide Message.ValidateShape, Message.Authenticate, Message.Confirm, Decision.Advance;
    assert [m][1..] == [];
  }

  // ---------------------------------------------------------------- Relationships at rest

  /**
    After the endpoint's bundle was replaced, or it was retired in an emergency, every
    call for any peer is idle, and stays so through any directory entry.
  */
  lemma FencedStaysIdle(self: Identity, other: Number, r: Relationship, bundle: Bundle, lifecycle: Lifecycle, remote: Option<Exchange>, c: Cycle)
    ensures forall fenced :: fenced in {Fenced(r), Discarded(r)} ==>
              && Reconcile(self, other, fenced, remote, c) == Quiet(fenced, Ok(Idle))
              && (Observe(self, other, fenced, bundle, lifecycle).Ok? ==>
                    var seen := Observe(self, other, fenced, bundle, lifecycle).value;
                    Reconcile(self, other, seen, remote, c) == Quiet(seen, Ok(Idle)))
    ensures Discarded(r).confirmed.None? && Discarded(r).pending.None? && Fenced(r).confirmed == r.confirmed
  {
    hide Continue, Start, Join;
  }

  /** While an endpoint retires it neither opens nor answers nor goes on with anything, and it keeps its confirmed keys. */
  lemma RetiringStaysIdle(self: Identity, other: Number, r: Relationship, remote: Option<Exchange>, c: Cycle)
    requires self.enrollment == Enrollment.Retiring
    ensures Reconcile(self, other, Drained(r), remote, c) == Quiet(Drained(r), Ok(Idle))
    ensures Drained(r).pending.None? && Drained(r).confirmed == r.confirmed
  {
    hide Continue, Start, Join;
  }

  // ---------------------------------------------------------------- Activity

  /**
    The activity sample follows the byte counters: it moves to the present exactly when
    they differ from the last sample, so that an idle tunnel keeps its old mark.
  */
  lemma ActivityFollowsTheCounters(r: Relationship, now: nat, counters: Option<(nat, nat)>)
    ensures var after := Sampled(r, now, counters);
            && after == r.(activity := after.activity)
            && (after.activity != r.activity ==> counters.Some? && after.activity == Some(Activity(counters.value.0, counters.value.1, now)))
            && (counters.Some? ==>
                  after.activity.Some? && (after.activity.value.rxBytes, after.activity.value.txBytes) == counters.value
                  && (after.activity.value.lastActiveAt == now
                      || (r.activity.Some? && after.activity == r.activity)))
            && (counters.Some? && r.activity.Some? && (r.activity.value.rxBytes, r.activity.value.txBytes) == counters.value ==> after == r)
  {
  }

  /**
    An idle tunnel is not renewed: with the counters where they were at the last sample,
    and that sample older than the timeout, a turn of an initiator at rest opens nothing.
  */
  lemma IdleTunnelIsNotRenewed(self: Identity, other: Number, r: Relationship, counters: (nat, nat), remote: Option<Exchange>, c: Cycle)
    requires self.peerId < other && r.pending.None? && !r.gated && r.status != Status.Blocked && self.enrollment != Enrollment.Retiring
    requires r.confirmed.Some? && r.sequence < MAX_NUMBER && r.activity.Some?
    ensures var out := Reconcile(self, other, Sampled(r, c.now, Some(counters)), remote, c);
            out.relationship.pending.Some? <==>
              SaturatingSub(c.now, r.confirmed.value.completedAt) >= c.rotationInterval
              && (c.idleTimeout == 0 || (r.activity.value.rxBytes, r.activity.value.txBytes) != counters
                  || SaturatingSub(c.now, r.activity.value.lastActiveAt) < c.idleTimeout)
  {
    OpensExactlyWhenDue(self, other, Sampled(r, c.now, Some(counters)), remote, c);
    hide Reconcile;
  }
}
