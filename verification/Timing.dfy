/** When an endpoint retries, when it opens an exchange, and what it takes from the directory. */
module Timing {
  import opened Results
  import opened Numbers
  import opened Protocol
  import opened Mailbox
  import opened Engine
  import opened EngineFacts

  /** The delays that a retry may have after so many failures in a row. */
  function Window(attempts: nat): nat {
    Min(BACKOFF_CAP, Pow2(Min(attempts, 6)))
  }

  lemma RemainderBelow(a: nat, b: nat)
    requires b >= 1
    ensures 0 <= a % b < b
    ensures a < b ==> a % b == a
  {
  }

  /** The count of failures in a row after one more. */
  function NextAttempts(attempts: nat): nat {
    Min(attempts + 1, MAX_U32)
  }

  /**
    The backoff. A noted failure counts on, up to the width of the counter, and puts the
    next try between one second and the window of the new count from now, a minute at
    most, or at the end of the clock; windows never shrink.
  */
  lemma BackoffIsBounded(r: Relationship, now: nat, random: Byte)
    requires r.pending.Some? && r.pending.value.attempts <= MAX_U32 && now <= MAX_U64
    ensures NoteSendFailure(r, now, random).Ok?
    ensures var p, q := r.pending.value, NoteSendFailure(r, now, random).value.pending;
            var n := NextAttempts(p.attempts);
            && NoteSendFailure(r, now, random).value == r.(pending := q) && q.Some?
            && q.value == p.(attempts := n, nextRetryAt := q.value.nextRetryAt)
            && p.attempts <= n <= MAX_U32 && (n == p.attempts <==> p.attempts == MAX_U32)
            && Min(now + 1, MAX_U64) <= q.value.nextRetryAt <= Min(now + Window(n), MAX_U64)
            && (now < MAX_U64 ==> now < q.value.nextRetryAt)
            && Window(p.attempts) <= Window(n) <= 60
  {
    var n := NextAttempts(r.pending.value.attempts);
    if Min(r.pending.value.attempts, 6) < Min(n, 6) {
      Pow2Grows(Min(r.pending.value.attempts, 6), Min(n, 6));
    }
    hide Pow2;
    RemainderBelow(random, Window(n));
  }

  /** Every delay of the window is taken for some random byte. */
  lemma EveryDelayIsTaken(r: Relationship, now: nat, delay: Byte)
    requires r.pending.Some? && r.pending.value.attempts <= MAX_U32 && now <= MAX_U64
    requires 1 <= delay <= Window(NextAttempts(r.pending.value.attempts))
    ensures NoteSendFailure(r, now, delay - 1).Ok?
    ensures NoteSendFailure(r, now, delay - 1).value.pending.Some?
    ensures NoteSendFailure(r, now, delay - 1).value.pending.value.nextRetryAt == Min(now + delay, MAX_U64)
  {
    hide Pow2;
    RemainderBelow(delay - 1, Window(NextAttempts(r.pending.value.attempts)));
  }

  /**
    Opening. An initiator with nothing in flight opens an exchange exactly when it has
    never completed one, or the interval has passed and the tunnel is not idle; a first
    exchange, a disabled pause and a missing activity sample never wait.
  */
  lemma OpensExactlyWhenDue(self: Identity, other: Number, r: Relationship, remote: Option<Exchange>, c: Cycle)
    requires self.peerId < other && r.pending.None? && !r.gated && r.status != Status.Blocked && self.enrollment != Enrollment.Retiring
    requires r.sequence < MAX_NUMBER
    ensures var out := Reconcile(self, other, r, remote, c);
            && (out.relationship.pending.Some? <==>
                  r.confirmed.None?
                  || (SaturatingSub(c.now, r.confirmed.value.completedAt) >= c.rotationInterval
                      && (c.idleTimeout == 0 || r.activity.None?
                          || SaturatingSub(c.now, r.activity.value.lastActiveAt) < c.idleTimeout)))
            && (out.relationship.pending.Some? ==>
                  out.relationship.sequence == r.sequence + 1 && out.relationship.pending.value.transcript.sequence == r.sequence)
            && (out.relationship.pending.None? ==> out == Quiet(r, Ok(Idle)))
  {
    StartFacts(self, other, r, c);
    StartSigns(self, other, r, c);
    hide Start, Opened, Continue, Join;
    if Start(self, other, r, c).relationship.pending.Some? {
      OpenedSequence(self, other, r, c);
    }
  }

  lemma StartSigns(self: Identity, other: Number, r: Relationship, c: Cycle)
    requires self.peerId < other && r.pending.None? && r.sequence < MAX_NUMBER
    ensures Start(self, other, r, c).relationship.pending.Some? <==> Due(r, c)
    ensures !Due(r, c) ==> Start(self, other, r, c) == Quiet(r, Ok(Idle))
  {
    var t := NewTranscript(self, other, r, c);
    var candidate := CandidateFor(t, r.operatorPsk);
    assert Signed(t, Kind.Propose, self.peerId, candidate, self.bundle.sigPublicKey).Ok?;
    hide Signed;
  }

  lemma OpenedSequence(self: Identity, other: Number, r: Relationship, c: Cycle)
    requires Opened(self, other, true, r, Start(self, other, r, c), NewTranscript(self, other, r, c))
    ensures Start(self, other, r, c).relationship.pending.value.transcript.sequence == r.sequence
  {
    hide PendingShape, Placed, Justified, Start;
  }

  /**
    The directory never takes a relationship back: the pinned bundle only moves to a
    higher revision, a replay or a conflicting bundle changes nothing, and an exchange
    pinned to a bundle that was replaced is dropped.
  */
  lemma DirectoryNeverRollsBack(self: Identity, other: Number, r: Relationship, bundle: Bundle, lifecycle: Lifecycle)
    ensures var observed := Observe(self, other, r, bundle, lifecycle);
            && (observed.Ok? <==> bundle == r.remote || bundle.bundleRevision > r.remote.bundleRevision)
            && (observed.Ok? ==>
                  var after := observed.value;
                  && after.remote == bundle && after.sequence == r.sequence && after.confirmed == r.confirmed && after.gated == r.gated
                  && (after.pending.Some? ==>
                        after.pending == r.pending && lifecycle == Lifecycle.Enabled
                        && (bundle.bundleId == r.remote.bundleId
                            || SideBundle(r.pending.value.transcript, self.peerId >= other).bundleId != r.remote.bundleId))
                  && (lifecycle == Lifecycle.Retired ==> after.status == Status.Blocked)
                  && (lifecycle == Lifecycle.Enabled && !r.gated ==> after.status != Status.Blocked))
  {
  }
}
