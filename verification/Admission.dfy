/**
  Admission control of the mailbox: token buckets and write permits, with capacity
  that new work can never take from recovery work.
*/
module Admission {
  import opened Results
  import opened Numbers

  const U64: nat := 0xffff_ffff_ffff_ffff
  const U32: nat := 0xffff_ffff
  const TOKEN: nat := 1000

  function SatAdd(a: nat, b: nat): nat { Min(a + b, U64) }
  function SatMul(a: nat, b: nat): nat { Min(a * b, U64) }

  // ---------------------------------------------------------------- Limits

  datatype Limits = Limits(
    peerActive: nat, globalActive: nat,
    peerWrites: nat, globalWrites: nat,
    peerRate: nat, peerBurst: nat, globalRate: nat, globalBurst: nat,
    peerIds: nat, bundleIds: nat,
    databaseBytes: nat, recoveryReserveBytes: nat)
  {
    predicate InRange() {
      peerRate <= U32 && peerBurst <= U32 && globalRate <= U32 && globalBurst <= U32
    }

    predicate Accepted() {
      !(peerWrites < 2 || globalWrites < 2 || peerWrites > globalWrites || globalWrites > 256
        || peerRate < 2 || globalRate < 2 || peerBurst < 2 || globalBurst < 2
        || peerActive == 0 || globalActive == 0 || peerIds == 0 || bundleIds == 0
        || databaseBytes <= recoveryReserveBytes || recoveryReserveBytes < globalActive * 4096)
    }

    /** The write slots that new work never gets. */
    function Reserve(): nat {
      Max(globalWrites / 4, 1)
    }
  }

  // ---------------------------------------------------------------- Buckets

  datatype Bucket = Bucket(tokens: nat, last: nat, rate: nat, burst: nat) {
    predicate Ok() {
      tokens <= burst * TOKEN && rate <= U32 && burst <= U32
    }

    function Refill(now: nat): Bucket {
      Bucket(Min(SatAdd(tokens, SatMul(SaturatingSub(now, last), rate)), burst * TOKEN), Max(last, now), rate, burst)
    }

    /** The bucket after a call, and whether a token was there to take. */
    function Take(now: nat): (Bucket, bool) {
      var full := Refill(now);
      if full.tokens < TOKEN then (full, false) else (full.(tokens := full.tokens - TOKEN), true)
    }
  }

  function NewBucket(rate: nat, burst: nat, now: nat): Bucket {
    Bucket(burst * TOKEN, now, rate, burst)
  }

  /** How many tokens a bucket would show at a later time. */
  function Level(b: Bucket, t: nat): nat {
    Min(b.tokens + SaturatingSub(t, b.last) * b.rate, b.burst * TOKEN)
  }

  /** Saturation never shows: the cap is far below the width of the counters. */
  lemma RefillIsLevel(b: Bucket, now: nat)
    requires b.Ok()
    ensures b.Refill(now).tokens == Level(b, now) && b.Refill(now).Ok()
  {
  }

  lemma TimesSplits(rate: nat, a: nat, b: nat)
    ensures (a + b) * rate == a * rate + b * rate
  {
  }

  /** Looking at a bucket in between changes nothing about what it holds later. */
  lemma LevelComposes(b: Bucket, now: nat, t: nat)
    requires b.Ok() && b.last <= now <= t
    ensures Level(b.Refill(now), t) == Level(b, t)
  {
    RefillIsLevel(b, now);
    TimesSplits(b.rate, now - b.last, t - now);
  }

  // ---------------------------------------------------------------- The service

  datatype Caller = Caller(writes: nat, newWrites: nat, all: Bucket, starts: Bucket)

  datatype Permit = Permit(peer: int, isNew: bool)

  datatype Refusal = RateLimited | InvalidQuery

  datatype State = State(all: Bucket, starts: Bucket, peers: map<int, Caller>, writes: nat, newWrites: nat)

  function NewState(l: Limits, now: nat): State {
    State(NewBucket(l.globalRate, l.globalBurst, now), NewBucket(l.globalRate / 2, l.globalBurst / 2, now), map[],
          l.globalWrites, SaturatingSub(l.globalWrites, l.Reserve()))
  }

  function NewCaller(l: Limits, now: nat): Caller {
    Caller(l.peerWrites, SaturatingSub(l.peerWrites, 1), NewBucket(l.peerRate, l.peerBurst, now),
           NewBucket(l.peerRate / 2, l.peerBurst / 2, now))
  }

  /** Both buckets that a call must pass, tested on copies. */
  function TakeBoth(all: Bucket, starts: Bucket, isNew: bool, now: nat): Option<(Bucket, Bucket)> {
    var (starts', started) := if isNew then starts.Take(now) else (starts, true);
    var (all', passed) := all.Take(now);
    if started && passed then Some((all', starts')) else None
  }

  function Admit(l: Limits, s: State, peer: int, isNew: bool, now: nat): (State, Result<Permit, Refusal>) {
    if peer !in s.peers && |s.peers| >= l.peerIds then (s, Err(RateLimited))
    else
      match TakeBoth(s.all, s.starts, isNew, now)
      case None => (s, Err(RateLimited))
      case Some((all, starts)) =>
        var c := if peer in s.peers then s.peers[peer] else NewCaller(l, now);
        var known := s.(peers := s.peers[peer := c]);
        match TakeBoth(c.all, c.starts, isNew, now)
        case None => (known, Err(RateLimited))
        case Some((callerAll, callerStarts)) =>
          if s.writes == 0 || c.writes == 0 || (isNew && (s.newWrites == 0 || c.newWrites == 0)) then (known, Err(RateLimited))
          else
            var debited := c.(writes := c.writes - 1, newWrites := if isNew then c.newWrites - 1 else c.newWrites,
                              all := callerAll, starts := callerStarts);
            (State(all, starts, s.peers[peer := debited], s.writes - 1, if isNew then s.newWrites - 1 else s.newWrites),
             Ok(Permit(peer, isNew)))
  }

  /** Dropping a permit returns its slots. */
  function Release(s: State, p: Permit): State {
    if p.peer !in s.peers then s
    else
      var c := s.peers[p.peer];
      var freed := c.(writes := c.writes + 1, newWrites := if p.isNew then c.newWrites + 1 else c.newWrites);
      s.(peers := s.peers[p.peer := freed], writes := s.writes + 1, newWrites := if p.isNew then s.newWrites + 1 else s.newWrites)
  }

  // ---------------------------------------------------------------- Refusals

  /** A refused call leaves every bucket and permit count as it was; at most it introduces a caller with full buckets. */
  lemma RefusalChangesNothing(l: Limits, s: State, peer: int, isNew: bool, now: nat)
    requires Admit(l, s, peer, isNew, now).1.Err?
    ensures var after := Admit(l, s, peer, isNew, now).0;
            && after.all == s.all && after.starts == s.starts && after.writes == s.writes && after.newWrites == s.newWrites
            && (after.peers == s.peers || (peer !in s.peers && after.peers == s.peers[peer := NewCaller(l, now)]))
  {
    hide TakeBoth, NewCaller;
    if peer in s.peers {
      assert s.peers[peer := s.peers[peer]] == s.peers;
    }
  }

  // ---------------------------------------------------------------- Permits

  function Held(held: seq<Permit>, peer: Option<int>, onlyNew: bool): nat {
    if |held| == 0 then 0
    else
      var p := held[|held| - 1];
      Held(held[..|held| - 1], peer, onlyNew) + if (peer.None? || peer.value == p.peer) && (onlyNew ==> p.isNew) then 1 else 0
  }

  /** Every permit is either with the semaphores or with someone who was admitted. */
  ghost predicate Conserved(l: Limits, s: State, held: seq<Permit>) {
    && s.writes + Held(held, None, false) == l.globalWrites
    && s.newWrites + Held(held, None, true) == SaturatingSub(l.globalWrites, l.Reserve())
    && (forall p :: p in held ==> p.peer in s.peers)
    && (forall q :: q in s.peers ==>
          s.peers[q].writes + Held(held, Some(q), false) == l.peerWrites
          && s.peers[q].newWrites + Held(held, Some(q), true) == SaturatingSub(l.peerWrites, 1))
  }

  lemma HeldAppended(held: seq<Permit>, p: Permit, peer: Option<int>, onlyNew: bool)
    ensures Held(held + [p], peer, onlyNew)
            == Held(held, peer, onlyNew) + if (peer.None? || peer.value == p.peer) && (onlyNew ==> p.isNew) then 1 else 0
  {
    assert (held + [p])[..|held|] == held;
  }

  lemma {:induction false} HeldRemoved(held: seq<Permit>, i: nat, peer: Option<int>, onlyNew: bool)
    requires i < |held|
    ensures Held(held[..i] + held[i + 1..], peer, onlyNew)
            + (if (peer.None? || peer.value == held[i].peer) && (onlyNew ==> held[i].isNew) then 1 else 0)
            == Held(held, peer, onlyNew)
    decreases |held|
  {
    var n := |held| - 1;
    if i == n {
      assert held[..i] + held[i + 1..] == held[..n];
    } else {
      var rest := held[..i] + held[i + 1..];
      HeldRemoved(held[..n], i, peer, onlyNew);
      assert rest[..|rest| - 1] == held[..n][..i] + held[..n][i + 1..];
      assert rest[|rest| - 1] == held[n];
    }
  }

  lemma {:induction false} HeldByStranger(held: seq<Permit>, q: int, onlyNew: bool)
    requires forall p :: p in held ==> p.peer != q
    ensures Held(held, Some(q), onlyNew) == 0
  {
    if |held| > 0 {
      assert held[|held| - 1] in held;
      HeldByStranger(held[..|held| - 1], q, onlyNew);
    }
  }

  lemma AdmitConserves(l: Limits, s: State, held: seq<Permit>, peer: int, isNew: bool, now: nat)
    requires Conserved(l, s, held)
    ensures var (after, result) := Admit(l, s, peer, isNew, now);
            Conserved(l, after, if result.Ok? then held + [result.value] else held)
  {
    var (after, result) := Admit(l, s, peer, isNew, now);
    if peer !in s.peers {
      HeldByStranger(held, peer, false);
      HeldByStranger(held, peer, true);
    }
    hide TakeBoth, NewBucket, Held;
    if result.Ok? {
      var p := result.value;
      HeldAppended(held, p, None, false);
      HeldAppended(held, p, None, true);
      forall q | q in after.peers
        ensures Held(held + [p], Some(q), false) == Held(held, Some(q), false) + if q == p.peer then 1 else 0
        ensures Held(held + [p], Some(q), true) == Held(held, Some(q), true) + if q == p.peer && p.isNew then 1 else 0
      {
        HeldAppended(held, p, Some(q), false);
        HeldAppended(held, p, Some(q), true);
      }
    }
  }

  lemma ReleaseConserves(l: Limits, s: State, held: seq<Permit>, i: nat)
    requires Conserved(l, s, held) && i < |held|
    ensures Conserved(l, Release(s, held[i]), held[..i] + held[i + 1..])
  {
    var p, rest := held[i], held[..i] + held[i + 1..];
    assert p in held;
    HeldRemoved(held, i, None, false);
    HeldRemoved(held, i, None, true);
    hide Held;
    forall q | q in s.peers
      ensures Held(rest, Some(q), false) + (if q == p.peer then 1 else 0) == Held(held, Some(q), false)
      ensures Held(rest, Some(q), true) + (if q == p.peer && p.isNew then 1 else 0) == Held(held, Some(q), true)
    {
      HeldRemoved(held, i, Some(q), false);
      HeldRemoved(held, i, Some(q), true);
    }
  }

  /** New work never holds the last slot of a caller, nor the reserved quarter of all slots. */
  lemma NewWorkLeavesReserve(l: Limits, s: State, held: seq<Permit>, peer: int)
    requires l.Accepted() && Conserved(l, s, held) && peer in s.peers
    ensures Held(held, Some(peer), true) <= l.peerWrites - 1
    ensures Held(held, None, true) <= l.globalWrites - l.Reserve()
  {
  }

  lemma {:induction false} NewAreSome(held: seq<Permit>, peer: Option<int>)
    ensures Held(held, peer, true) <= Held(held, peer, false)
  {
    if |held| > 0 {
      NewAreSome(held[..|held| - 1], peer);
    }
  }

  /** Recovery work is refused a slot only while other recovery work holds the reserve. */
  lemma RecoveryFindsASlot(l: Limits, s: State, held: seq<Permit>, peer: int)
    requires l.Accepted() && Conserved(l, s, held) && peer in s.peers
    requires Held(held, Some(peer), false) == Held(held, Some(peer), true)
    requires Held(held, None, false) - Held(held, None, true) < l.Reserve()
    ensures s.writes > 0 && s.peers[peer].writes > 0
  {
    NewWorkLeavesReserve(l, s, held, peer);
  }
}
