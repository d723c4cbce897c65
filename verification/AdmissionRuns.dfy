/** Admission control over whole sequences of calls: rate bounds and the recovery reservation. */
module AdmissionRuns {
  import opened Results
  import opened Numbers
  import opened Admission

  // ---------------------------------------------------------------- Runs

  /** A call for admission with its clock reading, or the drop of a permit that is held. */
  datatype Event = Ask(peer: int, isNew: bool, now: nat) | Drop(index: nat)

  datatype Run = Run(state: State, held: seq<Permit>)

  function Step(l: Limits, r: Run, e: Event): Run {
    match e
    case Ask(peer, isNew, now) =>
      var (after, result) := Admit(l, r.state, peer, isNew, now);
      Run(after, if result.Ok? then r.held + [result.value] else r.held)
    case Drop(i) =>
      if i < |r.held| then Run(Release(r.state, r.held[i]), r.held[..i] + r.held[i + 1..]) else r
  }

  function After(l: Limits, r: Run, events: seq<Event>): Run
    decreases |events|
  {
    if |events| == 0 then r else After(l, Step(l, r, events[0]), events[1..])
  }

  /** Which bucket a bound is about. */
  datatype Which = Everyone | EveryoneNew | Peer(id: int) | PeerNew(id: int)

  function BucketOf(s: State, w: Which): Option<Bucket> {
    match w
    case Everyone => Some(s.all)
    case EveryoneNew => Some(s.starts)
    case Peer(p) => if p in s.peers then Some(s.peers[p].all) else None
    case PeerNew(p) => if p in s.peers then Some(s.peers[p].starts) else None
  }

  predicate Counts(w: Which, peer: int, isNew: bool) {
    match w
    case Everyone => true
    case EveryoneNew => isNew
    case Peer(p) => peer == p
    case PeerNew(p) => peer == p && isNew
  }

  function Admissions(l: Limits, r: Run, events: seq<Event>, w: Which): nat
    decreases |events|
  {
    if |events| == 0 then 0
    else
      var e := events[0];
      var one := if e.Ask? && Counts(w, e.peer, e.isNew) && Admit(l, r.state, e.peer, e.isNew, e.now).1.Ok? then 1 else 0;
      one + Admissions(l, Step(l, r, e), events[1..], w)
  }

  function RateOf(l: Limits, w: Which): nat {
    match w
    case Everyone => l.globalRate
    case EveryoneNew => l.globalRate / 2
    case Peer(_) => l.peerRate
    case PeerNew(_) => l.peerRate / 2
  }

  function BurstOf(l: Limits, w: Which): nat {
    match w
    case Everyone => l.globalBurst
    case EveryoneNew => l.globalBurst / 2
    case Peer(_) => l.peerBurst
    case PeerNew(_) => l.peerBurst / 2
  }

  ghost predicate Tuned(l: Limits, s: State) {
    forall w :: BucketOf(s, w).Some? ==> BucketOf(s, w).value.Ok() && BucketOf(s, w).value.rate == RateOf(l, w)
                                         && BucketOf(s, w).value.burst == BurstOf(l, w)
  }

  /** What one event does to one bucket: nothing, a first appearance, or a token taken. */
  ghost predicate Moves(l: Limits, before: Option<Bucket>, after: Option<Bucket>, w: Which, e: Event, admitted: bool) {
    if admitted then
      e.Ask? && after.Some?
      && var b := if before.Some? then before.value else NewBucket(RateOf(l, w), BurstOf(l, w), e.now);
         b.Take(e.now) == (after.value, true)
    else
      after == before || (before.None? && e.Ask? && after == Some(NewBucket(RateOf(l, w), BurstOf(l, w), e.now)))
  }

  lemma StepMoves(l: Limits, r: Run, e: Event, w: Which)
    requires forall p :: p in r.held ==> p.peer in r.state.peers
    ensures var admitted := e.Ask? && Counts(w, e.peer, e.isNew) && Admit(l, r.state, e.peer, e.isNew, e.now).1.Ok?;
            Moves(l, BucketOf(r.state, w), BucketOf(Step(l, r, e).state, w), w, e, admitted)
    ensures forall p :: p in Step(l, r, e).held ==> p.peer in Step(l, r, e).state.peers
  {
    hide Bucket.Take, NewBucket;
  }

  // ---------------------------------------------------------------- The rate bound

  /**
    What a bucket can have given since the start of a window at reading `t0`, when it
    then stood at `start`: what it could hold, and what time has added since.
  */
  predicate Spent(n: nat, b: Bucket, start: nat, t0: nat) {
    && b.Ok() && start <= b.last
    && TOKEN * n + b.tokens <= b.burst * TOKEN + SaturatingSub(b.last, Max(start, t0)) * b.rate
    && (n > 0 ==> b.last >= Max(start, t0))
  }

  lemma RefillAtMost(b: Bucket, now: nat)
    requires b.Ok() && b.last < now
    ensures b.Refill(now).tokens <= b.tokens + (now - b.last) * b.rate && b.Refill(now).tokens <= b.burst * TOKEN
  {
    RefillIsLevel(b, now);
    hide Bucket.Refill;
  }

  lemma NeverNegative(a: nat, b: nat)
    ensures a * b >= 0
  {
  }

  /** The bound of a window, with the time before and after the last reading. */
  lemma WindowSplits(spent: nat, tokens: nat, full: nat, cap: nat, rate: nat, before: nat, after: nat)
    requires spent + tokens <= cap + before * rate && full <= tokens + after * rate
    ensures spent + full <= cap + (before + after) * rate
  {
    TimesSplits(rate, before, after);
  }

  /** What time adds to a bucket, the bound allows. */
  lemma RefillStaysBounded(n: nat, b: Bucket, start: nat, t0: nat, now: nat)
    requires Spent(n, b, start, t0) && b.last < now && t0 <= now
    ensures TOKEN * n + b.Refill(now).tokens <= b.burst * TOKEN + (now - Max(start, t0)) * b.rate
  {
    var from := Max(start, t0);
    RefillAtMost(b, now);
    NeverNegative(now - from, b.rate);
    if b.last >= from {
      assert SaturatingSub(b.last, from) == b.last - from;
      hide Bucket.Refill, Level;
      WindowSplits(TOKEN * n, b.tokens, b.Refill(now).tokens, b.burst * TOKEN, b.rate, b.last - from, now - b.last);
    } else {
      hide Bucket.Refill, Level;
    }
  }

  lemma TakeSpends(n: nat, b: Bucket, start: nat, t0: nat, now: nat)
    requires Spent(n, b, start, t0) && t0 <= now && b.Take(now).1
    ensures Spent(n + 1, b.Take(now).0, start, t0)
    ensures b.Take(now).0.rate == b.rate && b.Take(now).0.burst == b.burst && b.Take(now).0.last == Max(b.last, now)
  {
    var full := b.Refill(now);
    RefillIsLevel(b, now);
    assert full.last == Max(b.last, now) && full.rate == b.rate && full.burst == b.burst;
    if now > b.last {
      RefillStaysBounded(n, b, start, t0, now);
    } else {
      assert SaturatingSub(now, b.last) * b.rate == 0;
      assert full.tokens == b.tokens && full.last == b.last;
    }
    hide Bucket.Refill, Level;
  }

  /** The bound, for a window whose readings lie between `t0` and `t1` in any order. */
  lemma SpentIsBounded(n: nat, b: Bucket, start: nat, t0: nat, t1: nat)
    requires Spent(n, b, start, t0) && b.last <= Max(start, t1) && t0 <= t1
    ensures TOKEN * n <= b.burst * TOKEN + (t1 - t0) * b.rate
  {
    var grown := SaturatingSub(b.last, Max(start, t0));
    assert grown <= t1 - t0;
    TimesSplits(b.rate, grown, t1 - t0 - grown);
  }

  predicate ReadingsWithin(events: seq<Event>, t0: nat, t1: nat) {
    forall e :: e in events && e.Ask? ==> t0 <= e.now <= t1
  }

  /** A bucket inside a window, after some admissions of it. */
  ghost predicate InWindow(l: Limits, b: Option<Bucket>, w: Which, n: nat, start: nat, t0: nat, t1: nat) {
    if b.Some? then
      Spent(n, b.value, start, t0) && b.value.last <= Max(start, t1) && b.value.rate == RateOf(l, w) && b.value.burst == BurstOf(l, w)
    else n == 0 && start == 0
  }

  lemma MoveKeepsWindow(l: Limits, before: Option<Bucket>, after: Option<Bucket>, w: Which, e: Event, admitted: bool,
                        n: nat, start: nat, t0: nat, t1: nat)
    requires l.InRange() && InWindow(l, before, w, n, start, t0, t1) && Moves(l, before, after, w, e, admitted)
    requires e.Ask? ==> t0 <= e.now <= t1
    ensures InWindow(l, after, w, if admitted then n + 1 else n, start, t0, t1)
  {
    if before.None? && after.Some? {
      NewBucketSpent(l, w, e.now, t0);
    }
    if admitted {
      var b := if before.Some? then before.value else NewBucket(RateOf(l, w), BurstOf(l, w), e.now);
      hide Spent, Bucket.Take;
      TakeSpends(n, b, start, t0, e.now);
    }
  }

  lemma NewBucketSpent(l: Limits, w: Which, now: nat, t0: nat)
    requires l.InRange() && t0 <= now
    ensures Spent(0, NewBucket(RateOf(l, w), BurstOf(l, w), now), 0, t0)
  {
  }

  lemma {:induction false} WindowCounts(l: Limits, r: Run, events: seq<Event>, w: Which, n: nat, start: nat, t0: nat, t1: nat)
    requires l.InRange() && (forall p :: p in r.held ==> p.peer in r.state.peers)
    requires InWindow(l, BucketOf(r.state, w), w, n, start, t0, t1) && ReadingsWithin(events, t0, t1) && t0 <= t1
    ensures TOKEN * (n + Admissions(l, r, events, w)) <= BurstOf(l, w) * TOKEN + (t1 - t0) * RateOf(l, w)
    decreases |events|
  {
    if |events| == 0 {
      if BucketOf(r.state, w).Some? {
        SpentIsBounded(n, BucketOf(r.state, w).value, start, t0, t1);
      }
    } else {
      var e := events[0];
      var admitted := e.Ask? && Counts(w, e.peer, e.isNew) && Admit(l, r.state, e.peer, e.isNew, e.now).1.Ok?;
      StepMoves(l, r, e, w);
      assert e in events && (forall x :: x in events[1..] ==> x in events);
      hide Step, InWindow, Moves, Counts, BucketOf, Admit;
      MoveKeepsWindow(l, BucketOf(r.state, w), BucketOf(Step(l, r, e).state, w), w, e, admitted, n, start, t0, t1);
      WindowCounts(l, Step(l, r, e), events[1..], w, if admitted then n + 1 else n, start, t0, t1);
    }
  }

  lemma TunedRateBound(l: Limits, r: Run, events: seq<Event>, w: Which, t0: nat, t1: nat)
    requires l.InRange() && Tuned(l, r.state) && (forall p :: p in r.held ==> p.peer in r.state.peers)
    requires ReadingsWithin(events, t0, t1) && t0 <= t1
    ensures TOKEN * Admissions(l, r, events, w) <= BurstOf(l, w) * TOKEN + (t1 - t0) * RateOf(l, w)
  {
    var b := BucketOf(r.state, w);
    var start := if b.Some? then b.value.last else 0;
    assert InWindow(l, b, w, 0, start, t0, t1);
    hide InWindow, Tuned, Admissions;
    WindowCounts(l, r, events, w, 0, start, t0, t1);
  }

  lemma {:induction false} StaysTuned(l: Limits, r: Run, events: seq<Event>)
    requires l.InRange() && Tuned(l, r.state) && Conserved(l, r.state, r.held)
    ensures Tuned(l, After(l, r, events).state) && Conserved(l, After(l, r, events).state, After(l, r, events).held)
    decreases |events|
  {
    if |events| > 0 {
      var e := events[0];
      forall w | BucketOf(Step(l, r, e).state, w).Some?
        ensures var b := BucketOf(Step(l, r, e).state, w).value; b.Ok() && b.rate == RateOf(l, w) && b.burst == BurstOf(l, w)
      {
        StepMoves(l, r, e, w);
        MoveStaysTuned(l, BucketOf(r.state, w), BucketOf(Step(l, r, e).state, w), w, e,
                       e.Ask? && Counts(w, e.peer, e.isNew) && Admit(l, r.state, e.peer, e.isNew, e.now).1.Ok?);
      }
      StepConserves(l, r, e);
      hide Step, Conserved, BucketOf;
      StaysTuned(l, Step(l, r, e), events[1..]);
    }
  }

  lemma MoveStaysTuned(l: Limits, before: Option<Bucket>, after: Option<Bucket>, w: Which, e: Event, admitted: bool)
    requires l.InRange() && Moves(l, before, after, w, e, admitted) && after.Some?
    requires before.Some? ==> before.value.Ok() && before.value.rate == RateOf(l, w) && before.value.burst == BurstOf(l, w)
    ensures after.value.Ok() && after.value.rate == RateOf(l, w) && after.value.burst == BurstOf(l, w)
  {
  }

  lemma StepConserves(l: Limits, r: Run, e: Event)
    requires Conserved(l, r.state, r.held)
    ensures Conserved(l, Step(l, r, e).state, Step(l, r, e).held)
  {
    hide Conserved, Admit, Release;
    match e
    case Ask(peer, isNew, now) => AdmitConserves(l, r.state, r.held, peer, isNew, now);
    case Drop(i) => if i < |r.held| { ReleaseConserves(l, r.state, r.held, i); }
  }

  // ---------------------------------------------------------------- From the start of the service

  function Started(l: Limits, now: nat): Run {
    Run(NewState(l, now), [])
  }

  lemma StartIsTuned(l: Limits, now: nat)
    requires l.InRange() && l.Accepted()
    ensures Tuned(l, NewState(l, now)) && Conserved(l, NewState(l, now), [])
  {
  }

  /** After any run of the service its buckets are as configured, and every permit is accounted for. */
  lemma RunsStayTuned(l: Limits, start: nat, events: seq<Event>)
    requires l.InRange() && l.Accepted()
    ensures var r := After(l, Started(l, start), events); Tuned(l, r.state) && Conserved(l, r.state, r.held)
  {
    StartIsTuned(l, start);
    StaysTuned(l, Started(l, start), events);
  }

  /**
    The rate bound. After any run, over any further stretch of calls, by any callers,
    with clock readings in any order between `t0` and `t1`, the admissions of a caller,
    or of all, are at most the burst plus what the rate gives in that time; for new
    work, half of each.
  */
  lemma RateBound(l: Limits, start: nat, before: seq<Event>, events: seq<Event>, w: Which, t0: nat, t1: nat)
    requires l.InRange() && l.Accepted()
    requires ReadingsWithin(events, t0, t1) && t0 <= t1
    ensures TOKEN * Admissions(l, After(l, Started(l, start), before), events, w) <= BurstOf(l, w) * TOKEN + (t1 - t0) * RateOf(l, w)
  {
    RunsStayTuned(l, start, before);
    hide Tuned, After, Admissions;
    TunedRateBound(l, After(l, Started(l, start), before), events, w, t0, t1);
  }

  /** In every run new work leaves the last slot of each caller, and the reserved quarter of all slots. */
  lemma RunsLeaveReserve(l: Limits, start: nat, events: seq<Event>, peer: int)
    requires l.InRange() && l.Accepted()
    ensures var held := After(l, Started(l, start), events).held;
            Held(held, Some(peer), true) <= l.peerWrites - 1 && Held(held, None, true) <= l.globalWrites - l.Reserve()
  {
    RunsStayTuned(l, start, events);
    var r := After(l, Started(l, start), events);
    hide Tuned, After, Held;
    if peer !in r.state.peers {
      HeldByStranger(r.held, peer, true);
    }
  }

  // ---------------------------------------------------------------- Who is admitted

  /** The buckets of a caller, or the full ones that it is about to get. */
  function CallerOf(l: Limits, s: State, peer: int, now: nat): Caller {
    if peer in s.peers then s.peers[peer] else NewCaller(l, now)
  }

  /** A token is there at this reading. */
  predicate HasToken(b: Bucket, now: nat) {
    Level(b, now) >= TOKEN
  }

  lemma TakesWithToken(b: Bucket, now: nat)
    requires b.Ok()
    ensures b.Take(now).1 <==> HasToken(b, now)
  {
    RefillIsLevel(b, now);
  }

  lemma FreshHasToken(rate: nat, burst: nat, now: nat)
    requires rate <= U32 && 1 <= burst <= U32
    ensures NewBucket(rate, burst, now).Ok() && HasToken(NewBucket(rate, burst, now), now)
  {
    FullStaysFull(rate, burst, now, now);
  }

  /** The tokens that a call of this caller needs: two, and two more for new work; a first appearance brings its own. */
  predicate HasTokens(s: State, peer: int, isNew: bool, now: nat) {
    && HasToken(s.all, now) && (isNew ==> HasToken(s.starts, now))
    && (peer in s.peers ==> HasToken(s.peers[peer].all, now) && (isNew ==> HasToken(s.peers[peer].starts, now)))
  }

  /** The write slots that are free, by what is held: new work leaves the reserve alone. */
  predicate HasSlots(l: Limits, held: seq<Permit>, peer: int, isNew: bool) {
    && Held(held, Some(peer), false) < l.peerWrites && Held(held, None, false) < l.globalWrites
    && (isNew ==> Held(held, Some(peer), true) < l.peerWrites - 1 && Held(held, None, true) < l.globalWrites - l.Reserve())
  }

  lemma TokensDecide(l: Limits, s: State, peer: int, isNew: bool, now: nat)
    requires l.InRange() && l.Accepted() && Tuned(l, s)
    ensures HasTokens(s, peer, isNew, now)
            <==> TakeBoth(s.all, s.starts, isNew, now).Some?
                 && TakeBoth(CallerOf(l, s, peer, now).all, CallerOf(l, s, peer, now).starts, isNew, now).Some?
  {
    assert BucketOf(s, Everyone).value.Ok() && BucketOf(s, EveryoneNew).value.Ok();
    TakesWithToken(s.all, now);
    TakesWithToken(s.starts, now);
    var c := CallerOf(l, s, peer, now);
    if peer in s.peers {
      assert BucketOf(s, Peer(peer)).value.Ok() && BucketOf(s, PeerNew(peer)).value.Ok();
    } else {
      FreshHasToken(l.peerRate, l.peerBurst, now);
      FreshHasToken(l.peerRate / 2, l.peerBurst / 2, now);
    }
    TakesWithToken(c.all, now);
    TakesWithToken(c.starts, now);
    hide Bucket.Take, HasToken, Tuned, NewBucket;
  }

  lemma SlotsDecide(l: Limits, s: State, held: seq<Permit>, peer: int, isNew: bool, now: nat)
    requires l.Accepted() && Conserved(l, s, held)
    ensures HasSlots(l, held, peer, isNew)
            <==> s.writes > 0 && CallerOf(l, s, peer, now).writes > 0
                 && (isNew ==> s.newWrites > 0 && CallerOf(l, s, peer, now).newWrites > 0)
  {
    if peer !in s.peers {
      HeldByStranger(held, peer, false);
      HeldByStranger(held, peer, true);
    }
    hide Held, NewBucket;
  }

  /**
    Exactly who is admitted, in every run of the service: a caller that is known or for
    which there is room, while the buckets that apply have a token and there is a slot.
    The caller then holds one permit more.
  */
  lemma AdmittedExactlyWhen(l: Limits, start: nat, events: seq<Event>, peer: int, isNew: bool, now: nat)
    requires l.InRange() && l.Accepted()
    ensures var r := After(l, Started(l, start), events);
            var result := Admit(l, r.state, peer, isNew, now).1;
            && (result.Ok? <==> (peer in r.state.peers || |r.state.peers| < l.peerIds)
                                && HasTokens(r.state, peer, isNew, now) && HasSlots(l, r.held, peer, isNew))
            && (result.Ok? ==> result.value == Permit(peer, isNew)
                               && Step(l, r, Ask(peer, isNew, now)).held == r.held + [Permit(peer, isNew)])
            && (result.Err? ==> result.error == RateLimited && Step(l, r, Ask(peer, isNew, now)).held == r.held)
  {
    RunsStayTuned(l, start, events);
    var r := After(l, Started(l, start), events);
    TokensDecide(l, r.state, peer, isNew, now);
    SlotsDecide(l, r.state, r.held, peer, isNew, now);
    hide After, Tuned, Conserved, HasTokens, HasSlots, TakeBoth, NewBucket;
  }

  /** The first call that a service gets is admitted, for new work as for other. */
  lemma FirstCallIsAdmitted(l: Limits, start: nat, peer: int, isNew: bool, now: nat)
    requires l.InRange() && l.Accepted()
    ensures Admit(l, NewState(l, start), peer, isNew, now).1 == Ok(Permit(peer, isNew))
  {
    AdmittedExactlyWhen(l, start, [], peer, isNew, now);
    FullHasToken(l.globalRate, l.globalBurst, start, now);
    FullHasToken(l.globalRate / 2, l.globalBurst / 2, start, now);
    hide Admit, HasToken, NewBucket;
  }

  lemma FullHasToken(rate: nat, burst: nat, start: nat, now: nat)
    requires burst >= 1
    ensures HasToken(NewBucket(rate, burst, start), now)
  {
    FullStaysFull(rate, burst, start, now);
  }

  // ---------------------------------------------------------------- The recovery reservation

  /** Seen from any later time, the bucket of all work holds at least what is left to new work and to the reservation. */
  ghost predicate Reserved(all: Bucket, starts: Bucket, reserve: Bucket, now: nat) {
    && all.Ok() && starts.Ok() && reserve.Ok()
    && all.last <= now && starts.last <= now && reserve.last <= now
    && all.rate == starts.rate + reserve.rate && all.burst == starts.burst + reserve.burst
    && forall t :: now <= t ==> Level(all, t) >= Level(starts, t) + Level(reserve, t)
  }

  lemma ReservedLater(all: Bucket, starts: Bucket, reserve: Bucket, now: nat, later: nat)
    requires Reserved(all, starts, reserve, now) && now <= later
    ensures Reserved(all, starts, reserve, later)
  {
  }

  /** A bucket after a token was taken, at any later time. */
  lemma TakenLevel(b: Bucket, now: nat, t: nat)
    requires b.Ok() && b.last <= now <= t && b.Take(now).1
    ensures var after := b.Take(now).0;
            after.Ok() && after.last == now && after.rate == b.rate && after.burst == b.burst
            && Level(b, now) >= TOKEN
            && Level(after, t) == Min(Level(b, now) - TOKEN + (t - now) * b.rate, b.burst * TOKEN)
  {
    RefillIsLevel(b, now);
  }

  lemma LevelLater(b: Bucket, now: nat, t: nat)
    requires b.Ok() && b.last <= now <= t
    ensures Level(b, t) == Min(Level(b, now) + (t - now) * b.rate, b.burst * TOKEN)
  {
    RefillIsLevel(b, now);
    LevelComposes(b, now, t);
  }

  /** New work takes from its own share. */
  lemma NewWorkKeepsReserve(all: Bucket, starts: Bucket, reserve: Bucket, now: nat)
    requires Reserved(all, starts, reserve, now) && all.Take(now).1 && starts.Take(now).1
    ensures Reserved(all.Take(now).0, starts.Take(now).0, reserve, now)
  {
    var all', starts' := all.Take(now).0, starts.Take(now).0;
    TakenLevel(all, now, now);
    TakenLevel(starts, now, now);
    forall t | now <= t
      ensures Level(all', t) >= Level(starts', t) + Level(reserve, t)
    {
      TakenLevel(all, now, t);
      TakenLevel(starts, now, t);
      LevelLater(reserve, now, t);
      RatesAdd(all.rate, starts.rate, reserve.rate, t - now);
      hide Bucket.Take, Level;
    }
  }

  lemma RatesAdd(rate: nat, first: nat, second: nat, elapsed: nat)
    requires rate == first + second
    ensures elapsed * rate == elapsed * first + elapsed * second
  {
  }

  /** Recovery work that fits the reservation finds a token, and takes it from the reservation's share. */
  lemma RecoveryFindsAToken(all: Bucket, starts: Bucket, reserve: Bucket, now: nat)
    requires Reserved(all, starts, reserve, now) && reserve.Take(now).1
    ensures all.Take(now).1
    ensures Reserved(all.Take(now).0, starts, reserve.Take(now).0, now)
    ensures Reserved(all, starts, reserve.Take(now).0, now)
  {
    RefillIsLevel(all, now);
    RefillIsLevel(reserve, now);
    assert Level(all, now) >= Level(starts, now) + Level(reserve, now);
    var all', reserve' := all.Take(now).0, reserve.Take(now).0;
    TakenLevel(all, now, now);
    TakenLevel(reserve, now, now);
    forall t | now <= t
      ensures Level(all', t) >= Level(starts, t) + Level(reserve', t)
      ensures Level(all, t) >= Level(starts, t) + Level(reserve', t)
    {
      TakenLevel(all, now, t);
      TakenLevel(reserve, now, t);
      LevelLater(starts, now, t);
      LevelLater(all, now, t);
      RatesAdd(all.rate, starts.rate, reserve.rate, t - now);
      hide Bucket.Take, Level;
    }
  }

  // ---------------------------------------------------------------- Reservation over runs

  /** Two reference buckets for recovery work: for everyone, and for one caller. */
  datatype Reserve = Reserve(everyone: Bucket, caller: Bucket)

  function NextReserve(v: Reserve, peer: int, e: Event): Reserve {
    if e.Ask? && !e.isNew then
      Reserve(v.everyone.Take(e.now).0, if e.peer == peer then v.caller.Take(e.now).0 else v.caller)
    else v
  }

  /** Recovery work keeps to the reservation: its calls alone would drain neither reference bucket. */
  predicate Fits(v: Reserve, peer: int, events: seq<Event>)
    decreases |events|
  {
    |events| == 0
    || ((var e := events[0]; e.Ask? && !e.isNew ==> v.everyone.Take(e.now).1 && (e.peer == peer ==> v.caller.Take(e.now).1))
        && Fits(NextReserve(v, peer, events[0]), peer, events[1..]))
  }

  predicate Ordered(events: seq<Event>, now: nat)
    decreases |events|
  {
    |events| == 0 || (if events[0].Ask? then now <= events[0].now && Ordered(events[1..], events[0].now) else Ordered(events[1..], now))
  }

  /** The caller has recovery work in progress, or everyone's together fills the reserved quarter. */
  predicate Busy(l: Limits, held: seq<Permit>, peer: int) {
    Held(held, Some(peer), false) > Held(held, Some(peer), true)
    || Held(held, None, false) - Held(held, None, true) >= l.Reserve()
  }

  /** No recovery call of the caller is refused, except while recovery work is busy or the table of callers is full. */
  predicate RecoveryPasses(l: Limits, r: Run, peer: int, events: seq<Event>)
    decreases |events|
  {
    |events| == 0
    || ((var e := events[0];
         e.Ask? && !e.isNew && e.peer == peer && Admit(l, r.state, e.peer, false, e.now).1.Err? ==>
           Busy(l, r.held, peer) || (peer !in r.state.peers && |r.state.peers| >= l.peerIds))
        && RecoveryPasses(l, Step(l, r, events[0]), peer, events[1..]))
  }

  function Remainder(n: nat): nat {
    n - n / 2
  }

  /** The share of a level that new work does not have. */
  predicate IsShare(reserve: Bucket, rate: nat, burst: nat, now: nat) {
    reserve.Ok() && reserve.last <= now && reserve.rate == Remainder(rate) && reserve.burst == Remainder(burst)
  }

  ghost predicate ReserveHolds(l: Limits, s: State, peer: int, v: Reserve, now: nat) {
    && Reserved(s.all, s.starts, v.everyone, now)
    && if peer in s.peers then Reserved(s.peers[peer].all, s.peers[peer].starts, v.caller, now)
       else IsShare(v.caller, l.peerRate, l.peerBurst, now)
  }

  /** What a passed test leaves in the two buckets of a level. */
  lemma BothKeepReserve(all: Bucket, starts: Bucket, reserve: Bucket, isNew: bool, now: nat)
    requires Reserved(all, starts, reserve, now) && (!isNew ==> reserve.Take(now).1)
    ensures !isNew ==> TakeBoth(all, starts, isNew, now).Some?
    ensures !isNew ==> Reserved(all, starts, reserve.Take(now).0, now)
    ensures TakeBoth(all, starts, isNew, now).Some? ==>
              var both := TakeBoth(all, starts, isNew, now).value;
              Reserved(both.0, both.1, if isNew then reserve else reserve.Take(now).0, now)
  {
    hide Reserved, Bucket.Take;
    if !isNew {
      RecoveryFindsAToken(all, starts, reserve, now);
    } else if TakeBoth(all, starts, isNew, now).Some? {
      NewWorkKeepsReserve(all, starts, reserve, now);
    }
  }

  lemma AskKeepsReserve(l: Limits, s: State, peer: int, v: Reserve, now: nat, e: Event)
    requires l.InRange() && ReserveHolds(l, s, peer, v, now) && e.Ask? && now <= e.now
    requires !e.isNew ==> v.everyone.Take(e.now).1 && (e.peer == peer ==> v.caller.Take(e.now).1)
    ensures var (after, result) := Admit(l, s, e.peer, e.isNew, e.now);
            ReserveHolds(l, after, peer, NextReserve(v, peer, e), e.now)
            && (e.peer == peer && !e.isNew && result.Err? && (peer in s.peers || |s.peers| < l.peerIds) ==>
                  s.writes == 0 || CallerOf(l, s, peer, e.now).writes == 0)
  {
    ReservedLater(s.all, s.starts, v.everyone, now, e.now);
    BothKeepReserve(s.all, s.starts, v.everyone, e.isNew, e.now);
    var c := CallerOf(l, s, peer, e.now);
    if peer in s.peers {
      ReservedLater(c.all, c.starts, v.caller, now, e.now);
    } else {
      FullReserve(l.peerRate, l.peerBurst, v.caller, e.now);
      ShareTaken(v.caller, l.peerRate, l.peerBurst, e.now);
    }
    if e.peer == peer {
      BothKeepReserve(c.all, c.starts, v.caller, e.isNew, e.now);
    }
    hide Reserved, IsShare, TakeBoth, Bucket.Take;
  }

  lemma ShareTaken(reserve: Bucket, rate: nat, burst: nat, now: nat)
    requires IsShare(reserve, rate, burst, now)
    ensures IsShare(reserve.Take(now).0, rate, burst, now)
  {
  }

  /** While recovery work is not busy, the reserved slots are there. */
  lemma SlotsRemain(l: Limits, s: State, held: seq<Permit>, peer: int, now: nat)
    requires l.Accepted() && Conserved(l, s, held) && !Busy(l, held, peer)
    ensures s.writes > 0 && CallerOf(l, s, peer, now).writes > 0
  {
    NewAreSome(held, Some(peer));
    hide Held;
    if peer in s.peers {
      RecoveryFindsASlot(l, s, held, peer);
    }
  }

  lemma {:induction false} ReservationLasts(l: Limits, r: Run, peer: int, v: Reserve, now: nat, events: seq<Event>)
    requires l.InRange() && l.Accepted() && Conserved(l, r.state, r.held)
    requires ReserveHolds(l, r.state, peer, v, now) && Ordered(events, now) && Fits(v, peer, events)
    ensures RecoveryPasses(l, r, peer, events)
    decreases |events|
  {
    if |events| > 0 {
      var e := events[0];
      StepConserves(l, r, e);
      if e.Ask? {
        AskKeepsReserve(l, r.state, peer, v, now, e);
        if !Busy(l, r.held, peer) { SlotsRemain(l, r.state, r.held, peer, e.now); }
        hide Conserved, ReserveHolds, Busy, Admit, NextReserve;
        ReservationLasts(l, Step(l, r, e), peer, NextReserve(v, peer, e), e.now, events[1..]);
      } else {
        DropKeepsReserve(l, r, peer, v, now, e);
        hide Conserved, ReserveHolds, Step, NextReserve;
        ReservationLasts(l, Step(l, r, e), peer, v, now, events[1..]);
      }
    }
  }

  lemma DropKeepsReserve(l: Limits, r: Run, peer: int, v: Reserve, now: nat, e: Event)
    requires ReserveHolds(l, r.state, peer, v, now) && e.Drop?
    ensures ReserveHolds(l, Step(l, r, e).state, peer, v, now) && NextReserve(v, peer, e) == v
  {
    hide Reserved;
  }

  /** The shares that new work does not have, as full buckets at the start of the service. */
  function FullShares(l: Limits, start: nat): Reserve {
    Reserve(NewBucket(Remainder(l.globalRate), Remainder(l.globalBurst), start),
            NewBucket(Remainder(l.peerRate), Remainder(l.peerBurst), start))
  }

  /**
    The recovery reservation, for every run of a service from its start. With clock
    readings that never fall, if the recovery calls of a caller fit a bucket of the
    share that new work does not have, and everyone's recovery calls together fit the
    global one, then no mix of new work, by this caller or others and before or after
    its first appearance, makes the service refuse one, unless recovery work itself
    holds the reserved slots or the caller is unknown and the table of callers full.
  */
  lemma RecoveryIsReserved(l: Limits, start: nat, peer: int, events: seq<Event>)
    requires l.InRange() && l.Accepted()
    requires Ordered(events, start) && Fits(FullShares(l, start), peer, events)
    ensures RecoveryPasses(l, Started(l, start), peer, events)
  {
    StartIsTuned(l, start);
    FullReserve(l.globalRate, l.globalBurst, FullShares(l, start).everyone, start);
    hide Reserved, Fits, Ordered, RecoveryPasses;
    ReservationLasts(l, Started(l, start), peer, FullShares(l, start), start, events);
  }

  /** Full buckets cover whatever is left of the share. */
  lemma FullReserve(rate: nat, burst: nat, reserve: Bucket, now: nat)
    requires rate <= U32 && burst <= U32 && IsShare(reserve, rate, burst, now)
    ensures Reserved(NewBucket(rate, burst, now), NewBucket(rate / 2, burst / 2, now), reserve, now)
  {
    forall t | now <= t
      ensures Level(NewBucket(rate, burst, now), t) >= Level(NewBucket(rate / 2, burst / 2, now), t) + Level(reserve, t)
    {
      FullStaysFull(rate, burst, now, t);
      FullStaysFull(rate / 2, burst / 2, now, t);
      assert Level(reserve, t) <= reserve.burst * TOKEN;
      hide Level;
    }
  }

  lemma FullStaysFull(rate: nat, burst: nat, now: nat, t: nat)
    ensures Level(NewBucket(rate, burst, now), t) == burst * TOKEN
  {
    assert SaturatingSub(t, now) * rate >= 0;
  }
}
