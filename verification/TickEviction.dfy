/** The same on the server's clock, which counts nanoseconds, and for the limits
    it starts with. */
module TickEviction {
  import opened Core
  import opened TokenBucket
  import opened EvictionLimits

  // Readings of the clock, in seconds.
  const TICK: real := 0.000000001

  // How long a bucket has been idle, at least, when it is evicted.
  const NOTICED: real := IDLE + TICK

  predicate Shown(at: real) {
    (at * 1000000000.0).Floor as real == at * 1000000000.0
  }

  // What is older than ten minutes is older by a whole nanosecond.
  lemma OneTickLater(a: real, b: real)
    requires Shown(a) && Shown(b) && a < b - IDLE
    ensures b - a >= NOTICED
  {
    var m, n := (a * 1000000000.0).Floor, (b * 1000000000.0).Floor;
    assert n as real - m as real > 600000000000.0;
    assert (n - m) as real == n as real - m as real;
    assert n - m >= 600000000001;
  }

  lemma FillsOnTicks(l: Limits)
    requires Sound(l) && NOTICED * l.refill >= l.capacity
    ensures FillsWhenIdle(l, Shown)
  {
    forall a: real, b: real | Shown(a) && Shown(b) && a < b - IDLE ensures Refilled(l, a, b) >= l.capacity {
      OneTickLater(a, b);
      MulMonotone(NOTICED, b - a, l.refill);
    }
  }

  ghost predicate InvisibleOnTicks(l: Limits) {
    forall start, events :: Chronological(start, events) && OnClock(Shown, events) ==>
      Decisions(l, map[], events) == Decisions(l, map[], Calls(events))
  }

  // ----- Limits that are noticed -----

  lemma ToldApartOnTicks(l: Limits, start: real, events: seq<Event>, at: real)
    requires Chronological(start, events) && Clock(start, events) <= at && OnClock(Shown, events) && Shown(at)
    requires LastAllowed(l, events, at) != LastAllowed(l, Calls(events), at)
    ensures !InvisibleOnTicks(l)
  {
    DecidedApart(l, start, events, at);
    OneMoreShown(events, at);
  }

  lemma OneMoreShown(events: seq<Event>, at: real)
    requires OnClock(Shown, events) && Shown(at)
    ensures OnClock(Shown, events + [Call(IP, at)])
  {
  }

  // A burst of n calls leaves less than a token when there was less than n + 1.
  lemma {:induction false} BurstExhausts(l: Limits, buckets: Buckets, n: nat, at: real)
    requires 1 <= n && Seen(l, Find(buckets, IP), at) < n as real + 1.0
    requires Seen(l, Find(buckets, IP), at) <= l.capacity
    ensures var b := Find(Run(l, buckets, Burst(n, at)), IP);
            b.Some? && b.value.last == at && b.value.tokens < 1.0 && b.value.tokens <= l.capacity
    decreases n
  {
    LastOfBurst(l, buckets, n, at);
    if n == 1 {
      assert Burst(0, at) == [];
    } else if Seen(l, Find(buckets, IP), at) < n as real {
      assert (n - 1) as real == n as real - 1.0;
      BurstExhausts(l, buckets, n - 1, at);
      LevelNow(l, Find(Run(l, buckets, Burst(n - 1, at)), IP).value);
    } else {
      BurstDrains(l, buckets, n, at);
    }
  }

  lemma {:induction false} BurstIsShown(n: nat, at: real)
    requires Shown(at)
    ensures OnClock(Shown, Burst(n, at))
  {
    if n > 0 {
      BurstIsShown(n - 1, at);
    }
  }

  lemma NoticedIsShown()
    ensures Shown(NOTICED) && Shown(0.0)
  {
    assert NOTICED * 1000000000.0 == 600000000001.0;
    assert 600000000001.0 == 600000000001 as real;
  }

  // Empty a bucket of k tokens, wait until it is evicted, and call all but once.
  function Idled(k: nat, at: real): seq<Event> {
    Burst(k, 0.0) + [Evict(at)]
  }

  function Probed(k: nat, at: real): seq<Event>
    requires k >= 1
  {
    Idled(k, at) + Burst(k - 1, at)
  }

  lemma IdledFacts(k: nat, at: real)
    requires 0.0 <= at && Shown(0.0) && Shown(at)
    ensures Chronological(0.0, Idled(k, at)) && Clock(0.0, Idled(k, at)) == at && OnClock(Shown, Idled(k, at))
    ensures Calls(Idled(k, at)) == Burst(k, 0.0)
  {
    BurstFacts(k, 0.0, 0.0);
    BurstIsShown(k, 0.0);
    assert Idled(k, at)[..|Burst(k, 0.0)|] == Burst(k, 0.0);
    assert Burst(k, 0.0) + [] == Burst(k, 0.0);
  }

  lemma ShownConcat(one: seq<Event>, two: seq<Event>)
    requires OnClock(Shown, one) && OnClock(Shown, two)
    ensures OnClock(Shown, one + two)
  {
  }

  lemma Follows(start: real, one: seq<Event>, two: seq<Event>, at: real)
    requires Chronological(start, one) && Clock(start, one) == at && Chronological(at, two) && Clock(at, two) <= at
    ensures Chronological(start, one + two) && Clock(start, one + two) <= at
    ensures Calls(one + two) == Calls(one) + Calls(two)
  {
    ChronologicalConcat(start, one, two);
    CallsConcat(one, two);
  }

  lemma ProbedFacts(k: nat, at: real)
    requires k >= 1 && 0.0 <= at && Shown(0.0) && Shown(at)
    ensures Chronological(0.0, Probed(k, at)) && Clock(0.0, Probed(k, at)) <= at && OnClock(Shown, Probed(k, at))
    ensures Calls(Probed(k, at)) == Burst(k, 0.0) + Burst(k - 1, at)
  {
    IdledFacts(k, at);
    assert OnClock(Shown, Probed(k, at)) by {
      BurstIsShown(k - 1, at);
      ShownConcat(Idled(k, at), Burst(k - 1, at));
    }
    BurstFacts(k - 1, at, at);
    Follows(0.0, Idled(k, at), Burst(k - 1, at), at);
  }

  lemma EvictedStillAllows(l: Limits, k: nat)
    requires k >= 1 && l.capacity == k as real
    ensures LastAllowed(l, Probed(k, NOTICED), NOTICED)
  {
    var at := NOTICED;
    BurstDrains(l, map[], k, 0.0);
    OnlyOneAddress(l, k, 0.0);
    assert Idled(k, NOTICED)[..|Burst(k, 0.0)|] == Burst(k, 0.0);
    assert Run(l, map[], Idled(k, NOTICED)) == map[];
    RunConcat(l, map[], Idled(k, NOTICED), Burst(k - 1, at));
    if k > 1 {
      assert (k - 1) as real == k as real - 1.0;
      BurstDrains(l, map[], k - 1, at);
      LevelNow(l, Bucket(1.0, at));
    } else {
      assert Burst(0, at) == [];
    }
  }

  lemma KeptRefuses(l: Limits, k: nat)
    requires k >= 1 && l.capacity == k as real && NOTICED * l.refill < l.capacity
    ensures !LastAllowed(l, Burst(k, 0.0) + Burst(k - 1, NOTICED), NOTICED)
  {
    var at := NOTICED;
    var drained := Run(l, map[], Burst(k, 0.0));
    BurstDrains(l, map[], k, 0.0);
    assert Level(l, Bucket(0.0, 0.0), at) < k as real;
    RunConcat(l, map[], Burst(k, 0.0), Burst(k - 1, at));
    if k > 1 {
      assert (k - 1) as real + 1.0 == k as real;
      BurstExhausts(l, drained, k - 1, at);
      LevelNow(l, Find(Run(l, drained, Burst(k - 1, at)), IP).value);
    } else {
      assert Burst(0, at) == [];
    }
  }

  lemma WholeBucketIsNoticed(l: Limits, k: nat)
    requires k >= 1 && l.capacity == k as real && NOTICED * l.refill < l.capacity
    ensures !InvisibleOnTicks(l)
  {
    NoticedIsShown();
    ProbedFacts(k, NOTICED);
    EvictedStillAllows(l, k);
    KeptRefuses(l, k);
    ToldApartOnTicks(l, 0.0, Probed(k, NOTICED), NOTICED);
  }

  lemma EmptyBucketIsNoticedOnTicks(l: Limits)
    requires l.capacity < 1.0
    ensures !InvisibleOnTicks(l)
  {
    TinyIsDecidedApart(l);
    SecondsAreShown(0);
    SecondsAreShown(601);
    ToldApartOnTicks(l, 0.0, Tiny(), 601.0);
  }

  lemma SecondsAreShown(n: int)
    ensures Shown(n as real)
  {
    var m := n * 1000000000;
    assert n as real * 1000000000.0 == m as real;
    assert (m as real).Floor == m;
  }

  // On a nanosecond clock, and for a whole number of tokens, eviction at
  // arbitrary moments changes no decision of any run exactly when the bucket
  // holds a token and is filled in ten minutes and one nanosecond.
  lemma InvisibleOnTicksExactlyWhen(l: Limits, k: int)
    requires l.capacity == k as real && l.refill >= 0.0
    ensures InvisibleOnTicks(l) <==> k >= 1 && 600.000000001 * l.refill >= l.capacity
  {
    if k < 1 {
      EmptyBucketIsNoticedOnTicks(l);
    } else if NOTICED * l.refill < l.capacity {
      WholeBucketIsNoticed(l, k);
    } else {
      FilledIsInvisible(l);
    }
  }

  lemma FilledIsInvisible(l: Limits)
    requires Sound(l) && NOTICED * l.refill >= l.capacity
    ensures InvisibleOnTicks(l)
  {
    FillsOnTicks(l);
    forall start, events | Chronological(start, events) && OnClock(Shown, events)
      ensures Decisions(l, map[], events) == Decisions(l, map[], Calls(events))
    {
      EvictingMatchesKeeping(l, Shown, start, events);
    }
  }

  // ----- Any capacity: exact to within two nanoseconds -----

  lemma TicksAreShown(n: int)
    ensures Shown(n as real * TICK)
  {
    assert n as real * TICK * 1000000000.0 == n as real;
    assert (n as real).Floor == n;
  }

  lemma ShownSum(a: real, b: real)
    requires Shown(a) && Shown(b)
    ensures Shown(a + b)
  {
    var m, n := (a * 1000000000.0).Floor, (b * 1000000000.0).Floor;
    assert (a + b) * 1000000000.0 == (m + n) as real;
    assert ((m + n) as real).Floor == m + n;
  }

  // What a stretch of time refills, whenever it begins.
  function Gain(l: Limits, time: real): real {
    Refilled(l, 0.0, time)
  }

  lemma GainFrom(l: Limits, at: real, time: real)
    ensures Refilled(l, at, at + time) == Gain(l, time)
  {
    assert at + time - at == time - 0.0;
  }

  lemma GainSum(l: Limits, a: real, b: real)
    ensures Gain(l, a + b) == Gain(l, a) + Gain(l, b)
  {
    RefilledTwice(l, 0.0, a, a + b);
    GainFrom(l, a, b);
  }

  lemma GainIsPositive(l: Limits, time: real)
    requires l.refill > 0.0 && time > 0.0
    ensures Gain(l, time) > 0.0
  {
    assert time - 0.0 == time;
    assert time * l.refill > 0.0;
  }

  lemma GainGrows(l: Limits, a: real, b: real)
    requires l.refill > 0.0 && a < b
    ensures Gain(l, a) < Gain(l, b)
  {
    GainSum(l, a, b - a);
    assert a + (b - a) == b;
    GainIsPositive(l, b - a);
  }

  // The whole number of nanoseconds after which a part of a token has become a token.
  predicate Completes(l: Limits, part: real, wait: real) {
    wait >= 0.0 && Shown(wait) && 1.0 <= part + Gain(l, wait) < 1.0 + Gain(l, TICK)
  }

  lemma NextTick(exact: real) returns (wait: real)
    ensures wait - TICK < exact <= wait && Shown(wait)
  {
    var n := -(-exact * 1000000000.0).Floor;
    wait := n as real * TICK;
    assert wait * 1000000000.0 == n as real;
    TicksAreShown(n);
  }

  lemma TokenPart(l: Limits, part: real) returns (exact: real)
    requires l.refill > 0.0 && 0.0 <= part < 1.0
    ensures exact > 0.0 && part + Gain(l, exact) == 1.0
  {
    exact := (1.0 - part) / l.refill;
    DivMul(1.0 - part, l.refill);
    assert exact - 0.0 == exact;
    if exact <= 0.0 {
      MulMonotone(exact, 0.0, l.refill);
    }
  }

  lemma WaitExists(l: Limits, part: real) returns (wait: real)
    requires l.refill > 0.0 && 0.0 <= part < 1.0
    ensures Completes(l, part, wait)
  {
    var exact := TokenPart(l, part);
    wait := NextTick(exact);
    if exact < wait {
      GainGrows(l, exact, wait);
    }
    GainGrows(l, wait, exact + TICK);
    GainSum(l, exact, TICK);
  }

  // Empty the bucket but for less than what a nanosecond refills.
  function Drained(l: Limits, wait: real): seq<Event>
    requires l.capacity >= 1.0
  {
    Burst(l.capacity.Floor, 0.0) + [Call(IP, wait)]
  }

  // What is left then.
  function Rest(l: Limits, wait: real): real {
    Level(l, Bucket(Spare(l), 0.0), wait) - 1.0
  }

  lemma OneTokenTaken(capacity: real, level: real, tick: real)
    requires 1.0 <= capacity && 1.0 <= level < 1.0 + tick
    ensures 0.0 <= Min(capacity, level) - 1.0 < tick && Min(capacity, level) - 1.0 <= capacity
  {
  }

  lemma RestIsSmall(l: Limits, wait: real)
    requires l.capacity >= 1.0 && Completes(l, Spare(l), wait)
    ensures 0.0 <= Rest(l, wait) < Gain(l, TICK) && Rest(l, wait) <= l.capacity
  {
    OneTokenTaken(l.capacity, Spare(l) + Gain(l, wait), Gain(l, TICK));
  }

  lemma DrainsAll(l: Limits, wait: real)
    requires l.capacity >= 1.0 && 0.0 <= Rest(l, wait)
    ensures Run(l, map[], Drained(l, wait)) == map[IP := Bucket(Rest(l, wait), wait)]
  {
    var k := l.capacity.Floor;
    BurstDrains(l, map[], k, 0.0);
    OnlyOneAddress(l, k, 0.0);
    assert Drained(l, wait)[..|Burst(k, 0.0)|] == Burst(k, 0.0);
    assert Run(l, map[], Burst(k, 0.0)) == map[IP := Bucket(Spare(l), 0.0)];
  }

  lemma DrainedFacts(l: Limits, wait: real)
    requires l.capacity >= 1.0 && Completes(l, Spare(l), wait)
    ensures 0.0 <= Rest(l, wait) < Gain(l, TICK) && Rest(l, wait) <= l.capacity
    ensures Run(l, map[], Drained(l, wait)) == map[IP := Bucket(Rest(l, wait), wait)]
    ensures Calls(Drained(l, wait)) == Drained(l, wait) && OnClock(Shown, Drained(l, wait))
    ensures Chronological(0.0, Drained(l, wait)) && Clock(0.0, Drained(l, wait)) == wait
  {
    var k := l.capacity.Floor;
    RestIsSmall(l, wait);
    DrainsAll(l, wait);
    assert Shown(0.0) by {
      SecondsAreShown(0);
    }
    BurstFacts(k, 0.0, 0.0);
    BurstIsShown(k, 0.0);
    assert Drained(l, wait)[..|Burst(k, 0.0)|] == Burst(k, 0.0);
  }

  // Then leave it until it is evicted, and make n calls.
  function Awaited(l: Limits, wait: real): seq<Event>
    requires l.capacity >= 1.0
  {
    Drained(l, wait) + [Evict(wait + NOTICED)]
  }

  function Called(l: Limits, wait: real, n: nat): seq<Event>
    requires l.capacity >= 1.0
  {
    Awaited(l, wait) + Burst(n, wait + NOTICED)
  }

  lemma AwaitedFacts(l: Limits, wait: real)
    requires l.capacity >= 1.0 && l.refill > 0.0 && Completes(l, Spare(l), wait)
    ensures Chronological(0.0, Awaited(l, wait)) && Clock(0.0, Awaited(l, wait)) == wait + NOTICED
    ensures OnClock(Shown, Awaited(l, wait)) && Calls(Awaited(l, wait)) == Drained(l, wait)
    ensures Run(l, map[], Awaited(l, wait)) == map[] && Shown(wait + NOTICED)
  {
    DrainedFacts(l, wait);
    NoticedIsShown();
    ShownSum(wait, NOTICED);
    var drained := Drained(l, wait);
    assert Awaited(l, wait)[..|drained|] == drained;
    assert drained + [] == drained;
    assert Run(l, map[], Awaited(l, wait)) == Evicted(map[IP := Bucket(Rest(l, wait), wait)], wait + NOTICED);
  }

  lemma CalledFacts(l: Limits, wait: real, n: nat)
    requires l.capacity >= 1.0 && l.refill > 0.0 && Completes(l, Spare(l), wait)
    ensures Chronological(0.0, Called(l, wait, n)) && Clock(0.0, Called(l, wait, n)) <= wait + NOTICED
    ensures OnClock(Shown, Called(l, wait, n)) && Shown(wait + NOTICED)
    ensures Calls(Called(l, wait, n)) == Drained(l, wait) + Burst(n, wait + NOTICED)
    ensures Run(l, map[], Called(l, wait, n)) == Run(l, map[], Burst(n, wait + NOTICED))
    ensures Run(l, map[], Calls(Called(l, wait, n)))
         == Run(l, map[IP := Bucket(Rest(l, wait), wait)], Burst(n, wait + NOTICED))
  {
    var at := wait + NOTICED;
    AwaitedFacts(l, wait);
    DrainedFacts(l, wait);
    BurstFacts(n, at, at);
    BurstIsShown(n, at);
    ShownConcat(Awaited(l, wait), Burst(n, at));
    Follows(0.0, Awaited(l, wait), Burst(n, at), at);
    RunConcat(l, map[], Awaited(l, wait), Burst(n, at));
    RunConcat(l, map[], Drained(l, wait), Burst(n, at));
  }

  // What the limiter that keeps everything finds after the pause: more than a
  // nanosecond's refill short of a full bucket.
  function Kept(l: Limits, wait: real): real {
    Level(l, Bucket(Rest(l, wait), wait), wait + NOTICED)
  }

  lemma StillShort(capacity: real, rest: real, idle: real, tick: real)
    requires 0.0 <= rest < tick && 0.0 <= idle && idle + 3.0 * tick <= capacity
    ensures 0.0 <= Min(capacity, rest + (idle + tick)) < capacity - tick
  {
  }

  lemma LongIdle(l: Limits)
    requires l.refill > 0.0 && (IDLE + 3.0 * TICK) * l.refill <= l.capacity
    ensures 0.0 <= Gain(l, IDLE) && Gain(l, IDLE) + 3.0 * Gain(l, TICK) <= l.capacity
  {
  }

  lemma KeptIsShort(l: Limits, wait: real)
    requires l.capacity >= 1.0 && l.refill > 0.0 && Completes(l, Spare(l), wait)
    requires (IDLE + 3.0 * TICK) * l.refill <= l.capacity
    ensures 0.0 <= Kept(l, wait) < l.capacity - Gain(l, TICK) && Kept(l, wait) <= l.capacity
  {
    RestIsSmall(l, wait);
    GainFrom(l, wait, NOTICED);
    GainSum(l, IDLE, TICK);
    LongIdle(l);
    StillShort(l.capacity, Rest(l, wait), Gain(l, IDLE), Gain(l, TICK));
  }

  // The kept bucket lacks a whole token: the last of a burst tells.
  lemma WholeTokenShort(l: Limits, wait: real)
    requires l.capacity >= 1.0 && l.refill > 0.0 && Completes(l, Spare(l), wait)
    requires 0.0 <= Kept(l, wait) < l.capacity.Floor as real
    ensures !InvisibleOnTicks(l)
  {
    var k, at := l.capacity.Floor, wait + NOTICED;
    var kept := map[IP := Bucket(Rest(l, wait), wait)];
    CalledFacts(l, wait, k - 1);
    assert Seen(l, Find(kept, IP), at) == Kept(l, wait);
    if k > 1 {
      assert (k - 1) as real == k as real - 1.0;
      BurstDrains(l, map[], k - 1, at);
      LevelNow(l, Bucket(l.capacity - (k - 1) as real, at));
      BurstExhausts(l, kept, k - 1, at);
      LevelNow(l, Find(Run(l, kept, Burst(k - 1, at)), IP).value);
    } else {
      assert Burst(0, at) == [];
    }
    ToldApartOnTicks(l, 0.0, Called(l, wait, k - 1), at);
  }

  // After a burst of all whole tokens and the wait there is a token again exactly
  // when the part that was left has been completed.
  lemma BurstThenWait(l: Limits, buckets: Buckets, k: nat, at: real, wait: real, part: real)
    requires 1.0 <= l.capacity && 1 <= k && k as real <= Seen(l, Find(buckets, IP), at) <= l.capacity
    requires part == Seen(l, Find(buckets, IP), at) - k as real
    ensures Decide(l, Find(Run(l, buckets, Burst(k, at)), IP), at + wait) <==> part + Gain(l, wait) >= 1.0
  {
    BurstDrains(l, buckets, k, at);
    GainFrom(l, at, wait);
  }

  lemma KeptHasNotCompleted(part: real, kept: real, gain: real, tick: real)
    requires part + gain < 1.0 + tick && kept < part - tick
    ensures kept + gain < 1.0
  {
  }

  // It lacks a part of a token: by the time the evicted bucket has completed its
  // part, the kept one has not.
  lemma EvictedCompletes(l: Limits, wait: real, at: real, later: real)
    requires l.capacity >= 1.0 && Completes(l, Spare(l), wait) && at == wait + NOTICED && later == at + wait
    requires Run(l, map[], Called(l, wait, l.capacity.Floor)) == Run(l, map[], Burst(l.capacity.Floor, at))
    ensures LastAllowed(l, Called(l, wait, l.capacity.Floor), later)
  {
    BurstThenWait(l, map[], l.capacity.Floor, at, wait, Spare(l));
  }

  lemma KeptDoesNotComplete(l: Limits, wait: real, at: real, later: real, kept: Buckets, events: seq<Event>)
    requires l.capacity >= 1.0 && Completes(l, Spare(l), wait) && later == at + wait
    requires l.capacity.Floor as real <= Seen(l, Find(kept, IP), at) < l.capacity - Gain(l, TICK)
    requires Seen(l, Find(kept, IP), at) <= l.capacity
    requires Run(l, map[], events) == Run(l, kept, Burst(l.capacity.Floor, at))
    ensures !LastAllowed(l, events, later)
  {
    var part := Seen(l, Find(kept, IP), at) - l.capacity.Floor as real;
    BurstThenWait(l, kept, l.capacity.Floor, at, wait, part);
    KeptHasNotCompleted(Spare(l), part, Gain(l, wait), Gain(l, TICK));
  }

  lemma ToldApartInTheEnd(l: Limits, events: seq<Event>, calls: seq<Event>, at: real, later: real)
    requires Chronological(0.0, events) && Clock(0.0, events) <= at <= later && OnClock(Shown, events) && Shown(later)
    requires calls == Calls(events) && LastAllowed(l, events, later) && !LastAllowed(l, calls, later)
    ensures !InvisibleOnTicks(l)
  {
    ToldApartOnTicks(l, 0.0, events, later);
  }

  lemma LaterIsShown(wait: real, later: real)
    requires Shown(wait) && later == wait + NOTICED + wait
    ensures Shown(later)
  {
    NoticedIsShown();
    ShownSum(wait, NOTICED);
    ShownSum(wait + NOTICED, wait);
  }

  // The run is on the clock, and there is time for the wait after it.
  lemma CalledInTime(l: Limits, wait: real, n: nat, later: real)
    requires l.capacity >= 1.0 && l.refill > 0.0 && Completes(l, Spare(l), wait) && later == wait + NOTICED + wait
    ensures Chronological(0.0, Called(l, wait, n)) && Clock(0.0, Called(l, wait, n)) <= later
    ensures OnClock(Shown, Called(l, wait, n)) && Shown(later)
  {
    LaterIsShown(wait, later);
    CalledFacts(l, wait, n);
  }

  lemma CalledTells(l: Limits, wait: real, later: real)
    requires l.capacity >= 1.0 && l.refill > 0.0 && Completes(l, Spare(l), wait) && later == wait + NOTICED + wait
    requires l.capacity.Floor as real <= Kept(l, wait) < l.capacity - Gain(l, TICK) && Kept(l, wait) <= l.capacity
    ensures LastAllowed(l, Called(l, wait, l.capacity.Floor), later)
    ensures !LastAllowed(l, Calls(Called(l, wait, l.capacity.Floor)), later)
  {
    var events := Called(l, wait, l.capacity.Floor);
    CalledFacts(l, wait, l.capacity.Floor);
    EvictedCompletes(l, wait, wait + NOTICED, later);
    KeptDoesNotComplete(l, wait, wait + NOTICED, later, map[IP := Bucket(Rest(l, wait), wait)], Calls(events));
  }

  lemma PartOfTokenShort(l: Limits, wait: real, later: real)
    requires l.capacity >= 1.0 && l.refill > 0.0 && Completes(l, Spare(l), wait) && later == wait + NOTICED + wait
    requires l.capacity.Floor as real <= Kept(l, wait) < l.capacity - Gain(l, TICK) && Kept(l, wait) <= l.capacity
    ensures !InvisibleOnTicks(l)
  {
    CalledInTime(l, wait, l.capacity.Floor, later);
    CalledTells(l, wait, later);
    ToldApartOnTicks(l, 0.0, Called(l, wait, l.capacity.Floor), later);
  }

  lemma NothingRefills(l: Limits)
    requires l.capacity >= 1.0 && l.refill == 0.0
    ensures !InvisibleOnTicks(l)
  {
    var k := l.capacity.Floor;
    var burst := Burst(k, 0.0);
    SecondsAreShown(0);
    NoticedIsShown();
    IdledFacts(k, NOTICED);
    BurstDrains(l, map[], k, 0.0);
    OnlyOneAddress(l, k, 0.0);
    assert Idled(k, NOTICED)[..|burst|] == burst;
    assert Run(l, map[], Idled(k, NOTICED)) == map[];
    ToldApartOnTicks(l, 0.0, Idled(k, NOTICED), NOTICED);
  }

  // For any capacity: invisible when ten minutes and one nanosecond fill the
  // bucket, and noticed when ten minutes and three nanoseconds do not overfill it.
  lemma InvisibleOnTicksAlmostExactlyWhen(l: Limits)
    requires l.refill >= 0.0
    ensures l.capacity >= 1.0 && 600.000000001 * l.refill >= l.capacity ==> InvisibleOnTicks(l)
    ensures l.capacity < 1.0 || 600.000000003 * l.refill <= l.capacity ==> !InvisibleOnTicks(l)
  {
    if l.capacity < 1.0 {
      EmptyBucketIsNoticedOnTicks(l);
    } else {
      if NOTICED * l.refill >= l.capacity {
        FilledIsInvisible(l);
      }
      if (IDLE + 3.0 * TICK) * l.refill <= l.capacity {
        SlowIsNoticedOnTicks(l);
      }
    }
  }

  lemma SlowIsNoticedOnTicks(l: Limits)
    requires l.capacity >= 1.0 && l.refill >= 0.0 && (IDLE + 3.0 * TICK) * l.refill <= l.capacity
    ensures !InvisibleOnTicks(l)
  {
    if l.refill == 0.0 {
      NothingRefills(l);
    } else {
      var wait := WaitExists(l, Spare(l));
      KeptIsShort(l, wait);
      if Kept(l, wait) < l.capacity.Floor as real {
        WholeTokenShort(l, wait);
      } else {
        PartOfTokenShort(l, wait, wait + NOTICED + wait);
      }
    }
  }

  // ----- The limits of the server -----

  // The float64 nearest to 10/600.
  const LOGIN_REFILL: real := 4803839602528529.0 / 288230376151711744.0

  const GENERAL: Limits := Limits(30.0, 5.0)
  const LOGIN: Limits := Limits(10.0, LOGIN_REFILL)

  // Half the distance between neighbouring floats of that size.
  const HALF_STEP: real := 0.5 / 288230376151711744.0

  // The login limiter's refill is rounded down, so ten minutes do not quite fill
  // its bucket: with exact instants its evictions can be noticed. The one
  // nanosecond more that an eviction on the server's clock implies is enough.
  lemma DefaultLimiters()
    ensures EvictionIsInvisible(GENERAL) && InvisibleOnTicks(GENERAL)
    ensures 0.0 < 10.0 / 600.0 - LOGIN_REFILL < HALF_STEP
    ensures IDLE * LOGIN_REFILL < 10.0 && !EvictionIsInvisible(LOGIN)
    ensures InvisibleOnTicks(LOGIN)
  {
    EvictionIsInvisibleExactlyWhen(GENERAL);
    InvisibleOnTicksExactlyWhen(GENERAL, 30);
    EvictionIsInvisibleExactlyWhen(LOGIN);
    InvisibleOnTicksExactlyWhen(LOGIN, 10);
  }
}
