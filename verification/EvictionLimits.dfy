/** Exactly which token buckets may be evicted without anyone noticing. */
module EvictionLimits {
  import opened Core
  import opened TokenBucket

  const IP: string := "192.0.2.1"

  // n calls at one instant.
  function Burst(n: nat, at: real): seq<Event> {
    if n == 0 then [] else Burst(n - 1, at) + [Call(IP, at)]
  }

  lemma {:induction false} RunConcat(l: Limits, buckets: Buckets, one: seq<Event>, two: seq<Event>)
    ensures Run(l, buckets, one + two) == Run(l, Run(l, buckets, one), two)
    decreases |two|
  {
    if two == [] {
      assert one + two == one;
    } else {
      assert (one + two)[..|one + two| - 1] == one + two[..|two| - 1];
      RunConcat(l, buckets, one, two[..|two| - 1]);
    }
  }

  lemma {:induction false} CallsConcat(one: seq<Event>, two: seq<Event>)
    ensures Calls(one + two) == Calls(one) + Calls(two)
    decreases |two|
  {
    if two == [] {
      assert one + two == one;
    } else {
      assert (one + two)[..|one + two| - 1] == one + two[..|two| - 1];
      CallsConcat(one, two[..|two| - 1]);
    }
  }

  lemma {:induction false} ChronologicalConcat(start: real, one: seq<Event>, two: seq<Event>)
    requires Chronological(start, one) && Chronological(Clock(start, one), two)
    ensures Chronological(start, one + two) && Clock(start, one + two) == Clock(Clock(start, one), two)
    decreases |two|
  {
    if two == [] {
      assert one + two == one;
    } else {
      var before := two[..|two| - 1];
      assert (one + two)[..|one + two| - 1] == one + before;
      ChronologicalConcat(start, one, before);
    }
  }

  lemma {:induction false} BurstFacts(n: nat, at: real, start: real)
    requires start <= at
    ensures Calls(Burst(n, at)) == Burst(n, at) && Chronological(start, Burst(n, at))
    ensures Clock(start, Burst(n, at)) == if n == 0 then start else at
  {
    if n > 0 {
      BurstFacts(n - 1, at, start);
      assert Burst(n, at)[..|Burst(n, at)| - 1] == Burst(n - 1, at);
    }
  }

  // What a call finds.
  function Seen(l: Limits, b: Option<Bucket>, now: real): real {
    if b.None? then l.capacity else Level(l, b.value, now)
  }

  lemma LevelNow(l: Limits, b: Bucket)
    requires b.tokens <= l.capacity
    ensures Level(l, b, b.last) == b.tokens
  {
    RefilledNothing(l, b.last);
  }

  lemma OneTaken(l: Limits, b: Option<Bucket>, at: real)
    requires 1.0 <= Seen(l, b, at)
    ensures Left(l, b, at) == Bucket(Seen(l, b, at) - 1.0, at)
  {
  }

  lemma LastOfBurst(l: Limits, buckets: Buckets, n: nat, at: real)
    requires 1 <= n
    ensures Find(Run(l, buckets, Burst(n, at)), IP) == Some(Left(l, Find(Run(l, buckets, Burst(n - 1, at)), IP), at))
  {
    assert Burst(n, at)[..|Burst(n, at)| - 1] == Burst(n - 1, at);
  }

  // A burst takes one token per call while they last.
  lemma {:induction false} BurstDrains(l: Limits, buckets: Buckets, n: nat, at: real)
    requires 1 <= n && n as real <= Seen(l, Find(buckets, IP), at) <= l.capacity
    ensures Find(Run(l, buckets, Burst(n, at)), IP) == Some(Bucket(Seen(l, Find(buckets, IP), at) - n as real, at))
  {
    LastOfBurst(l, buckets, n, at);
    if n == 1 {
      assert Burst(0, at) == [];
      OneTaken(l, Find(buckets, IP), at);
    } else {
      var left := Seen(l, Find(buckets, IP), at) - (n - 1) as real;
      assert (n - 1) as real == n as real - 1.0;
      BurstDrains(l, buckets, n - 1, at);
      LevelNow(l, Bucket(left, at));
      OneTaken(l, Some(Bucket(left, at)), at);
    }
  }

  // A call at `at`, when all that is known of the run before is its bucket.
  predicate LastAllowed(l: Limits, events: seq<Event>, at: real) {
    Decide(l, Find(Run(l, map[], events), IP), at)
  }

  lemma LastDecision(l: Limits, events: seq<Event>, at: real)
    ensures var ds := Decisions(l, map[], events + [Call(IP, at)]);
            ds != [] && ds[|ds| - 1].allowed == LastAllowed(l, events, at)
  {
    AskedOnceMore(l, map[], events, Call(IP, at));
  }

  // One more call, decided differently in the run and in its calls alone.
  lemma DecidedApart(l: Limits, start: real, events: seq<Event>, at: real)
    requires Chronological(start, events) && Clock(start, events) <= at
    requires LastAllowed(l, events, at) != LastAllowed(l, Calls(events), at)
    ensures var more := events + [Call(IP, at)];
            Chronological(start, more) && Decisions(l, map[], more) != Decisions(l, map[], Calls(more))
  {
    var more := events + [Call(IP, at)];
    assert more[..|events|] == events;
    assert Calls(more) == Calls(events) + [Call(IP, at)];
    LastDecision(l, events, at);
    LastDecision(l, Calls(events), at);
  }

  // Two runs whose last calls are decided differently are told apart.
  lemma ToldApart(l: Limits, start: real, events: seq<Event>, at: real)
    requires Chronological(start, events) && Clock(start, events) <= at
    requires LastAllowed(l, events, at) != LastAllowed(l, Calls(events), at)
    ensures !EvictionIsInvisible(l)
  {
    DecidedApart(l, start, events, at);
  }

  // One call, an eviction, and one more call.
  function Tiny(): seq<Event> {
    [Call(IP, 0.0)] + [Evict(601.0)]
  }

  lemma TinyIsDecidedApart(l: Limits)
    requires l.capacity < 1.0
    ensures Chronological(0.0, Tiny()) && Clock(0.0, Tiny()) <= 601.0
    ensures LastAllowed(l, Tiny(), 601.0) != LastAllowed(l, Calls(Tiny()), 601.0)
  {
    var one := [Call(IP, 0.0)];
    assert Tiny()[..1] == one && one[..0] == [];
    assert Calls(one) == one && Calls(Tiny()) == one + [];
    assert one + [] == one;
    assert Run(l, map[], one) == map[IP := Bucket(l.capacity - 1.0, 0.0)];
    assert Run(l, map[], Tiny()) == map[];
  }

  // A bucket that can hold less than one token never allows a second call,
  // unless it has been evicted.
  lemma TinyBucketIsNoticed(l: Limits)
    requires l.capacity < 1.0
    ensures !EvictionIsInvisible(l)
  {
    TinyIsDecidedApart(l);
    ToldApart(l, 0.0, Tiny(), 601.0);
  }

  lemma DivMul(x: real, r: real)
    requires r > 0.0
    ensures (x / r) * r == x
  {
  }

  // A run that empties the bucket, and when it ends.
  function EmptiedAt(l: Limits): real
    requires l.refill > 0.0
  {
    if Spare(l) == 0.0 then 0.0 else (1.0 - Spare(l)) / l.refill
  }

  // The part of a token left by a burst from full.
  function Spare(l: Limits): real {
    l.capacity - l.capacity.Floor as real
  }

  function Emptying(l: Limits): seq<Event>
    requires l.capacity >= 1.0 && l.refill > 0.0
  {
    Burst(l.capacity.Floor, 0.0) + (if Spare(l) == 0.0 then [] else [Call(IP, EmptiedAt(l))])
  }

  lemma Empties(l: Limits)
    requires l.capacity >= 1.0 && l.refill > 0.0
    ensures Find(Run(l, map[], Emptying(l)), IP) == Some(Bucket(0.0, EmptiedAt(l)))
    ensures Run(l, map[], Emptying(l)).Keys == {IP}
    ensures Calls(Emptying(l)) == Emptying(l) && Chronological(0.0, Emptying(l))
    ensures Clock(0.0, Emptying(l)) == EmptiedAt(l)
  {
    var k := l.capacity.Floor;
    BurstDrains(l, map[], k, 0.0);
    BurstFacts(k, 0.0, 0.0);
    OnlyOneAddress(l, k, 0.0);
    if Spare(l) == 0.0 {
      assert Emptying(l) == Burst(k, 0.0);
    } else {
      DivMul(1.0 - Spare(l), l.refill);
      var last := [Call(IP, EmptiedAt(l))];
      assert Emptying(l)[..|Burst(k, 0.0)|] == Burst(k, 0.0);
      assert Level(l, Bucket(Spare(l), 0.0), EmptiedAt(l)) == 1.0;
    }
  }

  lemma {:induction false} OnlyOneAddress(l: Limits, n: nat, at: real)
    ensures Run(l, map[], Burst(n, at)).Keys == if n == 0 then {} else {IP}
  {
    if n > 0 {
      assert Burst(n, at)[..|Burst(n, at)| - 1] == Burst(n - 1, at);
      OnlyOneAddress(l, n - 1, at);
    }
  }

  // The half-way level an emptied bucket reaches after more than ten minutes,
  // when ten minutes do not fill it.
  function HalfWay(l: Limits): real {
    (l.capacity + IDLE * l.refill) / 2.0
  }

  function Resumes(l: Limits): real
    requires l.refill > 0.0
  {
    EmptiedAt(l) + HalfWay(l) / l.refill
  }

  lemma LongWait(x: real, r: real)
    requires r > 0.0 && x > IDLE * r
    ensures x / r > IDLE
  {
    DivMul(x, r);
    if x / r <= IDLE {
      MulMonotone(x / r, IDLE, r);
    }
  }

  lemma EmptyThenWaits(l: Limits, x: real, since: real)
    requires l.refill > 0.0 && x <= l.capacity
    ensures Level(l, Bucket(0.0, since), since + x / l.refill) == x
  {
    DivMul(x, l.refill);
    assert since + x / l.refill - since == x / l.refill;
  }

  lemma ResumesAfterIdle(l: Limits)
    requires l.capacity >= 1.0 && l.refill > 0.0 && IDLE * l.refill < l.capacity
    ensures IDLE * l.refill < HalfWay(l) < l.capacity
    ensures EmptiedAt(l) < Resumes(l) - IDLE
    ensures Level(l, Bucket(0.0, EmptiedAt(l)), Resumes(l)) == HalfWay(l)
  {
    LongWait(HalfWay(l), l.refill);
    EmptyThenWaits(l, HalfWay(l), EmptiedAt(l));
  }

  // Empty it, leave it for over ten minutes, evict, and call while both have tokens.
  function Idling(l: Limits): seq<Event>
    requires l.capacity >= 1.0 && l.refill > 0.0
  {
    Emptying(l) + [Evict(Resumes(l))]
  }

  function Telling(l: Limits): seq<Event>
    requires l.capacity >= 1.0 && l.refill > 0.0 && HalfWay(l) >= 0.0
  {
    Idling(l) + Burst(HalfWay(l).Floor, Resumes(l))
  }

  lemma IdlingFacts(l: Limits)
    requires l.capacity >= 1.0 && l.refill > 0.0 && IDLE * l.refill < l.capacity
    ensures Chronological(0.0, Idling(l)) && Clock(0.0, Idling(l)) == Resumes(l)
    ensures Calls(Idling(l)) == Emptying(l)
    ensures Run(l, map[], Idling(l)) == map[]
  {
    Empties(l);
    ResumesAfterIdle(l);
    assert Idling(l)[..|Emptying(l)|] == Emptying(l);
    var full := Run(l, map[], Emptying(l));
    assert Run(l, map[], Idling(l)) == Evicted(full, Resumes(l));
    assert full[IP] == Bucket(0.0, EmptiedAt(l));
    assert Emptying(l) + [] == Emptying(l);
  }

  lemma TellingIsChronological(l: Limits)
    requires l.capacity >= 1.0 && l.refill > 0.0 && IDLE * l.refill < l.capacity
    ensures HalfWay(l) > 0.0
    ensures Chronological(0.0, Telling(l)) && Clock(0.0, Telling(l)) == Resumes(l)
    ensures Calls(Telling(l)) == Emptying(l) + Burst(HalfWay(l).Floor, Resumes(l))
  {
    IdlingFacts(l);
    ResumesAfterIdle(l);
    BurstFacts(HalfWay(l).Floor, Resumes(l), Resumes(l));
    ChronologicalConcat(0.0, Idling(l), Burst(HalfWay(l).Floor, Resumes(l)));
    CallsConcat(Idling(l), Burst(HalfWay(l).Floor, Resumes(l)));
  }

  // What the last call finds in the limiter that evicted, and in the one that did not.
  lemma EvictedIsFull(l: Limits)
    requires l.capacity >= 1.0 && l.refill > 0.0 && IDLE * l.refill < l.capacity && HalfWay(l) > 0.0
    ensures var j := HalfWay(l).Floor;
            Find(Run(l, map[], Telling(l)), IP)
            == if j == 0 then None else Some(Bucket(l.capacity - j as real, Resumes(l)))
  {
    var j, at := HalfWay(l).Floor, Resumes(l);
    IdlingFacts(l);
    RunConcat(l, map[], Idling(l), Burst(j, at));
    if j > 0 {
      ResumesAfterIdle(l);
      BurstDrains(l, map[], j, at);
    } else {
      assert Burst(0, at) == [];
    }
  }

  lemma KeptIsNot(l: Limits)
    requires l.capacity >= 1.0 && l.refill > 0.0 && IDLE * l.refill < l.capacity && HalfWay(l) > 0.0
    ensures var j, b := HalfWay(l).Floor, Find(Run(l, map[], Emptying(l) + Burst(HalfWay(l).Floor, Resumes(l))), IP);
            b.Some? && Level(l, b.value, Resumes(l)) == HalfWay(l) - j as real
            && b.value.last <= Resumes(l) && b.value.tokens <= l.capacity
  {
    var j, at := HalfWay(l).Floor, Resumes(l);
    Empties(l);
    ResumesAfterIdle(l);
    RunConcat(l, map[], Emptying(l), Burst(j, at));
    if j > 0 {
      BurstDrains(l, Run(l, map[], Emptying(l)), j, at);
      LevelNow(l, Bucket(HalfWay(l) - j as real, at));
    } else {
      assert Burst(0, at) == [];
    }
  }

  // A level below a bound is still below it plus what a pause refills.
  lemma LevelAfterPause(l: Limits, b: Bucket, now: real, pause: real, bound: real)
    requires l.refill > 0.0 && Level(l, b, now) < bound - pause * l.refill && bound <= l.capacity && 0.0 <= pause
    ensures Level(l, b, now + pause) < bound
  {
    MulSum(now - b.last, pause, l.refill);
    assert now - b.last + pause == now + pause - b.last;
    MulMonotone(0.0, pause, l.refill);
  }

  // The pause after which what is left of a full bucket has a whole token.
  function Pause(l: Limits, rest: real): real
    requires l.refill > 0.0
  {
    if rest >= 1.0 then 0.0 else (1.0 - rest) / l.refill
  }

  lemma PauseFills(l: Limits, rest: real)
    requires l.refill > 0.0 && rest <= l.capacity && l.capacity >= 1.0
    ensures 0.0 <= Pause(l, rest) && Pause(l, rest) * l.refill == (if rest >= 1.0 then 0.0 else 1.0 - rest)
    ensures forall at :: Level(l, Bucket(rest, at), at + Pause(l, rest)) >= 1.0
  {
    DivMul(1.0 - rest, l.refill);
    forall at ensures Level(l, Bucket(rest, at), at + Pause(l, rest)) >= 1.0 {
      assert at + Pause(l, rest) - at == Pause(l, rest);
    }
  }

  lemma TellsApart(l: Limits, at: real, kept: Bucket)
    requires l.capacity >= 1.0 && l.refill > 0.0 && HalfWay(l) > 0.0
    requires Chronological(0.0, Telling(l)) && Clock(0.0, Telling(l)) <= at
    requires Decide(l, Find(Run(l, map[], Telling(l)), IP), at)
    requires Find(Run(l, map[], Calls(Telling(l))), IP) == Some(kept) && Level(l, kept, at) < 1.0
    ensures !EvictionIsInvisible(l)
  {
    ToldApart(l, 0.0, Telling(l), at);
  }

  function Rest(l: Limits): real {
    l.capacity - HalfWay(l).Floor as real
  }

  lemma EvictedAllows(l: Limits)
    requires l.capacity >= 1.0 && l.refill > 0.0 && IDLE * l.refill < l.capacity && HalfWay(l) > 0.0
    requires Rest(l) <= l.capacity
    ensures Decide(l, Find(Run(l, map[], Telling(l)), IP), Resumes(l) + Pause(l, Rest(l)))
  {
    EvictedIsFull(l);
    PauseFills(l, Rest(l));
    assert Level(l, Bucket(Rest(l), Resumes(l)), Resumes(l) + Pause(l, Rest(l))) >= 1.0;
  }

  lemma KeptDenies(l: Limits, b: Bucket, now: real, x: real)
    requires l.capacity >= 1.0 && l.refill > 0.0 && 0.0 <= x < l.capacity
    requires Level(l, b, now) == x - x.Floor as real
    ensures var rest := l.capacity - x.Floor as real; Level(l, b, now + Pause(l, rest)) < 1.0
  {
    var rest := l.capacity - x.Floor as real;
    PauseFills(l, rest);
    assert Pause(l, rest) * l.refill == if rest >= 1.0 then 0.0 else 1.0 - rest;
    LevelAfterPause(l, b, now, Pause(l, rest), 1.0);
  }

  // A moment later the evicted bucket has a whole token and the kept one has not.
  lemma SlowBucketIsNoticed(l: Limits)
    requires l.capacity >= 1.0 && l.refill > 0.0 && IDLE * l.refill < l.capacity
    ensures !EvictionIsInvisible(l)
  {
    TellingIsChronological(l);
    ResumesAfterIdle(l);
    PauseFills(l, Rest(l));
    EvictedAllows(l);
    KeptIsNot(l);
    var kept := Find(Run(l, map[], Emptying(l) + Burst(HalfWay(l).Floor, Resumes(l))), IP).value;
    KeptDenies(l, kept, Resumes(l), HalfWay(l));
    TellsApart(l, Resumes(l) + Pause(l, Rest(l)), kept);
  }

  // With no refill at all an emptied bucket stays empty unless it is evicted.
  lemma EmptyBucketIsNoticed(l: Limits)
    requires l.capacity >= 1.0 && l.refill == 0.0
    ensures !EvictionIsInvisible(l)
  {
    var k := l.capacity.Floor;
    var burst := Burst(k, 0.0);
    var events := burst + [Evict(601.0)];
    BurstFacts(k, 0.0, 0.0);
    BurstDrains(l, map[], k, 0.0);
    OnlyOneAddress(l, k, 0.0);
    assert events[..|burst|] == burst;
    assert Chronological(0.0, events);
    assert burst + [] == burst;
    assert Calls(events) == burst;
    assert Run(l, map[], events) == Evicted(Run(l, map[], burst), 601.0) == map[];
    ToldApart(l, 0.0, events, 601.0);
  }

  // Eviction at arbitrary moments changes no decision of any run exactly when a
  // bucket can hold a token and ten minutes fill it.
  lemma EvictionIsInvisibleExactlyWhen(l: Limits)
    requires l.refill >= 0.0
    ensures EvictionIsInvisible(l) <==> l.capacity >= 1.0 && 600.0 * l.refill >= l.capacity
  {
    if l.capacity < 1.0 {
      TinyBucketIsNoticed(l);
    } else if IDLE * l.refill < l.capacity {
      if l.refill == 0.0 {
        EmptyBucketIsNoticed(l);
      } else {
        SlowBucketIsNoticed(l);
      }
    } else {
      forall start, events | Chronological(start, events)
        ensures Decisions(l, map[], events) == Decisions(l, map[], Calls(events))
      {
        FillsOnAnyClock(l, _ => true);
        EvictingMatchesKeeping(l, _ => true, start, events);
      }
    }
  }
}
