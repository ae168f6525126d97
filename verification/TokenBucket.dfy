/** The per-address rate limiter: a token bucket with background eviction.
    Token counts and seconds are exact reals here. */
module TokenBucket {
  import opened Core

  datatype Bucket = Bucket(tokens: real, last: real)

  datatype Limits = Limits(capacity: real, refill: real)

  const IDLE: real := 600.0   // ten minutes, in seconds

  function Min(a: real, b: real): real {
    if a < b then a else b
  }

  // What a pause refills.
  function Refilled(l: Limits, from: real, to: real): real {
    (to - from) * l.refill
  }

  // What a bucket holds when it is next looked at.
  function Level(l: Limits, b: Bucket, now: real): real {
    Min(l.capacity, b.tokens + Refilled(l, b.last, now))
  }

  // One call for one address: the decision and the bucket left behind.
  function Decide(l: Limits, b: Option<Bucket>, now: real): bool {
    b.Some? ==> Level(l, b.value, now) >= 1.0
  }

  function Left(l: Limits, b: Option<Bucket>, now: real): Bucket {
    if b.None? then Bucket(l.capacity - 1.0, now)
    else Bucket(Level(l, b.value, now) - (if Decide(l, b, now) then 1.0 else 0.0), now)
  }

  type Buckets = map<string, Bucket>

  function Find(buckets: Buckets, ip: string): Option<Bucket> {
    if ip in buckets then Some(buckets[ip]) else None
  }

  function Evicted(buckets: Buckets, now: real): Buckets {
    map ip | ip in buckets && buckets[ip].last >= now - IDLE :: buckets[ip]
  }

  class RateLimiter {
    var buckets: Buckets
    const limits: Limits

    constructor (capacity: real, refillPerSecond: real)
      ensures limits == Limits(capacity, refillPerSecond) && buckets == map[]
    {
      limits := Limits(capacity, refillPerSecond);
      buckets := map[];
    }

    method Allow(ip: string, now: real) returns (allowed: bool)
      modifies this
      ensures allowed == Decide(limits, Find(old(buckets), ip), now)
      ensures buckets == old(buckets)[ip := Left(limits, Find(old(buckets), ip), now)]
    {
      if ip !in buckets {
        buckets := buckets[ip := Bucket(limits.capacity - 1.0, now)];
        return true;
      }
      var b := buckets[ip];
      var elapsed := now - b.last;
      b := b.(tokens := Min(limits.capacity, b.tokens + elapsed * limits.refill));
      b := b.(last := now);
      if b.tokens < 1.0 {
        buckets := buckets[ip := b];
        return false;
      }
      b := b.(tokens := b.tokens - 1.0);
      buckets := buckets[ip := b];
      return true;
    }

    // One tick of the background loop.
    method Cleanup(now: real) returns (removed: nat)
      modifies this
      ensures buckets == Evicted(old(buckets), now)
      ensures removed == |old(buckets)| - |buckets|
    {
      var cutoff := now - IDLE;
      removed := 0;
      var left := buckets.Keys;
      ghost var before := buckets;
      while left != {}
        invariant left <= buckets.Keys <= before.Keys
        invariant forall ip :: ip in buckets ==> buckets[ip] == before[ip]
        invariant forall ip :: ip in before && ip !in left ==> (ip in buckets <==> before[ip].last >= cutoff)
        invariant removed == |before| - |buckets|
        decreases |left|
      {
        var ip :| ip in left;
        left := left - {ip};
        if buckets[ip].last < cutoff {
          assert |buckets - {ip}| == |buckets| - 1 by {
            assert (buckets - {ip}).Keys == buckets.Keys - {ip};
          }
          buckets := buckets - {ip};
          removed := removed + 1;
        }
      }
    }
  }

  // ----- Runs -----

  datatype Event = Call(ip: string, at: real) | Evict(at: real)

  datatype Decision = Decision(ip: string, at: real, allowed: bool)

  function After(l: Limits, buckets: Buckets, e: Event): Buckets {
    match e
    case Call(ip, now) => buckets[ip := Left(l, Find(buckets, ip), now)]
    case Evict(now) => Evicted(buckets, now)
  }

  function Run(l: Limits, buckets: Buckets, events: seq<Event>): Buckets {
    if events == [] then buckets
    else After(l, Run(l, buckets, events[..|events| - 1]), events[|events| - 1])
  }

  function Answer(l: Limits, buckets: Buckets, e: Event): seq<Decision> {
    match e
    case Call(ip, now) => [Decision(ip, now, Decide(l, Find(buckets, ip), now))]
    case Evict(_) => []
  }

  // Every decision of a run, in order.
  function Decisions(l: Limits, buckets: Buckets, events: seq<Event>): seq<Decision> {
    if events == [] then []
    else
      var before := events[..|events| - 1];
      Decisions(l, buckets, before) + Answer(l, Run(l, buckets, before), events[|events| - 1])
  }

  function Calls(events: seq<Event>): seq<Event> {
    if events == [] then []
    else
      var last := events[|events| - 1];
      Calls(events[..|events| - 1]) + (if last.Call? then [last] else [])
  }

  // The time of the last event, or a time before all of them.
  function Clock(start: real, events: seq<Event>): real {
    if events == [] then start else events[|events| - 1].at
  }

  predicate Chronological(start: real, events: seq<Event>) {
    events != [] ==>
      var before := events[..|events| - 1];
      Chronological(start, before) && Clock(start, before) <= events[|events| - 1].at
  }

  predicate Sound(l: Limits) {
    l.capacity >= 1.0 && l.refill >= 0.0
  }

  // The fewest tokens a bucket can be left with. The first call of an address is
  // allowed whatever the capacity, so a capacity below one is overdrawn by it.
  function Fewest(l: Limits): real {
    Min(0.0, l.capacity - 1.0)
  }

  predicate InRange(l: Limits, b: Bucket, clock: real) {
    Fewest(l) <= b.tokens <= l.capacity && b.last <= clock
  }

  // Tokens stay in their range, and no bucket is ahead of time.
  ghost predicate Valid(l: Limits, buckets: Buckets, clock: real) {
    forall ip :: ip in buckets ==> InRange(l, buckets[ip], clock)
  }

  lemma MulMonotone(a: real, b: real, r: real)
    requires a <= b && 0.0 <= r
    ensures a * r <= b * r
  {
  }

  lemma MulSum(a: real, b: real, r: real)
    ensures (a + b) * r == a * r + b * r
  {
  }

  // Refilling for longer never yields less, and two pauses refill as much as one.
  lemma RefilledFor(l: Limits, from: real, to: real, idle: real)
    requires 0.0 <= l.refill && idle <= to - from
    ensures idle * l.refill <= Refilled(l, from, to)
  {
    MulMonotone(idle, to - from, l.refill);
  }

  lemma RefilledSomething(l: Limits, from: real, to: real)
    requires 0.0 <= l.refill && from <= to
    ensures 0.0 <= Refilled(l, from, to)
  {
    MulMonotone(0.0, to - from, l.refill);
  }

  lemma RefilledNothing(l: Limits, at: real)
    ensures Refilled(l, at, at) == 0.0
  {
    assert at - at == 0.0;
  }

  lemma RefilledTwice(l: Limits, a: real, b: real, c: real)
    ensures Refilled(l, a, b) + Refilled(l, b, c) == Refilled(l, a, c)
  {
    MulSum(b - a, c - b, l.refill);
    assert b - a + (c - b) == c - a;
  }

  lemma MinGrows(c: real, a: real, b: real)
    requires a <= b
    ensures Min(c, a) <= Min(c, b)
  {
  }

  lemma LevelGrows(l: Limits, b: Bucket, now: real, idle: real)
    requires 0.0 <= l.refill && idle <= now - b.last
    ensures Level(l, b, now) >= Min(l.capacity, b.tokens + idle * l.refill)
  {
    RefilledFor(l, b.last, now, idle);
    MinGrows(l.capacity, b.tokens + idle * l.refill, b.tokens + Refilled(l, b.last, now));
  }

  lemma LevelInRange(l: Limits, b: Bucket, now: real)
    requires l.refill >= 0.0 && InRange(l, b, now)
    ensures b.tokens <= Level(l, b, now) <= l.capacity
  {
    RefilledSomething(l, b.last, now);
    MinGrows(l.capacity, b.tokens, b.tokens + Refilled(l, b.last, now));
  }

  lemma LeftIsValid(l: Limits, b: Option<Bucket>, now: real)
    requires l.refill >= 0.0 && (b.Some? ==> InRange(l, b.value, now))
    ensures InRange(l, Left(l, b, now), now) && Left(l, b, now).last == now
  {
    if b.Some? {
      LevelInRange(l, b.value, now);
    }
  }

  // For every capacity, even one below one.
  lemma {:induction false} TokensStayInRange(l: Limits, buckets: Buckets, start: real, events: seq<Event>)
    requires l.refill >= 0.0 && Valid(l, buckets, start) && Chronological(start, events)
    ensures Valid(l, Run(l, buckets, events), Clock(start, events))
  {
    if events != [] {
      var before := events[..|events| - 1];
      var e := events[|events| - 1];
      TokensStayInRange(l, buckets, start, before);
      if e.Call? {
        LeftIsValid(l, Find(Run(l, buckets, before), e.ip), e.at);
      }
    }
  }

  // ----- Eviction is invisible -----

  // The evicting limiter has the same buckets, but for some that have been idle
  // long enough to be full again.
  ghost predicate Matches(evicting: Buckets, keeping: Buckets, clock: real) {
    && (forall ip :: ip in evicting ==> ip in keeping && evicting[ip] == keeping[ip])
    && (forall ip :: ip in keeping && ip !in evicting ==> keeping[ip].last < clock - IDLE)
  }

  // On a clock that only shows some instants, whoever has been idle long enough
  // to be evicted is full again.
  ghost predicate FillsWhenIdle(l: Limits, shows: real -> bool) {
    forall a, b :: shows(a) && shows(b) && a < b - IDLE ==> Refilled(l, a, b) >= l.capacity
  }

  ghost predicate OnClock(shows: real -> bool, events: seq<Event>) {
    forall i :: 0 <= i < |events| ==> shows(events[i].at)
  }

  ghost predicate LastOnClock(shows: real -> bool, buckets: Buckets) {
    forall ip :: ip in buckets ==> shows(buckets[ip].last)
  }

  // A clock that shows every instant.
  lemma FillsOnAnyClock(l: Limits, shows: real -> bool)
    requires Sound(l) && IDLE * l.refill >= l.capacity
    ensures FillsWhenIdle(l, shows)
  {
    forall a: real, b: real | a < b - IDLE ensures Refilled(l, a, b) >= l.capacity {
      MulMonotone(IDLE, b - a, l.refill);
    }
  }

  lemma IdleIsFull(l: Limits, b: Bucket, now: real)
    requires Sound(l) && 0.0 <= b.tokens && Refilled(l, b.last, now) >= l.capacity
    ensures Decide(l, Some(b), now) && Left(l, Some(b), now) == Left(l, None, now)
  {
    MinGrows(l.capacity, l.capacity, b.tokens + Refilled(l, b.last, now));
  }

  // A call finds the same bucket in both, or a full one where the other was dropped.
  lemma SameAnswer(l: Limits, shows: real -> bool, evicting: Buckets, keeping: Buckets, clock: real, ip: string,
                   now: real)
    requires Sound(l) && FillsWhenIdle(l, shows) && LastOnClock(shows, keeping) && shows(now) && clock <= now
    requires Matches(evicting, keeping, clock) && Valid(l, keeping, clock)
    ensures Decide(l, Find(evicting, ip), now) == Decide(l, Find(keeping, ip), now)
    ensures Left(l, Find(evicting, ip), now) == Left(l, Find(keeping, ip), now)
    ensures Matches(After(l, evicting, Call(ip, now)), After(l, keeping, Call(ip, now)), now)
    ensures Valid(l, After(l, keeping, Call(ip, now)), now)
  {
    LeftIsValid(l, Find(keeping, ip), now);
    if ip in keeping && ip !in evicting {
      IdleIsFull(l, keeping[ip], now);
    }
  }

  // Where the two limiters stand after a run.
  ghost predicate Agree(l: Limits, shows: real -> bool, evicting: Buckets, keeping: Buckets, clock: real) {
    Matches(evicting, keeping, clock) && Valid(l, keeping, clock) && LastOnClock(shows, keeping)
  }

  lemma AgreeOnCall(l: Limits, shows: real -> bool, evicting: Buckets, keeping: Buckets, clock: real, ip: string,
                    now: real)
    requires Sound(l) && FillsWhenIdle(l, shows) && shows(now) && clock <= now
    requires Agree(l, shows, evicting, keeping, clock)
    ensures Agree(l, shows, After(l, evicting, Call(ip, now)), After(l, keeping, Call(ip, now)), now)
    ensures Answer(l, evicting, Call(ip, now)) == Answer(l, keeping, Call(ip, now))
  {
    SameAnswer(l, shows, evicting, keeping, clock, ip, now);
  }

  lemma AgreeOnEviction(l: Limits, shows: real -> bool, evicting: Buckets, keeping: Buckets, clock: real, now: real)
    requires Agree(l, shows, evicting, keeping, clock) && clock <= now
    ensures Agree(l, shows, After(l, evicting, Evict(now)), keeping, now)
  {
  }

  lemma CallsSnoc(before: seq<Event>, e: Event)
    ensures Calls(before + [e]) == if e.Call? then Calls(before) + [e] else Calls(before)
  {
    assert (before + [e])[..|before|] == before;
  }

  // One more event, if they agreed so far.
  lemma AgreeOnceMore(l: Limits, shows: real -> bool, before: seq<Event>, e: Event, clock: real)
    requires Sound(l) && FillsWhenIdle(l, shows) && shows(e.at) && clock <= e.at
    requires Agree(l, shows, Run(l, map[], before), Run(l, map[], Calls(before)), clock)
    requires Decisions(l, map[], before) == Decisions(l, map[], Calls(before))
    ensures Agree(l, shows, Run(l, map[], before + [e]), Run(l, map[], Calls(before + [e])), e.at)
    ensures Decisions(l, map[], before + [e]) == Decisions(l, map[], Calls(before + [e]))
  {
    CallsSnoc(before, e);
    AskedOnceMore(l, map[], before, e);
    if e.Call? {
      AskedOnceMore(l, map[], Calls(before), e);
      AgreeOnCall(l, shows, Run(l, map[], before), Run(l, map[], Calls(before)), clock, e.ip, e.at);
    } else {
      AgreeOnEviction(l, shows, Run(l, map[], before), Run(l, map[], Calls(before)), clock, e.at);
      assert Answer(l, Run(l, map[], before), e) == [];
    }
  }

  lemma {:induction false} EvictingMatchesKeeping(l: Limits, shows: real -> bool, start: real, events: seq<Event>)
    requires Sound(l) && FillsWhenIdle(l, shows) && Chronological(start, events) && OnClock(shows, events)
    ensures Agree(l, shows, Run(l, map[], events), Run(l, map[], Calls(events)), Clock(start, events))
    ensures Decisions(l, map[], events) == Decisions(l, map[], Calls(events))
  {
    if events != [] {
      var before, e := events[..|events| - 1], events[|events| - 1];
      assert events == before + [e];
      EvictingMatchesKeeping(l, shows, start, before);
      AgreeOnceMore(l, shows, before, e, Clock(start, before));
    }
  }

  ghost predicate EvictionIsInvisible(l: Limits) {
    forall start, events :: Chronological(start, events) ==>
      Decisions(l, map[], events) == Decisions(l, map[], Calls(events))
  }

  // ----- The bound over every window -----

  function AllowedIn(ds: seq<Decision>, ip: string, from: real, to: real): nat {
    if ds == [] then 0
    else
      var last := ds[|ds| - 1];
      AllowedIn(ds[..|ds| - 1], ip, from, to)
      + (if last.allowed && last.ip == ip && from <= last.at <= to then 1 else 0)
  }

  lemma AllowedInSnoc(ds: seq<Decision>, d: Decision, ip: string, from: real, to: real)
    ensures AllowedIn(ds + [d], ip, from, to)
         == AllowedIn(ds, ip, from, to) + (if d.allowed && d.ip == ip && from <= d.at <= to then 1 else 0)
  {
    assert (ds + [d])[..|ds|] == ds;
  }

  predicate OnlyCalls(events: seq<Event>) {
    forall i :: 0 <= i < |events| ==> events[i].Call?
  }

  // What has been allowed since `from` was either there then or refilled since.
  ghost predicate Paid(l: Limits, b: Option<Bucket>, n: nat, clock: real, from: real, to: real) {
    && (n > 0 ==> b.Some? && from <= b.value.last)
    && (n > 0 && clock <= to ==> n as real + b.value.tokens <= l.capacity + Refilled(l, from, b.value.last))
    && (n > 0 ==> n as real <= l.capacity + Refilled(l, from, to))
  }

  // The first call counted: the bucket holds at most the capacity.
  lemma PaidFirst(l: Limits, b: Option<Bucket>, from: real, to: real, now: real)
    requires Sound(l) && from <= now <= to && Decide(l, b, now)
    requires b.Some? ==> InRange(l, b.value, now)
    ensures Paid(l, Some(Left(l, b, now)), 1, now, from, to)
  {
    LeftIsValid(l, b, now);
    RefilledSomething(l, from, now);
    RefilledSomething(l, from, to);
    var after := Left(l, b, now);
    assert after.tokens <= l.capacity - 1.0;
    assert after.last == now;
  }

  // The arithmetic of a later call, with the products named.
  lemma PaidSum(n: nat, allowed: bool, tokens: real, level: real, capacity: real, until: real, since: real, whole: real,
                room: real)
    requires n as real + tokens <= capacity + until && level <= tokens + since
    requires until + since == whole <= room && (if allowed then 1.0 else 0.0) <= level
    ensures var m := n + (if allowed then 1 else 0);
            && m as real + (level - (if allowed then 1.0 else 0.0)) <= capacity + whole
            && m as real <= capacity + room
  {
    assert (n + 1) as real == n as real + 1.0;
  }

  // A later call: what it finds was refilled since the last one.
  lemma PaidMore(l: Limits, b: Bucket, n: nat, clock: real, from: real, to: real, now: real)
    requires Sound(l) && clock <= now && n > 0 && Paid(l, Some(b), n, clock, from, to) && from <= now <= to
    requires InRange(l, b, clock)
    ensures Paid(l, Some(Left(l, Some(b), now)), n + (if Decide(l, Some(b), now) then 1 else 0), now, from, to)
  {
    var until, since, whole := Refilled(l, from, b.last), Refilled(l, b.last, now), Refilled(l, from, now);
    var level, room := Level(l, b, now), Refilled(l, from, to);
    RefilledTwice(l, from, b.last, now);
    assert whole <= room by {
      RefilledTwice(l, from, now, to);
      RefilledSomething(l, now, to);
    }
    LevelInRange(l, b, now);
    assert level <= b.tokens + since;
    PaidSum(n, Decide(l, Some(b), now), b.tokens, level, l.capacity, until, since, whole, room);
  }

  // Before the window nothing has been counted; after it nothing more is.
  lemma PaidOutside(l: Limits, b: Option<Bucket>, n: nat, clock: real, from: real, to: real, now: real)
    requires Sound(l) && clock <= now && Paid(l, b, n, clock, from, to) && !(from <= now <= to)
    requires b.Some? ==> b.value.last <= clock
    ensures Paid(l, Some(Left(l, b, now)), n, now, from, to)
  {
    if n > 0 {
      assert from <= now && to < now;
      assert Left(l, b, now).last == now;
    }
  }

  lemma NoneCounted(l: Limits, b: Option<Bucket>, clock: real, from: real, to: real)
    ensures Paid(l, b, 0, clock, from, to)
  {
  }

  lemma PaidNext(l: Limits, b: Option<Bucket>, n: nat, clock: real, from: real, to: real, now: real)
    requires Sound(l) && clock <= now && Paid(l, b, n, clock, from, to)
    requires b.Some? ==> InRange(l, b.value, clock)
    ensures Paid(l, Some(Left(l, b, now)), n + (if Decide(l, b, now) && from <= now <= to then 1 else 0), now, from, to)
  {
    if !(from <= now <= to) {
      PaidOutside(l, b, n, clock, from, to, now);
    } else if n > 0 {
      PaidMore(l, b.value, n, clock, from, to, now);
    } else if Decide(l, b, now) {
      PaidFirst(l, b, from, to, now);
    } else {
      NoneCounted(l, Some(Left(l, b, now)), now, from, to);
    }
  }

  lemma PaidElsewhere(l: Limits, b: Option<Bucket>, n: nat, clock: real, from: real, to: real, now: real)
    requires clock <= now && Paid(l, b, n, clock, from, to)
    ensures Paid(l, b, n, now, from, to)
  {
  }

  // What a call changes: its own bucket, and the count if it is one we count.
  lemma AfterCall(l: Limits, buckets: Buckets, events: seq<Event>, e: Event, ip: string, from: real, to: real)
    requires e.Call?
    ensures var before := Run(l, buckets, events);
            var after := Run(l, buckets, events + [e]);
            && Find(after, ip) == (if e.ip == ip then Some(Left(l, Find(before, ip), e.at)) else Find(before, ip))
            && AllowedIn(Decisions(l, buckets, events + [e]), ip, from, to)
               == AllowedIn(Decisions(l, buckets, events), ip, from, to)
                  + (if e.ip == ip && Decide(l, Find(before, ip), e.at) && from <= e.at <= to then 1 else 0)
  {
    assert (events + [e])[..|events|] == events;
    AllowedInSnoc(Decisions(l, buckets, events), Answer(l, Run(l, buckets, events), e)[0], ip, from, to);
  }

  lemma {:induction false} Tally(l: Limits, buckets: Buckets, start: real, events: seq<Event>, ip: string, from: real,
                                 to: real)
    requires Sound(l) && Valid(l, buckets, start) && Chronological(start, events) && OnlyCalls(events)
    ensures Paid(l, Find(Run(l, buckets, events), ip), AllowedIn(Decisions(l, buckets, events), ip, from, to),
                 Clock(start, events), from, to)
  {
    if events != [] {
      var before, e := events[..|events| - 1], events[|events| - 1];
      assert events == before + [e];
      var b, n, clock := Find(Run(l, buckets, before), ip), AllowedIn(Decisions(l, buckets, before), ip, from, to),
          Clock(start, before);
      Tally(l, buckets, start, before, ip, from, to);
      TokensStayInRange(l, buckets, start, before);
      AfterCall(l, buckets, before, e, ip, from, to);
      if e.ip == ip {
        PaidNext(l, b, n, clock, from, to, e.at);
      } else {
        PaidElsewhere(l, b, n, clock, from, to, e.at);
      }
    }
  }

  lemma PaidIsBounded(l: Limits, b: Option<Bucket>, n: nat, clock: real, from: real, to: real)
    requires Sound(l) && Paid(l, b, n, clock, from, to) && from <= to
    ensures n as real <= l.capacity + Refilled(l, from, to)
  {
    RefilledSomething(l, from, to);
  }

  lemma SoundWindowBound(l: Limits, buckets: Buckets, start: real, events: seq<Event>, ip: string, from: real, to: real)
    requires Sound(l) && Valid(l, buckets, start) && Chronological(start, events) && OnlyCalls(events) && from <= to
    ensures AllowedIn(Decisions(l, buckets, events), ip, from, to) as real <= l.capacity + Refilled(l, from, to)
  {
    Tally(l, buckets, start, events, ip, from, to);
    PaidIsBounded(l, Find(Run(l, buckets, events), ip), AllowedIn(Decisions(l, buckets, events), ip, from, to),
                  Clock(start, events), from, to);
  }

  // A bucket of less than one token allows no call: only the call that makes the
  // bucket is allowed.
  lemma {:induction false} OnlyTheFirst(l: Limits, buckets: Buckets, events: seq<Event>, ip: string, from: real,
                                        to: real)
    requires l.capacity < 1.0 && OnlyCalls(events)
    ensures AllowedIn(Decisions(l, buckets, events), ip, from, to) <= 1
    ensures AllowedIn(Decisions(l, buckets, events), ip, from, to) == 1 ==> ip in Run(l, buckets, events)
  {
    if events != [] {
      var before, e := events[..|events| - 1], events[|events| - 1];
      assert events == before + [e];
      OnlyTheFirst(l, buckets, before, ip, from, to);
      AfterCall(l, buckets, before, e, ip, from, to);
      assert ip in Run(l, buckets, before) ==> !Decide(l, Find(Run(l, buckets, before), ip), e.at);
    }
  }

  // On every run, for every capacity and for every address, the calls allowed in
  // any window number at most the capacity plus what the window refills, or one
  // if that is less.
  lemma WindowBound(l: Limits, buckets: Buckets, start: real, events: seq<Event>, ip: string, from: real, to: real)
    requires l.refill >= 0.0 && Valid(l, buckets, start) && Chronological(start, events) && OnlyCalls(events)
    requires from <= to
    ensures var allowed := AllowedIn(Decisions(l, buckets, events), ip, from, to);
            allowed <= 1 || allowed as real <= l.capacity + Refilled(l, from, to)
    ensures l.capacity >= 1.0 ==>
              AllowedIn(Decisions(l, buckets, events), ip, from, to) as real <= l.capacity + Refilled(l, from, to)
  {
    if l.capacity < 1.0 {
      OnlyTheFirst(l, buckets, events, ip, from, to);
    } else {
      SoundWindowBound(l, buckets, start, events, ip, from, to);
    }
  }

  lemma {:induction false} CallsAreChronological(start: real, events: seq<Event>)
    requires Chronological(start, events)
    ensures Chronological(start, Calls(events)) && OnlyCalls(Calls(events))
    ensures Clock(start, Calls(events)) <= Clock(start, events)
  {
    if events != [] {
      var before, e := events[..|events| - 1], events[|events| - 1];
      CallsAreChronological(start, before);
      if e.Call? {
        assert Calls(events)[..|Calls(before)|] == Calls(before);
      } else {
        assert Calls(events) == Calls(before);
      }
    }
  }

  // The same with evictions at arbitrary moments, when they are invisible.
  lemma WindowBoundWithEviction(l: Limits, shows: real -> bool, start: real, events: seq<Event>, ip: string, from: real,
                                to: real)
    requires Sound(l) && FillsWhenIdle(l, shows) && Chronological(start, events) && OnClock(shows, events) && from <= to
    ensures AllowedIn(Decisions(l, map[], events), ip, from, to) as real <= l.capacity + Refilled(l, from, to)
  {
    EvictingMatchesKeeping(l, shows, start, events);
    CallsAreChronological(start, events);
    WindowBound(l, map[], start, Calls(events), ip, from, to);
  }

  // ----- Denied calls -----

  // The same bucket, looked at once more without a token being taken.
  predicate SeenLater(l: Limits, seen: Bucket, b: Bucket) {
    b.last <= seen.last && seen.tokens == Level(l, b, seen.last)
  }

  lemma MinTwice(c: real, a: real, more: real)
    requires 0.0 <= more
    ensures Min(c, Min(c, a) + more) == Min(c, a + more)
  {
  }

  lemma LookingTwice(l: Limits, seen: Bucket, b: Bucket, now: real)
    requires l.refill >= 0.0 && SeenLater(l, seen, b) && seen.last <= now
    ensures Level(l, seen, now) == Level(l, b, now)
  {
    RefilledTwice(l, b.last, seen.last, now);
    RefilledSomething(l, seen.last, now);
    MinTwice(l.capacity, b.tokens + Refilled(l, b.last, seen.last), Refilled(l, seen.last, now));
  }

  lemma FreshLook(l: Limits, b: Bucket)
    requires b.tokens <= l.capacity
    ensures SeenLater(l, b, b)
  {
    RefilledNothing(l, b.last);
  }

  // The calls of a run that were allowed.
  function Granted(l: Limits, buckets: Buckets, events: seq<Event>): seq<Event>
    requires OnlyCalls(events)
  {
    if events == [] then []
    else
      var before, e := events[..|events| - 1], events[|events| - 1];
      Granted(l, buckets, before) + (if Decide(l, Find(Run(l, buckets, before), e.ip), e.at) then [e] else [])
  }

  function Positive(ds: seq<Decision>): seq<Decision> {
    if ds == [] then []
    else
      var last := ds[|ds| - 1];
      Positive(ds[..|ds| - 1]) + (if last.allowed then [last] else [])
  }

  ghost predicate AllSeenLater(l: Limits, seen: Buckets, buckets: Buckets) {
    && seen.Keys == buckets.Keys
    && forall ip :: ip in buckets ==> SeenLater(l, seen[ip], buckets[ip])
  }

  predicate Capped(l: Limits, buckets: Buckets) {
    forall ip :: ip in buckets ==> buckets[ip].tokens <= l.capacity
  }

  // One call made to both: the same decision, and if it is denied the second
  // limiter need not have been asked.
  lemma AskBoth(l: Limits, seen: Buckets, base: Buckets, clock: real, ip: string, now: real)
    requires l.refill >= 0.0 && Valid(l, seen, clock) && clock <= now && Capped(l, base) && AllSeenLater(l, seen, base)
    ensures Decide(l, Find(seen, ip), now) == Decide(l, Find(base, ip), now)
    ensures var asked := seen[ip := Left(l, Find(seen, ip), now)];
            var other := if Decide(l, Find(seen, ip), now) then base[ip := Left(l, Find(base, ip), now)] else base;
            AllSeenLater(l, asked, other) && Capped(l, other)
  {
    if ip in base {
      LookingTwice(l, seen[ip], base[ip], now);
    }
    LeftIsValid(l, Find(seen, ip), now);
    if Decide(l, Find(seen, ip), now) {
      FreshLook(l, Left(l, Find(seen, ip), now));
    }
  }

  lemma PositiveSnoc(ds: seq<Decision>, d: Decision)
    ensures Positive(ds + [d]) == Positive(ds) + (if d.allowed then [d] else [])
  {
    assert (ds + [d])[..|ds|] == ds;
  }

  lemma AskedOnceMore(l: Limits, buckets: Buckets, events: seq<Event>, e: Event)
    ensures Run(l, buckets, events + [e]) == After(l, Run(l, buckets, events), e)
    ensures Decisions(l, buckets, events + [e]) == Decisions(l, buckets, events) + Answer(l, Run(l, buckets, events), e)
  {
    assert (events + [e])[..|events|] == events;
  }

  lemma {:induction false} GrantedReachesTheSame(l: Limits, buckets: Buckets, start: real, events: seq<Event>)
    requires l.refill >= 0.0 && Valid(l, buckets, start) && Chronological(start, events) && OnlyCalls(events)
    ensures var base := Run(l, buckets, Granted(l, buckets, events));
            AllSeenLater(l, Run(l, buckets, events), base) && Capped(l, base)
  {
    if events == [] {
      forall ip | ip in buckets ensures SeenLater(l, buckets[ip], buckets[ip]) {
        FreshLook(l, buckets[ip]);
      }
    } else {
      var before, e := events[..|events| - 1], events[|events| - 1];
      GrantedReachesTheSame(l, buckets, start, before);
      TokensStayInRange(l, buckets, start, before);
      AskBoth(l, Run(l, buckets, before), Run(l, buckets, Granted(l, buckets, before)), Clock(start, before), e.ip,
              e.at);
      AskedOnceMore(l, buckets, Granted(l, buckets, before), e);
      assert Granted(l, buckets, before) + [] == Granted(l, buckets, before);
    }
  }

  // Leaving out every denied call changes no other decision: what is left is
  // allowed again, call for call.
  lemma {:induction false} DeniedCallsDoNotMatter(l: Limits, buckets: Buckets, start: real, events: seq<Event>)
    requires l.refill >= 0.0 && Valid(l, buckets, start) && Chronological(start, events) && OnlyCalls(events)
    ensures Decisions(l, buckets, Granted(l, buckets, events)) == Positive(Decisions(l, buckets, events))
  {
    if events != [] {
      var before, e := events[..|events| - 1], events[|events| - 1];
      var kept := Granted(l, buckets, before);
      var seen, base := Run(l, buckets, before), Run(l, buckets, kept);
      assert Decide(l, Find(seen, e.ip), e.at) == Decide(l, Find(base, e.ip), e.at) by {
        GrantedReachesTheSame(l, buckets, start, before);
        TokensStayInRange(l, buckets, start, before);
        AskBoth(l, seen, base, Clock(start, before), e.ip, e.at);
      }
      DeniedCallsDoNotMatter(l, buckets, start, before);
      PositiveSnoc(Decisions(l, buckets, before), Answer(l, seen, e)[0]);
      AskedOnceMore(l, buckets, kept, e);
      assert kept + [] == kept;
    }
  }
}
