/** The one-hour limiter per address or user: a fixed window that starts with
    its first call, with background eviction. */
module FixedWindow {
  import opened Core

  datatype Window = Window(count: int, start: Instant)

  type Windows = map<string, Window>

  function Find(windows: Windows, key: string): Option<Window> {
    if key in windows then Some(windows[key]) else None
  }

  predicate Over(w: Option<Window>, now: Instant) {
    w.Some? ==> now - w.value.start > HOUR
  }

  // One call for one key: the decision, and the window left behind.
  function Decide(limit: int, w: Option<Window>, now: Instant): bool {
    Over(w, now) || w.value.count < limit
  }

  function Left(limit: int, w: Option<Window>, now: Instant): Window {
    if Over(w, now) then Window(1, now)
    else if w.value.count < limit then w.value.(count := w.value.count + 1)
    else w.value
  }

  function Evicted(windows: Windows, now: Instant): Windows {
    map k | k in windows && windows[k].start >= now - HOUR :: windows[k]
  }

  class EmailRateLimiter {
    var attempts: Windows
    const maxPerHour: int

    constructor (maxPerHour: int)
      ensures this.maxPerHour == maxPerHour && attempts == map[]
    {
      this.maxPerHour := maxPerHour;
      attempts := map[];
    }

    method Allow(key: string, now: Instant) returns (allowed: bool)
      modifies this
      ensures allowed == Decide(maxPerHour, Find(old(attempts), key), now)
      ensures attempts == old(attempts)[key := Left(maxPerHour, Find(old(attempts), key), now)]
    {
      if key !in attempts || now - attempts[key].start > HOUR {
        attempts := attempts[key := Window(1, now)];
        return true;
      }
      var w := attempts[key];
      if w.count >= maxPerHour {
        assert attempts == attempts[key := w];
        return false;
      }
      attempts := attempts[key := w.(count := w.count + 1)];
      return true;
    }

    // One tick of the background loop.
    method Cleanup(now: Instant) returns (removed: nat)
      modifies this
      ensures attempts == Evicted(old(attempts), now)
      ensures removed == |old(attempts)| - |attempts|
    {
      var cutoff := now - HOUR;
      removed := 0;
      var left := attempts.Keys;
      ghost var before := attempts;
      while left != {}
        invariant left <= attempts.Keys <= before.Keys
        invariant forall k :: k in attempts ==> attempts[k] == before[k]
        invariant forall k :: k in before && k !in left ==> (k in attempts <==> before[k].start >= cutoff)
        invariant removed == |before| - |attempts|
        decreases |left|
      {
        var k :| k in left;
        left := left - {k};
        if attempts[k].start < cutoff {
          assert (attempts - {k}).Keys == attempts.Keys - {k};
          attempts := attempts - {k};
          removed := removed + 1;
        }
      }
    }
  }

  // ----- Runs -----

  datatype Event = Call(key: string, at: Instant) | Evict(at: Instant)

  datatype Decision = Decision(key: string, at: Instant, allowed: bool)

  function After(limit: int, windows: Windows, e: Event): Windows {
    match e
    case Call(key, now) => windows[key := Left(limit, Find(windows, key), now)]
    case Evict(now) => Evicted(windows, now)
  }

  function Run(limit: int, windows: Windows, events: seq<Event>): Windows {
    if events == [] then windows
    else After(limit, Run(limit, windows, events[..|events| - 1]), events[|events| - 1])
  }

  function Answer(limit: int, windows: Windows, e: Event): seq<Decision> {
    match e
    case Call(key, now) => [Decision(key, now, Decide(limit, Find(windows, key), now))]
    case Evict(_) => []
  }

  function Decisions(limit: int, windows: Windows, events: seq<Event>): seq<Decision> {
    if events == [] then []
    else
      var before := events[..|events| - 1];
      Decisions(limit, windows, before) + Answer(limit, Run(limit, windows, before), events[|events| - 1])
  }

  function Calls(events: seq<Event>): seq<Event> {
    if events == [] then []
    else
      var last := events[|events| - 1];
      Calls(events[..|events| - 1]) + (if last.Call? then [last] else [])
  }

  function Clock(start: Instant, events: seq<Event>): Instant {
    if events == [] then start else events[|events| - 1].at
  }

  predicate Chronological(start: Instant, events: seq<Event>) {
    events != [] ==>
      var before := events[..|events| - 1];
      Chronological(start, before) && Clock(start, before) <= events[|events| - 1].at
  }

  // ----- Eviction is invisible -----

  // The evicting limiter has the same windows, but for some that are over.
  ghost predicate Matches(evicting: Windows, keeping: Windows, clock: Instant) {
    && (forall k :: k in evicting ==> k in keeping && evicting[k] == keeping[k])
    && (forall k :: k in keeping && k !in evicting ==> Over(Some(keeping[k]), clock))
  }

  // Evicting at arbitrary moments changes no decision of any run, whatever the
  // limit: only a window that the next call would restart is dropped.
  lemma {:induction false} EvictionIsInvisible(limit: int, start: Instant, events: seq<Event>)
    requires Chronological(start, events)
    ensures Matches(Run(limit, map[], events), Run(limit, map[], Calls(events)), Clock(start, events))
    ensures Decisions(limit, map[], events) == Decisions(limit, map[], Calls(events))
  {
    if events != [] {
      var before, e := events[..|events| - 1], events[|events| - 1];
      EvictionIsInvisible(limit, start, before);
      if e.Call? {
        assert Calls(events)[..|Calls(before)|] == Calls(before);
      } else {
        assert Calls(events) == Calls(before);
      }
    }
  }

  // ----- The bound over every hour -----

  function AllowedIn(ds: seq<Decision>, key: string, from: Instant, to: Instant): nat {
    if ds == [] then 0
    else
      var last := ds[|ds| - 1];
      AllowedIn(ds[..|ds| - 1], key, from, to)
      + (if last.allowed && last.key == key && from <= last.at <= to then 1 else 0)
  }

  lemma AllowedInSnoc(ds: seq<Decision>, d: Decision, key: string, from: Instant, to: Instant)
    ensures AllowedIn(ds + [d], key, from, to)
         == AllowedIn(ds, key, from, to) + (if d.allowed && d.key == key && from <= d.at <= to then 1 else 0)
  {
    assert (ds + [d])[..|ds|] == ds;
  }

  // How n allowed calls since `from` can have come about: a window that started
  // before lost its first call to the past, one that started since comes after
  // at most limit - 1 others, and only one can start within the hour.
  predicate Explained(limit: int, w: Option<Window>, n: nat, clock: Instant, from: Instant) {
    && n <= 2 * limit - 1
    && (w.None? && clock <= from + HOUR ==> n <= limit - 1)
    && (w.Some? ==>
          && 1 <= w.value.count <= limit
          && w.value.start <= clock
          && (w.value.start < from ==> n <= w.value.count - 1 || clock > from + HOUR)
          && (from <= w.value.start <= from + HOUR ==> n <= limit - 1 + w.value.count))
    && (clock < from ==> n == 0)
  }

  lemma ExplainedNext(limit: int, w: Option<Window>, n: nat, clock: Instant, from: Instant, now: Instant)
    requires 1 <= limit && clock <= now && Explained(limit, w, n, clock, from)
    ensures Explained(limit, Some(Left(limit, w, now)),
                      n + (if Decide(limit, w, now) && from <= now <= from + HOUR then 1 else 0), now, from)
  {
  }

  lemma ExplainedEvict(limit: int, w: Window, n: nat, clock: Instant, from: Instant, now: Instant)
    requires 1 <= limit && clock <= now && Explained(limit, Some(w), n, clock, from) && w.start < now - HOUR
    ensures Explained(limit, None, n, now, from)
  {
  }

  lemma {:induction false} Tally(limit: int, start: Instant, events: seq<Event>, key: string, from: Instant)
    requires 1 <= limit && Chronological(start, events)
    ensures Explained(limit, Find(Run(limit, map[], events), key),
                      AllowedIn(Decisions(limit, map[], events), key, from, from + HOUR), Clock(start, events), from)
  {
    if events != [] {
      var before, e := events[..|events| - 1], events[|events| - 1];
      Tally(limit, start, before, key, from);
      var windows, ds := Run(limit, map[], before), Decisions(limit, map[], before);
      var n := AllowedIn(ds, key, from, from + HOUR);
      if e.Call? {
        AllowedInSnoc(ds, Answer(limit, windows, e)[0], key, from, from + HOUR);
        if e.key == key {
          ExplainedNext(limit, Find(windows, key), n, Clock(start, before), from, e.at);
        }
      } else {
        assert ds + [] == ds;
        if key in windows && windows[key].start < e.at - HOUR {
          ExplainedEvict(limit, windows[key], n, Clock(start, before), from, e.at);
        }
      }
    }
  }

  // On every run, with evictions at any moment, every closed hour has at most
  // 2 * limit - 1 allowed calls for one key.
  lemma HourBound(limit: int, start: Instant, events: seq<Event>, key: string, from: Instant)
    requires 1 <= limit && Chronological(start, events)
    ensures AllowedIn(Decisions(limit, map[], events), key, from, from + 3600 * 1_000_000_000) <= 2 * limit - 1
  {
    Tally(limit, start, events, key, from);
  }

  // ----- The bound is reached -----

  function Burst(key: string, n: nat, at: Instant): seq<Event> {
    if n == 0 then [] else Burst(key, n - 1, at) + [Call(key, at)]
  }

  // One call, the rest of its window an hour later, and a new window just after.
  function Worst(key: string, limit: nat): seq<Event>
    requires limit >= 1
  {
    [Call(key, 0)] + Burst(key, limit - 1, HOUR) + Burst(key, limit, HOUR + 1)
  }

  // Where a run stands: the key's window, and the calls allowed in the hour.
  datatype Standing = Standing(window: Option<Window>, allowed: nat)

  ghost function StandingAfter(limit: int, events: seq<Event>, key: string, from: Instant): Standing {
    Standing(Find(Run(limit, map[], events), key), AllowedIn(Decisions(limit, map[], events), key, from, from + HOUR))
  }

  function OneMore(limit: int, s: Standing, from: Instant, at: Instant): Standing {
    Standing(Some(Left(limit, s.window, at)),
             s.allowed + (if Decide(limit, s.window, at) && from <= at <= from + HOUR then 1 else 0))
  }

  function Many(limit: int, s: Standing, n: nat, from: Instant, at: Instant): Standing {
    if n == 0 then s else OneMore(limit, Many(limit, s, n - 1, from, at), from, at)
  }

  lemma OneMoreWindow(limit: int, events: seq<Event>, e: Event)
    ensures Run(limit, map[], events + [e]) == After(limit, Run(limit, map[], events), e)
    ensures Decisions(limit, map[], events + [e])
        == Decisions(limit, map[], events) + Answer(limit, Run(limit, map[], events), e)
  {
    assert (events + [e])[..|events|] == events;
  }

  lemma OneMoreCall(limit: int, events: seq<Event>, key: string, from: Instant, at: Instant)
    ensures StandingAfter(limit, events + [Call(key, at)], key, from)
        == OneMore(limit, StandingAfter(limit, events, key, from), from, at)
  {
    var windows, ds := Run(limit, map[], events), Decisions(limit, map[], events);
    OneMoreWindow(limit, events, Call(key, at));
    AllowedInSnoc(ds, Decision(key, at, Decide(limit, Find(windows, key), at)), key, from, from + HOUR);
  }

  lemma BurstSnoc(events: seq<Event>, key: string, n: nat, at: Instant)
    requires n >= 1
    ensures events + Burst(key, n, at) == events + Burst(key, n - 1, at) + [Call(key, at)]
  {
  }

  lemma {:induction false} ManyCalls(limit: int, events: seq<Event>, key: string, n: nat, from: Instant, at: Instant)
    ensures StandingAfter(limit, events + Burst(key, n, at), key, from)
         == Many(limit, StandingAfter(limit, events, key, from), n, from, at)
  {
    if n == 0 {
      assert events + Burst(key, 0, at) == events;
    } else {
      ManyCalls(limit, events, key, n - 1, from, at);
      BurstSnoc(events, key, n, at);
      OneMoreCall(limit, events + Burst(key, n - 1, at), key, from, at);
    }
  }

  // A burst in a window that has room for it is allowed in full.
  lemma {:induction false} BurstIsAllowed(limit: int, w: Window, k: nat, n: nat, from: Instant, at: Instant)
    requires from <= at <= from + HOUR && at - w.start <= HOUR && w.count + n <= limit
    ensures Many(limit, Standing(Some(w), k), n, from, at) == Standing(Some(w.(count := w.count + n)), k + n)
  {
    if n > 0 {
      BurstIsAllowed(limit, w, k, n - 1, from, at);
    }
  }

  // A burst of up to `limit` calls after the window is over fills a new one.
  lemma {:induction false} NewWindowIsFilled(limit: int, w: Option<Window>, k: nat, n: nat, from: Instant, at: Instant)
    requires from <= at <= from + HOUR && Over(w, at) && 1 <= n <= limit
    ensures Many(limit, Standing(w, k), n, from, at) == Standing(Some(Window(n, at)), k + n)
  {
    if n == 1 {
      assert Many(limit, Standing(w, k), 0, from, at) == Standing(w, k);
    } else {
      NewWindowIsFilled(limit, w, k, n - 1, from, at);
    }
  }

  lemma OneMoreInTime(start: Instant, events: seq<Event>, key: string, at: Instant)
    requires Chronological(start, events) && Clock(start, events) <= at
    ensures Chronological(start, events + [Call(key, at)]) && Clock(start, events + [Call(key, at)]) == at
  {
    assert (events + [Call(key, at)])[..|events|] == events;
  }

  lemma {:induction false} BurstIsChronological(start: Instant, events: seq<Event>, key: string, n: nat, at: Instant)
    requires Chronological(start, events) && Clock(start, events) <= at
    ensures Chronological(start, events + Burst(key, n, at)) && Clock(start, events + Burst(key, n, at)) <= at
  {
    if n == 0 {
      assert events + Burst(key, 0, at) == events;
    } else {
      BurstIsChronological(start, events, key, n - 1, at);
      BurstSnoc(events, key, n, at);
      OneMoreInTime(start, events + Burst(key, n - 1, at), key, at);
    }
  }

  // The rest of a window at its very end, and a whole new one just after.
  lemma TwoBursts(limit: nat, end: Instant)
    requires limit >= 1 && end == HOUR
    ensures Many(limit, Standing(Some(Window(1, 0)), 0), limit - 1, end, end)
        == Standing(Some(Window(limit, 0)), limit - 1)
    ensures Many(limit, Standing(Some(Window(limit, 0)), limit - 1), limit, end, end + 1).allowed == 2 * limit - 1
  {
    BurstIsAllowed(limit, Window(1, 0), 0, limit - 1, end, end);
    NewWindowIsFilled(limit, Some(Window(limit, 0)), limit - 1, limit, end, end + 1);
  }

  lemma ManyTwice(limit: int, events: seq<Event>, key: string, n: nat, m: nat, from: Instant, at: Instant,
                  late: Instant)
    ensures StandingAfter(limit, events + Burst(key, n, at) + Burst(key, m, late), key, from)
         == Many(limit, Many(limit, StandingAfter(limit, events, key, from), n, from, at), m, from, late)
  {
    ManyCalls(limit, events, key, n, from, at);
    ManyCalls(limit, events + Burst(key, n, at), key, m, from, late);
  }

  // For every limit some run has exactly 2 * limit - 1 allowed calls in an hour.
  lemma HourBoundIsReached(key: string, limit: nat)
    requires limit >= 1
    ensures Chronological(0, Worst(key, limit))
    ensures AllowedIn(Decisions(limit, map[], Worst(key, limit)), key, HOUR, HOUR + HOUR) == 2 * limit - 1
  {
    WorstIsChronological(key, limit);
    FirstCall(limit, key);
    TwoBursts(limit, HOUR);
    ManyTwice(limit, [Call(key, 0)], key, limit - 1, limit, HOUR, HOUR, HOUR + 1);
    assert StandingAfter(limit, Worst(key, limit), key, HOUR).allowed == 2 * limit - 1;
  }

  lemma FirstCall(limit: nat, key: string)
    requires limit >= 1
    ensures StandingAfter(limit, [Call(key, 0)], key, HOUR) == Standing(Some(Window(1, 0)), 0)
  {
    assert [] + [Call(key, 0)] == [Call(key, 0)];
    OneMoreCall(limit, [], key, HOUR, 0);
  }

  lemma WorstIsChronological(key: string, limit: nat)
    requires limit >= 1
    ensures Chronological(0, Worst(key, limit))
  {
    assert [] + [Call(key, 0)] == [Call(key, 0)];
    OneMoreInTime(0, [], key, 0);
    BurstIsChronological(0, [Call(key, 0)], key, limit - 1, HOUR);
    BurstIsChronological(0, [Call(key, 0)] + Burst(key, limit - 1, HOUR), key, limit, HOUR + 1);
  }
}
