/** Runs without overlap, put together: which of them keep the provider's order, that
    the bounds are reached, and that calls that take no time are among them. */
module NoOverlapRuns {
  import opened Core
  import opened Records
  import opened BillingMachine
  import opened Interleaving
  import opened NoOverlap
  import opened OrderGuard
  import opened OrderShapes
  import Providers
  import Races
  import Serialised

  // ----- Runs in turn, put together -----

  predicate Begins(m: Move) {
    m.Arrive? || m.BeginCancel?
  }

  // At most the first move starts a call.
  predicate OneCall(moves: seq<Move>) {
    forall i :: 0 < i < |moves| ==> !Begins(moves[i])
  }

  lemma {:induction false} OneCallIsInTurn(plans: Providers.PaystackPlans, w: World, moves: seq<Move>)
    requires OneCall(moves) && (AllThrough(w) || (moves != [] && !Begins(moves[0])))
    ensures InTurn(plans, w, moves)
  {
    if |moves| > 1 {
      OneCallIsInTurn(plans, w, moves[..|moves| - 1]);
    }
  }

  lemma InTurnOnce(plans: Providers.PaystackPlans, w: World, moves: seq<Move>, m: Move)
    ensures InTurn(plans, w, moves + [m])
       <==> InTurn(plans, w, moves) && WaitsItsTurn(plans, Interleaving.Run(plans, w, moves), m)
  {
    assert (moves + [m])[..|moves|] == moves;
  }

  lemma {:induction false} InTurnConcat(plans: Providers.PaystackPlans, w: World, first: seq<Move>, second: seq<Move>)
    requires InTurn(plans, w, first) && InTurn(plans, Interleaving.Run(plans, w, first), second)
    ensures InTurn(plans, w, first + second)
    decreases |second|
  {
    if second == [] {
      assert first + second == first;
    } else {
      var before, last := second[..|second| - 1], second[|second| - 1];
      assert second == before + [last] && first + second == (first + before) + [last];
      InTurnOnce(plans, Interleaving.Run(plans, w, first), before, last);
      InTurnConcat(plans, w, first, before);
      Races.RunConcat(plans, w, first, before);
      InTurnOnce(plans, w, first + before, last);
    }
  }

  lemma InTurnThen(plans: Providers.PaystackPlans, w: World, first: seq<Move>, second: seq<Move>, p: World -> bool)
    requires InTurn(plans, w, first) && InTurn(plans, Interleaving.Run(plans, w, first), second)
    requires p(Interleaving.Run(plans, Interleaving.Run(plans, w, first), second))
    ensures InTurn(plans, w, first + second) && p(Interleaving.Run(plans, w, first + second))
  {
    InTurnConcat(plans, w, first, second);
    Races.RunConcat(plans, w, first, second);
  }

  // ----- Calls that take no time do not overlap -----

  lemma {:induction false} ThroughForGood(plans: Providers.PaystackPlans, w: World, moves: seq<Move>, h: nat)
    requires h in w.handlers && Through(w.handlers[h])
    ensures h in Interleaving.Run(plans, w, moves).handlers && Through(Interleaving.Run(plans, w, moves).handlers[h])
    decreases |moves|
  {
    if moves != [] {
      ThroughForGood(plans, w, moves[..|moves| - 1], h);
      ThroughStays(plans, Interleaving.Run(plans, w, moves[..|moves| - 1]), moves[|moves| - 1], h);
    }
  }

  lemma ActionIsOneCall(plans: Providers.PaystackPlans, a: Action, h: nat)
    ensures OneCall(Serialised.MovesFor(plans, a, h))
    ensures forall i :: 0 <= i < |Serialised.MovesFor(plans, a, h)| && Serialised.MovesFor(plans, a, h)[i].Arrive? ==>
              Serialised.MovesFor(plans, a, h)[i].h == h
  {
  }

  // An action whose instant has come, once everything before it is through.
  lemma ActionIsInTurn(plans: Providers.PaystackPlans, w: World, s: State, a: Action, h: nat)
    requires Serialised.Matches(w, s) && a.env.now == w.clock && h !in w.handlers && Enabled(plans, s, a)
    requires AllThrough(w)
    ensures InTurn(plans, w, Serialised.MovesFor(plans, a, h))
    ensures AllThrough(Interleaving.Run(plans, w, Serialised.MovesFor(plans, a, h)))
  {
    var moves := Serialised.MovesFor(plans, a, h);
    var v := Interleaving.Run(plans, w, moves);
    ActionIsOneCall(plans, a, h);
    OneCallIsInTurn(plans, w, moves);
    Serialised.MovesAreStep(plans, w, s, a, h);
    Serialised.CallIsThrough(plans, w, s, a, h);
    forall g | g in v.handlers ensures Through(v.handlers[g]) {
      if g in w.handlers {
        ThroughForGood(plans, w, moves, g);
      } else {
        Serialised.NobodyElseArrives(plans, w, moves, g);
      }
    }
  }

  lemma TickIsInTurn(plans: Providers.PaystackPlans, w: World, s: State, a: Action, h: nat)
    requires Serialised.Matches(w, s) && w.clock <= a.env.now && h !in w.handlers && Enabled(plans, s, a)
    requires AllThrough(w)
    ensures var moves := [Tick(a.env.now)] + Serialised.MovesFor(plans, a, h);
            InTurn(plans, w, moves) && AllThrough(Interleaving.Run(plans, w, moves))
  {
    Serialised.TickIs(plans, w, s, a.env.now);
    Serialised.ClockIsUnread(plans, s, a, a.env.now);
    var later := Interleaving.Run(plans, w, [Tick(a.env.now)]);
    ActionIsInTurn(plans, later, s.(clock := a.env.now), a, h);
    OneCallIsInTurn(plans, w, [Tick(a.env.now)]);
    InTurnThen(plans, w, [Tick(a.env.now)], Serialised.MovesFor(plans, a, h), (u: World) => AllThrough(u));
  }

  // The runs of `Serialised`, in which every call is over at the instant at which
  // it starts, are among the runs without overlap: whatever is proved of these
  // holds of every run of the machine.
  lemma {:induction false} SerialRunsAreInTurn(plans: Providers.PaystackPlans, w: World, s: State, run: seq<Action>)
    requires Serialised.Matches(w, s) && w.handlers == map[] && Possible(plans, s, run) && Chronological(s, run)
    ensures InTurn(plans, w, Serialised.MovesOf(plans, run))
    ensures AllThrough(Interleaving.Run(plans, w, Serialised.MovesOf(plans, run)))
  {
    if run != [] {
      var before, last := run[..|run| - 1], run[|run| - 1];
      var first := Serialised.MovesOf(plans, before);
      SerialRunsAreInTurn(plans, w, s, before);
      Serialised.SerialRunsAreMachineRuns(plans, w, s, before);
      Serialised.MovesArriveBelow(plans, before);
      Serialised.HandlersStayBelow(plans, w, first, |before|);
      ClockAfter(plans, s, before);
      TickIsInTurn(plans, Interleaving.Run(plans, w, first), BillingMachine.Run(plans, s, before), last, |before|);
      InTurnThen(plans, w, first, [Tick(last.env.now)] + Serialised.MovesFor(plans, last, |before|),
                 (u: World) => AllThrough(u));
    }
  }

  // ----- For which shapes the order is kept -----

  // No run of this shape in which calls do not overlap applies the older event last.
  ghost predicate OrderKeptInTurn(plans: Providers.PaystackPlans, w: World, p: Pair, shape: Shape) {
    forall moves, a, b, more ::
      InTurn(plans, w, moves + [CheckOrder(b)] + more) && Meets(plans, w, moves, a, b, p)
          && ShapeAt(plans, w, moves, a) == shape ==>
        !After(Interleaving.Run(plans, w, moves + [CheckOrder(b)] + more), a, b)
  }

  lemma {:induction false} InTurnSoFar(plans: Providers.PaystackPlans, w: World, first: seq<Move>, more: seq<Move>)
    requires InTurn(plans, w, first + more)
    ensures InTurn(plans, w, first)
    decreases |more|
  {
    if more == [] {
      assert first + more == first;
    } else {
      assert (first + more)[..|first + more| - 1] == first + more[..|more| - 1];
      InTurnSoFar(plans, w, first, more[..|more| - 1]);
    }
  }

  // Without overlap, a newer event that is not marked when the older one is
  // checked was not applied, and is over.
  lemma UnmarkedIsOver(plans: Providers.PaystackPlans, w: World, moves: seq<Move>, a: nat, b: nat, p: Pair)
    requires Fresh(w) && InTurn(plans, w, moves) && Conflicting(p) && Meets(plans, w, moves, a, b, p)
    requires ShapeAt(plans, w, moves, a) == NotYetMarked
    ensures Over(Interleaving.Run(plans, w, moves), a)
  {
    var v := Interleaving.Run(plans, w, moves);
    SoloAlongTheRun(plans, w, moves);
    assert NewerOf(v, a, b);
    if WasApplied(v, a) {
      MarkedBefore(plans, w, moves, a, b);
    }
  }

  lemma UnmarkedKeepsOrder(plans: Providers.PaystackPlans, w: World, p: Pair)
    requires Fresh(w) && Conflicting(p)
    ensures OrderKeptInTurn(plans, w, p, NotYetMarked)
  {
    forall moves, a, b, more | InTurn(plans, w, moves + [CheckOrder(b)] + more) && Meets(plans, w, moves, a, b, p)
        && ShapeAt(plans, w, moves, a) == NotYetMarked
      ensures !After(Interleaving.Run(plans, w, moves + [CheckOrder(b)] + more), a, b)
    {
      assert moves + [CheckOrder(b)] + more == moves + ([CheckOrder(b)] + more);
      InTurnSoFar(plans, w, moves, [CheckOrder(b)] + more);
      UnmarkedIsOver(plans, w, moves, a, b, p);
      OverForGood(plans, Interleaving.Run(plans, w, moves), [CheckOrder(b)] + more, a);
      Races.RunConcat(plans, w, moves, [CheckOrder(b)] + more);
    }
  }

  lemma {:induction false} NonePending(plans: Providers.PaystackPlans, w: World, moves: seq<Move>)
    requires w.cancels == map[] && forall i :: 0 <= i < |moves| ==> !moves[i].BeginCancel?
    ensures Interleaving.Run(plans, w, moves).cancels == map[]
  {
    if moves != [] {
      var before, last := moves[..|moves| - 1], moves[|moves| - 1];
      NonePending(plans, w, before);
      var v := Next(plans, Interleaving.Run(plans, w, before), last);
      forall c ensures c !in v.cancels {
        if c in v.cancels {
          PendingBefore(plans, Interleaving.Run(plans, w, before), last, c);
        }
      }
    }
  }

  // After the newer event's call and the clean-up, everything is through.
  lemma FirstIsThrough(plans: Providers.PaystackPlans, w: World, p: Pair, shape: Shape, id: string)
    requires Fresh(w) && Conflicting(p) && OwnedInTurn(plans, w, p, id)
    requires shape == MarkFailed || shape == MarkedThenRemoved
    ensures AllThrough(Interleaving.Run(plans, w, First(p, id) + Then(shape, w.clock)))
  {
    var first, rest := First(p, id), Then(shape, w.clock);
    var v := Interleaving.Run(plans, w, first);
    FirstApplies(plans, w, p, id);
    ThenLeavesNoMark(plans, v, p, shape);
    Races.RunConcat(plans, w, first, rest);
    NonePending(plans, w, first + rest);
    var mark := [MarkProcessed(0, shape != MarkFailed)];
    OwnMarkNext(plans, w, first, 0, shape != MarkFailed);
    OwnMarkLasts(plans, w, first + mark, rest[1..], 0);
    assert rest == mark + rest[1..];
    assert first + mark + rest[1..] == first + rest;
    OwnMarkMarks(plans, w, first + rest, 0);
  }

  // The older event's call.
  function Older(p: Pair, other: string): seq<Move> {
    Prelude(1, p.older) + [CheckOrder(1)] + Rest(1, p.foundOlder, other)
  }

  lemma PartsAreOneCall(p: Pair, shape: Shape, at: Instant, id: string, other: string)
    ensures OneCall(First(p, id) + Then(shape, at)) && OneCall(Older(p, other))
    ensures Breaking(p, shape, at, id, other) == First(p, id) + Then(shape, at) + Older(p, other)
  {
  }

  lemma BreakingIsInTurn(plans: Providers.PaystackPlans, w: World, p: Pair, shape: Shape, id: string, other: string)
    requires Fresh(w) && Conflicting(p) && OwnedInTurn(plans, w, p, id)
    requires shape == MarkFailed || shape == MarkedThenRemoved
    ensures InTurn(plans, w, Breaking(p, shape, w.clock, id, other))
  {
    var first := First(p, id) + Then(shape, w.clock);
    PartsAreOneCall(p, shape, w.clock, id, other);
    OneCallIsInTurn(plans, w, first);
    FirstIsThrough(plans, w, p, shape, id);
    OneCallIsInTurn(plans, Interleaving.Run(plans, w, first), Older(p, other));
    InTurnConcat(plans, w, first, Older(p, other));
  }

  lemma BreaksInTurn(plans: Providers.PaystackPlans, w: World, p: Pair, shape: Shape, id: string, other: string)
    requires InTurn(plans, w, Breaking(p, shape, w.clock, id, other))
    requires Meets(plans, w, Schedule(p, shape, w.clock, id), 0, 1, p)
    requires ShapeAt(plans, w, Schedule(p, shape, w.clock, id), 0) == shape
    requires After(Interleaving.Run(plans, w, Breaking(p, shape, w.clock, id, other)), 0, 1)
    ensures !OrderKeptInTurn(plans, w, p, shape)
  {
  }

  // When calls do not overlap the check cannot come before the mark. What is left
  // is that the mark fails or that the clean-up takes the marked row: for every
  // two events about one object, from every fresh world in which each has an owner
  // in its turn, the order of their timestamps is guaranteed exactly without those.
  lemma OrderKeptInTurnExactlyWhen(plans: Providers.PaystackPlans, w: World, p: Pair, shape: Shape, id: string)
    requires Fresh(w) && Conflicting(p) && OwnedInTurn(plans, w, p, id)
    ensures OrderKeptInTurn(plans, w, p, shape) <==> shape != MarkFailed && shape != MarkedThenRemoved
  {
    if shape == MarkedAndKept {
      KeptShapeKeepsOrder(plans, w, p);
    } else if shape == NotYetMarked {
      UnmarkedKeepsOrder(plans, w, p);
    } else {
      var other := OtherShapeRuns(plans, w, p, shape, id);
      BreakingIsInTurn(plans, w, p, shape, id, other);
      BreaksInTurn(plans, w, p, shape, id, other);
    }
  }

  // ----- Both bounds are reached without overlap -----

  lemma {:induction false} PrefixIsOneCall(h: nat, d: Delivery, n: nat)
    ensures |Races.Prefix(h, d, n)| == n && OneCall(Races.Prefix(h, d, n))
  {
    if n > 0 {
      PrefixIsOneCall(h, d, n - 1);
    }
  }

  lemma SlowIsOneCall(h: nat, d: Delivery, until: Instant, id: string)
    ensures OneCall(Races.Slow(h, d, until, id))
  {
    PrefixIsOneCall(h, d, 8);
  }

  // The mark of handler 0, and the clean-up as soon as it may remove the row.
  function MarkAndCleanUp(createdAt: Instant): seq<Move> {
    [MarkProcessed(0, true)] + Races.CleanUp(createdAt)
  }

  // One call that takes `latency` between recording and writing and marks its
  // row; the clean-up; and then another call.
  function SlowThenNext(one: Delivery, two: Delivery, start: Instant, latency: int, id: string, other: string)
    : seq<Move>
  {
    Races.Slow(0, one, start + latency, id) + MarkAndCleanUp(start) + Races.Slow(1, two, start + RETENTION + 1, other)
  }

  // Nothing but finished handler 0 and the history is left.
  ghost predicate OnlyHistoryLeft(v: World, clock: Instant, history: seq<Application>, job: Job) {
    && v.log == map[] && v.clock == clock && v.cancels == map[] && v.history == history
    && v.handlers.Keys == {0} && At(v, 0, Finished) && v.handlers[0].job == job
  }

  lemma MarksOnly(plans: Providers.PaystackPlans, v: World, d: Delivery, createdAt: Instant)
    requires At(v, 0, Written) && v.handlers[0].job == EventJob(d) && v.handlers.Keys == {0}
    requires forall k :: k in v.log ==> v.log[k].row.createdAt == createdAt
    ensures var u := Next(plans, v, MarkProcessed(0, true));
            && u.subs == v.subs && u.clock == v.clock && u.cancels == v.cancels && u.history == v.history
            && u.handlers.Keys == {0} && At(u, 0, Finished) && u.handlers[0].job == EventJob(d)
            && forall k :: k in u.log ==> u.log[k].row.createdAt == createdAt
  {
  }

  lemma MarksAndCleansUp(plans: Providers.PaystackPlans, v: World, d: Delivery, createdAt: Instant)
    requires At(v, 0, Written) && v.handlers[0].job == EventJob(d) && v.handlers.Keys == {0} && v.cancels == map[]
    requires v.clock <= createdAt + RETENTION + 1
    requires forall k :: k in v.log ==> v.log[k].row.createdAt == createdAt
    ensures var u := Interleaving.Run(plans, v, MarkAndCleanUp(createdAt));
            OnlyHistoryLeft(u, createdAt + RETENTION + 1, v.history, EventJob(d)) && u.subs == v.subs
  {
    Races.RunOne(plans, v, [], MarkProcessed(0, true));
    assert [] + [MarkProcessed(0, true)] == [MarkProcessed(0, true)];
    MarksOnly(plans, v, d, createdAt);
    Races.CleansUp(plans, Next(plans, v, MarkProcessed(0, true)), createdAt);
    Races.RunConcat(plans, v, [MarkProcessed(0, true)], Races.CleanUp(createdAt));
  }

  function Slowly(d: Delivery, start: Instant, latency: int): Application {
    Application(d.payload, 0, start, start, start + latency)
  }

  function AtOnce(d: Delivery, at: Instant): Application {
    Application(d.payload, 1, at, at, at)
  }

  ghost predicate AfterFirstCall(u: World, one: Delivery, start: Instant, latency: int, other: string) {
    && OnlyHistoryLeft(u, start + RETENTION + 1, [Slowly(one, start, latency)], EventJob(one))
    && FreshID(u.subs, other)
  }

  // The first call has written, and nothing else has happened.
  ghost predicate WroteFirst(v: World, one: Delivery, start: Instant, latency: int, other: string) {
    && At(v, 0, Written) && v.handlers[0].job == EventJob(one) && v.handlers.Keys == {0} && v.cancels == map[]
    && v.clock == start + latency && (forall k :: k in v.log ==> v.log[k].row.createdAt == start)
    && v.history == [Slowly(one, start, latency)] && FreshID(v.subs, other)
  }

  lemma FirstWrites(plans: Providers.PaystackPlans, w: World, one: Delivery, until: Instant, latency: int, id: string,
                    other: string)
    requires Races.Names(one) && 0 <= latency && until == w.clock + latency
    requires Fresh(w) && FreshID(w.subs, id) && FreshID(w.subs, other) && other != id
    ensures WroteFirst(Interleaving.Run(plans, w, Races.Slow(0, one, until, id)), one, w.clock, latency, other)
  {
    Races.SlowWrites(plans, w, 0, one, until, id, other);
    assert w.history + [Slowly(one, w.clock, latency)] == [Slowly(one, w.clock, latency)];
  }

  lemma SlowIsInTurn(plans: Providers.PaystackPlans, w: World, h: nat, d: Delivery, until: Instant, id: string)
    requires AllThrough(w)
    ensures InTurn(plans, w, Races.Slow(h, d, until, id))
  {
    SlowIsOneCall(h, d, until, id);
    OneCallIsInTurn(plans, w, Races.Slow(h, d, until, id));
  }

  lemma ThenCleansUp(plans: Providers.PaystackPlans, v: World, one: Delivery, start: Instant, latency: int,
                     other: string)
    requires WroteFirst(v, one, start, latency, other) && latency <= RETENTION + 1
    ensures AfterFirstCall(Interleaving.Run(plans, v, MarkAndCleanUp(start)), one, start, latency, other)
    ensures InTurn(plans, v, MarkAndCleanUp(start))
  {
    MarksAndCleansUp(plans, v, one, start);
    OneCallIsInTurn(plans, v, MarkAndCleanUp(start));
  }

  lemma FirstCall(plans: Providers.PaystackPlans, w: World, slow: seq<Move>, one: Delivery, start: Instant,
                  latency: int, other: string)
    requires WroteFirst(Interleaving.Run(plans, w, slow), one, start, latency, other) && InTurn(plans, w, slow)
    requires latency <= RETENTION + 1
    ensures AfterFirstCall(Interleaving.Run(plans, w, slow + MarkAndCleanUp(start)), one, start, latency, other)
    ensures InTurn(plans, w, slow + MarkAndCleanUp(start))
    ensures OwnMark(plans, w, slow + MarkAndCleanUp(start), 0) == Some(true)
  {
    ThenCleansUp(plans, Interleaving.Run(plans, w, slow), one, start, latency, other);
    InTurnThen(plans, w, slow, MarkAndCleanUp(start), (u: World) => AfterFirstCall(u, one, start, latency, other));
    OwnMarkNext(plans, w, slow, 0, true);
    OwnMarkLasts(plans, w, slow + [MarkProcessed(0, true)], Races.CleanUp(start), 0);
    assert slow + MarkAndCleanUp(start) == slow + [MarkProcessed(0, true)] + Races.CleanUp(start);
  }

  // What became of the two calls: their entries, and the jobs that made them.
  predicate BothApplied(u: World, one: Delivery, two: Delivery, start: Instant, latency: int) {
    && u.history == [Slowly(one, start, latency), AtOnce(two, start + RETENTION + 1)]
    && 0 in u.handlers && u.handlers[0].job == EventJob(one)
    && 1 in u.handlers && u.handlers[1].job == EventJob(two)
  }

  lemma SecondCall(plans: Providers.PaystackPlans, v: World, one: Delivery, two: Delivery, start: Instant, latency: int,
                   again: Instant, other: string)
    requires Races.Names(two) && AfterFirstCall(v, one, start, latency, other) && again == start + RETENTION + 1
    ensures BothApplied(Interleaving.Run(plans, v, Races.Slow(1, two, again, other)), one, two, start, latency)
    ensures InTurn(plans, v, Races.Slow(1, two, again, other))
  {
    var third := Races.AnotherID(v.subs, other);
    Races.SlowWrites(plans, v, 1, two, again, other, third);
    Serialised.JobsStay(plans, v, Races.Slow(1, two, again, other), 0);
    SlowIsInTurn(plans, v, 1, two, again, other);
  }

  // The run applies one and then the other without overlap, the first one marked.
  ghost predicate BothInTurn(plans: Providers.PaystackPlans, w: World, moves: seq<Move>, one: Delivery, two: Delivery,
                             start: Instant, latency: int)
  {
    && InTurn(plans, w, moves) && BothApplied(Interleaving.Run(plans, w, moves), one, two, start, latency)
    && OwnMark(plans, w, moves, 0) == Some(true)
  }

  lemma BothCalls(plans: Providers.PaystackPlans, w: World, first: seq<Move>, one: Delivery, two: Delivery,
                  start: Instant, latency: int, again: Instant, other: string)
    requires Races.Names(two) && again == start + RETENTION + 1 && InTurn(plans, w, first)
    requires AfterFirstCall(Interleaving.Run(plans, w, first), one, start, latency, other)
    requires OwnMark(plans, w, first, 0) == Some(true)
    ensures BothInTurn(plans, w, first + Races.Slow(1, two, again, other), one, two, start, latency)
  {
    SecondCall(plans, Interleaving.Run(plans, w, first), one, two, start, latency, again, other);
    InTurnThen(plans, w, first, Races.Slow(1, two, again, other),
               (u: World) => BothApplied(u, one, two, start, latency));
    OwnMarkLasts(plans, w, first, Races.Slow(1, two, again, other), 0);
  }

  lemma FirstRuns(plans: Providers.PaystackPlans, w: World, one: Delivery, latency: int, id: string, other: string)
    returns (first: seq<Move>)
    requires Races.Names(one) && 0 <= latency <= RETENTION + 1
    requires Fresh(w) && FreshID(w.subs, id) && FreshID(w.subs, other) && other != id
    ensures first == Races.Slow(0, one, w.clock + latency, id) + MarkAndCleanUp(w.clock)
    ensures AfterFirstCall(Interleaving.Run(plans, w, first), one, w.clock, latency, other)
    ensures InTurn(plans, w, first) && OwnMark(plans, w, first, 0) == Some(true)
  {
    var slow := Races.Slow(0, one, w.clock + latency, id);
    first := slow + MarkAndCleanUp(w.clock);
    FirstWrites(plans, w, one, w.clock + latency, latency, id, other);
    SlowIsInTurn(plans, w, 0, one, w.clock + latency, id);
    FirstCall(plans, w, slow, one, w.clock, latency, other);
  }

  lemma SlowThenNextRuns(plans: Providers.PaystackPlans, w: World, one: Delivery, two: Delivery, latency: int,
                         id: string, other: string)
    requires Races.Names(one) && Races.Names(two) && 0 <= latency <= RETENTION + 1
    requires Fresh(w) && FreshID(w.subs, id) && FreshID(w.subs, other) && other != id
    ensures BothInTurn(plans, w, SlowThenNext(one, two, w.clock, latency, id, other), one, two, w.clock, latency)
  {
    var first := FirstRuns(plans, w, one, latency, id, other);
    BothCalls(plans, w, first, one, two, w.clock, latency, w.clock + RETENTION + 1, other);
  }

  // Calls that do not overlap come no further apart than calls that do: for every
  // latency, every event and every fresh world, a call that is marked, the
  // clean-up and a retry apply the payload twice as close as LatencyBound allows.
  lemma SpacingIsReachedInTurn(plans: Providers.PaystackPlans, w: World, d: Delivery, latency: int, id: string,
                               other: string)
    requires Races.Names(d) && 0 <= latency <= RETENTION + 1
    requires Fresh(w) && FreshID(w.subs, id) && FreshID(w.subs, other) && other != id
    ensures var moves := SlowThenNext(d, d, w.clock, latency, id, other);
            var history := Interleaving.Run(plans, w, moves).history;
            && InTurn(plans, w, moves) && WithinLatency(history, latency)
            && |history| == 2 && history[0].key == history[1].key == d.payload
            && Distance(history[0].at, history[1].at) == RETENTION - latency + 1
  {
    SlowThenNextRuns(plans, w, d, d, latency, id, other);
  }

  // And an older event follows a newer one of its object, marked without failure,
  // as closely as OrderLatencyBound allows.
  lemma OrderBoundIsReachedInTurn(plans: Providers.PaystackPlans, w: World, newer: Delivery, older: Delivery,
                                  latency: int, id: string, other: string)
    requires Races.Conflict(newer, older) && 0 <= latency <= RETENTION + 1
    requires Fresh(w) && FreshID(w.subs, id) && FreshID(w.subs, other) && other != id
    ensures var moves := SlowThenNext(newer, older, w.clock, latency, id, other);
            var v := Interleaving.Run(plans, w, moves);
            && InTurn(plans, w, moves) && WithinLatency(v.history, latency)
            && |v.history| == 2 && NewerEntry(v, 0, 1)
            && OwnMark(plans, w, moves, v.history[0].handler) == Some(true)
            && v.history[1].at - v.history[0].at == RETENTION - latency + 1
  {
    SlowThenNextRuns(plans, w, newer, older, latency, id, other);
  }
}
