/** Two events about one object: for which relations between the mark of the
    newer one and the check of the older one their order is guaranteed. */
module OrderShapes {
  import opened Core
  import opened Records
  import opened BillingMachine
  import opened Interleaving
  import opened OrderGuard
  import Races
  import Providers

  // What has become of the newer event's mark when the older one is checked.
  datatype Shape = NotYetMarked | MarkFailed | MarkedThenRemoved | MarkedAndKept

  // Handler a's own mark, if it was tried, and whether it succeeded.
  ghost function OwnMark(plans: Providers.PaystackPlans, w: World, moves: seq<Move>, a: nat): Option<bool> {
    if moves == [] then None
    else
      var before, last := moves[..|moves| - 1], moves[|moves| - 1];
      if last.MarkProcessed? && last.h == a && At(Interleaving.Run(plans, w, before), a, Written) then Some(last.ok)
      else OwnMark(plans, w, before, a)
  }

  ghost function ShapeAt(plans: Providers.PaystackPlans, w: World, moves: seq<Move>, a: nat): Shape {
    match OwnMark(plans, w, moves, a)
    case None => NotYetMarked
    case Some(ok) => if !ok then MarkFailed else if Kept(plans, w, moves, a) then MarkedAndKept else MarkedThenRemoved
  }

  lemma JobStays(plans: Providers.PaystackPlans, w: World, m: Move, c: nat)
    requires c in w.handlers
    ensures c in Next(plans, w, m).handlers && Next(plans, w, m).handlers[c].job == w.handlers[c].job
  {
    if !OfHandler(m, c) {
      OthersStay(plans, w, m, c);
    }
  }

  // A handler that marked its row is through, and its key stays marked.
  lemma {:induction false} OwnMarkMarks(plans: Providers.PaystackPlans, w: World, moves: seq<Move>, a: nat)
    requires OwnMark(plans, w, moves, a).Some?
    ensures At(Interleaving.Run(plans, w, moves), a, Finished)
    ensures OwnMark(plans, w, moves, a) == Some(true) && IsEvent(Interleaving.Run(plans, w, moves).handlers[a].job) ==>
              Marked(plans, w, moves, a)
  {
    var before, last := moves[..|moves| - 1], moves[|moves| - 1];
    var v := Interleaving.Run(plans, w, before);
    if last.MarkProcessed? && last.h == a && At(v, a, Written) {
      JobStays(plans, v, last, a);
    } else {
      OwnMarkMarks(plans, w, before, a);
      FinishedStays(plans, v, last, a);
      JobStays(plans, v, last, a);
    }
  }

  // ----- Guaranteed: marked, and kept until the check -----

  lemma MarkedAndKeptBlocks(plans: Providers.PaystackPlans, w: World, moves: seq<Move>, a: nat, b: nat)
    requires Fresh(w) && ShapeAt(plans, w, moves, a) == MarkedAndKept
    requires var v := Interleaving.Run(plans, w, moves);
             a in v.handlers && b in v.handlers && Newer(v.handlers[a], v.handlers[b])
    ensures Blocked(plans, w, moves, b)
  {
    OwnMarkMarks(plans, w, moves, a);
  }

  predicate NoMarkOf(moves: seq<Move>, a: nat) {
    forall i :: 0 <= i < |moves| ==> !(moves[i].MarkProcessed? && moves[i].h == a)
  }

  lemma {:induction false} OwnMarkLasts(plans: Providers.PaystackPlans, w: World, first: seq<Move>, more: seq<Move>,
                                        a: nat)
    requires OwnMark(plans, w, first, a).Some?
    ensures OwnMark(plans, w, first + more, a) == OwnMark(plans, w, first, a)
    decreases |more|
  {
    if more == [] {
      assert first + more == first;
    } else {
      var before := more[..|more| - 1];
      assert (first + more)[..|first + more| - 1] == first + before;
      OwnMarkLasts(plans, w, first, before, a);
      OwnMarkMarks(plans, w, first + before, a);
    }
  }

  // In particular: once the newer event is marked, an older one that is checked
  // within 90 days of the newer one's recording is never applied, whatever else
  // runs in between and afterwards.
  lemma MarkedInTimeIsGuarded(plans: Providers.PaystackPlans, w: World, first: seq<Move>, a: nat,
                              between: seq<Move>, b: nat, more: seq<Move>)
    requires Fresh(w) && At(Interleaving.Run(plans, w, first), a, Written)
    requires var moves := first + [MarkProcessed(a, true)] + between;
             var v := Interleaving.Run(plans, w, moves);
             && AtItsCheck(plans, w, moves, b)
             && a in v.handlers && Newer(v.handlers[a], v.handlers[b])
             && v.clock <= v.handlers[a].createdAt + RETENTION
    ensures !WasApplied(Interleaving.Run(plans, w,
                                         first + [MarkProcessed(a, true)] + between + [CheckOrder(b)] + more), b)
  {
    var marked := first + [MarkProcessed(a, true)];
    var moves := marked + between;
    assert marked[..|first|] == first;
    assert OwnMark(plans, w, marked, a) == Some(true);
    OwnMarkLasts(plans, w, marked, between, a);
    OwnMarkMarks(plans, w, moves, a);
    RecentIsKept(plans, w, moves, a);
    MarkedAndKeptBlocks(plans, w, moves, a, b);
    BlockedIsNeverApplied(plans, w, moves, b, more);
  }

  lemma RecentIsKept(plans: Providers.PaystackPlans, w: World, moves: seq<Move>, a: nat)
    requires Fresh(w) && OwnMark(plans, w, moves, a).Some?
    requires var v := Interleaving.Run(plans, w, moves);
             a in v.handlers && v.clock <= v.handlers[a].createdAt + RETENTION
    ensures Kept(plans, w, moves, a)
  {
    InvAlongTheRun(plans, w, moves);
    StoryAlongTheRun(plans, w, moves, a);
    MarkedWasInserted(plans, w, moves, a);
  }

  lemma InsertedStays(plans: Providers.PaystackPlans, w: World, m: Move, c: nat)
    requires c in w.handlers && w.handlers[c].inserted && !At(w, c, Arrived) && !At(w, c, Stamped)
    ensures Next(plans, w, m).handlers[c].inserted
  {
    if !OfHandler(m, c) {
      OthersStay(plans, w, m, c);
    }
  }

  lemma WrittenWasInserted(w: World, a: nat)
    requires Inv(w) && At(w, a, Written)
    ensures w.handlers[a].inserted
  {
  }

  lemma {:induction false} MarkedWasInserted(plans: Providers.PaystackPlans, w: World, moves: seq<Move>, a: nat)
    requires Fresh(w) && OwnMark(plans, w, moves, a).Some?
    ensures a in Interleaving.Run(plans, w, moves).handlers && Interleaving.Run(plans, w, moves).handlers[a].inserted
  {
    var before, last := moves[..|moves| - 1], moves[|moves| - 1];
    var v := Interleaving.Run(plans, w, before);
    assert a in v.handlers && v.handlers[a].inserted && !At(v, a, Arrived) && !At(v, a, Stamped) by {
      if last.MarkProcessed? && last.h == a && At(v, a, Written) {
        InvAlongTheRun(plans, w, before);
        WrittenWasInserted(v, a);
      } else {
        MarkedWasInserted(plans, w, before, a);
        OwnMarkMarks(plans, w, before, a);
      }
    }
    JobStays(plans, v, last, a);
    InsertedStays(plans, v, last, a);
  }

  // ----- Not guaranteed: every other shape has a run that breaks the order -----

  // The statements of handler h up to its check.
  function Prelude(h: nat, d: Delivery): seq<Move> {
    [Arrive(h, EventJob(d)), Stamp(h), Insert(h, true)]
  }

  function AwaitingCheck(d: Delivery, at: Instant): Handler {
    Handler(EventJob(d), PC.Recorded, at, true, at, "", BLANK, 0)
  }

  lemma RunThree(plans: Providers.PaystackPlans, w: World, m1: Move, m2: Move, m3: Move)
    ensures Interleaving.Run(plans, w, [m1, m2, m3]) == Next(plans, Next(plans, Next(plans, w, m1), m2), m3)
  {
    Races.RunTwo(plans, w, m1, m2);
    Races.RunOne(plans, w, [m1, m2], m3);
    assert [m1, m2] + [m3] == [m1, m2, m3];
  }

  lemma PreludeReaches(plans: Providers.PaystackPlans, w: World, h: nat, d: Delivery)
    requires d.decoded.Parsed? && h !in w.handlers && d.payload !in w.log
    ensures Interleaving.Run(plans, w, Prelude(h, d)) == Put(Races.Inserted(w, h, d), h, AwaitingCheck(d, w.clock))
  {
    RunThree(plans, w, Arrive(h, EventJob(d)), Stamp(h), Insert(h, true));
    var one := Put(w, h, Handler(EventJob(d), Arrived, 0, false, 0, "", BLANK, 0));
    var two := Put(w, h, Handler(EventJob(d), Stamped, w.clock, false, 0, "", BLANK, 0));
    assert Next(plans, w, Arrive(h, EventJob(d))) == one;
    Races.PutTwice(w, h, one.handlers[h], two.handlers[h]);
    assert Next(plans, one, Stamp(h)) == two;
    Races.PutTwice(Races.Inserted(w, h, d), h, two.handlers[h], AwaitingCheck(d, w.clock));
  }

  // Two events about one object, and how their users are found.
  datatype Pair = Pair(newer: Delivery, older: Delivery, foundNewer: Option<string>, foundOlder: Option<string>)

  predicate Conflicting(p: Pair) {
    && p.newer.decoded.Parsed? && p.older.decoded.Parsed?
    && p.newer.provider == p.older.provider && p.newer.payload != p.older.payload
    && ObjectID(p.newer.decoded.event) == ObjectID(p.older.decoded.event) != ""
    && p.newer.decoded.event.eventAt > p.older.decoded.event.eventAt > 0
  }

  // Handler 0 applies the newer event, under a new row id in case there is no row yet.
  function First(p: Pair, id: string): seq<Move> {
    Prelude(0, p.newer) + [CheckOrder(0)] + Rest(0, p.foundNewer, id)
  }

  // Each event names its user, or its lookup finds one in the table of its turn:
  // the older one's comes after the newer one's write.
  ghost predicate OwnedInTurn(plans: Providers.PaystackPlans, w: World, p: Pair, id: string)
    requires Conflicting(p)
  {
    && FreshID(w.subs, id) && Owned(w.subs, p.newer.decoded.event, p.foundNewer)
    && Owned(Interleaving.Run(plans, w, First(p, id)).subs, p.older.decoded.event, p.foundOlder)
  }

  // What the newer event's handler and the clean-up still do before the check.
  function Then(shape: Shape, at: Instant): seq<Move> {
    match shape
    case NotYetMarked => []
    case MarkFailed => [MarkProcessed(0, false)]
    case _ => [MarkProcessed(0, true)] + Races.CleanUp(at)
  }

  // Up to the check of the older event, which handler 1 carries.
  function Schedule(p: Pair, shape: Shape, at: Instant, id: string): seq<Move> {
    First(p, id) + Then(shape, at) + Prelude(1, p.older)
  }

  lemma FirstApplies(plans: Providers.PaystackPlans, w: World, p: Pair, id: string)
    requires Fresh(w) && Conflicting(p) && FreshID(w.subs, id) && Owned(w.subs, p.newer.decoded.event, p.foundNewer)
    ensures var v := Interleaving.Run(plans, w, First(p, id));
            && At(v, 0, Written) && v.handlers.Keys == {0} && v.handlers[0].job == EventJob(p.newer)
            && v.log == map[p.newer.payload := Slot(BillingMachine.Recorded(p.newer, w.clock), 0)]
            && v.clock == w.clock && |v.history| == 1 && v.history[0].handler == 0
            && RowNames(v.subs, Owner(p.newer.decoded.event, p.foundNewer).value, p.newer.decoded.event)
  {
    var prelude := Interleaving.Run(plans, w, Prelude(0, p.newer));
    PreludeReaches(plans, w, 0, p.newer);
    Races.NothingProcessed(Rows(prelude.log), p.newer.provider, p.newer.decoded.event);
    PassedIsOrdered(plans, prelude, 0);
    var other := Races.AnotherID(w.subs, id);
    RestApplies(plans, Advance(prelude, 0, Ordered), 0, p.foundNewer, id, other);
    RunFromCheck(plans, w, Prelude(0, p.newer), 0, Rest(0, p.foundNewer, id));
  }

  // Two events that name their object the same way: once the newer one has been
  // applied, the lookup for the older one finds its user.
  lemma OlderFindsTheOwner(plans: Providers.PaystackPlans, w: World, p: Pair, id: string)
    requires Fresh(w) && Conflicting(p) && FreshID(w.subs, id) && Owned(w.subs, p.newer.decoded.event, p.foundNewer)
    requires p.newer.decoded.event.subscriptionID == p.older.decoded.event.subscriptionID
    requires p.foundOlder == Owner(p.newer.decoded.event, p.foundNewer)
    ensures OwnedInTurn(plans, w, p, id)
  {
    FirstApplies(plans, w, p, id);
    var subs, ev := Interleaving.Run(plans, w, First(p, id)).subs, p.older.decoded.event;
    var u := p.foundOlder.value;
    if ev.subscriptionID == "" {
      assert FindsByCustomer(subs, ev.customerID, Some(u));
    } else {
      assert subs[u].subID == ev.subscriptionID;
      assert FindsBySubID(subs, ev.subscriptionID, Some(u));
    }
  }

  lemma FailedMark(plans: Providers.PaystackPlans, v: World, p: Pair)
    requires At(v, 0, Written) && v.handlers.Keys == {0} && v.handlers[0].job == EventJob(p.newer)
    ensures var u := Interleaving.Run(plans, v, [MarkProcessed(0, false)]);
            && u.history == v.history && u.handlers.Keys == {0} && u.handlers[0].job == EventJob(p.newer)
            && u.subs == v.subs && u.log == v.log
  {
    Races.RunOne(plans, v, [], MarkProcessed(0, false));
    assert [] + [MarkProcessed(0, false)] == [MarkProcessed(0, false)];
  }

  // After that part, the newer event's row is gone or not processed.
  lemma ThenLeavesNoMark(plans: Providers.PaystackPlans, v: World, p: Pair, shape: Shape)
    requires shape != MarkedAndKept && p.newer.decoded.Parsed?
    requires At(v, 0, Written) && v.handlers.Keys == {0} && v.handlers[0].job == EventJob(p.newer)
    requires v.log == map[p.newer.payload := Slot(BillingMachine.Recorded(p.newer, v.clock), 0)]
    ensures var u := Interleaving.Run(plans, v, Then(shape, v.clock));
            && u.history == v.history && u.handlers.Keys == {0} && u.handlers[0].job == EventJob(p.newer)
            && u.subs == v.subs && u.log.Keys <= {p.newer.payload}
                && (forall k :: k in u.log ==> !u.log[k].row.processed)
            && (shape == MarkedThenRemoved ==> u.log == map[])
  {
    if shape == MarkFailed {
      FailedMark(plans, v, p);
    } else if shape == MarkedThenRemoved {
      MarkThenCleanUp(plans, v, p);
    }
  }

  lemma MarkOnly(plans: Providers.PaystackPlans, v: World, p: Pair)
    requires At(v, 0, Written) && v.handlers.Keys == {0} && v.handlers[0].job == EventJob(p.newer)
    requires v.log == map[p.newer.payload := Slot(BillingMachine.Recorded(p.newer, v.clock), 0)]
    ensures var u := Next(plans, v, MarkProcessed(0, true));
            && u.history == v.history && u.handlers.Keys == {0} && u.handlers[0].job == EventJob(p.newer)
            && u.subs == v.subs && u.clock == v.clock
            && forall k :: k in u.log ==> u.log[k].row.createdAt == v.clock
  {
  }

  lemma MarkThenCleanUp(plans: Providers.PaystackPlans, v: World, p: Pair)
    requires At(v, 0, Written) && v.handlers.Keys == {0} && v.handlers[0].job == EventJob(p.newer)
    requires v.log == map[p.newer.payload := Slot(BillingMachine.Recorded(p.newer, v.clock), 0)]
    ensures var u := Interleaving.Run(plans, v, [MarkProcessed(0, true)] + Races.CleanUp(v.clock));
            && u.history == v.history && u.handlers.Keys == {0} && u.handlers[0].job == EventJob(p.newer)
            && u.subs == v.subs && u.log == map[]
  {
    MarkOnly(plans, v, p);
    Races.RunOne(plans, v, [], MarkProcessed(0, true));
    assert [] + [MarkProcessed(0, true)] == [MarkProcessed(0, true)];
    Races.CleansUp(plans, Next(plans, v, MarkProcessed(0, true)), v.clock);
    Races.RunConcat(plans, v, [MarkProcessed(0, true)], Races.CleanUp(v.clock));
  }

  lemma {:induction false} OwnMarkUnchanged(plans: Providers.PaystackPlans, w: World, first: seq<Move>, more: seq<Move>,
                                            a: nat)
    requires NoMarkOf(more, a)
    ensures OwnMark(plans, w, first + more, a) == OwnMark(plans, w, first, a)
    decreases |more|
  {
    if more == [] {
      assert first + more == first;
    } else {
      var before := more[..|more| - 1];
      assert (first + more)[..|first + more| - 1] == first + before;
      OwnMarkUnchanged(plans, w, first, before, a);
    }
  }

  lemma NoneBefore(plans: Providers.PaystackPlans, w: World, moves: seq<Move>, a: nat)
    requires NoMarkOf(moves, a)
    ensures OwnMark(plans, w, moves, a) == None
  {
    OwnMarkUnchanged(plans, w, [], moves, a);
    assert [] + moves == moves;
  }

  lemma OwnMarkNext(plans: Providers.PaystackPlans, w: World, moves: seq<Move>, a: nat, ok: bool)
    requires At(Interleaving.Run(plans, w, moves), a, Written)
    ensures OwnMark(plans, w, moves + [MarkProcessed(a, ok)], a) == Some(ok)
  {
    assert (moves + [MarkProcessed(a, ok)])[..|moves|] == moves;
  }

  // The mark that the schedule tries is the one its shape names.
  lemma OwnMarkOf(plans: Providers.PaystackPlans, w: World, p: Pair, shape: Shape, at: Instant, id: string)
    requires Fresh(w) && Conflicting(p) && OwnedInTurn(plans, w, p, id) && shape != MarkedAndKept
    ensures OwnMark(plans, w, Schedule(p, shape, at, id), 0)
         == match shape { case NotYetMarked => None case MarkFailed => Some(false) case _ => Some(true) }
  {
    FirstApplies(plans, w, p, id);
    NoneBefore(plans, w, First(p, id), 0);
    if shape == NotYetMarked {
      assert First(p, id) + Then(shape, at) == First(p, id);
    } else if shape == MarkFailed {
      OwnMarkNext(plans, w, First(p, id), 0, false);
    } else {
      OwnMarkNext(plans, w, First(p, id), 0, true);
      var marked := First(p, id) + [MarkProcessed(0, true)];
      OwnMarkUnchanged(plans, w, marked, Races.CleanUp(at), 0);
      assert First(p, id) + Then(shape, at) == marked + Races.CleanUp(at);
    }
    OwnMarkUnchanged(plans, w, First(p, id) + Then(shape, at), Prelude(1, p.older), 0);
  }

  // At the check, handler 0 has applied the newer event, and its row is gone or
  // not processed.
  lemma ScheduleReaches(plans: Providers.PaystackPlans, w: World, p: Pair, shape: Shape, id: string)
    requires Fresh(w) && Conflicting(p) && OwnedInTurn(plans, w, p, id) && shape != MarkedAndKept
    ensures var v := Interleaving.Run(plans, w, Schedule(p, shape, w.clock, id));
            && At(v, 1, PC.Recorded) && v.handlers.Keys == {0, 1}
            && v.handlers[0].job == EventJob(p.newer) && v.handlers[1].job == EventJob(p.older)
            && |v.history| == 1 && v.history[0].handler == 0
            && v.subs == Interleaving.Run(plans, w, First(p, id)).subs
            && (forall k :: k in v.log ==> !v.log[k].row.processed)
            && (shape == MarkedThenRemoved ==> p.newer.payload !in v.log)
  {
    var first := Interleaving.Run(plans, w, First(p, id));
    FirstApplies(plans, w, p, id);
    ThenLeavesNoMark(plans, first, p, shape);
    var then' := Interleaving.Run(plans, first, Then(shape, w.clock));
    Races.RunConcat(plans, w, First(p, id), Then(shape, w.clock));
    PreludeReaches(plans, then', 1, p.older);
    Races.RunConcat(plans, w, First(p, id) + Then(shape, w.clock), Prelude(1, p.older));
  }

  lemma ScheduleHasShape(plans: Providers.PaystackPlans, w: World, p: Pair, shape: Shape, id: string)
    requires Fresh(w) && Conflicting(p) && OwnedInTurn(plans, w, p, id) && shape != MarkedAndKept
    ensures ShapeAt(plans, w, Schedule(p, shape, w.clock, id), 0) == shape
    ensures !Blocked(plans, w, Schedule(p, shape, w.clock, id), 1)
  {
    var moves := Schedule(p, shape, w.clock, id);
    var v := Interleaving.Run(plans, w, moves);
    OwnMarkOf(plans, w, p, shape, w.clock, id);
    ScheduleReaches(plans, w, p, shape, id);
    forall a | a in v.handlers && Kept(plans, w, moves, a) && Marked(plans, w, moves, a)
      ensures false
    {
      StoryAlongTheRun(plans, w, moves, a);
    }
    StoryAlongTheRun(plans, w, moves, 0);
  }

  // ----- The exact condition on the schedule -----

  // Handler a has carried the newer event of the pair, and handler b is about
  // to check the older one.
  ghost predicate Meets(plans: Providers.PaystackPlans, w: World, moves: seq<Move>, a: nat, b: nat, p: Pair) {
    var v := Interleaving.Run(plans, w, moves);
    && a in v.handlers && v.handlers[a].job == EventJob(p.newer)
    && At(v, b, PC.Recorded) && v.handlers[b].job == EventJob(p.older)
  }

  predicate After(w: World, a: nat, b: nat) {
    exists i, j :: 0 <= i < j < |w.history| && w.history[i].handler == a && w.history[j].handler == b
  }

  // No run of this shape, however it goes on, applies the older event last.
  ghost predicate OrderKept(plans: Providers.PaystackPlans, w: World, p: Pair, shape: Shape) {
    forall moves, a, b, more ::
      Meets(plans, w, moves, a, b, p) && ShapeAt(plans, w, moves, a) == shape ==>
        !After(Interleaving.Run(plans, w, moves + [CheckOrder(b)] + more), a, b)
  }

  lemma KeptShapeKeepsOrder(plans: Providers.PaystackPlans, w: World, p: Pair)
    requires Fresh(w) && Conflicting(p)
    ensures OrderKept(plans, w, p, MarkedAndKept)
  {
    forall moves, a, b, more | Meets(plans, w, moves, a, b, p) && ShapeAt(plans, w, moves, a) == MarkedAndKept
      ensures !After(Interleaving.Run(plans, w, moves + [CheckOrder(b)] + more), a, b)
    {
      MarkedAndKeptBlocks(plans, w, moves, a, b);
      BlockedIsNeverApplied(plans, w, moves, b, more);
    }
  }

  // The run of such a shape that applies the older event last.
  function Breaking(p: Pair, shape: Shape, at: Instant, id: string, other: string): seq<Move> {
    Schedule(p, shape, at, id) + [CheckOrder(1)] + Rest(1, p.foundOlder, other)
  }

  lemma OtherShapeRuns(plans: Providers.PaystackPlans, w: World, p: Pair, shape: Shape, id: string)
    returns (other: string)
    requires Fresh(w) && Conflicting(p) && OwnedInTurn(plans, w, p, id) && shape != MarkedAndKept
    ensures Meets(plans, w, Schedule(p, shape, w.clock, id), 0, 1, p)
    ensures ShapeAt(plans, w, Schedule(p, shape, w.clock, id), 0) == shape
    ensures After(Interleaving.Run(plans, w, Breaking(p, shape, w.clock, id, other)), 0, 1)
  {
    var moves := Schedule(p, shape, w.clock, id);
    ScheduleReaches(plans, w, p, shape, id);
    ScheduleHasShape(plans, w, p, shape, id);
    other := Races.AnotherID(Interleaving.Run(plans, w, moves).subs, id);
    UnblockedCanBeApplied(plans, w, moves, 1, p.foundOlder, other);
    var v := Interleaving.Run(plans, w, moves + [CheckOrder(1)] + Rest(1, p.foundOlder, other));
    assert v.history[0].handler == 0 && v.history[1].handler == 1 by {
      assert v.history[..1][0] == v.history[0];
    }
  }

  lemma OtherShapesBreakOrder(plans: Providers.PaystackPlans, w: World, p: Pair, shape: Shape, id: string)
    requires Fresh(w) && Conflicting(p) && OwnedInTurn(plans, w, p, id) && shape != MarkedAndKept
    ensures !OrderKept(plans, w, p, shape)
  {
    var other := OtherShapeRuns(plans, w, p, shape, id);
    assert Meets(plans, w, Schedule(p, shape, w.clock, id), 0, 1, p);
  }

  // For every two events about one object, from every fresh world in which each
  // has an owner in its turn: the order of their provider timestamps is
  // guaranteed exactly when the newer one's mark has succeeded, and its row is
  // kept, by the time the older one is checked. A check before the mark, a failed
  // mark and a clean-up each have a run that applies the older event last.
  lemma OrderKeptExactlyWhen(plans: Providers.PaystackPlans, w: World, p: Pair, shape: Shape, id: string)
    requires Fresh(w) && Conflicting(p) && OwnedInTurn(plans, w, p, id)
    ensures OrderKept(plans, w, p, shape) <==> shape == MarkedAndKept
  {
    if shape == MarkedAndKept {
      KeptShapeKeepsOrder(plans, w, p);
    } else {
      OtherShapesBreakOrder(plans, w, p, shape, id);
    }
  }

  // In particular two renewals of one customer or subscription that name no user,
  // as Paystack sends them, when some row has that customer or subscription.
  lemma RenewalsKeepOrderExactlyWhen(plans: Providers.PaystackPlans, w: World, p: Pair, shape: Shape)
    requires Fresh(w) && Conflicting(p) && Owned(w.subs, p.newer.decoded.event, p.foundNewer)
    requires p.newer.decoded.event.subscriptionID == p.older.decoded.event.subscriptionID
    ensures OrderKept(plans, w, p, shape) <==> shape == MarkedAndKept
  {
    var id := Races.AnotherID(w.subs, "");
    var q := p.(foundOlder := Owner(p.newer.decoded.event, p.foundNewer));
    OlderFindsTheOwner(plans, w, q, id);
    OrderKeptExactlyWhen(plans, w, q, shape, id);
    SamePayloads(plans, w, p, q, shape);
  }

  // Which lookups are made is no part of the order.
  lemma SamePayloads(plans: Providers.PaystackPlans, w: World, p: Pair, q: Pair, shape: Shape)
    requires p.newer == q.newer && p.older == q.older
    ensures OrderKept(plans, w, p, shape) <==> OrderKept(plans, w, q, shape)
  {
    assert forall moves, a, b :: Meets(plans, w, moves, a, b, p) <==> Meets(plans, w, moves, a, b, q);
  }
}
