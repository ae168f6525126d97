/** Calls that come one after the other, each of which may take any time: when an
    older event can still follow a newer one. */
module NoOverlap {
  import opened Core
  import opened Records
  import opened BillingMachine
  import opened Interleaving
  import opened OrderGuard
  import opened OrderShapes
  import Providers

  // ----- Runs without overlap -----

  predicate AllThrough(w: World) {
    w.cancels == map[] && forall h :: h in w.handlers ==> Through(w.handlers[h])
  }

  // A call starts.
  ghost predicate Starts(plans: Providers.PaystackPlans, w: World, m: Move) {
    (m.Arrive? || m.BeginCancel?) && Next(plans, w, m) != w
  }

  ghost predicate WaitsItsTurn(plans: Providers.PaystackPlans, w: World, m: Move) {
    Starts(plans, w, m) ==> AllThrough(w)
  }

  // Each call starts only when all earlier ones are through. Time passes, and
  // clean-ups run, between any two statements.
  ghost predicate InTurn(plans: Providers.PaystackPlans, w: World, moves: seq<Move>) {
    moves != [] ==>
      var before, last := moves[..|moves| - 1], moves[|moves| - 1];
      InTurn(plans, w, before) && WaitsItsTurn(plans, Interleaving.Run(plans, w, before), last)
  }

  // At most one call is under way.
  predicate Solo(w: World) {
    && (forall g, h :: g in w.handlers && h in w.handlers && !Through(w.handlers[g]) && !Through(w.handlers[h]) ==>
          g == h)
    && (forall h :: h in w.handlers && !Through(w.handlers[h]) ==> w.cancels == map[])
    && (forall c, d :: c in w.cancels && d in w.cancels ==> c == d)
  }

  lemma ThroughStays(plans: Providers.PaystackPlans, w: World, m: Move, h: nat)
    requires h in w.handlers && Through(w.handlers[h])
    ensures h in Next(plans, w, m).handlers && Through(Next(plans, w, m).handlers[h])
  {
    if !OfHandler(m, h) {
      OthersStay(plans, w, m, h);
    }
  }

  // Who is under way after a move was so before, or has just started.
  lemma UnderWayBefore(plans: Providers.PaystackPlans, w: World, m: Move, h: nat)
    requires h in Next(plans, w, m).handlers && !Through(Next(plans, w, m).handlers[h])
    ensures (h in w.handlers && !Through(w.handlers[h])) || (m.Arrive? && m.h == h && Starts(plans, w, m))
  {
    if h in w.handlers {
      if Through(w.handlers[h]) {
        ThroughStays(plans, w, m, h);
      }
    } else {
      if !OfHandler(m, h) {
        OthersStay(plans, w, m, h);
      }
    }
  }

  lemma PendingBefore(plans: Providers.PaystackPlans, w: World, m: Move, c: nat)
    requires c in Next(plans, w, m).cancels
    ensures c in w.cancels || (m.BeginCancel? && m.c == c && Starts(plans, w, m))
  {
  }

  lemma SoloNext(plans: Providers.PaystackPlans, w: World, m: Move)
    requires Solo(w) && WaitsItsTurn(plans, w, m)
    ensures Solo(Next(plans, w, m))
  {
    var v := Next(plans, w, m);
    forall g, h | g in v.handlers && h in v.handlers && !Through(v.handlers[g]) && !Through(v.handlers[h])
      ensures g == h
    {
      UnderWayBefore(plans, w, m, g);
      UnderWayBefore(plans, w, m, h);
    }
    forall h, c | h in v.handlers && !Through(v.handlers[h]) && c in v.cancels
      ensures false
    {
      UnderWayBefore(plans, w, m, h);
      PendingBefore(plans, w, m, c);
    }
    forall c, d | c in v.cancels && d in v.cancels
      ensures c == d
    {
      PendingBefore(plans, w, m, c);
      PendingBefore(plans, w, m, d);
    }
    assert forall h :: h in v.handlers && !Through(v.handlers[h]) ==> v.cancels == map[] by {
      forall h | h in v.handlers && !Through(v.handlers[h]) ensures v.cancels == map[] {
        assert forall c :: c !in v.cancels;
      }
    }
  }

  lemma {:induction false} SoloAlongTheRun(plans: Providers.PaystackPlans, w: World, moves: seq<Move>)
    requires Fresh(w) && InTurn(plans, w, moves)
    ensures Solo(Interleaving.Run(plans, w, moves))
  {
    if moves != [] {
      var before := moves[..|moves| - 1];
      SoloAlongTheRun(plans, w, before);
      SoloNext(plans, Interleaving.Run(plans, w, before), moves[|moves| - 1]);
    }
  }

  // ----- Provider order -----

  // When handler b's ordering check was made, if it was.
  ghost function CheckedAt(plans: Providers.PaystackPlans, w: World, moves: seq<Move>, b: nat): Option<Instant> {
    if moves == [] then None
    else
      var before, last := moves[..|moves| - 1], moves[|moves| - 1];
      var v := Interleaving.Run(plans, w, before);
      if last == CheckOrder(b) && At(v, b, PC.Recorded) then Some(v.clock) else CheckedAt(plans, w, before, b)
  }

  // The newer event's mark failed, or the older one was checked more than 90
  // days after the newer one was recorded.
  ghost predicate Unguarded(plans: Providers.PaystackPlans, w: World, moves: seq<Move>, a: nat, b: nat) {
    var v := Interleaving.Run(plans, w, moves);
    && a in v.handlers
    && (|| OwnMark(plans, w, moves, a) == Some(false)
        || (&& CheckedAt(plans, w, moves, b).Some?
            && CheckedAt(plans, w, moves, b).value > v.handlers[a].createdAt + RETENTION))
  }

  // Handler b has passed its check and not yet written.
  predicate Passed(w: World, b: nat) {
    b in w.handlers && w.handlers[b].pc in {Ordered, Resolved, PeriodRead, TrialRead, Ready}
  }

  predicate NewerOf(w: World, a: nat, b: nat) {
    a in w.handlers && b in w.handlers && Newer(w.handlers[a], w.handlers[b])
  }

  lemma AppliedIsWritten(w: World, a: nat)
    requires Inv(w) && WasApplied(w, a)
    ensures a in w.handlers && w.handlers[a].inserted && (At(w, a, Written) || At(w, a, Finished))
  {
    var i :| 0 <= i < |w.history| && w.history[i].handler == a;
    assert Accounts(w, w.history[i]);
  }

  lemma AppliedBefore(plans: Providers.PaystackPlans, w: World, m: Move, a: nat)
    requires WasApplied(Next(plans, w, m), a) && !(m.Write? && m.h == a && At(w, a, Ready))
    ensures WasApplied(w, a)
  {
    HistoryNext(plans, w, m);
    var v := Next(plans, w, m);
    var i :| 0 <= i < |v.history| && v.history[i].handler == a;
    assert i < |w.history|;
  }

  // Jobs and recording times do not change once a handler has read the clock.
  lemma StaysRecorded(plans: Providers.PaystackPlans, w: World, m: Move, a: nat)
    requires a in w.handlers && w.handlers[a].pc != Arrived
    ensures a in Next(plans, w, m).handlers
    ensures Next(plans, w, m).handlers[a].createdAt == w.handlers[a].createdAt
    ensures Next(plans, w, m).handlers[a].job == w.handlers[a].job
  {
    if !OfHandler(m, a) {
      OthersStay(plans, w, m, a);
    } else if OpensHandler(m) {
      StartStaysRecorded(plans, w, m, a);
    }
  }

  lemma StartStaysRecorded(plans: Providers.PaystackPlans, w: World, m: Move, a: nat)
    requires OfHandler(m, a) && OpensHandler(m) && a in w.handlers && w.handlers[a].pc != Arrived
    ensures a in Next(plans, w, m).handlers
    ensures Next(plans, w, m).handlers[a].createdAt == w.handlers[a].createdAt
    ensures Next(plans, w, m).handlers[a].job == w.handlers[a].job
  {
  }

  // The mark of every event that was applied and is finished has been tried.
  lemma {:induction false} MarkWasTried(plans: Providers.PaystackPlans, w: World, moves: seq<Move>, a: nat)
    requires Fresh(w)
    requires var v := Interleaving.Run(plans, w, moves); WasApplied(v, a) && At(v, a, Finished)
    ensures OwnMark(plans, w, moves, a).Some?
  {
    var before, last := moves[..|moves| - 1], moves[|moves| - 1];
    var v := Interleaving.Run(plans, w, before);
    InvAlongTheRun(plans, w, before);
    if !(last.MarkProcessed? && last.h == a && At(v, a, Written)) {
      FinishedBefore(plans, v, last, a);
      MarkWasTried(plans, w, before, a);
    }
  }

  // A handler that was applied finishes by its mark.
  lemma FinishedBefore(plans: Providers.PaystackPlans, w: World, m: Move, a: nat)
    requires Inv(w) && WasApplied(Next(plans, w, m), a) && At(Next(plans, w, m), a, Finished)
    requires !(m.MarkProcessed? && m.h == a && At(w, a, Written))
    ensures WasApplied(w, a) && At(w, a, Finished)
  {
    if m.Write? && m.h == a && At(w, a, Ready) {
      ReadyIsNotApplied(w, a);
      FailedWriteAppliesNothing(plans, w, m, a);
      assert false;
    } else {
      AppliedBefore(plans, w, m, a);
      AppliedIsWritten(w, a);
      if At(w, a, Written) {
        WrittenStays(plans, w, m, a);
      }
    }
  }

  lemma WrittenStays(plans: Providers.PaystackPlans, w: World, m: Move, a: nat)
    requires At(w, a, Written) && !(m.MarkProcessed? && m.h == a)
    ensures At(Next(plans, w, m), a, Written)
  {
    if !OfHandler(m, a) {
      OthersStay(plans, w, m, a);
    }
  }

  lemma FailedWriteAppliesNothing(plans: Providers.PaystackPlans, w: World, m: Move, a: nat)
    requires m.Write? && m.h == a && At(w, a, Ready) && At(Next(plans, w, m), a, Finished)
    ensures Next(plans, w, m).history == w.history
  {
  }

  lemma ReadyIsNotApplied(w: World, a: nat)
    requires Inv(w) && At(w, a, Ready)
    ensures !WasApplied(w, a)
  {
    if WasApplied(w, a) {
      AppliedIsWritten(w, a);
    }
  }

  lemma NewerIsFinished(w: World, a: nat, b: nat)
    requires Inv(w) && Solo(w) && NewerOf(w, a, b) && WasApplied(w, a) && !Through(w.handlers[b])
    ensures At(w, a, Finished) && w.handlers[a].inserted
  {
    AppliedIsWritten(w, a);
  }

  lemma PassedIsNotStale(plans: Providers.PaystackPlans, w: World, b: nat)
    requires At(w, b, PC.Recorded) && IsEvent(w.handlers[b].job) && Passed(Next(plans, w, CheckOrder(b)), b)
    ensures !IsStale(Rows(w.log), w.handlers[b].job.delivery.provider, EventOf(w.handlers[b]))
  {
  }

  lemma MarkedInTimeBlocks(plans: Providers.PaystackPlans, w: World, moves: seq<Move>, a: nat, b: nat)
    requires Fresh(w) && OwnMark(plans, w, moves, a) == Some(true)
    requires var v := Interleaving.Run(plans, w, moves);
             NewerOf(v, a, b) && v.clock <= v.handlers[a].createdAt + RETENTION
    ensures Blocked(plans, w, moves, b)
  {
    RecentIsKept(plans, w, moves, a);
    MarkedAndKeptBlocks(plans, w, moves, a, b);
  }

  lemma MarkedBefore(plans: Providers.PaystackPlans, w: World, moves: seq<Move>, a: nat, b: nat)
    requires Fresh(w) && InTurn(plans, w, moves)
    requires var v := Interleaving.Run(plans, w, moves);
             NewerOf(v, a, b) && WasApplied(v, a) && !Through(v.handlers[b])
    ensures OwnMark(plans, w, moves, a).Some?
  {
    InvAlongTheRun(plans, w, moves);
    SoloAlongTheRun(plans, w, moves);
    NewerIsFinished(Interleaving.Run(plans, w, moves), a, b);
    MarkWasTried(plans, w, moves, a);
  }

  lemma PassedIsNotBlocked(plans: Providers.PaystackPlans, w: World, moves: seq<Move>, b: nat)
    requires Fresh(w) && AtItsCheck(plans, w, moves, b)
    requires Passed(Next(plans, Interleaving.Run(plans, w, moves), CheckOrder(b)), b)
    ensures !Blocked(plans, w, moves, b)
  {
    PassedIsNotStale(plans, Interleaving.Run(plans, w, moves), b);
    StaleExactlyWhenBlocked(plans, w, moves, b);
  }

  // An event that passes its check after a newer one of its object was applied.
  lemma PassesUnguarded(plans: Providers.PaystackPlans, w: World, moves: seq<Move>, a: nat, b: nat)
    requires Fresh(w) && InTurn(plans, w, moves) && At(Interleaving.Run(plans, w, moves), b, PC.Recorded)
    requires var v := Interleaving.Run(plans, w, moves);
             && NewerOf(v, a, b) && WasApplied(v, a) && Passed(Next(plans, v, CheckOrder(b)), b)
    ensures OwnMark(plans, w, moves, a) == Some(false)
         || Interleaving.Run(plans, w, moves).clock
            > Interleaving.Run(plans, w, moves).handlers[a].createdAt + RETENTION
  {
    var v := Interleaving.Run(plans, w, moves);
    MarkedBefore(plans, w, moves, a, b);
    PassedIsNotBlocked(plans, w, moves, b);
    var own := OwnMark(plans, w, moves, a);
    assert own.Some?;
    if own.value {
      if v.clock <= v.handlers[a].createdAt + RETENTION {
        MarkedInTimeBlocks(plans, w, moves, a, b);
        assert false;
      }
    } else {
      assert own == Some(false);
    }
  }

  // What was unguarded stays so, once the newer event is finished and the older
  // one has been checked.
  lemma StaysUnguarded(plans: Providers.PaystackPlans, w: World, moves: seq<Move>, a: nat, b: nat)
    requires moves != []
    requires var before := moves[..|moves| - 1];
             && At(Interleaving.Run(plans, w, before), a, Finished)
             && !At(Interleaving.Run(plans, w, before), b, PC.Recorded)
             && Unguarded(plans, w, before, a, b)
    ensures Unguarded(plans, w, moves, a, b)
  {
    var before, last := moves[..|moves| - 1], moves[|moves| - 1];
    StaysRecorded(plans, Interleaving.Run(plans, w, before), last, a);
  }

  // Without overlap, once an event has passed its check, every newer event of
  // its object that was applied before leaves it unguarded.
  lemma {:induction false} PassedIsUnguarded(plans: Providers.PaystackPlans, w: World, moves: seq<Move>, a: nat, b: nat)
    requires Fresh(w) && InTurn(plans, w, moves)
    requires var v := Interleaving.Run(plans, w, moves); Passed(v, b) && NewerOf(v, a, b) && WasApplied(v, a)
    ensures Unguarded(plans, w, moves, a, b)
  {
    var before, last := moves[..|moves| - 1], moves[|moves| - 1];
    var v := Interleaving.Run(plans, w, before);
    InvAlongTheRun(plans, w, before);
    SoloAlongTheRun(plans, w, before);
    PassedBefore(plans, v, last, a, b);
    NewerIsFinished(v, a, b);
    if last == CheckOrder(b) && At(v, b, PC.Recorded) {
      PassesUnguarded(plans, w, before, a, b);
      StaysRecorded(plans, v, last, a);
    } else {
      PassedIsUnguarded(plans, w, before, a, b);
      StaysUnguarded(plans, w, moves, a, b);
    }
  }

  // Before a move after which b has passed its check, b was under way, and what
  // was applied then had been applied.
  lemma PassedBefore(plans: Providers.PaystackPlans, w: World, m: Move, a: nat, b: nat)
    requires Inv(w) && Solo(w)
    requires var v := Next(plans, w, m); Passed(v, b) && NewerOf(v, a, b) && WasApplied(v, a)
    ensures NewerOf(w, a, b) && WasApplied(w, a) && !Through(w.handlers[b])
    ensures Passed(w, b) || (m == CheckOrder(b) && At(w, b, PC.Recorded))
  {
    PassedWas(plans, w, m, b);
    if m.Write? && m.h == a && At(w, a, Ready) {
      assert false;
    }
    AppliedBefore(plans, w, m, a);
    AppliedIsWritten(w, a);
    StaysRecorded(plans, w, m, a);
    StaysRecorded(plans, w, m, b);
  }

  lemma PassedWas(plans: Providers.PaystackPlans, w: World, m: Move, b: nat)
    requires Passed(Next(plans, w, m), b) && Next(plans, w, m).handlers[b].job.EventJob?
    ensures b in w.handlers && !Through(w.handlers[b]) && w.handlers[b].pc != Arrived
    ensures Passed(w, b) || (m == CheckOrder(b) && At(w, b, PC.Recorded))
  {
    if !OfHandler(m, b) {
      OthersStay(plans, w, m, b);
    } else if OpensHandler(m) {
      PassedAtStart(plans, w, m, b);
    }
  }

  lemma PassedAtStart(plans: Providers.PaystackPlans, w: World, m: Move, b: nat)
    requires OfHandler(m, b) && OpensHandler(m)
    requires Passed(Next(plans, w, m), b) && Next(plans, w, m).handlers[b].job.EventJob?
    ensures b in w.handlers && !Through(w.handlers[b]) && w.handlers[b].pc != Arrived
    ensures Passed(w, b) || (m == CheckOrder(b) && At(w, b, PC.Recorded))
  {
  }

  // Entry i of the history is of a newer event about the object of entry j's.
  predicate NewerEntry(w: World, i: nat, j: nat)
    requires i < |w.history| && j < |w.history|
  {
    NewerOf(w, w.history[i].handler, w.history[j].handler)
  }

  // What a move adds to the history, and who has been applied by then.
  lemma EntryStays(plans: Providers.PaystackPlans, w: World, m: Move, i: nat)
    requires Inv(w) && i < |w.history|
    ensures i < |Next(plans, w, m).history| && Next(plans, w, m).history[i] == w.history[i]
    ensures var a := w.history[i].handler;
            && WasApplied(w, a) && a in w.handlers && (At(w, a, Written) || At(w, a, Finished))
            && a in Next(plans, w, m).handlers && Next(plans, w, m).handlers[a].job == w.handlers[a].job
  {
    HistoryNext(plans, w, m);
    assert WasApplied(w, w.history[i].handler);
    AppliedIsWritten(w, w.history[i].handler);
    StaysRecorded(plans, w, m, w.history[i].handler);
  }

  // The entry that a move adds is of a handler that was about to write.
  lemma LastEntry(plans: Providers.PaystackPlans, w: World, m: Move, j: nat)
    requires Inv(w) && |w.history| <= j < |Next(plans, w, m).history|
    ensures var b := Next(plans, w, m).history[j].handler;
            j == |w.history| && m.Write? && m.h == b && At(w, b, Ready)
  {
    HistoryNext(plans, w, m);
  }

  // The newer event's handler is finished, and nothing guards the older one.
  ghost predicate Overtaken(plans: Providers.PaystackPlans, w: World, moves: seq<Move>, a: nat, b: nat) {
    At(Interleaving.Run(plans, w, moves), a, Finished) && Unguarded(plans, w, moves, a, b)
  }

  lemma StaysOvertaken(plans: Providers.PaystackPlans, w: World, before: seq<Move>, m: Move, a: nat, b: nat)
    requires Overtaken(plans, w, before, a, b) && !At(Interleaving.Run(plans, w, before), b, PC.Recorded)
    ensures Overtaken(plans, w, before + [m], a, b)
  {
    assert (before + [m])[..|before|] == before;
    StaysUnguarded(plans, w, before + [m], a, b);
    FinishedStays(plans, Interleaving.Run(plans, w, before), m, a);
  }

  // The write that makes it happen.
  lemma Overtakes(plans: Providers.PaystackPlans, w: World, before: seq<Move>, m: Move, a: nat, b: nat)
    requires Fresh(w) && InTurn(plans, w, before)
    requires var v := Interleaving.Run(plans, w, before); At(v, b, Ready) && WasApplied(v, a) && NewerOf(v, a, b)
    ensures Overtaken(plans, w, before + [m], a, b)
  {
    var v := Interleaving.Run(plans, w, before);
    InvAlongTheRun(plans, w, before);
    SoloAlongTheRun(plans, w, before);
    NewerIsFinished(v, a, b);
    PassedIsUnguarded(plans, w, before, a, b);
    StaysOvertaken(plans, w, before, m, a, b);
  }

  lemma {:induction false} NewerWasOvertaken(plans: Providers.PaystackPlans, w: World, moves: seq<Move>, i: nat, j: nat)
    requires Fresh(w) && InTurn(plans, w, moves) && i < j < |Interleaving.Run(plans, w, moves).history|
    requires NewerEntry(Interleaving.Run(plans, w, moves), i, j)
    ensures var v := Interleaving.Run(plans, w, moves);
            Overtaken(plans, w, moves, v.history[i].handler, v.history[j].handler)
  {
    var before, last := moves[..|moves| - 1], moves[|moves| - 1];
    var v, after := Interleaving.Run(plans, w, before), Interleaving.Run(plans, w, moves);
    var a, b := after.history[i].handler, after.history[j].handler;
    assert moves == before + [last];
    InvAlongTheRun(plans, w, before);
    HistoryNext(plans, v, last);
    EntryStays(plans, v, last, i);
    if j < |v.history| {
      EntryStays(plans, v, last, j);
      NewerWasOvertaken(plans, w, before, i, j);
      StaysOvertaken(plans, w, before, last, a, b);
    } else {
      LastEntry(plans, v, last, j);
      StaysRecorded(plans, v, last, b);
      Overtakes(plans, w, before, last, a, b);
    }
  }

  // Without overlap, whatever time the calls take: an older event is applied after
  // a newer one of its object only if the newer one's mark failed, or if it was
  // checked more than 90 days after the newer one was recorded.
  lemma OlderFollowsOnlyUnguarded(plans: Providers.PaystackPlans, w: World, moves: seq<Move>, i: nat, j: nat)
    requires Fresh(w) && InTurn(plans, w, moves) && i < j < |Interleaving.Run(plans, w, moves).history|
    requires NewerEntry(Interleaving.Run(plans, w, moves), i, j)
    ensures var history := Interleaving.Run(plans, w, moves).history;
            || OwnMark(plans, w, moves, history[i].handler) == Some(false)
            || (&& CheckedAt(plans, w, moves, history[j].handler).Some?
                && CheckedAt(plans, w, moves, history[j].handler).value > history[i].createdAt + RETENTION)
  {
    NewerWasOvertaken(plans, w, moves, i, j);
    InvAlongTheRun(plans, w, moves);
    assert Accounts(Interleaving.Run(plans, w, moves), Interleaving.Run(plans, w, moves).history[i]);
  }

  lemma {:induction false} CheckedInThePast(plans: Providers.PaystackPlans, w: World, moves: seq<Move>, b: nat)
    ensures CheckedAt(plans, w, moves, b).Some? ==>
              CheckedAt(plans, w, moves, b).value <= Interleaving.Run(plans, w, moves).clock
  {
    if moves != [] {
      CheckedInThePast(plans, w, moves[..|moves| - 1], b);
      ClockNext(plans, Interleaving.Run(plans, w, moves[..|moves| - 1]), moves[|moves| - 1]);
    }
  }

  lemma ClockNext(plans: Providers.PaystackPlans, w: World, m: Move)
    ensures w.clock <= Next(plans, w, m).clock
  {
  }

  // An event is checked before it is written.
  lemma {:induction false} CheckedBeforeWritten(plans: Providers.PaystackPlans, w: World, moves: seq<Move>, j: nat)
    requires Fresh(w) && j < |Interleaving.Run(plans, w, moves).history|
    ensures var a := Interleaving.Run(plans, w, moves).history[j];
            CheckedAt(plans, w, moves, a.handler).Some? ==> CheckedAt(plans, w, moves, a.handler).value <= a.at
  {
    var before, last := moves[..|moves| - 1], moves[|moves| - 1];
    var v := Interleaving.Run(plans, w, before);
    var a := Interleaving.Run(plans, w, moves).history[j];
    InvAlongTheRun(plans, w, before);
    if j < |v.history| {
      EntryStays(plans, v, last, j);
      CheckedBeforeWritten(plans, w, before, j);
    } else {
      LastEntry(plans, v, last, j);
      HistoryNext(plans, v, last);
      CheckedInThePast(plans, w, before, a.handler);
    }
  }

  // So if every call writes within `latency` of the clock reading it recorded, the
  // older event is applied more than 90 days less the latency after the newer one.
  lemma OrderLatencyBound(plans: Providers.PaystackPlans, w: World, moves: seq<Move>, latency: int, i: nat, j: nat)
    requires Fresh(w) && InTurn(plans, w, moves) && i < j < |Interleaving.Run(plans, w, moves).history|
    requires WithinLatency(Interleaving.Run(plans, w, moves).history, latency)
    requires NewerEntry(Interleaving.Run(plans, w, moves), i, j)
    ensures var history := Interleaving.Run(plans, w, moves).history;
            OwnMark(plans, w, moves, history[i].handler) == Some(false)
            || history[j].at - history[i].at > RETENTION - latency
  {
    OlderFollowsOnlyUnguarded(plans, w, moves, i, j);
    CheckedBeforeWritten(plans, w, moves, j);
  }
}
