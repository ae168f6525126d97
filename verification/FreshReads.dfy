/** What calls that do not overlap keep of the table, whatever time each takes:
    every read is still true when the row is written back, so that nothing known is
    lost and paid time is conserved. */
module FreshReads {
  import opened Core
  import opened Records
  import opened Entitlements
  import opened BillingMachine
  import opened Columns
  import opened Interleaving
  import opened NoOverlap
  import opened OrderGuard
  import opened Overlap
  import opened PaidTime
  import opened RowInvariants
  import opened StaleReads
  import Providers
  import Retention

  // ----- Every read is fresh at its write -----

  // The handler has read the column and has not written yet. A redemption reads
  // the period and no more.
  predicate HoldsRead(w: World, h: nat, c: Column) {
    && h in w.handlers && w.handlers[h].pc in {PeriodRead, TrialRead, Ready} && Past(w.handlers[h].pc, c)
    && (w.handlers[h].job.EventJob? || c == PeriodEnd)
  }

  lemma HeldBefore(plans: Providers.PaystackPlans, w: World, m: Move, h: nat, c: Column)
    requires HoldsRead(Next(plans, w, m), h, c)
    ensures Reads(w, m, h, c) || HoldsRead(w, h, c)
  {
    if !OfHandler(m, h) {
      OthersStay(plans, w, m, h);
    }
  }

  // While a call holds a read, nobody writes but itself.
  lemma NobodyElseWrites(plans: Providers.PaystackPlans, w: World, m: Move, h: nat, c: Column)
    requires Solo(w) && HoldsRead(w, h, c) && HoldsRead(Next(plans, w, m), h, c)
    ensures RowWritten(plans, w, m) == None
  {
    if m.Write? && m.h == h && RowWritten(plans, w, m).Some? {
      WriteEndsIt(plans, w, m, h);
    }
  }

  lemma WriteEndsIt(plans: Providers.PaystackPlans, w: World, m: Move, h: nat)
    requires m.Write? && m.h == h && RowWritten(plans, w, m).Some?
    ensures At(Next(plans, w, m), h, Written)
  {
  }

  // Without overlap every column that a call has read is, until it writes, as it
  // was read.
  lemma {:induction false} EveryReadIsFresh(plans: Providers.PaystackPlans, w: World, moves: seq<Move>, h: nat,
                                            c: Column)
    requires Fresh(w) && InTurn(plans, w, moves) && HoldsRead(Interleaving.Run(plans, w, moves), h, c)
    ensures ReadIsFresh(plans, w, moves, h, c)
  {
    var before, last := moves[..|moves| - 1], moves[|moves| - 1];
    var v := Interleaving.Run(plans, w, before);
    HeldBefore(plans, v, last, h, c);
    if !Reads(v, last, h, c) {
      EveryReadIsFresh(plans, w, before, h, c);
      SoloAlongTheRun(plans, w, before);
      NobodyElseWrites(plans, v, last, h, c);
    }
  }

  // The row that a cancellation has read is the row that is stored.
  ghost predicate PendingRowsStand(w: World) {
    forall c :: c in w.cancels ==> w.cancels[c].userID in w.subs && w.subs[w.cancels[c].userID] == w.cancels[c]
  }

  // While a cancellation stays pending, nobody writes.
  lemma NobodyWritesMeanwhile(plans: Providers.PaystackPlans, w: World, m: Move, c: nat)
    requires Solo(w) && c in w.cancels && c in Next(plans, w, m).cancels
    ensures Next(plans, w, m).subs == w.subs
  {
    SubsNext(plans, w, m);
  }

  lemma PendingRowsStandNext(plans: Providers.PaystackPlans, w: World, m: Move)
    requires TablesOk(w) && Solo(w) && PendingRowsStand(w)
    ensures PendingRowsStand(Next(plans, w, m))
  {
    var v := Next(plans, w, m);
    forall c | c in v.cancels
      ensures v.cancels[c].userID in v.subs && v.subs[v.cancels[c].userID] == v.cancels[c]
    {
      CancelsNext(plans, w, m, c);
      if c in w.cancels && v.cancels[c] == w.cancels[c] {
        NobodyWritesMeanwhile(plans, w, m, c);
      } else {
        ReadsPaidRow(w.subs, m.user, w.clock);
        SubsNext(plans, w, m);
      }
    }
  }

  lemma {:induction false} EveryPendingRowStands(plans: Providers.PaystackPlans, w: World, moves: seq<Move>)
    requires Fresh(w) && TableOk(w.subs) && InTurn(plans, w, moves)
    ensures PendingRowsStand(Interleaving.Run(plans, w, moves))
  {
    if moves != [] {
      var before := moves[..|moves| - 1];
      EveryPendingRowStands(plans, w, before);
      SoloAlongTheRun(plans, w, before);
      TablesStayOk(plans, w, before);
      PendingRowsStandNext(plans, Interleaving.Run(plans, w, before), moves[|moves| - 1]);
    }
  }

  // ----- Nothing known is lost -----

  // What a handler about to write has read is what is stored.
  lemma ReadyReadsStand(plans: Providers.PaystackPlans, w: World, moves: seq<Move>, h: nat, c: Column)
    requires Fresh(w) && InTurn(plans, w, moves) && At(Interleaving.Run(plans, w, moves), h, Ready)
    requires Interleaving.Run(plans, w, moves).handlers[h].job.EventJob? || c == PeriodEnd
    ensures ReadStands(Interleaving.Run(plans, w, moves), h, c)
  {
    EveryReadIsFresh(plans, w, moves, h, c);
    FreshReadStands(plans, w, moves, h, c);
  }

  // A call that writes nothing back of a column has found nothing there.
  lemma NothingWasThere(plans: Providers.PaystackPlans, w: World, moves: seq<Move>, m: Move, u: string, c: Column,
                        nothing: Cell)
    requires Fresh(w) && TableOk(w.subs) && InTurn(plans, w, moves)
    requires WritesNothingBack(plans, Interleaving.Run(plans, w, moves), m, u, c, nothing)
    ensures StoredCell(Interleaving.Run(plans, w, moves).subs, u, c) == nothing
  {
    if m.Write? {
      ReadyReadsStand(plans, w, moves, m.h, c);
    } else {
      EveryPendingRowStands(plans, w, moves);
    }
  }

  lemma WrittenRowMayReplace(plans: Providers.PaystackPlans, w: World, moves: seq<Move>, m: Move)
    requires Fresh(w) && TableOk(w.subs) && InTurn(plans, w, moves)
    requires RowWritten(plans, Interleaving.Run(plans, w, moves), m).Some?
    ensures var v := Interleaving.Run(plans, w, moves);
            var row := RowWritten(plans, v, m).value;
            row.userID in v.subs ==> MayReplace(v.subs[row.userID], row)
  {
    var v := Interleaving.Run(plans, w, moves);
    var u := RowWritten(plans, v, m).value.userID;
    if m.Write? {
      EveryHandlerServesItsOwner(plans, w, moves, m.h);
    }
    WrittenColumns(plans, v, m, u);
    if WritesNothingBack(plans, v, m, u, PeriodEnd, Time(None)) {
      NothingWasThere(plans, w, moves, m, u, PeriodEnd, Time(None));
    }
    if WritesNothingBack(plans, v, m, u, SubscriptionID, Text("")) {
      NothingWasThere(plans, w, moves, m, u, SubscriptionID, Text(""));
    }
  }

  lemma MoveRetains(plans: Providers.PaystackPlans, w: World, moves: seq<Move>, m: Move)
    requires Fresh(w) && TableOk(w.subs) && InTurn(plans, w, moves)
    ensures var v := Interleaving.Run(plans, w, moves); TableRetains(v.subs, Next(plans, v, m).subs)
  {
    var v := Interleaving.Run(plans, w, moves);
    SubsNext(plans, v, m);
    if RowWritten(plans, v, m).Some? {
      TablesStayOk(plans, w, moves);
      WrittenRowMayReplace(plans, w, moves, m);
      UpsertRetains(v.subs, RowWritten(plans, v, m).value, IDFor(m));
    }
  }

  lemma RetainsTwice(a: Subscriptions, b: Subscriptions, c: Subscriptions)
    requires TableRetains(a, b) && TableRetains(b, c)
    ensures TableRetains(a, c)
  {
  }

  // Over every run without overlap, whatever time the calls take: no row
  // disappears, a known period end never becomes unknown, and a subscription id
  // never becomes empty.
  lemma {:induction false} KnownFieldsStayInTurn(plans: Providers.PaystackPlans, w: World, moves: seq<Move>)
    requires Fresh(w) && TableOk(w.subs) && InTurn(plans, w, moves)
    ensures TableRetains(w.subs, Interleaving.Run(plans, w, moves).subs)
  {
    if moves != [] {
      var before, last := moves[..|moves| - 1], moves[|moves| - 1];
      KnownFieldsStayInTurn(plans, w, before);
      MoveRetains(plans, w, before, last);
      RetainsTwice(w.subs, Interleaving.Run(plans, w, before).subs, Interleaving.Run(plans, w, moves).subs);
    }
  }

  // ----- Paid time is conserved -----

  // The write of an event, before its mark.
  function EventWritten(t: Handler, at: Instant): Applied
    requires IsEvent(t.job)
  {
    var ev := EventOf(t);
    EventApplied(t.job.delivery.payload, t.job.delivery.provider, ObjectID(ev), Timestamp(ev), t.userID, at, false,
                 if ev.periodEnd > 0 then Some(FromUnix(ev.periodEnd)) else None)
  }

  // What a move adds to the ledger. A purchase counts from the instant at which
  // its period was read.
  ghost function EntryFor(plans: Providers.PaystackPlans, w: World, m: Move): seq<Applied> {
    if !m.Write? || RowWritten(plans, w, m).None? then []
    else
      var t := w.handlers[m.h];
      if IsEvent(t.job) then [EventWritten(t, w.clock)]
      else if t.job.ReferenceJob? && Screen(plans, t.job.redemption) == Granted
      then [ReferenceEntry(plans, t.existing, t.job.redemption, t.readAt)] else []
  }

  // Every write of the run, with what it set or sold.
  ghost function Ledger(plans: Providers.PaystackPlans, w: World, moves: seq<Move>): seq<Applied> {
    if moves == [] then []
    else
      var before := moves[..|moves| - 1];
      Ledger(plans, w, before) + EntryFor(plans, Interleaving.Run(plans, w, before), moves[|moves| - 1])
  }

  predicate SameKeys(history: seq<Application>, ledger: seq<Applied>) {
    |history| == |ledger| && forall i :: 0 <= i < |ledger| ==> history[i].key == Retention.Key(ledger[i])
  }

  lemma SameKeysNext(plans: Providers.PaystackPlans, w: World, m: Move, ledger: seq<Applied>)
    requires SameKeys(w.history, ledger)
    requires m.Write? && At(w, m.h, Ready) ==> ServesOwner(plans, w.handlers[m.h])
    ensures SameKeys(Next(plans, w, m).history, ledger + EntryFor(plans, w, m))
  {
    HistoryNext(plans, w, m);
  }

  // The write of a handler whose reads still stand.
  lemma WriteMoves(plans: Providers.PaystackPlans, w: World, m: Move, u: string)
    requires m.Write? && RowWritten(plans, w, m).Some? && ServesOwner(plans, w.handlers[m.h])
    requires ReadStands(w, m.h, PeriodEnd)
    ensures Moved(PeriodOf(w.subs, u), EntryFor(plans, w, m), PeriodOf(Next(plans, w, m).subs, u), u)
  {
    var t := w.handlers[m.h];
    SubsNext(plans, w, m);
    UpsertedPeriod(w.subs, RowWritten(plans, w, m).value, m.newID, u);
    if t.job.ReferenceJob? {
      EntryIs(plans, t.existing, t.job.redemption, t.readAt);
    } else {
      assert IsEvent(t.job);
    }
  }

  lemma MoveMoves(plans: Providers.PaystackPlans, w: World, moves: seq<Move>, m: Move, u: string)
    requires Fresh(w) && TableOk(w.subs) && InTurn(plans, w, moves)
    ensures var v := Interleaving.Run(plans, w, moves);
            Moved(PeriodOf(v.subs, u), EntryFor(plans, v, m), PeriodOf(Next(plans, v, m).subs, u), u)
  {
    var v := Interleaving.Run(plans, w, moves);
    if RowWritten(plans, v, m).None? {
      SubsNext(plans, v, m);
    } else if m.Write? {
      EveryHandlerServesItsOwner(plans, w, moves, m.h);
      ReadyReadsStand(plans, w, moves, m.h, PeriodEnd);
      WriteMoves(plans, v, m, u);
    } else {
      EveryPendingRowStands(plans, w, moves);
      SubsNext(plans, v, m);
      UpsertedPeriod(v.subs, RowWritten(plans, v, m).value, IDFor(m), u);
    }
  }

  // The conservation law of `PaidTime`, over every run without overlap whatever
  // time its calls take: the user's period end is explained by the last period
  // that an event set and the intervals sold since, none of which is lost.
  lemma {:induction false} PaidTimeIsConservedInTurn(plans: Providers.PaystackPlans, w: World, moves: seq<Move>,
                                                     u: string)
    requires Fresh(w) && TableOk(w.subs) && InTurn(plans, w, moves)
    ensures var v, ledger := Interleaving.Run(plans, w, moves), Ledger(plans, w, moves);
            && SameKeys(v.history, ledger)
            && Explains(StartOf(PeriodOf(w.subs, u), ledger, u), Purchases(ledger, u), PeriodOf(v.subs, u))
  {
    if moves != [] {
      var before, last := moves[..|moves| - 1], moves[|moves| - 1];
      var v := Interleaving.Run(plans, w, before);
      PaidTimeIsConservedInTurn(plans, w, before, u);
      if last.Write? && At(v, last.h, Ready) {
        EveryHandlerServesItsOwner(plans, w, before, last.h);
      }
      SameKeysNext(plans, v, last, Ledger(plans, w, before));
      MoveMoves(plans, w, before, last, u);
      MoveExplained(PeriodOf(w.subs, u), Ledger(plans, w, before), PeriodOf(v.subs, u), EntryFor(plans, v, last),
                    PeriodOf(Next(plans, v, last).subs, u), u);
    }
  }
}
