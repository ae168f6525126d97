/** A handler reads a row statement by statement and writes it whole. What it
    writes back when the row has been written meanwhile, and what when it has not. */
module StaleReads {
  import opened Core
  import opened Records
  import opened Entitlements
  import opened BillingMachine
  import opened Columns
  import opened Interleaving
  import opened OrderGuard
  import opened Overlap
  import opened PaidTime
  import Providers
  import Races

  // ----- Fresh reads -----

  // The move by which handler h reads a column.
  predicate Reads(w: World, m: Move, h: nat, c: Column) {
    match c
    case PeriodEnd => m == ReadPeriod(h) && At(w, h, Resolved)
    case TrialEnd => m == ReadTrial(h) && At(w, h, PeriodRead)
    case SubscriptionID => m == ReadRest(h) && At(w, h, TrialRead)
    case AutoRenews => m == ReadRest(h) && At(w, h, TrialRead)
  }

  // The move writes the row of the user that handler h works for.
  ghost predicate WritesRowOf(plans: Providers.PaystackPlans, w: World, m: Move, h: nat) {
    && RowWritten(plans, w, m).Some? && h in w.handlers
    && RowWritten(plans, w, m).value.userID == w.handlers[h].userID
  }

  // Handler h has read the column, and nobody has written that row since.
  ghost predicate ReadIsFresh(plans: Providers.PaystackPlans, w: World, moves: seq<Move>, h: nat, c: Column) {
    moves != [] &&
    var before, last := moves[..|moves| - 1], moves[|moves| - 1];
    var v := Interleaving.Run(plans, w, before);
    Reads(v, last, h, c) || (ReadIsFresh(plans, w, before, h, c) && !WritesRowOf(plans, v, last, h))
  }

  // How far a handler has come when it has read a column.
  predicate Past(pc: PC, c: Column) {
    match c
    case PeriodEnd => pc in {PeriodRead, TrialRead, Ready, Written, Finished}
    case TrialEnd => pc in {TrialRead, Ready, Written, Finished}
    case SubscriptionID => pc in {Ready, Written, Finished}
    case AutoRenews => pc in {Ready, Written, Finished}
  }

  predicate HasRead(w: World, h: nat, c: Column) {
    h in w.handlers && Past(w.handlers[h].pc, c)
  }

  predicate ReadStands(w: World, h: nat, c: Column) {
    HasRead(w, h, c) && CellOf(w.handlers[h].existing, c) == StoredCell(w.subs, w.handlers[h].userID, c)
  }

  lemma ReadingStands(plans: Providers.PaystackPlans, w: World, m: Move, h: nat, c: Column)
    requires Reads(w, m, h, c)
    ensures ReadStands(Next(plans, w, m), h, c)
    ensures Next(plans, w, m).subs == w.subs && Next(plans, w, m).handlers[h].userID == w.handlers[h].userID
  {
    ViewKeepsCells(w.subs, w.handlers[h].userID, w.clock, c);
  }

  predicate KeepsRead(t: Handler, u: Handler, c: Column) {
    u.userID == t.userID && CellOf(u.existing, c) == CellOf(t.existing, c) && u.job == t.job
  }

  lemma ReadingKeepsReads(w: World, h: nat, c: Column)
    requires HasRead(w, h, c) && (At(w, h, PeriodRead) || At(w, h, TrialRead))
    ensures HasRead(Reading(w, h), h, c) && KeepsRead(w.handlers[h], Reading(w, h).handlers[h], c)
  {
  }

  // What a handler has read it keeps.
  lemma ReadIsKept(plans: Providers.PaystackPlans, w: World, m: Move, h: nat, c: Column)
    requires HasRead(w, h, c)
    ensures HasRead(Next(plans, w, m), h, c) && KeepsRead(w.handlers[h], Next(plans, w, m).handlers[h], c)
  {
    if !OfHandler(m, h) {
      OthersStay(plans, w, m, h);
    } else if (m.ReadTrial? && At(w, h, PeriodRead)) || (m.ReadRest? && At(w, h, TrialRead)) {
      ReadingKeepsReads(w, h, c);
    }
  }

  lemma UpsertedCell(subs: Subscriptions, row: Row, newID: string, u: string, c: Column)
    ensures StoredCell(Upsert(subs, row, newID), u, c)
         == if row.userID == u then CellOf(row, c) else StoredCell(subs, u, c)
  {
  }

  lemma StillStands(plans: Providers.PaystackPlans, w: World, m: Move, h: nat, c: Column)
    requires ReadStands(w, h, c) && !WritesRowOf(plans, w, m, h)
    ensures ReadStands(Next(plans, w, m), h, c)
  {
    ReadIsKept(plans, w, m, h, c);
    SubsNext(plans, w, m);
    if RowWritten(plans, w, m).Some? {
      UpsertedCell(w.subs, RowWritten(plans, w, m).value, IDFor(m), w.handlers[h].userID, c);
    }
  }

  lemma {:induction false} FreshReadStands(plans: Providers.PaystackPlans, w: World, moves: seq<Move>, h: nat,
                                           c: Column)
    requires ReadIsFresh(plans, w, moves, h, c)
    ensures ReadStands(Interleaving.Run(plans, w, moves), h, c)
  {
    var before, last := moves[..|moves| - 1], moves[|moves| - 1];
    var v := Interleaving.Run(plans, w, before);
    if Reads(v, last, h, c) {
      ReadingStands(plans, v, last, h, c);
    } else {
      FreshReadStands(plans, w, before, h, c);
      StillStands(plans, v, last, h, c);
    }
  }

  // ----- What every handler works for -----

  // A redemption that got past its claim works for the user who pays, and an
  // event that got past its recording was decoded.
  predicate ServesOwner(plans: Providers.PaystackPlans, t: Handler) {
    && (t.job.ReferenceJob? ==>
          && Screen(plans, t.job.redemption) == Granted
          && (InFlight(t.pc) ==> t.userID == t.job.redemption.user.id))
    && (t.job.EventJob? && InFlight(t.pc) ==> IsEvent(t.job))
  }

  lemma ServesOwnerNext(plans: Providers.PaystackPlans, w: World, m: Move, h: nat)
    requires h in Next(plans, w, m).handlers && (h in w.handlers ==> ServesOwner(plans, w.handlers[h]))
    ensures ServesOwner(plans, Next(plans, w, m).handlers[h])
  {
    if !OfHandler(m, h) {
      OthersStay(plans, w, m, h);
    } else if OpensHandler(m) {
      OpeningServesOwner(plans, w, m, h);
    } else if m.ReadPeriod? || m.ReadTrial? || m.ReadRest? {
      ReadingServesOwner(plans, w, m, h);
    } else if m.Write? {
      WritingGoesOn(plans, w, m, h);
    } else {
      EndingGoesOn(plans, w, m, h);
    }
  }

  lemma ReadingServesOwner(plans: Providers.PaystackPlans, w: World, m: Move, h: nat)
    requires h in w.handlers && ServesOwner(plans, w.handlers[h]) && (m.ReadPeriod? || m.ReadTrial? || m.ReadRest?)
    ensures h in Next(plans, w, m).handlers && ServesOwner(plans, Next(plans, w, m).handlers[h])
  {
  }

  predicate GoesOn(t: Handler, u: Handler) {
    && u.job == t.job && (InFlight(u.pc) ==> InFlight(t.pc))
    && (t.job.ReferenceJob? ==> u.userID == t.userID)
  }

  lemma WritingGoesOn(plans: Providers.PaystackPlans, w: World, m: Move, h: nat)
    requires h in w.handlers && m.Write?
    ensures h in Next(plans, w, m).handlers && GoesOn(w.handlers[h], Next(plans, w, m).handlers[h])
  {
  }

  lemma EndingGoesOn(plans: Providers.PaystackPlans, w: World, m: Move, h: nat)
    requires h in w.handlers && (m.ResolveUser? || m.MarkProcessed?)
    ensures h in Next(plans, w, m).handlers && GoesOn(w.handlers[h], Next(plans, w, m).handlers[h])
  {
  }

  lemma OpeningServesOwner(plans: Providers.PaystackPlans, w: World, m: Move, h: nat)
    requires OfHandler(m, h) && OpensHandler(m)
    requires h in Next(plans, w, m).handlers && (h in w.handlers ==> ServesOwner(plans, w.handlers[h]))
    ensures ServesOwner(plans, Next(plans, w, m).handlers[h])
  {
  }

  lemma {:induction false} EveryHandlerServesItsOwner(plans: Providers.PaystackPlans, w: World, moves: seq<Move>,
                                                      h: nat)
    requires Fresh(w) && h in Interleaving.Run(plans, w, moves).handlers
    ensures ServesOwner(plans, Interleaving.Run(plans, w, moves).handlers[h])
  {
    if moves != [] {
      var before := moves[..|moves| - 1];
      if h in Interleaving.Run(plans, w, before).handlers {
        EveryHandlerServesItsOwner(plans, w, before, h);
      }
      ServesOwnerNext(plans, Interleaving.Run(plans, w, before), moves[|moves| - 1], h);
    }
  }

  // ----- Events -----

  // An event's handler that is about to write.
  predicate AboutToApply(w: World, h: nat) {
    At(w, h, Ready) && IsEvent(w.handlers[h].job)
  }

  // What the write of handler h makes of the table.
  function SubsAfter(plans: Providers.PaystackPlans, w: World, h: nat, newID: string): Subscriptions
    requires h in w.handlers
  {
    Writing(plans, w, h, newID, true).subs
  }

  // A column that the event does not carry is set to what its handler read of it,
  // so it changes exactly when the stored value is another by now. Nobody else's
  // row changes.
  lemma EventWritesBackWhatItRead(plans: Providers.PaystackPlans, w: World, h: nat, newID: string, u: string, c: Column)
    requires AboutToApply(w, h)
    ensures var t, after := w.handlers[h], StoredCell(SubsAfter(plans, w, h, newID), u, c);
            if t.userID != u then after == StoredCell(w.subs, u, c)
            else if Carried(EventOf(t), c).Some? then after == Carried(EventOf(t), c).value
            else after == CellOf(t.existing, c)
  {
    UpsertedCell(w.subs, RowToWrite(plans, w.handlers[h], w.clock), newID, u, c);
  }

  // So in every run an event whose read of a column is fresh leaves that column
  // as it is, unless it carries it.
  lemma FreshEventKeepsTheColumn(plans: Providers.PaystackPlans, w: World, moves: seq<Move>, h: nat, newID: string,
                                 u: string, c: Column)
    requires var v := Interleaving.Run(plans, w, moves);
             && AboutToApply(v, h) && Carried(EventOf(v.handlers[h]), c).None?
             && ReadIsFresh(plans, w, moves, h, c)
    ensures var v := Interleaving.Run(plans, w, moves);
            StoredCell(SubsAfter(plans, v, h, newID), u, c) == StoredCell(v.subs, u, c)
  {
    FreshReadStands(plans, w, moves, h, c);
    EventWritesBackWhatItRead(plans, Interleaving.Run(plans, w, moves), h, newID, u, c);
  }

  // The handler carries an event of u's that leaves a column out, and has read
  // the column as this.
  predicate WritesBack(t: Handler, u: string, c: Column, read: Cell) {
    IsEvent(t.job) && t.userID == u && Carried(EventOf(t), c).None? && CellOf(t.existing, c) == read
  }

  // The write of a handler that has read nothing of a column its event leaves
  // out, or of a cancellation that has read nothing of it.
  ghost predicate WritesNothingBack(plans: Providers.PaystackPlans, w: World, m: Move, u: string, c: Column,
                                    nothing: Cell)
  {
    && RowWritten(plans, w, m).Some?
    && if m.Write? then WritesBack(w.handlers[m.h], u, c, nothing)
       else m.EndCancel? && w.cancels[m.c].userID == u && CellOf(w.cancels[m.c], c) == nothing
  }

  // What a taken write makes of the two columns that should never be lost.
  lemma WrittenColumns(plans: Providers.PaystackPlans, w: World, m: Move, u: string)
    requires RowWritten(plans, w, m).Some? && RowWritten(plans, w, m).value.userID == u
    requires m.Write? ==> ServesOwner(plans, w.handlers[m.h])
    ensures var row := RowWritten(plans, w, m).value;
            && (row.periodEnd == None <==> WritesNothingBack(plans, w, m, u, PeriodEnd, Time(None)))
            && (row.subID == "" <==> WritesNothingBack(plans, w, m, u, SubscriptionID, Text("")))
  {
  }

  // In every run and for every move: a known period end becomes unknown exactly
  // when an event without a period writes that had read none, or a cancellation
  // that had; and the same for a subscription id and the empty one.
  lemma KnownColumnIsLostExactlyWhen(plans: Providers.PaystackPlans, w: World, moves: seq<Move>, m: Move, u: string)
    requires Fresh(w) && u in Interleaving.Run(plans, w, moves).subs
    ensures var v := Interleaving.Run(plans, w, moves);
            var row, after := v.subs[u], Next(plans, v, m).subs;
            && u in after
            && (row.periodEnd.Some? ==>
                  (after[u].periodEnd == None <==> WritesNothingBack(plans, v, m, u, PeriodEnd, Time(None))))
            && (row.subID != "" ==>
                  (after[u].subID == "" <==> WritesNothingBack(plans, v, m, u, SubscriptionID, Text(""))))
  {
    var v := Interleaving.Run(plans, w, moves);
    SubsNext(plans, v, m);
    if RowWritten(plans, v, m).Some? && RowWritten(plans, v, m).value.userID == u {
      if m.Write? {
        EveryHandlerServesItsOwner(plans, w, moves, m.h);
      }
      WrittenColumns(plans, v, m, u);
    }
  }

  lemma {:induction false} ReadIsKeptThroughout(plans: Providers.PaystackPlans, w: World, moves: seq<Move>, h: nat,
                                                c: Column)
    requires HasRead(w, h, c)
    ensures HasRead(Interleaving.Run(plans, w, moves), h, c)
    ensures KeepsRead(w.handlers[h], Interleaving.Run(plans, w, moves).handlers[h], c)
    decreases |moves|
  {
    if moves != [] {
      ReadIsKeptThroughout(plans, w, moves[..|moves| - 1], h, c);
      ReadIsKept(plans, Interleaving.Run(plans, w, moves[..|moves| - 1]), moves[|moves| - 1], h, c);
    }
  }

  // The handler's event leaves the column out and is about to be applied.
  ghost predicate LeavesOut(plans: Providers.PaystackPlans, w: World, moves: seq<Move>, h: nat, c: Column) {
    var v := Interleaving.Run(plans, w, moves);
    AboutToApply(v, h) && Carried(EventOf(v.handlers[h]), c).None?
  }

  // Whatever is done to anyone between an event's read of a column and its write,
  // the write puts a column that the event does not carry back to what stood
  // there at the read: a period bought in between is gone.
  lemma EventUndoesWhatCameBetween(plans: Providers.PaystackPlans, w: World, first: seq<Move>, m: Move,
                                   between: seq<Move>, h: nat, newID: string, c: Column)
    requires Reads(Interleaving.Run(plans, w, first), m, h, c) && LeavesOut(plans, w, first + [m] + between, h, c)
    ensures var v, x := Interleaving.Run(plans, w, first), Interleaving.Run(plans, w, first + [m] + between);
            var u := v.handlers[h].userID;
            StoredCell(SubsAfter(plans, x, h, newID), u, c) == StoredCell(v.subs, u, c)
  {
    var v, x := Interleaving.Run(plans, w, first), Interleaving.Run(plans, w, first + [m] + between);
    var u := v.handlers[h].userID;
    Races.RunOne(plans, w, first, m);
    Races.RunConcat(plans, w, first + [m], between);
    ReadingStands(plans, v, m, h, c);
    ReadIsKeptThroughout(plans, Next(plans, v, m), between, h, c);
    EventWritesBackWhatItRead(plans, x, h, newID, u, c);
  }

  // ----- Paid time under interleaving -----

  // A redemption that is about to write.
  predicate AboutToSell(plans: Providers.PaystackPlans, w: World, h: nat) {
    && At(w, h, Ready) && w.handlers[h].job.ReferenceJob?
    && Screen(plans, w.handlers[h].job.redemption) == Granted
    && w.handlers[h].job.redemption.user.id == w.handlers[h].userID
  }

  function LengthSold(plans: Providers.PaystackPlans, r: Redemption): int
    requires Screen(plans, r) == Granted
  {
    Providers.BillingPeriod(Interval(plans, r))
  }

  // The write leaves the user with less than what stood there plus what was bought.
  predicate LosesTime(plans: Providers.PaystackPlans, w: World, h: nat, newID: string)
    requires AboutToSell(plans, w, h)
  {
    var u := w.handlers[h].userID;
    var stored, after := PeriodOf(w.subs, u), PeriodOf(Writing(plans, w, h, newID, true).subs, u);
    stored.Some? && (after.None? || after.value < stored.value + LengthSold(plans, w.handlers[h].job.redemption))
  }

  lemma SoldPeriod(plans: Providers.PaystackPlans, w: World, h: nat, newID: string)
    requires AboutToSell(plans, w, h)
    ensures var t := w.handlers[h];
            PeriodOf(Writing(plans, w, h, newID, true).subs, t.userID)
            == Some(PeriodBase(t.existing, t.readAt) + LengthSold(plans, t.job.redemption))
  {
    UpsertedCell(w.subs, RowToWrite(plans, w.handlers[h], w.clock), newID, w.handlers[h].userID, PeriodEnd);
  }

  // A redemption's write loses paid time exactly when the stored period has come
  // to end later than the base it computed from its own read.
  lemma LosesTimeExactlyWhen(plans: Providers.PaystackPlans, w: World, h: nat, newID: string)
    requires AboutToSell(plans, w, h)
    ensures var t := w.handlers[h];
            LosesTime(plans, w, h, newID) <==>
            PeriodOf(w.subs, t.userID).Some? && PeriodOf(w.subs, t.userID).value > PeriodBase(t.existing, t.readAt)
  {
    SoldPeriod(plans, w, h, newID);
  }

  // So in every run a loss needs a write to the row between the redemption's read
  // and its own write.
  lemma NothingLostWhenFresh(plans: Providers.PaystackPlans, w: World, moves: seq<Move>, h: nat, newID: string)
    requires AboutToSell(plans, Interleaving.Run(plans, w, moves), h) && ReadIsFresh(plans, w, moves, h, PeriodEnd)
    ensures !LosesTime(plans, Interleaving.Run(plans, w, moves), h, newID)
  {
    FreshReadStands(plans, w, moves, h, PeriodEnd);
    LosesTimeExactlyWhen(plans, Interleaving.Run(plans, w, moves), h, newID);
  }

  // In every run a redemption whose read is still fresh when it writes adds the
  // whole interval to what stands there.
  lemma FreshRedemptionKeepsPaidTime(plans: Providers.PaystackPlans, w: World, moves: seq<Move>, h: nat, newID: string)
    requires Fresh(w)
    requires var v := Interleaving.Run(plans, w, moves); At(v, h, Ready) && v.handlers[h].job.ReferenceJob?
    ensures AboutToSell(plans, Interleaving.Run(plans, w, moves), h)
    ensures ReadIsFresh(plans, w, moves, h, PeriodEnd) ==>
              !LosesTime(plans, Interleaving.Run(plans, w, moves), h, newID)
  {
    EveryHandlerServesItsOwner(plans, w, moves, h);
    if ReadIsFresh(plans, w, moves, h, PeriodEnd) {
      NothingLostWhenFresh(plans, w, moves, h, newID);
    }
  }
}
