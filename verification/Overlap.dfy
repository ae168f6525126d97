/** What overlapping handlers write to the subscriptions, and which invariants of
    the table survive every interleaving. */
module Overlap {
  import opened Core
  import opened Records
  import opened Entitlements
  import opened BillingMachine
  import opened Interleaving
  import opened RowInvariants
  import Providers

  // ----- What a move writes -----

  // The row a move writes, if any.
  ghost function RowWritten(plans: Providers.PaystackPlans, w: World, m: Move): Option<Row> {
    match m
    case Write(h, newID, ok) =>
      if ok && At(w, h, Ready) && FreshID(w.subs, newID) then Some(RowToWrite(plans, w.handlers[h], w.clock)) else None
    case EndCancel(c, providerOk, newID, ok) =>
      if ok && c in w.cancels && FreshID(w.subs, newID) && ProviderAccepts(w.cancels[c], providerOk)
      then Some(CancelledRow(w.cancels[c], w.clock)) else None
    case _ => None
  }

  function IDFor(m: Move): string {
    match m
    case Write(_, newID, _) => newID
    case EndCancel(_, _, newID, _) => newID
    case _ => ""
  }

  lemma SubsNext(plans: Providers.PaystackPlans, w: World, m: Move)
    ensures var row := RowWritten(plans, w, m);
            Next(plans, w, m).subs == if row.Some? then Upsert(w.subs, row.value, IDFor(m)) else w.subs
    ensures RowWritten(plans, w, m).Some? ==> FreshID(w.subs, IDFor(m))
  {
  }

  // ----- What survives every interleaving -----

  // Nothing a handler carries from its reads is a paid plan or an id.
  predicate NoPlan(existing: Row) {
    existing.plan == "free" && existing.id == ""
  }

  ghost predicate CarriesNoPlan(w: World) {
    forall h :: h in w.handlers ==> NoPlan(w.handlers[h].existing)
  }

  // What a cancellation has read is a paid row of a user who still has one.
  predicate ReadPaidRow(subs: Subscriptions, row: Row) {
    row.userID in subs && row.id != "" && row.plan != "free" && IsEntitledStatus(row.status)
  }

  ghost predicate CancelsOk(w: World) {
    forall c :: c in w.cancels ==> ReadPaidRow(w.subs, w.cancels[c])
  }

  ghost predicate TablesOk(w: World) {
    TableOk(w.subs) && CarriesNoPlan(w) && CancelsOk(w)
  }

  lemma CarriesNoPlanNext(plans: Providers.PaystackPlans, w: World, m: Move)
    requires CarriesNoPlan(w)
    ensures CarriesNoPlan(Next(plans, w, m))
  {
    var v := Next(plans, w, m);
    forall h | h in v.handlers ensures NoPlan(v.handlers[h].existing) {
      if OfHandler(m, h) {
        OwnMoveCarriesNoPlan(plans, w, m, h);
      } else {
        OthersStay(plans, w, m, h);
      }
    }
  }

  lemma OwnMoveCarriesNoPlan(plans: Providers.PaystackPlans, w: World, m: Move, h: nat)
    requires OfHandler(m, h) && h in Next(plans, w, m).handlers
    requires h in w.handlers ==> NoPlan(w.handlers[h].existing)
    ensures NoPlan(Next(plans, w, m).handlers[h].existing)
  {
  }

  lemma ReadsPaidRow(subs: Subscriptions, user: string, now: Instant)
    requires TableOk(subs) && ReadSubscription(subs, user, now).plan != "free"
    ensures ReadPaidRow(subs, ReadSubscription(subs, user, now))
    ensures user in subs && ReadSubscription(subs, user, now) == subs[user]
  {
    ViewOverridesForceFree(subs[user], now);
  }

  // A row is never deleted.
  lemma UsersStay(plans: Providers.PaystackPlans, w: World, m: Move, u: string)
    requires u in w.subs
    ensures u in Next(plans, w, m).subs
  {
    SubsNext(plans, w, m);
  }

  // Which cancellations are pending after a move.
  lemma CancelsNext(plans: Providers.PaystackPlans, w: World, m: Move, c: nat)
    requires c in Next(plans, w, m).cancels
    ensures var row := Next(plans, w, m).cancels[c];
            || (c in w.cancels && row == w.cancels[c])
            || (m.BeginCancel? && m.c == c && row == ReadSubscription(w.subs, m.user, w.clock) && row.plan != "free")
  {
  }

  lemma CancelsOkNext(plans: Providers.PaystackPlans, w: World, m: Move)
    requires TablesOk(w)
    ensures CancelsOk(Next(plans, w, m))
  {
    var v := Next(plans, w, m);
    forall c | c in v.cancels ensures ReadPaidRow(v.subs, v.cancels[c]) {
      CancelsNext(plans, w, m, c);
      if c in w.cancels && v.cancels[c] == w.cancels[c] {
        UsersStay(plans, w, m, w.cancels[c].userID);
      } else {
        ReadsPaidRow(w.subs, m.user, w.clock);
        UsersStay(plans, w, m, v.cancels[c].userID);
      }
    }
  }

  lemma WrittenRowIsOk(plans: Providers.PaystackPlans, w: World, m: Move)
    requires TablesOk(w) && RowWritten(plans, w, m).Some?
    ensures var row := RowWritten(plans, w, m).value;
            PaidPlanIsEntitled(row) && (row.id == "" || row.userID in w.subs)
  {
    if m.Write? {
      HandlerRowIsOk(plans, w.handlers[m.h], w.clock);
    }
  }

  lemma HandlerRowIsOk(plans: Providers.PaystackPlans, t: Handler, now: Instant)
    requires NoPlan(t.existing)
    ensures PaidPlanIsEntitled(RowToWrite(plans, t, now)) && RowToWrite(plans, t, now).id == ""
  {
  }

  lemma TablesOkNext(plans: Providers.PaystackPlans, w: World, m: Move)
    requires TablesOk(w)
    ensures TablesOk(Next(plans, w, m))
  {
    CarriesNoPlanNext(plans, w, m);
    CancelsOkNext(plans, w, m);
    SubsNext(plans, w, m);
    if RowWritten(plans, w, m).Some? {
      WrittenRowIsOk(plans, w, m);
      UpsertKeepsTable(w.subs, RowWritten(plans, w, m).value, IDFor(m));
    }
  }

  // However webhooks, redemptions, cancellations and clean-ups interleave, a
  // stored paid plan has an entitled status, there is one row per user, and every
  // row keeps an id of its own.
  lemma {:induction false} TablesStayOk(plans: Providers.PaystackPlans, w: World, moves: seq<Move>)
    requires Fresh(w) && TableOk(w.subs)
    ensures TablesOk(Interleaving.Run(plans, w, moves))
  {
    if moves != [] {
      TablesStayOk(plans, w, moves[..|moves| - 1]);
      TablesOkNext(plans, Interleaving.Run(plans, w, moves[..|moves| - 1]), moves[|moves| - 1]);
    }
  }
}
