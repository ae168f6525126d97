/** Paid time is conserved: redeeming references stacks the periods they buy on
    top of the last period that a provider event set. */
module PaidTime {
  import opened Core
  import opened Records
  import opened Entitlements
  import opened BillingMachine
  import opened RowInvariants
  import Providers

  // An event that carries a period sets the user's period to it.
  predicate Resets(a: Applied, u: string) {
    a.EventApplied? && a.userID == u && a.periodEnd.Some?
  }

  predicate Buys(a: Applied, u: string) {
    a.ReferenceApplied? && a.userID == u
  }

  // The last period an event set, else the one there was before.
  function StartOf(p0: Option<Instant>, applied: seq<Applied>, u: string): Option<Instant> {
    if applied == [] then p0
    else
      var last := applied[|applied| - 1];
      if Resets(last, u) then last.periodEnd else StartOf(p0, applied[..|applied| - 1], u)
  }

  // The periods a user bought since then, oldest first.
  function Purchases(applied: seq<Applied>, u: string): seq<Applied> {
    if applied == [] then []
    else
      var last := applied[|applied| - 1];
      if Resets(last, u) then []
      else Purchases(applied[..|applied| - 1], u) + (if Buys(last, u) then [last] else [])
  }

  function Length(bought: Applied): int {
    match bought
    case ReferenceApplied(_, _, _, from, until) => until - from
    case EventApplied(_, _, _, _, _, _, _, _) => 0
  }

  // The time bought by purchase i and all later ones.
  function TotalFrom(bought: seq<Applied>, i: nat): int
    decreases |bought| - i
  {
    if i >= |bought| then 0 else Length(bought[i]) + TotalFrom(bought, i + 1)
  }

  function PeriodOf(subs: Subscriptions, u: string): Option<Instant> {
    if u in subs then subs[u].periodEnd else None
  }

  // The greatest of p0 + all the time bought and, over every purchase, its
  // instant + the time bought from it on.
  predicate IsPaidUntil(p0: Option<Instant>, bought: seq<Applied>, end: Instant) {
    && (p0.Some? ==> p0.value + TotalFrom(bought, 0) <= end)
    && (forall i :: 0 <= i < |bought| ==> bought[i].at + TotalFrom(bought, i) <= end)
    && (|| (p0.Some? && end == p0.value + TotalFrom(bought, 0))
        || exists i :: 0 <= i < |bought| && end == bought[i].at + TotalFrom(bought, i))
  }

  // One after the other: no bought interval starts before its purchase or
  // before an earlier one ends, and each is a month or a year long.
  predicate Stacked(bought: seq<Applied>) {
    && (forall i :: 0 <= i < |bought| ==>
          bought[i].ReferenceApplied? && bought[i].at <= bought[i].from && Length(bought[i]) in {30 * DAY, 365 * DAY})
    && (forall i, j :: 0 <= i < j < |bought| ==> bought[i].until <= bought[j].from)
  }

  // What the purchases explain of a user's period end.
  predicate Explains(p0: Option<Instant>, bought: seq<Applied>, end: Option<Instant>) {
    && Stacked(bought)
    && (bought == [] ==> end == p0)
    && (bought != [] ==> end == Some(bought[|bought| - 1].until) && IsPaidUntil(p0, bought, end.value))
  }

  lemma {:induction false} TotalSnoc(bought: seq<Applied>, x: Applied, i: nat)
    requires i <= |bought|
    ensures TotalFrom(bought + [x], i) == TotalFrom(bought, i) + Length(x)
    decreases |bought| - i
  {
    if i < |bought| {
      TotalSnoc(bought, x, i + 1);
    } else {
      assert TotalFrom(bought + [x], i + 1) == 0;
    }
  }

  lemma StackedNext(bought: seq<Applied>, x: Applied)
    requires Stacked(bought) && x.ReferenceApplied? && Length(x) in {30 * DAY, 365 * DAY} && x.at <= x.from
    requires bought != [] ==> bought[|bought| - 1].until <= x.from
    ensures Stacked(bought + [x])
  {
    forall i | 0 <= i < |bought| ensures bought[i].until <= x.from {
      assert i == |bought| - 1 || bought[i].until <= bought[|bought| - 1].from;
    }
  }

  lemma TotalsNext(bought: seq<Applied>, x: Applied)
    ensures forall i :: 0 <= i <= |bought| ==> TotalFrom(bought + [x], i) == TotalFrom(bought, i) + Length(x)
    ensures TotalFrom(bought + [x], |bought|) == Length(x)
  {
    forall i | 0 <= i <= |bought| ensures TotalFrom(bought + [x], i) == TotalFrom(bought, i) + Length(x) {
      TotalSnoc(bought, x, i);
    }
    assert TotalFrom(bought, |bought|) == 0;
  }

  // The candidates of the longer list are the old ones moved by the new length,
  // and the new purchase's own.
  lemma PaidUntilNext(p0: Option<Instant>, bought: seq<Applied>, end: Instant, x: Applied)
    requires bought != [] && IsPaidUntil(p0, bought, end) && x.ReferenceApplied?
    requires x.from == if end > x.at then end else x.at
    ensures IsPaidUntil(p0, bought + [x], x.until)
  {
    var more := bought + [x];
    TotalsNext(bought, x);
    assert more[|bought|].at + TotalFrom(more, |bought|) == x.at + Length(x);
    if x.from == end && !(p0.Some? && end == p0.value + TotalFrom(bought, 0)) {
      var i :| 0 <= i < |bought| && end == bought[i].at + TotalFrom(bought, i);
      assert more[i].at + TotalFrom(more, i) == x.until;
    }
  }

  lemma FirstPurchase(p0: Option<Instant>, x: Applied)
    requires x.ReferenceApplied? && x.from == if p0.Some? && p0.value > x.at then p0.value else x.at
    ensures IsPaidUntil(p0, [x], x.until)
  {
    assert TotalFrom([x], 1) == 0;
    assert [x][0].at + TotalFrom([x], 0) == x.at + Length(x);
  }

  lemma OneMorePurchase(p0: Option<Instant>, bought: seq<Applied>, end: Option<Instant>, x: Applied)
    requires Explains(p0, bought, end)
    requires x.ReferenceApplied? && Length(x) in {30 * DAY, 365 * DAY}
    requires x.from == if end.Some? && end.value > x.at then end.value else x.at
    ensures Explains(p0, bought + [x], Some(x.until))
  {
    StackedNext(bought, x);
    if bought == [] {
      assert bought + [x] == [x];
      FirstPurchase(p0, x);
    } else {
      PaidUntilNext(p0, bought, end.value, x);
    }
  }

  // What one action adds to the history.
  ghost function Added(plans: Providers.PaystackPlans, s: State, a: Action): seq<Applied> {
    match a
    case Webhook(d, e) => if DeliveryFate(s, d, e) == Done then [EventEntry(d, e)] else []
    case Verify(r, e) =>
      if RedemptionVerdict(plans, s, r, e) == Granted
      then [ReferenceEntry(plans, ReadSubscription(s.subs, r.user.id, e.now), r, e.now)] else []
    case _ => []
  }

  // What a run adds to it.
  ghost function AddedBy(plans: Providers.PaystackPlans, s: State, run: seq<Action>): seq<Applied> {
    if run == [] then []
    else
      var before := run[..|run| - 1];
      AddedBy(plans, s, before) + Added(plans, Run(plans, s, before), run[|run| - 1])
  }

  lemma StepAdds(plans: Providers.PaystackPlans, s: State, a: Action)
    ensures Step(plans, s, a).history == s.history + Added(plans, s, a)
  {
  }

  lemma {:induction false} RunAdds(plans: Providers.PaystackPlans, s: State, run: seq<Action>)
    ensures Run(plans, s, run).history == s.history + AddedBy(plans, s, run)
  {
    if run != [] {
      var before := run[..|run| - 1];
      var t := Run(plans, s, before);
      RunAdds(plans, s, before);
      StepAdds(plans, t, run[|run| - 1]);
      Regroup(s.history, AddedBy(plans, s, before), Added(plans, t, run[|run| - 1]));
    }
  }

  // The period stands, or it was set by an event, or one more was sold on top of it.
  predicate Moved(p: Option<Instant>, added: seq<Applied>, q: Option<Instant>, u: string) {
    if added == [] then q == p
    else
      var x := added[0];
      && |added| == 1
      && if Resets(x, u) then q == x.periodEnd
         else if Buys(x, u) then
           && Length(x) in {30 * DAY, 365 * DAY}
           && x.from == (if p.Some? && p.value > x.at then p.value else x.at)
           && q == Some(x.until)
         else q == p
  }

  // An applied event sets the period of its owner if it carries one.
  lemma WebhookMoves(plans: Providers.PaystackPlans, s: State, d: Delivery, e: Env, u: string)
    requires FiledByUser(s.subs)
    ensures Moved(PeriodOf(s.subs, u), Added(plans, s, Webhook(d, e)), PeriodOf(Deliver(s, d, e).subs, u), u)
  {
    if DeliveryFate(s, d, e) == Done {
      var v := Owner(d.decoded.event, e.found).value;
      if v in s.subs {
        ViewOverridesForceFree(s.subs[v], e.now);
      }
    }
  }

  lemma CancelSellsNothing(s: State, v: string, ok: bool, e: Env, u: string)
    requires FiledByUser(s.subs)
    ensures PeriodOf(Cancel(s, v, ok, e).subs, u) == PeriodOf(s.subs, u)
  {
    if CancelReplyTo(s, v, ok, e) == Cancelled {
      ViewOverridesForceFree(s.subs[v], e.now);
    }
  }

  lemma UpsertedPeriod(subs: Subscriptions, row: Row, newID: string, u: string)
    ensures PeriodOf(Upsert(subs, row, newID), u) == if row.userID == u then row.periodEnd else PeriodOf(subs, u)
  {
  }

  lemma ReadPeriodIs(subs: Subscriptions, u: string, now: Instant)
    ensures ReadSubscription(subs, u, now).periodEnd == PeriodOf(subs, u)
  {
    if u in subs {
      ViewOverridesForceFree(subs[u], now);
    }
  }

  // What a granted redemption does to the buyer's period and to nobody else's.
  lemma GrantedPeriod(plans: Providers.PaystackPlans, s: State, r: Redemption, e: Env, u: string)
    requires FiledByUser(s.subs) && RedemptionVerdict(plans, s, r, e) == Granted
    ensures var base := PeriodBase(ReadSubscription(s.subs, r.user.id, e.now), e.now);
            && PeriodOf(Redeem(plans, s, r, e).subs, u)
               == (if u == r.user.id then Some(base + Providers.BillingPeriod(Interval(plans, r)))
                   else PeriodOf(s.subs, u))
            && ReadSubscription(s.subs, r.user.id, e.now).periodEnd == PeriodOf(s.subs, r.user.id)
  {
    ReadPeriodIs(s.subs, r.user.id, e.now);
    UpsertedPeriod(s.subs, RedeemedRow(plans, ReadSubscription(s.subs, r.user.id, e.now), r, e.now), e.newID, u);
  }

  lemma EntryIs(plans: Providers.PaystackPlans, current: Row, r: Redemption, now: Instant)
    requires Screen(plans, r) == Granted
    ensures var entry, base := ReferenceEntry(plans, current, r, now), PeriodBase(current, now);
            && entry.ReferenceApplied? && entry.userID == r.user.id && entry.at == now && entry.from == base
            && entry.until == base + Providers.BillingPeriod(Interval(plans, r))
            && Length(entry) in {30 * DAY, 365 * DAY}
  {
  }

  lemma GrantedMoves(plans: Providers.PaystackPlans, s: State, r: Redemption, e: Env, u: string)
    requires FiledByUser(s.subs) && RedemptionVerdict(plans, s, r, e) == Granted
    ensures var entry := ReferenceEntry(plans, ReadSubscription(s.subs, r.user.id, e.now), r, e.now);
            Moved(PeriodOf(s.subs, u), [entry], PeriodOf(Redeem(plans, s, r, e).subs, u), u)
  {
    GrantedPeriod(plans, s, r, e, u);
    EntryIs(plans, ReadSubscription(s.subs, r.user.id, e.now), r, e.now);
  }

  lemma RefusedSellsNothing(plans: Providers.PaystackPlans, s: State, r: Redemption, e: Env)
    requires RedemptionVerdict(plans, s, r, e) != Granted
    ensures Redeem(plans, s, r, e).subs == s.subs
  {
  }

  // Every action sets a user's period, sells them one on top of it, or leaves it alone.
  lemma StepMoves(plans: Providers.PaystackPlans, s: State, a: Action, u: string)
    requires FiledByUser(s.subs)
    ensures Moved(PeriodOf(s.subs, u), Added(plans, s, a), PeriodOf(Step(plans, s, a).subs, u), u)
  {
    match a
    case Webhook(d, e) => WebhookMoves(plans, s, d, e, u);
    case Verify(r, e) =>
      if RedemptionVerdict(plans, s, r, e) == Granted {
        GrantedMoves(plans, s, r, e, u);
      } else {
        RefusedSellsNothing(plans, s, r, e);
      }
    case CancelPlan(v, ok, e) => CancelSellsNothing(s, v, ok, e, u);
    case Cleanup(_) =>
  }

  lemma AppliedSnoc(p0: Option<Instant>, applied: seq<Applied>, x: Applied, u: string)
    ensures StartOf(p0, applied + [x], u) == if Resets(x, u) then x.periodEnd else StartOf(p0, applied, u)
    ensures Purchases(applied + [x], u)
         == if Resets(x, u) then [] else Purchases(applied, u) + (if Buys(x, u) then [x] else [])
  {
    assert (applied + [x])[..|applied|] == applied;
  }

  lemma MoveExplained(p0: Option<Instant>, applied: seq<Applied>, p: Option<Instant>, added: seq<Applied>,
                      q: Option<Instant>, u: string)
    requires Explains(StartOf(p0, applied, u), Purchases(applied, u), p) && Moved(p, added, q, u)
    ensures Explains(StartOf(p0, applied + added, u), Purchases(applied + added, u), q)
  {
    if added == [] {
      assert applied + added == applied;
    } else {
      assert added == [added[0]];
      AppliedSnoc(p0, applied, added[0], u);
      if Buys(added[0], u) {
        OneMorePurchase(StartOf(p0, applied, u), Purchases(applied, u), p, added[0]);
      } else {
        assert Purchases(applied, u) + [] == Purchases(applied, u);
      }
    }
  }

  // Over every run, whatever happens to anyone: let p0 be the last period an
  // applied event set for the user, or the stored one if none did. The user's
  // period end is then the greatest of p0 + the time bought since and, over
  // every purchase since, its instant + the time bought from it on; the bought
  // intervals are disjoint, and nothing but a purchase or a reset moves the end.
  lemma {:induction false} PaidTimeIsConserved(plans: Providers.PaystackPlans, s: State, run: seq<Action>, u: string)
    requires FiledByUser(s.subs)
    ensures var applied := AddedBy(plans, s, run);
            && Run(plans, s, run).history == s.history + applied
            && Explains(StartOf(PeriodOf(s.subs, u), applied, u), Purchases(applied, u),
                        PeriodOf(Run(plans, s, run).subs, u))
  {
    RunAdds(plans, s, run);
    if run != [] {
      var last := |run| - 1;
      var t := Run(plans, s, run[..last]);
      PaidTimeIsConserved(plans, s, run[..last], u);
      KnownFieldsStay(plans, s, run[..last]);
      StepMoves(plans, t, run[last], u);
      MoveExplained(PeriodOf(s.subs, u), AddedBy(plans, s, run[..last]), PeriodOf(t.subs, u),
                    Added(plans, t, run[last]), PeriodOf(Step(plans, t, run[last]).subs, u), u);
    }
  }

  // Renewing early never loses time: the end moves by exactly what was bought.
  lemma EarlyRenewalKeepsTheRest(plans: Providers.PaystackPlans, s: State, r: Redemption, e: Env)
    requires RedemptionVerdict(plans, s, r, e) == Granted
    requires r.user.id in s.subs && s.subs[r.user.id].periodEnd.Some?
    ensures var before, after := s.subs[r.user.id].periodEnd.value, Redeem(plans, s, r, e).subs[r.user.id].periodEnd;
            after == Some((if before > e.now then before else e.now) + Providers.BillingPeriod(Interval(plans, r)))
  {
    ViewOverridesForceFree(s.subs[r.user.id], e.now);
    assert ReadSubscription(s.subs, r.user.id, e.now).periodEnd == s.subs[r.user.id].periodEnd;
  }
}
