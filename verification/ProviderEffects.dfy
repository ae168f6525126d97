/** From a provider's notification to the access its user ends up with: the
    mapping of events, the row that is stored and the deadline of that row. */
module ProviderEffects {
  import opened Core
  import opened Records
  import opened Entitlements
  import opened Providers
  import opened BillingMachine
  import opened Convergence

  // A delivery that is applied leaves its owner a row that reflects it, and
  // keeps what the event does not carry.
  lemma DoneReflects(s: State, d: Delivery, e: Env)
    requires DeliveryFate(s, d, e) == Done
    ensures var ev := d.decoded.event;
            var u := Owner(ev, e.found).value;
            && u in Deliver(s, d, e).subs
            && Reflects(Deliver(s, d, e).subs[u], d.provider, ev)
            && (u in s.subs ==> KeepsTheRest(s.subs[u], Deliver(s, d, e).subs[u], ev))
  {
    var u := Owner(d.decoded.event, e.found).value;
    if u in s.subs {
      ViewOverridesForceFree(s.subs[u], e.now);
    }
  }

  predicate KeepsTheRest(before: Row, after: Row, ev: WebhookEvent) {
    && after.id == before.id && after.createdAt == before.createdAt
    && after.autoRenews == before.autoRenews
    && (ev.subscriptionID == "" ==> after.subID == before.subID)
    && (ev.periodEnd <= 0 ==> after.periodEnd == before.periodEnd)
    && (ev.trialEnd <= 0 ==> after.trialEnd == before.trialEnd)
  }

  // ----- Paystack -----

  // A renewal charge for one of our plans gives the bought interval from the
  // moment it was paid, and three days of grace, whatever was stored: it keeps
  // the subscription id and the renewal flag, and undoes a scheduled cancellation.
  lemma RenewalGivesItsInterval(plans: PaystackPlans, s: State, d: Delivery, e: Env, body: PaystackBody,
                                nowSeconds: int)
    requires body.ChargeSuccess? && DeliveryFate(s, d, e) == Done
    requires PaystackEvent(plans, body, nowSeconds) == Some(d.decoded.event)
    requires nowSeconds > 0 && FirstTime(body.paidTimes) >= 0
    ensures var code := PlanCode(body.chargePlan, body.planObject);
            var paidAt := if FirstTime(body.paidTimes) == 0 then nowSeconds else FirstTime(body.paidTimes);
            var u := Owner(d.decoded.event, e.found).value;
            var row := Deliver(s, d, e).subs[u];
            && u in Deliver(s, d, e).subs
            && code in [plans.monthly, plans.annual]
            && row.plan == "pro"
            && row.periodEnd == Some(FromUnix(paidAt) + (if code == plans.monthly then 30 * DAY else 365 * DAY))
            && AccessDeadline(row) == Until(row.periodEnd.value + 3 * DAY)
            && (u in s.subs ==> row.subID == s.subs[u].subID && row.autoRenews == s.subs[u].autoRenews)
  {
    DoneReflects(s, d, e);
  }

  // What a redeemed reference buys: the interval its plan code stands for, from
  // `base` on, and three days of grace, renewing if it can be charged again.
  predicate Bought(row: Row, plans: PaystackPlans, r: Redemption, tx: Transaction, base: Instant) {
    && tx.plan.code in [plans.monthly, plans.annual]
    && row.plan == "pro" && row.provider == "paystack" && row.subID == r.reference
    && row.customerID != "" && row.autoRenews == tx.reusable
    && row.interval == (if tx.plan.code == plans.monthly then "month" else "year")
    && row.periodEnd == Some(base + (if tx.plan.code == plans.monthly then 30 * DAY else 365 * DAY))
    && AccessDeadline(row) == Until(row.periodEnd.value + 3 * DAY)
  }

  lemma PlanOfInterval(plans: PaystackPlans, code: string)
    requires IntervalForPlanCode(plans, code).Some?
    ensures var interval := IntervalForPlanCode(plans, code).value;
            && code in [plans.monthly, plans.annual]
            && interval == (if code == plans.monthly then "month" else "year")
            && BillingPeriod(interval) == (if code == plans.monthly then 30 * DAY else 365 * DAY)
  {
  }

  lemma ActiveUntilThreeDaysLater(row: Row)
    requires row.plan == "pro" && row.status == "active" && !row.cancelAtEnd && row.periodEnd.Some?
    ensures AccessDeadline(row) == Until(row.periodEnd.value + 3 * DAY)
  {
  }

  lemma NamedCustomer(code: string, reference: string)
    ensures (if code == "" then "paystack_" + reference else code) != ""
  {
    assert |"paystack_" + reference| > 0;
  }

  lemma FieldsBought(row: Row, plans: PaystackPlans, r: Redemption, tx: Transaction, base: Instant, interval: string)
    requires IntervalForPlanCode(plans, tx.plan.code) == Some(interval)
    requires row.plan == "pro" && row.provider == "paystack" && row.subID == r.reference && row.status == "active"
    requires row.customerID == (if tx.customerCode == "" then "paystack_" + r.reference else tx.customerCode)
    requires row.autoRenews == tx.reusable && row.interval == interval && !row.cancelAtEnd
    requires row.periodEnd == Some(base + BillingPeriod(interval))
    ensures Bought(row, plans, r, tx, base)
  {
    PlanOfInterval(plans, tx.plan.code);
    NamedCustomer(tx.customerCode, r.reference);
    ActiveUntilThreeDaysLater(row);
  }

  lemma RedeemedRowIsBought(plans: PaystackPlans, current: Row, r: Redemption, now: Instant, id: string,
                            createdAt: Instant)
    requires Screen(plans, r) == Granted
    ensures Bought(RedeemedRow(plans, current, r, now).(id := id, createdAt := createdAt), plans, r, r.checked.value,
                   PeriodBase(current, now))
  {
    var row := RedeemedRow(plans, current, r, now).(id := id, createdAt := createdAt);
    FieldsBought(row, plans, r, r.checked.value, PeriodBase(current, now), Interval(plans, r));
  }

  lemma RedeemWritesItsRow(plans: PaystackPlans, s: State, r: Redemption, e: Env)
    requires RedemptionVerdict(plans, s, r, e) == Granted
    ensures r.user.id in Redeem(plans, s, r, e).subs
    ensures var row := Redeem(plans, s, r, e).subs[r.user.id];
            row == RedeemedRow(plans, ReadSubscription(s.subs, r.user.id, e.now), r, e.now)
                   .(id := row.id, createdAt := row.createdAt)
  {
  }

  // A granted redemption sells that on top of what is left; no other user's row
  // and no other log row changes.
  lemma RedeemingGivesItsInterval(plans: PaystackPlans, s: State, r: Redemption, e: Env)
    requires RedemptionVerdict(plans, s, r, e) == Granted
    ensures var t := Redeem(plans, s, r, e);
            var left := if r.user.id in s.subs then s.subs[r.user.id].periodEnd else None;
            && r.user.id in t.subs
            && Bought(t.subs[r.user.id], plans, r, r.checked.value,
                      if left.Some? && left.value > e.now then left.value else e.now)
    ensures var t := Redeem(plans, s, r, e);
            && (forall u :: u != r.user.id ==>
                (u in t.subs <==> u in s.subs) && (u in s.subs ==> t.subs[u] == s.subs[u]))
            && t.log == s.log[ClaimKey(r.reference) := Claim(r, e.now)]
  {
    var current := ReadSubscription(s.subs, r.user.id, e.now);
    if r.user.id in s.subs {
      ViewOverridesForceFree(s.subs[r.user.id], e.now);
    }
    RedeemWritesItsRow(plans, s, r, e);
    var row := Redeem(plans, s, r, e).subs[r.user.id];
    RedeemedRowIsBought(plans, current, r, e.now, row.id, row.createdAt);
  }

  // A failed charge of a renewal leaves the period alone and turns the three
  // days of grace into seven; it also undoes a scheduled cancellation.
  lemma FailedChargeGivesAWeek(plans: PaystackPlans, s: State, d: Delivery, e: Env, body: PaystackBody, nowSeconds: int)
    requires body.InvoiceUpdate? && DeliveryFate(s, d, e) == Done
    requires PaystackEvent(plans, body, nowSeconds) == Some(d.decoded.event)
    ensures var u := Owner(d.decoded.event, e.found).value;
            var row := Deliver(s, d, e).subs[u];
            && u in Deliver(s, d, e).subs
            && InvoiceFailed(body)
            && row.plan == "pro" && row.status == "past_due" && !row.cancelAtEnd
            && (u in s.subs ==> row.periodEnd == s.subs[u].periodEnd && row.subID == s.subs[u].subID)
            && AccessDeadline(row)
               == (if row.periodEnd.Some? then Until(row.periodEnd.value + 7 * DAY - 1) else Unbounded)
  {
    DoneReflects(s, d, e);
  }

  // Paystack's own notification decides plan and status together: access at
  // some instant needs one of our plan codes and a status that normalises to
  // an entitled one.
  lemma SubscriptionChangeAccess(plans: PaystackPlans, s: State, d: Delivery, e: Env, body: PaystackBody,
                                 nowSeconds: int)
    requires body.SubscriptionChange? && DeliveryFate(s, d, e) == Done
    requires PaystackEvent(plans, body, nowSeconds) == Some(d.decoded.event)
    ensures var u := Owner(d.decoded.event, e.found).value;
            var row := Deliver(s, d, e).subs[u];
            && u in Deliver(s, d, e).subs
            && (row.plan == "pro" <==>
                  && PlanCode(body.plan, NoPlan) in [plans.monthly, plans.annual]
                  && body.status in ["active", "non-renewing", "trialing", "past_due"])
            && (row.plan != "pro" ==> AccessDeadline(row) == Never)
            && (row.cancelAtEnd && row.periodEnd.Some? && row.plan == "pro"
                && body.status in ["active", "non-renewing"] ==>
                  AccessDeadline(row) == Until(row.periodEnd.value))
  {
    DoneReflects(s, d, e);
  }

  // ----- Lemon Squeezy -----

  predicate OursAtLemon(v: Variants, b: LemonBody) {
    Decimal(b.variantID) == v.monthly || Decimal(b.variantID) == v.annual
  }

  // Once Lemon Squeezy reports a subscription expired there is no access,
  // whatever the event is called and whatever else it says.
  lemma ExpiredEndsAccess(v: Variants, b: LemonBody, nowSeconds: int, row: Row, ev: WebhookEvent)
    requires LemonEvent(v, b, nowSeconds) == Some(ev) && b.status == "expired"
    requires Reflects(row, "lemonsqueezy", ev)
    ensures row.plan == "free" && AccessDeadline(row) == Never
  {
  }

  // A cancelled subscription stays readable exactly until ends_at, or until the
  // trial ends when that comes first and was still running.
  lemma CancelledKeepsAccessUntilItEnds(v: Variants, b: LemonBody, nowSeconds: int, row: Row, ev: WebhookEvent)
    requires LemonEvent(v, b, nowSeconds) == Some(ev) && b.status == "cancelled" && b.cancelled
    requires Seconds(b.endsAt) > 0 && OursAtLemon(v, b)
    requires Reflects(row, "lemonsqueezy", ev)
    ensures row.plan == "pro"
    ensures var trial := Seconds(b.trialEndsAt);
            AccessDeadline(row)
            == Until(FromUnix(if trial > nowSeconds && trial > 0 && trial < Seconds(b.endsAt)
                              then trial else Seconds(b.endsAt)))
  {
  }

  // An at-risk subscription keeps access for a week past its period.
  lemma AtRiskKeepsAWeek(v: Variants, b: LemonBody, nowSeconds: int, row: Row, ev: WebhookEvent)
    requires LemonEvent(v, b, nowSeconds) == Some(ev) && b.status in ["past_due", "unpaid", "paused"] && !b.cancelled
    requires Seconds(b.endsAt) <= 0 && Seconds(b.renewsAt) > 0 && OursAtLemon(v, b)
    requires Reflects(row, "lemonsqueezy", ev)
    ensures AccessDeadline(row) == Until(FromUnix(Seconds(b.renewsAt)) + 7 * DAY - 1)
  {
  }

  const LEMON_STATUSES: set<string> := {
    "expired", "past_due", "unpaid", "paused", "on_trial", "active", "cancelled"
  }

  function LemonPeriod(b: LemonBody): int {
    if Seconds(b.endsAt) > 0 then Seconds(b.endsAt) else Seconds(b.renewsAt)
  }

  // The body says all that access depends on.
  predicate LemonComplete(b: LemonBody) {
    && b.status in LEMON_STATUSES
    && (b.status != "expired" ==> LemonPeriod(b) > 0)
    && (b.status == "on_trial" ==> Seconds(b.trialEndsAt) > 0)
  }

  predicate TrialStillRuns(b: LemonBody, nowSeconds: int) {
    || b.status == "on_trial"
    || (b.status == "cancelled" && Seconds(b.trialEndsAt) > 0 && nowSeconds < Seconds(b.trialEndsAt))
  }

  // The deadline that one notification gives, from the notification alone: none
  // for expired, a week past the period for the at-risk statuses, three days for
  // the others; a cancelled one ends with the period, a running trial with the trial.
  function LemonDeadline(b: LemonBody, nowSeconds: int): Deadline {
    var end := FromUnix(LemonPeriod(b));
    if b.status == "expired" then Never
    else
      var graced := Until(if b.status in ["past_due", "unpaid", "paused"] then end + 7 * DAY - 1 else end + 3 * DAY);
      var gated := if b.cancelled then Earlier(graced, Until(end)) else graced;
      if TrialStillRuns(b, nowSeconds) then Earlier(gated, Until(FromUnix(Seconds(b.trialEndsAt)))) else gated
  }

  lemma LemonRowDeadline(v: Variants, b: LemonBody, nowSeconds: int, row: Row, ev: WebhookEvent)
    requires LemonEvent(v, b, nowSeconds) == Some(ev) && LemonComplete(b) && Reflects(row, "lemonsqueezy", ev)
    ensures OursAtLemon(v, b) ==> AccessDeadline(row) == LemonDeadline(b, nowSeconds)
    ensures OursAtLemon(v, b) && b.status != "expired" ==> row.plan == "pro"
    ensures !OursAtLemon(v, b) ==> row.plan == "free"
  {
  }

  // End to end: the notifications of one subscription arrive in any order and
  // any number of times. Whatever its status, the newest one alone decides access
  // at every instant, as long as it gives its dates; and an expired one ends it.
  lemma NewestLemonEventDecides(plans: PaystackPlans, s: State, run: seq<Action>, newest: Action, subject: Subject,
                                v: Variants, b: LemonBody, nowSeconds: int, now: Instant)
    requires subject.provider == "lemonsqueezy"
    requires AllAbout(run, subject) && About(newest, subject) && Newest(s, run, newest, subject)
    requires LemonEvent(v, b, nowSeconds) == Some(Event(newest))
    ensures subject.userID in Run(plans, s, run).subs
    ensures b.status == "expired" ==> MePlan(Run(plans, s, run).subs[subject.userID], now) == "free"
    ensures LemonComplete(b) ==>
              MePlan(Run(plans, s, run).subs[subject.userID], now)
              == if OursAtLemon(v, b) && Open(LemonDeadline(b, nowSeconds), now) then "pro" else "free"
  {
    NewestWins(plans, s, run, newest, subject);
    var row := Run(plans, s, run).subs[subject.userID];
    AccessHasOneDeadline(row, now);
    if LemonComplete(b) {
      LemonRowDeadline(v, b, nowSeconds, row, Event(newest));
    }
    if b.status == "expired" {
      ExpiredEndsAccess(v, b, nowSeconds, row, Event(newest));
    }
  }
}
