/** One payment told twice: by the provider's charge.success and by the user who
    redeems its reference. */
module OnePayment {
  import opened Core
  import opened Records
  import opened Entitlements
  import opened BillingMachine
  import opened RowInvariants
  import opened PaidTime
  import opened Providers

  function PaidAt(body: PaystackBody, nowSeconds: int): int
    requires body.ChargeSuccess?
  {
    if FirstTime(body.paidTimes) == 0 then nowSeconds else FirstTime(body.paidTimes)
  }

  // What the payment bought.
  function LengthBought(plans: PaystackPlans, r: Redemption): int
    requires Screen(plans, r) == Granted
  {
    BillingPeriod(Interval(plans, r))
  }

  // The delivery is the charge.success of the payment behind the reference, which
  // was made at `paidAt` and buys `length`.
  ghost predicate SamePayment(plans: PaystackPlans, d: Delivery, e: Env, body: PaystackBody, nowSeconds: int,
                              r: Redemption, paidAt: Instant, length: int) {
    && body.ChargeSuccess? && nowSeconds > 0 && FirstTime(body.paidTimes) >= 0
    && d.decoded.Parsed? && PaystackEvent(plans, body, nowSeconds) == Some(d.decoded.event)
    && Owner(d.decoded.event, e.found) == Some(r.user.id)
    && Screen(plans, r) == Granted && PlanCode(body.chargePlan, body.planObject) == r.checked.value.plan.code
    && paidAt == FromUnix(PaidAt(body, nowSeconds)) && length == LengthBought(plans, r)
  }

  // Nothing that is applied during a run sets or sells the user a period.
  ghost predicate LeavesPeriod(plans: PaystackPlans, s: State, run: seq<Action>, u: string) {
    forall a :: a in AddedBy(plans, s, run) ==> !Resets(a, u) && !Buys(a, u)
  }

  lemma {:induction false} NothingApplied(p0: Option<Instant>, applied: seq<Applied>, u: string)
    requires forall a :: a in applied ==> !Resets(a, u) && !Buys(a, u)
    ensures StartOf(p0, applied, u) == p0 && Purchases(applied, u) == []
  {
    if applied != [] {
      assert applied[|applied| - 1] in applied;
      NothingApplied(p0, applied[..|applied| - 1], u);
    }
  }

  lemma PeriodStands(plans: PaystackPlans, s: State, run: seq<Action>, u: string)
    requires FiledByUser(s.subs) && LeavesPeriod(plans, s, run, u)
    ensures FiledByUser(Run(plans, s, run).subs)
    ensures PeriodOf(Run(plans, s, run).subs, u) == PeriodOf(s.subs, u)
  {
    KnownFieldsStay(plans, s, run);
    PaidTimeIsConserved(plans, s, run, u);
    NothingApplied(PeriodOf(s.subs, u), AddedBy(plans, s, run), u);
  }

  lemma FromUnixSum(a: int, b: int)
    ensures FromUnix(a + b) == FromUnix(a) + FromUnix(b)
  {
  }

  // The event of a charge for one of our plans.
  lemma ChargeSays(plans: PaystackPlans, body: PaystackBody, nowSeconds: int, interval: string)
    requires body.ChargeSuccess? && nowSeconds > 0 && FirstTime(body.paidTimes) >= 0
    requires IntervalForPlanCode(plans, PlanCode(body.chargePlan, body.planObject)) == Some(interval)
    ensures var event := PaystackEvent(plans, body, nowSeconds);
            event.Some? && event.value.periodEnd == PaidAt(body, nowSeconds) + PeriodSeconds(interval)
    ensures PaidAt(body, nowSeconds) > 0 && PeriodSeconds(interval) > 0
  {
  }

  predicate Carries(d: Delivery, e: Env, u: string, seconds: int) {
    && d.decoded.Parsed? && Owner(d.decoded.event, e.found) == Some(u)
    && d.decoded.event.periodEnd == seconds > 0
  }

  lemma SecondsBought(plans: PaystackPlans, body: PaystackBody, nowSeconds: int, r: Redemption, paidAt: Instant,
                      length: int)
    requires body.ChargeSuccess? && Screen(plans, r) == Granted
    requires paidAt == FromUnix(PaidAt(body, nowSeconds)) && length == LengthBought(plans, r)
    ensures FromUnix(PaidAt(body, nowSeconds) + PeriodSeconds(Interval(plans, r))) == paidAt + length
  {
    FromUnixSum(PaidAt(body, nowSeconds), PeriodSeconds(Interval(plans, r)));
  }

  // The charge carries the period from the instant it was paid.
  lemma ChargeCarries(plans: PaystackPlans, d: Delivery, e: Env, body: PaystackBody, nowSeconds: int, r: Redemption,
                      paidAt: Instant, length: int)
    returns (seconds: int)
    requires SamePayment(plans, d, e, body, nowSeconds, r, paidAt, length)
    ensures Carries(d, e, r.user.id, seconds)
    ensures FromUnix(seconds) == paidAt + length
  {
    seconds := PaidAt(body, nowSeconds) + PeriodSeconds(Interval(plans, r));
    SecondsBought(plans, body, nowSeconds, r, paidAt, length);
    ChargeSays(plans, body, nowSeconds, Interval(plans, r));
  }

  // The user's period ends at `end`.
  predicate EndsAt(t: State, u: string, end: Instant) {
    PeriodOf(t.subs, u) == Some(end)
  }

  lemma EventSets(plans: PaystackPlans, s: State, d: Delivery, e: Env, u: string, seconds: int, paidAt: Instant,
                  length: int)
    requires FiledByUser(s.subs) && DeliveryFate(s, d, e) == Done
    requires Carries(d, e, u, seconds) && FromUnix(seconds) == paidAt + length
    ensures FiledByUser(Deliver(s, d, e).subs) && EndsAt(Deliver(s, d, e), u, paidAt + length)
  {
    StepRetains(plans, s, Webhook(d, e));
    WebhookMoves(plans, s, d, e, u);
  }

  // A period of `length` on top of what is left.
  predicate Extended(end: Option<Instant>, left: Option<Instant>, now: Instant, length: int) {
    end == Some((if left.Some? && left.value > now then left.value else now) + length)
  }

  lemma RedeemingAdds(plans: PaystackPlans, s: State, r: Redemption, f: Env, length: int)
    requires FiledByUser(s.subs) && RedemptionVerdict(plans, s, r, f) == Granted && length == LengthBought(plans, r)
    ensures FiledByUser(Redeem(plans, s, r, f).subs)
    ensures Extended(PeriodOf(Redeem(plans, s, r, f).subs, r.user.id), PeriodOf(s.subs, r.user.id), f.now, length)
  {
    StepRetains(plans, s, Verify(r, f));
    GrantedPeriod(plans, s, r, f, r.user.id);
  }

  lemma ChargeHasNoID(plans: PaystackPlans, body: PaystackBody, nowSeconds: int, ev: WebhookEvent)
    requires body.ChargeSuccess? && PaystackEvent(plans, body, nowSeconds) == Some(ev)
    ensures ev.subscriptionID == ""
  {
  }

  // An event without a subscription id leaves every lookup by such an id alone.
  lemma LookupsStay(s: State, d: Delivery, e: Env, value: string, found: Option<string>)
    requires DeliveryFate(s, d, e) == Done ==> d.decoded.event.subscriptionID == ""
    ensures FindsBySubID(Deliver(s, d, e).subs, value, found) <==> FindsBySubID(s.subs, value, found)
  {
    if DeliveryFate(s, d, e) == Done {
      var u := Owner(d.decoded.event, e.found).value;
      var after := Deliver(s, d, e).subs;
      if u in s.subs {
        ViewOverridesForceFree(s.subs[u], e.now);
      }
      assert u in after && after[u].subID == if u in s.subs then s.subs[u].subID else "";
      assert forall v :: v != u ==> (v in after <==> v in s.subs) && (v in after ==> after[v] == s.subs[v]);
    }
  }

  // The notice of a payment does not stand in the way of redeeming it: its
  // payload is no claim, and whoever held the reference before holds it after.
  lemma ChargeIsNoClaim(plans: PaystackPlans, s: State, d: Delivery, e: Env, body: PaystackBody, nowSeconds: int,
                        r: Redemption, f: Env)
    requires JsonDocument(d.payload) && body.ChargeSuccess? && d.decoded.Parsed?
    requires PaystackEvent(plans, body, nowSeconds) == Some(d.decoded.event)
    ensures RedemptionVerdict(plans, Deliver(s, d, e), r, f) == RedemptionVerdict(plans, s, r, f)
    ensures FindsBySubID(Deliver(s, d, e).subs, r.reference, f.found) <==> FindsBySubID(s.subs, r.reference, f.found)
  {
    ClaimsAreNotPayloads(d.payload, r.reference);
    ChargeHasNoID(plans, body, nowSeconds, d.decoded.event);
    LookupsStay(s, d, e, r.reference, f.found);
  }

  // The end after a charge and a redemption of one payment, and when it is two
  // whole periods after the payment.
  predicate CountedAgain(end: Option<Instant>, paidAt: Instant, length: int, now: Instant) {
    && end == Some((if now < paidAt + length then paidAt + length else now) + length)
    && (end == Some(paidAt + 2 * length) <==> now <= paidAt + length)
  }

  lemma ExtendedFromPaid(end: Option<Instant>, left: Option<Instant>, paidAt: Instant, length: int, now: Instant)
    requires Extended(end, left, now, length) && left == Some(paidAt + length)
    ensures CountedAgain(end, paidAt, length, now)
  {
  }

  // The end before and after a charge that follows the redemption.
  predicate SetBack(before: Option<Instant>, after: Option<Instant>, left: Option<Instant>, paidAt: Instant,
                    length: int, now: Instant) {
    var start := if left.Some? && left.value > now then left.value else now;
    && before == Some(start + length) && after == Some(paidAt + length)
    && (after.value < before.value <==> paidAt < start)
  }

  lemma ExtendedThenSet(before: Option<Instant>, after: Option<Instant>, left: Option<Instant>, paidAt: Instant,
                        length: int, now: Instant)
    requires Extended(before, left, now, length) && after == Some(paidAt + length)
    ensures SetBack(before, after, left, paidAt, length, now)
  {
  }

  lemma ChargeSets(plans: PaystackPlans, s: State, d: Delivery, e: Env, body: PaystackBody, nowSeconds: int,
                   r: Redemption, paidAt: Instant, length: int)
    requires FiledByUser(s.subs) && SamePayment(plans, d, e, body, nowSeconds, r, paidAt, length)
    requires DeliveryFate(s, d, e) == Done
    ensures FiledByUser(Deliver(s, d, e).subs) && EndsAt(Deliver(s, d, e), r.user.id, paidAt + length)
    ensures length == LengthBought(plans, r)
  {
    var seconds := ChargeCarries(plans, d, e, body, nowSeconds, r, paidAt, length);
    EventSets(plans, s, d, e, r.user.id, seconds, paidAt, length);
  }

  // Redeeming some time after a period until `paidAt + length` was stored.
  lemma ChargedThenRedeem(plans: PaystackPlans, charged: State, between: seq<Action>, r: Redemption, f: Env,
                          paidAt: Instant, length: int)
    requires FiledByUser(charged.subs) && EndsAt(charged, r.user.id, paidAt + length)
    requires LeavesPeriod(plans, charged, between, r.user.id)
    requires RedemptionVerdict(plans, Run(plans, charged, between), r, f) == Granted && length == LengthBought(plans, r)
    ensures CountedAgain(PeriodOf(Redeem(plans, Run(plans, charged, between), r, f).subs, r.user.id), paidAt, length,
                         f.now)
  {
    var t := Run(plans, charged, between);
    var end, left := PeriodOf(Redeem(plans, t, r, f).subs, r.user.id), PeriodOf(t.subs, r.user.id);
    PeriodStands(plans, charged, between, r.user.id);
    RedeemingAdds(plans, t, r, f, length);
    ExtendedFromPaid(end, left, paidAt, length, f.now);
  }

  // charge.success applied, and then the same payment redeemed, with anything in
  // between that leaves the user's period alone: the one payment is counted
  // twice exactly when it is redeemed within the period it bought.
  lemma ChargeThenRedeem(plans: PaystackPlans, s: State, d: Delivery, e: Env, body: PaystackBody, nowSeconds: int,
                         between: seq<Action>, r: Redemption, f: Env, paidAt: Instant, length: int)
    requires FiledByUser(s.subs) && SamePayment(plans, d, e, body, nowSeconds, r, paidAt, length)
    requires DeliveryFate(s, d, e) == Done && LeavesPeriod(plans, Deliver(s, d, e), between, r.user.id)
    requires RedemptionVerdict(plans, Run(plans, Deliver(s, d, e), between), r, f) == Granted
    ensures CountedAgain(PeriodOf(Redeem(plans, Run(plans, Deliver(s, d, e), between), r, f).subs, r.user.id),
                         paidAt, length, f.now)
  {
    ChargeSets(plans, s, d, e, body, nowSeconds, r, paidAt, length);
    ChargedThenRedeem(plans, Deliver(s, d, e), between, r, f, paidAt, length);
  }

  // What redeeming leaves for a while, and then a charge.
  lemma RedeemedThenSet(plans: PaystackPlans, s: State, r: Redemption, f: Env, between: seq<Action>, after: State,
                        paidAt: Instant, length: int)
    requires FiledByUser(s.subs) && RedemptionVerdict(plans, s, r, f) == Granted && length == LengthBought(plans, r)
    requires LeavesPeriod(plans, Redeem(plans, s, r, f), between, r.user.id)
    requires EndsAt(after, r.user.id, paidAt + length)
    ensures SetBack(PeriodOf(Run(plans, Redeem(plans, s, r, f), between).subs, r.user.id),
                    PeriodOf(after.subs, r.user.id), PeriodOf(s.subs, r.user.id), paidAt, length, f.now)
  {
    var redeemed := Redeem(plans, s, r, f);
    var t := Run(plans, redeemed, between);
    RedeemingAdds(plans, s, r, f, length);
    PeriodStands(plans, redeemed, between, r.user.id);
    ExtendedThenSet(PeriodOf(t.subs, r.user.id), PeriodOf(after.subs, r.user.id), PeriodOf(s.subs, r.user.id),
                    paidAt, length, f.now);
  }

  // The other way round the charge sets the period anew, whatever redeeming had
  // added to: time is lost exactly when the redeemed period started later than
  // the payment.
  lemma RedeemThenCharge(plans: PaystackPlans, s: State, r: Redemption, f: Env, between: seq<Action>,
                         d: Delivery, e: Env, body: PaystackBody, nowSeconds: int, paidAt: Instant, length: int)
    requires FiledByUser(s.subs) && SamePayment(plans, d, e, body, nowSeconds, r, paidAt, length)
    requires RedemptionVerdict(plans, s, r, f) == Granted
    requires LeavesPeriod(plans, Redeem(plans, s, r, f), between, r.user.id)
    requires DeliveryFate(Run(plans, Redeem(plans, s, r, f), between), d, e) == Done
    ensures var t := Run(plans, Redeem(plans, s, r, f), between);
            SetBack(PeriodOf(t.subs, r.user.id), PeriodOf(Deliver(t, d, e).subs, r.user.id),
                    PeriodOf(s.subs, r.user.id), paidAt, length, f.now)
  {
    var redeemed := Redeem(plans, s, r, f);
    StepRetains(plans, s, Verify(r, f));
    PeriodStands(plans, redeemed, between, r.user.id);
    var t := Run(plans, redeemed, between);
    ChargeSets(plans, t, d, e, body, nowSeconds, r, paidAt, length);
    RedeemedThenSet(plans, s, r, f, between, Deliver(t, d, e), paidAt, length);
  }
}
