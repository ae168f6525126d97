/** How each provider's notifications become the events that are applied. */
module Providers {
  import opened Core
  import opened Records
  import opened Entitlements

  // ----- Paystack -----

  datatype PaystackPlans = PaystackPlans(monthly: string, annual: string)

  // A JSON value where a plan is expected: a bare code, an object, or neither.
  datatype PlanJson = NoPlan | PlanText(text: string) | PlanObject(code: string, amount: int)

  datatype PlanInfo = PlanInfo(code: string, amount: int, amountKnown: bool)

  const NO_PLAN_INFO := PlanInfo("", 0, false)

  function PlanCode(plan: PlanJson, planObject: PlanJson): string {
    if plan.PlanText? && TrimSpace(plan.text) != "" then TrimSpace(plan.text)
    else if plan.PlanObject? && plan.code != "" then plan.code
    else if planObject.PlanObject? then planObject.code
    else ""
  }

  // The amount belongs to the code: it comes from an object that names it.
  ghost predicate NamesAmount(source: PlanJson, info: PlanInfo) {
    source == PlanObject(info.code, info.amount)
  }

  // ParsePaystackPlan: `info` is filled in from the two shapes in turn.
  method ParsePlan(plan: PlanJson, planObject: PlanJson) returns (info: PlanInfo, ok: bool)
    ensures info.code == PlanCode(plan, planObject)
    ensures ok <==> info.code != ""
    ensures info.amountKnown ==> info.code != "" && (NamesAmount(plan, info) || NamesAmount(planObject, info))
    ensures !info.amountKnown ==> info.amount == 0
    ensures (exists amount ::
               info.code != ""
               && (plan == PlanObject(info.code, amount) || planObject == PlanObject(info.code, amount)))
            ==> info.amountKnown
  {
    info := NO_PLAN_INFO;
    if plan.PlanText? {
      info := info.(code := TrimSpace(plan.text));
    }
    if info.code == "" && plan.PlanObject? && plan.code != "" {
      info := PlanInfo(plan.code, plan.amount, true);
    }
    if planObject.PlanObject? && !info.amountKnown && planObject.code != "" {
      if info.code == "" {
        info := info.(code := planObject.code);
      }
      if planObject.code == info.code {
        info := info.(amount := planObject.amount, amountKnown := true);
      }
    }
    ok := info.code != "";
  }

  // IntervalForPlanCode: None when the code is not ours.
  function IntervalForPlanCode(plans: PaystackPlans, code: string): Option<string> {
    if code != "" && code == plans.monthly then Some("month")
    else if code != "" && code == plans.annual then Some("year")
    else None
  }

  // PaystackBillingPeriod, in seconds.
  function PeriodSeconds(interval: string): int {
    if interval == "year" then 365 * 24 * 3600 else 30 * 24 * 3600
  }

  function BillingPeriod(interval: string): int {
    FromUnix(PeriodSeconds(interval))
  }

  function NormalisePaystackStatus(s: string): string {
    if s == "active" || s == "non-renewing" then "active"
    else if s == "attention" || s == "cancelled" || s == "completed" then "canceled"
    else s
  }

  function PlanFromCode(plans: PaystackPlans, code: string): string {
    if code == plans.monthly || code == plans.annual then "pro" else "free"
  }

  // A decoded Paystack body. Timestamps are those that parsed, in the order the
  // spellings are tried; metadata users are "" when metadata is not an object.
  datatype PaystackBody =
    | SubscriptionChange(kind: string, code: string, status: string, plan: PlanJson, nextPayment: Option<int>,
                         metadataUser: string, customerUser: string, customerCode: string, times: seq<Option<int>>)
    | ChargeSuccess(chargePlan: PlanJson, planObject: PlanJson, chargeUser: string, payer: string,
                    paidTimes: seq<Option<int>>)
    | InvoiceUpdate(event: string, invoiceStatus: string, paid: Option<bool>, invoicePlan: PlanJson, debtor: string,
                    invoiceTimes: seq<Option<int>>)
    | OtherPaystack

  predicate InvoiceFailed(b: PaystackBody)
    requires b.InvoiceUpdate?
  {
    b.event == "invoice.payment_failed" || b.paid == Some(false) || EqualFold(b.invoiceStatus, "failed")
  }

  // (*PaystackProvider).HandleWebhook after the signature check: None is a body
  // that is recorded but not acted on.
  function PaystackEvent(plans: PaystackPlans, body: PaystackBody, nowSeconds: int): Option<WebhookEvent> {
    match body
    case SubscriptionChange(kind, code, status, plan, next, metadataUser, customerUser, customer, times) =>
      var planCode := PlanCode(plan, NoPlan);
      var interval := IntervalForPlanCode(plans, planCode);
      Some(WebhookEvent(
        FirstNonEmpty([TrimSpace(metadataUser), customerUser]), customer, code,
        PlanFromCode(plans, planCode), NormalisePaystackStatus(status), "ngn",
        if interval.Some? then interval.value else "",
        if next.Some? then next.value else 0, 0,
        kind == "subscription.not_renew" || kind == "subscription.disable",
        FirstTime(times)))
    case ChargeSuccess(plan, planObject, user, payer, times) =>
      var interval := IntervalForPlanCode(plans, PlanCode(plan, planObject));
      if interval.None? then None
      else
        var paidAt := if FirstTime(times) == 0 then nowSeconds else FirstTime(times);
        Some(WebhookEvent(
          TrimSpace(user), payer, "", "pro", "active", "ngn", interval.value,
          paidAt + PeriodSeconds(interval.value), 0, false, paidAt))
    case InvoiceUpdate(_, _, _, plan, debtor, times) =>
      if !InvoiceFailed(body) || IntervalForPlanCode(plans, PlanCode(plan, NoPlan)).None? then None
      else Some(WebhookEvent("", debtor, "", "pro", "past_due", "ngn", "", 0, 0, false, FirstTime(times)))
    case OtherPaystack => None
  }

  datatype CustomerSubscription = CustomerSubscription(code: string, status: string, nextPayment: Option<int>)

  predicate NoneActive(listed: seq<CustomerSubscription>) {
    forall i :: 0 <= i < |listed| ==> listed[i].status != "active"
  }

  // The choice made by LookupCustomerSubscription: the first active one, else
  // the first one listed.
  function Chosen(listed: seq<CustomerSubscription>): CustomerSubscription
    requires listed != []
  {
    if NoneActive(listed) then listed[0] else FirstActive(listed)
  }

  function FirstActive(listed: seq<CustomerSubscription>): (s: CustomerSubscription)
    requires !NoneActive(listed)
    ensures s.status == "active"
    ensures exists i :: 0 <= i < |listed| && listed[i] == s && NoneActive(listed[..i])
  {
    if listed[0].status == "active" then
      assert NoneActive(listed[..0]);
      listed[0]
    else
      var s := FirstActive(listed[1..]);
      assert exists i :: 0 <= i < |listed| && listed[i] == s && NoneActive(listed[..i]) by {
        var i :| 0 <= i < |listed[1..]| && listed[1..][i] == s && NoneActive(listed[1..][..i]);
        assert listed[..i + 1] == [listed[0]] + listed[1..][..i];
        assert listed[i + 1] == s && NoneActive(listed[..i + 1]);
      }
      s
  }

  lemma FirstActiveIs(listed: seq<CustomerSubscription>, i: nat)
    requires i < |listed| && listed[i].status == "active" && NoneActive(listed[..i])
    ensures !NoneActive(listed) && FirstActive(listed) == listed[i]
  {
    if i > 0 {
      assert listed[0] == listed[..i][0];
      assert listed[1..][..i - 1] == listed[..i][1..];
      FirstActiveIs(listed[1..], i - 1);
    }
  }

  method ChooseSubscription(listed: seq<CustomerSubscription>) returns (chosen: CustomerSubscription)
    requires listed != []
    ensures chosen == Chosen(listed)
    ensures chosen in listed
    ensures NoneActive(listed) ==> chosen == listed[0]
    ensures !NoneActive(listed) ==>
              exists i :: 0 <= i < |listed| && chosen == listed[i]
                          && chosen.status == "active" && NoneActive(listed[..i])
  {
    chosen := listed[0];
    var i := 0;
    while i < |listed|
      invariant 0 <= i <= |listed|
      invariant chosen == listed[0]
      invariant NoneActive(listed[..i])
    {
      if listed[i].status == "active" {
        chosen := listed[i];
        FirstActiveIs(listed, i);
        return;
      }
      i := i + 1;
    }
    assert listed[..i] == listed;
  }

  // ----- Lemon Squeezy -----

  datatype Variants = Variants(monthly: string, annual: string)

  // A decoded Lemon Squeezy subscription body; absent dates are None.
  datatype LemonBody = LemonBody(
    eventName: string, userID: string, subID: string, customerID: int, variantID: int,
    status: string, cancelled: bool,
    trialEndsAt: Option<int>, renewsAt: Option<int>, endsAt: Option<int>, updatedAt: Option<int>)

  const LEMON_EVENTS: set<string> := {
    "subscription_created", "subscription_updated", "subscription_cancelled", "subscription_resumed",
    "subscription_expired", "subscription_paused", "subscription_unpaused"
  }

  function Seconds(t: Option<int>): int {
    if t.Some? then t.value else 0
  }

  function NormaliseLemonStatus(status: string, cancelled: bool, trialEnd: int, nowSeconds: int): string {
    if status == "expired" then "canceled"
    else if status == "past_due" || status == "unpaid" || status == "paused" then "past_due"
    else if status == "on_trial" then "trialing"
    else if status == "active" then "active"
    else if status == "cancelled" then (if trialEnd > 0 && nowSeconds < trialEnd then "trialing" else "active")
    else if cancelled then "active"
    else status
  }

  function PlanFromVariant(v: Variants, variantID: int): string {
    if Decimal(variantID) == v.monthly || Decimal(variantID) == v.annual then "pro" else "free"
  }

  function IntervalFromVariant(v: Variants, variantID: int): string {
    if Decimal(variantID) == v.annual then "year" else "month"
  }

  // (*LemonSqueezyProvider).HandleWebhook after the signature check.
  function LemonEvent(v: Variants, b: LemonBody, nowSeconds: int): Option<WebhookEvent> {
    if b.eventName !in LEMON_EVENTS then None
    else
      var periodEnd := if Seconds(b.endsAt) > 0 then Seconds(b.endsAt) else Seconds(b.renewsAt);
      Some(WebhookEvent(
        b.userID, Decimal(b.customerID), b.subID,
        PlanFromVariant(v, b.variantID),
        NormaliseLemonStatus(b.status, b.cancelled, Seconds(b.trialEndsAt), nowSeconds),
        "usd", IntervalFromVariant(v, b.variantID),
        periodEnd, Seconds(b.trialEndsAt), b.cancelled, Seconds(b.updatedAt)))
  }
}
