/** From a provider's body to the rows that its delivery leaves, without the events
    in between: which bodies are acted on, for whom, and what is stored. */
module ProviderNotices {
  import opened Core
  import opened Records
  import opened Entitlements
  import opened Providers
  import opened BillingMachine
  import opened Outcomes

  // ----- Plans -----

  function Text(plan: PlanJson): string {
    if plan.PlanText? then TrimSpace(plan.text) else ""
  }

  function Code(plan: PlanJson): string {
    if plan.PlanObject? then plan.code else ""
  }

  // The plan's code is the bare text, else the code of the one object, else that
  // of the other.
  lemma PlanCodeIsTheFirst(plan: PlanJson, planObject: PlanJson)
    ensures PlanCode(plan, planObject)
         == if Text(plan) != "" then Text(plan) else if Code(plan) != "" then Code(plan) else Code(planObject)
  {
  }

  predicate Ours(plans: PaystackPlans, code: string) {
    code != "" && (code == plans.monthly || code == plans.annual)
  }

  // ----- Paystack -----

  // A failed charge, by the event's name or by what the invoice says.
  predicate SaysFailed(body: PaystackBody)
    requires body.InvoiceUpdate?
  {
    body.event == "invoice.payment_failed" || body.paid == Some(false) || SameButCase(body.invoiceStatus, "failed")
  }

  // The notices about a subscription are all acted on; a charge and a failed
  // charge only when they are for one of our plans; nothing else is.
  lemma PaystackActsOnExactlyWhen(plans: PaystackPlans, body: PaystackBody, nowSeconds: int)
    ensures PaystackEvent(plans, body, nowSeconds).Some? <==>
            || body.SubscriptionChange?
            || (body.ChargeSuccess? && Ours(plans, PlanCode(body.chargePlan, body.planObject)))
            || (body.InvoiceUpdate? && SaysFailed(body) && Ours(plans, PlanCode(body.invoicePlan, NoPlan)))
  {
    if body.InvoiceUpdate? {
      EqualFoldIs(body.invoiceStatus, "failed");
    }
  }

  // ----- The order of notices -----

  // The first of several spellings that holds a time; nought when none does.
  predicate FirstOf(times: seq<Option<int>>, t: int) {
    || (t == 0 && forall i :: 0 <= i < |times| ==> times[i] == None)
    || (exists i :: 0 <= i < |times| && times[i] == Some(t) && forall j :: 0 <= j < i ==> times[j] == None)
  }

  lemma {:induction false} FirstTimeIs(times: seq<Option<int>>)
    ensures FirstOf(times, FirstTime(times))
    decreases |times|
  {
    if times != [] && times[0] == None {
      var rest := times[1..];
      FirstTimeIs(rest);
      if i :| 0 <= i < |rest| && rest[i] == Some(FirstTime(rest)) && forall j :: 0 <= j < i ==> rest[j] == None {
        assert times[i + 1] == Some(FirstTime(rest));
        assert forall j :: 0 < j < i + 1 ==> times[j] == rest[j - 1];
      } else {
        assert forall i :: 0 < i < |times| ==> times[i] == rest[i - 1];
      }
    }
  }

  // What a recorded notice is ordered by: its object, and its time by the
  // provider's clock.
  predicate OrderedBy(row: LogRow, objectID: string, at: int) {
    row.objectID == objectID && row.eventAt == if at > 0 then Some(at * 1_000_000_000) else None
  }

  lemma RecordedNotice(s: State, d: Delivery, e: Env, ev: WebhookEvent)
    requires IsNewEvent(s, d, e) && d.decoded == Parsed(ev)
    ensures d.payload in Deliver(s, d, e).log
    ensures OrderedBy(Deliver(s, d, e).log[d.payload],
                      if ev.subscriptionID != "" then ev.subscriptionID else ev.customerID, ev.eventAt)
  {
  }

  // Paystack's notices about a subscription are ordered by the first time they
  // carry, among those of their subscription; a charge by the instant it was paid,
  // or else received, and a failed charge by the first time it carries, both among
  // those of their customer.
  lemma PaystackNoticesAreOrderedBy(plans: PaystackPlans, s: State, d: Delivery, e: Env, body: PaystackBody,
                                    nowSeconds: int)
    requires PaystackEvent(plans, body, nowSeconds).Some? && IsNewEvent(s, d, e)
    requires d.decoded == Parsed(PaystackEvent(plans, body, nowSeconds).value)
    ensures d.payload in Deliver(s, d, e).log
    ensures body.SubscriptionChange? ==>
              exists at :: FirstOf(body.times, at)
                && OrderedBy(Deliver(s, d, e).log[d.payload],
                             if body.code != "" then body.code else body.customerCode, at)
    ensures body.ChargeSuccess? ==>
              exists at :: FirstOf(body.paidTimes, at)
                && OrderedBy(Deliver(s, d, e).log[d.payload], body.payer, if at == 0 then nowSeconds else at)
    ensures body.InvoiceUpdate? ==>
              exists at :: FirstOf(body.invoiceTimes, at)
                && OrderedBy(Deliver(s, d, e).log[d.payload], body.debtor, at)
  {
    RecordedNotice(s, d, e, PaystackEvent(plans, body, nowSeconds).value);
    match body
    case SubscriptionChange(_, _, _, _, _, _, _, _, times) => FirstTimeIs(times);
    case ChargeSuccess(_, _, _, _, times) => FirstTimeIs(times);
    case InvoiceUpdate(_, _, _, _, _, times) => FirstTimeIs(times);
    case OtherPaystack =>
  }

  // Lemon Squeezy's are ordered by when the subscription was updated.
  lemma LemonNoticesAreOrderedBy(s: State, d: Delivery, e: Env, v: Variants, b: LemonBody, nowSeconds: int)
    requires LemonEvent(v, b, nowSeconds).Some? && IsNewEvent(s, d, e)
    requires d.decoded == Parsed(LemonEvent(v, b, nowSeconds).value)
    ensures d.payload in Deliver(s, d, e).log
    ensures OrderedBy(Deliver(s, d, e).log[d.payload], if b.subID != "" then b.subID else Decimal(b.customerID),
                      if b.updatedAt.Some? then b.updatedAt.value else 0)
  {
    RecordedNotice(s, d, e, LemonEvent(v, b, nowSeconds).value);
  }

  // ----- What is stored -----

  // A delivery that is applied, and the user it is applied to.
  ghost predicate Applies(plans: PaystackPlans, s: State, d: Delivery, e: Env, ev: WebhookEvent, u: string) {
    && Enabled(plans, s, Webhook(d, e)) && DeliveryFate(s, d, e) == Done
    && d.decoded == Parsed(ev) && Owner(ev, e.found) == Some(u)
  }

  // The row that is stored for the user then.
  ghost function RowStored(s: State, d: Delivery, e: Env, u: string): Row {
    if u in Deliver(s, d, e).subs then Deliver(s, d, e).subs[u] else NoSubscription(u)
  }

  lemma StoresTheRow(plans: PaystackPlans, s: State, d: Delivery, e: Env, ev: WebhookEvent, u: string)
    requires Applies(plans, s, d, e, ev, u)
    ensures u in Deliver(s, d, e).subs
    ensures RowStored(s, d, e, u) == RowAfterEvent(Stored(s.subs, u), ev, d.provider, u, e)
    ensures Belongs(s.subs, ev, u)
  {
    AppliedEventWrites(plans, s, d, e);
  }

  // Paystack's words for the status of a subscription, and ours.
  predicate StatusReadsAs(word: string, status: string) {
    if word == "active" || word == "non-renewing" then status == "active"
    else if word == "attention" || word == "cancelled" || word == "completed" then status == "canceled"
    else status == word
  }

  // The user a subscription notice names: in the metadata of the transaction,
  // else in those of the customer.
  function Named(body: PaystackBody): string
    requires body.SubscriptionChange?
  {
    if TrimSpace(body.metadataUser) != "" then TrimSpace(body.metadataUser) else body.customerUser
  }

  // What a subscription notice stores.
  predicate NoticeRow(plans: PaystackPlans, row: Row, body: PaystackBody)
    requires body.SubscriptionChange?
  {
    var code := PlanCode(body.plan, NoPlan);
    && row.customerID == body.customerCode && (body.code != "" ==> row.subID == body.code)
    && StatusReadsAs(body.status, row.status) && row.currency == "ngn"
    && row.interval == (if !Ours(plans, code) then "" else if code == plans.monthly then "month" else "year")
    && (row.plan == "pro" <==>
          (code == plans.monthly || code == plans.annual)
          && (row.status == "active" || row.status == "trialing" || row.status == "past_due"))
    && (row.plan != "pro" ==> row.plan == "free")
    && (row.cancelAtEnd <==> body.kind == "subscription.not_renew" || body.kind == "subscription.disable")
    && (body.nextPayment.Some? && body.nextPayment.value > 0 ==>
          row.periodEnd == Some(body.nextPayment.value * 1_000_000_000))
  }

  lemma NoticeEventRow(plans: PaystackPlans, body: PaystackBody, nowSeconds: int, stored: Option<Row>,
                       provider: string, u: string, e: Env)
    requires body.SubscriptionChange? && PaystackEvent(plans, body, nowSeconds).Some?
    ensures NoticeRow(plans, RowAfterEvent(stored, PaystackEvent(plans, body, nowSeconds).value, provider, u, e), body)
  {
  }

  lemma FirstOfTwo(a: string, b: string)
    ensures FirstNonEmpty([a, b]) == if a != "" then a else b
  {
    assert [b][1..] == [] && FirstNonEmpty([b]) == b;
    assert [a, b][1..] == [b];
  }

  lemma NoticeNames(plans: PaystackPlans, body: PaystackBody, nowSeconds: int)
    requires body.SubscriptionChange?
    ensures PaystackEvent(plans, body, nowSeconds).Some?
    ensures PaystackEvent(plans, body, nowSeconds).value.userID == Named(body)
  {
    FirstOfTwo(TrimSpace(body.metadataUser), body.customerUser);
  }

  // A subscription notice that is applied: its row, column by column. Only the
  // notices that it will not renew, or is disabled, schedule a cancellation.
  lemma SubscriptionNoticeStores(plans: PaystackPlans, s: State, d: Delivery, e: Env, body: PaystackBody,
                                 nowSeconds: int, u: string)
    requires body.SubscriptionChange?
    requires PaystackEvent(plans, body, nowSeconds).Some?
    requires Applies(plans, s, d, e, PaystackEvent(plans, body, nowSeconds).value, u)
    ensures NoticeRow(plans, RowStored(s, d, e, u), body) && RowStored(s, d, e, u).provider == d.provider
    ensures Named(body) != "" ==> u == Named(body)
  {
    var ev := PaystackEvent(plans, body, nowSeconds).value;
    StoresTheRow(plans, s, d, e, ev, u);
    NoticeEventRow(plans, body, nowSeconds, Stored(s.subs, u), d.provider, u, e);
    NoticeNames(plans, body, nowSeconds);
  }

  // When a charge was paid: the first of its times, else now.
  function PaidAt(body: PaystackBody, nowSeconds: int): int
    requires body.ChargeSuccess?
  {
    if FirstTime(body.paidTimes) == 0 then nowSeconds else FirstTime(body.paidTimes)
  }

  // A charge that is applied stores an active plan for the interval that was
  // paid, and no scheduled cancellation.
  predicate ChargeRow(plans: PaystackPlans, row: Row, body: PaystackBody, nowSeconds: int)
    requires body.ChargeSuccess?
  {
    var monthly := PlanCode(body.chargePlan, body.planObject) == plans.monthly;
    && row.customerID == body.payer && row.plan == "pro" && row.status == "active" && row.currency == "ngn"
    && !row.cancelAtEnd && row.interval == (if monthly then "month" else "year")
    && (PaidAt(body, nowSeconds) > 0 ==>
          row.periodEnd == Some((PaidAt(body, nowSeconds) + (if monthly then 30 else 365) * 24 * 3600) * 1_000_000_000))
  }

  lemma ChargeEventRow(plans: PaystackPlans, body: PaystackBody, nowSeconds: int, stored: Option<Row>,
                       provider: string, u: string, e: Env)
    requires body.ChargeSuccess? && PaystackEvent(plans, body, nowSeconds).Some?
    ensures ChargeRow(plans, RowAfterEvent(stored, PaystackEvent(plans, body, nowSeconds).value, provider, u, e), body,
                      nowSeconds)
    ensures var row := RowAfterEvent(stored, PaystackEvent(plans, body, nowSeconds).value, provider, u, e);
            row.subID == (if stored.Some? then stored.value.subID else "")
            && row.trialEnd == (if stored.Some? then stored.value.trialEnd else None)
  {
  }

  lemma ChargeStores(plans: PaystackPlans, s: State, d: Delivery, e: Env, body: PaystackBody, nowSeconds: int,
                     u: string)
    requires body.ChargeSuccess? && PaystackEvent(plans, body, nowSeconds).Some?
    requires Applies(plans, s, d, e, PaystackEvent(plans, body, nowSeconds).value, u)
    ensures ChargeRow(plans, RowStored(s, d, e, u), body, nowSeconds)
    ensures TrimSpace(body.chargeUser) != "" ==> u == TrimSpace(body.chargeUser)
    ensures u in s.subs ==> RowStored(s, d, e, u).subID == s.subs[u].subID
  {
    StoresTheRow(plans, s, d, e, PaystackEvent(plans, body, nowSeconds).value, u);
    ChargeEventRow(plans, body, nowSeconds, Stored(s.subs, u), d.provider, u, e);
  }

  // A failed charge that is applied leaves the period and everything else it does
  // not speak of, and marks the plan as past due.
  lemma FailedChargeStores(plans: PaystackPlans, s: State, d: Delivery, e: Env, body: PaystackBody, nowSeconds: int,
                           u: string)
    requires body.InvoiceUpdate? && PaystackEvent(plans, body, nowSeconds).Some?
    requires Applies(plans, s, d, e, PaystackEvent(plans, body, nowSeconds).value, u)
    ensures var row := RowStored(s, d, e, u);
            && row.customerID == body.debtor && row.plan == "pro" && row.status == "past_due" && row.currency == "ngn"
            && !row.cancelAtEnd && row.interval == ""
            && (u in s.subs ==>
                  && row.periodEnd == s.subs[u].periodEnd && row.trialEnd == s.subs[u].trialEnd
                  && row.subID == s.subs[u].subID && row.autoRenews == s.subs[u].autoRenews)
  {
    StoresTheRow(plans, s, d, e, PaystackEvent(plans, body, nowSeconds).value, u);
  }

  // ----- Lemon Squeezy -----

  // Seven notices are about a subscription; no other is acted on.
  lemma LemonActsOnExactlyWhen(v: Variants, b: LemonBody, nowSeconds: int)
    ensures LemonEvent(v, b, nowSeconds).Some? <==>
            b.eventName in ["subscription_created", "subscription_updated", "subscription_cancelled",
                            "subscription_resumed", "subscription_expired", "subscription_paused",
                            "subscription_unpaused"]
  {
  }

  // Lemon Squeezy's words for a status, and ours: a cancelled trial that still
  // runs is a trial, and a word that is not known is active when it is cancelled.
  predicate LemonReadsAs(b: LemonBody, nowSeconds: int, status: string) {
    if b.status == "expired" then status == "canceled"
    else if b.status in ["past_due", "unpaid", "paused"] then status == "past_due"
    else if b.status == "on_trial" then status == "trialing"
    else if b.status == "cancelled" && b.trialEndsAt.Some? && b.trialEndsAt.value > 0
            && nowSeconds < b.trialEndsAt.value then status == "trialing"
    else if b.status == "active" || b.status == "cancelled" || b.cancelled then status == "active"
    else status == b.status
  }

  predicate Positive(t: Option<int>) {
    t.Some? && t.value > 0
  }

  // What a notice stores: the end of the subscription when it has one, else the
  // next renewal.
  predicate LemonRow(v: Variants, row: Row, b: LemonBody, nowSeconds: int) {
    && row.customerID == Decimal(b.customerID) && (b.subID != "" ==> row.subID == b.subID)
    && LemonReadsAs(b, nowSeconds, row.status) && row.currency == "usd" && row.cancelAtEnd == b.cancelled
    && row.interval == (if Decimal(b.variantID) == v.annual then "year" else "month")
    && (row.plan == "pro" <==>
          Decimal(b.variantID) in [v.monthly, v.annual] && row.status in ["active", "trialing", "past_due"])
    && (row.plan != "pro" ==> row.plan == "free")
    && (Positive(b.endsAt) ==> row.periodEnd == Some(b.endsAt.value * 1_000_000_000))
    && (!Positive(b.endsAt) && Positive(b.renewsAt) ==> row.periodEnd == Some(b.renewsAt.value * 1_000_000_000))
    && (Positive(b.trialEndsAt) ==> row.trialEnd == Some(b.trialEndsAt.value * 1_000_000_000))
  }

  lemma LemonEventRow(v: Variants, b: LemonBody, nowSeconds: int, stored: Option<Row>, provider: string, u: string,
                      e: Env)
    requires LemonEvent(v, b, nowSeconds).Some?
    ensures LemonRow(v, RowAfterEvent(stored, LemonEvent(v, b, nowSeconds).value, provider, u, e), b, nowSeconds)
  {
  }

  // A Lemon Squeezy notice that is applied: its row, column by column.
  lemma LemonNoticeStores(plans: PaystackPlans, s: State, d: Delivery, e: Env, v: Variants, b: LemonBody,
                          nowSeconds: int, u: string)
    requires LemonEvent(v, b, nowSeconds).Some?
    requires Applies(plans, s, d, e, LemonEvent(v, b, nowSeconds).value, u)
    ensures LemonRow(v, RowStored(s, d, e, u), b, nowSeconds) && RowStored(s, d, e, u).provider == d.provider
    ensures b.userID != "" ==> u == b.userID
  {
    StoresTheRow(plans, s, d, e, LemonEvent(v, b, nowSeconds).value, u);
    LemonEventRow(v, b, nowSeconds, Stored(s.subs, u), d.provider, u, e);
  }
}
