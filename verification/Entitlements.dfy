/** When a stored subscription grants access, and until when. */
module Entitlements {
  import opened Core
  import opened Records

  const ACCESS_GRACE: int := 3 * DAY
  const PAST_DUE_GRACE: int := 7 * DAY

  // billing.IsActive
  predicate IsActive(status: string, periodEnd: Option<Instant>, now: Instant) {
    if status == "active" || status == "trialing" then
      !(periodEnd.Some? && now > periodEnd.value + ACCESS_GRACE)
    else if status == "past_due" then
      periodEnd.Some? ==> now < periodEnd.value + PAST_DUE_GRACE
    else
      false
  }

  // billing.IsEntitledStatus
  predicate IsEntitledStatus(status: string) {
    status == "active" || status == "trialing" || status == "past_due"
  }

  // The row GetSubscription answers with when the user has none.
  function NoSubscription(userID: string): Row {
    Row("", userID, "free", "", "", "", "active", None, None, false, true, "usd", "", 0, 0)
  }

  // The read-time expiry overrides of GetSubscription.
  function CancelledView(row: Row, now: Instant): Row {
    if row.cancelAtEnd && row.periodEnd.Some? && now > row.periodEnd.value
    then row.(plan := "free", status := "canceled")
    else row
  }

  function TrialView(row: Row, now: Instant): Row {
    if row.status == "trialing" && row.trialEnd.Some? && now > row.trialEnd.value
    then row.(plan := "free", status := "past_due")
    else row
  }

  function View(row: Row, now: Instant): Row {
    TrialView(CancelledView(row, now), now)
  }

  function ReadSubscription(subs: Subscriptions, userID: string, now: Instant): Row {
    if userID in subs then View(subs[userID], now) else NoSubscription(userID)
  }

  // An override only ever touches plan and status, and it always forces the free plan.
  lemma ViewOverridesForceFree(row: Row, now: Instant)
    ensures View(row, now) == row || View(row, now).plan == "free"
    ensures View(row, now) == row.(plan := View(row, now).plan, status := View(row, now).status)
  {
  }

  // The plan /me reports for a subscription that was read.
  function EffectivePlan(sub: Row, now: Instant): string {
    if IsActive(sub.status, sub.periodEnd, now) then sub.plan else "free"
  }

  // /me on the stored row.
  function MePlan(row: Row, now: Instant): string {
    EffectivePlan(View(row, now), now)
  }

  // What a client concludes from GET /billing/subscription: plan and is_active.
  predicate SubscriptionSaysPro(row: Row, now: Instant) {
    var sub := View(row, now);
    sub.plan == "pro" && IsActive(sub.status, sub.periodEnd, now)
  }

  // ----- The single deadline -----

  // Access has ended already, ends after one last instant, or has no end.
  datatype Deadline = Never | Until(last: Instant) | Unbounded

  predicate Open(d: Deadline, now: Instant) {
    match d
    case Never => false
    case Until(last) => now <= last
    case Unbounded => true
  }

  function Earlier(a: Deadline, b: Deadline): Deadline {
    match (a, b)
    case (Never, _) => Never
    case (_, Never) => Never
    case (Unbounded, _) => b
    case (_, Unbounded) => a
    case (Until(x), Until(y)) => if x <= y then a else b
  }

  function StatusDeadline(row: Row): Deadline {
    if !IsEntitledStatus(row.status) then Never
    else if row.periodEnd.None? then Unbounded
    else if row.status == "past_due" then Until(row.periodEnd.value + PAST_DUE_GRACE - 1)
    else Until(row.periodEnd.value + ACCESS_GRACE)
  }

  function CancelDeadline(row: Row): Deadline {
    if row.cancelAtEnd && row.periodEnd.Some? then Until(row.periodEnd.value) else Unbounded
  }

  function TrialDeadline(row: Row): Deadline {
    if row.status == "trialing" && row.trialEnd.Some? then Until(row.trialEnd.value) else Unbounded
  }

  // The deadline of a stored row, from the row alone.
  function AccessDeadline(row: Row): Deadline {
    if row.plan == "free" then Never
    else Earlier(StatusDeadline(row), Earlier(CancelDeadline(row), TrialDeadline(row)))
  }

  // A row gives its stored paid plan up to the deadline and the free plan after
  // it, at every instant and whatever the plan is called.
  lemma AccessHasOneDeadline(row: Row, now: Instant)
    ensures MePlan(row, now) == if Open(AccessDeadline(row), now) then row.plan else "free"
  {
  }

  // /me says pro exactly when /billing/subscription does, and both say it
  // exactly up to the deadline.
  lemma MeAgreesWithSubscription(row: Row, now: Instant)
    ensures MePlan(row, now) == "pro" <==> SubscriptionSaysPro(row, now)
    ensures SubscriptionSaysPro(row, now) <==> row.plan == "pro" && Open(AccessDeadline(row), now)
  {
    AccessHasOneDeadline(row, now);
  }

  // Without a write, access that was lost never comes back.
  lemma AccessNeverComesBack(row: Row, earlier: Instant, later: Instant)
    requires earlier <= later
    ensures MePlan(row, later) != "free" ==> MePlan(row, earlier) == MePlan(row, later)
  {
    AccessHasOneDeadline(row, earlier);
    AccessHasOneDeadline(row, later);
  }
}
