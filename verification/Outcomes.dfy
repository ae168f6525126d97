/** What a caller can expect of the three online operations, told from the request
    and the two tables: when each answer is given, and what is written then. */
module Outcomes {
  import opened Core
  import opened Records
  import opened Entitlements
  import opened BillingMachine
  import Providers

  // ----- Webhooks -----

  // Somebody can be found that the event belongs to.
  predicate HasOwner(subs: Subscriptions, ev: WebhookEvent) {
    || ev.userID != ""
    || (ev.subscriptionID != "" && exists u :: u in subs && subs[u].subID == ev.subscriptionID)
    || (ev.customerID != "" && exists u :: u in subs && subs[u].customerID == ev.customerID)
  }

  // A body that decodes to an event, is new, and is recorded.
  predicate IsNewEvent(s: State, d: Delivery, e: Env) {
    d.decoded.Parsed? && e.recordOk && d.payload !in s.log
  }

  lemma ResolvedMeansOwner(subs: Subscriptions, ev: WebhookEvent, found: Option<string>)
    requires ev.userID == "" && Resolves(subs, ev, found)
    ensures found.Some? <==> HasOwner(subs, ev)
  {
  }

  lemma CheckedAgainstTheLogBefore(s: State, d: Delivery, e: Env)
    requires IsNewEvent(s, d, e)
    ensures IsStale(s.log[d.payload := Recorded(d, e.now)], d.provider, d.decoded.event)
       <==> IsStale(s.log, d.provider, d.decoded.event)
  {
    LatestAfterRecording(s.log, d.payload, Recorded(d, e.now), d.provider, ObjectID(d.decoded.event));
  }

  // A forged or unreadable body is refused; a record that fails and an event that
  // nobody owns or whose write fails ask for a retry; anything else is received.
  lemma AnswersExactlyWhen(plans: Providers.PaystackPlans, s: State, d: Delivery, e: Env)
    requires Enabled(plans, s, Webhook(d, e))
    ensures var reply := ReplyTo(DeliveryFate(s, d, e));
            && (reply == BadRequest <==> d.decoded == Rejected)
            && (reply == StorageError <==> d.decoded != Rejected && !e.recordOk)
            && (reply == ProcessingFailed <==>
                  && IsNewEvent(s, d, e) && !IsStale(s.log, d.provider, d.decoded.event)
                  && (!HasOwner(s.subs, d.decoded.event) || !e.upsertOk))
            && (reply == Received <==>
                  && d.decoded != Rejected && e.recordOk
                  && (|| d.payload in s.log || d.decoded == Ignored
                      || IsStale(s.log, d.provider, d.decoded.event)
                      || (HasOwner(s.subs, d.decoded.event) && e.upsertOk)))
  {
    if IsNewEvent(s, d, e) {
      CheckedAgainstTheLogBefore(s, d, e);
      if DeliveryFate(s, d, e) in {Failed, Done} && d.decoded.event.userID == "" {
        ResolvedMeansOwner(s.subs, d.decoded.event, e.found);
      }
    }
  }

  // The user an event without a name belongs to: whoever has its subscription,
  // and only if nobody does, whoever has its customer.
  predicate Belongs(subs: Subscriptions, ev: WebhookEvent, u: string) {
    if ev.userID != "" then u == ev.userID
    else if ev.subscriptionID != "" && exists v :: v in subs && subs[v].subID == ev.subscriptionID
    then u in subs && subs[u].subID == ev.subscriptionID
    else ev.customerID != "" && u in subs && subs[u].customerID == ev.customerID
  }

  // The row an event leaves, column by column; `stored` is what was there.
  function RowAfterEvent(stored: Option<Row>, ev: WebhookEvent, provider: string, u: string, e: Env): Row {
    Row(if stored.Some? then stored.value.id else e.newID,
        u,
        if ev.status == "active" || ev.status == "trialing" || ev.status == "past_due" then ev.plan else "free",
        provider,
        ev.customerID,
        if ev.subscriptionID != "" then ev.subscriptionID else if stored.Some? then stored.value.subID else "",
        ev.status,
        if ev.periodEnd > 0 then Some(ev.periodEnd * 1_000_000_000)
        else if stored.Some? then stored.value.periodEnd else None,
        if ev.trialEnd > 0 then Some(ev.trialEnd * 1_000_000_000)
        else if stored.Some? then stored.value.trialEnd else None,
        ev.cancelAtEnd,
        if stored.Some? then stored.value.autoRenews else true,
        ev.currency,
        ev.interval,
        if stored.Some? then stored.value.createdAt else e.now,
        e.now)
  }

  function Stored(subs: Subscriptions, u: string): Option<Row> {
    if u in subs then Some(subs[u]) else None
  }

  // The row recorded for an event.
  function RowOfEvent(d: Delivery, ev: WebhookEvent, now: Instant, processed: bool): LogRow {
    LogRow(ev.userID, d.provider, if ev.subscriptionID != "" then ev.subscriptionID else ev.customerID,
           if ev.eventAt > 0 then Some(ev.eventAt * 1_000_000_000) else None, now, processed)
  }

  lemma OwnerBelongs(plans: Providers.PaystackPlans, s: State, d: Delivery, e: Env)
    requires Enabled(plans, s, Webhook(d, e)) && DeliveryFate(s, d, e) == Done
    ensures Belongs(s.subs, d.decoded.event, Owner(d.decoded.event, e.found).value)
  {
  }

  lemma EventRowIs(subs: Subscriptions, ev: WebhookEvent, provider: string, u: string, e: Env)
    ensures RowAfterEvent(Stored(subs, u), ev, provider, u, e)
         == EventRow(ReadSubscription(subs, u, e.now), ev, provider, u, e.now)
            .(id := if u in subs then subs[u].id else e.newID,
              createdAt := if u in subs then subs[u].createdAt else e.now)
  {
    if u in subs {
      ViewOverridesForceFree(subs[u], e.now);
    }
  }

  lemma AppliedEventLogs(s: State, d: Delivery, e: Env)
    requires DeliveryFate(s, d, e) == Done
    ensures Deliver(s, d, e).log == s.log[d.payload := RowOfEvent(d, d.decoded.event, e.now, e.markOk)]
  {
  }

  // An event that is applied writes exactly one row of each table, and these are
  // their columns.
  lemma AppliedEventWrites(plans: Providers.PaystackPlans, s: State, d: Delivery, e: Env)
    requires Enabled(plans, s, Webhook(d, e)) && DeliveryFate(s, d, e) == Done
    ensures var ev := d.decoded.event;
            var u := Owner(ev, e.found).value;
            && Belongs(s.subs, ev, u)
            && Deliver(s, d, e).subs == s.subs[u := RowAfterEvent(Stored(s.subs, u), ev, d.provider, u, e)]
            && Deliver(s, d, e).log == s.log[d.payload := RowOfEvent(d, ev, e.now, e.markOk)]
  {
    OwnerBelongs(plans, s, d, e);
    AppliedEventLogs(s, d, e);
    var u := Owner(d.decoded.event, e.found).value;
    EventRowIs(s.subs, d.decoded.event, d.provider, u, e);
    Upserted(s.subs, EventRow(ReadSubscription(s.subs, u, e.now), d.decoded.event, d.provider, u, e.now), e.newID);
  }

  // Any other delivery leaves the subscriptions alone, and the log too unless its
  // body was new and was recorded: then it stays there unprocessed.
  lemma OtherDeliveriesOnlyRecord(s: State, d: Delivery, e: Env)
    requires DeliveryFate(s, d, e) != Done
    ensures Deliver(s, d, e).subs == s.subs
    ensures Deliver(s, d, e).log
         == if d.decoded == Rejected || !e.recordOk || d.payload in s.log then s.log
            else if d.decoded.Parsed? then s.log[d.payload := RowOfEvent(d, d.decoded.event, e.now, false)]
            else s.log[d.payload := LogRow("", d.provider, "", None, e.now, false)]
  {
  }

  // ----- Redeeming a payment -----

  // Equal but for the case of ASCII letters.
  predicate SameButCase(a: string, b: string) {
    |a| == |b| && forall i :: 0 <= i < |a| ==> a[i] == b[i] || OtherCase(a[i], b[i]) || OtherCase(b[i], a[i])
  }

  predicate OtherCase(upper: char, lower: char) {
    'A' <= upper <= 'Z' && lower as int == upper as int + 32
  }

  lemma FoldedLetters(a: char, b: char)
    ensures LowerChar(a) == LowerChar(b) <==> a == b || OtherCase(a, b) || OtherCase(b, a)
  {
  }

  lemma EqualFoldIs(a: string, b: string)
    ensures EqualFold(a, b) <==> SameButCase(a, b)
  {
    forall i | 0 <= i < |a| && i < |b|
      ensures LowerChar(a[i]) == LowerChar(b[i]) <==> a[i] == b[i] || OtherCase(a[i], b[i]) || OtherCase(b[i], a[i])
    {
      FoldedLetters(a[i], b[i]);
    }
  }

  // The currency, in either case.
  predicate IsNaira(currency: string) {
    |currency| == 3 && currency[0] in "Nn" && currency[1] in "Gg" && currency[2] in "Nn"
  }

  lemma NairaIs(currency: string)
    ensures EqualFold(currency, "NGN") <==> IsNaira(currency)
  {
    EqualFoldIs(currency, "NGN");
  }

  // No row of anybody else holds the reference.
  predicate NobodyElses(subs: Subscriptions, reference: string, userID: string) {
    forall u :: u in subs && subs[u].subID == reference ==> u == userID
  }

  // The questions asked about a redemption, in order. The payment must verify, be
  // in naira, be for one of our plans and of its amount, and be the caller's own;
  // nobody else may hold the reference (or the row that was looked at is the
  // caller's); and nobody may have claimed it.
  ghost predicate Question(plans: Providers.PaystackPlans, s: State, r: Redemption, e: Env, k: nat) {
    var tx := if r.checked.Some? then r.checked.value else Transaction(0, "", "", "", false, Providers.NO_PLAN_INFO);
    if k == 0 then r.reference != ""
    else if k == 1 then r.checked.Some?
    else if k == 2 then IsNaira(tx.currency)
    else if k == 3 then tx.plan.code != "" && (tx.plan.code == plans.monthly || tx.plan.code == plans.annual)
    else if k == 4 then tx.plan.amountKnown ==> tx.amount == tx.plan.amount
    else if k == 5 then SameButCase(TrimSpace(tx.email), TrimSpace(r.user.email))
    else if k == 6 then NobodyElses(s.subs, r.reference, r.user.id) || e.found == Some(r.user.id)
    else if k == 7 then e.recordOk
    else if k == 8 then "paystack-verify:" + r.reference !in s.log
    else e.upsertOk
  }

  // The answer when that question is the first to be answered with no.
  function Refusal(k: nat): Verdict {
    if k == 0 then ReferenceRequired
    else if k == 1 then CouldNotVerify
    else if k == 2 then UnsupportedCurrency
    else if k == 3 then NotOurPlan
    else if k == 4 then AmountMismatch
    else if k == 5 then AnotherAccountsPayment
    else if k == 6 then RedeemedByAnother
    else if k == 7 then ClaimFailed
    else if k == 8 then AlreadyApplied
    else WriteFailed
  }

  // The first k questions are answered with yes.
  ghost predicate Passes(plans: Providers.PaystackPlans, s: State, r: Redemption, e: Env, k: nat) {
    k == 0 || (Passes(plans, s, r, e, k - 1) && Question(plans, s, r, e, k - 1))
  }

  lemma {:induction false} PassesMeansAll(plans: Providers.PaystackPlans, s: State, r: Redemption, e: Env, k: nat)
    ensures Passes(plans, s, r, e, k) <==> forall i :: 0 <= i < k ==> Question(plans, s, r, e, i)
  {
    if k > 0 {
      PassesMeansAll(plans, s, r, e, k - 1);
    }
  }

  // Question n is the first to be answered with no, or n is ten.
  ghost predicate FirstNo(plans: Providers.PaystackPlans, s: State, r: Redemption, e: Env, n: nat) {
    n <= 10 && Passes(plans, s, r, e, n) && (n < 10 ==> !Question(plans, s, r, e, n))
  }

  // The questions that are asked before any table is looked at.
  lemma ScreenAsks(plans: Providers.PaystackPlans, s: State, r: Redemption, e: Env, n: nat)
    requires FirstNo(plans, s, r, e, n)
    ensures Screen(plans, r) == if n < 6 then Refusal(n) else Granted
  {
    PassesMeansAll(plans, s, r, e, n);
    assert n > 0 ==> Question(plans, s, r, e, 0);
    assert n > 1 ==> Question(plans, s, r, e, 1);
    assert n > 2 ==> Question(plans, s, r, e, 2);
    assert n > 3 ==> Question(plans, s, r, e, 3);
    assert n > 4 ==> Question(plans, s, r, e, 4);
    assert n > 5 ==> Question(plans, s, r, e, 5);
    if r.checked.Some? {
      NairaIs(r.checked.value.currency);
      EqualFoldIs(TrimSpace(r.checked.value.email), TrimSpace(r.user.email));
    }
  }

  lemma HolderIs(plans: Providers.PaystackPlans, s: State, r: Redemption, e: Env)
    requires r.reference != "" && FindsBySubID(s.subs, r.reference, e.found)
    ensures e.found.Some? && e.found.value != r.user.id <==> !Question(plans, s, r, e, 6)
  {
    if e.found.Some? && e.found.value != r.user.id {
      assert !NobodyElses(s.subs, r.reference, r.user.id);
    }
  }

  lemma ClaimIs(plans: Providers.PaystackPlans, s: State, r: Redemption, e: Env)
    ensures Question(plans, s, r, e, 8) <==> ClaimKey(r.reference) !in s.log
  {
  }

  // And those that are asked of the tables.
  lemma VerdictAsks(plans: Providers.PaystackPlans, s: State, r: Redemption, e: Env, n: nat)
    requires Enabled(plans, s, Verify(r, e)) && FirstNo(plans, s, r, e, n)
    ensures RedemptionVerdict(plans, s, r, e) == if n < 10 then Refusal(n) else Granted
  {
    ScreenAsks(plans, s, r, e, n);
    if n >= 6 {
      PassesMeansAll(plans, s, r, e, n);
      assert Question(plans, s, r, e, 0);
      HolderIs(plans, s, r, e);
      ClaimIs(plans, s, r, e);
      assert n > 6 ==> Question(plans, s, r, e, 6);
      assert n > 7 ==> Question(plans, s, r, e, 7);
      assert n > 8 ==> Question(plans, s, r, e, 8);
      assert n > 9 ==> Question(plans, s, r, e, 9);
    }
  }

  lemma FindFirstNo(plans: Providers.PaystackPlans, s: State, r: Redemption, e: Env) returns (n: nat)
    ensures FirstNo(plans, s, r, e, n)
  {
    n := 0;
    while n < 10 && Question(plans, s, r, e, n)
      invariant n <= 10 && Passes(plans, s, r, e, n)
    {
      n := n + 1;
    }
  }

  lemma DifferentRefusals(j: nat, k: nat)
    requires j < 10 && k < 10 && Refusal(j) == Refusal(k)
    ensures j == k && Refusal(j) != Granted
  {
  }

  // A redemption is granted exactly when every question is answered with yes, and
  // otherwise the answer is that of the first one that is not.
  lemma GrantedExactlyWhen(plans: Providers.PaystackPlans, s: State, r: Redemption, e: Env)
    requires Enabled(plans, s, Verify(r, e))
    ensures RedemptionVerdict(plans, s, r, e) == Granted <==> forall k :: 0 <= k < 10 ==> Question(plans, s, r, e, k)
    ensures forall k :: 0 <= k < 10 ==>
              (RedemptionVerdict(plans, s, r, e) == Refusal(k) <==>
                  Passes(plans, s, r, e, k) && !Question(plans, s, r, e, k))
  {
    var n := FindFirstNo(plans, s, r, e);
    VerdictAsks(plans, s, r, e, n);
    PassesMeansAll(plans, s, r, e, n);
    forall k: nat | k < 10
      ensures RedemptionVerdict(plans, s, r, e) == Refusal(k) <==>
                Passes(plans, s, r, e, k) && !Question(plans, s, r, e, k)
    {
      PassesMeansAll(plans, s, r, e, k);
      DifferentRefusals(k, k);
      if n < 10 && Refusal(n) == Refusal(k) {
        DifferentRefusals(n, k);
      }
    }
    if n < 10 {
      DifferentRefusals(n, n);
    }
  }

  // In particular nobody gets anything from a payment made by somebody else.
  lemma OnlyThePayerRedeems(plans: Providers.PaystackPlans, s: State, r: Redemption, e: Env)
    requires r.checked.Some? && !SameButCase(TrimSpace(r.checked.value.email), TrimSpace(r.user.email))
    ensures RedemptionVerdict(plans, s, r, e) != Granted
    ensures Redeem(plans, s, r, e).subs == s.subs && Redeem(plans, s, r, e).log == s.log
  {
    EqualFoldIs(TrimSpace(r.checked.value.email), TrimSpace(r.user.email));
  }

  // How long a period is paid for.
  function PaidLength(plans: Providers.PaystackPlans, tx: Transaction): int {
    (if tx.plan.code == plans.monthly then 30 else 365) * 24 * 3600 * 1_000_000_000
  }

  function PaidInterval(plans: Providers.PaystackPlans, tx: Transaction): string {
    if tx.plan.code == plans.monthly then "month" else "year"
  }

  // The row a payment leaves, column by column.
  function PaidRow(stored: Option<Row>, r: Redemption, customer: string, reusable: bool, e: Env, end: Instant,
                   interval: string): Row
  {
    Row(if stored.Some? then stored.value.id else e.newID,
        r.user.id, "pro", "paystack", customer, r.reference, "active", Some(end), None,
        false, reusable, "ngn", interval,
        if stored.Some? then stored.value.createdAt else e.now,
        e.now)
  }

  // Where a bought period starts.
  function From(left: Option<Instant>, now: Instant): Instant {
    if left.Some? && left.value > now then left.value else now
  }

  function PayingCustomer(tx: Transaction, reference: string): string {
    if tx.customerCode == "" then "paystack_" + reference else tx.customerCode
  }

  // That of a granted redemption: on top of what is left of the stored period.
  function RowAfterPayment(stored: Option<Row>, plans: Providers.PaystackPlans, r: Redemption, tx: Transaction, e: Env)
    : Row
  {
    PaidRow(stored, r, PayingCustomer(tx, r.reference), tx.reusable, e,
            From(if stored.Some? then stored.value.periodEnd else None, e.now) + PaidLength(plans, tx),
            PaidInterval(plans, tx))
  }

  lemma BoughtInterval(plans: Providers.PaystackPlans, tx: Transaction)
    requires Providers.IntervalForPlanCode(plans, tx.plan.code).Some?
    ensures var interval := Providers.IntervalForPlanCode(plans, tx.plan.code).value;
            && interval == PaidInterval(plans, tx)
            && Providers.BillingPeriod(interval) == PaidLength(plans, tx)
  {
  }

  lemma StoredPeriodIsRead(subs: Subscriptions, u: string, now: Instant)
    ensures ReadSubscription(subs, u, now).periodEnd == if u in subs then subs[u].periodEnd else None
  {
    if u in subs {
      ViewOverridesForceFree(subs[u], now);
    }
  }

  // With the bought interval, its length and the customer given by name.
  lemma RedeemedRowIs(plans: Providers.PaystackPlans, stored: Option<Row>, current: Row, r: Redemption, e: Env,
                      customer: string, start: Instant, length: int, interval: string)
    requires Screen(plans, r) == Granted && interval == Interval(plans, r)
    requires length == Providers.BillingPeriod(interval) && start == From(current.periodEnd, e.now)
    requires customer == PayingCustomer(r.checked.value, r.reference)
    ensures RedeemedRow(plans, current, r, e.now).(id := if stored.Some? then stored.value.id else e.newID,
                                                   createdAt := if stored.Some? then stored.value.createdAt else e.now)
         == PaidRow(stored, r, customer, r.checked.value.reusable, e, start + length, interval)
  {
  }

  lemma RowAfterPaymentIs(plans: Providers.PaystackPlans, stored: Option<Row>, r: Redemption, tx: Transaction, e: Env)
    returns (customer: string, start: Instant, length: int, interval: string)
    ensures customer == PayingCustomer(tx, r.reference) && interval == PaidInterval(plans, tx)
    ensures start == From(if stored.Some? then stored.value.periodEnd else None, e.now)
    ensures length == PaidLength(plans, tx)
    ensures RowAfterPayment(stored, plans, r, tx, e)
         == PaidRow(stored, r, customer, tx.reusable, e, start + length, interval)
  {
    customer, interval := PayingCustomer(tx, r.reference), PaidInterval(plans, tx);
    start, length := From(if stored.Some? then stored.value.periodEnd else None, e.now), PaidLength(plans, tx);
  }

  lemma PaymentRowIs(plans: Providers.PaystackPlans, stored: Option<Row>, current: Row, r: Redemption, e: Env)
    requires Screen(plans, r) == Granted
    requires current.periodEnd == if stored.Some? then stored.value.periodEnd else None
    ensures RowAfterPayment(stored, plans, r, r.checked.value, e)
         == RedeemedRow(plans, current, r, e.now).(id := if stored.Some? then stored.value.id else e.newID,
                                                   createdAt := if stored.Some? then stored.value.createdAt else e.now)
  {
    BoughtInterval(plans, r.checked.value);
    var customer, start, length, interval := RowAfterPaymentIs(plans, stored, r, r.checked.value, e);
    RedeemedRowIs(plans, stored, current, r, e, customer, start, length, interval);
  }

  lemma Upserted(subs: Subscriptions, row: Row, newID: string)
    requires row.id == ""
    ensures Upsert(subs, row, newID)
         == subs[row.userID := row.(id := if row.userID in subs then subs[row.userID].id else newID,
                                    createdAt := if row.userID in subs then subs[row.userID].createdAt
                                                 else row.createdAt)]
  {
  }

  lemma GrantedPaymentStores(plans: Providers.PaystackPlans, s: State, r: Redemption, e: Env, current: Row)
    requires RedemptionVerdict(plans, s, r, e) == Granted && current == ReadSubscription(s.subs, r.user.id, e.now)
    ensures Redeem(plans, s, r, e).subs == Upsert(s.subs, RedeemedRow(plans, current, r, e.now), e.newID)
  {
  }

  lemma RedeemedRowIsNew(plans: Providers.PaystackPlans, current: Row, r: Redemption, now: Instant)
    requires Screen(plans, r) == Granted
    ensures var row := RedeemedRow(plans, current, r, now);
            row.id == "" && row.userID == r.user.id && row.createdAt == now
  {
  }

  lemma GrantedPaymentClaims(plans: Providers.PaystackPlans, s: State, r: Redemption, e: Env)
    requires RedemptionVerdict(plans, s, r, e) == Granted
    ensures Redeem(plans, s, r, e).log
         == s.log["paystack-verify:" + r.reference :=
                  LogRow(r.user.id, "paystack", r.checked.value.customerCode, None, e.now, false)]
  {
  }

  // It writes that row and the claim, and nothing else.
  lemma GrantedPaymentWrites(plans: Providers.PaystackPlans, s: State, r: Redemption, e: Env)
    requires RedemptionVerdict(plans, s, r, e) == Granted
    ensures var t, tx := Redeem(plans, s, r, e), r.checked.value;
            && t.subs == s.subs[r.user.id := RowAfterPayment(Stored(s.subs, r.user.id), plans, r, tx, e)]
            && t.log == s.log["paystack-verify:" + r.reference :=
                              LogRow(r.user.id, "paystack", tx.customerCode, None, e.now, false)]
  {
    var current := ReadSubscription(s.subs, r.user.id, e.now);
    GrantedPaymentStores(plans, s, r, e, current);
    GrantedPaymentClaims(plans, s, r, e);
    StoredPeriodIsRead(s.subs, r.user.id, e.now);
    PaymentRowIs(plans, Stored(s.subs, r.user.id), current, r, e);
    RedeemedRowIsNew(plans, current, r, e.now);
    Upserted(s.subs, RedeemedRow(plans, current, r, e.now), e.newID);
  }

  // A refusal writes nothing, unless it was the last write that failed: then the
  // claim stays.
  lemma RefusedPaymentWrites(plans: Providers.PaystackPlans, s: State, r: Redemption, e: Env)
    requires RedemptionVerdict(plans, s, r, e) != Granted
    ensures Redeem(plans, s, r, e).subs == s.subs
    ensures RedemptionVerdict(plans, s, r, e) != WriteFailed ==> Redeem(plans, s, r, e).log == s.log
    ensures RedemptionVerdict(plans, s, r, e) == WriteFailed ==>
              Redeem(plans, s, r, e).log
              == s.log["paystack-verify:" + r.reference :=
                       LogRow(r.user.id, "paystack", r.checked.value.customerCode, None, e.now, false)]
  {
  }

  // ----- Cancelling -----

  // A paid plan that has not run out at this instant.
  predicate StillPaid(subs: Subscriptions, u: string, now: Instant) {
    && u in subs && subs[u].id != "" && subs[u].plan != "free"
    && !(subs[u].cancelAtEnd && subs[u].periodEnd.Some? && now > subs[u].periodEnd.value)
    && !(subs[u].status == "trialing" && subs[u].trialEnd.Some? && now > subs[u].trialEnd.value)
  }

  // Whether the provider lets the cancellation through. Paystack is asked about a
  // subscription code and must say yes; about anything else it is not asked. Lemon
  // Squeezy must have a subscription to cancel, and say yes.
  predicate LetThrough(row: Row, providerOk: bool) {
    if row.provider == "paystack" then (|row.subID| >= 4 && row.subID[..4] == "SUB_" ==> providerOk)
    else row.subID != "" && providerOk
  }

  lemma ProviderIsAsked(row: Row, providerOk: bool)
    ensures ProviderAccepts(row, providerOk) <==> LetThrough(row, providerOk)
  {
  }

  lemma ReadsPaid(subs: Subscriptions, u: string, now: Instant)
    ensures var sub := ReadSubscription(subs, u, now);
            && (sub.plan != "free" && sub.id != "" <==> StillPaid(subs, u, now))
            && (StillPaid(subs, u, now) ==> sub == subs[u])
  {
  }

  // The five answers to a cancellation, and what is written: the flag and the
  // update time, when it is cancelled, and nothing otherwise.
  lemma CancelledExactlyWhen(s: State, u: string, providerOk: bool, e: Env)
    requires u in s.subs ==> s.subs[u].userID == u
    ensures var paid, reply, t := StillPaid(s.subs, u, e.now), CancelReplyTo(s, u, providerOk, e),
                Cancel(s, u, providerOk, e);
            && (reply == NothingToCancel <==> !paid)
            && (reply == AlreadyScheduled <==> paid && s.subs[u].cancelAtEnd)
            && (reply == ProviderRefused <==> paid && !s.subs[u].cancelAtEnd && !LetThrough(s.subs[u], providerOk))
            && (reply == CancelNotStored <==>
                  paid && !s.subs[u].cancelAtEnd && LetThrough(s.subs[u], providerOk) && !e.upsertOk)
            && (reply == Cancelled <==>
                  paid && !s.subs[u].cancelAtEnd && LetThrough(s.subs[u], providerOk) && e.upsertOk)
            && t.log == s.log
            && t.subs == (if reply == Cancelled then s.subs[u := s.subs[u].(cancelAtEnd := true, updatedAt := e.now)]
                          else s.subs)
  {
    ReadsPaid(s.subs, u, e.now);
    if u in s.subs {
      ProviderIsAsked(s.subs[u], providerOk);
    }
  }

  // So the provider's no leaves the row of a Lemon Squeezy subscription, and of a
  // Paystack one with a subscription code, as it is; and a Paystack row without a
  // code is cancelled whatever the provider would say.
  lemma ProvidersNoDecides(s: State, u: string, e: Env)
    requires u in s.subs && s.subs[u].userID == u
    ensures (s.subs[u].provider != "paystack" || HasPrefix(s.subs[u].subID, "SUB_")) ==>
              Cancel(s, u, false, e).subs == s.subs && CancelReplyTo(s, u, false, e) != Cancelled
    ensures s.subs[u].provider == "paystack" && !HasPrefix(s.subs[u].subID, "SUB_") ==>
              Cancel(s, u, false, e) == Cancel(s, u, true, e)
  {
    CancelledExactlyWhen(s, u, false, e);
  }

  // ----- Cleaning up -----

  // The clean-up keeps exactly the rows of the last ninety days as they are, and
  // changes nothing else.
  lemma CleanUpKeepsNinetyDays(plans: Providers.PaystackPlans, s: State, e: Env, k: string)
    ensures var t := Step(plans, s, Cleanup(e));
            && t.subs == s.subs && t.history == s.history
            && (k in t.log <==> k in s.log && s.log[k].createdAt >= e.now - 90 * 24 * 3600 * 1_000_000_000)
            && (k in t.log ==> t.log[k] == s.log[k])
  {
  }

  // ----- Reading -----

  // The row as it is read: a scheduled cancellation whose period is over reads as
  // canceled, an ended trial as past due, and both as the free plan.
  lemma ReadAsStoredExceptWhenOver(subs: Subscriptions, u: string, now: Instant)
    ensures ReadSubscription(subs, u, now)
         == if u !in subs
            then Row("", u, "free", "", "", "", "active", None, None, false, true, "usd", "", 0, 0)
            else if subs[u].cancelAtEnd && subs[u].periodEnd.Some? && now > subs[u].periodEnd.value
            then subs[u].(plan := "free", status := "canceled")
            else if subs[u].status == "trialing" && subs[u].trialEnd.Some? && now > subs[u].trialEnd.value
            then subs[u].(plan := "free", status := "past_due")
            else subs[u]
  {
  }

  // The grace that a status leaves after the end of the period: three days while
  // it is paid for, and less than seven when a payment is overdue.
  predicate InGrace(row: Row, now: Instant) {
    || (row.status in ["active", "trialing"]
        && (row.periodEnd.None? || now - row.periodEnd.value <= 3 * 24 * 3600 * 1_000_000_000))
    || (row.status == "past_due"
        && (row.periodEnd.None? || now - row.periodEnd.value < 7 * 24 * 3600 * 1_000_000_000))
  }

  // A user has the paid plan exactly while it is stored, has not been cancelled at
  // a period end that is past, is no trial that is over, and is within the grace
  // of its status. All three places that ask agree on it.
  lemma PaidAccessExactlyWhen(subs: Subscriptions, u: string, now: Instant)
    ensures EffectivePlan(ReadSubscription(subs, u, now), now) == "pro" <==>
            && u in subs && subs[u].plan == "pro" && InGrace(subs[u], now)
            && !(subs[u].cancelAtEnd && subs[u].periodEnd.Some? && now > subs[u].periodEnd.value)
            && !(subs[u].status == "trialing" && subs[u].trialEnd.Some? && now > subs[u].trialEnd.value)
    ensures u in subs ==>
              (Open(AccessDeadline(subs[u]), now) && subs[u].plan == "pro" <==>
                  EffectivePlan(ReadSubscription(subs, u, now), now) == "pro")
  {
    if u in subs {
      MeAgreesWithSubscription(subs[u], now);
    }
  }
}
