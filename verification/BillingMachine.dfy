/** The billing core as a state machine: what each handler does to the two
    tables, over runs of any length. */
module BillingMachine {
  import opened Core
  import opened Records
  import opened Entitlements
  import Providers

  // What was applied to a subscription, oldest first.
  datatype Applied =
    | EventApplied(key: string, provider: string, objectID: string, eventAt: Option<Instant>,
                   userID: string, at: Instant, marked: bool, periodEnd: Option<Instant>)
    | ReferenceApplied(reference: string, userID: string, at: Instant, from: Instant, until: Instant)

  // `history` and `clock` are bookkeeping: no handler reads them.
  datatype State = State(subs: Subscriptions, log: EventLog, history: seq<Applied>, clock: Instant)

  // What one call sees of the world outside the tables: the clock, a new UUID,
  // which row a lookup by provider id returned, and which writes succeed.
  datatype Env = Env(now: Instant, newID: string, found: Option<string>, recordOk: bool, upsertOk: bool, markOk: bool)

  // ----- The statements of the store -----

  function Upsert(subs: Subscriptions, row: Row, newID: string): Subscriptions {
    if row.userID in subs then
      subs[row.userID := row.(id := subs[row.userID].id, createdAt := subs[row.userID].createdAt)]
    else
      subs[row.userID := row.(id := if row.id == "" then newID else row.id)]
  }

  function Mark(log: EventLog, key: string, userID: string): EventLog {
    if key in log then log[key := log[key].(processed := true, userID := userID)] else log
  }

  function Prune(log: EventLog, now: Instant): EventLog {
    map k | k in log && log[k].createdAt >= now - RETENTION :: log[k]
  }

  // A row the ordering query looks at.
  predicate Counts(r: LogRow, provider: string, objectID: string) {
    r.provider == provider && r.objectID == objectID && r.processed && r.eventAt.Some?
  }

  ghost predicate IsLatest(log: EventLog, provider: string, objectID: string, latest: Option<Instant>) {
    if objectID == "" then latest == None
    else match latest
      case None => forall k :: k in log ==> !Counts(log[k], provider, objectID)
      case Some(t) =>
        && (exists k :: k in log && Counts(log[k], provider, objectID) && log[k].eventAt == Some(t))
        && (forall k :: k in log && Counts(log[k], provider, objectID) ==> log[k].eventAt.value <= t)
  }

  // The keys of the rows that count, one of which is newest.
  lemma {:induction false} NewestKey(log: EventLog, keys: set<string>, provider: string, objectID: string)
    returns (newest: string)
    requires keys != {}
    requires forall k :: k in keys ==> k in log && Counts(log[k], provider, objectID)
    ensures newest in keys && newest in log && Counts(log[newest], provider, objectID)
    ensures forall k :: k in keys ==>
              k in log && log[k].eventAt.Some? && log[k].eventAt.value <= log[newest].eventAt.value
    decreases |keys|
  {
    newest :| newest in keys;
    var rest := keys - {newest};
    if rest != {} {
      var other := NewestKey(log, rest, provider, objectID);
      if log[newest].eventAt.value < log[other].eventAt.value {
        newest := other;
      }
    }
  }

  lemma LatestExists(log: EventLog, provider: string, objectID: string)
    ensures exists latest :: IsLatest(log, provider, objectID, latest)
  {
    var keys := set k | k in log && Counts(log[k], provider, objectID);
    if objectID == "" || keys == {} {
      assert forall k :: k in log && Counts(log[k], provider, objectID) ==> k in keys;
      assert IsLatest(log, provider, objectID, None);
    } else {
      var k := NewestKey(log, keys, provider, objectID);
      assert forall j :: j in log && Counts(log[j], provider, objectID) ==> j in keys;
      assert IsLatest(log, provider, objectID, log[k].eventAt);
    }
  }

  // LatestProcessedEventAt: the newest provider timestamp applied to an object.
  ghost function Latest(log: EventLog, provider: string, objectID: string): (latest: Option<Instant>)
    ensures IsLatest(log, provider, objectID, latest)
  {
    LatestExists(log, provider, objectID);
    var latest :| IsLatest(log, provider, objectID, latest);
    latest
  }

  // GetSubscriptionByProviderSubID and ...ByProviderCustomerID: any matching
  // row, since the query fixes no order; nothing for an empty value.
  ghost predicate FindsBySubID(subs: Subscriptions, value: string, found: Option<string>) {
    match found
    case Some(u) => value != "" && u in subs && subs[u].subID == value
    case None => value == "" || forall u :: u in subs ==> subs[u].subID != value
  }

  ghost predicate FindsByCustomer(subs: Subscriptions, value: string, found: Option<string>) {
    match found
    case Some(u) => value != "" && u in subs && subs[u].customerID == value
    case None => value == "" || forall u :: u in subs ==> subs[u].customerID != value
  }

  // resolveWebhookUser: by subscription id, and only failing that by customer.
  ghost predicate Resolves(subs: Subscriptions, ev: WebhookEvent, found: Option<string>) {
    if FindsBySubID(subs, ev.subscriptionID, None) then FindsByCustomer(subs, ev.customerID, found)
    else FindsBySubID(subs, ev.subscriptionID, found)
  }

  // ----- Webhooks -----

  // The outcome of verifying and decoding a body.
  datatype Decoded = Rejected | Ignored | Parsed(event: WebhookEvent)

  datatype Delivery = Delivery(provider: string, payload: string, decoded: Decoded)

  datatype Response = Received | BadRequest | StorageError | ProcessingFailed

  datatype Fate = Refused | NotRecorded | Duplicate | NotActedOn | Stale | Failed | Done

  function ReplyTo(f: Fate): Response {
    match f
    case Refused => BadRequest
    case NotRecorded => StorageError
    case Failed => ProcessingFailed
    case Duplicate => Received
    case NotActedOn => Received
    case Stale => Received
    case Done => Received
  }

  function Recorded(d: Delivery, now: Instant): LogRow {
    match d.decoded
    case Parsed(ev) => LogRow(ev.userID, d.provider, ObjectID(ev), Timestamp(ev), now, false)
    case _ => LogRow("", d.provider, "", None, now, false)
  }

  // The user an event is applied to.
  function Owner(ev: WebhookEvent, found: Option<string>): Option<string> {
    if ev.userID != "" then Some(ev.userID) else found
  }

  // processWebhookEvent: the row written for an event, given the row that was read.
  function EventRow(existing: Row, ev: WebhookEvent, provider: string, userID: string, now: Instant): Row {
    Row("", userID,
        if IsEntitledStatus(ev.status) then ev.plan else "free",
        provider, ev.customerID,
        if ev.subscriptionID == "" then existing.subID else ev.subscriptionID,
        ev.status,
        if ev.periodEnd > 0 then Some(FromUnix(ev.periodEnd)) else existing.periodEnd,
        if ev.trialEnd > 0 then Some(FromUnix(ev.trialEnd)) else existing.trialEnd,
        ev.cancelAtEnd, existing.autoRenews, ev.currency, ev.interval, now, now)
  }

  ghost predicate IsStale(log: EventLog, provider: string, ev: WebhookEvent) {
    var latest := Latest(log, provider, ObjectID(ev));
    Timestamp(ev).Some? && latest.Some? && Timestamp(ev).value < latest.value
  }

  ghost function DeliveryFate(s: State, d: Delivery, e: Env): Fate {
    if d.decoded == Rejected then Refused
    else if !e.recordOk then NotRecorded
    else if d.payload in s.log then Duplicate
    else if d.decoded == Ignored then NotActedOn
    else if IsStale(s.log[d.payload := Recorded(d, e.now)], d.provider, d.decoded.event) then Stale
    else if Owner(d.decoded.event, e.found).None? || !e.upsertOk then Failed
    else Done
  }

  function EventEntry(d: Delivery, e: Env): Applied
    requires d.decoded.Parsed? && Owner(d.decoded.event, e.found).Some?
  {
    var ev := d.decoded.event;
    EventApplied(d.payload, d.provider, ObjectID(ev), Timestamp(ev), Owner(ev, e.found).value, e.now, e.markOk,
                 if ev.periodEnd > 0 then Some(FromUnix(ev.periodEnd)) else None)
  }

  function LogAfterFate(log: EventLog, d: Delivery, e: Env, fate: Fate): EventLog {
    if fate == Refused || fate == NotRecorded || fate == Duplicate then log
    else
      var recorded := log[d.payload := Recorded(d, e.now)];
      if fate == Done && e.markOk && d.decoded.Parsed? then Mark(recorded, d.payload, d.decoded.event.userID)
      else recorded
  }

  function SubsAfterEvent(subs: Subscriptions, d: Delivery, e: Env): Subscriptions
    requires d.decoded.Parsed? && Owner(d.decoded.event, e.found).Some?
  {
    var userID := Owner(d.decoded.event, e.found).value;
    Upsert(subs, EventRow(ReadSubscription(subs, userID, e.now), d.decoded.event, d.provider, userID, e.now), e.newID)
  }

  // handleWebhook
  ghost function Deliver(s: State, d: Delivery, e: Env): State {
    var fate := DeliveryFate(s, d, e);
    State(if fate == Done then SubsAfterEvent(s.subs, d, e) else s.subs,
          LogAfterFate(s.log, d, e, fate),
          if fate == Done then s.history + [EventEntry(d, e)] else s.history,
          e.now)
  }

  // ----- Redeeming a Paystack reference -----

  datatype User = User(id: string, email: string)

  datatype Transaction = Transaction(
    amount: int, currency: string, email: string, customerCode: string, reusable: bool, plan: Providers.PlanInfo)

  // `checked` is Paystack's answer: None when the reference does not verify.
  datatype Redemption = Redemption(user: User, reference: string, checked: Option<Transaction>)

  datatype Verdict =
    | ReferenceRequired | CouldNotVerify | UnsupportedCurrency | NotOurPlan | AmountMismatch
    | AnotherAccountsPayment | RedeemedByAnother | ClaimFailed | AlreadyApplied | WriteFailed | Granted

  function Screen(plans: Providers.PaystackPlans, r: Redemption): Verdict {
    if r.reference == "" then ReferenceRequired
    else if r.checked.None? then CouldNotVerify
    else
      var tx := r.checked.value;
      if !EqualFold(tx.currency, "NGN") then UnsupportedCurrency
      else if Providers.IntervalForPlanCode(plans, tx.plan.code).None? then NotOurPlan
      else if tx.plan.amountKnown && tx.amount != tx.plan.amount then AmountMismatch
      else if !EqualFold(TrimSpace(tx.email), TrimSpace(r.user.email)) then AnotherAccountsPayment
      else Granted
  }

  function RedemptionVerdict(plans: Providers.PaystackPlans, s: State, r: Redemption, e: Env): Verdict {
    if Screen(plans, r) != Granted then Screen(plans, r)
    else if e.found.Some? && e.found.value != r.user.id then RedeemedByAnother
    else if !e.recordOk then ClaimFailed
    else if ClaimKey(r.reference) in s.log then AlreadyApplied
    else if !e.upsertOk then WriteFailed
    else Granted
  }

  function Claim(r: Redemption, now: Instant): LogRow
    requires r.checked.Some?
  {
    LogRow(r.user.id, "paystack", r.checked.value.customerCode, None, now, false)
  }

  // Where a bought period starts: at the end of what is left, else now.
  function PeriodBase(current: Row, now: Instant): Instant {
    if current.periodEnd.Some? && current.periodEnd.value > now then current.periodEnd.value else now
  }

  function Interval(plans: Providers.PaystackPlans, r: Redemption): string
    requires Screen(plans, r) == Granted
  {
    Providers.IntervalForPlanCode(plans, r.checked.value.plan.code).value
  }

  function RedeemedRow(plans: Providers.PaystackPlans, current: Row, r: Redemption, now: Instant): Row
    requires Screen(plans, r) == Granted
  {
    var tx := r.checked.value;
    var interval := Interval(plans, r);
    Row("", r.user.id, "pro", "paystack",
        if tx.customerCode == "" then "paystack_" + r.reference else tx.customerCode,
        r.reference, "active",
        Some(PeriodBase(current, now) + Providers.BillingPeriod(interval)), None,
        false, tx.reusable, "ngn", interval, now, now)
  }

  function ReferenceEntry(plans: Providers.PaystackPlans, current: Row, r: Redemption, now: Instant): Applied
    requires Screen(plans, r) == Granted
  {
    var base := PeriodBase(current, now);
    ReferenceApplied(r.reference, r.user.id, now, base, base + Providers.BillingPeriod(Interval(plans, r)))
  }

  // VerifyPaystack
  function Redeem(plans: Providers.PaystackPlans, s: State, r: Redemption, e: Env): State {
    var verdict := RedemptionVerdict(plans, s, r, e);
    var t := s.(clock := e.now);
    if verdict == WriteFailed || verdict == Granted then
      var claimed := t.(log := s.log[ClaimKey(r.reference) := Claim(r, e.now)]);
      if verdict == WriteFailed then claimed
      else
        var current := ReadSubscription(s.subs, r.user.id, e.now);
        claimed.(subs := Upsert(s.subs, RedeemedRow(plans, current, r, e.now), e.newID),
                 history := s.history + [ReferenceEntry(plans, current, r, e.now)])
    else t
  }

  // ----- Cancelling -----

  datatype CancelReply = NothingToCancel | AlreadyScheduled | ProviderRefused | CancelNotStored | Cancelled

  // Whether the provider has to be told, and whether telling it worked.
  predicate ProviderAccepts(sub: Row, providerOk: bool) {
    if sub.provider == "paystack" then HasPrefix(sub.subID, "SUB_") ==> providerOk
    else sub.subID != "" && providerOk
  }

  function CancelReplyTo(s: State, userID: string, providerOk: bool, e: Env): CancelReply {
    var sub := ReadSubscription(s.subs, userID, e.now);
    if sub.plan == "free" || sub.id == "" then NothingToCancel
    else if sub.cancelAtEnd then AlreadyScheduled
    else if !ProviderAccepts(sub, providerOk) then ProviderRefused
    else if !e.upsertOk then CancelNotStored
    else Cancelled
  }

  // CancelSubscription
  function Cancel(s: State, userID: string, providerOk: bool, e: Env): State {
    var t := s.(clock := e.now);
    if CancelReplyTo(s, userID, providerOk, e) != Cancelled then t
    else
      var sub := ReadSubscription(s.subs, userID, e.now);
      t.(subs := Upsert(s.subs, sub.(cancelAtEnd := true, updatedAt := e.now), e.newID))
  }

  // ----- Runs -----

  datatype Action =
    | Webhook(delivery: Delivery, env: Env)
    | Verify(redemption: Redemption, env: Env)
    | CancelPlan(userID: string, providerOk: bool, env: Env)
    | Cleanup(env: Env)

  ghost function Step(plans: Providers.PaystackPlans, s: State, a: Action): State {
    match a
    case Webhook(d, e) => Deliver(s, d, e)
    case Verify(r, e) => Redeem(plans, s, r, e)
    case CancelPlan(u, ok, e) => Cancel(s, u, ok, e)
    case Cleanup(e) => s.(log := Prune(s.log, e.now), clock := e.now)
  }

  // A UUID that no stored row has.
  ghost predicate FreshID(subs: Subscriptions, id: string) {
    id != "" && forall u :: u in subs ==> subs[u].id != id
  }

  // The environment tells the truth about the tables: a lookup that is made
  // returns a matching row, new ids are new, and what decoded was a JSON document.
  ghost predicate Enabled(plans: Providers.PaystackPlans, s: State, a: Action) {
    && FreshID(s.subs, a.env.newID)
    && match a
       case Webhook(d, e) =>
         && (d.decoded != Rejected ==> JsonDocument(d.payload))
         && (DeliveryFate(s, d, e) in {Failed, Done} && d.decoded.event.userID == "" ==>
               Resolves(s.subs, d.decoded.event, e.found))
       case Verify(r, e) => Screen(plans, r) == Granted ==> FindsBySubID(s.subs, r.reference, e.found)
       case _ => true
  }

  // The state after a run, and whether every step of it was possible.
  ghost function Run(plans: Providers.PaystackPlans, s: State, run: seq<Action>): State {
    if run == [] then s else Step(plans, Run(plans, s, run[..|run| - 1]), run[|run| - 1])
  }

  ghost predicate Possible(plans: Providers.PaystackPlans, s: State, run: seq<Action>) {
    run != [] ==>
      Possible(plans, s, run[..|run| - 1]) && Enabled(plans, Run(plans, s, run[..|run| - 1]), run[|run| - 1])
  }

  lemma OneStep(plans: Providers.PaystackPlans, s: State, a: Action)
    ensures Run(plans, s, [a]) == Step(plans, s, a)
    ensures Possible(plans, s, [a]) <==> Enabled(plans, s, a)
  {
    assert [a][..0] == [];
    assert Possible(plans, s, []) && Run(plans, s, []) == s;
  }

  // What a webhook handler has to show about the lookups it made.
  lemma WebhookIsPossible(plans: Providers.PaystackPlans, s: State, d: Delivery, e: Env, fate: Fate)
    requires FreshID(s.subs, e.newID) && (d.decoded != Rejected ==> JsonDocument(d.payload))
    requires DeliveryFate(s, d, e) == fate
    requires fate in {Failed, Done} && d.decoded.event.userID == "" ==> Resolves(s.subs, d.decoded.event, e.found)
    ensures Possible(plans, s, [Webhook(d, e)])
  {
    OneStep(plans, s, Webhook(d, e));
  }

  function ClockOf(s: State, run: seq<Action>): Instant {
    if run == [] then s.clock else run[|run| - 1].env.now
  }

  // The clock never runs backwards.
  ghost predicate Chronological(s: State, run: seq<Action>) {
    run != [] ==>
      Chronological(s, run[..|run| - 1]) && ClockOf(s, run[..|run| - 1]) <= run[|run| - 1].env.now
  }

  lemma ClockAfter(plans: Providers.PaystackPlans, s: State, run: seq<Action>)
    ensures Run(plans, s, run).clock == ClockOf(s, run)
  {
  }

  lemma {:induction false} RunConcat(plans: Providers.PaystackPlans, s: State, first: seq<Action>, second: seq<Action>)
    ensures Run(plans, s, first + second) == Run(plans, Run(plans, s, first), second)
    decreases |second|
  {
    if second == [] {
      assert first + second == first;
    } else {
      var last := |second| - 1;
      assert (first + second)[..|first + second| - 1] == first + second[..last];
      assert (first + second)[|first + second| - 1] == second[last];
      RunConcat(plans, s, first, second[..last]);
    }
  }

  lemma RunStep(plans: Providers.PaystackPlans, s: State, run: seq<Action>, n: nat)
    requires n < |run|
    ensures Run(plans, s, run[..n + 1]) == Step(plans, Run(plans, s, run[..n]), run[n])
  {
    assert run[..n + 1][..n] == run[..n];
  }

  // ----- The ordering query under the log's own writes -----

  lemma LatestIsUnique(log: EventLog, provider: string, objectID: string, latest: Option<Instant>)
    requires IsLatest(log, provider, objectID, latest)
    ensures Latest(log, provider, objectID) == latest
  {
    var other := Latest(log, provider, objectID);
    if objectID != "" && latest.Some? && other.Some? {
      var j :| j in log && Counts(log[j], provider, objectID) && log[j].eventAt == latest;
      var k :| k in log && Counts(log[k], provider, objectID) && log[k].eventAt == other;
    }
  }

  // Recording a row does not raise the mark: it is not processed yet.
  lemma LatestAfterRecording(log: EventLog, key: string, row: LogRow, provider: string, objectID: string)
    requires key !in log && !row.processed
    ensures Latest(log[key := row], provider, objectID) == Latest(log, provider, objectID)
  {
    var latest := Latest(log, provider, objectID);
    var after := log[key := row];
    if objectID != "" && latest.Some? {
      var k :| k in log && Counts(log[k], provider, objectID) && log[k].eventAt == latest;
      assert k in after && Counts(after[k], provider, objectID) && after[k].eventAt == latest;
    }
    assert IsLatest(after, provider, objectID, latest);
    LatestIsUnique(after, provider, objectID, latest);
  }

  function Max(a: Option<Instant>, b: Instant): Option<Instant> {
    if a.Some? && a.value > b then a else Some(b)
  }

  // Marking the row of a timestamped event raises the mark of its object to it.
  lemma LatestAfterMarking(log: EventLog, key: string, row: LogRow, userID: string)
    requires key !in log && row.eventAt.Some? && row.objectID != ""
    ensures Latest(Mark(log[key := row], key, userID), row.provider, row.objectID)
            == Max(Latest(log, row.provider, row.objectID), row.eventAt.value)
  {
    var latest := Latest(log, row.provider, row.objectID);
    var raised := Max(latest, row.eventAt.value);
    var after := Mark(log[key := row], key, userID);
    assert key in after && Counts(after[key], row.provider, row.objectID);
    if latest.Some? {
      var k :| k in log && Counts(log[k], row.provider, row.objectID) && log[k].eventAt == latest;
      assert k in after && Counts(after[k], row.provider, row.objectID) && after[k].eventAt == latest;
    }
    assert IsLatest(after, row.provider, row.objectID, raised);
    LatestIsUnique(after, row.provider, row.objectID, raised);
  }

  // The tables start empty.
  ghost predicate Initial(s: State) {
    s.subs == map[] && s.log == map[] && s.history == []
  }
}
