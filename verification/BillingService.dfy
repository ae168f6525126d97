/** The store and the billing handlers, as the objects that change the tables. */
module BillingService {
  import opened Core
  import opened Records
  import opened Entitlements
  import opened BillingMachine
  import Providers

  datatype RecordResult = RecordStored | RecordDuplicate | RecordError

  class Store {
    var subs: Subscriptions
    var log: EventLog

    constructor ()
      ensures subs == map[] && log == map[]
    {
      subs, log := map[], map[];
    }

    // Overrides of the row that was read, never written back here.
    method GetSubscription(userID: string, now: Instant) returns (sub: Row)
      ensures sub == ReadSubscription(subs, userID, now)
    {
      if userID !in subs {
        return NoSubscription(userID);
      }
      sub := subs[userID];
      if sub.cancelAtEnd && sub.periodEnd.Some? && now > sub.periodEnd.value {
        sub := sub.(plan := "free", status := "canceled");
      }
      if sub.status == "trialing" && sub.trialEnd.Some? && now > sub.trialEnd.value {
        sub := sub.(plan := "free", status := "past_due");
      }
    }

    // The UNIQUE index on event_key decides.
    method RecordBillingEvent(key: string, row: LogRow, writable: bool) returns (result: RecordResult)
      modifies this`log
      ensures result == if !writable then RecordError else if key in old(log) then RecordDuplicate else RecordStored
      ensures log == if result == RecordStored then old(log)[key := row] else old(log)
    {
      if !writable {
        return RecordError;
      }
      if key in log {
        return RecordDuplicate;
      }
      log := log[key := row];
      return RecordStored;
    }

    method MarkBillingEventProcessed(key: string, userID: string, writable: bool)
      modifies this`log
      ensures log == if writable then Mark(old(log), key, userID) else old(log)
    {
      if writable && key in log {
        log := log[key := log[key].(processed := true, userID := userID)];
      }
    }

    // ORDER BY event_at DESC LIMIT 1
    method LatestProcessedEventAt(provider: string, objectID: string) returns (latest: Option<Instant>)
      ensures latest == Latest(log, provider, objectID)
    {
      if objectID == "" || !exists k :: k in log && Counts(log[k], provider, objectID) {
        LatestIsUnique(log, provider, objectID, None);
        return None;
      }
      ghost var some :| some in log && Counts(log[some], provider, objectID);
      ghost var counting := set k | k in log && Counts(log[k], provider, objectID);
      assert some in counting;
      ghost var newest := NewestKey(log, counting, provider, objectID);
      assert forall j :: j in log && Counts(log[j], provider, objectID) ==> j in counting;
      var k :| && k in log && Counts(log[k], provider, objectID)
               && forall j :: j in log && Counts(log[j], provider, objectID) ==>
                   log[j].eventAt.value <= log[k].eventAt.value;
      latest := log[k].eventAt;
      LatestIsUnique(log, provider, objectID, latest);
    }

    method DeleteOldBillingEvents(now: Instant) returns (deleted: nat)
      modifies this`log
      ensures log == Prune(old(log), now)
      ensures deleted == |old(log)| - |log|
    {
      var kept := map k | k in log && log[k].createdAt >= now - RETENTION :: log[k];
      KeptAreFewer(log, kept);
      deleted := |log| - |kept|;
      log := kept;
    }

    method FindBySubID(value: string) returns (found: Option<string>)
      ensures FindsBySubID(subs, value, found)
    {
      if value == "" || !exists u :: u in subs && subs[u].subID == value {
        return None;
      }
      var u :| u in subs && subs[u].subID == value;
      found := Some(u);
    }

    method FindByCustomerID(value: string) returns (found: Option<string>)
      ensures FindsByCustomer(subs, value, found)
    {
      if value == "" || !exists u :: u in subs && subs[u].customerID == value {
        return None;
      }
      var u :| u in subs && subs[u].customerID == value;
      found := Some(u);
    }

    method UpsertSubscription(sub: Row, newID: string, writable: bool)
      modifies this`subs
      ensures subs == if writable then Upsert(old(subs), sub, newID) else old(subs)
    {
      if !writable {
        return;
      }
      var row := sub;
      if row.id == "" {
        row := row.(id := newID);
      }
      if row.userID in subs {
        row := row.(id := subs[row.userID].id, createdAt := subs[row.userID].createdAt);
      }
      subs := subs[row.userID := row];
    }
  }

  lemma KeptAreFewer(all: EventLog, kept: EventLog)
    requires kept.Keys <= all.Keys
    ensures |kept| <= |all|
  {
    assert all.Keys == kept.Keys + (all.Keys - kept.Keys);
    assert |all.Keys| == |kept.Keys| + |all.Keys - kept.Keys|;
    assert |all| == |all.Keys| && |kept| == |kept.Keys|;
  }

  class BillingHandler {
    const store: Store
    const plans: Providers.PaystackPlans
    ghost var history: seq<Applied>
    ghost var clock: Instant

    constructor (store: Store, plans: Providers.PaystackPlans, now: Instant)
      ensures this.store == store && this.plans == plans && history == []
      ensures store.subs == map[] && store.log == map[] ==> Initial(Abstract())
    {
      this.store := store;
      this.plans := plans;
      history := [];
      clock := now;
    }

    ghost function Abstract(): State
      reads this, store
    {
      State(store.subs, store.log, history, clock)
    }

    // resolveWebhookUser
    method ResolveWebhookUser(ev: WebhookEvent) returns (found: Option<string>)
      ensures Resolves(store.subs, ev, found)
    {
      found := store.FindBySubID(ev.subscriptionID);
      if found.None? {
        found := store.FindByCustomerID(ev.customerID);
      }
    }

    // processWebhookEvent
    method ProcessWebhookEvent(ev: WebhookEvent, provider: string, env: Env)
      returns (ok: bool, ghost found: Option<string>)
      modifies store`subs
      ensures ev.userID == "" ==> Resolves(old(store.subs), ev, found)
      ensures ok <==> Owner(ev, found).Some? && env.upsertOk
      ensures store.subs ==
              if !ok then old(store.subs)
              else var userID := Owner(ev, found).value;
                   Upsert(old(store.subs),
                          EventRow(ReadSubscription(old(store.subs), userID, env.now), ev, provider, userID, env.now),
                              env.newID)
    {
      var userID := ev.userID;
      found := None;
      if userID == "" {
        var existing := ResolveWebhookUser(ev);
        found := existing;
        if existing.None? {
          return false, found;
        }
        userID := existing.value;
        assert userID in store.subs;
      }

      var periodEnd: Option<Instant> := None;
      if ev.periodEnd > 0 {
        periodEnd := Some(FromUnix(ev.periodEnd));
      } else {
        var existing := store.GetSubscription(userID, env.now);
        periodEnd := existing.periodEnd;
      }

      var trialEnd: Option<Instant> := None;
      if ev.trialEnd > 0 {
        trialEnd := Some(FromUnix(ev.trialEnd));
      } else {
        var existing := store.GetSubscription(userID, env.now);
        trialEnd := existing.trialEnd;
      }

      var plan := ev.plan;
      if !IsEntitledStatus(ev.status) {
        plan := "free";
      }

      var providerSubID := ev.subscriptionID;
      var existing := store.GetSubscription(userID, env.now);
      if providerSubID == "" {
        providerSubID := existing.subID;
      }

      var sub := Row("", userID, plan, provider, ev.customerID, providerSubID, ev.status, periodEnd, trialEnd,
                     ev.cancelAtEnd, existing.autoRenews, ev.currency, ev.interval, env.now, env.now);
      store.UpsertSubscription(sub, env.newID, env.upsertOk);
      ok := env.upsertOk;
    }

    // The row recorded for a delivery before it is processed.
    method RecordFor(d: Delivery, now: Instant) returns (record: LogRow)
      ensures record == Recorded(d, now)
    {
      record := LogRow("", d.provider, "", None, now, false);
      if d.decoded.Parsed? {
        var ev := d.decoded.event;
        record := record.(userID := ev.userID, objectID := ev.subscriptionID);
        if record.objectID == "" {
          record := record.(objectID := ev.customerID);
        }
        if ev.eventAt > 0 {
          record := record.(eventAt := Some(FromUnix(ev.eventAt)));
        }
      }
    }

    // The out-of-order guard.
    method CheckOrder(ev: WebhookEvent, provider: string) returns (stale: bool)
      ensures stale <==> IsStale(store.log, provider, ev)
    {
      stale := false;
      if ev.eventAt > 0 {
        var latest := store.LatestProcessedEventAt(provider, ObjectID(ev));
        stale := latest.Some? && FromUnix(ev.eventAt) < latest.value;
      }
    }

    // handleWebhook once the event has been recorded; `s` is the state before.
    method ActOnEvent(d: Delivery, env: Env, ghost s: State) returns (reply: Response, ghost e: Env)
      requires FreshID(s.subs, env.newID) && JsonDocument(d.payload) && d.decoded.Parsed?
      requires env.recordOk && d.payload !in s.log
      requires Abstract() == State(s.subs, s.log[d.payload := Recorded(d, env.now)], s.history, env.now)
      modifies this`history, store
      ensures e == env.(found := e.found) && Possible(plans, s, [Webhook(d, e)])
      ensures Abstract() == Deliver(s, d, e)
      ensures reply == ReplyTo(DeliveryFate(s, d, e))
    {
      e := env.(found := None);
      var ev := d.decoded.event;
      var stale := CheckOrder(ev, d.provider);
      if stale {
        WebhookIsPossible(plans, s, d, e, Stale);
        return Received, e;
      }
      var ok, found := ProcessWebhookEvent(ev, d.provider, env);
      e := env.(found := found);
      WebhookIsPossible(plans, s, d, e, if ok then Done else Failed);
      if !ok {
        return ProcessingFailed, e;
      }
      history := history + [EventEntry(d, e)];
      store.MarkBillingEventProcessed(d.payload, ev.userID, env.markOk);
      return Received, e;
    }

    // handleWebhook, from the point where the body has been verified and decoded
    method HandleWebhook(d: Delivery, env: Env) returns (reply: Response, ghost e: Env)
      requires FreshID(store.subs, env.newID)
      requires d.decoded != Rejected ==> JsonDocument(d.payload)
      modifies this, store
      ensures e == env.(found := e.found) && Possible(plans, old(Abstract()), [Webhook(d, e)])
      ensures Abstract() == Deliver(old(Abstract()), d, e)
      ensures reply == ReplyTo(DeliveryFate(old(Abstract()), d, e))
    {
      ghost var s := Abstract();
      e := env.(found := None);
      clock := env.now;
      if d.decoded == Rejected {
        WebhookIsPossible(plans, s, d, e, Refused);
        return BadRequest, e;
      }
      var record := RecordFor(d, env.now);
      var result := store.RecordBillingEvent(d.payload, record, env.recordOk);
      if result == RecordDuplicate {
        WebhookIsPossible(plans, s, d, e, Duplicate);
        return Received, e;
      }
      if result == RecordError {
        WebhookIsPossible(plans, s, d, e, NotRecorded);
        return StorageError, e;
      }
      if d.decoded == Ignored {
        WebhookIsPossible(plans, s, d, e, NotActedOn);
        return Received, e;
      }
      reply, e := ActOnEvent(d, env, s);
    }

    // The checks made on the provider's answer before any table is touched.
    method ScreenTransaction(r: Redemption) returns (verdict: Verdict, interval: string)
      ensures verdict == Screen(plans, r)
      ensures verdict == Granted ==> interval == Interval(plans, r)
    {
      interval := "";
      if r.reference == "" {
        return ReferenceRequired, interval;
      }
      if r.checked.None? {
        return CouldNotVerify, interval;
      }
      var tx := r.checked.value;
      if !EqualFold(tx.currency, "NGN") {
        return UnsupportedCurrency, interval;
      }
      var known := Providers.IntervalForPlanCode(plans, tx.plan.code);
      if known.None? {
        return NotOurPlan, interval;
      }
      if tx.plan.amountKnown && tx.amount != tx.plan.amount {
        return AmountMismatch, interval;
      }
      if !EqualFold(TrimSpace(tx.email), TrimSpace(r.user.email)) {
        return AnotherAccountsPayment, interval;
      }
      return Granted, known.value;
    }

    // The row that a newly claimed reference buys.
    method BoughtRow(r: Redemption, interval: string, now: Instant) returns (sub: Row, ghost entry: Applied)
      requires Screen(plans, r) == Granted && interval == Interval(plans, r)
      ensures sub == RedeemedRow(plans, ReadSubscription(store.subs, r.user.id, now), r, now)
      ensures entry == ReferenceEntry(plans, ReadSubscription(store.subs, r.user.id, now), r, now)
    {
      var base := now;
      var current := store.GetSubscription(r.user.id, now);
      if current.periodEnd.Some? && current.periodEnd.value > now {
        base := current.periodEnd.value;
      }
      var periodEnd := base + Providers.BillingPeriod(interval);
      var tx := r.checked.value;
      var customerCode := tx.customerCode;
      if customerCode == "" {
        customerCode := "paystack_" + r.reference;
      }
      sub := Row("", r.user.id, "pro", "paystack", customerCode, r.reference, "active", Some(periodEnd), None,
                 false, tx.reusable, "ngn", interval, now, now);
      entry := ReferenceApplied(r.reference, r.user.id, now, base, periodEnd);
    }

    // The write that follows a successful claim.
    method Extend(r: Redemption, interval: string, env: Env)
      requires Screen(plans, r) == Granted && interval == Interval(plans, r)
      modifies this`history, store`subs
      ensures !env.upsertOk ==> store.subs == old(store.subs) && history == old(history)
      ensures env.upsertOk ==>
                var current := ReadSubscription(old(store.subs), r.user.id, env.now);
                && store.subs == Upsert(old(store.subs), RedeemedRow(plans, current, r, env.now), env.newID)
                && history == old(history) + [ReferenceEntry(plans, current, r, env.now)]
    {
      var sub, entry := BoughtRow(r, interval, env.now);
      store.UpsertSubscription(sub, env.newID, env.upsertOk);
      if env.upsertOk {
        history := history + [entry];
      }
    }

    // VerifyPaystack, given the provider's answer about the reference
    method VerifyPaystack(r: Redemption, env: Env) returns (verdict: Verdict, ghost e: Env)
      requires FreshID(store.subs, env.newID)
      modifies this, store
      ensures e == env.(found := e.found) && Enabled(plans, old(Abstract()), Verify(r, e))
      ensures Abstract() == Redeem(plans, old(Abstract()), r, e)
      ensures verdict == RedemptionVerdict(plans, old(Abstract()), r, e)
    {
      ghost var s := Abstract();
      e := env.(found := None);
      clock := env.now;
      var screened, interval := ScreenTransaction(r);
      if screened != Granted {
        return screened, e;
      }
      var existing := store.FindBySubID(r.reference);
      e := env.(found := existing);
      if existing.Some? && existing.value != r.user.id {
        return RedeemedByAnother, e;
      }
      var result := store.RecordBillingEvent(ClaimKey(r.reference), Claim(r, env.now), env.recordOk);
      if result == RecordDuplicate {
        return AlreadyApplied, e;
      }
      if result == RecordError {
        return ClaimFailed, e;
      }
      assert RedemptionVerdict(plans, s, r, e) == if env.upsertOk then Granted else WriteFailed;
      Extend(r, interval, env);
      verdict := if env.upsertOk then Granted else WriteFailed;
    }

    // CancelSubscription; `providerOk` is the answer of the provider, if asked
    method CancelSubscription(userID: string, providerOk: bool, env: Env) returns (reply: CancelReply)
      modifies this, store
      ensures Abstract() == Cancel(old(Abstract()), userID, providerOk, env)
      ensures reply == CancelReplyTo(old(Abstract()), userID, providerOk, env)
    {
      clock := env.now;
      var sub := store.GetSubscription(userID, env.now);
      if sub.plan == "free" || sub.id == "" {
        return NothingToCancel;
      }
      if sub.cancelAtEnd {
        return AlreadyScheduled;
      }
      if sub.provider == "paystack" {
        if HasPrefix(sub.subID, "SUB_") && !providerOk {
          return ProviderRefused;
        }
      } else if sub.subID == "" || !providerOk {
        return ProviderRefused;
      }
      sub := sub.(cancelAtEnd := true, updatedAt := env.now);
      store.UpsertSubscription(sub, env.newID, env.upsertOk);
      if !env.upsertOk {
        return CancelNotStored;
      }
      return Cancelled;
    }

    method CleanUp(env: Env)
      requires FreshID(store.subs, env.newID)
      modifies this, store
      ensures Enabled(plans, old(Abstract()), Cleanup(env))
      ensures Abstract() == Step(plans, old(Abstract()), Cleanup(env))
    {
      clock := env.now;
      var deleted := store.DeleteOldBillingEvents(env.now);
    }

    // The effective plan of GET /me.
    method Me(userID: string, now: Instant) returns (plan: string)
      ensures plan == if userID in store.subs && Open(AccessDeadline(store.subs[userID]), now)
                      then store.subs[userID].plan else "free"
    {
      var sub := store.GetSubscription(userID, now);
      plan := sub.plan;
      if !IsActive(sub.status, sub.periodEnd, now) {
        plan := "free";
      }
      if userID in store.subs {
        AccessHasOneDeadline(store.subs[userID], now);
      }
    }
  }
}
