/** What every run of webhooks, redemptions, cancellations and cleanups keeps
    true of the stored subscriptions. */
module RowInvariants {
  import opened Core
  import opened Records
  import opened Entitlements
  import opened BillingMachine
  import Providers

  // A paid plan is only ever stored beside a status that grants access.
  predicate PaidPlanIsEntitled(row: Row) {
    row.plan != "free" ==> IsEntitledStatus(row.status)
  }

  // One row per user, each with an id of its own.
  ghost predicate Keyed(subs: Subscriptions) {
    && (forall u :: u in subs ==> subs[u].userID == u && subs[u].id != "")
    && (forall u, v :: u in subs && v in subs && subs[u].id == subs[v].id ==> u == v)
  }

  ghost predicate TableOk(subs: Subscriptions) {
    Keyed(subs) && forall u :: u in subs ==> PaidPlanIsEntitled(subs[u])
  }

  lemma UpsertKeepsTable(subs: Subscriptions, row: Row, newID: string)
    requires TableOk(subs) && FreshID(subs, newID) && PaidPlanIsEntitled(row)
    requires row.id == "" || row.userID in subs
    ensures TableOk(Upsert(subs, row, newID))
  {
  }

  lemma StepKeepsTable(plans: Providers.PaystackPlans, s: State, a: Action)
    requires TableOk(s.subs) && Enabled(plans, s, a)
    ensures TableOk(Step(plans, s, a).subs)
  {
    match a
    case Webhook(d, e) =>
      if DeliveryFate(s, d, e) == Done {
        var u := Owner(d.decoded.event, e.found).value;
        UpsertKeepsTable(s.subs, EventRow(ReadSubscription(s.subs, u, e.now), d.decoded.event, d.provider, u, e.now),
                         e.newID);
      }
    case Verify(r, e) =>
      if RedemptionVerdict(plans, s, r, e) == Granted {
        UpsertKeepsTable(s.subs, RedeemedRow(plans, ReadSubscription(s.subs, r.user.id, e.now), r, e.now), e.newID);
      }
    case CancelPlan(u, ok, e) =>
      if CancelReplyTo(s, u, ok, e) == Cancelled {
        var sub := ReadSubscription(s.subs, u, e.now);
        ViewOverridesForceFree(s.subs[u], e.now);
        UpsertKeepsTable(s.subs, sub.(cancelAtEnd := true, updatedAt := e.now), e.newID);
      }
    case Cleanup(_) =>
  }

  // A stored paid plan always has an entitled status, one row per user, and
  // every row keeps an id of its own.
  lemma {:induction false} TableInvariant(plans: Providers.PaystackPlans, s: State, run: seq<Action>)
    requires TableOk(s.subs) && Possible(plans, s, run)
    ensures TableOk(Run(plans, s, run).subs)
  {
    if run != [] {
      var last := |run| - 1;
      TableInvariant(plans, s, run[..last]);
      StepKeepsTable(plans, Run(plans, s, run[..last]), run[last]);
    }
  }

  // What may not be lost once a row has it.
  predicate Retains(before: Row, after: Row) {
    && after.id == before.id
    && after.userID == before.userID
    && after.createdAt == before.createdAt
    && (before.periodEnd.Some? ==> after.periodEnd.Some?)
    && (before.subID != "" ==> after.subID != "")
  }

  ghost predicate TableRetains(before: Subscriptions, after: Subscriptions) {
    forall u :: u in before ==> u in after && Retains(before[u], after[u])
  }

  ghost predicate FiledByUser(subs: Subscriptions) {
    forall u :: u in subs ==> subs[u].userID == u
  }

  // A row that may be written over another.
  predicate MayReplace(before: Row, row: Row) {
    (before.periodEnd.Some? ==> row.periodEnd.Some?) && (before.subID != "" ==> row.subID != "")
  }

  lemma UpsertRetains(subs: Subscriptions, row: Row, newID: string)
    requires FiledByUser(subs) && (row.userID in subs ==> MayReplace(subs[row.userID], row))
    ensures TableRetains(subs, Upsert(subs, row, newID)) && FiledByUser(Upsert(subs, row, newID))
  {
  }

  lemma EventRowMayReplace(subs: Subscriptions, d: Delivery, userID: string, now: Instant)
    requires d.decoded.Parsed? && userID in subs
    ensures MayReplace(subs[userID],
                       EventRow(ReadSubscription(subs, userID, now), d.decoded.event, d.provider, userID, now))
  {
    ViewOverridesForceFree(subs[userID], now);
  }

  lemma StepRetains(plans: Providers.PaystackPlans, s: State, a: Action)
    requires FiledByUser(s.subs)
    ensures TableRetains(s.subs, Step(plans, s, a).subs)
    ensures FiledByUser(Step(plans, s, a).subs)
  {
    match a
    case Webhook(d, e) =>
      if DeliveryFate(s, d, e) == Done {
        var u := Owner(d.decoded.event, e.found).value;
        if u in s.subs {
          EventRowMayReplace(s.subs, d, u, e.now);
        }
        UpsertRetains(s.subs, EventRow(ReadSubscription(s.subs, u, e.now), d.decoded.event, d.provider, u, e.now),
                      e.newID);
      }
    case Verify(r, e) =>
      if RedemptionVerdict(plans, s, r, e) == Granted {
        UpsertRetains(s.subs, RedeemedRow(plans, ReadSubscription(s.subs, r.user.id, e.now), r, e.now), e.newID);
      }
    case CancelPlan(u, ok, e) =>
      if CancelReplyTo(s, u, ok, e) == Cancelled {
        ViewOverridesForceFree(s.subs[u], e.now);
        UpsertRetains(s.subs, ReadSubscription(s.subs, u, e.now).(cancelAtEnd := true, updatedAt := e.now), e.newID);
      }
    case Cleanup(_) =>
  }

  // Over any run a row is never deleted, a known period end never becomes
  // unknown and a provider subscription id never becomes empty.
  lemma {:induction false} KnownFieldsStay(plans: Providers.PaystackPlans, s: State, run: seq<Action>)
    requires FiledByUser(s.subs)
    ensures TableRetains(s.subs, Run(plans, s, run).subs)
    ensures FiledByUser(Run(plans, s, run).subs)
  {
    if run != [] {
      var last := |run| - 1;
      KnownFieldsStay(plans, s, run[..last]);
      StepRetains(plans, Run(plans, s, run[..last]), run[last]);
    }
  }

  // The expiry gate cannot be switched off: once a period end is known, no run
  // of online actions makes access last for ever.
  lemma ExpiryGateStaysOn(plans: Providers.PaystackPlans, s: State, run: seq<Action>, u: string)
    requires FiledByUser(s.subs)
    requires u in s.subs && s.subs[u].periodEnd.Some?
    ensures u in Run(plans, s, run).subs
    ensures !AccessDeadline(Run(plans, s, run).subs[u]).Unbounded?
  {
    KnownFieldsStay(plans, s, run);
  }

  // Whether an action is a redemption that grants the user a period.
  predicate GrantsTo(a: Action, u: string) {
    a.Verify? && a.redemption.user.id == u
  }

  lemma UpsertKeepsAutoRenews(subs: Subscriptions, row: Row, newID: string, u: string)
    requires FiledByUser(subs) && u in subs
    requires row.userID == u ==> row.autoRenews == subs[u].autoRenews
    ensures u in Upsert(subs, row, newID) && Upsert(subs, row, newID)[u].autoRenews == subs[u].autoRenews
  {
  }

  lemma StepKeepsAutoRenews(plans: Providers.PaystackPlans, s: State, a: Action, u: string)
    requires FiledByUser(s.subs)
    requires u in s.subs && !GrantsTo(a, u)
    ensures u in Step(plans, s, a).subs
    ensures Step(plans, s, a).subs[u].autoRenews == s.subs[u].autoRenews
  {
    match a
    case Webhook(d, e) =>
      if DeliveryFate(s, d, e) == Done {
        var v := Owner(d.decoded.event, e.found).value;
        ViewOverridesForceFree(s.subs[u], e.now);
        UpsertKeepsAutoRenews(s.subs, EventRow(ReadSubscription(s.subs, v, e.now), d.decoded.event,
                                               d.provider, v, e.now), e.newID, u);
      }
    case Verify(r, e) =>
      if RedemptionVerdict(plans, s, r, e) == Granted {
        UpsertKeepsAutoRenews(s.subs, RedeemedRow(plans, ReadSubscription(s.subs, r.user.id, e.now), r, e.now),
                              e.newID, u);
      }
    case CancelPlan(v, ok, e) =>
      if CancelReplyTo(s, v, ok, e) == Cancelled {
        ViewOverridesForceFree(s.subs[v], e.now);
        UpsertKeepsAutoRenews(s.subs, ReadSubscription(s.subs, v, e.now).(cancelAtEnd := true, updatedAt := e.now),
                              e.newID, u);
      }
    case Cleanup(_) =>
  }

  // Webhooks, cancellations and other users' redemptions never change whether
  // an existing row renews by itself.
  lemma {:induction false} AutoRenewsIsSetByRedemption(plans: Providers.PaystackPlans, s: State, run: seq<Action>,
                                                       u: string)
    requires u in s.subs
    requires FiledByUser(s.subs)
    requires forall i :: 0 <= i < |run| ==> !GrantsTo(run[i], u)
    ensures u in Run(plans, s, run).subs
    ensures Run(plans, s, run).subs[u].autoRenews == s.subs[u].autoRenews
  {
    if run != [] {
      var last := |run| - 1;
      AutoRenewsIsSetByRedemption(plans, s, run[..last], u);
      KnownFieldsStay(plans, s, run[..last]);
      StepKeepsAutoRenews(plans, Run(plans, s, run[..last]), run[last], u);
    }
  }
}
