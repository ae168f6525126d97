/** The read-time expiry view and the cancellation that reads through it. */
module Cancellation {
  import opened Core
  import opened Records
  import opened Entitlements
  import opened BillingMachine
  import opened RowInvariants
  import Providers

  // A cancellation that reaches its write stores the raw row with only the
  // cancel flag and the update time changed, for any stored row whatever.
  lemma CancelStoresRawRow(s: State, u: string, providerOk: bool, e: Env)
    requires FiledByUser(s.subs)
    requires CancelReplyTo(s, u, providerOk, e) == Cancelled
    ensures u in s.subs
    ensures View(s.subs[u], e.now) == s.subs[u]
    ensures Cancel(s, u, providerOk, e).subs == s.subs[u := s.subs[u].(cancelAtEnd := true, updatedAt := e.now)]
    ensures Cancel(s, u, providerOk, e).log == s.log
  {
    ViewOverridesForceFree(s.subs[u], e.now);
  }

  // Cancelling again, at any later time and however the provider would answer,
  // changes neither table and does not reach the provider.
  lemma SecondCancelChangesNothing(s: State, u: string, first: bool, e: Env, second: bool, f: Env)
    requires FiledByUser(s.subs)
    requires CancelReplyTo(s, u, first, e) == Cancelled
    ensures var t := Cancel(s, u, first, e);
            && CancelReplyTo(t, u, second, f) in {NothingToCancel, AlreadyScheduled}
            && Cancel(t, u, second, f).subs == t.subs
            && Cancel(t, u, second, f).log == t.log
  {
    CancelStoresRawRow(s, u, first, e);
    ViewOverridesForceFree(Cancel(s, u, first, e).subs[u], f.now);
  }

  // A scheduled cancellation never extends access and never ends it before the
  // period that was paid for: the last instant becomes at most the period end,
  // and every instant up to it that gave access still does.
  lemma CancelKeepsPaidAccess(row: Row, at: Instant, now: Instant)
    ensures var cancelled := row.(cancelAtEnd := true, updatedAt := at);
            && (MePlan(cancelled, now) != "free" ==> MePlan(row, now) == MePlan(cancelled, now))
            && (row.periodEnd.Some? && MePlan(cancelled, now) != "free" ==> now <= row.periodEnd.value)
            && (row.periodEnd.Some? && now <= row.periodEnd.value ==> MePlan(cancelled, now) == MePlan(row, now))
            && (row.periodEnd.None? ==> MePlan(cancelled, now) == MePlan(row, now))
  {
    AccessHasOneDeadline(row, now);
    AccessHasOneDeadline(row.(cancelAtEnd := true, updatedAt := at), now);
  }

  ghost predicate OnlyCancels(run: seq<Action>) {
    forall i :: 0 <= i < |run| ==> run[i].CancelPlan? || run[i].Cleanup?
  }

  // Reads in between never leak the view into the table: however much time
  // passes, a run without webhooks and redemptions leaves plan, status and
  // every other field of every row as stored, but for the cancel flag.
  lemma {:induction false} ViewIsNeverPersisted(plans: Providers.PaystackPlans, s: State, run: seq<Action>, u: string)
    requires FiledByUser(s.subs)
    requires OnlyCancels(run)
    ensures Run(plans, s, run).subs.Keys == s.subs.Keys
    ensures u in s.subs ==>
              var after := Run(plans, s, run).subs[u];
              after == s.subs[u].(cancelAtEnd := after.cancelAtEnd, updatedAt := after.updatedAt)
  {
    if run != [] {
      var last := |run| - 1;
      ViewIsNeverPersisted(plans, s, run[..last], u);
      KnownFieldsStay(plans, s, run[..last]);
      var t := Run(plans, s, run[..last]);
      if run[last].CancelPlan? {
        var a := run[last];
        if CancelReplyTo(t, a.userID, a.providerOk, a.env) == Cancelled {
          CancelStoresRawRow(t, a.userID, a.providerOk, a.env);
        }
      }
    }
  }

  // ----- How long a scheduled cancellation lasts -----

  predicate Scheduled(subs: Subscriptions, u: string) {
    u in subs && subs[u].cancelAtEnd
  }

  // The action takes the flag off the user's row: a granted redemption, or an
  // applied event of the user that does not carry it.
  ghost predicate Unschedules(plans: Providers.PaystackPlans, s: State, a: Action, u: string) {
    match a
    case Webhook(d, e) =>
      && DeliveryFate(s, d, e) == Done && Owner(d.decoded.event, e.found) == Some(u)
      && !d.decoded.event.cancelAtEnd
    case Verify(r, e) => RedemptionVerdict(plans, s, r, e) == Granted && r.user.id == u
    case _ => false
  }

  lemma UpsertedFlag(subs: Subscriptions, row: Row, newID: string, u: string)
    ensures Scheduled(Upsert(subs, row, newID), u) <==> if row.userID == u then row.cancelAtEnd else Scheduled(subs, u)
  {
  }

  // A scheduled cancellation is over after an action exactly when the action
  // takes the flag off.
  lemma StepUnschedules(plans: Providers.PaystackPlans, s: State, a: Action, u: string)
    requires FiledByUser(s.subs) && Scheduled(s.subs, u)
    ensures Scheduled(Step(plans, s, a).subs, u) <==> !Unschedules(plans, s, a, u)
  {
    match a
    case Webhook(d, e) =>
      if DeliveryFate(s, d, e) == Done {
        var v := Owner(d.decoded.event, e.found).value;
        var row := EventRow(ReadSubscription(s.subs, v, e.now), d.decoded.event, d.provider, v, e.now);
        UpsertedFlag(s.subs, row, e.newID, u);
      }
    case Verify(r, e) =>
      if RedemptionVerdict(plans, s, r, e) == Granted {
        var row := RedeemedRow(plans, ReadSubscription(s.subs, r.user.id, e.now), r, e.now);
        UpsertedFlag(s.subs, row, e.newID, u);
      }
    case CancelPlan(v, ok, e) =>
      if CancelReplyTo(s, v, ok, e) == Cancelled {
        UpsertedFlag(s.subs, ReadSubscription(s.subs, v, e.now).(cancelAtEnd := true, updatedAt := e.now), e.newID, u);
      }
    case Cleanup(_) =>
  }

  // The flag is on throughout a run.
  ghost predicate ScheduledThroughout(plans: Providers.PaystackPlans, s: State, run: seq<Action>, u: string) {
    forall n :: 0 <= n <= |run| ==> Scheduled(Run(plans, s, run[..n]).subs, u)
  }

  ghost predicate NothingUnschedules(plans: Providers.PaystackPlans, s: State, run: seq<Action>, u: string) {
    forall n :: 0 <= n < |run| ==> !Unschedules(plans, Run(plans, s, run[..n]), run[n], u)
  }

  lemma StepInRun(plans: Providers.PaystackPlans, s: State, run: seq<Action>, n: nat, u: string)
    requires FiledByUser(s.subs) && n < |run| && Scheduled(Run(plans, s, run[..n]).subs, u)
    ensures Scheduled(Run(plans, s, run[..n + 1]).subs, u) <==> !Unschedules(plans, Run(plans, s, run[..n]), run[n], u)
  {
    KnownFieldsStay(plans, s, run[..n]);
    StepUnschedules(plans, Run(plans, s, run[..n]), run[n], u);
    RunStep(plans, s, run, n);
  }

  lemma {:induction false} ScheduledSoFar(plans: Providers.PaystackPlans, s: State, run: seq<Action>, n: nat, u: string)
    requires FiledByUser(s.subs) && Scheduled(s.subs, u) && n <= |run| && NothingUnschedules(plans, s, run, u)
    ensures Scheduled(Run(plans, s, run[..n]).subs, u)
  {
    if n > 0 {
      ScheduledSoFar(plans, s, run, n - 1, u);
      StepInRun(plans, s, run, n - 1, u);
    }
  }

  // Over every run a scheduled cancellation stays scheduled exactly when the user
  // is granted no redemption and no event of theirs without the flag is applied:
  // neither time nor anyone else's actions take it off, and a renewal charge, a
  // failed charge and a purchase all do.
  lemma ScheduleSurvivesExactlyWhen(plans: Providers.PaystackPlans, s: State, run: seq<Action>, u: string)
    requires FiledByUser(s.subs) && Scheduled(s.subs, u)
    ensures ScheduledThroughout(plans, s, run, u) <==> NothingUnschedules(plans, s, run, u)
  {
    if NothingUnschedules(plans, s, run, u) {
      forall n | 0 <= n <= |run| ensures Scheduled(Run(plans, s, run[..n]).subs, u) {
        ScheduledSoFar(plans, s, run, n, u);
      }
    } else {
      var n :| 0 <= n < |run| && Unschedules(plans, Run(plans, s, run[..n]), run[n], u);
      if Scheduled(Run(plans, s, run[..n]).subs, u) {
        StepInRun(plans, s, run, n, u);
      }
    }
  }
}
