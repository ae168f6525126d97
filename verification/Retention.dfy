/** What the event log remembers over whole runs: nothing is applied twice and
    nothing is applied out of order while its row is retained. */
module Retention {
  import opened Core
  import opened Records
  import opened Entitlements
  import opened BillingMachine
  import Providers

  // The log key under which an application was recorded.
  function Key(a: Applied): string {
    match a
    case EventApplied(key, _, _, _, _, _, _, _) => key
    case ReferenceApplied(reference, _, _, _, _) => ClaimKey(reference)
  }

  // The log row of an application.
  predicate RowOf(a: Applied, row: LogRow) {
    && row.createdAt == a.at
    && (a.EventApplied? ==>
          && row.provider == a.provider && row.objectID == a.objectID && row.eventAt == a.eventAt
          && row.processed == a.marked)
    && (a.ReferenceApplied? ==> row.eventAt == None && !row.processed)
  }

  // Every row marked processed is the row of an event that was applied.
  ghost predicate ProcessedWasApplied(log: EventLog, history: seq<Applied>) {
    forall k :: k in log && log[k].processed ==>
      exists i :: 0 <= i < |history| && history[i].EventApplied? && Key(history[i]) == k && RowOf(history[i], log[k])
  }

  // Every application within the retention period still has its row.
  ghost predicate Remembered(log: EventLog, history: seq<Applied>, clock: Instant) {
    forall i :: 0 <= i < |history| && history[i].at >= clock - RETENTION ==>
      Key(history[i]) in log && RowOf(history[i], log[Key(history[i])])
  }

  ghost predicate UpToNow(log: EventLog, history: seq<Applied>, clock: Instant) {
    && (forall k :: k in log ==> log[k].createdAt <= clock)
    && (forall i :: 0 <= i < |history| ==> history[i].at <= clock)
  }

  // Two applications recorded under one key are more than the retention apart.
  ghost predicate Spaced(history: seq<Applied>) {
    forall i, j :: 0 <= i < j < |history| && Key(history[i]) == Key(history[j]) ==>
      history[j].at - history[i].at > RETENTION
  }

  predicate SameObject(a: Applied, b: Applied) {
    && a.EventApplied? && b.EventApplied?
    && a.provider == b.provider && a.objectID == b.objectID && a.objectID != ""
    && a.eventAt.Some? && b.eventAt.Some?
  }

  // The earlier application is in the ordering check of the later one.
  predicate Guarded(a: Applied, b: Applied) {
    SameObject(a, b) && a.marked && b.at - a.at <= RETENTION
  }

  // Timestamped events applied to one object within the retention period, the
  // earlier one marked, are applied in the order of their provider timestamps.
  ghost predicate InOrder(history: seq<Applied>) {
    forall i, j :: 0 <= i < j < |history| && Guarded(history[i], history[j]) ==>
      history[i].eventAt.value <= history[j].eventAt.value
  }

  // A claim is never processed, so it never takes part in the ordering check.
  ghost predicate ClaimsStayApart(log: EventLog) {
    forall reference :: ClaimKey(reference) in log ==>
      !log[ClaimKey(reference)].processed && log[ClaimKey(reference)].eventAt == None
  }

  ghost predicate Consistent(log: EventLog, history: seq<Applied>, clock: Instant) {
    && UpToNow(log, history, clock)
    && ProcessedWasApplied(log, history)
    && Remembered(log, history, clock)
    && Spaced(history)
    && InOrder(history)
    && ClaimsStayApart(log)
  }

  lemma AfterTick(log: EventLog, history: seq<Applied>, clock: Instant, now: Instant)
    requires Consistent(log, history, clock) && clock <= now
    ensures Consistent(log, history, now)
  {
  }

  lemma AfterRecording(log: EventLog, history: seq<Applied>, now: Instant, key: string, row: LogRow)
    requires Consistent(log, history, now)
    requires key !in log && row.createdAt == now && !row.processed
    requires forall reference :: key == ClaimKey(reference) ==> row.eventAt == None
    ensures Consistent(log[key := row], history, now)
  {
  }

  lemma AfterPruning(log: EventLog, history: seq<Applied>, now: Instant)
    requires Consistent(log, history, now)
    ensures Consistent(Prune(log, now), history, now)
  {
  }

  // Nothing recorded under a key that is not in the log is recent.
  lemma NotInLogIsOld(log: EventLog, history: seq<Applied>, now: Instant, key: string)
    requires Consistent(log, history, now) && key !in log
    ensures forall i :: 0 <= i < |history| && Key(history[i]) == key ==> now - history[i].at > RETENTION
  {
  }

  // A recent marked event about an object counts in the ordering query.
  lemma RecentIsOrdered(log: EventLog, history: seq<Applied>, now: Instant, entry: Applied)
    requires Consistent(log, history, now)
    requires entry.EventApplied? && entry.at == now && entry.eventAt.Some?
    requires Latest(log, entry.provider, entry.objectID).Some? ==>
               Latest(log, entry.provider, entry.objectID).value <= entry.eventAt.value
    ensures forall i :: 0 <= i < |history| && Guarded(history[i], entry) ==>
              history[i].eventAt.value <= entry.eventAt.value
  {
    forall i | 0 <= i < |history| && Guarded(history[i], entry)
      ensures history[i].eventAt.value <= entry.eventAt.value
    {
      var k := Key(history[i]);
      assert k in log && RowOf(history[i], log[k]);
      assert Counts(log[k], entry.provider, entry.objectID);
    }
  }

  lemma AfterApplyingEvent(log: EventLog, history: seq<Applied>, now: Instant, entry: Applied, row: LogRow,
                           userID: string)
    requires Consistent(log, history, now)
    requires entry.EventApplied? && entry.at == now && entry.key !in log
    requires RowOf(entry.(marked := false), row)
    requires forall reference :: entry.key != ClaimKey(reference)
    requires entry.eventAt.Some? && Latest(log, entry.provider, entry.objectID).Some? ==>
               Latest(log, entry.provider, entry.objectID).value <= entry.eventAt.value
    ensures var recorded := log[entry.key := row];
            Consistent(if entry.marked then Mark(recorded, entry.key, userID) else recorded, history + [entry], now)
  {
    NotInLogIsOld(log, history, now, entry.key);
    if entry.eventAt.Some? {
      RecentIsOrdered(log, history, now, entry);
    }
    var recorded := log[entry.key := row];
    var after := if entry.marked then Mark(recorded, entry.key, userID) else recorded;
    var longer := history + [entry];
    forall k | k in after && after[k].processed
      ensures exists i ::
                0 <= i < |longer| && longer[i].EventApplied? && Key(longer[i]) == k && RowOf(longer[i], after[k])
    {
      if k == entry.key {
        assert RowOf(longer[|history|], after[k]);
      } else {
        var i :| 0 <= i < |history| && history[i].EventApplied? && Key(history[i]) == k && RowOf(history[i], log[k]);
        assert longer[i] == history[i];
      }
    }
  }

  lemma AfterApplyingReference(log: EventLog, history: seq<Applied>, now: Instant, entry: Applied, row: LogRow)
    requires Consistent(log, history, now)
    requires entry.ReferenceApplied? && entry.at == now && ClaimKey(entry.reference) !in log
    requires RowOf(entry, row)
    ensures Consistent(log[ClaimKey(entry.reference) := row], history + [entry], now)
  {
    var key := ClaimKey(entry.reference);
    NotInLogIsOld(log, history, now, key);
    var after := log[key := row];
    var longer := history + [entry];
    forall k | k in after && after[k].processed
      ensures exists i ::
                0 <= i < |longer| && longer[i].EventApplied? && Key(longer[i]) == k && RowOf(longer[i], after[k])
    {
      var i :| 0 <= i < |history| && history[i].EventApplied? && Key(history[i]) == k && RowOf(history[i], log[k]);
      assert longer[i] == history[i];
    }
  }

  lemma WebhookKeeps(plans: Providers.PaystackPlans, s: State, d: Delivery, e: Env)
    requires Consistent(s.log, s.history, s.clock) && s.clock <= e.now
    requires Enabled(plans, s, Webhook(d, e))
    ensures var t := Deliver(s, d, e); Consistent(t.log, t.history, t.clock)
  {
    AfterTick(s.log, s.history, s.clock, e.now);
    var fate := DeliveryFate(s, d, e);
    if fate == NotActedOn || fate == Stale || fate == Failed || fate == Done {
      var row := Recorded(d, e.now);
      forall reference ensures d.payload != ClaimKey(reference) {
        ClaimsAreNotPayloads(d.payload, reference);
      }
      if fate == Done {
        var entry := EventEntry(d, e);
        LatestAfterRecording(s.log, d.payload, row, d.provider, entry.objectID);
        AfterApplyingEvent(s.log, s.history, e.now, entry, row, d.decoded.event.userID);
      } else {
        AfterRecording(s.log, s.history, e.now, d.payload, row);
      }
    }
  }

  lemma RedeemKeeps(plans: Providers.PaystackPlans, s: State, r: Redemption, e: Env)
    requires Consistent(s.log, s.history, s.clock) && s.clock <= e.now
    ensures var t := Redeem(plans, s, r, e); Consistent(t.log, t.history, t.clock)
  {
    AfterTick(s.log, s.history, s.clock, e.now);
    var verdict := RedemptionVerdict(plans, s, r, e);
    if verdict == WriteFailed {
      AfterRecording(s.log, s.history, e.now, ClaimKey(r.reference), Claim(r, e.now));
    } else if verdict == Granted {
      var entry := ReferenceEntry(plans, ReadSubscription(s.subs, r.user.id, e.now), r, e.now);
      AfterApplyingReference(s.log, s.history, e.now, entry, Claim(r, e.now));
    }
  }

  lemma StepKeeps(plans: Providers.PaystackPlans, s: State, a: Action)
    requires Consistent(s.log, s.history, s.clock) && s.clock <= a.env.now && Enabled(plans, s, a)
    ensures var t := Step(plans, s, a); Consistent(t.log, t.history, t.clock)
  {
    match a
    case Webhook(d, e) => WebhookKeeps(plans, s, d, e);
    case Verify(r, e) => RedeemKeeps(plans, s, r, e);
    case CancelPlan(_, _, e) => AfterTick(s.log, s.history, s.clock, e.now);
    case Cleanup(e) =>
      AfterTick(s.log, s.history, s.clock, e.now);
      AfterPruning(s.log, s.history, e.now);
  }

  lemma {:induction false} ConsistentAlongTheRun(plans: Providers.PaystackPlans, s: State, run: seq<Action>)
    requires Consistent(s.log, s.history, s.clock) && Possible(plans, s, run) && Chronological(s, run)
    ensures var t := Run(plans, s, run); Consistent(t.log, t.history, t.clock)
  {
    if run != [] {
      var last := |run| - 1;
      ConsistentAlongTheRun(plans, s, run[..last]);
      ClockAfter(plans, s, run[..last]);
      StepKeeps(plans, Run(plans, s, run[..last]), run[last]);
    }
  }

  // ----- The promises, from empty tables -----

  // Every log row marked processed was really applied, and the mark of an
  // object is the timestamp of an event that was applied to it: stale, ignored
  // and failed deliveries never raise it.
  lemma ProcessedMeansApplied(plans: Providers.PaystackPlans, s: State, run: seq<Action>, provider: string,
                              objectID: string)
    requires Initial(s) && Possible(plans, s, run) && Chronological(s, run)
    ensures var t := Run(plans, s, run);
            && ProcessedWasApplied(t.log, t.history)
            && (Latest(t.log, provider, objectID).Some? ==>
                  exists i :: 0 <= i < |t.history| && t.history[i].EventApplied?
                    && t.history[i].provider == provider && t.history[i].objectID == objectID
                    && t.history[i].eventAt == Latest(t.log, provider, objectID))
  {
    ConsistentAlongTheRun(plans, s, run);
    var t := Run(plans, s, run);
    var latest := Latest(t.log, provider, objectID);
    if latest.Some? {
      var k :| k in t.log && Counts(t.log[k], provider, objectID) && t.log[k].eventAt == latest;
      var i :| 0 <= i < |t.history| && t.history[i].EventApplied? && Key(t.history[i]) == k
          && RowOf(t.history[i], t.log[k]);
    }
  }

  // Over every run, timestamped events applied to one provider object within
  // the retention period are non-decreasing in provider time, given that the
  // earlier one was marked.
  lemma AppliedInProviderOrder(plans: Providers.PaystackPlans, s: State, run: seq<Action>)
    requires Initial(s) && Possible(plans, s, run) && Chronological(s, run)
    ensures InOrder(Run(plans, s, run).history)
  {
    ConsistentAlongTheRun(plans, s, run);
  }

  // No payload is applied twice, and no reference extends any account twice,
  // within the retention period.
  lemma AppliedAtMostOnce(plans: Providers.PaystackPlans, s: State, run: seq<Action>)
    requires Initial(s) && Possible(plans, s, run) && Chronological(s, run)
    ensures Spaced(Run(plans, s, run).history)
  {
    ConsistentAlongTheRun(plans, s, run);
  }

  // ----- Retries -----

  lemma {:induction false} RecentRowsSurvive(plans: Providers.PaystackPlans, s: State, run: seq<Action>, key: string)
    requires Chronological(s, run) && key in s.log
    requires Run(plans, s, run).clock - s.log[key].createdAt <= RETENTION
    ensures key in Run(plans, s, run).log && Run(plans, s, run).log[key].createdAt == s.log[key].createdAt
  {
    if run != [] {
      var last := |run| - 1;
      ClockAfter(plans, s, run);
      ClockAfter(plans, s, run[..last]);
      RecentRowsSurvive(plans, s, run[..last], key);
      RowSurvivesStep(plans, Run(plans, s, run[..last]), run[last], key);
    }
  }

  lemma RowSurvivesStep(plans: Providers.PaystackPlans, s: State, a: Action, key: string)
    requires key in s.log && a.env.now - s.log[key].createdAt <= RETENTION
    ensures key in Step(plans, s, a).log && Step(plans, s, a).log[key].createdAt == s.log[key].createdAt
  {
    match a
    case Webhook(d, e) => assert DeliveryFate(s, d, e) == Done ==> d.payload != key;
    case Verify(r, e) =>
    case CancelPlan(_, _, _) =>
    case Cleanup(_) =>
  }

  // A delivery that was recorded is done with, whatever became of it: for 90
  // days and after any run, the same payload changes neither table and, once
  // the log can be written, is answered as received. So a delivery that failed
  // after it was recorded is not made good by the provider's retry.
  lemma RecordedIsNeverRetried(plans: Providers.PaystackPlans, s: State, d: Delivery, e: Env,
                               run: seq<Action>, again: Delivery, f: Env)
    requires DeliveryFate(s, d, e) in {NotActedOn, Stale, Failed, Done}
    requires again.payload == d.payload && again.decoded != Rejected
    requires Chronological(Deliver(s, d, e), run)
    requires Run(plans, Deliver(s, d, e), run).clock <= f.now <= e.now + RETENTION
    ensures var t := Run(plans, Deliver(s, d, e), run);
            && Deliver(t, again, f) == t.(clock := f.now)
            && (f.recordOk ==> ReplyTo(DeliveryFate(t, again, f)) == Received)
  {
    var recorded := Deliver(s, d, e);
    assert d.payload in recorded.log && recorded.log[d.payload].createdAt == e.now;
    RecentRowsSurvive(plans, recorded, run, d.payload);
  }

  // ----- Paystack references -----

  // Redeeming a reference whose claim is in the log changes nothing, whoever
  // asks and whatever the stored provider ids are by then.
  lemma RepeatChangesNothing(plans: Providers.PaystackPlans, s: State, r: Redemption, e: Env)
    requires ClaimKey(r.reference) in s.log
    ensures Redeem(plans, s, r, e) == s.(clock := e.now)
  {
  }

  // Once a reference has been claimed, every attempt to redeem it in the next
  // 90 days, by any account and after any run of webhooks, redemptions,
  // cancellations and cleanups, leaves every table unchanged.
  lemma ClaimedOnceForEveryone(plans: Providers.PaystackPlans, s: State, r: Redemption, e: Env,
                               run: seq<Action>, again: Redemption, f: Env)
    requires RedemptionVerdict(plans, s, r, e) in {Granted, WriteFailed}
    requires again.reference == r.reference
    requires Chronological(Redeem(plans, s, r, e), run)
    requires Run(plans, Redeem(plans, s, r, e), run).clock <= f.now <= e.now + RETENTION
    ensures var t := Run(plans, Redeem(plans, s, r, e), run);
            Redeem(plans, t, again, f) == t.(clock := f.now)
  {
    var claimed := Redeem(plans, s, r, e);
    assert claimed.log[ClaimKey(r.reference)] == Claim(r, e.now);
    RecentRowsSurvive(plans, claimed, run, ClaimKey(r.reference));
    RepeatChangesNothing(plans, Run(plans, claimed, run), again, f);
  }

  // Redeeming never touches the ordering check of any object, and what it
  // records is no delivery's key.
  lemma RedeemingLeavesOrderingAlone(plans: Providers.PaystackPlans, s: State, r: Redemption, e: Env, provider: string,
                                     objectID: string)
    ensures Latest(Redeem(plans, s, r, e).log, provider, objectID) == Latest(s.log, provider, objectID)
    ensures forall payload :: JsonDocument(payload) ==>
              (payload in Redeem(plans, s, r, e).log <==> payload in s.log)
  {
    if RedemptionVerdict(plans, s, r, e) in {Granted, WriteFailed} {
      LatestAfterRecording(s.log, ClaimKey(r.reference), Claim(r, e.now), provider, objectID);
    }
    forall payload | JsonDocument(payload)
      ensures payload != ClaimKey(r.reference)
    {
      ClaimsAreNotPayloads(payload, r.reference);
    }
  }
}
