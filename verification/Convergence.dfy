/** Last writer wins by provider time: deliveries about one provider object may
    arrive duplicated and in any order. */
module Convergence {
  import opened Core
  import opened Records
  import opened Entitlements
  import opened BillingMachine
  import Providers

  // One object of one provider, and the user it belongs to.
  datatype Subject = Subject(provider: string, userID: string, objectID: string)

  function Event(a: Action): WebhookEvent
    requires a.Webhook? && a.delivery.decoded.Parsed?
  {
    a.delivery.decoded.event
  }

  // A timestamped event about the subject, naming its user, handled with no
  // write failing.
  predicate About(a: Action, subject: Subject) {
    && a.Webhook? && a.delivery.decoded.Parsed?
    && a.delivery.provider == subject.provider
    && Event(a).userID == subject.userID && subject.userID != ""
    && ObjectID(Event(a)) == subject.objectID && subject.objectID != ""
    && Event(a).eventAt > 0
    && a.env.recordOk && a.env.upsertOk && a.env.markOk
  }

  ghost predicate AllAbout(run: seq<Action>, subject: Subject) {
    forall i :: 0 <= i < |run| ==> About(run[i], subject)
  }

  function At(a: Action): Instant
    requires a.Webhook? && a.delivery.decoded.Parsed?
  {
    FromUnix(Event(a).eventAt)
  }

  // ----- Which deliveries ought to be applied, said without any table -----

  // Whether one of the first n deliveries carries a payload.
  ghost predicate Arrived(run: seq<Action>, n: nat, payload: string)
    requires n <= |run|
  {
    exists j :: 0 <= j < n && run[j].Webhook? && run[j].delivery.payload == payload
  }

  // The first delivery of its payload.
  ghost predicate First(s: State, run: seq<Action>, i: nat)
    requires i < |run|
  {
    run[i].Webhook? && run[i].delivery.payload !in s.log && !Arrived(run, i, run[i].delivery.payload)
  }

  predicate AtMost(latest: Option<Instant>, t: Instant) {
    latest.Some? ==> latest.value <= t
  }

  ghost function LatestOf(s: State, subject: Subject): Option<Instant> {
    Latest(s.log, subject.provider, subject.objectID)
  }

  // No older than what had been applied to the subject before the run.
  ghost predicate NotBefore(s: State, subject: Subject, t: Instant) {
    AtMost(LatestOf(s, subject), t)
  }

  // No first delivery among the first n has a later timestamp.
  ghost predicate NoneLater(s: State, run: seq<Action>, n: nat, subject: Subject, t: Instant)
    requires n <= |run| && AllAbout(run, subject)
  {
    forall j :: 0 <= j < n && First(s, run, j) ==> At(run[j]) <= t
  }

  // A first delivery that is not older than any first delivery before it.
  ghost predicate Maximal(s: State, run: seq<Action>, i: nat, subject: Subject)
    requires i < |run| && AllAbout(run, subject)
  {
    First(s, run, i) && NoneLater(s, run, i, subject, At(run[i])) && NotBefore(s, subject, At(run[i]))
  }

  ghost function EntryAt(s: State, run: seq<Action>, i: nat, subject: Subject): seq<Applied>
    requires i < |run| && AllAbout(run, subject)
  {
    if Maximal(s, run, i, subject) then [EventEntry(run[i].delivery, run[i].env)] else []
  }

  // The left-to-right maxima among the first n deliveries.
  ghost function Maxima(s: State, run: seq<Action>, n: nat, subject: Subject): seq<Applied>
    requires n <= |run| && AllAbout(run, subject)
  {
    if n == 0 then [] else Maxima(s, run, n - 1, subject) + EntryAt(s, run, n - 1, subject)
  }

  // ----- The log along the run -----

  // The mark after n deliveries, when it started as `latest`.
  ghost function Raised(latest: Option<Instant>, s: State, run: seq<Action>, n: nat, subject: Subject): Option<Instant>
    requires n <= |run| && AllAbout(run, subject)
  {
    if n == 0 then latest
    else if First(s, run, n - 1) then Max(Raised(latest, s, run, n - 1, subject), At(run[n - 1]))
    else Raised(latest, s, run, n - 1, subject)
  }

  lemma RaisedNext(latest: Option<Instant>, at: Instant, t: Instant)
    ensures AtMost(Max(latest, at), t) <==> AtMost(latest, t) && at <= t
  {
  }

  lemma NoneLaterNext(s: State, run: seq<Action>, n: nat, subject: Subject, t: Instant)
    requires n < |run| && AllAbout(run, subject)
    ensures NoneLater(s, run, n + 1, subject, t) <==>
        NoneLater(s, run, n, subject, t) && (First(s, run, n) ==> At(run[n]) <= t)
  {
  }

  lemma RaisedOnce(latest: Option<Instant>, s: State, run: seq<Action>, n: nat, subject: Subject, t: Instant)
    requires n < |run| && AllAbout(run, subject)
    ensures AtMost(Raised(latest, s, run, n + 1, subject), t)
       <==> AtMost(Raised(latest, s, run, n, subject), t) && (First(s, run, n) ==> At(run[n]) <= t)
  {
    RaisedNext(Raised(latest, s, run, n, subject), At(run[n]), t);
  }

  lemma RaisedStep(latest: Option<Instant>, s: State, run: seq<Action>, n: nat, subject: Subject, t: Instant)
    requires n < |run| && AllAbout(run, subject)
    requires AtMost(Raised(latest, s, run, n, subject), t) <==> NoneLater(s, run, n, subject, t) && AtMost(latest, t)
    ensures AtMost(Raised(latest, s, run, n + 1, subject), t) <==>
            NoneLater(s, run, n + 1, subject, t) && AtMost(latest, t)
  {
    NoneLaterNext(s, run, n, subject, t);
    RaisedOnce(latest, s, run, n, subject, t);
  }

  lemma {:induction false} RaisedIsTheMaximum(latest: Option<Instant>, s: State, run: seq<Action>, n: nat,
                                              subject: Subject, t: Instant)
    requires n <= |run| && AllAbout(run, subject)
    ensures AtMost(Raised(latest, s, run, n, subject), t) <==> NoneLater(s, run, n, subject, t) && AtMost(latest, t)
  {
    if n > 0 {
      RaisedIsTheMaximum(latest, s, run, n - 1, subject, t);
      RaisedStep(latest, s, run, n - 1, subject, t);
    }
  }

  // The log after n deliveries: one row per payload, and the mark.
  ghost predicate LogAfter(s: State, run: seq<Action>, n: nat, subject: Subject, log: EventLog)
    requires n <= |run| && AllAbout(run, subject)
  {
    && (forall k :: k in log <==> k in s.log || Arrived(run, n, k))
    && Latest(log, subject.provider, subject.objectID) == Raised(LatestOf(s, subject), s, run, n, subject)
  }

  ghost function ExpectedFate(s: State, run: seq<Action>, n: nat, subject: Subject): Fate
    requires n < |run| && AllAbout(run, subject)
  {
    if !First(s, run, n) then Duplicate else if Maximal(s, run, n, subject) then Done else Stale
  }

  lemma FateIsExpected(s: State, run: seq<Action>, n: nat, t: State, subject: Subject)
    requires n < |run| && AllAbout(run, subject) && LogAfter(s, run, n, subject, t.log)
    ensures DeliveryFate(t, run[n].delivery, run[n].env) == ExpectedFate(s, run, n, subject)
  {
    var d, e := run[n].delivery, run[n].env;
    if d.payload !in t.log {
      RaisedIsTheMaximum(LatestOf(s, subject), s, run, n, subject, At(run[n]));
      LatestAfterRecording(t.log, d.payload, Recorded(d, e.now), subject.provider, subject.objectID);
    }
  }

  lemma ArrivedNext(run: seq<Action>, n: nat, payload: string)
    requires n < |run| && run[n].Webhook?
    ensures Arrived(run, n + 1, payload) <==> Arrived(run, n, payload) || run[n].delivery.payload == payload
  {
    if Arrived(run, n, payload) {
      var j :| 0 <= j < n && run[j].Webhook? && run[j].delivery.payload == payload;
      assert 0 <= j < n + 1;
    }
  }

  lemma MarkAfterOneMore(s: State, run: seq<Action>, n: nat, log: EventLog, subject: Subject)
    requires n < |run| && AllAbout(run, subject) && LogAfter(s, run, n, subject, log)
    ensures Latest(LogAfterFate(log, run[n].delivery, run[n].env, ExpectedFate(s, run, n, subject)), subject.provider,
                   subject.objectID)
         == Raised(LatestOf(s, subject), s, run, n + 1, subject)
  {
    var d, e := run[n].delivery, run[n].env;
    if First(s, run, n) {
      LatestAfterRecording(log, d.payload, Recorded(d, e.now), subject.provider, subject.objectID);
      LatestAfterMarking(log, d.payload, Recorded(d, e.now), subject.userID);
      RaisedIsTheMaximum(LatestOf(s, subject), s, run, n, subject, At(run[n]));
    }
  }

  lemma LogAfterOneMore(s: State, run: seq<Action>, n: nat, log: EventLog, subject: Subject)
    requires n < |run| && AllAbout(run, subject) && LogAfter(s, run, n, subject, log)
    ensures LogAfter(s, run, n + 1, subject,
                     LogAfterFate(log, run[n].delivery, run[n].env, ExpectedFate(s, run, n, subject)))
  {
    MarkAfterOneMore(s, run, n, log, subject);
    forall k ensures Arrived(run, n + 1, k) <==> Arrived(run, n, k) || run[n].delivery.payload == k {
      ArrivedNext(run, n, k);
    }
  }

  lemma LogAfterStep(plans: Providers.PaystackPlans, s: State, run: seq<Action>, n: nat, t: State, subject: Subject)
    requires n < |run| && AllAbout(run, subject) && LogAfter(s, run, n, subject, t.log)
    ensures LogAfter(s, run, n + 1, subject, Step(plans, t, run[n]).log)
  {
    var d, e, fate := run[n].delivery, run[n].env, ExpectedFate(s, run, n, subject);
    assert Step(plans, t, run[n]).log == LogAfterFate(t.log, d, e, fate) by {
      FateIsExpected(s, run, n, t, subject);
    }
    LogAfterOneMore(s, run, n, t.log, subject);
  }

  lemma {:induction false} LogAlongTheRun(plans: Providers.PaystackPlans, s: State, run: seq<Action>, n: nat,
                                          subject: Subject)
    requires n <= |run| && AllAbout(run, subject)
    ensures LogAfter(s, run, n, subject, Run(plans, s, run[..n]).log)
  {
    if n > 0 {
      LogAlongTheRun(plans, s, run, n - 1, subject);
      LogAfterStep(plans, s, run, n - 1, Run(plans, s, run[..n - 1]), subject);
      RunStep(plans, s, run, n - 1);
    }
  }

  lemma HistoryAfterStep(plans: Providers.PaystackPlans, s: State, run: seq<Action>, n: nat, t: State, subject: Subject)
    requires n < |run| && AllAbout(run, subject) && LogAfter(s, run, n, subject, t.log)
    ensures Step(plans, t, run[n]).history == t.history + EntryAt(s, run, n, subject)
  {
    FateIsExpected(s, run, n, t, subject);
    assert t.history + [] == t.history;
  }

  lemma {:induction false} HistoryAlongTheRun(plans: Providers.PaystackPlans, s: State, run: seq<Action>, n: nat,
                                              subject: Subject)
    requires n <= |run| && AllAbout(run, subject)
    ensures Run(plans, s, run[..n]).history == s.history + Maxima(s, run, n, subject)
  {
    if n > 0 {
      var t, entry := Run(plans, s, run[..n - 1]), EntryAt(s, run, n - 1, subject);
      assert Run(plans, s, run[..n]).history == t.history + entry by {
        LogAlongTheRun(plans, s, run, n - 1, subject);
        HistoryAfterStep(plans, s, run, n - 1, t, subject);
        RunStep(plans, s, run, n - 1);
      }
      HistoryAlongTheRun(plans, s, run, n - 1, subject);
      Regroup(s.history, Maxima(s, run, n - 1, subject), entry);
    }
  }

  // The events applied are exactly the left-to-right maxima by provider
  // timestamp of the first deliveries, whatever the order and the duplication.
  lemma AppliedAreTheMaxima(plans: Providers.PaystackPlans, s: State, run: seq<Action>, subject: Subject)
    requires AllAbout(run, subject)
    ensures Run(plans, s, run).history == s.history + Maxima(s, run, |run|, subject)
  {
    assert run[..|run|] == run;
    HistoryAlongTheRun(plans, s, run, |run|, subject);
  }

  // ----- The final row -----

  // The row carries everything the event says.
  predicate Reflects(row: Row, provider: string, ev: WebhookEvent) {
    && row.plan == (if IsEntitledStatus(ev.status) then ev.plan else "free")
    && row.status == ev.status
    && row.provider == provider
    && row.customerID == ev.customerID
    && (ev.subscriptionID != "" ==> row.subID == ev.subscriptionID)
    && row.currency == ev.currency
    && row.interval == ev.interval
    && row.cancelAtEnd == ev.cancelAtEnd
    && (ev.periodEnd > 0 ==> row.periodEnd == Some(FromUnix(ev.periodEnd)))
    && (ev.trialEnd > 0 ==> row.trialEnd == Some(FromUnix(ev.trialEnd)))
  }

  ghost predicate UserReflects(subs: Subscriptions, subject: Subject, newest: Action)
    requires About(newest, subject)
  {
    subject.userID in subs && Reflects(subs[subject.userID], subject.provider, Event(newest))
  }

  // Every delivery is the newest one, or was recorded before the run, or is older.
  ghost predicate NoneNewer(s: State, run: seq<Action>, newest: Action, subject: Subject)
    requires AllAbout(run, subject) && About(newest, subject)
  {
    forall i :: 0 <= i < |run| ==>
      if run[i].delivery.payload == newest.delivery.payload then run[i].delivery == newest.delivery
      else run[i].delivery.payload in s.log || At(run[i]) < At(newest)
  }

  // The newest new delivery of a run: a fact about which deliveries there are,
  // not about their order or how often each one comes.
  ghost predicate Newest(s: State, run: seq<Action>, newest: Action, subject: Subject)
    requires AllAbout(run, subject) && About(newest, subject)
  {
    && newest.delivery.payload !in s.log
    && NotBefore(s, subject, At(newest))
    && Arrived(run, |run|, newest.delivery.payload)
    && NoneNewer(s, run, newest, subject)
  }

  lemma {:induction false} FirstIndex(s: State, run: seq<Action>, n: nat, payload: string) returns (i: nat)
    requires n <= |run| && payload !in s.log && Arrived(run, n, payload)
    ensures i < n && First(s, run, i) && run[i].delivery.payload == payload
  {
    i :| 0 <= i < n && run[i].Webhook? && run[i].delivery.payload == payload;
    if Arrived(run, i, payload) {
      i := FirstIndex(s, run, i, payload);
    }
  }

  lemma NewestIsMaximal(s: State, run: seq<Action>, n: nat, newest: Action, subject: Subject)
    requires n < |run| && AllAbout(run, subject) && About(newest, subject) && Newest(s, run, newest, subject)
    requires run[n].delivery.payload == newest.delivery.payload && !Arrived(run, n, newest.delivery.payload)
    ensures run[n].delivery == newest.delivery
    ensures Maximal(s, run, n, subject)
  {
    assert At(run[n]) == At(newest);
    assert First(s, run, n);
  }

  // Nothing new after the newest is a maximum.
  lemma LaterIsNotMaximal(s: State, run: seq<Action>, n: nat, newest: Action, subject: Subject)
    requires n < |run| && AllAbout(run, subject) && About(newest, subject) && Newest(s, run, newest, subject)
    requires Arrived(run, n, newest.delivery.payload)
    ensures !Maximal(s, run, n, subject)
  {
    var i := FirstIndex(s, run, n, newest.delivery.payload);
    assert At(run[i]) == At(newest);
  }

  lemma NewestIsReflected(plans: Providers.PaystackPlans, t: State, a: Action, newest: Action, subject: Subject)
    requires About(a, subject) && About(newest, subject) && a.delivery == newest.delivery
    requires DeliveryFate(t, a.delivery, a.env) == Done
    ensures UserReflects(Step(plans, t, a).subs, subject, newest)
  {
  }

  lemma NotDoneChangesNoRow(plans: Providers.PaystackPlans, t: State, a: Action)
    requires a.Webhook? && DeliveryFate(t, a.delivery, a.env) != Done
    ensures Step(plans, t, a).subs == t.subs
  {
  }

  // Once the newest has come, the row reflects it.
  lemma {:induction false} NewestStays(plans: Providers.PaystackPlans, s: State, run: seq<Action>, n: nat,
                                       newest: Action, subject: Subject)
    requires n <= |run| && AllAbout(run, subject) && About(newest, subject) && Newest(s, run, newest, subject)
    requires Arrived(run, n, newest.delivery.payload)
    ensures UserReflects(Run(plans, s, run[..n]).subs, subject, newest)
  {
    var last := n - 1;
    var t := Run(plans, s, run[..last]);
    assert DeliveryFate(t, run[last].delivery, run[last].env) == ExpectedFate(s, run, last, subject) by {
      LogAlongTheRun(plans, s, run, last, subject);
      FateIsExpected(s, run, last, t, subject);
    }
    RunStep(plans, s, run, last);
    ArrivedNext(run, last, newest.delivery.payload);
    if Arrived(run, last, newest.delivery.payload) {
      NewestStays(plans, s, run, last, newest, subject);
      LaterIsNotMaximal(s, run, last, newest, subject);
      NotDoneChangesNoRow(plans, t, run[last]);
    } else {
      NewestIsMaximal(s, run, last, newest, subject);
      NewestIsReflected(plans, t, run[last], newest, subject);
    }
  }

  // The final plan, status, ids, currency, interval and cancel flag, and the
  // period and trial end when it carries them, are those of the newest event.
  lemma NewestWins(plans: Providers.PaystackPlans, s: State, run: seq<Action>, newest: Action, subject: Subject)
    requires AllAbout(run, subject) && About(newest, subject) && Newest(s, run, newest, subject)
    ensures UserReflects(Run(plans, s, run).subs, subject, newest)
  {
    assert run[..|run|] == run;
    NewestStays(plans, s, run, |run|, newest, subject);
  }

  ghost predicate Delivers(run: seq<Action>, d: Delivery) {
    exists i :: 0 <= i < |run| && run[i].Webhook? && run[i].delivery == d
  }

  ghost predicate SameDeliveries(one: seq<Action>, other: seq<Action>) {
    forall d :: Delivers(one, d) <==> Delivers(other, d)
  }

  // Which delivery is newest is a fact about the deliveries, not about their order.
  lemma NewestOfSame(s: State, one: seq<Action>, other: seq<Action>, newest: Action, subject: Subject)
    requires AllAbout(one, subject) && AllAbout(other, subject) && SameDeliveries(one, other)
    requires About(newest, subject) && Newest(s, one, newest, subject)
    ensures Newest(s, other, newest, subject)
  {
    var i :| 0 <= i < |one| && one[i].Webhook? && one[i].delivery.payload == newest.delivery.payload;
    assert Delivers(one, one[i].delivery);
    var k :| 0 <= k < |other| && other[k].Webhook? && other[k].delivery == one[i].delivery;
    assert Arrived(other, |other|, newest.delivery.payload);
    forall j | 0 <= j < |other|
      ensures if other[j].delivery.payload == newest.delivery.payload then other[j].delivery == newest.delivery
              else other[j].delivery.payload in s.log || At(other[j]) < At(newest)
    {
      assert Delivers(other, other[j].delivery);
      var m :| 0 <= m < |one| && one[m].Webhook? && one[m].delivery == other[j].delivery;
    }
  }

  // Two runs that deliver the same payloads, in any order, with any repetition
  // and at any times, both end with everything the newest event says. What it
  // leaves out may still differ between them: see `FinalRow`.
  lemma BothEndWithTheNewest(plans: Providers.PaystackPlans, s: State, one: seq<Action>, other: seq<Action>,
                             newest: Action, subject: Subject)
    requires AllAbout(one, subject) && AllAbout(other, subject) && SameDeliveries(one, other)
    requires About(newest, subject) && Newest(s, one, newest, subject)
    ensures UserReflects(Run(plans, s, one).subs, subject, newest)
    ensures UserReflects(Run(plans, s, other).subs, subject, newest)
  {
    NewestOfSame(s, one, other, newest, subject);
    NewestWins(plans, s, one, newest, subject);
    NewestWins(plans, s, other, newest, subject);
  }
}
