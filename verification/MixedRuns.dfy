/** Convergence in company: within the retention period nothing that happens in
    between shows in what is applied to one object, and nothing that other users
    and the clean-up do shows in the row of its user. */
module MixedRuns {
  import opened Core
  import opened Records
  import opened Entitlements
  import opened BillingMachine
  import opened RowInvariants
  import opened Convergence
  import FinalRow
  import Providers

  // Not about the object: any other payload, any redemption, cancellation or
  // clean-up, the user's own among them.
  predicate Beside(a: Action, subject: Subject, payloads: set<string>) {
    a.Webhook? ==>
      && a.delivery.payload !in payloads
      && (a.delivery.decoded.Parsed? ==>
            !(a.delivery.provider == subject.provider && ObjectID(a.delivery.decoded.event) == subject.objectID))
  }

  // Nothing to do with the user either.
  predicate Elsewhere(a: Action, subject: Subject, payloads: set<string>) {
    Beside(a, subject, payloads)
    && match a
       case Webhook(d, e) => d.decoded.Parsed? ==> Owner(d.decoded.event, e.found) != Some(subject.userID)
       case Verify(r, _) => r.user.id != subject.userID
       case CancelPlan(u, _, _) => u != subject.userID
       case Cleanup(_) => true
  }

  predicate Ours(a: Action, subject: Subject, payloads: set<string>) {
    About(a, subject) && a.delivery.payload in payloads
  }

  // `payloads` are the bodies about the subject; anything else may come between.
  ghost predicate InCompany(run: seq<Action>, subject: Subject, payloads: set<string>) {
    && (forall k :: k in payloads ==> JsonDocument(k))
    && forall i :: 0 <= i < |run| ==> Ours(run[i], subject, payloads) || Beside(run[i], subject, payloads)
  }

  // Only what has nothing to do with the user comes between.
  ghost predicate Mixed(run: seq<Action>, subject: Subject, payloads: set<string>) {
    && (forall k :: k in payloads ==> JsonDocument(k))
    && forall i :: 0 <= i < |run| ==> Ours(run[i], subject, payloads) || Elsewhere(run[i], subject, payloads)
  }

  // The subject's own deliveries.
  ghost function Own(run: seq<Action>, subject: Subject): (own: seq<Action>)
    ensures AllAbout(own, subject)
  {
    if run == [] then []
    else
      var last := run[|run| - 1];
      Own(run[..|run| - 1], subject) + (if About(last, subject) then [last] else [])
  }

  // Log rows that matter to the subject are no older than `floor`.
  ghost predicate Recent(log: EventLog, subject: Subject, payloads: set<string>, floor: Instant) {
    forall k :: k in log && (k in payloads || Counts(log[k], subject.provider, subject.objectID)) ==>
        log[k].createdAt >= floor
  }

  // The run ends within the retention period of every row that matters to it.
  ghost predicate WithinRetention(s: State, run: seq<Action>, subject: Subject, payloads: set<string>) {
    && ClockOf(s, run) - RETENTION <= s.clock
    && Recent(s.log, subject, payloads, ClockOf(s, run) - RETENTION)
  }

  // ----- What the two states share -----

  predicate SameRow(one: Subscriptions, other: Subscriptions, u: string) {
    (u in one <==> u in other) && (u in one ==> one[u] == other[u])
  }

  ghost predicate SameLog(one: EventLog, other: EventLog, subject: Subject, payloads: set<string>) {
    && (forall k :: k in payloads ==> (k in one <==> k in other))
    && Latest(one, subject.provider, subject.objectID) == Latest(other, subject.provider, subject.objectID)
  }

  // The applications to the object.
  function AppliedTo(history: seq<Applied>, subject: Subject): seq<Applied> {
    if history == [] then []
    else
      var last := history[|history| - 1];
      AppliedTo(history[..|history| - 1], subject)
      + (if last.EventApplied? && last.provider == subject.provider && last.objectID == subject.objectID then [last]
          else [])
  }

  ghost predicate Alike(t: State, f: State, subject: Subject, payloads: set<string>) {
    && SameLog(t.log, f.log, subject, payloads)
    && AppliedTo(t.history, subject) == AppliedTo(f.history, subject)
  }

  lemma AppliedToSnoc(history: seq<Applied>, x: Applied, subject: Subject)
    ensures AppliedTo(history + [x], subject)
         == AppliedTo(history, subject)
            + (if x.EventApplied? && x.provider == subject.provider && x.objectID == subject.objectID then [x] else [])
  {
    assert (history + [x])[..|history|] == history;
  }

  // ----- Elsewhere -----

  lemma LatestAfterPruning(log: EventLog, now: Instant, subject: Subject, payloads: set<string>, floor: Instant)
    requires Recent(log, subject, payloads, floor) && now - RETENTION <= floor
    ensures SameLog(Prune(log, now), log, subject, payloads) && Recent(Prune(log, now), subject, payloads, floor)
  {
    var latest := Latest(log, subject.provider, subject.objectID);
    if subject.objectID != "" && latest.Some? {
      var k :| k in log && Counts(log[k], subject.provider, subject.objectID) && log[k].eventAt == latest;
      assert k in Prune(log, now);
    }
    LatestIsUnique(Prune(log, now), subject.provider, subject.objectID, latest);
  }

  // A row of another object or a claim.
  lemma OtherRowAdded(log: EventLog, key: string, row: LogRow, subject: Subject, payloads: set<string>, floor: Instant)
    requires key !in log && key !in payloads && !row.processed && Recent(log, subject, payloads, floor)
    ensures SameLog(log[key := row], log, subject, payloads) && Recent(log[key := row], subject, payloads, floor)
  {
    LatestAfterRecording(log, key, row, subject.provider, subject.objectID);
  }

  lemma OtherRowMarked(log: EventLog, key: string, userID: string, subject: Subject, payloads: set<string>,
                       floor: Instant)
    requires key in log && !(log[key].provider == subject.provider && log[key].objectID == subject.objectID)
    requires Recent(log, subject, payloads, floor)
    ensures SameLog(Mark(log, key, userID), log, subject, payloads)
    ensures Recent(Mark(log, key, userID), subject, payloads, floor)
  {
    var latest, after := Latest(log, subject.provider, subject.objectID), Mark(log, key, userID);
    if subject.objectID != "" && latest.Some? {
      var k :| k in log && Counts(log[k], subject.provider, subject.objectID) && log[k].eventAt == latest;
      assert k in after && after[k] == log[k];
    }
    LatestIsUnique(after, subject.provider, subject.objectID, latest);
  }

  lemma OtherDeliveryLog(s: State, d: Delivery, e: Env, subject: Subject, payloads: set<string>, floor: Instant)
    requires Beside(Webhook(d, e), subject, payloads) && Recent(s.log, subject, payloads, floor)
    ensures SameLog(Deliver(s, d, e).log, s.log, subject, payloads)
    ensures Recent(Deliver(s, d, e).log, subject, payloads, floor)
  {
    var fate := DeliveryFate(s, d, e);
    if fate in {NotActedOn, Stale, Failed, Done} {
      var recorded := s.log[d.payload := Recorded(d, e.now)];
      OtherRowAdded(s.log, d.payload, Recorded(d, e.now), subject, payloads, floor);
      if fate == Done && e.markOk {
        OtherRowMarked(recorded, d.payload, d.decoded.event.userID, subject, payloads, floor);
      }
    }
  }

  lemma OtherUpsert(subs: Subscriptions, row: Row, newID: string, u: string)
    requires row.userID != u
    ensures SameRow(Upsert(subs, row, newID), subs, u)
  {
  }

  lemma OtherDeliveryHistory(s: State, d: Delivery, e: Env, subject: Subject, payloads: set<string>)
    requires Beside(Webhook(d, e), subject, payloads)
    ensures AppliedTo(Deliver(s, d, e).history, subject) == AppliedTo(s.history, subject)
  {
    if DeliveryFate(s, d, e) == Done {
      AppliedToSnoc(s.history, EventEntry(d, e), subject);
      assert AppliedTo(s.history, subject) + [] == AppliedTo(s.history, subject);
    }
  }

  lemma OtherDelivery(s: State, d: Delivery, e: Env, subject: Subject, payloads: set<string>)
    requires Elsewhere(Webhook(d, e), subject, payloads)
    ensures SameRow(Deliver(s, d, e).subs, s.subs, subject.userID)
  {
    if DeliveryFate(s, d, e) == Done {
      var u := Owner(d.decoded.event, e.found).value;
      OtherUpsert(s.subs, EventRow(ReadSubscription(s.subs, u, e.now), d.decoded.event, d.provider, u, e.now), e.newID,
                  subject.userID);
    }
  }

  lemma RedemptionIsUnseen(plans: Providers.PaystackPlans, s: State, r: Redemption, e: Env, subject: Subject,
                           payloads: set<string>, floor: Instant)
    requires (forall k :: k in payloads ==> JsonDocument(k)) && Recent(s.log, subject, payloads, floor)
    ensures Alike(Redeem(plans, s, r, e), s, subject, payloads)
    ensures Recent(Redeem(plans, s, r, e).log, subject, payloads, floor)
  {
    var verdict := RedemptionVerdict(plans, s, r, e);
    if verdict == WriteFailed || verdict == Granted {
      if ClaimKey(r.reference) in payloads {
        ClaimsAreNotPayloads(ClaimKey(r.reference), r.reference);
      }
      OtherRowAdded(s.log, ClaimKey(r.reference), Claim(r, e.now), subject, payloads, floor);
      if verdict == Granted {
        AppliedToSnoc(s.history, ReferenceEntry(plans, ReadSubscription(s.subs, r.user.id, e.now), r, e.now), subject);
        assert AppliedTo(s.history, subject) + [] == AppliedTo(s.history, subject);
      }
    }
  }

  lemma OtherRedemption(plans: Providers.PaystackPlans, s: State, r: Redemption, e: Env, u: string)
    requires r.user.id != u
    ensures SameRow(Redeem(plans, s, r, e).subs, s.subs, u)
  {
    if RedemptionVerdict(plans, s, r, e) == Granted {
      OtherUpsert(s.subs, RedeemedRow(plans, ReadSubscription(s.subs, r.user.id, e.now), r, e.now), e.newID, u);
    }
  }

  lemma OtherCancellation(s: State, v: string, ok: bool, e: Env, u: string)
    requires FiledByUser(s.subs) && v != u
    ensures SameRow(Cancel(s, v, ok, e).subs, s.subs, u)
  {
    if CancelReplyTo(s, v, ok, e) == Cancelled {
      ViewOverridesForceFree(s.subs[v], e.now);
      OtherUpsert(s.subs, ReadSubscription(s.subs, v, e.now).(cancelAtEnd := true, updatedAt := e.now), e.newID, u);
    }
  }

  lemma BesideIsUnseen(plans: Providers.PaystackPlans, s: State, a: Action, subject: Subject, payloads: set<string>,
                       floor: Instant)
    requires Beside(a, subject, payloads) && (forall k :: k in payloads ==> JsonDocument(k))
    requires Recent(s.log, subject, payloads, floor) && a.env.now - RETENTION <= floor
    ensures Alike(Step(plans, s, a), s, subject, payloads) && Recent(Step(plans, s, a).log, subject, payloads, floor)
  {
    match a
    case Webhook(d, e) =>
      OtherDeliveryHistory(s, d, e, subject, payloads);
      OtherDeliveryLog(s, d, e, subject, payloads, floor);
    case Verify(r, e) => RedemptionIsUnseen(plans, s, r, e, subject, payloads, floor);
    case CancelPlan(_, _, _) =>
    case Cleanup(e) => LatestAfterPruning(s.log, e.now, subject, payloads, floor);
  }

  lemma ElsewhereKeepsTheRow(plans: Providers.PaystackPlans, s: State, a: Action, subject: Subject,
                             payloads: set<string>)
    requires FiledByUser(s.subs) && Elsewhere(a, subject, payloads)
    ensures SameRow(Step(plans, s, a).subs, s.subs, subject.userID)
  {
    match a
    case Webhook(d, e) => OtherDelivery(s, d, e, subject, payloads);
    case Verify(r, e) => OtherRedemption(plans, s, r, e, subject.userID);
    case CancelPlan(v, ok, e) => OtherCancellation(s, v, ok, e, subject.userID);
    case Cleanup(_) =>
  }

  // ----- The subject's own deliveries -----

  lemma SameFate(t: State, f: State, d: Delivery, e: Env, subject: Subject, payloads: set<string>)
    requires Ours(Webhook(d, e), subject, payloads) && SameLog(t.log, f.log, subject, payloads)
    ensures DeliveryFate(t, d, e) == DeliveryFate(f, d, e)
  {
    if d.payload !in t.log {
      LatestAfterRecording(t.log, d.payload, Recorded(d, e.now), subject.provider, subject.objectID);
      LatestAfterRecording(f.log, d.payload, Recorded(d, e.now), subject.provider, subject.objectID);
    }
  }

  lemma MarkRaises(log: EventLog, d: Delivery, e: Env, fate: Fate, subject: Subject, payloads: set<string>)
    requires Ours(Webhook(d, e), subject, payloads) && d.payload !in log && fate in {Stale, Done}
    ensures var mark := Latest(log, subject.provider, subject.objectID);
            Latest(LogAfterFate(log, d, e, fate), subject.provider, subject.objectID)
            == if fate == Done then Max(mark, FromUnix(d.decoded.event.eventAt)) else mark
  {
    LatestAfterRecording(log, d.payload, Recorded(d, e.now), subject.provider, subject.objectID);
    LatestAfterMarking(log, d.payload, Recorded(d, e.now), subject.userID);
  }

  lemma OwnDeliveryLog(t: State, f: State, d: Delivery, e: Env, subject: Subject, payloads: set<string>, floor: Instant)
    requires Ours(Webhook(d, e), subject, payloads) && SameLog(t.log, f.log, subject, payloads)
    requires Recent(t.log, subject, payloads, floor) && floor <= e.now
    ensures SameLog(Deliver(t, d, e).log, Deliver(f, d, e).log, subject, payloads)
    ensures Recent(Deliver(t, d, e).log, subject, payloads, floor)
  {
    SameFate(t, f, d, e, subject, payloads);
    var fate := DeliveryFate(t, d, e);
    if d.payload !in t.log {
      MarkRaises(t.log, d, e, fate, subject, payloads);
      MarkRaises(f.log, d, e, fate, subject, payloads);
    }
  }

  lemma SameUpsert(one: Subscriptions, other: Subscriptions, row: Row, newID: string, u: string)
    requires SameRow(one, other, u)
    ensures SameRow(Upsert(one, row, newID), Upsert(other, row, newID), u)
  {
  }

  lemma OwnDeliveryRow(t: State, f: State, d: Delivery, e: Env, subject: Subject, payloads: set<string>)
    requires Ours(Webhook(d, e), subject, payloads) && SameLog(t.log, f.log, subject, payloads)
    requires SameRow(t.subs, f.subs, subject.userID)
    ensures SameRow(Deliver(t, d, e).subs, Deliver(f, d, e).subs, subject.userID)
  {
    SameFate(t, f, d, e, subject, payloads);
    if DeliveryFate(t, d, e) == Done {
      var u := subject.userID;
      var row := EventRow(ReadSubscription(t.subs, u, e.now), d.decoded.event, d.provider, u, e.now);
      assert row == EventRow(ReadSubscription(f.subs, u, e.now), d.decoded.event, d.provider, u, e.now);
      SameUpsert(t.subs, f.subs, row, e.newID, u);
    }
  }

  lemma OwnDeliveryHistory(t: State, f: State, d: Delivery, e: Env, subject: Subject, payloads: set<string>)
    requires Ours(Webhook(d, e), subject, payloads) && Alike(t, f, subject, payloads)
    ensures AppliedTo(Deliver(t, d, e).history, subject) == AppliedTo(Deliver(f, d, e).history, subject)
  {
    SameFate(t, f, d, e, subject, payloads);
    if DeliveryFate(t, d, e) == Done {
      AppliedToSnoc(t.history, EventEntry(d, e), subject);
      AppliedToSnoc(f.history, EventEntry(d, e), subject);
    }
  }

  // ----- Whole runs -----

  lemma AlikeTwice(s: State, t: State, f: State, subject: Subject, payloads: set<string>)
    requires Alike(s, t, subject, payloads) && Alike(t, f, subject, payloads)
    ensures Alike(s, f, subject, payloads)
  {
  }

  lemma AlikeNext(plans: Providers.PaystackPlans, t: State, f: State, a: Action, subject: Subject,
                  payloads: set<string>, floor: Instant)
    requires Alike(t, f, subject, payloads) && (forall k :: k in payloads ==> JsonDocument(k))
    requires Ours(a, subject, payloads) || Beside(a, subject, payloads)
    requires Recent(t.log, subject, payloads, floor) && a.env.now - RETENTION <= floor <= a.env.now
    ensures Recent(Step(plans, t, a).log, subject, payloads, floor)
    ensures Alike(Step(plans, t, a), if About(a, subject) then Step(plans, f, a) else f, subject, payloads)
  {
    if Ours(a, subject, payloads) {
      OwnDeliveryHistory(t, f, a.delivery, a.env, subject, payloads);
      OwnDeliveryLog(t, f, a.delivery, a.env, subject, payloads, floor);
    } else {
      BesideIsUnseen(plans, t, a, subject, payloads, floor);
      AlikeTwice(Step(plans, t, a), t, f, subject, payloads);
    }
  }

  lemma SameRowTwice(a: Subscriptions, b: Subscriptions, c: Subscriptions, u: string)
    requires SameRow(a, b, u) && SameRow(b, c, u)
    ensures SameRow(a, c, u)
  {
  }

  lemma SameRowNext(plans: Providers.PaystackPlans, t: State, f: State, a: Action, subject: Subject,
                    payloads: set<string>)
    requires SameRow(t.subs, f.subs, subject.userID) && SameLog(t.log, f.log, subject, payloads)
    requires FiledByUser(t.subs) && (Ours(a, subject, payloads) || Elsewhere(a, subject, payloads))
    ensures SameRow(Step(plans, t, a).subs, (if About(a, subject) then Step(plans, f, a) else f).subs, subject.userID)
  {
    if Ours(a, subject, payloads) {
      OwnDeliveryRow(t, f, a.delivery, a.env, subject, payloads);
    } else {
      ElsewhereKeepsTheRow(plans, t, a, subject, payloads);
      SameRowTwice(Step(plans, t, a).subs, t.subs, f.subs, subject.userID);
    }
  }

  lemma OwnNext(plans: Providers.PaystackPlans, s: State, run: seq<Action>, subject: Subject)
    requires run != []
    ensures var last, before := run[|run| - 1], Own(run[..|run| - 1], subject);
            Run(plans, s, Own(run, subject))
            == if About(last, subject) then Step(plans, Run(plans, s, before), last) else Run(plans, s, before)
  {
    var last, before := run[|run| - 1], Own(run[..|run| - 1], subject);
    if About(last, subject) {
      assert Own(run, subject)[..|before|] == before;
    } else {
      assert Own(run, subject) == before;
    }
  }

  lemma {:induction false} ClockGrows(s: State, run: seq<Action>)
    requires Chronological(s, run)
    ensures s.clock <= ClockOf(s, run)
  {
    if run != [] {
      ClockGrows(s, run[..|run| - 1]);
    }
  }

  lemma {:induction false} AlikeAlongTheRun(plans: Providers.PaystackPlans, s: State, run: seq<Action>,
                                            subject: Subject, payloads: set<string>, floor: Instant)
    requires InCompany(run, subject, payloads) && Chronological(s, run)
    requires Recent(s.log, subject, payloads, floor) && ClockOf(s, run) - RETENTION <= floor <= s.clock
    ensures Alike(Run(plans, s, run), Run(plans, s, Own(run, subject)), subject, payloads)
    ensures Recent(Run(plans, s, run).log, subject, payloads, floor)
  {
    if run != [] {
      var before, last := run[..|run| - 1], run[|run| - 1];
      ClockGrows(s, before);
      AlikeAlongTheRun(plans, s, before, subject, payloads, floor);
      AlikeNext(plans, Run(plans, s, before), Run(plans, s, Own(before, subject)), last, subject, payloads, floor);
      OwnNext(plans, s, run, subject);
    }
  }

  lemma {:induction false} SameRowAlongTheRun(plans: Providers.PaystackPlans, s: State, run: seq<Action>,
                                              subject: Subject, payloads: set<string>, floor: Instant)
    requires FiledByUser(s.subs) && Mixed(run, subject, payloads) && Chronological(s, run)
    requires Recent(s.log, subject, payloads, floor) && ClockOf(s, run) - RETENTION <= floor <= s.clock
    ensures SameRow(Run(plans, s, run).subs, Run(plans, s, Own(run, subject)).subs, subject.userID)
  {
    if run != [] {
      var before, last := run[..|run| - 1], run[|run| - 1];
      ClockGrows(s, before);
      SameRowAlongTheRun(plans, s, before, subject, payloads, floor);
      AlikeAlongTheRun(plans, s, before, subject, payloads, floor);
      KnownFieldsStay(plans, s, before);
      SameRowNext(plans, Run(plans, s, before), Run(plans, s, Own(before, subject)), last, subject, payloads);
      OwnNext(plans, s, run, subject);
    }
  }

  // A run among other users' actions and clean-ups leaves the subject's user the
  // very row, and applies to the object the very events, that its own deliveries
  // alone would.
  lemma OthersDoNotShow(plans: Providers.PaystackPlans, s: State, run: seq<Action>, subject: Subject,
                        payloads: set<string>)
    requires FiledByUser(s.subs) && Mixed(run, subject, payloads) && Chronological(s, run)
    requires WithinRetention(s, run, subject, payloads)
    ensures SameRow(Run(plans, s, run).subs, Run(plans, s, Own(run, subject)).subs, subject.userID)
    ensures AppliedTo(Run(plans, s, run).history, subject)
         == AppliedTo(Run(plans, s, Own(run, subject)).history, subject)
  {
    SameRowAlongTheRun(plans, s, run, subject, payloads, ClockOf(s, run) - RETENTION);
    AlikeAlongTheRun(plans, s, run, subject, payloads, ClockOf(s, run) - RETENTION);
  }

  predicate IsApplication(entry: seq<Applied>, subject: Subject) {
    entry == []
    || (|entry| == 1 && entry[0].EventApplied? && entry[0].provider == subject.provider
        && entry[0].objectID == subject.objectID)
  }

  lemma OneMoreApplied(history: seq<Applied>, before: seq<Applied>, entry: seq<Applied>, subject: Subject)
    requires IsApplication(entry, subject) && Splits(history, before, subject)
    ensures Splits(history, before + entry, subject)
  {
    if entry == [] {
      assert before + entry == before;
    } else {
      assert entry == [entry[0]];
      AppliedToSnoc(history + before, entry[0], subject);
      Regroup(history, before, entry);
      Regroup(AppliedTo(history, subject), before, entry);
    }
  }

  lemma EntryIsApplication(s: State, run: seq<Action>, n: nat, subject: Subject)
    requires n < |run| && AllAbout(run, subject)
    ensures IsApplication(EntryAt(s, run, n, subject), subject)
  {
  }

  predicate Splits(history: seq<Applied>, more: seq<Applied>, subject: Subject) {
    AppliedTo(history + more, subject) == AppliedTo(history, subject) + more
  }

  lemma {:induction false} MaximaAreApplied(history: seq<Applied>, s: State, run: seq<Action>, n: nat, subject: Subject)
    requires n <= |run| && AllAbout(run, subject)
    ensures Splits(history, Maxima(s, run, n, subject), subject)
  {
    if n == 0 {
      assert history + [] == history && AppliedTo(history, subject) + [] == AppliedTo(history, subject);
    } else {
      MaximaAreApplied(history, s, run, n - 1, subject);
      EntryIsApplication(s, run, n - 1, subject);
      OneMoreApplied(history, Maxima(s, run, n - 1, subject), EntryAt(s, run, n - 1, subject), subject);
    }
  }

  // The events applied to the object are exactly the left-to-right maxima among
  // the first of its own deliveries, whatever else happens to anyone, the user's
  // own redemptions, cancellations and other subscriptions included.
  lemma MaximaInCompany(plans: Providers.PaystackPlans, s: State, run: seq<Action>, subject: Subject,
                        payloads: set<string>)
    requires InCompany(run, subject, payloads) && Chronological(s, run)
    requires WithinRetention(s, run, subject, payloads)
    ensures var own := Own(run, subject);
            AppliedTo(Run(plans, s, run).history, subject)
            == AppliedTo(s.history, subject) + Maxima(s, own, |own|, subject)
  {
    var own := Own(run, subject);
    AlikeAlongTheRun(plans, s, run, subject, payloads, ClockOf(s, run) - RETENTION);
    AppliedAreTheMaxima(plans, s, own, subject);
    MaximaAreApplied(s.history, s, own, |own|, subject);
  }

  // Two runs among other users' actions with the same deliveries about the
  // subject both end with the newest event, and in the same row when the
  // deliveries settle it.
  lemma ConvergesInCompany(plans: Providers.PaystackPlans, s: State, one: seq<Action>, other: seq<Action>,
                           newest: Action, subject: Subject, payloads: set<string>)
    requires FiledByUser(s.subs) && Mixed(one, subject, payloads) && Mixed(other, subject, payloads)
    requires Chronological(s, one) && WithinRetention(s, one, subject, payloads)
    requires Chronological(s, other) && WithinRetention(s, other, subject, payloads)
    requires SameDeliveries(Own(one, subject), Own(other, subject))
    requires About(newest, subject) && Newest(s, Own(one, subject), newest, subject)
    ensures var a, b := Run(plans, s, one).subs, Run(plans, s, other).subs;
            && UserReflects(a, subject, newest) && UserReflects(b, subject, newest)
            && (FinalRow.AllSettled(s, Own(one, subject), newest, subject) ==>
                  FinalRow.SameColumns(a[subject.userID], b[subject.userID]))
  {
    OthersDoNotShow(plans, s, one, subject, payloads);
    OthersDoNotShow(plans, s, other, subject, payloads);
    BothEndWithTheNewest(plans, s, Own(one, subject), Own(other, subject), newest, subject);
    if FinalRow.AllSettled(s, Own(one, subject), newest, subject) {
      FinalRow.SettledRowsAgree(plans, s, Own(one, subject), Own(other, subject), newest, subject);
    }
  }
}
