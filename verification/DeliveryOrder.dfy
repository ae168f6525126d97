/** Which deliveries the ordering check turns away, told from the run alone: by what
    the events say about their object and not by any table. */
module DeliveryOrder {
  import opened Core
  import opened Records
  import opened BillingMachine
  import Providers

  // Two events are about one object: they name the same subscription; or one
  // names none, and its customer is what the other goes by.
  predicate SameObject(a: WebhookEvent, b: WebhookEvent) {
    if a.subscriptionID != "" && b.subscriptionID != "" then a.subscriptionID == b.subscriptionID
    else if a.subscriptionID != "" then a.subscriptionID == b.customerID
    else if b.subscriptionID != "" then a.customerID == b.subscriptionID
    else a.customerID == b.customerID != ""
  }

  lemma SameObjectIs(a: WebhookEvent, b: WebhookEvent)
    ensures SameObject(a, b) <==> ObjectID(a) == ObjectID(b) != ""
  {
  }

  // ----- One delivery -----

  // The delivery is applied and marked, and is a newer event about ev's object.
  ghost predicate Supersedes(s: State, d: Delivery, e: Env, provider: string, ev: WebhookEvent) {
    && DeliveryFate(s, d, e) == Done && e.markOk && d.provider == provider
    && SameObject(d.decoded.event, ev) && 0 < ev.eventAt < d.decoded.event.eventAt
  }

  // A row that turns ev away, and was recorded at `floor` or later.
  predicate TurnsAway(row: LogRow, provider: string, ev: WebhookEvent, floor: Instant) {
    && ev.eventAt > 0 && ObjectID(ev) != "" && Counts(row, provider, ObjectID(ev))
    && row.eventAt.value > FromUnix(ev.eventAt) && row.createdAt >= floor
  }

  ghost predicate StaleSince(log: EventLog, provider: string, ev: WebhookEvent, floor: Instant) {
    exists k :: k in log && TurnsAway(log[k], provider, ev, floor)
  }

  lemma StaleMeansNewerRow(log: EventLog, provider: string, ev: WebhookEvent)
    ensures IsStale(log, provider, ev) <==> exists floor :: StaleSince(log, provider, ev, floor)
  {
    var latest := Latest(log, provider, ObjectID(ev));
    if IsStale(log, provider, ev) {
      var k :| k in log && Counts(log[k], provider, ObjectID(ev)) && log[k].eventAt == latest;
      assert TurnsAway(log[k], provider, ev, log[k].createdAt);
      assert StaleSince(log, provider, ev, log[k].createdAt);
    }
  }

  lemma RowAdded(log: EventLog, key: string, row: LogRow, provider: string, ev: WebhookEvent, floor: Instant)
    requires key !in log
    ensures StaleSince(log[key := row], provider, ev, floor) <==>
            StaleSince(log, provider, ev, floor) || TurnsAway(row, provider, ev, floor)
  {
    if StaleSince(log, provider, ev, floor) {
      var k :| k in log && TurnsAway(log[k], provider, ev, floor);
      assert k in log[key := row] && TurnsAway(log[key := row][k], provider, ev, floor);
    }
    if TurnsAway(row, provider, ev, floor) {
      assert key in log[key := row] && TurnsAway(log[key := row][key], provider, ev, floor);
    }
  }

  // The row that a delivery leaves behind, when it leaves one.
  function RowLeft(d: Delivery, e: Env, fate: Fate): LogRow {
    var row := Recorded(d, e.now);
    if fate == Done && e.markOk && d.decoded.Parsed? then row.(processed := true, userID := d.decoded.event.userID)
    else row
  }

  lemma DeliveryLeavesItsRow(s: State, d: Delivery, e: Env)
    ensures var fate := DeliveryFate(s, d, e);
            Deliver(s, d, e).log
            == if fate in {Refused, NotRecorded, Duplicate} then s.log else s.log[d.payload := RowLeft(d, e, fate)]
  {
  }

  lemma RowLeftTurnsAway(s: State, d: Delivery, e: Env, provider: string, ev: WebhookEvent, floor: Instant)
    ensures TurnsAway(RowLeft(d, e, DeliveryFate(s, d, e)), provider, ev, floor) <==>
            Supersedes(s, d, e, provider, ev) && e.now >= floor
  {
    if DeliveryFate(s, d, e) == Done {
      SameObjectIs(d.decoded.event, ev);
    }
  }

  lemma StaleAfterDelivery(s: State, d: Delivery, e: Env, provider: string, ev: WebhookEvent, floor: Instant)
    ensures StaleSince(Deliver(s, d, e).log, provider, ev, floor) <==>
            StaleSince(s.log, provider, ev, floor) || (Supersedes(s, d, e, provider, ev) && e.now >= floor)
  {
    var fate := DeliveryFate(s, d, e);
    DeliveryLeavesItsRow(s, d, e);
    if fate !in {Refused, NotRecorded, Duplicate} {
      RowAdded(s.log, d.payload, RowLeft(d, e, fate), provider, ev, floor);
      RowLeftTurnsAway(s, d, e, provider, ev, floor);
    }
  }

  // One delivery makes an event stale exactly when it is applied and marked, is
  // about the same object, and happened later by the provider's clock.
  lemma DeliveryMakesStaleExactlyWhen(s: State, d: Delivery, e: Env, provider: string, ev: WebhookEvent)
    ensures IsStale(Deliver(s, d, e).log, provider, ev) <==>
            IsStale(s.log, provider, ev) || Supersedes(s, d, e, provider, ev)
  {
    var after := Deliver(s, d, e).log;
    StaleMeansNewerRow(s.log, provider, ev);
    StaleMeansNewerRow(after, provider, ev);
    if IsStale(after, provider, ev) {
      var floor :| StaleSince(after, provider, ev, floor);
      StaleAfterDelivery(s, d, e, provider, ev, floor);
    }
    if IsStale(s.log, provider, ev) {
      var floor :| StaleSince(s.log, provider, ev, floor);
      StaleAfterDelivery(s, d, e, provider, ev, floor);
    }
    StaleAfterDelivery(s, d, e, provider, ev, e.now);
  }

  // In particular a subscription's notices never hold up a renewal charge, which
  // names its customer only, and the charges never hold up the notices.
  lemma ChargesAndNoticesAreApart(s: State, d: Delivery, e: Env, provider: string, ev: WebhookEvent)
    requires d.decoded.Parsed?
    requires || (d.decoded.event.subscriptionID != "" && ev.subscriptionID == ""
                 && d.decoded.event.subscriptionID != ev.customerID)
             || (d.decoded.event.subscriptionID == "" && ev.subscriptionID != ""
                 && d.decoded.event.customerID != ev.subscriptionID)
    ensures IsStale(Deliver(s, d, e).log, provider, ev) <==> IsStale(s.log, provider, ev)
  {
    DeliveryMakesStaleExactlyWhen(s, d, e, provider, ev);
  }

  // And of one subscription, an older notice that comes after a newer one was
  // applied and marked is turned away, whatever customers the two name.
  lemma OlderNoticeIsStale(s: State, d: Delivery, e: Env, late: Delivery, f: Env)
    requires DeliveryFate(s, d, e) == Done && e.markOk && late.decoded.Parsed? && late.provider == d.provider
    requires var newer, older := d.decoded.event, late.decoded.event;
             newer.subscriptionID == older.subscriptionID != "" && 0 < older.eventAt < newer.eventAt
    requires f.recordOk && late.payload !in Deliver(s, d, e).log
    ensures DeliveryFate(Deliver(s, d, e), late, f) == Stale
    ensures Deliver(Deliver(s, d, e), late, f).subs == Deliver(s, d, e).subs
  {
    var t, ev := Deliver(s, d, e), late.decoded.event;
    DeliveryMakesStaleExactlyWhen(s, d, e, late.provider, ev);
    LatestAfterRecording(t.log, late.payload, Recorded(late, f.now), late.provider, ObjectID(ev));
  }

  // ----- Whole runs -----

  const NINETY_DAYS: int := 90 * 24 * 3600 * 1_000_000_000   // in nanoseconds

  // The i-th action applies and marks a newer event about ev's object.
  ghost predicate SupersedesAt(plans: Providers.PaystackPlans, s: State, run: seq<Action>, i: nat, provider: string,
                               ev: WebhookEvent)
  {
    && i < |run| && run[i].Webhook?
    && Supersedes(Run(plans, s, run[..i]), run[i].delivery, run[i].env, provider, ev)
  }

  // No clean-up has come more than 90 days after it.
  predicate StillLogged(run: seq<Action>, i: nat) {
    forall j :: i < j < |run| && run[j].Cleanup? ==> run[j].env.now <= run[i].env.now + NINETY_DAYS
  }

  ghost predicate Superseded(plans: Providers.PaystackPlans, s: State, run: seq<Action>, provider: string,
                             ev: WebhookEvent, floor: Instant)
  {
    exists i: nat :: SupersedesAt(plans, s, run, i, provider, ev) && StillLogged(run, i) && run[i].env.now >= floor
  }

  lemma StaleAfterPruning(log: EventLog, now: Instant, provider: string, ev: WebhookEvent, floor: Instant)
    ensures StaleSince(Prune(log, now), provider, ev, floor) <==>
            StaleSince(log, provider, ev, Higher(floor, now - NINETY_DAYS))
  {
    var bound := Higher(floor, now - NINETY_DAYS);
    if StaleSince(Prune(log, now), provider, ev, floor) {
      var k :| k in Prune(log, now) && TurnsAway(Prune(log, now)[k], provider, ev, floor);
      assert k in log && TurnsAway(log[k], provider, ev, bound);
    }
    if StaleSince(log, provider, ev, bound) {
      var k :| k in log && TurnsAway(log[k], provider, ev, bound);
      assert k in Prune(log, now) && TurnsAway(Prune(log, now)[k], provider, ev, floor);
    }
  }

  function Higher(a: Instant, b: Instant): Instant {
    if a < b then b else a
  }

  // A claim takes no part in the check.
  lemma StaleAfterRedeeming(plans: Providers.PaystackPlans, s: State, r: Redemption, e: Env, provider: string,
                            ev: WebhookEvent, floor: Instant)
    ensures StaleSince(Redeem(plans, s, r, e).log, provider, ev, floor) <==> StaleSince(s.log, provider, ev, floor)
  {
    var verdict := RedemptionVerdict(plans, s, r, e);
    if verdict == WriteFailed || verdict == Granted {
      RowAdded(s.log, ClaimKey(r.reference), Claim(r, e.now), provider, ev, floor);
    }
  }

  // How recent a delivery must be to be still logged after one more action.
  function Bound(a: Action, floor: Instant): Instant {
    if a.Cleanup? then Higher(floor, a.env.now - NINETY_DAYS) else floor
  }

  lemma StillLoggedNext(run: seq<Action>, a: Action, i: nat)
    requires i < |run|
    ensures StillLogged(run + [a], i) <==>
            StillLogged(run, i) && (a.Cleanup? ==> a.env.now <= run[i].env.now + NINETY_DAYS)
  {
    var more := run + [a];
    assert more[|run|] == a && more[i] == run[i];
    assert forall j :: i < j < |run| ==> more[j] == run[j];
  }

  lemma SupersedesAtNext(plans: Providers.PaystackPlans, s: State, run: seq<Action>, a: Action, i: nat,
                         provider: string, ev: WebhookEvent)
    ensures i < |run| ==>
              (SupersedesAt(plans, s, run + [a], i, provider, ev) <==> SupersedesAt(plans, s, run, i, provider, ev))
    ensures i == |run| ==>
              (SupersedesAt(plans, s, run + [a], i, provider, ev) <==>
                  a.Webhook? && Supersedes(Run(plans, s, run), a.delivery, a.env, provider, ev))
  {
    if i <= |run| {
      assert (run + [a])[..i] == run[..i] && run[..|run|] == run;
    }
  }

  // One more action: an old witness carries over, a new one is the action itself.
  lemma SupersededNext(plans: Providers.PaystackPlans, s: State, run: seq<Action>, a: Action, provider: string,
                       ev: WebhookEvent, floor: Instant)
    ensures Superseded(plans, s, run + [a], provider, ev, floor) <==>
            || Superseded(plans, s, run, provider, ev, Bound(a, floor))
            || (a.Webhook? && Supersedes(Run(plans, s, run), a.delivery, a.env, provider, ev) && a.env.now >= floor)
  {
    var more := run + [a];
    if i: nat :| SupersedesAt(plans, s, more, i, provider, ev) && StillLogged(more, i) && more[i].env.now >= floor {
      SupersedesAtNext(plans, s, run, a, i, provider, ev);
      if i < |run| {
        StillLoggedNext(run, a, i);
      }
    }
    if i: nat :| SupersedesAt(plans, s, run, i, provider, ev) && StillLogged(run, i)
                 && run[i].env.now >= Bound(a, floor) {
      SupersedesAtNext(plans, s, run, a, i, provider, ev);
      StillLoggedNext(run, a, i);
    }
    SupersedesAtNext(plans, s, run, a, |run|, provider, ev);
  }

  lemma {:induction false} StaleSinceIs(plans: Providers.PaystackPlans, s: State, run: seq<Action>, provider: string,
                                        ev: WebhookEvent, floor: Instant)
    requires s.log == map[]
    ensures StaleSince(Run(plans, s, run).log, provider, ev, floor) <==> Superseded(plans, s, run, provider, ev, floor)
    decreases |run|
  {
    if run != [] {
      var before, last := run[..|run| - 1], run[|run| - 1];
      var t := Run(plans, s, before);
      assert run == before + [last];
      SupersededNext(plans, s, before, last, provider, ev, floor);
      match last
      case Webhook(d, e) =>
        StaleSinceIs(plans, s, before, provider, ev, floor);
        StaleAfterDelivery(t, d, e, provider, ev, floor);
      case Verify(r, e) =>
        StaleSinceIs(plans, s, before, provider, ev, floor);
        StaleAfterRedeeming(plans, t, r, e, provider, ev, floor);
      case CancelPlan(_, _, _) => StaleSinceIs(plans, s, before, provider, ev, floor);
      case Cleanup(e) =>
        StaleSinceIs(plans, s, before, provider, ev, Higher(floor, e.now - NINETY_DAYS));
        StaleAfterPruning(t.log, e.now, provider, ev, floor);
    }
  }

  // Over every run from an empty log, an event is turned away as stale if and
  // only if some delivery of the run was applied and marked that is about the
  // same object and happened later by the provider's clock, and no clean-up has
  // come more than 90 days after it.
  lemma StaleExactlyWhenSuperseded(plans: Providers.PaystackPlans, s: State, run: seq<Action>, provider: string,
                                   ev: WebhookEvent)
    requires s.log == map[]
    ensures IsStale(Run(plans, s, run).log, provider, ev) <==>
            exists i: nat :: SupersedesAt(plans, s, run, i, provider, ev) && StillLogged(run, i)
  {
    var log := Run(plans, s, run).log;
    StaleMeansNewerRow(log, provider, ev);
    if IsStale(log, provider, ev) {
      var floor :| StaleSince(log, provider, ev, floor);
      StaleSinceIs(plans, s, run, provider, ev, floor);
    }
    if i: nat :| SupersedesAt(plans, s, run, i, provider, ev) && StillLogged(run, i) {
      StaleSinceIs(plans, s, run, provider, ev, run[i].env.now);
    }
  }
}
