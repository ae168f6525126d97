/** Whether the order of delivery shows in the final row: exactly when it does. */
module FinalRow {
  import opened Core
  import opened Records
  import opened Entitlements
  import opened BillingMachine
  import opened Columns
  import opened Convergence
  import Providers

  // All columns but the row's id and the times of writing.
  predicate SameColumns(a: Row, b: Row) {
    && a.userID == b.userID && a.plan == b.plan && a.provider == b.provider && a.customerID == b.customerID
    && a.status == b.status && a.cancelAtEnd == b.cancelAtEnd && a.currency == b.currency && a.interval == b.interval
    && forall c :: CellOf(a, c) == CellOf(b, c)
  }

  // ----- One delivery -----

  // An applied event decides a column exactly when it carries it.
  lemma AppliedCell(plans: Providers.PaystackPlans, t: State, a: Action, subject: Subject, c: Column)
    requires About(a, subject) && DeliveryFate(t, a.delivery, a.env) == Done
    ensures subject.userID in Step(plans, t, a).subs && Step(plans, t, a).subs[subject.userID].userID == subject.userID
    ensures StoredCell(Step(plans, t, a).subs, subject.userID, c)
         == if Carried(Event(a), c).Some? then Carried(Event(a), c).value else StoredCell(t.subs, subject.userID, c)
  {
    if subject.userID in t.subs {
      ViewOverridesForceFree(t.subs[subject.userID], a.env.now);
    }
  }

  // ----- Deliveries that can be applied -----

  // New, and not older than what had been applied before the run.
  ghost predicate Eligible(s: State, d: Delivery, subject: Subject) {
    d.decoded.Parsed? && d.payload !in s.log && NotBefore(s, subject, FromUnix(d.decoded.event.eventAt))
  }

  // Every delivery that can be applied and carries the column says what is stored.
  ghost predicate Coincides(s: State, run: seq<Action>, subject: Subject, c: Column) {
    forall d :: Delivers(run, d) && Eligible(s, d, subject) && Carried(d.decoded.event, c).Some? ==>
      Carried(d.decoded.event, c).value == StoredCell(s.subs, subject.userID, c)
  }

  // The guard on the deliveries: the newest one carries the column, or all of
  // them coincide with what is stored.
  ghost predicate Settled(s: State, run: seq<Action>, newest: Action, subject: Subject, c: Column)
    requires About(newest, subject)
  {
    Carried(Event(newest), c).Some? || Coincides(s, run, subject, c)
  }

  // ----- Settled columns end the same in every order -----

  lemma OneMoreDelivery(plans: Providers.PaystackPlans, s: State, run: seq<Action>, n: nat, t: State, subject: Subject,
                        c: Column, cell: Cell)
    requires n < |run| && AllAbout(run, subject) && LogAfter(s, run, n, subject, t.log)
    requires StoredCell(t.subs, subject.userID, c) == cell
    requires Eligible(s, run[n].delivery, subject) && Carried(Event(run[n]), c).Some? ==>
        Carried(Event(run[n]), c).value == cell
    ensures StoredCell(Step(plans, t, run[n]).subs, subject.userID, c) == cell
  {
    FateIsExpected(s, run, n, t, subject);
    if DeliveryFate(t, run[n].delivery, run[n].env) == Done {
      AppliedCell(plans, t, run[n], subject, c);
    } else {
      NotDoneChangesNoRow(plans, t, run[n]);
    }
  }

  // The column after n deliveries is as it was before the run.
  ghost predicate Unmoved(plans: Providers.PaystackPlans, s: State, run: seq<Action>, n: nat, u: string, c: Column)
    requires n <= |run|
  {
    StoredCell(Run(plans, s, run[..n]).subs, u, c) == StoredCell(s.subs, u, c)
  }

  lemma UnmovedNext(plans: Providers.PaystackPlans, s: State, run: seq<Action>, n: nat, subject: Subject, c: Column)
    requires n < |run| && AllAbout(run, subject) && Coincides(s, run, subject, c)
    requires Unmoved(plans, s, run, n, subject.userID, c)
    ensures Unmoved(plans, s, run, n + 1, subject.userID, c)
  {
    LogAlongTheRun(plans, s, run, n, subject);
    assert Delivers(run, run[n].delivery);
    OneMoreDelivery(plans, s, run, n, Run(plans, s, run[..n]), subject, c, StoredCell(s.subs, subject.userID, c));
    RunStep(plans, s, run, n);
  }

  lemma {:induction false} CoincidingColumnStays(plans: Providers.PaystackPlans, s: State, run: seq<Action>, n: nat,
                                                 subject: Subject, c: Column)
    requires n <= |run| && AllAbout(run, subject) && Coincides(s, run, subject, c)
    ensures Unmoved(plans, s, run, n, subject.userID, c)
  {
    if n > 0 {
      CoincidingColumnStays(plans, s, run, n - 1, subject, c);
      UnmovedNext(plans, s, run, n - 1, subject, c);
    }
  }

  // What a settled column is in the end: said of the deliveries alone.
  function SettledCell(s: State, newest: Action, subject: Subject, c: Column): Cell
    requires About(newest, subject)
  {
    if Carried(Event(newest), c).Some? then Carried(Event(newest), c).value else StoredCell(s.subs, subject.userID, c)
  }

  lemma CarriedIsReflected(row: Row, provider: string, ev: WebhookEvent, c: Column)
    requires Reflects(row, provider, ev) && Carried(ev, c).Some?
    ensures CellOf(row, c) == Carried(ev, c).value
  {
  }

  lemma SettledColumnEnds(plans: Providers.PaystackPlans, s: State, run: seq<Action>, newest: Action, subject: Subject,
                          c: Column)
    requires AllAbout(run, subject) && About(newest, subject) && Newest(s, run, newest, subject)
    requires Settled(s, run, newest, subject, c)
    ensures StoredCell(Run(plans, s, run).subs, subject.userID, c) == SettledCell(s, newest, subject, c)
  {
    NewestWins(plans, s, run, newest, subject);
    if Carried(Event(newest), c).Some? {
      CarriedIsReflected(Run(plans, s, run).subs[subject.userID], subject.provider, Event(newest), c);
    } else {
      assert run[..|run|] == run;
      CoincidingColumnStays(plans, s, run, |run|, subject, c);
    }
  }

  // ----- An unsettled column ends differently in two orders -----

  lemma ArrivedEarlier(run: seq<Action>, m: nat, n: nat, payload: string)
    requires m <= n <= |run| && Arrived(run, m, payload)
    ensures Arrived(run, n, payload)
  {
  }

  lemma NotMaximalStays(plans: Providers.PaystackPlans, s: State, run: seq<Action>, n: nat, subject: Subject)
    requires n < |run| && AllAbout(run, subject) && !Maximal(s, run, n, subject)
    ensures Run(plans, s, run[..n + 1]).subs == Run(plans, s, run[..n]).subs
  {
    var t := Run(plans, s, run[..n]);
    LogAlongTheRun(plans, s, run, n, subject);
    FateIsExpected(s, run, n, t, subject);
    NotDoneChangesNoRow(plans, t, run[n]);
    RunStep(plans, s, run, n);
  }

  ghost predicate SubsStay(plans: Providers.PaystackPlans, s: State, run: seq<Action>, n: nat)
    requires n < |run|
  {
    Run(plans, s, run[..n + 1]).subs == Run(plans, s, run[..n]).subs
  }

  lemma {:induction false} SubsStayAll(plans: Providers.PaystackPlans, s: State, run: seq<Action>, from: nat, n: nat)
    requires from <= n <= |run| && forall k :: from <= k < n ==> SubsStay(plans, s, run, k)
    ensures Run(plans, s, run[..n]).subs == Run(plans, s, run[..from]).subs
    decreases n
  {
    if n > from {
      SubsStayAll(plans, s, run, from, n - 1);
      assert SubsStay(plans, s, run, n - 1);
    }
  }

  // Nothing after the newest delivery changes a row.
  lemma QuietAfterNewest(plans: Providers.PaystackPlans, s: State, run: seq<Action>, newest: Action, subject: Subject,
                         from: nat)
    requires from <= |run| && AllAbout(run, subject) && About(newest, subject) && Newest(s, run, newest, subject)
    requires Arrived(run, from, newest.delivery.payload)
    ensures Run(plans, s, run).subs == Run(plans, s, run[..from]).subs
  {
    forall k | from <= k < |run| ensures SubsStay(plans, s, run, k) {
      ArrivedEarlier(run, from, k, newest.delivery.payload);
      LaterIsNotMaximal(s, run, k, newest, subject);
      NotMaximalStays(plans, s, run, k, subject);
    }
    SubsStayAll(plans, s, run, from, |run|);
    assert run[..|run|] == run;
  }

  lemma MaximalIsApplied(plans: Providers.PaystackPlans, s: State, run: seq<Action>, n: nat, subject: Subject,
                         c: Column)
    requires n < |run| && AllAbout(run, subject) && Maximal(s, run, n, subject)
    ensures StoredCell(Run(plans, s, run[..n + 1]).subs, subject.userID, c)
         == if Carried(Event(run[n]), c).Some? then Carried(Event(run[n]), c).value
            else StoredCell(Run(plans, s, run[..n]).subs, subject.userID, c)
  {
    var t := Run(plans, s, run[..n]);
    LogAlongTheRun(plans, s, run, n, subject);
    FateIsExpected(s, run, n, t, subject);
    AppliedCell(plans, t, run[n], subject, c);
    RunStep(plans, s, run, n);
  }

  // A run that begins with some of its own deliveries delivers the same.
  ghost predicate FromRun(first: seq<Action>, run: seq<Action>) {
    forall i :: 0 <= i < |first| ==> first[i].Webhook? && Delivers(run, first[i].delivery)
  }

  lemma SameWithRepeats(first: seq<Action>, run: seq<Action>)
    requires FromRun(first, run)
    ensures SameDeliveries(run, first + run)
  {
    forall d ensures Delivers(run, d) <==> Delivers(first + run, d) {
      if Delivers(run, d) {
        var i :| 0 <= i < |run| && run[i].Webhook? && run[i].delivery == d;
        assert (first + run)[|first| + i] == run[i];
      }
      if Delivers(first + run, d) {
        var i :| 0 <= i < |first + run| && (first + run)[i].Webhook? && (first + run)[i].delivery == d;
        if i < |first| {
          assert Delivers(run, first[i].delivery);
        } else {
          assert run[i - |first|] == (first + run)[i];
        }
      }
    }
  }

  lemma NewestIsDelivered(s: State, run: seq<Action>, newest: Action, subject: Subject)
    requires AllAbout(run, subject) && About(newest, subject) && Newest(s, run, newest, subject)
    ensures Delivers(run, newest.delivery)
  {
    var i :| 0 <= i < |run| && run[i].Webhook? && run[i].delivery.payload == newest.delivery.payload;
    assert run[i].delivery == newest.delivery;
  }

  // The newest delivery first: the column stays as it is stored.
  lemma NewestFirst(plans: Providers.PaystackPlans, s: State, run: seq<Action>, newest: Action, subject: Subject,
                    c: Column)
    requires AllAbout([newest] + run, subject) && About(newest, subject) && Newest(s, [newest] + run, newest, subject)
    requires Carried(Event(newest), c).None?
    ensures StoredCell(Run(plans, s, [newest] + run).subs, subject.userID, c) == StoredCell(s.subs, subject.userID, c)
  {
    var other := [newest] + run;
    NewestIsMaximal(s, other, 0, newest, subject);
    MaximalIsApplied(plans, s, other, 0, subject, c);
    assert other[0] == newest;
    assert Arrived(other, 1, newest.delivery.payload);
    QuietAfterNewest(plans, s, other, newest, subject, 1);
    assert other[..0] == [];
  }

  lemma NewestRepeated(s: State, run: seq<Action>, newest: Action, subject: Subject)
    requires AllAbout(run, subject) && About(newest, subject) && Newest(s, run, newest, subject)
    ensures AllAbout([newest] + run, subject) && SameDeliveries(run, [newest] + run)
    ensures Newest(s, [newest] + run, newest, subject)
  {
    NewestIsDelivered(s, run, newest, subject);
    SameWithRepeats([newest], run);
    NewestOfSame(s, run, [newest] + run, newest, subject);
  }

  lemma EligibleFirstIsMaximal(s: State, run: seq<Action>, subject: Subject)
    requires run != [] && AllAbout(run, subject) && Eligible(s, run[0].delivery, subject)
    ensures Maximal(s, run, 0, subject)
  {
    assert !Arrived(run, 0, run[0].delivery.payload);
  }

  lemma CarrierIsNotNewest(run: seq<Action>, newest: Action, carrier: Action, s: State, subject: Subject, c: Column)
    requires AllAbout(run, subject) && About(newest, subject) && Newest(s, run, newest, subject)
    requires About(carrier, subject) && Delivers(run, carrier.delivery)
    requires Carried(Event(newest), c).None? && Carried(Event(carrier), c).Some?
    ensures carrier.delivery.payload != newest.delivery.payload
    ensures !Arrived([carrier, newest] + run, 1, newest.delivery.payload)
  {
    var i :| 0 <= i < |run| && run[i].Webhook? && run[i].delivery == carrier.delivery;
  }

  // A run that begins with a carrier and then the newest.
  lemma CarrierStays(plans: Providers.PaystackPlans, s: State, run: seq<Action>, newest: Action, subject: Subject,
                     c: Column)
    requires |run| >= 2 && AllAbout(run, subject) && About(newest, subject) && Newest(s, run, newest, subject)
    requires run[1].delivery == newest.delivery && !Arrived(run, 1, newest.delivery.payload)
    requires Eligible(s, run[0].delivery, subject)
    requires Carried(Event(newest), c).None? && Carried(Event(run[0]), c).Some?
    ensures StoredCell(Run(plans, s, run).subs, subject.userID, c) == Carried(Event(run[0]), c).value
  {
    EligibleFirstIsMaximal(s, run, subject);
    MaximalIsApplied(plans, s, run, 0, subject, c);
    NewestIsMaximal(s, run, 1, newest, subject);
    MaximalIsApplied(plans, s, run, 1, subject, c);
    ArrivedNext(run, 1, newest.delivery.payload);
    QuietAfterNewest(plans, s, run, newest, subject, 2);
  }

  // A carrier and then the newest: the column is the carrier's.
  lemma CarrierThenNewest(plans: Providers.PaystackPlans, s: State, run: seq<Action>, newest: Action, carrier: Action,
                          subject: Subject, c: Column)
    requires AllAbout(run, subject) && About(newest, subject) && Newest(s, run, newest, subject)
    requires About(carrier, subject) && Delivers(run, carrier.delivery) && Eligible(s, carrier.delivery, subject)
    requires Carried(Event(newest), c).None? && Carried(Event(carrier), c).Some?
    ensures AllAbout([carrier, newest] + run, subject) && SameDeliveries(run, [carrier, newest] + run)
    ensures StoredCell(Run(plans, s, [carrier, newest] + run).subs, subject.userID, c)
        == Carried(Event(carrier), c).value
  {
    var other := [carrier, newest] + run;
    NewestIsDelivered(s, run, newest, subject);
    SameWithRepeats([carrier, newest], run);
    NewestOfSame(s, run, other, newest, subject);
    CarrierIsNotNewest(run, newest, carrier, s, subject, c);
    CarrierStays(plans, s, other, newest, subject, c);
  }

  // ----- The exact condition -----

  ghost predicate AllSettled(s: State, run: seq<Action>, newest: Action, subject: Subject)
    requires About(newest, subject)
  {
    forall c :: Settled(s, run, newest, subject, c)
  }

  ghost predicate RowsAgree(plans: Providers.PaystackPlans, s: State, one: seq<Action>, other: seq<Action>, u: string) {
    var a, b := Run(plans, s, one).subs, Run(plans, s, other).subs;
    u in a && u in b && SameColumns(a[u], b[u])
  }

  // Every run with the same deliveries ends with the same row.
  ghost predicate OrderIsInvisible(plans: Providers.PaystackPlans, s: State, run: seq<Action>, subject: Subject) {
    forall other :: AllAbout(other, subject) && SameDeliveries(run, other) ==>
        RowsAgree(plans, s, run, other, subject.userID)
  }

  predicate Filed(subs: Subscriptions, u: string) {
    u in subs ==> subs[u].userID == u
  }

  lemma StepFiles(plans: Providers.PaystackPlans, t: State, a: Action, subject: Subject)
    requires About(a, subject) && Filed(t.subs, subject.userID)
    ensures Filed(Step(plans, t, a).subs, subject.userID)
  {
    if DeliveryFate(t, a.delivery, a.env) == Done {
      AppliedCell(plans, t, a, subject, AutoRenews);
    } else {
      NotDoneChangesNoRow(plans, t, a);
    }
  }

  lemma {:induction false} RowIsFiled(plans: Providers.PaystackPlans, s: State, run: seq<Action>, n: nat,
                                      subject: Subject)
    requires n <= |run| && AllAbout(run, subject) && Filed(s.subs, subject.userID)
    ensures Filed(Run(plans, s, run[..n]).subs, subject.userID)
  {
    if n > 0 {
      assert Filed(Run(plans, s, run[..n - 1]).subs, subject.userID) by {
        RowIsFiled(plans, s, run, n - 1, subject);
      }
      StepFiles(plans, Run(plans, s, run[..n - 1]), run[n - 1], subject);
      RunStep(plans, s, run, n - 1);
    }
  }

  lemma SettledRowsAgree(plans: Providers.PaystackPlans, s: State, one: seq<Action>, other: seq<Action>, newest: Action,
                         subject: Subject)
    requires AllAbout(one, subject) && AllAbout(other, subject) && SameDeliveries(one, other)
    requires About(newest, subject) && Newest(s, one, newest, subject) && AllSettled(s, one, newest, subject)
    requires Filed(s.subs, subject.userID)
    ensures RowsAgree(plans, s, one, other, subject.userID)
  {
    var u := subject.userID;
    NewestOfSame(s, one, other, newest, subject);
    NewestWins(plans, s, one, newest, subject);
    NewestWins(plans, s, other, newest, subject);
    assert one[..|one|] == one && other[..|other|] == other;
    RowIsFiled(plans, s, one, |one|, subject);
    RowIsFiled(plans, s, other, |other|, subject);
    forall c ensures CellOf(Run(plans, s, one).subs[u], c) == CellOf(Run(plans, s, other).subs[u], c) {
      assert Settled(s, one, newest, subject, c);
      assert Settled(s, other, newest, subject, c);
      SettledColumnEnds(plans, s, one, newest, subject, c);
      SettledColumnEnds(plans, s, other, newest, subject, c);
    }
  }

  lemma AgreeOnCell(plans: Providers.PaystackPlans, s: State, one: seq<Action>, other: seq<Action>, u: string,
                        c: Column)
    requires RowsAgree(plans, s, one, other, u)
    ensures StoredCell(Run(plans, s, one).subs, u, c) == StoredCell(Run(plans, s, other).subs, u, c)
  {
  }

  // Two orders that end with different cells.
  lemma TwoEndsShow(plans: Providers.PaystackPlans, s: State, run: seq<Action>, one: seq<Action>, other: seq<Action>,
                    subject: Subject, c: Column)
    requires AllAbout(one, subject) && SameDeliveries(run, one)
    requires AllAbout(other, subject) && SameDeliveries(run, other)
    requires StoredCell(Run(plans, s, one).subs, subject.userID, c)
          != StoredCell(Run(plans, s, other).subs, subject.userID, c)
    ensures !OrderIsInvisible(plans, s, run, subject)
  {
    if RowsAgree(plans, s, run, one, subject.userID) {
      AgreeOnCell(plans, s, run, one, subject.userID, c);
      if RowsAgree(plans, s, run, other, subject.userID) {
        AgreeOnCell(plans, s, run, other, subject.userID, c);
      }
    }
  }

  lemma UnsettledShows(plans: Providers.PaystackPlans, s: State, run: seq<Action>, newest: Action, subject: Subject,
                       c: Column)
    requires AllAbout(run, subject) && About(newest, subject) && Newest(s, run, newest, subject)
    requires !Settled(s, run, newest, subject, c)
    ensures !OrderIsInvisible(plans, s, run, subject)
  {
    var d :| Delivers(run, d) && Eligible(s, d, subject) && Carried(d.decoded.event, c).Some?
             && Carried(d.decoded.event, c).value != StoredCell(s.subs, subject.userID, c);
    var i :| 0 <= i < |run| && run[i].Webhook? && run[i].delivery == d;
    NewestRepeated(s, run, newest, subject);
    NewestFirst(plans, s, run, newest, subject, c);
    CarrierThenNewest(plans, s, run, newest, run[i], subject, c);
    TwoEndsShow(plans, s, run, [newest] + run, [run[i], newest] + run, subject, c);
  }

  // Whatever the order and the repetition, the same deliveries end with the same
  // row if and only if the newest one carries the period end, the trial end and
  // the subscription id, or those it lacks coincide: every delivery that can be
  // applied and carries such a column says what is stored before the run.
  lemma OrderIsInvisibleExactlyWhen(plans: Providers.PaystackPlans, s: State, run: seq<Action>, newest: Action,
                                    subject: Subject)
    requires AllAbout(run, subject) && About(newest, subject) && Newest(s, run, newest, subject)
    requires Filed(s.subs, subject.userID)
    ensures OrderIsInvisible(plans, s, run, subject) <==> AllSettled(s, run, newest, subject)
  {
    if AllSettled(s, run, newest, subject) {
      forall other | AllAbout(other, subject) && SameDeliveries(run, other)
        ensures RowsAgree(plans, s, run, other, subject.userID)
      {
        SettledRowsAgree(plans, s, run, other, newest, subject);
      }
    } else {
      var c :| !Settled(s, run, newest, subject, c);
      UnsettledShows(plans, s, run, newest, subject, c);
    }
  }

  // ----- A witness -----

  // Two notices of one subscription: the later carries no period end.
  function Notice(userID: string, subID: string, at: int, periodEnd: int): WebhookEvent {
    WebhookEvent(userID, "", subID, "pro", "active", "usd", "month", periodEnd, 0, false, at)
  }

  predicate IsNotice(a: Action, subject: Subject, at: int, periodEnd: int) {
    && About(a, subject)
    && Event(a) == Notice(subject.userID, subject.objectID, at, periodEnd)
  }

  lemma NewerOfTwo(s: State, a: Action, b: Action, subject: Subject)
    requires Initial(s) && About(a, subject) && About(b, subject)
    requires a.delivery.payload != b.delivery.payload && At(a) < At(b)
    ensures AllAbout([a, b], subject) && Newest(s, [a, b], b, subject)
    ensures AllAbout([b, a], subject) && SameDeliveries([a, b], [b, a])
    ensures Eligible(s, a.delivery, subject)
  {
    assert LatestOf(s, subject) == None;
    assert [a, b][1] == b && [b, a][0] == b;
    forall d ensures Delivers([a, b], d) <==> Delivers([b, a], d) {
      assert [a, b][0] == [b, a][1] && [a, b][1] == [b, a][0];
    }
  }

  lemma OlderFirst(plans: Providers.PaystackPlans, s: State, a: Action, b: Action, subject: Subject, at: int,
                   later: int, periodEnd: int)
    requires Initial(s) && 0 < at < later && 0 < periodEnd
    requires IsNotice(a, subject, at, periodEnd) && IsNotice(b, subject, later, 0)
    requires a.delivery.payload != b.delivery.payload
    ensures StoredCell(Run(plans, s, [a, b]).subs, subject.userID, PeriodEnd) == Time(Some(FromUnix(periodEnd)))
  {
    NewerOfTwo(s, a, b, subject);
    CarrierStays(plans, s, [a, b], b, subject, PeriodEnd);
  }

  lemma NewerFirst(plans: Providers.PaystackPlans, s: State, a: Action, b: Action, subject: Subject, at: int,
                   later: int, periodEnd: int)
    requires Initial(s) && 0 < at < later
    requires IsNotice(a, subject, at, periodEnd) && IsNotice(b, subject, later, 0)
    requires a.delivery.payload != b.delivery.payload
    ensures StoredCell(Run(plans, s, [b, a]).subs, subject.userID, PeriodEnd) == Time(None)
  {
    NewerOfTwo(s, a, b, subject);
    NewestOfSame(s, [a, b], [b, a], b, subject);
    assert [b] + [a] == [b, a];
    NewestFirst(plans, s, [a], b, subject, PeriodEnd);
  }

  // From empty tables the period end survives in the one order and is unknown
  // in the other, where access to the paid plan has no end.
  lemma OrderShowsInThePeriod(plans: Providers.PaystackPlans, s: State, a: Action, b: Action, subject: Subject,
                              at: int, later: int, periodEnd: int)
    requires Initial(s) && 0 < at < later && 0 < periodEnd
    requires IsNotice(a, subject, at, periodEnd) && IsNotice(b, subject, later, 0)
    requires a.delivery.payload != b.delivery.payload
    ensures var first, second := Run(plans, s, [a, b]).subs, Run(plans, s, [b, a]).subs;
            var u := subject.userID;
            && SameDeliveries([a, b], [b, a]) && u in first && u in second
            && first[u].periodEnd == Some(FromUnix(periodEnd)) && !AccessDeadline(first[u]).Unbounded?
            && second[u].periodEnd == None && AccessDeadline(second[u]) == Unbounded
  {
    NewerOfTwo(s, a, b, subject);
    BothEndWithTheNewest(plans, s, [a, b], [b, a], b, subject);
    OlderFirst(plans, s, a, b, subject, at, later, periodEnd);
    NewerFirst(plans, s, a, b, subject, at, later, periodEnd);
  }
}
