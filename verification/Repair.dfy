/** The operator's pass over Paystack rows that hold no subscription code. */
module Repair {
  import opened Core
  import opened Records
  import opened Entitlements
  import opened RowInvariants
  import opened BillingService
  import Providers

  // provider_sub_id LIKE 'SUB\_%': letters match in either case.
  predicate LooksLikeCode(subID: string) {
    && |subID| >= 4 && subID[3] == '_'
    && LowerChar(subID[0]) == 's' && LowerChar(subID[1]) == 'u' && LowerChar(subID[2]) == 'b'
  }

  // WHERE provider = 'paystack' AND provider_sub_id NOT LIKE ... AND auto_renews = 1
  predicate NeedsRepair(row: Row) {
    row.provider == "paystack" && !LooksLikeCode(row.subID) && row.autoRenews
  }

  // LookupCustomerSubscription's answer about one row's customer.
  datatype Lookup = Found(code: string, status: string, nextPaymentAt: int) | LookupFailed(message: string)

  // What the lookup answers when Paystack lists these subscriptions.
  function AnswerFrom(customer: string, listed: seq<Providers.CustomerSubscription>): Lookup {
    if customer == "" then LookupFailed("paystack: empty customer code")
    else if listed == [] then LookupFailed("paystack customer " + customer + " has no subscriptions")
    else
      var chosen := Providers.Chosen(listed);
      Found(chosen.code, Providers.NormalisePaystackStatus(chosen.status),
            if chosen.nextPayment.Some? then chosen.nextPayment.value else 0)
  }

  datatype Finding = Reconcile(code: string, status: string, periodEnd: Option<Instant>) | NeverRenews | Unresolved

  function Judge(answer: Lookup): Finding {
    match answer
    case Found(code, status, next) => Reconcile(code, status, if next > 0 then Some(FromUnix(next)) else None)
    case LookupFailed(message) => if Contains(message, "no subscriptions") then NeverRenews else Unresolved
  }

  function Fix(row: Row, finding: Finding, now: Instant): Row {
    match finding
    case Reconcile(code, status, periodEnd) =>
      row.(subID := code, status := status, periodEnd := periodEnd, autoRenews := true, updatedAt := now)
    case NeverRenews => row.(autoRenews := false, updatedAt := now)
    case Unresolved => row
  }

  // The world outside the table: one answer and one write result per row.
  datatype World = World(answers: Row -> Lookup, writable: Row -> bool, now: Instant)

  // A row that is counted as failed.
  predicate Fails(row: Row, w: World, apply: bool) {
    Judge(w.answers(row)) == Unresolved || (apply && !w.writable(row))
  }

  function Repaired(row: Row, w: World, apply: bool): Row {
    if apply && NeedsRepair(row) && !Fails(row, w, apply) then Fix(row, Judge(w.answers(row)), w.now) else row
  }

  lemma OnlyWanted(row: Row, w: World, apply: bool)
    ensures Repaired(row, w, apply) == if NeedsRepair(row) then Repaired(row, w, apply) else row
  {
  }

  // The whole pass, row by row.
  function AfterPass(subs: Subscriptions, w: World, apply: bool): Subscriptions {
    map u | u in subs :: Repaired(subs[u], w, apply)
  }

  // A listing of the rows that satisfy a condition: each once, oldest first.
  ghost predicate Lists(subs: Subscriptions, rows: seq<Row>, wanted: Row -> bool) {
    && (forall i :: 0 <= i < |rows| ==> rows[i].userID in subs && rows[i] == subs[rows[i].userID] && wanted(rows[i]))
    && (forall u :: u in subs && wanted(subs[u]) ==> subs[u] in rows)
    && (forall i, j :: 0 <= i < j < |rows| ==>
        rows[i].userID != rows[j].userID && rows[i].createdAt <= rows[j].createdAt)
  }

  ghost predicate IsListing(subs: Subscriptions, rows: seq<Row>) {
    Lists(subs, rows, NeedsRepair)
  }

  // How many of the first n rows satisfy a condition.
  function CountIf(rows: seq<Row>, n: nat, condition: Row -> bool): (count: nat)
    requires n <= |rows|
    ensures count <= n
  {
    if n == 0 then 0 else CountIf(rows, n - 1, condition) + if condition(rows[n - 1]) then 1 else 0
  }

  function Failures(rows: seq<Row>, w: World, apply: bool): nat {
    CountIf(rows, |rows|, row => Fails(row, w, apply))
  }

  lemma OldestExists(subs: Subscriptions, users: set<string>) returns (oldest: string)
    requires users != {} && users <= subs.Keys
    ensures oldest in users && forall u :: u in users ==> subs[oldest].createdAt <= subs[u].createdAt
    decreases |users|
  {
    oldest :| oldest in users;
    var rest := users - {oldest};
    if rest != {} {
      var other := OldestExists(subs, rest);
      if subs[other].createdAt < subs[oldest].createdAt {
        oldest := other;
      }
    }
  }

  // The listing so far, and the users still to be listed.
  ghost predicate ListedSoFar(subs: Subscriptions, rows: seq<Row>, left: set<string>, wanted: Row -> bool) {
    && (forall u :: u in left ==> u in subs && wanted(subs[u]))
    && (forall u :: u in subs && wanted(subs[u]) ==> u in left || subs[u] in rows)
    && (forall i :: 0 <= i < |rows| ==>
          && rows[i].userID in subs && rows[i] == subs[rows[i].userID] && wanted(rows[i])
          && rows[i].userID !in left
          && (forall u :: u in left ==> rows[i].createdAt <= subs[u].createdAt))
    && (forall i, j :: 0 <= i < j < |rows| ==>
        rows[i].userID != rows[j].userID && rows[i].createdAt <= rows[j].createdAt)
  }

  lemma ListOneMore(subs: Subscriptions, rows: seq<Row>, left: set<string>, wanted: Row -> bool, u: string)
    requires Keyed(subs) && ListedSoFar(subs, rows, left, wanted)
    requires u in left && forall v :: v in left ==> subs[u].createdAt <= subs[v].createdAt
    ensures ListedSoFar(subs, rows + [subs[u]], left - {u}, wanted)
  {
    var more := rows + [subs[u]];
    forall v | v in subs && wanted(subs[v]) ensures v in left - {u} || subs[v] in more {
      assert more[|rows|] == subs[u];
      if subs[v] in rows {
        var i :| 0 <= i < |rows| && rows[i] == subs[v];
        assert more[i] == subs[v];
      }
    }
  }

  // ListPaystackSubscriptionsNeedingRepair
  method ListNeedingRepair(subs: Subscriptions) returns (rows: seq<Row>)
    requires Keyed(subs)
    ensures IsListing(subs, rows)
  {
    rows := [];
    var left := set u | u in subs && NeedsRepair(subs[u]);
    while left != {}
      invariant ListedSoFar(subs, rows, left, NeedsRepair)
      decreases |left|
    {
      ghost var oldest := OldestExists(subs, left);
      var u :| u in left && forall v :: v in left ==> subs[u].createdAt <= subs[v].createdAt;
      ListOneMore(subs, rows, left, NeedsRepair, u);
      left := left - {u};
      rows := rows + [subs[u]];
    }
  }

  predicate DealtWith(rows: seq<Row>, n: nat, u: string)
    requires n <= |rows|
  {
    exists i :: 0 <= i < n && rows[i].userID == u
  }

  // The table when the first n listed rows have been replaced by their repair.
  ghost predicate PartDone(before: Subscriptions, rows: seq<Row>, n: nat, repair: Row -> Row, subs: Subscriptions)
    requires n <= |rows|
  {
    && subs.Keys == before.Keys
    && forall u :: u in before ==> subs[u] == if DealtWith(rows, n, u) then repair(before[u]) else before[u]
  }

  lemma AllDone(before: Subscriptions, rows: seq<Row>, wanted: Row -> bool, repair: Row -> Row, subs: Subscriptions,
                u: string)
    requires Lists(before, rows, wanted) && Keyed(before) && PartDone(before, rows, |rows|, repair, subs)
    requires u in before
    ensures subs.Keys == before.Keys && subs[u] == if wanted(before[u]) then repair(before[u]) else before[u]
  {
    if wanted(before[u]) {
      var i :| 0 <= i < |rows| && rows[i] == before[u];
      assert rows[i].userID == u;
    }
  }

  // The row's own id, so that WHERE id = ? finds this row and no other.
  ghost predicate SameIDs(before: Subscriptions, subs: Subscriptions) {
    && subs.Keys == before.Keys
    && forall u :: u in before ==> subs[u].id == before[u].id && subs[u].userID == u
  }

  lemma NextRow(before: Subscriptions, rows: seq<Row>, n: nat, wanted: Row -> bool, repair: Row -> Row,
                subs: Subscriptions)
    requires Lists(before, rows, wanted) && Keyed(before) && n < |rows| && PartDone(before, rows, n, repair, subs)
    requires forall row :: repair(row).id == row.id && repair(row).userID == row.userID
    ensures var u := rows[n].userID;
            && u in subs && subs[u] == rows[n] && wanted(rows[n])
            && PartDone(before, rows, n + 1, repair, subs[u := repair(rows[n])])
    ensures SameIDs(before, subs)
  {
    var u := rows[n].userID;
    assert !DealtWith(rows, n, u);
    forall v | v in before && v != u ensures DealtWith(rows, n + 1, v) == DealtWith(rows, n, v) {
      if DealtWith(rows, n, v) {
        var i :| 0 <= i < n && rows[i].userID == v;
        assert 0 <= i < n + 1;
      }
    }
    assert 0 <= n < n + 1;
    assert DealtWith(rows, n + 1, u);
  }

  // What is repaired and what fails, said as functions of the row.
  ghost predicate Says(repair: Row -> Row, fails: Row -> bool, w: World, apply: bool) {
    && (forall row {:trigger Repaired(row, w, apply)} :: repair(row) == Repaired(row, w, apply))
    && (forall row {:trigger Fails(row, w, apply)} :: fails(row) == Fails(row, w, apply))
  }

  lemma SaysKeeps(repair: Row -> Row, fails: Row -> bool, w: World, apply: bool)
    requires Says(repair, fails, w, apply)
    ensures forall row :: repair(row).id == row.id && repair(row).userID == row.userID
  {
    forall row ensures repair(row).id == row.id && repair(row).userID == row.userID {
      assert repair(row) == Repaired(row, w, apply);
    }
  }

  // One row, and what is known after it.
  method Turn(store: Store, ghost before: Subscriptions, ghost rows: seq<Row>, ghost n: nat, sub: Row, w: World,
              apply: bool, ghost repair: Row -> Row, ghost fails: Row -> bool) returns (failing: bool)
    requires Lists(before, rows, NeedsRepair) && Keyed(before) && n < |rows|
    requires PartDone(before, rows, n, repair, store.subs)
    requires Says(repair, fails, w, apply)
    requires sub == rows[n]
    modifies store`subs
    ensures PartDone(before, rows, n + 1, repair, store.subs)
    ensures failing == fails(rows[n])
  {
    SaysKeeps(repair, fails, w, apply);
    NextRow(before, rows, n, NeedsRepair, repair, store.subs);
    failing := HandleRow(store, before, sub, w, apply);
    assert repair(sub) == Repaired(sub, w, apply) && fails(sub) == Fails(sub, w, apply);
  }

  // The counters after n rows.
  ghost predicate Tallied(rows: seq<Row>, n: nat, fails: Row -> bool, apply: bool, repaired: int, failed: int)
    requires n <= |rows|
  {
    failed == CountIf(rows, n, fails) && repaired == if apply then n - failed else 0
  }

  lemma TalliedNext(rows: seq<Row>, n: nat, fails: Row -> bool, apply: bool, repaired: int, failed: int)
    requires n < |rows| && Tallied(rows, n, fails, apply, repaired, failed)
    ensures Tallied(rows, n + 1, fails, apply, if apply && !fails(rows[n]) then repaired + 1 else repaired,
                    if fails(rows[n]) then failed + 1 else failed)
  {
  }

  // The loop, over any way of saying what is repaired and what fails.
  method Loop(store: Store, list: seq<Row>, w: World, apply: bool, ghost repair: Row -> Row, ghost fails: Row -> bool)
    returns (repaired: nat, failed: nat)
    requires Lists(store.subs, list, NeedsRepair) && Keyed(store.subs)
    requires Says(repair, fails, w, apply)
    modifies store`subs
    ensures PartDone(old(store.subs), list, |list|, repair, store.subs)
    ensures Tallied(list, |list|, fails, apply, repaired, failed)
  {
    ghost var before := store.subs;
    repaired, failed := 0, 0;
    var i := 0;
    while i < |list|
      invariant 0 <= i <= |list|
      invariant PartDone(before, list, i, repair, store.subs)
      invariant Tallied(list, i, fails, apply, repaired, failed)
    {
      ghost var r, f := repaired, failed;
      var failing := Turn(store, before, list, i, list[i], w, apply, repair, fails);
      if failing {
        failed := failed + 1;
      } else if apply {
        repaired := repaired + 1;
      }
      assert Tallied(list, i + 1, fails, apply, repaired, failed) by {
        TalliedNext(list, i, fails, apply, r, f);
      }
      i := i + 1;
    }
  }

  // One row per user with an id of its own, so passes can be repeated.
  lemma PassKeepsKeys(subs: Subscriptions, w: World, apply: bool)
    requires Keyed(subs)
    ensures Keyed(AfterPass(subs, w, apply))
  {
    forall u | u in subs ensures Repaired(subs[u], w, apply).id == subs[u].id {
    }
  }

  // repairPaystackSubscriptions: what is written, and the two counters.
  method RepairPass(store: Store, w: World, apply: bool)
    returns (listed: nat, repaired: nat, failed: nat, ghost rows: seq<Row>)
    requires Keyed(store.subs)
    modifies store`subs
    ensures store.subs == AfterPass(old(store.subs), w, apply) && Keyed(store.subs)
    ensures IsListing(old(store.subs), rows) && listed == |rows|
    ensures failed == Failures(rows, w, apply)
    ensures repaired == if apply then listed - failed else 0
  {
    ghost var before := store.subs;
    ghost var repair := (row: Row) => Repaired(row, w, apply);
    ghost var fails := (row: Row) => Fails(row, w, apply);
    var list := ListNeedingRepair(store.subs);
    rows, listed := list, |list|;
    repaired, failed := Loop(store, list, w, apply, repair, fails);
    ghost var after := store.subs;
    forall u | u in before ensures u in after && after[u] == Repaired(before[u], w, apply) {
      AllDone(before, rows, NeedsRepair, repair, after, u);
      OnlyWanted(before[u], w, apply);
    }
    assert after == AfterPass(before, w, apply);
    PassKeepsKeys(before, w, apply);
  }

  // One turn of the loop.
  method HandleRow(store: Store, ghost before: Subscriptions, sub: Row, w: World, apply: bool) returns (failing: bool)
    requires Keyed(before) && SameIDs(before, store.subs)
    requires sub.userID in store.subs && store.subs[sub.userID] == sub && NeedsRepair(sub)
    modifies store`subs
    ensures failing == Fails(sub, w, apply)
    ensures store.subs == old(store.subs)[sub.userID := Repaired(sub, w, apply)]
  {
    var finding := Judge(w.answers(sub));
    failing := finding == Unresolved || (apply && !w.writable(sub));
    if !failing && apply {
      WriteFinding(store, before, sub, finding, w.now);
    }
  }

  // UPDATE subscriptions ... WHERE id = ?
  method WriteFinding(store: Store, ghost before: Subscriptions, sub: Row, finding: Finding, now: Instant)
    requires Keyed(before) && SameIDs(before, store.subs)
    requires sub.userID in store.subs && store.subs[sub.userID] == sub
    modifies store`subs
    ensures store.subs == old(store.subs)[sub.userID := Fix(sub, finding, now)]
  {
    var subs := store.subs;
    store.subs := map u | u in subs :: if subs[u].id == sub.id then Fix(subs[u], finding, now) else subs[u];
    assert forall u :: u in subs && subs[u].id == sub.id ==> before[u].id == before[sub.userID].id;
  }

  // ----- What a pass promises -----

  // A row is still selected after a pass exactly when it failed, or when what
  // was found for it is not a subscription code.
  lemma StillSelected(subs: Subscriptions, w: World, u: string)
    requires u in subs
    ensures NeedsRepair(AfterPass(subs, w, true)[u]) <==>
              (&& NeedsRepair(subs[u])
               && (Fails(subs[u], w, true)
                   || (w.answers(subs[u]).Found? && !LooksLikeCode(w.answers(subs[u]).code))))
  {
  }

  // If no row fails and every code found starts with SUB_, nothing is left to
  // repair, and a second pass changes nothing whatever it is told.
  lemma ReachesAFixedPoint(subs: Subscriptions, w: World, again: World)
    requires forall u :: u in subs && NeedsRepair(subs[u]) ==>
               !Fails(subs[u], w, true) && (w.answers(subs[u]).Found? ==> HasPrefix(w.answers(subs[u]).code, "SUB_"))
    ensures IsListing(AfterPass(subs, w, true), [])
    ensures AfterPass(AfterPass(subs, w, true), again, true) == AfterPass(subs, w, true)
  {
    forall u | u in subs ensures !NeedsRepair(AfterPass(subs, w, true)[u]) {
      StillSelected(subs, w, u);
      if NeedsRepair(subs[u]) && w.answers(subs[u]).Found? {
        var code := w.answers(subs[u]).code;
        assert code[..4] == "SUB_";
        assert code[..3] == code[..4][..3] && code[3] == code[..4][3];
      }
    }
  }

  // Rows that were not selected are untouched, no row appears or disappears,
  // and no row's plan, user, id, trial, customer or cancel flag changes.
  lemma TouchesOnlyWhatItReconciles(subs: Subscriptions, w: World, apply: bool, u: string)
    requires u in subs
    ensures AfterPass(subs, w, apply).Keys == subs.Keys
    ensures !NeedsRepair(subs[u]) ==> AfterPass(subs, w, apply)[u] == subs[u]
    ensures var row := AfterPass(subs, w, apply)[u];
            row == subs[u].(subID := row.subID, status := row.status, periodEnd := row.periodEnd,
                            autoRenews := row.autoRenews, updatedAt := row.updatedAt)
  {
  }

  lemma {:induction false} FailuresWithoutWriteErrors(rows: seq<Row>, n: nat, w: World)
    requires n <= |rows| && forall i :: 0 <= i < |rows| ==> w.writable(rows[i])
    ensures CountIf(rows, n, row => Fails(row, w, true)) == CountIf(rows, n, row => Fails(row, w, false))
  {
    if n > 0 {
      FailuresWithoutWriteErrors(rows, n - 1, w);
    }
  }

  // A dry run writes nothing, and the count it announces is the count an
  // applied run reports under the same answers when no write fails.
  lemma DryRunPredicts(subs: Subscriptions, rows: seq<Row>, w: World)
    requires IsListing(subs, rows)
    requires forall u :: u in subs && NeedsRepair(subs[u]) ==> w.writable(subs[u])
    ensures AfterPass(subs, w, false) == subs
    ensures |rows| - Failures(rows, w, false) == |rows| - Failures(rows, w, true)
  {
    FailuresWithoutWriteErrors(rows, |rows|, w);
  }

  lemma {:induction false} ContainsAtEnd(s: string, part: string)
    ensures Contains(s + part, part)
    decreases s
  {
    if s == "" {
      assert s + part == part && part[..|part|] == part;
    } else {
      assert (s + part)[1..] == s[1..] + part;
      ContainsAtEnd(s[1..], part);
    }
  }

  // A customer with nothing listed is reconciled as one who never renews, and
  // keeps everything else, so the period that was paid for runs out by itself.
  lemma NothingListedNeverRenews(row: Row, w: World)
    requires NeedsRepair(row) && row.customerID != "" && w.writable(row)
    requires w.answers(row) == AnswerFrom(row.customerID, [])
    ensures Repaired(row, w, true) == row.(autoRenews := false, updatedAt := w.now)
    ensures AccessDeadline(Repaired(row, w, true)) == AccessDeadline(row)
  {
    var before := "paystack customer " + row.customerID + " has ";
    assert "paystack customer " + row.customerID + " has no subscriptions" == before + "no subscriptions";
    ContainsAtEnd(before, "no subscriptions");
  }

  // A row with an active subscription at Paystack ends up active, on the code
  // of the first one listed that is.
  lemma ActiveListedIsAdopted(row: Row, w: World, listed: seq<Providers.CustomerSubscription>, i: nat)
    requires NeedsRepair(row) && row.customerID != "" && w.writable(row)
    requires w.answers(row) == AnswerFrom(row.customerID, listed)
    requires i < |listed| && listed[i].status == "active" && Providers.NoneActive(listed[..i])
    ensures Repaired(row, w, true).status == "active" && Repaired(row, w, true).subID == listed[i].code
    ensures Repaired(row, w, true).autoRenews && Repaired(row, w, true).plan == row.plan
  {
    Providers.FirstActiveIs(listed, i);
  }

  // The pass is not bound by the online invariants: a reconciled row keeps its
  // plan, so a paid plan stays beside an entitled status exactly when the
  // status found is one, and the period becomes unknown exactly when no next
  // payment is reported.
  lemma ReconcilingMayLoseInvariants(row: Row, w: World)
    requires NeedsRepair(row) && !Fails(row, w, true) && w.answers(row).Found?
    ensures PaidPlanIsEntitled(Repaired(row, w, true)) <==>
        row.plan == "free" || IsEntitledStatus(w.answers(row).status)
    ensures Repaired(row, w, true).periodEnd.None? <==> w.answers(row).nextPaymentAt <= 0
  {
  }

  // ----- Which rows a pass is about -----

  // A subscription code, whichever case its prefix is in.
  predicate HoldsCode(subID: string) {
    |subID| >= 4 && subID[0] in "sS" && subID[1] in "uU" && subID[2] in "bB" && subID[3] == '_'
  }

  lemma CodeIs(subID: string)
    ensures LooksLikeCode(subID) <==> HoldsCode(subID)
  {
    if |subID| >= 4 {
      LetterIs(subID[0], 'S', 's');
      LetterIs(subID[1], 'U', 'u');
      LetterIs(subID[2], 'B', 'b');
    }
  }

  lemma LetterIs(c: char, upper: char, lower: char)
    requires 'A' <= upper <= 'Z' && lower as int == upper as int + 32
    ensures LowerChar(c) == lower <==> c == lower || c == upper
  {
  }

  // A row is listed if and only if it is Paystack's, still renews, and does not
  // hold a subscription code; no other row changes, whatever the pass is told.
  lemma ListedExactlyWhen(subs: Subscriptions, rows: seq<Row>, w: World, apply: bool, u: string)
    requires IsListing(subs, rows) && Keyed(subs) && u in subs
    ensures subs[u] in rows <==>
            subs[u].provider == "paystack" && subs[u].autoRenews && !HoldsCode(subs[u].subID)
    ensures subs[u] !in rows ==> AfterPass(subs, w, apply)[u] == subs[u]
    ensures !apply ==> AfterPass(subs, w, apply)[u] == subs[u]
  {
    CodeIs(subs[u].subID);
    if subs[u] in rows {
      var i :| 0 <= i < |rows| && rows[i] == subs[u];
    }
  }

  // In particular another provider's row, one with a code and one that does not
  // renew come through every pass as they were.
  lemma OthersComeThrough(subs: Subscriptions, w: World, apply: bool, u: string)
    requires u in subs
    requires subs[u].provider != "paystack" || HasPrefix(subs[u].subID, "SUB_") || !subs[u].autoRenews
    ensures AfterPass(subs, w, apply).Keys == subs.Keys && AfterPass(subs, w, apply)[u] == subs[u]
    ensures forall rows :: IsListing(subs, rows) && Keyed(subs) ==> subs[u] !in rows
  {
    CodeIs(subs[u].subID);
    if HasPrefix(subs[u].subID, "SUB_") {
      assert subs[u].subID[..4][0] == 'S' && subs[u].subID[..4][1] == 'U' && subs[u].subID[..4][2] == 'B'
          && subs[u].subID[..4][3] == '_';
    }
    forall rows | IsListing(subs, rows) && Keyed(subs) ensures subs[u] !in rows {
      ListedExactlyWhen(subs, rows, w, apply, u);
    }
  }

  // What an applied pass makes of a listed row: what Paystack answered, or the
  // row as it was when there was no answer or the write failed.
  lemma ListedRowBecomes(subs: Subscriptions, rows: seq<Row>, w: World, u: string)
    requires IsListing(subs, rows) && Keyed(subs) && u in subs && subs[u] in rows
    ensures var row, after := subs[u], AfterPass(subs, w, true)[u];
            match w.answers(row)
            case Found(code, status, next) =>
              after == (if !w.writable(row) then row
                        else row.(subID := code, status := status,
                                  periodEnd := if next > 0 then Some(next * 1_000_000_000) else None,
                                  autoRenews := true, updatedAt := w.now))
            case LookupFailed(message) =>
              after == (if !w.writable(row) || !Contains(message, "no subscriptions") then row
                        else row.(autoRenews := false, updatedAt := w.now))
  {
    ListedExactlyWhen(subs, rows, w, true, u);
    CodeIs(subs[u].subID);
  }

  // What Paystack's list of a customer's subscriptions is taken to say: the first
  // active one counts, or the first one when none is.
  lemma AnswerSays(customer: string, listed: seq<Providers.CustomerSubscription>, i: nat)
    requires customer != "" && i < |listed|
    requires if Providers.NoneActive(listed) then i == 0
             else listed[i].status == "active" && Providers.NoneActive(listed[..i])
    ensures var answer, word := AnswerFrom(customer, listed), listed[i].status;
            && answer.Found? && answer.code == listed[i].code
            && answer.status == (if word == "active" || word == "non-renewing" then "active"
                                 else if word == "attention" || word == "cancelled" || word == "completed"
                                 then "canceled" else word)
            && (listed[i].nextPayment.Some? ==> answer.nextPaymentAt == listed[i].nextPayment.value)
            && (listed[i].nextPayment.None? ==> answer.nextPaymentAt == 0)
  {
    if !Providers.NoneActive(listed) {
      Providers.FirstActiveIs(listed, i);
    }
  }

  predicate FoundAt(s: string, part: string, i: nat) {
    i + |part| <= |s| && s[i..i + |part|] == part
  }

  lemma FoundLater(s: string, part: string, i: nat)
    requires s != []
    ensures FoundAt(s[1..], part, i) <==> FoundAt(s, part, i + 1)
  {
    if i + 1 + |part| <= |s| {
      assert s[1..][i..i + |part|] == s[i + 1..i + 1 + |part|];
    }
  }

  lemma {:induction false} ContainsIs(s: string, part: string)
    ensures Contains(s, part) <==> exists i: nat :: FoundAt(s, part, i)
    decreases s
  {
    if HasPrefix(s, part) {
      assert FoundAt(s, part, 0);
    } else if s != [] {
      ContainsIs(s[1..], part);
      if i: nat :| FoundAt(s[1..], part, i) {
        FoundLater(s, part, i);
      }
      if i: nat :| FoundAt(s, part, i) {
        assert i != 0;
        FoundLater(s, part, i - 1);
      }
    }
  }

  lemma FoundHasItsLetter(s: string, part: string, i: nat)
    requires part != "" && FoundAt(s, part, i)
    ensures part[0] in s
  {
    assert s[i] == s[i..i + |part|][0];
  }

  lemma NotWithoutItsLetter(s: string, part: string)
    requires part != "" && part[0] !in s
    ensures !Contains(s, part)
  {
    ContainsIs(s, part);
    if i: nat :| FoundAt(s, part, i) {
      FoundHasItsLetter(s, part, i);
    }
  }

  lemma EmptyCustomerMessage()
    ensures 'n' !in "paystack: empty customer code"
  {
  }

  // A row without a customer cannot be looked up, and is left for another time.
  lemma NoCustomerFails(row: Row, w: World, listed: seq<Providers.CustomerSubscription>, apply: bool)
    requires row.customerID == "" && w.answers(row) == AnswerFrom("", listed)
    ensures Repaired(row, w, apply) == row && Fails(row, w, apply)
  {
    EmptyCustomerMessage();
    NotWithoutItsLetter("paystack: empty customer code", "no subscriptions");
  }
}
