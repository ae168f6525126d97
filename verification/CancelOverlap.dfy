/** A cancellation reads the whole row, asks the provider, and writes the whole row
    back: what happens to the row in between is undone. */
module CancelOverlap {
  import opened Core
  import opened Records
  import opened Entitlements
  import opened BillingMachine
  import opened Interleaving
  import opened Overlap
  import opened RowInvariants
  import Providers
  import Races

  // ----- Between the read and the write -----

  predicate NoEndOf(moves: seq<Move>, c: nat) {
    forall i :: 0 <= i < |moves| ==> !(moves[i].EndCancel? && moves[i].c == c)
  }

  lemma StillPending(plans: Providers.PaystackPlans, w: World, m: Move, c: nat)
    requires c in w.cancels && !(m.EndCancel? && m.c == c)
    ensures c in Next(plans, w, m).cancels && Next(plans, w, m).cancels[c] == w.cancels[c]
  {
  }

  lemma {:induction false} PendingThroughout(plans: Providers.PaystackPlans, w: World, moves: seq<Move>, c: nat)
    requires c in w.cancels && NoEndOf(moves, c)
    ensures c in Interleaving.Run(plans, w, moves).cancels
    ensures Interleaving.Run(plans, w, moves).cancels[c] == w.cancels[c]
    decreases |moves|
  {
    if moves != [] {
      PendingThroughout(plans, w, moves[..|moves| - 1], c);
      StillPending(plans, Interleaving.Run(plans, w, moves[..|moves| - 1]), moves[|moves| - 1], c);
    }
  }

  // Whatever is written, a row keeps its id and its creation time.
  predicate SameRecord(one: Subscriptions, other: Subscriptions, u: string) {
    u in one && u in other && one[u].id == other[u].id && one[u].createdAt == other[u].createdAt
  }

  lemma RecordStays(plans: Providers.PaystackPlans, w: World, m: Move, u: string)
    requires u in w.subs
    ensures SameRecord(Next(plans, w, m).subs, w.subs, u)
  {
    SubsNext(plans, w, m);
  }

  lemma {:induction false} RecordStaysThroughout(plans: Providers.PaystackPlans, w: World, moves: seq<Move>, u: string)
    requires u in w.subs
    ensures SameRecord(Interleaving.Run(plans, w, moves).subs, w.subs, u)
    decreases |moves|
  {
    if moves != [] {
      RecordStaysThroughout(plans, w, moves[..|moves| - 1], u);
      RecordStays(plans, Interleaving.Run(plans, w, moves[..|moves| - 1]), moves[|moves| - 1], u);
    }
  }

  // No move of the run writes the user's row.
  ghost predicate Untouched(plans: Providers.PaystackPlans, w: World, moves: seq<Move>, u: string) {
    moves != [] ==>
      var before, last := moves[..|moves| - 1], moves[|moves| - 1];
      var row := RowWritten(plans, Interleaving.Run(plans, w, before), last);
      Untouched(plans, w, before, u) && (row.Some? ==> row.value.userID != u)
  }

  lemma RowStays(plans: Providers.PaystackPlans, w: World, m: Move, u: string)
    requires u in w.subs && (RowWritten(plans, w, m).Some? ==> RowWritten(plans, w, m).value.userID != u)
    ensures u in Next(plans, w, m).subs && Next(plans, w, m).subs[u] == w.subs[u]
  {
    SubsNext(plans, w, m);
  }

  lemma {:induction false} UntouchedRowStays(plans: Providers.PaystackPlans, w: World, moves: seq<Move>, u: string)
    requires u in w.subs && Untouched(plans, w, moves, u)
    ensures u in Interleaving.Run(plans, w, moves).subs && Interleaving.Run(plans, w, moves).subs[u] == w.subs[u]
    decreases |moves|
  {
    if moves != [] {
      UntouchedRowStays(plans, w, moves[..|moves| - 1], u);
      RowStays(plans, Interleaving.Run(plans, w, moves[..|moves| - 1]), moves[|moves| - 1], u);
    }
  }

  // ----- The whole cancellation -----

  // The cancellation of a user's plan has just read the row.
  ghost predicate Begins(plans: Providers.PaystackPlans, v: World, c: nat, user: string) {
    c !in v.cancels && c in Next(plans, v, BeginCancel(c, user)).cancels
  }

  lemma BeginReads(plans: Providers.PaystackPlans, v: World, c: nat, user: string)
    requires Begins(plans, v, c, user) && TableOk(v.subs)
    ensures var began := Next(plans, v, BeginCancel(c, user));
            && user in v.subs && v.subs[user].plan != "free" && !v.subs[user].cancelAtEnd
            && IsEntitledStatus(v.subs[user].status) && v.subs[user].userID == user
            && began.subs == v.subs && began.cancels[c] == v.subs[user]
  {
    ReadsPaidRow(v.subs, user, v.clock);
  }

  lemma EndWrites(plans: Providers.PaystackPlans, x: World, c: nat, providerOk: bool, newID: string, row: Row)
    requires c in x.cancels && x.cancels[c] == row && FreshID(x.subs, newID) && ProviderAccepts(row, providerOk)
    requires row.userID in x.subs && x.subs[row.userID].id == row.id && x.subs[row.userID].createdAt == row.createdAt
    ensures Next(plans, x, EndCancel(c, providerOk, newID, true)).subs
         == x.subs[row.userID := row.(cancelAtEnd := true, updatedAt := x.clock)]
  {
  }

  // Whatever is done to anyone between the read and the write of a cancellation,
  // the write puts back the row that was read, with the flag set, and touches
  // nobody else.
  lemma CancelUndoesWhatCameBetween(plans: Providers.PaystackPlans, w: World, first: seq<Move>, c: nat, user: string,
                                    between: seq<Move>, providerOk: bool, newID: string)
    requires Fresh(w) && TableOk(w.subs)
    requires var v := Interleaving.Run(plans, w, first);
             && Begins(plans, v, c, user) && NoEndOf(between, c)
             && var began := Next(plans, v, BeginCancel(c, user));
                && ProviderAccepts(began.cancels[c], providerOk)
                && FreshID(Interleaving.Run(plans, began, between).subs, newID)
    ensures var v := Interleaving.Run(plans, w, first);
            var x := Interleaving.Run(plans, Next(plans, v, BeginCancel(c, user)), between);
            var after := Next(plans, x, EndCancel(c, providerOk, newID, true)).subs;
            && user in v.subs && user in x.subs
            && after == x.subs[user := v.subs[user].(cancelAtEnd := true, updatedAt := x.clock)]
            && after[user].plan != "free" && IsEntitledStatus(after[user].status)
  {
    var v := Interleaving.Run(plans, w, first);
    var began := Next(plans, v, BeginCancel(c, user));
    var x := Interleaving.Run(plans, began, between);
    TablesStayOk(plans, w, first);
    BeginReads(plans, v, c, user);
    PendingThroughout(plans, began, between, c);
    RecordStaysThroughout(plans, began, between, user);
    EndWrites(plans, x, c, providerOk, newID, v.subs[user]);
  }

  // A cancellation whose row nobody writes meanwhile sets the flag and nothing else.
  lemma FreshCancelOnlySetsTheFlag(plans: Providers.PaystackPlans, w: World, first: seq<Move>, c: nat, user: string,
                                   between: seq<Move>, providerOk: bool, newID: string)
    requires Fresh(w) && TableOk(w.subs)
    requires var v := Interleaving.Run(plans, w, first);
             && Begins(plans, v, c, user) && NoEndOf(between, c)
             && var began := Next(plans, v, BeginCancel(c, user));
                && ProviderAccepts(began.cancels[c], providerOk) && Untouched(plans, began, between, user)
                && FreshID(Interleaving.Run(plans, began, between).subs, newID)
    ensures var v := Interleaving.Run(plans, w, first);
            var x := Interleaving.Run(plans, Next(plans, v, BeginCancel(c, user)), between);
            && user in x.subs
            && Next(plans, x, EndCancel(c, providerOk, newID, true)).subs
               == x.subs[user := x.subs[user].(cancelAtEnd := true, updatedAt := x.clock)]
  {
    var v := Interleaving.Run(plans, w, first);
    TablesStayOk(plans, w, first);
    BeginReads(plans, v, c, user);
    CancelUndoesWhatCameBetween(plans, w, first, c, user, between, providerOk, newID);
    UntouchedRowStays(plans, Next(plans, v, BeginCancel(c, user)), between, user);
  }

  // ----- An expiry that is undone -----

  // The provider's notice that a subscription has ended, handled from its arrival
  // to its write.
  function Expiring(d: Delivery, id: string): seq<Move> {
    Races.Prepare(0, d) + [Write(0, id, true)]
  }

  lemma ExpiringFrees(plans: Providers.PaystackPlans, w: World, d: Delivery, id: string, other: string)
    requires Races.Names(d) && !IsEntitledStatus(d.decoded.event.status) && w.log == map[] && w.handlers == map[]
    requires FreshID(w.subs, id) && FreshID(w.subs, other) && other != id
    ensures var x := Interleaving.Run(plans, w, Expiring(d, id));
            var u := d.decoded.event.userID;
            u in x.subs && x.subs[u].plan == "free" && FreshID(x.subs, other)
  {
    Races.NothingProcessed(Rows(Races.Inserted(w, 0, d).log), d.provider, d.decoded.event);
    Races.PreparesAlone(plans, w, 0, d);
    var ready := Races.Prepared(w, 0, d);
    Races.WritesEvent(plans, ready, 0, d, id);
    Races.RunOne(plans, w, Races.Prepare(0, d), Write(0, id, true));
    Races.StillFresh(ready.subs, RowToWrite(plans, ready.handlers[0], ready.clock), id, other);
  }

  // A user cancels while the notice that the subscription has ended comes in: the
  // plan is free once the notice is applied, and paid again once the cancellation
  // is written.
  lemma ExpiryCanBeUndone(plans: Providers.PaystackPlans, w: World, d: Delivery, id: string, other: string)
    requires Races.Names(d) && !IsEntitledStatus(d.decoded.event.status)
    requires Fresh(w) && TableOk(w.subs) && Begins(plans, w, 0, d.decoded.event.userID)
    requires ProviderAccepts(Next(plans, w, BeginCancel(0, d.decoded.event.userID)).cancels[0], true)
    requires FreshID(w.subs, id) && FreshID(w.subs, other) && other != id
    ensures var u := d.decoded.event.userID;
            var x := Interleaving.Run(plans, Next(plans, w, BeginCancel(0, u)), Expiring(d, id));
            var after := Next(plans, x, EndCancel(0, true, other, true)).subs;
            && u in x.subs && x.subs[u].plan == "free" && u in after && after[u].plan != "free"
            && IsEntitledStatus(after[u].status)
  {
    var u := d.decoded.event.userID;
    BeginReads(plans, w, 0, u);
    ExpiringFrees(plans, Next(plans, w, BeginCancel(0, u)), d, id, other);
    ExpiringEndsNothing(d, id);
    CancelUndoesWhatCameBetween(plans, w, [], 0, u, Expiring(d, id), true, other);
  }

  lemma {:induction false} PrefixEndsNothing(h: nat, d: Delivery, n: nat)
    ensures NoEndOf(Races.Prefix(h, d, n), 0)
  {
    if n > 0 {
      PrefixEndsNothing(h, d, n - 1);
    }
  }

  lemma ExpiringEndsNothing(d: Delivery, id: string)
    ensures NoEndOf(Expiring(d, id), 0)
  {
    PrefixEndsNothing(0, d, 8);
  }
}
