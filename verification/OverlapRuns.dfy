/** Schedules on which overlapping handlers lose what serialised ones keep: a
    payment that does not count, and a known period that becomes unknown. */
module OverlapRuns {
  import opened Core
  import opened Records
  import opened Entitlements
  import opened BillingMachine
  import opened Columns
  import opened Interleaving
  import opened StaleReads
  import opened PaidTime
  import OrderShapes
  import Providers
  import Races

  // ----- A redemption up to its write, and the write -----

  // The claim's INSERT may fail.
  function Claiming(h: nat, r: Redemption, ok: bool): seq<Move> {
    [Arrive(h, ReferenceJob(r)), Stamp(h), Insert(h, ok)] + [ReadPeriod(h)]
  }

  function Redeeming(h: nat, r: Redemption, id: string): seq<Move> {
    Claiming(h, r, true) + [Write(h, id, true)]
  }

  // Handler h is about to sell the user a period, having read one at some instant.
  predicate IsReady(v: World, h: nat, r: Redemption, read: Option<Instant>, at: Instant) {
    && At(v, h, Ready) && v.handlers[h].job == ReferenceJob(r) && v.handlers[h].userID == r.user.id
    && v.handlers[h].existing.periodEnd == read && v.handlers[h].readAt == at
  }

  predicate OthersKept(v: World, w: World, h: nat) {
    v.handlers.Keys == w.handlers.Keys + {h} && forall g :: g in w.handlers && g != h ==> v.handlers[g] == w.handlers[g]
  }

  predicate ClaimedBy(v: World, w: World, h: nat, r: Redemption) {
    && v.subs == w.subs && v.clock == w.clock && v.history == w.history && OthersKept(v, w, h)
    && v.log.Keys == w.log.Keys + {ClaimKey(r.reference)}
    && IsReady(v, h, r, PeriodOf(w.subs, r.user.id), w.clock)
  }

  predicate CanClaim(plans: Providers.PaystackPlans, w: World, h: nat, r: Redemption) {
    Screen(plans, r) == Granted && h !in w.handlers && ClaimKey(r.reference) !in w.log
  }

  // A handler that has arrived and read the clock.
  function Opened(job: Job, at: Instant): Handler {
    Handler(job, Stamped, at, false, 0, "", BLANK, 0)
  }

  lemma Opens(plans: Providers.PaystackPlans, w: World, h: nat, r: Redemption)
    requires Screen(plans, r) == Granted && h !in w.handlers
    ensures Next(plans, Next(plans, w, Arrive(h, ReferenceJob(r))), Stamp(h))
         == Put(w, h, Opened(ReferenceJob(r), w.clock))
  {
    var one := Handler(ReferenceJob(r), Arrived, 0, false, 0, "", BLANK, 0);
    assert Next(plans, w, Arrive(h, ReferenceJob(r))) == Put(w, h, one);
    Races.PutTwice(w, h, one, Opened(ReferenceJob(r), w.clock));
  }

  function Claimant(r: Redemption, at: Instant): Handler {
    Handler(ReferenceJob(r), Resolved, at, true, at, r.user.id, BLANK, 0)
  }

  lemma StoresClaim(plans: Providers.PaystackPlans, w: World, h: nat, r: Redemption)
    requires CanClaim(plans, w, h, r)
    ensures Next(plans, Put(w, h, Opened(ReferenceJob(r), w.clock)), Insert(h, true))
         == Put(w.(log := w.log[ClaimKey(r.reference) := Slot(Claim(r, w.clock), h)]), h, Claimant(r, w.clock))
  {
  }

  lemma ClaimantReads(plans: Providers.PaystackPlans, w: World, h: nat, r: Redemption, log: map<string, Slot>)
    requires log.Keys == w.log.Keys + {ClaimKey(r.reference)}
    ensures ClaimedBy(Next(plans, Put(w.(log := log), h, Claimant(r, w.clock)), ReadPeriod(h)), w, h, r)
  {
    if r.user.id in w.subs {
      ViewOverridesForceFree(w.subs[r.user.id], w.clock);
    }
  }

  lemma ClaimingIs(plans: Providers.PaystackPlans, w: World, h: nat, r: Redemption)
    requires CanClaim(plans, w, h, r)
    ensures ClaimedBy(Interleaving.Run(plans, w, Claiming(h, r, true)), w, h, r)
  {
    OrderShapes.RunThree(plans, w, Arrive(h, ReferenceJob(r)), Stamp(h), Insert(h, true));
    Races.RunOne(plans, w, [Arrive(h, ReferenceJob(r)), Stamp(h), Insert(h, true)], ReadPeriod(h));
    Opens(plans, w, h, r);
    StoresClaim(plans, w, h, r);
    ClaimantReads(plans, w, h, r, w.log[ClaimKey(r.reference) := Slot(Claim(r, w.clock), h)]);
  }

  // Where a period starts that is bought on top of what was read.
  function From(read: Option<Instant>, at: Instant): Instant {
    if read.Some? && read.value > at then read.value else at
  }

  // One more entry in the history, and the user's period ends there.
  predicate SoldUntil(u: World, v: World, h: nat, userID: string, end: Instant) {
    && |u.history| == |v.history| + 1 && PeriodOf(u.subs, userID) == Some(end)
    && u.log == v.log && u.clock == v.clock && h in v.handlers && OthersKept(u, v, h)
  }

  // Where the handler's period ends.
  function EndSold(plans: Providers.PaystackPlans, t: Handler): Instant
    requires t.job.ReferenceJob? && Screen(plans, t.job.redemption) == Granted
  {
    PeriodBase(t.existing, t.readAt) + LengthSold(plans, t.job.redemption)
  }

  lemma EndSoldIs(plans: Providers.PaystackPlans, t: Handler, r: Redemption, read: Option<Instant>, at: Instant)
    requires t.job == ReferenceJob(r) && Screen(plans, r) == Granted && t.existing.periodEnd == read && t.readAt == at
    ensures EndSold(plans, t) == From(read, at) + LengthSold(plans, r)
  {
  }

  lemma TakenWrite(plans: Providers.PaystackPlans, v: World, h: nat, id: string)
    requires At(v, h, Ready) && FreshID(v.subs, id)
    ensures Next(plans, v, Write(h, id, true)) == Writing(plans, v, h, id, true)
  {
  }

  lemma SellsPeriod(plans: Providers.PaystackPlans, v: World, h: nat, r: Redemption, id: string)
    requires At(v, h, Ready) && v.handlers[h].job == ReferenceJob(r) && v.handlers[h].userID == r.user.id
    requires Screen(plans, r) == Granted && FreshID(v.subs, id)
    ensures PeriodOf(Next(plans, v, Write(h, id, true)).subs, r.user.id) == Some(EndSold(plans, v.handlers[h]))
  {
    TakenWrite(plans, v, h, id);
    SoldPeriod(plans, v, h, id);
  }

  // Two ids that no row has.
  ghost predicate NewIDs(subs: Subscriptions, id: string, other: string) {
    FreshID(subs, id) && FreshID(subs, other) && other != id
  }

  lemma WriteAddsOne(plans: Providers.PaystackPlans, v: World, h: nat, r: Redemption, id: string, other: string)
    requires At(v, h, Ready) && v.handlers[h].job == ReferenceJob(r) && Screen(plans, r) == Granted
    requires NewIDs(v.subs, id, other)
    ensures var u := Next(plans, v, Write(h, id, true));
            && |u.history| == |v.history| + 1 && u.log == v.log && u.clock == v.clock && OthersKept(u, v, h)
            && FreshID(u.subs, other)
  {
    Races.StillFresh(v.subs, RowToWrite(plans, v.handlers[h], v.clock), id, other);
  }

  // What the write does, whatever else has happened since the read.
  lemma Sells(plans: Providers.PaystackPlans, v: World, h: nat, r: Redemption, read: Option<Instant>, at: Instant,
              id: string, other: string)
    requires Screen(plans, r) == Granted && IsReady(v, h, r, read, at) && NewIDs(v.subs, id, other)
    ensures SoldUntil(Next(plans, v, Write(h, id, true)), v, h, r.user.id, From(read, at) + LengthSold(plans, r))
    ensures FreshID(Next(plans, v, Write(h, id, true)).subs, other)
  {
    SellsPeriod(plans, v, h, r, id);
    EndSoldIs(plans, v.handlers[h], r, read, at);
    WriteAddsOne(plans, v, h, r, id, other);
  }

  // ----- Composing runs -----

  lemma Carry(plans: Providers.PaystackPlans, w: World, first: seq<Move>, second: seq<Move>, p: World -> bool)
    requires p(Interleaving.Run(plans, Interleaving.Run(plans, w, first), second))
    ensures p(Interleaving.Run(plans, w, first + second))
  {
    Races.RunConcat(plans, w, first, second);
  }

  // The history has so many entries and the user's period ends there.
  predicate Stands(w: World, n: nat, u: string, end: Instant) {
    |w.history| == n && PeriodOf(w.subs, u) == Some(end)
  }

  // What a redemption leaves, from its arrival to its write.
  predicate RedeemedBy(v: World, w: World, h: nat, r: Redemption, end: Instant) {
    && Stands(v, |w.history| + 1, r.user.id, end) && v.clock == w.clock && OthersKept(v, w, h)
    && v.log.Keys == w.log.Keys + {ClaimKey(r.reference)}
  }

  lemma WriteRedeems(plans: Providers.PaystackPlans, w: World, v: World, h: nat, r: Redemption, id: string,
                     other: string)
    requires Screen(plans, r) == Granted && ClaimedBy(v, w, h, r) && NewIDs(w.subs, id, other)
    ensures RedeemedBy(Next(plans, v, Write(h, id, true)), w, h, r,
                       From(PeriodOf(w.subs, r.user.id), w.clock) + LengthSold(plans, r))
    ensures FreshID(Next(plans, v, Write(h, id, true)).subs, other)
  {
    Sells(plans, v, h, r, PeriodOf(w.subs, r.user.id), w.clock, id, other);
  }

  lemma RedeemingIs(plans: Providers.PaystackPlans, w: World, h: nat, r: Redemption, id: string, other: string,
                    end: Instant)
    requires CanClaim(plans, w, h, r) && end == From(PeriodOf(w.subs, r.user.id), w.clock) + LengthSold(plans, r)
    requires NewIDs(w.subs, id, other)
    ensures RedeemedBy(Interleaving.Run(plans, w, Redeeming(h, r, id)), w, h, r, end)
    ensures FreshID(Interleaving.Run(plans, w, Redeeming(h, r, id)).subs, other)
  {
    ClaimingIs(plans, w, h, r);
    WriteRedeems(plans, w, Interleaving.Run(plans, w, Claiming(h, r, true)), h, r, id, other);
    Races.RunOne(plans, w, Claiming(h, r, true), Write(h, id, true));
  }

  // ----- Two payments of one user -----

  predicate TwoOfOneUser(plans: Providers.PaystackPlans, one: Redemption, two: Redemption) {
    && Screen(plans, one) == Granted && Screen(plans, two) == Granted
    && one.user.id == two.user.id && one.reference != two.reference
  }

  lemma DifferentClaims(one: string, two: string)
    requires one != two
    ensures ClaimKey(one) != ClaimKey(two)
  {
    assert ClaimKey(one)[|"paystack-verify:"|..] == one;
    assert ClaimKey(two)[|"paystack-verify:"|..] == two;
  }

  function BothReadFirst(one: Redemption, two: Redemption, id: string, other: string): seq<Move> {
    Claiming(0, one, true) + (Claiming(1, two, true) + [Write(0, id, true), Write(1, other, true)])
  }

  function OneAfterTheOther(one: Redemption, two: Redemption, id: string, other: string): seq<Move> {
    Redeeming(0, one, id) + Redeeming(1, two, other)
  }

  lemma BothWrite(plans: Providers.PaystackPlans, v: World, one: Redemption, two: Redemption, id: string, other: string,
                  read: Option<Instant>, at: Instant, end: Instant)
    requires TwoOfOneUser(plans, one, two) && NewIDs(v.subs, id, other)
    requires end == From(read, at) + LengthSold(plans, two)
    requires IsReady(v, 0, one, read, at) && IsReady(v, 1, two, read, at)
    ensures Stands(Interleaving.Run(plans, v, [Write(0, id, true), Write(1, other, true)]), |v.history| + 2,
                   two.user.id, end)
  {
    Sells(plans, v, 0, one, read, at, id, other);
    var u := Next(plans, v, Write(0, id, true));
    var third := Races.AnotherID(u.subs, other);
    Sells(plans, u, 1, two, read, at, other, third);
    Races.RunTwo(plans, v, Write(0, id, true), Write(1, other, true));
  }

  lemma SecondClaims(plans: Providers.PaystackPlans, v: World, one: Redemption, two: Redemption, id: string,
                     other: string, read: Option<Instant>, at: Instant, end: Instant)
    requires TwoOfOneUser(plans, one, two) && NewIDs(v.subs, id, other)
    requires end == From(read, at) + LengthSold(plans, two)
    requires IsReady(v, 0, one, read, at) && CanClaim(plans, v, 1, two) && PeriodOf(v.subs, two.user.id) == read
    requires v.clock == at
    ensures Stands(Interleaving.Run(plans, v, Claiming(1, two, true) + [Write(0, id, true), Write(1, other, true)]),
                   |v.history| + 2, two.user.id, end)
  {
    ClaimingIs(plans, v, 1, two);
    BothWrite(plans, Interleaving.Run(plans, v, Claiming(1, two, true)), one, two, id, other, read, at, end);
    Carry(plans, v, Claiming(1, two, true), [Write(0, id, true), Write(1, other, true)],
          (u: World) => Stands(u, |v.history| + 2, two.user.id, end));
  }

  // Of two payments of one user that are redeemed at the same time, both reading
  // before either writes, both are granted and only the second one counts.
  lemma BothReadFirstLosesOne(plans: Providers.PaystackPlans, w: World, one: Redemption, two: Redemption, id: string,
                              other: string, end: Instant)
    requires Fresh(w) && TwoOfOneUser(plans, one, two) && NewIDs(w.subs, id, other)
    requires end == From(PeriodOf(w.subs, two.user.id), w.clock) + LengthSold(plans, two)
    ensures Stands(Interleaving.Run(plans, w, BothReadFirst(one, two, id, other)), 2, two.user.id, end)
  {
    ClaimingIs(plans, w, 0, one);
    DifferentClaims(one.reference, two.reference);
    SecondClaims(plans, Interleaving.Run(plans, w, Claiming(0, one, true)), one, two, id, other,
                 PeriodOf(w.subs, two.user.id), w.clock, end);
    Carry(plans, w, Claiming(0, one, true), Claiming(1, two, true) + [Write(0, id, true), Write(1, other, true)],
          (u: World) => Stands(u, 2, two.user.id, end));
  }

  lemma LengthIsPositive(plans: Providers.PaystackPlans, r: Redemption)
    requires Screen(plans, r) == Granted
    ensures LengthSold(plans, r) > 0
  {
  }

  lemma SecondRedeems(plans: Providers.PaystackPlans, a: World, w: World, one: Redemption, two: Redemption,
                      other: string, end: Instant, second: int)
    requires Fresh(w) && TwoOfOneUser(plans, one, two) && RedeemedBy(a, w, 0, one, end) && end >= w.clock
    requires FreshID(a.subs, other)
    requires second == LengthSold(plans, two) && ClaimKey(one.reference) != ClaimKey(two.reference)
    ensures Stands(Interleaving.Run(plans, a, Redeeming(1, two, other)), 2, two.user.id, end + second)
  {
    var third := Races.AnotherID(a.subs, other);
    RedeemingIs(plans, a, 1, two, other, third, end + second);
  }

  // One after the other, both count: `end` is where the first one's period ends.
  lemma OneAfterTheOtherKeepsBoth(plans: Providers.PaystackPlans, w: World, one: Redemption, two: Redemption,
                                  id: string, other: string, end: Instant, second: int)
    requires Fresh(w) && TwoOfOneUser(plans, one, two) && NewIDs(w.subs, id, other)
    requires end == From(PeriodOf(w.subs, one.user.id), w.clock) + LengthSold(plans, one)
    requires second == LengthSold(plans, two)
    ensures Stands(Interleaving.Run(plans, w, OneAfterTheOther(one, two, id, other)), 2, two.user.id, end + second)
  {
    RedeemingIs(plans, w, 0, one, id, other, end);
    LengthIsPositive(plans, one);
    DifferentClaims(one.reference, two.reference);
    SecondRedeems(plans, Interleaving.Run(plans, w, Redeeming(0, one, id)), w, one, two, other, end, second);
    Carry(plans, w, Redeeming(0, one, id), Redeeming(1, two, other),
          (u: World) => Stands(u, 2, two.user.id, end + second));
  }

  // ----- A purchase can be taken back -----

  function ReadBeforePurchase(d: Delivery, r: Redemption, id: string): seq<Move> {
    Races.Prepare(0, d) + Redeeming(1, r, id)
  }

  // The event's handler, having read its user's row in a table.
  ghost predicate HasReadAll(w: World, h: nat, d: Delivery, subs: Subscriptions) {
    && Races.Names(d) && At(w, h, Ready) && w.handlers[h].job == EventJob(d)
    && w.handlers[h].userID == d.decoded.event.userID
    && forall c :: CellOf(w.handlers[h].existing, c) == StoredCell(subs, d.decoded.event.userID, c)
  }

  // It has read; nothing else has happened yet.
  ghost predicate JustRead(a: World, w: World, d: Delivery) {
    && HasReadAll(a, 0, d, w.subs) && a.handlers.Keys == {0} && a.log.Keys == {d.payload}
    && a.subs == w.subs && a.clock == w.clock && a.history == []
  }

  lemma PreparedHasRead(plans: Providers.PaystackPlans, w: World, d: Delivery)
    requires Fresh(w) && Races.Names(d)
    ensures JustRead(Interleaving.Run(plans, w, Races.Prepare(0, d)), w, d)
  {
    Races.NothingProcessed(Rows(Races.Inserted(w, 0, d).log), d.provider, d.decoded.event);
    Races.PreparesAlone(plans, w, 0, d);
    var u := d.decoded.event.userID;
    forall c ensures CellOf(Races.ReadColumns(w, u, 8), c) == StoredCell(w.subs, u, c) {
      ViewKeepsCells(w.subs, u, w.clock, c);
    }
  }

  // The purchase stands, and the event's handler still holds what it read.
  ghost predicate Purchased(v: World, d: Delivery, u: string, end: Instant, subs: Subscriptions, other: string) {
    Stands(v, 1, u, end) && HasReadAll(v, 0, d, subs) && FreshID(v.subs, other)
  }

  lemma PurchaseInBetween(plans: Providers.PaystackPlans, a: World, w: World, d: Delivery, r: Redemption, id: string,
                          other: string, end: Instant)
    requires JustRead(a, w, d) && CanClaim(plans, a, 1, r) && NewIDs(w.subs, id, other)
    requires end == From(PeriodOf(w.subs, r.user.id), w.clock) + LengthSold(plans, r)
    ensures Purchased(Interleaving.Run(plans, a, Redeeming(1, r, id)), d, r.user.id, end, w.subs, other)
  {
    RedeemingIs(plans, a, 1, r, id, other, end);
  }

  lemma ReadThenPurchased(plans: Providers.PaystackPlans, w: World, d: Delivery, r: Redemption, id: string,
                          other: string, end: Instant)
    requires Fresh(w) && Races.Names(d) && NewIDs(w.subs, id, other)
    requires Screen(plans, r) == Granted && ClaimKey(r.reference) != d.payload
    requires end == From(PeriodOf(w.subs, r.user.id), w.clock) + LengthSold(plans, r)
    ensures Purchased(Interleaving.Run(plans, w, ReadBeforePurchase(d, r, id)), d, r.user.id, end, w.subs, other)
  {
    PreparedHasRead(plans, w, d);
    PurchaseInBetween(plans, Interleaving.Run(plans, w, Races.Prepare(0, d)), w, d, r, id, other, end);
    Carry(plans, w, Races.Prepare(0, d), Redeeming(1, r, id),
          (u: World) => Purchased(u, d, r.user.id, end, w.subs, other));
  }

  // What the event does not carry is as it was before the purchase.
  ghost predicate TakenBack(after: Subscriptions, before: Subscriptions, u: string, ev: WebhookEvent) {
    && u in after
    && (forall c :: Carried(ev, c).None? ==> StoredCell(after, u, c) == StoredCell(before, u, c))
    && (ev.plan == "pro" && ev.status == "active" && ev.periodEnd <= 0 && PeriodOf(before, u) == None ==>
          Unlimited(after[u]))
  }

  // Pro for ever.
  predicate Unlimited(row: Row) {
    row.plan == "pro" && row.periodEnd == None && AccessDeadline(row) == Unbounded
  }

  lemma OldRowIsWrittenBack(plans: Providers.PaystackPlans, v: World, h: nat, d: Delivery, subs: Subscriptions,
                            id: string)
    requires HasReadAll(v, h, d, subs) && FreshID(v.subs, id)
    ensures TakenBack(Next(plans, v, Write(h, id, true)).subs, subs, d.decoded.event.userID, d.decoded.event)
  {
    var u := d.decoded.event.userID;
    forall c | Carried(d.decoded.event, c).None?
      ensures StoredCell(SubsAfter(plans, v, h, id), u, c) == StoredCell(subs, u, c)
    {
      EventWritesBackWhatItRead(plans, v, h, id, u, c);
    }
    assert CellOf(v.handlers[h].existing, PeriodEnd) == StoredCell(subs, u, PeriodEnd);
  }

  // An event reads the row before the user's purchase is written and writes after
  // it. Whatever it does not carry is then as before the purchase: without a
  // period of its own it takes the bought one back, to the end there was before
  // or, when there was none, to none at all, which never expires.
  lemma PurchaseCanBeTakenBack(plans: Providers.PaystackPlans, w: World, d: Delivery, r: Redemption, id: string,
                               other: string, end: Instant)
    requires Fresh(w) && Screen(plans, r) == Granted && JsonDocument(d.payload) && NewIDs(w.subs, id, other)
    requires Races.Names(d) && d.decoded.event.userID == r.user.id
    requires end == From(PeriodOf(w.subs, r.user.id), w.clock) + LengthSold(plans, r)
    ensures var v := Interleaving.Run(plans, w, ReadBeforePurchase(d, r, id));
            && Stands(v, 1, r.user.id, end)
            && TakenBack(Next(plans, v, Write(0, other, true)).subs, w.subs, r.user.id, d.decoded.event)
    ensures PeriodOf(w.subs, r.user.id).Some? ==> PeriodOf(w.subs, r.user.id).value < end
  {
    ClaimsAreNotPayloads(d.payload, r.reference);
    LengthIsPositive(plans, r);
    ReadThenPurchased(plans, w, d, r, id, other, end);
    OldRowIsWrittenBack(plans, Interleaving.Run(plans, w, ReadBeforePurchase(d, r, id)), 0, d, w.subs, other);
  }
}
