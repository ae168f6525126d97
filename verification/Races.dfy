/** Concrete interleavings: how tight the at-most-once bound is, and how an older
    event can have the last word. */
module Races {
  import opened Core
  import opened Records
  import opened Entitlements
  import opened BillingMachine
  import opened Interleaving
  import Providers

  lemma {:induction false} RunConcat(plans: Providers.PaystackPlans, w: World, first: seq<Move>, second: seq<Move>)
    ensures Interleaving.Run(plans, w, first + second)
        == Interleaving.Run(plans, Interleaving.Run(plans, w, first), second)
    decreases |second|
  {
    if second == [] {
      assert first + second == first;
    } else {
      var last := |second| - 1;
      assert (first + second)[..|first + second| - 1] == first + second[..last];
      assert (first + second)[|first + second| - 1] == second[last];
      RunConcat(plans, w, first, second[..last]);
    }
  }

  lemma RunOne(plans: Providers.PaystackPlans, w: World, moves: seq<Move>, m: Move)
    ensures Interleaving.Run(plans, w, moves + [m]) == Next(plans, Interleaving.Run(plans, w, moves), m)
  {
    assert (moves + [m])[..|moves|] == moves;
  }

  predicate Names(d: Delivery) {
    d.decoded.Parsed? && d.decoded.event.userID != ""
  }

  // Statement n of a webhook handler.
  function Statement(h: nat, d: Delivery, n: nat): Move {
    match n
    case 1 => Arrive(h, EventJob(d))
    case 2 => Stamp(h)
    case 3 => Insert(h, true)
    case 4 => CheckOrder(h)
    case 5 => ResolveUser(h, None)
    case 6 => ReadPeriod(h)
    case 7 => ReadTrial(h)
    case _ => ReadRest(h)
  }

  // The first n statements, with no other handler in between.
  function Prefix(h: nat, d: Delivery, n: nat): seq<Move> {
    if n == 0 then [] else Prefix(h, d, n - 1) + [Statement(h, d, n)]
  }

  // All of them up to its write.
  function Prepare(h: nat, d: Delivery): seq<Move> {
    Prefix(h, d, 8)
  }

  function Inserted(w: World, h: nat, d: Delivery): World {
    w.(log := w.log[d.payload := Slot(BillingMachine.Recorded(d, w.clock), h)])
  }

  function ReadColumns(w: World, userID: string, n: nat): Row {
    var sub := ReadSubscription(w.subs, userID, w.clock);
    var period := if n < 6 then BLANK else BLANK.(periodEnd := sub.periodEnd);
    var trial := if n < 7 then period else period.(trialEnd := sub.trialEnd);
    if n < 8 then trial else trial.(autoRenews := sub.autoRenews, subID := sub.subID)
  }

  // The handler after n of its statements.
  function Stage(w: World, h: nat, d: Delivery, n: nat): Handler
    requires Names(d) && 1 <= n <= 8
  {
    var u := if n < 5 then "" else d.decoded.event.userID;
    Handler(EventJob(d),
            match n
            case 1 => Arrived
            case 2 => Stamped
            case 3 => PC.Recorded
            case 4 => Ordered
            case 5 => Resolved
            case 6 => PeriodRead
            case 7 => TrialRead
            case _ => Ready,
            if n < 2 then 0 else w.clock, n >= 3, if n < 3 then 0 else w.clock, u,
            ReadColumns(w, u, n), if n < 6 then 0 else w.clock)
  }

  function Reached(w: World, h: nat, d: Delivery, n: nat): World
    requires Names(d) && 1 <= n <= 8
  {
    Put(if n < 3 then w else Inserted(w, h, d), h, Stage(w, h, d, n))
  }

  function Prepared(w: World, h: nat, d: Delivery): World
    requires Names(d)
  {
    Reached(w, h, d, 8)
  }

  lemma PutTwice(w: World, h: nat, t: Handler, u: Handler)
    ensures Put(Put(w, h, t), h, u) == Put(w, h, u)
  {
  }

  lemma NextStage(plans: Providers.PaystackPlans, w: World, h: nat, d: Delivery, n: nat)
    requires Names(d) && 1 <= n < 8 && h !in w.handlers && d.payload !in w.log
    requires !IsStale(Rows(Inserted(w, h, d).log), d.provider, d.decoded.event)
    ensures Next(plans, Reached(w, h, d, n), Statement(h, d, n + 1)) == Reached(w, h, d, n + 1)
  {
    PutTwice(if n < 3 then w else Inserted(w, h, d), h, Stage(w, h, d, n), Stage(w, h, d, n + 1));
    if n == 2 {
      PutTwice(Inserted(w, h, d), h, Stage(w, h, d, n), Stage(w, h, d, n + 1));
    }
  }

  lemma {:induction false} PrefixReaches(plans: Providers.PaystackPlans, w: World, h: nat, d: Delivery, n: nat)
    requires Names(d) && 1 <= n <= 8 && h !in w.handlers && d.payload !in w.log
    requires !IsStale(Rows(Inserted(w, h, d).log), d.provider, d.decoded.event)
    ensures Interleaving.Run(plans, w, Prefix(h, d, n)) == Reached(w, h, d, n)
  {
    RunOne(plans, w, Prefix(h, d, n - 1), Statement(h, d, n));
    if n == 1 {
      assert Prefix(h, d, 0) == [];
    } else {
      PrefixReaches(plans, w, h, d, n - 1);
      NextStage(plans, w, h, d, n - 1);
    }
  }

  lemma PreparesAlone(plans: Providers.PaystackPlans, w: World, h: nat, d: Delivery)
    requires Names(d) && h !in w.handlers && d.payload !in w.log
    requires !IsStale(Rows(Inserted(w, h, d).log), d.provider, d.decoded.event)
    ensures Interleaving.Run(plans, w, Prepare(h, d)) == Prepared(w, h, d)
  {
    PrefixReaches(plans, w, h, d, 8);
  }

  lemma NothingProcessed(log: EventLog, provider: string, ev: WebhookEvent)
    requires forall k :: k in log ==> !log[k].processed
    ensures !IsStale(log, provider, ev)
  {
  }

  ghost predicate Unprocessed(w: World) {
    forall k :: k in w.log ==> !w.log[k].row.processed
  }

  // A new row uses up one id and no other.
  lemma StillFresh(subs: Subscriptions, row: Row, id: string, other: string)
    requires FreshID(subs, other) && other != id && row.id == ""
    ensures FreshID(Upsert(subs, row, id), other)
  {
  }

  // The clock moves on, and then the handler writes.
  function PauseAndWrite(h: nat, until: Instant, id: string): seq<Move> {
    [Tick(until), Write(h, id, true)]
  }

  lemma RunTwo(plans: Providers.PaystackPlans, w: World, m: Move, n: Move)
    ensures Interleaving.Run(plans, w, [m, n]) == Next(plans, Next(plans, w, m), n)
  {
    assert [m, n][..1] == [m] && [m][..0] == [];
    assert Interleaving.Run(plans, w, [m]) == Next(plans, w, m);
  }

  lemma WritesLate(plans: Providers.PaystackPlans, w: World, h: nat, d: Delivery, until: Instant, id: string,
                   other: string)
    requires Names(d) && w.clock <= until && FreshID(w.subs, id) && FreshID(w.subs, other) && other != id
    ensures var v := Interleaving.Run(plans, Prepared(w, h, d), PauseAndWrite(h, until, id));
            && v.log == Inserted(w, h, d).log && v.clock == until && v.handlers.Keys == w.handlers.Keys + {h}
            && v.history == w.history + [Application(d.payload, h, w.clock, w.clock, until)]
            && At(v, h, Written) && v.handlers[h].job == EventJob(d) && v.cancels == w.cancels
            && FreshID(v.subs, other)
  {
    RunTwo(plans, Prepared(w, h, d), Tick(until), Write(h, id, true));
    StillFresh(w.subs, RowToWrite(plans, Stage(w, h, d, 8), until), id, other);
  }

  // A whole handler: all its statements up to the write, a pause and the write.
  function Slow(h: nat, d: Delivery, until: Instant, id: string): seq<Move> {
    Prepare(h, d) + PauseAndWrite(h, until, id)
  }

  lemma SlowWrites(plans: Providers.PaystackPlans, w: World, h: nat, d: Delivery, until: Instant, id: string,
                   other: string)
    requires Names(d) && Unprocessed(w) && w.clock <= until
    requires h !in w.handlers && d.payload !in w.log
    requires FreshID(w.subs, id) && FreshID(w.subs, other) && other != id
    ensures var v := Interleaving.Run(plans, w, Slow(h, d, until, id));
            && v.log == Inserted(w, h, d).log && v.clock == until && v.handlers.Keys == w.handlers.Keys + {h}
            && v.history == w.history + [Application(d.payload, h, w.clock, w.clock, until)]
            && At(v, h, Written) && v.handlers[h].job == EventJob(d) && v.cancels == w.cancels
            && FreshID(v.subs, other)
  {
    NothingProcessed(Rows(Inserted(w, h, d).log), d.provider, d.decoded.event);
    PreparesAlone(plans, w, h, d);
    RunConcat(plans, w, Prepare(h, d), PauseAndWrite(h, until, id));
    WritesLate(plans, w, h, d, until, id, other);
  }

  // The clean-up that removes a row as soon as it may.
  function CleanUp(createdAt: Instant): seq<Move> {
    [Tick(createdAt + RETENTION + 1), Clean(createdAt + 1)]
  }

  lemma CleansUp(plans: Providers.PaystackPlans, w: World, createdAt: Instant)
    requires w.clock <= createdAt + RETENTION + 1 && forall k :: k in w.log ==> w.log[k].row.createdAt == createdAt
    ensures var v := Interleaving.Run(plans, w, CleanUp(createdAt));
            && v.log == map[] && v.clock == createdAt + RETENTION + 1 && v.handlers == w.handlers
            && v.history == w.history && v.subs == w.subs && v.cancels == w.cancels
  {
    RunTwo(plans, w, Tick(createdAt + RETENTION + 1), Clean(createdAt + 1));
  }

  // One handler records and writes `latency` later; its row is cleaned up as
  // soon as it may be, and a retry of the same payload goes through at once.
  function SlowThenRetried(d: Delivery, start: Instant, latency: int, id: string, other: string): seq<Move> {
    Slow(0, d, start + latency, id) + CleanUp(start) + Slow(1, d, start + RETENTION + 1, other)
  }

  lemma SlowThenCleaned(plans: Providers.PaystackPlans, w: World, d: Delivery, latency: int, id: string, other: string)
    requires Names(d) && 0 <= latency <= RETENTION + 1
    requires w.log == map[] && 0 !in w.handlers
    requires FreshID(w.subs, id) && FreshID(w.subs, other) && other != id
    ensures var v := Interleaving.Run(plans, w, Slow(0, d, w.clock + latency, id) + CleanUp(w.clock));
            && v.log == map[] && v.clock == w.clock + RETENTION + 1 && v.handlers.Keys == w.handlers.Keys + {0}
            && v.history == w.history + [Application(d.payload, 0, w.clock, w.clock, w.clock + latency)]
            && FreshID(v.subs, other)
  {
    var one := Interleaving.Run(plans, w, Slow(0, d, w.clock + latency, id));
    SlowWrites(plans, w, 0, d, w.clock + latency, id, other);
    CleansUp(plans, one, w.clock);
    RunConcat(plans, w, Slow(0, d, w.clock + latency, id), CleanUp(w.clock));
  }

  lemma AppliedAgain(plans: Providers.PaystackPlans, w: World, first: seq<Move>, d: Delivery, v: World, id: string,
                     other: string)
    requires Names(d) && FreshID(v.subs, id) && FreshID(v.subs, other) && other != id
    requires v == Interleaving.Run(plans, w, first) && v.log == map[] && 1 !in v.handlers
    ensures Interleaving.Run(plans, w, first + Slow(1, d, v.clock, id)).history
         == v.history + [Application(d.payload, 1, v.clock, v.clock, v.clock)]
  {
    SlowWrites(plans, v, 1, d, v.clock, id, other);
    RunConcat(plans, w, first, Slow(1, d, v.clock, id));
  }

  lemma TwiceApplied(plans: Providers.PaystackPlans, w: World, d: Delivery, latency: int, again: Instant, id: string,
                     other: string)
    requires Names(d) && 0 <= latency <= RETENTION + 1
    requires w.log == map[] && w.handlers == map[] && again == w.clock + RETENTION + 1
    requires FreshID(w.subs, id) && FreshID(w.subs, other) && other != id
    ensures Interleaving.Run(plans, w, SlowThenRetried(d, w.clock, latency, id, other)).history
         == w.history + [Application(d.payload, 0, w.clock, w.clock, w.clock + latency)]
            + [Application(d.payload, 1, again, again, again)]
  {
    var first := Slow(0, d, w.clock + latency, id) + CleanUp(w.clock);
    var v := Interleaving.Run(plans, w, first);
    SlowThenCleaned(plans, w, d, latency, id, other);
    assert 1 !in v.handlers && v.clock == again;
    var third := AnotherID(v.subs, other);
    AppliedAgain(plans, w, first, d, v, other, third);
  }

  // There is always a new id: one longer than all there are.
  lemma {:induction false} LongerThanAll(keys: set<string>, subs: Subscriptions) returns (n: nat)
    requires keys <= subs.Keys
    ensures forall u :: u in keys ==> |subs[u].id| <= n
    decreases |keys|
  {
    n := 0;
    if keys != {} {
      var u :| u in keys;
      var m := LongerThanAll(keys - {u}, subs);
      n := if |subs[u].id| <= m then m else |subs[u].id|;
      assert forall v :: v in keys ==> v == u || v in keys - {u};
    }
  }

  lemma AnotherID(subs: Subscriptions, id: string) returns (other: string)
    ensures FreshID(subs, other) && other != id
  {
    var n := LongerThanAll(subs.Keys, subs);
    other := seq(n + |id| + 1, _ => 'x');
  }

  // The bound of LatencyBound is reached for every latency and every event, from
  // every fresh world. In particular one payload can be applied twice exactly 90
  // days apart, or closer, by a handler that pauses between recording and writing.
  lemma LatencyBoundIsReached(plans: Providers.PaystackPlans, w: World, d: Delivery, latency: int, id: string,
                              other: string)
    requires Names(d) && 0 <= latency <= RETENTION + 1
    requires Fresh(w) && FreshID(w.subs, id) && FreshID(w.subs, other) && other != id
    ensures var history := Interleaving.Run(plans, w, SlowThenRetried(d, w.clock, latency, id, other)).history;
            && |history| == 2 && history[0].key == history[1].key == d.payload
            && WithinLatency(history, latency)
            && Distance(history[0].at, history[1].at) == RETENTION - latency + 1
  {
    TwiceApplied(plans, w, d, latency, w.clock + RETENTION + 1, id, other);
  }

  // Two handlers that both pass the ordering check before either writes.
  function BothChecked(newer: Delivery, older: Delivery, id: string, other: string): seq<Move> {
    Prepare(0, newer) + Prepare(1, older) + [Write(0, id, true), Write(1, other, true)]
  }

  lemma BothPrepared(plans: Providers.PaystackPlans, start: World, newer: Delivery, older: Delivery)
    requires Names(newer) && Names(older) && newer.payload != older.payload
    requires start.log == map[] && start.handlers == map[]
    ensures Interleaving.Run(plans, start, Prepare(0, newer) + Prepare(1, older))
         == Prepared(Prepared(start, 0, newer), 1, older)
  {
    var w := Prepared(start, 0, newer);
    assert Interleaving.Run(plans, start, Prepare(0, newer)) == w by {
      NothingProcessed(Rows(Inserted(start, 0, newer).log), newer.provider, newer.decoded.event);
      PreparesAlone(plans, start, 0, newer);
    }
    assert Interleaving.Run(plans, w, Prepare(1, older)) == Prepared(w, 1, older) by {
      NothingProcessed(Rows(Inserted(w, 1, older).log), older.provider, older.decoded.event);
      PreparesAlone(plans, w, 1, older);
    }
    RunConcat(plans, start, Prepare(0, newer), Prepare(1, older));
  }

  // What one write does for a handler that was ready.
  lemma WritesEvent(plans: Providers.PaystackPlans, w: World, h: nat, d: Delivery, id: string)
    requires Names(d) && At(w, h, Ready) && w.handlers[h].job == EventJob(d) && FreshID(w.subs, id)
    requires w.handlers[h].userID == d.decoded.event.userID
    ensures var v := Next(plans, w, Write(h, id, true));
            && |v.history| == |w.history| + 1 && v.history[..|w.history|] == w.history
            && v.history[|w.history|].key == d.payload
            && d.decoded.event.userID in v.subs && v.subs[d.decoded.event.userID].status == d.decoded.event.status
            && (forall i :: i in w.handlers && i != h ==> i in v.handlers && v.handlers[i] == w.handlers[i])
            && v.subs == Upsert(w.subs, RowToWrite(plans, w.handlers[h], w.clock), id)
  {
  }

  // Two events of one user and one provider object, the first of which
  // happened later by the provider's clock.
  predicate Conflict(newer: Delivery, older: Delivery) {
    && Names(newer) && Names(older) && newer.payload != older.payload
    && newer.decoded.event.userID == older.decoded.event.userID
    && newer.provider == older.provider
    && ObjectID(newer.decoded.event) == ObjectID(older.decoded.event) != ""
    && 0 < older.decoded.event.eventAt < newer.decoded.event.eventAt
  }

  // The ordering check is a read that precedes the write: when both handlers
  // have passed it before either writes, the older event is applied after the
  // newer one of the same object and has the last word. `OrderShapes` says for
  // which schedules this can happen.
  lemma OlderCanOverwriteNewer(plans: Providers.PaystackPlans, start: World, newer: Delivery, older: Delivery,
                               id: string, other: string)
    requires Fresh(start) && Conflict(newer, older)
    requires FreshID(start.subs, id) && FreshID(start.subs, other) && other != id
    ensures var w := Interleaving.Run(plans, start, BothChecked(newer, older, id, other));
            var u := older.decoded.event.userID;
            && |w.history| == 2 && w.history[0].key == newer.payload && w.history[1].key == older.payload
            && u in w.subs && w.subs[u].status == older.decoded.event.status
  {
    BothPrepared(plans, start, newer, older);
    var both := Prepared(Prepared(start, 0, newer), 1, older);
    WritesEvent(plans, both, 0, newer, id);
    var one := Next(plans, both, Write(0, id, true));
    StillFresh(both.subs, RowToWrite(plans, both.handlers[0], both.clock), id, other);
    WritesEvent(plans, one, 1, older, other);
    RunTwo(plans, both, Write(0, id, true), Write(1, other, true));
    RunConcat(plans, start, Prepare(0, newer) + Prepare(1, older), [Write(0, id, true), Write(1, other, true)]);
  }
}
