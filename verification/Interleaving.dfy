/** Handlers running side by side: every SQL statement is one step, and any
    number of handlers, cleanups and clock readings interleave freely. */
module Interleaving {
  import opened Core
  import opened Records
  import opened Entitlements
  import opened BillingMachine
  import Providers

  // A webhook whose body decoded, or a redemption that passed its checks.
  datatype Job = EventJob(delivery: Delivery) | ReferenceJob(redemption: Redemption)

  // The next statement of a handler.
  datatype PC = Arrived | Stamped | Recorded | Ordered | Resolved | PeriodRead | TrialRead | Ready | Written | Finished

  // `existing` collects the columns read so far, one statement at a time;
  // `inserted` and `insertedAt` are bookkeeping about the INSERT.
  datatype Handler = Handler(job: Job, pc: PC, createdAt: Instant, inserted: bool, insertedAt: Instant,
                             userID: string, existing: Row, readAt: Instant)

  // A stored row and, as bookkeeping, the handler that inserted it.
  datatype Slot = Slot(row: LogRow, inserter: nat)

  // One write to `subscriptions`: by whom, for which key, recorded and written when.
  datatype Application = Application(key: string, handler: nat, createdAt: Instant, insertedAt: Instant, at: Instant)

  // `cancels` holds the rows that cancellations have read and not yet written
  // back. `history` and `removed` (the keys whose row was ever cleaned up) are
  // bookkeeping.
  datatype World = World(subs: Subscriptions, log: map<string, Slot>, handlers: map<nat, Handler>,
                         cancels: map<nat, Row>, clock: Instant, history: seq<Application>, removed: set<string>)

  datatype Move =
    | Tick(now: Instant)
    | Arrive(h: nat, job: Job)
    | Stamp(h: nat)
    | Insert(h: nat, ok: bool)
    | CheckOrder(h: nat)
    | ResolveUser(h: nat, found: Option<string>)
    | ReadPeriod(h: nat)
    | ReadTrial(h: nat)
    | ReadRest(h: nat)
    | Write(h: nat, newID: string, ok: bool)
    | MarkProcessed(h: nat, ok: bool)
    | BeginCancel(c: nat, user: string)
    | EndCancel(c: nat, providerOk: bool, newID: string, ok: bool)
    | Clean(cutoff: Instant)

  function KeyOf(job: Job): string {
    match job
    case EventJob(d) => d.payload
    case ReferenceJob(r) => ClaimKey(r.reference)
  }

  predicate Accepted(plans: Providers.PaystackPlans, job: Job) {
    match job
    case EventJob(d) => d.decoded != Rejected
    case ReferenceJob(r) => Screen(plans, r) == Granted
  }

  function RowFor(job: Job, createdAt: Instant): LogRow {
    match job
    case EventJob(d) => BillingMachine.Recorded(d, createdAt)
    case ReferenceJob(r) =>
      if r.checked.Some? then Claim(r, createdAt) else LogRow("", "paystack", "", None, createdAt, false)
  }

  function Rows(log: map<string, Slot>): EventLog {
    map k | k in log :: log[k].row
  }

  // The statement a handler is at.
  predicate At(w: World, h: nat, pc: PC) {
    h in w.handlers && w.handlers[h].pc == pc
  }

  // The call makes no further statement: it is finished, or it is a redemption
  // that has written, which has no row to mark.
  predicate Through(t: Handler) {
    t.pc == Finished || (t.pc == Written && t.job.ReferenceJob?)
  }

  function Put(w: World, h: nat, handler: Handler): World {
    w.(handlers := w.handlers[h := handler])
  }

  function Advance(w: World, h: nat, pc: PC): World
    requires h in w.handlers
  {
    Put(w, h, w.handlers[h].(pc := pc))
  }

  // INSERT INTO billing_events: the unique index decides.
  function InsertRow(w: World, h: nat, ok: bool): World
    requires h in w.handlers
  {
    var t := w.handlers[h];
    var key := KeyOf(t.job);
    if !ok || key in w.log then Advance(w, h, Finished)
    else
      Put(w.(log := w.log[key := Slot(RowFor(t.job, t.createdAt), h)]), h,
          t.(inserted := true, insertedAt := w.clock,
             pc := if t.job.EventJob? && !t.job.delivery.decoded.Parsed? then Finished
                   else if t.job.EventJob? then Recorded else Resolved,
             userID := if t.job.ReferenceJob? then t.job.redemption.user.id else ""))
  }

  ghost function Ordering(w: World, h: nat): World
    requires h in w.handlers
  {
    var job := w.handlers[h].job;
    Advance(w, h, if job.EventJob? && job.delivery.decoded.Parsed?
                   && IsStale(Rows(w.log), job.delivery.provider, job.delivery.decoded.event)
                then Finished else Ordered)
  }

  // A lookup is made only for an event that names no user, and tells the truth.
  ghost predicate Truthful(subs: Subscriptions, job: Job, found: Option<string>) {
    job.EventJob? && job.delivery.decoded.Parsed? && job.delivery.decoded.event.userID == "" ==>
      Resolves(subs, job.delivery.decoded.event, found)
  }

  function Resolving(w: World, h: nat, found: Option<string>): World
    requires h in w.handlers
  {
    var t := w.handlers[h];
    if !(t.job.EventJob? && t.job.delivery.decoded.Parsed?) then w
    else
      var owner := Owner(t.job.delivery.decoded.event, found);
      if owner.None? then Advance(w, h, Finished) else Put(w, h, t.(pc := Resolved, userID := owner.value))
  }

  // A redemption reads once; a webhook reads the period, the trial and the rest apart.
  function Reading(w: World, h: nat): World
    requires h in w.handlers
  {
    var t := w.handlers[h];
    var sub := ReadSubscription(w.subs, t.userID, w.clock);
    match t.pc
    case Resolved =>
      Put(w, h, t.(pc := if t.job.EventJob? then PeriodRead else Ready,
                   existing := t.existing.(periodEnd := sub.periodEnd), readAt := w.clock))
    case PeriodRead => Put(w, h, t.(pc := TrialRead, existing := t.existing.(trialEnd := sub.trialEnd)))
    case TrialRead =>
      Put(w, h, t.(pc := Ready, existing := t.existing.(autoRenews := sub.autoRenews, subID := sub.subID)))
    case _ => w
  }

  function RowToWrite(plans: Providers.PaystackPlans, t: Handler, now: Instant): Row {
    match t.job
    case EventJob(d) =>
      if d.decoded.Parsed? then EventRow(t.existing, d.decoded.event, d.provider, t.userID, now) else t.existing
    case ReferenceJob(r) =>
      if Screen(plans, r) == Granted then RedeemedRow(plans, t.existing, r, t.readAt) else t.existing
  }

  function Writing(plans: Providers.PaystackPlans, w: World, h: nat, newID: string, ok: bool): World
    requires h in w.handlers
  {
    var t := w.handlers[h];
    if !ok then Advance(w, h, Finished)
    else
      Advance(w.(subs := Upsert(w.subs, RowToWrite(plans, t, w.clock), newID),
               history := w.history + [Application(KeyOf(t.job), h, t.createdAt, t.insertedAt, w.clock)]),
            h, Written)
  }

  function Marking(w: World, h: nat, ok: bool): World
    requires h in w.handlers
  {
    var t := w.handlers[h];
    var key := KeyOf(t.job);
    var done := Advance(w, h, Finished);
    if ok && t.job.EventJob? && t.job.delivery.decoded.Parsed? && key in w.log then
      done.(log := w.log[key := w.log[key].(row := w.log[key].row.(processed := true,
                                                                  userID := t.job.delivery.decoded.event.userID))])
    else done
  }

  // DELETE WHERE created_at < cutoff, with a cutoff computed earlier or now.
  function Cleaning(w: World, cutoff: Instant): World {
    w.(log := map k | k in w.log && w.log[k].row.createdAt >= cutoff :: w.log[k],
       removed := w.removed + set k | k in w.log && w.log[k].row.createdAt < cutoff)
  }

  // CancelSubscription reads the row, and stops there if there is nothing to do.
  function Beginning(w: World, c: nat, user: string): World {
    var sub := ReadSubscription(w.subs, user, w.clock);
    if sub.plan == "free" || sub.id == "" || sub.cancelAtEnd then w else w.(cancels := w.cancels[c := sub])
  }

  function CancelledRow(sub: Row, now: Instant): Row {
    sub.(cancelAtEnd := true, updatedAt := now)
  }

  // Once the provider has answered it writes the whole row back.
  function Ending(w: World, c: nat, providerOk: bool, newID: string, ok: bool): World
    requires c in w.cancels
  {
    var over := w.(cancels := w.cancels - {c});
    if ProviderAccepts(w.cancels[c], providerOk) && ok
    then over.(subs := Upsert(w.subs, CancelledRow(w.cancels[c], w.clock), newID))
    else over
  }

  const BLANK := NoSubscription("")

  // One step; a move that is not possible leaves the world alone.
  ghost function Next(plans: Providers.PaystackPlans, w: World, m: Move): World {
    match m
    case Tick(now) => if w.clock <= now then w.(clock := now) else w
    case Arrive(h, job) =>
      if h !in w.handlers && Accepted(plans, job)
      then Put(w, h, Handler(job, Arrived, 0, false, 0, "", BLANK, 0)) else w
    case Stamp(h) => if At(w, h, Arrived) then Put(w, h, w.handlers[h].(pc := Stamped, createdAt := w.clock)) else w
    case Insert(h, ok) => if At(w, h, Stamped) then InsertRow(w, h, ok) else w
    case CheckOrder(h) => if At(w, h, Recorded) then Ordering(w, h) else w
    case ResolveUser(h, found) =>
      if At(w, h, Ordered) && Truthful(w.subs, w.handlers[h].job, found) then Resolving(w, h, found) else w
    case ReadPeriod(h) => if At(w, h, Resolved) then Reading(w, h) else w
    case ReadTrial(h) => if At(w, h, PeriodRead) then Reading(w, h) else w
    case ReadRest(h) => if At(w, h, TrialRead) then Reading(w, h) else w
    case Write(h, newID, ok) =>
      if At(w, h, Ready) && FreshID(w.subs, newID) then Writing(plans, w, h, newID, ok) else w
    case MarkProcessed(h, ok) => if At(w, h, Written) then Marking(w, h, ok) else w
    case BeginCancel(c, user) => if c !in w.cancels then Beginning(w, c, user) else w
    case EndCancel(c, providerOk, newID, ok) =>
      if c in w.cancels && FreshID(w.subs, newID) then Ending(w, c, providerOk, newID, ok) else w
    case Clean(cutoff) => if cutoff <= w.clock - RETENTION then Cleaning(w, cutoff) else w
  }

  // A statement of handler h.
  predicate OfHandler(m: Move, h: nat) {
    match m
    case Arrive(g, _) => g == h
    case Stamp(g) => g == h
    case Insert(g, _) => g == h
    case CheckOrder(g) => g == h
    case ResolveUser(g, _) => g == h
    case ReadPeriod(g) => g == h
    case ReadTrial(g) => g == h
    case ReadRest(g) => g == h
    case Write(g, _, _) => g == h
    case MarkProcessed(g, _) => g == h
    case _ => false
  }

  lemma OthersStay(plans: Providers.PaystackPlans, w: World, m: Move, h: nat)
    requires !OfHandler(m, h)
    ensures h in Next(plans, w, m).handlers <==> h in w.handlers
    ensures h in w.handlers ==> Next(plans, w, m).handlers[h] == w.handlers[h]
  {
    if OpensHandler(m) {
      OthersStayAtStart(plans, w, m, h);
    }
  }

  // The statements up to the check.
  predicate OpensHandler(m: Move) {
    m.Arrive? || m.Stamp? || m.Insert? || m.CheckOrder?
  }

  lemma OthersStayAtStart(plans: Providers.PaystackPlans, w: World, m: Move, h: nat)
    requires !OfHandler(m, h) && OpensHandler(m)
    ensures h in Next(plans, w, m).handlers <==> h in w.handlers
    ensures h in w.handlers ==> Next(plans, w, m).handlers[h] == w.handlers[h]
  {
  }

  ghost function Run(plans: Providers.PaystackPlans, w: World, moves: seq<Move>): World {
    if moves == [] then w else Next(plans, Run(plans, w, moves[..|moves| - 1]), moves[|moves| - 1])
  }

  ghost predicate Fresh(w: World) {
    w.log == map[] && w.handlers == map[] && w.cancels == map[] && w.history == [] && w.removed == {}
  }

  // ----- The invariant -----

  // The handler's own row is still the one stored under its key.
  predicate Holds(w: World, h: nat)
    requires h in w.handlers
  {
    var key := KeyOf(w.handlers[h].job);
    key in w.log && w.log[key].inserter == h
  }

  predicate InFlight(pc: PC) {
    pc != Arrived && pc != Stamped && pc != Finished
  }

  ghost predicate HandlersOk(w: World) {
    forall h :: h in w.handlers ==>
      var t := w.handlers[h];
      && (InFlight(t.pc) ==> t.inserted)
      && (t.pc == Arrived || t.pc == Stamped ==> !t.inserted)
      && (t.pc != Arrived ==> t.createdAt <= w.clock)
      && (t.inserted ==> t.createdAt <= t.insertedAt <= w.clock)
      && (t.inserted && !Holds(w, h) ==> t.createdAt + RETENTION < w.clock && KeyOf(t.job) in w.removed)
  }

  ghost predicate LogOk(w: World) {
    forall k :: k in w.log ==>
      && w.log[k].inserter in w.handlers
      && var t := w.handlers[w.log[k].inserter];
         t.inserted && KeyOf(t.job) == k && w.log[k].row.createdAt == t.createdAt
  }

  // Of two handlers that both inserted one key, the later one did so more than
  // the retention after the clock reading of the earlier one.
  predicate Apart(a: Handler, b: Handler) {
    a.inserted && b.inserted && KeyOf(a.job) == KeyOf(b.job) ==>
      || b.insertedAt > a.createdAt + RETENTION
      || a.insertedAt > b.createdAt + RETENTION
  }

  ghost predicate InsertsApart(w: World) {
    forall a, b :: a in w.handlers && b in w.handlers && a != b ==> Apart(w.handlers[a], w.handlers[b])
  }

  ghost predicate Accounts(w: World, a: Application) {
    && a.handler in w.handlers
    && var t := w.handlers[a.handler];
       && t.inserted && (t.pc == Written || t.pc == Finished)
       && a.key == KeyOf(t.job) && a.createdAt == t.createdAt && a.insertedAt == t.insertedAt
       && a.insertedAt <= a.at <= w.clock
  }

  ghost predicate HistoryOk(w: World) {
    && (forall i :: 0 <= i < |w.history| ==> Accounts(w, w.history[i]))
    && (forall i, j :: 0 <= i < j < |w.history| ==> w.history[i].handler != w.history[j].handler)
  }

  ghost predicate Inv(w: World) {
    HandlersOk(w) && LogOk(w) && InsertsApart(w) && HistoryOk(w)
  }

  // Steps that change neither the log nor what a handler inserted.
  predicate SameInsert(t: Handler, u: Handler) {
    t.job == u.job && t.createdAt == u.createdAt && t.inserted == u.inserted && t.insertedAt == u.insertedAt
  }

  predicate Later(t: PC, u: PC) {
    && t != Arrived && u != Arrived && u != Stamped
    && (t == Written || t == Finished ==> u == Written || u == Finished)
  }

  lemma AfterPut(w: World, h: nat, u: Handler)
    requires Inv(w) && h in w.handlers
    requires SameInsert(w.handlers[h], u) && Later(w.handlers[h].pc, u.pc) && (InFlight(u.pc) ==> u.inserted)
    ensures Inv(Put(w, h, u))
  {
  }

  lemma AfterTick(w: World, now: Instant)
    requires Inv(w) && w.clock <= now
    ensures Inv(w.(clock := now))
  {
  }

  lemma AfterArrive(w: World, h: nat, job: Job)
    requires Inv(w) && h !in w.handlers
    ensures Inv(Put(w, h, Handler(job, Arrived, 0, false, 0, "", BLANK, 0)))
  {
  }

  lemma AfterStamp(w: World, h: nat)
    requires Inv(w) && At(w, h, Arrived)
    ensures Inv(Put(w, h, w.handlers[h].(pc := Stamped, createdAt := w.clock)))
  {
  }

  // Whoever inserted a key that is not in the log has lost its row to a cleanup.
  lemma LostItsRow(w: World, key: string)
    requires Inv(w) && key !in w.log
    ensures forall a :: a in w.handlers && w.handlers[a].inserted && KeyOf(w.handlers[a].job) == key ==>
              w.handlers[a].createdAt + RETENTION < w.clock && key in w.removed
  {
    forall a | a in w.handlers && w.handlers[a].inserted && KeyOf(w.handlers[a].job) == key
      ensures w.handlers[a].createdAt + RETENTION < w.clock && key in w.removed
    {
      assert !Holds(w, a);
    }
  }

  function Stored(w: World, h: nat, u: Handler, row: LogRow): World {
    Put(w.(log := w.log[KeyOf(u.job) := Slot(row, h)]), h, u)
  }

  lemma StoredHandlersOk(w: World, h: nat, u: Handler, row: LogRow)
    requires Inv(w) && At(w, h, Stamped) && KeyOf(u.job) !in w.log
    requires u.job == w.handlers[h].job && u.createdAt == w.handlers[h].createdAt
    requires u.inserted && u.insertedAt == w.clock && u.pc != Arrived && u.pc != Stamped && row.createdAt == u.createdAt
    ensures HandlersOk(Stored(w, h, u, row))
  {
    var v := Stored(w, h, u, row);
    LostItsRow(w, KeyOf(u.job));
    forall a | a in v.handlers && v.handlers[a].inserted && !Holds(v, a)
      ensures v.handlers[a].createdAt + RETENTION < v.clock && KeyOf(v.handlers[a].job) in v.removed
    {
      if KeyOf(v.handlers[a].job) != KeyOf(u.job) {
        assert !Holds(w, a);
      }
    }
  }

  // A handler that stores its row under a key that was free.
  lemma AfterStore(w: World, h: nat, u: Handler, row: LogRow)
    requires Inv(w) && At(w, h, Stamped) && KeyOf(u.job) !in w.log
    requires u.job == w.handlers[h].job && u.createdAt == w.handlers[h].createdAt
    requires u.inserted && u.insertedAt == w.clock && u.pc != Arrived && u.pc != Stamped && row.createdAt == u.createdAt
    ensures Inv(Stored(w, h, u, row))
  {
    var v := Stored(w, h, u, row);
    LostItsRow(w, KeyOf(u.job));
    StoredHandlersOk(w, h, u, row);
    forall i | 0 <= i < |v.history| ensures Accounts(v, v.history[i]) {
      assert Accounts(w, w.history[i]);
    }
    assert LogOk(v) && HistoryOk(v);
  }

  lemma AfterInsert(w: World, h: nat, ok: bool)
    requires Inv(w) && At(w, h, Stamped)
    ensures Inv(InsertRow(w, h, ok))
  {
    var t := w.handlers[h];
    var key := KeyOf(t.job);
    if !ok || key in w.log {
      AfterPut(w, h, t.(pc := Finished));
    } else {
      AfterStore(w, h, InsertRow(w, h, ok).handlers[h], RowFor(t.job, t.createdAt));
    }
  }

  lemma AfterAppend(w: World, a: Application, subs: Subscriptions)
    requires Inv(w) && Accounts(w, a)
    requires forall i :: 0 <= i < |w.history| ==> w.history[i].handler != a.handler
    ensures Inv(w.(subs := subs, history := w.history + [a]))
  {
    var v := w.(subs := subs, history := w.history + [a]);
    forall i | 0 <= i < |v.history| ensures Accounts(v, v.history[i]) {
      assert i < |w.history| ==> Accounts(w, w.history[i]);
      assert Accounts(w, a);
    }
    assert HandlersOk(v) by {
      forall h | h in v.handlers ensures Holds(v, h) == Holds(w, h) {
      }
    }
  }

  lemma AfterWrite(plans: Providers.PaystackPlans, w: World, h: nat, newID: string, ok: bool)
    requires Inv(w) && At(w, h, Ready)
    ensures Inv(Writing(plans, w, h, newID, ok))
  {
    var t := w.handlers[h];
    if !ok {
      AfterPut(w, h, t.(pc := Finished));
    } else {
      var written := Advance(w, h, Written);
      var a := Application(KeyOf(t.job), h, t.createdAt, t.insertedAt, w.clock);
      AfterPut(w, h, t.(pc := Written));
      forall i | 0 <= i < |w.history| ensures w.history[i].handler != h {
        assert Accounts(w, w.history[i]);
      }
      AfterAppend(written, a, Upsert(w.subs, RowToWrite(plans, t, w.clock), newID));
    }
  }

  // What a row says besides when it was recorded does not matter.
  lemma AfterEdit(w: World, key: string, row: LogRow)
    requires Inv(w) && key in w.log && row.createdAt == w.log[key].row.createdAt
    ensures Inv(w.(log := w.log[key := w.log[key].(row := row)]))
  {
    var v := w.(log := w.log[key := w.log[key].(row := row)]);
    assert HandlersOk(v) by {
      forall h | h in v.handlers ensures Holds(v, h) == Holds(w, h) {
      }
    }
    forall i | 0 <= i < |v.history| ensures Accounts(v, v.history[i]) {
      assert Accounts(w, w.history[i]);
    }
  }

  lemma AfterMark(w: World, h: nat, ok: bool)
    requires Inv(w) && At(w, h, Written)
    ensures Inv(Marking(w, h, ok))
  {
    var t := w.handlers[h];
    var key := KeyOf(t.job);
    var done := Advance(w, h, Finished);
    AfterPut(w, h, t.(pc := Finished));
    if ok && t.job.EventJob? && t.job.delivery.decoded.Parsed? && key in w.log {
      AfterEdit(done, key, w.log[key].row.(processed := true, userID := t.job.delivery.decoded.event.userID));
    }
  }

  lemma AfterClean(w: World, cutoff: Instant)
    requires Inv(w) && cutoff <= w.clock - RETENTION
    ensures Inv(Cleaning(w, cutoff))
  {
    var after := Cleaning(w, cutoff);
    forall h | h in after.handlers && after.handlers[h].inserted && !Holds(after, h)
      ensures after.handlers[h].createdAt + RETENTION < after.clock && KeyOf(after.handlers[h].job) in after.removed
    {
      if Holds(w, h) {
        assert w.log[KeyOf(w.handlers[h].job)].row.createdAt == w.handlers[h].createdAt;
      }
    }
  }

  // The subscriptions and the cancellations are not part of it.
  lemma AfterCancel(w: World, subs: Subscriptions, cancels: map<nat, Row>)
    requires Inv(w)
    ensures Inv(w.(subs := subs, cancels := cancels))
  {
    var v := w.(subs := subs, cancels := cancels);
    forall i | 0 <= i < |v.history| ensures Accounts(v, v.history[i]) {
      assert Accounts(w, w.history[i]);
    }
    assert HandlersOk(v) by {
      forall h | h in v.handlers ensures Holds(v, h) == Holds(w, h) {
      }
    }
  }

  lemma NextKeepsInv(plans: Providers.PaystackPlans, w: World, m: Move)
    requires Inv(w)
    ensures Inv(Next(plans, w, m))
  {
    if OpensHandler(m) {
      StartKeepsInv(plans, w, m);
    } else if m.ReadPeriod? || m.ReadTrial? || m.ReadRest? {
      ReadKeepsInv(plans, w, m);
    } else if m.Tick? {
      if w.clock <= m.now { AfterTick(w, m.now); }
    } else if m.ResolveUser? {
      if At(w, m.h, Ordered) { ResolvingKeepsInv(w, m.h, m.found); }
    } else if m.Write? {
      if At(w, m.h, Ready) { AfterWrite(plans, w, m.h, m.newID, m.ok); }
    } else if m.MarkProcessed? {
      if At(w, m.h, Written) { AfterMark(w, m.h, m.ok); }
    } else if m.Clean? {
      if m.cutoff <= w.clock - RETENTION { AfterClean(w, m.cutoff); }
    } else {
      AfterCancel(w, Next(plans, w, m).subs, Next(plans, w, m).cancels);
    }
  }

  lemma StartKeepsInv(plans: Providers.PaystackPlans, w: World, m: Move)
    requires Inv(w) && OpensHandler(m)
    ensures Inv(Next(plans, w, m))
  {
    match m
    case Arrive(h, job) => if h !in w.handlers { AfterArrive(w, h, job); }
    case Stamp(h) => if At(w, h, Arrived) { AfterStamp(w, h); }
    case Insert(h, ok) => if At(w, h, Stamped) { AfterInsert(w, h, ok); }
    case CheckOrder(h) =>
      if At(w, h, Recorded) {
        AfterPut(w, h, w.handlers[h].(pc := Ordered));
        AfterPut(w, h, w.handlers[h].(pc := Finished));
      }
  }

  lemma ReadKeepsInv(plans: Providers.PaystackPlans, w: World, m: Move)
    requires Inv(w) && (m.ReadPeriod? || m.ReadTrial? || m.ReadRest?)
    ensures Inv(Next(plans, w, m))
  {
    match m
    case ReadPeriod(h) => if At(w, h, Resolved) { ReadingKeepsInv(w, h); }
    case ReadTrial(h) => if At(w, h, PeriodRead) { ReadingKeepsInv(w, h); }
    case ReadRest(h) => if At(w, h, TrialRead) { ReadingKeepsInv(w, h); }
  }

  lemma ResolvingKeepsInv(w: World, h: nat, found: Option<string>)
    requires Inv(w) && At(w, h, Ordered)
    ensures Inv(Resolving(w, h, found))
  {
    var t := w.handlers[h];
    AfterPut(w, h, t.(pc := Finished));
    if t.job.EventJob? && t.job.delivery.decoded.Parsed? {
      var owner := Owner(t.job.delivery.decoded.event, found);
      if owner.Some? {
        AfterPut(w, h, t.(pc := Resolved, userID := owner.value));
      }
    }
  }

  lemma ReadingKeepsInv(w: World, h: nat)
    requires Inv(w) && (At(w, h, Resolved) || At(w, h, PeriodRead) || At(w, h, TrialRead))
    ensures Inv(Reading(w, h))
  {
    AfterPut(w, h, Reading(w, h).handlers[h]);
  }

  lemma {:induction false} InvAlongTheRun(plans: Providers.PaystackPlans, w: World, moves: seq<Move>)
    requires Fresh(w)
    ensures Inv(Run(plans, w, moves))
  {
    if moves != [] {
      var last := |moves| - 1;
      InvAlongTheRun(plans, w, moves[..last]);
      NextKeepsInv(plans, Run(plans, w, moves[..last]), moves[last]);
    }
  }

  // ----- At most once -----

  // However handlers interleave, no payload and no reference is applied twice
  // while its log row is retained, that is, unless it was ever cleaned up.
  lemma AppliedOnceWhileRetained(plans: Providers.PaystackPlans, w: World, moves: seq<Move>, i: nat, j: nat)
    requires Fresh(w) && i < j < |Run(plans, w, moves).history|
    ensures var t := Run(plans, w, moves); t.history[i].key == t.history[j].key ==> t.history[i].key in t.removed
  {
    InvAlongTheRun(plans, w, moves);
    var t := Run(plans, w, moves);
    assert Accounts(t, t.history[i]) && Accounts(t, t.history[j]);
    assert !(Holds(t, t.history[i].handler) && Holds(t, t.history[j].handler)) || t.history[i].key != t.history[j].key;
  }

  // Two applications under one key: the later INSERT comes more than 90 days
  // after the clock reading that the earlier handler recorded.
  lemma ApplicationsApart(plans: Providers.PaystackPlans, w: World, moves: seq<Move>, i: nat, j: nat)
    requires Fresh(w) && i < j < |Run(plans, w, moves).history|
    requires Run(plans, w, moves).history[i].key == Run(plans, w, moves).history[j].key
    ensures var a, b := Run(plans, w, moves).history[i], Run(plans, w, moves).history[j];
            && (b.insertedAt > a.createdAt + RETENTION || a.insertedAt > b.createdAt + RETENTION)
            && a.insertedAt <= a.at && b.insertedAt <= b.at
  {
    InvAlongTheRun(plans, w, moves);
    var t := Run(plans, w, moves);
    assert Accounts(t, t.history[i]) && Accounts(t, t.history[j]);
    assert Apart(t.handlers[t.history[i].handler], t.handlers[t.history[j].handler]);
  }

  // Every handler writes within `latency` of the clock reading it recorded.
  ghost predicate WithinLatency(history: seq<Application>, latency: int) {
    forall i :: 0 <= i < |history| ==> history[i].at <= history[i].createdAt + latency
  }

  function Distance(a: Instant, b: Instant): int {
    if a <= b then b - a else a - b
  }

  // So applications of one payload are more than 90 days less the handlers'
  // latency apart, and more than 90 days apart when that is nought.
  lemma LatencyBound(plans: Providers.PaystackPlans, w: World, moves: seq<Move>, latency: int, i: nat, j: nat)
    requires Fresh(w) && i < j < |Run(plans, w, moves).history|
    requires WithinLatency(Run(plans, w, moves).history, latency)
    requires Run(plans, w, moves).history[i].key == Run(plans, w, moves).history[j].key
    ensures Distance(Run(plans, w, moves).history[i].at, Run(plans, w, moves).history[j].at) > RETENTION - latency
  {
    ApplicationsApart(plans, w, moves, i, j);
  }
}
