/** Provider order when handlers overlap: exactly which schedules keep an older
    event from being applied once a newer one has been. */
module OrderGuard {
  import opened Core
  import opened Records
  import opened Entitlements
  import opened BillingMachine
  import opened Interleaving
  import opened Races
  import Providers

  // ----- What a schedule did to the log row of a handler -----

  // The move that stores the row of handler c.
  predicate Stores(w: World, m: Move, c: nat) {
    m == Insert(c, true) && At(w, c, Stamped) && KeyOf(w.handlers[c].job) !in w.log
  }

  // A clean-up that reaches as far as the row of handler c.
  predicate Reaches(w: World, m: Move, c: nat) {
    m.Clean? && m.cutoff <= w.clock - RETENTION && c in w.handlers && w.handlers[c].createdAt < m.cutoff
  }

  predicate IsEvent(job: Job) {
    job.EventJob? && job.delivery.decoded.Parsed?
  }

  // A successful mark under the key of handler c.
  predicate Marks(w: World, m: Move, c: nat) {
    && m.MarkProcessed? && m.ok && At(w, m.h, Written) && IsEvent(w.handlers[m.h].job)
    && c in w.handlers && KeyOf(w.handlers[m.h].job) == KeyOf(w.handlers[c].job)
  }

  function KeptNext(w: World, m: Move, c: nat, kept: bool): bool {
    Stores(w, m, c) || (kept && !Reaches(w, m, c))
  }

  function MarkedNext(w: World, m: Move, c: nat, marked: bool): bool {
    !Stores(w, m, c) && (marked || Marks(w, m, c))
  }

  // The row of c was stored, and no clean-up has reached it since.
  ghost predicate Kept(plans: Providers.PaystackPlans, w: World, moves: seq<Move>, c: nat) {
    moves != [] &&
    var before := moves[..|moves| - 1];
    KeptNext(Interleaving.Run(plans, w, before), moves[|moves| - 1], c, Kept(plans, w, before, c))
  }

  // Its key was marked after that.
  ghost predicate Marked(plans: Providers.PaystackPlans, w: World, moves: seq<Move>, c: nat) {
    moves != [] &&
    var before := moves[..|moves| - 1];
    MarkedNext(Interleaving.Run(plans, w, before), moves[|moves| - 1], c, Marked(plans, w, before, c))
  }

  // ----- The log tells the same story -----

  predicate RowSays(row: LogRow, t: Handler, marked: bool) {
    row == RowFor(t.job, t.createdAt).(processed := marked, userID := row.userID)
  }

  predicate Story(w: World, c: nat, kept: bool, marked: bool) {
    && (kept <==> c in w.handlers && Holds(w, c))
    && (kept ==> RowSays(w.log[KeyOf(w.handlers[c].job)].row, w.handlers[c], marked))
  }

  lemma StoryAfterInsert(w: World, h: nat, ok: bool, c: nat, kept: bool, marked: bool)
    requires Inv(w) && Story(w, c, kept, marked) && At(w, h, Stamped)
    ensures Story(InsertRow(w, h, ok), c, KeptNext(w, Insert(h, ok), c, kept), MarkedNext(w, Insert(h, ok), c, marked))
  {
  }

  lemma StoryAfterMark(w: World, h: nat, ok: bool, c: nat, kept: bool, marked: bool)
    requires Inv(w) && Story(w, c, kept, marked) && At(w, h, Written)
    ensures Story(Marking(w, h, ok), c, kept, MarkedNext(w, MarkProcessed(h, ok), c, marked))
  {
  }

  lemma StoryAfterClean(w: World, cutoff: Instant, c: nat, kept: bool, marked: bool)
    requires Inv(w) && Story(w, c, kept, marked) && cutoff <= w.clock - RETENTION
    ensures Story(Cleaning(w, cutoff), c, KeptNext(w, Clean(cutoff), c, kept), marked)
  {
  }

  lemma StoryAfterPut(w: World, h: nat, u: Handler, c: nat, kept: bool, marked: bool)
    requires Inv(w) && Story(w, c, kept, marked)
    requires h in w.handlers ==>
               u.job == w.handlers[h].job && (w.handlers[h].inserted ==> u.createdAt == w.handlers[h].createdAt)
    ensures Story(Put(w, h, u), c, kept, marked)
  {
    assert c !in w.handlers ==> forall k :: k in w.log ==> w.log[k].inserter != c;
  }

  lemma StoryAfterWrite(plans: Providers.PaystackPlans, w: World, h: nat, newID: string, ok: bool, c: nat, kept: bool,
                        marked: bool)
    requires Inv(w) && Story(w, c, kept, marked) && At(w, h, Ready)
    ensures Story(Writing(plans, w, h, newID, ok), c, kept, marked)
  {
  }

  lemma StoryAfterRead(w: World, h: nat, c: nat, kept: bool, marked: bool)
    requires Inv(w) && Story(w, c, kept, marked) && (At(w, h, Resolved) || At(w, h, PeriodRead) || At(w, h, TrialRead))
    ensures Story(Reading(w, h), c, kept, marked)
  {
    StoryAfterPut(w, h, Reading(w, h).handlers[h], c, kept, marked);
  }

  lemma StoryAfterResolve(w: World, h: nat, found: Option<string>, c: nat, kept: bool, marked: bool)
    requires Inv(w) && Story(w, c, kept, marked) && At(w, h, Ordered)
    ensures Story(Resolving(w, h, found), c, kept, marked)
  {
    StoryAfterPut(w, h, Resolving(w, h, found).handlers[h], c, kept, marked);
  }

  // A step of a handler that does not touch the log.
  predicate Quiet(m: Move) {
    !m.Insert? && !m.MarkProcessed? && !m.Clean? && !m.Write?
  }

  lemma StoryAfterQuiet(plans: Providers.PaystackPlans, w: World, m: Move, c: nat, kept: bool, marked: bool)
    requires Inv(w) && Story(w, c, kept, marked) && Quiet(m)
    ensures Story(Next(plans, w, m), c, kept, marked)
  {
    match m
    case Tick(_) =>
    case Arrive(h, job) =>
      if h !in w.handlers { StoryAfterPut(w, h, Handler(job, Arrived, 0, false, 0, "", BLANK, 0), c, kept, marked); }
    case Stamp(h) =>
      if At(w, h, Arrived) {
        StoryAfterPut(w, h, w.handlers[h].(pc := Stamped, createdAt := w.clock), c, kept, marked);
      }
    case CheckOrder(h) => if At(w, h, Recorded) { StoryAfterPut(w, h, Ordering(w, h).handlers[h], c, kept, marked); }
    case ResolveUser(h, found) => if At(w, h, Ordered) { StoryAfterResolve(w, h, found, c, kept, marked); }
    case ReadPeriod(h) => if At(w, h, Resolved) { StoryAfterRead(w, h, c, kept, marked); }
    case ReadTrial(h) => if At(w, h, PeriodRead) { StoryAfterRead(w, h, c, kept, marked); }
    case ReadRest(h) => if At(w, h, TrialRead) { StoryAfterRead(w, h, c, kept, marked); }
    case BeginCancel(_, _) =>
    case EndCancel(_, _, _, _) =>
  }

  lemma StoryNext(plans: Providers.PaystackPlans, w: World, m: Move, c: nat, kept: bool, marked: bool)
    requires Inv(w) && Story(w, c, kept, marked)
    ensures Story(Next(plans, w, m), c, KeptNext(w, m, c, kept), MarkedNext(w, m, c, marked))
  {
    if Quiet(m) {
      StoryAfterQuiet(plans, w, m, c, kept, marked);
    } else {
      match m
      case Insert(h, ok) => if At(w, h, Stamped) { StoryAfterInsert(w, h, ok, c, kept, marked); }
      case Write(h, newID, ok) => if At(w, h, Ready) { StoryAfterWrite(plans, w, h, newID, ok, c, kept, marked); }
      case MarkProcessed(h, ok) => if At(w, h, Written) { StoryAfterMark(w, h, ok, c, kept, marked); }
      case Clean(cutoff) => if cutoff <= w.clock - RETENTION { StoryAfterClean(w, cutoff, c, kept, marked); }
    }
  }

  // A row is in the log exactly when the schedule kept it, and is processed
  // exactly when the schedule marked it.
  lemma {:induction false} StoryAlongTheRun(plans: Providers.PaystackPlans, w: World, moves: seq<Move>, c: nat)
    requires Fresh(w)
    ensures Story(Interleaving.Run(plans, w, moves), c, Kept(plans, w, moves, c), Marked(plans, w, moves, c))
  {
    if moves != [] {
      var before := moves[..|moves| - 1];
      InvAlongTheRun(plans, w, before);
      StoryAlongTheRun(plans, w, before, c);
      StoryNext(plans, Interleaving.Run(plans, w, before), moves[|moves| - 1], c,
                Kept(plans, w, before, c), Marked(plans, w, before, c));
    }
  }

  // ----- What the check decides -----

  function EventOf(t: Handler): WebhookEvent
    requires IsEvent(t.job)
  {
    t.job.delivery.decoded.event
  }

  // A timestamped event about an object that can be named.
  predicate Orderable(t: Handler) {
    IsEvent(t.job) && EventOf(t).eventAt > 0 && ObjectID(EventOf(t)) != ""
  }

  // Handler t carries a newer event about the provider object of u's.
  predicate Newer(t: Handler, u: Handler) {
    && Orderable(t) && Orderable(u)
    && t.job.delivery.provider == u.job.delivery.provider
    && ObjectID(EventOf(t)) == ObjectID(EventOf(u))
    && EventOf(t).eventAt > EventOf(u).eventAt
  }

  // Some newer event about the object stands marked when b is checked.
  ghost predicate Blocked(plans: Providers.PaystackPlans, w: World, moves: seq<Move>, b: nat) {
    var v := Interleaving.Run(plans, w, moves);
    b in v.handlers
    && exists a :: a in v.handlers && Newer(v.handlers[a], v.handlers[b]) && Kept(plans, w, moves, a)
        && Marked(plans, w, moves, a)
  }

  predicate CountsFor(row: LogRow, t: Handler)
    requires IsEvent(t.job)
  {
    Counts(row, t.job.delivery.provider, ObjectID(EventOf(t)))
  }

  // A row that makes b stale belongs to a newer event, kept and marked.
  lemma StaleMeansBlocked(plans: Providers.PaystackPlans, w: World, moves: seq<Move>, b: nat, key: string)
    requires Fresh(w)
    requires var v := Interleaving.Run(plans, w, moves);
             && b in v.handlers && Orderable(v.handlers[b])
             && key in v.log && CountsFor(v.log[key].row, v.handlers[b])
             && v.log[key].row.eventAt.value > FromUnix(EventOf(v.handlers[b]).eventAt)
    ensures Blocked(plans, w, moves, b)
  {
    InvAlongTheRun(plans, w, moves);
    var v := Interleaving.Run(plans, w, moves);
    var a := v.log[key].inserter;
    StoryAlongTheRun(plans, w, moves, a);
    assert RowSays(v.log[key].row, v.handlers[a], Marked(plans, w, moves, a));
    assert Newer(v.handlers[a], v.handlers[b]);
  }

  lemma MarkedRowCounts(plans: Providers.PaystackPlans, w: World, moves: seq<Move>, a: nat, b: nat)
    requires Fresh(w) && Kept(plans, w, moves, a) && Marked(plans, w, moves, a)
    requires var v := Interleaving.Run(plans, w, moves);
             a in v.handlers && b in v.handlers && Newer(v.handlers[a], v.handlers[b])
    ensures var v := Interleaving.Run(plans, w, moves);
            var key := KeyOf(v.handlers[a].job);
            && key in v.log && CountsFor(v.log[key].row, v.handlers[b])
            && v.log[key].row.eventAt == Some(FromUnix(EventOf(v.handlers[a]).eventAt))
  {
    StoryAlongTheRun(plans, w, moves, a);
  }

  lemma BlockedMeansStale(plans: Providers.PaystackPlans, w: World, moves: seq<Move>, b: nat)
    requires Fresh(w) && Blocked(plans, w, moves, b)
    ensures var v := Interleaving.Run(plans, w, moves);
            IsStale(Rows(v.log), v.handlers[b].job.delivery.provider, EventOf(v.handlers[b]))
  {
    var v := Interleaving.Run(plans, w, moves);
    var a :| a in v.handlers && Newer(v.handlers[a], v.handlers[b]) && Kept(plans, w, moves, a)
        && Marked(plans, w, moves, a);
    MarkedRowCounts(plans, w, moves, a, b);
    var key := KeyOf(v.handlers[a].job);
    assert key in Rows(v.log) && CountsFor(Rows(v.log)[key], v.handlers[b]);
  }

  lemma NewestRow(log: EventLog, provider: string, ev: WebhookEvent) returns (key: string)
    requires IsStale(log, provider, ev) && ObjectID(ev) != ""
    ensures key in log && Counts(log[key], provider, ObjectID(ev)) && log[key].eventAt.value > Timestamp(ev).value
  {
    var latest := Latest(log, provider, ObjectID(ev));
    key :| key in log && Counts(log[key], provider, ObjectID(ev)) && log[key].eventAt == latest;
  }

  // In every run, an event is stale at its check exactly when a newer event
  // about its object was marked and kept by then, however the handlers overlap.
  lemma StaleExactlyWhenBlocked(plans: Providers.PaystackPlans, w: World, moves: seq<Move>, b: nat)
    requires Fresh(w)
    requires var v := Interleaving.Run(plans, w, moves); b in v.handlers && Orderable(v.handlers[b])
    ensures var v := Interleaving.Run(plans, w, moves);
            IsStale(Rows(v.log), v.handlers[b].job.delivery.provider, EventOf(v.handlers[b])) <==>
                Blocked(plans, w, moves, b)
  {
    var v := Interleaving.Run(plans, w, moves);
    if Blocked(plans, w, moves, b) {
      BlockedMeansStale(plans, w, moves, b);
    }
    if IsStale(Rows(v.log), v.handlers[b].job.delivery.provider, EventOf(v.handlers[b])) {
      var key := NewestRow(Rows(v.log), v.handlers[b].job.delivery.provider, EventOf(v.handlers[b]));
      StaleMeansBlocked(plans, w, moves, b, key);
    }
  }

  // ----- A refused event is never applied -----

  predicate WasApplied(w: World, b: nat) {
    exists i :: 0 <= i < |w.history| && w.history[i].handler == b
  }

  // Finished without a write.
  predicate Over(w: World, b: nat) {
    At(w, b, Finished) && !WasApplied(w, b)
  }

  lemma HistoryNext(plans: Providers.PaystackPlans, w: World, m: Move)
    ensures var v := Next(plans, w, m);
            || v.history == w.history
            || (&& m.Write? && At(w, m.h, Ready)
                && v.history == w.history + [Entry(w.handlers[m.h], m.h, w.clock)])
  {
  }

  lemma FinishedStays(plans: Providers.PaystackPlans, w: World, m: Move, b: nat)
    requires At(w, b, Finished)
    ensures At(Next(plans, w, m), b, Finished)
  {
  }

  lemma OverStays(plans: Providers.PaystackPlans, w: World, m: Move, b: nat)
    requires Over(w, b)
    ensures Over(Next(plans, w, m), b)
  {
    FinishedStays(plans, w, m, b);
    HistoryNext(plans, w, m);
  }

  lemma {:induction false} OverForGood(plans: Providers.PaystackPlans, w: World, more: seq<Move>, b: nat)
    requires Over(w, b)
    ensures Over(Interleaving.Run(plans, w, more), b)
  {
    if more != [] {
      OverForGood(plans, w, more[..|more| - 1], b);
      OverStays(plans, Interleaving.Run(plans, w, more[..|more| - 1]), more[|more| - 1], b);
    }
  }

  lemma NotAppliedYet(w: World, b: nat)
    requires Inv(w) && At(w, b, Recorded)
    ensures !WasApplied(w, b)
  {
    forall i | 0 <= i < |w.history| ensures w.history[i].handler != b {
      assert Accounts(w, w.history[i]);
    }
  }

  // ----- An event that passes can still be applied, as the last one -----

  // The event names its user, or the lookup finds one.
  ghost predicate Owned(subs: Subscriptions, ev: WebhookEvent, found: Option<string>) {
    Owner(ev, found).Some? && (ev.userID == "" ==> Resolves(subs, ev, found))
  }

  // The statements of handler b from its check to its write.
  function Rest(b: nat, found: Option<string>, id: string): seq<Move> {
    [ResolveUser(b, found), ReadPeriod(b), ReadTrial(b), ReadRest(b), Write(b, id, true)]
  }

  // Where handler b stands in v, having started from w with everything else unchanged.
  predicate StandsAt(w: World, v: World, b: nat, pc: PC) {
    && b in w.handlers && At(v, b, pc) && v.subs == w.subs
    && v.history == w.history && v.clock == w.clock && v.log == w.log && v.handlers.Keys == w.handlers.Keys
    && v.handlers[b].job == w.handlers[b].job
    && v.handlers[b].createdAt == w.handlers[b].createdAt && v.handlers[b].insertedAt == w.handlers[b].insertedAt
  }

  lemma ResolvesTo(plans: Providers.PaystackPlans, w: World, b: nat, found: Option<string>)
    requires At(w, b, Ordered) && IsEvent(w.handlers[b].job) && Owned(w.subs, EventOf(w.handlers[b]), found)
    ensures var v := Next(plans, w, ResolveUser(b, found));
            && StandsAt(w, v, b, Resolved)
            && v.handlers[b].userID == Owner(EventOf(w.handlers[b]), found).value
  {
  }

  lemma StepsOn(plans: Providers.PaystackPlans, w: World, v: World, b: nat)
    requires b in w.handlers && b in v.handlers && IsEvent(w.handlers[b].job)
    ensures StandsAt(w, v, b, Resolved) ==> Steps(w, v, Next(plans, v, ReadPeriod(b)), b, PeriodRead)
    ensures StandsAt(w, v, b, PeriodRead) ==> Steps(w, v, Next(plans, v, ReadTrial(b)), b, TrialRead)
    ensures StandsAt(w, v, b, TrialRead) ==> Steps(w, v, Next(plans, v, ReadRest(b)), b, Ready)
  {
  }

  predicate Steps(w: World, v: World, u: World, b: nat, pc: PC) {
    StandsAt(w, u, b, pc) && b in v.handlers && u.handlers[b].userID == v.handlers[b].userID
  }

  function Entry(t: Handler, b: nat, at: Instant): Application {
    Application(KeyOf(t.job), b, t.createdAt, t.insertedAt, at)
  }

  lemma RunFive(plans: Providers.PaystackPlans, w: World, m1: Move, m2: Move, m3: Move, m4: Move, m5: Move)
    ensures Interleaving.Run(plans, w, [m1, m2, m3, m4, m5])
         == Next(plans, Next(plans, Next(plans, Next(plans, Next(plans, w, m1), m2), m3), m4), m5)
  {
    RunTwo(plans, w, m1, m2);
    RunOne(plans, w, [m1, m2], m3);
    RunOne(plans, w, [m1, m2, m3], m4);
    RunOne(plans, w, [m1, m2, m3, m4], m5);
    assert [m1, m2] + [m3] == [m1, m2, m3] && [m1, m2, m3] + [m4] == [m1, m2, m3, m4];
    assert [m1, m2, m3, m4] + [m5] == [m1, m2, m3, m4, m5];
  }

  // The owner's row now names what the event says it is about.
  predicate RowNames(subs: Subscriptions, u: string, ev: WebhookEvent) {
    && u in subs && subs[u].customerID == ev.customerID
    && (ev.subscriptionID != "" ==> subs[u].subID == ev.subscriptionID)
  }

  lemma WriteNames(plans: Providers.PaystackPlans, w: World, b: nat, id: string, other: string)
    requires At(w, b, Ready) && IsEvent(w.handlers[b].job)
    requires FreshID(w.subs, id) && FreshID(w.subs, other) && other != id
    ensures var v := Next(plans, w, Write(b, id, true));
            && RowNames(v.subs, w.handlers[b].userID, EventOf(w.handlers[b])) && FreshID(v.subs, other)
            && v.history == w.history + [Entry(w.handlers[b], b, w.clock)]
            && At(v, b, Written) && v.log == w.log && v.clock == w.clock && v.handlers.Keys == w.handlers.Keys
            && v.handlers[b].job == w.handlers[b].job
  {
    StillFresh(w.subs, RowToWrite(plans, w.handlers[b], w.clock), id, other);
  }

  lemma RestApplies(plans: Providers.PaystackPlans, w: World, b: nat, found: Option<string>, id: string, other: string)
    requires At(w, b, Ordered) && IsEvent(w.handlers[b].job) && Owned(w.subs, EventOf(w.handlers[b]), found)
    requires FreshID(w.subs, id) && FreshID(w.subs, other) && other != id
    ensures var v := Interleaving.Run(plans, w, Rest(b, found, id));
            && v.history == w.history + [Entry(w.handlers[b], b, w.clock)]
            && At(v, b, Written) && v.log == w.log && v.clock == w.clock && v.handlers.Keys == w.handlers.Keys
            && v.handlers[b].job == w.handlers[b].job && FreshID(v.subs, other)
            && RowNames(v.subs, Owner(EventOf(w.handlers[b]), found).value, EventOf(w.handlers[b]))
  {
    var v1 := Next(plans, w, ResolveUser(b, found));
    var v2 := Next(plans, v1, ReadPeriod(b));
    var v3 := Next(plans, v2, ReadTrial(b));
    var v4 := Next(plans, v3, ReadRest(b));
    ResolvesTo(plans, w, b, found);
    StepsOn(plans, w, v1, b);
    StepsOn(plans, w, v2, b);
    StepsOn(plans, w, v3, b);
    RunFive(plans, w, ResolveUser(b, found), ReadPeriod(b), ReadTrial(b), ReadRest(b), Write(b, id, true));
    WriteNames(plans, v4, b, id, other);
  }

  // ----- The exact condition, for every run and every handler -----

  // The handler's check is its next statement.
  ghost predicate AtItsCheck(plans: Providers.PaystackPlans, w: World, moves: seq<Move>, b: nat) {
    var v := Interleaving.Run(plans, w, moves);
    At(v, b, Recorded) && Orderable(v.handlers[b])
  }

  // The run goes on with the check of b, and b is applied after everything in
  // the history so far.
  ghost predicate AppliedNext(plans: Providers.PaystackPlans, w: World, moves: seq<Move>, b: nat, more: seq<Move>) {
    var before, after := Interleaving.Run(plans, w, moves), Interleaving.Run(plans, w, moves + [CheckOrder(b)] + more);
    |before.history| < |after.history| && after.history[..|before.history|] == before.history
    && after.history[|before.history|].handler == b
  }

  lemma RunFromCheck(plans: Providers.PaystackPlans, w: World, moves: seq<Move>, b: nat, more: seq<Move>)
    ensures Interleaving.Run(plans, w, moves + [CheckOrder(b)] + more)
         == Interleaving.Run(plans, Next(plans, Interleaving.Run(plans, w, moves), CheckOrder(b)), more)
  {
    RunOne(plans, w, moves, CheckOrder(b));
    Races.RunConcat(plans, w, moves + [CheckOrder(b)], more);
  }

  lemma RefusedIsOver(plans: Providers.PaystackPlans, v: World, b: nat)
    requires Inv(v) && At(v, b, Recorded) && IsEvent(v.handlers[b].job)
    requires IsStale(Rows(v.log), v.handlers[b].job.delivery.provider, EventOf(v.handlers[b]))
    ensures Over(Next(plans, v, CheckOrder(b)), b)
  {
    NotAppliedYet(v, b);
  }

  lemma PassedIsOrdered(plans: Providers.PaystackPlans, v: World, b: nat)
    requires At(v, b, Recorded) && IsEvent(v.handlers[b].job)
    requires !IsStale(Rows(v.log), v.handlers[b].job.delivery.provider, EventOf(v.handlers[b]))
    ensures Next(plans, v, CheckOrder(b)) == Advance(v, b, Ordered)
  {
  }

  lemma BlockedIsNeverApplied(plans: Providers.PaystackPlans, w: World, moves: seq<Move>, b: nat, more: seq<Move>)
    requires Fresh(w) && AtItsCheck(plans, w, moves, b) && Blocked(plans, w, moves, b)
    ensures !WasApplied(Interleaving.Run(plans, w, moves + [CheckOrder(b)] + more), b)
  {
    var v := Interleaving.Run(plans, w, moves);
    InvAlongTheRun(plans, w, moves);
    BlockedMeansStale(plans, w, moves, b);
    RefusedIsOver(plans, v, b);
    OverForGood(plans, Next(plans, v, CheckOrder(b)), more, b);
    RunFromCheck(plans, w, moves, b, more);
  }

  lemma UnblockedCanBeApplied(plans: Providers.PaystackPlans, w: World, moves: seq<Move>, b: nat, found: Option<string>,
                              id: string)
    requires Fresh(w) && AtItsCheck(plans, w, moves, b) && !Blocked(plans, w, moves, b)
    requires var v := Interleaving.Run(plans, w, moves);
             Owned(v.subs, EventOf(v.handlers[b]), found) && FreshID(v.subs, id)
    ensures AppliedNext(plans, w, moves, b, Rest(b, found, id))
  {
    var v := Interleaving.Run(plans, w, moves);
    StaleExactlyWhenBlocked(plans, w, moves, b);
    PassedIsOrdered(plans, v, b);
    var other := AnotherID(v.subs, id);
    RestApplies(plans, Advance(v, b, Ordered), b, found, id, other);
    RunFromCheck(plans, w, moves, b, Rest(b, found, id));
  }

  // In every run, an event whose check comes next, and whose owner is named or
  // is found in the table as it stands, can still be applied if and only if no
  // newer event about its object stands marked and kept; and if so, it can be
  // applied right after all that was applied before, newer or not.
  lemma AppliedExactlyWhenUnblocked(plans: Providers.PaystackPlans, w: World, moves: seq<Move>, b: nat,
                                    found: Option<string>)
    requires Fresh(w) && AtItsCheck(plans, w, moves, b)
    requires var v := Interleaving.Run(plans, w, moves); Owned(v.subs, EventOf(v.handlers[b]), found)
    ensures (exists more :: WasApplied(Interleaving.Run(plans, w, moves + [CheckOrder(b)] + more), b))
       <==> !Blocked(plans, w, moves, b)
    ensures (exists more :: AppliedNext(plans, w, moves, b, more)) <==> !Blocked(plans, w, moves, b)
  {
    if Blocked(plans, w, moves, b) {
      forall more ensures !WasApplied(Interleaving.Run(plans, w, moves + [CheckOrder(b)] + more), b) {
        BlockedIsNeverApplied(plans, w, moves, b, more);
      }
    } else {
      var id := AnotherID(Interleaving.Run(plans, w, moves).subs, "");
      UnblockedCanBeApplied(plans, w, moves, b, found, id);
      assert WasApplied(Interleaving.Run(plans, w, moves + [CheckOrder(b)] + Rest(b, found, id)), b);
    }
  }
}
