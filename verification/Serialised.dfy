/** Calls that take no time: when all statements of a call share one instant, one
    call of the interleaved model is one step of the machine. Tables, clock and
    history agree. `NoOverlap` is about calls that come one after the other and
    take any time. */
module Serialised {
  import opened Core
  import opened Records
  import opened Entitlements
  import opened BillingMachine
  import opened Interleaving
  import opened OrderGuard
  import OrderShapes
  import OverlapRuns
  import Races
  import Retention
  import Providers

  // The job of the handler that made an application.
  predicate JobSays(job: Job, b: Applied) {
    match b
    case EventApplied(key, provider, objectID, eventAt, _, _, _, _) =>
      && IsEvent(job) && job.delivery.payload == key && job.delivery.provider == provider
      && ObjectID(job.delivery.decoded.event) == objectID && Timestamp(job.delivery.decoded.event) == eventAt
    case ReferenceApplied(reference, userID, _, _, _) =>
      job.ReferenceJob? && job.redemption.reference == reference && job.redemption.user.id == userID
  }

  predicate SameEntry(w: World, a: Application, b: Applied) {
    && a.key == Retention.Key(b) && a.createdAt == b.at && a.at == b.at
    && a.handler in w.handlers && JobSays(w.handlers[a.handler].job, b)
  }

  ghost predicate SameHistory(w: World, history: seq<Applied>) {
    |w.history| == |history| && forall i :: 0 <= i < |history| ==> SameEntry(w, w.history[i], history[i])
  }

  // The two tables, the clock and the history are what the machine's state holds,
  // and no cancellation is under way.
  ghost predicate Matches(w: World, s: State) {
    && w.subs == s.subs && Rows(w.log) == s.log && w.clock == s.clock && w.cancels == map[]
    && SameHistory(w, s.history)
  }

  lemma {:induction false} JobsStay(plans: Providers.PaystackPlans, w: World, moves: seq<Move>, c: nat)
    requires c in w.handlers
    ensures c in Interleaving.Run(plans, w, moves).handlers
    ensures Interleaving.Run(plans, w, moves).handlers[c].job == w.handlers[c].job
    decreases |moves|
  {
    if moves != [] {
      JobsStay(plans, w, moves[..|moves| - 1], c);
      OrderShapes.JobStays(plans, Interleaving.Run(plans, w, moves[..|moves| - 1]), moves[|moves| - 1], c);
    }
  }

  // Entries made before a stretch of moves still say the same.
  lemma HistoryCarriesOver(plans: Providers.PaystackPlans, w: World, moves: seq<Move>, history: seq<Applied>)
    requires SameHistory(w, history) && Interleaving.Run(plans, w, moves).history == w.history
    ensures SameHistory(Interleaving.Run(plans, w, moves), history)
  {
    var v := Interleaving.Run(plans, w, moves);
    forall i | 0 <= i < |history| ensures SameEntry(v, v.history[i], history[i]) {
      JobsStay(plans, w, moves, w.history[i].handler);
    }
  }

  lemma HistoryGrows(plans: Providers.PaystackPlans, w: World, moves: seq<Move>, history: seq<Applied>, a: Application,
                     b: Applied)
    requires SameHistory(w, history) && Interleaving.Run(plans, w, moves).history == w.history + [a]
    requires SameEntry(Interleaving.Run(plans, w, moves), a, b)
    ensures SameHistory(Interleaving.Run(plans, w, moves), history + [b])
  {
    var v := Interleaving.Run(plans, w, moves);
    forall i | 0 <= i < |history + [b]| ensures SameEntry(v, v.history[i], (history + [b])[i]) {
      if i < |history| {
        JobsStay(plans, w, moves, w.history[i].handler);
      }
    }
  }

  // The statements of one webhook call, with nothing in between. Statements that
  // the call does not reach leave the world alone.
  function Calling(h: nat, d: Delivery, e: Env): seq<Move> {
    Opening(h, d, e.recordOk) + (Deciding(h, e) + Applying(h, e))
  }

  function Deciding(h: nat, e: Env): seq<Move> {
    [CheckOrder(h), ResolveUser(h, e.found)]
  }

  function Applying(h: nat, e: Env): seq<Move> {
    [ReadPeriod(h), ReadTrial(h), ReadRest(h), Write(h, e.newID, e.upsertOk), MarkProcessed(h, e.markOk)]
  }

  // ----- A call that is over does nothing more -----

  lemma {:induction false} IdleWhenFinished(plans: Providers.PaystackPlans, w: World, moves: seq<Move>, h: nat)
    requires At(w, h, Finished) && forall i :: 0 <= i < |moves| ==> OfHandler(moves[i], h)
    ensures Interleaving.Run(plans, w, moves) == w
    decreases |moves|
  {
    if moves != [] {
      IdleWhenFinished(plans, w, moves[..|moves| - 1], h);
    }
  }

  // ----- Recording -----

  lemma OpeningReaches(plans: Providers.PaystackPlans, w: World, h: nat, d: Delivery, ok: bool)
    requires d.decoded != Rejected && h !in w.handlers
    ensures Interleaving.Run(plans, w, [Arrive(h, EventJob(d)), Stamp(h), Insert(h, ok)])
         == InsertRow(Put(w, h, OverlapRuns.Opened(EventJob(d), w.clock)), h, ok)
  {
    OrderShapes.RunThree(plans, w, Arrive(h, EventJob(d)), Stamp(h), Insert(h, ok));
    var one := Put(w, h, Handler(EventJob(d), Arrived, 0, false, 0, "", BLANK, 0));
    assert Next(plans, w, Arrive(h, EventJob(d))) == one;
    Races.PutTwice(w, h, one.handlers[h], OverlapRuns.Opened(EventJob(d), w.clock));
    assert Next(plans, one, Stamp(h)) == Put(w, h, OverlapRuns.Opened(EventJob(d), w.clock));
  }

  // ----- Applying -----

  // What a call has read of the owner's row when it writes.
  function ReadBy(sub: Row): Row {
    BLANK.(periodEnd := sub.periodEnd, trialEnd := sub.trialEnd, autoRenews := sub.autoRenews, subID := sub.subID)
  }

  // Handler h at some point with the given columns read.
  function Reader(t: Handler, pc: PC, existing: Row, readAt: Instant): Handler {
    t.(pc := pc, existing := existing, readAt := readAt)
  }

  lemma ReadingReaches(plans: Providers.PaystackPlans, w: World, h: nat)
    requires At(w, h, Resolved) && w.handlers[h].job.EventJob? && w.handlers[h].existing == BLANK
    ensures var t := w.handlers[h];
            var sub := ReadSubscription(w.subs, t.userID, w.clock);
            Next(plans, Next(plans, Next(plans, w, ReadPeriod(h)), ReadTrial(h)), ReadRest(h))
            == Put(w, h, Reader(t, Ready, ReadBy(sub), w.clock))
  {
    var t := w.handlers[h];
    var sub := ReadSubscription(w.subs, t.userID, w.clock);
    var one := Reader(t, PeriodRead, BLANK.(periodEnd := sub.periodEnd), w.clock);
    var two := Reader(t, TrialRead, BLANK.(periodEnd := sub.periodEnd, trialEnd := sub.trialEnd), w.clock);
    assert Next(plans, w, ReadPeriod(h)) == Put(w, h, one);
    Races.PutTwice(w, h, one, two);
    assert Next(plans, Put(w, h, one), ReadTrial(h)) == Put(w, h, two);
    Races.PutTwice(w, h, two, Reader(t, Ready, ReadBy(sub), w.clock));
  }

  // The columns read are all that the new row depends on.
  lemma ReadSuffices(sub: Row, ev: WebhookEvent, provider: string, userID: string, now: Instant)
    ensures EventRow(ReadBy(sub), ev, provider, userID, now) == EventRow(sub, ev, provider, userID, now)
  {
  }

  lemma WritingIs(plans: Providers.PaystackPlans, w: World, h: nat, d: Delivery, e: Env)
    requires At(w, h, Ready) && w.handlers[h].job == EventJob(d) && d.decoded.Parsed? && FreshID(w.subs, e.newID)
    requires w.handlers[h].existing == ReadBy(ReadSubscription(w.subs, w.handlers[h].userID, w.clock))
    ensures var v := Next(plans, w, Write(h, e.newID, e.upsertOk));
            var userID := w.handlers[h].userID;
            && v.log == w.log && v.clock == w.clock && v.cancels == w.cancels
            && At(v, h, if e.upsertOk then Written else Finished) && v.handlers[h].job == EventJob(d)
            && v.history == (if e.upsertOk then w.history + [Entry(w.handlers[h], h, w.clock)] else w.history)
            && v.subs == (if e.upsertOk
                          then Upsert(w.subs, EventRow(ReadSubscription(w.subs, userID, w.clock), d.decoded.event,
                                                       d.provider, userID, w.clock), e.newID)
                          else w.subs)
  {
    ReadSuffices(ReadSubscription(w.subs, w.handlers[h].userID, w.clock), d.decoded.event, d.provider,
                 w.handlers[h].userID, w.clock);
  }

  lemma RowsAfter(log: map<string, Slot>, key: string, slot: Slot)
    ensures Rows(log[key := slot]) == Rows(log)[key := slot.row]
  {
  }

  lemma MarkingIs(plans: Providers.PaystackPlans, w: World, h: nat, d: Delivery, ok: bool)
    requires At(w, h, Written) && w.handlers[h].job == EventJob(d) && d.decoded.Parsed?
    ensures var v := Next(plans, w, MarkProcessed(h, ok));
            && At(v, h, Finished)
            && v.subs == w.subs && v.clock == w.clock && v.cancels == w.cancels && v.history == w.history
            && Rows(v.log) == if ok then Mark(Rows(w.log), d.payload, d.decoded.event.userID) else Rows(w.log)
  {
    if ok && d.payload in w.log {
      var row := w.log[d.payload].row.(processed := true, userID := d.decoded.event.userID);
      RowsAfter(w.log, d.payload, w.log[d.payload].(row := row));
    }
  }

  // Both tables become what the machine says of an event that is applied, or of
  // one whose write fails, and the history says so.
  predicate AppliedBy(v: World, w: World, h: nat, d: Delivery, e: Env)
    requires h in w.handlers && d.decoded.Parsed? && Owner(d.decoded.event, e.found).Some?
  {
    && v.clock == w.clock && v.cancels == w.cancels && At(v, h, Finished)
    && v.subs == (if e.upsertOk then SubsAfterEvent(w.subs, d, e) else w.subs)
    && Rows(v.log) == (if e.upsertOk && e.markOk then Mark(Rows(w.log), d.payload, d.decoded.event.userID)
                       else Rows(w.log))
    && v.history == (if e.upsertOk then w.history + [Entry(w.handlers[h], h, w.clock)] else w.history)
  }

  // The write and the mark of a handler that has read its user's row.
  lemma WriteAndMark(plans: Providers.PaystackPlans, w: World, h: nat, d: Delivery, e: Env)
    requires At(w, h, Ready) && w.handlers[h].job == EventJob(d) && d.decoded.Parsed?
    requires w.handlers[h].existing == ReadBy(ReadSubscription(w.subs, w.handlers[h].userID, w.clock))
    requires e.now == w.clock && Owner(d.decoded.event, e.found) == Some(w.handlers[h].userID)
    requires FreshID(w.subs, e.newID)
    ensures AppliedBy(Next(plans, Next(plans, w, Write(h, e.newID, e.upsertOk)), MarkProcessed(h, e.markOk)),
                      w, h, d, e)
  {
    WritingIs(plans, w, h, d, e);
    if e.upsertOk {
      MarkingIs(plans, Next(plans, w, Write(h, e.newID, e.upsertOk)), h, d, e.markOk);
    }
  }

  // From the owner on.
  lemma ApplyingIs(plans: Providers.PaystackPlans, w: World, h: nat, d: Delivery, e: Env)
    requires At(w, h, Resolved) && w.handlers[h].job == EventJob(d) && d.decoded.Parsed?
    requires w.handlers[h].existing == BLANK
    requires e.now == w.clock && Owner(d.decoded.event, e.found) == Some(w.handlers[h].userID)
    requires FreshID(w.subs, e.newID)
    ensures AppliedBy(Interleaving.Run(plans, w, Applying(h, e)), w, h, d, e)
  {
    RunFive(plans, w, ReadPeriod(h), ReadTrial(h), ReadRest(h), Write(h, e.newID, e.upsertOk),
            MarkProcessed(h, e.markOk));
    ReadingReaches(plans, w, h);
    var sub := ReadSubscription(w.subs, w.handlers[h].userID, w.clock);
    WriteAndMark(plans, Put(w, h, Reader(w.handlers[h], Ready, ReadBy(sub), w.clock)), h, d, e);
  }

  // ----- A whole call is one step of the machine -----

  // The call has recorded its event and its check is next.
  predicate Awaiting(w: World, h: nat, d: Delivery) {
    At(w, h, PC.Recorded) && w.handlers[h].job == EventJob(d) && d.decoded.Parsed? && w.handlers[h].existing == BLANK
  }

  // What the call still has to be told the truth about.
  ghost predicate Told(w: World, d: Delivery, e: Env)
    requires d.decoded.Parsed?
  {
    && FreshID(w.subs, e.newID)
    && (!IsStale(Rows(w.log), d.provider, d.decoded.event) ==> Truthful(w.subs, EventJob(d), e.found))
  }

  lemma DecidingIs(plans: Providers.PaystackPlans, w: World, h: nat, d: Delivery, e: Env)
    requires Awaiting(w, h, d) && Told(w, d, e)
    ensures var v := Interleaving.Run(plans, w, Deciding(h, e));
            var owner := Owner(d.decoded.event, e.found);
            && v.subs == w.subs && v.log == w.log && v.clock == w.clock && v.cancels == w.cancels
                && v.history == w.history
            && if IsStale(Rows(w.log), d.provider, d.decoded.event) || owner.None? then At(v, h, Finished)
               else At(v, h, Resolved) && v.handlers[h].job == EventJob(d) && v.handlers[h].existing == BLANK
                    && owner == Some(v.handlers[h].userID)
                        && Entry(v.handlers[h], h, w.clock) == Entry(w.handlers[h], h, w.clock)
  {
    Races.RunTwo(plans, w, CheckOrder(h), ResolveUser(h, e.found));
    if !IsStale(Rows(w.log), d.provider, d.decoded.event) {
      PassedIsOrdered(plans, w, h);
    }
  }

  // The tables once a recorded event has been decided on and dealt with.
  ghost predicate DealtWith(v: World, w: World, h: nat, d: Delivery, e: Env)
    requires h in w.handlers && d.decoded.Parsed?
  {
    var ev := d.decoded.event;
    var applied := !IsStale(Rows(w.log), d.provider, ev) && Owner(ev, e.found).Some? && e.upsertOk;
    && v.clock == w.clock && v.cancels == w.cancels && At(v, h, Finished)
    && v.subs == (if applied then SubsAfterEvent(w.subs, d, e) else w.subs)
    && Rows(v.log) == (if applied && e.markOk then Mark(Rows(w.log), d.payload, ev.userID) else Rows(w.log))
    && v.history == (if applied then w.history + [Entry(w.handlers[h], h, w.clock)] else w.history)
  }

  lemma RestOfCall(plans: Providers.PaystackPlans, w: World, h: nat, d: Delivery, e: Env)
    requires Awaiting(w, h, d) && e.now == w.clock && Told(w, d, e)
    ensures DealtWith(Interleaving.Run(plans, w, Deciding(h, e) + Applying(h, e)), w, h, d, e)
  {
    DecidingIs(plans, w, h, d, e);
    var v := Interleaving.Run(plans, w, Deciding(h, e));
    Races.RunConcat(plans, w, Deciding(h, e), Applying(h, e));
    if At(v, h, Finished) {
      IdleWhenFinished(plans, v, Applying(h, e), h);
    } else {
      ApplyingIs(plans, v, h, d, e);
    }
  }

  lemma RefusedCall(plans: Providers.PaystackPlans, w: World, h: nat, d: Delivery, e: Env)
    requires At(w, h, Finished)
    ensures Interleaving.Run(plans, w, Deciding(h, e) + Applying(h, e)) == w
  {
    IdleWhenFinished(plans, w, Deciding(h, e) + Applying(h, e), h);
  }

  // What the machine's step does, told in the same terms.
  lemma DeliverIs(s: State, d: Delivery, e: Env)
    requires d.decoded != Rejected
    ensures var t := Deliver(s, d, e);
            var recorded := s.log[d.payload := BillingMachine.Recorded(d, e.now)];
            if !e.recordOk || d.payload in s.log then t == s.(clock := e.now)
            else if d.decoded == Ignored then t == s.(log := recorded, clock := e.now)
            else
              var ev := d.decoded.event;
              var applied := !IsStale(recorded, d.provider, ev) && Owner(ev, e.found).Some? && e.upsertOk;
              && t.subs == (if applied then SubsAfterEvent(s.subs, d, e) else s.subs)
              && t.log == (if applied && e.markOk then Mark(recorded, d.payload, ev.userID) else recorded)
              && t.history == (if applied then s.history + [EventEntry(d, e)] else s.history) && t.clock == e.now
  {
  }

  lemma KeysAreRows(log: map<string, Slot>, key: string)
    ensures key in log <==> key in Rows(log)
  {
  }

  // The call up to its INSERT.
  function Opening(h: nat, d: Delivery, ok: bool): seq<Move> {
    [Arrive(h, EventJob(d)), Stamp(h), Insert(h, ok)]
  }

  lemma OpeningKeeps(plans: Providers.PaystackPlans, w: World, s: State, h: nat, d: Delivery, e: Env)
    requires Matches(w, s) && d.decoded != Rejected && h !in w.handlers && e.now == w.clock
    ensures var v := Interleaving.Run(plans, w, Opening(h, d, e.recordOk));
            var recorded := s.log[d.payload := BillingMachine.Recorded(d, e.now)];
            && v.subs == s.subs && v.clock == s.clock && v.cancels == map[] && v.history == w.history
            && if !e.recordOk || d.payload in s.log then Rows(v.log) == s.log && At(v, h, Finished)
               else
                 && Rows(v.log) == recorded
                 && (if d.decoded.Parsed? then
                       Awaiting(v, h, d) && Entry(v.handlers[h], h, w.clock)
                                            == Application(d.payload, h, w.clock, w.clock, w.clock)
                     else At(v, h, Finished))
  {
    OpeningReaches(plans, w, h, d, e.recordOk);
    KeysAreRows(w.log, d.payload);
    if e.recordOk && d.payload !in w.log {
      RowsAfter(w.log, d.payload, Slot(BillingMachine.Recorded(d, w.clock), h));
    }
  }

  // What the machine is told about a delivery that is decided on.
  lemma ToldTheTruth(plans: Providers.PaystackPlans, v: World, s: State, d: Delivery, e: Env)
    requires Enabled(plans, s, Webhook(d, e)) && d.decoded.Parsed? && e.recordOk && d.payload !in s.log
    requires v.subs == s.subs && Rows(v.log) == s.log[d.payload := BillingMachine.Recorded(d, e.now)]
    ensures Told(v, d, e)
  {
  }

  // A webhook call that nothing interrupts, with all its statements at one
  // instant, is exactly one delivery step of the machine, whatever becomes of it.
  lemma CallIsDeliver(plans: Providers.PaystackPlans, w: World, s: State, h: nat, d: Delivery, e: Env)
    requires Matches(w, s) && d.decoded != Rejected && h !in w.handlers && e.now == w.clock
    requires Enabled(plans, s, Webhook(d, e))
    ensures Matches(Interleaving.Run(plans, w, Calling(h, d, e)), Deliver(s, d, e))
    ensures At(Interleaving.Run(plans, w, Calling(h, d, e)), h, Finished)
  {
    var v := Interleaving.Run(plans, w, Opening(h, d, e.recordOk));
    var u := Interleaving.Run(plans, w, Calling(h, d, e));
    OpeningKeeps(plans, w, s, h, d, e);
    Races.RunConcat(plans, w, Opening(h, d, e.recordOk), Deciding(h, e) + Applying(h, e));
    DeliverIs(s, d, e);
    if At(v, h, Finished) {
      RefusedCall(plans, v, h, d, e);
      HistoryCarriesOver(plans, w, Calling(h, d, e), s.history);
    } else {
      ToldTheTruth(plans, v, s, d, e);
      RestOfCall(plans, v, h, d, e);
      if u.history == w.history {
        HistoryCarriesOver(plans, w, Calling(h, d, e), s.history);
      } else {
        JobsStay(plans, v, Deciding(h, e) + Applying(h, e), h);
        HistoryGrows(plans, w, Calling(h, d, e), s.history, Application(d.payload, h, w.clock, w.clock, w.clock),
                     EventEntry(d, e));
      }
    }
  }

  // ----- Redemptions -----

  // The statements of one redemption, from its claim on.
  function Verifying(h: nat, r: Redemption, e: Env): seq<Move> {
    OverlapRuns.Claiming(h, r, e.recordOk) + [Write(h, e.newID, e.upsertOk)]
  }

  // The claimant once it has read the period.
  function Payer(r: Redemption, sub: Row, at: Instant): Handler {
    OverlapRuns.Claimant(r, at).(pc := Ready, existing := BLANK.(periodEnd := sub.periodEnd), readAt := at)
  }

  predicate Claims(w: World, r: Redemption, e: Env) {
    e.recordOk && ClaimKey(r.reference) !in w.log
  }

  // After its claim the redemption has read, or it is over.
  predicate ClaimedOrOver(v: World, w: World, h: nat, r: Redemption, e: Env)
    requires r.checked.Some?
  {
    if Claims(w, r, e)
    then v == Put(w.(log := w.log[ClaimKey(r.reference) := Slot(Claim(r, w.clock), h)]), h,
                  Payer(r, ReadSubscription(w.subs, r.user.id, w.clock), w.clock))
    else v.subs == w.subs && v.log == w.log && v.clock == w.clock && v.cancels == w.cancels
         && v.history == w.history && At(v, h, Finished)
  }

  lemma InsertClaims(plans: Providers.PaystackPlans, w: World, h: nat, r: Redemption, e: Env)
    requires Screen(plans, r) == Granted && h !in w.handlers
    ensures var arrived := Put(w, h, OverlapRuns.Opened(ReferenceJob(r), w.clock));
            ClaimedOrOver(Next(plans, Next(plans, arrived, Insert(h, e.recordOk)), ReadPeriod(h)), w, h, r, e)
  {
    var arrived := Put(w, h, OverlapRuns.Opened(ReferenceJob(r), w.clock));
    if Claims(w, r, e) {
      OverlapRuns.StoresClaim(plans, w, h, r);
      var claimed := w.(log := w.log[ClaimKey(r.reference) := Slot(Claim(r, w.clock), h)]);
      PayerReads(plans, claimed, h, r);
    } else {
      assert Next(plans, arrived, Insert(h, e.recordOk)) == Advance(arrived, h, Finished);
      assert Next(plans, Advance(arrived, h, Finished), ReadPeriod(h)) == Advance(arrived, h, Finished);
    }
  }

  lemma PayerReads(plans: Providers.PaystackPlans, w: World, h: nat, r: Redemption)
    ensures Next(plans, Put(w, h, OverlapRuns.Claimant(r, w.clock)), ReadPeriod(h))
         == Put(w, h, Payer(r, ReadSubscription(w.subs, r.user.id, w.clock), w.clock))
  {
    Races.PutTwice(w, h, OverlapRuns.Claimant(r, w.clock),
                   Payer(r, ReadSubscription(w.subs, r.user.id, w.clock), w.clock));
  }

  lemma ClaimingDoes(plans: Providers.PaystackPlans, w: World, h: nat, r: Redemption, e: Env)
    requires Screen(plans, r) == Granted && h !in w.handlers
    ensures ClaimedOrOver(Interleaving.Run(plans, w, OverlapRuns.Claiming(h, r, e.recordOk)), w, h, r, e)
  {
    OrderShapes.RunThree(plans, w, Arrive(h, ReferenceJob(r)), Stamp(h), Insert(h, e.recordOk));
    Races.RunOne(plans, w, [Arrive(h, ReferenceJob(r)), Stamp(h), Insert(h, e.recordOk)], ReadPeriod(h));
    OverlapRuns.Opens(plans, w, h, r);
    InsertClaims(plans, w, h, r, e);
  }

  // The period is all that the bought row depends on.
  lemma PeriodSuffices(plans: Providers.PaystackPlans, sub: Row, r: Redemption, now: Instant)
    requires Screen(plans, r) == Granted
    ensures RedeemedRow(plans, BLANK.(periodEnd := sub.periodEnd), r, now) == RedeemedRow(plans, sub, r, now)
  {
  }

  lemma RedeemIs(plans: Providers.PaystackPlans, s: State, r: Redemption, e: Env)
    requires Screen(plans, r) == Granted && (e.found.Some? ==> e.found.value == r.user.id)
    ensures var t := Redeem(plans, s, r, e);
            var sub := ReadSubscription(s.subs, r.user.id, e.now);
            if !e.recordOk || ClaimKey(r.reference) in s.log then t == s.(clock := e.now)
            else
              && t.log == s.log[ClaimKey(r.reference) := Claim(r, e.now)] && t.clock == e.now
              && t.subs == (if e.upsertOk then Upsert(s.subs, RedeemedRow(plans, sub, r, e.now), e.newID) else s.subs)
              && t.history == (if e.upsertOk then s.history + [ReferenceEntry(plans, sub, r, e.now)] else s.history)
  {
  }

  lemma FinishedIsIdle(plans: Providers.PaystackPlans, v: World, h: nat, id: string, ok: bool)
    requires At(v, h, Finished)
    ensures Next(plans, v, Write(h, id, ok)) == v
  {
  }

  // The write of the payer, if there is one.
  lemma PayerWrites(plans: Providers.PaystackPlans, v: World, w: World, h: nat, r: Redemption, e: Env)
    requires Screen(plans, r) == Granted && FreshID(w.subs, e.newID)
    requires v.subs == w.subs && v.clock == w.clock
    requires At(v, h, Ready) && v.handlers[h] == Payer(r, ReadSubscription(w.subs, r.user.id, w.clock), w.clock)
    ensures var u := Next(plans, v, Write(h, e.newID, e.upsertOk));
            var row := RedeemedRow(plans, ReadSubscription(w.subs, r.user.id, w.clock), r, w.clock);
            && u.log == v.log && u.clock == v.clock && u.cancels == v.cancels
            && u.subs == (if e.upsertOk then Upsert(w.subs, row, e.newID) else w.subs)
            && u.history == (if e.upsertOk then v.history + [Claimed(r, h, w.clock)] else v.history)
            && h in u.handlers && u.handlers[h].job == ReferenceJob(r) && Through(u.handlers[h])
  {
    PeriodSuffices(plans, ReadSubscription(w.subs, r.user.id, w.clock), r, w.clock);
  }

  function Claimed(r: Redemption, h: nat, at: Instant): Application {
    Application(ClaimKey(r.reference), h, at, at, at)
  }

  // What the statements of a redemption do to the world.
  predicate Verified(v: World, plans: Providers.PaystackPlans, w: World, h: nat, r: Redemption, e: Env)
    requires Screen(plans, r) == Granted
  {
    var row := RedeemedRow(plans, ReadSubscription(w.subs, r.user.id, w.clock), r, w.clock);
    && v.clock == w.clock && v.cancels == w.cancels && h in v.handlers && Through(v.handlers[h])
    && v.log == (if Claims(w, r, e) then w.log[ClaimKey(r.reference) := Slot(Claim(r, w.clock), h)] else w.log)
    && v.subs == (if Claims(w, r, e) && e.upsertOk then Upsert(w.subs, row, e.newID) else w.subs)
    && v.history == (if Claims(w, r, e) && e.upsertOk then w.history + [Claimed(r, h, w.clock)] else w.history)
    && (Claims(w, r, e) ==> v.handlers[h].job == ReferenceJob(r))
  }

  lemma WriteVerifies(plans: Providers.PaystackPlans, v: World, w: World, h: nat, r: Redemption, e: Env)
    requires Screen(plans, r) == Granted && FreshID(w.subs, e.newID) && ClaimedOrOver(v, w, h, r, e)
    ensures Verified(Next(plans, v, Write(h, e.newID, e.upsertOk)), plans, w, h, r, e)
  {
    if Claims(w, r, e) {
      PayerWrites(plans, v, w, h, r, e);
    } else {
      FinishedIsIdle(plans, v, h, e.newID, e.upsertOk);
    }
  }

  lemma VerifyingDoes(plans: Providers.PaystackPlans, w: World, h: nat, r: Redemption, e: Env)
    requires Screen(plans, r) == Granted && h !in w.handlers && FreshID(w.subs, e.newID)
    ensures Verified(Interleaving.Run(plans, w, Verifying(h, r, e)), plans, w, h, r, e)
  {
    ClaimingDoes(plans, w, h, r, e);
    WriteVerifies(plans, Interleaving.Run(plans, w, OverlapRuns.Claiming(h, r, e.recordOk)), w, h, r, e);
    Races.RunOne(plans, w, OverlapRuns.Claiming(h, r, e.recordOk), Write(h, e.newID, e.upsertOk));
  }

  // The same for a redemption and one redemption step.
  lemma RedemptionIsRedeem(plans: Providers.PaystackPlans, w: World, s: State, h: nat, r: Redemption, e: Env)
    requires Matches(w, s) && h !in w.handlers && e.now == w.clock && FreshID(s.subs, e.newID)
    requires Screen(plans, r) == Granted && (e.found.Some? ==> e.found.value == r.user.id)
    ensures Matches(Interleaving.Run(plans, w, Verifying(h, r, e)), Redeem(plans, s, r, e))
    ensures h in Interleaving.Run(plans, w, Verifying(h, r, e)).handlers
    ensures Through(Interleaving.Run(plans, w, Verifying(h, r, e)).handlers[h])
  {
    VerifyingDoes(plans, w, h, r, e);
    RedeemIs(plans, s, r, e);
    KeysAreRows(w.log, ClaimKey(r.reference));
    RowsAfter(w.log, ClaimKey(r.reference), Slot(Claim(r, w.clock), h));
    if e.recordOk && ClaimKey(r.reference) !in w.log && e.upsertOk {
      var entry := ReferenceEntry(plans, ReadSubscription(s.subs, r.user.id, e.now), r, e.now);
      HistoryGrows(plans, w, Verifying(h, r, e), s.history, Claimed(r, h, w.clock), entry);
    } else {
      HistoryCarriesOver(plans, w, Verifying(h, r, e), s.history);
    }
  }

  // ----- Cancellations and clean-ups -----

  function Cancelling(c: nat, user: string, providerOk: bool, e: Env): seq<Move> {
    [BeginCancel(c, user), EndCancel(c, providerOk, e.newID, e.upsertOk)]
  }

  lemma EndCancelDoes(plans: Providers.PaystackPlans, w: World, c: nat, sub: Row, providerOk: bool, e: Env)
    requires w.cancels == map[c := sub] && FreshID(w.subs, e.newID)
    ensures Next(plans, w, EndCancel(c, providerOk, e.newID, e.upsertOk))
         == w.(cancels := map[],
               subs := if ProviderAccepts(sub, providerOk) && e.upsertOk
                       then Upsert(w.subs, CancelledRow(sub, w.clock), e.newID) else w.subs)
  {
    assert map[c := sub] - {c} == map[];
  }

  // What the two statements of a cancellation do to the world.
  lemma CancellingDoes(plans: Providers.PaystackPlans, w: World, c: nat, user: string, providerOk: bool, e: Env)
    requires w.cancels == map[] && FreshID(w.subs, e.newID)
    ensures var v := Interleaving.Run(plans, w, Cancelling(c, user, providerOk, e));
            var sub := ReadSubscription(w.subs, user, w.clock);
            var cancelled := sub.plan != "free" && sub.id != "" && !sub.cancelAtEnd
                             && ProviderAccepts(sub, providerOk) && e.upsertOk;
            && v.clock == w.clock && v.log == w.log && v.history == w.history && v.cancels == map[]
            && v.subs == (if cancelled then Upsert(w.subs, CancelledRow(sub, w.clock), e.newID) else w.subs)
  {
    Races.RunTwo(plans, w, BeginCancel(c, user), EndCancel(c, providerOk, e.newID, e.upsertOk));
    var sub := ReadSubscription(w.subs, user, w.clock);
    if sub.plan == "free" || sub.id == "" || sub.cancelAtEnd {
      assert Next(plans, w, BeginCancel(c, user)) == w;
    } else {
      EndCancelDoes(plans, w.(cancels := map[c := sub]), c, sub, providerOk, e);
    }
  }

  lemma CancelIs(s: State, user: string, providerOk: bool, e: Env)
    ensures var sub := ReadSubscription(s.subs, user, e.now);
            var cancelled := sub.plan != "free" && sub.id != "" && !sub.cancelAtEnd
                             && ProviderAccepts(sub, providerOk) && e.upsertOk;
            Cancel(s, user, providerOk, e)
            == s.(clock := e.now,
                  subs := if cancelled then Upsert(s.subs, CancelledRow(sub, e.now), e.newID) else s.subs)
  {
  }

  lemma CancellingIsCancel(plans: Providers.PaystackPlans, w: World, s: State, c: nat, user: string, providerOk: bool,
                           e: Env)
    requires Matches(w, s) && e.now == w.clock && FreshID(s.subs, e.newID)
    ensures Matches(Interleaving.Run(plans, w, Cancelling(c, user, providerOk, e)), Cancel(s, user, providerOk, e))
  {
    CancellingDoes(plans, w, c, user, providerOk, e);
    CancelIs(s, user, providerOk, e);
    HistoryCarriesOver(plans, w, Cancelling(c, user, providerOk, e), s.history);
  }

  lemma CleaningIsPruning(plans: Providers.PaystackPlans, w: World, s: State, e: Env)
    requires Matches(w, s) && e.now == w.clock
    ensures Matches(Interleaving.Run(plans, w, [Clean(e.now - RETENTION)]),
                    s.(log := Prune(s.log, e.now), clock := e.now))
  {
    Races.RunOne(plans, w, [], Clean(e.now - RETENTION));
    assert [] + [Clean(e.now - RETENTION)] == [Clean(e.now - RETENTION)];
    var v := Interleaving.Run(plans, w, [Clean(e.now - RETENTION)]);
    assert Rows(v.log).Keys == Prune(s.log, e.now).Keys;
    HistoryCarriesOver(plans, w, [Clean(e.now - RETENTION)], s.history);
  }

  // ----- Runs of calls that take no time -----

  // One action, carried by handler h. A body that is rejected and a payment that
  // fails its checks or is another account's reach no table.
  function MovesFor(plans: Providers.PaystackPlans, a: Action, h: nat): seq<Move> {
    match a
    case Webhook(d, e) => if d.decoded == Rejected then [] else Calling(h, d, e)
    case Verify(r, e) =>
      if Screen(plans, r) != Granted || (e.found.Some? && e.found.value != r.user.id) then [] else Verifying(h, r, e)
    case CancelPlan(user, providerOk, e) => Cancelling(h, user, providerOk, e)
    case Cleanup(e) => [Clean(e.now - RETENTION)]
  }

  // Each once the clock has moved on to it; handlers are numbered as they come.
  function MovesOf(plans: Providers.PaystackPlans, run: seq<Action>): seq<Move> {
    if run == [] then []
    else
      var last := run[|run| - 1];
      MovesOf(plans, run[..|run| - 1]) + ([Tick(last.env.now)] + MovesFor(plans, last, |run| - 1))
  }

  predicate ArrivesBelow(moves: seq<Move>, n: nat) {
    forall i :: 0 <= i < |moves| && moves[i].Arrive? ==> moves[i].h < n
  }

  ghost predicate HandlersBelow(w: World, n: nat) {
    forall h: nat :: h in w.handlers ==> h < n
  }

  lemma HandlersNext(plans: Providers.PaystackPlans, w: World, m: Move, h: nat)
    requires h in Next(plans, w, m).handlers && h !in w.handlers
    ensures m.Arrive? && m.h == h
  {
    if !OfHandler(m, h) {
      OthersStay(plans, w, m, h);
    }
  }

  lemma {:induction false} HandlersStayBelow(plans: Providers.PaystackPlans, w: World, moves: seq<Move>, n: nat)
    requires HandlersBelow(w, n) && ArrivesBelow(moves, n)
    ensures HandlersBelow(Interleaving.Run(plans, w, moves), n)
    decreases |moves|
  {
    if moves != [] {
      var before, last := moves[..|moves| - 1], moves[|moves| - 1];
      HandlersStayBelow(plans, w, before, n);
      var v := Interleaving.Run(plans, w, before);
      forall h: nat | h in Next(plans, v, last).handlers ensures h < n {
        if h !in v.handlers {
          HandlersNext(plans, v, last, h);
        }
      }
    }
  }

  lemma OneArrives(plans: Providers.PaystackPlans, a: Action, h: nat)
    ensures ArrivesBelow([Tick(a.env.now)] + MovesFor(plans, a, h), h + 1)
  {
  }

  lemma BothArriveBelow(one: seq<Move>, two: seq<Move>, n: nat)
    requires ArrivesBelow(one, n) && ArrivesBelow(two, n)
    ensures ArrivesBelow(one + two, n)
  {
  }

  lemma {:induction false} MovesArriveBelow(plans: Providers.PaystackPlans, run: seq<Action>)
    ensures ArrivesBelow(MovesOf(plans, run), |run|)
  {
    if run != [] {
      var last := run[|run| - 1];
      MovesArriveBelow(plans, run[..|run| - 1]);
      OneArrives(plans, last, |run| - 1);
      BothArriveBelow(MovesOf(plans, run[..|run| - 1]), [Tick(last.env.now)] + MovesFor(plans, last, |run| - 1), |run|);
    }
  }

  lemma TickIs(plans: Providers.PaystackPlans, w: World, s: State, now: Instant)
    requires Matches(w, s) && w.clock <= now
    ensures var later := Interleaving.Run(plans, w, [Tick(now)]);
            Matches(later, s.(clock := now)) && later.clock == now && later.handlers == w.handlers
  {
    Races.RunOne(plans, w, [], Tick(now));
    assert [] + [Tick(now)] == [Tick(now)];
    HistoryCarriesOver(plans, w, [Tick(now)], s.history);
  }

  // No step reads the machine's clock.
  lemma ClockIsUnread(plans: Providers.PaystackPlans, s: State, a: Action, now: Instant)
    ensures Step(plans, s.(clock := now), a) == Step(plans, s, a)
    ensures Enabled(plans, s.(clock := now), a) <==> Enabled(plans, s, a)
  {
    if a.Webhook? {
      ClockIsUnreadByDelivery(s, a.delivery, a.env, now);
    }
  }

  lemma ClockIsUnreadByDelivery(s: State, d: Delivery, e: Env, now: Instant)
    ensures DeliveryFate(s.(clock := now), d, e) == DeliveryFate(s, d, e)
    ensures Deliver(s.(clock := now), d, e) == Deliver(s, d, e)
  {
  }

  lemma NothingMoves(plans: Providers.PaystackPlans, w: World, s: State, a: Action, h: nat)
    requires Matches(w, s) && a.env.now == w.clock && MovesFor(plans, a, h) == []
    ensures Matches(Interleaving.Run(plans, w, MovesFor(plans, a, h)), Step(plans, s, a))
  {
    assert a.Webhook? || a.Verify?;
    assert Step(plans, s, a) == s.(clock := a.env.now);
  }

  // An action whose instant has come.
  lemma MovesAreStep(plans: Providers.PaystackPlans, w: World, s: State, a: Action, h: nat)
    requires Matches(w, s) && a.env.now == w.clock && h !in w.handlers && Enabled(plans, s, a)
    ensures Matches(Interleaving.Run(plans, w, MovesFor(plans, a, h)), Step(plans, s, a))
  {
    if MovesFor(plans, a, h) == [] {
      NothingMoves(plans, w, s, a, h);
    } else {
      match a
      case Webhook(d, e) => CallIsDeliver(plans, w, s, h, d, e);
      case Verify(r, e) => RedemptionIsRedeem(plans, w, s, h, r, e);
      case CancelPlan(user, providerOk, e) => CancellingIsCancel(plans, w, s, h, user, providerOk, e);
      case Cleanup(e) => CleaningIsPruning(plans, w, s, e);
    }
  }

  lemma {:induction false} NobodyElseArrives(plans: Providers.PaystackPlans, w: World, moves: seq<Move>, h: nat)
    requires h in Interleaving.Run(plans, w, moves).handlers && h !in w.handlers
    ensures exists i :: 0 <= i < |moves| && moves[i].Arrive? && moves[i].h == h
    decreases |moves|
  {
    if moves != [] {
      var before, last := moves[..|moves| - 1], moves[|moves| - 1];
      if h in Interleaving.Run(plans, w, before).handlers {
        NobodyElseArrives(plans, w, before, h);
        var i :| 0 <= i < |before| && before[i].Arrive? && before[i].h == h;
        assert moves[i] == before[i];
      } else {
        HandlersNext(plans, Interleaving.Run(plans, w, before), last, h);
      }
    }
  }

  // The call that carries the action out is through in the end.
  lemma CallIsThrough(plans: Providers.PaystackPlans, w: World, s: State, a: Action, h: nat)
    requires Matches(w, s) && a.env.now == w.clock && h !in w.handlers && Enabled(plans, s, a)
    ensures h in Interleaving.Run(plans, w, MovesFor(plans, a, h)).handlers ==>
              Through(Interleaving.Run(plans, w, MovesFor(plans, a, h)).handlers[h])
  {
    if h in Interleaving.Run(plans, w, MovesFor(plans, a, h)).handlers {
      NobodyElseArrives(plans, w, MovesFor(plans, a, h), h);
      match a
      case Webhook(d, e) => CallIsDeliver(plans, w, s, h, d, e);
      case Verify(r, e) => RedemptionIsRedeem(plans, w, s, h, r, e);
      case _ => assert false;
    }
  }

  lemma ActionMatches(plans: Providers.PaystackPlans, w: World, s: State, a: Action, h: nat)
    requires Matches(w, s) && w.clock <= a.env.now && h !in w.handlers && Enabled(plans, s, a)
    ensures Matches(Interleaving.Run(plans, w, [Tick(a.env.now)] + MovesFor(plans, a, h)), Step(plans, s, a))
  {
    TickIs(plans, w, s, a.env.now);
    ClockIsUnread(plans, s, a, a.env.now);
    MovesAreStep(plans, Interleaving.Run(plans, w, [Tick(a.env.now)]), s.(clock := a.env.now), a, h);
    Races.RunConcat(plans, w, [Tick(a.env.now)], MovesFor(plans, a, h));
  }

  // Whole runs: every possible run of the machine is a run of interleaved
  // statements, with the same tables, clock and history. Every call is over at the
  // instant at which it starts; the clock moves between calls only.
  lemma {:induction false} SerialRunsAreMachineRuns(plans: Providers.PaystackPlans, w: World, s: State,
                                                    run: seq<Action>)
    requires Matches(w, s) && w.handlers == map[] && Possible(plans, s, run) && Chronological(s, run)
    ensures Matches(Interleaving.Run(plans, w, MovesOf(plans, run)), BillingMachine.Run(plans, s, run))
  {
    if run != [] {
      var before, last := run[..|run| - 1], run[|run| - 1];
      SerialRunsAreMachineRuns(plans, w, s, before);
      var v := Interleaving.Run(plans, w, MovesOf(plans, before));
      MovesArriveBelow(plans, before);
      HandlersStayBelow(plans, w, MovesOf(plans, before), |before|);
      ClockAfter(plans, s, before);
      ActionMatches(plans, v, BillingMachine.Run(plans, s, before), last, |before|);
      Races.RunConcat(plans, w, MovesOf(plans, before), [Tick(last.env.now)] + MovesFor(plans, last, |before|));
    }
  }

  // ----- What carries over -----

  // The i-th application of a run that starts from empty tables.
  ghost predicate Applies(plans: Providers.PaystackPlans, w: World, run: seq<Action>, i: nat) {
    i < |Interleaving.Run(plans, w, MovesOf(plans, run)).history|
  }

  // When calls take no time, two applications under one key are more than 90 days
  // apart. With time they are not (`NoOverlapRuns.SpacingIsReachedInTurn`).
  lemma SerialApplicationsApart(plans: Providers.PaystackPlans, w: World, s: State, run: seq<Action>, i: nat, j: nat)
    requires Initial(s) && Matches(w, s) && w.handlers == map[] && Possible(plans, s, run) && Chronological(s, run)
    requires i < j && Applies(plans, w, run, j)
    ensures var history := Interleaving.Run(plans, w, MovesOf(plans, run)).history;
            history[i].key == history[j].key ==> history[j].at - history[i].at > RETENTION
  {
    SerialRunsAreMachineRuns(plans, w, s, run);
    Retention.AppliedAtMostOnce(plans, s, run);
    var v, t := Interleaving.Run(plans, w, MovesOf(plans, run)), BillingMachine.Run(plans, s, run);
    assert SameEntry(v, v.history[i], t.history[i]) && SameEntry(v, v.history[j], t.history[j]);
  }

  // When calls take no time, an older event is applied after a newer one of its
  // object only if the newer one's mark failed or it was applied over 90 days
  // before. `NoOverlap.OlderFollowsOnlyUnguarded` says what holds when they do.
  lemma SerialProviderOrder(plans: Providers.PaystackPlans, w: World, s: State, run: seq<Action>, i: nat, j: nat)
    requires Initial(s) && Matches(w, s) && w.handlers == map[] && Possible(plans, s, run) && Chronological(s, run)
    requires i < j && Applies(plans, w, run, j)
    ensures var v, t := Interleaving.Run(plans, w, MovesOf(plans, run)), BillingMachine.Run(plans, s, run);
            && |t.history| == |v.history| && v.history[i].handler in v.handlers && v.history[j].handler in v.handlers
            && (Newer(v.handlers[v.history[i].handler], v.handlers[v.history[j].handler]) ==>
                  t.history[i].EventApplied?
                  && (!t.history[i].marked || v.history[j].at - v.history[i].at > RETENTION))
  {
    SerialRunsAreMachineRuns(plans, w, s, run);
    Retention.AppliedInProviderOrder(plans, s, run);
    var v, t := Interleaving.Run(plans, w, MovesOf(plans, run)), BillingMachine.Run(plans, s, run);
    assert SameEntry(v, v.history[i], t.history[i]) && SameEntry(v, v.history[j], t.history[j]);
    if Newer(v.handlers[v.history[i].handler], v.handlers[v.history[j].handler]) {
      assert Retention.SameObject(t.history[i], t.history[j]);
      assert Retention.Guarded(t.history[i], t.history[j]) ==>
             t.history[i].eventAt.value <= t.history[j].eventAt.value;
    }
  }
}
