/** One connection end to end: broadcasts, the client's buffer on the server,
    the bytes on the wire, the parser, the forward queue and its worker. */
module EventPath {
  import opened Core
  import opened SseFormat
  import opened LiveFeed

  // A request on its way; the index of its broadcast is bookkeeping.
  datatype Item = Item(index: nat, data: string)

  // `read` counts the characters the client has received, `rendered` the parsed
  // events its renderer has taken. Bookkeeping: `sent`, every broadcast to the
  // session since it connected; `written`, which of them have a frame;
  // `consumed`, how many of those have been rendered; and where the rest went.
  datatype Path = Path(
    session: string,
    sent: seq<string>,
    buffer: seq<Item>,
    frames: seq<Frame>,
    written: seq<nat>,
    read: nat,
    rendered: nat,
    consumed: nat,
    queue: seq<Item>,
    attempted: seq<Item>,
    tooSlow: set<nat>,
    queueFull: set<nat>
  )

  datatype Move =
    | Broadcast(session: string, payload: string)
    | WriteNext
    | WriteKeepalive
    | Receive(upTo: nat)
    | RenderNext
    | ForwardNext

  function Connect(session: string): Path {
    Path(session, [], [], [Connected(session)], [], 0, 0, 0, [], [], {}, {})
  }

  // What the parser has handed to the renderer's channel so far.
  function Emitted(p: Path): seq<Event> {
    Delivered(Text(p.frames)[..if p.read <= |Text(p.frames)| then p.read else |Text(p.frames)|])
  }

  function Broadcasting(p: Path, session: string, payload: string): Path {
    if session != p.session then p
    else
      var item := Item(|p.sent|, payload);
      p.(sent := p.sent + [payload],
         buffer := Offer(p.buffer, item, CLIENT_BUFFER),
         tooSlow := if HasRoom(p.buffer, CLIENT_BUFFER) then p.tooSlow else p.tooSlow + {|p.sent|})
  }

  function Writing(p: Path): Path {
    if p.buffer == [] then p
    else
      p.(buffer := p.buffer[1..],
         frames := p.frames + [Request(p.buffer[0].data)],
         written := p.written + [p.buffer[0].index])
  }

  function Receiving(p: Path, upTo: nat): Path {
    if p.read <= upTo <= |Text(p.frames)| then p.(read := upTo) else p
  }

  function Rendering(p: Path): Path {
    if p.rendered >= |Emitted(p)| then p
    else
      var ev := Emitted(p)[p.rendered];
      if ev.name != "request" || p.consumed >= |p.written| then p.(rendered := p.rendered + 1)
      else Taking(p, ev.data)
  }

  // A request event leaves the channel. Its payload is the server's own JSON, so
  // it decodes, and is enqueued or lost.
  function Taking(p: Path, data: string): Path
    requires p.consumed < |p.written|
  {
    var index := p.written[p.consumed];
    p.(rendered := p.rendered + 1,
       consumed := p.consumed + 1,
       queue := Offer(p.queue, Item(index, data), FORWARD_QUEUE),
       queueFull := if HasRoom(p.queue, FORWARD_QUEUE) then p.queueFull else p.queueFull + {index})
  }

  function Forwarding(p: Path): Path {
    if p.queue == [] then p else p.(queue := p.queue[1..], attempted := p.attempted + [p.queue[0]])
  }

  function Next(p: Path, m: Move): Path {
    match m
    case Broadcast(session, payload) => Broadcasting(p, session, payload)
    case WriteNext => Writing(p)
    case WriteKeepalive => p.(frames := p.frames + [Keepalive])
    case Receive(upTo) => Receiving(p, upTo)
    case RenderNext => Rendering(p)
    case ForwardNext => Forwarding(p)
  }

  function Run(p: Path, moves: seq<Move>): Path {
    if moves == [] then p else Next(Run(p, moves[..|moves| - 1]), moves[|moves| - 1])
  }

  // The broadcasts made to one session, in order.
  function BroadcastsTo(session: string, moves: seq<Move>): seq<string> {
    if moves == [] then []
    else
      var last := moves[|moves| - 1];
      BroadcastsTo(session, moves[..|moves| - 1])
      + (if last.Broadcast? && last.session == session then [last.payload] else [])
  }

  // ----- Frames, events and requests -----

  function RequestsOf(frames: seq<Frame>): seq<string> {
    if frames == [] then []
    else
      var last := frames[|frames| - 1];
      RequestsOf(frames[..|frames| - 1]) + (if last.Request? then [last.payload] else [])
  }

  function RequestData(events: seq<Event>): seq<string> {
    if events == [] then []
    else
      var last := events[|events| - 1];
      RequestData(events[..|events| - 1]) + (if last.name == "request" then [last.data] else [])
  }

  lemma {:induction false} RequestDataConcat(one: seq<Event>, two: seq<Event>)
    ensures RequestData(one + two) == RequestData(one) + RequestData(two)
    decreases |two|
  {
    if two == [] {
      assert one + two == one;
    } else {
      assert (one + two)[..|one + two| - 1] == one + two[..|two| - 1];
      RequestDataConcat(one, two[..|two| - 1]);
    }
  }

  lemma {:induction false} EventsConcat(one: seq<Frame>, two: seq<Frame>)
    ensures Events(one + two) == Events(one) + Events(two)
    decreases one
  {
    if one == [] {
      assert one + two == two;
    } else {
      assert (one + two)[1..] == one[1..] + two;
      EventsConcat(one[1..], two);
    }
  }

  lemma SeenRequest(f: Frame)
    ensures RequestData(Seen(f)) == if f.Request? then [f.payload] else []
  {
    if f != Keepalive {
      assert Seen(f)[..0] == [];
    }
    assert "connected" != "request";
  }

  lemma {:induction false} EventsCarryRequests(frames: seq<Frame>)
    ensures RequestData(Events(frames)) == RequestsOf(frames)
    decreases |frames|
  {
    if frames != [] {
      var before, last := frames[..|frames| - 1], frames[|frames| - 1];
      assert frames == before + [last];
      EventsConcat(before, [last]);
      assert [last][1..] == [] && Events([last]) == Seen(last) + [];
      RequestDataConcat(Events(before), Seen(last));
      SeenRequest(last);
      EventsCarryRequests(before);
    }
  }

  lemma {:induction false} RequestsOfPrefix(frames: seq<Frame>, k: nat)
    requires k <= |frames|
    ensures RequestsOf(frames[..k]) <= RequestsOf(frames)
    decreases |frames|
  {
    if k < |frames| {
      assert frames[..|frames| - 1][..k] == frames[..k];
      RequestsOfPrefix(frames[..|frames| - 1], k);
    } else {
      assert frames[..k] == frames;
    }
  }

  lemma {:induction false} WholeGrows(frames: seq<Frame>, m: nat, n: nat)
    requires m <= n
    ensures Whole(frames, m) <= Whole(frames, n)
    decreases frames
  {
    if frames != [] && m >= |Render(frames[0])| {
      WholeGrows(frames[1..], m - |Render(frames[0])|, n - |Render(frames[0])|);
    }
  }

  lemma EventsPrefix(frames: seq<Frame>, j: nat, k: nat)
    requires j <= k <= |frames|
    ensures Events(frames[..j]) <= Events(frames[..k])
  {
    assert frames[..k] == frames[..j] + frames[j..k];
    EventsConcat(frames[..j], frames[j..k]);
  }

  // ----- The invariant -----

  // Payloads are JSON documents on one line, within the scanner's bound.
  ghost predicate CleanPayloads(moves: seq<Move>) {
    forall i :: 0 <= i < |moves| && moves[i].Broadcast? ==> Clean(moves[i].payload)
  }

  ghost predicate AllCleanText(sent: seq<string>) {
    forall i :: 0 <= i < |sent| ==> Clean(sent[i])
  }

  function Indices(items: seq<Item>): seq<nat> {
    seq(|items|, i requires 0 <= i < |items| => items[i].index)
  }

  // Oldest first: delivered, queued, on the wire or in the channel, buffered.
  function InOrder(p: Path): seq<nat>
    requires p.consumed <= |p.written|
  {
    Indices(p.attempted) + Indices(p.queue) + p.written[p.consumed..] + Indices(p.buffer)
  }

  ghost predicate Increasing(s: seq<nat>) {
    forall i, j :: 0 <= i < j < |s| ==> s[i] < s[j]
  }

  predicate Carries(items: seq<Item>, sent: seq<string>) {
    forall i :: 0 <= i < |items| ==> items[i].index < |sent| && items[i].data == sent[items[i].index]
  }

  // Broadcasts 0 to n - 1 each have exactly one place: in order, or in one of
  // the two ways of getting lost.
  ghost predicate OnePlaceEach(order: seq<nat>, slow: set<nat>, full: set<nat>, n: nat) {
    && Increasing(order)
    && (forall i: nat :: i < n <==> i in order || i in slow || i in full)
    && (forall i: nat :: i in order ==> i !in slow && i !in full)
    && slow !! full
  }

  ghost predicate Accounted(p: Path)
    requires p.consumed <= |p.written|
  {
    OnePlaceEach(InOrder(p), p.tooSlow, p.queueFull, |p.sent|)
  }

  ghost predicate WireOk(p: Path) {
    && AllClean(p.frames)
    && p.read <= |Text(p.frames)|
    && |RequestsOf(p.frames)| == |p.written|
    && (forall i :: 0 <= i < |p.written| ==> p.written[i] < |p.sent| && RequestsOf(p.frames)[i] == p.sent[p.written[i]])
  }

  ghost predicate RenderedOk(p: Path) {
    && p.rendered <= |Emitted(p)|
    && p.consumed == |RequestData(Emitted(p)[..p.rendered])|
  }

  ghost predicate Inv(p: Path) {
    && AllCleanText(p.sent)
    && WireOk(p) && RenderedOk(p)
    && p.consumed <= |p.written|
    && Carries(p.buffer, p.sent) && Carries(p.queue, p.sent) && Carries(p.attempted, p.sent)
    && Accounted(p)
    && |p.buffer| <= CLIENT_BUFFER && |p.queue| <= FORWARD_QUEUE
  }

  // ----- What has been parsed -----

  lemma EmittedIs(p: Path)
    requires WireOk(p)
    ensures Emitted(p) == Events(p.frames[..Whole(p.frames, p.read)])
    ensures RequestData(Emitted(p)) <= RequestsOf(p.frames)
  {
    DeliveredAtAnyCut(p.frames, p.read);
    EventsCarryRequests(p.frames[..Whole(p.frames, p.read)]);
    RequestsOfPrefix(p.frames, Whole(p.frames, p.read));
  }

  lemma RequestDataNext(events: seq<Event>, k: nat)
    requires k < |events|
    ensures RequestData(events[..k + 1])
            == RequestData(events[..k]) + (if events[k].name == "request" then [events[k].data] else [])
    ensures RequestData(events[..k + 1]) <= RequestData(events)
  {
    var head, tail := events[..k + 1], events[k + 1..];
    assert head[..k] == events[..k] && head[k] == events[k];
    Glue(events, k + 1);
    RequestDataConcat(head, tail);
  }

  lemma Glue<T>(s: seq<T>, k: nat)
    requires k <= |s|
    ensures s[..k] + s[k..] == s
  {
  }

  // The next request event to be rendered is the next one in order.
  lemma NextRequest(p: Path)
    requires WireOk(p) && RenderedOk(p) && p.rendered < |Emitted(p)|
    ensures var ev := Emitted(p)[p.rendered];
            && RequestData(Emitted(p)[..p.rendered + 1])
               == RequestData(Emitted(p)[..p.rendered]) + (if ev.name == "request" then [ev.data] else [])
            && (ev.name == "request" ==> p.consumed < |p.written| && ev.data == p.sent[p.written[p.consumed]])
  {
    EmittedIs(p);
    RequestDataNext(Emitted(p), p.rendered);
    var ev := Emitted(p)[p.rendered];
    if ev.name == "request" {
      LastOfPrefix(RequestData(Emitted(p)[..p.rendered]), ev.data, RequestData(Emitted(p)), RequestsOf(p.frames));
    }
  }

  lemma LastOfPrefix<T>(head: seq<T>, x: T, middle: seq<T>, whole: seq<T>)
    requires head + [x] <= middle <= whole
    ensures |head| < |whole| && whole[|head|] == x
  {
    assert (head + [x])[|head|] == x;
  }

  lemma EmittedOnlyReadsTheWire(p: Path, q: Path)
    requires p.frames == q.frames && p.read == q.read
    ensures Emitted(p) == Emitted(q)
  {
  }

  // Frames written later, and characters received later, only add events.
  lemma EmittedWithMoreFrames(p: Path, f: Frame)
    requires p.read <= |Text(p.frames)|
    ensures p.read <= |Text(p.frames + [f])|
    ensures Emitted(p.(frames := p.frames + [f])) == Emitted(p)
  {
    TextSnoc(p.frames, f);
    TakeWithin(Text(p.frames), Render(f), p.read);
  }

  lemma {:induction false} TextSnoc(frames: seq<Frame>, f: Frame)
    ensures Text(frames + [f]) == Text(frames) + Render(f)
    decreases frames
  {
    if frames == [] {
      assert frames + [f] == [f] && [f][1..] == [];
      assert Text([f]) == Render(f) + "";
    } else {
      assert (frames + [f])[1..] == frames[1..] + [f];
      TextSnoc(frames[1..], f);
    }
  }

  lemma EmittedGrows(p: Path, upTo: nat)
    requires WireOk(p) && p.read <= upTo <= |Text(p.frames)|
    ensures Emitted(p) <= Emitted(p.(read := upTo))
  {
    DeliveredAtAnyCut(p.frames, p.read);
    DeliveredAtAnyCut(p.frames, upTo);
    WholeGrows(p.frames, p.read, upTo);
    EventsPrefix(p.frames, Whole(p.frames, p.read), Whole(p.frames, upTo));
  }

  // ----- Each move keeps the invariant -----

  // Moving the boundary between two places moves no request.
  lemma SameOrderAccounted(p: Path, q: Path)
    requires p.consumed <= |p.written| && q.consumed <= |q.written| && Accounted(p)
    requires InOrder(q) == InOrder(p) && q.sent == p.sent
    requires q.tooSlow == p.tooSlow && q.queueFull == p.queueFull
    ensures Accounted(q)
  {
  }

  lemma ShiftOut(attempted: seq<Item>, queue: seq<Item>)
    requires queue != []
    ensures Indices(attempted + [queue[0]]) + Indices(queue[1..]) == Indices(attempted) + Indices(queue)
  {
  }

  lemma AfterForward(p: Path)
    requires Inv(p)
    ensures Inv(Forwarding(p))
  {
    if p.queue != [] {
      var q := Forwarding(p);
      EmittedOnlyReadsTheWire(p, q);
      assert Accounted(q) by {
        ShiftOut(p.attempted, p.queue);
        SameOrderAccounted(p, q);
      }
      assert Carries(q.attempted, q.sent) && Carries(q.queue, q.sent);
    }
  }

  lemma AfterKeepalive(p: Path)
    requires Inv(p)
    ensures Inv(p.(frames := p.frames + [Keepalive]))
  {
    var q := p.(frames := p.frames + [Keepalive]);
    EmittedWithMoreFrames(p, Keepalive);
    assert q.frames[..|p.frames|] == p.frames;
    SameOrderAccounted(p, q);
  }

  lemma RequestsSnoc(frames: seq<Frame>, f: Frame)
    ensures RequestsOf(frames + [f]) == RequestsOf(frames) + (if f.Request? then [f.payload] else [])
  {
    assert (frames + [f])[..|frames|] == frames;
  }

  lemma WrittenAfterWrite(p: Path)
    requires Inv(p) && p.buffer != []
    ensures var q := Writing(p);
            && |RequestsOf(q.frames)| == |q.written|
            && forall i :: 0 <= i < |q.written| ==>
                q.written[i] < |q.sent| && RequestsOf(q.frames)[i] == q.sent[q.written[i]]
  {
    RequestsSnoc(p.frames, Request(p.buffer[0].data));
  }

  // The frames written stay those of the broadcasts in `written`.
  lemma WireAfterWrite(p: Path)
    requires Inv(p) && p.buffer != []
    ensures WireOk(Writing(p))
  {
    var item := p.buffer[0];
    EmittedWithMoreFrames(p, Request(item.data));
    WrittenAfterWrite(p);
    assert AllClean(Writing(p).frames) by {
      assert Clean(p.sent[item.index]);
      assert CleanFrame(Request(item.data));
    }
  }

  // The oldest buffered request becomes the newest on the wire.
  lemma ShiftIntoTheWire(a: seq<nat>, b: seq<nat>, written: seq<nat>, consumed: nat, buffer: seq<Item>)
    requires consumed <= |written| && buffer != []
    ensures a + b + (written + [buffer[0].index])[consumed..] + Indices(buffer[1..])
            == a + b + written[consumed..] + Indices(buffer)
  {
    assert (written + [buffer[0].index])[consumed..] == written[consumed..] + [buffer[0].index];
    assert Indices(buffer) == [buffer[0].index] + Indices(buffer[1..]);
    var before, one, more := a + b + written[consumed..], [buffer[0].index], Indices(buffer[1..]);
    assert a + b + (written[consumed..] + one) == before + one;
    assert (before + one) + more == before + (one + more);
  }

  lemma AfterWrite(p: Path)
    requires Inv(p)
    ensures Inv(Writing(p))
  {
    if p.buffer != [] {
      var q := Writing(p);
      WireAfterWrite(p);
      assert RenderedOk(q) by {
        EmittedWithMoreFrames(p, Request(p.buffer[0].data));
        EmittedOnlyReadsTheWire(q, p.(frames := q.frames));
      }
      assert Accounted(q) by {
        ShiftIntoTheWire(Indices(p.attempted), Indices(p.queue), p.written, p.consumed, p.buffer);
        SameOrderAccounted(p, q);
      }
      assert Carries(q.buffer, q.sent);
    }
  }

  lemma AfterReceive(p: Path, upTo: nat)
    requires Inv(p)
    ensures Inv(Receiving(p, upTo))
  {
    if p.read <= upTo <= |Text(p.frames)| {
      var q := Receiving(p, upTo);
      EmittedGrows(p, upTo);
      assert Emitted(q)[..p.rendered] == Emitted(p)[..p.rendered];
      SameOrderAccounted(p, q);
    }
  }

  lemma NewestIsLast(order: seq<nat>, slow: set<nat>, full: set<nat>, n: nat)
    requires OnePlaceEach(order, slow, full, n)
    ensures OnePlaceEach(order + [n], slow, full, n + 1)
    ensures OnePlaceEach(order, slow + {n}, full, n + 1)
  {
    assert forall i: nat :: i in order ==> i < n;
    forall i, j | 0 <= i < j < |order + [n]| ensures (order + [n])[i] < (order + [n])[j] {
      assert (order + [n])[i] in order;
    }
    assert forall i: nat :: i in order + [n] <==> i in order || i == n;
  }

  lemma TakenOut(a: seq<nat>, x: nat, b: seq<nat>, slow: set<nat>, full: set<nat>, n: nat)
    requires OnePlaceEach(a + [x] + b, slow, full, n)
    ensures OnePlaceEach(a + b, slow, full + {x}, n)
  {
    var order := a + [x] + b;
    assert x == order[|a|] && x in order;
    forall i | 0 <= i < |a + b|
      ensures (a + b)[i] == order[if i < |a| then i else i + 1]
    {
    }
    assert forall i: nat :: i in order <==> i in a + b || i == x;
    assert x !in a + b;
  }

  lemma AccountedAfterBroadcast(p: Path, payload: string)
    requires p.consumed <= |p.written| && Accounted(p)
    ensures Accounted(Broadcasting(p, p.session, payload))
  {
    var q := Broadcasting(p, p.session, payload);
    var n := |p.sent|;
    NewestIsLast(InOrder(p), p.tooSlow, p.queueFull, n);
    if HasRoom(p.buffer, CLIENT_BUFFER) {
      assert Indices(q.buffer) == Indices(p.buffer) + [n];
      assert InOrder(q) == InOrder(p) + [n];
    } else {
      assert InOrder(q) == InOrder(p);
    }
  }

  lemma AfterBroadcast(p: Path, session: string, payload: string)
    requires Inv(p) && (session == p.session ==> Clean(payload))
    ensures Inv(Broadcasting(p, session, payload))
  {
    if session == p.session {
      var q := Broadcasting(p, session, payload);
      assert q.sent[..|p.sent|] == p.sent;
      EmittedOnlyReadsTheWire(p, q);
      AccountedAfterBroadcast(p, payload);
      assert Carries(q.buffer, q.sent) && Carries(q.queue, q.sent) && Carries(q.attempted, q.sent);
    }
  }

  // The request that the renderer takes is the oldest one on the wire.
  lemma OrderAround(p: Path)
    requires p.consumed < |p.written|
    ensures InOrder(p) == (Indices(p.attempted) + Indices(p.queue)) + [p.written[p.consumed]]
                          + (p.written[p.consumed + 1..] + Indices(p.buffer))
  {
    assert p.written[p.consumed..] == [p.written[p.consumed]] + p.written[p.consumed + 1..];
  }

  lemma OtherEventRendered(p: Path)
    requires Inv(p) && p.rendered < |Emitted(p)| && Rendering(p).consumed == p.consumed
    ensures Accounted(Rendering(p))
  {
    SameOrderAccounted(p, Rendering(p));
  }

  lemma RequestRendered(p: Path, data: string)
    requires p.consumed < |p.written| && Accounted(p)
    ensures Accounted(Taking(p, data))
  {
    var q := Taking(p, data);
    var x := p.written[p.consumed];
    var a, b := Indices(p.attempted) + Indices(p.queue), p.written[p.consumed + 1..] + Indices(p.buffer);
    OrderAround(p);
    TakenOut(a, x, b, p.tooSlow, p.queueFull, |p.sent|);
    if HasRoom(p.queue, FORWARD_QUEUE) {
      assert Indices(q.queue) == Indices(p.queue) + [x];
      assert InOrder(q) == a + [x] + b;
    } else {
      assert InOrder(q) == a + b;
    }
  }

  lemma RenderedAccounted(p: Path)
    requires Inv(p) && p.rendered < |Emitted(p)|
    ensures Rendering(p).consumed <= |p.written| && Accounted(Rendering(p))
  {
    if Rendering(p).consumed == p.consumed {
      OtherEventRendered(p);
    } else {
      RequestRendered(p, Emitted(p)[p.rendered].data);
    }
  }

  lemma RenderedQueue(p: Path)
    requires Inv(p) && p.rendered < |Emitted(p)|
    ensures var q := Rendering(p);
            WireOk(q) && RenderedOk(q) && Carries(q.queue, q.sent) && |q.queue| <= FORWARD_QUEUE
  {
    NextRequest(p);
    EmittedOnlyReadsTheWire(p, Rendering(p));
  }

  lemma AfterRender(p: Path)
    requires Inv(p)
    ensures Inv(Rendering(p))
  {
    if p.rendered < |Emitted(p)| {
      RenderedAccounted(p);
      RenderedQueue(p);
    }
  }

  lemma NextKeepsInv(p: Path, m: Move)
    requires Inv(p) && (m.Broadcast? ==> Clean(m.payload))
    ensures Inv(Next(p, m))
  {
    match m
    case Broadcast(session, payload) => AfterBroadcast(p, session, payload);
    case WriteNext => AfterWrite(p);
    case WriteKeepalive => AfterKeepalive(p);
    case Receive(upTo) => AfterReceive(p, upTo);
    case RenderNext => AfterRender(p);
    case ForwardNext => AfterForward(p);
  }

  lemma ConnectedInv(session: string)
    requires CleanFrame(Connected(session))
    ensures Inv(Connect(session))
  {
    var p := Connect(session);
    assert [Connected(session)][..0] == [];
    assert InOrder(p) == [];
    assert Emitted(p)[..0] == [];
  }

  lemma SentAfter(p: Path, m: Move)
    ensures Next(p, m).session == p.session
    ensures Next(p, m).sent == p.sent + (if m.Broadcast? && m.session == p.session then [m.payload] else [])
  {
    assert p.sent + [] == p.sent;
  }

  lemma {:induction false} SentAlongTheRun(session: string, moves: seq<Move>)
    ensures Run(Connect(session), moves).session == session
    ensures Run(Connect(session), moves).sent == BroadcastsTo(session, moves)
    decreases |moves|
  {
    if moves != [] {
      var before := moves[..|moves| - 1];
      SentAlongTheRun(session, before);
      SentAfter(Run(Connect(session), before), moves[|moves| - 1]);
    }
  }

  lemma {:induction false} InvAlongTheRun(session: string, moves: seq<Move>)
    requires CleanFrame(Connected(session)) && CleanPayloads(moves)
    ensures Inv(Run(Connect(session), moves))
    decreases |moves|
  {
    if moves == [] {
      ConnectedInv(session);
    } else {
      var before := moves[..|moves| - 1];
      InvAlongTheRun(session, before);
      NextKeepsInv(Run(Connect(session), before), moves[|moves| - 1]);
    }
  }

  // ----- The results -----

  // Forwarded requests are broadcasts of this session, in broadcast order, each once.
  lemma ForwardedInOrder(session: string, moves: seq<Move>)
    requires CleanFrame(Connected(session)) && CleanPayloads(moves)
    ensures var p := Run(Connect(session), moves);
            var sent := BroadcastsTo(session, moves);
            && (forall i :: 0 <= i < |p.attempted| ==>
                  p.attempted[i].index < |sent| && p.attempted[i].data == sent[p.attempted[i].index])
            && (forall i, j :: 0 <= i < j < |p.attempted| ==> p.attempted[i].index < p.attempted[j].index)
  {
    InvAlongTheRun(session, moves);
    SentAlongTheRun(session, moves);
    var p := Run(Connect(session), moves);
    assert Indices(p.attempted) <= InOrder(p);
    forall i, j | 0 <= i < j < |p.attempted| ensures p.attempted[i].index < p.attempted[j].index {
      assert InOrder(p)[i] == p.attempted[i].index && InOrder(p)[j] == p.attempted[j].index;
    }
  }

  // Conservation: every broadcast of the session is in exactly one place, which
  // is forwarded, queued, on its way, buffered, dropped at a full buffer
  // or dropped at a full queue.
  lemma EveryBroadcastHasOnePlace(session: string, moves: seq<Move>)
    requires CleanFrame(Connected(session)) && CleanPayloads(moves)
    ensures var p := Run(Connect(session), moves);
            && p.consumed <= |p.written|
            && OnePlaceEach(InOrder(p), p.tooSlow, p.queueFull, |BroadcastsTo(session, moves)|)
  {
    InvAlongTheRun(session, moves);
    SentAlongTheRun(session, moves);
  }

  // The k-th move finds the buffer full and is the i-th broadcast to the session.
  ghost predicate FoundBufferFull(session: string, moves: seq<Move>, k: nat, i: nat) {
    && k < |moves|
    && moves[k].Broadcast? && moves[k].session == session
    && |BroadcastsTo(session, moves[..k])| == i
    && |Run(Connect(session), moves[..k]).buffer| == 32
  }

  // The move takes a request event to the forward queue.
  predicate Enqueues(p: Path, m: Move) {
    && m == RenderNext && p.rendered < |Emitted(p)|
    && Emitted(p)[p.rendered].name == "request" && p.consumed < |p.written|
  }

  // The k-th move takes the i-th broadcast to the queue and finds it full.
  ghost predicate FoundQueueFull(session: string, moves: seq<Move>, k: nat, i: nat) {
    && k < |moves|
    && var p := Run(Connect(session), moves[..k]);
       Enqueues(p, moves[k]) && p.written[p.consumed] == i && |p.queue| == 100
  }

  // What one move loses.
  lemma TooSlowAfter(p: Path, m: Move)
    requires |p.buffer| <= CLIENT_BUFFER
    ensures Next(p, m).tooSlow
            == p.tooSlow + (if m.Broadcast? && m.session == p.session && |p.buffer| == CLIENT_BUFFER then {|p.sent|}
                else {})
  {
  }

  lemma QueueFullAfter(p: Path, m: Move)
    requires |p.queue| <= FORWARD_QUEUE
    ensures Next(p, m).queueFull
            == p.queueFull + (if Enqueues(p, m) && |p.queue| == FORWARD_QUEUE then {p.written[p.consumed]} else {})
  {
  }

  lemma BufferFullLater(session: string, moves: seq<Move>, m: Move, k: nat, i: nat)
    requires FoundBufferFull(session, moves, k, i)
    ensures FoundBufferFull(session, moves + [m], k, i)
  {
    assert (moves + [m])[..k] == moves[..k];
  }

  // A broadcast is dropped by the server exactly when all 32 slots are taken.
  lemma {:induction false} DroppedExactlyWhenFull(session: string, moves: seq<Move>, i: nat)
    requires CleanFrame(Connected(session)) && CleanPayloads(moves)
    ensures i in Run(Connect(session), moves).tooSlow <==> exists k: nat :: FoundBufferFull(session, moves, k, i)
    decreases |moves|
  {
    if moves != [] {
      var before, last := moves[..|moves| - 1], moves[|moves| - 1];
      assert moves == before + [last];
      var p := Run(Connect(session), before);
      InvAlongTheRun(session, before);
      SentAlongTheRun(session, before);
      TooSlowAfter(p, last);
      DroppedExactlyWhenFull(session, before, i);
      if k: nat :| FoundBufferFull(session, before, k, i) {
        BufferFullLater(session, before, last, k, i);
      }
      if k: nat :| FoundBufferFull(session, moves, k, i) {
        if k < |before| {
          assert moves[..k] == before[..k];
          assert FoundBufferFull(session, before, k, i);
        }
      }
      if i in Run(Connect(session), moves).tooSlow && i !in p.tooSlow {
        assert FoundBufferFull(session, moves, |before|, i);
      }
    }
  }

  lemma QueueFullLater(session: string, moves: seq<Move>, m: Move, k: nat, i: nat)
    requires k < |moves|
    ensures FoundQueueFull(session, moves + [m], k, i) <==> FoundQueueFull(session, moves, k, i)
  {
    assert (moves + [m])[..k] == moves[..k];
  }

  // The CLI drops a request exactly when 100 others are waiting.
  lemma {:induction false} QueueDropsExactlyWhenFull(session: string, moves: seq<Move>, i: nat)
    requires CleanFrame(Connected(session)) && CleanPayloads(moves)
    ensures i in Run(Connect(session), moves).queueFull <==> exists k: nat :: FoundQueueFull(session, moves, k, i)
    decreases |moves|
  {
    if moves != [] {
      var before, last := moves[..|moves| - 1], moves[|moves| - 1];
      assert moves == before + [last];
      var p := Run(Connect(session), before);
      assert |p.queue| <= FORWARD_QUEUE by {
        InvAlongTheRun(session, before);
      }
      QueueFullAfter(p, last);
      QueueDropsExactlyWhenFull(session, before, i);
      forall k: nat | k < |before|
        ensures FoundQueueFull(session, moves, k, i) <==> FoundQueueFull(session, before, k, i)
      {
        QueueFullLater(session, before, last, k, i);
      }
      assert FoundQueueFull(session, moves, |before|, i) <==>
             Enqueues(p, last) && p.written[p.consumed] == i && |p.queue| == FORWARD_QUEUE;
    }
  }

  // With no losses, once everything is drained, every broadcast was forwarded.
  lemma DrainedMeansForwarded(session: string, moves: seq<Move>)
    requires CleanFrame(Connected(session)) && CleanPayloads(moves)
    requires var p := Run(Connect(session), moves);
             && p.buffer == [] && p.queue == [] && p.consumed == |p.written|
             && p.tooSlow == {} && p.queueFull == {}
    ensures var p := Run(Connect(session), moves);
            Data(p.attempted) == BroadcastsTo(session, moves)
  {
    var p := Run(Connect(session), moves);
    EveryBroadcastHasOnePlace(session, moves);
    ForwardedInOrder(session, moves);
    var sent := BroadcastsTo(session, moves);
    assert InOrder(p) == Indices(p.attempted);
    AllInOrder(Indices(p.attempted), |sent|);
    assert forall i :: 0 <= i < |p.attempted| ==> p.attempted[i].index == Indices(p.attempted)[i];
  }

  function Data(items: seq<Item>): seq<string> {
    seq(|items|, i requires 0 <= i < |items| => items[i].data)
  }

  // An increasing sequence holding exactly 0 to n - 1 is 0, 1, ... n - 1.
  lemma {:induction false} AllInOrder(s: seq<nat>, n: nat)
    requires Increasing(s) && forall i: nat :: i < n <==> i in s
    ensures |s| == n && forall i :: 0 <= i < n ==> s[i] == i
  {
    forall k | 0 <= k < |s| ensures s[k] < n {
      assert s[k] in s;
    }
    if n > 0 {
      var last: nat := n - 1;
      assert last in s by {
        assert last < n;
      }
      var k :| 0 <= k < |s| && s[k] == last;
      assert k == |s| - 1 by {
        assert s[|s| - 1] < n;
      }
      var t := s[..k];
      assert s == t + [last];
      forall i: nat ensures i < last <==> i in t {
        if i in t {
          var j :| 0 <= j < |t| && t[j] == i;
          assert s[j] < s[k];
        }
        if i < last {
          assert i in s;
        }
      }
      AllInOrder(t, last);
    }
  }
}
