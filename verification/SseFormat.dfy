/** The frames the server writes on an event stream, and the line parser of the
    client: sections 9.2.5 and 9.2.6 of the WHATWG HTML Living Standard, as far
    as the two programs implement them. */
module SseFormat {
  import opened Core

  // ----- The server's frames -----

  datatype Frame = Connected(sessionID: string) | Request(payload: string) | Keepalive

  function Greeting(sessionID: string): string {
    "{\"session_id\":\"" + sessionID + "\"}"
  }

  function Render(f: Frame): string {
    match f
    case Connected(id) => "event: connected\ndata: " + Greeting(id) + "\n\n"
    case Request(payload) => "event: request\ndata: " + payload + "\n\n"
    case Keepalive => ": keepalive\n\n"
  }

  function Text(frames: seq<Frame>): string {
    if frames == [] then "" else Render(frames[0]) + Text(frames[1..])
  }

  // ----- The client's scanner -----

  const MAX_LINE: int := 16 * 1024 * 1024

  function ByteLength(s: string): nat {
    if s == [] then 0
    else
      var c := s[0] as int;
      (if c < 0x80 then 1 else if c < 0x800 then 2 else if c < 0x1_0000 then 3 else 4) + ByteLength(s[1..])
  }

  // A line and its end must fit the scanner's buffer.
  predicate Fits(line: string) {
    ByteLength(line) + 1 <= MAX_LINE
  }

  function DropCR(line: string): string {
    if line != [] && line[|line| - 1] == '\r' then line[..|line| - 1] else line
  }

  // Where the first line of a text ends, or its length.
  function LineEnd(text: string): (n: nat)
    ensures n <= |text| && '\n' !in text[..n] && (n < |text| ==> text[n] == '\n')
  {
    if text == [] || text[0] == '\n' then 0
    else
      var n := LineEnd(text[1..]);
      assert text[..n + 1] == [text[0]] + text[1..][..n];
      n + 1
  }

  // The lines that are complete in what has arrived; the scanner stops at a
  // line that does not fit.
  function CompleteLines(text: string): seq<string> {
    var n := LineEnd(text);
    if n == |text| || !Fits(text[..n]) then [] else [DropCR(text[..n])] + CompleteLines(text[n + 1..])
  }

  // All lines once the stream has ended: an unterminated last line counts too.
  function Lines(text: string): seq<string> {
    var n := LineEnd(text);
    if !Fits(text[..n]) then []
    else if n == |text| then (if text == [] then [] else [DropCR(text)])
    else [DropCR(text[..n])] + Lines(text[n + 1..])
  }

  // ----- The client's parser -----

  datatype Event = Event(name: string, data: string)

  datatype Parser = Parser(name: string, data: string, events: seq<Event>)

  const START := Parser("", "", [])

  function Feed(p: Parser, line: string): Parser {
    if line == "" then
      if p.name != "" || p.data != "" then Parser("", "", p.events + [Event(p.name, p.data)]) else p
    else if line[0] == ':' then p
    else if HasPrefix(line, "event:") then p.(name := TrimSpace(line[6..]))
    else if HasPrefix(line, "data:") then
      p.(data := (if p.data != "" then p.data + "\n" else p.data) + TrimSpace(line[5..]))
    else p
  }

  function FeedAll(p: Parser, lines: seq<string>): Parser
    decreases lines
  {
    if lines == [] then p else FeedAll(Feed(p, lines[0]), lines[1..])
  }

  // What the client has delivered when `text` has arrived and more may come.
  function Delivered(text: string): seq<Event> {
    FeedAll(START, CompleteLines(text)).events
  }

  // The parse loop of Stream, over a stream that ends after `text`.
  method Stream(text: string) returns (events: seq<Event>)
    ensures events == FeedAll(START, Lines(text)).events
  {
    events := [];
    var eventName, data := "", "";
    var rest := text;
    while rest != []
      invariant FeedAll(START, Lines(text)) == FeedAll(Parser(eventName, data, events), Lines(rest))
      decreases |rest|
    {
      var n := LineEnd(rest);
      if !Fits(rest[..n]) {
        break;
      }
      var line := DropCR(rest[..n]);
      ghost var before := Parser(eventName, data, events);
      if |line| == 0 {
        if eventName != "" || data != "" {
          events := events + [Event(eventName, data)];
          eventName := "";
          data := "";
        }
      } else if line[0] == ':' {
      } else if HasPrefix(line, "event:") {
        eventName := TrimSpace(line[6..]);
      } else if HasPrefix(line, "data:") {
        if data != "" {
          data := data + "\n";
        }
        data := data + TrimSpace(line[5..]);
      }
      assert Parser(eventName, data, events) == Feed(before, line);
      if n == |rest| {
        assert rest[..n] == rest;
        assert Lines(rest) == [line];
        rest := [];
      } else {
        assert Lines(rest) == [line] + Lines(rest[n + 1..]);
        rest := rest[n + 1..];
      }
    }
  }

  // ----- Round trip -----

  // No line breaks and no outer whitespace, and short enough for the scanner.
  predicate Clean(payload: string) {
    '\n' !in payload && '\r' !in payload && Trimmed(payload) && ByteLength(payload) + 7 <= MAX_LINE
  }

  predicate CleanFrame(f: Frame) {
    match f
    case Connected(id) => Clean(Greeting(id))
    case Request(payload) => Clean(payload)
    case Keepalive => true
  }

  ghost predicate AllClean(frames: seq<Frame>) {
    forall i :: 0 <= i < |frames| ==> CleanFrame(frames[i])
  }

  // The events a reader of the frames ought to see.
  function Seen(f: Frame): seq<Event> {
    match f
    case Connected(id) => [Event("connected", Greeting(id))]
    case Request(payload) => [Event("request", payload)]
    case Keepalive => []
  }

  function Events(frames: seq<Frame>): seq<Event> {
    if frames == [] then [] else Seen(frames[0]) + Events(frames[1..])
  }

  function FrameLines(f: Frame): seq<string> {
    match f
    case Connected(id) => ["event: connected", "data: " + Greeting(id), ""]
    case Request(payload) => ["event: request", "data: " + payload, ""]
    case Keepalive => [": keepalive", ""]
  }

  // Lines as they go over the wire, and what follows them.
  function Wire(lines: seq<string>, rest: string): string {
    if lines == [] then rest else lines[0] + "\n" + Wire(lines[1..], rest)
  }

  lemma WireOfThree(a: string, b: string, rest: string)
    ensures Wire([a, b, ""], rest) == a + "\n" + b + "\n\n" + rest
  {
    assert [a, b, ""][1..] == [b, ""] && [b, ""][1..] == [""] && [""][1..] == [];
    assert Wire([""], rest) == "\n" + rest;
    assert Wire([b, ""], rest) == b + "\n" + ("\n" + rest);
  }

  lemma TwoLines(head: string, first: string, field: string, data: string)
    requires head == first + "\n" + field
    ensures head + data + "\n\n" == first + "\n" + (field + data) + "\n\n"
  {
  }

  lemma ConnectedText(id: string)
    ensures Render(Connected(id)) == "event: connected" + "\n" + ("data: " + Greeting(id)) + "\n\n"
  {
    assert "event: connected\ndata: " == "event: connected" + "\n" + "data: ";
    TwoLines("event: connected\ndata: ", "event: connected", "data: ", Greeting(id));
  }

  lemma RequestText(payload: string)
    ensures Render(Request(payload)) == "event: request" + "\n" + ("data: " + payload) + "\n\n"
  {
    assert "event: request\ndata: " == "event: request" + "\n" + "data: ";
    TwoLines("event: request\ndata: ", "event: request", "data: ", payload);
  }

  lemma KeepaliveText(rest: string)
    ensures Render(Keepalive) + rest == Wire(FrameLines(Keepalive), rest)
  {
    assert [": keepalive", ""][1..] == [""] && [""][1..] == [];
    assert Wire([""], rest) == "\n" + rest;
  }

  lemma RenderedLines(f: Frame, rest: string)
    ensures Render(f) + rest == Wire(FrameLines(f), rest)
  {
    match f
    case Connected(id) =>
      ConnectedText(id);
      WireOfThree("event: connected", "data: " + Greeting(id), rest);
    case Request(payload) =>
      RequestText(payload);
      WireOfThree("event: request", "data: " + payload, rest);
    case Keepalive => KeepaliveText(rest);
  }

  // A line that survives the scanner as it is.
  predicate Plain(line: string) {
    '\n' !in line && '\r' !in line && Fits(line)
  }

  lemma {:induction false} LineEndIs(line: string, rest: string)
    requires '\n' !in line
    ensures LineEnd(line + "\n" + rest) == |line|
  {
    if line == [] {
    } else {
      assert (line + "\n" + rest)[1..] == line[1..] + "\n" + rest;
      LineEndIs(line[1..], rest);
    }
  }

  lemma OneLine(line: string, rest: string)
    requires Plain(line)
    ensures CompleteLines(line + "\n" + rest) == [line] + CompleteLines(rest)
    ensures Lines(line + "\n" + rest) == [line] + Lines(rest)
  {
    var text := line + "\n" + rest;
    LineEndIs(line, rest);
    assert text[..|line|] == line && text[|line| + 1..] == rest;
  }

  predicate AllPlain(lines: seq<string>) {
    lines != [] ==> Plain(lines[0]) && AllPlain(lines[1..])
  }

  lemma Prepend(lines: seq<string>, more: seq<string>, whole: seq<string>)
    requires lines != [] && whole == [lines[0]] + (lines[1..] + more)
    ensures whole == lines + more
  {
  }

  lemma {:induction false} ManyComplete(lines: seq<string>, rest: string)
    requires AllPlain(lines)
    ensures CompleteLines(Wire(lines, rest)) == lines + CompleteLines(rest)
    decreases lines
  {
    if lines != [] {
      var more := Wire(lines[1..], rest);
      ManyComplete(lines[1..], rest);
      OneLine(lines[0], more);
      Prepend(lines, CompleteLines(rest), CompleteLines(lines[0] + "\n" + more));
    }
  }

  lemma {:induction false} ManyLines(lines: seq<string>, rest: string)
    requires AllPlain(lines)
    ensures Lines(Wire(lines, rest)) == lines + Lines(rest)
    decreases lines
  {
    if lines != [] {
      var more := Wire(lines[1..], rest);
      ManyLines(lines[1..], rest);
      OneLine(lines[0], more);
      Prepend(lines, Lines(rest), Lines(lines[0] + "\n" + more));
    }
  }

  lemma {:induction false} ByteLengthConcat(a: string, b: string)
    ensures ByteLength(a + b) == ByteLength(a) + ByteLength(b)
  {
    if a == [] {
      assert a + b == b;
    } else {
      assert (a + b)[1..] == a[1..] + b;
      ByteLengthConcat(a[1..], b);
    }
  }

  lemma DataLineIsPlain(payload: string)
    requires Clean(payload)
    ensures Plain("data: " + payload)
  {
    ByteLengthConcat("data: ", payload);
    assert ByteLength("data: ") == 6 by {
      assert "data: "[1..] == "ata: " && "ata: "[1..] == "ta: " && "ta: "[1..] == "a: " && "a: "[1..] == ": "
          && ": "[1..] == " ";
      assert " "[1..] == "";
    }
  }

  lemma {:induction false} Short(line: string)
    ensures ByteLength(line) <= 4 * |line|
  {
    if line != [] {
      Short(line[1..]);
    }
  }

  lemma PlainWhenShort(line: string)
    requires '\n' !in line && '\r' !in line && |line| <= 100
    ensures Plain(line)
  {
    Short(line);
  }

  lemma ThreePlain(a: string, b: string)
    requires Plain(a) && Plain(b) && Plain("")
    ensures AllPlain([a, b, ""])
  {
    assert [a, b, ""][1..] == [b, ""] && [b, ""][1..] == [""] && [""][1..] == [];
    assert AllPlain([""]) && AllPlain([b, ""]);
  }

  lemma ConnectedIsPlain()
    ensures Plain("event: connected")
  {
    PlainWhenShort("event: connected");
  }

  lemma RequestIsPlain()
    ensures Plain("event: request")
  {
    PlainWhenShort("event: request");
  }

  lemma KeepaliveIsPlain()
    ensures Plain(": keepalive")
  {
    PlainWhenShort(": keepalive");
  }

  lemma BlankIsPlain()
    ensures Plain("")
  {
    PlainWhenShort("");
  }

  lemma TwoPlain(a: string)
    requires Plain(a) && Plain("")
    ensures AllPlain([a, ""])
  {
    assert [a, ""][1..] == [""] && [""][1..] == [];
    assert AllPlain([""]);
  }

  lemma FrameLinesArePlain(f: Frame)
    requires CleanFrame(f)
    ensures AllPlain(FrameLines(f))
  {
    KeepaliveIsPlain();
    BlankIsPlain();
    match f
    case Connected(id) =>
      ConnectedIsPlain();
      DataLineIsPlain(Greeting(id));
      ThreePlain("event: connected", "data: " + Greeting(id));
    case Request(payload) =>
      RequestIsPlain();
      DataLineIsPlain(payload);
      ThreePlain("event: request", "data: " + payload);
    case Keepalive =>
      TwoPlain(": keepalive");
  }

  // Two runs of the parser in a row.
  lemma {:induction false} FeedConcat(p: Parser, one: seq<string>, two: seq<string>)
    ensures FeedAll(p, one + two) == FeedAll(FeedAll(p, one), two)
    decreases one
  {
    if one == [] {
      assert one + two == two;
    } else {
      assert (one + two)[1..] == one[1..] + two;
      FeedConcat(Feed(p, one[0]), one[1..], two);
    }
  }

  lemma TrimAfterSpace(s: string)
    requires TrimSpace(s) == s
    ensures TrimSpace(" " + s) == s
  {
    assert (" " + s)[1..] == s;
  }

  lemma EventLineFeeds(p: Parser, name: string)
    requires TrimSpace(name) == name
    ensures Feed(p, "event: " + name) == p.(name := name)
  {
    var line := "event: " + name;
    assert line[..6] == "event:" && line[6..] == " " + name;
    TrimAfterSpace(name);
  }

  lemma DataLineFeeds(p: Parser, data: string)
    requires TrimSpace(data) == data && p.data == ""
    ensures Feed(p, "data: " + data) == p.(data := data)
  {
    DataLine(data);
    TrimAfterSpace(data);
    assert "" + data == data;
  }

  lemma DataLine(data: string)
    ensures var line := "data: " + data;
            && line != "" && line[0] != ':'
            && !HasPrefix(line, "event:") && HasPrefix(line, "data:")
            && line[|"data:"|..] == " " + data
  {
    var line := "data: " + data;
    assert line[..5] == "data:" && line[5..] == " " + data;
    assert line[0] != "event:"[0];
  }

  lemma ThreeFeeds(p: Parser, a: string, b: string)
    ensures FeedAll(p, [a, b, ""]) == Feed(Feed(Feed(p, a), b), "")
  {
    assert [a, b, ""][1..] == [b, ""] && [b, ""][1..] == [""] && [""][1..] == [];
    var p1, p2 := Feed(p, a), Feed(Feed(p, a), b);
    assert FeedAll(p2, [""]) == Feed(p2, "");
    assert FeedAll(p1, [b, ""]) == FeedAll(p2, [""]);
  }

  lemma NamesAreTrimmed()
    ensures Trimmed("connected") && Trimmed("request")
  {
    TrimmedWhenSolid("connected");
    TrimmedWhenSolid("request");
  }

  function Between(events: seq<Event>): Parser {
    Parser("", "", events)
  }

  lemma TwoFieldsFeed(name: string, data: string, events: seq<Event>)
    requires name != "" && Trimmed(name) && Trimmed(data)
    ensures FeedAll(Between(events), ["event: " + name, "data: " + data, ""]) == Between(events + [Event(name, data)])
  {
    ThreeFeeds(Between(events), "event: " + name, "data: " + data);
    EventLineFeeds(Between(events), name);
    DataLineFeeds(Parser(name, "", events), data);
  }

  lemma KeepaliveFeeds(events: seq<Event>)
    ensures FeedAll(Between(events), FrameLines(Keepalive)) == Between(events)
  {
    assert [": keepalive", ""][1..] == [""] && [""][1..] == [];
    assert Feed(Between(events), ": keepalive") == Between(events);
  }

  lemma ConnectedLines(id: string, name: string)
    requires name == "connected"
    ensures FrameLines(Connected(id)) == ["event: " + name, "data: " + Greeting(id), ""]
  {
    assert "event: " + name == "event: connected";
  }

  lemma RequestLines(payload: string, name: string)
    requires name == "request"
    ensures FrameLines(Request(payload)) == ["event: " + name, "data: " + payload, ""]
  {
    assert "event: " + name == "event: request";
  }

  // One frame, fed to a parser with nothing pending.
  lemma FrameFeeds(f: Frame, events: seq<Event>)
    requires CleanFrame(f)
    ensures FeedAll(Between(events), FrameLines(f)) == Between(events + Seen(f))
  {
    NamesAreTrimmed();
    match f
    case Connected(id) =>
      ConnectedLines(id, "connected");
      TwoFieldsFeed("connected", Greeting(id), events);
    case Request(payload) =>
      RequestLines(payload, "request");
      TwoFieldsFeed("request", payload, events);
    case Keepalive =>
      KeepaliveFeeds(events);
      assert events + [] == events;
  }

  lemma FrameThenRest(f: Frame, rest: string, events: seq<Event>)
    requires CleanFrame(f)
    ensures FeedAll(Between(events), CompleteLines(Render(f) + rest))
        == FeedAll(Between(events + Seen(f)), CompleteLines(rest))
    ensures FeedAll(Between(events), Lines(Render(f) + rest)) == FeedAll(Between(events + Seen(f)), Lines(rest))
  {
    RenderedLines(f, rest);
    FrameLinesArePlain(f);
    ManyComplete(FrameLines(f), rest);
    ManyLines(FrameLines(f), rest);
    FeedConcat(Between(events), FrameLines(f), CompleteLines(rest));
    FeedConcat(Between(events), FrameLines(f), Lines(rest));
    FrameFeeds(f, events);
  }

  lemma EventsNext(frames: seq<Frame>, events: seq<Event>)
    requires frames != []
    ensures events + Events(frames) == events + Seen(frames[0]) + Events(frames[1..])
  {
  }

  lemma TextNext(frames: seq<Frame>, rest: string)
    requires frames != []
    ensures Text(frames) + rest == Render(frames[0]) + (Text(frames[1..]) + rest)
  {
  }

  // Reading on after whole frames is reading from a clean start.
  lemma {:induction false} WholeFrames(frames: seq<Frame>, rest: string, events: seq<Event>)
    requires AllClean(frames)
    ensures FeedAll(Between(events), CompleteLines(Text(frames) + rest))
         == FeedAll(Between(events + Events(frames)), CompleteLines(rest))
    ensures FeedAll(Between(events), Lines(Text(frames) + rest))
        == FeedAll(Between(events + Events(frames)), Lines(rest))
    decreases frames
  {
    if frames == [] {
      assert Text(frames) + rest == rest && events + [] == events;
    } else {
      TextNext(frames, rest);
      EventsNext(frames, events);
      FrameThenRest(frames[0], Text(frames[1..]) + rest, events);
      WholeFrames(frames[1..], rest, events + Seen(frames[0]));
    }
  }

  // For every sequence of frames the client reads back exactly the events of
  // those that are not keepalives, in order.
  lemma RoundTrip(frames: seq<Frame>)
    requires AllClean(frames)
    ensures FeedAll(START, Lines(Text(frames))).events == Events(frames)
    ensures Delivered(Text(frames)) == Events(frames)
  {
    WholeFrames(frames, "", []);
    assert Text(frames) + "" == Text(frames);
    assert [] + Events(frames) == Events(frames);
  }

  // ----- A stream cut short -----

  predicate NoneBlank(lines: seq<string>) {
    lines != [] ==> lines[0] != "" && NoneBlank(lines[1..])
  }

  // Nothing is dispatched without a blank line.
  lemma {:induction false} NoBlankNoEvent(p: Parser, lines: seq<string>)
    requires NoneBlank(lines)
    ensures FeedAll(p, lines).events == p.events
    decreases lines
  {
    if lines != [] {
      NoBlankNoEvent(Feed(p, lines[0]), lines[1..]);
    }
  }

  // A frame's lines but for the blank one that ends it.
  function Body(f: Frame): seq<string> {
    match f
    case Connected(id) => ["event: connected", "data: " + Greeting(id)]
    case Request(payload) => ["event: request", "data: " + payload]
    case Keepalive => [": keepalive"]
  }

  lemma {:induction false} NoNewlineEnd(text: string)
    requires '\n' !in text
    ensures LineEnd(text) == |text|
  {
  }

  predicate Solid(lines: seq<string>) {
    lines != [] ==> lines[0] != "" && Plain(lines[0]) && Solid(lines[1..])
  }

  lemma CutInLine(line: string, k: nat)
    requires Plain(line) && k <= |line|
    ensures NoneBlank(CompleteLines(line[..k])) && NoneBlank(Lines(line[..k]))
  {
    NoNewlineEnd(line[..k]);
    assert line[..k][..k] == line[..k];
    assert DropCR(line[..k]) == line[..k];
  }

  lemma {:induction false} CutLines(lines: seq<string>, k: nat)
    requires Solid(lines) && k <= |Wire(lines, "")|
    ensures NoneBlank(CompleteLines(Wire(lines, "")[..k])) && NoneBlank(Lines(Wire(lines, "")[..k]))
    decreases lines
  {
    if lines != [] {
      var line, more := lines[0], Wire(lines[1..], "");
      if k <= |line| {
        assert Wire(lines, "")[..k] == line[..k];
        CutInLine(line, k);
      } else {
        var m := k - |line| - 1;
        assert (line + "\n" + more)[..k] == line + "\n" + more[..m];
        CutLines(lines[1..], m);
        OneLine(line, more[..m]);
        BlankFirst(line, CompleteLines(more[..m]));
        BlankFirst(line, Lines(more[..m]));
      }
    } else {
      assert Wire(lines, "")[..k] == "";
    }
  }

  lemma BlankFirst(line: string, more: seq<string>)
    requires line != "" && NoneBlank(more)
    ensures NoneBlank([line] + more)
  {
    assert ([line] + more)[1..] == more;
  }

  lemma {:induction false} PlainIsSolid(lines: seq<string>, k: nat)
    requires AllPlain(lines) && k <= |lines| && forall i :: 0 <= i < k ==> lines[i] != ""
    ensures Solid(lines[..k])
    decreases k
  {
    if k > 0 {
      assert lines[..k][1..] == lines[1..][..k - 1];
      PlainIsSolid(lines[1..], k - 1);
    }
  }

  lemma BodyIsPrefix(f: Frame)
    ensures var lines, k := FrameLines(f), |FrameLines(f)| - 1;
            k >= 1 && Body(f) == lines[..k] && forall i :: 0 <= i < k ==> lines[i] != ""
  {
  }

  lemma BodyIsSolid(f: Frame)
    requires CleanFrame(f)
    ensures Solid(Body(f))
  {
    FrameLinesArePlain(f);
    BodyIsPrefix(f);
    PlainIsSolid(FrameLines(f), |FrameLines(f)| - 1);
  }

  lemma BodyThenBlank(f: Frame)
    ensures Render(f) == Wire(Body(f), "") + "\n"
  {
    match f
    case Connected(id) =>
      ConnectedText(id);
      WireOfTwo("event: connected", "data: " + Greeting(id));
    case Request(payload) =>
      RequestText(payload);
      WireOfTwo("event: request", "data: " + payload);
    case Keepalive => KeepaliveBody();
  }

  lemma KeepaliveBody()
    ensures Render(Keepalive) == Wire(Body(Keepalive), "") + "\n"
  {
    assert [": keepalive"][1..] == [];
  }

  lemma WireOfTwo(a: string, b: string)
    ensures Wire([a, b], "") + "\n" == a + "\n" + b + "\n\n"
  {
    assert [a, b][1..] == [b] && [b][1..] == [];
    assert Wire([b], "") == b + "\n";
  }

  // A proper beginning of a frame.
  predicate Unfinished(f: Frame, cut: string) {
    |cut| < |Render(f)| && cut == Render(f)[..|cut|]
  }

  lemma TakeWithin(a: string, b: string, n: nat)
    requires n <= |a|
    ensures (a + b)[..n] == a[..n]
  {
  }

  lemma TakeBeyond(a: string, b: string, n: nat)
    requires |a| <= n <= |a| + |b|
    ensures (a + b)[..n] == a + b[..n - |a|]
  {
  }

  lemma UnfinishedHasNoBlankLine(f: Frame, cut: string)
    requires CleanFrame(f) && Unfinished(f, cut)
    ensures NoneBlank(CompleteLines(cut)) && NoneBlank(Lines(cut))
  {
    BodyIsSolid(f);
    BodyThenBlank(f);
    TakeWithin(Wire(Body(f), ""), "\n", |cut|);
    CutLines(Body(f), |cut|);
  }

  // An unfinished last frame yields nothing, whether more is still to come or
  // the connection broke there.
  lemma UnfinishedFrameYieldsNothing(frames: seq<Frame>, f: Frame, cut: string)
    requires AllClean(frames) && CleanFrame(f) && Unfinished(f, cut)
    ensures Delivered(Text(frames) + cut) == Events(frames)
    ensures FeedAll(START, Lines(Text(frames) + cut)).events == Events(frames)
  {
    WholeFrames(frames, cut, []);
    UnfinishedHasNoBlankLine(f, cut);
    assert [] + Events(frames) == Events(frames);
    NoBlankNoEvent(Between(Events(frames)), CompleteLines(cut));
    NoBlankNoEvent(Between(Events(frames)), Lines(cut));
  }

  // How many frames lie wholly within the first n characters.
  function Whole(frames: seq<Frame>, n: nat): (k: nat)
    ensures k <= |frames|
  {
    if frames == [] || n < |Render(frames[0])| then 0 else 1 + Whole(frames[1..], n - |Render(frames[0])|)
  }

  lemma TextOfPrefix(frames: seq<Frame>, k: nat, cut: string)
    requires frames != [] && k <= |frames[1..]|
    ensures Text(frames[..k + 1]) + cut == Render(frames[0]) + (Text(frames[1..][..k]) + cut)
  {
    assert frames[..k + 1][1..] == frames[1..][..k];
  }

  // The first n characters are k whole frames and an unfinished one.
  ghost predicate CutsAt(frames: seq<Frame>, n: nat, k: nat, cut: string)
    requires n <= |Text(frames)| && k <= |frames|
  {
    && Text(frames)[..n] == Text(frames[..k]) + cut
    && (if k == |frames| then cut == "" else Unfinished(frames[k], cut))
  }

  lemma CutInFirst(frames: seq<Frame>, n: nat)
    requires frames != [] && n < |Render(frames[0])|
    ensures CutsAt(frames, n, 0, Render(frames[0])[..n])
  {
    TakeWithin(Render(frames[0]), Text(frames[1..]), n);
    assert frames[..0] == [];
  }

  lemma CutLater(frames: seq<Frame>, n: nat, k: nat, cut: string)
    requires frames != [] && |Render(frames[0])| <= n <= |Text(frames)| && k <= |frames[1..]|
    requires CutsAt(frames[1..], n - |Render(frames[0])|, k, cut)
    ensures CutsAt(frames, n, k + 1, cut)
  {
    TakeBeyond(Render(frames[0]), Text(frames[1..]), n);
    TextOfPrefix(frames, k, cut);
    assert k < |frames[1..]| ==> frames[k + 1] == frames[1..][k];
  }

  lemma {:induction false} CutPoint(frames: seq<Frame>, n: nat) returns (cut: string)
    requires n <= |Text(frames)|
    ensures CutsAt(frames, n, Whole(frames, n), cut)
    decreases frames
  {
    if frames == [] {
      cut := "";
    } else if n < |Render(frames[0])| {
      cut := Render(frames[0])[..n];
      CutInFirst(frames, n);
    } else {
      cut := CutPoint(frames[1..], n - |Render(frames[0])|);
      CutLater(frames, n, Whole(frames[1..], n - |Render(frames[0])|), cut);
    }
  }

  // Wherever the stream is cut, the client has delivered exactly the events of
  // the frames that arrived whole.
  lemma DeliveredAtAnyCut(frames: seq<Frame>, n: nat)
    requires AllClean(frames) && n <= |Text(frames)|
    ensures Delivered(Text(frames)[..n]) == Events(frames[..Whole(frames, n)])
  {
    var cut := CutPoint(frames, n);
    var k := Whole(frames, n);
    if k == |frames| {
      assert frames[..k] == frames && Text(frames) + "" == Text(frames);
      RoundTrip(frames);
    } else {
      UnfinishedFrameYieldsNothing(frames[..k], frames[k], cut);
    }
  }

  // ----- Comments -----

  // The beginning of a stream up to the end of some line.
  predicate EndsALine(text: string) {
    text == "" || text[|text| - 1] == '\n'
  }

  // A comment line inserted after any line of any stream changes nothing.
  lemma {:induction false} CommentsChangeNothing(p: Parser, before: string, comment: string, after: string)
    requires EndsALine(before) && Plain(comment) && comment != "" && comment[0] == ':'
    ensures FeedAll(p, Lines(before + (comment + "\n" + after))) == FeedAll(p, Lines(before + after))
    decreases |before|
  {
    if before == "" {
      assert before + (comment + "\n" + after) == comment + "\n" + after && before + after == after;
      OneLine(comment, after);
    } else {
      var n := FirstLine(before);
      var line, rest := before[..n], before[n + 1..];
      assert before == line + "\n" + rest;
      FirstLineThen(line, rest, comment + "\n" + after);
      FirstLineThen(line, rest, after);
      if Fits(line) {
        CommentsChangeNothing(Feed(p, DropCR(line)), rest, comment, after);
      }
    }
  }

  lemma FirstLine(text: string) returns (n: nat)
    requires text != "" && EndsALine(text)
    ensures n < |text| && n == LineEnd(text) && '\n' !in text[..n] && text[n] == '\n' && EndsALine(text[n + 1..])
  {
    n := LineEnd(text);
    assert text[|text| - 1] in text;
  }

  lemma FirstLineThen(line: string, rest: string, more: string)
    requires '\n' !in line
    ensures Lines(line + "\n" + rest + more) == if Fits(line) then [DropCR(line)] + Lines(rest + more) else []
  {
    assert line + "\n" + rest + more == line + "\n" + (rest + more);
    LineEndIs(line, rest + more);
    var text := line + "\n" + (rest + more);
    assert text[..|line|] == line && text[|line| + 1..] == rest + more;
  }
}
