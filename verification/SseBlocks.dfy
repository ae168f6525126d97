/** What a stream of lines means, block by block: the client's parser delivers one
    event for each group of lines that ends with a blank one. */
module SseBlocks {
  import opened Core
  import opened SseFormat

  // The trimmed values of the lines of one field, in order.
  function Values(field: string, block: seq<string>): seq<string> {
    if block == [] then []
    else
      var last := block[|block| - 1];
      Values(field, block[..|block| - 1])
      + (if HasPrefix(last, field) then [TrimSpace(last[|field|..])] else [])
  }

  function LastOf(values: seq<string>): string {
    if values == [] then "" else values[|values| - 1]
  }

  function WithoutLeadingEmpty(values: seq<string>): seq<string> {
    if values != [] && values[0] == "" then WithoutLeadingEmpty(values[1..]) else values
  }

  function JoinedLines(values: seq<string>): string {
    if values == [] then ""
    else if |values| == 1 then values[0]
    else values[0] + "\n" + JoinedLines(values[1..])
  }

  // The event of one block: the last name, and the data lines from the first one
  // that is not empty, joined by newlines. A block without either has none.
  function EventOf(block: seq<string>): seq<Event> {
    var name, data := LastOf(Values("event:", block)), JoinedLines(WithoutLeadingEmpty(Values("data:", block)));
    if name == "" && data == "" then [] else [Event(name, data)]
  }

  function FirstBlank(lines: seq<string>): (n: nat)
    ensures n <= |lines| && (forall i :: 0 <= i < n ==> lines[i] != "") && (n < |lines| ==> lines[n] == "")
  {
    if lines == [] || lines[0] == "" then 0
    else
      var n := FirstBlank(lines[1..]);
      assert forall i :: 1 <= i < n + 1 ==> lines[i] == lines[1..][i - 1];
      n + 1
  }

  // One event for each block; what follows the last blank line has none yet.
  function EventsOf(lines: seq<string>): seq<Event> {
    var n := FirstBlank(lines);
    if n == |lines| then [] else EventOf(lines[..n]) + EventsOf(lines[n + 1..])
  }

  lemma {:induction false} JoinedSnoc(values: seq<string>, x: string)
    requires values != []
    ensures JoinedLines(values + [x]) == JoinedLines(values) + "\n" + x
  {
    var more := values + [x];
    if |values| > 1 {
      assert more[1..] == values[1..] + [x];
      JoinedSnoc(values[1..], x);
      assert values[0] + "\n" + (JoinedLines(values[1..]) + "\n" + x) == JoinedLines(values) + "\n" + x;
    } else {
      assert more[1..] == [x];
    }
  }

  lemma {:induction false} LeadingSnoc(values: seq<string>, x: string)
    ensures WithoutLeadingEmpty(values + [x])
         == if WithoutLeadingEmpty(values) == [] && x == "" then [] else WithoutLeadingEmpty(values) + [x]
  {
    var more := values + [x];
    if values == [] {
      assert more == [x] && [x][1..] == [];
    } else if values[0] == "" {
      assert more[1..] == values[1..] + [x];
      LeadingSnoc(values[1..], x);
    }
  }

  lemma {:induction false} LeadingIsNotEmpty(values: seq<string>)
    ensures WithoutLeadingEmpty(values) != [] ==> WithoutLeadingEmpty(values)[0] != ""
    ensures WithoutLeadingEmpty(values) == [] <==> JoinedLines(WithoutLeadingEmpty(values)) == ""
  {
    if values != [] && values[0] == "" {
      LeadingIsNotEmpty(values[1..]);
    }
  }

  // One more data line.
  lemma DataSnoc(values: seq<string>, x: string)
    ensures var data := JoinedLines(WithoutLeadingEmpty(values));
            JoinedLines(WithoutLeadingEmpty(values + [x])) == (if data != "" then data + "\n" else data) + x
  {
    LeadingSnoc(values, x);
    LeadingIsNotEmpty(values);
    var kept := WithoutLeadingEmpty(values);
    if kept == [] {
      assert [] + [x] == [x] && "" + x == x;
    } else {
      JoinedSnoc(kept, x);
    }
  }

  lemma ValuesSnoc(field: string, block: seq<string>, line: string)
    ensures Values(field, block + [line])
         == Values(field, block) + (if HasPrefix(line, field) then [TrimSpace(line[|field|..])] else [])
  {
    assert (block + [line])[..|block|] == block;
  }

  // What the parser holds inside a block.
  function Inside(block: seq<string>, events: seq<Event>): Parser {
    Parser(LastOf(Values("event:", block)), JoinedLines(WithoutLeadingEmpty(Values("data:", block))), events)
  }

  lemma OneField(line: string)
    requires HasPrefix(line, "event:") || HasPrefix(line, "data:")
    ensures line[0] != ':' && !(HasPrefix(line, "event:") && HasPrefix(line, "data:"))
  {
    if HasPrefix(line, "event:") {
      StartsWith(line, "event:");
    }
    if HasPrefix(line, "data:") {
      StartsWith(line, "data:");
    }
  }

  lemma InsideNext(block: seq<string>, line: string, events: seq<Event>)
    requires line != ""
    ensures Feed(Inside(block, events), line) == Inside(block + [line], events)
  {
    ValuesSnoc("event:", block, line);
    ValuesSnoc("data:", block, line);
    if HasPrefix(line, "event:") {
      OneField(line);
    } else if HasPrefix(line, "data:") {
      OneField(line);
      DataSnoc(Values("data:", block), TrimSpace(line[5..]));
    } else {
      assert Values("event:", block) + [] == Values("event:", block);
    }
    assert Values("data:", block) + [] == Values("data:", block);
  }

  lemma {:induction false} FeedBlock(block: seq<string>, events: seq<Event>)
    requires forall i :: 0 <= i < |block| ==> block[i] != ""
    ensures FeedAll(Between(events), block) == Inside(block, events)
    decreases |block|
  {
    if block != [] {
      var before, last := block[..|block| - 1], block[|block| - 1];
      assert block == before + [last] && [last][1..] == [];
      FeedBlock(before, events);
      FeedConcat(Between(events), before, [last]);
      InsideNext(before, last, events);
    }
  }

  lemma BlockEnds(block: seq<string>, events: seq<Event>)
    ensures Feed(Inside(block, events), "") == Between(events + EventOf(block))
  {
    if EventOf(block) == [] {
      assert events + [] == events;
    }
  }

  lemma FeedAcross(p: Parser, lines: seq<string>, n: nat)
    requires n < |lines|
    ensures FeedAll(p, lines) == FeedAll(Feed(FeedAll(p, lines[..n]), lines[n]), lines[n + 1..])
  {
    assert lines == lines[..n] + lines[n..];
    FeedConcat(p, lines[..n], lines[n..]);
    assert lines[n..][0] == lines[n] && lines[n..][1..] == lines[n + 1..];
  }

  // Whatever the lines, the parser delivers exactly the events of their blocks.
  lemma {:induction false} EventsAreThoseOfTheBlocks(lines: seq<string>, events: seq<Event>)
    ensures FeedAll(Between(events), lines).events == events + EventsOf(lines)
    decreases |lines|
  {
    var n := FirstBlank(lines);
    var block := lines[..n];
    FeedBlock(block, events);
    if n == |lines| {
      assert lines == block && events + [] == events;
    } else {
      FeedAcross(Between(events), lines, n);
      BlockEnds(block, events);
      EventsAreThoseOfTheBlocks(lines[n + 1..], events + EventOf(block));
      Regroup(events, EventOf(block), EventsOf(lines[n + 1..]));
    }
  }

  // So does the scan loop over a whole stream.
  lemma StreamDeliversItsBlocks(text: string)
    ensures FeedAll(START, Lines(text)).events == EventsOf(Lines(text))
  {
    EventsAreThoseOfTheBlocks(Lines(text), []);
    assert [] + EventsOf(Lines(text)) == EventsOf(Lines(text));
  }

  // ----- How a text falls into lines -----

  // A line within 16 MB, its end counted, is delivered without the carriage
  // return before its end; a longer one ends the stream for the client.
  lemma LinesByTheirLength(line: string, rest: string)
    requires '\n' !in line
    ensures Lines(line + "\n" + rest)
         == if ByteLength(line) + 1 > 16 * 1024 * 1024 then []
            else [if line != "" && line[|line| - 1] == '\r' then line[..|line| - 1] else line] + Lines(rest)
    ensures CompleteLines(line + "\n" + rest)
         == if ByteLength(line) + 1 > 16 * 1024 * 1024 then []
            else [if line != "" && line[|line| - 1] == '\r' then line[..|line| - 1] else line] + CompleteLines(rest)
  {
    var text := line + "\n" + rest;
    LineEndIs(line, rest);
    assert text[..|line|] == line && text[|line| + 1..] == rest;
  }

  // What is left without an end is a line once the stream has ended, and none
  // before.
  lemma LastLine(line: string)
    requires '\n' !in line && ByteLength(line) + 1 <= 16 * 1024 * 1024
    ensures CompleteLines(line) == []
    ensures Lines(line)
         == if line == "" then [] else [if line[|line| - 1] == '\r' then line[..|line| - 1] else line]
  {
    NoNewlineEnd(line);
    assert line[..|line|] == line;
  }
}
