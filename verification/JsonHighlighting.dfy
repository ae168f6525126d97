/** What the tokenizer makes of a pretty-printed JSON document: exactly its
    lexemes, with the member names, and nothing else, marked as keys. */
module JsonHighlighting {
  import opened Core
  import opened JsonTokens
  import JsonExpression

  datatype Json =
    | JsonNull
    | JsonBool(b: bool)
    | JsonNumber(text: string)
    | JsonString(content: string)
    | JsonArray(items: seq<Json>)
    | JsonObject(members: seq<Member>)

  datatype Member = Member(name: string, value: Json)

  // ----- JSON.stringify(value, null, 2), lexeme by lexeme -----

  function HexDigit(n: nat): char
    requires n < 16
  {
    "0123456789abcdef"[n]
  }

  function EscapeChar(c: char): string {
    if c == '"' then "\\\""
    else if c == '\\' then "\\\\"
    else if c == '\U{0008}' then "\\b"
    else if c == '\U{000C}' then "\\f"
    else if c == '\n' then "\\n"
    else if c == '\r' then "\\r"
    else if c == '\t' then "\\t"
    else if c < ' ' then "\\u00" + [HexDigit(c as nat / 16), HexDigit(c as nat % 16)]
    else [c]
  }

  function Escaped(s: string): string {
    if s == "" then "" else EscapeChar(s[0]) + Escaped(s[1..])
  }

  function Quoted(s: string): string {
    "\"" + (Escaped(s) + "\"")
  }

  function Spaces(n: nat): string {
    if n == 0 then "" else " " + Spaces(n - 1)
  }

  function NewLine(depth: nat): Token {
    Token(Other, "\n" + Spaces(2 * depth))
  }

  function Mark(c: char): Token {
    Token(Punctuation, [c])
  }

  function Lexemes(v: Json, depth: nat): seq<Token>
    decreases v
  {
    match v
    case JsonNull => [Token(Null, "null")]
    case JsonBool(b) => [Token(Boolean, if b then "true" else "false")]
    case JsonNumber(text) => [Token(Number, text)]
    case JsonString(content) => [Token(Str, Quoted(content))]
    case JsonArray(items) =>
      if items == [] then [Mark('['), Mark(']')]
      else [Mark('[')] + (ItemLexemes(items, depth + 1) + [NewLine(depth), Mark(']')])
    case JsonObject(members) =>
      if members == [] then [Mark('{'), Mark('}')]
      else [Mark('{')] + (MemberLexemes(members, depth + 1) + [NewLine(depth), Mark('}')])
  }

  function ItemLexemes(items: seq<Json>, depth: nat): seq<Token>
    requires items != []
    decreases items
  {
    [NewLine(depth)] + (Lexemes(items[0], depth) + if |items| == 1 then []
        else [Mark(',')] + ItemLexemes(items[1..], depth))
  }

  function MemberLexemes(members: seq<Member>, depth: nat): seq<Token>
    requires members != []
    decreases members
  {
    [NewLine(depth), Token(Key, Quoted(members[0].name)), Mark(':'), Token(Other, " ")]
    + (Lexemes(members[0].value, depth) + if |members| == 1 then []
        else [Mark(',')] + MemberLexemes(members[1..], depth))
  }

  // Every number is written as a number.
  predicate Numerals(v: Json)
    decreases v
  {
    match v
    case JsonNumber(text) => text != "" && NumberLen(text) == |text|
    case JsonArray(items) => forall i :: 0 <= i < |items| ==> Numerals(items[i])
    case JsonObject(members) => forall i :: 0 <= i < |members| ==> Numerals(members[i].value)
    case _ => true
  }

  // ----- Lexemes are matched whole, whatever follows them here -----

  // What can come after a value: nothing, a comma, or a new line before a bracket.
  predicate Closes(rest: string) {
    (rest == "" || rest[0] in ",\n") && !ColonAhead(rest)
  }

  lemma {:induction false} DigitRunThen(s: string, rest: string)
    requires rest != "" ==> !IsDigit(rest[0])
    ensures DigitRun(s + rest) == DigitRun(s)
    decreases s
  {
    if s == "" {
      assert s + rest == rest;
    } else {
      assert (s + rest)[1..] == s[1..] + rest;
      DigitRunThen(s[1..], rest);
    }
  }

  lemma SkipThen(s: string, rest: string, k: nat)
    requires k <= |s|
    ensures (s + rest)[k..] == s[k..] + rest
  {
  }

  lemma FractionThen(s: string, rest: string)
    requires Closes(rest)
    ensures FractionLen(s + rest) == FractionLen(s)
  {
    if s == "" {
      assert s + rest == rest;
    } else {
      SkipThen(s, rest, 1);
      DigitRunThen(s[1..], rest);
    }
  }

  lemma ExponentThen(s: string, rest: string)
    requires Closes(rest)
    ensures ExponentLen(s + rest) == ExponentLen(s)
  {
    if s == "" {
      assert s + rest == rest;
    } else {
      var mark := ExponentMark(s);
      assert ExponentMark(s + rest) == mark;
      SkipThen(s, rest, mark);
      DigitRunThen(s[mark..], rest);
    }
  }

  lemma IntegerThen(s: string, rest: string)
    requires s != "" && Closes(rest)
    ensures IntegerLen(s + rest) == IntegerLen(s)
  {
    var sign := if s[0] == '-' then 1 else 0;
    SkipThen(s, rest, sign);
    DigitRunThen(s[sign..], rest);
  }

  lemma NumberThen(s: string, rest: string)
    requires s != "" && Closes(rest)
    ensures NumberLen(s + rest) == NumberLen(s)
  {
    IntegerThen(s, rest);
    assert DecimalLen(s + rest) == DecimalLen(s) by {
      SkipThen(s, rest, IntegerLen(s));
      FractionThen(s[IntegerLen(s)..], rest);
    }
    SkipThen(s, rest, DecimalLen(s));
    ExponentThen(s[DecimalLen(s)..], rest);
  }

  lemma NumberMatch(text: string, rest: string)
    requires text != "" && NumberLen(text) == |text| && Closes(rest)
    ensures MatchHere(text + rest) == Some(Match(Number, |text|))
  {
    NumberThen(text, rest);
    assert text[0] == '-' || IsDigit(text[0]);
    NotAWord(text + rest);
  }

  lemma OtherStart(s: string, word: string)
    requires s != "" && word != "" && s[0] != word[0]
    ensures !HasPrefix(s, word)
  {
    if |word| <= |s| {
      assert s[..|word|][0] == s[0];
    }
  }

  lemma NotAWord(s: string)
    requires s != "" && s[0] !in "tfn"
    ensures !HasPrefix(s, "true") && !HasPrefix(s, "false") && !HasPrefix(s, "null")
  {
    OtherStart(s, "true");
    OtherStart(s, "false");
    OtherStart(s, "null");
  }

  // An escaped character is one plain character, a backslash pair or \uXXXX.
  predicate IsUnit(e: string) {
    || (|e| == 1 && e[0] != '"' && e[0] != '\\')
    || (|e| == 2 && e[0] == '\\' && !EndsLine(e[1]))
    || (|e| == 6 && e[0] == '\\' && e[1] == 'u' && forall i :: 2 <= i < 6 ==> e[i] != '"' && e[i] != '\\')
  }

  lemma HexDigitIsPlain(n: nat)
    requires n < 16
    ensures HexDigit(n) != '"' && HexDigit(n) != '\\'
  {
  }

  lemma EscapeCharIsUnit(c: char)
    ensures IsUnit(EscapeChar(c))
  {
    if |EscapeChar(c)| > 2 {
      HexDigitIsPlain(c as nat / 16);
      HexDigitIsPlain(c as nat % 16);
    }
  }

  lemma UnitCloses(e: string, more: string)
    requires IsUnit(e)
    ensures ToClosingQuote(e + more) == Further(|e|, ToClosingQuote(more))
  {
    var s := e + more;
    if |e| == 1 {
      assert s[1..] == more;
    } else if |e| == 2 {
      assert s[2..] == more;
    } else {
      assert s[2..] == e[2..] + more;
      HexDigitsClose(s[2..], more, e[2..]);
    }
  }

  lemma HexDigitsClose(s: string, more: string, hex: string)
    requires |hex| == 4 && s == hex + more && forall i :: 0 <= i < 4 ==> hex[i] != '"' && hex[i] != '\\'
    ensures ToClosingQuote(s) == Further(4, ToClosingQuote(more))
  {
    assert s[1..][1..][1..][1..] == more;
    assert ToClosingQuote(s) == Further(1, ToClosingQuote(s[1..]));
    assert ToClosingQuote(s[1..]) == Further(1, ToClosingQuote(s[1..][1..]));
    assert ToClosingQuote(s[1..][1..]) == Further(1, ToClosingQuote(s[1..][1..][1..]));
  }

  lemma {:induction false} EscapedCloses(s: string, rest: string)
    ensures ToClosingQuote(Escaped(s) + ("\"" + rest)) == Some(|Escaped(s)| + 1)
    decreases s
  {
    if s == "" {
      assert Escaped(s) + ("\"" + rest) == "\"" + rest;
    } else {
      assert Escaped(s) + ("\"" + rest) == EscapeChar(s[0]) + (Escaped(s[1..]) + ("\"" + rest));
      EscapeCharIsUnit(s[0]);
      UnitCloses(EscapeChar(s[0]), Escaped(s[1..]) + ("\"" + rest));
      EscapedCloses(s[1..], rest);
    }
  }

  lemma QuotedMatch(s: string, rest: string)
    ensures MatchHere(Quoted(s) + rest) == Some(Match(if ColonAhead(rest) then Key else Str, |Quoted(s)|))
  {
    var text := Quoted(s) + rest;
    assert text[1..] == Escaped(s) + ("\"" + rest);
    EscapedCloses(s, rest);
    assert text[|Quoted(s)|..] == rest;
  }

  lemma WordMatch(rest: string)
    ensures MatchHere("true" + rest) == Some(Match(Boolean, 4))
    ensures MatchHere("false" + rest) == Some(Match(Boolean, 5))
    ensures MatchHere("null" + rest) == Some(Match(Null, 4))
  {
    assert ("true" + rest)[..4] == "true";
    assert ("false" + rest)[..5] == "false";
    assert ("null" + rest)[..4] == "null";
  }

  lemma MarkMatch(c: char, rest: string)
    requires c in "{}[],:"
    ensures MatchHere([c] + rest) == Some(Match(Punctuation, 1))
  {
    NotAWord([c] + rest);
    assert NumberLen([c] + rest) == 0;
  }

  lemma {:induction false} SpacesAreBlank(n: nat)
    ensures forall i :: 0 <= i < |Spaces(n)| ==> Spaces(n)[i] == ' '
  {
    if n > 0 {
      SpacesAreBlank(n - 1);
    }
  }

  lemma BlankUnmatched(s: string, rest: string)
    requires forall i :: 0 <= i < |s| ==> s[i] in " \n"
    ensures Unmatched(MatchHere, s, rest)
  {
    forall i | 0 <= i < |s| ensures MatchHere(s[i..] + rest).None? {
      var t := s[i..] + rest;
      assert t[0] == s[i];
      NotAWord(t);
      assert NumberLen(t) == 0;
    }
  }

  lemma {:induction false} NoColonAfterBlanks(s: string, rest: string)
    requires forall i :: 0 <= i < |s| ==> s[i] in " \n"
    requires rest != "" && rest[0] != ':' && !IsScriptSpace(rest[0])
    ensures !ColonAhead(s + rest)
    decreases s
  {
    if s == "" {
      assert s + rest == rest;
    } else {
      assert (s + rest)[1..] == s[1..] + rest;
      NoColonAfterBlanks(s[1..], rest);
    }
  }

  // ----- Putting the lexemes together -----

  lemma IsTheExpression()
    ensures IsExpression(MatchHere)
  {
  }

  lemma {:induction false} TextConcat(one: seq<Token>, two: seq<Token>)
    ensures Text(one + two) == Text(one) + Text(two)
    decreases one
  {
    if one == [] {
      assert one + two == two;
    } else {
      assert (one + two)[1..] == one[1..] + two;
      TextConcat(one[1..], two);
    }
  }

  predicate EndsSolid(tokens: seq<Token>) {
    tokens != [] && tokens[|tokens| - 1].kind != Other
  }

  predicate BeginsSolid(tokens: seq<Token>) {
    tokens != [] && tokens[0].kind != Other
  }

  lemma {:induction false} ScanConcat(re: string -> Option<Match>, one: seq<Token>, two: seq<Token>, rest: string)
    requires Scanned(re, one, Text(two) + rest) && Scanned(re, two, rest)
    requires one == [] || EndsSolid(one) || BeginsSolid(two)
    ensures Scanned(re, one + two, rest)
    decreases one
  {
    if one == [] {
      assert one + two == two;
    } else {
      var whole, tail := one + two, one[1..];
      assert whole[1..] == tail + two;
      ScanConcat(re, tail, two, rest);
      TextConcat(tail, two);
      assert Text(whole[1..]) + rest == Text(tail) + (Text(two) + rest);
    }
  }

  lemma OneSolid(re: string -> Option<Match>, t: Token, rest: string)
    requires t.kind != Other && t.value != "" && re(t.value + rest) == Some(Match(t.kind, |t.value|))
    ensures Scanned(re, [t], rest)
  {
    assert [t][1..] == [];
    assert Text([]) + rest == rest;
  }

  lemma OneBlank(re: string -> Option<Match>, t: Token, rest: string)
    requires t.kind == Other && t.value != "" && Unmatched(re, t.value, rest)
    ensures Scanned(re, [t], rest)
  {
    assert [t][1..] == [];
    assert Text([]) + rest == rest;
  }

  lemma MarkScan(c: char, rest: string)
    requires c in "{}[],:"
    ensures Scanned(MatchHere, [Mark(c)], rest)
  {
    MarkMatch(c, rest);
    OneSolid(MatchHere, Mark(c), rest);
  }

  lemma NewLineScan(depth: nat, rest: string)
    ensures Scanned(MatchHere, [NewLine(depth)], rest)
  {
    SpacesAreBlank(2 * depth);
    BlankUnmatched(NewLine(depth).value, rest);
    OneBlank(MatchHere, NewLine(depth), rest);
  }

  lemma ClosingScan(depth: nat, c: char, rest: string)
    requires c in "]}"
    ensures Scanned(MatchHere, [NewLine(depth), Mark(c)], rest)
    ensures Closes(Text([NewLine(depth), Mark(c)]) + rest)
  {
    MarkScan(c, rest);
    var nl := NewLine(depth).value;
    assert [Mark(c)][1..] == [] && Text([Mark(c)]) == [c] + "";
    assert [NewLine(depth), Mark(c)] == [NewLine(depth)] + [Mark(c)];
    NewLineScan(depth, Text([Mark(c)]) + rest);
    ScanConcat(MatchHere, [NewLine(depth)], [Mark(c)], rest);
    assert [NewLine(depth), Mark(c)][1..] == [Mark(c)];
    assert Text([NewLine(depth), Mark(c)]) + rest == nl + ([c] + rest);
    SpacesAreBlank(2 * depth);
    NoColonAfterBlanks(nl, [c] + rest);
  }

  lemma NoColonAt(s: string)
    requires s != "" && s[0] in ",]}"
    ensures !ColonAhead(s)
  {
  }

  lemma CommaCloses(tokens: seq<Token>, rest: string)
    requires tokens != [] && tokens[0] == Mark(',')
    ensures Closes(Text(tokens) + rest)
  {
    var s := Text(tokens) + rest;
    assert s[0] == ',';
    NoColonAt(s);
  }

  lemma KeyScan(name: string, rest: string)
    ensures Scanned(MatchHere, [Token(Key, Quoted(name)), Mark(':'), Token(Other, " ")], rest)
  {
    var key, colon, blank := Token(Key, Quoted(name)), Mark(':'), Token(Other, " ");
    BlankUnmatched(" ", rest);
    OneBlank(MatchHere, blank, rest);
    MarkScan(':', Text([blank]) + rest);
    ScanConcat(MatchHere, [colon], [blank], rest);
    assert [colon] + [blank] == [colon, blank];
    var after := Text([colon, blank]) + rest;
    assert after[0] == ':';
    QuotedMatch(name, after);
    OneSolid(MatchHere, key, after);
    ScanConcat(MatchHere, [key], [colon, blank], rest);
    assert [key] + [colon, blank] == [key, colon, blank];
  }

  // ----- The document -----

  lemma {:induction false} LexemesAreScanned(v: Json, depth: nat, rest: string)
    requires Numerals(v) && Closes(rest)
    ensures Scanned(MatchHere, Lexemes(v, depth), rest)
    ensures BeginsSolid(Lexemes(v, depth)) && EndsSolid(Lexemes(v, depth))
    decreases v, 1
  {
    match v
    case JsonNull => WordMatch(rest); OneSolid(MatchHere, Token(Null, "null"), rest);
    case JsonBool(b) => WordMatch(rest); OneSolid(MatchHere, Token(Boolean, if b then "true" else "false"), rest);
    case JsonNumber(text) => NumberMatch(text, rest); OneSolid(MatchHere, Token(Number, text), rest);
    case JsonString(content) => QuotedMatch(content, rest); OneSolid(MatchHere, Token(Str, Quoted(content)), rest);
    case JsonArray(items) =>
      if items == [] {
        EmptyScan('[', ']', rest);
      } else {
        ClosingScan(depth, ']', rest);
        ItemsAreScanned(items, depth + 1, Text([NewLine(depth), Mark(']')]) + rest);
        Bracketed('[', ItemLexemes(items, depth + 1), depth, ']', rest);
      }
    case JsonObject(members) =>
      if members == [] {
        EmptyScan('{', '}', rest);
      } else {
        ClosingScan(depth, '}', rest);
        MembersAreScanned(members, depth + 1, Text([NewLine(depth), Mark('}')]) + rest);
        Bracketed('{', MemberLexemes(members, depth + 1), depth, '}', rest);
      }
  }

  lemma EmptyScan(open: char, close: char, rest: string)
    requires open in "[{" && close in "]}"
    ensures Scanned(MatchHere, [Mark(open), Mark(close)], rest)
  {
    MarkScan(close, rest);
    MarkScan(open, Text([Mark(close)]) + rest);
    ScanConcat(MatchHere, [Mark(open)], [Mark(close)], rest);
    assert [Mark(open)] + [Mark(close)] == [Mark(open), Mark(close)];
  }

  lemma Bracketed(open: char, body: seq<Token>, depth: nat, close: char, rest: string)
    requires open in "[{" && close in "]}"
    requires Scanned(MatchHere, body, Text([NewLine(depth), Mark(close)]) + rest) && EndsSolid(body)
    ensures Scanned(MatchHere, [Mark(open)] + (body + [NewLine(depth), Mark(close)]), rest)
  {
    var end := [NewLine(depth), Mark(close)];
    ClosingScan(depth, close, rest);
    ScanConcat(MatchHere, body, end, rest);
    MarkScan(open, Text(body + end) + rest);
    ScanConcat(MatchHere, [Mark(open)], body + end, rest);
  }

  lemma Joined(head: seq<Token>, value: seq<Token>, more: seq<Token>, rest: string)
    requires Scanned(MatchHere, head, Text(value + more) + rest)
    requires Scanned(MatchHere, value, Text(more) + rest) && BeginsSolid(value) && EndsSolid(value)
    requires Scanned(MatchHere, more, rest) && (more == [] || EndsSolid(more))
    ensures Scanned(MatchHere, head + (value + more), rest) && EndsSolid(head + (value + more))
  {
    ScanConcat(MatchHere, value, more, rest);
    ScanConcat(MatchHere, head, value + more, rest);
  }

  lemma CommaThen(body: seq<Token>, rest: string)
    requires Scanned(MatchHere, body, rest) && EndsSolid(body)
    ensures Scanned(MatchHere, [Mark(',')] + body, rest) && EndsSolid([Mark(',')] + body)
    ensures Closes(Text([Mark(',')] + body) + rest)
  {
    MarkScan(',', Text(body) + rest);
    ScanConcat(MatchHere, [Mark(',')], body, rest);
    CommaCloses([Mark(',')] + body, rest);
  }

  lemma MemberHead(depth: nat, name: string, rest: string)
    ensures Scanned(MatchHere, [NewLine(depth), Token(Key, Quoted(name)), Mark(':'), Token(Other, " ")], rest)
  {
    var key := [Token(Key, Quoted(name)), Mark(':'), Token(Other, " ")];
    KeyScan(name, rest);
    NewLineScan(depth, Text(key) + rest);
    ScanConcat(MatchHere, [NewLine(depth)], key, rest);
    assert [NewLine(depth)] + key == [NewLine(depth), Token(Key, Quoted(name)), Mark(':'), Token(Other, " ")];
  }

  lemma {:induction false} ItemsAreScanned(items: seq<Json>, depth: nat, rest: string)
    requires items != [] && Closes(rest) && forall i :: 0 <= i < |items| ==> Numerals(items[i])
    ensures Scanned(MatchHere, ItemLexemes(items, depth), rest) && EndsSolid(ItemLexemes(items, depth))
    decreases items, 0
  {
    var value := Lexemes(items[0], depth);
    var more := if |items| == 1 then [] else [Mark(',')] + ItemLexemes(items[1..], depth);
    if |items| > 1 {
      ItemsAreScanned(items[1..], depth, rest);
      CommaThen(ItemLexemes(items[1..], depth), rest);
    } else {
      assert Text(more) + rest == rest;
    }
    LexemesAreScanned(items[0], depth, Text(more) + rest);
    NewLineScan(depth, Text(value + more) + rest);
    Joined([NewLine(depth)], value, more, rest);
  }

  lemma {:induction false} MembersAreScanned(members: seq<Member>, depth: nat, rest: string)
    requires members != [] && Closes(rest) && forall i :: 0 <= i < |members| ==> Numerals(members[i].value)
    ensures Scanned(MatchHere, MemberLexemes(members, depth), rest) && EndsSolid(MemberLexemes(members, depth))
    decreases members, 0
  {
    var value := Lexemes(members[0].value, depth);
    var more := if |members| == 1 then [] else [Mark(',')] + MemberLexemes(members[1..], depth);
    if |members| > 1 {
      MembersAreScanned(members[1..], depth, rest);
      CommaThen(MemberLexemes(members[1..], depth), rest);
    } else {
      assert Text(more) + rest == rest;
    }
    LexemesAreScanned(members[0].value, depth, Text(more) + rest);
    MemberHead(depth, members[0].name, Text(value + more) + rest);
    Joined([NewLine(depth), Token(Key, Quoted(members[0].name)), Mark(':'), Token(Other, " ")], value, more, rest);
  }

  function Pretty(v: Json): string {
    Text(Lexemes(v, 0))
  }

  // The highlighting of a pretty-printed document is exact.
  lemma PrettyPrintedIsReadBack(v: Json)
    requires Numerals(v)
    ensures Tokens(MatchHere, Pretty(v)) == Lexemes(v, 0)
  {
    IsTheExpression();
    LexemesAreScanned(v, 0, "");
    ScanIsUnique(MatchHere, Lexemes(v, 0));
  }

  // Any text at all is scanned by the expression as it is written: it comes back
  // unchanged, with no empty token and no two unmatched neighbours.
  method TokenizeJson(json: string) returns (tokens: seq<Token>)
    ensures Text(tokens) == json && Scanned(JsonExpression.AsWritten, tokens, "")
    ensures forall i :: 0 <= i < |tokens| ==> tokens[i].value != ""
    ensures forall i :: 0 < i < |tokens| ==> tokens[i - 1].kind != Other || tokens[i].kind != Other
    ensures forall v :: Numerals(v) && Pretty(v) == json ==> tokens == Lexemes(v, 0)
  {
    IsTheExpression();
    tokens := Tokenize(MatchHere, json);
    TokensAreAScan(MatchHere, json);
    JsonExpression.ScannedAsWritten(tokens, "");
    NoneEmptyNoneAdjacent(MatchHere, tokens, "");
    forall v | Numerals(v) && Pretty(v) == json ensures tokens == Lexemes(v, 0) {
      PrettyPrintedIsReadBack(v);
    }
  }

  lemma {:induction false} NoneEmptyNoneAdjacent(re: string -> Option<Match>, tokens: seq<Token>, rest: string)
    requires Scanned(re, tokens, rest)
    ensures forall i :: 0 <= i < |tokens| ==> tokens[i].value != ""
    ensures forall i :: 0 < i < |tokens| ==> tokens[i - 1].kind != Other || tokens[i].kind != Other
    decreases tokens
  {
    if tokens != [] {
      NoneEmptyNoneAdjacent(re, tokens[1..], rest);
      assert tokens == [tokens[0]] + tokens[1..];
    }
  }
}
