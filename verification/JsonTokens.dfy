/** The tokenizer behind the dashboard's JSON highlighting. The regular
    expression is written out as the match it finds at the start of a text;
    its alternatives begin with different characters and none needs backtracking. */
module JsonTokens {
  import opened Core

  datatype Kind = Key | Str | Number | Boolean | Null | Punctuation | Other

  datatype Token = Token(kind: Kind, value: string)

  // ----- The regular expression -----

  // \s
  predicate IsScriptSpace(c: char) {
    || c in "\t\n\U{000B}\U{000C}\r \U{00A0}\U{1680}"
    || '\U{2000}' <= c <= '\U{200A}'
    || c in "\U{2028}\U{2029}\U{202F}\U{205F}\U{3000}\U{FEFF}"
  }

  // What `.` does not match.
  predicate EndsLine(c: char) {
    c in "\n\r\U{2028}\U{2029}"
  }

  predicate IsDigit(c: char) {
    '0' <= c <= '9'
  }

  // (?:[^"\\]|\\.)*" : how far the closing quote is, if there is one
  function ToClosingQuote(s: string): (n: Option<nat>)
    ensures n.Some? ==> 0 < n.value <= |s|
  {
    if s == "" then None
    else if s[0] == '"' then Some(1)
    else if s[0] == '\\' then
      if |s| < 2 || EndsLine(s[1]) then None else Further(2, ToClosingQuote(s[2..]))
    else Further(1, ToClosingQuote(s[1..]))
  }

  function Further(k: nat, n: Option<nat>): Option<nat> {
    if n.Some? then Some(k + n.value) else None
  }

  // (?=\s*:)
  predicate ColonAhead(s: string) {
    s != "" && (s[0] == ':' || (IsScriptSpace(s[0]) && ColonAhead(s[1..])))
  }

  // \d*
  function DigitRun(s: string): (n: nat)
    ensures n <= |s|
  {
    if s != "" && IsDigit(s[0]) then 1 + DigitRun(s[1..]) else 0
  }

  // (?:\.\d+)?
  function FractionLen(s: string): (n: nat)
    ensures n <= |s|
  {
    if s != "" && s[0] == '.' && DigitRun(s[1..]) > 0 then 1 + DigitRun(s[1..]) else 0
  }

  // [eE][+-]?
  function ExponentMark(s: string): (n: nat)
    ensures n <= |s|
  {
    if s == "" || s[0] !in "eE" then 0 else if |s| > 1 && s[1] in "+-" then 2 else 1
  }

  // (?:[eE][+-]?\d+)?
  function ExponentLen(s: string): (n: nat)
    ensures n <= |s|
  {
    var mark := ExponentMark(s);
    if mark > 0 && DigitRun(s[mark..]) > 0 then mark + DigitRun(s[mark..]) else 0
  }

  // -?\d+ : 0 when there is no number here
  function IntegerLen(s: string): (n: nat)
    ensures n <= |s|
  {
    var sign := if s != "" && s[0] == '-' then 1 else 0;
    if DigitRun(s[sign..]) == 0 then 0 else sign + DigitRun(s[sign..])
  }

  // -?\d+(?:\.\d+)?
  function DecimalLen(s: string): (n: nat)
    ensures n <= |s|
  {
    if IntegerLen(s) == 0 then 0 else IntegerLen(s) + FractionLen(s[IntegerLen(s)..])
  }

  // -?\d+(?:\.\d+)?(?:[eE][+-]?\d+)?
  function NumberLen(s: string): (n: nat)
    ensures n <= |s|
  {
    if DecimalLen(s) == 0 then 0 else DecimalLen(s) + ExponentLen(s[DecimalLen(s)..])
  }

  datatype Match = Match(kind: Kind, length: nat)

  function MatchHere(s: string): (m: Option<Match>)
    ensures m.Some? ==> 0 < m.value.length <= |s| && m.value.kind != Other
  {
    if s == "" then None
    else if s[0] == '"' then
      match ToClosingQuote(s[1..])
      case None => None
      case Some(n) => Some(Match(if ColonAhead(s[n + 1..]) then Key else Str, n + 1))
    else if HasPrefix(s, "true") then Some(Match(Boolean, 4))
    else if HasPrefix(s, "false") then Some(Match(Boolean, 5))
    else if HasPrefix(s, "null") then Some(Match(Null, 4))
    else if NumberLen(s) > 0 then Some(Match(Number, NumberLen(s)))
    else if s[0] in "{}[],:" then Some(Match(Punctuation, 1))
    else None
  }

  // ----- A global regular expression -----

  ghost predicate IsExpression(re: string -> Option<Match>) {
    forall s :: re(s).Some? ==> 0 < re(s).value.length <= |s| && re(s).value.kind != Other
  }

  // Where the leftmost match starts; the whole length when there is none.
  function FirstMatch(re: string -> Option<Match>, s: string): (i: nat)
    ensures i <= |s|
  {
    if s == "" || re(s).Some? then 0 else 1 + FirstMatch(re, s[1..])
  }

  ghost predicate Leftmost(re: string -> Option<Match>, s: string, i: nat)
    requires i <= |s|
  {
    && (i < |s| ==> re(s[i..]).Some?)
    && forall j :: 0 <= j < i ==> re(s[j..]).None?
  }

  lemma {:induction false} FirstIsLeftmost(re: string -> Option<Match>, s: string)
    ensures Leftmost(re, s, FirstMatch(re, s))
  {
    assert s[0..] == s;
    if s != "" && re(s).None? {
      FirstIsLeftmost(re, s[1..]);
      assert forall j :: 1 <= j <= |s| ==> s[j..] == s[1..][j - 1..];
    }
  }

  lemma LeftmostIsFirst(re: string -> Option<Match>, s: string, i: nat)
    requires i <= |s| && Leftmost(re, s, i)
    ensures FirstMatch(re, s) == i
  {
    FirstIsLeftmost(re, s);
  }

  // exec, from lastIndex
  function Exec(re: string -> Option<Match>, text: string, lastIndex: nat): (found: Option<(nat, Match)>)
    requires IsExpression(re) && lastIndex <= |text|
    ensures found.Some? ==> lastIndex <= found.value.0 < found.value.0 + found.value.1.length <= |text|
    ensures found.Some? ==> re(text[found.value.0..]) == Some(found.value.1)
  {
    var i := FirstMatch(re, text[lastIndex..]);
    FirstIsLeftmost(re, text[lastIndex..]);
    if lastIndex + i == |text| then None
    else
      assert text[lastIndex..][i..] == text[lastIndex + i..];
      Some((lastIndex + i, re(text[lastIndex + i..]).value))
  }

  function Plain(s: string): seq<Token> {
    if s == "" then [] else [Token(Other, s)]
  }

  function AddPlain(tokens: seq<Token>, text: string, start: nat, end: nat): (r: seq<Token>)
    requires start <= end <= |text|
    ensures r == tokens + Plain(text[start..end])
  {
    if end > start then tokens + [Token(Other, text[start..end])] else tokens
  }

  function Tokens(re: string -> Option<Match>, s: string): seq<Token>
    requires IsExpression(re)
    decreases |s|
  {
    if s == "" then []
    else if re(s).Some? then
      var m := re(s).value;
      [Token(m.kind, s[..m.length])] + Tokens(re, s[m.length..])
    else
      var i := FirstMatch(re, s);
      [Token(Other, s[..i])] + Tokens(re, s[i..])
  }

  lemma PlainFirst(re: string -> Option<Match>, s: string)
    requires IsExpression(re)
    ensures Tokens(re, s) == Plain(s[..FirstMatch(re, s)]) + Tokens(re, s[FirstMatch(re, s)..])
  {
    assert s[0..] == s;
  }

  lemma Rest(text: string, i: nat, j: nat)
    requires i <= j <= |text|
    ensures text[i..][j - i..] == text[j..] && text[i..][..j - i] == text[i..j]
  {
  }

  // Moving the front of what is left to the end of what is done.
  lemma Shift<T>(done: seq<T>, front: seq<T>, left: seq<T>, more: seq<T>, whole: seq<T>)
    requires done + left == whole && left == front + more
    ensures (done + front) + more == whole
  {
  }

  // `done` tokenizes the text up to lastIndex.
  ghost predicate Progress(re: string -> Option<Match>, text: string, done: seq<Token>, lastIndex: nat)
    requires IsExpression(re)
  {
    lastIndex <= |text| && done + Tokens(re, text[lastIndex..]) == Tokens(re, text)
  }

  lemma Start(re: string -> Option<Match>, text: string)
    requires IsExpression(re)
    ensures Progress(re, text, [], 0)
  {
    assert text[0..] == text;
  }

  lemma PlainTurn(re: string -> Option<Match>, text: string, done: seq<Token>, start: nat, next: seq<Token>, end: nat)
    requires IsExpression(re) && Progress(re, text, done, start) && end == start + FirstMatch(re, text[start..])
    requires next == done + Plain(text[start..end])
    ensures Progress(re, text, next, end)
  {
    var plain, left, more := Plain(text[start..end]), Tokens(re, text[start..]), Tokens(re, text[end..]);
    assert left == plain + more by {
      Rest(text, start, end);
      PlainFirst(re, text[start..]);
    }
    Shift(done, plain, left, more, Tokens(re, text));
  }

  lemma MatchTurn(re: string -> Option<Match>, text: string, done: seq<Token>, start: nat, m: Match, next: seq<Token>,
                  end: nat)
    requires IsExpression(re) && Progress(re, text, done, start) && start < |text| && re(text[start..]) == Some(m)
    requires end == start + m.length && next == done + [Token(m.kind, text[start..end])]
    ensures Progress(re, text, next, end)
  {
    var one, left, more := [Token(m.kind, text[start..end])], Tokens(re, text[start..]), Tokens(re, text[end..]);
    assert left == one + more by {
      Rest(text, start, end);
    }
    Shift(done, one, left, more, Tokens(re, text));
  }

  lemma Finish(re: string -> Option<Match>, text: string, tokens: seq<Token>)
    requires IsExpression(re) && Progress(re, text, tokens, |text|)
    ensures tokens == Tokens(re, text)
  {
  }

  method Tokenize(re: string -> Option<Match>, text: string) returns (tokens: seq<Token>)
    requires IsExpression(re)
    ensures tokens == Tokens(re, text)
  {
    tokens := [];
    var lastIndex := 0;
    Start(re, text);
    var found := Exec(re, text, lastIndex);
    while found.Some?
      invariant Progress(re, text, tokens, lastIndex)
      invariant found == Exec(re, text, lastIndex)
      decreases |text| - lastIndex
    {
      var (index, m) := found.value;
      ghost var before := tokens;
      tokens := AddPlain(tokens, text, lastIndex, index);
      PlainTurn(re, text, before, lastIndex, tokens, index);
      before := tokens;
      lastIndex := index + m.length;
      tokens := tokens + [Token(m.kind, text[index..lastIndex])];
      MatchTurn(re, text, before, index, m, tokens, lastIndex);
      found := Exec(re, text, lastIndex);
    }
    ghost var before := tokens;
    tokens := AddPlain(tokens, text, lastIndex, |text|);
    PlainTurn(re, text, before, lastIndex, tokens, |text|);
    Finish(re, text, tokens);
  }

  // ----- Lossless, and the only scan -----

  function Text(tokens: seq<Token>): string {
    if tokens == [] then "" else tokens[0].value + Text(tokens[1..])
  }

  // Each token is what the expression finds there, given all that follows it;
  // unmatched stretches are as long as they can be.
  predicate Scanned(re: string -> Option<Match>, tokens: seq<Token>, rest: string) {
    tokens == []
    || (var t, after := tokens[0], Text(tokens[1..]) + rest;
        && t.value != ""
        && Scanned(re, tokens[1..], rest)
        && if t.kind == Other then Unmatched(re, t.value, after) && (|tokens| > 1 ==> tokens[1].kind != Other)
           else re(t.value + after) == Some(Match(t.kind, |t.value|)))
  }

  predicate Unmatched(re: string -> Option<Match>, s: string, after: string) {
    forall i :: 0 <= i < |s| ==> re(s[i..] + after).None?
  }

  lemma UpToFirstMatch(re: string -> Option<Match>, s: string, i: nat)
    requires i == FirstMatch(re, s)
    ensures Unmatched(re, s[..i], s[i..])
    ensures s[i..] != "" ==> re(s[i..]).Some?
  {
    FirstIsLeftmost(re, s);
    forall j | 0 <= j < i ensures re(s[..i][j..] + s[i..]).None? {
      assert s[..i][j..] + s[i..] == s[j..];
    }
  }

  // Whatever the input, the tokens spell it out again, none is empty, and no
  // two neighbours are unmatched text (both are part of Scanned).
  lemma {:induction false} TokensAreAScan(re: string -> Option<Match>, s: string)
    requires IsExpression(re)
    ensures Text(Tokens(re, s)) == s
    ensures Scanned(re, Tokens(re, s), "")
    decreases |s|
  {
    if s != "" {
      var cut := FirstCut(re, s);
      Glue(s, cut);
      TokensAreAScan(re, s[cut..]);
      if re(s).Some? {
        MatchThenScan(re, Token(re(s).value.kind, s[..cut]), s[cut..]);
      } else {
        UpToFirstMatch(re, s, cut);
        PlainThenScan(re, s[..cut], s[cut..]);
      }
    }
  }

  // The length of the first token.
  function FirstCut(re: string -> Option<Match>, s: string): (k: nat)
    requires IsExpression(re) && s != ""
    ensures 0 < k <= |s|
  {
    if re(s).Some? then re(s).value.length
    else FirstMatch(re, s)
  }

  lemma Glue(s: string, k: nat)
    requires k <= |s|
    ensures s[..k] + s[k..] == s
  {
  }

  lemma MatchThenScan(re: string -> Option<Match>, t: Token, rest: string)
    requires IsExpression(re) && Scanned(re, Tokens(re, rest), "") && Text(Tokens(re, rest)) == rest
    requires t.kind != Other && t.value != "" && re(t.value + rest) == Some(Match(t.kind, |t.value|))
    ensures Scanned(re, [t] + Tokens(re, rest), "") && Text([t] + Tokens(re, rest)) == t.value + rest
  {
    assert ([t] + Tokens(re, rest))[1..] == Tokens(re, rest);
    assert rest + "" == rest;
  }

  lemma PlainThenScan(re: string -> Option<Match>, s: string, rest: string)
    requires IsExpression(re) && Scanned(re, Tokens(re, rest), "") && Text(Tokens(re, rest)) == rest
    requires s != "" && Unmatched(re, s, rest) && (rest != "" ==> re(rest).Some?)
    ensures Scanned(re, Plain(s) + Tokens(re, rest), "") && Text(Plain(s) + Tokens(re, rest)) == s + rest
  {
    var tokens := Plain(s) + Tokens(re, rest);
    assert tokens[1..] == Tokens(re, rest);
    assert rest + "" == rest;
  }

  // And there is no other such list.
  lemma {:induction false} ScanIsUnique(re: string -> Option<Match>, tokens: seq<Token>)
    requires IsExpression(re) && Scanned(re, tokens, "")
    ensures Tokens(re, Text(tokens)) == tokens
    decreases |tokens|
  {
    if tokens != [] {
      var t, rest := tokens[0], Text(tokens[1..]);
      var s := t.value + rest;
      assert rest + "" == rest;
      assert s[..|t.value|] == t.value && s[|t.value|..] == rest;
      assert tokens == [t] + tokens[1..];
      ScanIsUnique(re, tokens[1..]);
      if t.kind == Other {
        MatchAfterOther(re, tokens);
        SkipsUnmatched(re, t.value, rest);
        PlainFirst(re, s);
      }
    }
  }

  lemma SkipsUnmatched(re: string -> Option<Match>, s: string, after: string)
    requires Unmatched(re, s, after) && (after != "" ==> re(after).Some?)
    ensures FirstMatch(re, s + after) == |s|
  {
    var whole := s + after;
    forall j | 0 <= j < |s| ensures re(whole[j..]).None? {
      assert whole[j..] == s[j..] + after;
    }
    assert whole[|s|..] == after;
    LeftmostIsFirst(re, whole, |s|);
  }

  lemma MatchAfterOther(re: string -> Option<Match>, tokens: seq<Token>)
    requires tokens != [] && tokens[0].kind == Other && Scanned(re, tokens, "")
    ensures Text(tokens[1..]) != "" ==> re(Text(tokens[1..])).Some?
  {
    var more := tokens[1..];
    if more != [] {
      assert Text(more[1..]) + "" == Text(more[1..]);
    }
  }
}
