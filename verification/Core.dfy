/** Values shared by every part of the model: options, instants and text. */
module Core {

  datatype Option<+T> = None | Some(value: T)

  // An instant is a count of nanoseconds since the Unix epoch, which is the
  // resolution of the program's clock readings.
  type Instant = int

  const SECOND: int := 1_000_000_000
  const HOUR: int := 3600 * SECOND
  const DAY: int := 24 * HOUR

  // time.Unix(seconds, 0)
  function FromUnix(seconds: int): Instant {
    seconds * 1_000_000_000
  }

  predicate HasPrefix(s: string, prefix: string) {
    |prefix| <= |s| && s[..|prefix|] == prefix
  }

  lemma StartsWith(s: string, prefix: string)
    requires prefix != "" && HasPrefix(s, prefix)
    ensures s != "" && s[0] == prefix[0]
  {
    assert s[0] == s[..|prefix|][0];
  }

  predicate Contains(s: string, part: string) {
    HasPrefix(s, part) || (s != [] && Contains(s[1..], part))
  }

  // unicode.IsSpace
  predicate IsSpace(c: char) {
    || c in "\t\n\U{000B}\U{000C}\r \U{0085}\U{00A0}\U{1680}"
    || '\U{2000}' <= c <= '\U{200A}'
    || c in "\U{2028}\U{2029}\U{202F}\U{205F}\U{3000}"
  }

  function TrimLeft(s: string): string {
    if s != [] && IsSpace(s[0]) then TrimLeft(s[1..]) else s
  }

  function TrimRight(s: string): string {
    if s != [] && IsSpace(s[|s| - 1]) then TrimRight(s[..|s| - 1]) else s
  }

  // strings.TrimSpace
  function TrimSpace(s: string): string {
    TrimRight(TrimLeft(s))
  }

  predicate Trimmed(s: string) {
    TrimSpace(s) == s
  }

  predicate AllSpace(s: string) {
    forall i :: 0 <= i < |s| ==> IsSpace(s[i])
  }

  lemma {:induction false} LeftTrimmed(s: string) returns (before: string)
    ensures s == before + TrimLeft(s) && AllSpace(before)
    ensures TrimLeft(s) != "" ==> !IsSpace(TrimLeft(s)[0])
  {
    before := "";
    if s != [] && IsSpace(s[0]) {
      var tail := s[1..];
      var rest := LeftTrimmed(tail);
      before := [s[0]] + rest;
      assert s == [s[0]] + tail && TrimLeft(s) == TrimLeft(tail);
      assert s == before + TrimLeft(s);
    }
  }

  lemma {:induction false} RightTrimmed(s: string) returns (after: string)
    ensures s == TrimRight(s) + after && AllSpace(after)
    ensures TrimRight(s) != "" ==> !IsSpace(TrimRight(s)[|TrimRight(s)| - 1]) && TrimRight(s)[0] == s[0]
    decreases |s|
  {
    after := "";
    if s != [] && IsSpace(s[|s| - 1]) {
      var init, last := s[..|s| - 1], s[|s| - 1];
      var rest := RightTrimmed(init);
      after := rest + [last];
      assert s == init + [last] && TrimRight(s) == TrimRight(init);
      assert s == TrimRight(s) + after;
    } else {
      assert TrimRight(s) == s;
    }
  }

  // Trimming takes away white space at both ends, all of it and nothing else.
  lemma TrimmedOfSpace(s: string) returns (before: string, after: string)
    ensures s == before + TrimSpace(s) + after && AllSpace(before) && AllSpace(after)
    ensures var t := TrimSpace(s); t != "" ==> !IsSpace(t[0]) && !IsSpace(t[|t| - 1])
  {
    before := LeftTrimmed(s);
    after := RightTrimmed(TrimLeft(s));
  }

  lemma TrimmedWhenSolid(s: string)
    requires s != "" ==> !IsSpace(s[0]) && !IsSpace(s[|s| - 1])
    ensures Trimmed(s)
  {
  }

  function LowerChar(c: char): char {
    if 'A' <= c <= 'Z' then c - 'A' + 'a' else c
  }

  // strings.EqualFold on ASCII letters
  predicate EqualFold(a: string, b: string) {
    |a| == |b| && forall i :: 0 <= i < |a| ==> LowerChar(a[i]) == LowerChar(b[i])
  }

  // fmt's %d
  function Digits(n: nat): string {
    if n < 10 then [n as char + '0'] else Digits(n / 10) + [(n % 10) as char + '0']
  }

  function Decimal(n: int): string {
    if n < 0 then "-" + Digits(-n) else Digits(n)
  }

  // The first timestamp that parsed, as Unix seconds, else 0.
  function FirstTime(candidates: seq<Option<int>>): int {
    if candidates == [] then 0
    else if candidates[0].Some? then candidates[0].value
    else FirstTime(candidates[1..])
  }

  function FirstNonEmpty(values: seq<string>): string {
    if values == [] then "" else if values[0] != "" then values[0] else FirstNonEmpty(values[1..])
  }

  lemma Regroup<T>(a: seq<T>, b: seq<T>, c: seq<T>)
    ensures (a + b) + c == a + (b + c)
  {
  }
}
