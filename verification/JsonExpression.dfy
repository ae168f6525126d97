/** The regular expression of the dashboard's tokenizer as it is written, with the
    meaning that the language gives it: alternatives are tried in order, repetitions
    take as much as they can, and both are given up when what follows fails. */
module JsonExpression {
  import opened Core
  import opened JsonTokens

  datatype Re =
    | One(ok: char -> bool)
    | Then(first: Re, second: Re)
    | Or(first: Re, second: Re)
    | Maybe(inner: Re)
    | Many(inner: Re)
    | Ahead(inner: Re)

  // The lengths that an expression can take of a text, in the order of trying.
  function Ends(re: Re, s: string): (ends: seq<nat>)
    ensures forall i :: 0 <= i < |ends| ==> ends[i] <= |s|
    decreases re, |s|, 0
  {
    match re
    case One(ok) => if s != "" && ok(s[0]) then [1] else []
    case Then(a, b) => After(b, s, Ends(a, s))
    case Or(a, b) => Ends(a, s) + Ends(b, s)
    case Maybe(a) => Ends(a, s) + [0]
    case Many(a) => Again(a, s, Ends(a, s)) + [0]
    case Ahead(a) => if Ends(a, s) != [] then [0] else []
  }

  // Each of the lengths taken, and then what b can take of the rest.
  function After(b: Re, s: string, taken: seq<nat>): (ends: seq<nat>)
    requires forall i :: 0 <= i < |taken| ==> taken[i] <= |s|
    ensures forall i :: 0 <= i < |ends| ==> ends[i] <= |s|
    decreases b, |s|, 1, |taken|
  {
    if taken == [] then [] else Plus(taken[0], Ends(b, s[taken[0]..]), |s|) + After(b, s, taken[1..])
  }

  // The same for another round of a repetition, which must take something.
  function Again(a: Re, s: string, taken: seq<nat>): (ends: seq<nat>)
    requires forall i :: 0 <= i < |taken| ==> taken[i] <= |s|
    ensures forall i :: 0 <= i < |ends| ==> ends[i] <= |s|
    decreases Many(a), |s|, 0, |taken|
  {
    if taken == [] then []
    else (if taken[0] == 0 then [] else Plus(taken[0], Ends(Many(a), s[taken[0]..]), |s|)) + Again(a, s, taken[1..])
  }

  function Plus(n: nat, ends: seq<nat>, bound: nat): (r: seq<nat>)
    requires n <= bound && forall i :: 0 <= i < |ends| ==> ends[i] <= bound - n
    ensures |r| == |ends| && forall i :: 0 <= i < |r| ==> r[i] == n + ends[i] <= bound
  {
    seq(|ends|, i requires 0 <= i < |ends| => n + ends[i])
  }

  // ----- The expression -----

  // A word.
  function Word(w: string): Re
    requires w != ""
  {
    var letter := One(c => c == w[0]);
    if |w| == 1 then letter else Then(letter, Word(w[1..]))
  }

  predicate IsQuote(c: char) { c == '"' }
  predicate IsBackslash(c: char) { c == '\\' }
  predicate IsPlain(c: char) { c != '"' && c != '\\' }
  predicate IsAny(c: char) { !EndsLine(c) }
  predicate IsColon(c: char) { c == ':' }
  predicate IsMinus(c: char) { c == '-' }
  predicate IsSign(c: char) { c in "+-" }
  predicate IsPoint(c: char) { c == '.' }
  predicate IsE(c: char) { c in "eE" }
  predicate IsPunctuation(c: char) { c in "{}[],:" }

  // \\.
  function Escape(): Re { Then(One(IsBackslash), One(IsAny)) }

  // [^"\\]|\\.
  function StringPart(): Re { Or(One(IsPlain), Escape()) }

  function Quoted(): Re { Then(One(IsQuote), Then(Many(StringPart()), One(IsQuote))) }

  function ColonNext(): Re { Ahead(Then(Many(One(IsScriptSpace)), One(IsColon))) }

  // \d+
  function DigitsHere(): Re { Then(One(IsDigit), Many(One(IsDigit))) }

  function Fraction(): Re { Maybe(Then(One(IsPoint), DigitsHere())) }

  function Exponent(): Re { Maybe(Then(One(IsE), Then(Maybe(One(IsSign)), DigitsHere()))) }

  function Unsigned(): Re { Then(DigitsHere(), Then(Fraction(), Exponent())) }

  function Numeral(): Re { Then(Maybe(One(IsMinus)), Unsigned()) }

  // The six groups, in order, and what a match of each is called.
  function Groups(): seq<(Kind, Re)> {
    [ (Key, Then(Quoted(), ColonNext())),
      (Str, Quoted()),
      (Boolean, Or(Word("true"), Word("false"))),
      (Null, Word("null")),
      (Number, Numeral()),
      (Punctuation, One(IsPunctuation)) ]
  }

  // The first length that is tried successfully.
  function Longest(re: Re, s: string): Option<nat> {
    if Ends(re, s) == [] then None else Some(Ends(re, s)[0])
  }

  // The match at the start of a text: the first group that has one.
  function MatchOf(groups: seq<(Kind, Re)>, s: string): Option<Match> {
    if groups == [] then None
    else match Longest(groups[0].1, s)
      case Some(n) => Some(Match(groups[0].0, n))
      case None => MatchOf(groups[1..], s)
  }

  // ----- Sequences and repetitions -----

  lemma OneEnds(ok: char -> bool, s: string)
    ensures Ends(One(ok), s) == if s != "" && ok(s[0]) then [1] else []
  {
  }

  lemma ThenEnds(a: Re, b: Re, s: string, k: nat)
    requires k <= |s| && Ends(a, s) == [k]
    ensures Ends(Then(a, b), s) == Plus(k, Ends(b, s[k..]), |s|)
  {
    assert Ends(Then(a, b), s) == After(b, s, Ends(a, s));
    AfterOne(b, s, k);
  }

  lemma ThenNone(a: Re, b: Re, s: string)
    requires Ends(a, s) == []
    ensures Ends(Then(a, b), s) == []
  {
    assert Ends(Then(a, b), s) == After(b, s, []);
  }

  lemma PlusLongest(k: nat, re: Re, s: string)
    requires k <= |s|
    ensures var ends := Plus(k, Ends(re, s[k..]), |s|);
            (if ends == [] then None else Some(ends[0])) == Further(k, Longest(re, s[k..]))
  {
  }

  lemma ThenOne(ok: char -> bool, b: Re, s: string)
    ensures Longest(Then(One(ok), b), s)
         == if s != "" && ok(s[0]) then Further(1, Longest(b, s[1..])) else None
  {
    OneEnds(ok, s);
    if s != "" && ok(s[0]) {
      ThenEnds(One(ok), b, s, 1);
      PlusLongest(1, b, s);
    } else {
      ThenNothing(One(ok), b, s);
    }
  }

  lemma AfterOne(b: Re, s: string, k: nat)
    requires k <= |s|
    ensures After(b, s, [k]) == Plus(k, Ends(b, s[k..]), |s|)
  {
    assert [k][1..] == [] && After(b, s, []) == [];
    assert Plus(k, Ends(b, s[k..]), |s|) + [] == Plus(k, Ends(b, s[k..]), |s|);
  }

  // If the first length of a leaves b a match, that is the first of both.
  lemma ThenLongest(a: Re, b: Re, s: string)
    requires Longest(a, s).Some? && Longest(b, s[Longest(a, s).value..]).Some?
    ensures Longest(Then(a, b), s) == Some(Longest(a, s).value + Longest(b, s[Longest(a, s).value..]).value)
  {
    var taken := Ends(a, s);
    assert After(b, s, taken) == Plus(taken[0], Ends(b, s[taken[0]..]), |s|) + After(b, s, taken[1..]);
    assert Ends(Then(a, b), s) == After(b, s, taken);
  }

  lemma ThenNothing(a: Re, b: Re, s: string)
    requires Longest(a, s).None?
    ensures Longest(Then(a, b), s).None?
  {
    assert Ends(a, s) == [] && Ends(Then(a, b), s) == After(b, s, []);
  }

  lemma MaybeLongest(a: Re, s: string)
    ensures Longest(Maybe(a), s) == Some(if Longest(a, s).Some? then Longest(a, s).value else 0)
  {
  }

  // A repetition that has one way to go on.
  lemma OneMore(a: Re, s: string, k: nat)
    requires Ends(a, s) == [k] && 0 < k <= |s|
    ensures Ends(Many(a), s) == Plus(k, Ends(Many(a), s[k..]), |s|) + [0]
  {
    assert [k][1..] == [] && Again(a, s, []) == [];
    assert Plus(k, Ends(Many(a), s[k..]), |s|) + [] == Plus(k, Ends(Many(a), s[k..]), |s|);
  }

  lemma NoMore(a: Re, s: string)
    requires Ends(a, s) == []
    ensures Ends(Many(a), s) == [0]
  {
    assert [] + [0] == [0];
  }

  lemma {:induction false} AfterConcat(b: Re, s: string, one: seq<nat>, two: seq<nat>)
    requires forall i :: 0 <= i < |one| ==> one[i] <= |s|
    requires forall i :: 0 <= i < |two| ==> two[i] <= |s|
    ensures After(b, s, one + two) == After(b, s, one) + After(b, s, two)
    decreases |one|
  {
    if one == [] {
      assert one + two == two;
    } else {
      assert (one + two)[1..] == one[1..] + two;
      AfterConcat(b, s, one[1..], two);
      Regroup(Plus(one[0], Ends(b, s[one[0]..]), |s|), After(b, s, one[1..]), After(b, s, two));
    }
  }

  lemma {:induction false} AfterPlus(b: Re, s: string, k: nat, taken: seq<nat>)
    requires k <= |s| && forall i :: 0 <= i < |taken| ==> taken[i] <= |s| - k
    ensures After(b, s, Plus(k, taken, |s|)) == Plus(k, After(b, s[k..], taken), |s|)
    decreases |taken|
  {
    if taken != [] {
      var n := taken[0];
      var front, back := Plus(n, Ends(b, s[k..][n..]), |s[k..]|), After(b, s[k..], taken[1..]);
      AfterPlus(b, s, k, taken[1..]);
      assert Plus(k, taken, |s|)[1..] == Plus(k, taken[1..], |s|);
      PlusTwice(b, s, k, n);
      PlusConcat(k, front, back, |s|);
    }
  }

  lemma PlusTwice(b: Re, s: string, k: nat, n: nat)
    requires k + n <= |s|
    ensures Plus(k + n, Ends(b, s[k + n..]), |s|) == Plus(k, Plus(n, Ends(b, s[k..][n..]), |s[k..]|), |s|)
  {
    assert s[k..][n..] == s[k + n..];
  }

  lemma PlusConcat(k: nat, one: seq<nat>, two: seq<nat>, bound: nat)
    requires k <= bound && forall i :: 0 <= i < |one| ==> one[i] <= bound - k
    requires forall i :: 0 <= i < |two| ==> two[i] <= bound - k
    ensures Plus(k, one + two, bound) == Plus(k, one, bound) + Plus(k, two, bound)
  {
  }

  // A repetition followed by something, one round at a time.
  lemma RoundThen(a: Re, b: Re, s: string, k: nat)
    requires Ends(a, s) == [k] && 0 < k <= |s|
    ensures Ends(Then(Many(a), b), s) == Plus(k, Ends(Then(Many(a), b), s[k..]), |s|) + Ends(b, s)
  {
    OneMore(a, s, k);
    AfterConcat(b, s, Plus(k, Ends(Many(a), s[k..]), |s|), [0]);
    AfterPlus(b, s, k, Ends(Many(a), s[k..]));
    AfterNothing(b, s);
  }

  lemma AfterNothing(b: Re, s: string)
    ensures After(b, s, [0]) == Ends(b, s)
  {
    assert s[0..] == s && [0][1..] == [] && After(b, s, []) == [];
    assert Plus(0, Ends(b, s), |s|) == Ends(b, s);
    assert Ends(b, s) + [] == Ends(b, s);
  }

  lemma NoRoundThen(a: Re, b: Re, s: string)
    requires Ends(a, s) == []
    ensures Ends(Then(Many(a), b), s) == Ends(b, s)
  {
    NoMore(a, s);
    AfterNothing(b, s);
  }

  // ----- Strings -----

  lemma EscapeEnds(s: string)
    ensures Ends(Escape(), s) == if |s| >= 2 && s[0] == '\\' && !EndsLine(s[1]) then [2] else []
  {
    OneEnds(IsBackslash, s);
    if s != "" && s[0] == '\\' {
      OneEnds(IsAny, s[1..]);
      ThenEnds(One(IsBackslash), One(IsAny), s, 1);
    } else {
      ThenNone(One(IsBackslash), One(IsAny), s);
    }
  }

  lemma OrEnds(a: Re, b: Re, s: string)
    ensures Ends(Or(a, b), s) == Ends(a, s) + Ends(b, s)
  {
  }

  lemma PartOfString(s: string)
    ensures Ends(StringPart(), s)
         == if s == "" || s[0] == '"' then []
            else if s[0] != '\\' then [1]
            else if |s| >= 2 && !EndsLine(s[1]) then [2] else []
  {
    OneEnds(IsPlain, s);
    EscapeEnds(s);
    OrEnds(One(IsPlain), Escape(), s);
  }

  // The rest of a string after its first quote: there is at most one way.
  lemma {:induction false} RestOfString(s: string)
    ensures Ends(Then(Many(StringPart()), One(IsQuote)), s)
         == if ToClosingQuote(s).Some? then [ToClosingQuote(s).value] else []
    decreases |s|
  {
    PartOfString(s);
    OneEnds(IsQuote, s);
    var k := if s == "" || s[0] == '"' then 0 else if s[0] != '\\' then 1
             else if |s| >= 2 && !EndsLine(s[1]) then 2 else 0;
    if k == 0 {
      NoRoundThen(StringPart(), One(IsQuote), s);
    } else {
      RoundThen(StringPart(), One(IsQuote), s, k);
      RestOfString(s[k..]);
    }
  }

  lemma WholeString(s: string)
    ensures Ends(Quoted(), s)
         == if s != "" && s[0] == '"' && ToClosingQuote(s[1..]).Some? then [1 + ToClosingQuote(s[1..]).value] else []
  {
    OneEnds(IsQuote, s);
    if s != "" && s[0] == '"' {
      RestOfString(s[1..]);
      ThenEnds(One(IsQuote), Then(Many(StringPart()), One(IsQuote)), s, 1);
    } else {
      ThenNone(One(IsQuote), Then(Many(StringPart()), One(IsQuote)), s);
    }
  }

  lemma {:induction false} SpacesThenColon(s: string)
    ensures Ends(Then(Many(One(IsScriptSpace)), One(IsColon)), s) != [] <==> ColonAhead(s)
    decreases |s|
  {
    OneEnds(IsScriptSpace, s);
    OneEnds(IsColon, s);
    if s != "" && IsScriptSpace(s[0]) {
      RoundThen(One(IsScriptSpace), One(IsColon), s, 1);
      SpacesThenColon(s[1..]);
    } else {
      NoRoundThen(One(IsScriptSpace), One(IsColon), s);
    }
  }

  lemma KeyAtStart(s: string)
    ensures Ends(Then(Quoted(), ColonNext()), s)
         == if Ends(Quoted(), s) != [] && ColonAhead(s[Ends(Quoted(), s)[0]..]) then Ends(Quoted(), s) else []
  {
    WholeString(s);
    if Ends(Quoted(), s) == [] {
      ThenNone(Quoted(), ColonNext(), s);
    } else {
      var n := Ends(Quoted(), s)[0];
      SpacesThenColon(s[n..]);
      assert Ends(Quoted(), s) == [n];
      ThenEnds(Quoted(), ColonNext(), s, n);
    }
  }

  // ----- Numbers -----

  lemma {:induction false} ManyDigits(s: string)
    ensures Longest(Many(One(IsDigit)), s) == Some(DigitRun(s))
    decreases |s|
  {
    OneEnds(IsDigit, s);
    if s != "" && IsDigit(s[0]) {
      OneMore(One(IsDigit), s, 1);
      ManyDigits(s[1..]);
    } else {
      NoMore(One(IsDigit), s);
    }
  }

  lemma SomeDigits(s: string)
    ensures Longest(DigitsHere(), s) == if DigitRun(s) > 0 then Some(DigitRun(s)) else None
  {
    ThenOne(IsDigit, Many(One(IsDigit)), s);
    if s != "" {
      ManyDigits(s[1..]);
    }
  }

  lemma FractionAtStart(s: string)
    ensures Longest(Fraction(), s) == Some(FractionLen(s))
  {
    var inner := Then(One(IsPoint), DigitsHere());
    ThenOne(IsPoint, DigitsHere(), s);
    MaybeLongest(inner, s);
    if s != "" {
      SomeDigits(s[1..]);
    }
  }

  // The sign may be given up when no digits follow it, but then none follow it
  // without it either.
  lemma SignedDigits(s: string, ok: char -> bool, b: Re)
    requires forall c :: ok(c) ==> !IsDigit(c)
    requires forall t :: Longest(b, t).Some? ==> t != "" && IsDigit(t[0])
    ensures Longest(Then(Maybe(One(ok)), b), s)
         == if s != "" && ok(s[0]) then Further(1, Longest(b, s[1..])) else Longest(b, s)
  {
    OneEnds(ok, s);
    var maybe := Maybe(One(ok));
    if s != "" && ok(s[0]) {
      assert Ends(maybe, s) == [1] + [0];
      AfterConcat(b, s, [1], [0]);
      AfterOne(b, s, 1);
      AfterNothing(b, s);
      assert Longest(b, s).None?;
      PlusLongest(1, b, s);
      assert Ends(Then(maybe, b), s) == Plus(1, Ends(b, s[1..]), |s|) + [];
    } else {
      assert Ends(maybe, s) == [] + [0] == [0];
      AfterNothing(b, s);
    }
  }

  lemma DigitsStartWithOne(t: string)
    ensures Longest(DigitsHere(), t).Some? ==> t != "" && IsDigit(t[0])
  {
    SomeDigits(t);
  }

  lemma SignThenDigits(s: string)
    ensures Longest(Then(Maybe(One(IsSign)), DigitsHere()), s)
         == if s != "" && IsSign(s[0]) then Further(1, Longest(DigitsHere(), s[1..])) else Longest(DigitsHere(), s)
  {
    forall t ensures Longest(DigitsHere(), t).Some? ==> t != "" && IsDigit(t[0]) {
      DigitsStartWithOne(t);
    }
    SignedDigits(s, IsSign, DigitsHere());
  }

  lemma ExponentAtStart(s: string)
    ensures Longest(Exponent(), s) == Some(ExponentLen(s))
  {
    var signed := Then(Maybe(One(IsSign)), DigitsHere());
    ThenOne(IsE, signed, s);
    MaybeLongest(Then(One(IsE), signed), s);
    if s != "" && IsE(s[0]) {
      var t := s[1..];
      SignThenDigits(t);
      SomeDigits(t);
      if t != "" && IsSign(t[0]) {
        SomeDigits(t[1..]);
        assert t[1..] == s[2..];
      }
    }
  }

  lemma PartsOfANumber(s: string)
    ensures Longest(Then(Fraction(), Exponent()), s) == Some(FractionLen(s) + ExponentLen(s[FractionLen(s)..]))
  {
    FractionAtStart(s);
    ExponentAtStart(s[FractionLen(s)..]);
    ThenLongest(Fraction(), Exponent(), s);
  }

  // The length of an unsigned number, nought where there is none.
  function UnsignedLen(s: string): nat {
    var digits := DigitRun(s);
    if digits == 0 then 0
    else
      var whole := digits + FractionLen(s[digits..]);
      whole + ExponentLen(s[whole..])
  }

  lemma DropTwice(s: string, i: nat, j: nat)
    requires i + j <= |s|
    ensures s[i..][j..] == s[i + j..]
  {
  }

  lemma TwoParts(a: Re, b: Re, s: string, m: nat, n: nat)
    requires m <= |s| && Longest(a, s) == Some(m) && Longest(b, s[m..]) == Some(n)
    ensures Longest(Then(a, b), s) == Some(m + n)
  {
    ThenLongest(a, b, s);
  }

  lemma UnsignedWithDigits(s: string, digits: nat, t: string, point: nat, exponent: nat)
    requires digits == DigitRun(s) && 0 < digits && t == s[digits..]
    requires point == FractionLen(t) && exponent == ExponentLen(t[point..])
    ensures Longest(Unsigned(), s) == Some(digits + (point + exponent))
  {
    PartsOfANumber(t);
    SomeDigits(s);
    TwoParts(DigitsHere(), Then(Fraction(), Exponent()), s, digits, point + exponent);
  }

  lemma UnsignedLenIs(s: string, digits: nat, t: string, point: nat, exponent: nat)
    requires digits == DigitRun(s) && 0 < digits && t == s[digits..]
    requires point == FractionLen(t) && exponent == ExponentLen(t[point..])
    ensures UnsignedLen(s) == digits + (point + exponent)
  {
    DropTwice(s, digits, point);
  }

  lemma NothingUnsigned(s: string)
    requires DigitRun(s) == 0
    ensures Longest(Unsigned(), s) == None
  {
    SomeDigits(s);
    ThenNothing(DigitsHere(), Then(Fraction(), Exponent()), s);
  }

  lemma SomethingUnsigned(s: string, digits: nat, t: string, point: nat, exponent: nat)
    requires digits == DigitRun(s) && 0 < digits && t == s[digits..]
    requires point == FractionLen(t) && exponent == ExponentLen(t[point..])
    ensures Longest(Unsigned(), s) == Some(UnsignedLen(s))
  {
    UnsignedWithDigits(s, digits, t, point, exponent);
    UnsignedLenIs(s, digits, t, point, exponent);
  }

  lemma NumberParts(t: string) returns (point: nat, exponent: nat)
    ensures point <= |t| && point == FractionLen(t) && exponent == ExponentLen(t[point..])
  {
    point := FractionLen(t);
    exponent := ExponentLen(t[point..]);
  }

  lemma UnsignedAtStart(s: string)
    ensures Longest(Unsigned(), s) == if DigitRun(s) > 0 then Some(UnsignedLen(s)) else None
  {
    var digits := DigitRun(s);
    if digits > 0 {
      var point, exponent := NumberParts(s[digits..]);
      SomethingUnsigned(s, digits, s[digits..], point, exponent);
    } else {
      NothingUnsigned(s);
    }
  }

  lemma NumeralAtStart(s: string)
    ensures Longest(Numeral(), s)
         == if s != "" && s[0] == '-' then Further(1, Longest(Unsigned(), s[1..])) else Longest(Unsigned(), s)
  {
    forall t ensures Longest(Unsigned(), t).Some? ==> t != "" && IsDigit(t[0]) {
      UnsignedAtStart(t);
    }
    SignedDigits(s, IsMinus, Unsigned());
  }

  lemma NumberLenIs(s: string, sign: nat)
    requires sign == (if s != "" && s[0] == '-' then 1 else 0)
    ensures NumberLen(s) == if DigitRun(s[sign..]) > 0 then sign + UnsignedLen(s[sign..]) else 0
  {
    var t := s[sign..];
    var digits := DigitRun(t);
    if digits > 0 {
      DropTwice(s, sign, digits);
      var whole := digits + FractionLen(t[digits..]);
      DropTwice(s, sign, whole);
      assert IntegerLen(s) == sign + digits;
      assert DecimalLen(s) == sign + whole;
    }
  }

  lemma NumberIs(s: string)
    ensures Longest(Numeral(), s) == if NumberLen(s) > 0 then Some(NumberLen(s)) else None
  {
    var sign := if s != "" && s[0] == '-' then 1 else 0;
    NumeralAtStart(s);
    UnsignedAtStart(s[sign..]);
    NumberLenIs(s, sign);
    assert sign == 0 ==> s[sign..] == s;
  }

  // ----- Words -----

  lemma {:induction false} WordEnds(w: string, s: string)
    requires w != ""
    ensures Ends(Word(w), s) == if HasPrefix(s, w) then [|w|] else []
    decreases |w|
  {
    if |w| == 1 {
      OneEnds(Word(w).ok, s);
      assert s != "" ==> (s[..1] == w <==> s[0] == w[0]);
    } else {
      var ok, rest := Word(w).first.ok, Word(w[1..]);
      OneEnds(ok, s);
      if s != "" && s[0] == w[0] {
        WordEnds(w[1..], s[1..]);
        ThenEnds(One(ok), rest, s, 1);
        PrefixOfRest(w, s);
      } else {
        ThenNone(One(ok), rest, s);
        if HasPrefix(s, w) {
          StartsWith(s, w);
        }
      }
    }
  }

  lemma PrefixOfRest(w: string, s: string)
    requires w != "" && s != "" && s[0] == w[0]
    ensures HasPrefix(s, w) <==> HasPrefix(s[1..], w[1..])
  {
    if |w| <= |s| {
      assert s[..|w|] == [s[0]] + s[1..][..|w| - 1];
      assert w == [w[0]] + w[1..];
      assert s[1..][..|w| - 1] == s[..|w|][1..];
    }
  }

  // ----- The whole expression -----

  lemma FirstGroup(groups: seq<(Kind, Re)>, s: string)
    requires groups != []
    ensures MatchOf(groups, s)
         == if Longest(groups[0].1, s).Some? then Some(Match(groups[0].0, Longest(groups[0].1, s).value))
            else MatchOf(groups[1..], s)
  {
  }

  // What the six groups say, one after the other.
  lemma GroupsInOrder(s: string)
    ensures MatchOf(Groups(), s)
         == if Longest(Then(Quoted(), ColonNext()), s).Some?
            then Some(Match(Key, Longest(Then(Quoted(), ColonNext()), s).value))
            else if Longest(Quoted(), s).Some? then Some(Match(Str, Longest(Quoted(), s).value))
            else if Longest(Or(Word("true"), Word("false")), s).Some?
            then Some(Match(Boolean, Longest(Or(Word("true"), Word("false")), s).value))
            else if Longest(Word("null"), s).Some? then Some(Match(Null, Longest(Word("null"), s).value))
            else if Longest(Numeral(), s).Some? then Some(Match(Number, Longest(Numeral(), s).value))
            else if Longest(One(IsPunctuation), s).Some?
            then Some(Match(Punctuation, Longest(One(IsPunctuation), s).value))
            else None
  {
    var g := Groups();
    FirstGroup(g, s);
    FirstGroup(g[1..], s);
    FirstGroup(g[1..][1..], s);
    FirstGroup(g[1..][1..][1..], s);
    FirstGroup(g[1..][1..][1..][1..], s);
    FirstGroup(g[1..][1..][1..][1..][1..], s);
    assert g[1..][1..][1..][1..][1..][1..] == [];
  }

  lemma BooleanIs(s: string)
    ensures Longest(Or(Word("true"), Word("false")), s)
         == if HasPrefix(s, "true") then Some(4) else if HasPrefix(s, "false") then Some(5) else None
  {
    WordEnds("true", s);
    WordEnds("false", s);
    OrEnds(Word("true"), Word("false"), s);
  }

  lemma StringsAre(s: string)
    ensures Longest(Quoted(), s)
         == if s != "" && s[0] == '"' then Further(1, ToClosingQuote(s[1..])) else None
    ensures Longest(Then(Quoted(), ColonNext()), s)
         == if Longest(Quoted(), s).Some? && ColonAhead(s[Longest(Quoted(), s).value..]) then Longest(Quoted(), s)
            else None
  {
    WholeString(s);
    KeyAtStart(s);
  }

  lemma StartsOtherwise(s: string, w: string)
    requires s != "" && w != "" && s[0] != w[0]
    ensures !HasPrefix(s, w)
  {
    if HasPrefix(s, w) {
      StartsWith(s, w);
    }
  }

  lemma NoOtherStart(s: string)
    requires s != "" && s[0] == '"'
    ensures !HasPrefix(s, "true") && !HasPrefix(s, "false") && !HasPrefix(s, "null") && NumberLen(s) == 0
  {
    StartsOtherwise(s, "true");
    StartsOtherwise(s, "false");
    StartsOtherwise(s, "null");
    assert s[0..] == s;
  }

  // The match that the tokenizer looks for at the start of a text is the one that
  // the expression, as it is written, finds there.
  lemma MatchHereIsTheExpression(s: string)
    ensures MatchHere(s) == MatchOf(Groups(), s)
  {
    GroupsInOrder(s);
    StringsAre(s);
    BooleanIs(s);
    WordEnds("null", s);
    NumberIs(s);
    OneEnds(IsPunctuation, s);
    if s != "" && s[0] == '"' {
      NoOtherStart(s);
    }
  }

  // The expression as it is written, as a function of the text.
  function AsWritten(s: string): Option<Match> {
    MatchOf(Groups(), s)
  }

  // So a scan by the one is a scan by the other.
  lemma {:induction false} ScannedAsWritten(tokens: seq<Token>, rest: string)
    requires Scanned(MatchHere, tokens, rest)
    ensures Scanned(AsWritten, tokens, rest)
    decreases |tokens|
  {
    if tokens != [] {
      var t, after := tokens[0], Text(tokens[1..]) + rest;
      ScannedAsWritten(tokens[1..], rest);
      MatchHereIsTheExpression(t.value + after);
      forall i | 0 <= i < |t.value| ensures MatchHere(t.value[i..] + after) == AsWritten(t.value[i..] + after) {
        MatchHereIsTheExpression(t.value[i..] + after);
      }
    }
  }
}
