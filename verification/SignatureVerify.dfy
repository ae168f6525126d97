/** Checking a captured webhook against the endpoint's stored secrets. The two
    keyed hashes are parameters; the header parsers are written out. */
module SignatureVerify {
  import opened Core

  datatype Secret = Secret(provider: string, key: string)

  datatype Request = Request(headers: map<string, string>, body: string)

  datatype Result = Result(status: string, provider: string, reason: string)

  // Lower-case hexadecimal HMAC-SHA256 and HMAC-SHA512 of a payload under a key.
  datatype Hashes = Hashes(sha256: (string, string) -> string, sha512: (string, string) -> string)

  predicate IsHex(s: string) {
    s != "" && forall i :: 0 <= i < |s| ==> s[i] in "0123456789abcdef"
  }

  ghost predicate Hexadecimal(h: Hashes) {
    forall payload, key :: IsHex(h.sha256(payload, key)) && IsHex(h.sha512(payload, key))
  }

  // A missing header reads as the empty string.
  function Header(req: Request, name: string): string {
    if name in req.headers then req.headers[name] else ""
  }

  function Failed(provider: string, reason: string): Result {
    Result("failed", provider, reason)
  }

  // ----- strings.Split, strings.SplitN(_, "=", 2), strconv.ParseInt -----

  function IndexOf(s: string, c: char): (i: nat)
    ensures i <= |s| && c !in s[..i] && (i < |s| ==> s[i] == c)
  {
    if s == "" || s[0] == c then 0
    else
      var i := 1 + IndexOf(s[1..], c);
      assert s[..i] == [s[0]] + s[1..][..i - 1];
      i
  }

  function Split(s: string, c: char): (parts: seq<string>)
    ensures parts != []
  {
    var i := IndexOf(s, c);
    if i == |s| then [s] else [s[..i]] + Split(s[i + 1..], c)
  }

  // The trimmed halves of a name=value field; None without an equals sign.
  function NameValue(field: string): Option<(string, string)> {
    var i := IndexOf(field, '=');
    if i == |field| then None else Some((TrimSpace(field[..i]), TrimSpace(field[i + 1..])))
  }

  function Parts(fields: seq<string>): map<string, string> {
    if fields == [] then map[]
    else
      var before, nv := Parts(fields[..|fields| - 1]), NameValue(fields[|fields| - 1]);
      if nv.Some? then before[nv.value.0 := nv.value.1] else before
  }

  method ParseParts(header: string) returns (parts: map<string, string>)
    ensures parts == Parts(Split(header, ','))
  {
    parts := map[];
    var fields := Split(header, ',');
    for i := 0 to |fields|
      invariant parts == Parts(fields[..i])
    {
      assert fields[..i + 1][..i] == fields[..i];
      var nv := NameValue(fields[i]);
      if nv.Some? {
        parts := parts[nv.value.0 := nv.value.1];
      }
    }
    assert fields[..|fields|] == fields;
  }

  const INT64_MAX: int := 0x7FFF_FFFF_FFFF_FFFF
  const INT64_MIN: int := -0x8000_0000_0000_0000

  // Two's-complement wrap-around of a 64-bit result.
  function Wrap64(n: int): int {
    (n - INT64_MIN) % 0x1_0000_0000_0000_0000 + INT64_MIN
  }

  predicate AllDigits(s: string) {
    forall i :: 0 <= i < |s| ==> '0' <= s[i] <= '9'
  }

  function DigitsValue(s: string): (n: nat)
    requires AllDigits(s)
  {
    if s == "" then 0 else 10 * DigitsValue(s[..|s| - 1]) + (s[|s| - 1] - '0') as nat
  }

  function ParseInt(s: string): (n: Option<int>)
    ensures n.Some? ==> INT64_MIN <= n.value <= INT64_MAX
  {
    var signed := s != "" && s[0] in "+-";
    var digits := if signed then s[1..] else s;
    if digits == "" || !AllDigits(digits) then None
    else
      var n: int := if signed && s[0] == '-' then 0 - DigitsValue(digits) else DigitsValue(digits);
      if INT64_MIN <= n <= INT64_MAX then Some(n) else None
  }

  // ----- The providers -----

  function VerifyStripe(h: Hashes, req: Request, key: string, now: int): Result {
    var header := Header(req, "Stripe-Signature");
    if header == "" then Failed("stripe", "Stripe-Signature header missing")
    else
      var parts := Parts(Split(header, ','));
      CheckStripe(h, req.body, key, now,
                  if "t" in parts then parts["t"] else "", if "v1" in parts then parts["v1"] else "")
  }

  function CheckStripe(h: Hashes, body: string, key: string, now: int, timestamp: string, signature: string): Result {
    if timestamp == "" || signature == "" then Failed("stripe", "malformed Stripe-Signature header")
    else if ParseInt(timestamp).None? then Failed("stripe", "invalid timestamp")
    else
      var age := Wrap64(now - ParseInt(timestamp).value);
      if age > 300 then Failed("stripe", "timestamp too old (" + Decimal(age) + "s). Possible replay attack")
      else if h.sha256(timestamp + "." + body, key) != signature then Failed("stripe", "signature mismatch")
      else Result("verified", "stripe", "HMAC-SHA256 verified")
  }

  function VerifyPaystack(h: Hashes, req: Request, key: string): Result {
    var header := Header(req, "X-Paystack-Signature");
    if header == "" then Failed("paystack", "X-Paystack-Signature header missing")
    else if h.sha512(req.body, key) != header then Failed("paystack", "signature mismatch")
    else Result("verified", "paystack", "HMAC-SHA512 verified")
  }

  function VerifyGitHub(h: Hashes, req: Request, key: string): Result {
    var header := Header(req, "X-Hub-Signature-256");
    if header == "" then Failed("github", "X-Hub-Signature-256 header missing")
    else if !HasPrefix(header, "sha256=") then Failed("github", "unexpected signature format")
    else if h.sha256(req.body, key) != header[|"sha256="|..] then Failed("github", "signature mismatch")
    else Result("verified", "github", "HMAC-SHA256 verified")
  }

  const CANDIDATES := ["X-Signature-256", "X-Webhook-Signature", "X-Signature", "Webhook-Signature"]

  // The first of the names whose header is not empty.
  function FirstHeader(req: Request, names: seq<string>): (name: Option<string>)
    ensures name.Some? ==> name.value in names && Header(req, name.value) != ""
    ensures name.None? ==> forall n :: n in names ==> Header(req, n) == ""
  {
    if names == [] then None
    else if Header(req, names[0]) != "" then Some(names[0])
    else FirstHeader(req, names[1..])
  }

  function TrimPrefix(s: string, prefix: string): string {
    if HasPrefix(s, prefix) then s[|prefix|..] else s
  }

  const PREFIXES := ["sha256=", "hmac=", "v1="]

  function Strip(s: string, prefixes: seq<string>): string {
    if prefixes == [] then s else Strip(TrimPrefix(s, prefixes[0]), prefixes[1..])
  }

  method StripPrefixes(header: string) returns (sig: string)
    ensures sig == Strip(header, PREFIXES)
  {
    sig := header;
    for i := 0 to |PREFIXES|
      invariant Strip(sig, PREFIXES[i..]) == Strip(header, PREFIXES)
    {
      sig := TrimPrefix(sig, PREFIXES[i]);
    }
  }

  function VerifyGeneric(h: Hashes, req: Request, key: string, provider: string): Result {
    var name := FirstHeader(req, CANDIDATES);
    if name.None? then Failed(provider, "no recognised signature header found")
    else if h.sha256(req.body, key) != Strip(Header(req, name.value), PREFIXES) then
      Failed(provider, "HMAC-SHA256 mismatch on " + name.value)
    else Result("verified", provider, "HMAC-SHA256 verified via " + name.value)
  }

  function VerifyOne(h: Hashes, req: Request, s: Secret, now: int): (r: Result)
    ensures r.status == "verified" || r.status == "failed"
  {
    if s.provider == "stripe" then VerifyStripe(h, req, s.key, now)
    else if s.provider == "paystack" then VerifyPaystack(h, req, s.key)
    else if s.provider == "github" then VerifyGitHub(h, req, s.key)
    else VerifyGeneric(h, req, s.key, s.provider)
  }

  predicate Verifies(h: Hashes, req: Request, s: Secret, now: int) {
    VerifyOne(h, req, s, now).status == "verified"
  }

  // The first secret that verifies decides; with none, the last failure is reported.
  method FirstVerified(check: Secret -> Result, secrets: seq<Secret>) returns (r: Result)
    ensures secrets == [] ==> r == Result("unverified", "", "no secret configured")
    ensures r.status == "verified" <==> exists i :: 0 <= i < |secrets| && check(secrets[i]).status == "verified"
    ensures r.status == "verified" ==>
              exists i :: 0 <= i < |secrets| && r == check(secrets[i])
                          && forall j :: 0 <= j < i ==> check(secrets[j]).status != "verified"
    ensures secrets != [] && r.status != "verified" ==> r == check(secrets[|secrets| - 1])
  {
    if secrets == [] {
      return Result("unverified", "", "no secret configured");
    }
    var lastFailure := Result("", "", "");
    for i := 0 to |secrets|
      invariant forall j :: 0 <= j < i ==> check(secrets[j]).status != "verified"
      invariant i > 0 ==> lastFailure == check(secrets[i - 1])
    {
      var result := check(secrets[i]);
      if result.status == "verified" {
        return result;
      }
      lastFailure := result;
    }
    return lastFailure;
  }

  // ----- What the Stripe parser reads -----

  function Join(fields: seq<string>, c: char): string {
    if fields == [] then "" else if |fields| == 1 then fields[0] else fields[0] + [c] + Join(fields[1..], c)
  }

  lemma IndexIs(s: string, c: char, i: nat)
    requires i <= |s| && c !in s[..i] && (i < |s| ==> s[i] == c)
    ensures IndexOf(s, c) == i
  {
    var k := IndexOf(s, c);
    assert forall j :: 0 <= j < i ==> s[..i][j] == s[j];
    assert forall j :: 0 <= j < k ==> s[..k][j] == s[j];
  }

  lemma {:induction false} SplitUndoesJoin(fields: seq<string>, c: char)
    requires fields != [] && forall i :: 0 <= i < |fields| ==> c !in fields[i]
    ensures Split(Join(fields, c), c) == fields
    decreases fields
  {
    var head := fields[0];
    assert head[..|head|] == head;
    if |fields| == 1 {
      IndexIs(head, c, |head|);
    } else {
      var s := Join(fields, c);
      assert s[..|head|] == head && s[|head| + 1..] == Join(fields[1..], c);
      IndexIs(s, c, |head|);
      SplitUndoesJoin(fields[1..], c);
    }
  }

  // The value of the last field with this name.
  function LastNamed(fields: seq<string>, name: string): Option<string> {
    if fields == [] then None
    else
      var nv := NameValue(fields[|fields| - 1]);
      if nv.Some? && nv.value.0 == name then Some(nv.value.1) else LastNamed(fields[..|fields| - 1], name)
  }

  lemma {:induction false} PartsHoldTheLast(fields: seq<string>, name: string)
    ensures (if name in Parts(fields) then Some(Parts(fields)[name]) else None) == LastNamed(fields, name)
    decreases |fields|
  {
    if fields != [] {
      PartsHoldTheLast(fields[..|fields| - 1], name);
    }
  }

  lemma {:induction false} LastNamedAt(fields: seq<string>, name: string, k: nat, value: string)
    requires k < |fields| && NameValue(fields[k]) == Some((name, value))
    requires forall i :: k < i < |fields| ==> NameValue(fields[i]).None? || NameValue(fields[i]).value.0 != name
    ensures LastNamed(fields, name) == Some(value)
    decreases |fields|
  {
    if k < |fields| - 1 {
      LastNamedAt(fields[..|fields| - 1], name, k, value);
    }
  }

  lemma {:induction false} DigitsRead(n: nat)
    ensures Digits(n) != "" && AllDigits(Digits(n)) && DigitsValue(Digits(n)) == n
  {
    if n < 10 {
      assert DigitsValue(Digits(n)[..0]) == 0;
    } else {
      DigitsRead(n / 10);
      assert Digits(n)[..|Digits(n)| - 1] == Digits(n / 10);
    }
  }

  lemma UnsignedRead(digits: string)
    requires digits != "" && AllDigits(digits) && DigitsValue(digits) <= INT64_MAX
    ensures ParseInt(digits) == Some(DigitsValue(digits))
  {
    assert digits[0] !in "+-";
  }

  lemma NegativeRead(digits: string)
    requires digits != "" && AllDigits(digits) && INT64_MIN <= 0 - DigitsValue(digits)
    ensures ParseInt("-" + digits) == Some(0 - DigitsValue(digits))
  {
    var s := "-" + digits;
    assert s[0] == '-' && s[1..] == digits;
    assert s[0] in "+-";
  }

  lemma DecimalRead(n: int)
    requires INT64_MIN <= n <= INT64_MAX
    ensures ParseInt(Decimal(n)) == Some(n)
  {
    DigitsRead(if n < 0 then -n else n);
    if n < 0 {
      NegativeRead(Digits(-n));
    } else {
      UnsignedRead(Digits(n));
    }
  }

  lemma DigitIsSolid(c: char)
    requires '0' <= c <= '9' || c == '-' || c in "0123456789abcdef"
    ensures !IsSpace(c)
  {
  }

  lemma DecimalIsPlain(n: int)
    ensures Decimal(n) != "" && Trimmed(Decimal(n)) && ',' !in Decimal(n)
  {
    var s := Decimal(n);
    DigitsRead(if n < 0 then -n else n);
    DigitIsSolid(s[0]);
    DigitIsSolid(s[|s| - 1]);
    TrimmedWhenSolid(s);
  }

  lemma HexIsPlain(s: string)
    requires IsHex(s)
    ensures Trimmed(s) && ',' !in s
  {
    DigitIsSolid(s[0]);
    DigitIsSolid(s[|s| - 1]);
    TrimmedWhenSolid(s);
  }

  lemma NamedField(name: string, value: string)
    requires '=' !in name && Trimmed(name) && Trimmed(value)
    ensures NameValue(name + "=" + value) == Some((name, value))
  {
    var s := name + "=" + value;
    assert s[..|name|] == name && s[|name| + 1..] == value;
    IndexIs(s, '=', |name|);
  }

  predicate StripeOk(h: Hashes, body: string, key: string, now: int, t: string, v1: string) {
    ParseInt(t).Some? && Wrap64(now - ParseInt(t).value) <= 300 && v1 == h.sha256(t + "." + body, key)
  }

  lemma StripeChecked(h: Hashes, body: string, key: string, now: int, t: string, v1: string)
    requires Hexadecimal(h)
    ensures CheckStripe(h, body, key, now, t, v1).status == "verified" <==> StripeOk(h, body, key, now, t, v1)
  {
    assert IsHex(h.sha256(t + "." + body, key));
  }

  // Whatever the fields, the last `t` and the last `v1` decide.
  lemma StripeReadsTheLastFields(h: Hashes, req: Request, key: string, now: int, fields: seq<string>)
    requires fields != [] && Header(req, "Stripe-Signature") == Join(fields, ',')
    requires forall i :: 0 <= i < |fields| ==> ',' !in fields[i]
    requires Hexadecimal(h)
    ensures VerifyStripe(h, req, key, now).status == "verified" <==>
            LastOk(h, req.body, key, now, LastNamed(fields, "t"), LastNamed(fields, "v1"))
  {
    if Join(fields, ',') == "" {
      NoFieldsInNothing(fields);
    } else {
      StripeParsed(h, req, key, now, fields);
      LastChecked(h, req.body, key, now, LastNamed(fields, "t"), LastNamed(fields, "v1"));
    }
  }

  predicate LastOk(h: Hashes, body: string, key: string, now: int, t: Option<string>, v1: Option<string>) {
    t.Some? && v1.Some? && StripeOk(h, body, key, now, t.value, v1.value)
  }

  function OrEmpty(value: Option<string>): string {
    if value.Some? then value.value else ""
  }

  lemma LastChecked(h: Hashes, body: string, key: string, now: int, t: Option<string>, v1: Option<string>)
    requires Hexadecimal(h)
    ensures CheckStripe(h, body, key, now, OrEmpty(t), OrEmpty(v1)).status == "verified" <==>
        LastOk(h, body, key, now, t, v1)
  {
    StripeChecked(h, body, key, now, OrEmpty(t), OrEmpty(v1));
    assert IsHex(h.sha256(OrEmpty(t) + "." + body, key));
  }

  lemma StripeParsed(h: Hashes, req: Request, key: string, now: int, fields: seq<string>)
    requires fields != [] && Header(req, "Stripe-Signature") == Join(fields, ',') != ""
    requires forall i :: 0 <= i < |fields| ==> ',' !in fields[i]
    ensures VerifyStripe(h, req, key, now)
            == CheckStripe(h, req.body, key, now, OrEmpty(LastNamed(fields, "t")), OrEmpty(LastNamed(fields, "v1")))
  {
    SplitUndoesJoin(fields, ',');
    PartsHoldTheLast(fields, "t");
    PartsHoldTheLast(fields, "v1");
  }

  lemma NoFieldsInNothing(fields: seq<string>)
    requires fields != [] && Join(fields, ',') == ""
    ensures LastNamed(fields, "t").None?
  {
    assert fields == [""];
    assert fields[..0] == [];
    assert NameValue("").None?;
  }

  // 64-bit subtraction lets a timestamp through exactly when it is at most five
  // minutes old or so old that its age does not fit.
  lemma AgeCheck(now: int, ts: int)
    requires 0 <= now <= INT64_MAX && INT64_MIN <= ts <= INT64_MAX
    ensures Wrap64(now - ts) <= 300 <==> now - ts <= 300 || now - ts > INT64_MAX
  {
  }

  lemma SpelledOut(name: string, value: string, field: string)
    requires ',' !in name && ',' !in value
    requires |field| == |name| + 1 + |value| && field[..|name|] == name && field[|name|] == '='
    requires field[|name| + 1..] == value
    ensures field == name + "=" + value && ',' !in field
  {
  }

  lemma TimeField(t: string)
    requires Trimmed(t) && ',' !in t
    ensures NameValue("t=" + t) == Some(("t", t)) && ',' !in "t=" + t
  {
    TrimmedWhenSolid("t");
    NamedField("t", t);
    SpelledOut("t", t, "t=" + t);
  }

  lemma SignatureField(v1: string)
    requires Trimmed(v1) && ',' !in v1
    ensures NameValue("v1=" + v1) == Some(("v1", v1)) && ',' !in "v1=" + v1
  {
    TrimmedWhenSolid("v1");
    NamedField("v1", v1);
    SpelledOut("v1", v1, "v1=" + v1);
  }

  // Fields other than the i-th and the j-th are neither a `t` nor a `v1`.
  predicate OnlyPair(fields: seq<string>, i: nat, j: nat) {
    forall k :: 0 <= k < |fields| && k != i && k != j ==>
      ',' !in fields[k] && (NameValue(fields[k]).Some? ==> NameValue(fields[k]).value.0 !in ["t", "v1"])
  }

  lemma PairIsRead(fields: seq<string>, i: nat, j: nat, t: string, v1: string)
    requires i < |fields| && fields[i] == "t=" + t && j < |fields| && fields[j] == "v1=" + v1
    requires Trimmed(t) && Trimmed(v1) && ',' !in t && ',' !in v1
    requires OnlyPair(fields, i, j)
    ensures LastNamed(fields, "t") == Some(t) && LastNamed(fields, "v1") == Some(v1)
    ensures forall k :: 0 <= k < |fields| ==> ',' !in fields[k]
  {
    TimeField(t);
    SignatureField(v1);
    assert "t" != "v1";
    LastNamedAt(fields, "t", i, t);
    LastNamedAt(fields, "v1", j, v1);
  }

  lemma GenuinePair(h: Hashes, body: string, key: string, now: int, ts: int)
    requires 0 <= now <= INT64_MAX && INT64_MIN <= ts <= INT64_MAX
    ensures var t := Decimal(ts);
            LastOk(h, body, key, now, Some(t), Some(h.sha256(t + "." + body, key)))
            <==> now - ts <= 300 || now - ts > INT64_MAX
  {
    DecimalRead(ts);
    AgeCheck(now, ts);
  }

  // A header with one `t` and one `v1` of the documented shape, in either order
  // and among any other fields, verifies exactly while it is recent.
  lemma StripeRoundTrip(h: Hashes, req: Request, key: string, now: int, ts: int, fields: seq<string>, i: nat, j: nat)
    requires Hexadecimal(h)
    requires 0 <= now <= INT64_MAX && INT64_MIN <= ts <= INT64_MAX
    requires i < |fields| && fields[i] == "t=" + Decimal(ts)
    requires j < |fields| && fields[j] == "v1=" + h.sha256(Decimal(ts) + "." + req.body, key)
    requires OnlyPair(fields, i, j)
    requires Header(req, "Stripe-Signature") == Join(fields, ',')
    ensures VerifyStripe(h, req, key, now).status == "verified" <==> now - ts <= 300 || now - ts > INT64_MAX
  {
    var digest := h.sha256(Decimal(ts) + "." + req.body, key);
    DecimalIsPlain(ts);
    HexIsPlain(digest);
    PairIsRead(fields, i, j, Decimal(ts), digest);
    StripeReadsTheLastFields(h, req, key, now, fields);
    GenuinePair(h, req.body, key, now, ts);
  }

  // ----- The other providers accept exactly the documented shapes -----

  lemma GitHubAccepts(h: Hashes, req: Request, key: string)
    ensures VerifyGitHub(h, req, key).status == "verified" <==>
            Header(req, "X-Hub-Signature-256") == "sha256=" + h.sha256(req.body, key)
  {
    var header, digest := Header(req, "X-Hub-Signature-256"), h.sha256(req.body, key);
    if HasPrefix(header, "sha256=") {
      assert header == "sha256=" + header[7..];
    }
    assert ("sha256=" + digest)[..7] == "sha256=" && ("sha256=" + digest)[7..] == digest;
  }

  lemma PaystackAccepts(h: Hashes, req: Request, key: string)
    requires Hexadecimal(h)
    ensures VerifyPaystack(h, req, key).status == "verified" <==>
            Header(req, "X-Paystack-Signature") == h.sha512(req.body, key)
  {
  }

  function Optionally(b: bool, prefix: string): string {
    if b then prefix else ""
  }

  function Versioned(c: bool, digest: string): string {
    Optionally(c, "v1=") + digest
  }

  function Hashed(b: bool, c: bool, digest: string): string {
    Optionally(b, "hmac=") + Versioned(c, digest)
  }

  function Decorated(a: bool, b: bool, c: bool, digest: string): string {
    Optionally(a, "sha256=") + Hashed(b, c, digest)
  }

  lemma TrimYields(s: string, prefix: string, t: string)
    requires !HasPrefix(t, prefix)
    ensures TrimPrefix(s, prefix) == t <==> s == t || s == prefix + t
  {
    if HasPrefix(s, prefix) {
      assert s == prefix + s[|prefix|..];
    }
    assert (prefix + t)[..|prefix|] == prefix && (prefix + t)[|prefix|..] == t;
  }

  lemma NoPrefix(s: string, prefix: string)
    requires prefix != "" && s != "" && s[0] != prefix[0]
    ensures !HasPrefix(s, prefix)
  {
    if |prefix| <= |s| {
      assert s[..|prefix|][0] == s[0];
    }
  }

  lemma StripSteps(s: string)
    ensures Strip(s, PREFIXES) == TrimPrefix(TrimPrefix(TrimPrefix(s, "sha256="), "hmac="), "v1=")
  {
    var one := TrimPrefix(s, "sha256=");
    var two := TrimPrefix(one, "hmac=");
    assert PREFIXES[1..] == ["hmac=", "v1="] && ["hmac=", "v1="][1..] == ["v1="] && ["v1="][1..] == [];
    assert Strip(one, ["hmac=", "v1="]) == Strip(two, ["v1="]);
    assert Strip(two, ["v1="]) == Strip(TrimPrefix(two, "v1="), []);
  }

  lemma HexStart(digest: string)
    requires IsHex(digest)
    ensures digest[0] !in "shv"
  {
  }

  lemma EmptyFirst(s: string)
    ensures "" + s == s
  {
  }

  lemma TrimVersion(s: string, digest: string)
    requires IsHex(digest)
    ensures TrimPrefix(s, "v1=") == digest <==> exists c :: s == Versioned(c, digest)
  {
    HexStart(digest);
    NoPrefix(digest, "v1=");
    TrimYields(s, "v1=", digest);
    EmptyFirst(digest);
    assert Versioned(false, digest) == digest && Versioned(true, digest) == "v1=" + digest;
  }

  lemma TrimHmac(s: string, c: bool, digest: string)
    requires IsHex(digest)
    ensures TrimPrefix(s, "hmac=") == Versioned(c, digest) <==> exists b :: s == Hashed(b, c, digest)
  {
    HexStart(digest);
    var t := Versioned(c, digest);
    NoPrefix(t, "hmac=");
    TrimYields(s, "hmac=", t);
    EmptyFirst(t);
    assert Hashed(false, c, digest) == t && Hashed(true, c, digest) == "hmac=" + t;
  }

  lemma TrimSha(s: string, b: bool, c: bool, digest: string)
    requires IsHex(digest)
    ensures TrimPrefix(s, "sha256=") == Hashed(b, c, digest) <==> exists a :: s == Decorated(a, b, c, digest)
  {
    HexStart(digest);
    var t := Hashed(b, c, digest);
    NoPrefix(t, "sha256=");
    TrimYields(s, "sha256=", t);
    EmptyFirst(t);
    assert Decorated(false, b, c, digest) == t && Decorated(true, b, c, digest) == "sha256=" + t;
  }

  lemma TrimBoth(s: string, digest: string)
    requires IsHex(digest)
    ensures TrimPrefix(TrimPrefix(s, "hmac="), "v1=") == digest <==> exists b, c :: s == Hashed(b, c, digest)
  {
    TrimVersion(TrimPrefix(s, "hmac="), digest);
    TrimHmac(s, false, digest);
    TrimHmac(s, true, digest);
  }

  // Each prefix may be there or not, in this order.
  lemma StripLeavesTheDigest(s: string, digest: string)
    requires IsHex(digest)
    ensures Strip(s, PREFIXES) == digest <==> exists a, b, c :: s == Decorated(a, b, c, digest)
  {
    StripSteps(s);
    TrimBoth(TrimPrefix(s, "sha256="), digest);
    TrimSha(s, false, false, digest);
    TrimSha(s, false, true, digest);
    TrimSha(s, true, false, digest);
    TrimSha(s, true, true, digest);
  }

  lemma GenericAccepts(h: Hashes, req: Request, key: string, provider: string)
    requires Hexadecimal(h)
    ensures VerifyGeneric(h, req, key, provider).status == "verified" <==>
            exists a, b, c :: Header(req, GenericName(req)) == Decorated(a, b, c, h.sha256(req.body, key))
  {
    var digest := h.sha256(req.body, key);
    StripLeavesTheDigest(Header(req, GenericName(req)), digest);
    if FirstHeader(req, CANDIDATES).None? {
      assert CANDIDATES[0] in CANDIDATES;
      forall a, b, c ensures Decorated(a, b, c, digest) != "" {
        assert |Decorated(a, b, c, digest)| >= |digest|;
      }
    }
  }

  // The header that the generic check reads.
  function GenericName(req: Request): string {
    var name := FirstHeader(req, CANDIDATES);
    if name.Some? then name.value else CANDIDATES[0]
  }

  // ----- What is accepted, told without the functions that check it -----

  lemma {:induction false} JoinUndoesSplit(s: string, c: char)
    ensures Join(Split(s, c), c) == s
    ensures forall k :: 0 <= k < |Split(s, c)| ==> c !in Split(s, c)[k]
    decreases |s|
  {
    var i := IndexOf(s, c);
    if i == |s| {
      assert s[..i] == s;
    } else {
      JoinUndoesSplit(s[i + 1..], c);
      assert Split(s, c)[1..] == Split(s[i + 1..], c);
      assert s == s[..i] + [c] + s[i + 1..];
    }
  }

  // The header holds comma-separated fields, among them a `t` that is a 64-bit
  // number at most five minutes old and a `v1` that signs it with the body. Of
  // several, the last counts.
  ghost predicate StripeGenuine(h: Hashes, req: Request, key: string, now: int) {
    exists fields :: StripeFields(h, req, key, now, fields)
  }

  ghost predicate StripeFields(h: Hashes, req: Request, key: string, now: int, fields: seq<string>) {
    && fields != [] && Header(req, "Stripe-Signature") == Join(fields, ',')
    && (forall i :: 0 <= i < |fields| ==> ',' !in fields[i])
    && LastOk(h, req.body, key, now, LastNamed(fields, "t"), LastNamed(fields, "v1"))
  }

  lemma StripeIsGenuine(h: Hashes, req: Request, key: string, now: int)
    requires Hexadecimal(h)
    ensures VerifyStripe(h, req, key, now).status == "verified" <==> StripeGenuine(h, req, key, now)
  {
    var fields := Split(Header(req, "Stripe-Signature"), ',');
    JoinUndoesSplit(Header(req, "Stripe-Signature"), ',');
    StripeReadsTheLastFields(h, req, key, now, fields);
    assert VerifyStripe(h, req, key, now).status == "verified" ==> StripeFields(h, req, key, now, fields);
    if other :| StripeFields(h, req, key, now, other) {
      StripeReadsTheLastFields(h, req, key, now, other);
    }
  }

  // What the first of the four headers that is not empty says.
  function GenericHeader(req: Request): string {
    if Header(req, "X-Signature-256") != "" then Header(req, "X-Signature-256")
    else if Header(req, "X-Webhook-Signature") != "" then Header(req, "X-Webhook-Signature")
    else if Header(req, "X-Signature") != "" then Header(req, "X-Signature")
    else Header(req, "Webhook-Signature")
  }

  lemma GenericHeaderIs(req: Request)
    ensures Header(req, GenericName(req)) == GenericHeader(req)
  {
    var names := CANDIDATES;
    assert names[1..] == ["X-Webhook-Signature", "X-Signature", "Webhook-Signature"];
    assert names[1..][1..] == ["X-Signature", "Webhook-Signature"];
    assert names[1..][1..][1..] == ["Webhook-Signature"];
    assert names[1..][1..][1..][1..] == [];
    FirstHeaderIs(req, names);
    FirstHeaderIs(req, names[1..]);
    FirstHeaderIs(req, names[1..][1..]);
    FirstHeaderIs(req, names[1..][1..][1..]);
  }

  lemma FirstHeaderIs(req: Request, names: seq<string>)
    requires names != []
    ensures FirstHeader(req, names)
         == if Header(req, names[0]) != "" then Some(names[0]) else FirstHeader(req, names[1..])
  {
  }

  // What makes a request genuine under a secret: for Stripe the two fields, for
  // Paystack the SHA-512 digest of the body, for GitHub sha256= and the SHA-256
  // digest, and for any other provider that digest behind any of three prefixes.
  ghost predicate Genuine(h: Hashes, req: Request, s: Secret, now: int) {
    if s.provider == "stripe" then StripeGenuine(h, req, s.key, now)
    else if s.provider == "paystack" then Header(req, "X-Paystack-Signature") == h.sha512(req.body, s.key)
    else if s.provider == "github" then Header(req, "X-Hub-Signature-256") == "sha256=" + h.sha256(req.body, s.key)
    else exists sha, hmac, v1 :: GenericHeader(req) == Decorated(sha, hmac, v1, h.sha256(req.body, s.key))
  }

  lemma VerifiesTheGenuine(h: Hashes, req: Request, s: Secret, now: int)
    requires Hexadecimal(h)
    ensures Verifies(h, req, s, now) <==> Genuine(h, req, s, now)
  {
    if s.provider == "stripe" {
      StripeIsGenuine(h, req, s.key, now);
    } else if s.provider == "paystack" {
      PaystackAccepts(h, req, s.key);
    } else if s.provider == "github" {
      GitHubAccepts(h, req, s.key);
    } else {
      GenericAccepts(h, req, s.key, s.provider);
      GenericHeaderIs(req);
    }
  }

  // The verdict names the provider of the secret that it is about.
  lemma NamesItsProvider(h: Hashes, req: Request, s: Secret, now: int)
    ensures VerifyOne(h, req, s, now).provider == s.provider
  {
  }

  // A captured request is verified exactly when it is genuine under one of the
  // endpoint's secrets; the first such secret is the one that is named, and with
  // none the last secret.
  method Verify(h: Hashes, req: Request, secrets: seq<Secret>, now: int) returns (r: Result)
    ensures secrets == [] ==> r == Result("unverified", "", "no secret configured")
    ensures r.status == "verified" <==> exists i :: 0 <= i < |secrets| && Verifies(h, req, secrets[i], now)
    ensures secrets != [] && r.status != "verified" ==> r == VerifyOne(h, req, secrets[|secrets| - 1], now)
    ensures Hexadecimal(h) ==>
              (r.status == "verified" <==> exists i :: 0 <= i < |secrets| && Genuine(h, req, secrets[i], now))
    ensures Hexadecimal(h) && r.status == "verified" ==>
              exists i :: 0 <= i < |secrets| && Genuine(h, req, secrets[i], now) && r.provider == secrets[i].provider
                          && forall j :: 0 <= j < i ==> !Genuine(h, req, secrets[j], now)
    ensures secrets != [] && r.status != "verified" ==>
              r.status == "failed" && r.provider == secrets[|secrets| - 1].provider
  {
    forall i | 0 <= i < |secrets|
      ensures Hexadecimal(h) ==> (Verifies(h, req, secrets[i], now) <==> Genuine(h, req, secrets[i], now))
      ensures VerifyOne(h, req, secrets[i], now).provider == secrets[i].provider
    {
      if Hexadecimal(h) {
        VerifiesTheGenuine(h, req, secrets[i], now);
      }
      NamesItsProvider(h, req, secrets[i], now);
    }
    r := FirstVerified(secret => VerifyOne(h, req, secret, now), secrets);
  }
}
