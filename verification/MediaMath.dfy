/**
  The arithmetic behind the media checks: aspect ratios in lowest terms as text,
  durations with container slop, and resolutions parsed from text.
 */
module MediaMath {
  import opened Domain
  import TextSplit

  // ---------------------------------------------------------------------- gcd

  function GcdOf(a: nat, b: nat): nat
    decreases b
  {
    if b == 0 then a else GcdOf(b, a % b)
  }

  function Abs(a: int): nat {
    if a < 0 then -a else a
  }

  method Gcd(a0: int, b0: int) returns (g: int)
    ensures g == GcdOf(Abs(a0), Abs(b0))
  {
    var a, b := a0, b0;
    if a < 0 {
      a := -a;
    }
    if b < 0 {
      b := -b;
    }
    while b != 0
      invariant a >= 0 && b >= 0 && GcdOf(a, b) == GcdOf(Abs(a0), Abs(b0))
      decreases b
    {
      a, b := b, a % b;
    }
    return a;
  }

  lemma DivMod(a: nat, b: nat)
    requires b > 0
    ensures a == a / b * b + a % b
  {
  }

  /** gcd divides both numbers... */
  lemma {:induction false} GcdDivides(a: nat, b: nat) returns (x: nat, y: nat)
    ensures a == x * GcdOf(a, b) && b == y * GcdOf(a, b)
    decreases b
  {
    if b == 0 {
      x, y := 1, 0;
    } else {
      var g := GcdOf(a, b);
      var u, v := GcdDivides(b, a % b);
      DivMod(a, b);
      x, y := a / b * u + v, u;
      Regroup(a / b, u, v, g);
    }
  }

  lemma Regroup(q: nat, u: nat, v: nat, g: nat)
    ensures q * (u * g) + v * g == (q * u + v) * g
  {
  }

  /** ... and is a multiple of every number that divides both. */
  lemma {:induction false} GcdScales(d: nat, x: nat, y: nat)
    ensures GcdOf(x * d, y * d) == GcdOf(x, y) * d
    decreases y
  {
    if y > 0 && d > 0 {
      ModScales(x, y, d);
      GcdScales(d, y, x % y);
    }
  }

  lemma ModScales(x: nat, y: nat, d: nat)
    requires y > 0 && d > 0
    ensures y * d > 0 && (x * d) % (y * d) == x % y * d
  {
    DivMod(x, y);
    var q, r := x / y, x % y;
    assert x * d == q * (y * d) + r * d by { Regroup(q, y, r, d); Assoc(q, y, d); }
    Below(r, y, d);
    DivModUnique(x * d, y * d, q, r * d);
  }

  lemma Assoc(q: nat, y: nat, d: nat)
    ensures q * y * d == q * (y * d)
  {
  }

  lemma Below(r: nat, y: nat, d: nat)
    requires r < y && d > 0
    ensures r * d < y * d
  {
  }

  lemma DivModUnique(n: nat, m: nat, q: nat, r: nat)
    requires m > 0 && n == q * m + r && r < m
    ensures n / m == q && n % m == r
  {
    DivMod(n, m);
    var q', r' := n / m, n % m;
    if q < q' {
      Apart(q, q', m);
    } else if q' < q {
      Apart(q', q, m);
    }
  }

  lemma Apart(p: nat, q: nat, m: nat)
    requires p < q
    ensures p * m + m <= q * m
  {
    Far(q - p, m);
    assert q * m - p * m == (q - p) * m;
  }

  lemma Far(k: nat, m: nat)
    requires k >= 1
    ensures k * m >= m
  {
  }

  /** Equal ratios have equal quotients and remainders of equal ratio. */
  lemma EqualRatiosStep(w: nat, h: nat, a: nat, b: nat)
    requires h > 0 && b > 0 && w * b == h * a
    ensures w / h == a / b && h * (a % b) == (w % h) * b
  {
    DivMod(w, h);
    DivMod(a, b);
    var q, r := w / h, w % h;
    var p, s := a / b, a % b;
    assert w * b == q * (h * b) + r * b by { Regroup(q, h, r, b); Assoc(q, h, b); }
    assert h * a == p * (h * b) + h * s by { Spread(h, p, b, s); }
    Below(r, h, b);
    Below(s, b, h);
    assert h * s == s * h && b * h == h * b;
    DivModUnique(w * b, h * b, q, r * b);
    DivModUnique(h * a, h * b, p, h * s);
  }

  lemma Spread(h: nat, p: nat, b: nat, s: nat)
    ensures h * (p * b + s) == p * (h * b) + h * s
  {
  }

  /** Numbers in proportion are in the proportion of their gcds. */
  lemma {:induction false} Proportional(w: nat, h: nat, a: nat, b: nat)
    requires h > 0 && b > 0 && w * b == h * a
    ensures w * GcdOf(a, b) == a * GcdOf(w, h) && h * GcdOf(a, b) == b * GcdOf(w, h)
    decreases h
  {
    EqualRatiosStep(w, h, a, b);
    DivMod(w, h);
    DivMod(a, b);
    var q, r, s := w / h, w % h, a % b;
    if r == 0 {
      ZeroFactor(h, s);
      assert GcdOf(h, 0) == h && GcdOf(b, 0) == b;
    } else {
      Positive(r, b, h, s);
      Proportional(h, r, b, s);
      var e, g := GcdOf(b, s), GcdOf(h, r);
      Combine(q, h, r, e);
      Combine(q, b, s, g);
    }
  }

  lemma ZeroFactor(h: nat, s: nat)
    requires h > 0 && h * s == 0
    ensures s == 0
  {
    assert h * s == s * h;
    if s > 0 {
      Far(s, h);
    }
  }

  lemma Positive(r: nat, b: nat, h: nat, s: nat)
    requires r > 0 && b > 0 && h * s == r * b
    ensures s > 0
  {
    Far(r, b);
  }

  lemma Combine(q: nat, h: nat, r: nat, e: nat)
    ensures (q * h + r) * e == q * (h * e) + r * e
  {
  }

  // -------------------------------------------------------------------- Itoa

  function Digit(d: nat): (c: char)
    requires d < 10
    ensures '0' <= c <= '9'
  {
    '0' + d as char
  }

  /** strconv.Itoa of a number that is not negative. */
  function Itoa(n: nat): (s: string)
    ensures s != "" && AllDigits(s)
  {
    if n < 10 then [Digit(n)] else Itoa(n / 10) + [Digit(n % 10)]
  }

  predicate AllDigits(s: string) {
    forall i :: 0 <= i < |s| ==> '0' <= s[i] <= '9'
  }

  /** The number that decimal digits stand for. */
  function Value(s: string): nat
    requires AllDigits(s)
  {
    if s == "" then 0 else Value(s[..|s| - 1]) * 10 + (s[|s| - 1] - '0') as nat
  }

  lemma {:induction false} ValueOfItoa(n: nat)
    ensures Value(Itoa(n)) == n
  {
    var s := Itoa(n);
    if n >= 10 {
      assert s[..|s| - 1] == Itoa(n / 10);
      ValueOfItoa(n / 10);
    } else {
      assert s[..|s| - 1] == "";
    }
  }

  lemma ItoaIsInjective(m: nat, n: nat)
    ensures Itoa(m) == Itoa(n) <==> m == n
  {
    ValueOfItoa(m);
    ValueOfItoa(n);
  }

  // ------------------------------------------------------------------ aspects

  /** The way a ratio is written. */
  function RatioToken(a: nat, b: nat): string {
    Itoa(a) + ":" + Itoa(b)
  }

  function ReducedAspect(width: nat, height: nat): string {
    var divisor := GcdOf(width, height);
    if divisor <= 0 then "" else RatioToken(Quotient(width, divisor), Quotient(height, divisor))
  }

  function Quotient(n: nat, d: nat): nat
    requires d > 0
  {
    n / d
  }

  lemma ColonSplits(p: string, q: string, u: string, v: string)
    requires AllDigits(p) && AllDigits(u)
    ensures p + ":" + q == u + ":" + v <==> p == u && q == v
  {
    if p + ":" + q == u + ":" + v {
      var s := p + ":" + q;
      assert s[|p|] == ':' && s[|u|] == ':';
      assert |p| == |u|;
      assert s[..|p|] == p && s[..|u|] == u;
      assert s[|p| + 1..] == q && s[|u| + 1..] == v;
    }
  }

  lemma RatioTokenIsInjective(a: nat, b: nat, c: nat, d: nat)
    ensures RatioToken(a, b) == RatioToken(c, d) <==> a == c && b == d
  {
    ColonSplits(Itoa(a), Itoa(b), Itoa(c), Itoa(d));
    ItoaIsInjective(a, c);
    ItoaIsInjective(b, d);
  }

  lemma GcdIsPositive(a: nat, b: nat)
    requires a > 0 || b > 0
    ensures GcdOf(a, b) > 0
  {
    var x, y := GcdDivides(a, b);
  }

  lemma QuotientsOf(w: nat, g: nat, x: nat)
    requires g > 0 && w == x * g
    ensures w / g == x
  {
    DivModUnique(w, g, x, 0);
  }

  /** The reduced aspect of a picture is written a:b, with a and b in lowest
      terms, if and only if width * b = height * a. */
  lemma ReducedAspectIs(width: nat, height: nat, a: nat, b: nat)
    requires width > 0 && height > 0 && a > 0 && b > 0 && GcdOf(a, b) == 1
    ensures ReducedAspect(width, height) == RatioToken(a, b) <==> width * b == height * a
  {
    var g := GcdOf(width, height);
    GcdIsPositive(width, height);
    var x, y := GcdDivides(width, height);
    QuotientsOf(width, g, x);
    QuotientsOf(height, g, y);
    assert ReducedAspect(width, height) == RatioToken(x, y);
    RatioTokenIsInjective(x, y, a, b);
    if width * b == height * a {
      Proportional(width, height, a, b);
      QuotientsOf(width, g, a);
      QuotientsOf(height, g, b);
    }
    if x == a && y == b {
      CrossMultiply(a, b, g);
    }
  }

  lemma CrossMultiply(a: nat, b: nat, g: nat)
    ensures a * g * b == b * g * a
  {
  }

  // ---------------------------------------------------------------- durations

  function DurationSeconds(ms: int): int {
    if ms <= 0 then 0 else (ms + 999) / 1000
  }

  method AllowedDuration(value: int, allowed: seq<int>) returns (ok: bool)
    ensures ok <==> allowed == [] || value in allowed
  {
    if |allowed| == 0 {
      return true;
    }
    for i := 0 to |allowed|
      invariant value !in allowed[..i]
    {
      if value == allowed[i] {
        return true;
      }
      assert allowed[..i + 1] == allowed[..i] + [allowed[i]];
    }
    assert allowed[..|allowed|] == allowed;
    return false;
  }

  /** s seconds, give or take one, the lower end excluded. */
  predicate NearSeconds(ms: int, s: int) {
    (s - 1) * 1000 < ms <= (s + 1) * 1000
  }

  predicate DurationFits(ms: int, allowed: seq<int>) {
    allowed == [] || (ms > 0 && exists i :: 0 <= i < |allowed| && NearSeconds(ms, allowed[i]))
  }

  lemma DurationFitsIff(ms: int, allowed: seq<int>)
    ensures DurationFits(ms, allowed) <==>
      allowed == [] || (ms > 0 && exists i :: 0 <= i < |allowed| && (allowed[i] - 1) * 1000 < ms <= (allowed[i] + 1) * 1000)
  {
    assert forall i :: 0 <= i < |allowed| ==>
      (NearSeconds(ms, allowed[i]) <==> (allowed[i] - 1) * 1000 < ms <= (allowed[i] + 1) * 1000);
  }

  method AllowedOutputDuration(ms: int, allowed: seq<int>) returns (ok: bool)
    ensures ok <==> DurationFits(ms, allowed)
    ensures ok <==>
      allowed == [] || (ms > 0 && exists i :: 0 <= i < |allowed| && (allowed[i] - 1) * 1000 < ms <= (allowed[i] + 1) * 1000)
  {
    DurationFitsIff(ms, allowed);
    if |allowed| == 0 {
      return true;
    }
    if ms <= 0 {
      return false;
    }
    var whole := AllowedDuration(DurationSeconds(ms), allowed);
    if whole {
      var i :| 0 <= i < |allowed| && allowed[i] == DurationSeconds(ms);
      assert NearSeconds(ms, allowed[i]);
      return true;
    }
    for i := 0 to |allowed|
      invariant forall j :: 0 <= j < i ==> !NearSeconds(ms, allowed[j])
    {
      var targetMS := allowed[i] * 1000;
      if ms > targetMS && ms <= targetMS + 1000 {
        assert NearSeconds(ms, allowed[i]);
        return true;
      }
    }
    return false;
  }

  // -------------------------------------------------------------- text tokens

  /** strings.ToLower on ASCII letters. */
  function ToLower(s: string): string {
    seq(|s|, i requires 0 <= i < |s| => if 'A' <= s[i] <= 'Z' then s[i] - 'A' + 'a' else s[i])
  }

  function Token(s: string): string {
    ToLower(TextSplit.TrimSpace(s))
  }

  method AllowedToken(value: string, allowed: seq<string>) returns (ok: bool)
    ensures ok <==> TokenFits(value, allowed)
  {
    if |allowed| == 0 {
      return true;
    }
    var wanted := Token(value);
    for i := 0 to |allowed|
      invariant forall j :: 0 <= j < i ==> Token(allowed[j]) != wanted
    {
      if wanted == Token(allowed[i]) {
        return true;
      }
    }
    return false;
  }

  predicate TokenFits(value: string, allowed: seq<string>) {
    allowed == [] || exists i :: 0 <= i < |allowed| && Token(value) == Token(allowed[i])
  }

  predicate AspectFits(width: int, height: int, allowed: seq<string>) {
    || allowed == []
    || (width > 0 && height > 0 && TokenFits(ReducedAspect(width, height), allowed))
  }

  /** Ratios written plainly are tokens already. */
  lemma RatioTokenIsToken(a: nat, b: nat)
    ensures Token(RatioToken(a, b)) == RatioToken(a, b)
  {
    var s := RatioToken(a, b);
    assert s[0] == Itoa(a)[0] && s[|s| - 1] == Itoa(b)[|Itoa(b)| - 1];
    assert !TextSplit.IsSpace(s[0]) && !TextSplit.IsSpace(s[|s| - 1]);
    assert forall i :: 0 <= i < |s| ==> s[i] == ':' || '0' <= s[i] <= '9';
    DigitsAreTrimmed(s);
  }

  lemma RatioFits(width: nat, height: nat, a: nat, b: nat)
    requires width > 0 && height > 0 && a > 0 && b > 0 && GcdOf(a, b) == 1
    ensures Token(ReducedAspect(width, height)) == Token(RatioToken(a, b)) <==> width * b == height * a
  {
    var g := GcdOf(width, height);
    GcdIsPositive(width, height);
    RatioTokenIsToken(Quotient(width, g), Quotient(height, g));
    RatioTokenIsToken(a, b);
    ReducedAspectIs(width, height, a, b);
  }

  function Ratios(pairs: seq<(nat, nat)>): seq<string> {
    seq(|pairs|, i requires 0 <= i < |pairs| => RatioToken(pairs[i].0, pairs[i].1))
  }

  /** An allow list of lowest-terms ratios accepts a picture if and only if the
      picture has one of the ratios. */
  lemma AspectFitsIff(width: nat, height: nat, pairs: seq<(nat, nat)>)
    requires width > 0 && height > 0 && pairs != []
    requires forall i :: 0 <= i < |pairs| ==> pairs[i].0 > 0 && pairs[i].1 > 0 && GcdOf(pairs[i].0, pairs[i].1) == 1
    ensures AspectFits(width, height, Ratios(pairs))
       <==> exists i :: 0 <= i < |pairs| && width * pairs[i].1 == height * pairs[i].0
  {
    var actual := ReducedAspect(width, height);
    var allowed := Ratios(pairs);
    forall i | 0 <= i < |pairs|
      ensures Token(actual) == Token(allowed[i]) <==> width * pairs[i].1 == height * pairs[i].0
    {
      RatioFits(width, height, pairs[i].0, pairs[i].1);
    }
  }

  method AllowedOutputAspect(width: int, height: int, allowed: seq<string>) returns (ok: bool)
    ensures ok <==> AspectFits(width, height, allowed)
  {
    if |allowed| == 0 {
      return true;
    }
    if width <= 0 || height <= 0 {
      return false;
    }
    var divisor := Gcd(width, height);
    if divisor <= 0 {
      ok := AllowedToken("", allowed);
    } else {
      ok := AllowedToken(RatioToken(Quotient(width, divisor), Quotient(height, divisor)), allowed);
    }
  }

  // -------------------------------------------------------------- resolutions

  const INT_LIMIT: nat := 0x8000_0000_0000_0000

  /** strconv.Atoi on a 64-bit machine; None is an error. */
  function Atoi(s: string): Option<int> {
    var signed := s != "" && (s[0] == '-' || s[0] == '+');
    var body := if signed then s[1..] else s;
    if body == "" || !AllDigits(body) then None
    else
      var v: int := if signed && s[0] == '-' then 0 - Value(body) else Value(body);
      if 0 - INT_LIMIT <= v < INT_LIMIT then Some(v) else None
  }

  lemma AtoiOfItoa(n: nat)
    requires n < INT_LIMIT
    ensures Atoi(Itoa(n)) == Some(n)
  {
    ValueOfItoa(n);
  }

  /** The position of the first x, or the length. */
  function FirstX(s: string): (i: nat)
    ensures i <= |s|
  {
    if s == "" || s[0] == 'x' then 0 else 1 + FirstX(s[1..])
  }

  predicate AtMost(n: int, bound: Option<int>) {
    bound.Some? && bound.value > 0 && n <= bound.value
  }

  predicate ResolutionMatches(width: int, height: int, token: string) {
    var t := Token(token);
    if t == "" then false
    else if t[|t| - 1] == 'p' then AtMost(height, Atoi(t[..|t| - 1]))
    else FitsBox(width, height, t, FirstX(t))
  }

  /** t holds a width, an x at position i, and a height. */
  predicate FitsBox(width: int, height: int, t: string, i: nat) {
    && i < |t|
    && AtMost(width, Atoi(TextSplit.TrimSpace(t[..i])))
    && AtMost(height, Atoi(TextSplit.TrimSpace(t[i + 1..])))
  }

  /** One of the tokens from position i on has a property. */
  predicate SomeFrom(p: string -> bool, tokens: seq<string>, i: nat)
    decreases |tokens| - i
  {
    i < |tokens| && (p(tokens[i]) || SomeFrom(p, tokens, i + 1))
  }

  lemma {:induction false} SomeFromIff(p: string -> bool, tokens: seq<string>, i: nat)
    requires i <= |tokens|
    ensures SomeFrom(p, tokens, i) <==> exists j :: i <= j < |tokens| && p(tokens[j])
    decreases |tokens| - i
  {
    if i < |tokens| {
      SomeFromIff(p, tokens, i + 1);
    }
  }

  /** What a picture of a size matches. */
  function Matching(width: int, height: int): string -> bool {
    token => ResolutionMatches(width, height, token)
  }

  predicate ResolutionFits(width: int, height: int, allowed: seq<string>) {
    allowed == [] || (width > 0 && height > 0 && SomeFrom(Matching(width, height), allowed, 0))
  }

  method AllowedOutputResolution(width: int, height: int, allowed: seq<string>) returns (ok: bool)
    ensures ok <==> ResolutionFits(width, height, allowed)
  {
    if |allowed| == 0 {
      return true;
    }
    if width <= 0 || height <= 0 {
      return false;
    }
    var matches := Matching(width, height);
    for i := 0 to |allowed|
      invariant SomeFrom(matches, allowed, i) == SomeFrom(matches, allowed, 0)
    {
      if matches(allowed[i]) {
        return true;
      }
    }
    return false;
  }

  lemma DigitsAreTrimmed(s: string)
    requires s != "" && !TextSplit.IsSpace(s[0]) && !TextSplit.IsSpace(s[|s| - 1])
    requires forall i :: 0 <= i < |s| ==> !('A' <= s[i] <= 'Z')
    ensures TextSplit.TrimSpace(s) == s && Token(s) == s
  {
    assert ToLower(s) == s;
  }

  /** "720p" bounds the height by 720 and nothing else. */
  lemma HeightTokenMatchesIff(width: int, height: int, n: nat)
    requires 0 < n < INT_LIMIT
    ensures ResolutionMatches(width, height, Itoa(n) + "p") <==> height <= n
  {
    var t := Itoa(n) + "p";
    assert t[0] == Itoa(n)[0];
    DigitsAreTrimmed(t);
    assert t[..|t| - 1] == Itoa(n);
    AtoiOfItoa(n);
  }

  lemma PlainToken(p: string, q: string)
    requires AllDigits(p) && AllDigits(q) && p != "" && q != ""
    ensures var t := p + "x" + q; Token(t) == t && t[|t| - 1] != 'p'
  {
    var t := p + "x" + q;
    assert t[0] == p[0] && t[|t| - 1] == q[|q| - 1];
    DigitsAreTrimmed(t);
  }

  lemma BoxParts(width: int, height: int, p: string, q: string)
    requires p != "" && q != "" && TextSplit.TrimSpace(p) == p && TextSplit.TrimSpace(q) == q
    ensures FitsBox(width, height, p + "x" + q, |p|) <==> AtMost(width, Atoi(p)) && AtMost(height, Atoi(q))
  {
    var t := p + "x" + q;
    assert t[..|p|] == p && t[|p| + 1..] == q;
  }

  lemma SizeMatches(width: int, height: int, p: string, q: string)
    requires AllDigits(p) && AllDigits(q) && p != "" && q != ""
    ensures ResolutionMatches(width, height, p + "x" + q) <==> AtMost(width, Atoi(p)) && AtMost(height, Atoi(q))
  {
    DigitsAreTrimmed(p);
    DigitsAreTrimmed(q);
    BoxParts(width, height, p, q);
    PlainToken(p, q);
    XAfterDigits(p, q);
  }

  /** "1280x720" bounds the width by 1280 and the height by 720. */
  lemma SizeTokenMatchesIff(width: int, height: int, m: nat, n: nat)
    requires 0 < m < INT_LIMIT && 0 < n < INT_LIMIT
    ensures ResolutionMatches(width, height, Itoa(m) + "x" + Itoa(n)) <==> width <= m && height <= n
  {
    SizeMatches(width, height, Itoa(m), Itoa(n));
    AtoiOfItoa(m);
    AtoiOfItoa(n);
  }

  lemma {:induction false} XAfterDigits(s: string, rest: string)
    requires AllDigits(s)
    ensures FirstX(s + "x" + rest) == |s|
  {
    var t := s + "x" + rest;
    if s != "" {
      assert t[1..] == s[1..] + "x" + rest;
      XAfterDigits(s[1..], rest);
    }
  }
}
