/**
  The labels under which model classes are recorded: lower case, a small alphabet, at
  most 96 characters. Different classes may share a label.
 */
module Labels {
  import TextSplit
  import MediaMath

  const MAX_LABEL: nat := 96
  const UNKNOWN: string := "unknown"
  const DEFAULT: string := "default"

  predicate IsLabelChar(c: char) {
    'a' <= c <= 'z' || '0' <= c <= '9' || c == '_' || c == '-' || c == '.' || c == ':' || c == '/'
  }

  function CleanChar(c: char): char {
    if IsLabelChar(c) then c else '_'
  }

  /** At most n characters of s, each made a label character. */
  function Clean(s: string, n: nat): string
    decreases n
  {
    if s == "" || n == 0 then "" else [CleanChar(s[0])] + Clean(s[1..], n - 1)
  }

  function TrimLeft(s: string): string {
    if s != "" && s[0] == '_' then TrimLeft(s[1..]) else s
  }

  function TrimRight(s: string): string {
    if s != "" && s[|s| - 1] == '_' then TrimRight(s[..|s| - 1]) else s
  }

  function MetricLabel(value: string): string {
    var v := MediaMath.Token(value);
    if v == "" then UNKNOWN
    else
      var out := TrimRight(TrimLeft(Clean(v, MAX_LABEL)));
      if out == "" then UNKNOWN else out
  }

  function ProviderMetricModel(model: string): string {
    var trimmed := TextSplit.TrimSpace(model);
    if trimmed == "" then DEFAULT else MetricLabel(trimmed)
  }

  /** The loop that builds a label. */
  method BuildLabel(value: string) returns (built: string)
    ensures built == MetricLabel(value)
  {
    var v := MediaMath.Token(value);
    if v == "" {
      return UNKNOWN;
    }
    var b := "";
    var i := 0;
    while i < |v|
      invariant i <= |v| && |b| == i < MAX_LABEL
      invariant Clean(v, MAX_LABEL) == b + Clean(v[i..], MAX_LABEL - i)
    {
      CleanStep(b, v, i);
      b := b + [CleanChar(v[i])];
      i := i + 1;
      if |b| >= MAX_LABEL {
        break;
      }
    }
    NothingMore(b, v, i);
    var out := TrimRight(TrimLeft(b));
    built := if out == "" then UNKNOWN else out;
  }

  lemma NothingMore(b: string, v: string, i: nat)
    requires i == |v| || i == MAX_LABEL <= |v|
    ensures i <= MAX_LABEL ==> b + Clean(v[i..], MAX_LABEL - i) == b
  {
  }

  lemma CleanStep(b: string, v: string, i: nat)
    requires i < |v| && i < MAX_LABEL
    ensures b + Clean(v[i..], MAX_LABEL - i) == (b + [CleanChar(v[i])]) + Clean(v[i + 1..], MAX_LABEL - (i + 1))
  {
    assert v[i..][1..] == v[i + 1..];
    TextSplit.AppendAssoc(b, [CleanChar(v[i])], Clean(v[i + 1..], MAX_LABEL - (i + 1)));
  }

  // ------------------------------------------------------------- a label is stable

  /** Not empty, short enough, of label characters, no underscore at either end. */
  predicate IsLabel(s: string) {
    && 1 <= |s| <= 96 && s[0] != '_' && s[|s| - 1] != '_'
    && (forall i :: 0 <= i < |s| ==> IsKept(s[i]))
  }

  /** A character that a label shows as it is. */
  predicate IsKept(c: char) {
    || 'a' <= c <= 'z' || '0' <= c <= '9'
    || c in {'_', '-', '.', ':', '/'}
  }

  function Shown(c: char): char {
    if IsKept(c) then c else '_'
  }

  /** The first 96 characters as a label shows them. */
  function FirstShown(v: string): string {
    seq(if |v| < 96 then |v| else 96, i requires 0 <= i < |v| => Shown(v[i]))
  }

  lemma {:induction false} CleanIs(s: string, n: nat)
    ensures Clean(s, n) == seq(if |s| < n then |s| else n, i requires 0 <= i < |s| => Shown(s[i]))
    decreases n
  {
    if s != "" && n > 0 {
      CleanIs(s[1..], n - 1);
    }
  }

  lemma {:induction false} TrimLeftAt(s: string) returns (a: nat)
    ensures a <= |s| && TrimLeft(s) == s[a..] && (a < |s| ==> s[a] != '_')
    ensures forall i :: 0 <= i < a ==> s[i] == '_'
  {
    a := 0;
    if s != "" && s[0] == '_' {
      a := TrimLeftAt(s[1..]);
      a := a + 1;
    }
  }

  lemma {:induction false} TrimRightAt(s: string) returns (b: nat)
    ensures b <= |s| && TrimRight(s) == s[..b] && (b > 0 ==> s[b - 1] != '_')
    ensures forall i :: b <= i < |s| ==> s[i] == '_'
  {
    b := |s|;
    if s != "" && s[|s| - 1] == '_' {
      b := TrimRightAt(s[..|s| - 1]);
    }
  }

  /** t is s without the underscores at either end. */
  ghost predicate IsBare(s: string, t: string) {
    exists a, b :: 0 <= a <= b <= |s| && t == s[a..b] && OnlyBetween(s, a, b)
  }

  ghost predicate OnlyBetween(s: string, a: int, b: int)
    requires 0 <= a <= b <= |s|
  {
    && (forall i :: 0 <= i < a || b <= i < |s| ==> s[i] == '_')
    && (a < b ==> s[a] != '_' && s[b - 1] != '_')
  }

  lemma TrimsBare(s: string)
    ensures IsBare(s, TrimRight(TrimLeft(s)))
  {
    var a := TrimLeftAt(s);
    var t := TrimLeft(s);
    var b := TrimRightAt(t);
    assert TrimRight(t) == s[a..a + b];
    forall i | a + b <= i < |s| ensures s[i] == '_' {
      assert s[i] == t[i - a];
    }
    if b > 0 {
      assert s[a + b - 1] == t[b - 1];
    }
    assert OnlyBetween(s, a, a + b);
  }

  /** What a label is: the first 96 characters of the token, with underscores for what labels
      do not show and none at either end, or "unknown" if nothing is left. */
  lemma LabelIs(value: string) returns (out: string)
    ensures IsBare(FirstShown(MediaMath.Token(value)), out)
    ensures MetricLabel(value) == if out == "" then "unknown" else out
  {
    var v := MediaMath.Token(value);
    CleanIs(v, MAX_LABEL);
    TrimsBare(Clean(v, MAX_LABEL));
    out := TrimRight(TrimLeft(Clean(v, MAX_LABEL)));
  }

  predicate AllClean(s: string, n: nat) {
    |s| <= n && forall i :: 0 <= i < |s| ==> IsLabelChar(s[i])
  }

  lemma {:induction false} CleanIsClean(s: string, n: nat)
    ensures AllClean(Clean(s, n), n)
    decreases n
  {
    if s != "" && n > 0 {
      CleanIsClean(s[1..], n - 1);
    }
  }

  lemma {:induction false} TrimLeftTrims(s: string, n: nat)
    requires AllClean(s, n)
    ensures AllClean(TrimLeft(s), n) && (TrimLeft(s) != "" ==> TrimLeft(s)[0] != '_')
  {
    if s != "" && s[0] == '_' {
      TrimLeftTrims(s[1..], n);
    }
  }

  lemma {:induction false} TrimRightTrims(s: string, n: nat)
    requires AllClean(s, n) && (s != "" ==> s[0] != '_')
    ensures AllClean(TrimRight(s), n)
    ensures TrimRight(s) != "" ==> TrimRight(s)[0] != '_' && TrimRight(s)[|TrimRight(s)| - 1] != '_'
  {
    if s != "" && s[|s| - 1] == '_' {
      TrimRightTrims(s[..|s| - 1], n);
    }
  }

  lemma CleanIsLabel(s: string)
    requires s != "" && AllClean(s, MAX_LABEL) && s[0] != '_' && s[|s| - 1] != '_'
    ensures IsLabel(s)
  {
  }

  lemma UnknownIsLabel()
    ensures IsLabel(UNKNOWN)
  {
  }

  lemma MetricLabelIsLabel(value: string)
    ensures IsLabel(MetricLabel(value))
  {
    var c := Clean(MediaMath.Token(value), MAX_LABEL);
    CleanIsClean(MediaMath.Token(value), MAX_LABEL);
    TrimLeftTrims(c, MAX_LABEL);
    TrimRightTrims(TrimLeft(c), MAX_LABEL);
    UnknownIsLabel();
    if TrimRight(TrimLeft(c)) != "" {
      CleanIsLabel(TrimRight(TrimLeft(c)));
    }
  }

  lemma {:induction false} CleanKeeps(s: string, n: nat)
    requires AllClean(s, n)
    ensures Clean(s, n) == s
    decreases n
  {
    if s != "" && n > 0 {
      CleanKeeps(s[1..], n - 1);
      assert s == [s[0]] + s[1..];
    }
  }

  lemma LabelIsStable(s: string)
    requires IsLabel(s)
    ensures MetricLabel(s) == s && ProviderMetricModel(s) == s
  {
    MediaMath.DigitsAreTrimmed(s);
    CleanKeeps(s, MAX_LABEL);
  }

  /** A label is recorded under itself: labelling twice is labelling once. */
  lemma LabellingIsIdempotent(model: string)
    ensures IsLabel(ProviderMetricModel(model))
    ensures ProviderMetricModel(ProviderMetricModel(model)) == ProviderMetricModel(model)
  {
    MetricLabelIsLabel(TextSplit.TrimSpace(model));
    LabelIsStable(ProviderMetricModel(model));
  }
}
