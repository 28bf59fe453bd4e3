/**
  Splitting a long text into VK-sized chunks. Text is a sequence of runes.
 */
module TextSplit {

  const CHUNK_LIMIT: nat := 3500

  /** White space as unicode.IsSpace sees it. */
  predicate IsSpace(r: char) {
    var n := r as int;
    || 9 <= n <= 13 || n == 32 || n == 0x85 || n == 0xA0 || n == 0x1680
    || 0x2000 <= n <= 0x200a || n == 0x2028 || n == 0x2029 || n == 0x202f || n == 0x205f || n == 0x3000
  }

  /** The runes after which the splitter may cut. */
  predicate IsSeparator(r: char) {
    r == '\n' || r == ' ' || r == '\t'
  }

  function TrimLeft(s: string): (r: string)
    ensures |r| <= |s|
    ensures r != "" ==> !IsSpace(r[0])
  {
    if s != "" && IsSpace(s[0]) then TrimLeft(s[1..]) else s
  }

  function TrimRight(s: string): (r: string)
    ensures r <= s
    ensures r != "" ==> !IsSpace(r[|r| - 1])
  {
    if s != "" && IsSpace(s[|s| - 1]) then TrimRight(s[..|s| - 1]) else s
  }

  /** Not empty, and no white space at either end. */
  predicate IsTrimmed(s: string) {
    s != "" && !IsSpace(s[0]) && !IsSpace(s[|s| - 1])
  }

  /** strings.TrimSpace. */
  function TrimSpace(s: string): (r: string)
    ensures |r| <= |s|
    ensures r != "" ==> IsTrimmed(r)
  {
    TrimRight(TrimLeft(s))
  }

  /** The window in which the next cut is looked for. */
  function Window(runes: string): nat {
    if |runes| < CHUNK_LIMIT then |runes| else CHUNK_LIMIT
  }

  ghost predicate NoSeparator(runes: string, lo: nat, hi: nat)
    requires hi <= |runes|
  {
    forall i :: lo <= i < hi ==> !IsSeparator(runes[i])
  }

  /** Where the next chunk ends: just after the last separator at index 1 or
      later in the window, or at the window's end if there is none. */
  ghost predicate IsCut(runes: string, cut: nat) {
    var n := Window(runes);
    && 1 <= cut <= n
    && NoSeparator(runes, cut, n)
    && ((2 <= cut && IsSeparator(runes[cut - 1])) || (cut == n && NoSeparator(runes, 1, n)))
  }

  function CutBelow(runes: string, i: nat): (cut: nat)
    requires i < Window(runes)
    ensures 1 <= cut <= Window(runes)
  {
    if i == 0 then Window(runes)
    else if IsSeparator(runes[i]) then i + 1
    else CutBelow(runes, i - 1)
  }

  function NextCut(runes: string): (cut: nat)
    requires runes != ""
    ensures 1 <= cut <= Window(runes)
  {
    CutBelow(runes, Window(runes) - 1)
  }

  lemma {:induction false} CutBelowIsCut(runes: string, i: nat)
    requires i < Window(runes) && NoSeparator(runes, i + 1, Window(runes))
    ensures IsCut(runes, CutBelow(runes, i))
  {
    if i > 0 && !IsSeparator(runes[i]) {
      CutBelowIsCut(runes, i - 1);
    }
  }

  /** The scan finds the one cut that the description allows. */
  lemma NextCutIsTheCut(runes: string, cut: nat)
    requires runes != ""
    ensures IsCut(runes, cut) <==> cut == NextCut(runes)
  {
    CutBelowIsCut(runes, Window(runes) - 1);
    if IsCut(runes, cut) {
      CutIsUnique(runes, cut, NextCut(runes));
    }
  }

  /** Where the cut is: after a line feed, a space or a tab that is not the first rune and
      after which the first 3500 runes have none; or after these runes. */
  lemma CutIs(runes: string)
    requires runes != ""
    ensures var cut, n := NextCut(runes), if |runes| < 3500 then |runes| else 3500;
      && 1 <= cut <= n
      && (forall i :: cut <= i < n ==> runes[i] !in {'\n', ' ', '\t'})
      && (cut < n ==> cut >= 2 && runes[cut - 1] in {'\n', ' ', '\t'})
      && (cut == n ==> runes[n - 1] in {'\n', ' ', '\t'} || forall i :: 1 <= i < n ==> runes[i] !in {'\n', ' ', '\t'})
  {
    NextCutIsTheCut(runes, NextCut(runes));
  }

  /** White space, character by character. */
  lemma SpacesAre(r: char)
    ensures IsSpace(r) <==> r in {'\t', '\n', '\U{000B}', '\U{000C}', '\r', ' ', '\U{0085}', '\U{00A0}', '\U{1680}',
      '\U{2000}', '\U{2001}', '\U{2002}', '\U{2003}', '\U{2004}', '\U{2005}', '\U{2006}', '\U{2007}', '\U{2008}',
      '\U{2009}', '\U{200A}', '\U{2028}', '\U{2029}', '\U{202F}', '\U{205F}', '\U{3000}'}
  {
  }

  lemma CutIsUnique(runes: string, a: nat, b: nat)
    requires IsCut(runes, a) && IsCut(runes, b)
    ensures a == b
  {
  }

  /** A trimmed piece becomes a chunk unless nothing is left of it. */
  function Keep(piece: string): (r: seq<string>)
    ensures |r| <= 1
    ensures |r| == 1 ==> IsTrimmed(r[0]) && |r[0]| <= |piece|
  {
    var t := TrimSpace(piece);
    if t != "" then [t] else []
  }

  /** The chunks of a long text: cut, keep what is not blank, go on with the rest. */
  function Pieces(runes: string): seq<string> {
    if runes == "" then []
    else
      var cut := NextCut(runes);
      Keep(runes[..cut]) + Pieces(runes[cut..])
  }

  /** The positions at which text is cut from position q on. */
  function CutPoints(text: string, q: nat): seq<nat>
    requires q <= |text|
    decreases |text| - q
  {
    if q == |text| then []
    else
      var cut := NextCut(text[q..]);
      [q + cut] + CutPoints(text, q + cut)
  }

  function Split(text: string): seq<string> {
    if text == "" then []
    else if |text| <= CHUNK_LIMIT then [text]
    else Pieces(text)
  }

  /** The backward scan for the cut. */
  method FindCut(runes: string) returns (cut: nat)
    requires runes != ""
    ensures cut == NextCut(runes)
  {
    var n := CHUNK_LIMIT;
    if |runes| < n {
      n := |runes|;
    }
    cut := n;
    var i := n - 1;
    ghost var found := false;
    while i > 0
      invariant 0 <= i < n == Window(runes)
      invariant if found then i == 0 && IsCut(runes, cut) else cut == n && NoSeparator(runes, i + 1, n)
      decreases i
    {
      if IsSeparator(runes[i]) {
        cut, found := i + 1, true;
        i := 0;
      } else {
        i := i - 1;
      }
    }
    NextCutIsTheCut(runes, cut);
  }

  lemma AppendAssoc<T>(a: seq<T>, b: seq<T>, c: seq<T>)
    ensures a + (b + c) == (a + b) + c
  {
  }

  lemma TailOfAppend<T>(a: seq<T>, b: seq<T>)
    requires a != []
    ensures (a + b)[0] == a[0] && (a + b)[1..] == a[1..] + b
  {
  }

  lemma InAppend<T>(x: T, a: seq<T>, b: seq<T>)
    ensures x in a + b <==> x in a || x in b
  {
  }

  method SplitVKText(text: string) returns (chunks: seq<string>)
    ensures chunks == Split(text)
  {
    if text == "" {
      return [];
    }
    var runes := text;
    if |runes| <= CHUNK_LIMIT {
      return [text];
    }
    chunks := [];
    while |runes| > 0
      invariant chunks + Pieces(runes) == Pieces(text)
      decreases |runes|
    {
      var cut := FindCut(runes);
      ghost var kept, rest := Keep(runes[..cut]), Pieces(runes[cut..]);
      AppendAssoc(chunks, kept, rest);
      var chunk := TrimSpace(runes[..cut]);
      if chunk != "" {
        chunks := chunks + [chunk];
      } else {
        assert chunks + kept == chunks;
      }
      runes := runes[cut..];
    }
  }

  // ---------------------------------------------------------------- properties

  /** A text with all white space removed. */
  ghost function Ink(s: string): string {
    if s == "" then ""
    else if IsSpace(s[0]) then Ink(s[1..])
    else [s[0]] + Ink(s[1..])
  }

  ghost function Flatten(chunks: seq<string>): string {
    if chunks == [] then "" else chunks[0] + Flatten(chunks[1..])
  }

  lemma {:induction false} InkConcat(a: string, b: string)
    ensures Ink(a + b) == Ink(a) + Ink(b)
  {
    if a == "" {
      assert a + b == b;
    } else {
      assert (a + b)[1..] == a[1..] + b;
      InkConcat(a[1..], b);
    }
  }

  lemma {:induction false} TrimLeftKeepsInk(s: string)
    ensures Ink(TrimLeft(s)) == Ink(s)
  {
    if s != "" && IsSpace(s[0]) {
      TrimLeftKeepsInk(s[1..]);
    }
  }

  lemma {:induction false} TrimRightKeepsInk(s: string)
    ensures Ink(TrimRight(s)) == Ink(s)
  {
    if s != "" && IsSpace(s[|s| - 1]) {
      var init := s[..|s| - 1];
      TrimRightKeepsInk(init);
      InkConcat(init, s[|s| - 1..]);
      assert s == init + s[|s| - 1..];
      assert Ink(s[|s| - 1..]) == "";
    }
  }

  lemma KeepKeepsInk(piece: string)
    ensures Ink(Flatten(Keep(piece))) == Ink(piece)
  {
    TrimLeftKeepsInk(piece);
    TrimRightKeepsInk(TrimLeft(piece));
    var t := TrimSpace(piece);
    assert t + "" == t;
  }

  lemma {:induction false} FlattenConcat(a: seq<string>, b: seq<string>)
    ensures Flatten(a + b) == Flatten(a) + Flatten(b)
  {
    if a == [] {
      assert a + b == b;
    } else {
      TailOfAppend(a, b);
      FlattenConcat(a[1..], b);
      AppendAssoc(a[0], Flatten(a[1..]), Flatten(b));
    }
  }

  lemma JoinKeepsInk(a: string, b: string, kept: seq<string>, rest: seq<string>)
    requires Ink(Flatten(kept)) == Ink(a) && Ink(Flatten(rest)) == Ink(b)
    ensures Ink(Flatten(kept + rest)) == Ink(a + b)
  {
    FlattenConcat(kept, rest);
    InkConcat(Flatten(kept), Flatten(rest));
    InkConcat(a, b);
  }

  lemma CutAndJoin(s: string, cut: nat)
    requires cut <= |s|
    ensures s[..cut] + s[cut..] == s
  {
  }

  lemma {:induction false} PiecesKeepInk(runes: string)
    ensures Ink(Flatten(Pieces(runes))) == Ink(runes)
    decreases |runes|
  {
    if runes != "" {
      var cut := NextCut(runes);
      PiecesKeepInk(runes[cut..]);
      KeepKeepsInk(runes[..cut]);
      CutAndJoin(runes, cut);
      JoinKeepsInk(runes[..cut], runes[cut..], Keep(runes[..cut]), Pieces(runes[cut..]));
    }
  }

  /** Nothing but white space is lost, added or reordered by splitting. */
  lemma SplitKeepsInk(text: string)
    ensures Ink(Flatten(Split(text))) == Ink(text)
  {
    if text != "" {
      if |text| <= CHUNK_LIMIT {
        assert [text][1..] == [] && Flatten([]) == "";
        assert text + "" == text;
      } else {
        PiecesKeepInk(text);
      }
    }
  }

  lemma {:induction false} PiecesFit(runes: string)
    ensures forall p :: p in Pieces(runes) ==> |p| <= CHUNK_LIMIT && IsTrimmed(p)
    decreases |runes|
  {
    if runes != "" {
      var cut := NextCut(runes);
      PiecesFit(runes[cut..]);
      forall p | p in Pieces(runes) ensures |p| <= CHUNK_LIMIT && IsTrimmed(p) {
        InAppend(p, Keep(runes[..cut]), Pieces(runes[cut..]));
      }
    }
  }

  /** Every chunk is non-empty and within the limit; chunks of a long text are trimmed. */
  lemma ChunksFit(text: string)
    ensures forall p :: p in Split(text) ==>
      1 <= |p| <= 3500 && (|text| > 3500 ==> IsTrimmed(p))
  {
    if |text| > CHUNK_LIMIT {
      PiecesFit(text);
    }
  }

  /** What lies between consecutive cut points, trimmed, blanks dropped. */
  ghost function Slices(text: string, q: nat, cuts: seq<nat>): seq<string>
    requires Ascending(text, q, cuts)
    decreases |cuts|
  {
    if cuts == [] then [] else Keep(text[q..cuts[0]]) + Slices(text, cuts[0], cuts[1..])
  }

  ghost predicate Ascending(text: string, q: nat, cuts: seq<nat>)
    decreases |cuts|
  {
    cuts == [] || (q <= cuts[0] <= |text| && Ascending(text, cuts[0], cuts[1..]))
  }

  /** The chunks of a long text are exactly the slices between its cut points. */
  lemma {:induction false} PiecesAreSlices(text: string, q: nat)
    requires q <= |text|
    ensures Ascending(text, q, CutPoints(text, q))
    ensures Pieces(text[q..]) == Slices(text, q, CutPoints(text, q))
    decreases |text| - q
  {
    if q < |text| {
      var cut := NextCut(text[q..]);
      PiecesAreSlices(text, q + cut);
      assert text[q..][..cut] == text[q..q + cut];
      assert text[q..][cut..] == text[q + cut..];
      assert CutPoints(text, q)[1..] == CutPoints(text, q + cut);
    }
  }

  /** text[a..b) is a maximal run without separators: a "word". */
  ghost predicate IsWord(text: string, a: nat, b: nat) {
    && a <= b <= |text|
    && NoSeparator(text, a, b)
    && (a == 0 || IsSeparator(text[a - 1]))
    && (b == |text| || IsSeparator(text[b]))
  }

  lemma {:induction false} CutInsideWordFrom(text: string, q: nat, p: nat, a: nat, b: nat)
    requires q <= |text| && p in CutPoints(text, q)
    requires IsWord(text, a, b) && a < p < b
    ensures b - a >= CHUNK_LIMIT
    decreases |text| - q
  {
    var rest := text[q..];
    var cut := NextCut(rest);
    if p == q + cut {
      NextCutIsTheCut(rest, cut);
      assert rest[cut - 1] == text[p - 1];
      assert cut == CHUNK_LIMIT && NoSeparator(rest, 1, cut);
      forall i | q + 1 <= i < q + cut ensures !IsSeparator(text[i]) {
        assert text[i] == rest[i - q];
      }
    } else {
      CutInsideWordFrom(text, q + cut, p, a, b);
    }
  }

  /** No word shorter than the limit is ever cut. */
  lemma ShortWordsStayWhole(text: string, p: nat, a: nat, b: nat)
    requires p in CutPoints(text, 0)
    requires IsWord(text, a, b) && b - a < 3500
    ensures p <= a || b <= p
  {
    if a < p < b {
      CutInsideWordFrom(text, 0, p, a, b);
    }
  }

  /** The rest of a long text that fits into one chunk is one chunk exactly if it ends with
      a separator, or has none after its first rune. */
  lemma RestIsOneChunkIff(runes: string)
    requires 2 <= |runes| <= 3500
    ensures NextCut(runes) == |runes| <==> IsSeparator(runes[|runes| - 1]) || NoSeparator(runes, 1, |runes|)
  {
    NextCutIsTheCut(runes, NextCut(runes));
    NextCutIsTheCut(runes, |runes|);
  }
}
