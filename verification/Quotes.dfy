/** Aligning a proposed quotation with the extracted text, up to runs of white space. */
module Quotes {
  import opened Options
  import opened Text
  import Seqs

  const MAX_ALIGNED := 500

  // ---- chunks --------------------------------------------------------------------------------------

  /** One match of the chunk pattern: a maximal run of white space, or one other character. */
  datatype Chunk = Chunk(start: nat, end: nat)

  function RunEnd(s: Text, i: nat): (j: nat)
    requires i <= |s|
    ensures i <= j <= |s| && (j < |s| ==> !IsSpace(s[j])) && forall k | i <= k < j :: IsSpace(s[k])
    decreases |s| - i
  {
    if i < |s| && IsSpace(s[i]) then RunEnd(s, i + 1) else i
  }

  function ChunkEnd(s: Text, i: nat): (j: nat)
    requires i < |s|
    ensures i < j <= |s|
  {
    if IsSpace(s[i]) then RunEnd(s, i) else i + 1
  }

  function ChunkChar(s: Text, i: nat): CodePoint
    requires i < |s|
  {
    if IsSpace(s[i]) then SPACE else s[i]
  }

  function Chunks(s: Text, i: nat): seq<Chunk>
    requires i <= |s|
    decreases |s| - i
  {
    if i == |s| then [] else [Chunk(i, ChunkEnd(s, i))] + Chunks(s, ChunkEnd(s, i))
  }

  function Min(a: nat, b: nat): nat {
    if a <= b then a else b
  }

  /** The slice `s[i..e]` with every run of white space replaced by one space. */
  function CollapseRange(s: Text, i: nat, e: nat): Text
    requires i <= e <= |s|
    decreases e - i
  {
    if i == e then [] else [ChunkChar(s, i)] + CollapseRange(s, Min(ChunkEnd(s, i), e), e)
  }

  /** `re.sub(r"\s+", " ", s)`. */
  function Collapse(s: Text): Text {
    CollapseRange(s, 0, |s|)
  }

  function StripLeft(s: Text): (r: Text)
    ensures r == [] || !IsSpace(r[0])
    ensures IsBlank(s) ==> r == []
    ensures !IsBlank(s) ==> r != []
  {
    if s != [] && IsSpace(s[0]) then
      assert IsBlank(s[1..]) ==> IsBlank(s) by {
        if IsBlank(s[1..]) { assert forall i | 1 <= i < |s| :: s[i] == s[1..][i - 1]; }
      }
      StripLeft(s[1..])
    else s
  }

  function StripRight(s: Text): (r: Text)
    ensures r == [] || !IsSpace(r[|r| - 1])
    ensures s != [] && !IsSpace(s[0]) ==> r != [] && r[0] == s[0]
  {
    if s != [] && IsSpace(s[|s| - 1]) then StripRight(s[..|s| - 1]) else s
  }

  function Strip(s: Text): Text {
    StripRight(StripLeft(s))
  }

  // ---- searching -------------------------------------------------------------------------------------

  ghost predicate OccursAt(s: Text, needle: Text, i: nat) {
    i + |needle| <= |s| && s[i..i + |needle|] == needle
  }

  /** `s.find(needle, from)`. */
  function Find(s: Text, needle: Text, from: nat): (k: int)
    ensures k == -1 || (from <= k && OccursAt(s, needle, k))
    ensures k == -1 ==> forall j | from <= j :: !OccursAt(s, needle, j)
    ensures forall j | from <= j < k :: !OccursAt(s, needle, j)
    decreases |s| + 1 - from
  {
    if from + |needle| > |s| then -1
    else if s[from..from + |needle|] == needle then from
    else Find(s, needle, from + 1)
  }

  // ---- the aligner -----------------------------------------------------------------------------------

  datatype Span = Span(start: nat, end: nat, exact: bool)

  function Needle(quote: Text): Text {
    Strip(Collapse(quote))
  }

  function QuoteSpan(text: Text, quote: Text): Option<Span> {
    if IsBlank(quote) then None
    else
      var exact := Find(text, quote, 0);
      if exact >= 0 then Some(Span(exact, exact + |quote|, true))
      else
        var needle := Needle(quote);
        var chunks := Chunks(text, 0);
        var normalized := Collapse(text);
        var first := Find(normalized, needle, 0);
        if first < 0 || Find(normalized, needle, first + 1) >= 0 then None
        else
          NeedleSolid(quote);
          ChunkCount(text, 0);
          var start, end := chunks[first].start, chunks[first + |needle| - 1].end;
          if end as int - start <= MAX_ALIGNED then Some(Span(start, end, false)) else None
  }

  /** Text between two offsets reads as the quotation, white space aside. */
  ghost predicate Aligns(text: Text, quote: Text, start: nat, end: nat) {
    start <= end <= |text| && Collapse(text[start..end]) == Needle(quote)
  }

  // ---- facts ------------------------------------------------------------------------------------------

  ghost predicate Solid(s: Text) {
    s != [] && !IsSpace(s[0]) && !IsSpace(s[|s| - 1])
  }

  lemma {:induction false} ChunkCount(s: Text, i: nat)
    requires i <= |s|
    ensures |Chunks(s, i)| == |CollapseRange(s, i, |s|)|
    decreases |s| - i
  {
    if i < |s| { ChunkCount(s, ChunkEnd(s, i)); }
  }

  lemma ConsBlank(c: CodePoint, s: Text)
    ensures IsBlank([c] + s) <==> IsSpace(c) && IsBlank(s)
  {
    var t := [c] + s;
    assert t[0] == c && forall i | 0 <= i < |s| :: t[i + 1] == s[i];
    if IsBlank(t) { forall i | 0 <= i < |s| ensures IsSpace(s[i]) { assert IsSpace(t[i + 1]); } }
  }

  ghost predicate BlankRange(s: Text, i: nat, e: nat)
    requires i <= e <= |s|
  {
    forall k | i <= k < e :: IsSpace(s[k])
  }

  lemma {:induction false} CollapseBlank(s: Text, i: nat)
    requires i <= |s|
    ensures IsBlank(CollapseRange(s, i, |s|)) <==> BlankRange(s, i, |s|)
    decreases |s| - i
  {
    if i < |s| {
      var n := ChunkEnd(s, i);
      CollapseBlank(s, n);
      ConsBlank(ChunkChar(s, i), CollapseRange(s, n, |s|));
    }
  }

  lemma NeedleSolid(quote: Text)
    requires !IsBlank(quote)
    ensures Solid(Needle(quote))
  {
    CollapseBlank(quote, 0);
  }

  /** Offsets that do not fall inside a run of white space. */
  predicate IsBoundary(s: Text, i: nat) {
    i == 0 || i >= |s| || !IsSpace(s[i - 1]) || !IsSpace(s[i])
  }

  lemma ChunkEndIsBoundary(s: Text, i: nat)
    requires i < |s|
    ensures IsBoundary(s, ChunkEnd(s, i))
    ensures forall k | i < k < ChunkEnd(s, i) :: !IsBoundary(s, k)
  {}

  /** Collapsing a slice on its own is collapsing that range of the text. */
  lemma {:induction false} SliceRange(s: Text, i: nat, e: nat, k: nat)
    requires i + k <= e <= |s|
    ensures CollapseRange(s[i..e], k, e - i) == CollapseRange(s, i + k, e)
    decreases e - i - k
  {
    hide *;
    if i + k == e {
      EmptyRange(s[i..e], k);
      EmptyRange(s, e);
    } else {
      var t := s[i..e];
      ChunkEndInSlice(s, i, e, k);
      SliceRange(s, i, e, ChunkEnd(t, k));
      RangeStep(t, k, e - i);
      RangeStep(s, i + k, e);
      SmallerFirst(ChunkEnd(s, i + k), e, i, ChunkEnd(t, k));
    }
  }

  lemma EmptyRange(s: Text, i: nat)
    requires i <= |s|
    ensures CollapseRange(s, i, i) == []
  {}

  lemma SmallerFirst(n: nat, e: nat, i: nat, m: nat)
    requires m == Min(n, e) - i && i <= e
    ensures Min(m, e - i) == m && i + m == Min(n, e)
  {}

  lemma RangeStep(s: Text, i: nat, e: nat)
    requires i < e <= |s|
    ensures CollapseRange(s, i, e) == [ChunkChar(s, i)] + CollapseRange(s, Min(ChunkEnd(s, i), e), e)
  {}

  lemma ChunkEndInSlice(s: Text, i: nat, e: nat, k: nat)
    requires i + k < e <= |s|
    ensures ChunkEnd(s[i..e], k) == Min(ChunkEnd(s, i + k), e) - i && Min(ChunkEnd(s, i + k), e) >= i
    ensures ChunkChar(s[i..e], k) == ChunkChar(s, i + k)
  {
    assert s[i..e][k] == s[i + k];
  }

  /** A boundary splits the collapsed text, and the chunks, in two. */
  lemma {:induction false} SplitAtBoundary(s: Text, i: nat, b: nat, e: nat)
    requires i <= b <= e <= |s| && IsBoundary(s, b)
    ensures CollapseRange(s, i, e) == CollapseRange(s, i, b) + CollapseRange(s, b, e)
    decreases b - i
  {
    if i < b {
      var n := ChunkEnd(s, i);
      ChunkEndIsBoundary(s, i);
      assert n <= b;
      SplitAtBoundary(s, n, b, e);
    }
  }

  /** Every boundary is where the chunk of its own index starts and the one before it ends. */
  lemma {:induction false} BoundaryIsChunk(s: Text, i: nat, b: nat)
    requires i <= b <= |s| && IsBoundary(s, b)
    ensures var k := |CollapseRange(s, i, b)|;
      && k <= |Chunks(s, i)| && (b < |s| ==> k < |Chunks(s, i)| && Chunks(s, i)[k].start == b)
      && (i < b ==> k > 0 && Chunks(s, i)[k - 1].end == b)
    decreases b - i
  {
    if i < b {
      var n := ChunkEnd(s, i);
      ChunkEndIsBoundary(s, i);
      assert n <= b;
      BoundaryIsChunk(s, n, b);
    }
  }

  /** Every chunk starts and ends at the boundaries that its index counts. */
  lemma {:induction false} ChunkIsBoundary(s: Text, i: nat, k: nat)
    requires i <= |s| && IsBoundary(s, i) && k < |Chunks(s, i)|
    ensures var c := Chunks(s, i)[k];
      && i <= c.start < c.end <= |s| && IsBoundary(s, c.start) && IsBoundary(s, c.end)
      && |CollapseRange(s, i, c.start)| == k && |CollapseRange(s, i, c.end)| == k + 1
    decreases |s| - i
  {
    var n := ChunkEnd(s, i);
    ChunkEndIsBoundary(s, i);
    if k == 0 {
      assert CollapseRange(s, i, n) == [ChunkChar(s, i)] + CollapseRange(s, n, n);
    } else {
      ChunkIsBoundary(s, n, k - 1);
      var c := Chunks(s, n)[k - 1];
      assert Chunks(s, i)[k] == c;
      assert CollapseRange(s, i, c.start) == [ChunkChar(s, i)] + CollapseRange(s, n, c.start);
      assert CollapseRange(s, i, c.end) == [ChunkChar(s, i)] + CollapseRange(s, n, c.end);
    }
  }

  lemma {:induction false} LastOfRange(s: Text, i: nat, e: nat)
    requires i < e <= |s|
    ensures var r := CollapseRange(s, i, e);
      r != [] && (IsSpace(r[0]) <==> IsSpace(s[i])) && (IsSpace(r[|r| - 1]) <==> IsSpace(s[e - 1]))
    decreases e - i
  {
    var n := Min(ChunkEnd(s, i), e);
    if n < e { LastOfRange(s, n, e); } else { assert CollapseRange(s, n, e) == []; }
  }

  // ---- occurrences and alignments ----------------------------------------------------------------------

  lemma MiddleOccurs(p: Text, m: Text, q: Text)
    ensures OccursAt(p + (m + q), m, |p|)
  {
    assert (p + (m + q))[|p|..|p| + |m|] == m;
  }

  lemma CollapseWhole(s: Text)
    ensures Collapse(s) == CollapseRange(s, 0, |s|) && IsBoundary(s, 0)
  {}

  lemma AppendLengths(a: Text, b: Text, c: Text)
    requires a + b == c
    ensures |a| + |b| == |c|
  {}

  /** The text between two boundaries occurs, chunk for chunk, in the collapsed text. */
  lemma BoundariesOccur(s: Text, a: nat, e: nat)
    requires a < e <= |s| && IsBoundary(s, a) && IsBoundary(s, e)
    ensures var k, m := |CollapseRange(s, 0, a)|, CollapseRange(s, a, e);
      && OccursAt(Collapse(s), m, k) && m != [] && k + |m| == |CollapseRange(s, 0, e)| <= |Chunks(s, 0)|
      && Chunks(s, 0)[k].start == a && Chunks(s, 0)[k + |m| - 1].end == e
  {
    hide *;
    CollapseWhole(s);
    SplitAtBoundary(s, 0, a, |s|);
    SplitAtBoundary(s, a, e, |s|);
    SplitAtBoundary(s, 0, a, e);
    AppendLengths(CollapseRange(s, 0, a), CollapseRange(s, a, e), CollapseRange(s, 0, e));
    BoundaryIsChunk(s, 0, a);
    BoundaryIsChunk(s, 0, e);
    LastOfRange(s, a, e);
    MiddleOccurs(CollapseRange(s, 0, a), CollapseRange(s, a, e), CollapseRange(s, e, |s|));
  }

  lemma SolidRange(s: Text, a: nat, e: nat)
    requires a <= e <= |s| && Solid(CollapseRange(s, a, e))
    ensures a < e && IsBoundary(s, a) && IsBoundary(s, e)
  {
    assert a < e;
    LastOfRange(s, a, e);
  }

  lemma CollapseSlice(s: Text, a: nat, e: nat)
    requires a <= e <= |s|
    ensures Collapse(s[a..e]) == CollapseRange(s, a, e)
  {
    SliceRange(s, a, e, 0);
  }

  /** A solid string collapses out of `s[a..e]` only where it occurs in the collapsed text. */
  lemma AlignmentIsOccurrence(s: Text, needle: Text, a: nat, e: nat)
    requires a <= e <= |s| && Solid(needle) && Collapse(s[a..e]) == needle
    ensures var k := |CollapseRange(s, 0, a)|;
      && OccursAt(Collapse(s), needle, k) && k + |needle| <= |Chunks(s, 0)| && needle != []
      && Chunks(s, 0)[k].start == a && Chunks(s, 0)[k + |needle| - 1].end == e
  {
    hide *;
    CollapseSlice(s, a, e);
    SolidRange(s, a, e);
    BoundariesOccur(s, a, e);
  }

  lemma OccurrenceIsAlignment(s: Text, needle: Text, k: nat)
    requires Solid(needle) && OccursAt(Collapse(s), needle, k)
    ensures needle != [] && k + |needle| <= |Chunks(s, 0)|
    ensures var a, e := Chunks(s, 0)[k].start, Chunks(s, 0)[k + |needle| - 1].end;
      a < e <= |s| && Collapse(s[a..e]) == needle && |CollapseRange(s, 0, a)| == k
  {
    ChunkCount(s, 0);
    hide CollapseRange, Chunks, IsBoundary, IsSpace;
    CollapseWhole(s);
    ChunkIsBoundary(s, 0, k);
    ChunkIsBoundary(s, 0, k + |needle| - 1);
    var a, e := Chunks(s, 0)[k].start, Chunks(s, 0)[k + |needle| - 1].end;
    CountsOrder(s, a, e);
    BoundariesOccur(s, a, e);
    CollapseSlice(s, a, e);
  }

  lemma CountsOrder(s: Text, a: nat, e: nat)
    requires a <= |s| && e <= |s| && IsBoundary(s, a) && IsBoundary(s, e)
    requires |CollapseRange(s, 0, a)| < |CollapseRange(s, 0, e)|
    ensures a < e
  {
    if e <= a { SplitAtBoundary(s, 0, e, a); }
  }

  // ---- what the aligner returns -------------------------------------------------------------------------

  /** An exact answer is the first literal occurrence, and is given whenever there is one. */
  lemma ExactSpan(text: Text, quote: Text)
    requires !IsBlank(quote)
    ensures QuoteSpan(text, quote).Some? && QuoteSpan(text, quote).value.exact
       <==> exists i :: OccursAt(text, quote, i)
    ensures var r := QuoteSpan(text, quote);
      r.Some? && r.value.exact ==>
        && r.value.end <= |text| && text[r.value.start..r.value.end] == quote
        && forall j | 0 <= j < r.value.start :: !OccursAt(text, quote, j)
  {
    hide Find, Collapse, Chunks, Needle;
  }

  ghost function FromFirst(text: Text, quote: Text, first: nat): Option<Span>
    requires Needle(quote) != [] && first + |Needle(quote)| <= |Chunks(text, 0)|
  {
    var start, end := Chunks(text, 0)[first].start, Chunks(text, 0)[first + |Needle(quote)| - 1].end;
    if Find(Collapse(text), Needle(quote), first + 1) >= 0 || end as int - start > MAX_ALIGNED then None
    else Some(Span(start, end, false))
  }

  /** The non-exact answer in terms of the first and the second occurrence of the needle. */
  lemma SpanByOccurrence(text: Text, quote: Text)
    requires !IsBlank(quote) && forall i :: !OccursAt(text, quote, i)
    ensures Find(Collapse(text), Needle(quote), 0) < 0 ==> QuoteSpan(text, quote) == None
    ensures Find(Collapse(text), Needle(quote), 0) >= 0 ==>
      && Needle(quote) != [] && Find(Collapse(text), Needle(quote), 0) + |Needle(quote)| <= |Chunks(text, 0)|
      && QuoteSpan(text, quote) == FromFirst(text, quote, Find(Collapse(text), Needle(quote), 0))
  {
    NeedleSolid(quote);
    ChunkCount(text, 0);
    hide Find, Chunks, Needle, IsBlank, CollapseRange;
  }

  /** Without a literal occurrence the answer is the one alignment among all slices of the text, if it is
      unique and short enough, and nothing otherwise. */
  lemma AlignedSpan(text: Text, quote: Text, start: nat, end: nat)
    requires !IsBlank(quote) && forall i :: !OccursAt(text, quote, i)
    ensures QuoteSpan(text, quote) == Some(Span(start, end, false))
       <==> && Aligns(text, quote, start, end) && end - start <= 500
            && forall a, e | Aligns(text, quote, a, e) :: a == start && e == end
  {
    hide Find, Collapse, Chunks, Needle, IsBlank, Solid, OccursAt, QuoteSpan, Aligns;
    var needle := Needle(quote);
    NeedleSolid(quote);
    SpanByOccurrence(text, quote);
    var first := Find(Collapse(text), needle, 0);
    if first >= 0 {
      OccurrenceAligns(text, quote, first);
      var second := Find(Collapse(text), needle, first + 1);
      if second >= 0 {
        OccurrenceAligns(text, quote, second);
      } else {
        SoleAlignment(text, quote, first, Chunks(text, 0)[first].start, Chunks(text, 0)[first + |needle| - 1].end);
        assert Aligns(text, quote, start, end) ==> start <= end by { AlignsInOrder(text, quote, start, end); }
      }
    } else {
      NoOccurrenceNoAlignment(text, quote, start, end);
    }
  }

  lemma AlignsInOrder(text: Text, quote: Text, start: nat, end: nat)
    ensures Aligns(text, quote, start, end) ==> start <= end
  {}

  lemma OccurrenceAligns(text: Text, quote: Text, k: nat)
    requires Solid(Needle(quote)) && OccursAt(Collapse(text), Needle(quote), k)
    ensures Needle(quote) != [] && k + |Needle(quote)| <= |Chunks(text, 0)|
    ensures var a, e := Chunks(text, 0)[k].start, Chunks(text, 0)[k + |Needle(quote)| - 1].end;
      Aligns(text, quote, a, e) && a < e && a <= |text| && |CollapseRange(text, 0, a)| == k
  {
    hide Chunks, CollapseRange, Needle, Solid, OccursAt, Collapse;
    OccurrenceIsAlignment(text, Needle(quote), k);
  }

  lemma NoOccurrenceNoAlignment(text: Text, quote: Text, start: nat, end: nat)
    requires Solid(Needle(quote)) && Find(Collapse(text), Needle(quote), 0) < 0
    ensures !Aligns(text, quote, start, end)
  {
    hide Chunks, CollapseRange, Needle, Solid, OccursAt, Collapse, Find;
    if Aligns(text, quote, start, end) { AlignmentIsOccurrence(text, Needle(quote), start, end); }
  }

  lemma SoleAlignment(text: Text, quote: Text, first: nat, start: nat, end: nat)
    requires Solid(Needle(quote)) && Find(Collapse(text), Needle(quote), first + 1) < 0
    requires Find(Collapse(text), Needle(quote), 0) == first
    requires first + |Needle(quote)| <= |Chunks(text, 0)|
    requires start == Chunks(text, 0)[first].start && end == Chunks(text, 0)[first + |Needle(quote)| - 1].end
    ensures forall a, e | Aligns(text, quote, a, e) :: a == start && e == end
  {
    hide Find, Collapse, Chunks, Needle, Solid, OccursAt;
    forall a, e | Aligns(text, quote, a, e) ensures a == start && e == end {
      AlignmentIsOccurrence(text, Needle(quote), a, e);
    }
  }

  /** Whatever is returned lies in the text and reads as the quotation, white space aside. */
  lemma SpanReadsAsQuote(text: Text, quote: Text)
    ensures var r := QuoteSpan(text, quote);
      r.Some? ==> (r.value.start <= r.value.end <= |text|
                   && Strip(Collapse(text[r.value.start..r.value.end])) == Needle(quote))
  {
    var r := QuoteSpan(text, quote);
    if r.Some? {
      ExactSpan(text, quote);
      if !r.value.exact {
        AlignedSpan(text, quote, r.value.start, r.value.end);
        NeedleSolid(quote);
        StripSolid(Needle(quote));
      }
    }
  }

  lemma StripSolid(s: Text)
    requires Solid(s)
    ensures Strip(s) == s
  {}
}
