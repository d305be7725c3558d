/** Cutting one long answer into messages of bounded size without changing a character of it. */
module Splitter {
  import opened Options
  import opened Text
  import opened Fences

  datatype SplitError = InvalidLimit | ContainsSurrogate | LimitTooSmall

  // ---- wrappers ------------------------------------------------------------------------------

  /** The fence open just before `p`: the state after the last recorded delimiter ending at or before `p`. */
  function FenceAt(ms: seq<Mark>, p: nat): Option<Delim> {
    if ms == [] then None
    else if ms[|ms| - 1].right <= p then ms[|ms| - 1].open
    else FenceAt(ms[..|ms| - 1], p)
  }

  function Prefix(ms: seq<Mark>, start: nat): Text {
    match FenceAt(ms, start)
    case None => []
    case Some(d) => d.line + [NEWLINE]
  }

  function Suffix(text: Text, ms: seq<Mark>, p: nat): Text
    requires 0 < p <= |text|
  {
    match FenceAt(ms, p)
    case None => []
    case Some(d) => (if text[p - 1] == NEWLINE then [] else [NEWLINE]) + d.marker
  }

  predicate Inside(ms: seq<Mark>, p: nat) {
    exists k | 0 <= k < |ms| :: ms[k].left < p < ms[k].right
  }

  predicate Fits(text: Text, limit: int, ms: seq<Mark>, start: nat, p: nat)
    requires start < p <= |text|
  {
    Units(Prefix(ms, start)) + Units(text[start..p]) + Units(Suffix(text, ms, p)) <= limit
  }

  predicate Allowed(text: Text, limit: int, ms: seq<Mark>, start: nat, p: nat) {
    start < p <= |text| && !Inside(ms, p) && Fits(text, limit, ms, start, p)
  }

  // ---- preferred boundaries ------------------------------------------------------------------

  /** The four boundary patterns, best first: paragraph, line, sentence, word. */
  datatype Boundary = Paragraph | Line | Sentence | Word

  const PREFERENCE: seq<Boundary> := [Paragraph, Line, Sentence, Word]

  predicate IsBlankChar(c: CodePoint) {
    c == SPACE || c == TAB
  }

  /** Full-width full stops, exclamation and question marks, and their ASCII forms. */
  predicate EndsSentence(c: CodePoint) {
    c == 0x3002 || c == 0xFF0E || c == 0xFF01 || c == 0xFF1F || c == 33 || c == 63
  }

  function SkipBlanks(s: Text, i: nat): (j: nat)
    requires i <= |s|
    ensures i <= j <= |s|
    decreases |s| - i
  {
    if i < |s| && IsBlankChar(s[i]) then SkipBlanks(s, i + 1) else i
  }

  /** End of the pattern's match at `i`, or `i` when it does not match there. */
  function MatchAt(b: Boundary, s: Text, i: nat): (e: nat)
    requires i < |s|
    ensures i <= e <= |s|
  {
    match b
    case Paragraph =>
      if s[i] == NEWLINE then
        var j := SkipBlanks(s, i + 1);
        if j < |s| && s[j] == NEWLINE then j + 1 else i
      else i
    case Line => if s[i] == NEWLINE then i + 1 else i
    case Sentence =>
      if EndsSentence(s[i]) then SkipBlanks(s, i + 1)
      else if s[i] == 46 && i + 1 < |s| && IsBlankChar(s[i + 1]) then SkipBlanks(s, i + 1)
      else i
    case Word => SkipBlanks(s, i)
  }

  /** Ends of the successive non-overlapping matches from `i` on. */
  function MatchEnds(b: Boundary, s: Text, i: nat): (ends: seq<nat>)
    requires i <= |s|
    ensures forall k | 0 <= k < |ends| :: i < ends[k] <= |s|
    decreases |s| - i
  {
    if i == |s| then []
    else
      var e := MatchAt(b, s, i);
      if e > i then [e] + MatchEnds(b, s, e) else MatchEnds(b, s, i + 1)
  }

  function LastAllowed(text: Text, limit: int, ms: seq<Mark>, start: nat, ends: seq<nat>): Option<nat> {
    if ends == [] then None
    else if Allowed(text, limit, ms, start, start + ends[|ends| - 1]) then Some(start + ends[|ends| - 1])
    else LastAllowed(text, limit, ms, start, ends[..|ends| - 1])
  }

  /** The last admissible boundary of the first pattern, from the `i`-th on, that has one; else `hard`. */
  function PreferredEnd(text: Text, limit: int, ms: seq<Mark>, start: nat, hard: nat, i: nat): nat
    requires start <= hard <= |text| && i <= |PREFERENCE|
    decreases |PREFERENCE| - i
  {
    if i == |PREFERENCE| then hard
    else
      match LastAllowed(text, limit, ms, start, MatchEnds(PREFERENCE[i], text[start..hard], 0))
      case Some(p) => p
      case None => PreferredEnd(text, limit, ms, start, hard, i + 1)
  }

  // ---- what a split is -----------------------------------------------------------------------

  /** The furthest admissible position. */
  ghost predicate IsHardEnd(text: Text, limit: int, ms: seq<Mark>, start: nat, hard: nat) {
    && Allowed(text, limit, ms, start, hard)
    && forall p | hard < p <= |text| :: !Allowed(text, limit, ms, start, p)
  }

  ghost predicate BestCut(text: Text, limit: int, ms: seq<Mark>, start: nat, end: nat) {
    exists hard | start < hard <= |text| ::
      && IsHardEnd(text, limit, ms, start, hard)
      && end == if hard == |text| then hard else PreferredEnd(text, limit, ms, start, hard, 0)
  }

  ghost predicate IsPart(text: Text, ms: seq<Mark>, start: nat, end: nat, part: Text) {
    start < end <= |text| && part == Prefix(ms, start) + text[start..end] + Suffix(text, ms, end)
  }

  /** `cuts` are the source positions where the parts begin and end. */
  ghost predicate IsSplit(text: Text, limit: int, ms: seq<Mark>, parts: seq<Text>, cuts: seq<nat>) {
    && |cuts| == |parts| + 1 && cuts[0] == 0
    && (forall k | 0 <= k < |cuts| :: cuts[k] <= |text| && !Inside(ms, cuts[k]))
    && (forall k | 0 <= k < |parts| :: PartAt(text, limit, ms, parts, cuts, k))
  }

  /** The `k`-th part runs from one cut to the best next one, wrapped for the fences it crosses. */
  ghost predicate PartAt(text: Text, limit: int, ms: seq<Mark>, parts: seq<Text>, cuts: seq<nat>, k: nat)
    requires k < |parts| && |cuts| == |parts| + 1
  {
    && BestCut(text, limit, ms, cuts[k], cuts[k + 1])
    && Allowed(text, limit, ms, cuts[k], cuts[k + 1])
    && IsPart(text, ms, cuts[k], cuts[k + 1], parts[k])
  }

  // ---- facts about marks ---------------------------------------------------------------------

  lemma {:induction false} MarksOrdered(text: Text, ms: seq<Mark>, limit: int, a: nat, b: nat)
    requires WellMarked(text, ms, limit) && a < b < |ms|
    ensures ms[a].right <= ms[b].left
    decreases b
  {
    assert Follows(text, ms[b - 1], ms[b], limit) && MarkOk(text, ms[b - 1], limit);
    if a < b - 1 { MarksOrdered(text, ms, limit, a, b - 1); }
  }

  /** No recorded delimiter ends in `(p, q]`, so the same fence is open at both. */
  lemma {:induction false} FenceAtStable(ms: seq<Mark>, p: nat, q: nat)
    requires p <= q && forall k | 0 <= k < |ms| :: !(p < ms[k].right <= q)
    ensures FenceAt(ms, p) == FenceAt(ms, q)
  {
    if ms != [] && ms[|ms| - 1].right > q { FenceAtStable(ms[..|ms| - 1], p, q); }
  }

  lemma {:induction false} FenceAtIs(ms: seq<Mark>, p: nat, k: nat)
    requires k < |ms| && ms[k].right <= p && forall j | k < j < |ms| :: p < ms[j].right
    ensures FenceAt(ms, p) == ms[k].open
  {
    if k < |ms| - 1 { FenceAtIs(ms[..|ms| - 1], p, k); }
  }

  lemma {:induction false} FenceAtStart(ms: seq<Mark>, p: nat)
    requires forall j | 0 <= j < |ms| :: p < ms[j].right
    ensures FenceAt(ms, p) == None
  {
    if ms != [] { FenceAtStart(ms[..|ms| - 1], p); }
  }

  /** Whatever fence is open anywhere was admitted by the wrapping rule. */
  lemma {:induction false} OpenFenceWraps(text: Text, ms: seq<Mark>, limit: int, p: nat)
    requires forall k | 0 <= k < |ms| :: MarkOk(text, ms[k], limit)
    ensures FenceAt(ms, p).Some? ==> Wraps(FenceAt(ms, p).value, limit)
  {
    if ms != [] {
      assert MarkOk(text, ms[|ms| - 1], limit);
      OpenFenceWraps(text, ms[..|ms| - 1], limit, p);
    }
  }

  lemma WrapUnits(open: Delim, limit: int)
    requires Wraps(open, limit)
    ensures Units(open.line + [NEWLINE]) == Units(open.line) + 1
    ensures Units([NEWLINE] + open.marker) == 1 + Units(open.marker)
    ensures Units(open.line) + Units(open.marker) + 4 <= limit
  {
    assert Units([NEWLINE]) == 1;
    assert [NEWLINE, NEWLINE] == [NEWLINE] + [NEWLINE];
    UnitsAppend([NEWLINE], [NEWLINE]);
    UnitsAppend(open.line, [NEWLINE, NEWLINE]);
    UnitsAppend(open.line + [NEWLINE, NEWLINE], open.marker);
    UnitsAppend(open.line, [NEWLINE]);
    UnitsAppend([NEWLINE], open.marker);
  }

  lemma SuffixUnits(text: Text, ms: seq<Mark>, limit: int, p: nat)
    requires 0 < p <= |text| && forall k | 0 <= k < |ms| :: MarkOk(text, ms[k], limit)
    ensures FenceAt(ms, p).None? ==> Units(Suffix(text, ms, p)) == 0
    ensures FenceAt(ms, p).Some? ==>
      Units(Suffix(text, ms, p)) == Units(FenceAt(ms, p).value.marker) + if text[p - 1] == NEWLINE then 0 else 1
  {
    OpenFenceWraps(text, ms, limit, p);
    if FenceAt(ms, p).Some? {
      var d := FenceAt(ms, p).value;
      WrapUnits(d, limit);
      assert [] + d.marker == d.marker;
    }
  }

  // ---- every limit of at least two makes progress ----------------------------------------------

  /** A position that is always admissible: behind the delimiter line at `start`, or one character on. */
  ghost function Progress(ms: seq<Mark>, start: nat): nat {
    if k: nat :| k < |ms| && ms[k].left == start then ms[k].right else start + 1
  }

  /** Around a recorded delimiter: nothing overlaps it, and the open fence changes exactly there. */
  lemma DelimiterStates(text: Text, limit: int, ms: seq<Mark>, k: nat)
    requires WellMarked(text, ms, limit) && k < |ms|
    ensures !Inside(ms, ms[k].right)
    ensures FenceAt(ms, ms[k].right) == ms[k].open
    ensures FenceAt(ms, ms[k].left) == if k == 0 then None else ms[k - 1].open
  {
    hide Follows;
    var m := ms[k];
    forall j | 0 <= j < |ms| ensures MarkOk(text, ms[j], limit) {}
    forall j | 0 <= j < |ms| && j != k ensures if j < k then ms[j].right <= m.left else m.right <= ms[j].left {
      if j < k { MarksOrdered(text, ms, limit, j, k); } else { MarksOrdered(text, ms, limit, k, j); }
    }
    FenceAtIs(ms, m.right, k);
    if k > 0 { FenceAtIs(ms, m.left, k - 1); } else { FenceAtStart(ms, m.left); }
  }

  lemma DelimiterFits(text: Text, limit: int, ms: seq<Mark>, k: nat)
    requires WellMarked(text, ms, limit) && k < |ms|
    ensures Allowed(text, limit, ms, ms[k].left, ms[k].right)
  {
    hide Inside, FenceAt;
    var m := ms[k];
    DelimiterStates(text, limit, ms, k);
    SuffixUnits(text, ms, limit, m.right);
    assert MarkOk(text, m, limit);
    if k > 0 { assert Follows(text, ms[k - 1], m, limit); }
    if m.open.Some? {
      assert Prefix(ms, m.left) == [];
      OpenerUnits(text, m.open.value, limit);
    } else {
      var o := ms[k - 1].open.value;
      UnitsAppend(o.line + [NEWLINE], text[m.left..m.right]);
    }
  }

  lemma OpenerUnits(text: Text, d: Delim, limit: int)
    requires Usable(text, d) && Wraps(d, limit)
    ensures Units(text[d.left..d.right]) + Units(d.marker) + (if text[d.right - 1] == NEWLINE then 0 else 1) <= limit
  {
    WrapUnits(d, limit);
    if d.right == d.left + |d.line| {
      assert text[d.left..d.right] == d.line;
    } else {
      assert text[d.left..d.right] == d.line + [NEWLINE];
    }
  }

  lemma OneCharacterFits(text: Text, limit: int, ms: seq<Mark>, start: nat)
    requires WellMarked(text, ms, limit) && start < |text| && !Inside(ms, start)
    requires limit >= 2 || (limit == 1 && !IsAstral(text[start]))
    requires forall k | 0 <= k < |ms| :: ms[k].left != start
    ensures Allowed(text, limit, ms, start, start + 1)
  {
    assert forall k | 0 <= k < |ms| :: MarkOk(text, ms[k], limit);
    FenceAtStable(ms, start, start + 1);
    OpenFenceWraps(text, ms, limit, start);
    SuffixUnits(text, ms, limit, start + 1);
    assert text[start..start + 1] == [text[start]];
    assert Units([text[start]]) == CharUnits(text[start]) by { assert [text[start]][..0] == []; }
    hide Units, FenceAt;
    if FenceAt(ms, start).Some? { WrapUnits(FenceAt(ms, start).value, limit); }
    NoUnits();
  }

  lemma NoUnits()
    ensures Units([]) == 0
  {}

  /** From every admissible start there is an admissible end, so the splitter never gives up. */
  lemma AlwaysProgress(text: Text, limit: int, ms: seq<Mark>, start: nat)
    requires WellMarked(text, ms, limit) && start < |text| && !Inside(ms, start)
    requires limit >= 2 || (limit == 1 && !IsAstral(text[start]))
    ensures exists p :: Allowed(text, limit, ms, start, p)
  {
    if k: nat :| k < |ms| && ms[k].left == start {
      DelimiterFits(text, limit, ms, k);
    } else {
      OneCharacterFits(text, limit, ms, start);
    }
  }

  /** With a limit of one unit no fence is recorded, so an astral character blocks. */
  lemma NoRoomForAstral(text: Text, ms: seq<Mark>, start: nat, p: nat)
    requires start < p <= |text| && IsAstral(text[start])
    ensures !Allowed(text, 1, ms, start, p)
  {
    UnitsSlice(text[start..p], 1, p - start);
    assert text[start..p][..p - start] == text[start..p];
    assert text[start..p][..1] == [text[start]];
    assert [text[start]][..0] == [];
    assert Units([text[start]]) == 2;
  }

  // ---- the splitter --------------------------------------------------------------------------

  method Offsets(text: Text) returns (r: Result<seq<nat>, SplitError>)
    ensures r.Err? <==> exists i :: 0 <= i < |text| && IsSurrogate(text[i])
    ensures r.Err? ==> r.error == ContainsSurrogate
    ensures r.Ok? ==> |r.value| == |text| + 1 && forall i | 0 <= i <= |text| :: r.value[i] == Units(text[..i])
  {
    var offsets: seq<nat> := [0];
    for i := 0 to |text|
      invariant |offsets| == i + 1
      invariant forall k | 0 <= k <= i :: offsets[k] == Units(text[..k])
      invariant forall k | 0 <= k < i :: !IsSurrogate(text[k])
    {
      if IsSurrogate(text[i]) {
        return Err(ContainsSurrogate);
      }
      assert text[..i + 1][..i] == text[..i];
      offsets := offsets + [offsets[i] + CharUnits(text[i])];
    }
    return Ok(offsets);
  }

  /** `bisect_right(offsets, bound) - 1`: the last index whose offset is within the bound. */
  function LastWithin(offsets: seq<nat>, bound: int): (i: int)
    ensures -1 <= i < |offsets|
    ensures i >= 0 ==> offsets[i] <= bound
    ensures forall k | i < k < |offsets| :: bound < offsets[k]
  {
    if offsets == [] || offsets[|offsets| - 1] <= bound then |offsets| - 1
    else LastWithin(offsets[..|offsets| - 1], bound)
  }

  method HardEnd(text: Text, limit: int, ms: seq<Mark>, offsets: seq<nat>, start: nat) returns (end: nat)
    requires start < |text| && !Inside(ms, start)
    requires |offsets| == |text| + 1 && forall i | 0 <= i <= |text| :: offsets[i] == Units(text[..i])
    requires Units(Prefix(ms, start)) <= limit
    ensures start <= end <= |text|
    ensures end > start ==> IsHardEnd(text, limit, ms, start, end)
    ensures end == start ==> forall p :: !Allowed(text, limit, ms, start, p)
  {
    hide Prefix, Suffix, Units;
    var prefixUnits := Units(Prefix(ms, start));
    var last := LastWithin(offsets, offsets[start] + limit - prefixUnits);
    forall p | last < p <= |text| ensures !Allowed(text, limit, ms, start, p) {
      if start < p { UnitsSlice(text, start, p); }
    }
    end := last;
    while end > start
      invariant start <= end <= |text|
      invariant forall p | end < p <= |text| :: !Allowed(text, limit, ms, start, p)
    {
      if k: nat :| k < |ms| && ms[k].left < end < ms[k].right {
        assert forall p | ms[k].left < p <= end :: Inside(ms, p);
        end := ms[k].left;
        continue;
      }
      UnitsSlice(text, start, end);
      if prefixUnits + (offsets[end] - offsets[start]) + Units(Suffix(text, ms, end)) <= limit {
        break;
      }
      end := end - 1;
    }
  }

  method SoftEnd(text: Text, limit: int, ms: seq<Mark>, start: nat, hard: nat) returns (end: nat)
    requires start < hard <= |text| && Allowed(text, limit, ms, start, hard)
    ensures end == PreferredEnd(text, limit, ms, start, hard, 0)
    ensures Allowed(text, limit, ms, start, end)
  {
    hide Allowed, MatchEnds;
    var i := 0;
    while i < |PREFERENCE|
      invariant 0 <= i <= |PREFERENCE| && start <= hard <= |text|
      invariant PreferredEnd(text, limit, ms, start, hard, 0) == PreferredEnd(text, limit, ms, start, hard, i)
    {
      var boundaries := MatchEnds(PREFERENCE[i], text[start..hard], 0);
      var j := |boundaries|;
      assert boundaries[..j] == boundaries;
      while j > 0
        invariant 0 <= j <= |boundaries|
        invariant LastAllowed(text, limit, ms, start, boundaries)
                  == LastAllowed(text, limit, ms, start, boundaries[..j])
      {
        j := j - 1;
        assert boundaries[..j + 1][..j] == boundaries[..j];
        if Allowed(text, limit, ms, start, start + boundaries[j]) {
          return start + boundaries[j];
        }
      }
      i := i + 1;
    }
    end := hard;
  }

  /** The splitter. It fails in exactly the cases the source raises in; otherwise it returns a split. */
  method Split(text: Text, limit: int) returns (r: Result<seq<Text>, SplitError>, ghost cuts: seq<nat>)
    ensures r.Err? && r.error == InvalidLimit <==> limit < 1
    ensures r.Err? && r.error == ContainsSurrogate <==>
      limit >= 1 && exists i :: 0 <= i < |text| && 0xD800 <= text[i] <= 0xDFFF
    ensures r.Err? && r.error == LimitTooSmall <==>
      && limit == 1 && (forall i | 0 <= i < |text| :: !(0xD800 <= text[i] <= 0xDFFF))
      && exists i :: 0 <= i < |text| && text[i] > 0xFFFF
    ensures r.Ok? && Units(text) <= limit ==> r.value == if text == [] then [] else [text]
    ensures r.Ok? && Units(text) > limit ==>
      && IsSplit(text, limit, Marks(text, limit), r.value, cuts)
      && |cuts| == |r.value| + 1 && cuts[|r.value|] == |text|
  {
    hide *;
    CharactersTold(text);
    cuts := [0];
    if limit < 1 {
      return Err(InvalidLimit), cuts;
    }
    var table := Offsets(text);
    if table.Err? {
      return Err(table.error), cuts;
    }
    var offsets := table.value;
    assert text[..|text|] == text;
    if offsets[|text|] <= limit {
      WithinLimitOne(text, limit);
      return Ok(if text == [] then [] else [text]), cuts;
    }
    var ms := Scan(text, limit);
    MarksWellMarked(text, limit);
    var parts: seq<Text> := [];
    var start: nat := 0;
    EmptySplit(text, limit, ms);
    while start < |text|
      invariant start <= |text| && |cuts| == |parts| + 1 && cuts[|parts|] == start
      invariant IsSplit(text, limit, ms, parts, cuts)
      invariant limit == 1 ==> forall i | 0 <= i < start :: !IsAstral(text[i])
      decreases |text| - start
    {
      LastCut(text, limit, ms, parts, cuts);
      PrefixFits(text, limit, ms, start);
      var hard := HardEnd(text, limit, ms, offsets, start);
      if hard <= start {
        Stuck(text, limit, ms, start);
        return Err(LimitTooSmall), cuts;
      }
      HardIsAllowed(text, limit, ms, start, hard);
      var end := hard;
      if hard < |text| {
        end := SoftEnd(text, limit, ms, start, hard);
      }
      AppendPart(text, limit, ms, parts, cuts, hard, end);
      if limit == 1 { NoAstralInPart(text, ms, start, end); }
      parts := parts + [Prefix(ms, start) + text[start..end] + Suffix(text, ms, end)];
      cuts := cuts + [end];
      start := end;
    }
    return Ok(parts), cuts;
  }

  lemma CharactersTold(text: Text)
    ensures forall i | 0 <= i < |text| :: IsSurrogate(text[i]) <==> 0xD800 <= text[i] <= 0xDFFF
    ensures forall i | 0 <= i < |text| :: IsAstral(text[i]) <==> text[i] > 0xFFFF
  {}

  lemma WithinLimitOne(text: Text, limit: int)
    requires limit == 1 ==> Units(text) <= limit
    ensures limit == 1 ==> forall i | 0 <= i < |text| :: !IsAstral(text[i])
  {
    if limit == 1 && text != [] {
      assert |text| == 1 && Units(text) == Units(text[..0]) + CharUnits(text[0]);
    }
  }

  lemma EmptySplit(text: Text, limit: int, ms: seq<Mark>)
    ensures IsSplit(text, limit, ms, [], [0])
  {}

  lemma LastCut(text: Text, limit: int, ms: seq<Mark>, parts: seq<Text>, cuts: seq<nat>)
    requires IsSplit(text, limit, ms, parts, cuts)
    ensures |cuts| > 0 && !Inside(ms, cuts[|cuts| - 1])
  {}

  lemma PrefixFits(text: Text, limit: int, ms: seq<Mark>, start: nat)
    requires WellMarked(text, ms, limit) && limit >= 1
    ensures Units(Prefix(ms, start)) <= limit
  {
    OpenFenceWraps(text, ms, limit, start);
    if FenceAt(ms, start).Some? { WrapUnits(FenceAt(ms, start).value, limit); }
  }

  lemma HardIsAllowed(text: Text, limit: int, ms: seq<Mark>, start: nat, hard: nat)
    requires IsHardEnd(text, limit, ms, start, hard)
    ensures Allowed(text, limit, ms, start, hard) && start < hard <= |text|
  {}

  lemma Stuck(text: Text, limit: int, ms: seq<Mark>, start: nat)
    requires WellMarked(text, ms, limit) && start < |text| && !Inside(ms, start) && limit >= 1
    requires forall p :: !Allowed(text, limit, ms, start, p)
    ensures limit == 1 && IsAstral(text[start])
  {
    if limit >= 2 || !IsAstral(text[start]) { AlwaysProgress(text, limit, ms, start); }
  }

  lemma NoAstralInPart(text: Text, ms: seq<Mark>, start: nat, end: nat)
    requires Allowed(text, 1, ms, start, end)
    ensures end == start + 1 && !IsAstral(text[start])
  {
    if IsAstral(text[start]) { NoRoomForAstral(text, ms, start, end); }
  }

  lemma AppendPart(text: Text, limit: int, ms: seq<Mark>, parts: seq<Text>, cuts: seq<nat>, hard: nat, end: nat)
    requires IsSplit(text, limit, ms, parts, cuts)
    requires IsHardEnd(text, limit, ms, cuts[|cuts| - 1], hard)
    requires Allowed(text, limit, ms, cuts[|cuts| - 1], end)
    requires end == if hard == |text| then hard else PreferredEnd(text, limit, ms, cuts[|cuts| - 1], hard, 0)
    ensures cuts[|cuts| - 1] < end <= |text|
    ensures IsSplit(text, limit, ms,
                    parts + [Prefix(ms, cuts[|cuts| - 1]) + text[cuts[|cuts| - 1]..end] + Suffix(text, ms, end)],
                    cuts + [end])
  {
    hide Allowed, IsHardEnd, PreferredEnd, Prefix, Suffix, FenceAt;
    var start := cuts[|cuts| - 1];
    assert start < end <= |text| && !Inside(ms, end) by { AllowedBounds(text, limit, ms, start, end); }
    assert start < hard <= |text| by { HardIsAllowed(text, limit, ms, start, hard); }
    assert BestCut(text, limit, ms, start, end);
    var parts' := parts + [Prefix(ms, start) + text[start..end] + Suffix(text, ms, end)];
    forall k | 0 <= k < |parts'| ensures PartAt(text, limit, ms, parts', cuts + [end], k) {
      if k < |parts| { assert PartAt(text, limit, ms, parts, cuts, k); }
    }
  }

  lemma AllowedBounds(text: Text, limit: int, ms: seq<Mark>, start: nat, end: nat)
    requires Allowed(text, limit, ms, start, end)
    ensures start < end <= |text| && !Inside(ms, end)
  {}

  // ---- what a split guarantees ----------------------------------------------------------------

  /** A part without the opener and closer that were added to it. */
  function Strip(text: Text, ms: seq<Mark>, part: Text, start: nat, end: nat): Text
    requires 0 < end <= |text| && |Prefix(ms, start)| + |Suffix(text, ms, end)| <= |part|
  {
    part[|Prefix(ms, start)|..|part| - |Suffix(text, ms, end)|]
  }

  ghost predicate Strippable(text: Text, ms: seq<Mark>, parts: seq<Text>, cuts: seq<nat>) {
    |cuts| == |parts| + 1 && forall k | 0 <= k < |parts| :: StrippableAt(text, ms, parts, cuts, k)
  }

  ghost predicate StrippableAt(text: Text, ms: seq<Mark>, parts: seq<Text>, cuts: seq<nat>, k: nat)
    requires k < |parts| && |cuts| == |parts| + 1
  {
    0 < cuts[k + 1] <= |text| && |Prefix(ms, cuts[k])| + |Suffix(text, ms, cuts[k + 1])| <= |parts[k]|
  }

  ghost function StripAll(text: Text, ms: seq<Mark>, parts: seq<Text>, cuts: seq<nat>, n: nat): (out: Text)
    requires Strippable(text, ms, parts, cuts) && n <= |parts|
  {
    if n == 0 then []
    else
      assert StrippableAt(text, ms, parts, cuts, n - 1);
      StripAll(text, ms, parts, cuts, n - 1) + Strip(text, ms, parts[n - 1], cuts[n - 1], cuts[n])
  }

  /** Nothing is lost or reordered: without their wrappers the first `n` parts spell out the text up
      to the `n`-th cut. */
  lemma {:induction false} SplitRoundTrip(text: Text, limit: int, ms: seq<Mark>,
                                          parts: seq<Text>, cuts: seq<nat>, n: nat)
    requires IsSplit(text, limit, ms, parts, cuts) && n <= |parts|
    ensures Strippable(text, ms, parts, cuts)
    ensures StripAll(text, ms, parts, cuts, n) == text[..cuts[n]]
  {
    hide Allowed, BestCut, Prefix, Suffix, Inside;
    forall k | 0 <= k < |parts| ensures StrippableAt(text, ms, parts, cuts, k) {
      assert PartAt(text, limit, ms, parts, cuts, k);
    }
    if n > 0 {
      SplitRoundTrip(text, limit, ms, parts, cuts, n - 1);
      assert PartAt(text, limit, ms, parts, cuts, n - 1);
      assert text[..cuts[n]] == text[..cuts[n - 1]] + text[cuts[n - 1]..cuts[n]];
    }
  }

  /** Every part respects the message limit, wrappers included. */
  lemma SplitWithinLimit(text: Text, limit: int, ms: seq<Mark>, parts: seq<Text>, cuts: seq<nat>, k: nat)
    requires IsSplit(text, limit, ms, parts, cuts) && k < |parts|
    ensures 0 < Units(parts[k]) <= limit
  {
    hide BestCut, Inside, Prefix, Suffix, Units;
    var start, end := cuts[k], cuts[k + 1];
    assert PartAt(text, limit, ms, parts, cuts, k);
    UnitsAppend(Prefix(ms, start), text[start..end]);
    UnitsAppend(Prefix(ms, start) + text[start..end], Suffix(text, ms, end));
  }

  /** The cuts, and with them the parts, are determined by the text and the limit. */
  lemma {:induction false} SplitUnique(text: Text, limit: int, ms: seq<Mark>,
                                       p1: seq<Text>, c1: seq<nat>, p2: seq<Text>, c2: seq<nat>, k: nat)
    requires IsSplit(text, limit, ms, p1, c1) && IsSplit(text, limit, ms, p2, c2)
    requires k <= |p1| && k <= |p2|
    ensures c1[k] == c2[k] && p1[..k] == p2[..k]
  {
    hide Allowed, Inside, Prefix, Suffix, PreferredEnd;
    if k > 0 {
      SplitUnique(text, limit, ms, p1, c1, p2, c2, k - 1);
      assert PartAt(text, limit, ms, p1, c1, k - 1) && PartAt(text, limit, ms, p2, c2, k - 1);
      assert p1[..k] == p1[..k - 1] + [p1[k - 1]] && p2[..k] == p2[..k - 1] + [p2[k - 1]];
    }
  }
}
