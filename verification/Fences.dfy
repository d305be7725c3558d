/** Which lines delimit a fenced code block (CommonMark 0.31 section 4.5), and which of those the
    message splitter records so that no cut can turn a delimiter line into code text. */
module Fences {
  import opened Options
  import opened Text

  /** One match of the delimiter pattern: `text[left..right]` with its parsed pieces. */
  datatype Delim = Delim(left: nat, right: nat, line: Text, marker: Text, info: Text)

  /** A recorded delimiter line with the fence that is open after it (the source's parallel lists). */
  datatype Mark = Mark(left: nat, right: nat, open: Option<Delim>)

  // ---- delimiter lines ---------------------------------------------------------------------

  function RunLength(s: Text, c: CodePoint): (n: nat)
    ensures n <= |s| && (forall i | 0 <= i < n :: s[i] == c) && (n < |s| ==> s[n] != c)
  {
    if s == [] || s[0] != c then 0 else 1 + RunLength(s[1..], c)
  }

  /** Up to three spaces, then at least three backticks or three tildes. */
  predicate IsFenceLine(line: Text) {
    var indent := RunLength(line, SPACE);
    && indent <= 3 && indent < |line|
    && (line[indent] == BACKTICK || line[indent] == TILDE)
    && RunLength(line[indent..], line[indent]) >= 3
  }

  function ParseDelim(line: Text, left: nat, right: nat): (d: Delim)
    requires IsFenceLine(line)
  {
    var indent := RunLength(line, SPACE);
    var n := RunLength(line[indent..], line[indent]);
    Delim(left, right, line, line[indent..indent + n], line[indent + n..])
  }

  function LineStop(text: Text, i: nat): (stop: nat)
    requires i <= |text|
    ensures i <= stop <= |text| && (stop < |text| ==> text[stop] == NEWLINE)
    ensures forall j | i <= j < stop :: text[j] != NEWLINE
    decreases |text| - i
  {
    if i == |text| || text[i] == NEWLINE then i else LineStop(text, i + 1)
  }

  function NextLine(text: Text, i: nat): (next: nat)
    requires i < |text|
    ensures i < next <= |text|
  {
    var stop := LineStop(text, i);
    if stop < |text| then stop + 1 else stop
  }

  /** `d` is what matching the whole line that starts at `d.left` yields. */
  predicate IsDelim(text: Text, d: Delim) {
    && d.left < |text|
    && IsFenceLine(text[d.left..LineStop(text, d.left)])
    && d == ParseDelim(text[d.left..LineStop(text, d.left)], d.left, NextLine(text, d.left))
  }

  /** What the rest of the proof needs of a match: it is a whole line of at least three characters. */
  predicate Usable(text: Text, d: Delim) {
    && |d.marker| >= 3 && d.left + 3 <= d.right <= |text|
    && d.left + |d.line| <= |text| && d.line == text[d.left..d.left + |d.line|]
    && (d.right == d.left + |d.line| || (d.right == d.left + |d.line| + 1 && text[d.right - 1] == NEWLINE))
    && (d.right == |text| || text[d.right - 1] == NEWLINE)
  }

  lemma DelimUsable(text: Text, d: Delim)
    requires IsDelim(text, d)
    ensures Usable(text, d)
  {}

  /** Every match of the delimiter pattern from line start `i` on, in order. */
  function Delims(text: Text, i: nat): (ds: seq<Delim>)
    requires i <= |text|
    ensures forall k | 0 <= k < |ds| :: Usable(text, ds[k])
    decreases |text| - i
  {
    if i == |text| then []
    else
      var line := text[i..LineStop(text, i)];
      var next := NextLine(text, i);
      if IsFenceLine(line) then
        var d := ParseDelim(line, i, next);
        DelimUsable(text, d);
        [d] + Delims(text, next)
      else Delims(text, next)
  }

  predicate IsLineStart(text: Text, i: nat) {
    i == 0 || (i <= |text| && text[i - 1] == NEWLINE)
  }

  ghost predicate DelimsFrom(text: Text, i: nat, ds: seq<Delim>) {
    && (forall k | 0 <= k < |ds| :: i <= ds[k].left && IsLineStart(text, ds[k].left) && Usable(text, ds[k]))
    && (forall a, b | 0 <= a < b < |ds| :: ds[a].right <= ds[b].left)
  }

  lemma PrependDelim(text: Text, d: Delim, rest: seq<Delim>)
    requires IsLineStart(text, d.left) && Usable(text, d) && DelimsFrom(text, d.right, rest)
    ensures DelimsFrom(text, d.left, [d] + rest)
  {
    hide IsLineStart;
    var ds := [d] + rest;
    assert forall k | 1 <= k < |ds| :: ds[k] == rest[k - 1];
    assert forall k | 1 <= k < |ds| :: d.right <= ds[k].left && IsLineStart(text, ds[k].left) && Usable(text, ds[k]);
    forall a, b | 0 <= a < b < |ds| ensures ds[a].right <= ds[b].left {
      if a > 0 { assert rest[a - 1].right <= rest[b - 1].left; }
    }
  }

  lemma {:induction false} DelimsInOrder(text: Text, i: nat)
    requires i <= |text| && (i < |text| ==> IsLineStart(text, i))
    ensures DelimsFrom(text, i, Delims(text, i))
    decreases |text| - i
  {
    hide IsFenceLine, Usable, ParseDelim, DelimsFrom;
    if i == |text| {
      EmptyInOrder(text, i);
    } else {
      var next := NextLine(text, i);
      DelimsInOrder(text, next);
      var line := text[i..LineStop(text, i)];
      if IsFenceLine(line) {
        var d := ParseDelim(line, i, next);
        ParsedBounds(line, i, next);
        assert Delims(text, i)[0] == d;
        PrependDelim(text, d, Delims(text, next));
      } else {
        WidenDelims(text, i, next, Delims(text, next));
      }
    }
  }

  lemma ParsedBounds(line: Text, left: nat, right: nat)
    requires IsFenceLine(line)
    ensures ParseDelim(line, left, right).left == left && ParseDelim(line, left, right).right == right
  {}

  lemma EmptyInOrder(text: Text, i: nat)
    ensures DelimsFrom(text, i, [])
  {}

  lemma WidenDelims(text: Text, i: nat, next: nat, ds: seq<Delim>)
    requires i <= next && DelimsFrom(text, next, ds)
    ensures DelimsFrom(text, i, ds)
  {}

  /** The match list misses no delimiter line and contains nothing else. */
  lemma {:induction false} DelimsExact(text: Text, i: nat, p: nat)
    requires i <= p < |text| && IsLineStart(text, i)
    ensures (exists d :: d in Delims(text, i) && d.left == p)
       <==> (IsLineStart(text, p) && IsFenceLine(text[p..LineStop(text, p)]))
    decreases |text| - i
  {
    hide IsFenceLine, Usable, ParseDelim;
    var next := NextLine(text, i);
    DelimsInOrder(text, next);
    var line := text[i..LineStop(text, i)];
    var rest := Delims(text, next);
    if IsFenceLine(line) {
      ParsedBounds(line, i, next);
      assert Delims(text, i) == [ParseDelim(line, i, next)] + rest;
    }
    assert forall d: Delim | d.left != i :: d in Delims(text, i) <==> d in rest;
    if p == i {
      if IsFenceLine(line) { assert Delims(text, i)[0] in Delims(text, i); }
    } else if p < next {
      assert !IsLineStart(text, p);
    } else if next <= p {
      DelimsExact(text, next, p);
    }
  }

  // ---- pairing ------------------------------------------------------------------------------

  predicate Opens(d: Delim)
    requires |d.marker| > 0
  {
    !(d.marker[0] == BACKTICK && BACKTICK in d.info)
  }

  predicate Closes(d: Delim, open: Delim)
    requires |d.marker| > 0 && |open.marker| > 0
  {
    d.marker[0] == open.marker[0] && |d.marker| >= |open.marker| && IsBlank(d.info)
  }

  function Max(a: int, b: int): int {
    if a >= b then a else b
  }

  /** Opener and closer wrappers leave at least half of a continuation for text. */
  predicate Wraps(open: Delim, limit: int) {
    Units(open.line + [NEWLINE, NEWLINE] + open.marker) + Max(2, limit / 2) <= limit
  }

  predicate CloserFits(text: Text, open: Delim, close: Delim, limit: int)
    requires Usable(text, close)
  {
    Units(open.line + [NEWLINE] + text[close.left..close.right]) <= limit
  }

  /** The delimiters a pairing of whole fences keeps: a fence is recorded as a pair or not at all,
      except that a fence left open by the end of the text is recorded by its opener alone. */
  function Recorded(text: Text, ds: seq<Delim>, i: nat, limit: int): (ms: seq<Mark>)
    requires i <= |ds| && forall k | 0 <= k < |ds| :: Usable(text, ds[k])
    decreases |ds| - i, 1
  {
    if i == |ds| then []
    else
      assert Usable(text, ds[i]);
      if Opens(ds[i]) then AfterOpen(text, ds, ds[i], i + 1, limit)
      else Recorded(text, ds, i + 1, limit)
  }

  function AfterOpen(text: Text, ds: seq<Delim>, open: Delim, k: nat, limit: int): (ms: seq<Mark>)
    requires k <= |ds| && Usable(text, open) && forall k | 0 <= k < |ds| :: Usable(text, ds[k])
    decreases |ds| - k, 0
  {
    if k == |ds| then
      if Wraps(open, limit) then [Opening(open)] else []
    else
      assert Usable(text, ds[k]);
      if Closes(ds[k], open) then
        if Wraps(open, limit) && CloserFits(text, open, ds[k], limit) then
          [Opening(open)] + ([Closing(ds[k])] + Recorded(text, ds, k + 1, limit))
        else Recorded(text, ds, k + 1, limit)
      else AfterOpen(text, ds, open, k + 1, limit)
  }

  function Opening(d: Delim): Mark {
    Mark(d.left, d.right, Some(d))
  }

  function Closing(d: Delim): Mark {
    Mark(d.left, d.right, None)
  }

  function Marks(text: Text, limit: int): seq<Mark> {
    Recorded(text, Delims(text, 0), 0, limit)
  }

  /** What the single pass still owes after reading `i` delimiter lines with `fence` open. */
  ghost function Pending(text: Text, ds: seq<Delim>, fence: Option<Delim>, i: nat, limit: int): seq<Mark>
    requires i <= |ds| && forall k | 0 <= k < |ds| :: Usable(text, ds[k])
    requires fence.Some? ==> Usable(text, fence.value)
  {
    if fence.None? then Recorded(text, ds, i, limit) else AfterOpen(text, ds, fence.value, i, limit)
  }

  lemma PendingStep(text: Text, ds: seq<Delim>, fence: Option<Delim>, i: nat, limit: int)
    requires i < |ds| && forall k | 0 <= k < |ds| :: Usable(text, ds[k])
    requires fence.Some? ==> Usable(text, fence.value)
    ensures Usable(text, ds[i])
    ensures Pending(text, ds, fence, i, limit) ==
      if fence.None? then Pending(text, ds, if Opens(ds[i]) then Some(ds[i]) else None, i + 1, limit)
      else if !Closes(ds[i], fence.value) then Pending(text, ds, fence, i + 1, limit)
      else if Wraps(fence.value, limit) && CloserFits(text, fence.value, ds[i], limit) then
        [Opening(fence.value)] + ([Closing(ds[i])] + Pending(text, ds, None, i + 1, limit))
      else Pending(text, ds, None, i + 1, limit)
  {}

  lemma PendingAtEnd(text: Text, ds: seq<Delim>, fence: Option<Delim>, limit: int)
    requires forall k | 0 <= k < |ds| :: Usable(text, ds[k])
    requires fence.Some? ==> Usable(text, fence.value)
    ensures Pending(text, ds, fence, |ds|, limit) ==
      if fence.Some? && Wraps(fence.value, limit) then [Opening(fence.value)] else []
  {}

  /** The source's single pass: it records an opener at once and takes it back when its closer
      turns out not to fit. */
  method Scan(text: Text, limit: int) returns (ms: seq<Mark>)
    ensures ms == Marks(text, limit)
  {
    hide Wraps, CloserFits, Closes, Opens, AfterOpen;
    var ds := Delims(text, 0);
    var fence: Option<Delim> := None;
    var wrap := false;
    ms := [];
    ghost var done: seq<Mark> := [];
    for i := 0 to |ds|
      invariant fence.Some? ==> Usable(text, fence.value) && wrap == Wraps(fence.value, limit)
      invariant ms == if fence.Some? && wrap then done + [Opening(fence.value)] else done
      invariant Marks(text, limit) == done + Pending(text, ds, fence, i, limit)
    {
      PendingStep(text, ds, fence, i, limit);
      var d := ds[i];
      if fence.None? {
        if !Opens(d) { continue; }
        fence := Some(d);
        wrap := Wraps(d, limit);
        if !wrap { continue; }
        ms := ms + [Opening(d)];
      } else if Closes(d, fence.value) {
        if wrap && !CloserFits(text, fence.value, d, limit) {
          ms := ms[..|ms| - 1];
          wrap := false;
        }
        ghost var open := fence.value;
        fence := None;
        if !wrap { continue; }
        ms := ms + [Closing(d)];
        PairAppended(done, Opening(open), Closing(d), Pending(text, ds, None, i + 1, limit));
        done := ms;
      }
    }
    PendingAtEnd(text, ds, fence, limit);
  }

  lemma PairAppended(done: seq<Mark>, a: Mark, b: Mark, rest: seq<Mark>)
    ensures done + ([a] + ([b] + rest)) == done + [a] + [b] + rest
  {}

  // ---- what the splitter relies on ---------------------------------------------------------

  /** Marks are disjoint delimiter lines in text order; openers and closers alternate, every opener
      leaves room and every closer fits behind its opener. */
  ghost predicate WellMarked(text: Text, ms: seq<Mark>, limit: int) {
    && (forall k | 0 <= k < |ms| :: MarkOk(text, ms[k], limit))
    && (forall a, b | 0 <= a < b == a + 1 < |ms| :: Follows(text, ms[a], ms[b], limit))
    && (|ms| > 0 ==> ms[0].open.Some?)
  }

  ghost predicate MarkOk(text: Text, m: Mark, limit: int) {
    && m.left + 3 <= m.right <= |text|
    && IsLineStart(text, m.left) && (m.right == |text| || text[m.right - 1] == NEWLINE)
    && (m.open.Some? ==> Usable(text, m.open.value) && m == Opening(m.open.value) && Wraps(m.open.value, limit))
  }

  ghost predicate Follows(text: Text, a: Mark, b: Mark, limit: int) {
    && a.right <= b.left <= b.right <= |text|
    && a.open.Some? != b.open.Some?
    && (a.open.Some? ==> Units(a.open.value.line + [NEWLINE] + text[b.left..b.right]) <= limit)
  }

  ghost predicate WellMarkedFrom(text: Text, ms: seq<Mark>, limit: int, from: nat) {
    WellMarked(text, ms, limit) && (|ms| > 0 ==> from <= ms[0].left)
  }

  lemma {:induction false} RecordedWellMarked(text: Text, ds: seq<Delim>, i: nat, limit: int, from: nat)
    requires DelimsFrom(text, 0, ds) && i <= |ds| && forall k | 0 <= k < |ds| :: Usable(text, ds[k])
    requires i < |ds| ==> from <= ds[i].left
    ensures WellMarkedFrom(text, Recorded(text, ds, i, limit), limit, from)
    decreases |ds| - i, 1
  {
    if i < |ds| {
      if Opens(ds[i]) {
        AfterOpenWellMarked(text, ds, i, i + 1, limit, from);
      } else {
        RecordedWellMarked(text, ds, i + 1, limit, from);
      }
    }
  }

  lemma {:induction false} AfterOpenWellMarked(text: Text, ds: seq<Delim>, o: nat, k: nat, limit: int, from: nat)
    requires DelimsFrom(text, 0, ds) && o < k <= |ds| && forall k | 0 <= k < |ds| :: Usable(text, ds[k])
    requires from <= ds[o].left && (k < |ds| ==> ds[o].right <= ds[k].left)
    ensures WellMarkedFrom(text, AfterOpen(text, ds, ds[o], k, limit), limit, from)
    decreases |ds| - k, 0
  {
    hide Wraps, Closes, Opens;
    var open := ds[o];
    assert Usable(text, open);
    if k < |ds| {
      if Closes(ds[k], open) {
        var keep := Wraps(open, limit) && CloserFits(text, open, ds[k], limit);
        RecordedWellMarked(text, ds, k + 1, limit, if keep then ds[k].right else from);
        if keep {
          PrependPair(text, Opening(open), Closing(ds[k]), Recorded(text, ds, k + 1, limit), limit);
        }
      } else {
        AfterOpenWellMarked(text, ds, o, k + 1, limit, from);
      }
    }
  }

  lemma PrependPair(text: Text, a: Mark, b: Mark, rest: seq<Mark>, limit: int)
    requires WellMarkedFrom(text, rest, limit, b.right)
    requires MarkOk(text, a, limit) && MarkOk(text, b, limit) && a.open.Some? && Follows(text, a, b, limit)
    ensures WellMarkedFrom(text, [a] + ([b] + rest), limit, a.left)
  {
    var ms := [a] + ([b] + rest);
    assert forall k | 2 <= k < |ms| :: ms[k] == rest[k - 2];
    forall i, k | 0 <= i < k == i + 1 < |ms| ensures Follows(text, ms[i], ms[k], limit) {
      if k == 2 {
        assert MarkOk(text, rest[0], limit);
      } else if k > 2 {
        assert Follows(text, rest[i - 2], rest[k - 2], limit);
      }
    }
  }

  /** The recorded marks of every text are well formed, for every limit. */
  lemma MarksWellMarked(text: Text, limit: int)
    ensures WellMarked(text, Marks(text, limit), limit)
  {
    DelimsInOrder(text, 0);
    RecordedWellMarked(text, Delims(text, 0), 0, limit, 0);
  }
}
