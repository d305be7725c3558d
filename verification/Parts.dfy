/** What the parts of a split begin and end with, and where the cuts fall, told from the recorded marks and the text. */
module Parts {
  import opened Options
  import opened Text
  import opened Fences
  import opened Splitter

  // ---- units -------------------------------------------------------------------------------------------

  /** A character beyond the basic plane counts twice. */
  lemma {:induction false} UnitsExactly(s: Text)
    ensures Units(s) == |s| + |set i | 0 <= i < |s| && s[i] > 0xFFFF|
  {
    if s != [] {
      var n := |s| - 1;
      UnitsExactly(s[..n]);
      var all, rest := set i | 0 <= i < |s| && s[i] > 0xFFFF, set i | 0 <= i < n && s[..n][i] > 0xFFFF;
      assert all == rest + (if s[n] > 0xFFFF then {n} else {});
    }
  }

  // ---- openers and closers -----------------------------------------------------------------------------

  /** The mark `k` is the last that ends by `p`; without one, every mark ends later. */
  ghost predicate LastBy(ms: seq<Mark>, p: nat, k: Option<nat>) {
    match k
    case None => forall j | 0 <= j < |ms| :: p < ms[j].right
    case Some(k) => k < |ms| && ms[k].right <= p && forall j | k < j < |ms| :: p < ms[j].right
  }

  lemma {:induction false} LastExists(ms: seq<Mark>, p: nat) returns (k: Option<nat>)
    ensures LastBy(ms, p, k)
  {
    if ms == [] {
      k := None;
    } else if ms[|ms| - 1].right <= p {
      k := Some(|ms| - 1);
    } else {
      k := LastExists(ms[..|ms| - 1], p);
    }
  }

  lemma FenceIsLast(ms: seq<Mark>, p: nat, k: Option<nat>)
    requires LastBy(ms, p, k)
    ensures FenceAt(ms, p) == if k.Some? then ms[k.value].open else None
  {
    if k.Some? { FenceAtIs(ms, p, k.value); } else { FenceAtStart(ms, p); }
  }

  /** A part that starts inside a recorded fence repeats the fence's opening line, and one that ends inside closes it on
      a line of its own; where no fence is open nothing is added. In between stands the text from cut to cut. */
  lemma PartReads(text: Text, limit: int, ms: seq<Mark>, parts: seq<Text>, cuts: seq<nat>, i: nat, before: Option<nat>,
                  after: Option<nat>)
    requires IsSplit(text, limit, ms, parts, cuts) && i < |parts|
    requires LastBy(ms, cuts[i], before) && LastBy(ms, cuts[i + 1], after)
    ensures cuts[i] < cuts[i + 1] <= |text|
    ensures var body := text[cuts[i]..cuts[i + 1]];
            var opener := if before.Some? && ms[before.value].open.Some?
                          then ms[before.value].open.value.line + [NEWLINE] else [];
            var closer := if after.Some? && ms[after.value].open.Some?
                          then (if text[cuts[i + 1] - 1] == NEWLINE then [] else [NEWLINE])
                               + ms[after.value].open.value.marker
                          else [];
            parts[i] == opener + body + closer
  {
    assert PartAt(text, limit, ms, parts, cuts, i);
    FenceIsLast(ms, cuts[i], before);
    FenceIsLast(ms, cuts[i + 1], after);
    hide BestCut, Allowed, FenceAt;
  }

  // ---- where the cuts fall -----------------------------------------------------------------------------

  /** A cut that the rules permit: behind the start, not inside a recorded fence line, the part within the limit. */
  ghost predicate Permitted(text: Text, limit: int, ms: seq<Mark>, start: nat, p: nat) {
    && start < p <= |text|
    && (forall k | 0 <= k < |ms| :: p <= ms[k].left || ms[k].right <= p)
    && forall before: Option<nat>, after: Option<nat> | LastBy(ms, start, before) && LastBy(ms, p, after) ::
         Fitting(text, limit, ms, start, p, before, after)
  }

  /** With the fences' lines that are added the part is within the limit. */
  predicate Fitting(text: Text, limit: int, ms: seq<Mark>, start: nat, p: nat, before: Option<nat>, after: Option<nat>)
    requires start < p <= |text| && (before.Some? ==> before.value < |ms|) && (after.Some? ==> after.value < |ms|)
  {
    var opener := if before.Some? && ms[before.value].open.Some?
                  then Units(ms[before.value].open.value.line) + 1 else 0;
    var closer := if after.Some? && ms[after.value].open.Some?
                  then (if text[p - 1] == NEWLINE then 0 else 1) + Units(ms[after.value].open.value.marker) else 0;
    opener + Units(text[start..p]) + closer <= limit
  }

  lemma NewlineUnits(a: Text)
    ensures Units(a + [NEWLINE]) == Units(a) + 1 && Units([NEWLINE] + a) == 1 + Units(a) && Units([] + a) == Units(a)
  {
    assert [NEWLINE][..0] == [];
    assert Units([NEWLINE]) == 1;
    UnitsAppend(a, [NEWLINE]);
    UnitsAppend([NEWLINE], a);
    assert [] + a == a;
  }

  lemma FittingExactly(text: Text, limit: int, ms: seq<Mark>, start: nat, p: nat, before: Option<nat>,
                       after: Option<nat>)
    requires start < p <= |text| && LastBy(ms, start, before) && LastBy(ms, p, after)
    ensures Fits(text, limit, ms, start, p) <==> Fitting(text, limit, ms, start, p, before, after)
  {
    FenceIsLast(ms, start, before);
    FenceIsLast(ms, p, after);
    if before.Some? && ms[before.value].open.Some? { NewlineUnits(ms[before.value].open.value.line); }
    if after.Some? && ms[after.value].open.Some? { NewlineUnits(ms[after.value].open.value.marker); }
    NoUnits();
    hide Units, FenceAt, LastBy;
  }

  lemma PermittedExactly(text: Text, limit: int, ms: seq<Mark>, start: nat, p: nat)
    ensures Allowed(text, limit, ms, start, p) <==> Permitted(text, limit, ms, start, p)
  {
    var before := LastExists(ms, start);
    var after := LastExists(ms, p);
    if start < p <= |text| {
      FittingExactly(text, limit, ms, start, p, before, after);
      hide Fits, Fitting, Units;
      forall b: Option<nat> | LastBy(ms, start, b) ensures b == before { OneLast(ms, start, b, before); }
      forall b: Option<nat> | LastBy(ms, p, b) ensures b == after { OneLast(ms, p, b, after); }
      hide LastBy;
      assert Inside(ms, p) <==> !(forall k | 0 <= k < |ms| :: p <= ms[k].left || ms[k].right <= p);
    }
  }

  lemma OneLast(ms: seq<Mark>, p: nat, a: Option<nat>, b: Option<nat>)
    requires LastBy(ms, p, a) && LastBy(ms, p, b)
    ensures a == b
  {}

  // ---- boundaries ---------------------------------------------------------------------------------------

  predicate Blanks(s: Text, i: nat, j: nat)
    requires i <= j <= |s|
  {
    forall k | i <= k < j :: s[k] == SPACE || s[k] == TAB
  }

  /** A row of spaces and tabs ends before `e`, the first character behind it is none of them. */
  predicate RowEnds(s: Text, e: nat)
    requires e <= |s|
  {
    e < |s| ==> s[e] != SPACE && s[e] != TAB
  }

  /** The match of a boundary pattern runs from `i` to `e`: a line end and another with only blanks between; a line end;
      a full stop, exclamation or question mark with the blanks behind it, a plain full stop only before a blank; a row
      of blanks. */
  predicate Match(b: Boundary, s: Text, i: nat, e: nat)
    requires i < e <= |s|
  {
    match b
    case Paragraph => i + 1 < e && s[i] == NEWLINE && s[e - 1] == NEWLINE && Blanks(s, i + 1, e - 1)
    case Line => e == i + 1 && s[i] == NEWLINE
    case Sentence =>
      && (|| s[i] == 0x3002 || s[i] == 0xFF0E || s[i] == 0xFF01 || s[i] == 0xFF1F || s[i] == 33 || s[i] == 63
          || (s[i] == 46 && i + 1 < e))
      && Blanks(s, i + 1, e) && RowEnds(s, e)
    case Word => Blanks(s, i, e) && RowEnds(s, e)
  }

  lemma {:induction false} SkipRow(s: Text, i: nat)
    requires i <= |s|
    ensures Blanks(s, i, SkipBlanks(s, i)) && RowEnds(s, SkipBlanks(s, i))
    decreases |s| - i
  {
    if i < |s| && IsBlankChar(s[i]) { SkipRow(s, i + 1); }
  }

  lemma OneRowEnd(s: Text, i: nat, a: nat, b: nat)
    requires i <= a <= |s| && i <= b <= |s| && Blanks(s, i, a) && Blanks(s, i, b) && RowEnds(s, a) && RowEnds(s, b)
    ensures a == b
  {}

  lemma MatchExactly(b: Boundary, s: Text, i: nat, e: nat)
    requires i < e <= |s|
    ensures MatchAt(b, s, i) == e <==> Match(b, s, i, e)
  {
    SkipRow(s, i);
    SkipRow(s, i + 1);
    if Match(b, s, i, e) {
      match b {
        case Paragraph => OneRowEnd(s, i + 1, e - 1, SkipBlanks(s, i + 1));
        case Line =>
        case Sentence => OneRowEnd(s, i + 1, e, SkipBlanks(s, i + 1));
        case Word => OneRowEnd(s, i, e, SkipBlanks(s, i));
      }
    }
  }

  /** The ends are those of the matches found from left to right, none overlapping. */
  ghost predicate Successive(b: Boundary, s: Text, i: nat, ends: seq<nat>)
    requires i <= |s|
    decreases |ends|
  {
    if ends == [] then forall k, e | i <= k < e <= |s| :: !Match(b, s, k, e)
    else exists k: nat | i <= k < ends[0] <= |s| ::
      && Match(b, s, k, ends[0]) && (forall j, e | i <= j < k && j < e <= |s| :: !Match(b, s, j, e))
      && Successive(b, s, ends[0], ends[1..])
  }

  lemma {:induction false} EndsExactly(b: Boundary, s: Text, i: nat)
    requires i <= |s|
    ensures Successive(b, s, i, MatchEnds(b, s, i))
    decreases |s| - i
  {
    hide MatchAt, Match;
    if i < |s| {
      var e := MatchAt(b, s, i);
      forall x | i < x <= |s| ensures MatchAt(b, s, i) == x <==> Match(b, s, i, x) { MatchExactly(b, s, i, x); }
      if e > i {
        EndsExactly(b, s, e);
        StartHere(b, s, i, e, MatchEnds(b, s, e));
      } else {
        EndsExactly(b, s, i + 1);
        StartEarlier(b, s, i, MatchEnds(b, s, i + 1));
      }
    }
  }

  lemma StartHere(b: Boundary, s: Text, i: nat, e: nat, ends: seq<nat>)
    requires i < e <= |s| && Match(b, s, i, e) && Successive(b, s, e, ends)
    ensures Successive(b, s, i, [e] + ends)
  {
    hide Match;
    var all := [e] + ends;
    assert all[0] == e && all[1..] == ends;
    assert i <= i < all[0] <= |s| && Match(b, s, i, all[0]);
  }

  lemma StartEarlier(b: Boundary, s: Text, i: nat, ends: seq<nat>)
    requires i < |s| && Successive(b, s, i + 1, ends) && forall x | i < x <= |s| :: !Match(b, s, i, x)
    ensures Successive(b, s, i, ends)
  {
    hide Match;
    if ends != [] {
      var k: nat :| i + 1 <= k < ends[0] <= |s| && Match(b, s, k, ends[0])
                    && (forall j, e | i + 1 <= j < k && j < e <= |s| :: !Match(b, s, j, e))
                    && Successive(b, s, ends[0], ends[1..]);
      assert i <= k < ends[0];
    }
  }

  // ---- the preferred cut -----------------------------------------------------------------------------------

  /** `p` is the last permitted end of a match of the pattern between start and hard end. */
  ghost predicate LastOf(b: Boundary, text: Text, limit: int, ms: seq<Mark>, start: nat, hard: nat, p: nat)
    requires start <= hard <= |text|
  {
    exists ends | Successive(b, text[start..hard], 0, ends) ::
      && start <= p && p - start in ends && Permitted(text, limit, ms, start, p)
      && forall e | e in ends && p - start < e :: !Permitted(text, limit, ms, start, start + e)
  }

  ghost predicate NoneOf(b: Boundary, text: Text, limit: int, ms: seq<Mark>, start: nat, hard: nat)
    requires start <= hard <= |text|
  {
    exists ends | Successive(b, text[start..hard], 0, ends) ::
      forall e | e in ends :: !Permitted(text, limit, ms, start, start + e)
  }

  /** The cut falls behind the last paragraph that may be ended there; without one behind the last line, sentence or
      word, in this order; and without any of them at the hard end. */
  ghost predicate Preferred(text: Text, limit: int, ms: seq<Mark>, start: nat, hard: nat, end: nat)
    requires start <= hard <= |text|
  {
    || LastOf(Paragraph, text, limit, ms, start, hard, end)
    || (NoneOf(Paragraph, text, limit, ms, start, hard)
        && (|| LastOf(Line, text, limit, ms, start, hard, end)
            || (NoneOf(Line, text, limit, ms, start, hard)
                && (|| LastOf(Sentence, text, limit, ms, start, hard, end)
                    || (NoneOf(Sentence, text, limit, ms, start, hard)
                        && (|| LastOf(Word, text, limit, ms, start, hard, end)
                            || (NoneOf(Word, text, limit, ms, start, hard) && end == hard)))))))
  }

  lemma {:induction false} Ascend(b: Boundary, s: Text, i: nat)
    requires i <= |s|
    ensures forall x | x in MatchEnds(b, s, i) :: i < x
    ensures forall x, y | 0 <= x < y < |MatchEnds(b, s, i)| :: MatchEnds(b, s, i)[x] < MatchEnds(b, s, i)[y]
    decreases |s| - i
  {
    hide MatchAt;
    if i < |s| {
      var e := MatchAt(b, s, i);
      Ascend(b, s, if e > i then e else i + 1);
      if e > i { assert MatchEnds(b, s, i) == [e] + MatchEnds(b, s, e); }
    }
  }

  lemma {:induction false} LastIs(text: Text, limit: int, ms: seq<Mark>, start: nat, ends: seq<nat>)
    requires forall x, y | 0 <= x < y < |ends| :: ends[x] < ends[y]
    ensures var r := LastAllowed(text, limit, ms, start, ends);
            && (r.None? ==> forall e | e in ends :: !Permitted(text, limit, ms, start, start + e))
            && (r.Some? ==>
                  && start <= r.value && r.value - start in ends && Permitted(text, limit, ms, start, r.value)
                  && forall e | e in ends && r.value - start < e :: !Permitted(text, limit, ms, start, start + e))
  {
    hide Allowed, Permitted;
    if ends != [] {
      var n := |ends| - 1;
      PermittedExactly(text, limit, ms, start, start + ends[n]);
      LastIs(text, limit, ms, start, ends[..n]);
      forall e ensures e in ends <==> e in ends[..n] || e == ends[n] { assert ends == ends[..n] + [ends[n]]; }
      hide LastAllowed;
      LastStep(text, limit, ms, start, ends);
    }
  }

  lemma LastStep(text: Text, limit: int, ms: seq<Mark>, start: nat, ends: seq<nat>)
    requires ends != []
    ensures LastAllowed(text, limit, ms, start, ends)
            == if Allowed(text, limit, ms, start, start + ends[|ends| - 1]) then Some(start + ends[|ends| - 1])
               else LastAllowed(text, limit, ms, start, ends[..|ends| - 1])
  {
    hide Allowed;
  }

  lemma BoundaryCut(b: Boundary, text: Text, limit: int, ms: seq<Mark>, start: nat, hard: nat)
    requires start <= hard <= |text|
    ensures var r := LastAllowed(text, limit, ms, start, MatchEnds(b, text[start..hard], 0));
            && (r.None? ==> NoneOf(b, text, limit, ms, start, hard))
            && (r.Some? ==> LastOf(b, text, limit, ms, start, hard, r.value))
  {
    hide Allowed, Permitted, MatchEnds, Successive;
    var ends := MatchEnds(b, text[start..hard], 0);
    Ascend(b, text[start..hard], 0);
    EndsExactly(b, text[start..hard], 0);
    LastIs(text, limit, ms, start, ends);
  }

  lemma PreferredExactly(text: Text, limit: int, ms: seq<Mark>, start: nat, hard: nat)
    requires start <= hard <= |text|
    ensures Preferred(text, limit, ms, start, hard, PreferredEnd(text, limit, ms, start, hard, 0))
  {
    hide LastAllowed, LastOf, NoneOf, MatchEnds;
    BoundaryCut(Paragraph, text, limit, ms, start, hard);
    BoundaryCut(Line, text, limit, ms, start, hard);
    BoundaryCut(Sentence, text, limit, ms, start, hard);
    BoundaryCut(Word, text, limit, ms, start, hard);
    assert PREFERENCE[0] == Paragraph && PREFERENCE[1] == Line && PREFERENCE[2] == Sentence && PREFERENCE[3] == Word;
    assert |PREFERENCE| == 4;
    PreferredStep(text, limit, ms, start, hard, 0);
    PreferredStep(text, limit, ms, start, hard, 1);
    PreferredStep(text, limit, ms, start, hard, 2);
    PreferredStep(text, limit, ms, start, hard, 3);
    assert PreferredEnd(text, limit, ms, start, hard, 4) == hard;
    hide PreferredEnd;
  }

  lemma PreferredStep(text: Text, limit: int, ms: seq<Mark>, start: nat, hard: nat, i: nat)
    requires start <= hard <= |text| && i < |PREFERENCE|
    ensures PreferredEnd(text, limit, ms, start, hard, i)
            == var r := LastAllowed(text, limit, ms, start, MatchEnds(PREFERENCE[i], text[start..hard], 0));
               if r.Some? then r.value else PreferredEnd(text, limit, ms, start, hard, i + 1)
  {
    hide LastAllowed, MatchEnds;
  }

  /** Where each part ends: at the furthest permitted position if that is the end of the text, and otherwise where the
      preferred boundary before it is. */
  lemma CutsFall(text: Text, limit: int, ms: seq<Mark>, parts: seq<Text>, cuts: seq<nat>, i: nat)
    requires IsSplit(text, limit, ms, parts, cuts) && i < |parts|
    ensures exists hard | cuts[i] < hard <= |text| ::
              && Permitted(text, limit, ms, cuts[i], hard)
              && (forall p | hard < p <= |text| :: !Permitted(text, limit, ms, cuts[i], p))
              && (if hard == |text| then cuts[i + 1] == hard
                  else Preferred(text, limit, ms, cuts[i], hard, cuts[i + 1]))
  {
    assert PartAt(text, limit, ms, parts, cuts, i);
    hide Allowed, Permitted, Preferred, PreferredEnd, IsPart, Inside;
    var hard :| cuts[i] < hard <= |text| && IsHardEnd(text, limit, ms, cuts[i], hard)
                && cuts[i + 1] == if hard == |text| then hard else PreferredEnd(text, limit, ms, cuts[i], hard, 0);
    forall p ensures Allowed(text, limit, ms, cuts[i], p) <==> Permitted(text, limit, ms, cuts[i], p) {
      PermittedExactly(text, limit, ms, cuts[i], p);
    }
    PreferredExactly(text, limit, ms, cuts[i], hard);
  }
}
