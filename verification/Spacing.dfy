/** What collapsing white space keeps: the other characters, and where there is space between them. */
module Spacing {
  import opened Text
  import opened Quotes

  /** Each character that is no white space, and whether white space stands before it. */
  function Shape(s: Text, gap: bool): seq<(CodePoint, bool)> {
    if s == [] then []
    else if IsSpace(s[0]) then Shape(s[1..], true)
    else [(s[0], gap)] + Shape(s[1..], false)
  }

  lemma {:induction false} SkipSpace(s: Text, i: nat, n: nat, gap: bool)
    requires i < n <= |s| && forall k | i <= k < n :: IsSpace(s[k])
    ensures Shape(s[i..], gap) == Shape(s[n..], true)
    decreases n - i
  {
    hide IsSpace;
    assert s[i..][0] == s[i] && s[i..][1..] == s[i + 1..];
    if i + 1 < n { SkipSpace(s, i + 1, n, true); }
  }

  lemma ShapeCons(c: CodePoint, t: Text, gap: bool)
    ensures Shape([c] + t, gap) == if IsSpace(c) then Shape(t, true) else [(c, gap)] + Shape(t, false)
  {
    hide IsSpace;
    assert ([c] + t)[1..] == t;
  }

  lemma {:induction false} RangeShape(s: Text, i: nat, gap: bool)
    requires i <= |s|
    ensures Shape(CollapseRange(s, i, |s|), gap) == Shape(s[i..], gap)
    decreases |s| - i
  {
    hide IsSpace;
    if i < |s| {
      var n := ChunkEnd(s, i);
      ChunkIs(s, i);
      RangeStep(s, i, |s|);
      ShapeCons(ChunkChar(s, i), CollapseRange(s, n, |s|), gap);
      if IsSpace(s[i]) {
        SkipSpace(s, i, n, gap);
        RangeShape(s, n, true);
      } else {
        assert s[i..][0] == s[i] && s[i..][1..] == s[i + 1..];
        RangeShape(s, n, false);
      }
    } else {
      assert s[i..] == [];
    }
  }

  lemma ChunkIs(s: Text, i: nat)
    requires i < |s|
    ensures var n := ChunkEnd(s, i);
            && i < n <= |s| && Min(n, |s|) == n
            && (IsSpace(s[i]) ==> ChunkChar(s, i) == 32 && (forall k | i <= k < n :: IsSpace(s[k]))
                                  && (n < |s| ==> !IsSpace(s[n])))
            && (!IsSpace(s[i]) ==> ChunkChar(s, i) == s[i] && n == i + 1)
            && (IsSpace(ChunkChar(s, i)) <==> IsSpace(s[i]))
  {}

  lemma {:induction false} RangeSingle(s: Text, i: nat)
    requires i <= |s|
    ensures var r := CollapseRange(s, i, |s|);
            && (forall k | 0 <= k < |r| && IsSpace(r[k]) :: r[k] == 32 && (k + 1 < |r| ==> !IsSpace(r[k + 1])))
            && (r == [] <==> i == |s|) && (i < |s| ==> (IsSpace(r[0]) <==> IsSpace(s[i])))
            && (i < |s| ==> (IsSpace(r[|r| - 1]) <==> IsSpace(s[|s| - 1])))
    decreases |s| - i
  {
    hide IsSpace;
    if i < |s| {
      var n := ChunkEnd(s, i);
      ChunkIs(s, i);
      RangeStep(s, i, |s|);
      RangeSingle(s, n);
      var rest := CollapseRange(s, n, |s|);
      var r := CollapseRange(s, i, |s|);
      assert r[0] == ChunkChar(s, i) && forall k | 0 < k < |r| :: r[k] == rest[k - 1];
      if n == |s| { assert IsSpace(s[|s| - 1]) <==> IsSpace(s[i]); }
    }
  }

  /** Collapsing replaces every run of white space by one space and changes nothing else. */
  lemma CollapseExactly(s: Text)
    ensures var r := Collapse(s);
            && Shape(r, false) == Shape(s, false)
            && (forall k | 0 <= k < |r| && IsSpace(r[k]) :: r[k] == 32 && (k + 1 < |r| ==> !IsSpace(r[k + 1])))
            && (r == [] <==> s == [])
            && (s != [] ==> (IsSpace(r[0]) <==> IsSpace(s[0])) && (IsSpace(r[|r| - 1]) <==> IsSpace(s[|s| - 1])))
  {
    hide IsSpace;
    RangeShape(s, 0, false);
    RangeSingle(s, 0);
    assert s[0..] == s;
  }

  /** Stripping takes white space off both ends and nothing else. */
  lemma StripExactly(s: Text)
    ensures var r := Strip(s);
            && (r == [] || (!IsSpace(r[0]) && !IsSpace(r[|r| - 1])))
            && exists a, b :: 0 <= a <= b <= |s| && r == s[a..b] && (forall k | 0 <= k < a :: IsSpace(s[k]))
                              && forall k | b <= k < |s| :: IsSpace(s[k])
  {
    hide IsSpace;
    var l := StripLeft(s);
    var a := LeftEnd(s);
    var n := RightEnd(l);
    var b := a + n;
    assert l == s[a..];
    assert Strip(s) == l[..n] == s[a..b];
    forall k | b <= k < |s| ensures IsSpace(s[k]) { assert s[k] == l[k - a]; }
    if l != [] && Strip(s) != [] { assert Strip(s)[0] == l[0]; }
  }

  lemma {:induction false} LeftEnd(s: Text) returns (a: nat)
    ensures a <= |s| && StripLeft(s) == s[a..] && forall k | 0 <= k < a :: IsSpace(s[k])
  {
    hide IsSpace;
    a := 0;
    if s != [] && IsSpace(s[0]) {
      var n := LeftEnd(s[1..]);
      a := n + 1;
      assert s[1..][n..] == s[a..];
      forall k | 0 <= k < a ensures IsSpace(s[k]) { if k > 0 { assert s[1..][k - 1] == s[k]; } }
    } else {
      assert s[0..] == s;
    }
  }

  lemma {:induction false} RightEnd(s: Text) returns (b: nat)
    ensures b <= |s| && StripRight(s) == s[..b] && forall k | b <= k < |s| :: IsSpace(s[k])
  {
    hide IsSpace;
    b := |s|;
    if s != [] && IsSpace(s[|s| - 1]) {
      b := RightEnd(s[..|s| - 1]);
      assert s[..|s| - 1][..b] == s[..b];
      forall k | b <= k < |s| ensures IsSpace(s[k]) { if k < |s| - 1 { assert s[..|s| - 1][k] == s[k]; } }
    } else {
      assert s[..b] == s;
    }
  }
}
