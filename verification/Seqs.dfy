/** Small facts about sequences, kept apart so that proofs can cite exactly the one they need. */
module Seqs {
  lemma Assoc<T>(a: seq<T>, b: seq<T>, c: seq<T>)
    ensures (a + b) + c == a + (b + c)
  {}

  lemma AppendNil<T>(a: seq<T>)
    ensures a + [] == a && [] + a == a
  {}

  /** Dropping from, and truncating, a concatenation. */
  lemma DropAppend<T>(a: seq<T>, b: seq<T>, n: nat)
    requires n <= |a|
    ensures (a + b)[n..] == a[n..] + b
  {}

  lemma DropAll<T>(a: seq<T>, b: seq<T>)
    ensures (a + b)[|a|..] == b && (a + b)[..|a|] == a
  {}

  lemma TakeAppend<T>(a: seq<T>, b: seq<T>, n: nat)
    requires n <= |b|
    ensures (a + b)[..|a| + n] == a + b[..n]
  {}

  lemma SplitAt<T>(a: seq<T>, n: nat)
    requires n <= |a|
    ensures a == a[..n] + a[n..]
  {}

  lemma ConsTail<T>(x: T, a: seq<T>)
    ensures ([x] + a)[0] == x && ([x] + a)[1..] == a
  {}

  lemma SliceOfSlice<T>(a: seq<T>, lo: nat, hi: nat, i: nat, j: nat)
    requires lo <= hi <= |a| && i <= j <= hi - lo
    ensures a[lo..hi][i..j] == a[lo + i..lo + j]
  {
    assert |a[lo..hi][i..j]| == |a[lo + i..lo + j]|;
    assert forall k | 0 <= k < j - i :: a[lo..hi][i..j][k] == a[lo + i..lo + j][k];
  }

  // ---- counting places -------------------------------------------------------------------------------

  ghost function Shifted(s: set<nat>): set<nat> { set i | i in s :: i + 1 }

  lemma {:induction false} ShiftedSize(s: set<nat>)
    ensures |Shifted(s)| == |s|
  {
    if s != {} {
      var x :| x in s;
      ShiftedSize(s - {x});
      forall j ensures j in Shifted(s) <==> j in Shifted(s - {x}) || j == x + 1 {
        if j in Shifted(s) && j != x + 1 { assert j - 1 in s - {x}; }
      }
      assert Shifted(s) == Shifted(s - {x}) + {x + 1};
      assert x + 1 !in Shifted(s - {x});
    }
  }

  /** A set of places is that of the rest, one further on, and perhaps the first. */
  lemma FirstPlace(all: set<nat>, rest: set<nat>, first: bool)
    requires forall i: nat :: i in all <==> (i > 0 && i - 1 in rest) || (i == 0 && first)
    ensures |all| == |rest| + (if first then 1 else 0)
  {
    ShiftedSize(rest);
    forall i: nat ensures i in all <==> i in Shifted(rest) || (i == 0 && first) {
      if i > 0 && i - 1 in rest { assert i in Shifted(rest); }
    }
    assert all == Shifted(rest) + (if first then {0} else {});
  }
}
