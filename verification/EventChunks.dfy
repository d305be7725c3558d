/** When the event blocks of a stream, without the unfinished remainder, depend on how it is cut into chunks. */
module EventChunks {
  import opened Text
  import opened EventStream
  import Seqs

  // ---- normalizing for good --------------------------------------------------------------------------

  /** A character before a text in which no pair is left. */
  function Push(c: CodePoint, t: Text): Text {
    if c == CARRIAGE_RETURN && t != [] && t[0] == NEWLINE then t else [c] + t
  }

  function PushAll(s: Text, t: Text): Text {
    if s == [] then t else Push(s[0], PushAll(s[1..], t))
  }

  /** What repeated passes of normalization arrive at: every row of carriage returns before a line feed is gone. */
  function Collapse(s: Text): Text { PushAll(s, []) }

  lemma {:induction false} CollapseConcat(a: Text, b: Text)
    ensures Collapse(a + b) == PushAll(a, Collapse(b))
  {
    if a == [] {
      assert a + b == b;
    } else {
      assert (a + b)[1..] == a[1..] + b;
      CollapseConcat(a[1..], b);
    }
  }

  /** A pass changes nothing in the end. */
  lemma {:induction false} CollapseNormalized(s: Text)
    ensures Collapse(Normalize(s)) == Collapse(s)
  {
    if |s| >= 2 {
      if s[0] == CARRIAGE_RETURN && s[1] == NEWLINE {
        CollapseNormalized(s[2..]);
        Seqs.ConsTail(NEWLINE, Normalize(s[2..]));
        assert s[1..][1..] == s[2..];
        assert Collapse(s[1..]) == Push(NEWLINE, Collapse(s[2..]));
        assert Collapse(Normalize(s)) == Push(NEWLINE, Collapse(Normalize(s[2..])));
      } else {
        CollapseNormalized(s[1..]);
        Seqs.ConsTail(s[0], Normalize(s[1..]));
      }
    }
  }

  lemma {:induction false} PushCollapsed(x: Text, t: Text)
    ensures PushAll(Collapse(x), t) == PushAll(x, t)
    ensures Collapse(x) != [] && Collapse(x)[0] == NEWLINE ==>
              PushAll(x, t) != [] && PushAll(x, t)[0] == NEWLINE
  {
    if x != [] {
      PushCollapsed(x[1..], t);
      var u := Collapse(x[1..]);
      if !(x[0] == CARRIAGE_RETURN && u != [] && u[0] == NEWLINE) { Seqs.ConsTail(x[0], u); }
    }
  }

  lemma CollapseCongruent(x: Text, y: Text, c: Text)
    requires Collapse(x) == Collapse(y)
    ensures Collapse(x + c) == Collapse(y + c)
  {
    CollapseConcat(x, c);
    CollapseConcat(y, c);
    PushCollapsed(x, Collapse(c));
    PushCollapsed(y, Collapse(c));
  }

  lemma {:induction false} CollapseStable(s: Text)
    requires !HasCrLf(s)
    ensures Collapse(s) == s
  {
    if s != [] {
      forall i | 0 <= i < |s[1..]| - 1 ensures !CrLfAt(s[1..], i) { assert !CrLfAt(s, i + 1); }
      CollapseStable(s[1..]);
      if |s| >= 2 { assert !CrLfAt(s, 0); }
    }
  }

  lemma {:induction false} CollapseHasNoPair(s: Text)
    ensures !HasCrLf(Collapse(s))
  {
    if s != [] {
      CollapseHasNoPair(s[1..]);
      var t, u := Collapse(s[1..]), Collapse(s);
      if u != t {
        forall i | 0 <= i < |u| - 1 ensures !CrLfAt(u, i) {
          if i > 0 { assert !CrLfAt(t, i - 1); }
        }
      }
    }
  }

  // ---- thinning --------------------------------------------------------------------------------------

  /** `y` is `x` without some of the carriage returns that stand before a line feed. */
  predicate Thins(x: Text, y: Text) {
    if x == [] then y == []
    else if y == [] then false
    else if x[0] == y[0] then Thins(x[1..], y[1..])
    else x[0] == CARRIAGE_RETURN && y[0] == NEWLINE && Thins(x[1..], y)
  }

  lemma {:induction false} ThinsSelf(x: Text)
    ensures Thins(x, x)
  {
    if x != [] { ThinsSelf(x[1..]); }
  }

  lemma {:induction false} ThinsFurther(x: Text, y: Text, z: Text)
    requires Thins(x, y) && Thins(y, z)
    ensures Thins(x, z)
  {
    if x != [] {
      if x[0] != y[0] {
        ThinsFurther(x[1..], y, z);
      } else if y[0] != z[0] {
        ThinsFurther(x[1..], y[1..], z);
      } else {
        ThinsFurther(x[1..], y[1..], z[1..]);
      }
    }
  }

  lemma {:induction false} ThinsCollapse(x: Text)
    ensures Thins(x, Collapse(x))
  {
    if x != [] {
      ThinsCollapse(x[1..]);
      var u := Collapse(x[1..]);
      if !(x[0] == CARRIAGE_RETURN && u != [] && u[0] == NEWLINE) { Seqs.ConsTail(x[0], u); }
    }
  }

  lemma {:induction false} ThinsNormalize(x: Text)
    ensures Thins(x, Normalize(x))
  {
    if |x| < 2 {
      ThinsSelf(x);
    } else if x[0] == CARRIAGE_RETURN && x[1] == NEWLINE {
      ThinsNormalize(x[2..]);
      Seqs.ConsTail(NEWLINE, Normalize(x[2..]));
      assert x[1..][1..] == x[2..];
    } else {
      ThinsNormalize(x[1..]);
      Seqs.ConsTail(x[0], Normalize(x[1..]));
    }
  }

  lemma {:induction false} ThinsAppend(x: Text, y: Text, z: Text)
    requires Thins(x, y)
    ensures Thins(x + z, y + z)
  {
    if x == [] {
      ThinsSelf(z);
      assert x + z == z && y + z == z;
    } else {
      assert (x + z)[1..] == x[1..] + z && (y + z)[1..] == y[1..] + z;
      if x[0] == y[0] { ThinsAppend(x[1..], y[1..], z); } else { ThinsAppend(x[1..], y, z); }
    }
  }

  lemma {:induction false} ThinsPrepend(w: Text, x: Text, y: Text)
    requires Thins(x, y)
    ensures Thins(w + x, w + y)
  {
    if w == [] {
      assert w + x == x && w + y == y;
    } else {
      assert (w + x)[1..] == w[1..] + x && (w + y)[1..] == w[1..] + y;
      ThinsPrepend(w[1..], x, y);
    }
  }

  /** A line feed that arrives takes the last carriage return on both sides. */
  lemma {:induction false} ThinsLast(a: Text, b: Text, z: Text)
    requires Thins(a + [CARRIAGE_RETURN], b + [CARRIAGE_RETURN])
    ensures Thins(a + ([NEWLINE] + z), b + ([NEWLINE] + z))
  {
    var cr, lf := [CARRIAGE_RETURN], [NEWLINE] + z;
    if a == [] {
      ThinsSelf(lf);
      assert a + cr == cr && cr[1..] == [];
      assert (b + cr)[1..] == [];
      assert b == [] && a + lf == lf && b + lf == lf;
    } else {
      assert (a + cr)[1..] == a[1..] + cr && (a + lf)[1..] == a[1..] + lf;
      assert cr[1..] == [] && (b == [] ==> b + cr == cr);
      if b != [] {
        assert (b + cr)[1..] == b[1..] + cr && (b + lf)[1..] == b[1..] + lf;
        if a[0] == b[0] { ThinsLast(a[1..], b[1..], z); } else { ThinsLast(a[1..], b, z); }
      }
    }
  }

  // ---- blocks between two texts ------------------------------------------------------------------------

  ghost predicate HasBlank(s: Text) {
    exists i :: 0 <= i < |s| - 1 && BlankAt(s, i)
  }

  /** Two line feeds stay neighbours. */
  lemma {:induction false} ThinKeepsBlank(x: Text, y: Text, i: nat)
    requires Thins(x, y) && i < |x| - 1 && BlankAt(x, i)
    ensures HasBlank(y)
  {
    if i == 0 {
      assert Thins(x[1..], y[1..]) && x[1..][0] == NEWLINE;
      assert BlankAt(y, 0);
    } else if x[0] == y[0] {
      assert BlankAt(x[1..], i - 1);
      ThinKeepsBlank(x[1..], y[1..], i - 1);
      var k :| 0 <= k < |y[1..]| - 1 && BlankAt(y[1..], k);
      assert BlankAt(y, k + 1);
    } else {
      assert BlankAt(x[1..], i - 1);
      ThinKeepsBlank(x[1..], y, i - 1);
    }
  }

  /** What two texts have in common at their start, any text between them has too. */
  lemma {:induction false} CommonStart(w: Text, x: Text, y: Text, z: Text)
    requires Thins(w + x, y) && Thins(y, w + z)
    ensures |w| <= |y| && y[..|w|] == w && Thins(x, y[|w|..]) && Thins(y[|w|..], z)
  {
    if w == [] {
      assert w + x == x && w + z == z;
    } else {
      assert (w + x)[1..] == w[1..] + x && (w + z)[1..] == w[1..] + z;
      assert y != [] && y[0] == w[0];
      CommonStart(w[1..], x, y[1..], z);
      assert y[1..][|w| - 1..] == y[|w|..] && y[1..][..|w| - 1] == y[1..|w|];
      assert y == [y[0]] + y[1..] && w == [w[0]] + w[1..];
    }
  }

  lemma {:induction false} BlocksBetween(x: Text, y: Text, z: Text)
    requires Thins(x, y) && Thins(y, z) && SplitBlocks(x).blocks == SplitBlocks(z).blocks
    ensures SplitBlocks(y).blocks == SplitBlocks(x).blocks
    decreases |x|
  {
    hide SplitBlocks, Thins;
    SplitStep(x);
    SplitStep(z);
    var k, m := FindBlank(x, 0), FindBlank(z, 0);
    if k < 0 {
      SplitStep(y);
      if FindBlank(y, 0) >= 0 { ThinKeepsBlank(y, z, FindBlank(y, 0)); }
    } else {
      var w := x[..k] + [NEWLINE, NEWLINE];
      AroundBlank(x, k);
      AroundBlank(z, m);
      assert SplitBlocks(z).blocks != [] && SplitBlocks(x).blocks[0] == SplitBlocks(z).blocks[0];
      assert x[..k] == z[..m];
      assert SplitBlocks(x[k + 2..]).blocks == SplitBlocks(x).blocks[1..];
      assert SplitBlocks(z[m + 2..]).blocks == SplitBlocks(z).blocks[1..];
      CommonStart(w, x[k + 2..], y, z[m + 2..]);
      var y' := y[|w|..];
      assert y == w + y';
      SplitAtFirst(x, k, y');
      BlocksBetween(x[k + 2..], y', z[m + 2..]);
    }
  }

  // ---- any chunks stay between one pass and all passes -----------------------------------------------------

  /** The text a reader stands for. */
  function Whole(f: Framed): Text { Unsplit(f.blocks) + f.rest }

  /** After reading `p`: split at every blank line, thinner than one pass over `p`, and collapsing to the same. */
  ghost predicate Between(f: Framed, p: Text) {
    f == SplitBlocks(Whole(f)) && Thins(Normalize(p), Whole(f)) && Collapse(Whole(f)) == Collapse(p)
  }

  lemma WholeFed(f: Framed, c: Text)
    requires f == SplitBlocks(Whole(f))
    ensures Whole(Feed(f, c)) == Unsplit(f.blocks) + Normalize(f.rest + c)
    ensures Feed(f, c) == SplitBlocks(Whole(Feed(f, c)))
  {
    hide SplitBlocks, Normalize, Unsplit;
    var y := Normalize(f.rest + c);
    SplitPrefix(Whole(f), y);
    SplitRebuilds(Unsplit(f.blocks) + y);
  }

  lemma FeedBetween(f: Framed, p: Text, c: Text)
    requires Between(f, p)
    ensures Between(Feed(f, c), p + c)
  {
    WholeFed(f, c);
    FedCollapses(f, p, c);
    hide SplitBlocks, Normalize, Unsplit, Collapse, Thins;
    FedThins(f, p, c);
  }

  lemma FedCollapses(f: Framed, p: Text, c: Text)
    requires Between(f, p) && f == SplitBlocks(Whole(f))
    ensures Collapse(Unsplit(f.blocks) + Normalize(f.rest + c)) == Collapse(p + c)
  {
    hide SplitBlocks, Normalize, Unsplit, Collapse;
    var u := Unsplit(f.blocks);
    CollapseConcat(u, Normalize(f.rest + c));
    CollapseNormalized(f.rest + c);
    CollapseConcat(u, f.rest + c);
    Seqs.Assoc(u, f.rest, c);
    CollapseCongruent(Whole(f), p, c);
  }

  lemma {:induction false} ThinsEnds(x: Text, y: Text)
    requires Thins(x, y)
    ensures EndsCr(x) <==> EndsCr(y)
  {
    if x != [] {
      if x[0] == y[0] { ThinsEnds(x[1..], y[1..]); } else { ThinsEnds(x[1..], y); }
    }
  }

  lemma FedThins(f: Framed, p: Text, c: Text)
    requires Between(f, p)
    ensures Thins(Normalize(p + c), Unsplit(f.blocks) + Normalize(f.rest + c))
  {
    hide SplitBlocks, Normalize, Unsplit, Collapse, Thins;
    var u, r := Unsplit(f.blocks), f.rest;
    UnsplitEnd(f.blocks);
    ThinsEnds(Normalize(p), Whole(f));
    NormalizeEnd(p);
    NormalizeEnd(r);
    NormalizeConcat(p, c);
    NormalizeConcat(r, c);
    ThinsNormalize(r);
    ThinsPrepend(u, r, Normalize(r));
    ThinsFurther(Normalize(p), u + r, u + Normalize(r));
    assert EndsCr(p) == EndsCr(r);
    GluedThin(p, r, Normalize(p), u, Normalize(r), c);
  }

  lemma GluedThin(p: Text, r: Text, x: Text, u: Text, y: Text, c: Text)
    requires EndsCr(p) == EndsCr(r) == EndsCr(x) == EndsCr(y) && Thins(x, u + y)
    ensures Thins(Glue(p, x, c), u + Glue(r, y, c))
  {
    hide Thins, Normalize;
    if EndsCr(p) && c != [] && c[0] == NEWLINE {
      var a, b, z := x[..|x| - 1], y[..|y| - 1], Normalize(c[1..]);
      assert x == a + [CARRIAGE_RETURN] && u + y == (u + b) + [CARRIAGE_RETURN];
      ThinsLast(a, u + b, z);
      Seqs.Assoc(a, [NEWLINE], z);
      Seqs.Assoc(b, [NEWLINE], z);
      Seqs.Assoc(u, b, [NEWLINE] + z);
    } else {
      ThinsAppend(x, u + y, Normalize(c));
      Seqs.Assoc(u, y, Normalize(c));
    }
  }

  lemma {:induction false} FeedAllBetween(chunks: seq<Text>)
    ensures Between(FeedAll(chunks), Concat(chunks))
  {
    if chunks == [] {
      assert Between(Framed([], []), []);
    } else {
      var init, last := chunks[..|chunks| - 1], chunks[|chunks| - 1];
      assert chunks == init + [last];
      ConcatAppend(init, last);
      FeedAllBetween(init);
      FeedBetween(FeedAll(init), Concat(init), last);
    }
  }

  // ---- chunks that make all passes -----------------------------------------------------------------------

  /** Empty chunks: each has the remainder normalized once more. */
  function Idle(n: nat): seq<Text> { seq(n, i => []) }

  /** Every character by itself, followed by as many empty chunks as characters came before. */
  function Drip(s: Text): seq<Text> {
    if s == [] then [] else Drip(s[..|s| - 1]) + [[s[|s| - 1]]] + Idle(|s|)
  }

  function FeedIdle(f: Framed, n: nat): Framed
    decreases n
  {
    if n == 0 then f else FeedIdle(Feed(f, []), n - 1)
  }

  lemma {:induction false} FeedAllIdle(chunks: seq<Text>, n: nat)
    ensures FeedAll(chunks + Idle(n)) == FeedIdle(FeedAll(chunks), n) && Concat(chunks + Idle(n)) == Concat(chunks)
    decreases n
  {
    hide Feed, FeedAll, Concat;
    if n == 0 {
      assert chunks + Idle(n) == chunks;
    } else {
      assert chunks + Idle(n) == (chunks + [[]]) + Idle(n - 1);
      FeedAllIdle(chunks + [[]], n - 1);
      FeedAllLast(chunks, []);
      ConcatAppend(chunks, []);
      Seqs.AppendNil(Concat(chunks));
    }
  }

  /** Without pairs and blank lines in the remainder an empty chunk changes nothing. */
  lemma {:induction false} IdleStable(f: Framed, n: nat)
    requires !HasCrLf(f.rest) && SplitBlocks(f.rest) == Framed([], f.rest)
    ensures FeedIdle(f, n) == f
  {
    if n > 0 {
      NormalizeStable(f.rest);
      Seqs.AppendNil(f.rest);
      Seqs.AppendNil(f.blocks);
      assert Feed(f, []) == f;
      IdleStable(f, n - 1);
    }
  }

  lemma {:induction false} RestHasNoBlank(s: Text)
    ensures SplitBlocks(SplitBlocks(s).rest) == Framed([], SplitBlocks(s).rest)
  {
    hide BlankAt;
    var k := FindBlank(s, 0);
    if k >= 0 { RestHasNoBlank(s[k + 2..]); }
  }

  lemma RestHasNoPair(f: Framed)
    requires !HasCrLf(Whole(f))
    ensures !HasCrLf(f.rest)
  {
    var u := Unsplit(f.blocks);
    forall i | 0 <= i < |f.rest| - 1 ensures !CrLfAt(f.rest, i) { assert !CrLfAt(Whole(f), |u| + i); }
  }

  lemma {:induction false} CollapseShrinks(s: Text)
    ensures |Collapse(s)| <= |s|
  {
    if s != [] { CollapseShrinks(s[1..]); }
  }

  lemma CollapseTwice(s: Text)
    ensures Collapse(Collapse(s)) == Collapse(s)
  {
    CollapseHasNoPair(s);
    CollapseStable(Collapse(s));
  }

  lemma OneMore(w: Text, c: CodePoint)
    requires !HasCrLf(w) && (c == NEWLINE ==> !EndsCr(w))
    ensures !HasCrLf(w + [c]) && Collapse(w + [c]) == w + [c]
  {
    forall i | 0 <= i < |w + [c]| - 1 ensures !CrLfAt(w + [c], i) {
      if i < |w| - 1 { assert !CrLfAt(w, i); }
    }
    CollapseStable(w + [c]);
  }

  /** A character that completes no pair is there to stay. */
  lemma PlainDrip(f: Framed, c: CodePoint, n: nat)
    requires f == SplitBlocks(Whole(f)) && !HasCrLf(Whole(f)) && (c == NEWLINE ==> !EndsCr(f.rest))
    ensures FeedIdle(Feed(f, [c]), n) == SplitBlocks(Collapse(Whole(f) + [c]))
  {
    hide SplitBlocks, Normalize, Unsplit, Collapse, Feed, FeedIdle;
    var u := Unsplit(f.blocks);
    RestHasNoPair(f);
    UnsplitEnd(f.blocks);
    OneMore(f.rest, c);
    OneMore(Whole(f), c);
    NormalizeStable(f.rest + [c]);
    WholeFed(f, [c]);
    Seqs.Assoc(u, f.rest, [c]);
    var g := Feed(f, [c]);
    RestHasNoPair(g);
    RestHasNoBlank(Whole(g));
    IdleStable(g, n);
  }

  lemma PrefixHasNoBlank(r: Text, n: nat)
    requires SplitBlocks(r) == Framed([], r) && n <= |r|
    ensures SplitBlocks(r[..n]) == Framed([], r[..n])
  {
    hide SplitBlocks;
    SplitStep(r);
    forall i | 0 <= i < |r[..n]| - 1 ensures !BlankAt(r[..n], i) { assert !BlankAt(r, i); }
    SplitStep(r[..n]);
  }

  lemma NoBlankAfterCr(r: Text)
    requires SplitBlocks(r) == Framed([], r) && EndsCr(r)
    ensures SplitBlocks(r + [NEWLINE]) == Framed([], r + [NEWLINE])
  {
    hide SplitBlocks;
    SplitStep(r);
    forall i | 0 <= i < |r| ensures !BlankAt(r + [NEWLINE], i) {
      if i < |r| - 1 { assert !BlankAt(r, i); }
    }
    SplitStep(r + [NEWLINE]);
  }

  /** A line feed after a row of carriage returns: empty chunks take one of them away after the other. */
  lemma {:induction false} Drain(f: Framed, n: nat)
    requires f == SplitBlocks(Whole(f)) && !HasCrLf(Whole(f)) && |f.rest| <= n
    ensures FeedIdle(Feed(f, [NEWLINE]), n) == SplitBlocks(Collapse(Whole(f) + [NEWLINE]))
    decreases n, |f.rest|
  {
    hide SplitBlocks, Normalize, Unsplit, Collapse, FeedIdle;
    if !EndsCr(f.rest) {
      PlainDrip(f, NEWLINE, n);
    } else {
      var r := f.rest[..|f.rest| - 1];
      var g := Framed(f.blocks, r);
      Shorter(f, g);
      DrainStep(f, g);
      if EndsCr(r) {
        FeedIdleStep(Feed(f, [NEWLINE]), n);
        Drain(g, n - 1);
      } else {
        Drain(g, n);
      }
    }
  }

  lemma FeedIdleStep(f: Framed, n: nat)
    requires n > 0
    ensures FeedIdle(f, n) == FeedIdle(Feed(f, []), n - 1)
  {}

  /** Without its last carriage return a reader is still one, and collapses to the same at a line feed. */
  lemma Shorter(f: Framed, g: Framed)
    requires f == SplitBlocks(Whole(f)) && !HasCrLf(Whole(f)) && EndsCr(f.rest)
    requires g == Framed(f.blocks, f.rest[..|f.rest| - 1])
    ensures g == SplitBlocks(Whole(g)) && !HasCrLf(Whole(g))
    ensures Collapse(Whole(f) + [NEWLINE]) == Collapse(Whole(g) + [NEWLINE])
  {
    hide SplitBlocks, Normalize, Unsplit;
    var u := Unsplit(f.blocks);
    RestHasNoBlank(Whole(f));
    PrefixHasNoBlank(f.rest, |f.rest| - 1);
    SplitPrefix(Whole(f), g.rest);
    Seqs.AppendNil(f.blocks);
    assert f.rest == g.rest + [CARRIAGE_RETURN];
    Seqs.Assoc(u, g.rest, [CARRIAGE_RETURN]);
    forall i | 0 <= i < |Whole(g)| - 1 ensures !CrLfAt(Whole(g), i) { assert !CrLfAt(Whole(f), i); }
    var pair := [CARRIAGE_RETURN, NEWLINE];
    assert Whole(f) + [NEWLINE] == Whole(g) + pair;
    assert pair[1..] == [NEWLINE] && [NEWLINE][1..] == [];
    assert Collapse(pair) == Collapse([NEWLINE]);
    hide Collapse;
    CollapseConcat(Whole(g), pair);
    CollapseConcat(Whole(g), [NEWLINE]);
  }

  lemma DrainStep(f: Framed, g: Framed)
    requires f == SplitBlocks(Whole(f)) && !HasCrLf(Whole(f)) && EndsCr(f.rest)
    requires g == Framed(f.blocks, f.rest[..|f.rest| - 1]) && g == SplitBlocks(Whole(g)) && !HasCrLf(Whole(g))
    ensures Feed(g, [NEWLINE])
            == if EndsCr(g.rest) then Feed(Feed(f, [NEWLINE]), []) else Feed(f, [NEWLINE])
  {
    hide SplitBlocks, Unsplit;
    var r := g.rest;
    RestHasNoPair(f);
    RestHasNoPair(g);
    NormalizeStable(f.rest);
    NormalizeStable(r);
    NormalizeConcat(f.rest, [NEWLINE]);
    NormalizeConcat(r, [NEWLINE]);
    assert [NEWLINE][1..] == [] && Normalize([NEWLINE]) == [NEWLINE] && Normalize([]) == [];
    Seqs.AppendNil(r + [NEWLINE]);
    assert Normalize(f.rest + [NEWLINE]) == r + [NEWLINE];
    hide Normalize;
    if EndsCr(r) {
      RestHasNoBlank(Whole(g));
      NoBlankAfterCr(r);
      Seqs.AppendNil(f.blocks);
    }
  }

  lemma DripStep(f: Framed, p: Text, c: CodePoint)
    requires f == SplitBlocks(Collapse(p))
    ensures FeedIdle(Feed(f, [c]), |p| + 1) == SplitBlocks(Collapse(p + [c]))
  {
    hide SplitBlocks, Normalize, Unsplit, Collapse, Feed, FeedIdle;
    SplitRebuilds(Collapse(p));
    CollapseHasNoPair(p);
    CollapseShrinks(p);
    CollapseTwice(p);
    CollapseCongruent(Collapse(p), p, [c]);
    if c == NEWLINE { Drain(f, |p| + 1); } else { PlainDrip(f, c, |p| + 1); }
  }

  /** Read that way, a stream is normalized for good. */
  lemma {:induction false} DripCollapses(s: Text)
    ensures FeedAll(Drip(s)) == SplitBlocks(Collapse(s)) && Concat(Drip(s)) == s
  {
    if s == [] {
      assert SplitBlocks([]) == Framed([], []);
    } else {
      var p, c := s[..|s| - 1], s[|s| - 1];
      assert s == p + [c];
      hide FeedAll, Feed, FeedIdle, Concat, Collapse, SplitBlocks;
      DripCollapses(p);
      FeedAllIdle(Drip(p) + [[c]], |s|);
      FeedAllLast(Drip(p), [c]);
      ConcatAppend(Drip(p), [c]);
      DripStep(FeedAll(Drip(p)), p, c);
    }
  }

  ghost predicate BlocksInvariant(s: Text) {
    forall chunks | Concat(chunks) == s :: FeedAll(chunks).blocks == SplitBlocks(Normalize(s)).blocks
  }

  /** The event blocks do not depend on how the stream is cut exactly when normalizing it for good, rather than once,
      would make no difference to them. */
  lemma BlocksInvariantIff(s: Text)
    ensures BlocksInvariant(s) <==> SplitBlocks(Normalize(s)).blocks == SplitBlocks(Collapse(s)).blocks
  {
    hide Normalize, SplitBlocks, Collapse, FeedAll, Concat, Thins;
    DripCollapses(s);
    if SplitBlocks(Normalize(s)).blocks == SplitBlocks(Collapse(s)).blocks {
      forall chunks | Concat(chunks) == s ensures FeedAll(chunks).blocks == SplitBlocks(Normalize(s)).blocks {
        FeedAllBetween(chunks);
        var w := Whole(FeedAll(chunks));
        ThinsCollapse(w);
        BlocksBetween(Normalize(s), w, Collapse(s));
      }
    }
  }
}
