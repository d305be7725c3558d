/** Cutting a server-sent event stream (section 9.2 of the WHATWG HTML standard) into event blocks
    while it arrives in arbitrary chunks. */
module EventStream {
  import opened Options
  import opened Text
  import Seqs

  const MAX_STREAM_BYTES := 2097152
  const MAX_EVENT_CHARS := 65536

  /** One network chunk: its size in bytes and the characters the incremental decoder yields for it. */
  datatype Chunk = Chunk(bytes: nat, text: Text)

  /** Completed event blocks and the unfinished remainder. */
  datatype Framed = Framed(blocks: seq<Text>, rest: Text)

  datatype StreamError = StreamTooLarge | EventTooLarge

  // ---- line endings --------------------------------------------------------------------------

  /** `replace("\r\n", "\n")`: one left-to-right pass. */
  function Normalize(s: Text): (r: Text)
    ensures |r| <= |s|
  {
    if |s| < 2 then s
    else if s[0] == CARRIAGE_RETURN && s[1] == NEWLINE then [NEWLINE] + Normalize(s[2..])
    else [s[0]] + Normalize(s[1..])
  }

  ghost predicate HasCrLf(s: Text) {
    exists i :: 0 <= i < |s| - 1 && CrLfAt(s, i)
  }

  ghost predicate CrLfAt(s: Text, i: nat)
    requires i < |s| - 1
  {
    s[i] == CARRIAGE_RETURN && s[i + 1] == NEWLINE
  }

  ghost predicate HasCrCrLf(s: Text) {
    exists i :: 0 <= i < |s| - 2 && CrCrLfAt(s, i)
  }

  ghost predicate CrCrLfAt(s: Text, i: nat)
    requires i < |s| - 2
  {
    s[i] == CARRIAGE_RETURN && s[i + 1] == CARRIAGE_RETURN && s[i + 2] == NEWLINE
  }

  predicate EndsCr(s: Text) {
    s != [] && s[|s| - 1] == CARRIAGE_RETURN
  }

  // ---- blocks --------------------------------------------------------------------------------

  ghost predicate BlankAt(s: Text, i: nat)
    requires i < |s| - 1
  {
    s[i] == NEWLINE && s[i + 1] == NEWLINE
  }

  /** Index of the first blank line at or after `i`, or -1. */
  function FindBlank(s: Text, i: nat): (k: int)
    requires i <= |s|
    ensures k == -1 || (i <= k < |s| - 1 && BlankAt(s, k))
    ensures k == -1 ==> forall j | i <= j < |s| - 1 :: !BlankAt(s, j)
    ensures forall j | i <= j < k :: !BlankAt(s, j)
    decreases |s| - i
  {
    if |s| - i < 2 then -1
    else if s[i] == NEWLINE && s[i + 1] == NEWLINE then i
    else FindBlank(s, i + 1)
  }

  /** The reference reading of a whole normalized stream: split it at blank lines. */
  function SplitBlocks(s: Text): Framed {
    var k := FindBlank(s, 0);
    if k < 0 then Framed([], s)
    else
      var later := SplitBlocks(s[k + 2..]);
      Framed([s[..k]] + later.blocks, later.rest)
  }

  function Unsplit(blocks: seq<Text>): Text {
    if blocks == [] then [] else blocks[0] + [NEWLINE, NEWLINE] + Unsplit(blocks[1..])
  }

  // ---- the incremental reader ------------------------------------------------------------------

  function Feed(f: Framed, chunk: Text): Framed {
    var next := SplitBlocks(Normalize(f.rest + chunk));
    Framed(f.blocks + next.blocks, next.rest)
  }

  function FeedAll(chunks: seq<Text>): Framed {
    if chunks == [] then Framed([], []) else Feed(FeedAll(chunks[..|chunks| - 1]), chunks[|chunks| - 1])
  }

  function Texts(chunks: seq<Chunk>): seq<Text> {
    seq(|chunks|, i requires 0 <= i < |chunks| => chunks[i].text)
  }

  function TotalBytes(chunks: seq<Chunk>): nat {
    if chunks == [] then 0 else TotalBytes(chunks[..|chunks| - 1]) + chunks[|chunks| - 1].bytes
  }

  ghost predicate WithinLimits(chunks: seq<Chunk>, n: nat)
    requires n <= |chunks|
  {
    TotalBytes(chunks[..n]) <= 2097152 && |FeedAll(Texts(chunks[..n])).rest| <= 65536
  }

  /** A limit is passed with the `n`-th chunk and not before. */
  ghost predicate FirstOver(chunks: seq<Chunk>, n: nat)
    requires n <= |chunks|
  {
    !WithinLimits(chunks, n) && forall k | 0 < k < n :: WithinLimits(chunks, k)
  }

  /** The block loop of the chat stream: one growing buffer, normalized and drained per chunk. */
  method ReadStream(chunks: seq<Chunk>) returns (r: Result<Framed, StreamError>)
    ensures r.Ok? <==> forall n | 0 < n <= |chunks| :: WithinLimits(chunks, n)
    ensures r.Ok? ==> r.value == FeedAll(Texts(chunks))
    ensures forall n | 0 < n <= |chunks| && FirstOver(chunks, n) ::
              r == Err(if TotalBytes(chunks[..n]) > 2097152 then StreamTooLarge else EventTooLarge)
  {
    hide Normalize, SplitBlocks, FeedAll, TotalBytes, FindBlank;
    var buffer: Text := [];
    var blocks: seq<Text> := [];
    var total := 0;
    NothingFed(chunks);
    for i := 0 to |chunks|
      invariant total == TotalBytes(chunks[..i])
      invariant Framed(blocks, buffer) == FeedAll(Texts(chunks[..i]))
      invariant forall n | 0 < n <= i :: WithinLimits(chunks, n)
    {
      OneMoreChunk(chunks, i);
      total := total + chunks[i].bytes;
      if total > MAX_STREAM_BYTES {
        assert !WithinLimits(chunks, i + 1);
        return Err(StreamTooLarge);
      }
      ghost var before := Framed(blocks, buffer);
      buffer := Normalize(buffer + chunks[i].text);
      var k := FindBlank(buffer, 0);
      while k >= 0
        invariant k == FindBlank(buffer, 0)
        invariant Feed(before, chunks[i].text).rest == SplitBlocks(buffer).rest
        invariant Feed(before, chunks[i].text).blocks == blocks + SplitBlocks(buffer).blocks
        decreases |buffer|
      {
        SplitStep(buffer);
        Seqs.Assoc(blocks, [buffer[..k]], SplitBlocks(buffer[k + 2..]).blocks);
        blocks, buffer := blocks + [buffer[..k]], buffer[k + 2..];
        k := FindBlank(buffer, 0);
      }
      SplitStep(buffer);
      Seqs.AppendNil(blocks);
      if |buffer| > MAX_EVENT_CHARS {
        assert !WithinLimits(chunks, i + 1);
        return Err(EventTooLarge);
      }
    }
    assert chunks[..|chunks|] == chunks;
    return Ok(Framed(blocks, buffer));
  }

  lemma SplitStep(s: Text)
    ensures var k := FindBlank(s, 0);
      SplitBlocks(s) == if k < 0 then Framed([], s)
                        else Framed([s[..k]] + SplitBlocks(s[k + 2..]).blocks, SplitBlocks(s[k + 2..]).rest)
  {}

  lemma NothingFed(chunks: seq<Chunk>)
    ensures TotalBytes(chunks[..0]) == 0 && FeedAll(Texts(chunks[..0])) == Framed([], [])
  {}

  lemma OneMoreChunk(chunks: seq<Chunk>, i: nat)
    requires i < |chunks|
    ensures TotalBytes(chunks[..i + 1]) == TotalBytes(chunks[..i]) + chunks[i].bytes
    ensures FeedAll(Texts(chunks[..i + 1])) == Feed(FeedAll(Texts(chunks[..i])), chunks[i].text)
  {
    assert chunks[..i + 1][..i] == chunks[..i];
    assert Texts(chunks[..i + 1])[..i] == Texts(chunks[..i]);
  }

  // ---- normalization and concatenation --------------------------------------------------------

  function Glue(p: Text, r: Text, c: Text): Text
    requires EndsCr(p) ==> r != []
  {
    if EndsCr(p) && c != [] && c[0] == NEWLINE then r[..|r| - 1] + [NEWLINE] + Normalize(c[1..])
    else r + Normalize(c)
  }

  lemma {:induction false} NormalizeEnd(p: Text)
    ensures (Normalize(p) == []) == (p == [])
    ensures EndsCr(Normalize(p)) == EndsCr(p)
  {
    if |p| >= 2 {
      if p[0] == CARRIAGE_RETURN && p[1] == NEWLINE {
        NormalizeEnd(p[2..]);
        var q := Normalize(p[2..]);
        if q == [] { assert p == [p[0], p[1]]; assert Normalize(p) == [NEWLINE]; }
      } else {
        NormalizeEnd(p[1..]);
      }
    }
  }

  /** How many characters the pass consumes first, and what it emits for them. */
  ghost function Head(p: Text): (n: nat)
    requires |p| >= 2
  {
    if p[0] == CARRIAGE_RETURN && p[1] == NEWLINE then 2 else 1
  }

  ghost function Emitted(p: Text): CodePoint
    requires |p| >= 2
  {
    if Head(p) == 2 then NEWLINE else p[0]
  }

  lemma NormalizeStep(p: Text)
    requires |p| >= 2
    ensures Normalize(p) == [Emitted(p)] + Normalize(p[Head(p)..])
  {}

  lemma NormalizeShort(p: Text, c: Text)
    requires |p| == 1
    ensures Normalize(p) == p
    ensures Normalize(p + c) == Glue(p, p, c)
  {
    if c == [] {
      Seqs.AppendNil(p);
    } else {
      var s := p + c;
      assert s[1..] == c && s[2..] == c[1..];
      NormalizeStep(s);
      assert p[..0] + [NEWLINE] == [NEWLINE];
      assert p == [p[0]];
    }
  }

  lemma GlueCons(e: CodePoint, p: Text, q: Text, r: Text, c: Text)
    requires EndsCr(p) == EndsCr(q) && (EndsCr(q) ==> r != [])
    ensures [e] + Glue(q, r, c) == Glue(p, [e] + r, c)
  {
    hide Normalize;
    if EndsCr(p) && c != [] && c[0] == NEWLINE {
      Seqs.TakeAppend([e], r, |r| - 1);
      Seqs.Assoc([e], r[..|r| - 1], [NEWLINE]);
      Seqs.Assoc([e], r[..|r| - 1] + [NEWLINE], Normalize(c[1..]));
    } else {
      Seqs.Assoc([e], r, Normalize(c));
    }
  }

  /** Normalizing a concatenation only interacts at a carriage return followed by a line feed. */
  lemma {:induction false} NormalizeConcat(p: Text, c: Text)
    ensures EndsCr(p) ==> Normalize(p) != []
    ensures Normalize(p + c) == Glue(p, Normalize(p), c)
  {
    hide Normalize, Glue;
    NormalizeEnd(p);
    if p == [] {
      NormalizeEmpty(c);
    } else if |p| == 1 {
      NormalizeShort(p, c);
    } else {
      var q := p[Head(p)..];
      NormalizeStep(p);
      NormalizeStep(p + c);
      Seqs.DropAppend(p, c, Head(p));
      NormalizeConcat(q, c);
      NormalizeEnd(q);
      if q == [] { PairIsNotCr(p); }
      GlueCons(Emitted(p), p, q, Normalize(q), c);
    }
  }

  lemma NormalizeEmpty(c: Text)
    ensures Normalize([]) == [] && Normalize([] + c) == Glue([], [], c)
  {
    Seqs.AppendNil(c);
    Seqs.AppendNil(Normalize(c));
  }

  lemma PairIsNotCr(p: Text)
    requires |p| >= 2 && p[Head(p)..] == []
    ensures !EndsCr(p)
  {}

  lemma {:induction false} NormalizeStable(s: Text)
    requires !HasCrLf(s)
    ensures Normalize(s) == s
  {
    if |s| >= 2 {
      assert !CrLfAt(s, 0);
      forall i | 0 <= i < |s[1..]| - 1 ensures !CrLfAt(s[1..], i) { assert !CrLfAt(s, i + 1); }
      NormalizeStable(s[1..]);
    }
  }

  lemma {:induction false} NormalizeShrinks(s: Text)
    requires HasCrLf(s)
    ensures |Normalize(s)| < |s|
  {
    if !CrLfAt(s, 0) {
      var i :| 0 <= i < |s| - 1 && CrLfAt(s, i);
      assert CrLfAt(s[1..], i - 1);
      NormalizeShrinks(s[1..]);
    }
  }

  /** After one pass a line ending pair survives only where two carriage returns preceded the line feed. */
  lemma {:induction false} NormalizeRemovesPairs(p: Text)
    requires !HasCrCrLf(p)
    ensures !HasCrLf(Normalize(p))
  {
    if |p| >= 2 {
      var n := if p[0] == CARRIAGE_RETURN && p[1] == NEWLINE then 2 else 1;
      var tail := p[n..];
      forall i | 0 <= i < |tail| - 2 ensures !CrCrLfAt(tail, i) { assert !CrCrLfAt(p, i + n); }
      NormalizeRemovesPairs(tail);
      var q, r := Normalize(p), Normalize(tail);
      assert q[1..] == r;
      forall i | 0 <= i < |q| - 1 ensures !CrLfAt(q, i) {
        if i > 0 {
          assert !CrLfAt(r, i - 1);
        } else if n == 1 && p[0] == CARRIAGE_RETURN {
          if |p| >= 3 { assert !CrCrLfAt(p, 0); }
        }
      }
    }
  }

  // ---- blocks and concatenation -----------------------------------------------------------------

  lemma UnsplitCons(b: Text, bs: seq<Text>)
    ensures Unsplit([b] + bs) == b + [NEWLINE, NEWLINE] + Unsplit(bs)
  {
    Seqs.ConsTail(b, bs);
  }

  lemma AroundBlank(s: Text, k: nat)
    requires k < |s| - 1 && BlankAt(s, k)
    ensures s == s[..k] + [NEWLINE, NEWLINE] + s[k + 2..]
  {}

  lemma {:induction false} SplitRebuilds(s: Text)
    ensures Unsplit(SplitBlocks(s).blocks) + SplitBlocks(s).rest == s
  {
    hide SplitBlocks, FindBlank, BlankAt;
    var k := FindBlank(s, 0);
    SplitStep(s);
    if k < 0 {
      Seqs.AppendNil(s);
    } else {
      SplitRebuilds(s[k + 2..]);
      var f := SplitBlocks(s[k + 2..]);
      UnsplitCons(s[..k], f.blocks);
      AroundBlank(s, k);
      Seqs.Assoc(s[..k] + [NEWLINE, NEWLINE], Unsplit(f.blocks), f.rest);
    }
  }

  /** Completed blocks stay what they are whatever follows the remainder. */
  lemma {:induction false} SplitPrefix(s: Text, y: Text)
    ensures var f := SplitBlocks(s);
            SplitBlocks(Unsplit(f.blocks) + y) == Framed(f.blocks + SplitBlocks(y).blocks, SplitBlocks(y).rest)
  {
    hide SplitBlocks, FindBlank, BlankAt;
    var k := FindBlank(s, 0);
    SplitStep(s);
    if k < 0 {
      Seqs.AppendNil(y);
      Seqs.AppendNil(SplitBlocks(y).blocks);
    } else {
      var later := SplitBlocks(s[k + 2..]);
      SplitPrefix(s[k + 2..], y);
      var w := Unsplit(later.blocks) + y;
      UnsplitCons(s[..k], later.blocks);
      Seqs.Assoc(s[..k] + [NEWLINE, NEWLINE], Unsplit(later.blocks), y);
      SplitAtFirst(s, k, w);
      Seqs.Assoc([s[..k]], later.blocks, SplitBlocks(y).blocks);
    }
  }

  lemma SplitAtFirst(s: Text, k: nat, w: Text)
    requires k == FindBlank(s, 0)
    ensures SplitBlocks(s[..k] + [NEWLINE, NEWLINE] + w) ==
            Framed([s[..k]] + SplitBlocks(w).blocks, SplitBlocks(w).rest)
  {
    hide SplitBlocks;
    var z := s[..k] + [NEWLINE, NEWLINE] + w;
    FirstBlank(s, k, w);
    SplitStep(z);
    assert z[k + 2..] == w && z[..k] == s[..k];
  }

  lemma FirstBlank(s: Text, k: nat, w: Text)
    requires k == FindBlank(s, 0)
    ensures FindBlank(s[..k] + [NEWLINE, NEWLINE] + w, 0) == k
  {
    var z := s[..k] + [NEWLINE, NEWLINE] + w;
    var m := FindBlank(z, 0);
    assert BlankAt(z, k);
    if 0 <= m < k { assert BlankAt(z, m); assert BlankAt(s, m); }
  }

  lemma {:induction false} UnsplitEnd(blocks: seq<Text>)
    ensures blocks == [] ==> Unsplit(blocks) == []
    ensures blocks != [] ==> var u := Unsplit(blocks);
              |u| >= 2 && u[|u| - 1] == NEWLINE && u[|u| - 2] == NEWLINE
  {
    if blocks != [] { UnsplitEnd(blocks[1..]); }
  }

  // ---- chunking invariance -------------------------------------------------------------------

  lemma FeedStep(p: Text, c: Text, f: Framed)
    requires !HasCrCrLf(p) && f == SplitBlocks(Normalize(p))
    ensures Feed(f, c) == SplitBlocks(Normalize(p + c))
  {
    hide SplitBlocks, HasCrCrLf, Normalize, Glue, Unsplit;
    var r := Normalize(p);
    SplitRebuilds(r);
    UnsplitEnd(f.blocks);
    var u := Unsplit(f.blocks);
    assert r == u + f.rest;
    NormalizeRemovesPairs(p);
    forall i | 0 <= i < |f.rest| - 1 ensures !CrLfAt(f.rest, i) { assert !CrLfAt(r, |u| + i); }
    NormalizeStable(f.rest);
    NormalizeConcat(p, c);
    NormalizeConcat(f.rest, c);
    NormalizeEnd(p);
    assert EndsCr(f.rest) == EndsCr(r);
    GlueSuffix(u, f.rest, c, p);
    SplitPrefix(r, Normalize(f.rest + c));
  }

  lemma GlueSuffix(u: Text, rest: Text, c: Text, p: Text)
    requires EndsCr(rest) == EndsCr(p)
    ensures Glue(p, u + rest, c) == u + Glue(rest, rest, c)
  {
    if EndsCr(p) && c != [] && c[0] == NEWLINE {
      assert (u + rest)[..|u + rest| - 1] == u + rest[..|rest| - 1];
      assert u + rest[..|rest| - 1] + [NEWLINE] + Normalize(c[1..])
          == u + (rest[..|rest| - 1] + [NEWLINE] + Normalize(c[1..]));
    } else {
      assert u + rest + Normalize(c) == u + (rest + Normalize(c));
    }
  }

  lemma PrefixHasNoTriple(p: Text, c: Text)
    requires !HasCrCrLf(p + c)
    ensures !HasCrCrLf(p)
  {
    forall i | 0 <= i < |p| - 2 ensures !CrCrLfAt(p, i) { assert !CrCrLfAt(p + c, i); }
  }

  lemma {:induction false} FeedAllIsWhole(chunks: seq<Text>)
    requires !HasCrCrLf(Concat(chunks))
    ensures FeedAll(chunks) == SplitBlocks(Normalize(Concat(chunks)))
  {
    if chunks == [] {
      assert FeedAll(chunks) == SplitBlocks([]);
    } else {
      var init, last := chunks[..|chunks| - 1], chunks[|chunks| - 1];
      assert chunks == init + [last];
      ConcatAppend(init, last);
      PrefixHasNoTriple(Concat(init), last);
      FeedAllIsWhole(init);
      FeedStep(Concat(init), last, FeedAll(init));
    }
  }

  ghost predicate ChunkingInvariant(s: Text) {
    forall chunks | Concat(chunks) == s :: FeedAll(chunks) == SplitBlocks(Normalize(s))
  }

  /** Blocks and remainder do not depend on how the stream is cut exactly when it has no CR CR LF. */
  lemma ChunkingInvariantIff(s: Text)
    ensures ChunkingInvariant(s) <==> !HasCrCrLf(s)
  {
    if !HasCrCrLf(s) {
      forall chunks | Concat(chunks) == s ensures FeedAll(chunks) == SplitBlocks(Normalize(s)) {
        FeedAllIsWhole(chunks);
      }
    } else {
      var i :| 0 <= i < |s| - 2 && CrCrLfAt(s, i);
      CutAfterTriple(s, i);
    }
  }

  /** Cutting right after CR CR LF normalizes the surviving pair a second time. */
  lemma CutAfterTriple(s: Text, i: nat)
    requires i < |s| - 2 && CrCrLfAt(s, i)
    ensures !ChunkingInvariant(s)
  {
    hide Normalize, SplitBlocks, Unsplit, FeedAll, Feed, Glue;
    var p, v := s[..i + 3], s[i + 3..];
    TwoChunks(p, v);
    Seqs.SplitAt(s, i + 3);
    TripleLeavesPair(s[..i + 1]);
    assert p == s[..i + 1] + [CARRIAGE_RETURN, NEWLINE];
    SecondPassShrinks(p, v);
    assert Concat([p, v]) == s;
  }

  lemma TwoChunks(p: Text, v: Text)
    ensures Concat([p, v]) == p + v
    ensures FeedAll([p, v]) == Feed(SplitBlocks(Normalize(p)), v)
  {
    hide Concat, Feed, FeedAll;
    assert [p, v] == [p] + [v] && [p] == [] + [p];
    ConcatAppend([p], v);
    ConcatAppend([], p);
    FeedAllLast([p], v);
    FeedAllLast([], p);
    FirstFeed(p);
  }

  lemma FeedAllLast(chunks: seq<Text>, last: Text)
    ensures FeedAll(chunks + [last]) == Feed(FeedAll(chunks), last)
  {
    Seqs.DropAll(chunks, [last]);
  }

  lemma FirstFeed(p: Text)
    ensures Concat([]) == [] && Feed(FeedAll([]), p) == SplitBlocks(Normalize(p))
  {
    hide Normalize, SplitBlocks;
    Seqs.AppendNil(p);
    Seqs.AppendNil(SplitBlocks(Normalize(p)).blocks);
  }

  lemma SecondPassShrinks(p: Text, v: Text)
    requires |Normalize(p)| >= 2 && CrLfAt(Normalize(p), |Normalize(p)| - 2) && !EndsCr(p)
    ensures Feed(SplitBlocks(Normalize(p)), v) != SplitBlocks(Normalize(p + v))
  {
    hide Normalize, SplitBlocks, Unsplit;
    var r := Normalize(p);
    var f := SplitBlocks(r);
    SplitRebuilds(r);
    UnsplitEnd(f.blocks);
    var u := Unsplit(f.blocks);
    RestKeepsPair(u, f.rest, f.blocks);
    NormalizeShrinks(f.rest);
    NormalizeConcat(p, v);
    NormalizeConcat(f.rest, v);
    var y := Normalize(f.rest + v);
    SplitPrefix(r, y);
    SplitRebuilds(u + y);
    SplitRebuilds(Normalize(p + v));
  }

  lemma RestKeepsPair(u: Text, rest: Text, blocks: seq<Text>)
    requires u == Unsplit(blocks)
    requires |u + rest| >= 2 && CrLfAt(u + rest, |u + rest| - 2)
    ensures HasCrLf(rest) && !EndsCr(rest)
  {
    UnsplitEnd(blocks);
    if |rest| >= 2 { assert CrLfAt(rest, |rest| - 2); }
  }

  lemma TripleLeavesPair(q: Text)
    requires EndsCr(q)
    ensures var r := Normalize(q + [CARRIAGE_RETURN, NEWLINE]);
            |r| >= 2 && r[|r| - 2] == CARRIAGE_RETURN && r[|r| - 1] == NEWLINE
  {
    NormalizeConcat(q, [CARRIAGE_RETURN, NEWLINE]);
    NormalizeEnd(q);
    var cr: Text := [CARRIAGE_RETURN, NEWLINE];
    assert cr[2..] == [];
    assert Normalize(cr) == [NEWLINE];
  }
}
