/** Grouping sources that are copies of one another or share a link, by union-find with path halving. */
module Origins {
  import opened Options

  /** A fetched source: its body hash (empty when unknown) and its normalized links. `origins` are the
      links the source itself declares; the requested and final address are in `addresses`. */
  datatype Source = Source(id: string, bodyHash: string, addresses: set<string>, origins: set<string>)

  datatype Reason = SameBody | SharedLinks(links: set<string>) | IndependenceUnknown

  datatype Independence = Unknown | Confirmed

  datatype OriginGroup = OriginGroup(id: nat, members: seq<nat>, origins: set<string>,
                                     reasons: seq<Reason>, independence: Independence)

  datatype Relation = Relation(left: nat, right: nat, reason: Reason)

  // ---- what belongs together -------------------------------------------------------------------

  function Links(s: Source): set<string> {
    s.addresses + s.origins
  }

  function ReasonsFor(a: Source, b: Source): seq<Reason> {
    (if a.bodyHash != "" && a.bodyHash == b.bodyHash then [SameBody] else [])
    + (if Links(a) * Links(b) != {} then [SharedLinks(Links(a) * Links(b))] else [])
  }

  predicate Linked(a: Source, b: Source) {
    (a.bodyHash != "" && a.bodyHash == b.bodyHash) || Links(a) * Links(b) != {}
  }

  /** A walk over linked sources. */
  ghost predicate Chain(sources: seq<Source>, path: seq<nat>) {
    && path != [] && path[0] < |sources|
    && (|path| > 1 ==> path[1] < |sources| && Linked(sources[path[0]], sources[path[1]]) && Chain(sources, path[1..]))
  }

  ghost predicate ChainFrom(sources: seq<Source>, i: nat, j: nat, path: seq<nat>) {
    Chain(sources, path) && path[0] == i && path[|path| - 1] == j
  }

  ghost predicate Connected(sources: seq<Source>, i: nat, j: nat) {
    exists path :: ChainFrom(sources, i, j, path)
  }

  lemma {:induction false} ChainJoin(sources: seq<Source>, p: seq<nat>, q: seq<nat>)
    requires Chain(sources, p) && Chain(sources, q)
    requires p[|p| - 1] < |sources| && Linked(sources[p[|p| - 1]], sources[q[0]])
    ensures Chain(sources, p + q)
  {
    if |p| == 1 {
      assert (p + q)[1..] == q;
    } else {
      ChainJoin(sources, p[1..], q);
      assert (p + q)[1..] == p[1..] + q;
    }
  }

  lemma ConnectedAcross(sources: seq<Source>, i: nat, u: nat, v: nat, j: nat)
    requires u < |sources| && v < |sources| && Linked(sources[u], sources[v])
    requires Connected(sources, i, u) && Connected(sources, v, j)
    ensures Connected(sources, i, j)
  {
    var p :| ChainFrom(sources, i, u, p);
    var q :| ChainFrom(sources, v, j, q);
    ChainJoin(sources, p, q);
    assert ChainFrom(sources, i, j, p + q);
  }

  lemma ConnectedSelf(sources: seq<Source>, i: nat)
    requires i < |sources|
    ensures Connected(sources, i, i)
  {
    assert ChainFrom(sources, i, i, [i]);
  }

  // ---- the forest ------------------------------------------------------------------------------------

  /** One node of the parent forest: `rep` names its root, `depth` strictly falls towards the root. */
  ghost predicate NodeOk(parents: seq<nat>, rep: seq<nat>, depth: seq<nat>, i: nat)
    requires i < |parents| == |rep| == |depth|
  {
    && parents[i] < |parents| && rep[i] < |parents|
    && rep[parents[i]] == rep[i] && rep[rep[i]] == rep[i] && (parents[i] == i <==> rep[i] == i)
    && (parents[i] != i ==> depth[parents[i]] < depth[i])
  }

  ghost predicate Forest(parents: seq<nat>, rep: seq<nat>, depth: seq<nat>) {
    |parents| == |rep| == |depth| && forall i | 0 <= i < |parents| :: NodeOk(parents, rep, depth, i)
  }

  lemma HalvingKeepsForest(parents: seq<nat>, rep: seq<nat>, depth: seq<nat>, i: nat)
    requires Forest(parents, rep, depth) && i < |parents| && parents[i] != i
    ensures parents[i] < |parents|
    ensures Forest(parents[i := parents[parents[i]]], rep, depth)
  {
    assert NodeOk(parents, rep, depth, i);
    assert NodeOk(parents, rep, depth, parents[i]);
    var next := parents[i := parents[parents[i]]];
    forall k | 0 <= k < |next| ensures NodeOk(next, rep, depth, k) {
      assert NodeOk(parents, rep, depth, k);
    }
  }

  /** The root of a node, flattening the path on the way; termination is by depth in the forest. */
  method Root(parents: array<nat>, index: nat, ghost rep: seq<nat>, ghost depth: seq<nat>) returns (r: nat)
    requires Forest(parents[..], rep, depth) && index < parents.Length
    modifies parents
    ensures Forest(parents[..], rep, depth)
    ensures r == rep[index]
  {
    r := index;
    assert NodeOk(parents[..], rep, depth, r);
    while parents[r] != r
      invariant Forest(parents[..], rep, depth) && r < parents.Length && rep[r] == rep[index]
      decreases depth[r]
    {
      assert NodeOk(parents[..], rep, depth, r);
      assert NodeOk(parents[..], rep, depth, parents[r]);
      HalvingKeepsForest(parents[..], rep, depth, r);
      ghost var halved := parents[..][r := parents[parents[r]]];
      parents[r] := parents[parents[r]];
      assert parents[..] == halved;
      r := parents[r];
    }
    assert NodeOk(parents[..], rep, depth, r);
  }

  ghost function MergedRep(rep: seq<nat>, a: nat, b: nat): seq<nat> {
    seq(|rep|, i requires 0 <= i < |rep| => if rep[i] == a then b else rep[i])
  }

  ghost function MergedDepth(rep: seq<nat>, depth: seq<nat>, a: nat, b: nat): seq<nat>
    requires |rep| == |depth| && b < |depth|
  {
    seq(|rep|, i requires 0 <= i < |rep| => if rep[i] == a && a != b then depth[i] + depth[b] + 1 else depth[i])
  }

  lemma LinkKeepsForest(parents: seq<nat>, rep: seq<nat>, depth: seq<nat>, a: nat, b: nat)
    requires Forest(parents, rep, depth) && a < |parents| && b < |parents| && rep[a] == a && rep[b] == b
    ensures Forest(parents[a := b], MergedRep(rep, a, b), MergedDepth(rep, depth, a, b))
  {
    var p', r', d' := parents[a := b], MergedRep(rep, a, b), MergedDepth(rep, depth, a, b);
    assert NodeOk(parents, rep, depth, a) && NodeOk(parents, rep, depth, b);
    forall k | 0 <= k < |p'| ensures NodeOk(p', r', d', k) {
      assert NodeOk(parents, rep, depth, k);
      assert NodeOk(parents, rep, depth, parents[k]);
    }
  }

  // ---- merging ---------------------------------------------------------------------------------------

  /** Merged sources are connected. */
  ghost predicate OnlyConnected(sources: seq<Source>, rep: seq<nat>) {
    |rep| == |sources| && forall i, j | 0 <= i < |rep| && 0 <= j < |rep| && rep[i] == rep[j] :: Connected(sources, i, j)
  }

  /** Every linked pair compared so far is merged: all pairs below `left`, and those of `left` below `right`. */
  ghost predicate PairsMerged(sources: seq<Source>, rep: seq<nat>, left: nat, right: nat) {
    |rep| == |sources| && forall u, v | 0 <= v < u < |rep| && (u < left || (u == left && v < right)) ::
      Linked(sources[u], sources[v]) ==> rep[u] == rep[v]
  }

  lemma MergeStaysConnected(sources: seq<Source>, rep: seq<nat>, left: nat, right: nat)
    requires OnlyConnected(sources, rep) && left < |rep| && right < |rep| && Linked(sources[left], sources[right])
    ensures OnlyConnected(sources, MergedRep(rep, rep[left], rep[right]))
  {
    var rep' := MergedRep(rep, rep[left], rep[right]);
    forall i, j | 0 <= i < |rep| && 0 <= j < |rep| && rep'[i] == rep'[j] ensures Connected(sources, i, j) {
      if rep[i] != rep[j] {
        if rep[i] == rep[left] {
          ConnectedAcross(sources, i, left, right, j);
        } else {
          ConnectedAcross(sources, i, right, left, j);
        }
      }
    }
  }

  /** Once every pair is compared, connected sources have one representative. */
  lemma {:induction false} ChainMerged(sources: seq<Source>, rep: seq<nat>, path: seq<nat>)
    requires PairsMerged(sources, rep, |sources|, 0) && Chain(sources, path)
    ensures path[|path| - 1] < |sources| && rep[path[0]] == rep[path[|path| - 1]]
  {
    if |path| > 1 { ChainMerged(sources, rep, path[1..]); }
  }

  lemma MergedIsConnected(sources: seq<Source>, rep: seq<nat>)
    requires PairsMerged(sources, rep, |sources|, 0) && OnlyConnected(sources, rep)
    ensures forall i, j | 0 <= i < |rep| && 0 <= j < |rep| :: rep[i] == rep[j] <==> Connected(sources, i, j)
  {
    forall i, j | 0 <= i < |rep| && 0 <= j < |rep| && Connected(sources, i, j) ensures rep[i] == rep[j] {
      var path :| ChainFrom(sources, i, j, path);
      ChainMerged(sources, rep, path);
    }
  }

  lemma LinkedReasons(a: Source, b: Source)
    ensures ReasonsFor(a, b) != [] <==> Linked(a, b)
  {}

  /** One merged pair with its reasons, in the order the comparison found them. */
  function Relate(left: nat, right: nat, reasons: seq<Reason>): seq<Relation> {
    seq(|reasons|, i requires 0 <= i < |reasons| => Relation(left, right, reasons[i]))
  }

  /** `relations` holds exactly the reasons of the linked pairs compared so far. */
  ghost predicate RelationsOf(sources: seq<Source>, relations: seq<Relation>, left: nat, right: nat) {
    forall r: Relation :: r in relations <==>
      (r.right < r.left < |sources| && (r.left < left || (r.left == left && r.right < right))
       && r.reason in ReasonsFor(sources[r.left], sources[r.right]))
  }

  /** The pairwise comparison: every linked pair is united, and its reasons are kept. */
  method MergeAll(sources: seq<Source>, parents: array<nat>)
    returns (relations: seq<Relation>, ghost rep: seq<nat>, ghost depth: seq<nat>)
    requires parents.Length == |sources| && forall i | 0 <= i < parents.Length :: parents[i] == i
    modifies parents
    ensures Forest(parents[..], rep, depth) && |rep| == |sources|
    ensures forall i, j | 0 <= i < |rep| && 0 <= j < |rep| :: rep[i] == rep[j] <==> Connected(sources, i, j)
    ensures RelationsOf(sources, relations, |sources|, 0)
  {
    relations := [];
    rep := parents[..];
    depth := seq(|sources|, i => 0);
    assert Forest(parents[..], rep, depth) by {
      assert forall i | 0 <= i < |sources| :: NodeOk(parents[..], rep, depth, i);
    }
    forall i | 0 <= i < |sources| ensures Connected(sources, i, i) { ConnectedSelf(sources, i); }
    for left := 0 to |sources|
      invariant Forest(parents[..], rep, depth) && |rep| == |sources|
      invariant OnlyConnected(sources, rep) && PairsMerged(sources, rep, left, 0)
      invariant RelationsOf(sources, relations, left, 0)
    {
      for right := 0 to left
        invariant Forest(parents[..], rep, depth) && |rep| == |sources|
        invariant OnlyConnected(sources, rep) && PairsMerged(sources, rep, left, right)
        invariant RelationsOf(sources, relations, left, right)
      {
        var reasons := ReasonsFor(sources[left], sources[right]);
        LinkedReasons(sources[left], sources[right]);
        if reasons != [] {
          var b := Root(parents, right, rep, depth);
          var a := Root(parents, left, rep, depth);
          RootsAreFixed(parents[..], rep, depth, left);
          RootsAreFixed(parents[..], rep, depth, right);
          LinkKeepsForest(parents[..], rep, depth, a, b);
          MergeStaysConnected(sources, rep, left, right);
          MergedPairs(sources, rep, left, right);
          ghost var linked := parents[..][a := b];
          parents[a] := b;
          assert parents[..] == linked;
          rep, depth := MergedRep(rep, a, b), MergedDepth(rep, depth, a, b);
        }
        NextPair(sources, relations, left, right);
        relations := relations + Relate(left, right, reasons);
      }
    }
    MergedIsConnected(sources, rep);
  }

  lemma RootsAreFixed(parents: seq<nat>, rep: seq<nat>, depth: seq<nat>, i: nat)
    requires Forest(parents, rep, depth) && i < |parents|
    ensures rep[i] < |parents| && rep[rep[i]] == rep[i]
  {
    assert NodeOk(parents, rep, depth, i);
  }

  lemma MergedPairs(sources: seq<Source>, rep: seq<nat>, left: nat, right: nat)
    requires PairsMerged(sources, rep, left, right) && right < left < |rep|
    ensures PairsMerged(sources, MergedRep(rep, rep[left], rep[right]), left, right + 1)
  {}

  lemma NextPair(sources: seq<Source>, relations: seq<Relation>, left: nat, right: nat)
    requires RelationsOf(sources, relations, left, right) && right < left < |sources|
    ensures RelationsOf(sources, relations + Relate(left, right, ReasonsFor(sources[left], sources[right])),
                        left, right + 1)
  {
    var reasons := ReasonsFor(sources[left], sources[right]);
    var more := Relate(left, right, reasons);
    forall r: Relation ensures r in more <==> (r.left == left && r.right == right && r.reason in reasons) {
      if r.left == left && r.right == right && r.reason in reasons {
        var k :| 0 <= k < |reasons| && reasons[k] == r.reason;
        assert more[k] == r;
      }
    }
  }

  // ---- the groups -------------------------------------------------------------------------------------

  ghost predicate Increasing(s: seq<nat>) {
    forall a, b | 0 <= a < b < |s| :: s[a] < s[b]
  }

  /** The buckets hold exactly the indexes below `n`, each under its representative, in order. */
  ghost predicate Bucketed(rep: seq<nat>, keys: seq<nat>, buckets: seq<seq<nat>>, n: nat) {
    && |keys| == |buckets| && n <= |rep|
    && (forall g, h | 0 <= g < h < |keys| :: keys[g] != keys[h])
    && (forall g | 0 <= g < |buckets| :: BucketOk(rep, keys[g], buckets[g], n))
    && (forall i | 0 <= i < n :: InSome(buckets, i))
    && (forall g, h | 0 <= g < h < |buckets| :: Precedes(buckets[g], buckets[h]))
  }

  /** The first member of `a` comes before the first member of `b`. */
  ghost predicate Precedes(a: seq<nat>, b: seq<nat>) {
    a != [] && b != [] && a[0] < b[0]
  }

  ghost predicate BucketOk(rep: seq<nat>, key: nat, bucket: seq<nat>, n: nat)
    requires n <= |rep|
  {
    bucket != [] && Increasing(bucket) && forall a | 0 <= a < |bucket| :: bucket[a] < n && rep[bucket[a]] == key
  }

  ghost predicate InSome(buckets: seq<seq<nat>>, i: nat) {
    exists g :: 0 <= g < |buckets| && i in buckets[g]
  }

  function IndexOf(keys: seq<nat>, k: nat): (i: nat)
    ensures i <= |keys| && (i < |keys| ==> keys[i] == k) && (i == |keys| ==> k !in keys)
  {
    if keys == [] || keys[0] == k then 0 else 1 + IndexOf(keys[1..], k)
  }

  lemma BucketAppend(rep: seq<nat>, keys: seq<nat>, buckets: seq<seq<nat>>, n: nat, g: nat)
    requires Bucketed(rep, keys, buckets, n) && n < |rep| && g < |keys| && keys[g] == rep[n]
    ensures Bucketed(rep, keys, buckets[g := buckets[g] + [n]], n + 1)
  {
    var b' := buckets[g := buckets[g] + [n]];
    assert BucketOk(rep, keys[g], buckets[g], n);
    assert forall h | 0 <= h < |buckets| :: BucketOk(rep, keys[h], buckets[h], n);
    assert BucketOk(rep, keys[g], b'[g], n + 1);
    forall i | 0 <= i < n + 1 ensures InSome(b', i) {
      if i < n {
        assert InSome(buckets, i);
        var h :| 0 <= h < |buckets| && i in buckets[h];
        assert i in b'[h];
      } else {
        assert n in b'[g];
      }
    }
  }

  lemma BucketNew(rep: seq<nat>, keys: seq<nat>, buckets: seq<seq<nat>>, n: nat)
    requires Bucketed(rep, keys, buckets, n) && n < |rep| && rep[n] !in keys
    ensures Bucketed(rep, keys + [rep[n]], buckets + [[n]], n + 1)
  {
    var b' := buckets + [[n]];
    assert forall h | 0 <= h < |buckets| :: BucketOk(rep, keys[h], buckets[h], n);
    assert BucketOk(rep, rep[n], b'[|buckets|], n + 1);
    forall i | 0 <= i < n + 1 ensures InSome(b', i) {
      if i < n {
        assert InSome(buckets, i);
        var h :| 0 <= h < |buckets| && i in buckets[h];
        assert i in b'[h];
      } else {
        assert n in b'[|buckets|];
      }
    }
  }

  method Bucket(parents: array<nat>, ghost rep: seq<nat>, ghost depth: seq<nat>)
    returns (buckets: seq<seq<nat>>, ghost keys: seq<nat>)
    requires Forest(parents[..], rep, depth)
    modifies parents
    ensures Bucketed(rep, keys, buckets, parents.Length)
  {
    var names: seq<nat> := [];
    buckets := [];
    for index := 0 to parents.Length
      invariant Forest(parents[..], rep, depth) && Bucketed(rep, names, buckets, index)
    {
      var r := Root(parents, index, rep, depth);
      var g := IndexOf(names, r);
      if g < |names| {
        BucketAppend(rep, names, buckets, index, g);
        buckets := buckets[g := buckets[g] + [index]];
      } else {
        BucketNew(rep, names, buckets, index);
        names, buckets := names + [r], buckets + [[index]];
      }
    }
    keys := names;
  }

  function Unique(reasons: seq<Reason>): (r: seq<Reason>)
    ensures forall x :: x in r <==> x in reasons
    ensures forall a, b | 0 <= a < b < |r| :: r[a] != r[b]
  {
    if reasons == [] then []
    else
      var init := Unique(reasons[..|reasons| - 1]);
      var last := reasons[|reasons| - 1];
      if last in init then init else init + [last]
  }

  function ReasonsWithin(relations: seq<Relation>, members: seq<nat>): (r: seq<Reason>)
    ensures forall x :: x in r <==>
              exists e :: e in relations && e.left in members && e.right in members && e.reason == x
  {
    if relations == [] then []
    else
      var init := ReasonsWithin(relations[..|relations| - 1], members);
      var last := relations[|relations| - 1];
      assert forall e :: e in relations <==> e in relations[..|relations| - 1] || e == last;
      if last.left in members && last.right in members then init + [last.reason] else init
  }

  function OriginsOf(sources: seq<Source>, members: seq<nat>): (r: set<string>)
    requires forall i | i in members :: i < |sources|
  {
    set i, url | i in members && url in sources[i].origins :: url
  }

  /** What a group says about its members. */
  ghost predicate Describes(sources: seq<Source>, g: OriginGroup, number: nat) {
    && g.id == number && g.independence == Unknown
    && (forall i | i in g.members :: i < |sources|)
    && (forall url :: url in g.origins <==> exists i :: i in g.members && i < |sources| && url in sources[i].origins)
    && (forall a, b | 0 <= a < b < |g.reasons| :: g.reasons[a] != g.reasons[b])
    && g.reasons != [] && g.reasons[|g.reasons| - 1] == IndependenceUnknown
    && (forall x :: x in g.reasons <==> x == IndependenceUnknown || exists u, v ::
          u in g.members && v in g.members && v < u < |sources| && x in ReasonsFor(sources[u], sources[v]))
  }

  /** The groups partition the sources by connectedness, in the order of their first members. */
  ghost predicate Partition(sources: seq<Source>, groups: seq<OriginGroup>) {
    && (forall g | 0 <= g < |groups| :: groups[g].members != [] && Increasing(groups[g].members))
    && (forall i | 0 <= i < |sources| :: Grouped(groups, i))
    && (forall g, h | 0 <= g < h < |groups| :: Precedes(groups[g].members, groups[h].members))
    && (forall g, h, i, j | 0 <= g < |groups| && 0 <= h < |groups| && i in groups[g].members
            && j in groups[h].members ::
          i < |sources| && j < |sources| && (g == h <==> Connected(sources, i, j)))
  }

  ghost predicate Grouped(groups: seq<OriginGroup>, i: nat) {
    exists g :: 0 <= g < |groups| && i in groups[g].members
  }

  /** Group the sources: two share a group exactly when a chain of equal body hashes or shared links
      connects them, and no group ever claims independence. */
  method GroupOrigins(sources: seq<Source>) returns (groups: seq<OriginGroup>)
    ensures Partition(sources, groups)
    ensures forall g | 0 <= g < |groups| :: Describes(sources, groups[g], g + 1)
  {
    var parents := new nat[|sources|](i => i);
    var relations, rep, depth := MergeAll(sources, parents);
    var buckets, keys := Bucket(parents, rep, depth);
    groups := [];
    for k := 0 to |buckets|
      invariant |groups| == k && forall g | 0 <= g < k :: groups[g].members == buckets[g]
      invariant forall g | 0 <= g < k :: Describes(sources, groups[g], g + 1)
    {
      var members := buckets[k];
      assert BucketOk(rep, keys[k], members, |sources|);
      var reasons := Unique(ReasonsWithin(relations, members) + [IndependenceUnknown]);
      var g := OriginGroup(k + 1, members, OriginsOf(sources, members), reasons, Unknown);
      DescribesNext(sources, relations, members, g, k + 1);
      groups := groups + [g];
    }
    PartitionFromBuckets(sources, rep, keys, buckets, groups);
  }

  lemma DescribesNext(sources: seq<Source>, relations: seq<Relation>, members: seq<nat>, g: OriginGroup, number: nat)
    requires RelationsOf(sources, relations, |sources|, 0) && forall i | i in members :: i < |sources|
    requires g == OriginGroup(number, members, OriginsOf(sources, members),
                              Unique(ReasonsWithin(relations, members) + [IndependenceUnknown]), Unknown)
    ensures Describes(sources, g, number)
  {
    var within := ReasonsWithin(relations, members);
    assert IndependenceUnknown !in within;
    assert (within + [IndependenceUnknown])[..|within|] == within;
    forall x ensures x in g.reasons <==> x == IndependenceUnknown || exists u, v ::
      u in members && v in members && v < u < |sources| && x in ReasonsFor(sources[u], sources[v])
    {
      if u, v :| u in members && v in members && v < u < |sources| && x in ReasonsFor(sources[u], sources[v]) {
        assert Relation(u, v, x) in relations;
      }
      if x in within {
        var e :| e in relations && e.left in members && e.right in members && e.reason == x;
      }
    }
  }

  lemma PartitionFromBuckets(sources: seq<Source>, rep: seq<nat>, keys: seq<nat>, buckets: seq<seq<nat>>,
                             groups: seq<OriginGroup>)
    requires |rep| == |sources| && Bucketed(rep, keys, buckets, |sources|)
    requires |groups| == |buckets| && forall g | 0 <= g < |groups| :: groups[g].members == buckets[g]
    requires forall i, j | 0 <= i < |rep| && 0 <= j < |rep| :: rep[i] == rep[j] <==> Connected(sources, i, j)
    ensures Partition(sources, groups)
  {
    forall i | 0 <= i < |sources| ensures Grouped(groups, i) {
      assert InSome(buckets, i);
      var g :| 0 <= g < |buckets| && i in buckets[g];
      assert i in groups[g].members;
    }
    forall g, h, i, j | 0 <= g < |groups| && 0 <= h < |groups| && i in groups[g].members && j in groups[h].members
      ensures i < |sources| && j < |sources| && (g == h <==> Connected(sources, i, j))
    {
      assert BucketOk(rep, keys[g], buckets[g], |sources|) && BucketOk(rep, keys[h], buckets[h], |sources|);
    }
  }
}
