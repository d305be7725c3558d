/** What ties sources together and what their groups report, told from hashes and addresses. */
module Ties {
  import opened Options
  import opened Origins

  /** The same known body, or an address or declared origin in common. */
  ghost predicate Tied(a: Source, b: Source) {
    || (a.bodyHash != "" && a.bodyHash == b.bodyHash)
    || exists url :: (url in a.addresses || url in a.origins) && (url in b.addresses || url in b.origins)
  }

  lemma TiedExactly(a: Source, b: Source)
    ensures Linked(a, b) <==> Tied(a, b)
  {
    if url :| (url in a.addresses || url in a.origins) && (url in b.addresses || url in b.origins) {
      assert url in Links(a) * Links(b);
    }
    if Links(a) * Links(b) != {} {
      var url :| url in Links(a) * Links(b);
    }
  }

  /** A walk from one source to another along ties. */
  ghost predicate Walk(sources: seq<Source>, i: nat, j: nat, path: seq<nat>) {
    && path != [] && path[0] == i && path[|path| - 1] == j
    && (forall k | 0 <= k < |path| :: path[k] < |sources|)
    && forall k, n | 0 <= k < |path| - 1 && n == k + 1 :: Tied(sources[path[k]], sources[path[n]])
  }

  lemma {:induction false} WalkExactly(sources: seq<Source>, path: seq<nat>)
    requires path != []
    ensures Chain(sources, path) <==> Walk(sources, path[0], path[|path| - 1], path)
  {
    if |path| > 1 {
      WalkExactly(sources, path[1..]);
      if path[0] < |sources| && path[1] < |sources| { TiedExactly(sources[path[0]], sources[path[1]]); }
      hide Tied, Linked;
      assert forall k | 0 <= k < |path| - 1 :: path[1..][k] == path[k + 1];
      if Walk(sources, path[0], path[|path| - 1], path) {
        forall k, n | 0 <= k < |path[1..]| - 1 && n == k + 1
          ensures Tied(sources[path[1..][k]], sources[path[1..][n]])
        {
          assert Tied(sources[path[k + 1]], sources[path[n + 1]]);
        }
      }
      if Chain(sources, path) {
        forall k, n | 0 <= k < |path| - 1 && n == k + 1 ensures Tied(sources[path[k]], sources[path[n]]) {
          if k > 0 { assert Tied(sources[path[1..][k - 1]], sources[path[1..][n - 1]]); }
        }
      }
    }
  }

  /** Two sources are in one group exactly if a walk along ties leads from one to the other. */
  lemma TogetherExactly(sources: seq<Source>, groups: seq<OriginGroup>, i: nat, j: nat)
    requires Partition(sources, groups) && i < |sources| && j < |sources|
    ensures (exists g :: 0 <= g < |groups| && i in groups[g].members && j in groups[g].members)
            <==> exists path :: Walk(sources, i, j, path)
  {
    assert Grouped(groups, i) && Grouped(groups, j);
    var g :| 0 <= g < |groups| && i in groups[g].members;
    var h :| 0 <= h < |groups| && j in groups[h].members;
    assert g == h <==> Connected(sources, i, j);
    hide Partition, Tied, Linked;
    if path :| Walk(sources, i, j, path) {
      WalkExactly(sources, path);
      assert ChainFrom(sources, i, j, path);
    }
    if Connected(sources, i, j) {
      var path :| ChainFrom(sources, i, j, path);
      WalkExactly(sources, path);
    }
  }

  /** The addresses two sources have in common. */
  function Common(a: Source, b: Source): set<string> { (a.addresses + a.origins) * (b.addresses + b.origins) }

  /** What a group reports: its number, the origins its members declare, each reason once (the same body, or the very
      addresses two members have in common), and last that nothing is known of independence. */
  lemma ReportExactly(sources: seq<Source>, g: OriginGroup, number: nat)
    requires Describes(sources, g, number)
    ensures g.id == number && g.independence == Unknown
    ensures g.reasons != [] && g.reasons[|g.reasons| - 1] == IndependenceUnknown
    ensures forall a, b | 0 <= a < b < |g.reasons| :: g.reasons[a] != g.reasons[b]
    ensures forall url :: url in g.origins <==> exists i :: i in g.members && i < |sources| && url in sources[i].origins
    ensures SameBody in g.reasons <==>
              exists u, v :: u in g.members && v in g.members && v < u < |sources|
                             && sources[u].bodyHash != "" && sources[u].bodyHash == sources[v].bodyHash
    ensures forall links :: SharedLinks(links) in g.reasons <==>
              links != {} && exists u, v :: u in g.members && v in g.members && v < u < |sources|
                                            && links == Common(sources[u], sources[v])
  {
    forall u, v | 0 <= v < u < |sources| ensures ReasonsTold(sources[u], sources[v]) {
      ReasonsExactly(sources[u], sources[v]);
    }
    forall links ensures SharedLinks(links) in g.reasons <==>
                           links != {} && exists u, v :: u in g.members && v in g.members && v < u < |sources|
                                                         && links == Common(sources[u], sources[v])
    {
      hide ReasonsFor, Common;
    }
    hide ReasonsFor;
  }

  ghost predicate ReasonsTold(a: Source, b: Source) {
    && (SameBody in ReasonsFor(a, b) <==> a.bodyHash != "" && a.bodyHash == b.bodyHash)
    && (forall links :: SharedLinks(links) in ReasonsFor(a, b) <==> links != {} && links == Common(a, b))
    && IndependenceUnknown !in ReasonsFor(a, b)
  }

  lemma ReasonsExactly(a: Source, b: Source)
    ensures ReasonsTold(a, b)
  {}
}
