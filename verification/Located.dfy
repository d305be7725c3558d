/** Which proposed quotations are found, and why the others are refused, told from the sources and their passages. */
module Located {
  import opened Options
  import opened Text
  import opened Quotes
  import opened Extraction

  type PassageId = (string, Option<nat>, nat)

  /** The one source of this name. */
  ghost predicate SoleSource(sources: seq<Source>, id: string, i: nat) {
    i < |sources| && sources[i].id == id && forall k | 0 <= k < |sources| && sources[k].id == id :: k == i
  }

  /** The one passage of this name in all the sources. */
  ghost predicate SolePassage(sources: seq<Source>, id: PassageId, i: nat, n: nat) {
    && i < |sources| && n < |sources[i].passages| && sources[i].passages[n].id == id
    && forall k, m | 0 <= k < |sources| && 0 <= m < |sources[k].passages| && sources[k].passages[m].id == id ::
         k == i && m == n
  }

  lemma {:induction false} SourceCount(sources: seq<Source>, id: string)
    ensures CountSources(sources, id) == 0 <==> forall k | 0 <= k < |sources| :: sources[k].id != id
    ensures CountSources(sources, id) == 1 <==> exists i: nat :: SoleSource(sources, id, i)
  {
    if sources != [] {
      var rest := sources[1..];
      SourceCount(rest, id);
      assert forall k | 0 <= k < |rest| :: rest[k] == sources[k + 1];
      if sources[0].id == id {
        if CountSources(rest, id) == 0 { assert SoleSource(sources, id, 0); }
        if i: nat :| SoleSource(sources, id, i) { NoneLater(sources, id, i); }
      } else {
        if i: nat :| SoleSource(rest, id, i) { assert SoleSource(sources, id, i + 1); }
        if i: nat :| SoleSource(sources, id, i) { assert SoleSource(rest, id, i - 1); }
      }
    }
  }

  lemma NoneLater(sources: seq<Source>, id: string, i: nat)
    requires SoleSource(sources, id, i) && sources[0].id == id
    ensures forall k | 0 <= k < |sources[1..]| :: sources[1..][k].id != id
  {
    forall k | 0 <= k < |sources[1..]| ensures sources[1..][k].id != id { assert sources[1..][k] == sources[k + 1]; }
  }

  ghost predicate SoleIn(ps: seq<Passage>, id: PassageId, n: nat) {
    n < |ps| && ps[n].id == id && forall m | 0 <= m < |ps| && ps[m].id == id :: m == n
  }

  lemma {:induction false} InCount(ps: seq<Passage>, id: PassageId)
    ensures CountIn(ps, id) == 0 <==> forall m | 0 <= m < |ps| :: ps[m].id != id
    ensures CountIn(ps, id) == 1 <==> exists n: nat :: SoleIn(ps, id, n)
  {
    if ps != [] {
      var rest := ps[1..];
      InCount(rest, id);
      assert forall k | 0 <= k < |rest| :: rest[k] == ps[k + 1];
      if ps[0].id == id {
        if CountIn(rest, id) == 0 { assert SoleIn(ps, id, 0); }
        if n: nat :| SoleIn(ps, id, n) { assert forall k | 0 <= k < |rest| :: rest[k].id != id; }
      } else {
        if n: nat :| SoleIn(rest, id, n) { assert SoleIn(ps, id, n + 1); }
        if n: nat :| SoleIn(ps, id, n) { assert SoleIn(rest, id, n - 1); }
      }
    }
  }

  lemma {:induction false} PassageCount(sources: seq<Source>, id: PassageId)
    ensures CountPassages(sources, id) == 0 <==>
              forall k, m | 0 <= k < |sources| && 0 <= m < |sources[k].passages| :: sources[k].passages[m].id != id
    ensures CountPassages(sources, id) == 1 <==> exists i: nat, n: nat :: SolePassage(sources, id, i, n)
  {
    if sources != [] {
      var rest := sources[1..];
      PassageCount(rest, id);
      InCount(sources[0].passages, id);
      assert forall k | 0 <= k < |rest| :: rest[k] == sources[k + 1];
      hide CountIn;
      if CountIn(sources[0].passages, id) == 1 && CountPassages(rest, id) == 0 {
        var n: nat :| SoleIn(sources[0].passages, id, n);
        assert SolePassage(sources, id, 0, n);
      }
      if CountIn(sources[0].passages, id) == 0 {
        if i: nat, n: nat :| SolePassage(rest, id, i, n) { assert SolePassage(sources, id, i + 1, n); }
      }
      if i: nat, n: nat :| SolePassage(sources, id, i, n) {
        if i > 0 { assert SolePassage(rest, id, i - 1, n); } else { assert SoleIn(sources[0].passages, id, n); }
      }
    }
  }

  lemma {:induction false} SourceFound(sources: seq<Source>, id: string, i: nat)
    requires SoleSource(sources, id, i)
    ensures FindSource(sources, id) == Some(sources[i])
  {
    if i > 0 {
      assert sources[0].id != id;
      assert SoleSource(sources[1..], id, i - 1);
      SourceFound(sources[1..], id, i - 1);
    }
  }

  lemma {:induction false} PassageFound(ps: seq<Passage>, id: PassageId, source: string)
    ensures FindPassage(ps, id, source).Some? <==> exists n :: 0 <= n < |ps| && ps[n].id == id && ps[n].source == source
  {
    if ps != [] && !(ps[0].id == id && ps[0].source == source) {
      PassageFound(ps[1..], id, source);
      if n :| 0 <= n < |ps| && ps[n].id == id && ps[n].source == source { assert ps[1..][n - 1] == ps[n]; }
    }
  }

  /** Passage `n` of source `i` is the one the proposal means, and was read. */
  ghost predicate Means(sources: seq<Source>, item: ProposedEvidence, i: nat, n: nat) {
    && SoleSource(sources, item.source, i) && sources[i].usable && SolePassage(sources, item.passage, i, n)
    && sources[i].passages[n].source == item.source && item.passage in sources[i].read
  }

  /** A quotation is found exactly if its source is the only one of its name and usable, its passage is the only one
      of its name, belongs to that source and was read, and the quotation stands in it. */
  lemma FoundExactly(sources: seq<Source>, item: ProposedEvidence, p: Passage, span: Span)
    ensures Locate(sources, item) == Ok((p, span)) <==>
              exists i: nat, n: nat :: Means(sources, item, i, n) && sources[i].passages[n] == p
                                       && QuoteSpan(p.text, item.quote) == Some(span)
  {
    SourceCount(sources, item.source);
    PassageCount(sources, item.passage);
    hide CountSources, CountPassages, QuoteSpan;
    if Locate(sources, item) == Ok((p, span)) {
      var i: nat :| SoleSource(sources, item.source, i);
      SourceFound(sources, item.source, i);
      var k: nat, n: nat :| SolePassage(sources, item.passage, k, n);
      var m :| 0 <= m < |sources[i].passages| && sources[i].passages[m] == p;
      assert k == i && m == n;
      assert Means(sources, item, i, n);
    }
    if i: nat, n: nat :| Means(sources, item, i, n) && sources[i].passages[n] == p
                         && QuoteSpan(p.text, item.quote) == Some(span) {
      SourceFound(sources, item.source, i);
      PassageFound(sources[i].passages, item.passage, item.source);
      OnlyPassage(sources, item, i, n);
    }
  }

  lemma OnlyPassage(sources: seq<Source>, item: ProposedEvidence, i: nat, n: nat)
    requires SolePassage(sources, item.passage, i, n)
    ensures forall p | p in sources[i].passages && p.id == item.passage :: p == sources[i].passages[n]
  {}

  /** A name of no source, or of several, is refused as unknown, and no other. */
  lemma UnknownExactly(sources: seq<Source>, item: ProposedEvidence)
    ensures Locate(sources, item) == Err(UnknownSource) <==> forall i: nat :: !SoleSource(sources, item.source, i)
  {
    SourceCount(sources, item.source);
    hide CountSources, CountPassages, QuoteSpan;
    if i: nat :| SoleSource(sources, item.source, i) { SourceFound(sources, item.source, i); }
  }

  /** Of the source that is meant: not usable, or the passage's name is not that of one passage. */
  lemma UnusableExactly(sources: seq<Source>, item: ProposedEvidence, i: nat)
    requires SoleSource(sources, item.source, i)
    ensures Locate(sources, item) == Err(UnusableSource) <==> !sources[i].usable
    ensures Locate(sources, item) == Err(AmbiguousPassage) <==>
              sources[i].usable && forall k: nat, n: nat :: !SolePassage(sources, item.passage, k, n)
  {
    SourceCount(sources, item.source);
    PassageCount(sources, item.passage);
    SourceFound(sources, item.source, i);
    hide CountSources, CountPassages, QuoteSpan, FindPassage;
  }

  /** Of the passage that is meant: another source's, not read, or without the quotation. */
  lemma UnreadExactly(sources: seq<Source>, item: ProposedEvidence, i: nat, k: nat, n: nat)
    requires SoleSource(sources, item.source, i) && sources[i].usable && SolePassage(sources, item.passage, k, n)
    ensures var r, p := Locate(sources, item), sources[k].passages[n];
            var own := k == i && p.source == item.source;
            && (r == Err(ForeignPassage) <==> !own)
            && (r == Err(UnreadPassage) <==> own && item.passage !in sources[i].read)
            && (r == Err(NoSuchQuote) <==>
                  own && item.passage in sources[i].read && QuoteSpan(p.text, item.quote) == None)
  {
    SourceCount(sources, item.source);
    PassageCount(sources, item.passage);
    SourceFound(sources, item.source, i);
    PassageFound(sources[i].passages, item.passage, item.source);
    OnlyPassage(sources, item, k, n);
    hide CountSources, CountPassages, QuoteSpan, FindPassage;
    if m :| 0 <= m < |sources[i].passages| && sources[i].passages[m].id == item.passage
            && sources[i].passages[m].source == item.source {
      assert k == i && m == n;
    }
  }

  // ---- which proposals are kept ------------------------------------------------------------------------

  /** `at` lists, in ascending order, exactly the proposals that are found, or exactly those that are not. */
  ghost predicate Places(sources: seq<Source>, items: seq<ProposedEvidence>, at: seq<nat>, found: bool) {
    Ascends(at) && forall n: nat :: n in at <==> n < |items| && Locate(sources, items[n]).Ok? == found
  }

  predicate Ascends(at: seq<nat>) { forall k, m | 0 <= k < m < |at| :: at[k] < at[m] }

  lemma AscendsOn(at: seq<nat>, n: nat)
    requires Ascends(at) && forall m | m in at :: m < n
    ensures Ascends(at + [n])
  {
    assert forall k | 0 <= k < |at| :: at[k] in at;
  }

  lemma PlacesEnd(sources: seq<Source>, items: seq<ProposedEvidence>, at: seq<nat>, found: bool)
    requires items != [] && Places(sources, items[..|items| - 1], at, found)
    ensures var n := |items| - 1;
            Places(sources, items, if Locate(sources, items[n]).Ok? == found then at + [n] else at, found)
  {
    hide Locate, Ascends;
    var last := |items| - 1;
    var init := items[..last];
    AscendsOn(at, last);
    var now := if Locate(sources, items[last]).Ok? == found then at + [last] else at;
    forall n: nat ensures n in now <==> n < |items| && Locate(sources, items[n]).Ok? == found {
      if n < last { assert init[n] == items[n]; }
    }
  }

  /** Of the proposals of a claim, in their order, those that are found are kept. */
  lemma {:induction false} KeptExactly(sources: seq<Source>, items: seq<ProposedEvidence>) returns (kept: seq<nat>)
    ensures Places(sources, items, kept, true) && |Accepted(sources, items)| == |kept|
    ensures forall k | 0 <= k < |kept| :: kept[k] < |items| && Accepted(sources, items)[k] == items[kept[k]]
  {
    hide Locate, Places;
    kept := [];
    if items == [] {
      NoPlaces(sources, true);
    } else {
      var n := |items| - 1;
      kept := KeptExactly(sources, items[..n]);
      PlacesEnd(sources, items, kept, true);
      if Locate(sources, items[n]).Ok? { kept := kept + [n]; }
    }
  }

  /** All others are reported in their order, with the number of the claim and the reason. */
  lemma {:induction false} LeftExactly(sources: seq<Source>, claim: nat, items: seq<ProposedEvidence>)
    returns (left: seq<nat>)
    ensures Places(sources, items, left, false) && |Refused(sources, claim, items)| == |left|
    ensures forall k | 0 <= k < |left| ::
              && left[k] < |items| && Locate(sources, items[left[k]]).Err?
              && Refused(sources, claim, items)[k] ==
                 Problem(claim, items[left[k]], Locate(sources, items[left[k]]).error)
  {
    hide Locate, Places;
    left := [];
    if items == [] {
      NoPlaces(sources, false);
    } else {
      var n := |items| - 1;
      left := LeftExactly(sources, claim, items[..n]);
      PlacesEnd(sources, items, left, false);
      if Locate(sources, items[n]).Err? { left := left + [n]; }
    }
  }

  lemma NoPlaces(sources: seq<Source>, found: bool)
    ensures Places(sources, [], [], found)
  {}

  /** How many proposals of the first claims are not found. */
  function LeftOf(sources: seq<Source>, claims: seq<ProposedClaim>, n: nat): nat
    requires n <= |claims|
  {
    if n == 0 then 0 else LeftOf(sources, claims, n - 1) + |Refused(sources, n, claims[n - 1].evidence)|
  }

  /** The reports of all claims stand one after the other, under the number of their claim. */
  lemma {:induction false} ReportsExactly(sources: seq<Source>, claims: seq<ProposedClaim>, i: nat, n: nat)
    requires i < n <= |claims|
    ensures var all, from := AllRefused(sources, claims, n), LeftOf(sources, claims, i);
            && |all| == LeftOf(sources, claims, n) && from <= LeftOf(sources, claims, i + 1) <= |all|
            && all[from..LeftOf(sources, claims, i + 1)] == Refused(sources, i + 1, claims[i].evidence)
  {
    hide Refused;
    if i + 1 < n {
      ReportsExactly(sources, claims, i, n - 1);
    } else {
      ReportsSize(sources, claims, i);
    }
  }

  lemma {:induction false} ReportsSize(sources: seq<Source>, claims: seq<ProposedClaim>, n: nat)
    requires n <= |claims|
    ensures |AllRefused(sources, claims, n)| == LeftOf(sources, claims, n)
  {
    hide Refused;
    if n > 0 { ReportsSize(sources, claims, n - 1); }
  }
}
