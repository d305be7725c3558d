/** What a review decides about a claim, told from the claims, the items of its check and the groups of its sources. */
module Verdicts {
  import opened Options
  import opened Review

  // ---- identifiers -----------------------------------------------------------------------------------

  /** The name stands in the list at this place only. */
  predicate OnlyAt(names: seq<string>, name: string, n: nat) {
    n < |names| && names[n] == name && forall m | 0 <= m < |names| && names[m] == name :: m == n
  }

  ghost predicate Once(names: seq<string>, name: string) { exists n :: OnlyAt(names, name, n) }

  function ClaimNames(cs: seq<Claim>): seq<string> { seq(|cs|, i requires 0 <= i < |cs| => cs[i].id) }

  function EvidenceNames(es: seq<Evidence>): seq<string> { seq(|es|, i requires 0 <= i < |es| => es[i].id) }

  function CheckNames(ks: seq<Check>): seq<string> { seq(|ks|, i requires 0 <= i < |ks| => ks[i].claim) }

  /** One claim lists the evidence, and once. */
  ghost predicate OneLists(cs: seq<Claim>, id: string) {
    exists i: nat :: i < |cs| && Once(cs[i].evidenceIds, id) && forall k | 0 <= k < |cs| && k != i ::
      id !in cs[k].evidenceIds
  }

  lemma {:induction false} CountOf(names: seq<string>, name: string)
    ensures multiset(names)[name] == 0 <==> name !in names
    ensures multiset(names)[name] == 1 <==> Once(names, name)
  {
    if names != [] {
      var rest := names[1..];
      CountOf(rest, name);
      assert names == [names[0]] + rest;
      if names[0] == name {
        if name !in rest { assert OnlyAt(names, name, 0); }
        if n: nat :| OnlyAt(names, name, n) { NotLater(names, name, n); }
      } else {
        if n: nat :| OnlyAt(rest, name, n) { assert OnlyAt(names, name, n + 1); }
        if n: nat :| OnlyAt(names, name, n) { EarlierOnly(names, name, n); }
      }
    }
  }

  lemma NotLater(names: seq<string>, name: string, n: nat)
    requires OnlyAt(names, name, n) && names[0] == name
    ensures name !in names[1..]
  {
    forall k | 0 <= k < |names[1..]| ensures names[1..][k] != name { assert names[k + 1] == names[1..][k]; }
  }

  lemma EarlierOnly(names: seq<string>, name: string, n: nat)
    requires OnlyAt(names, name, n) && names[0] != name
    ensures n > 0 && OnlyAt(names[1..], name, n - 1)
  {
    forall k | 0 <= k < |names[1..]| && names[1..][k] == name ensures k == n - 1 { assert names[k + 1] == name; }
  }

  lemma {:induction false} ClaimCount(cs: seq<Claim>)
    ensures ClaimIds(cs) == multiset(ClaimNames(cs))
  {
    if cs != [] {
      ClaimCount(cs[1..]);
      assert ClaimNames(cs) == [cs[0].id] + ClaimNames(cs[1..]);
    }
  }

  lemma {:induction false} EvidenceCount(es: seq<Evidence>)
    ensures EvidenceIds(es) == multiset(EvidenceNames(es))
  {
    if es != [] {
      EvidenceCount(es[1..]);
      assert EvidenceNames(es) == [es[0].id] + EvidenceNames(es[1..]);
    }
  }

  lemma {:induction false} CheckCount(ks: seq<Check>)
    ensures CheckIds(ks) == multiset(CheckNames(ks))
  {
    if ks != [] {
      CheckCount(ks[1..]);
      assert CheckNames(ks) == [ks[0].claim] + CheckNames(ks[1..]);
    }
  }

  lemma {:induction false} ListingCount(cs: seq<Claim>, id: string)
    ensures Owners(cs)[id] == 0 <==> forall k | 0 <= k < |cs| :: id !in cs[k].evidenceIds
    ensures Owners(cs)[id] == 1 <==> OneLists(cs, id)
  {
    if cs != [] {
      var rest := cs[1..];
      ListingCount(rest, id);
      CountOf(cs[0].evidenceIds, id);
      assert forall k | 0 <= k < |rest| :: rest[k] == cs[k + 1];
      hide Once;
      var here := cs[0].evidenceIds;
      if id !in here {
        if i: nat :| i < |rest| && Once(rest[i].evidenceIds, id)
                     && forall k | 0 <= k < |rest| && k != i :: id !in rest[k].evidenceIds {
          assert Once(cs[i + 1].evidenceIds, id);
        }
      }
      if i: nat :| i < |cs| && Once(cs[i].evidenceIds, id) && forall k | 0 <= k < |cs| && k != i ::
        id !in cs[k].evidenceIds {
        OnceIn(cs[i].evidenceIds, id);
        if i > 0 { assert Once(rest[i - 1].evidenceIds, id); }
      }
    }
  }

  lemma OnceIn(names: seq<string>, name: string)
    requires Once(names, name)
    ensures name in names
  {}

  // ---- which checks are taken ------------------------------------------------------------------------

  /** `k` is the one check of the claim, no check names an unknown claim or one twice, the claim is the only one of its
      name, and the check's items are its evidence: each item's evidence known once, listed by this claim alone. */
  ghost predicate TakenWith(inp: Inputs, c: Claim, k: Check) {
    && (forall i | 0 <= i < |inp.checks| ::
          inp.checks[i].claim in ClaimNames(inp.claims) && Once(CheckNames(inp.checks), inp.checks[i].claim))
    && Once(ClaimNames(inp.claims), c.id)
    && k in inp.checks && k.claim == c.id
    && (forall i, j | 0 <= i < j < |k.items| :: k.items[i].evidence != k.items[j].evidence)
    && (forall i, j | 0 <= i < j < |c.evidenceIds| :: c.evidenceIds[i] != c.evidenceIds[j])
    && (forall x | x in k.items :: x.evidence in c.evidenceIds)
    && (forall id | id in c.evidenceIds :: exists x :: x in k.items && x.evidence == id)
    && (forall x | x in k.items :: Once(EvidenceNames(inp.evidence), x.evidence) && OneLists(inp.claims, x.evidence))
    && (c.evidenceIds == [] ==> k.status == Inference)
  }

  lemma {:induction false} FoundCheck(ks: seq<Check>, id: string)
    ensures FindCheck(ks, id).Some? ==> FindCheck(ks, id).value in ks && FindCheck(ks, id).value.claim == id
    ensures id in CheckNames(ks) ==> FindCheck(ks, id).Some?
  {
    if ks != [] {
      FoundCheck(ks[1..], id);
      assert CheckNames(ks) == [ks[0].claim] + CheckNames(ks[1..]);
    }
  }

  lemma OneOf(ks: seq<Check>, a: Check, b: Check)
    requires a in ks && b in ks && a.claim == b.claim && Once(CheckNames(ks), a.claim)
    ensures a == b
  {
    var i :| 0 <= i < |ks| && ks[i] == a;
    var j :| 0 <= j < |ks| && ks[j] == b;
    assert CheckNames(ks)[i] == a.claim && CheckNames(ks)[j] == a.claim;
  }

  lemma CheckOfExactly(ks: seq<Check>, id: string)
    ensures CheckOf(ks, id).Some? <==> Once(CheckNames(ks), id)
    ensures CheckOf(ks, id).Some? ==> CheckOf(ks, id).value in ks && CheckOf(ks, id).value.claim == id
  {
    CheckCount(ks);
    CountOf(CheckNames(ks), id);
    FoundCheck(ks, id);
    if Once(CheckNames(ks), id) { OnceIn(CheckNames(ks), id); }
    hide Once, CheckNames, FindCheck;
  }

  lemma KnownExactly(inp: Inputs)
    ensures ChecksKnown(inp) <==> forall i | 0 <= i < |inp.checks| ::
              inp.checks[i].claim in ClaimNames(inp.claims) && Once(CheckNames(inp.checks), inp.checks[i].claim)
  {
    CheckCount(inp.checks);
    ClaimCount(inp.claims);
    hide Once;
    forall k | k in inp.checks ensures CheckIds(inp.checks)[k.claim] == 1 <==> Once(CheckNames(inp.checks), k.claim) {
      CountOf(CheckNames(inp.checks), k.claim);
    }
    assert forall i | 0 <= i < |inp.checks| :: inp.checks[i] in inp.checks;
  }

  lemma CoversExactly(inp: Inputs, c: Claim, k: Check)
    ensures Covers(inp, c, k) <==>
              && (forall i, j | 0 <= i < j < |k.items| :: k.items[i].evidence != k.items[j].evidence)
              && (forall i, j | 0 <= i < j < |c.evidenceIds| :: c.evidenceIds[i] != c.evidenceIds[j])
              && (forall x | x in k.items :: x.evidence in c.evidenceIds)
              && (forall id | id in c.evidenceIds :: exists x :: x in k.items && x.evidence == id)
              && (forall x | x in k.items ::
                    Once(EvidenceNames(inp.evidence), x.evidence) && OneLists(inp.claims, x.evidence))
  {
    hide Once, OneLists;
    EvidenceCount(inp.evidence);
    var ids := ItemIds(k.items);
    forall x: Item | x in k.items
      ensures x.evidence in ids
      ensures EvidenceIds(inp.evidence)[x.evidence] == 1 <==> Once(EvidenceNames(inp.evidence), x.evidence)
      ensures Owners(inp.claims)[x.evidence] == 1 <==> OneLists(inp.claims, x.evidence)
    {
      CountOf(EvidenceNames(inp.evidence), x.evidence);
      ListingCount(inp.claims, x.evidence);
      var n :| 0 <= n < |k.items| && k.items[n] == x;
      assert ids[n] == x.evidence;
    }
    forall id | id in ids ensures exists x :: x in k.items && x.evidence == id {
      var n :| 0 <= n < |ids| && ids[n] == id;
      assert k.items[n] in k.items;
    }
    hide ItemIds, EvidenceIds, Owners, EvidenceNames;
  }

  lemma TakenExactly(inp: Inputs, c: Claim)
    ensures Accepted(inp, c) <==> exists k :: TakenWith(inp, c, k)
    ensures Accepted(inp, c) ==> CheckOf(inp.checks, c.id).Some?
    ensures forall k | TakenWith(inp, c, k) :: CheckOf(inp.checks, c.id) == Some(k)
  {
    CheckOfExactly(inp.checks, c.id);
    KnownExactly(inp);
    ClaimCount(inp.claims);
    CountOf(ClaimNames(inp.claims), c.id);
    var k := CheckOf(inp.checks, c.id);
    if k.Some? { CoversExactly(inp, c, k.value); }
    hide Covers, ChecksKnown, CheckOf, ClaimIds, Once, OneLists, ClaimNames, CheckNames, EvidenceNames;
    if k.Some? && Accepted(inp, c) {
      assert TakenWith(inp, c, k.value);
    }
    forall x | TakenWith(inp, c, x) ensures k == Some(x) && Accepted(inp, c) {
      TakenIs(inp, c, x);
      OneOf(inp.checks, x, k.value);
    }
  }

  lemma TakenIs(inp: Inputs, c: Claim, k: Check)
    requires TakenWith(inp, c, k)
    ensures k in inp.checks && k.claim == c.id && Once(CheckNames(inp.checks), c.id)
  {
    hide Once;
    var i :| 0 <= i < |inp.checks| && inp.checks[i] == k;
  }

  // ---- what counts -----------------------------------------------------------------------------------

  /** The claim states a number of some unit that the quote does not, while the quote has one of that unit that only
      differs by decimals; or it compares more strongly than the quote. */
  predicate AtOdds(read: Reader, claim: string, quote: string) {
    var c, q := read(claim), read(quote);
    || (exists x, y | x in c.quantities && y in q.quantities ::
          && x !in q.quantities && x.1 == y.1 && x.0 != y.0
          && (|| (|x.0| < |y.0| && y.0[..|x.0|] == x.0 && y.0[|x.0|] == '.')
              || (|y.0| < |x.0| && x.0[..|y.0|] == y.0 && x.0[|y.0|] == '.')))
    || (c.comparison > 0 && c.comparison > q.comparison)
  }

  lemma AtOddsExactly(read: Reader, claim: string, quote: string)
    ensures Conflicts(read, claim, quote) <==> AtOdds(read, claim, quote)
  {
    forall a: string, b: string ensures a + "." <= b <==> |a| < |b| && b[..|a|] == a && b[|a|] == '.' {
      PointPrefix(a, b);
    }
  }

  lemma PointPrefix(a: string, b: string)
    ensures a + "." <= b <==> |a| < |b| && b[..|a|] == a && b[|a|] == '.'
  {
    if a + "." <= b { assert b[..|a|] == (a + ".")[..|a|] && b[|a|] == (a + ".")[|a|]; }
    if |a| < |b| && b[..|a|] == a && b[|a|] == '.' { assert b[..|a| + 1] == a + "."; }
  }

  /** The evidence an item names. */
  ghost predicate Names(inp: Inputs, x: Item, e: Evidence) { e in inp.evidence && e.id == x.evidence }

  /** An item for the claim: it supports, under the claim's conditions, and its quote is not at odds. */
  ghost predicate For(inp: Inputs, read: Reader, c: Claim, x: Item) {
    && x.conditionsMatch && x.relation == Supports
    && forall e | Names(inp, x, e) :: !AtOdds(read, c.text, e.quote)
  }

  ghost predicate Against(x: Item) { x.conditionsMatch && x.relation == Contradicts }

  lemma {:induction false} FoundEvidence(es: seq<Evidence>, id: string)
    requires Once(EvidenceNames(es), id)
    ensures FindEvidence(es, id) < |es|
    ensures forall e | e in es && e.id == id :: e == es[FindEvidence(es, id)]
  {
    var names := EvidenceNames(es);
    var n: nat :| OnlyAt(names, id, n);
    assert names[n] == es[n].id;
    var f := FindEvidence(es, id);
    assert f < |es|;
    assert names[f] == id;
    forall e | e in es && e.id == id ensures e == es[f] {
      var k :| 0 <= k < |es| && es[k] == e;
      assert names[k] == id;
    }
  }

  lemma ForExactly(inp: Inputs, read: Reader, c: Claim, k: Check, x: Item)
    requires TakenWith(inp, c, k) && x in k.items
    ensures CountsFor(inp, read, c, x) <==> For(inp, read, c, x)
    ensures CountsAgainst(x) <==> Against(x)
  {
    FoundEvidence(inp.evidence, x.evidence);
    var e := inp.evidence[FindEvidence(inp.evidence, x.evidence)];
    assert Names(inp, x, e);
    AtOddsExactly(read, c.text, e.quote);
    hide AtOdds, Conflicts, Once, OneLists;
  }

  // ---- groups ----------------------------------------------------------------------------------------

  /** The source is listed once in all the groups, in this one, whose number is its own and which is confirmed. */
  ghost predicate Vouches(gs: seq<Group>, source: string, g: Group) {
    && g in gs && g.independence.Confirmed?
    && (exists i: nat :: i < |gs| && gs[i] == g && Once(g.sources, source)
                         && (forall k | 0 <= k < |gs| && k != i :: source !in gs[k].sources && gs[k].id != g.id))
  }

  lemma {:induction false} ListingsCount(g: Group, sources: seq<string>, source: string)
    ensures |Listings(g, sources, source)| == multiset(sources)[source]
    ensures forall x | x in Listings(g, sources, source) :: x == g
  {
    if sources != [] {
      ListingsCount(g, sources[1..], source);
      assert sources == [sources[0]] + sources[1..];
    }
  }

  lemma MembershipsStep(gs: seq<Group>, source: string)
    requires gs != []
    ensures Memberships(gs, source) == Listings(gs[0], gs[0].sources, source) + Memberships(gs[1..], source)
    ensures source !in gs[0].sources ==> Memberships(gs, source) == Memberships(gs[1..], source)
    ensures Once(gs[0].sources, source) && Memberships(gs[1..], source) == [] ==> Memberships(gs, source) == [gs[0]]
    ensures |Memberships(gs, source)| == multiset(gs[0].sources)[source] + |Memberships(gs[1..], source)|
  {
    ListingsCount(gs[0], gs[0].sources, source);
    CountOf(gs[0].sources, source);
    hide Listings, Once;
    var l := Listings(gs[0], gs[0].sources, source);
    if |l| == 1 { assert l[0] in l && l == [gs[0]]; }
  }

  lemma {:induction false} MembershipsNone(gs: seq<Group>, source: string)
    ensures Memberships(gs, source) == [] <==> forall k | 0 <= k < |gs| :: source !in gs[k].sources
  {
    if gs != [] {
      MembershipsStep(gs, source);
      MembershipsNone(gs[1..], source);
      NoneNext(gs, source);
      CountOf(gs[0].sources, source);
      hide *;
    }
  }

  lemma NoneNext(gs: seq<Group>, source: string)
    requires gs != []
    ensures (forall k | 0 <= k < |gs| :: source !in gs[k].sources)
            <==> source !in gs[0].sources && forall k | 0 <= k < |gs[1..]| :: source !in gs[1..][k].sources
  {
    assert forall k | 0 <= k < |gs[1..]| :: gs[1..][k] == gs[k + 1];
  }

  lemma {:induction false} MembershipsAt(gs: seq<Group>, source: string, i: nat)
    requires ListedIn(gs, source, i)
    ensures Memberships(gs, source) == [gs[i]]
  {
    var rest := gs[1..];
    MembershipsStep(gs, source);
    MembershipsNone(rest, source);
    OnceIn(gs[i].sources, source);
    assert forall k | 0 <= k < |rest| :: rest[k] == gs[k + 1];
    hide Memberships, Once;
    if i > 0 { MembershipsAt(rest, source, i - 1); }
  }

  lemma {:induction false} MembershipsOne(gs: seq<Group>, source: string)
    requires |Memberships(gs, source)| == 1
    ensures exists i: nat :: ListedIn(gs, source, i)
  {
    var rest := gs[1..];
    MembershipsStep(gs, source);
    MembershipsNone(rest, source);
    CountOf(gs[0].sources, source);
    assert forall k | 0 <= k < |rest| :: rest[k] == gs[k + 1];
    hide Memberships, Once;
    if source in gs[0].sources {
      assert ListedIn(gs, source, 0);
    } else {
      MembershipsOne(rest, source);
      var i: nat :| ListedIn(rest, source, i);
      assert ListedIn(gs, source, i + 1);
    }
  }

  ghost predicate ListedIn(gs: seq<Group>, source: string, i: nat) {
    i < |gs| && Once(gs[i].sources, source) && forall k | 0 <= k < |gs| && k != i :: source !in gs[k].sources
  }

  predicate OnlyNumber(gs: seq<Group>, i: nat) {
    i < |gs| && forall k | 0 <= k < |gs| && k != i :: gs[k].id != gs[i].id
  }

  lemma {:induction false} NumberCount(gs: seq<Group>, i: nat)
    requires i < |gs|
    ensures GroupIds(gs)[gs[i].id] == 1 <==> OnlyNumber(gs, i)
  {
    var rest := gs[1..];
    if i == 0 {
      NumberMissing(rest, gs[0].id);
      assert forall k | 0 <= k < |rest| :: rest[k] == gs[k + 1];
    } else {
      NumberCount(rest, i - 1);
      NumberMissing(rest, gs[i].id);
      assert rest[i - 1] == gs[i];
      assert forall k | 0 <= k < |rest| :: rest[k] == gs[k + 1];
    }
  }

  lemma {:induction false} NumberMissing(gs: seq<Group>, id: nat)
    ensures GroupIds(gs)[id] == 0 <==> forall k | 0 <= k < |gs| :: gs[k].id != id
  {
    if gs != [] {
      NumberMissing(gs[1..], id);
      assert forall k | 0 <= k < |gs[1..]| :: gs[1..][k] == gs[k + 1];
    }
  }

  lemma ConfirmedExactly(gs: seq<Group>, source: string)
    ensures forall n :: n in ConfirmedGroup(gs, source) <==> exists g: Group :: g.id == n && Vouches(gs, source, g)
  {
    if |Memberships(gs, source)| == 1 { MembershipsOne(gs, source); }
    hide Memberships, Once;
    forall n ensures n in ConfirmedGroup(gs, source) <==> exists g: Group :: g.id == n && Vouches(gs, source, g) {
      if n in ConfirmedGroup(gs, source) {
        var i: nat :| ListedIn(gs, source, i);
        MembershipsAt(gs, source, i);
        NumberCount(gs, i);
        assert gs[i].id == n && Vouches(gs, source, gs[i]);
      }
      if g: Group :| g.id == n && Vouches(gs, source, g) {
        var i: nat :| i < |gs| && gs[i] == g && Once(g.sources, source)
                      && (forall k | 0 <= k < |gs| && k != i :: source !in gs[k].sources && gs[k].id != g.id);
        assert ListedIn(gs, source, i);
        MembershipsAt(gs, source, i);
        NumberCount(gs, i);
      }
    }
  }

  /** Some item for the claim is vouched for by the group with this number. */
  ghost predicate Confirms(inp: Inputs, read: Reader, c: Claim, k: Check, n: nat) {
    exists x: Item, e: Evidence, g: Group :: x in k.items && For(inp, read, c, x) && Names(inp, x, e) && g.id == n
                      && Vouches(inp.groups, e.source, g)
  }

  lemma {:induction false} ConfirmedFrom(inp: Inputs, read: Reader, c: Claim, items: seq<Item>, n: nat)
    ensures n in ConfirmedGroups(inp, read, c, items)
            <==> exists x :: x in items && CountsFor(inp, read, c, x)
                             && n in ConfirmedGroup(inp.groups, SourceOf(inp, x.evidence))
  {
    if items != [] {
      ConfirmedFrom(inp, read, c, items[1..], n);
      assert forall x :: x in items <==> x == items[0] || x in items[1..];
      hide CountsFor, ConfirmedGroup, SourceOf;
    }
  }

  lemma ConfirmsExactly(inp: Inputs, read: Reader, c: Claim, k: Check, n: nat)
    requires TakenWith(inp, c, k)
    ensures n in ConfirmedGroups(inp, read, c, k.items) <==> Confirms(inp, read, c, k, n)
  {
    ConfirmedFrom(inp, read, c, k.items, n);
    forall x: Item | x in k.items
      ensures CountsFor(inp, read, c, x) <==> For(inp, read, c, x)
      ensures n in ConfirmedGroup(inp.groups, SourceOf(inp, x.evidence))
              <==> exists e: Evidence, g: Group :: Names(inp, x, e) && g.id == n && Vouches(inp.groups, e.source, g)
    {
      ForExactly(inp, read, c, k, x);
      TakenNames(inp, c, k, x);
      ConfirmedExactly(inp.groups, SourceOf(inp, x.evidence));
      hide TakenWith, CountsFor, ConfirmedGroup, For, Vouches;
      if exists g: Group :: g.id == n && Vouches(inp.groups, SourceOf(inp, x.evidence), g) {
        assert Names(inp, x, inp.evidence[FindEvidence(inp.evidence, x.evidence)]);
      }
    }
    hide TakenWith, CountsFor, ConfirmedGroup, ConfirmedGroups, For, Vouches, Names;
  }

  lemma TakenNames(inp: Inputs, c: Claim, k: Check, x: Item)
    requires TakenWith(inp, c, k) && x in k.items
    ensures FindEvidence(inp.evidence, x.evidence) < |inp.evidence|
    ensures Names(inp, x, inp.evidence[FindEvidence(inp.evidence, x.evidence)])
    ensures forall e | Names(inp, x, e) :: e == inp.evidence[FindEvidence(inp.evidence, x.evidence)]
  {
    hide OneLists;
    FoundEvidence(inp.evidence, x.evidence);
  }

  lemma {:induction false} TwoMembers(a: set<nat>)
    ensures |a| >= 2 <==> exists m, n :: m in a && n in a && m != n
  {
    if |a| >= 2 {
      var m :| m in a;
      assert a - {m} != {};
      var n :| n in a - {m};
      assert m in a && n in a && m != n;
    }
    if m, n :| m in a && n in a && m != n { assert |a - {m}| > 0; }
  }

  // ---- verdicts --------------------------------------------------------------------------------------

  ghost predicate SomeFor(inp: Inputs, read: Reader, c: Claim, k: Check) {
    exists x :: x in k.items && For(inp, read, c, x)
  }

  ghost predicate SomePrimary(inp: Inputs, read: Reader, c: Claim, k: Check) {
    exists x :: x in k.items && For(inp, read, c, x) && x.primary
  }

  ghost predicate SomeAgainst(k: Check) { exists x :: x in k.items && Against(x) }

  ghost predicate TwoConfirm(inp: Inputs, read: Reader, c: Claim, k: Check) {
    exists m, n :: m != n && Confirms(inp, read, c, k, m) && Confirms(inp, read, c, k, n)
  }

  /** The last claim of that name is supported and has evidence. */
  ghost predicate Rests(inp: Inputs, read: Reader, ref: string) {
    exists i: nat :: i < |inp.claims| && inp.claims[i].id == ref && (forall j | i < j < |inp.claims| ::
      inp.claims[j].id != ref)
                     && inp.claims[i].evidenceIds != []
                     && Final(inp, read, inp.claims[i]).status in {SupportedPrimary, Corroborated}
  }

  /** What the inference names: something, nothing twice, not the claim itself, and only supported claims. */
  ghost predicate Sound(inp: Inputs, read: Reader, c: Claim, refs: seq<string>) {
    && refs != [] && (forall i, j | 0 <= i < j < |refs| :: refs[i] != refs[j]) && c.id !in refs
    && forall ref | ref in refs :: Rests(inp, read, ref)
  }

  lemma FlagsExactly(inp: Inputs, read: Reader, c: Claim, k: Check)
    requires TakenWith(inp, c, k)
    ensures (exists x: Item | x in k.items :: CountsFor(inp, read, c, x)) <==> SomeFor(inp, read, c, k)
    ensures (exists x: Item | x in k.items :: CountsFor(inp, read, c, x) && x.primary) <==> SomePrimary(inp, read, c, k)
    ensures (exists x: Item | x in k.items :: CountsAgainst(x)) <==> SomeAgainst(k)
    ensures |ConfirmedGroups(inp, read, c, k.items)| >= 2 <==> TwoConfirm(inp, read, c, k)
  {
    forall x: Item | x in k.items
      ensures (CountsFor(inp, read, c, x) <==> For(inp, read, c, x)) && (CountsAgainst(x) <==> Against(x))
    {
      ForExactly(inp, read, c, k, x);
    }
    TwoMembers(ConfirmedGroups(inp, read, c, k.items));
    forall n ensures n in ConfirmedGroups(inp, read, c, k.items) <==> Confirms(inp, read, c, k, n) {
      ConfirmsExactly(inp, read, c, k, n);
    }
    hide TakenWith, CountsFor, CountsAgainst, ConfirmedGroups, For, Against, Confirms;
  }

  /** The status of a claim after the first pass. */
  lemma FirstExactly(inp: Inputs, read: Reader, c: Claim, k: Check)
    requires TakenWith(inp, c, k)
    ensures var s := First(inp, read, c).status;
            var f, p, a := SomeFor(inp, read, c, k), SomePrimary(inp, read, c, k), SomeAgainst(k);
            && (s == Conflicting <==> f && a)
            && (s == Refuted <==> k.status == Refuted && a && !f)
            && (s == Corroborated <==> k.status == Corroborated && f && !a && TwoConfirm(inp, read, c, k))
            && (s == SupportedPrimary <==>
                  k.status in {SupportedPrimary, Corroborated} && p && !a
                  && !(k.status == Corroborated && TwoConfirm(inp, read, c, k)))
            && s != Inference
    ensures var r := First(inp, read, c);
            && r.checked && r.id == c.id && r.text == c.text && r.evidenceIds == c.evidenceIds
            && r.inferenceFrom == if k.status == Inference && r.status != Conflicting then k.inferenceFrom else []
  {
    TakenExactly(inp, c);
    FlagsExactly(inp, read, c, k);
    assert SomePrimary(inp, read, c, k) ==> SomeFor(inp, read, c, k);
    StatusByFlags(inp, read, c, k, SomeFor(inp, read, c, k), SomePrimary(inp, read, c, k), SomeAgainst(k),
                  TwoConfirm(inp, read, c, k));
    hide *;
    FirstIs(inp, read, c, k);
  }

  lemma FirstIs(inp: Inputs, read: Reader, c: Claim, k: Check)
    requires Accepted(inp, c) && CheckOf(inp.checks, c.id) == Some(k)
    ensures var r, s := First(inp, read, c), FirstStatus(inp, read, c, k);
            && r.status == s && r.checked && r.id == c.id && r.text == c.text && r.evidenceIds == c.evidenceIds
            && r.inferenceFrom == if k.status == Inference && s != Conflicting then k.inferenceFrom else []
  {
    hide Accepted, FirstStatus;
  }

  lemma StatusByFlags(inp: Inputs, read: Reader, c: Claim, k: Check, f: bool, p: bool, a: bool, t: bool)
    requires (exists x: Item | x in k.items :: CountsFor(inp, read, c, x)) <==> f
    requires (exists x: Item | x in k.items :: CountsFor(inp, read, c, x) && x.primary) <==> p
    requires (exists x: Item | x in k.items :: CountsAgainst(x)) <==> a
    requires (|ConfirmedGroups(inp, read, c, k.items)| >= 2 <==> t) && (p ==> f)
    ensures var s := FirstStatus(inp, read, c, k);
            && (s == Conflicting <==> f && a)
            && (s == Refuted <==> k.status == Refuted && a && !f)
            && (s == Corroborated <==> k.status == Corroborated && f && !a && t)
            && (s == SupportedPrimary <==>
                  k.status in {SupportedPrimary, Corroborated} && p && !a && !(k.status == Corroborated && t))
            && s != Inference
  {
    hide CountsFor, CountsAgainst, ConfirmedGroups;
  }

  lemma FirstRefused(inp: Inputs, read: Reader, c: Claim)
    requires forall k :: !TakenWith(inp, c, k)
    ensures First(inp, read, c) == Claim(c.id, c.text, c.evidenceIds, Insufficient, false, [])
  {
    TakenExactly(inp, c);
    hide TakenWith, Accepted;
  }

  lemma {:induction false} ResolveLast(cs: seq<Claim>, id: string)
    ensures Resolve(cs, id).Some? ==>
              exists i: nat :: i < |cs| && cs[i] == Resolve(cs, id).value && cs[i].id == id
                               && forall j | i < j < |cs| :: cs[j].id != id
    ensures (exists i: nat :: i < |cs| && cs[i].id == id) ==> Resolve(cs, id).Some?
  {
    if cs != [] && cs[|cs| - 1].id != id {
      ResolveLast(cs[..|cs| - 1], id);
      if Resolve(cs, id).Some? {
        var init := cs[..|cs| - 1];
        var i: nat :| i < |init| && init[i] == Resolve(cs, id).value && init[i].id == id
                      && forall j | i < j < |init| :: init[j].id != id;
        assert cs[i] == Resolve(cs, id).value;
        forall j | i < j < |cs| ensures cs[j].id != id { if j < |init| { assert init[j] == cs[j]; } }
      }
      if i: nat :| i < |cs| && cs[i].id == id { assert cs[..|cs| - 1][i].id == id; }
    }
  }

  lemma RestsExactly(inp: Inputs, read: Reader, ref: string)
    ensures Backs(Firsts(inp, read, inp.claims), ref) <==> Rests(inp, read, ref)
  {
    var firsts := Firsts(inp, read, inp.claims);
    ResolveLast(firsts, ref);
    forall i: nat | i < |firsts|
      ensures firsts[i].id == inp.claims[i].id && firsts[i].evidenceIds == inp.claims[i].evidenceIds
      ensures firsts[i].checked && Supported(firsts[i].status)
              <==> Final(inp, read, inp.claims[i]).status in {SupportedPrimary, Corroborated}
    {
      SupportStands(inp, read, inp.claims[i]);
    }
    hide First, Final, Resolve, Firsts;
    if Rests(inp, read, ref) {
      var i: nat :| i < |inp.claims| && inp.claims[i].id == ref
                    && (forall j | i < j < |inp.claims| :: inp.claims[j].id != ref)
                    && inp.claims[i].evidenceIds != []
                    && Final(inp, read, inp.claims[i]).status in {SupportedPrimary, Corroborated};
      assert firsts[i].id == ref;
    }
  }

  lemma SupportStands(inp: Inputs, read: Reader, d: Claim)
    ensures First(inp, read, d).id == d.id && First(inp, read, d).evidenceIds == d.evidenceIds
    ensures First(inp, read, d).checked && Supported(First(inp, read, d).status)
            <==> Final(inp, read, d).status in {SupportedPrimary, Corroborated}
  {
    hide Accepted, ConfirmedGroups, CountsFor, RefsOk;
  }

  lemma SoundExactly(inp: Inputs, read: Reader, c: Claim)
    ensures RefsOk(Firsts(inp, read, inp.claims), c) <==> Sound(inp, read, c, c.inferenceFrom)
  {
    forall ref ensures Backs(Firsts(inp, read, inp.claims), ref) <==> Rests(inp, read, ref) {
      RestsExactly(inp, read, ref);
    }
    hide Backs, Rests, Firsts;
  }

  /** What a review makes of a claim whose check it takes: conflicting, refuted, corroborated, supported by a primary
      source or inferred exactly under these conditions, and insufficiently supported in all other cases. */
  lemma VerdictExactly(inp: Inputs, read: Reader, c: Claim, k: Check)
    requires TakenWith(inp, c, k)
    ensures var r := Final(inp, read, c);
            var f, p, a := SomeFor(inp, read, c, k), SomePrimary(inp, read, c, k), SomeAgainst(k);
            var infers := k.status == Inference && !(f && a) && Sound(inp, read, c, k.inferenceFrom);
            && (r.status == Conflicting <==> f && a)
            && (r.status == Refuted <==> k.status == Refuted && a && !f)
            && (r.status == Corroborated <==> k.status == Corroborated && f && !a && TwoConfirm(inp, read, c, k))
            && (r.status == SupportedPrimary <==>
                  k.status in {SupportedPrimary, Corroborated} && p && !a
                  && !(k.status == Corroborated && TwoConfirm(inp, read, c, k)))
            && (r.status == Inference <==> infers)
            && r.checked && r.id == c.id && r.text == c.text && r.evidenceIds == c.evidenceIds
            && r.inferenceFrom == if infers then k.inferenceFrom else []
  {
    FirstExactly(inp, read, c, k);
    TakenExactly(inp, c);
    var first := First(inp, read, c);
    SoundExactly(inp, read, first);
    hide TakenWith, First, SomeFor, SomePrimary, SomeAgainst, TwoConfirm, Accepted, RefsOk, Firsts, Rests;
  }

  /** A claim without a check that can be taken is left unchecked. */
  lemma UntakenExactly(inp: Inputs, read: Reader, c: Claim)
    requires forall k :: !TakenWith(inp, c, k)
    ensures Final(inp, read, c) == Claim(c.id, c.text, c.evidenceIds, Insufficient, false, [])
  {
    FirstRefused(inp, read, c);
    hide First, TakenWith, Firsts;
  }

  // ---- evidence --------------------------------------------------------------------------------------

  /** The evidence of a claim whose check is taken is marked as its item says, support at odds with the claim as mere
      context. */
  lemma MarkExactly(inp: Inputs, read: Reader, n: nat, k: Check, x: Item, e: Evidence)
    requires n < |inp.claims| && TakenWith(inp, inp.claims[n], k) && x in k.items && e.id == x.evidence
    ensures var r := Settled(inp, read, inp.claims, e);
            && r.checked && r.conditionsMatch == Some(x.conditionsMatch) && r.primary == Some(x.primary)
            && r.relation == (if && x.conditionsMatch && x.relation == Supports
                                 && AtOdds(read, inp.claims[n].text, e.quote) then ContextOnly else x.relation)
            && r.id == e.id && r.source == e.source && r.quote == e.quote
  {
    var c := inp.claims[n];
    TakenExactly(inp, c);
    TakenLists(inp, c, k, x);
    EvidenceKeepsItsMark(inp, read, n, e);
    OnlyItem(k.items, x);
    AtOddsExactly(read, c.text, e.quote);
    hide TakenWith, Accepted, Conflicts, AtOdds, Settled, FindItem;
  }

  lemma TakenLists(inp: Inputs, c: Claim, k: Check, x: Item)
    requires TakenWith(inp, c, k) && x in k.items
    ensures x.evidence in c.evidenceIds
    ensures forall y | y in k.items && y.evidence == x.evidence :: y == x
  {
    hide Once, OneLists;
  }

  lemma {:induction false} OnlyItem(items: seq<Item>, x: Item)
    requires x in items && forall y | y in items && y.evidence == x.evidence :: y == x
    ensures FindItem(items, x.evidence) == Some(x)
  {
    if items[0].evidence != x.evidence {
      assert items == [items[0]] + items[1..];
      OnlyItem(items[1..], x);
    } else {
      assert items[0] in items;
    }
  }

  /** Evidence that no such claim lists loses its earlier marks. */
  lemma {:induction false} ClearedExactly(inp: Inputs, read: Reader, n: nat, e: Evidence)
    requires n <= |inp.claims| && forall i, k | 0 <= i < n && TakenWith(inp, inp.claims[i], k) ::
            e.id !in inp.claims[i].evidenceIds
    ensures Settled(inp, read, inp.claims[..n], e) == Evidence(e.id, e.source, e.quote, e.relation, false, None, None)
  {
    if n > 0 {
      var c := inp.claims[n - 1];
      ClearedExactly(inp, read, n - 1, e);
      assert inp.claims[..n][..n - 1] == inp.claims[..n - 1];
      TakenExactly(inp, c);
      if Accepted(inp, c) {
        AcceptedLists(inp, c, e.id);
      }
      hide Accepted, TakenWith, FindItem;
    }
  }
}
