/** The gate between a semantic review and the status a claim may take. */
module Review {
  import opened Options
  import Origins

  datatype Relation = Supports | Contradicts | ContextOnly

  datatype Status = SupportedPrimary | Corroborated | Conflicting | Refuted | Inference | Insufficient

  datatype Claim = Claim(id: string, text: string, evidenceIds: seq<string>, status: Status, checked: bool,
                         inferenceFrom: seq<string>)

  datatype Evidence = Evidence(id: string, source: string, quote: string, relation: Relation, checked: bool,
                               conditionsMatch: Option<bool>, primary: Option<bool>)

  datatype Item = Item(evidence: string, relation: Relation, conditionsMatch: bool, primary: bool)

  datatype Check = Check(claim: string, status: Status, items: seq<Item>, inferenceFrom: seq<string>)

  datatype Group = Group(id: nat, sources: seq<string>, independence: Origins.Independence)

  /** What is read off a text: its quantities, as decimal digits and unit, and the strength of its comparison. */
  datatype Reading = Reading(quantities: seq<(string, string)>, comparison: nat)

  type Reader = string -> Reading

  datatype Inputs = Inputs(claims: seq<Claim>, evidence: seq<Evidence>, checks: seq<Check>, groups: seq<Group>)

  predicate Supported(s: Status) { s.SupportedPrimary? || s.Corroborated? }

  // ---- conflicts between a claim and its quote --------------------------------------------------------

  /** One number is the other with decimals added or dropped. */
  predicate PrecisionConflict(claim: string, quote: string) {
    claim != quote && (claim + "." <= quote || quote + "." <= claim)
  }

  predicate QuantityConflict(c: Reading, q: Reading) {
    exists x | x in c.quantities ::
      x !in q.quantities && exists y | y in q.quantities :: y.1 == x.1 && PrecisionConflict(x.0, y.0)
  }

  predicate Conflicts(read: Reader, claim: string, quote: string) {
    QuantityConflict(read(claim), read(quote))
    || (read(claim).comparison > 0 && read(claim).comparison > read(quote).comparison)
  }

  // ---- identifiers -----------------------------------------------------------------------------------

  function ClaimIds(cs: seq<Claim>): multiset<string> {
    if cs == [] then multiset{} else multiset{cs[0].id} + ClaimIds(cs[1..])
  }

  function EvidenceIds(es: seq<Evidence>): multiset<string> {
    if es == [] then multiset{} else multiset{es[0].id} + EvidenceIds(es[1..])
  }

  function CheckIds(ks: seq<Check>): multiset<string> {
    if ks == [] then multiset{} else multiset{ks[0].claim} + CheckIds(ks[1..])
  }

  function GroupIds(gs: seq<Group>): multiset<nat> {
    if gs == [] then multiset{} else multiset{gs[0].id} + GroupIds(gs[1..])
  }

  /** How many claims list each evidence. */
  function Owners(cs: seq<Claim>): multiset<string> {
    if cs == [] then multiset{} else multiset(cs[0].evidenceIds) + Owners(cs[1..])
  }

  function ItemIds(items: seq<Item>): (r: seq<string>)
    ensures |r| == |items| && forall i | 0 <= i < |items| :: r[i] == items[i].evidence
  {
    if items == [] then [] else [items[0].evidence] + ItemIds(items[1..])
  }

  function FindCheck(ks: seq<Check>, id: string): Option<Check> {
    if ks == [] then None else if ks[0].claim == id then Some(ks[0]) else FindCheck(ks[1..], id)
  }

  /** The check of a claim, if there is exactly one. */
  function CheckOf(ks: seq<Check>, id: string): Option<Check> {
    if CheckIds(ks)[id] == 1 then FindCheck(ks, id) else None
  }

  function FindEvidence(es: seq<Evidence>, id: string): (i: nat)
    ensures i <= |es| && (i < |es| ==> es[i].id == id) && (i == |es| ==> forall k | 0 <= k < |es| :: es[k].id != id)
  {
    if es == [] || es[0].id == id then 0 else 1 + FindEvidence(es[1..], id)
  }

  predicate Distinct(ids: seq<string>) { forall i, j | 0 <= i < j < |ids| :: ids[i] != ids[j] }

  predicate SameMembers(a: seq<string>, b: seq<string>) {
    (forall x | x in a :: x in b) && forall x | x in b :: x in a
  }

  /** No check names an unknown claim or repeats another. */
  predicate ChecksKnown(inp: Inputs) {
    forall k | k in inp.checks :: k.claim in ClaimIds(inp.claims) && CheckIds(inp.checks)[k.claim] == 1
  }

  /** The check's items are exactly the claim's evidence, each known once and listed by no other claim. */
  predicate Covers(inp: Inputs, c: Claim, k: Check) {
    && Distinct(ItemIds(k.items)) && Distinct(c.evidenceIds) && SameMembers(ItemIds(k.items), c.evidenceIds)
    && forall id | id in ItemIds(k.items) :: EvidenceIds(inp.evidence)[id] == 1 && Owners(inp.claims)[id] == 1
  }

  predicate Accepted(inp: Inputs, c: Claim) {
    var k := CheckOf(inp.checks, c.id);
    && ChecksKnown(inp) && ClaimIds(inp.claims)[c.id] == 1 && k.Some? && Covers(inp, c, k.value)
    && (c.evidenceIds != [] || k.value.status.Inference?)
  }

  // ---- the first pass --------------------------------------------------------------------------------

  function QuoteOf(inp: Inputs, id: string): string {
    var i := FindEvidence(inp.evidence, id);
    if i < |inp.evidence| then inp.evidence[i].quote else ""
  }

  function SourceOf(inp: Inputs, id: string): string {
    var i := FindEvidence(inp.evidence, id);
    if i < |inp.evidence| then inp.evidence[i].source else ""
  }

  /** An item that counts as support: conditions match, the review says so, and the quote is not at odds. */
  predicate CountsFor(inp: Inputs, read: Reader, c: Claim, x: Item) {
    x.conditionsMatch && x.relation.Supports? && !Conflicts(read, c.text, QuoteOf(inp, x.evidence))
  }

  predicate CountsAgainst(x: Item) { x.conditionsMatch && x.relation.Contradicts? }

  /** The groups a source is listed in, once for every listing. */
  function Memberships(gs: seq<Group>, source: string): seq<Group> {
    if gs == [] then [] else Listings(gs[0], gs[0].sources, source) + Memberships(gs[1..], source)
  }

  function Listings(g: Group, sources: seq<string>, source: string): seq<Group> {
    if sources == [] then [] else (if sources[0] == source then [g] else []) + Listings(g, sources[1..], source)
  }

  /** The source belongs to one group only, under a unique number, confirmed as an independent origin. */
  predicate ConfirmedIn(gs: seq<Group>, source: string, g: nat) {
    var m := Memberships(gs, source);
    |m| == 1 && m[0].id == g && GroupIds(gs)[g] == 1 && m[0].independence.Confirmed?
  }

  function ConfirmedGroup(gs: seq<Group>, source: string): set<nat> {
    var m := Memberships(gs, source);
    if |m| == 1 && ConfirmedIn(gs, source, m[0].id) then {m[0].id} else {}
  }

  function ConfirmedGroups(inp: Inputs, read: Reader, c: Claim, items: seq<Item>): set<nat> {
    if items == [] then {}
    else
      (if CountsFor(inp, read, c, items[0]) then ConfirmedGroup(inp.groups, SourceOf(inp, items[0].evidence)) else {})
      + ConfirmedGroups(inp, read, c, items[1..])
  }

  function FirstStatus(inp: Inputs, read: Reader, c: Claim, k: Check): Status {
    var supported := exists x: Item | x in k.items :: CountsFor(inp, read, c, x);
    var contradicted := exists x: Item | x in k.items :: CountsAgainst(x);
    var primary := exists x: Item | x in k.items :: CountsFor(inp, read, c, x) && x.primary;
    if supported && contradicted then Conflicting
    else if k.status.Inference? then Insufficient
    else if k.status.Refuted? && contradicted && !supported then Refuted
    else if Supported(k.status) && supported && !contradicted then
      if k.status.Corroborated? && |ConfirmedGroups(inp, read, c, k.items)| >= 2 then Corroborated
      else if primary then SupportedPrimary
      else Insufficient
    else Insufficient
  }

  function First(inp: Inputs, read: Reader, c: Claim): Claim {
    var blank := c.(status := Insufficient, checked := false, inferenceFrom := []);
    if !Accepted(inp, c) then blank
    else
      var k := CheckOf(inp.checks, c.id).value;
      var status := FirstStatus(inp, read, c, k);
      blank.(checked := true, status := status,
             inferenceFrom := if k.status.Inference? && !status.Conflicting? then k.inferenceFrom else [])
  }

  function Firsts(inp: Inputs, read: Reader, cs: seq<Claim>): (r: seq<Claim>)
    ensures |r| == |cs| && forall i | 0 <= i < |cs| :: r[i] == First(inp, read, cs[i])
  {
    if cs == [] then [] else [First(inp, read, cs[0])] + Firsts(inp, read, cs[1..])
  }

  /** What the review leaves of an evidence item that it checks. */
  function Marked(read: Reader, c: Claim, e: Evidence, x: Item): Evidence {
    var relation := if x.conditionsMatch && x.relation.Supports? && Conflicts(read, c.text, e.quote) then ContextOnly
                    else x.relation;
    e.(relation := relation, checked := true, conditionsMatch := Some(x.conditionsMatch), primary := Some(x.primary))
  }

  function Cleared(e: Evidence): Evidence { e.(checked := false, conditionsMatch := None, primary := None) }

  function FindItem(items: seq<Item>, id: string): Option<Item> {
    if items == [] then None else if items[0].evidence == id then Some(items[0]) else FindItem(items[1..], id)
  }

  /** An evidence item after the first claims have been reviewed. */
  function Settled(inp: Inputs, read: Reader, cs: seq<Claim>, e: Evidence): Evidence {
    if cs == [] then Cleared(e)
    else
      var c := cs[|cs| - 1];
      var before := Settled(inp, read, cs[..|cs| - 1], e);
      if !Accepted(inp, c) then before
      else
        var x := FindItem(CheckOf(inp.checks, c.id).value.items, e.id);
        if x.None? then before else Marked(read, c, before, x.value)
  }

  // ---- the second pass -------------------------------------------------------------------------------

  /** The last claim with the identifier. */
  function Resolve(cs: seq<Claim>, id: string): Option<Claim> {
    if cs == [] then None
    else if cs[|cs| - 1].id == id then Some(cs[|cs| - 1])
    else Resolve(cs[..|cs| - 1], id)
  }

  predicate Backs(cs: seq<Claim>, ref: string) {
    var r := Resolve(cs, ref);
    r.Some? && r.value.checked && Supported(r.value.status) && r.value.evidenceIds != []
  }

  predicate RefsOk(cs: seq<Claim>, c: Claim) {
    c.inferenceFrom != [] && Distinct(c.inferenceFrom) && c.id !in c.inferenceFrom
    && forall ref | ref in c.inferenceFrom :: Backs(cs, ref)
  }

  /** The claim waits for the second pass. */
  predicate Waits(inp: Inputs, c: Claim) {
    var k := CheckOf(inp.checks, c.id);
    c.checked && k.Some? && k.value.status.Inference? && !c.status.Conflicting?
  }

  /** A claim after the second pass, given all claims as they stand when it is visited. */
  function Infer(inp: Inputs, now: seq<Claim>, c: Claim): Claim {
    if !Waits(inp, c) then c
    else if RefsOk(now, c) then c.(status := Inference)
    else c.(inferenceFrom := [])
  }

  /** The final state of a claim, from the results of the first pass alone. */
  function Final(inp: Inputs, read: Reader, c: Claim): Claim {
    Infer(inp, Firsts(inp, read, inp.claims), First(inp, read, c))
  }

  /** The second pass visiting claims one by one in a given order, each visit seeing the effect of the earlier ones. */
  function Visit(inp: Inputs, now: seq<Claim>, order: seq<nat>): (r: seq<Claim>)
    requires forall k | 0 <= k < |order| :: order[k] < |now|
    ensures |r| == |now|
    decreases |order|
  {
    if order == [] then now
    else
      var i := order[0];
      Visit(inp, now[i := Infer(inp, now, now[i])], order[1..])
  }

  // ---- the order of visits does not matter -------------------------------------------------------------

  /** The claims as the second pass may have left them: some inferred or stripped, the others as they were. */
  predicate Between(inp: Inputs, firsts: seq<Claim>, now: seq<Claim>) {
    |now| == |firsts| && forall i | 0 <= i < |firsts| ::
        now[i] == firsts[i] || (Waits(inp, firsts[i]) && now[i] == Infer(inp, firsts, firsts[i]))
  }

  /** Claims that wait are not supported, before and after their visit. */
  predicate WaitersUnsupported(inp: Inputs, firsts: seq<Claim>) {
    forall i | 0 <= i < |firsts| :: Waits(inp, firsts[i]) ==> !Supported(firsts[i].status)
  }

  lemma {:induction false} ResolveBetween(inp: Inputs, firsts: seq<Claim>, now: seq<Claim>, all: seq<Claim>,
                                          ref: string)
    requires |now| == |firsts| && WaitersUnsupported(inp, firsts)
    requires forall i | 0 <= i < |firsts| ::
               now[i] == firsts[i] || (Waits(inp, firsts[i]) && now[i] == Infer(inp, all, firsts[i]))
    ensures Backs(now, ref) == Backs(firsts, ref)
  {
    if firsts != [] {
      var n := |firsts| - 1;
      if firsts[n].id != ref { ResolveBetween(inp, firsts[..n], now[..n], all, ref); }
    }
  }

  lemma InferBetween(inp: Inputs, firsts: seq<Claim>, now: seq<Claim>, c: Claim)
    requires Between(inp, firsts, now) && WaitersUnsupported(inp, firsts)
    ensures Infer(inp, now, c) == Infer(inp, firsts, c)
  {
    forall ref ensures Backs(now, ref) == Backs(firsts, ref) {
      ResolveBetween(inp, firsts, now, firsts, ref);
    }
  }

  /** In whatever order the second pass visits the claims, each ends as if it alone had been visited. */
  lemma {:induction false} VisitAnyOrder(inp: Inputs, firsts: seq<Claim>, now: seq<Claim>, order: seq<nat>, i: nat)
    requires Between(inp, firsts, now) && WaitersUnsupported(inp, firsts) && i < |firsts|
    requires forall k | 0 <= k < |order| :: order[k] < |now|
    requires forall a, b | 0 <= a < b < |order| :: order[a] != order[b]
    requires forall k | k in order :: now[k] == firsts[k]
    ensures Visit(inp, now, order)[i] == if i in order then Infer(inp, firsts, firsts[i]) else now[i]
    decreases |order|
  {
    if order != [] {
      var j := order[0];
      assert j in order;
      InferBetween(inp, firsts, now, now[j]);
      var next := now[j := Infer(inp, now, now[j])];
      hide Infer, Waits, Visit;
      assert order == [j] + order[1..];
      assert forall k | k in order[1..] :: k in order && k != j;
      InferSame(inp, firsts, firsts[j]);
      VisitAnyOrder(inp, firsts, next, order[1..], i);
      VisitStep(inp, now, order);
    }
    VisitNothing(inp, now);
  }

  lemma VisitStep(inp: Inputs, now: seq<Claim>, order: seq<nat>)
    requires order != [] && forall k | 0 <= k < |order| :: order[k] < |now|
    ensures Visit(inp, now, order) == Visit(inp, now[order[0] := Infer(inp, now, now[order[0]])], order[1..])
  {}

  lemma VisitNothing(inp: Inputs, now: seq<Claim>)
    ensures Visit(inp, now, []) == now
  {}

  lemma InferSame(inp: Inputs, now: seq<Claim>, c: Claim)
    ensures Waits(inp, c) || Infer(inp, now, c) == c
  {}

  lemma FirstsWait(inp: Inputs, read: Reader)
    ensures WaitersUnsupported(inp, Firsts(inp, read, inp.claims))
  {
    hide Accepted, Covers, ConfirmedGroups, CountsFor;
  }

  // ---- soundness ---------------------------------------------------------------------------------------

  /** A claim is supported by a primary source exactly when its check is accepted and proposes support, some
      condition-matching, conflict-free support is from a primary source, nothing condition-matching is against it, and
      it does not count as corroborated. */
  lemma PrimaryExactly(inp: Inputs, read: Reader, c: Claim)
    ensures Final(inp, read, c).status.SupportedPrimary? <==>
              && Accepted(inp, c)
              && var k := CheckOf(inp.checks, c.id).value;
              && Supported(k.status)
              && (exists x: Item :: x in k.items && CountsFor(inp, read, c, x) && x.primary)
              && (forall x: Item | x in k.items :: !CountsAgainst(x))
              && !(k.status.Corroborated? && |ConfirmedGroups(inp, read, c, k.items)| >= 2)
  {
    AcceptedCheck(inp, c);
    hide Accepted, ConfirmedGroups, CountsFor;
  }

  lemma AcceptedCheck(inp: Inputs, c: Claim)
    ensures Accepted(inp, c) ==> CheckOf(inp.checks, c.id).Some?
  {}

  /** An inference rests on distinct other claims, each checked and itself supported by evidence. */
  lemma InferenceIsSound(inp: Inputs, read: Reader, c: Claim)
    requires Final(inp, read, c).status.Inference?
    ensures var f := Final(inp, read, c);
            && f.inferenceFrom != [] && Distinct(f.inferenceFrom) && c.id !in f.inferenceFrom
            && forall ref | ref in f.inferenceFrom :: exists d: Claim ::
                 d in inp.claims && d.id == ref && Accepted(inp, d) && d.evidenceIds != []
                 && Supported(Final(inp, read, d).status)
  {
    var firsts := Firsts(inp, read, inp.claims);
    var f := Final(inp, read, c);
    NeverInferredFirst(inp, read, c);
    forall ref | ref in f.inferenceFrom
      ensures exists d: Claim :: d in inp.claims && d.id == ref && Accepted(inp, d) && d.evidenceIds != []
                                 && Supported(Final(inp, read, d).status)
    {
      assert Backs(firsts, ref);
      ResolveIn(firsts, ref);
      var r := Resolve(firsts, ref).value;
      var i :| 0 <= i < |firsts| && firsts[i] == r;
      SupportedStays(inp, read, inp.claims[i]);
    }
  }

  lemma NeverInferredFirst(inp: Inputs, read: Reader, c: Claim)
    ensures !First(inp, read, c).status.Inference?
  {
    hide Accepted, ConfirmedGroups, CountsFor;
  }

  lemma SupportedStays(inp: Inputs, read: Reader, d: Claim)
    requires First(inp, read, d).checked && Supported(First(inp, read, d).status)
    ensures Accepted(inp, d) && Final(inp, read, d).status == First(inp, read, d).status
    ensures First(inp, read, d).id == d.id && First(inp, read, d).evidenceIds == d.evidenceIds
  {
    hide Accepted, ConfirmedGroups, CountsFor, RefsOk;
  }

  lemma {:induction false} ResolveIn(cs: seq<Claim>, id: string)
    requires Resolve(cs, id).Some?
    ensures Resolve(cs, id).value in cs && Resolve(cs, id).value.id == id
  {
    if cs[|cs| - 1].id != id {
      ResolveIn(cs[..|cs| - 1], id);
    }
  }

  // ---- evidence ------------------------------------------------------------------------------------------

  lemma {:induction false} OwnedAt(cs: seq<Claim>, i: nat, id: string)
    requires i < |cs| && id in cs[i].evidenceIds
    ensures Owners(cs)[id] >= 1
  {
    if i > 0 { OwnedAt(cs[1..], i - 1, id); }
  }

  /** Evidence that one claim lists, no other does. */
  lemma {:induction false} OneOwner(cs: seq<Claim>, i: nat, j: nat, id: string)
    requires i < j < |cs| && id in cs[i].evidenceIds && id in cs[j].evidenceIds
    ensures Owners(cs)[id] >= 2
  {
    if i == 0 { OwnedAt(cs[1..], j - 1, id); } else { OneOwner(cs[1..], i - 1, j - 1, id); }
  }

  lemma {:induction false} ItemListed(items: seq<Item>, id: string)
    ensures FindItem(items, id).Some? <==> id in ItemIds(items)
  {
    if items != [] { ItemListed(items[1..], id); }
  }

  lemma AcceptedLists(inp: Inputs, c: Claim, id: string)
    requires Accepted(inp, c)
    ensures FindItem(CheckOf(inp.checks, c.id).value.items, id).Some? <==> id in c.evidenceIds
    ensures id in c.evidenceIds ==> Owners(inp.claims)[id] == 1
  {
    ItemListed(CheckOf(inp.checks, c.id).value.items, id);
  }

  lemma {:induction false} SettledElsewhere(inp: Inputs, read: Reader, n: nat, e: Evidence, i: nat)
    requires n <= |inp.claims| && i < |inp.claims| && Accepted(inp, inp.claims[i]) && e.id in inp.claims[i].evidenceIds
    ensures var x := FindItem(CheckOf(inp.checks, inp.claims[i].id).value.items, e.id);
            && x.Some?
            && Settled(inp, read, inp.claims[..n], e)
               == if i < n then Marked(read, inp.claims[i], Cleared(e), x.value) else Cleared(e)
  {
    hide Accepted, Owners, FindItem, CheckOf, Conflicts;
    AcceptedLists(inp, inp.claims[i], e.id);
    if n > 0 {
      SettledElsewhere(inp, read, n - 1, e, i);
      var c := inp.claims[n - 1];
      assert inp.claims[..n][..n - 1] == inp.claims[..n - 1] && inp.claims[..n][n - 1] == c;
      if n - 1 != i && Accepted(inp, c) {
        AcceptedLists(inp, c, e.id);
        if e.id in c.evidenceIds {
          OneOwner(inp.claims, if i < n - 1 then i else n - 1, if i < n - 1 then n - 1 else i, e.id);
        }
      }
    }
  }

  /** The evidence of an accepted claim keeps the mark of that claim's own check, whatever else was reviewed. */
  lemma EvidenceKeepsItsMark(inp: Inputs, read: Reader, i: nat, e: Evidence)
    requires i < |inp.claims| && Accepted(inp, inp.claims[i]) && e.id in inp.claims[i].evidenceIds
    ensures var x := FindItem(CheckOf(inp.checks, inp.claims[i].id).value.items, e.id);
            && x.Some? && Settled(inp, read, inp.claims, e) == Marked(read, inp.claims[i], Cleared(e), x.value)
  {
    assert inp.claims[..|inp.claims|] == inp.claims;
    SettledElsewhere(inp, read, |inp.claims|, e, i);
  }

  function MemberIds(sources: seq<Origins.Source>, members: seq<nat>): seq<string>
    requires forall k | 0 <= k < |members| :: members[k] < |sources|
  {
    if members == [] then [] else [sources[members[0]].id] + MemberIds(sources, members[1..])
  }

  /** What the union of sources reports: numbers, members, and that nothing is known of independence. */
  function Published(sources: seq<Origins.Source>, g: Origins.OriginGroup): Group
    requires forall k | 0 <= k < |g.members| :: g.members[k] < |sources|
  {
    Group(g.id, MemberIds(sources, g.members), g.independence)
  }

  lemma {:induction false} NoneConfirmed(inp: Inputs, read: Reader, c: Claim, items: seq<Item>)
    requires forall g | g in inp.groups :: g.independence.Unknown?
    ensures ConfirmedGroups(inp, read, c, items) == {}
  {
    if items != [] {
      NoneConfirmed(inp, read, c, items[1..]);
      MembersListed(inp.groups, SourceOf(inp, items[0].evidence));
    }
  }

  lemma {:induction false} MembersListed(gs: seq<Group>, source: string)
    ensures forall g | g in Memberships(gs, source) :: g in gs
  {
    if gs != [] {
      MembersListed(gs[1..], source);
      ListingsOf(gs[0], gs[0].sources, source);
    }
  }

  lemma {:induction false} ListingsOf(g: Group, sources: seq<string>, source: string)
    ensures forall x | x in Listings(g, sources, source) :: x == g
  {
    if sources != [] { ListingsOf(g, sources[1..], source); }
  }

  /** With the groups the pipeline builds, no claim ever counts as corroborated. */
  lemma NeverCorroborated(inp: Inputs, read: Reader, c: Claim, sources: seq<Origins.Source>,
                          groups: seq<Origins.OriginGroup>)
    requires forall g | 0 <= g < |groups| :: Origins.Describes(sources, groups[g], g + 1)
    requires |inp.groups| == |groups|
    requires forall g | 0 <= g < |groups| ::
               (forall k | 0 <= k < |groups[g].members| :: groups[g].members[k] < |sources|)
               && inp.groups[g] == Published(sources, groups[g])
    ensures !Final(inp, read, c).status.Corroborated?
  {
    forall g | g in inp.groups ensures g.independence.Unknown? {
      var i :| 0 <= i < |inp.groups| && inp.groups[i] == g;
      assert Origins.Describes(sources, groups[i], i + 1);
    }
    if Accepted(inp, c) { NoneConfirmed(inp, read, c, CheckOf(inp.checks, c.id).value.items); }
    hide Accepted, ConfirmedGroups, CountsFor;
  }
}

/** The review in the form the program has: evidence is marked in place while the claims are gone through. */
module ReviewGate {
  import opened Options
  import opened Review

  // ---- finding things --------------------------------------------------------------------------------

  lemma {:induction false} NoEvidence(es: seq<Evidence>, id: string)
    requires forall k | 0 <= k < |es| :: es[k].id != id
    ensures EvidenceIds(es)[id] == 0
  {
    if es != [] { NoEvidence(es[1..], id); }
  }

  lemma {:induction false} SomeEvidence(es: seq<Evidence>, id: string, n: nat)
    requires n < |es| && es[n].id == id
    ensures EvidenceIds(es)[id] >= 1
  {
    if n > 0 { SomeEvidence(es[1..], id, n - 1); }
  }

  /** Evidence with a unique identifier is found, and only once. */
  lemma {:induction false} EvidenceFound(es: seq<Evidence>, id: string)
    requires EvidenceIds(es)[id] == 1
    ensures FindEvidence(es, id) < |es|
    ensures forall n | 0 <= n < |es| && es[n].id == id :: n == FindEvidence(es, id)
  {
    if es[0].id == id {
      forall n | 0 <= n < |es| && es[n].id == id ensures n == 0 {
        if n > 0 { SomeEvidence(es[1..], id, n - 1); }
      }
    } else {
      EvidenceFound(es[1..], id);
      forall n | 0 <= n < |es| && es[n].id == id ensures n == FindEvidence(es, id) {
        assert es[1..][n - 1].id == id;
      }
    }
  }

  lemma {:induction false} FindItemAppend(items: seq<Item>, x: Item, id: string)
    ensures FindItem(items + [x], id)
            == if FindItem(items, id).Some? then FindItem(items, id) else if x.evidence == id then Some(x) else None
  {
    if items == [] {
      assert items + [x] == [x];
    } else {
      FindItemAppend(items[1..], x, id);
      assert (items + [x])[1..] == items[1..] + [x];
    }
  }

  lemma {:induction false} NoItem(items: seq<Item>, id: string)
    requires forall k | 0 <= k < |items| :: items[k].evidence != id
    ensures FindItem(items, id).None?
  {
    if items != [] { NoItem(items[1..], id); }
  }

  function MarkedBy(read: Reader, c: Claim, e: Evidence, items: seq<Item>): Evidence {
    var x := FindItem(items, e.id);
    if x.None? then e else Marked(read, c, e, x.value)
  }

  /** The evidence array holds the texts of the input, whatever has been marked. */
  ghost predicate Texts(inp: Inputs, evidence: seq<Evidence>) {
    |evidence| == |inp.evidence| && forall n | 0 <= n < |evidence| ::
        evidence[n].id == inp.evidence[n].id && evidence[n].quote == inp.evidence[n].quote
        && evidence[n].source == inp.evidence[n].source
  }

  // ---- one claim -------------------------------------------------------------------------------------

  /** What the items seen so far amount to. */
  ghost predicate Tallied(inp: Inputs, read: Reader, c: Claim, items: seq<Item>, supporting: bool, contradicting: bool,
                          primary: bool, confirmed: set<nat>) {
    && (supporting <==> exists x: Item | x in items :: CountsFor(inp, read, c, x))
    && (contradicting <==> exists x: Item | x in items :: CountsAgainst(x))
    && (primary <==> exists x: Item | x in items :: CountsFor(inp, read, c, x) && x.primary)
    && confirmed == ConfirmedGroups(inp, read, c, items)
  }

  lemma {:induction false} ConfirmedAppend(inp: Inputs, read: Reader, c: Claim, items: seq<Item>, x: Item)
    ensures ConfirmedGroups(inp, read, c, items + [x])
            == ConfirmedGroups(inp, read, c, items)
               + (if CountsFor(inp, read, c, x) then ConfirmedGroup(inp.groups, SourceOf(inp, x.evidence)) else {})
  {
    hide CountsFor, ConfirmedGroup;
    if items == [] {
      assert items + [x] == [x];
      assert [x][1..] == [];
    } else {
      ConfirmedAppend(inp, read, c, items[1..], x);
      assert (items + [x])[1..] == items[1..] + [x];
    }
  }

  lemma TallyMore(inp: Inputs, read: Reader, c: Claim, items: seq<Item>, supporting: bool, contradicting: bool,
                  primary: bool, confirmed: set<nat>, x: Item)
    requires Tallied(inp, read, c, items, supporting, contradicting, primary, confirmed)
    ensures var counts := CountsFor(inp, read, c, x);
            Tallied(inp, read, c, items + [x], supporting || counts, contradicting || CountsAgainst(x),
                    primary || (counts && x.primary),
                    confirmed + if counts then ConfirmedGroup(inp.groups, SourceOf(inp, x.evidence)) else {})
  {
    ConfirmedAppend(inp, read, c, items, x);
    hide CountsFor, ConfirmedGroup, ConfirmedGroups, CountsAgainst;
    assert forall y: Item :: y in items + [x] <==> y in items || y == x;
  }

  /** Adds one item, whose evidence has this source, to what has been found. */
  method Weigh(inp: Inputs, read: Reader, c: Claim, ghost items: seq<Item>, x: Item, source: string, supporting: bool,
               contradicting: bool, primary: bool, confirmed: set<nat>)
    returns (s: bool, k: bool, p: bool, g: set<nat>)
    requires Tallied(inp, read, c, items, supporting, contradicting, primary, confirmed)
    requires source == SourceOf(inp, x.evidence)
    ensures Tallied(inp, read, c, items + [x], s, k, p, g)
  {
    TallyMore(inp, read, c, items, supporting, contradicting, primary, confirmed, x);
    hide CountsFor, CountsAgainst, ConfirmedGroup, Tallied;
    s, k, p, g := supporting, contradicting, primary, confirmed;
    if CountsFor(inp, read, c, x) {
      AgainstNot(inp, read, c, x);
      s := true;
      p := primary || x.primary;
      g := confirmed + ConfirmedGroup(inp.groups, source);
    } else {
      assert confirmed + {} == confirmed;
      if CountsAgainst(x) { k := true; }
    }
  }

  /** Marks the evidence of one more item. */
  method MarkItem(inp: Inputs, read: Reader, c: Claim, ghost items: seq<Item>, x: Item, at: nat,
                  ghost was: seq<Evidence>, evidence: array<Evidence>)
    requires forall k | 0 <= k < |items| :: items[k].evidence != x.evidence
    requires Texts(inp, was) && Texts(inp, evidence[..]) && at < |inp.evidence| && inp.evidence[at].id == x.evidence
    requires forall n | 0 <= n < |inp.evidence| && inp.evidence[n].id == x.evidence :: n == at
    requires forall n | 0 <= n < |inp.evidence| :: evidence[n] == MarkedBy(read, c, was[n], items)
    modifies evidence
    ensures Texts(inp, evidence[..])
    ensures forall n | 0 <= n < |inp.evidence| :: evidence[n] == MarkedBy(read, c, was[n], items + [x])
  {
    hide MarkedBy, Marked;
    ghost var now := evidence[..];
    MarkOne(inp, read, c, items, x, at, was, now);
    evidence[at] := Marked(read, c, evidence[at], x);
    assert evidence[..] == now[at := Marked(read, c, now[at], x)];
  }

  /** Goes through the items of an accepted check, marking the evidence they name. */
  method ReviewItems(inp: Inputs, read: Reader, c: Claim, k: Check, evidence: array<Evidence>)
    returns (supporting: bool, contradicting: bool, primary: bool, confirmed: set<nat>)
    requires Texts(inp, evidence[..]) && Distinct(ItemIds(k.items))
    requires forall id | id in ItemIds(k.items) :: EvidenceIds(inp.evidence)[id] == 1
    modifies evidence
    ensures Tallied(inp, read, c, k.items, supporting, contradicting, primary, confirmed)
    ensures Texts(inp, evidence[..])
    ensures forall n | 0 <= n < |inp.evidence| :: evidence[n] == MarkedBy(read, c, old(evidence[n]), k.items)
  {
    hide CountsFor, CountsAgainst, ConfirmedGroup, ConfirmedGroups, Marked, MarkedBy, FindItem, Tallied;
    NothingMarked(read, c);
    supporting, contradicting, primary, confirmed := false, false, false, {};
    ghost var was := evidence[..];
    ghost var ids := ItemIds(k.items);
    hide ItemIds, Distinct, EvidenceIds, FindEvidence, SourceOf;
    NothingTallied(inp, read, c);
    var i := 0;
    while i < |k.items|
      invariant 0 <= i <= |k.items| && Texts(inp, evidence[..])
      invariant Tallied(inp, read, c, k.items[..i], supporting, contradicting, primary, confirmed)
      invariant forall n | 0 <= n < |inp.evidence| :: evidence[n] == MarkedBy(read, c, was[n], k.items[..i])
    {
      var x := k.items[i];
      assert ids[i] == x.evidence;
      assert k.items[..i + 1] == k.items[..i] + [x];
      EvidenceFound(inp.evidence, x.evidence);
      var at := FindEvidence(inp.evidence, x.evidence);
      SourceIs(inp, x.evidence, at);
      supporting, contradicting, primary, confirmed :=
        Weigh(inp, read, c, k.items[..i], x, evidence[at].source, supporting, contradicting, primary, confirmed);
      EarlierDiffer(k.items, i);
      MarkItem(inp, read, c, k.items[..i], x, at, was, evidence);
      i := i + 1;
    }
    assert k.items[..i] == k.items;
  }

  lemma NothingMarked(read: Reader, c: Claim)
    ensures forall e: Evidence :: MarkedBy(read, c, e, []) == e
  {}

  lemma NothingTallied(inp: Inputs, read: Reader, c: Claim)
    ensures Tallied(inp, read, c, [], false, false, false, {})
  {}

  lemma AgainstNot(inp: Inputs, read: Reader, c: Claim, x: Item)
    requires CountsFor(inp, read, c, x)
    ensures !CountsAgainst(x)
  {}

  lemma SourceIs(inp: Inputs, id: string, at: nat)
    requires at == FindEvidence(inp.evidence, id) < |inp.evidence|
    ensures SourceOf(inp, id) == inp.evidence[at].source
  {}

  lemma EarlierDiffer(items: seq<Item>, i: nat)
    requires i < |items| && Distinct(ItemIds(items))
    ensures forall k | 0 <= k < i :: items[..i][k].evidence != items[i].evidence
  {
    var ids := ItemIds(items);
    hide ItemIds;
    forall k | 0 <= k < i ensures items[..i][k].evidence != items[i].evidence {
      assert ids[k] != ids[i] && ids[k] == items[k].evidence && ids[i] == items[i].evidence;
    }
  }

  /** Marking the evidence of the next item. */
  lemma MarkOne(inp: Inputs, read: Reader, c: Claim, items: seq<Item>, x: Item, at: nat, was: seq<Evidence>,
                now: seq<Evidence>)
    requires forall k | 0 <= k < |items| :: items[k].evidence != x.evidence
    requires Texts(inp, was) && Texts(inp, now) && at < |inp.evidence| && inp.evidence[at].id == x.evidence
    requires forall n | 0 <= n < |inp.evidence| && inp.evidence[n].id == x.evidence :: n == at
    requires forall n | 0 <= n < |inp.evidence| :: now[n] == MarkedBy(read, c, was[n], items)
    ensures Texts(inp, now[at := Marked(read, c, now[at], x)])
    ensures forall n | 0 <= n < |inp.evidence| ::
              now[at := Marked(read, c, now[at], x)][n] == MarkedBy(read, c, was[n], items + [x])
  {
    hide MarkedBy, Marked;
    MarkedTexts(read, c, now[at], x);
    forall n | 0 <= n < |inp.evidence|
      ensures now[at := Marked(read, c, now[at], x)][n] == MarkedBy(read, c, was[n], items + [x])
    {
      MarkNext(read, c, was[n], items, x);
      assert now[n] == MarkedBy(read, c, was[n], items);
    }
  }

  lemma MarkedTexts(read: Reader, c: Claim, e: Evidence, x: Item)
    ensures Marked(read, c, e, x).id == e.id && Marked(read, c, e, x).quote == e.quote
    ensures Marked(read, c, e, x).source == e.source
  {}

  lemma MarkNext(read: Reader, c: Claim, e: Evidence, items: seq<Item>, x: Item)
    requires forall k | 0 <= k < |items| :: items[k].evidence != x.evidence
    ensures e.id == x.evidence ==> MarkedBy(read, c, e, items) == e
                                   && MarkedBy(read, c, e, items + [x]) == Marked(read, c, e, x)
    ensures e.id != x.evidence ==> MarkedBy(read, c, e, items + [x]) == MarkedBy(read, c, e, items)
  {
    hide Marked, FindItem;
    NoItem(items, x.evidence);
    FindItemAppend(items, x, e.id);
  }

  // ---- the whole review --------------------------------------------------------------------------------

  method ClearEvidence(evidence: array<Evidence>)
    modifies evidence
    ensures forall n | 0 <= n < evidence.Length :: evidence[n] == Cleared(old(evidence[n]))
  {
    var n := 0;
    while n < evidence.Length
      invariant 0 <= n <= evidence.Length
      invariant forall m | 0 <= m < n :: evidence[m] == Cleared(old(evidence[m]))
      invariant forall m | n <= m < evidence.Length :: evidence[m] == old(evidence[m])
    {
      evidence[n] := Cleared(evidence[n]);
      n := n + 1;
    }
  }

  /** The first pass over one claim. */
  method ReviewClaim(inp: Inputs, read: Reader, c: Claim, evidence: array<Evidence>) returns (claim: Claim)
    requires Texts(inp, evidence[..])
    modifies evidence
    ensures claim == First(inp, read, c) && Texts(inp, evidence[..])
    ensures forall n | 0 <= n < |inp.evidence| :: evidence[n] == AfterClaim(inp, read, c, old(evidence[n]))
  {
    claim := c.(status := Insufficient, checked := false, inferenceFrom := []);
    AcceptedCovers(inp, c);
    hide Distinct, EvidenceIds, CheckOf;
    if !Accepted(inp, c) { return; }
    var k := CheckOf(inp.checks, c.id).value;
    hide Accepted, CountsFor, CountsAgainst, ConfirmedGroups, MarkedBy, FirstStatus, Tallied;
    var supporting, contradicting, primary, confirmed := ReviewItems(inp, read, c, k, evidence);
    MarkedIs(inp, read, c, k);
    hide AfterClaim;
    var status := Decide(inp, read, c, k, supporting, contradicting, primary, confirmed);
    if k.status.Inference? && !status.Conflicting? { claim := claim.(inferenceFrom := k.inferenceFrom); }
    claim := claim.(checked := true, status := status);
  }

  /** The status the flags allow. */
  method Decide(inp: Inputs, read: Reader, c: Claim, k: Check, supporting: bool, contradicting: bool, primary: bool,
                confirmed: set<nat>)
    returns (status: Status)
    requires Tallied(inp, read, c, k.items, supporting, contradicting, primary, confirmed)
    ensures status == FirstStatus(inp, read, c, k)
  {
    hide CountsFor, CountsAgainst, ConfirmedGroups;
    status := Insufficient;
    if supporting && contradicting {
      status := Conflicting;
    } else if k.status.Inference? {
    } else if k.status.Refuted? && contradicting && !supporting {
      status := Refuted;
    } else if Supported(k.status) && supporting && !contradicting {
      if k.status.Corroborated? && |confirmed| >= 2 {
        status := Corroborated;
      } else if primary {
        status := SupportedPrimary;
      }
    }
  }

  lemma AcceptedCovers(inp: Inputs, c: Claim)
    ensures Accepted(inp, c) ==>
              CheckOf(inp.checks, c.id).Some? && Distinct(ItemIds(CheckOf(inp.checks, c.id).value.items))
              && forall id | id in ItemIds(CheckOf(inp.checks, c.id).value.items) :: EvidenceIds(inp.evidence)[id] == 1
  {}

  /** An evidence item after one more claim. */
  function AfterClaim(inp: Inputs, read: Reader, c: Claim, e: Evidence): Evidence {
    if !Accepted(inp, c) then e else MarkedBy(read, c, e, CheckOf(inp.checks, c.id).value.items)
  }

  lemma MarkedIs(inp: Inputs, read: Reader, c: Claim, k: Check)
    requires Accepted(inp, c) && k == CheckOf(inp.checks, c.id).value
    ensures forall e: Evidence :: AfterClaim(inp, read, c, e) == MarkedBy(read, c, e, k.items)
  {}

  lemma SettledStep(inp: Inputs, read: Reader, cs: seq<Claim>, i: nat, e: Evidence)
    requires i < |cs|
    ensures Settled(inp, read, cs[..i + 1], e) == AfterClaim(inp, read, cs[i], Settled(inp, read, cs[..i], e))
  {
    assert cs[..i + 1][..i] == cs[..i];
    SettledId(inp, read, cs[..i], e);
  }

  lemma {:induction false} SettledId(inp: Inputs, read: Reader, cs: seq<Claim>, e: Evidence)
    ensures Settled(inp, read, cs, e).id == e.id && Settled(inp, read, cs, e).quote == e.quote
    ensures Settled(inp, read, cs, e).source == e.source
  {
    if cs != [] {
      SettledId(inp, read, cs[..|cs| - 1], e);
      hide Accepted, Conflicts;
    }
  }

  lemma {:induction false} FirstsStep(inp: Inputs, read: Reader, cs: seq<Claim>, i: nat)
    requires i < |cs|
    ensures Firsts(inp, read, cs[..i + 1]) == Firsts(inp, read, cs[..i]) + [First(inp, read, cs[i])]
  {
    hide First;
  }

  /** The review as the program runs it: first every claim with its evidence, then the inferences, one after the other
      over claims that change as it goes. Every claim ends in its final state, and every evidence item as the one claim
      that owns it left it. */
  method ApplyReview(claims: seq<Claim>, evidence: array<Evidence>, checks: seq<Check>, groups: seq<Group>,
                     read: Reader)
    returns (result: seq<Claim>)
    modifies evidence
    ensures |result| == |claims|
    ensures forall i | 0 <= i < |claims| ::
              result[i] == Final(Inputs(claims, old(evidence[..]), checks, groups), read, claims[i])
    ensures forall n | 0 <= n < evidence.Length ::
              evidence[n] == Settled(Inputs(claims, old(evidence[..]), checks, groups), read, claims, old(evidence[n]))
  {
    var inp := Inputs(claims, evidence[..], checks, groups);
    hide Accepted, First, AfterClaim, Waits, RefsOk;
    ClearEvidence(evidence);
    result := [];
    var i := 0;
    assert claims[..0] == [];
    while i < |claims|
      invariant 0 <= i <= |claims| && Texts(inp, evidence[..])
      invariant result == Firsts(inp, read, claims[..i])
      invariant forall n | 0 <= n < evidence.Length :: evidence[n] == Settled(inp, read, claims[..i], inp.evidence[n])
    {
      ghost var was := evidence[..];
      var claim := ReviewClaim(inp, read, claims[i], evidence);
      FirstsStep(inp, read, claims, i);
      forall n | 0 <= n < evidence.Length
        ensures evidence[n] == Settled(inp, read, claims[..i + 1], inp.evidence[n])
      {
        SettledStep(inp, read, claims, i, inp.evidence[n]);
      }
      result := result + [claim];
      i := i + 1;
    }
    assert claims[..i] == claims;
    result := ResolveInferences(inp, read, result);
  }

  method ResolveInferences(inp: Inputs, read: Reader, firsts: seq<Claim>) returns (result: seq<Claim>)
    requires firsts == Firsts(inp, read, inp.claims)
    ensures |result| == |firsts| && forall i | 0 <= i < |firsts| :: result[i] == Final(inp, read, inp.claims[i])
  {
    hide First, Waits, RefsOk;
    FirstsWait(inp, read);
    result := firsts;
    var i := 0;
    while i < |result|
      invariant 0 <= i <= |result| == |firsts|
      invariant forall j | 0 <= j < i :: result[j] == Infer(inp, firsts, firsts[j])
      invariant forall j | i <= j < |firsts| :: result[j] == firsts[j]
    {
      var c := result[i];
      SoFarBetween(inp, firsts, result, i);
      InferBetween(inp, firsts, result, c);
      if Waits(inp, c) {
        result := result[i := if RefsOk(result, c) then c.(status := Inference) else c.(inferenceFrom := [])];
      }
      i := i + 1;
    }
  }

  lemma SoFarBetween(inp: Inputs, firsts: seq<Claim>, result: seq<Claim>, i: nat)
    requires |result| == |firsts| && i <= |firsts|
    requires forall j | 0 <= j < i :: result[j] == Infer(inp, firsts, firsts[j])
    requires forall j | i <= j < |firsts| :: result[j] == firsts[j]
    ensures Between(inp, firsts, result)
  {
    hide Waits, RefsOk;
  }
}
