/** From page text to stored evidence: cutting pages into passages, and keeping only quotations that
    stand in a passage the model was shown. */
module Extraction {
  import opened Options
  import opened Text
  import opened Quotes
  import Seqs

  // ---- passages -----------------------------------------------------------------------------------

  /** `page` is None for a web page, which has one body. */
  datatype Passage = Passage(id: (string, Option<nat>, nat), source: string, text: Text, page: Option<nat>,
                             start: nat, end: nat)

  /** `text.rfind(c, lo, hi)`. */
  function RFind(text: Text, c: CodePoint, lo: nat, hi: nat): (k: int)
    requires hi <= |text|
    ensures k == -1 || (lo <= k < hi && text[k] == c)
    ensures forall j | lo <= j < hi && k < j :: text[j] != c
  {
    if hi <= lo then -1
    else if text[hi - 1] == c then hi - 1
    else RFind(text, c, lo, hi - 1)
  }

  function PassageEnd(text: Text, start: nat, size: nat): (end: nat)
    requires start < |text| && size >= 1
    ensures start < end <= |text| && end - start <= size
  {
    var end := Min(start + size, |text|);
    if end == |text| then end
    else
      var line := RFind(text, NEWLINE, start + size / 2, end);
      var boundary := if line < 0 then RFind(text, SPACE, start + size / 2, end) else line;
      if boundary >= 0 then boundary + 1 else end
  }

  /** Where a piece may end: at the size or the end of the text, or just behind the last line break of
      its second half, or, without one, behind the last space there. */
  lemma PassageEndRule(text: Text, start: nat, size: nat)
    requires start < |text| && size >= 1
    ensures var end, limit, half := PassageEnd(text, start, size), Min(start + size, |text|), start + size / 2;
      && (limit == |text| ==> end == limit)
      && (limit < |text| && (exists j :: half <= j < limit && text[j] == NEWLINE) ==>
            end > half && text[end - 1] == NEWLINE && forall j | end <= j < limit :: text[j] != NEWLINE)
      && (limit < |text| && (forall j | half <= j < limit :: text[j] != NEWLINE) ==>
            if exists j :: half <= j < limit && text[j] == SPACE
            then end > half && text[end - 1] == SPACE && forall j | end <= j < limit :: text[j] != SPACE
            else end == limit)
  {}

  predicate PassageIs(p: Passage, text: Text, source: string, page: Option<nat>, start: nat, end: nat)
    requires start <= end <= |text|
  {
    p == Passage((source, page, start), source, text[start..end], page, start, end)
  }

  /** The pieces from `start` on, blank ones dropped. */
  function PassagesFrom(text: Text, source: string, page: Option<nat>, size: nat, start: nat): seq<Passage>
    requires start <= |text| && size >= 1
    decreases |text| - start
  {
    if start == |text| then []
    else
      var end := PassageEnd(text, start, size);
      var rest := PassagesFrom(text, source, page, size, end);
      if IsBlank(text[start..end]) then rest
      else [Passage((source, page, start), source, text[start..end], page, start, end)] + rest
  }

  method NextEnd(text: Text, start: nat, size: nat) returns (end: nat)
    requires start < |text| && size >= 1
    ensures end == PassageEnd(text, start, size)
  {
    end := Min(start + size, |text|);
    if end < |text| {
      var boundary := RFind(text, NEWLINE, start + size / 2, end);
      if boundary < 0 {
        boundary := RFind(text, SPACE, start + size / 2, end);
      }
      if boundary >= 0 {
        end := boundary + 1;
      }
    }
  }

  method SplitPassages(text: Text, source: string, page: Option<nat>, size: nat) returns (ps: seq<Passage>)
    requires size >= 1
    ensures ps == PassagesFrom(text, source, page, size, 0)
  {
    hide *;
    ps := [];
    var start := 0;
    Seqs.AppendNil(PassagesFrom(text, source, page, size, 0));
    while start < |text|
      invariant start <= |text|
      invariant PassagesFrom(text, source, page, size, 0) == ps + PassagesFrom(text, source, page, size, start)
    {
      NextPassage(text, source, page, size, start);
      var end := NextEnd(text, start, size);
      ghost var rest := PassagesFrom(text, source, page, size, end);
      if !IsBlank(text[start..end]) {
        var p := Passage((source, page, start), source, text[start..end], page, start, end);
        Seqs.Assoc(ps, [p], rest);
        ps := ps + [p];
      } else {
        Seqs.AppendNil(rest);
      }
      start := end;
    }
    NextPassage(text, source, page, size, start);
    Seqs.AppendNil(ps);
  }

  lemma NextPassage(text: Text, source: string, page: Option<nat>, size: nat, start: nat)
    requires start <= |text| && size >= 1
    ensures PassagesFrom(text, source, page, size, start) ==
      if start == |text| then []
      else
        var end := PassageEnd(text, start, size);
        (if IsBlank(text[start..end]) then []
         else [Passage((source, page, start), source, text[start..end], page, start, end)])
        + PassagesFrom(text, source, page, size, end)
  {}

  /** Passages carry the exact text of their offsets, in order and without overlap; they are not blank,
      within the size, and everything between them is blank. */
  ghost predicate CutsUp(ps: seq<Passage>, text: Text, source: string, page: Option<nat>, size: nat, from: nat) {
    && from <= |text|
    && (ps == [] ==> BlankRange(text, from, |text|))
    && (ps != [] ==>
          && from <= ps[0].start < ps[0].end <= |text| && BlankRange(text, from, ps[0].start)
          && PassageIs(ps[0], text, source, page, ps[0].start, ps[0].end)
          && !BlankRange(text, ps[0].start, ps[0].end) && ps[0].end - ps[0].start <= size
          && CutsUp(ps[1..], text, source, page, size, ps[0].end))
  }

  lemma {:induction false} WidenCut(ps: seq<Passage>, text: Text, source: string, page: Option<nat>, size: nat,
                                    a: nat, b: nat)
    requires a <= b && CutsUp(ps, text, source, page, size, b) && BlankRange(text, a, b)
    ensures CutsUp(ps, text, source, page, size, a)
  {}

  lemma {:induction false} PassagesCutUp(text: Text, source: string, page: Option<nat>, size: nat, start: nat)
    requires start <= |text| && size >= 1
    ensures CutsUp(PassagesFrom(text, source, page, size, start), text, source, page, size, start)
    decreases |text| - start
  {
    hide IsSpace;
    if start < |text| {
      var end := PassageEnd(text, start, size);
      PassagesCutUp(text, source, page, size, end);
      var rest := PassagesFrom(text, source, page, size, end);
      BlankSlice(text, start, end);
      if IsBlank(text[start..end]) {
        WidenCut(rest, text, source, page, size, start, end);
      } else {
        assert PassagesFrom(text, source, page, size, start)[1..] == rest;
      }
    }
  }

  lemma BlankSlice(text: Text, a: nat, b: nat)
    requires a <= b <= |text|
    ensures IsBlank(text[a..b]) <==> BlankRange(text, a, b)
  {
    if IsBlank(text[a..b]) { forall k | a <= k < b ensures IsSpace(text[k]) { assert IsSpace(text[a..b][k - a]); } }
  }

  lemma {:induction false} EachPassage(ps: seq<Passage>, text: Text, source: string, page: Option<nat>, size: nat,
                                       from: nat, k: nat)
    requires CutsUp(ps, text, source, page, size, from) && k < |ps|
    ensures from <= ps[k].start < ps[k].end <= |text| && PassageIs(ps[k], text, source, page, ps[k].start, ps[k].end)
  {
    if k > 0 { EachPassage(ps[1..], text, source, page, size, ps[0].end, k - 1); }
  }

  // ---- evidence ------------------------------------------------------------------------------------

  datatype Source = Source(id: string, usable: bool, passages: seq<Passage>, read: set<(string, Option<nat>, nat)>)

  datatype ProposedEvidence = ProposedEvidence(source: string, passage: (string, Option<nat>, nat), quote: Text)

  datatype ProposedClaim = ProposedClaim(text: Text, evidence: seq<ProposedEvidence>)

  datatype Evidence = Evidence(id: nat, source: string, passage: (string, Option<nat>, nat), quote: Text,
                               page: Option<nat>, start: nat, end: nat, exact: bool)

  datatype Claim = Claim(id: nat, text: Text, evidence: seq<nat>, unsupported: bool)

  datatype Rejection = UnknownSource | UnusableSource | AmbiguousPassage | ForeignPassage | UnreadPassage | NoSuchQuote

  datatype Problem = Problem(claim: nat, item: ProposedEvidence, why: Rejection)

  function CountSources(sources: seq<Source>, id: string): nat {
    if sources == [] then 0 else CountSources(sources[1..], id) + if sources[0].id == id then 1 else 0
  }

  function CountIn(ps: seq<Passage>, id: (string, Option<nat>, nat)): nat {
    if ps == [] then 0 else CountIn(ps[1..], id) + if ps[0].id == id then 1 else 0
  }

  function CountPassages(sources: seq<Source>, id: (string, Option<nat>, nat)): nat {
    if sources == [] then 0 else CountPassages(sources[1..], id) + CountIn(sources[0].passages, id)
  }

  function FindSource(sources: seq<Source>, id: string): (r: Option<Source>)
    ensures r.Some? ==> r.value in sources && r.value.id == id
  {
    if sources == [] then None else if sources[0].id == id then Some(sources[0]) else FindSource(sources[1..], id)
  }

  function FindPassage(ps: seq<Passage>, id: (string, Option<nat>, nat), source: string): (r: Option<Passage>)
    ensures r.Some? ==> r.value in ps && r.value.id == id && r.value.source == source
  {
    if ps == [] then None
    else if ps[0].id == id && ps[0].source == source then Some(ps[0]) else FindPassage(ps[1..], id, source)
  }

  /** Where a proposed quotation stands, or why it is refused. */
  function Locate(sources: seq<Source>, item: ProposedEvidence): (r: Result<(Passage, Span), Rejection>)
    ensures r.Ok? ==> r.value.1.start <= r.value.1.end <= |r.value.0.text|
  {
    if CountSources(sources, item.source) != 1 then Err(UnknownSource)
    else
      match FindSource(sources, item.source)
      case None => Err(UnknownSource)
      case Some(s) =>
        if !s.usable then Err(UnusableSource)
        else if CountPassages(sources, item.passage) != 1 then Err(AmbiguousPassage)
        else
          match FindPassage(s.passages, item.passage, s.id)
          case None => Err(ForeignPassage)
          case Some(p) =>
            if item.passage !in s.read then Err(UnreadPassage)
            else
              SpanReadsAsQuote(p.text, item.quote);
              match QuoteSpan(p.text, item.quote)
              case None => Err(NoSuchQuote)
              case Some(span) => Ok((p, span))
  }

  /** Stored evidence is a located quotation with the offsets of its passage added. */
  ghost predicate Stored(sources: seq<Source>, e: Evidence, item: ProposedEvidence) {
    && Locate(sources, item).Ok?
    && var (p, span) := Locate(sources, item).value;
    && e.source == item.source && e.passage == item.passage && e.page == p.page && e.exact == span.exact
    && e.quote == p.text[span.start..span.end]
    && e.start == p.start + span.start && e.end == p.start + span.end
  }

  /** What a claim keeps: its accepted proposals, in order, under consecutive ids from `first` on. */
  ghost predicate Keeps(sources: seq<Source>, c: Claim, proposal: ProposedClaim, evidence: seq<Evidence>, first: nat,
                        n: nat)
    requires n <= |proposal.evidence|
  {
    var kept := Accepted(sources, proposal.evidence[..n]);
    && |c.evidence| == |kept| && first + |kept| <= |evidence|
    && forall k | 0 <= k < |kept| :: KeptAt(sources, c, kept[k], evidence, first, k)
  }

  ghost predicate KeptAt(sources: seq<Source>, c: Claim, item: ProposedEvidence, evidence: seq<Evidence>, first: nat,
                         k: nat)
    requires k < |c.evidence| && first + k < |evidence|
  {
    c.evidence[k] == first + k + 1 && evidence[first + k].id == first + k + 1
    && Stored(sources, evidence[first + k], item)
  }

  function Accepted(sources: seq<Source>, items: seq<ProposedEvidence>): seq<ProposedEvidence> {
    if items == [] then []
    else
      var init, last := Accepted(sources, items[..|items| - 1]), items[|items| - 1];
      if Locate(sources, last).Ok? then init + [last] else init
  }

  function Refused(sources: seq<Source>, claim: nat, items: seq<ProposedEvidence>): seq<Problem> {
    if items == [] then []
    else
      var init, last := Refused(sources, claim, items[..|items| - 1]), items[|items| - 1];
      match Locate(sources, last)
      case Ok(_) => init
      case Err(why) => init + [Problem(claim, last, why)]
  }

  /** First evidence index of the `n`-th claim. */
  function FirstOf(sources: seq<Source>, claims: seq<ProposedClaim>, n: nat): nat
    requires n <= |claims|
  {
    if n == 0 then 0 else FirstOf(sources, claims, n - 1) + |Accepted(sources, claims[n - 1].evidence)|
  }

  function AllRefused(sources: seq<Source>, claims: seq<ProposedClaim>, n: nat): seq<Problem>
    requires n <= |claims|
  {
    if n == 0 then [] else AllRefused(sources, claims, n - 1) + Refused(sources, n, claims[n - 1].evidence)
  }

  ghost predicate ClaimOk(sources: seq<Source>, proposals: seq<ProposedClaim>, claims: seq<Claim>,
                          evidence: seq<Evidence>, n: nat)
    requires n < |proposals| && n < |claims|
  {
    && claims[n].id == n + 1 && claims[n].text == proposals[n].text
    && (claims[n].unsupported <==> claims[n].evidence == [])
    && Keeps(sources, claims[n], proposals[n], evidence, FirstOf(sources, proposals, n), |proposals[n].evidence|)
  }

  lemma AcceptedNext(sources: seq<Source>, items: seq<ProposedEvidence>, n: nat)
    requires n < |items|
    ensures Accepted(sources, items[..n + 1]) ==
      Accepted(sources, items[..n]) + (if Locate(sources, items[n]).Ok? then [items[n]] else [])
  {
    hide Locate;
    assert items[..n + 1][..n] == items[..n];
    Seqs.AppendNil(Accepted(sources, items[..n]));
  }

  lemma KeepsRefused(sources: seq<Source>, c: Claim, proposal: ProposedClaim, evidence: seq<Evidence>, first: nat,
                     n: nat)
    requires n < |proposal.evidence| && Keeps(sources, c, proposal, evidence, first, n)
    requires Locate(sources, proposal.evidence[n]).Err?
    ensures Keeps(sources, c, proposal, evidence, first, n + 1)
  {
    hide Locate, Accepted, KeptAt;
    AcceptedNext(sources, proposal.evidence, n);
    Seqs.AppendNil(Accepted(sources, proposal.evidence[..n]));
  }

  lemma KeepsAccepted(sources: seq<Source>, c: Claim, proposal: ProposedClaim, evidence: seq<Evidence>, first: nat,
                      n: nat, e: Evidence)
    requires n < |proposal.evidence| && Keeps(sources, c, proposal, evidence, first, n)
    requires |evidence| == first + |Accepted(sources, proposal.evidence[..n])|
    requires e.id == |evidence| + 1 && Stored(sources, e, proposal.evidence[n])
    ensures Keeps(sources, c.(evidence := c.evidence + [e.id]), proposal, evidence + [e], first, n + 1)
  {
    assert Locate(sources, proposal.evidence[n]).Ok?;
    hide Locate, Accepted, Stored;
    AcceptedNext(sources, proposal.evidence, n);
    var kept, kept' := Accepted(sources, proposal.evidence[..n]), Accepted(sources, proposal.evidence[..n + 1]);
    var c' := c.(evidence := c.evidence + [e.id]);
    forall k | 0 <= k < |kept'| ensures KeptAt(sources, c', kept'[k], evidence + [e], first, k) {
      if k < |kept| { assert KeptAt(sources, c, kept[k], evidence, first, k); }
    }
  }

  lemma RefusedNext(sources: seq<Source>, claim: nat, items: seq<ProposedEvidence>, n: nat)
    requires n < |items|
    ensures Refused(sources, claim, items[..n + 1]) == Refused(sources, claim, items[..n]) +
      (if Locate(sources, items[n]).Ok? then [] else [Problem(claim, items[n], Locate(sources, items[n]).error)])
  {
    hide Locate;
    assert items[..n + 1][..n] == items[..n];
  }

  lemma KeepsNothing(sources: seq<Source>, c: Claim, proposal: ProposedClaim, evidence: seq<Evidence>)
    requires c.evidence == []
    ensures Accepted(sources, proposal.evidence[..0]) == [] && Refused(sources, c.id, proposal.evidence[..0]) == []
    ensures Keeps(sources, c, proposal, evidence, |evidence|, 0)
  {}

  /** One claim: keep every quotation that can be located, report every other one. */
  method ValidateClaim(sources: seq<Source>, proposal: ProposedClaim, number: nat, before: seq<Evidence>)
    returns (claim: Claim, evidence: seq<Evidence>, errors: seq<Problem>)
    ensures |before| <= |evidence| && evidence[..|before|] == before
    ensures |evidence| == |before| + |Accepted(sources, proposal.evidence)|
    ensures claim.id == number && claim.text == proposal.text && (claim.unsupported <==> claim.evidence == [])
    ensures Keeps(sources, claim, proposal, evidence, |before|, |proposal.evidence|)
    ensures errors == Refused(sources, number, proposal.evidence)
  {
    hide *;
    claim, evidence, errors := Claim(number, proposal.text, [], false), before, [];
    KeepsNothing(sources, claim, proposal, evidence);
    for k := 0 to |proposal.evidence|
      invariant |before| <= |evidence| && evidence[..|before|] == before
      invariant claim == Claim(number, proposal.text, claim.evidence, false)
      invariant Keeps(sources, claim, proposal, evidence, |before|, k)
      invariant |evidence| == |before| + |Accepted(sources, proposal.evidence[..k])|
      invariant errors == Refused(sources, number, proposal.evidence[..k])
    {
      var item := proposal.evidence[k];
      AcceptedNext(sources, proposal.evidence, k);
      Seqs.AppendNil(Accepted(sources, proposal.evidence[..k]));
      RefusedNext(sources, number, proposal.evidence, k);
      match Locate(sources, item) {
        case Err(why) =>
          KeepsRefused(sources, claim, proposal, evidence, |before|, k);
          errors := errors + [Problem(number, item, why)];
        case Ok(found) =>
          var (passage, span) := found;
          var e := Evidence(|evidence| + 1, item.source, item.passage, passage.text[span.start..span.end],
                            passage.page, passage.start + span.start, passage.start + span.end, span.exact);
          StoredAs(sources, item, e);
          KeepsAccepted(sources, claim, proposal, evidence, |before|, k, e);
          evidence := evidence + [e];
          claim := claim.(evidence := claim.evidence + [e.id]);
          Seqs.AppendNil(errors);
      }
    }
    assert proposal.evidence[..|proposal.evidence|] == proposal.evidence;
    if claim.evidence == [] {
      claim := claim.(unsupported := true);
      StillKeeps(sources, claim, proposal, evidence, |before|);
    }
  }

  lemma StillKeeps(sources: seq<Source>, c: Claim, proposal: ProposedClaim, evidence: seq<Evidence>, first: nat)
    requires Keeps(sources, c.(unsupported := false), proposal, evidence, first, |proposal.evidence|)
    ensures Keeps(sources, c, proposal, evidence, first, |proposal.evidence|)
  {}

  lemma StoredAs(sources: seq<Source>, item: ProposedEvidence, e: Evidence)
    requires Locate(sources, item).Ok?
    requires var (p, span) := Locate(sources, item).value;
      && e.source == item.source && e.passage == item.passage && e.page == p.page && e.exact == span.exact
      && e.quote == p.text[span.start..span.end]
      && e.start == p.start + span.start && e.end == p.start + span.end
    ensures Stored(sources, e, item)
  {
    hide Locate;
  }

  method ValidateExtraction(proposals: seq<ProposedClaim>, sources: seq<Source>)
    returns (claims: seq<Claim>, evidence: seq<Evidence>, errors: seq<Problem>)
    ensures |claims| == |proposals| && |evidence| == FirstOf(sources, proposals, |proposals|)
    ensures forall n | 0 <= n < |proposals| :: ClaimOk(sources, proposals, claims, evidence, n)
    ensures errors == AllRefused(sources, proposals, |proposals|)
  {
    hide Keeps, Accepted, Refused;
    claims, evidence, errors := [], [], [];
    for number := 0 to |proposals|
      invariant |claims| == number && |evidence| == FirstOf(sources, proposals, number)
      invariant forall n | 0 <= n < number :: ClaimOk(sources, proposals, claims, evidence, n)
      invariant errors == AllRefused(sources, proposals, number)
    {
      var claim, more, problems := ValidateClaim(sources, proposals[number], number + 1, evidence);
      ClaimsStay(sources, proposals, claims, [claim], evidence, more, number);
      claims, evidence, errors := claims + [claim], more, errors + problems;
      assert ClaimOk(sources, proposals, claims, evidence, number);
    }
  }

  lemma ClaimsStay(sources: seq<Source>, proposals: seq<ProposedClaim>, claims: seq<Claim>, more: seq<Claim>,
                   was: seq<Evidence>, now: seq<Evidence>, n: nat)
    requires n <= |proposals| && n <= |claims| && |was| <= |now| && now[..|was|] == was
    requires forall k | 0 <= k < n :: ClaimOk(sources, proposals, claims, was, k)
    ensures forall k | 0 <= k < n :: ClaimOk(sources, proposals, claims + more, now, k)
  {
    hide Keeps;
    forall k | 0 <= k < n ensures ClaimOk(sources, proposals, claims + more, now, k) {
      assert ClaimOk(sources, proposals, claims, was, k);
      KeepsStay(sources, claims[k], proposals[k], was, now, FirstOf(sources, proposals, k));
    }
  }

  lemma KeepsStay(sources: seq<Source>, c: Claim, proposal: ProposedClaim, was: seq<Evidence>, now: seq<Evidence>,
                  first: nat)
    requires |was| <= |now| && now[..|was|] == was
    requires Keeps(sources, c, proposal, was, first, |proposal.evidence|)
    ensures Keeps(sources, c, proposal, now, first, |proposal.evidence|)
  {
    hide Accepted, Stored;
    var kept := Accepted(sources, proposal.evidence[..|proposal.evidence|]);
    forall k | 0 <= k < |kept| ensures KeptAt(sources, c, kept[k], now, first, k) {
      assert KeptAt(sources, c, kept[k], was, first, k);
      assert now[first + k] == now[..|was|][first + k];
    }
  }

  // ---- exact quotation, end to end ----------------------------------------------------------------

  /** Every passage of the source was cut from the text of its own page. */
  ghost predicate CutFrom(s: Source, pages: map<Option<nat>, Text>, size: nat) {
    size >= 1 && forall p | p in s.passages :: p.source == s.id ==>
      p.page in pages && p in PassagesFrom(pages[p.page], s.id, p.page, size, 0)
  }

  /** The stored offsets cut exactly the stored quotation out of the page, and it reads as proposed. */
  lemma StoredQuoteIsExact(sources: seq<Source>, e: Evidence, item: ProposedEvidence, s: Source,
                           pages: map<Option<nat>, Text>, size: nat)
    requires Stored(sources, e, item)
    requires FindSource(sources, item.source) == Some(s) && CutFrom(s, pages, size)
    ensures e.page in pages && e.start <= e.end <= |pages[e.page]|
    ensures pages[e.page][e.start..e.end] == e.quote
    ensures Strip(Collapse(e.quote)) == Needle(item.quote)
    ensures e.exact ==> e.quote == item.quote
  {
    hide QuoteSpan, Collapse, Strip, Needle, PassagesFrom;
    var (p, span) := Locate(sources, item).value;
    LocatedParts(sources, item, s);
    SpanReadsAsQuote(p.text, item.quote);
    BlankHasNoSpan(p.text, item.quote);
    ExactSpan(p.text, item.quote);
    var body := pages[p.page];
    PassagesCutUp(body, s.id, p.page, size, 0);
    var ps := PassagesFrom(body, s.id, p.page, size, 0);
    var k :| 0 <= k < |ps| && ps[k] == p;
    EachPassage(ps, body, s.id, p.page, size, 0, k);
    Seqs.SliceOfSlice(body, p.start, p.end, span.start, span.end);
  }

  lemma LocatedParts(sources: seq<Source>, item: ProposedEvidence, s: Source)
    requires Locate(sources, item).Ok? && FindSource(sources, item.source) == Some(s)
    ensures var (p, span) := Locate(sources, item).value;
      p in s.passages && p.source == s.id && QuoteSpan(p.text, item.quote) == Some(span)
  {
    hide QuoteSpan;
  }

  lemma BlankHasNoSpan(text: Text, quote: Text)
    ensures IsBlank(quote) ==> QuoteSpan(text, quote).None?
  {}
}
