/** Which fence lines the splitter records, told delimiter by delimiter. */
module FenceMarks {
  import opened Options
  import opened Text
  import opened Fences

  // ---- reading a line --------------------------------------------------------------------------------

  /** At most three spaces, then a row of at least three backticks or tildes, and no more of them behind it. */
  ghost predicate Row(line: Text, indent: nat, n: nat) {
    && indent <= 3 && n >= 3 && indent + n <= |line|
    && (forall i | 0 <= i < indent :: line[i] == 32)
    && (line[indent] == 96 || line[indent] == 126)
    && (forall i | indent <= i < indent + n :: line[i] == line[indent])
    && (indent + n < |line| ==> line[indent + n] != line[indent])
  }

  lemma FenceLineExactly(line: Text)
    ensures IsFenceLine(line) <==> exists indent, n :: Row(line, indent, n)
  {
    if IsFenceLine(line) {
      RowOf(line);
      assert Row(line, RunLength(line, SPACE), RunLength(line[RunLength(line, SPACE)..], line[RunLength(line, SPACE)]));
    }
    if indent: nat, n: nat :| Row(line, indent, n) { RowIs(line, indent, n); }
  }

  lemma RowOf(line: Text)
    requires IsFenceLine(line)
    ensures var indent := RunLength(line, SPACE);
            indent < |line| && Row(line, indent, RunLength(line[indent..], line[indent]))
  {
    var indent := RunLength(line, SPACE);
    var rest, c := line[indent..], line[indent];
    var n := RunLength(rest, c);
    hide RunLength, IsFenceLine;
    forall i | indent <= i < indent + n ensures line[i] == c { assert rest[i - indent] == line[i]; }
    if indent + n < |line| { assert rest[n] == line[indent + n]; }
  }

  lemma RunIs(s: Text, c: CodePoint, n: nat)
    requires n <= |s| && (forall i | 0 <= i < n :: s[i] == c) && (n < |s| ==> s[n] != c)
    ensures RunLength(s, c) == n
  {}

  lemma RowIs(line: Text, indent: nat, n: nat)
    requires Row(line, indent, n)
    ensures IsFenceLine(line) && RunLength(line, SPACE) == indent && RunLength(line[indent..], line[indent]) == n
  {
    RunIs(line, SPACE, indent);
    var rest := line[indent..];
    assert forall i | 0 <= i < n :: rest[i] == line[indent + i];
    if n < |rest| { assert rest[n] == line[indent + n]; }
    RunIs(rest, line[indent], n);
  }

  /** What is read off a fence line: the row, what stands behind it, and the line itself. */
  lemma DelimReads(text: Text, d: Delim, indent: nat, n: nat)
    requires IsDelim(text, d) && Row(text[d.left..LineStop(text, d.left)], indent, n)
    ensures var line := text[d.left..LineStop(text, d.left)];
            && d.line == line && d.marker == line[indent..indent + n] && d.info == line[indent + n..]
            && d.right == if LineStop(text, d.left) < |text| then LineStop(text, d.left) + 1 else |text|
  {
    var line := text[d.left..LineStop(text, d.left)];
    assert d == ParseDelim(line, d.left, NextLine(text, d.left));
    hide IsFenceLine, IsDelim, ParseDelim, Row;
    ParseReads(line, d.left, NextLine(text, d.left), indent, n);
  }

  lemma ParseReads(line: Text, left: nat, right: nat, indent: nat, n: nat)
    requires Row(line, indent, n)
    ensures IsFenceLine(line) && indent + n <= |line|
    ensures var d := ParseDelim(line, left, right);
            d.line == line && d.marker == line[indent..indent + n] && d.info == line[indent + n..] && d.right == right
  {
    RowIs(line, indent, n);
    hide IsFenceLine;
  }

  lemma {:induction false} DelimsRead(text: Text, i: nat)
    requires i <= |text|
    ensures forall d | d in Delims(text, i) :: IsDelim(text, d)
    decreases |text| - i
  {
    hide IsFenceLine, Usable;
    if i < |text| {
      DelimsRead(text, NextLine(text, i));
      if IsFenceLine(text[i..LineStop(text, i)]) { ParsedBounds(text[i..LineStop(text, i)], i, NextLine(text, i)); }
    }
  }

  // ---- pairing ---------------------------------------------------------------------------------------

  /** A backtick fence may not have a backtick behind its row. */
  predicate CanOpen(d: Delim)
    requires |d.marker| > 0
  {
    d.marker[0] == 96 ==> 96 !in d.info
  }

  /** The same character, at least as long a row, and nothing but white space behind it. */
  predicate Ends(d: Delim, open: Delim)
    requires |d.marker| > 0 && |open.marker| > 0
  {
    d.marker[0] == open.marker[0] && |open.marker| <= |d.marker| && forall i | 0 <= i < |d.info| :: IsSpace(d.info[i])
  }

  ghost predicate Usables(text: Text, ds: seq<Delim>) { forall k | 0 <= k < |ds| :: Usable(text, ds[k]) }

  /** The fence that is open before the `k`-th line, read from the start. */
  ghost function OpenBefore(text: Text, ds: seq<Delim>, k: nat): (r: Option<nat>)
    requires Usables(text, ds) && k <= |ds|
    ensures r.Some? ==> r.value < k
  {
    if k == 0 then None
    else
      assert Usable(text, ds[k - 1]);
      match OpenBefore(text, ds, k - 1)
      case None => if CanOpen(ds[k - 1]) then Some(k - 1) else None
      case Some(o) =>
        assert Usable(text, ds[o]);
        if Ends(ds[k - 1], ds[o]) then None else Some(o)
  }

  /** The line that ends fence `o`: the first that can. */
  ghost predicate EndOf(text: Text, ds: seq<Delim>, o: nat, c: nat)
    requires Usables(text, ds) && o < |ds|
  {
    && o < c < |ds| && (forall k | o <= k <= c :: Usable(text, ds[k]))
    && Ends(ds[c], ds[o]) && forall k | o < k < c :: !Ends(ds[k], ds[o])
  }

  /** A fence is recorded if its lines leave half of a message for text, and its end fits behind its opening line. */
  ghost predicate Kept(text: Text, ds: seq<Delim>, o: nat, limit: int)
    requires Usables(text, ds) && o < |ds|
  {
    && Units(ds[o].line) + 2 + Units(ds[o].marker) + (if limit / 2 >= 2 then limit / 2 else 2) <= limit
    && forall c: nat | EndOf(text, ds, o, c) :: ds[c].left <= ds[c].right <= |text|
         && Units(ds[o].line) + 1 + Units(text[ds[c].left..ds[c].right]) <= limit
  }

  /** What the `j`-th line is recorded as. */
  ghost predicate RecordedAs(text: Text, ds: seq<Delim>, j: nat, limit: int, m: Mark)
    requires Usables(text, ds) && j < |ds|
  {
    assert Usable(text, ds[j]);
    m.left == ds[j].left && m.right == ds[j].right
    && match OpenBefore(text, ds, j)
       case None => CanOpen(ds[j]) && Kept(text, ds, j, limit) && m.open == Some(ds[j])
       case Some(o) =>
         assert Usable(text, ds[o]);
         Ends(ds[j], ds[o]) && Kept(text, ds, o, limit) && m.open == None
  }

  lemma EndsExactly(text: Text, d: Delim, open: Delim)
    requires Usable(text, d) && Usable(text, open)
    ensures Closes(d, open) <==> Ends(d, open)
    ensures Opens(d) <==> CanOpen(d)
  {}

  lemma RoomExactly(text: Text, d: Delim, close: Delim, limit: int)
    requires Usable(text, d) && Usable(text, close)
    ensures Wraps(d, limit)
            <==> Units(d.line) + 2 + Units(d.marker) + (if limit / 2 >= 2 then limit / 2 else 2) <= limit
    ensures CloserFits(text, d, close, limit) <==> Units(d.line) + 1 + Units(text[close.left..close.right]) <= limit
  {
    assert [NEWLINE, NEWLINE] == [NEWLINE] + [NEWLINE] && [NEWLINE][..0] == [];
    assert Units([NEWLINE]) == 1;
    UnitsAppend([NEWLINE], [NEWLINE]);
    UnitsAppend(d.line, [NEWLINE, NEWLINE]);
    UnitsAppend(d.line + [NEWLINE, NEWLINE], d.marker);
    UnitsAppend(d.line, [NEWLINE]);
    UnitsAppend(d.line + [NEWLINE], text[close.left..close.right]);
    hide Units;
  }

  /** Nothing has ended the open fence so far. */
  lemma {:induction false} StillOpen(text: Text, ds: seq<Delim>, k: nat)
    requires Usables(text, ds) && k <= |ds|
    ensures var r := OpenBefore(text, ds, k);
            r.Some? ==> forall j | r.value < j < k :: Usable(text, ds[j]) && Usable(text, ds[r.value])
                                                      && !Ends(ds[j], ds[r.value])
  {
    hide Usable, Ends, CanOpen;
    if k > 0 { StillOpen(text, ds, k - 1); }
  }

  lemma KeptEnded(text: Text, ds: seq<Delim>, o: nat, c: nat, limit: int)
    requires Usables(text, ds) && o < |ds| && EndOf(text, ds, o, c)
    ensures Usable(text, ds[o]) && Usable(text, ds[c])
    ensures Kept(text, ds, o, limit) <==> Wraps(ds[o], limit) && CloserFits(text, ds[o], ds[c], limit)
  {
    RoomExactly(text, ds[o], ds[c], limit);
    forall k | EndOf(text, ds, o, k) ensures k == c {}
    hide Wraps, CloserFits, Units, Ends;
  }

  lemma KeptOpen(text: Text, ds: seq<Delim>, o: nat, limit: int)
    requires Usables(text, ds) && o < |ds| && forall c :: !EndOf(text, ds, o, c)
    ensures Usable(text, ds[o]) && (Kept(text, ds, o, limit) <==> Wraps(ds[o], limit))
  {
    assert Usable(text, ds[o]);
    RoomExactly(text, ds[o], ds[o], limit);
    hide Wraps, Units;
  }

  ghost predicate SomeFrom(text: Text, ds: seq<Delim>, i: nat, limit: int, m: Mark)
    requires Usables(text, ds)
  {
    exists j: nat :: i <= j < |ds| && RecordedAs(text, ds, j, limit, m)
  }

  lemma FromNext(text: Text, ds: seq<Delim>, i: nat, limit: int, m: Mark)
    requires Usables(text, ds) && i < |ds|
    ensures SomeFrom(text, ds, i, limit, m)
            <==> RecordedAs(text, ds, i, limit, m) || SomeFrom(text, ds, i + 1, limit, m)
  {
    hide RecordedAs;
  }

  lemma OpensAs(text: Text, ds: seq<Delim>, i: nat, limit: int, m: Mark)
    requires Usables(text, ds) && i < |ds| && OpenBefore(text, ds, i) == None && Usable(text, ds[i])
    ensures RecordedAs(text, ds, i, limit, m) <==> CanOpen(ds[i]) && Kept(text, ds, i, limit) && m == Opening(ds[i])
  {
    hide Kept, CanOpen, Usable;
  }

  lemma EndsAs(text: Text, ds: seq<Delim>, o: nat, k: nat, limit: int, m: Mark)
    requires Usables(text, ds) && o < k < |ds| && OpenBefore(text, ds, k) == Some(o)
    requires Usable(text, ds[k]) && Usable(text, ds[o])
    ensures RecordedAs(text, ds, k, limit, m)
            <==> Ends(ds[k], ds[o]) && Kept(text, ds, o, limit) && m == Closing(ds[k])
  {
    hide Kept, Ends, Usable;
  }

  lemma OpenNext(text: Text, ds: seq<Delim>, i: nat)
    requires Usables(text, ds) && i < |ds| && OpenBefore(text, ds, i) == None && Usable(text, ds[i])
    ensures OpenBefore(text, ds, i + 1) == if CanOpen(ds[i]) then Some(i) else None
  {
    hide CanOpen, Usable;
  }

  lemma RecordedStep(text: Text, ds: seq<Delim>, i: nat, limit: int)
    requires Usables(text, ds) && i < |ds| && Usable(text, ds[i])
    ensures Recorded(text, ds, i, limit) == if Opens(ds[i]) then AfterOpen(text, ds, ds[i], i + 1, limit)
                                            else Recorded(text, ds, i + 1, limit)
  {
    hide Opens, Usable, AfterOpen;
  }

  lemma RecordedEmpty(text: Text, ds: seq<Delim>, limit: int)
    requires Usables(text, ds)
    ensures Recorded(text, ds, |ds|, limit) == []
  {}

  lemma {:induction false} RecordedHas(text: Text, ds: seq<Delim>, i: nat, limit: int, m: Mark)
    requires Usables(text, ds) && i <= |ds| && OpenBefore(text, ds, i) == None
    ensures m in Recorded(text, ds, i, limit) <==> SomeFrom(text, ds, i, limit, m)
    decreases |ds| - i, 1
  {
    if i == |ds| {
      RecordedEmpty(text, ds, limit);
    } else {
      assert Usable(text, ds[i]);
      EndsExactly(text, ds[i], ds[i]);
      FromNext(text, ds, i, limit, m);
      OpensAs(text, ds, i, limit, m);
      OpenNext(text, ds, i);
      RecordedStep(text, ds, i, limit);
      hide *;
      if CanOpen(ds[i]) { AfterOpenHas(text, ds, i, i + 1, limit, m); } else { RecordedHas(text, ds, i + 1, limit, m); }
    }
  }

  lemma AfterOpenStep(text: Text, ds: seq<Delim>, o: nat, k: nat, limit: int)
    requires Usables(text, ds) && o < k < |ds| && Usable(text, ds[o]) && Usable(text, ds[k])
    ensures AfterOpen(text, ds, ds[o], k, limit)
            == if !Closes(ds[k], ds[o]) then AfterOpen(text, ds, ds[o], k + 1, limit)
               else if Wraps(ds[o], limit) && CloserFits(text, ds[o], ds[k], limit)
               then [Opening(ds[o])] + ([Closing(ds[k])] + Recorded(text, ds, k + 1, limit))
               else Recorded(text, ds, k + 1, limit)
  {
    hide Closes, Usable, Wraps, CloserFits, Recorded;
  }

  lemma AfterOpenEmpty(text: Text, ds: seq<Delim>, o: nat, limit: int, m: Mark)
    requires Usables(text, ds) && o < |ds| && Usable(text, ds[o]) && OpenBefore(text, ds, |ds|) == Some(o)
    ensures m in AfterOpen(text, ds, ds[o], |ds|, limit) <==> Kept(text, ds, o, limit) && m == Opening(ds[o])
    ensures !SomeFrom(text, ds, |ds|, limit, m)
  {
    StillOpen(text, ds, |ds|);
    hide Usable, Ends, Wraps, CanOpen, OpenBefore;
    KeptOpen(text, ds, o, limit);
  }

  /** The open fence is ended here, or still open after this line. */
  lemma EndNext(text: Text, ds: seq<Delim>, o: nat, k: nat)
    requires Usables(text, ds) && o < k < |ds| && OpenBefore(text, ds, k) == Some(o)
    requires Usable(text, ds[o]) && Usable(text, ds[k])
    ensures OpenBefore(text, ds, k + 1) == if Ends(ds[k], ds[o]) then None else Some(o)
    ensures Ends(ds[k], ds[o]) ==> EndOf(text, ds, o, k)
  {
    StillOpen(text, ds, k);
    hide CanOpen, Usable, Ends;
  }

  lemma {:induction false} AfterOpenHas(text: Text, ds: seq<Delim>, o: nat, k: nat, limit: int, m: Mark)
    requires Usables(text, ds) && o < k <= |ds| && OpenBefore(text, ds, k) == Some(o) && Usable(text, ds[o])
    ensures m in AfterOpen(text, ds, ds[o], k, limit)
            <==> (Kept(text, ds, o, limit) && m == Opening(ds[o])) || SomeFrom(text, ds, k, limit, m)
    decreases |ds| - k, 0
  {
    if k == |ds| {
      AfterOpenEmpty(text, ds, o, limit, m);
    } else {
      assert Usable(text, ds[k]);
      EndsExactly(text, ds[k], ds[o]);
      FromNext(text, ds, k, limit, m);
      EndsAs(text, ds, o, k, limit, m);
      EndNext(text, ds, o, k);
      AfterOpenStep(text, ds, o, k, limit);
      hide *;
      if Ends(ds[k], ds[o]) {
        KeptEnded(text, ds, o, k, limit);
        RecordedHas(text, ds, k + 1, limit, m);
        PairIn(m, Opening(ds[o]), Closing(ds[k]), Recorded(text, ds, k + 1, limit));
      } else {
        AfterOpenHas(text, ds, o, k + 1, limit, m);
      }
    }
  }

  lemma PairIn(m: Mark, a: Mark, b: Mark, rest: seq<Mark>)
    ensures m in [a] + ([b] + rest) <==> m == a || m == b || m in rest
  {}

  /** A line is recorded exactly if it opens a fence that is kept, where no fence is open, or ends the kept fence that
      is. */
  lemma MarksExactly(text: Text, limit: int, m: Mark)
    ensures var ds := Delims(text, 0);
            && Usables(text, ds)
            && (m in Marks(text, limit) <==> exists j: nat :: j < |ds| && RecordedAs(text, ds, j, limit, m))
  {
    var ds := Delims(text, 0);
    hide Usable, Delims, Recorded;
    RecordedHas(text, ds, 0, limit, m);
  }
}
