/** Bridges in any number of processes share one ledger. A step is one database transaction of one bridge, the start of
    a process or of a bridge, or the death of a process with all its bridges, at any moment. */
module BridgeRuns {
  import opened Options
  import opened Ledger

  /** What the one inbox loop of a bridge is doing: `begun` once the claim of the message has answered, `closed` once
      the row has been marked done before the answer is delivered. */
  datatype Work = Idle | Working(message: Message, begun: bool, closed: bool)

  /** `greeting`: rows this bridge has stored and still acknowledges. */
  datatype Bridge = Bridge(work: Work, greeting: set<Message>)

  /** `started` and `order` record every execution that began: its message, and for inbox rows the sequence number. */
  datatype System = System(book: Book, live: set<nat>, bridges: map<Consumer, Bridge>, ever: set<nat>,
                           started: seq<Message>, order: seq<nat>)

  datatype Move =
    | Launch(process: nat)
    | Open(c: Consumer)
    | Crash(process: nat)
    | Arrive(c: Consumer, m: Message, text: string)
    | Acknowledge(c: Consumer, m: Message)
    | Greeted(c: Consumer, m: Message)
    | Take(c: Consumer)
    | Receipt(c: Consumer)
    | Begin(c: Consumer)
    | Close(c: Consumer)
    | Leave(c: Consumer, done: bool)
    | Legacy(c: Consumer, m: Message)

  predicate Enabled(s: System, v: Move) {
    match v
    case Launch(p) => p !in s.ever
    case Open(c) => c.process in s.live && c !in s.bridges
    case Crash(p) => p in s.live
    case Arrive(c, m, _) => c in s.bridges
    case Acknowledge(c, m) => c in s.bridges && m in s.bridges[c].greeting
    case Greeted(c, m) => c in s.bridges && m in s.bridges[c].greeting
    case Take(c) => c in s.bridges && s.bridges[c].work.Idle?
    case Receipt(c) => c in s.bridges && s.bridges[c].work.Working? && !s.bridges[c].work.closed
    case Begin(c) => c in s.bridges && s.bridges[c].work.Working? && !s.bridges[c].work.begun
    case Close(c) =>
      && c in s.bridges && s.bridges[c].work.Working? && s.bridges[c].work.begun && !s.bridges[c].work.closed
    case Leave(c, done) => c in s.bridges && s.bridges[c].work.Working? && (s.bridges[c].work.closed ==> done)
    case Legacy(c, m) => c in s.bridges
  }

  function WithWork(s: System, c: Consumer, w: Work): map<Consumer, Bridge>
    requires c in s.bridges
  {
    s.bridges[c := s.bridges[c].(work := w)]
  }

  /** The sequence number of a message's row, if it has one. */
  function Sequences(rows: seq<Row>, m: Message): seq<nat> {
    if rows == [] then [] else (if rows[0].message == m then [rows[0].sequence] else []) + Sequences(rows[1..], m)
  }

  function Next(s: System, v: Move): System
    requires Enabled(s, v)
  {
    match v
    case Launch(p) => s.(live := s.live + {p}, ever := s.ever + {p})
    case Open(c) => s.(book := Reopen(s.book), bridges := s.bridges[c := Bridge(Idle, {})])
    case Crash(p) =>
      s.(live := s.live - {p}, bridges := map c | c in s.bridges && c.process != p :: s.bridges[c])
    case Arrive(c, m, text) =>
      var a := Enqueue(s.book, m, text, Some(c));
      s.(book := a.after,
         bridges := if a.out == Ok(true)
                    then s.bridges[c := s.bridges[c].(greeting := s.bridges[c].greeting + {m})] else s.bridges)
    case Acknowledge(c, m) => s.(book := Update(s.book, m, true, false, false))
    case Greeted(c, m) =>
      s.(book := Update(s.book, m, false, false, true),
         bridges := s.bridges[c := s.bridges[c].(greeting := s.bridges[c].greeting - {m})])
    case Take(c) =>
      var a := ClaimNext(s.book, c, s.live);
      s.(book := a.after,
         bridges := if a.out.value.Some? then WithWork(s, c, Working(a.out.value.value.message, false, false))
                    else s.bridges)
    case Receipt(c) => s.(book := Update(s.book, s.bridges[c].work.message, true, false, false))
    case Begin(c) =>
      var m := s.bridges[c].work.message;
      var a := Claim(s.book, m);
      s.(book := a.after,
         bridges := if a.out.Ok? then WithWork(s, c, s.bridges[c].work.(begun := true)) else s.bridges,
         started := if a.out == Ok(true) then s.started + [m] else s.started,
         order := if a.out == Ok(true) then s.order + Sequences(s.book.inbox, m) else s.order)
    case Close(c) =>
      s.(book := Update(s.book, s.bridges[c].work.message, false, true, false),
         bridges := WithWork(s, c, s.bridges[c].work.(closed := true)))
    case Leave(c, done) =>
      s.(book := Update(s.book, s.bridges[c].work.message, false, done, true), bridges := WithWork(s, c, Idle))
    case Legacy(c, m) =>
      var a := Claim(s.book, m);
      s.(book := a.after, started := if a.out == Ok(true) then s.started + [m] else s.started)
  }

  // ---- what every state keeps ------------------------------------------------------------------------

  predicate Sorted(rows: seq<Row>) {
    forall i, j | 0 <= i < j < |rows| :: rows[i].sequence < rows[j].sequence
  }

  /** Rows in order of arrival, one for each message, the finished ones first and without text. */
  ghost predicate BookOk(b: Book) {
    && Sorted(b.inbox)
    && (forall x: Row | x in b.inbox :: x.sequence < b.next && (x.done ==> x.text == ""))
    && (forall x: Row, y: Row | x in b.inbox && y in b.inbox :: RowsAgree(x, y))
  }

  /** The first pending row. */
  ghost predicate Heads(rows: seq<Row>, r: Row) {
    r in rows && !r.done && forall x: Row | x in rows && !x.done :: r.sequence <= x.sequence
  }

  ghost predicate WorkOk(b: Book, c: Consumer, w: Work) {
    w.Working? ==>
      && (w.begun ==> w.message in b.requests) && (w.closed ==> w.begun)
      && (w.closed ==> forall x: Row | x in b.inbox && x.message == w.message :: x.done)
      && (!w.closed ==> exists r: Row :: Heads(b.inbox, r) && r.message == w.message && r.consumer == Some(c))
  }

  ghost predicate Owned(b: Book, c: Consumer, m: Message) {
    exists r: Row :: r in b.inbox && r.message == m && !r.done && r.consumer == Some(c)
  }

  ghost predicate BridgeOk(b: Book, c: Consumer, a: Bridge) {
    && WorkOk(b, c, a.work)
    && (forall m | m in a.greeting :: Owned(b, c, m))
    && (a.work.Working? && !a.work.closed ==> a.work.message !in a.greeting)
  }

  /** Executions began in order of arrival, each once, and never before an earlier row was done. */
  ghost predicate LogOk(b: Book, started: seq<Message>, order: seq<nat>) {
    && (forall i, j | 0 <= i < j < |started| :: started[i] != started[j])
    && (forall m | m in started :: m in b.requests)
    && (forall i, j | 0 <= i < j < |order| :: order[i] < order[j])
    && (forall q | q in order :: q < b.next)
    && (forall q, x: Row | q in order && x in b.inbox && !x.done ::
          q < x.sequence || (q == x.sequence && x.message in b.requests))
  }

  ghost predicate Inv(s: System) {
    && BookOk(s.book)
    && (forall c | c in s.bridges :: c.process in s.live && BridgeOk(s.book, c, s.bridges[c]))
    && LogOk(s.book, s.started, s.order)
    && s.live <= s.ever
  }

  /** Every pending row has a request's room set aside. */
  predicate Room(b: Book) {
    Pending(b.inbox) <= QUEUE && |b.requests| + Reserved(b.inbox, b.requests) <= CAPACITY
  }

  // ---- pruning and marking -----------------------------------------------------------------------------

  lemma {:induction false} PruneMembers(rows: seq<Row>)
    ensures forall x: Row | x in Prune(rows) :: x in rows
    ensures forall x: Row | x in rows && !x.done :: x in Prune(rows)
  {
    if rows != [] {
      PruneMembers(rows[1..]);
      assert rows == [rows[0]] + rows[1..];
    }
  }

  lemma {:induction false} PruneSorted(rows: seq<Row>)
    requires Sorted(rows)
    ensures Sorted(Prune(rows))
  {
    if rows != [] {
      PruneSorted(rows[1..]);
      PruneMembers(rows[1..]);
      var tail := Prune(rows[1..]);
      assert Prune(rows) == [rows[0]] + tail || Prune(rows) == tail;
      hide Prune;
      ConsSorted(rows, tail);
    }
  }

  lemma ConsSorted(rows: seq<Row>, tail: seq<Row>)
    requires Sorted(rows) && rows != [] && Sorted(tail) && forall x: Row | x in tail :: x in rows[1..]
    ensures Sorted([rows[0]] + tail)
  {
    forall j | 0 <= j < |tail| ensures rows[0].sequence < tail[j].sequence {
      assert tail[j] in rows[1..];
      var k :| 0 <= k < |rows[1..]| && rows[1..][k] == tail[j];
    }
  }

  /** Pruning loses no pending row, and leaves no more finished rows than are kept. */
  lemma {:induction false} PruneCounts(rows: seq<Row>, requests: set<Message>)
    ensures Pending(Prune(rows)) == Pending(rows) && Reserved(Prune(rows), requests) == Reserved(rows, requests)
    ensures Finished(Prune(rows)) <= CAPACITY && Finished(Prune(rows)) <= Finished(rows)
  {
    if rows != [] {
      PruneCounts(rows[1..], requests);
      var tail := Prune(rows[1..]);
      assert ([rows[0]] + tail)[1..] == tail && [] + tail == tail;
    }
  }

  lemma {:induction false} TouchCounts(rows: seq<Row>, m: Message, receipt: bool, done: bool, release: bool,
                                       requests: set<Message>)
    ensures var t := TouchAll(rows, m, receipt, done, release);
            && Pending(t) <= Pending(rows) && Reserved(t, requests) <= Reserved(rows, requests)
  {
    if rows != [] { TouchCounts(rows[1..], m, receipt, done, release, requests); }
  }

  function Mark(x: Row, m: Message, receipt: bool, done: bool, release: bool): Row {
    if x.message == m then Touch(x, receipt, done, release) else x
  }

  lemma TouchMembers(rows: seq<Row>, m: Message, receipt: bool, done: bool, release: bool)
    ensures forall x: Row | x in rows :: Mark(x, m, receipt, done, release) in TouchAll(rows, m, receipt, done, release)
    ensures forall y: Row | y in TouchAll(rows, m, receipt, done, release) ::
              exists x: Row :: x in rows && y == Mark(x, m, receipt, done, release)
  {
    var t := TouchAll(rows, m, receipt, done, release);
    hide Touch;
    assert forall i | 0 <= i < |rows| :: t[i] == Mark(rows[i], m, receipt, done, release);
    hide TouchAll, Mark;
    forall x: Row | x in rows ensures Mark(x, m, receipt, done, release) in t {
      var i :| 0 <= i < |rows| && rows[i] == x;
      assert t[i] in t;
    }
    forall y: Row | y in t ensures exists x: Row :: x in rows && y == Mark(x, m, receipt, done, release) {
      var i :| 0 <= i < |t| && t[i] == y;
      assert rows[i] in rows;
    }
  }

  /** What an update leaves: the rows of other messages, and the row of `m` marked, unless finished and pruned. */
  ghost predicate Updated(b: Book, t: Book, m: Message, receipt: bool, done: bool, release: bool) {
    && t.requests == b.requests && t.next == b.next
    && Sorted(t.inbox)
    && Marks(b.inbox, t.inbox, m, receipt, done, release)
  }

  lemma MarkTwice(x: Row, m: Message, receipt: bool, done: bool, release: bool)
    ensures Mark(Mark(x, m, receipt, done, false), m, false, false, release) == Mark(x, m, receipt, done, release)
    ensures !x.done && !(x.message == m && done) ==> !Mark(x, m, receipt, done, false).done
  {}

  /** Every row of `t` is a marked row of `rows`, and every pending row that is not finished by it is there. */
  ghost predicate Marks(rows: seq<Row>, t: seq<Row>, m: Message, receipt: bool, done: bool, release: bool) {
    && (forall x: Row | x in rows && !x.done && !(x.message == m && done) :: Mark(x, m, receipt, done, release) in t)
    && (forall y: Row | y in t :: exists x: Row :: x in rows && y == Mark(x, m, receipt, done, release))
  }

  lemma MarkedKept(rows: seq<Row>, m: Message, receipt: bool, done: bool)
    ensures var marked := TouchAll(rows, m, receipt, done, false);
            Marks(rows, if done then Prune(marked) else marked, m, receipt, done, false)
  {
    var marked := TouchAll(rows, m, receipt, done, false);
    PruneMembers(marked);
    TouchMembers(rows, m, receipt, done, false);
    hide TouchAll, Prune, Mark;
    forall x: Row | x in rows && !x.done && !(x.message == m && done)
      ensures Mark(x, m, receipt, done, false) in if done then Prune(marked) else marked
    {
      MarkTwice(x, m, receipt, done, false);
    }
  }

  lemma MarksCompose(rows: seq<Row>, kept: seq<Row>, t: seq<Row>, m: Message, receipt: bool, done: bool, release: bool)
    requires Marks(rows, kept, m, receipt, done, false)
    requires forall x: Row | x in kept :: Mark(x, m, false, false, release) in t
    requires forall y: Row | y in t :: exists x: Row :: x in kept && y == Mark(x, m, false, false, release)
    ensures Marks(rows, t, m, receipt, done, release)
  {
    hide Mark;
    forall x: Row | x in rows && !x.done && !(x.message == m && done)
      ensures Mark(x, m, receipt, done, release) in t
    {
      MarkTwice(x, m, receipt, done, release);
    }
    forall y: Row | y in t ensures exists x: Row :: x in rows && y == Mark(x, m, receipt, done, release) {
      var z: Row :| z in kept && y == Mark(z, m, false, false, release);
      var x: Row :| x in rows && z == Mark(x, m, receipt, done, false);
      MarkTwice(x, m, receipt, done, release);
    }
  }

  lemma UpdateMarks(b: Book, m: Message, receipt: bool, done: bool, release: bool)
    requires Sorted(b.inbox)
    ensures Updated(b, Update(b, m, receipt, done, release), m, receipt, done, release)
  {
    var marked := TouchAll(b.inbox, m, receipt, done, false);
    var kept := if done then Prune(marked) else marked;
    TouchMembers(kept, m, false, false, release);
    TouchSorted(b.inbox, m, receipt, done, false);
    PruneSorted(marked);
    TouchSorted(kept, m, false, false, release);
    hide TouchAll, Prune, Mark, Sorted, Marks;
    MarkedKept(b.inbox, m, receipt, done);
    MarksCompose(b.inbox, kept, TouchAll(kept, m, false, false, release), m, receipt, done, release);
  }

  lemma TouchSorted(rows: seq<Row>, m: Message, receipt: bool, done: bool, release: bool)
    requires Sorted(rows)
    ensures Sorted(TouchAll(rows, m, receipt, done, release))
  {}

  lemma UpdateRoom(b: Book, m: Message, receipt: bool, done: bool, release: bool)
    requires Room(b)
    ensures Room(Update(b, m, receipt, done, release))
  {
    var marked := TouchAll(b.inbox, m, receipt, done, false);
    var kept := if done then Prune(marked) else marked;
    TouchCounts(b.inbox, m, receipt, done, false, b.requests);
    PruneCounts(marked, b.requests);
    TouchCounts(kept, m, false, false, release, b.requests);
  }

  // ---- how a book may follow another ---------------------------------------------------------------------

  /** Only the row of message `m`, if any, has changed among the pending rows, or a new one has come last. */
  ghost predicate Follows(b: Book, t: Book, m: Option<Message>) {
    && b.requests <= t.requests && b.next <= t.next
    && (forall x: Row | x in b.inbox && !x.done && m != Some(x.message) :: x in t.inbox)
    && (forall y: Row | y in t.inbox && !y.done && m != Some(y.message) :: y in b.inbox)
    && (forall y: Row | y in t.inbox && !y.done && m == Some(y.message) ::
          || y.sequence >= b.next
          || exists x: Row :: x in b.inbox && !x.done && x.message == y.message && x.sequence == y.sequence)
  }

  ghost predicate Avoids(a: Bridge, m: Option<Message>) {
    && (a.work.Working? ==> m != Some(a.work.message))
    && forall g | g in a.greeting :: m != Some(g)
  }

  lemma HeadsKept(b: Book, t: Book, m: Option<Message>, r: Row)
    requires BookOk(b) && Follows(b, t, m) && Heads(b.inbox, r) && m != Some(r.message)
    ensures Heads(t.inbox, r)
  {}

  lemma BridgeKept(b: Book, t: Book, m: Option<Message>, c: Consumer, a: Bridge)
    requires BookOk(b) && Follows(b, t, m) && BridgeOk(b, c, a) && Avoids(a, m)
    ensures BridgeOk(t, c, a)
  {
    hide Heads;
    if a.work.Working? && !a.work.closed {
      var r: Row :| Heads(b.inbox, r) && r.message == a.work.message && r.consumer == Some(c);
      HeadsKept(b, t, m, r);
    }
    forall g | g in a.greeting ensures Owned(t, c, g) {
      var r: Row :| r in b.inbox && r.message == g && !r.done && r.consumer == Some(c);
      assert r in t.inbox;
    }
  }

  /** No later pending row reaches back before what has started. */
  lemma LogKept(b: Book, t: Book, m: Option<Message>, started: seq<Message>, order: seq<nat>)
    requires LogOk(b, started, order) && Follows(b, t, m)
    ensures LogOk(t, started, order)
  {
    forall q, y: Row | q in order && y in t.inbox && !y.done
      ensures q < y.sequence || (q == y.sequence && y.message in t.requests)
    {
      if m == Some(y.message) {
        if y.sequence < b.next {
          var x: Row :| x in b.inbox && !x.done && x.message == y.message && x.sequence == y.sequence;
        }
      } else {
        assert y in b.inbox;
      }
    }
  }

  /** One row heads the queue. */
  lemma OneHead(b: Book, r: Row, x: Row)
    requires BookOk(b) && Heads(b.inbox, r) && Heads(b.inbox, x)
    ensures r == x
  {
    var i :| 0 <= i < |b.inbox| && b.inbox[i] == r;
    var j :| 0 <= j < |b.inbox| && b.inbox[j] == x;
  }

  /** Two bridges never work on the same pending row: it has one owner. */
  lemma OneWorker(s: System, c: Consumer, d: Consumer)
    requires Inv(s) && c in s.bridges && d in s.bridges
    requires s.bridges[c].work.Working? && !s.bridges[c].work.closed
    requires s.bridges[d].work.Working? && !s.bridges[d].work.closed
    ensures c == d
  {
    hide Heads;
    assert BridgeOk(s.book, c, s.bridges[c]) && BridgeOk(s.book, d, s.bridges[d]);
    var r: Row :| Heads(s.book.inbox, r) && r.consumer == Some(c);
    var x: Row :| Heads(s.book.inbox, x) && x.consumer == Some(d);
    OneHead(s.book, r, x);
  }

  // ---- updates ---------------------------------------------------------------------------------------------

  /** Marking a row done keeps the order if no pending row came before it. */
  lemma UpdateBookOk(b: Book, t: Book, m: Message, receipt: bool, done: bool, release: bool)
    requires BookOk(b) && Updated(b, t, m, receipt, done, release)
    requires done ==> forall r: Row, x: Row | r in b.inbox && r.message == m && x in b.inbox && !x.done ::
                        r.sequence <= x.sequence || r.done
    ensures BookOk(t)
  {
    forall y: Row | y in t.inbox ensures y.sequence < t.next && (y.done ==> y.text == "") {
      var x: Row :| x in b.inbox && y == Mark(x, m, receipt, done, release);
    }
    hide Mark, RowsAgree, Sorted;
    forall y: Row, z: Row | y in t.inbox && z in t.inbox ensures RowsAgree(y, z) {
      var x: Row :| x in b.inbox && y == Mark(x, m, receipt, done, release);
      var w: Row :| w in b.inbox && z == Mark(w, m, receipt, done, release);
      MarkedAgree(x, w, m, receipt, done, release);
    }
  }

  lemma MarkedAgree(x: Row, w: Row, m: Message, receipt: bool, done: bool, release: bool)
    requires RowsAgree(x, w) && (done && w.message == m ==> w.done || x.done || w.sequence <= x.sequence)
    ensures RowsAgree(Mark(x, m, receipt, done, release), Mark(w, m, receipt, done, release))
  {}

  /** Rows of one message are one row, and what comes before a finished row is finished. */
  predicate RowsAgree(y: Row, z: Row) {
    (y.message == z.message ==> y == z) && (y.sequence < z.sequence && z.done ==> y.done)
  }

  lemma UpdateFollows(b: Book, t: Book, m: Message, receipt: bool, done: bool, release: bool)
    requires BookOk(b) && Updated(b, t, m, receipt, done, release)
    ensures Follows(b, t, Some(m))
    ensures (forall x: Row | x in b.inbox && x.message == m :: x.done) ==> Follows(b, t, None)
    ensures done ==> forall y: Row | y in t.inbox && y.message == m :: y.done
  {
    hide Sorted, RowsAgree, Mark;
    forall y: Row | y in t.inbox
      ensures y.message != m ==> y in b.inbox
      ensures y.message == m && !y.done ==>
                exists x: Row :: x in b.inbox && !x.done && x.message == m && x.sequence == y.sequence
      ensures y.message == m && done ==> y.done
    {
      var x: Row :| x in b.inbox && y == Mark(x, m, receipt, done, release);
      MarkedRow(x, m, receipt, done, release);
    }
    forall x: Row | x in b.inbox && !x.done && x.message != m ensures x in t.inbox {
      assert Mark(x, m, receipt, done, release) in t.inbox;
      MarkedRow(x, m, receipt, done, release);
    }
  }

  lemma MarkedRow(x: Row, m: Message, receipt: bool, done: bool, release: bool)
    ensures var y := Mark(x, m, receipt, done, release);
            && y.message == x.message && y.sequence == x.sequence && (x.message != m ==> y == x)
            && (x.done ==> y.done) && (x.message == m && done ==> y.done)
  {}

  // ---- one lemma for each kind of step -----------------------------------------------------------------------

  /** The bridges other than `c`, when only the row of `m` changes, which `c` owns. */
  lemma OthersKept(s: System, t: Book, c: Consumer, m: Message, d: Consumer)
    requires Inv(s) && Follows(s.book, t, Some(m)) && d in s.bridges && d != c && Owned(s.book, c, m)
    ensures BridgeOk(t, d, s.bridges[d])
  {
    var a := s.bridges[d];
    assert BridgeOk(s.book, d, a);
    InvParts(s);
    hide Inv, LogOk, Follows, Heads;
    NotOthers(s.book, c, m, d, a);
    BridgeKept(s.book, t, Some(m), d, a);
  }

  /** What one bridge owns no other is busy with. */
  lemma NotOthers(b: Book, c: Consumer, m: Message, d: Consumer, a: Bridge)
    requires BookOk(b) && Owned(b, c, m) && BridgeOk(b, d, a) && d != c
    ensures Avoids(a, Some(m))
  {
    var r: Row :| r in b.inbox && r.message == m && !r.done && r.consumer == Some(c);
    UniqueRow(b, r);
    hide BookOk, Heads;
    forall g | g in a.greeting ensures g != m {
      var x: Row :| x in b.inbox && x.message == g && !x.done && x.consumer == Some(d);
    }
    if a.work.Working? && !a.work.closed {
      var x: Row :| Heads(b.inbox, x) && x.message == a.work.message && x.consumer == Some(d);
      HeadIn(b.inbox, x);
    }
  }

  lemma HeadIn(rows: seq<Row>, r: Row)
    requires Heads(rows, r)
    ensures r in rows && !r.done && forall x: Row | x in rows && !x.done :: r.sequence <= x.sequence
  {}

  /** The row a bridge works on, before it is closed. */
  lemma OwnRow(s: System, c: Consumer) returns (r: Row)
    requires Inv(s) && c in s.bridges && s.bridges[c].work.Working? && !s.bridges[c].work.closed
    ensures Heads(s.book.inbox, r) && r.message == s.bridges[c].work.message && r.consumer == Some(c)
    ensures r in s.book.inbox && !r.done && Owned(s.book, c, r.message) && r.message !in s.bridges[c].greeting
    ensures forall x: Row | x in s.book.inbox && !x.done :: r.sequence <= x.sequence
  {
    assert BridgeOk(s.book, c, s.bridges[c]);
    r :| Heads(s.book.inbox, r) && r.message == s.bridges[c].work.message && r.consumer == Some(c);
  }

  lemma UniqueRow(b: Book, r: Row)
    requires BookOk(b) && r in b.inbox
    ensures forall x: Row | x in b.inbox && x.message == r.message :: x == r
  {}

  lemma GreetedKeeps(s: System, c: Consumer, m: Message)
    requires Inv(s) && Enabled(s, Greeted(c, m))
    ensures Inv(Next(s, Greeted(c, m)))
  {
    UpdateMarks(s.book, m, false, false, true);
    GreetingEnds(s, Update(s.book, m, false, false, true), c, m);
  }

  lemma GreetingEnds(s: System, t: Book, c: Consumer, m: Message)
    requires Inv(s) && c in s.bridges && m in s.bridges[c].greeting && Updated(s.book, t, m, false, false, true)
    ensures Inv(s.(book := t, bridges := s.bridges[c := s.bridges[c].(greeting := s.bridges[c].greeting - {m})]))
  {
    hide *;
    var bridges := s.bridges[c := s.bridges[c].(greeting := s.bridges[c].greeting - {m})];
    InvParts(s);
    GreetOwned(s, c, m);
    UpdateBookOk(s.book, t, m, false, false, true);
    UpdateFollows(s.book, t, m, false, false, true);
    LogKept(s.book, t, Some(m), s.started, s.order);
    forall d | d in bridges ensures BridgeOk(t, d, bridges[d]) {
      if d != c { OthersKept(s, t, c, m, d); } else { GreeterKept(s, t, c, m); }
    }
    InvFrom(s.(book := t, bridges := bridges));
  }

  lemma AcknowledgeKeeps(s: System, c: Consumer, m: Message)
    requires Inv(s) && Enabled(s, Acknowledge(c, m))
    ensures Inv(Next(s, Acknowledge(c, m)))
  {
    UpdateMarks(s.book, m, true, false, false);
    Acknowledged(s, Update(s.book, m, true, false, false), c, m);
  }

  lemma Acknowledged(s: System, t: Book, c: Consumer, m: Message)
    requires Inv(s) && c in s.bridges && m in s.bridges[c].greeting && Updated(s.book, t, m, true, false, false)
    ensures Inv(s.(book := t))
  {
    hide *;
    InvParts(s);
    GreetOwned(s, c, m);
    UpdateBookOk(s.book, t, m, true, false, false);
    UpdateFollows(s.book, t, m, true, false, false);
    LogKept(s.book, t, Some(m), s.started, s.order);
    forall d | d in s.bridges ensures BridgeOk(t, d, s.bridges[d]) {
      if d != c {
        OthersKept(s, t, c, m, d);
      } else {
        GreeterKept(s, t, c, m);
        ReceiptOwned(s.book, t, c, m);
        StillGreeting(s, t, c, m);
      }
    }
    InvFrom(s.(book := t));
  }

  lemma ReceiptOwned(b: Book, t: Book, c: Consumer, m: Message)
    requires Owned(b, c, m) && Updated(b, t, m, true, false, false)
    ensures Owned(t, c, m)
  {
    var r: Row :| r in b.inbox && r.message == m && !r.done && r.consumer == Some(c);
    assert Mark(r, m, true, false, false) in t.inbox;
  }

  lemma StillGreeting(s: System, t: Book, c: Consumer, m: Message)
    requires Inv(s) && c in s.bridges && m in s.bridges[c].greeting && Owned(t, c, m)
    requires BridgeOk(t, c, s.bridges[c].(greeting := s.bridges[c].greeting - {m}))
    ensures BridgeOk(t, c, s.bridges[c])
  {
    hide Heads, Owned;
    var a := s.bridges[c].(greeting := s.bridges[c].greeting - {m});
    assert BridgeOk(s.book, c, s.bridges[c]);
    forall g | g in s.bridges[c].greeting ensures Owned(t, c, g) {
      if g != m { assert g in a.greeting; }
    }
  }

  lemma InvParts(s: System)
    requires Inv(s)
    ensures BookOk(s.book) && LogOk(s.book, s.started, s.order) && s.live <= s.ever
    ensures forall d | d in s.bridges :: d.process in s.live
  {}

  lemma InvFrom(s: System)
    requires BookOk(s.book) && LogOk(s.book, s.started, s.order) && s.live <= s.ever
    requires forall d | d in s.bridges :: d.process in s.live && BridgeOk(s.book, d, s.bridges[d])
    ensures Inv(s)
  {}

  lemma GreetOwned(s: System, c: Consumer, m: Message)
    requires Inv(s) && c in s.bridges && m in s.bridges[c].greeting
    ensures Owned(s.book, c, m)
  {
    assert BridgeOk(s.book, c, s.bridges[c]);
  }

  lemma GreeterKept(s: System, t: Book, c: Consumer, m: Message)
    requires Inv(s) && c in s.bridges && m in s.bridges[c].greeting && Follows(s.book, t, Some(m))
    ensures BridgeOk(t, c, s.bridges[c].(greeting := s.bridges[c].greeting - {m}))
  {
    hide Heads;
    var a := s.bridges[c].(greeting := s.bridges[c].greeting - {m});
    assert BridgeOk(s.book, c, s.bridges[c]) && Owned(s.book, c, m);
    assert BridgeOk(s.book, c, a);
    BridgeKept(s.book, t, Some(m), c, a);
  }

  lemma ReceiptKeeps(s: System, c: Consumer)
    requires Inv(s) && Enabled(s, Receipt(c))
    ensures Inv(Next(s, Receipt(c)))
  {
    var t := Next(s, Receipt(c));
    var m := s.bridges[c].work.message;
    var r := OwnRow(s, c);
    UpdateMarks(s.book, m, true, false, false);
    assert Mark(r, m, true, false, false) in t.book.inbox;
    UpdateBookOk(s.book, t.book, m, true, false, false);
    UpdateFollows(s.book, t.book, m, true, false, false);
    hide Update, Updated, LogOk, Heads;
    LogKept(s.book, t.book, Some(m), s.started, s.order);
    forall d | d in t.bridges ensures BridgeOk(t.book, d, t.bridges[d]) {
      if d != c { OthersKept(s, t.book, c, m, d); } else { WorkerKept(s, t.book, c, r, Touch(r, true, false, false)); }
    }
  }

  /** The worker's own row has changed to `x`, still pending and still its own. */
  lemma WorkerKept(s: System, t: Book, c: Consumer, r: Row, x: Row)
    requires Inv(s) && c in s.bridges && s.bridges[c].work.Working? && !s.bridges[c].work.closed
    requires Heads(s.book.inbox, r) && r.message == s.bridges[c].work.message && r.consumer == Some(c)
    requires Follows(s.book, t, Some(r.message)) && x in t.inbox && x.message == r.message && !x.done
    requires x.sequence == r.sequence && x.consumer == Some(c)
    ensures BridgeOk(t, c, s.bridges[c])
  {
    var a := s.bridges[c];
    assert BridgeOk(s.book, c, a);
    assert Heads(t.inbox, x);
    hide Heads;
    forall g | g in a.greeting ensures Owned(t, c, g) {
      var y: Row :| y in s.book.inbox && y.message == g && !y.done && y.consumer == Some(c);
      assert y in t.inbox;
    }
  }

  lemma CloseKeeps(s: System, c: Consumer)
    requires Inv(s) && Enabled(s, Close(c))
    ensures Inv(Next(s, Close(c)))
  {
    var m := s.bridges[c].work.message;
    UpdateMarks(s.book, m, false, true, false);
    Closed(s, Update(s.book, m, false, true, false), c);
  }

  lemma Closed(s: System, t: Book, c: Consumer)
    requires Inv(s) && Enabled(s, Close(c)) && Updated(s.book, t, s.bridges[c].work.message, false, true, false)
    ensures Inv(s.(book := t, bridges := WithWork(s, c, s.bridges[c].work.(closed := true))))
  {
    var m := s.bridges[c].work.message;
    var w := s.bridges[c].work.(closed := true);
    var bridges := WithWork(s, c, w);
    var r := OwnRow(s, c);
    BegunWork(s, c);
    hide *;
    InvParts(s);
    UniqueRow(s.book, r);
    UpdateBookOk(s.book, t, m, false, true, false);
    UpdateFollows(s.book, t, m, false, true, false);
    LogKept(s.book, t, Some(m), s.started, s.order);
    forall d | d in bridges ensures BridgeOk(t, d, bridges[d]) {
      WorkSet(s, c, w, d);
      if d != c { OthersKept(s, t, c, m, d); } else { FinishedKept(s, t, c, m, w); }
    }
    WorkSet(s, c, w, c);
    InvFrom(s.(book := t, bridges := bridges));
  }

  lemma BegunWork(s: System, c: Consumer)
    requires Enabled(s, Close(c))
    ensures s.bridges[c].work.begun && s.bridges[c].work.Working? && !s.bridges[c].work.closed
  {}

  lemma WorkSet(s: System, c: Consumer, w: Work, d: Consumer)
    requires c in s.bridges
    ensures WithWork(s, c, w).Keys == s.bridges.Keys && WithWork(s, c, w)[c] == s.bridges[c].(work := w)
    ensures d in s.bridges && d != c ==> WithWork(s, c, w)[d] == s.bridges[d]
  {}

  /** The worker's own row is done, or given up; what it still greets is untouched. */
  lemma FinishedKept(s: System, t: Book, c: Consumer, m: Message, w: Work)
    requires Inv(s) && c in s.bridges && s.bridges[c].work.Working? && m == s.bridges[c].work.message
    requires Follows(s.book, t, Some(m)) && m !in s.bridges[c].greeting
    requires w.Idle? || (w == s.bridges[c].work.(closed := true) && w.begun
                         && forall y: Row | y in t.inbox && y.message == m :: y.done)
    ensures BridgeOk(t, c, s.bridges[c].(work := w))
  {
    hide Heads;
    var a := s.bridges[c];
    assert BridgeOk(s.book, c, a);
    forall g | g in a.greeting ensures Owned(t, c, g) {
      var y: Row :| y in s.book.inbox && y.message == g && !y.done && y.consumer == Some(c);
      assert y in t.inbox;
    }
  }

  lemma LeaveKeeps(s: System, c: Consumer, done: bool)
    requires Inv(s) && Enabled(s, Leave(c, done))
    ensures Inv(Next(s, Leave(c, done)))
  {
    var t := Next(s, Leave(c, done));
    var m := s.bridges[c].work.message;
    assert BridgeOk(s.book, c, s.bridges[c]);
    UpdateMarks(s.book, m, false, done, true);
    if s.bridges[c].work.closed {
      ClosedLeaves(s, t.book, c, done);
    } else {
      OpenLeaves(s, t.book, c, done);
    }
  }

  ghost predicate Left(s: System, t: Book, c: Consumer, done: bool) {
    && Inv(s) && c in s.bridges && s.bridges[c].work.Working?
    && Updated(s.book, t, s.bridges[c].work.message, false, done, true)
  }

  lemma ClosedLeaves(s: System, t: Book, c: Consumer, done: bool)
    requires Left(s, t, c, done) && s.bridges[c].work.closed
    ensures Inv(s.(book := t, bridges := WithWork(s, c, Idle)))
  {
    var m := s.bridges[c].work.message;
    assert BridgeOk(s.book, c, s.bridges[c]);
    UpdateBookOk(s.book, t, m, false, done, true);
    UpdateFollows(s.book, t, m, false, done, true);
    hide Updated, LogOk, Heads, BookOk;
    LogKept(s.book, t, None, s.started, s.order);
    var bridges := WithWork(s, c, Idle);
    forall d | d in bridges ensures BridgeOk(t, d, bridges[d]) {
      assert BridgeOk(s.book, d, s.bridges[d]);
      assert BridgeOk(s.book, d, bridges[d]);
      BridgeKept(s.book, t, None, d, bridges[d]);
    }
  }

  lemma OpenLeaves(s: System, t: Book, c: Consumer, done: bool)
    requires Left(s, t, c, done) && !s.bridges[c].work.closed
    ensures Inv(s.(book := t, bridges := WithWork(s, c, Idle)))
  {
    var m := s.bridges[c].work.message;
    var r := OwnRow(s, c);
    UniqueRow(s.book, r);
    UpdateBookOk(s.book, t, m, false, done, true);
    UpdateFollows(s.book, t, m, false, done, true);
    hide Updated, LogOk, Heads, BookOk;
    LogKept(s.book, t, Some(m), s.started, s.order);
    var bridges := WithWork(s, c, Idle);
    forall d | d in bridges ensures BridgeOk(t, d, bridges[d]) {
      if d != c { OthersKept(s, t, c, m, d); } else { FinishedKept(s, t, c, m, Idle); }
    }
  }

  /** A row is stored behind all others. */
  lemma ArriveKeeps(s: System, c: Consumer, m: Message, text: string)
    requires Inv(s) && Enabled(s, Arrive(c, m, text))
    ensures Inv(Next(s, Arrive(c, m, text)))
  {
    var t := Next(s, Arrive(c, m, text));
    if t.book != s.book {
      var x := Row(s.book.next, m, text, false, false, Some(c));
      assert t.book == Book(s.book.requests, s.book.inbox + [x], s.book.next + 1);
      assert !Has(s.book.inbox, m) && m !in s.book.requests;
      StoredLast(s.book, t.book, x);
      hide Enqueue, CheckCapacity, BookOk, LogOk, Heads, Follows;
      LogKept(s.book, t.book, Some(m), s.started, s.order);
      forall d | d in t.bridges ensures BridgeOk(t.book, d, t.bridges[d]) {
        NewMessage(s, d, m);
        BridgeKept(s.book, t.book, Some(m), d, s.bridges[d]);
        assert x in t.book.inbox;
        if d == c { assert Owned(t.book, c, m); }
      }
    }
  }

  lemma StoredLast(b: Book, t: Book, x: Row)
    requires BookOk(b) && !Has(b.inbox, x.message) && x.sequence == b.next && !x.done
    requires t == Book(b.requests, b.inbox + [x], b.next + 1)
    ensures BookOk(t) && Follows(b, t, Some(x.message))
  {
    assert forall y: Row :: y in t.inbox <==> y in b.inbox || y == x;
  }

  /** No bridge is busy with a message that has neither row nor request. */
  lemma NewMessage(s: System, d: Consumer, m: Message)
    requires Inv(s) && d in s.bridges && !Has(s.book.inbox, m) && m !in s.book.requests
    ensures Avoids(s.bridges[d], Some(m)) && BridgeOk(s.book, d, s.bridges[d])
  {
    var a := s.bridges[d];
    assert BridgeOk(s.book, d, a);
    forall g | g in a.greeting ensures g != m {
      var r: Row :| r in s.book.inbox && r.message == g && !r.done && r.consumer == Some(d);
    }
  }

  /** The head is taken only from nobody or from the dead. */
  lemma TakeKeeps(s: System, c: Consumer)
    requires Inv(s) && Enabled(s, Take(c))
    ensures Inv(Next(s, Take(c)))
  {
    var t := Next(s, Take(c));
    var a := ClaimNext(s.book, c, s.live);
    if a.out.value.Some? {
      var row := a.out.value.value;
      var x := row.(consumer := Some(c));
      HeadTaken(s.book, c, s.live);
      hide ClaimNext, BookOk, LogOk, Heads, Follows;
      LogKept(s.book, t.book, Some(row.message), s.started, s.order);
      forall d | d in t.bridges ensures BridgeOk(t.book, d, t.bridges[d]) {
        NotBusyWithHead(s, d, row);
        BridgeKept(s.book, t.book, Some(row.message), d, s.bridges[d]);
        if d == c { assert t.bridges[c].work == Working(row.message, false, false); }
      }
    }
  }

  lemma HeadTaken(b: Book, c: Consumer, live: set<nat>)
    requires BookOk(b) && ClaimNext(b, c, live).out.value.Some?
    ensures var a := ClaimNext(b, c, live);
            var row := a.out.value.value;
            && Heads(b.inbox, row) && (row.consumer.Some? ==> row.consumer.value.process !in live)
            && row in b.inbox && !row.done
            && BookOk(a.after) && Follows(b, a.after, Some(row.message))
            && Heads(a.after.inbox, row.(consumer := Some(c)))
  {
    var i := Head(b.inbox);
    var row := b.inbox[i];
    var x := row.(consumer := Some(c));
    var t := b.(inbox := b.inbox[i := x]);
    FirstHeads(b, i);
    RowReplaced(b.inbox, i, x);
    UniqueRow(b, row);
    hide Sorted;
    assert BookOk(t) by {
      SortedReplaced(b.inbox, i, x);
      forall y: Row, z: Row | y in t.inbox && z in t.inbox ensures RowsAgree(y, z) {
        var v := if y == x then row else y;
        var w := if z == x then row else z;
        assert RowsAgree(v, w);
      }
    }
  }

  lemma FirstHeads(b: Book, i: nat)
    requires BookOk(b) && i < |b.inbox| && !b.inbox[i].done && forall k | 0 <= k < i :: b.inbox[k].done
    ensures Heads(b.inbox, b.inbox[i])
  {
    forall y: Row | y in b.inbox && !y.done ensures b.inbox[i].sequence <= y.sequence {
      var k :| 0 <= k < |b.inbox| && b.inbox[k] == y;
      assert i <= k;
    }
  }

  lemma RowReplaced(rows: seq<Row>, i: nat, x: Row)
    requires Sorted(rows) && i < |rows| && x.sequence == rows[i].sequence
    ensures forall y: Row :: y in rows[i := x] <==> y == x || (y in rows && y != rows[i])
  {
    var t := rows[i := x];
    assert t[i] in t;
    forall y: Row ensures y in t <==> y == x || (y in rows && y != rows[i]) {
      if y in rows && y != rows[i] {
        var k :| 0 <= k < |rows| && rows[k] == y;
        assert t[k] == y;
      }
      if y in t && y != x {
        var k :| 0 <= k < |t| && t[k] == y;
        assert k != i && rows[k] == y;
      }
    }
  }

  lemma SortedReplaced(rows: seq<Row>, i: nat, x: Row)
    requires Sorted(rows) && i < |rows| && x.sequence == rows[i].sequence
    ensures Sorted(rows[i := x])
  {}

  lemma NotBusyWithHead(s: System, d: Consumer, row: Row)
    requires Inv(s) && d in s.bridges && Heads(s.book.inbox, row)
    requires row.consumer.Some? ==> row.consumer.value.process !in s.live
    ensures Avoids(s.bridges[d], Some(row.message)) && BridgeOk(s.book, d, s.bridges[d])
  {
    var a := s.bridges[d];
    assert BridgeOk(s.book, d, a);
    UniqueRow(s.book, row);
    hide LogOk, BookOk;
    forall g | g in a.greeting ensures g != row.message {
      var r: Row :| r in s.book.inbox && r.message == g && !r.done && r.consumer == Some(d);
    }
  }

  lemma {:induction false} OneSequence(rows: seq<Row>, r: Row)
    requires Sorted(rows) && r in rows && forall x: Row | x in rows && x.message == r.message :: x == r
    ensures Sequences(rows, r.message) == [r.sequence]
  {
    assert rows == [rows[0]] + rows[1..];
    if rows[0] == r {
      forall x: Row | x in rows[1..] ensures x.message != r.message {
        var k :| 0 <= k < |rows[1..]| && rows[1..][k] == x;
        assert rows[k + 1] == x && rows[0].sequence < x.sequence;
      }
      NoSequence(rows[1..], r.message);
    } else {
      assert rows[0] in rows;
      OneSequence(rows[1..], r);
    }
  }

  lemma {:induction false} NoSequence(rows: seq<Row>, m: Message)
    requires forall x: Row | x in rows :: x.message != m
    ensures Sequences(rows, m) == []
  {
    if rows != [] {
      assert rows[0] in rows;
      NoSequence(rows[1..], m);
    }
  }

  lemma BeginKeeps(s: System, c: Consumer)
    requires Inv(s) && Enabled(s, Begin(c))
    ensures Inv(Next(s, Begin(c)))
  {
    var t := Next(s, Begin(c));
    var m := s.bridges[c].work.message;
    assert BridgeOk(s.book, c, s.bridges[c]);
    var r := OwnRow(s, c);
    MoreRequests(s, t.book);
    if t.book != s.book {
      UniqueRow(s.book, r);
      OneSequence(s.book.inbox, r);
      hide Heads, Sorted;
      LogGrows(s.book, t.book, s.started, s.order, m, r);
    }
    hide LogOk, BookOk;
    forall d | d in t.bridges ensures BridgeOk(t.book, d, t.bridges[d]) {
      assert BridgeOk(t.book, d, s.bridges[d]);
    }
  }

  lemma LogGrows(b: Book, t: Book, started: seq<Message>, order: seq<nat>, m: Message, r: Row)
    requires BookOk(b) && LogOk(b, started, order) && t == b.(requests := b.requests + {m}) && m !in b.requests
    requires r in b.inbox && !r.done && r.message == m
    requires forall x: Row | x in b.inbox && !x.done :: r.sequence <= x.sequence
    ensures LogOk(t, started + [m], order + [r.sequence])
  {
    hide RowsAgree, Sorted;
    forall q | q in order ensures q < r.sequence {}
    forall q, x: Row | q in order + [r.sequence] && x in t.inbox && !x.done
      ensures q < x.sequence || (q == x.sequence && x.message in t.requests)
    {
      if q !in order && q == x.sequence { SameSequence(b, r, x); }
    }
    var longer := order + [r.sequence];
    forall i, j | 0 <= i < j < |longer| ensures longer[i] < longer[j] {
      assert order[i] in order;
    }
  }

  lemma SameSequence(b: Book, r: Row, x: Row)
    requires BookOk(b) && r in b.inbox && x in b.inbox && r.sequence == x.sequence
    ensures r == x
  {
    var i :| 0 <= i < |b.inbox| && b.inbox[i] == r;
    var j :| 0 <= j < |b.inbox| && b.inbox[j] == x;
  }

  /** Only the requests have grown. */
  lemma MoreRequests(s: System, t: Book)
    requires Inv(s) && t.inbox == s.book.inbox && t.next == s.book.next && s.book.requests <= t.requests
    ensures BookOk(t) && forall d | d in s.bridges :: BridgeOk(t, d, s.bridges[d])
  {
    forall d | d in s.bridges ensures BridgeOk(t, d, s.bridges[d]) {
      assert BridgeOk(s.book, d, s.bridges[d]);
      assert Avoids(s.bridges[d], None);
      BridgeKept(s.book, t, None, d, s.bridges[d]);
    }
  }

  lemma LegacyKeeps(s: System, c: Consumer, m: Message)
    requires Inv(s) && Enabled(s, Legacy(c, m))
    ensures Inv(Next(s, Legacy(c, m)))
  {
    var t := Next(s, Legacy(c, m));
    MoreRequests(s, t.book);
    hide BookOk, BridgeOk;
  }

  lemma OpenKeeps(s: System, c: Consumer)
    requires Inv(s) && Enabled(s, Open(c))
    ensures Inv(Next(s, Open(c)))
  {
    var t := Next(s, Open(c));
    PrunedBook(s.book);
    hide Prune, Scrub, Heads, BookOk, LogOk, Reopen, Follows;
    LogKept(s.book, t.book, None, s.started, s.order);
    forall d | d in t.bridges ensures BridgeOk(t.book, d, t.bridges[d]) {
      if d != c {
        assert BridgeOk(s.book, d, s.bridges[d]);
        BridgeKept(s.book, t.book, None, d, s.bridges[d]);
      }
    }
  }

  lemma PrunedBook(b: Book)
    requires BookOk(b)
    ensures BookOk(Reopen(b)) && Follows(b, Reopen(b), None)
  {
    assert Scrub(b.inbox) == b.inbox;
    PruneMembers(b.inbox);
    PruneSorted(b.inbox);
    hide Prune, Scrub, RowsAgree;
  }

  lemma CrashKeeps(s: System, p: nat)
    requires Inv(s) && Enabled(s, Crash(p))
    ensures Inv(Next(s, Crash(p)))
  {
    hide BookOk, BridgeOk, LogOk;
  }

  lemma LaunchKeeps(s: System, p: nat)
    requires Inv(s) && Enabled(s, Launch(p))
    ensures Inv(Next(s, Launch(p)))
  {
    hide BookOk, BridgeOk, LogOk;
  }

  lemma StepKeeps(s: System, v: Move)
    requires Inv(s) && Enabled(s, v)
    ensures Inv(Next(s, v))
  {
    hide Inv, Next;
    match v
    case Launch(p) => LaunchKeeps(s, p);
    case Open(c) => OpenKeeps(s, c);
    case Crash(p) => CrashKeeps(s, p);
    case Arrive(c, m, text) => ArriveKeeps(s, c, m, text);
    case Acknowledge(c, m) => AcknowledgeKeeps(s, c, m);
    case Greeted(c, m) => GreetedKeeps(s, c, m);
    case Take(c) => TakeKeeps(s, c);
    case Receipt(c) => ReceiptKeeps(s, c);
    case Begin(c) => BeginKeeps(s, c);
    case Close(c) => CloseKeeps(s, c);
    case Leave(c, done) => LeaveKeeps(s, c, done);
    case Legacy(c, m) => LegacyKeeps(s, c, m);
  }

  // ---- whole runs ------------------------------------------------------------------------------------------

  const INIT := System(EMPTY, {}, map[], {}, [], [])

  predicate StepAt(states: seq<System>, moves: seq<Move>, i: nat)
    requires |states| == |moves| + 1 && i < |moves|
  {
    Enabled(states[i], moves[i]) && states[i + 1] == Next(states[i], moves[i])
  }

  predicate IsRun(states: seq<System>, moves: seq<Move>) {
    |states| == |moves| + 1 && states[0] == INIT && forall i | 0 <= i < |moves| :: StepAt(states, moves, i)
  }

  /** In every state of every run: rows stand in order of arrival with the finished ones first, each pending row has at
      most one living owner, and executions began in order of arrival and once each. */
  lemma {:induction false} RunKeeps(states: seq<System>, moves: seq<Move>, i: nat)
    requires IsRun(states, moves) && i < |states|
    ensures Inv(states[i])
  {
    if i > 0 {
      RunKeeps(states, moves, i - 1);
      hide Inv;
      assert StepAt(states, moves, i - 1);
      hide Next;
      StepKeeps(states[i - 1], moves[i - 1]);
    }
  }

  /** At most once: however processes die and take over, no message is begun twice, and what began stays recorded. */
  lemma {:induction false} BegunOnce(states: seq<System>, moves: seq<Move>, i: nat, k: nat)
    requires IsRun(states, moves) && i <= k < |states|
    ensures forall a, b | 0 <= a < b < |states[k].started| :: states[k].started[a] != states[k].started[b]
    ensures states[i].started <= states[k].started && states[i].order <= states[k].order
    decreases k - i
  {
    RunKeeps(states, moves, k);
    if i < k {
      BegunOnce(states, moves, i, k - 1);
      hide Inv;
      assert StepAt(states, moves, k - 1);
      LogExtends(states[k - 1], moves[k - 1]);
    }
  }

  lemma LogExtends(s: System, v: Move)
    requires Enabled(s, v)
    ensures s.started <= Next(s, v).started && s.order <= Next(s, v).order
  {}

  /** Head of line: what is taken has only finished rows before it, and no other bridge is at a pending row. */
  lemma HeadOfLine(states: seq<System>, moves: seq<Move>, i: nat, c: Consumer, x: Row)
    requires IsRun(states, moves) && i < |states| && c in states[i].bridges
    requires states[i].bridges[c].work.Working? && !states[i].bridges[c].work.closed
    ensures exists r: Row :: r in states[i].book.inbox && r.message == states[i].bridges[c].work.message && !r.done
                             && r.consumer == Some(c)
                             && (x in states[i].book.inbox && x.sequence < r.sequence ==> x.done)
    ensures forall d | d in states[i].bridges && d != c ::
              states[i].bridges[d].work.Working? ==> states[i].bridges[d].work.closed
  {
    var s := states[i];
    RunKeeps(states, moves, i);
    var r := OwnRow(s, c);
    hide Inv;
    forall d | d in s.bridges && d != c ensures s.bridges[d].work.Working? ==> s.bridges[d].work.closed {
      if s.bridges[d].work.Working? && !s.bridges[d].work.closed { OneWorker(s, c, d); }
    }
  }

  /** Executions begin in order of arrival: the numbers of the rows begun ascend over the whole run, and every row
      still pending comes after them, except the one begun last. */
  lemma BegunInOrder(states: seq<System>, moves: seq<Move>, i: nat)
    requires IsRun(states, moves) && i < |states|
    ensures forall a, b | 0 <= a < b < |states[i].order| :: states[i].order[a] < states[i].order[b]
    ensures forall q, x: Row | q in states[i].order && x in states[i].book.inbox && !x.done ::
              q < x.sequence || (q == x.sequence && x.message in states[i].book.requests)
  {
    RunKeeps(states, moves, i);
    hide BookOk, BridgeOk;
  }

  /** A row whose owner has died, or that has none, is handed to whoever asks once it heads the queue. */
  lemma TakeoverSucceeds(s: System, c: Consumer, r: Row)
    requires Inv(s) && Enabled(s, Take(c)) && Heads(s.book.inbox, r)
    requires r.consumer.Some? ==> r.consumer.value.process !in s.live
    ensures Next(s, Take(c)).bridges[c].work == Working(r.message, false, false)
  {
    var i := Head(s.book.inbox);
    var k :| 0 <= k < |s.book.inbox| && s.book.inbox[k] == r;
    assert i <= k;
    assert s.book.inbox[i] in s.book.inbox;
  }

  // ---- room ------------------------------------------------------------------------------------------------

  lemma {:induction false} AppendCounts(rows: seq<Row>, x: Row, requests: set<Message>)
    ensures Pending(rows + [x]) == Pending(rows) + (if x.done then 0 else 1)
    ensures Reserved(rows + [x], requests)
            == Reserved(rows, requests) + (if !x.done && x.message !in requests then 1 else 0)
  {
    if rows == [] {
      assert rows + [x] == [x];
    } else {
      AppendCounts(rows[1..], x, requests);
      assert (rows + [x])[1..] == rows[1..] + [x];
    }
  }

  lemma {:induction false} ClaimCounts(rows: seq<Row>, requests: set<Message>, m: Message)
    requires m !in requests
    ensures Reserved(rows, requests + {m}) <= Reserved(rows, requests)
    ensures Reserved(rows, requests + {m}) < Reserved(rows, requests)
            <==> exists x: Row :: x in rows && !x.done && x.message == m
  {
    if rows != [] {
      ClaimCounts(rows[1..], requests, m);
      assert rows == [rows[0]] + rows[1..];
      assert rows[0] in rows;
      assert forall x: Row :: x in rows <==> x == rows[0] || x in rows[1..];
    }
  }

  lemma {:induction false} UpdateOneCounts(rows: seq<Row>, i: nat, x: Row, requests: set<Message>)
    requires i < |rows| && x.message == rows[i].message && x.done == rows[i].done
    ensures Pending(rows[i := x]) == Pending(rows) && Reserved(rows[i := x], requests) == Reserved(rows, requests)
  {
    if i > 0 {
      UpdateOneCounts(rows[1..], i - 1, x, requests);
      assert rows[i := x][1..] == rows[1..][i - 1 := x];
    }
  }

  /** The message has begun, has a pending row, there is a place to spare, or nothing can be claimed at all. */
  ghost predicate Fits(b: Book, m: Message) {
    || m in b.requests || (exists x: Row :: x in b.inbox && !x.done && x.message == m)
    || |b.requests| + Reserved(b.inbox, b.requests) < CAPACITY || |b.requests| == CAPACITY
  }

  /** Which claims keep room. */
  lemma ClaimRoom(b: Book, m: Message)
    requires Room(b)
    ensures Room(Claim(b, m).after) <==> Fits(b, m)
  {
    if m !in b.requests { ClaimCounts(b.inbox, b.requests, m); }
  }

  /** A claim outside the inbox loop fits; what the inbox loop claims has a pending row. */
  ghost predicate Fitting(s: System, v: Move) { v.Legacy? ==> Fits(s.book, v.m) }

  /** Room is kept by every step but a claim outside the inbox loop that does not fit. */
  lemma StepRoom(s: System, v: Move)
    requires Inv(s) && Enabled(s, v) && Room(s.book)
    ensures Room(Next(s, v).book) <==> Fitting(s, v)
  {
    hide Room, Inv, Fits;
    if v.Legacy? { ClaimRoom(s.book, v.m); } else { QueueRoom(s, v); }
  }

  lemma QueueRoom(s: System, v: Move)
    requires Inv(s) && Enabled(s, v) && Room(s.book) && !v.Legacy?
    ensures Room(Next(s, v).book)
  {
    match v
    case Launch(_) =>
    case Crash(_) =>
    case Open(_) => ReopenRoom(s.book);
    case Arrive(c, m, text) => ArriveRoom(s.book, m, text, c);
    case Acknowledge(c, m) => UpdateRoom(s.book, m, true, false, false);
    case Greeted(c, m) => UpdateRoom(s.book, m, false, false, true);
    case Take(c) => TakeRoom(s.book, c, s.live);
    case Receipt(c) => UpdateRoom(s.book, s.bridges[c].work.message, true, false, false);
    case Begin(c) =>
      assert BridgeOk(s.book, c, s.bridges[c]);
      var r := OwnRow(s, c);
      ClaimRoom(s.book, r.message);
    case Close(c) => UpdateRoom(s.book, s.bridges[c].work.message, false, true, false);
    case Leave(c, done) => UpdateRoom(s.book, s.bridges[c].work.message, false, done, true);
  }

  lemma ReopenRoom(b: Book)
    requires Room(b) && BookOk(b)
    ensures Room(Reopen(b))
  {
    assert Scrub(b.inbox) == b.inbox;
    PruneCounts(b.inbox, b.requests);
  }

  lemma ArriveRoom(b: Book, m: Message, text: string, c: Consumer)
    requires Room(b)
    ensures Room(Enqueue(b, m, text, Some(c)).after)
  {
    AppendCounts(b.inbox, Row(b.next, m, text, false, false, Some(c)), b.requests);
  }

  lemma TakeRoom(b: Book, c: Consumer, live: set<nat>)
    requires Room(b)
    ensures Room(ClaimNext(b, c, live).after)
  {
    var i := Head(b.inbox);
    if i < |b.inbox| { UpdateOneCounts(b.inbox, i, b.inbox[i].(consumer := Some(c)), b.requests); }
  }

  /** Room is kept to the end of a run exactly when every claim outside the inbox loop fits where it is made. */
  lemma {:induction false} RunRoom(states: seq<System>, moves: seq<Move>, n: nat)
    requires IsRun(states, moves) && n < |states|
    ensures (forall i | 0 <= i <= n :: Room(states[i].book))
            <==> (forall k | 0 <= k < n :: Fitting(states[k], moves[k]))
  {
    assert |states| == |moves| + 1 && states[0] == INIT;
    if n > 0 {
      hide *;
      RunKeeps(states, moves, n - 1);
      RunRoom(states, moves, n - 1);
      StepTaken(states, moves, n - 1);
      if Room(states[n - 1].book) { StepRoom(states[n - 1], moves[n - 1]); }
      StepOnward(states, moves, n);
    } else {
      assert Room(INIT.book);
    }
  }

  lemma StepOnward(states: seq<System>, moves: seq<Move>, n: nat)
    requires 0 < n < |states| == |moves| + 1
    requires (forall i | 0 <= i <= n - 1 :: Room(states[i].book))
             <==> (forall k | 0 <= k < n - 1 :: Fitting(states[k], moves[k]))
    requires Room(states[n - 1].book) ==> (Room(states[n].book) <==> Fitting(states[n - 1], moves[n - 1]))
    ensures (forall i | 0 <= i <= n :: Room(states[i].book))
            <==> (forall k | 0 <= k < n :: Fitting(states[k], moves[k]))
  {
    hide *;
    if forall i | 0 <= i <= n :: Room(states[i].book) {
      assert Fitting(states[n - 1], moves[n - 1]);
    }
    if forall k | 0 <= k < n :: Fitting(states[k], moves[k]) {
      assert Room(states[n - 1].book);
    }
  }

  lemma StepTaken(states: seq<System>, moves: seq<Move>, i: nat)
    requires IsRun(states, moves) && i < |moves|
    ensures |states| == |moves| + 1 && moves[i] in moves
    ensures Enabled(states[i], moves[i]) && states[i + 1] == Next(states[i], moves[i])
  {
    assert StepAt(states, moves, i);
  }

  /** While the claims outside the inbox loop fit, an admitted message's claim never finds the ledger full. */
  lemma AdmittedHasRoom(states: seq<System>, moves: seq<Move>, i: nat)
    requires IsRun(states, moves) && i < |states| && forall k | 0 <= k < i :: Fitting(states[k], moves[k])
    ensures Pending(states[i].book.inbox) <= QUEUE
    ensures |states[i].book.requests| + Reserved(states[i].book.inbox, states[i].book.requests) <= CAPACITY
    ensures forall x: Row | x in states[i].book.inbox && !x.done :: Claim(states[i].book, x.message).out.Ok?
  {
    RunRoom(states, moves, i);
    hide Claim, Fits;
    RoomToClaim(states[i].book);
  }

  lemma RoomToClaim(b: Book)
    requires Room(b)
    ensures forall x: Row | x in b.inbox && !x.done :: Claim(b, x.message).out.Ok?
  {
    forall x: Row | x in b.inbox && !x.done ensures Claim(b, x.message).out.Ok? {
      if x.message !in b.requests { ClaimCounts(b.inbox, b.requests, x.message); }
    }
  }
}
