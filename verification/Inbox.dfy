/** What each transaction on the bridge's ledger answers and leaves behind, told row by row. */
module Inbox {
  import opened Options
  import opened Ledger
  import Seqs

  // ---- counting --------------------------------------------------------------------------------------

  function Waiting(rows: seq<Row>): set<nat> { set i | 0 <= i < |rows| && !rows[i].done }

  function Ended(rows: seq<Row>): set<nat> { set i | 0 <= i < |rows| && rows[i].done }

  function Unbegun(rows: seq<Row>, requests: set<Message>): set<nat> {
    set i | 0 <= i < |rows| && !rows[i].done && rows[i].message !in requests
  }

  lemma {:induction false} CountsExactly(rows: seq<Row>, requests: set<Message>)
    ensures Pending(rows) == |Waiting(rows)| && Finished(rows) == |Ended(rows)|
    ensures Reserved(rows, requests) == |Unbegun(rows, requests)|
  {
    if rows != [] {
      var rest := rows[1..];
      CountsExactly(rest, requests);
      assert forall i | 0 <= i < |rest| :: rest[i] == rows[i + 1];
      Seqs.FirstPlace(Waiting(rows), Waiting(rest), !rows[0].done);
      Seqs.FirstPlace(Ended(rows), Ended(rest), rows[0].done);
      Seqs.FirstPlace(Unbegun(rows, requests), Unbegun(rest, requests), !rows[0].done && rows[0].message !in requests);
    }
  }

  // ---- storing and claiming --------------------------------------------------------------------------

  /** A message that has neither a row nor a request is stored last, pending and unacknowledged, if fewer than 128 rows
      wait and requests and unbegun rows together are fewer than 10000; the fuller thing is named otherwise. */
  lemma EnqueueExactly(b: Book, m: Message, text: string, c: Option<Consumer>)
    ensures var e := Enqueue(b, m, text, c);
            var known := m in b.requests || exists i :: 0 <= i < |b.inbox| && b.inbox[i].message == m;
            var queue := |Waiting(b.inbox)| < 128;
            var room := |b.requests| + |Unbegun(b.inbox, b.requests)| < 10000;
            && (e.out == Ok(false) <==> known)
            && (e.out == Err(QueueFull) <==> !known && !queue)
            && (e.out == Err(LedgerFull) <==> !known && queue && !room)
            && (e.out == Ok(true) <==> !known && queue && room)
            && e.after == (if e.out == Ok(true)
                           then Book(b.requests, b.inbox + [Row(b.next, m, text, false, false, c)], b.next + 1) else b)
  {
    CountsExactly(b.inbox, b.requests);
    HasExactly(b.inbox, m);
    hide Has, Pending, Reserved;
  }

  lemma HasExactly(rows: seq<Row>, m: Message)
    ensures Has(rows, m) <==> exists i :: 0 <= i < |rows| && rows[i].message == m
  {
    if i :| 0 <= i < |rows| && rows[i].message == m { assert rows[i] in rows; }
  }

  /** The first pending row, if nobody owns it or its owner's process has died, becomes the asker's. */
  lemma ClaimNextExactly(b: Book, c: Consumer, live: set<nat>)
    ensures var a := ClaimNext(b, c, live);
            && a.out.Ok?
            && (a.out.value.Some? <==> exists i: nat :: Free(b.inbox, live, i))
            && (a.out.value.None? ==> a.after == b)
            && forall i: nat | Free(b.inbox, live, i) ::
                 a.out.value == Some(b.inbox[i])
                 && a.after == Book(b.requests, b.inbox[i := b.inbox[i].(consumer := Some(c))], b.next)
  {
    var h := Head(b.inbox);
    if h < |b.inbox| && !(b.inbox[h].consumer.Some? && b.inbox[h].consumer.value.process in live) {
      assert Free(b.inbox, live, h);
    }
    forall i: nat | Free(b.inbox, live, i) ensures i == h {}
  }

  /** Row `i` is the first pending one and has no living owner. */
  ghost predicate Free(rows: seq<Row>, live: set<nat>, i: nat) {
    && i < |rows| && !rows[i].done && (forall k | 0 <= k < i :: rows[k].done)
    && (rows[i].consumer.None? || rows[i].consumer.value.process !in live)
  }

  /** A message may begin once, while fewer than 10000 requests are kept. */
  lemma ClaimExactly(b: Book, m: Message)
    ensures var a := Claim(b, m);
            && (a.out == Ok(false) <==> m in b.requests)
            && (a.out == Err(LedgerFull) <==> m !in b.requests && |b.requests| >= 10000)
            && (a.out == Ok(true) <==> m !in b.requests && |b.requests| < 10000)
            && a.after == if a.out == Ok(true) then Book(b.requests + {m}, b.inbox, b.next) else b
  {}

  // ---- marking and pruning ---------------------------------------------------------------------------

  /** What is written into a row: the receipt, the end with the text gone, the owner gone. */
  predicate Written(was: Row, now: Row, receipt: bool, done: bool, release: bool) {
    && now.sequence == was.sequence && now.message == was.message
    && now.receipt == (was.receipt || receipt) && now.done == (was.done || done)
    && now.text == (if done then "" else was.text) && now.consumer == (if release then None else was.consumer)
  }

  /** An update that ends nothing writes into the message's rows and leaves the others. */
  lemma UpdateExactly(b: Book, m: Message, receipt: bool, release: bool)
    ensures var t := Update(b, m, receipt, false, release);
            && t.requests == b.requests && t.next == b.next && |t.inbox| == |b.inbox|
            && forall i | 0 <= i < |b.inbox| ::
                 if b.inbox[i].message == m then Written(b.inbox[i], t.inbox[i], receipt, false, release)
                 else t.inbox[i] == b.inbox[i]
  {}

  /** What of the rows is kept: the pending ones, and the last 10000 finished ones. */
  ghost predicate Lasts(rows: seq<Row>, i: nat)
    requires i < |rows|
  {
    rows[i].done ==> |Ended(rows[i + 1..])| < 10000
  }

  /** The rows that are kept, in their order. */
  ghost function Lasting(rows: seq<Row>): seq<Row> {
    if rows == [] then [] else (if Lasts(rows, 0) then [rows[0]] else []) + Lasting(rows[1..])
  }

  lemma {:induction false} PruneExactly(rows: seq<Row>)
    ensures Prune(rows) == Lasting(rows)
  {
    if rows != [] {
      PruneExactly(rows[1..]);
      CountsExactly(rows[1..], {});
    }
  }

  function EndedRow(x: Row, m: Message, receipt: bool): Row {
    if x.message == m then Row(x.sequence, x.message, "", x.receipt || receipt, true, x.consumer) else x
  }

  function ReleasedRow(x: Row, m: Message, release: bool): Row {
    if x.message == m && release then Row(x.sequence, x.message, x.text, x.receipt, x.done, None) else x
  }

  /** An update that ends the message marks its rows, drops the finished ones there are too many of, and then lets go of
      it. */
  lemma EndExactly(b: Book, m: Message, receipt: bool, release: bool)
    ensures var t := Update(b, m, receipt, true, release);
            var kept := Lasting(seq(|b.inbox|, i requires 0 <= i < |b.inbox| => EndedRow(b.inbox[i], m, receipt)));
            && t.requests == b.requests && t.next == b.next && |t.inbox| == |kept|
            && forall i | 0 <= i < |kept| :: t.inbox[i] == ReleasedRow(kept[i], m, release)
  {
    var marked := TouchAll(b.inbox, m, receipt, true, false);
    var ended := seq(|b.inbox|, i requires 0 <= i < |b.inbox| => EndedRow(b.inbox[i], m, receipt));
    assert marked == ended;
    PruneExactly(marked);
    hide Prune, Lasting;
  }

  /** Opening the ledger clears the text of finished rows and drops those there are too many of. */
  lemma ReopenExactly(b: Book)
    ensures var cleared := seq(|b.inbox|, i requires 0 <= i < |b.inbox| =>
                                 if b.inbox[i].done then b.inbox[i].(text := "") else b.inbox[i]);
            Reopen(b) == Book(b.requests, Lasting(cleared), b.next)
  {
    var cleared := seq(|b.inbox|, i requires 0 <= i < |b.inbox| =>
                         if b.inbox[i].done then b.inbox[i].(text := "") else b.inbox[i]);
    assert Scrub(b.inbox) == cleared;
    PruneExactly(cleared);
    hide Prune, Lasting;
  }
}
