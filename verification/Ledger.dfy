/** The durable inbox of the Discord bridge: rows in order of arrival, and the messages whose execution has begun. */
module Ledger {
  import opened Options

  type Message = nat

  /** A bridge object inside an operating-system process; liveness is the process's. */
  datatype Consumer = Consumer(process: nat, instance: nat)

  datatype Row = Row(sequence: nat, message: Message, text: string, receipt: bool, done: bool,
                     consumer: Option<Consumer>)

  /** `next` is the sequence number of the next row. */
  datatype Book = Book(requests: set<Message>, inbox: seq<Row>, next: nat)

  datatype Full = QueueFull | LedgerFull

  const QUEUE := 128
  const CAPACITY := 10000

  function Pending(rows: seq<Row>): nat {
    if rows == [] then 0 else (if rows[0].done then 0 else 1) + Pending(rows[1..])
  }

  function Finished(rows: seq<Row>): nat {
    if rows == [] then 0 else (if rows[0].done then 1 else 0) + Finished(rows[1..])
  }

  /** Pending rows whose execution has not begun: each will need room for one more request. */
  function Reserved(rows: seq<Row>, requests: set<Message>): nat {
    if rows == [] then 0
    else (if !rows[0].done && rows[0].message !in requests then 1 else 0) + Reserved(rows[1..], requests)
  }

  predicate Has(rows: seq<Row>, m: Message) { exists r | r in rows :: r.message == m }

  /** Only the newest finished rows are kept. */
  function Prune(rows: seq<Row>): seq<Row> {
    if rows == [] then []
    else (if rows[0].done && Finished(rows[1..]) >= CAPACITY then [] else [rows[0]]) + Prune(rows[1..])
  }

  function CheckCapacity(b: Book): Option<Full> {
    if Pending(b.inbox) >= QUEUE then Some(QueueFull)
    else if |b.requests| + Reserved(b.inbox, b.requests) >= CAPACITY then Some(LedgerFull)
    else None
  }

  datatype Answer<T> = Answer(after: Book, out: Result<T, Full>)

  function Enqueue(b: Book, m: Message, text: string, c: Option<Consumer>): Answer<bool> {
    if Has(b.inbox, m) || m in b.requests then Answer(b, Ok(false))
    else
      var full := CheckCapacity(b);
      if full.Some? then Answer(b, Err(full.value))
      else Answer(Book(b.requests, b.inbox + [Row(b.next, m, text, false, false, c)], b.next + 1), Ok(true))
  }

  /** The first pending row, the length without one. */
  function Head(rows: seq<Row>): (i: nat)
    ensures i <= |rows|
    ensures i < |rows| ==> !rows[i].done
    ensures forall k | 0 <= k < i :: rows[k].done
  {
    if rows == [] || !rows[0].done then 0 else 1 + Head(rows[1..])
  }

  /** A pending row whose owner lives, even if the owner asks itself, is not handed out. */
  function ClaimNext(b: Book, c: Consumer, live: set<nat>): Answer<Option<Row>> {
    var i := Head(b.inbox);
    if i == |b.inbox| then Answer(b, Ok(None))
    else
      var row := b.inbox[i];
      if row.consumer.Some? && row.consumer.value.process in live then Answer(b, Ok(None))
      else Answer(b.(inbox := b.inbox[i := row.(consumer := Some(c))]), Ok(Some(row)))
  }

  function Touch(row: Row, receipt: bool, done: bool, release: bool): Row {
    var r := if receipt then row.(receipt := true) else row;
    var d := if done then r.(done := true, text := "") else r;
    if release then d.(consumer := None) else d
  }

  function TouchAll(rows: seq<Row>, m: Message, receipt: bool, done: bool, release: bool): (r: seq<Row>)
    ensures |r| == |rows|
    ensures forall i | 0 <= i < |rows| ::
              r[i] == if rows[i].message == m then Touch(rows[i], receipt, done, release) else rows[i]
  {
    if rows == [] then []
    else
      [if rows[0].message == m then Touch(rows[0], receipt, done, release) else rows[0]]
      + TouchAll(rows[1..], m, receipt, done, release)
  }

  /** The rows are pruned between the marks of completion and of release. */
  function Update(b: Book, m: Message, receipt: bool, done: bool, release: bool): Book {
    var marked := TouchAll(b.inbox, m, receipt, done, false);
    var kept := if done then Prune(marked) else marked;
    b.(inbox := TouchAll(kept, m, false, false, release))
  }

  /** Whether execution may begin: at most once for each message. */
  function Claim(b: Book, m: Message): Answer<bool> {
    if m in b.requests then Answer(b, Ok(false))
    else if |b.requests| >= CAPACITY then Answer(b, Err(LedgerFull))
    else Answer(b.(requests := b.requests + {m}), Ok(true))
  }

  /** Opening the ledger clears the text of finished rows. */
  function Scrub(rows: seq<Row>): (r: seq<Row>)
    ensures |r| == |rows|
    ensures forall i | 0 <= i < |rows| :: r[i] == if rows[i].done then rows[i].(text := "") else rows[i]
  {
    if rows == [] then [] else [if rows[0].done then rows[0].(text := "") else rows[0]] + Scrub(rows[1..])
  }

  function Reopen(b: Book): Book { b.(inbox := Prune(Scrub(b.inbox))) }

  const EMPTY := Book({}, [], 0)
}

/** The ledger in the form the program has: one object over two tables. */
module BridgeStore {
  import opened Options
  import opened Ledger

  class BridgeLedger {
    var requests: set<Message>
    var inbox: seq<Row>
    var next: nat

    constructor (b: Book)
      ensures View() == Reopen(b)
    {
      requests, inbox, next := b.requests, Prune(Scrub(b.inbox)), b.next;
    }

    function View(): Book
      reads this
    {
      Book(requests, inbox, next)
    }

    method Enqueue(m: Message, text: string, c: Option<Consumer>) returns (r: Result<bool, Full>)
      modifies this`inbox, this`next
      ensures Answer(View(), r) == Ledger.Enqueue(old(View()), m, text, c)
    {
      if Has(inbox, m) || m in requests { return Ok(false); }
      var full := CheckCapacity(View());
      if full.Some? { return Err(full.value); }
      inbox := inbox + [Row(next, m, text, false, false, c)];
      next := next + 1;
      return Ok(true);
    }

    method ClaimNext(c: Consumer, live: set<nat>) returns (r: Result<Option<Row>, Full>)
      modifies this`inbox
      ensures Answer(View(), r) == Ledger.ClaimNext(old(View()), c, live)
    {
      var i := Head(inbox);
      if i == |inbox| { return Ok(None); }
      var row := inbox[i];
      if row.consumer.Some? && row.consumer.value.process in live { return Ok(None); }
      inbox := inbox[i := row.(consumer := Some(c))];
      return Ok(Some(row));
    }

    method InboxUpdate(m: Message, receipt: bool, done: bool, release: bool)
      modifies this`inbox
      ensures View() == Update(old(View()), m, receipt, done, release)
    {
      SameTouch(inbox, m);
      if receipt { inbox := TouchAll(inbox, m, true, false, false); }
      ghost var received := inbox;
      if done { inbox := TouchAll(inbox, m, false, true, false); }
      TouchTwice(old(inbox), m, receipt, done);
      if done { inbox := Prune(inbox); }
      SameTouch(inbox, m);
      if release { inbox := TouchAll(inbox, m, false, false, true); }
    }

    static lemma SameTouch(rows: seq<Row>, m: Message)
      ensures TouchAll(rows, m, false, false, false) == rows
    {}

    static lemma TouchTwice(rows: seq<Row>, m: Message, receipt: bool, done: bool)
      ensures TouchAll(TouchAll(rows, m, receipt, false, false), m, false, done, false)
              == TouchAll(rows, m, receipt, done, false)
    {
      SameTouch(TouchAll(rows, m, receipt, false, false), m);
    }

    method Claim(m: Message) returns (r: Result<bool, Full>)
      modifies this`requests
      ensures Answer(View(), r) == Ledger.Claim(old(View()), m)
    {
      if m in requests { return Ok(false); }
      if |requests| >= CAPACITY { return Err(LedgerFull); }
      requests := requests + {m};
      return Ok(true);
    }
  }
}
