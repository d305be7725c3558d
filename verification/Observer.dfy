/** The paginated scan of a channel's history. The server is arbitrary: `http` gives its answer to the n-th request. */
module Observer {
  import opened Options
  import opened Activity
  import Seqs

  datatype Raw = Raw(id: nat, channel: Id, created: Time, valid: bool, size: nat)

  /** `wait`: the server asked for a delay the job still has time for. */
  datatype Http = Json(page: seq<Raw>) | RateLimited(wait: bool) | Broken

  /** The answer to the request with this number, for this cursor and limit. */
  type Server = (nat, nat, nat) -> Http

  datatype Permission = Granted | Denied | Unknown

  /** `usable`: the channel exists, has a supported type and its history is not denied. */
  datatype Channel = Channel(id: Id, usable: bool, permission: Permission)

  datatype Window = Window(start: Time, end: Time, cursor: nat, perChannel: nat)

  datatype Failure =
    | NotUsable | MessageLimit | BudgetExceeded | RateLimit | Transport | NotAdvancing | IdentityMismatch | Invalid
    | ByteLimit

  datatype Verdict = Verdict(status: CoverageStatus, failure: Option<Failure>, count: nat)

  const PAGE := 100
  const MESSAGES := 2000
  const BYTES := 7 * 1024 * 1024
  const EPOCH_MS := 1420070400000

  function Least(a: nat, b: nat): nat { if a <= b then a else b }

  /** The first identifier that could be given at a time or later; times are microseconds. */
  function SnowflakeBefore(t: Time): nat {
    var ms := t / 1000 - EPOCH_MS;
    if ms <= 0 then 1 else ms * 0x40_0000
  }

  /** The millisecond in which an identifier was given. */
  function Millisecond(id: nat): nat { id / 0x40_0000 + EPOCH_MS }

  /** The first cursor lies before exactly the identifiers of the end's millisecond and later, and before all but 0 when
      there were none yet. */
  lemma CursorAtEnd(t: Time, id: nat)
    ensures t / 1000 > EPOCH_MS ==> (id < SnowflakeBefore(t) <==> Millisecond(id) < t / 1000)
    ensures t / 1000 <= EPOCH_MS ==> (id < SnowflakeBefore(t) <==> id == 0)
  {
    var ms := t / 1000 - EPOCH_MS;
    assert id / 0x40_0000 < ms <==> id < ms * 0x40_0000;
  }

  predicate Inside(w: Window, created: Time) { w.start <= created < w.end }

  function Ids(rows: seq<Raw>): set<nat> { set r | r in rows :: r.id }

  /** Distinct messages of one channel, inside the window and below the first cursor. */
  predicate Proper(rows: seq<Raw>, channel: Id, w: Window) {
    && (forall r | r in rows :: r.channel == channel && Inside(w, r.created) && r.id < w.cursor)
    && forall i, j | 0 <= i < j < |rows| :: rows[i].id != rows[j].id
  }

  /** The newest messages below the cursor, as many as asked for. */
  ghost predicate Newest(page: seq<Raw>, history: set<Raw>, cursor: nat, limit: nat) {
    && (forall r | r in page :: r in history && r.id < cursor)
    && (forall h | h in history && h.id < cursor && h !in page ::
          |page| == limit && forall r | r in page :: h.id < r.id)
  }

  /** The server tells the truth about a history whose times ascend with its identifiers. */
  ghost predicate Honest(http: Server, channel: Id, history: set<Raw>) {
    && (forall n: nat, cursor: nat, limit: nat | http(n, cursor, limit).Json? ::
          Newest(http(n, cursor, limit).page, history, cursor, limit))
    && (forall h | h in history :: h.channel == channel)
    && (forall g, h | g in history && h in history ::
          (g.id == h.id ==> g == h) && (g.id <= h.id ==> g.created <= h.created))
  }

  /** What a complete scan must have collected. */
  ghost predicate Collected(rows: seq<Raw>, history: set<Raw>, w: Window, from: nat) {
    forall h: Raw :: h in rows <==> h in history && from <= h.id < w.cursor && Inside(w, h.created)
  }

  function Heft(rows: seq<Raw>): nat {
    if rows == [] then 0 else Heft(rows[..|rows| - 1]) + rows[|rows| - 1].size
  }

  ghost function Weight(rows: set<Raw>): nat {
    if rows == {} then 0 else
      var r :| r in rows;
      r.size + Weight(rows - {r})
  }

  /** The messages of the history below a cursor, and those of them inside the window. */
  ghost function Below(history: set<Raw>, cursor: nat): set<Raw> { set h | h in history && h.id < cursor }

  ghost function Wanted(history: set<Raw>, w: Window): set<Raw> {
    set h | h in history && h.id < w.cursor && Inside(w, h.created)
  }

  /** The server tells the truth and answers every request, what is wanted is valid and fits, and a request more than
      there are messages can be made. */
  ghost predicate Serves(http: Server, c: Channel, w: Window, history: set<Raw>, others: nat, bytes: nat, left: int) {
    && c.usable && c.permission.Granted? && Honest(http, c.id, history)
    && (forall n: nat, cursor: nat, limit: nat :: http(n, cursor, limit).Json?)
    && (forall h | h in Wanted(history, w) :: h.valid)
    && |Wanted(history, w)| < w.perChannel && others + |Wanted(history, w)| < 2000
    && bytes + Weight(Wanted(history, w)) <= 7 * 1024 * 1024
    && |Below(history, w.cursor)| + 1 <= left
  }

  lemma {:induction false} WeightWithout(rows: set<Raw>, r: Raw)
    requires r in rows
    ensures Weight(rows) == r.size + Weight(rows - {r})
  {
    var x :| x in rows && Weight(rows) == x.size + Weight(rows - {x});
    if x != r {
      WeightWithout(rows - {x}, r);
      WeightWithout(rows - {r}, x);
      assert rows - {x} - {r} == rows - {r} - {x};
    }
  }

  /** Distinct messages taken from a set are no more, and no heavier, than the set. */
  lemma {:induction false} RowsFit(rows: seq<Raw>, all: set<Raw>)
    requires (forall r | r in rows :: r in all) && forall i, j | 0 <= i < j < |rows| :: rows[i] != rows[j]
    ensures |rows| <= |all| && Heft(rows) <= Weight(all)
  {
    if rows != [] {
      var n := |rows| - 1;
      assert rows[n] in rows;
      RowsFit(rows[..n], all - {rows[n]});
      WeightWithout(all, rows[n]);
    }
  }

  lemma FewerBelow(history: set<Raw>, from: nat, to: nat, o: Raw)
    requires o in history && to <= o.id < from
    ensures |Below(history, to)| < |Below(history, from)|
  {
    var a, b := Below(history, to), Below(history, from);
    assert a <= b - {o};
    SmallerSet(a, b - {o});
  }

  lemma {:induction false} SmallerSet(a: set<Raw>, b: set<Raw>)
    requires a <= b
    ensures |a| <= |b|
  {
    if a != {} {
      var x :| x in a;
      SmallerSet(a - {x}, b - {x});
    }
  }

  // ---- one request ---------------------------------------------------------------------------------

  /** One retry after a tolerable delay; every attempt draws on the budget. */
  method Get(http: Server, cursor: nat, limit: nat, used: nat, budget: nat)
    returns (out: Result<seq<Raw>, Failure>, used': nat)
    requires used <= budget
    ensures used <= used' <= budget && used' <= used + 2
    ensures out.Ok? ==> used < used' && exists n: nat :: http(n, cursor, limit) == Json(out.value)
    ensures used' == used + 2 ==> http(used, cursor, limit) == RateLimited(true)
    ensures out == Err(Failure.BudgetExceeded)
            <==> used' == budget
                 && (used == budget || (used' == used + 1 && http(used, cursor, limit) == RateLimited(true)))
    ensures out.Err? ==>
              || (out.error.BudgetExceeded? && used' == budget)
              || (out.error.RateLimit? && used' > 0 && http(used' - 1, cursor, limit).RateLimited?)
              || (out.error.Transport? && used' > 0 && http(used' - 1, cursor, limit).Broken?)
    ensures used < budget ==>
              match http(used, cursor, limit)
              case Json(page) => out == Ok(page) && used' == used + 1
              case Broken => out == Err(Transport) && used' == used + 1
              case RateLimited(false) => out == Err(RateLimit) && used' == used + 1
              case RateLimited(true) =>
                used + 1 < budget ==>
                  && used' == used + 2
                  && out == match http(used + 1, cursor, limit)
                            case Json(page) => Ok(page)
                            case Broken => Err(Transport)
                            case RateLimited(_) => Err(RateLimit)
  {
    used' := used;
    var retry := 0;
    while retry < 2
      invariant used' == used + retry <= budget
      invariant retry > 0 ==> http(used, cursor, limit) == RateLimited(true)
      invariant 0 <= retry <= 2 && (retry == 2 ==> http(used + 1, cursor, limit).RateLimited?)
      decreases 2 - retry
    {
      if used' >= budget { return Err(Failure.BudgetExceeded), used'; }
      var n := used';
      used' := used' + 1;
      match http(n, cursor, limit) {
        case Json(page) => return Ok(page), used';
        case RateLimited(wait) => if retry == 1 || !wait { return Err(RateLimit), used'; }
        case Broken => return Err(Transport), used';
      }
      retry := retry + 1;
    }
    return Err(RateLimit), used';
  }

  /** How many messages are asked for: a hundred, or what there is still room for. */
  function Asked(room: nat, left: nat): (limit: nat)
    requires room > 0 && left > 0
    ensures 1 <= limit <= 100 && limit <= room && limit <= left
    ensures limit == 100 || limit == room || limit == left
  {
    Least(PAGE, Least(room, left))
  }

  /** What a failure of a channel says: of the channel, of what was taken, or of an answer of the server. */
  ghost predicate Blamed(http: Server, c: Channel, w: Window, rows: seq<Raw>, others: nat, bytes: nat, used: nat,
                         budget: nat, f: Failure) {
    match f
    case NotUsable => !c.usable || c.permission.Denied?
    case MessageLimit => |rows| >= w.perChannel || others + |rows| >= 2000
    case BudgetExceeded => used == budget
    case RateLimit => exists n: nat, cursor: nat, limit: nat :: n + 1 == used && http(n, cursor, limit).RateLimited?
    case Transport => exists n: nat, cursor: nat, limit: nat :: n + 1 == used && http(n, cursor, limit).Broken?
    case NotAdvancing => exists n: nat, cursor: nat, limit: nat :: Stuck(http(n, cursor, limit), cursor)
    case _ => exists n: nat, cursor: nat, limit: nat ::
                Spoilt(http(n, cursor, limit), c.id, w, cursor, rows, others, bytes, f)
  }

  /** A page, but of nothing older. */
  predicate Stuck(answer: Http, cursor: nat) {
    answer.Json? && answer.page != [] && forall r | r in answer.page :: r.id >= cursor
  }

  predicate Spoilt(answer: Http, channel: Id, w: Window, cursor: nat, rows: seq<Raw>, others: nat, bytes: nat,
                   f: Failure) {
    answer.Json? && exists r | r in answer.page :: Blocks(r, channel, w, cursor, rows, others, bytes, f)
  }

  /** The failure of a request, where one was made for this cursor. */
  lemma BlameRequest(http: Server, c: Channel, w: Window, rows: seq<Raw>, others: nat, bytes: nat, cursor: nat,
                     limit: nat, used: nat, budget: nat, f: Failure)
    requires || (f.BudgetExceeded? && used == budget)
             || (f.RateLimit? && used > 0 && http(used - 1, cursor, limit).RateLimited?)
             || (f.Transport? && used > 0 && http(used - 1, cursor, limit).Broken?)
    ensures Blamed(http, c, w, rows, others, bytes, used, budget, f)
  {
    if f.RateLimit? { assert http(used - 1, cursor, limit).RateLimited?; }
    if f.Transport? { assert http(used - 1, cursor, limit).Broken?; }
  }

  lemma BlameRoom(http: Server, c: Channel, w: Window, rows: seq<Raw>, others: nat, bytes: nat, used: nat, budget: nat)
    ensures |rows| >= w.perChannel || others + |rows| >= MESSAGES ==>
              Blamed(http, c, w, rows, others, bytes, used, budget, MessageLimit)
    ensures !c.usable || c.permission.Denied? ==> Blamed(http, c, w, rows, others, bytes, used, budget, NotUsable)
  {}

  lemma BlameCursor(http: Server, c: Channel, w: Window, rows: seq<Raw>, others: nat, bytes: nat, cursor: nat,
                    limit: nat, used: nat, budget: nat, page: seq<Raw>)
    requires exists n: nat :: http(n, cursor, limit) == Json(page)
    requires page != [] && forall r | r in page :: r.id >= cursor
    ensures Blamed(http, c, w, rows, others, bytes, used, budget, NotAdvancing)
  {
    var n: nat :| http(n, cursor, limit) == Json(page);
    assert Stuck(http(n, cursor, limit), cursor);
  }

  lemma BlamePage(http: Server, c: Channel, w: Window, rows: seq<Raw>, others: nat, bytes: nat, cursor: nat,
                  limit: nat, used: nat, budget: nat, page: seq<Raw>, f: Failure)
    requires exists n: nat :: http(n, cursor, limit) == Json(page)
    requires exists r :: r in page && Blocks(r, c.id, w, cursor, rows, others, bytes, f)
    ensures Blamed(http, c, w, rows, others, bytes, used, budget, f)
  {
    var n: nat :| http(n, cursor, limit) == Json(page);
    assert Spoilt(http(n, cursor, limit), c.id, w, cursor, rows, others, bytes, f);
  }

  /** The oldest identifier of a page. */
  method Oldest(page: seq<Raw>) returns (oldest: nat)
    requires page != []
    ensures oldest in Ids(page) && forall r | r in page :: oldest <= r.id
  {
    oldest := page[0].id;
    var i := 1;
    while i < |page|
      invariant 1 <= i <= |page|
      invariant oldest in Ids(page[..i]) && forall k | 0 <= k < i :: oldest <= page[k].id
    {
      assert page[..i + 1] == page[..i] + [page[i]];
      if page[i].id < oldest { oldest := page[i].id; }
      i := i + 1;
    }
    assert page[..i] == page;
  }

  /** What is wrong with a message that ends the taking. */
  predicate Blocks(r: Raw, channel: Id, w: Window, before: nat, rows: seq<Raw>, others: nat, bytes: nat, f: Failure) {
    match f
    case IdentityMismatch => r.channel != channel || r.id >= before
    case MessageLimit => Due(r, channel, w, rows) && (|rows| >= w.perChannel || others + |rows| >= 2000)
    case Invalid => Due(r, channel, w, rows) && !r.valid
    case ByteLimit => Due(r, channel, w, rows) && bytes + r.size > 7 * 1024 * 1024
    case _ => false
  }

  /** The message is the channel's, inside the window and not taken yet. */
  predicate Due(r: Raw, channel: Id, w: Window, rows: seq<Raw>) {
    r.channel == channel && w.start <= r.created < w.end && forall x | x in rows :: x.id != r.id
  }

  lemma WrongIdentity(r: Raw, channel: Id, w: Window, before: nat, rows: seq<Raw>, others: nat, bytes: nat)
    requires r.channel != channel || r.id >= before
    ensures Blocks(r, channel, w, before, rows, others, bytes, IdentityMismatch)
  {}

  lemma NotTaken(r: Raw, channel: Id, w: Window, before: nat, rows: seq<Raw>, others: nat, bytes: nat)
    requires r.channel == channel && Inside(w, r.created) && r.id !in Ids(rows)
    ensures |rows| >= w.perChannel || others + |rows| >= MESSAGES ==>
              Blocks(r, channel, w, before, rows, others, bytes, MessageLimit)
    ensures !r.valid ==> Blocks(r, channel, w, before, rows, others, bytes, Invalid)
    ensures bytes + r.size > BYTES ==> Blocks(r, channel, w, before, rows, others, bytes, ByteLimit)
  {}

  /** Takes from a page what is new and inside the window, until something is wrong or a limit is reached. */
  method TakePage(page: seq<Raw>, channel: Id, w: Window, before: nat, rows: seq<Raw>, others: nat, bytes: nat)
    returns (failure: Option<Failure>, rows': seq<Raw>, bytes': nat, reached: bool)
    requires Proper(rows, channel, w) && before <= w.cursor
    requires |rows| <= w.perChannel && others + |rows| <= MESSAGES && bytes <= BYTES
    ensures Proper(rows', channel, w) && rows <= rows'
    ensures |rows'| <= w.perChannel && others + |rows'| <= MESSAGES && bytes' <= BYTES
    ensures forall r: Raw | r in rows' :: r in rows || r in page
    ensures failure.None? ==> forall r | r in page ::
              r.channel == channel && r.id < before
              && (Inside(w, r.created) ==> r.id in Ids(rows'))
    ensures failure.None? ==> (reached <==> exists r :: r in page && r.created < w.start)
    ensures bytes' + Heft(rows) == bytes + Heft(rows')
    ensures failure.Some? ==>
              exists r :: r in page && Blocks(r, channel, w, before, rows', others, bytes', failure.value)
  {
    rows', bytes', reached := rows, bytes, false;
    hide Heft, Blocks;
    var i := 0;
    while i < |page|
      invariant 0 <= i <= |page|
      invariant Proper(rows', channel, w) && rows <= rows'
      invariant |rows'| <= w.perChannel && others + |rows'| <= MESSAGES && bytes' <= BYTES
      invariant forall r: Raw | r in rows' :: r in rows || r in page
      invariant forall k | 0 <= k < i :: page[k].channel == channel && page[k].id < before
                                         && (Inside(w, page[k].created) ==> page[k].id in Ids(rows'))
      invariant reached <==> exists k :: 0 <= k < i && page[k].created < w.start
      invariant bytes' + Heft(rows) == bytes + Heft(rows')
    {
      var raw := page[i];
      assert raw in page;
      i := i + 1;
      if raw.channel != channel || raw.id >= before {
        WrongIdentity(raw, channel, w, before, rows', others, bytes');
        return Some(IdentityMismatch), rows', bytes', reached;
      }
      if raw.created < w.start {
        reached := true;
      } else if raw.created < w.end && raw.id !in Ids(rows') {
        NotTaken(raw, channel, w, before, rows', others, bytes');
        if |rows'| >= w.perChannel || others + |rows'| >= MESSAGES {
          return Some(MessageLimit), rows', bytes', reached;
        }
        if !raw.valid { return Some(Invalid), rows', bytes', reached; }
        if bytes' + raw.size > BYTES { return Some(ByteLimit), rows', bytes', reached; }
        LastHeft(rows', raw);
        ghost var shorter := rows';
        rows' := rows' + [raw];
        bytes' := bytes' + raw.size;
        assert Ids(rows') == Ids(shorter) + {raw.id};
      }
    }
    return None, rows', bytes', reached;
  }

  // ---- one channel -----------------------------------------------------------------------------------

  lemma PageExtends(http: Server, channel: Id, history: set<Raw>, w: Window, page: seq<Raw>, limit: nat, before: nat,
                    oldest: nat, rows: seq<Raw>, rows': seq<Raw>)
    requires Honest(http, channel, history) && exists n: nat :: http(n, before, limit) == Json(page)
    requires Collected(rows, history, w, before) && before <= w.cursor && Proper(rows', channel, w)
    requires page != [] && oldest in Ids(page) && oldest < before && forall r | r in page :: oldest <= r.id
    requires rows <= rows' && forall r: Raw | r in rows' :: r in rows || r in page
    requires forall r | r in page && Inside(w, r.created) :: r.id in Ids(rows')
    ensures Collected(rows', history, w, oldest)
  {
    var n: nat :| http(n, before, limit) == Json(page);
    assert Newest(page, history, before, limit);
    forall h: Raw | h in rows' ensures h in history && oldest <= h.id < w.cursor && Inside(w, h.created) {
      if h !in rows { assert h in page; }
    }
    forall h: Raw | h in history && oldest <= h.id < w.cursor && Inside(w, h.created) ensures h in rows' {
      if h.id >= before {
        assert h in rows;
        var k :| 0 <= k < |rows| && rows[k] == h;
        assert rows'[k] == h;
      } else {
        var o :| o in page && o.id == oldest;
        assert h in page;
        var r :| r in rows' && r.id == h.id;
        assert r in rows || r in page;
        assert r in history;
      }
    }
  }

  /** When the page is empty, or has reached behind the window, nothing inside the window is missing. */
  lemma NothingLeft(http: Server, channel: Id, history: set<Raw>, w: Window, page: seq<Raw>, limit: nat, before: nat,
                    from: nat, rows: seq<Raw>)
    requires Honest(http, channel, history) && exists n: nat :: http(n, before, limit) == Json(page)
    requires limit > 0 && from <= before && Collected(rows, history, w, from)
    requires || (page == [] && from == before)
             || (from in Ids(page) && exists r :: r in page && r.created < w.start && from <= r.id)
    ensures Collected(rows, history, w, 0)
  {
    var n: nat :| http(n, before, limit) == Json(page);
    assert Newest(page, history, before, limit);
    if page != [] {
      var r :| r in page && r.created < w.start && from <= r.id;
      assert r in history;
      forall h | h in history && h.id < from ensures !Inside(w, h.created) {}
    }
  }

  lemma CollectedFits(rows: seq<Raw>, history: set<Raw>, w: Window, from: nat, channel: Id)
    requires Collected(rows, history, w, from) && Proper(rows, channel, w)
    ensures |rows| <= |Wanted(history, w)| && Heft(rows) <= Weight(Wanted(history, w))
  {
    assert forall r | r in rows :: r in Wanted(history, w);
    RowsFit(rows, Wanted(history, w));
  }

  lemma NotServed(http: Server, c: Channel, w: Window, history: set<Raw>, others: nat, bytes: nat, left: int)
    ensures Serves(http, c, w, history, others, bytes, left) ==>
              c.usable && c.permission.Granted? && Honest(http, c.id, history)
              && forall n: nat, cursor: nat, limit: nat :: http(n, cursor, limit).Json?
  {}

  lemma NothingYet(history: set<Raw>, w: Window)
    ensures Heft([]) == 0 && Collected([], history, w, w.cursor)
  {}

  /** Where the server serves there is room for what is still wanted, and a request left to ask for it. */
  lemma RoomLeft(http: Server, c: Channel, w: Window, history: set<Raw>, others: nat, bytes: nat, left: int,
                 rows: seq<Raw>, before: nat)
    requires Serves(http, c, w, history, others, bytes, left) && Collected(rows, history, w, before)
    requires Proper(rows, c.id, w)
    ensures |rows| < w.perChannel && others + |rows| < MESSAGES && |Below(history, w.cursor)| < left
  {
    CollectedFits(rows, history, w, before, c.id);
    hide Collected, Honest;
  }

  /** Where the server serves, taking a page is never blocked. */
  lemma NothingBlocks(http: Server, c: Channel, w: Window, history: set<Raw>, others: nat, bytes: nat, left: int,
                      page: seq<Raw>, limit: nat, before: nat, rows: seq<Raw>, rows': seq<Raw>, bytes': nat,
                      failure: Option<Failure>)
    requires Serves(http, c, w, history, others, bytes, left) && exists n: nat :: http(n, before, limit) == Json(page)
    requires Collected(rows, history, w, before) && before <= w.cursor && Proper(rows', c.id, w)
    requires forall r: Raw | r in rows' :: r in rows || r in page
    requires bytes' == bytes + Heft(rows')
    requires failure.Some? ==> exists r :: r in page && Blocks(r, c.id, w, before, rows', others, bytes', failure.value)
    ensures failure.None?
  {
    if failure.Some? {
      var n: nat :| http(n, before, limit) == Json(page);
      assert Newest(page, history, before, limit);
      var r :| r in page && Blocks(r, c.id, w, before, rows', others, bytes', failure.value);
      assert r in history && forall x | x in rows' :: x in Wanted(history, w);
      if r.channel == c.id && r.id < before { assert r in Wanted(history, w) <==> Inside(w, r.created); }
      hide Collected, Newest, Weight, Heft, Honest;
      if Due(r, c.id, w, rows') {
        forall i, j | 0 <= i < j < |rows' + [r]| ensures (rows' + [r])[i] != (rows' + [r])[j] {
          assert rows'[i] in rows';
        }
        RowsFit(rows' + [r], Wanted(history, w));
        LastHeft(rows', r);
      }
    }
  }

  lemma LastHeft(rows: seq<Raw>, r: Raw)
    ensures Heft(rows + [r]) == Heft(rows) + r.size
  {
    assert (rows + [r])[..|rows|] == rows;
  }

  lemma PageLowers(http: Server, c: Channel, history: set<Raw>, page: seq<Raw>, limit: nat, before: nat, oldest: nat)
    requires Honest(http, c.id, history) && exists n: nat :: http(n, before, limit) == Json(page)
    requires page != [] && oldest in Ids(page)
    ensures oldest < before && |Below(history, oldest)| < |Below(history, before)|
  {
    var n: nat :| http(n, before, limit) == Json(page);
    assert Newest(page, history, before, limit);
    var o :| o in page && o.id == oldest;
    FewerBelow(history, before, oldest, o);
  }

  /** Scans one channel. Whatever the server does, the scan ends within the budget with distinct messages inside the
      window; if it reports completeness and the server was honest, it has collected exactly the messages of the window
      below the first cursor. */
  method ScanChannel(http: Server, c: Channel, w: Window, others: nat, bytes: nat, used: nat, budget: nat,
                     ghost history: set<Raw>)
    returns (v: Verdict, rows: seq<Raw>, bytes': nat, used': nat)
    requires others <= MESSAGES && bytes <= BYTES && used <= budget && w.perChannel <= MESSAGES
    ensures used <= used' <= budget && bytes' <= BYTES
    ensures Proper(rows, c.id, w) && v.count == |rows| <= w.perChannel && others + |rows| <= MESSAGES
    ensures v.status.Complete? ==> c.permission.Granted? && v.failure.None?
    ensures v.failure == Some(NotUsable) <==> !c.usable || c.permission.Denied?
    ensures !v.status.Complete? ==> v.status == if rows == [] then Unavailable else CoverageStatus.Partial
    ensures v.failure.None? && c.permission.Granted? ==> v.status.Complete?
    ensures v.failure.Some? ==> Blamed(http, c, w, rows, others, bytes', used', budget, v.failure.value)
    ensures bytes' == bytes + Heft(rows)
    ensures Serves(http, c, w, history, others, bytes, budget - used) ==>
              v.status.Complete? && used' - used <= |Below(history, w.cursor)| + 1
    ensures v.status.Complete? && Honest(http, c.id, history) ==> Collected(rows, history, w, 0)
  {
    rows, bytes', used' := [], bytes, used;
    hide Serves, Heft, Blamed, Blocks, Honest, Collected;
    NotServed(http, c, w, history, others, bytes, budget - used);
    NothingYet(history, w);
    BlameRoom(http, c, w, [], others, bytes, used, budget);
    if !c.usable || c.permission.Denied? { return Verdict(Unavailable, Some(NotUsable), 0), rows, bytes', used'; }
    var before: nat := w.cursor;
    while true
      invariant used <= used' <= budget && bytes' <= BYTES && before <= w.cursor
      invariant Proper(rows, c.id, w) && |rows| <= w.perChannel && others + |rows| <= MESSAGES
      invariant Honest(http, c.id, history) ==> Collected(rows, history, w, before)
      invariant bytes' == bytes + Heft(rows) && c.usable && !c.permission.Denied?
      invariant Serves(http, c, w, history, others, bytes, budget - used) ==>
                  used' - used + |Below(history, before)| <= |Below(history, w.cursor)|
      decreases budget - used'
    {
      ghost var serves := Serves(http, c, w, history, others, bytes, budget - used);
      if serves { RoomLeft(http, c, w, history, others, bytes, budget - used, rows, before); }
      if |rows| >= w.perChannel || others + |rows| >= MESSAGES {
        BlameRoom(http, c, w, rows, others, bytes', used', budget);
        v := Stopped(rows, MessageLimit);
        return;
      }
      var limit := Asked(w.perChannel - |rows|, MESSAGES - others - |rows|);
      var out, spent := Get(http, before, limit, used', budget);
      used' := spent;
      if out.Err? {
        BlameRequest(http, c, w, rows, others, bytes', before, limit, used', budget, out.error);
        v := Stopped(rows, out.error);
        return;
      }
      var page := out.value;
      if page == [] {
        if Honest(http, c.id, history) { NothingLeft(http, c.id, history, w, page, limit, before, before, rows); }
        v := Finished(rows, c.permission);
        return;
      }
      var oldest := Oldest(page);
      if serves { PageLowers(http, c, history, page, limit, before, oldest); }
      if oldest >= before {
        BlameCursor(http, c, w, rows, others, bytes', before, limit, used', budget, page);
        v := Stopped(rows, NotAdvancing);
        return;
      }
      var failure, longer, size, reached := TakePage(page, c.id, w, before, rows, others, bytes');
      ghost var shorter := rows;
      rows, bytes' := longer, size;
      if serves {
        NothingBlocks(http, c, w, history, others, bytes, budget - used, page, limit, before, shorter, rows, bytes',
          failure);
      }
      if failure.Some? {
        BlamePage(http, c, w, rows, others, bytes', before, limit, used', budget, page, failure.value);
        v := Stopped(rows, failure.value);
        return;
      }
      if Honest(http, c.id, history) {
        PageExtends(http, c.id, history, w, page, limit, before, oldest, shorter, rows);
        if reached { NothingLeft(http, c.id, history, w, page, limit, before, oldest, rows); }
      }
      before := oldest;
      if reached {
        v := Finished(rows, c.permission);
        return;
      }
    }
  }

  function Stopped(rows: seq<Raw>, f: Failure): Verdict {
    Verdict(if rows == [] then Unavailable else Partial, Some(f), |rows|)
  }

  /** Without a confirmed permission an exhausted history does not count as complete. */
  function Finished(rows: seq<Raw>, p: Permission): Verdict {
    if p.Granted? then Verdict(Complete, None, |rows|)
    else Verdict(if rows == [] then Unavailable else Partial, None, |rows|)
  }

  // ---- every channel ---------------------------------------------------------------------------------

  /** Distinct messages, identified by channel and number. */
  predicate Distinct(rows: seq<Raw>) {
    forall i, j | 0 <= i < j < |rows| :: (rows[i].channel, rows[i].id) != (rows[j].channel, rows[j].id)
  }

  /** The messages of one channel among those collected. */
  function Of(rows: seq<Raw>, channel: Id): seq<Raw> {
    if rows == [] then [] else (if rows[0].channel == channel then [rows[0]] else []) + Of(rows[1..], channel)
  }

  lemma {:induction false} OfAppend(a: seq<Raw>, b: seq<Raw>, channel: Id)
    ensures Of(a + b, channel) == Of(a, channel) + Of(b, channel)
  {
    if a == [] {
      Seqs.AppendNil(b);
      Seqs.AppendNil(Of(b, channel));
      assert a + b == b;
    } else {
      OfAppend(a[1..], b, channel);
      Seqs.DropAppend(a, b, 1);
      var first := if a[0].channel == channel then [a[0]] else [];
      Seqs.Assoc(first, Of(a[1..], channel), Of(b, channel));
    }
  }

  lemma {:induction false} OfOwn(rows: seq<Raw>, channel: Id, other: Id)
    requires forall r | r in rows :: r.channel == channel
    ensures Of(rows, other) == if other == channel then rows else []
  {
    if rows != [] {
      assert rows[0] in rows;
      OfOwn(rows[1..], channel, other);
    }
  }

  /** What holds of the verdict and the messages of one channel. */
  ghost predicate ChannelDone(server: Id -> Server, c: Channel, w: Window, v: Verdict, rows: seq<Raw>,
                              histories: map<Id, set<Raw>>) {
    && v.count == |rows| && Proper(rows, c.id, w)
    && (v.failure == Some(NotUsable) <==> !c.usable || c.permission.Denied?)
    && (v.status.Complete? <==> v.failure.None? && c.permission.Granted?)
    && (!v.status.Complete? ==> v.status == if rows == [] then Unavailable else CoverageStatus.Partial)
    && (v.status.Complete? && c.id in histories && Honest(server(c.id), c.id, histories[c.id]) ==>
          Collected(rows, histories[c.id], w, 0))
  }

  /** What the first channels ask for together: messages, bytes and requests. */
  ghost function AllWanted(channels: seq<Channel>, w: Window, histories: map<Id, set<Raw>>, n: nat): (nat, nat, nat)
    requires n <= |channels|
  {
    if n == 0 then (0, 0, 0)
    else
      var (messages, bytes, requests) := AllWanted(channels, w, histories, n - 1);
      var history := if channels[n - 1].id in histories then histories[channels[n - 1].id] else {};
      (messages + |Wanted(history, w)|, bytes + Weight(Wanted(history, w)), requests + |Below(history, w.cursor)| + 1)
  }

  /** Every channel may be read and its server tells the truth and answers, and all that is wanted fits. */
  ghost predicate AllServe(server: Id -> Server, channels: seq<Channel>, w: Window, budget: nat,
                           histories: map<Id, set<Raw>>) {
    && (forall i | 0 <= i < |channels| ::
          && channels[i].id in histories
          && Serves(server(channels[i].id), channels[i], w, histories[channels[i].id], 0, 0, budget))
    && var (messages, bytes, requests) := AllWanted(channels, w, histories, |channels|);
       messages < 2000 && bytes <= 7 * 1024 * 1024 && requests <= budget
  }

  lemma {:induction false} WantedGrows(channels: seq<Channel>, w: Window, histories: map<Id, set<Raw>>, i: nat, n: nat)
    requires i <= n <= |channels|
    ensures var a, b := AllWanted(channels, w, histories, i), AllWanted(channels, w, histories, n);
            a.0 <= b.0 && a.1 <= b.1 && a.2 <= b.2
  {
    if i < n { WantedGrows(channels, w, histories, i, n - 1); }
  }

  /** The next channel is served, if the ones before took no more than they wanted. */
  lemma NextServed(server: Id -> Server, channels: seq<Channel>, w: Window, budget: nat, histories: map<Id, set<Raw>>,
                   i: nat, messages: nat, bytes: nat, used: nat)
    requires AllServe(server, channels, w, budget, histories) && i < |channels|
    requires var a := AllWanted(channels, w, histories, i); messages <= a.0 && bytes <= a.1 && used <= a.2
    ensures channels[i].id in histories
    ensures Serves(server(channels[i].id), channels[i], w, histories[channels[i].id], messages, bytes, budget - used)
  {
    WantedGrows(channels, w, histories, i + 1, |channels|);
    hide Honest;
  }

  lemma WantedTaken(http: Server, c: Channel, w: Window, history: set<Raw>, others: nat, bytes: nat, left: int,
                    rows: seq<Raw>)
    requires Serves(http, c, w, history, others, bytes, left) && Collected(rows, history, w, 0) && Proper(rows, c.id, w)
    ensures |rows| <= |Wanted(history, w)| && Heft(rows) <= Weight(Wanted(history, w))
  {
    CollectedFits(rows, history, w, 0, c.id);
  }

  /** So far no more has been taken than the first channels ask for. */
  ghost predicate Modest(channels: seq<Channel>, w: Window, histories: map<Id, set<Raw>>, i: nat, messages: nat,
                         bytes: nat, used: nat)
    requires i <= |channels|
  {
    var a := AllWanted(channels, w, histories, i); messages <= a.0 && bytes <= a.1 && used <= a.2
  }

  /** The next channel, after so many messages and bytes of the earlier ones. */
  method ScanNext(server: Id -> Server, channels: seq<Channel>, w: Window, i: nat, taken: nat, bytes: nat, used: nat,
                  budget: nat, ghost histories: map<Id, set<Raw>>)
    returns (v: Verdict, more: seq<Raw>, bytes': nat, used': nat)
    requires i < |channels| && taken <= MESSAGES && bytes <= BYTES && used <= budget && w.perChannel <= MESSAGES
    ensures used <= used' <= budget && bytes' <= BYTES && taken + |more| <= MESSAGES
    ensures forall r | r in more :: r.channel == channels[i].id && Inside(w, r.created) && r.id < w.cursor
    ensures ChannelDone(server, channels[i], w, v, more, histories)
    ensures AllServe(server, channels, w, budget, histories)
            && Modest(channels, w, histories, i, taken, bytes, used) ==>
              v.status.Complete? && Modest(channels, w, histories, i + 1, taken + |more|, bytes', used')
  {
    var c := channels[i];
    ghost var history := if c.id in histories then histories[c.id] else {};
    v, more, bytes', used' := ScanChannel(server(c.id), c, w, taken, bytes, used, budget, history);
    hide AllServe, Serves, AllWanted, Honest, Collected;
    if AllServe(server, channels, w, budget, histories) && Modest(channels, w, histories, i, taken, bytes, used) {
      NextServed(server, channels, w, budget, histories, i, taken, bytes, used);
      NotServed(server(c.id), c, w, history, taken, bytes, budget - used);
      WantedTaken(server(c.id), c, w, history, taken, bytes, budget - used, more);
      WantedStep(channels, w, histories, i);
    }
  }

  /** Scans the channels one after the other on one budget. */
  method ScanAll(server: Id -> Server, channels: seq<Channel>, w: Window, budget: nat,
                 ghost histories: map<Id, set<Raw>>)
    returns (verdicts: seq<Verdict>, rows: seq<Raw>, used: nat)
    requires w.perChannel <= MESSAGES
    requires forall i, j | 0 <= i < j < |channels| :: channels[i].id != channels[j].id
    ensures used <= budget && |rows| <= MESSAGES && Distinct(rows)
    ensures forall r | r in rows :: Inside(w, r.created) && r.id < w.cursor
    ensures |verdicts| == |channels|
    ensures forall i | 0 <= i < |channels| ::
              ChannelDone(server, channels[i], w, verdicts[i], Of(rows, channels[i].id), histories)
    ensures AllServe(server, channels, w, budget, histories) ==>
              forall i | 0 <= i < |channels| :: verdicts[i].status.Complete?
  {
    hide *;
    verdicts, rows, used := ScanEach(server, channels, w, budget, histories);
    AllScanned(server, channels, w, histories, verdicts, rows);
  }

  method ScanEach(server: Id -> Server, channels: seq<Channel>, w: Window, budget: nat,
                  ghost histories: map<Id, set<Raw>>)
    returns (verdicts: seq<Verdict>, rows: seq<Raw>, used: nat)
    requires w.perChannel <= MESSAGES
    requires forall i, j | 0 <= i < j < |channels| :: channels[i].id != channels[j].id
    ensures used <= budget && |rows| <= MESSAGES
    ensures Scanned(server, channels, w, histories, verdicts, rows, |channels|)
    ensures AllServe(server, channels, w, budget, histories) ==> AllComplete(verdicts)
  {
    verdicts, rows, used := [], [], 0;
    var bytes: nat := 0;
    var i := 0;
    NothingWanted(channels, w, histories);
    NothingScanned(server, channels, w, histories);
    hide *;
    while i < |channels|
      invariant 0 <= i <= |channels| && used <= budget && |rows| <= MESSAGES && bytes <= BYTES
      invariant Scanned(server, channels, w, histories, verdicts, rows, i)
      invariant AllServe(server, channels, w, budget, histories) ==>
                  Modest(channels, w, histories, i, |rows|, bytes, used) && AllComplete(verdicts)
    {
      var v, more, bytes', used' := ScanNext(server, channels, w, i, |rows|, bytes, used, budget, histories);
      AppendChannel(server, channels, w, histories, verdicts, rows, v, more, i);
      OneMoreComplete(verdicts, v);
      verdicts, rows, bytes, used := verdicts + [v], rows + more, bytes', used';
      i := i + 1;
    }
  }

  /** What holds of the first channels and of the messages collected from them. */
  ghost predicate Scanned(server: Id -> Server, channels: seq<Channel>, w: Window, histories: map<Id, set<Raw>>,
                          verdicts: seq<Verdict>, rows: seq<Raw>, i: nat) {
    && i <= |channels| && |verdicts| == i && Distinct(rows)
    && (forall r | r in rows :: Inside(w, r.created) && r.id < w.cursor)
    && (forall r | r in rows :: exists k :: 0 <= k < i && channels[k].id == r.channel)
    && forall k | 0 <= k < i :: ChannelDone(server, channels[k], w, verdicts[k], Of(rows, channels[k].id), histories)
  }

  predicate AllComplete(verdicts: seq<Verdict>) { forall k | 0 <= k < |verdicts| :: verdicts[k].status.Complete? }

  lemma OneMoreComplete(verdicts: seq<Verdict>, v: Verdict)
    ensures AllComplete([])
    ensures AllComplete(verdicts) && v.status.Complete? ==> AllComplete(verdicts + [v])
  {}

  lemma NothingScanned(server: Id -> Server, channels: seq<Channel>, w: Window, histories: map<Id, set<Raw>>)
    ensures Scanned(server, channels, w, histories, [], [], 0) && AllComplete([])
  {}

  lemma AllScanned(server: Id -> Server, channels: seq<Channel>, w: Window, histories: map<Id, set<Raw>>,
                   verdicts: seq<Verdict>, rows: seq<Raw>)
    requires Scanned(server, channels, w, histories, verdicts, rows, |channels|)
    ensures Distinct(rows) && |verdicts| == |channels|
    ensures forall r | r in rows :: Inside(w, r.created) && r.id < w.cursor
    ensures forall i | 0 <= i < |channels| ::
              ChannelDone(server, channels[i], w, verdicts[i], Of(rows, channels[i].id), histories)
    ensures AllComplete(verdicts) ==> forall i | 0 <= i < |channels| :: verdicts[i].status.Complete?
  {
    hide ChannelDone, Distinct, Of;
  }

  lemma NothingWanted(channels: seq<Channel>, w: Window, histories: map<Id, set<Raw>>)
    ensures AllWanted(channels, w, histories, 0) == (0, 0, 0) && Modest(channels, w, histories, 0, 0, 0, 0)
  {}

  lemma WantedStep(channels: seq<Channel>, w: Window, histories: map<Id, set<Raw>>, i: nat)
    requires i < |channels|
    ensures var a, b := AllWanted(channels, w, histories, i), AllWanted(channels, w, histories, i + 1);
            var history := if channels[i].id in histories then histories[channels[i].id] else {};
            && b.0 == a.0 + |Wanted(history, w)| && b.1 == a.1 + Weight(Wanted(history, w))
            && b.2 == a.2 + |Below(history, w.cursor)| + 1
  {}

  lemma AppendChannel(server: Id -> Server, channels: seq<Channel>, w: Window, histories: map<Id, set<Raw>>,
                      verdicts: seq<Verdict>, rows: seq<Raw>, v: Verdict, more: seq<Raw>, i: nat)
    requires i < |channels| && Scanned(server, channels, w, histories, verdicts, rows, i)
    requires forall i, j | 0 <= i < j < |channels| :: channels[i].id != channels[j].id
    requires ChannelDone(server, channels[i], w, v, more, histories)
    ensures Scanned(server, channels, w, histories, verdicts + [v], rows + more, i + 1)
  {
    NextChannel(server, channels, w, histories, verdicts, rows, v, more, i);
    forall r | r in rows + more ensures Inside(w, r.created) && r.id < w.cursor {}
    hide ChannelDone, Distinct, Of;
  }

  lemma NextChannel(server: Id -> Server, channels: seq<Channel>, w: Window, histories: map<Id, set<Raw>>,
                    verdicts: seq<Verdict>, rows: seq<Raw>, v: Verdict, more: seq<Raw>, i: nat)
    requires i < |channels| && |verdicts| == i && Distinct(rows)
    requires forall i, j | 0 <= i < j < |channels| :: channels[i].id != channels[j].id
    requires forall r | r in rows :: exists k :: 0 <= k < i && channels[k].id == r.channel
    requires forall k | 0 <= k < i ::
               ChannelDone(server, channels[k], w, verdicts[k], Of(rows, channels[k].id), histories)
    requires ChannelDone(server, channels[i], w, v, more, histories)
    ensures Distinct(rows + more)
    ensures forall r | r in rows + more :: exists k :: 0 <= k < i + 1 && channels[k].id == r.channel
    ensures forall k | 0 <= k < i + 1 ::
              ChannelDone(server, channels[k], w, (verdicts + [v])[k], Of(rows + more, channels[k].id), histories)
  {
    hide Honest, Collected, Inside, Of;
    DistinctAppend(rows, more, channels[i].id);
    forall r | r in rows + more ensures exists k :: 0 <= k < i + 1 && channels[k].id == r.channel {
      if r in rows {
        var k :| 0 <= k < i && channels[k].id == r.channel;
      }
    }
    forall k | 0 <= k < i + 1
      ensures ChannelDone(server, channels[k], w, (verdicts + [v])[k], Of(rows + more, channels[k].id), histories)
    {
      OfAppend(rows, more, channels[k].id);
      OfOwn(more, channels[i].id, channels[k].id);
      if k == i {
        OfNone(rows, channels[i].id);
        assert [] + more == more;
      } else {
        assert Of(rows, channels[k].id) + [] == Of(rows, channels[k].id);
        assert ChannelDone(server, channels[k], w, verdicts[k], Of(rows, channels[k].id), histories);
      }
    }
  }

  lemma DistinctAppend(rows: seq<Raw>, more: seq<Raw>, channel: Id)
    requires Distinct(rows) && (forall r | r in rows :: r.channel != channel)
    requires (forall r | r in more :: r.channel == channel)
    requires forall i, j | 0 <= i < j < |more| :: more[i].id != more[j].id
    ensures Distinct(rows + more)
  {
    assert forall k | 0 <= k < |rows| :: rows[k] in rows;
    assert forall k | 0 <= k < |more| :: more[k] in more;
  }

  lemma {:induction false} OfNone(rows: seq<Raw>, channel: Id)
    requires forall r | r in rows :: r.channel != channel
    ensures Of(rows, channel) == []
  {
    if rows != [] {
      assert rows[0] in rows;
      OfNone(rows[1..], channel);
    }
  }
}
