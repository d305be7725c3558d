/** A worker's budget: every request and retry of a job draws on the same counters. */
module Budgets {
  import opened Options
  import opened Activity
  import opened Store
  import opened Operations
  import opened Runs
  import opened Lineage

  datatype Category = MaxQueries | MaxSources | CacheBytes | Requests(r: Resource)

  datatype Exceeded = JobTimeout | Spent(c: Category)

  function Limit(b: Limits, c: Category): int {
    match c
    case MaxQueries => b.maxQueries
    case MaxSources => b.maxSources
    case CacheBytes => b.cacheBytes
    case Requests(r) => Given(b, r)
  }

  /** Counters start at zero; `queries` and `sources` are the distinct keys already paid for. */
  datatype Meter = Meter(counts: map<Category, nat>, queries: set<string>, sources: set<string>)

  const FRESH := Meter(map[], {}, {})

  function CountOf(m: Meter, c: Category): nat { if c in m.counts then m.counts[c] else 0 }

  datatype Request = Take(c: Category, amount: nat) | Query(key: string) | Source(key: string)

  /** The answer tells whether anything was paid: a known key is free. */
  datatype Answer = Answer(after: Meter, out: Result<bool, Exceeded>)

  /** `left` is the time left of the job. */
  function Draw(m: Meter, b: Limits, left: int, c: Category, amount: nat): Answer {
    if left <= 0 then Answer(m, Err(JobTimeout))
    else if CountOf(m, c) + amount > Limit(b, c) then Answer(m, Err(Spent(c)))
    else Answer(m.(counts := m.counts[c := CountOf(m, c) + amount]), Ok(true))
  }

  function Serve(m: Meter, b: Limits, left: int, q: Request): Answer {
    match q
    case Take(c, amount) => Draw(m, b, left, c, amount)
    case Query(key) =>
      if key in m.queries then Answer(m, Ok(false))
      else
        var d := Draw(m, b, left, MaxQueries, 1);
        if d.out.Err? then d else Answer(d.after.(queries := m.queries + {key}), Ok(true))
    case Source(key) =>
      if key in m.sources then Answer(m, Ok(false))
      else
        var d := Draw(m, b, left, MaxSources, 1);
        if d.out.Err? then d else Answer(d.after.(sources := m.sources + {key}), Ok(true))
  }

  class Budget {
    const limits: Limits
    const started: Time
    var counts: map<Category, nat>
    var queryKeys: set<string>
    var sourceKeys: set<string>

    constructor (limits: Limits, now: Time)
      ensures this.limits == limits && started == now && View() == FRESH
    {
      this.limits, started := limits, now;
      counts, queryKeys, sourceKeys := map[], {}, {};
    }

    function View(): Meter
      reads this
    {
      Meter(counts, queryKeys, sourceKeys)
    }

    function Left(now: Time): int { limits.seconds - (now - started) }

    method TakeUp(c: Category, amount: nat, now: Time) returns (r: Result<bool, Exceeded>)
      modifies this`counts
      ensures Answer(View(), r) == Serve(old(View()), limits, Left(now), Take(c, amount))
      ensures r == Err(JobTimeout) <==> now - started >= limits.seconds
    {
      if limits.seconds - (now - started) <= 0 { return Err(JobTimeout); }
      var count := if c in counts then counts[c] else 0;
      if count + amount > Limit(limits, c) { return Err(Spent(c)); }
      counts := counts[c := count + amount];
      return Ok(true);
    }

    method AddQuery(key: string, now: Time) returns (r: Result<bool, Exceeded>)
      modifies this`counts, this`queryKeys
      ensures Answer(View(), r) == Serve(old(View()), limits, Left(now), Query(key))
      ensures r == Err(JobTimeout) <==> key !in old(queryKeys) && now - started >= limits.seconds
    {
      if key in queryKeys { return Ok(false); }
      r := TakeUp(MaxQueries, 1, now);
      if r.Err? { return; }
      queryKeys := queryKeys + {key};
    }

    method AddSource(key: string, now: Time) returns (r: Result<bool, Exceeded>)
      modifies this`counts, this`sourceKeys
      ensures Answer(View(), r) == Serve(old(View()), limits, Left(now), Source(key))
      ensures r == Err(JobTimeout) <==> key !in old(sourceKeys) && now - started >= limits.seconds
    {
      if key in sourceKeys { return Ok(false); }
      r := TakeUp(MaxSources, 1, now);
      if r.Err? { return; }
      sourceKeys := sourceKeys + {key};
    }
  }

  /** What may be drawn of each kind in all. */
  predicate Within(b: Limits, c: Category, count: nat) {
    match c
    case MaxQueries => count <= b.maxQueries
    case MaxSources => count <= b.maxSources
    case CacheBytes => count <= b.cacheBytes
    case Requests(Searches) => count <= b.search
    case Requests(Fetches) => count <= b.fetch
    case Requests(Models) => count <= b.model
  }

  /** A draw goes through exactly if there is time left and the limit is not passed, and moves its own counter. */
  lemma TakeExactly(m: Meter, b: Limits, left: int, c: Category, amount: nat)
    ensures var a := Serve(m, b, left, Take(c, amount));
            && (a.out == Err(JobTimeout) <==> left <= 0)
            && (a.out == Err(Spent(c)) <==> left > 0 && !Within(b, c, CountOf(m, c) + amount))
            && (a.out == Ok(true) <==> left > 0 && Within(b, c, CountOf(m, c) + amount))
            && (a.out.Err? ==> a.after == m)
            && (a.out.Ok? ==>
                  && CountOf(a.after, c) == CountOf(m, c) + amount
                  && (forall d | d != c :: CountOf(a.after, d) == CountOf(m, d))
                  && a.after.queries == m.queries && a.after.sources == m.sources)
  {}

  /** A known query or source is free at any time; a new one goes through exactly if one more of its kind may be drawn,
      and is known from then on. */
  lemma KeyExactly(m: Meter, b: Limits, left: int, key: string)
    ensures var a := Serve(m, b, left, Query(key));
            && (key in m.queries ==> a == Answer(m, Ok(false)))
            && (key !in m.queries ==>
                  && (a.out == Ok(true) <==> left > 0 && CountOf(m, MaxQueries) < b.maxQueries)
                  && (a.out == Err(JobTimeout) <==> left <= 0) && (a.out.Err? ==> a.after == m)
                  && (a.out == Err(Spent(MaxQueries)) <==> left > 0 && CountOf(m, MaxQueries) >= b.maxQueries)
                  && (a.out.Ok? ==>
                        && a.after.queries == m.queries + {key} && a.after.sources == m.sources
                        && CountOf(a.after, MaxQueries) == CountOf(m, MaxQueries) + 1
                        && forall d | d != MaxQueries :: CountOf(a.after, d) == CountOf(m, d)))
    ensures var a := Serve(m, b, left, Source(key));
            && (key in m.sources ==> a == Answer(m, Ok(false)))
            && (key !in m.sources ==>
                  && (a.out == Ok(true) <==> left > 0 && CountOf(m, MaxSources) < b.maxSources)
                  && (a.out == Err(JobTimeout) <==> left <= 0) && (a.out.Err? ==> a.after == m)
                  && (a.out == Err(Spent(MaxSources)) <==> left > 0 && CountOf(m, MaxSources) >= b.maxSources)
                  && (a.out.Ok? ==>
                        && a.after.sources == m.sources + {key} && a.after.queries == m.queries
                        && CountOf(a.after, MaxSources) == CountOf(m, MaxSources) + 1
                        && forall d | d != MaxSources :: CountOf(a.after, d) == CountOf(m, d)))
  {}

  // ---- a whole job ---------------------------------------------------------------------------------

  /** A request and the time left when it is made. */
  datatype Call = Call(q: Request, left: int)

  function After(b: Limits, calls: seq<Call>): Meter {
    if calls == [] then FRESH
    else Serve(After(b, calls[..|calls| - 1]), b, calls[|calls| - 1].left, calls[|calls| - 1].q).after
  }

  /** What a call adds to a counter, if it goes through. */
  function Cost(b: Limits, m: Meter, call: Call, c: Category): nat {
    match call.q
    case Take(d, amount) => if d == c && Serve(m, b, call.left, call.q).out.Ok? then amount else 0
    case Query(key) => if c == MaxQueries && Serve(m, b, call.left, call.q).out == Ok(true) then 1 else 0
    case Source(key) => if c == MaxSources && Serve(m, b, call.left, call.q).out == Ok(true) then 1 else 0
  }

  /** What all the calls that went through have drawn from a counter. */
  function Drawn(b: Limits, calls: seq<Call>, c: Category): nat {
    if calls == [] then 0
    else
      var early := calls[..|calls| - 1];
      Drawn(b, early, c) + Cost(b, After(b, early), calls[|calls| - 1], c)
  }

  ghost predicate Sound(m: Meter, b: Limits) {
    && (forall c: Category :: CountOf(m, c) <= Most(0, Limit(b, c)))
    && |m.queries| <= CountOf(m, MaxQueries) && |m.sources| <= CountOf(m, MaxSources)
  }

  /** A draw moves its own counter only, and not past the limit. */
  lemma DrawCounts(m: Meter, b: Limits, left: int, d: Category, amount: nat, c: Category)
    requires Sound(m, b)
    ensures var a := Draw(m, b, left, d, amount);
            && CountOf(a.after, c) == CountOf(m, c) + (if c == d && a.out.Ok? then amount else 0)
            && CountOf(a.after, c) <= Most(0, Limit(b, c))
            && a.after.queries == m.queries && a.after.sources == m.sources
  {}

  lemma DrawSound(m: Meter, b: Limits, left: int, d: Category, amount: nat)
    requires Sound(m, b)
    ensures Sound(Draw(m, b, left, d, amount).after, b)
    ensures Draw(m, b, left, d, amount).out.Ok? ==>
              CountOf(Draw(m, b, left, d, amount).after, d) == CountOf(m, d) + amount
  {
    var a := Draw(m, b, left, d, amount);
    forall c: Category ensures CountOf(a.after, c) <= Most(0, Limit(b, c)) && CountOf(m, c) <= CountOf(a.after, c) {
      DrawCounts(m, b, left, d, amount, c);
    }
    DrawCounts(m, b, left, d, amount, MaxQueries);
    DrawCounts(m, b, left, d, amount, d);
    hide Draw, CountOf, Limit;
  }

  lemma ServeSound(m: Meter, b: Limits, call: Call)
    requires Sound(m, b)
    ensures Sound(Serve(m, b, call.left, call.q).after, b)
  {
    hide Draw, Limit;
    match call.q
    case Take(c, amount) => DrawSound(m, b, call.left, c, amount);
    case Query(key) => DrawSound(m, b, call.left, MaxQueries, 1);
      KeysKept(m, b, call.left, MaxQueries);
    case Source(key) => DrawSound(m, b, call.left, MaxSources, 1);
      KeysKept(m, b, call.left, MaxSources);
  }

  lemma KeysKept(m: Meter, b: Limits, left: int, d: Category)
    ensures var a := Draw(m, b, left, d, 1).after; a.queries == m.queries && a.sources == m.sources
  {}

  lemma ServeCounts(m: Meter, b: Limits, call: Call, c: Category)
    requires Sound(m, b)
    ensures CountOf(Serve(m, b, call.left, call.q).after, c) == CountOf(m, c) + Cost(b, m, call, c)
  {
    match call.q
    case Take(d, amount) => DrawCounts(m, b, call.left, d, amount, c);
    case Query(key) => DrawCounts(m, b, call.left, MaxQueries, 1, c);
    case Source(key) => DrawCounts(m, b, call.left, MaxSources, 1, c);
  }

  /** Whatever is requested in whatever order, each counter is exactly what went through and stays within its limit,
      and no more distinct queries or sources are let through than their limits. */
  lemma {:induction false} NeverOverdrawn(b: Limits, calls: seq<Call>, c: Category)
    ensures CountOf(After(b, calls), c) == Drawn(b, calls, c) <= Most(0, Limit(b, c))
    ensures |After(b, calls).queries| <= Most(0, b.maxQueries) && |After(b, calls).sources| <= Most(0, b.maxSources)
    ensures Sound(After(b, calls), b)
  {
    if calls != [] {
      var early := calls[..|calls| - 1];
      NeverOverdrawn(b, early, c);
      hide Serve, Sound, Cost;
      ServeSound(After(b, early), b, calls[|calls| - 1]);
      ServeCounts(After(b, early), b, calls[|calls| - 1], c);
    }
    SoundLimits(After(b, calls), b, c);
  }

  lemma SoundLimits(m: Meter, b: Limits, c: Category)
    requires Sound(m, b)
    ensures CountOf(m, c) <= Most(0, Limit(b, c))
    ensures |m.queries| <= Most(0, b.maxQueries) && |m.sources| <= Most(0, b.maxSources)
  {
    assert CountOf(m, MaxQueries) <= Most(0, Limit(b, MaxQueries));
    assert CountOf(m, MaxSources) <= Most(0, Limit(b, MaxSources));
  }

  /** A key already paid for costs nothing, however often and late it comes again. */
  lemma {:induction false} KnownKeyIsFree(b: Limits, calls: seq<Call>, more: seq<Call>, key: string, left: int)
    requires key in After(b, calls).queries
    ensures Serve(After(b, calls + more), b, left, Query(key)) == Answer(After(b, calls + more), Ok(false))
    decreases |more|
  {
    if more == [] {
      assert calls + more == calls;
    } else {
      var early := more[..|more| - 1];
      KnownKeyIsFree(b, calls, early, key, left);
      assert (calls + more)[..|calls + more| - 1] == calls + early;
    }
  }

  /** What a worker reports: its counters. */
  function Snapshot(m: Meter, documentBytes: nat): Usage {
    Usage(CountOf(m, Requests(Searches)), CountOf(m, Requests(Fetches)), CountOf(m, Requests(Models)), documentBytes)
  }

  /** A worker that reports its counters reports no more than its job's budget allowed. */
  lemma SnapshotIsHonest(b: Limits, calls: seq<Call>, documentBytes: nat)
    requires FieldsInRange(b)
    ensures UsageFits(Snapshot(After(b, calls), documentBytes), b)
  {
    forall r: Resource ensures Used(Snapshot(After(b, calls), documentBytes), r) <= Given(b, r) {
      NeverOverdrawn(b, calls, Requests(r));
    }
  }
}
