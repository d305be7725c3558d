/** The job manager in the form the program has: an object whose methods change its tables, one call at a time. */
module JobManager {
  import opened Options
  import opened Activity
  import opened Sums
  import opened Store
  import opened Operations
  import opened Runs
  import opened Lifecycle
  import opened Scheduler

  /** Expiry of a given set of jobs. */
  function Forget(s: Tables, gone: set<JobId>): Tables {
    var rows := set a | a in s.artifacts && s.artifacts[a].job in gone;
    s.(jobs := map j | j in s.jobs :: if j in gone then Forgotten(s.jobs[j]) else s.jobs[j],
       artifacts := s.artifacts - rows,
       observations := s.observations - gone,
       files := s.files - set a | a in rows :: PathOf(s.artifacts[a]))
  }

  function ForgetOne(s: Tables, j: JobId): Tables
    requires j in s.jobs
  {
    s.(jobs := s.jobs[j := Forgotten(s.jobs[j])],
       artifacts := s.artifacts - ArtifactsOf(s, j),
       observations := s.observations - {j},
       files := s.files - set a | a in ArtifactsOf(s, j) :: PathOf(s.artifacts[a]))
  }

  lemma ForgetStep(s: Tables, gone: set<JobId>, j: JobId)
    requires j in s.jobs && j !in gone
    ensures j in Forget(s, gone).jobs
    ensures Forget(s, gone + {j}) == ForgetOne(Forget(s, gone), j)
  {
    var a, b := Forget(s, gone + {j}), ForgetOne(Forget(s, gone), j);
    assert a.jobs == b.jobs;
    assert a.artifacts == b.artifacts;
    assert a.observations == b.observations;
    assert a.files.Keys == b.files.Keys;
    assert a.files == b.files;
  }

  lemma ForgetNone(s: Tables)
    ensures Forget(s, {}) == s
  {
    assert Forget(s, {}).jobs == s.jobs && Forget(s, {}).artifacts == s.artifacts && Forget(s, {}).files == s.files;
  }

  lemma ForgetOutdated(s: Tables, now: Time)
    ensures Forget(s, set j | j in s.jobs && Outdated(s, j, now)) == Expire(s, now)
  {
    var gone := set j | j in s.jobs && Outdated(s, j, now);
    assert forall j :: Outdated(s, j, now) <==> j in gone;
    hide Outdated;
    var a, b := Forget(s, gone), Expire(s, now);
    OutdatedRows(s, gone, now);
    assert a.artifacts == b.artifacts && a.files == b.files;
    OutdatedJobs(s, gone, now);
    assert a.observations == b.observations;
  }

  lemma OutdatedRows(s: Tables, gone: set<JobId>, now: Time)
    requires forall j :: Outdated(s, j, now) <==> j in gone
    ensures (set x | x in s.artifacts && s.artifacts[x].job in gone)
            == (set x | x in s.artifacts && Outdated(s, s.artifacts[x].job, now))
  {
    hide Outdated;
  }

  lemma OutdatedJobs(s: Tables, gone: set<JobId>, now: Time)
    requires forall j :: Outdated(s, j, now) <==> j in gone
    ensures Forget(s, gone).jobs == Expire(s, now).jobs
  {
    hide Outdated, Forgotten;
  }

  lemma NextUnique(s: Tables, cfg: Settings, w: WorkerId, i: JobId, j: JobId, now: Time)
    requires IsNext(s, cfg, w, i, now) && IsNext(s, cfg, w, j, now)
    ensures i == j
  {
    hide Takes;
    InStore(s, cfg, w, now);
    assert Older(s.jobs, i, j) && Older(s.jobs, j, i);
  }

  class Manager {
    const cfg: Settings
    var jobs: map<JobId, Job>
    var attempts: map<AttemptId, Attempt>
    var workers: map<WorkerId, Worker>
    var artifacts: map<ArtifactId, Artifact>
    var observations: map<JobId, Time>
    var files: map<Path, Blob>
    var submitted: nat
    ghost var issued: set<nat>

    constructor (cfg: Settings)
      ensures this.cfg == cfg && View() == EMPTY && Valid()
    {
      this.cfg := cfg;
      jobs, attempts, workers, artifacts, observations, files, submitted, issued :=
        map[], map[], map[], map[], map[], map[], 0, {};
    }

    ghost function View(): Tables
      reads this
    {
      Tables(jobs, attempts, workers, artifacts, observations, files, issued, submitted)
    }

    ghost predicate Valid()
      reads this
    {
      Inv(View(), cfg) && ConcurrencyPositive(View())
    }

    method Register(w: WorkerId, capabilities: set<Capability>, contract: nat, concurrency: nat, now: Time)
      requires Valid() && concurrency >= 1
      modifies this`workers
      ensures View() == Operations.Register(old(View()), w, capabilities, contract, concurrency, now)
      ensures Valid()
    {
      RegisterKeeps(View(), cfg, w, capabilities, contract, concurrency, now);
      hide Inv, Moves;
      workers := workers[w := Worker(capabilities, contract, concurrency, true, now)];
    }

    // ---- submission ------------------------------------------------------------------------------

    /** Follows parents up to the root; `None` when one of them has been deleted. */
    method RootJob(j: JobId) returns (root: Option<JobId>)
      requires Rooted(jobs) && j in jobs
      ensures root == RootOf(jobs, j)
    {
      var current := j;
      while jobs[current].parent.Some?
        invariant current in jobs && RootOf(jobs, current) == RootOf(jobs, j)
        decreases jobs[current].serial
      {
        var parent := jobs[current].parent.value;
        if parent !in jobs { return None; }
        current := parent;
      }
      return Some(current);
    }

    /** Adds up what every job of a lineage counts for. */
    method LineageUse(root: JobId) returns (searches: int, fetches: int, models: int)
      requires Rooted(jobs)
      ensures searches == Sum(Charges(jobs, root, Searches)) && fetches == Sum(Charges(jobs, root, Fetches))
      ensures models == Sum(Charges(jobs, root, Models))
    {
      searches, fetches, models := 0, 0, 0;
      var rows := set j | j in jobs && RootOf(jobs, j) == Some(root);
      var rest := rows;
      ghost var s, f, m := Charges(jobs, root, Searches), Charges(jobs, root, Fetches), Charges(jobs, root, Models);
      assert s - (rows - rest) == s && f - (rows - rest) == f && m - (rows - rest) == m;
      while rest != {}
        invariant rest <= rows
        invariant searches + Sum(s - (rows - rest)) == Sum(s)
        invariant fetches + Sum(f - (rows - rest)) == Sum(f)
        invariant models + Sum(m - (rows - rest)) == Sum(m)
        decreases rest
      {
        ghost var done := rows - rest;
        var j :| j in rest;
        searches := searches + Charge(jobs[j], j == root, Searches);
        fetches := fetches + Charge(jobs[j], j == root, Fetches);
        models := models + Charge(jobs[j], j == root, Models);
        Taken(s, rows, rest, j);
        Taken(f, rows, rest, j);
        Taken(m, rows, rest, j);
        rest := rest - {j};
      }
      assert s - (rows - rest) == map[] && f - (rows - rest) == map[] && m - (rows - rest) == map[];
    }

    static lemma Taken(m: map<nat, int>, rows: set<nat>, rest: set<nat>, j: nat)
      requires m.Keys == rows && rest <= rows && j in rest
      ensures Sum(m - (rows - rest)) == m[j] + Sum(m - (rows - (rest - {j})))
    {
      SumWithout(m - (rows - rest), j);
      assert m - (rows - rest) - {j} == m - (rows - (rest - {j}));
    }

    method ValidateChildAllocation(p: JobId, q: Submission, now: Time) returns (e: Option<Store.Refusal>)
      requires Rooted(jobs) && p in jobs
      ensures e == AllocationRefusal(View(), p, q, now)
    {
      if !Terminal(jobs[p].state) { return Some(ParentNotTerminal); }
      var root := RootJob(p);
      if root.None? { return Some(UnknownParent); }
      RootStored(jobs, p);
      if now + q.span > jobs[root.value].deadline { return Some(ChildDeadline); }
      var searches, fetches, models := LineageUse(root.value);
      if !Affordable(jobs[root.value].budget, jobs[p].input.Observe?, searches, fetches, models, q.budget) {
        return Some(ChildBudget);
      }
      return None;
    }

    method ValidateParent(q: Submission, now: Time) returns (e: Option<Store.Refusal>)
      requires Rooted(jobs)
      ensures e == ParentRefusal(View(), q, now)
    {
      hide AllocationRefusal;
      if q.parent.None? { return None; }
      if q.parent.value !in jobs { return Some(UnknownParent); }
      e := ValidateChildAllocation(q.parent.value, q, now);
      if e.None? && !SameKind(jobs[q.parent.value].input, q.input) { return Some(ParentKindMismatch); }
    }

    method Submit(q: Submission, id: JobId, now: Time) returns (r: Result<(JobId, bool), Store.Refusal>)
      requires Valid() && id !in issued && Rooted(jobs)
      modifies this`jobs, this`submitted, this`issued
      ensures Step(View(), r) == Operations.Submit(old(View()), q, id, now)
      ensures Valid()
    {
      SubmitKeeps(View(), cfg, q, id, now);
      SubmitWorkers(View(), q, id, now);
      hide Inv, Moves, ParentRefusal, Insert;
      if j :| j in jobs && jobs[j].key == q.key {
        KeyOwner(View(), cfg, j, q.key);
        return if jobs[j].input != q.input then Err(SubmitKeyConflict) else Ok((j, false));
      }
      assert forall j: JobId :: !Owns(View(), j, q.key);
      hide Owns;
      var e := ValidateParent(q, now);
      if e.Some? { return Err(e.value); }
      InsertJob(q, id, now);
      return Ok((id, true));
    }

    method InsertJob(q: Submission, id: JobId, now: Time)
      modifies this`jobs, this`submitted, this`issued
      ensures Step(View(), Ok((id, true))) == Insert(old(View()), q, id, now)
    {
      jobs := jobs[id := Job(submitted, q.key, q.parent, q.input, q.target, q.budget, now, now + q.span, Queued, None,
                             None, 0, None, None)];
      submitted := submitted + 1;
      issued := issued + {id};
    }

    static lemma SubmitWorkers(s: Tables, q: Submission, id: JobId, now: Time)
      requires Rooted(s.jobs)
      ensures Operations.Submit(s, q, id, now).after.workers == s.workers
    {
      hide Owns, ParentRefusal;
    }

    static lemma KeyOwner(s: Tables, cfg: Settings, j: JobId, key: string)
      requires Inv(s, cfg) && j in s.jobs && s.jobs[j].key == key
      ensures Owns(s, j, key) && forall i: JobId :: Owns(s, i, key) ==> i == j
    {}

    // ---- claiming --------------------------------------------------------------------------------

    /** The time of the latest assignment to a worker. */
    method LatestAssignment(w: WorkerId) returns (t: Time)
      ensures IsAssigned(View(), w, t)
    {
      t := 0;
      var rows := set a | a in attempts && attempts[a].worker == w;
      assert rows == AttemptsOf(View(), w);
      var rest := rows;
      while rest != {}
        invariant rest <= rows && (rest == rows ==> t == 0)
        invariant rest < rows ==> exists a | a in rows - rest :: attempts[a].created == t
        invariant forall a | a in rows - rest :: attempts[a].created <= t
        decreases rest
      {
        var a :| a in rest;
        if rest == rows || attempts[a].created > t { t := attempts[a].created; }
        assert a in rows - (rest - {a});
        rest := rest - {a};
      }
    }

    /** How a worker is ranked. */
    method RankWorker(w: WorkerId) returns (r: Rank)
      requires w in workers
      ensures Ranks(View(), w, r)
    {
      var latest := LatestAssignment(w);
      var active := set j | j in jobs && jobs[j].worker == Some(w) && Active(jobs[j].state);
      assert active == ActiveJobs(View(), w);
      r := Rank(|active|, workers[w].concurrency, latest, w);
    }

    method EligibleWorkers(job: Job, now: Time) returns (eligible: set<WorkerId>)
      ensures forall w: WorkerId :: w in eligible <==> Eligible(View(), cfg, job, w, now)
    {
      var required := Required(job.input);
      eligible := set w | w in workers && workers[w].online && workers[w].heartbeat >= now - cfg.offline
                          && workers[w].contract == CONTRACT && required <= workers[w].capabilities
                          && |set j | j in jobs && jobs[j].worker == Some(w) && Active(jobs[j].state)|
                             < workers[w].concurrency;
      forall w: WorkerId ensures w in eligible <==> Eligible(View(), cfg, job, w, now) {
        assert (set j | j in jobs && jobs[j].worker == Some(w) && Active(jobs[j].state)) == ActiveJobs(View(), w);
      }
    }

    /** The first of the eligible workers, in the order they are tried in. */
    method FirstEligible(job: Job, now: Time) returns (first: Option<WorkerId>)
      requires ConcurrencyPositive(View())
      ensures first.Some? ==> Leads(View(), cfg, job, first.value, now)
      ensures first.None? ==> forall v: WorkerId :: !Eligible(View(), cfg, job, v, now)
    {
      ghost var s := View();
      var eligible := EligibleWorkers(job, now);
      hide Eligible, Before, Ranks;
      if eligible == {} { return None; }
      var best :| best in eligible;
      EligibleStored(s, cfg, job, now);
      var rank := RankWorker(best);
      var rest := eligible - {best};
      OnlyOne(s, best, rank);
      assert eligible - rest == {best};
      while rest != {}
        invariant rest <= eligible && best in eligible - rest && Ranks(s, best, rank)
        invariant LeadsAmong(s, best, eligible - rest)
        decreases rest
      {
        hide LeadsAmong;
        var w :| w in rest;
        var other := RankWorker(w);
        LeadsOneMore(s, eligible - rest, best, rank, w, other);
        assert eligible - rest + {w} == eligible - (rest - {w});
        if !Before(rank, other) { best, rank := w, other; }
        rest := rest - {w};
      }
      assert eligible - rest == eligible;
      return Some(best);
    }

    static lemma EligibleStored(s: Tables, cfg: Settings, job: Job, now: Time)
      ensures forall w: WorkerId | Eligible(s, cfg, job, w, now) :: w in s.workers
    {}

    static lemma OnlyOne(s: Tables, w: WorkerId, r: Rank)
      requires Ranks(s, w, r)
      ensures LeadsAmong(s, w, {w})
    {
      forall v, a: Rank, b: Rank | v in {w} && Ranks(s, w, a) && Ranks(s, v, b) ensures Before(a, b) {
        OneRank(s, w, a, b);
        BeforeTotal(a, b);
      }
    }

    static lemma LeadsOneMore(s: Tables, ws: set<WorkerId>, u: WorkerId, x: Rank, v: WorkerId, y: Rank)
      requires ConcurrencyPositive(s) && v in s.workers && v !in ws && ws <= s.workers.Keys
      requires LeadsAmong(s, u, ws) && Ranks(s, u, x) && Ranks(s, v, y)
      ensures LeadsAmong(s, if Before(x, y) then u else v, ws + {v})
    {
      hide Before, Ranks;
      var w := if Before(x, y) then u else v;
      assert ws + {v} - {v} == ws;
      forall k, a: Rank, b: Rank | k in ws + {v} && Ranks(s, w, a) && Ranks(s, k, b) ensures Before(a, b) {
        BetterLeads(s, ws + {v}, u, v, w, x, y, k, a, b);
      }
    }

    /** Puts a job at its place among older and newer ones. */
    static function Place(jobs: map<JobId, Job>, rows: seq<JobId>, j: JobId): seq<JobId>
      requires j in jobs && forall i | i in rows :: i in jobs
    {
      if rows == [] || Older(jobs, j, rows[0]) then [j] + rows else [rows[0]] + Place(jobs, rows[1..], j)
    }

    static predicate Sorted(jobs: map<JobId, Job>, rows: seq<JobId>)
      requires forall i | i in rows :: i in jobs
    {
      forall i, k | 0 <= i < k < |rows| :: Older(jobs, rows[i], rows[k])
    }

    static lemma {:induction false} PlaceSorted(jobs: map<JobId, Job>, rows: seq<JobId>, j: JobId)
      requires j in jobs && (forall i | i in rows :: i in jobs) && Sorted(jobs, rows)
      ensures forall i :: i in Place(jobs, rows, j) <==> i == j || i in rows
      ensures Sorted(jobs, Place(jobs, rows, j))
    {
      if rows == [] || Older(jobs, j, rows[0]) {
      } else {
        PlaceSorted(jobs, rows[1..], j);
        var tail := Place(jobs, rows[1..], j);
        assert rows == [rows[0]] + rows[1..];
        forall k | 0 <= k < |tail| ensures Older(jobs, rows[0], tail[k]) {
          assert tail[k] in tail;
        }
      }
    }

    /** The jobs open to a worker, oldest first. */
    method OpenRows(w: WorkerId, now: Time) returns (rows: seq<JobId>)
      ensures forall j: JobId :: j in rows <==> Open(View(), w, j, now)
      ensures (forall j | j in rows :: j in jobs) && Sorted(jobs, rows)
    {
      rows := [];
      var open := set j | j in jobs && jobs[j].state.Queued? && (jobs[j].target == Auto || jobs[j].target == To(w))
                          && jobs[j].deadline > now;
      var rest := open;
      while rest != {}
        invariant rest <= open
        invariant forall j: JobId :: j in rows <==> j in open - rest
        invariant Sorted(jobs, rows)
        decreases rest
      {
        var j :| j in rest;
        PlaceSorted(jobs, rows, j);
        rows := Place(jobs, rows, j);
        rest := rest - {j};
      }
    }

    /** Whether an open job is one the worker may take now. */
    method MayTake(w: WorkerId, j: JobId, now: Time) returns (yes: bool)
      requires ConcurrencyPositive(View()) && w in workers && Open(View(), w, j, now)
      ensures yes <==> Takes(View(), cfg, w, j, now)
    {
      hide Eligible, Leads, Required;
      yes := Required(jobs[j].input) <= workers[w].capabilities;
      if yes && jobs[j].target == Auto {
        var first := FirstEligible(jobs[j], now);
        yes := first == Some(w);
        FirstDecides(View(), cfg, jobs[j], w, first, now);
      }
    }

    method StartAttempt(j: JobId, w: WorkerId, a: AttemptId, token: Token, now: Time)
      requires j in jobs
      modifies this`jobs, this`attempts, this`issued
      ensures View() == Start(old(View()), cfg, w, j, a, token, now)
    {
      var number := jobs[j].attempts + 1;
      attempts := attempts[a := Attempt(j, w, token, now + cfg.ttl, number, now, None)];
      jobs := jobs[j := jobs[j].(state := Running, worker := Some(w), attempt := Some(a), attempts := number)];
      issued := issued + {a};
    }

    method HasRoom(w: WorkerId, now: Time) returns (yes: bool)
      ensures yes <==> CanClaim(View(), cfg, w, now)
    {
      if !(w in workers && workers[w].online && workers[w].heartbeat >= now - cfg.offline) { return false; }
      if workers[w].contract != CONTRACT { return false; }
      var active := set j | j in jobs && jobs[j].worker == Some(w) && Active(jobs[j].state);
      assert active == ActiveJobs(View(), w);
      return |active| < workers[w].concurrency;
    }

    /** The first row, oldest first, that the worker may take. */
    method NextRow(w: WorkerId, now: Time) returns (next: Option<JobId>)
      requires ConcurrencyPositive(View()) && w in workers
      ensures next.Some? ==> next.value in jobs && IsNext(View(), cfg, w, next.value, now)
      ensures next.None? ==> !exists j: JobId :: IsNext(View(), cfg, w, j, now)
    {
      hide Takes, IsNext, Sorted, Open;
      var rows := OpenRows(w, now);
      var i := 0;
      while i < |rows|
        invariant 0 <= i <= |rows|
        invariant forall k | 0 <= k < i :: !Takes(View(), cfg, w, rows[k], now)
      {
        assert rows[i] in rows;
        var takes := MayTake(w, rows[i], now);
        if takes {
          FirstIsNext(View(), cfg, w, rows, i, now);
          return Some(rows[i]);
        }
        i := i + 1;
      }
      NoneIsNext(View(), cfg, w, rows, now);
      return None;
    }

    method Claim(w: WorkerId, a: AttemptId, token: Token, now: Time) returns (r: Result<Option<JobId>, Store.Refusal>)
      requires Valid() && a !in issued
      modifies this`jobs, this`attempts, this`issued
      ensures Step(View(), r) == Operations.Claim(old(View()), cfg, w, a, token, now)
      ensures Valid()
    {
      ghost var s := View();
      InvRooted(s, cfg);
      ClaimKeeps(s, cfg, w, a, token, now);
      StartWorkers(s, cfg, w, a, token, now);
      hide Inv, Moves, IsNext, Start, ConcurrencyPositive;
      var room := HasRoom(w, now);
      if !room { return Ok(None); }
      RoomStored(s, cfg, w, now);
      hide CanClaim;
      var next := NextRow(w, now);
      if next.None? { return Ok(None); }
      ClaimIs(s, cfg, w, next.value, a, token, now);
      hide Operations.Claim;
      StartAttempt(next.value, w, a, token, now);
      return Ok(next);
    }

    static lemma RoomStored(s: Tables, cfg: Settings, w: WorkerId, now: Time)
      requires CanClaim(s, cfg, w, now)
      ensures w in s.workers
    {}

    static lemma StartWorkers(s: Tables, cfg: Settings, w: WorkerId, a: AttemptId, token: Token, now: Time)
      ensures ConcurrencyPositive(s) ==> ConcurrencyPositive(Operations.Claim(s, cfg, w, a, token, now).after)
    {}

    /** Only the leader is told to go ahead. */
    static lemma FirstDecides(s: Tables, cfg: Settings, job: Job, w: WorkerId, first: Option<WorkerId>, now: Time)
      requires first.Some? ==> Leads(s, cfg, job, first.value, now)
      requires first.None? ==> forall v: WorkerId :: !Eligible(s, cfg, job, v, now)
      ensures first == Some(w) <==> Leads(s, cfg, job, w, now)
    {
      if first.Some? && Leads(s, cfg, job, w, now) {
        var v := first.value;
        var x := RankOf(s, w);
        var y := RankOf(s, v);
        hide Eligible, Before;
        BeforeTotal(x, y);
      }
    }

    static lemma FirstIsNext(s: Tables, cfg: Settings, w: WorkerId, rows: seq<JobId>, i: nat, now: Time)
      requires forall j: JobId :: j in rows <==> Open(s, w, j, now)
      requires (forall j | j in rows :: j in s.jobs) && Sorted(s.jobs, rows)
      requires i < |rows| && Takes(s, cfg, w, rows[i], now)
      requires forall k | 0 <= k < i :: !Takes(s, cfg, w, rows[k], now)
      ensures IsNext(s, cfg, w, rows[i], now)
    {
      InStore(s, cfg, w, now);
      forall j | Takes(s, cfg, w, j, now) ensures Older(s.jobs, rows[i], j) {
        assert Open(s, w, j, now);
        var k :| 0 <= k < |rows| && rows[k] == j;
        assert i <= k;
      }
    }

    static lemma NoneIsNext(s: Tables, cfg: Settings, w: WorkerId, rows: seq<JobId>, now: Time)
      requires forall j: JobId :: j in rows <==> Open(s, w, j, now)
      requires forall k | 0 <= k < |rows| :: !Takes(s, cfg, w, rows[k], now)
      ensures !exists j: JobId :: IsNext(s, cfg, w, j, now)
    {
      forall j: JobId ensures !Takes(s, cfg, w, j, now) {
        if Open(s, w, j, now) {
          var k :| 0 <= k < |rows| && rows[k] == j;
        }
      }
    }

    static lemma ClaimIs(s: Tables, cfg: Settings, w: WorkerId, j: JobId, a: AttemptId, token: Token, now: Time)
      requires CanClaim(s, cfg, w, now) && IsNext(s, cfg, w, j, now) && j in s.jobs
      ensures Operations.Claim(s, cfg, w, a, token, now) == Step(Start(s, cfg, w, j, a, token, now), Ok(Some(j)))
    {
      hide IsNext;
      var i := Operations.Claim(s, cfg, w, a, token, now).out.value.value;
      NextUnique(s, cfg, w, i, j, now);
    }

    // ---- leases and cancellation -------------------------------------------------------------------

    method RenewLease(j: JobId, w: WorkerId, a: AttemptId, token: Token, now: Time)
      returns (r: Result<Renewal, Store.Refusal>)
      requires Valid() && cfg.ttl > 0
      modifies this`attempts
      ensures Step(View(), r) == Renew(old(View()), cfg, j, w, a, token, now)
      ensures Valid()
    {
      RenewKeeps(View(), cfg, j, w, a, token, now);
      hide Inv, Moves;
      if j !in jobs { return Err(UnknownJob); }
      if !(a in attempts && attempts[a].job == j) || attempts[a].worker != w || attempts[a].token != token {
        return Err(LeaseConflict);
      }
      if attempts[a].finalized.Some? || jobs[j].attempt != Some(a) { return Err(AttemptNotActive); }
      if Terminal(jobs[j].state) { return Ok(Ended); }
      if attempts[a].lease < now { return Err(LeaseExpired); }
      if jobs[j].deadline < now { return Ok(DeadlinePassed); }
      var until := if now + cfg.ttl <= jobs[j].deadline then now + cfg.ttl else jobs[j].deadline;
      attempts := attempts[a := attempts[a].(lease := until)];
      return Ok(Renewed(until));
    }

    method Cancel(j: JobId) returns (r: Result<State, Store.Refusal>)
      requires Valid()
      modifies this`jobs
      ensures Step(View(), r) == Operations.Cancel(old(View()), j)
      ensures Valid()
    {
      CancelKeeps(View(), cfg, j);
      hide Inv, Moves;
      if j !in jobs { return Err(UnknownJob); }
      if Terminal(jobs[j].state) { return Ok(jobs[j].state); }
      if jobs[j].state.Queued? {
        jobs := jobs[j := jobs[j].(state := Cancelled, stop := Some(CancelledByRequester))];
      } else if jobs[j].state.Running? {
        jobs := jobs[j := jobs[j].(state := CancelRequested)];
      }
      return Ok(jobs[j].state);
    }

    // ---- results -----------------------------------------------------------------------------------

    /** Every manifest entry must be a stored artifact of this attempt. */
    method CheckManifest(j: JobId, a: AttemptId, refs: seq<Ref>) returns (e: Option<Store.Refusal>)
      ensures e == ManifestRefusal(View(), j, a, refs)
    {
      var i := 0;
      while i < |refs|
        invariant 0 <= i <= |refs|
        invariant ManifestRefusal(View(), j, a, refs) == ManifestRefusal(View(), j, a, refs[i..])
      {
        var ref := refs[i];
        if !(ref.id in artifacts && artifacts[ref.id].job == j && artifacts[ref.id].attempt == a) {
          return Some(ArtifactMissing);
        }
        if artifacts[ref.id].ref != ref { return Some(ArtifactMismatch); }
        i := i + 1;
      }
      return None;
    }

    /** The checks of a result, in their order. */
    method Judge(j: JobId, a: AttemptId, p: Pack, now: Time) returns (v: Result<State, Store.Refusal>)
      requires j in jobs && a in attempts && Parsed(p)
      ensures v == Verdict(View(), j, a, p, now)
    {
      hide ManifestRefusal, ObservationRefusal, Outcome, Parsed;
      if attempts[a].lease < now { return Err(LeaseExpired); }
      if p.job != j || p.attempt != a { return Err(AttemptMismatch); }
      if !SameMode(jobs[j].input, p.payload) { return Err(ModeMismatch); }
      var refusal := ObservationRefusal(jobs[j], p, now);
      if refusal.Some? { return Err(refusal.value); }
      v := Outcome(jobs[j].state, p.status);
      if v.Err? { return; }
      var bad := CheckManifest(j, a, p.manifest);
      if bad.Some? { v := Err(bad.value); }
    }

    method Finalize(j: JobId, w: WorkerId, token: Token, p: Pack, now: Time) returns (r: Result<State, Store.Refusal>)
      requires Valid() && Parsed(p)
      modifies this`jobs, this`attempts, this`observations
      ensures Step(View(), r) == Operations.Finalize(old(View()), j, w, token, p, now)
      ensures Valid()
    {
      FinalizeKeeps(View(), cfg, j, w, token, p, now);
      FinalizeWorkers(View(), j, w, token, p, now);
      hide Inv, Moves, Parsed, Verdict, Settle;
      if j !in jobs { return Err(UnknownJob); }
      if jobs[j].attempt.None? { return Err(LeaseConflict); }
      var a := jobs[j].attempt.value;
      if !(a in attempts && attempts[a].job == j) || attempts[a].worker != w || attempts[a].token != token {
        return Err(LeaseConflict);
      }
      if attempts[a].finalized.Some? {
        return if jobs[j].result == Some(p) then Ok(jobs[j].state) else Err(ResultConflict);
      }
      var v := Judge(j, a, p, now);
      if v.Err? { return Err(v.error); }
      StoreResult(j, a, p, v.value, now);
      return Ok(v.value);
    }

    method StoreResult(j: JobId, a: AttemptId, p: Pack, state: State, now: Time)
      requires j in jobs && a in attempts
      modifies this`jobs, this`attempts, this`observations
      ensures View() == Settle(old(View()), j, a, p, state, now)
    {
      var stop := if state.Cancelled? && p.stop.None? then Some(CancelledByRequester) else p.stop;
      jobs := jobs[j := jobs[j].(state := state, stop := stop, result := Some(p))];
      attempts := attempts[a := attempts[a].(finalized := Some(now))];
      if p.payload.ObservePayload? {
        observations := observations[j := p.payload.report.coverage.observedAt + 30 * DAY];
      }
    }

    static lemma FinalizeWorkers(s: Tables, j: JobId, w: WorkerId, token: Token, p: Pack, now: Time)
      requires Parsed(p)
      ensures Operations.Finalize(s, j, w, token, p, now).after.workers == s.workers
    {
      hide Verdict, Parsed;
    }

    method Retry(j: JobId, key: string, id: JobId, now: Time) returns (r: Result<(JobId, bool), Store.Refusal>)
      requires Valid() && id !in issued && Rooted(jobs)
      modifies this`jobs, this`submitted, this`issued
      ensures Step(View(), r) == Operations.Retry(old(View()), j, key, id, now)
      ensures Valid()
    {
      ghost var s := View();
      hide Inv, Operations.Submit;
      if j !in jobs { return Err(UnknownJob); }
      var job := jobs[j];
      if !(job.state.Failed? || job.state.PartialResult? || job.state.Lost?) { return Err(NotRetryable); }
      var left := Most(0, job.deadline - now);
      if left < 30 * SECOND { return Err(NoRemainingTime); }
      if job.state.Lost? && job.result.None? { return Err(NoRemainingBudget); }
      var b := Remainder(job, left);
      if b.maxQueries < 1 || b.search < 1 || b.maxSources < 1 || b.fetch < 1 { return Err(NoRemainingBudget); }
      var children := set c | c in jobs && jobs[c].parent == Some(j);
      assert children == Children(s, j);
      var q := Submission(if key != "" then key else job.key + ":retry:" + Digits(|children| + 1), Some(j), job.input,
                          job.target, b, Most(15 * SECOND, Least(left - 10 * SECOND, 3600 * SECOND)));
      if !ValidSubmission(q) { return Err(InvalidPayload); }
      assert q == Resubmission(s, j, key, now);
      r := Submit(q, id, now);
    }

    // ---- artifacts ---------------------------------------------------------------------------------

    method StoredBytes(j: JobId) returns (n: int)
      ensures n == Sum(Sizes(View(), j))
    {
      n := 0;
      ghost var m := Sizes(View(), j);
      var rows := set a | a in artifacts && artifacts[a].job == j;
      var rest := rows;
      assert m - (rows - rest) == m;
      while rest != {}
        invariant rest <= rows
        invariant n + Sum(m - (rows - rest)) == Sum(m)
        decreases rest
      {
        var a :| a in rest;
        Taken(m, rows, rest, a);
        n := n + artifacts[a].ref.bytes;
        rest := rest - {a};
      }
      assert m - (rows - rest) == map[];
    }

    /** The checks of an upload, in their order. */
    method CheckUpload(j: JobId, w: WorkerId, a: AttemptId, token: Token, ref: Ref, data: Blob, now: Time)
      returns (e: Option<Store.Refusal>)
      ensures e == UploadRefusal(View(), cfg, j, w, a, token, ref, data, now)
    {
      ghost var s := View();
      hide SafeName;
      if |data| != ref.bytes { return Some(ArtifactSize); }
      if data != ref.digest { return Some(ArtifactDigest); }
      if !SafeName(ref.name) { return Some(ArtifactName); }
      if ref.media !in MEDIA { return Some(ArtifactMedia); }
      if j !in jobs { return Some(UnknownJob); }
      if !(a in attempts && attempts[a].job == j) { return Some(UnknownAttempt); }
      if attempts[a].worker != w || attempts[a].token != token || jobs[j].attempt != Some(a) {
        return Some(LeaseConflict);
      }
      if attempts[a].finalized.Some? || !Active(jobs[j].state) { return Some(AttemptNotActive); }
      if attempts[a].lease < now { return Some(LeaseExpired); }
      var rows := set x | x in artifacts && artifacts[x].job == j;
      assert rows == ArtifactsOf(s, j);
      if ref.id in artifacts {
        return if artifacts[ref.id] == Artifact(j, a, ref) then None else Some(ArtifactIdConflict);
      }
      var total := StoredBytes(j);
      if total + ref.bytes > jobs[j].budget.cacheBytes { return Some(ArtifactBytes); }
      if |rows| >= cfg.maxArtifacts { return Some(ArtifactCount); }
      if exists x | x in artifacts :: artifacts[x].job == j && artifacts[x].ref.name == ref.name {
        assert NameTaken(s, j, ref.name);
        return Some(ArtifactNameConflict);
      }
      return None;
    }

    method AddArtifact(j: JobId, w: WorkerId, a: AttemptId, token: Token, ref: Ref, data: Blob, now: Time)
      returns (r: Result<Ref, Store.Refusal>)
      requires Valid()
      modifies this`artifacts, this`files
      ensures Step(View(), r) == Operations.AddArtifact(old(View()), cfg, j, w, a, token, ref, data, now)
      ensures Valid()
    {
      UploadKeeps(View(), cfg, j, w, a, token, ref, data, now);
      UploadWorkers(View(), cfg, j, w, a, token, ref, data, now);
      hide Inv, Moves, UploadRefusal, PathOf, ArtifactsOf, ConcurrencyPositive;
      var e := CheckUpload(j, w, a, token, ref, data, now);
      if e.Some? { return Err(e.value); }
      if ref.id !in artifacts { PutArtifact(j, a, ref, data); }
      return Ok(ref);
    }

    method PutArtifact(j: JobId, a: AttemptId, ref: Ref, data: Blob)
      modifies this`artifacts, this`files
      ensures View() == old(View()).(artifacts := old(artifacts)[ref.id := Artifact(j, a, ref)],
                                     files := old(files)[Path(j, a, ref.name) := data])
    {
      files := files[Path(j, a, ref.name) := data];
      artifacts := artifacts[ref.id := Artifact(j, a, ref)];
    }

    static lemma UploadWorkers(s: Tables, cfg: Settings, j: JobId, w: WorkerId, a: AttemptId, token: Token, ref: Ref,
                               data: Blob, now: Time)
      requires ConcurrencyPositive(s)
      ensures ConcurrencyPositive(Operations.AddArtifact(s, cfg, j, w, a, token, ref, data, now).after)
    {
      hide UploadRefusal;
    }

    // ---- deletion, expiry and the sweep --------------------------------------------------------------

    method DeleteJob(j: JobId) returns (r: Result<nat, Store.Refusal>)
      requires Valid()
      modifies this`jobs, this`attempts, this`artifacts, this`observations, this`files
      ensures Step(View(), r) == Delete(old(View()), j)
      ensures Valid()
    {
      DeleteKeeps(View(), cfg, j);
      hide Inv, Moves;
      if j !in jobs { return Err(UnknownJob); }
      if !Terminal(jobs[j].state) { return Err(NotTerminal); }
      var rows := set a | a in artifacts && artifacts[a].job == j;
      assert rows == ArtifactsOf(View(), j);
      DropRows(j, rows);
      return Ok(|rows|);
    }

    method DropRows(j: JobId, rows: set<ArtifactId>)
      requires rows == ArtifactsOf(View(), j) && j in jobs && Terminal(jobs[j].state)
      modifies this`jobs, this`attempts, this`artifacts, this`observations, this`files
      ensures View() == Delete(old(View()), j).after
    {
      artifacts := artifacts - rows;
      observations := observations - {j};
      attempts := map a | a in attempts && attempts[a].job != j :: attempts[a];
      jobs := jobs - {j};
      files := map p: Path | p in files && p.job != j :: files[p];
    }

    method ForgetJob(j: JobId)
      requires j in jobs
      modifies this`jobs, this`artifacts, this`observations, this`files
      ensures View() == ForgetOne(old(View()), j)
    {
      var gone := set a | a in artifacts && artifacts[a].job == j;
      assert gone == ArtifactsOf(View(), j);
      files := files - set a | a in gone :: PathOf(artifacts[a]);
      artifacts := artifacts - gone;
      observations := observations - {j};
      jobs := jobs[j := jobs[j].(result := None, stop := Some(RetentionExpired))];
    }

    method OutdatedRows(now: Time) returns (rows: set<JobId>)
      ensures rows == set j | j in jobs && Outdated(View(), j, now)
    {
      rows := set j | j in jobs && jobs[j].input.Observe?
                      && (if j in observations then observations[j] <= now
                          else jobs[j].created <= now - 30 * DAY && jobs[j].stop != Some(RetentionExpired));
      assert forall j | j in jobs :: j in rows <==> Outdated(View(), j, now);
    }

    method ExpireObservations(now: Time)
      requires Valid()
      modifies this`jobs, this`artifacts, this`observations, this`files
      ensures View() == Expire(old(View()), now)
      ensures Valid()
    {
      ghost var s := View();
      ExpireKeeps(s, cfg, now);
      hide Inv, Moves;
      hide Expire, Forget, ForgetOne, Outdated, ConcurrencyPositive;
      ForgetOutdated(s, now);
      ForgetNone(s);
      ForgetWorkers(s, now);
      var rows := OutdatedRows(now);
      var rest := rows;
      assert rows - rest == {};
      while rest != {}
        invariant rest <= rows <= s.jobs.Keys
        invariant View() == Forget(s, rows - rest)
        decreases rest
      {
        var j :| j in rest;
        ForgetStep(s, rows - rest, j);
        assert rows - rest + {j} == rows - (rest - {j});
        ForgetJob(j);
        rest := rest - {j};
      }
      assert rows - rest == rows;
    }

    static lemma ForgetWorkers(s: Tables, now: Time)
      ensures ConcurrencyPositive(s) ==> ConcurrencyPositive(Expire(s, now))
    {}

    static function LoseLease(attempts: map<AttemptId, Attempt>, job: Job, j: JobId, now: Time): Job {
      if && job.state.Running? && job.attempt.Some? && job.attempt.value in attempts
         && attempts[job.attempt.value].job == j && attempts[job.attempt.value].lease < now
      then job.(state := Lost, stop := Some(LeaseRanOut)) else job
    }

    static function LoseDeadline(job: Job, now: Time): Job {
      if job.state.Queued? && job.deadline < now then job.(state := Lost, stop := Some(DeadlineRanOut)) else job
    }

    static function GoOffline(w: Worker, limit: Time): Worker {
      if w.online && w.heartbeat < limit then w.(online := false) else w
    }

    static function LoseLeases(jobs: map<JobId, Job>, attempts: map<AttemptId, Attempt>, now: Time): map<JobId, Job> {
      map j | j in jobs :: LoseLease(attempts, jobs[j], j, now)
    }

    static function LoseDeadlines(jobs: map<JobId, Job>, now: Time): map<JobId, Job> {
      map j | j in jobs :: LoseDeadline(jobs[j], now)
    }

    static function WithoutAbsent(workers: map<WorkerId, Worker>, limit: Time): map<WorkerId, Worker> {
      map w | w in workers :: GoOffline(workers[w], limit)
    }

    static function Updated(m: Tables, offline: int, now: Time): Tables {
      m.(jobs := LoseDeadlines(LoseLeases(m.jobs, m.attempts, now), now),
         workers := WithoutAbsent(m.workers, now - offline))
    }

    static lemma SweptIs(s: Tables, cfg: Settings, now: Time)
      ensures Updated(Expire(s, now), cfg.offline, now) == Sweep(s, cfg, now)
    {
      hide Expire;
      var t := Updated(Expire(s, now), cfg.offline, now);
      assert t.jobs == Sweep(s, cfg, now).jobs;
      assert t.workers == Sweep(s, cfg, now).workers;
    }

    method SweepOnce(now: Time)
      requires Valid()
      modifies this`jobs, this`artifacts, this`observations, this`files, this`workers
      ensures View() == Sweep(old(View()), cfg, now)
      ensures Valid()
    {
      ghost var s := View();
      SweepKeeps(s, cfg, now);
      SweepWorkers(s, cfg, now);
      SweptIs(s, cfg, now);
      hide Inv, Moves, ConcurrencyPositive, Expire, Sweep, Updated;
      ExpireObservations(now);
      UpdateRows(now);
    }

    method UpdateRows(now: Time)
      modifies this`jobs, this`workers
      ensures View() == Updated(old(View()), cfg.offline, now)
    {
      hide LoseLeases, LoseDeadlines, WithoutAbsent;
      jobs := LoseLeases(jobs, attempts, now);
      jobs := LoseDeadlines(jobs, now);
      workers := WithoutAbsent(workers, now - cfg.offline);
    }

    static lemma SweepWorkers(s: Tables, cfg: Settings, now: Time)
      ensures ConcurrencyPositive(s) ==> ConcurrencyPositive(Sweep(s, cfg, now))
    {}
  }
}
