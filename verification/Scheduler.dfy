/** Which worker gets which job. */
module Scheduler {
  import opened Options
  import opened Activity
  import opened Store
  import opened Operations
  import opened Runs
  import opened Lifecycle
  import opened Lineage

  // ---- the order of workers ------------------------------------------------------------------------

  lemma BeforeTotal(a: Rank, b: Rank)
    ensures Before(a, b) || Before(b, a)
    ensures Before(a, b) && Before(b, a) ==> a.worker == b.worker
  {}

  /** Loads compare like fractions. */
  lemma LoadTransitive(p: nat, q: nat, r: nat, a: nat, b: nat, c: nat)
    requires a > 0 && b > 0 && c > 0 && p * b <= q * a && q * c <= r * b
    ensures p * c <= r * a
    ensures p * c == r * a ==> p * b == q * a && q * c == r * b
  {
    MulLe(p * b, q * a, c);
    MulLe(q * c, r * b, a);
    assert (p * b) * c == (p * c) * b && (q * a) * c == (q * c) * a && (r * b) * a == (r * a) * b;
    assert (p * c) * b <= (q * c) * a <= (r * a) * b;
    MulCancel(p * c, r * a, b);
    if p * c == r * a {
      assert (p * b) * c == (q * a) * c && (q * c) * a == (r * b) * a;
      MulCancel(q * a, p * b, c);
      MulCancel(r * b, q * c, a);
    }
  }

  lemma MulLe(x: int, y: int, c: nat)
    requires x <= y
    ensures x * c <= y * c
  {}

  lemma Distribute(x: int, y: int, c: nat)
    requires x > y && c > 0
    ensures x * c > y * c
  {
    assert x * c - y * c == (x - y) * c;
  }

  lemma MulCancel(x: int, y: int, c: nat)
    requires c > 0 && x * c <= y * c
    ensures x <= y
  {
    if x > y { Distribute(x, y, c); }
  }

  lemma BeforeTransitive(a: Rank, b: Rank, c: Rank)
    requires a.concurrency > 0 && b.concurrency > 0 && c.concurrency > 0
    requires Before(a, b) && Before(b, c)
    ensures Before(a, c)
  {
    LoadTransitive(a.active, b.active, c.active, a.concurrency, b.concurrency, c.concurrency);
  }

  // ---- every eligible worker has one rank -----------------------------------------------------------

  lemma {:induction false} Latest(s: Tables, ids: set<AttemptId>) returns (t: Time)
    requires ids != {} && ids <= s.attempts.Keys
    ensures exists a | a in ids :: s.attempts[a].created == t
    ensures forall a | a in ids :: s.attempts[a].created <= t
  {
    var x :| x in ids;
    t := s.attempts[x].created;
    if ids != {x} {
      assert ids - {x} != {};
      var u := Latest(s, ids - {x});
      if u > t { t := u; }
      assert forall y | y in ids :: y == x || y in ids - {x};
    }
  }

  lemma RankOf(s: Tables, w: WorkerId) returns (r: Rank)
    requires w in s.workers
    ensures Ranks(s, w, r)
  {
    var t := 0;
    if AttemptsOf(s, w) != {} { t := Latest(s, AttemptsOf(s, w)); }
    r := Rank(|ActiveJobs(s, w)|, s.workers[w].concurrency, t, w);
  }

  lemma OneRank(s: Tables, w: WorkerId, a: Rank, b: Rank)
    requires Ranks(s, w, a) && Ranks(s, w, b)
    ensures a == b
  {}

  // ---- one leader ----------------------------------------------------------------------------------

  /** At one state and one time at most one worker may take a job that is for any worker. */
  lemma OneTaker(s: Tables, cfg: Settings, w: WorkerId, v: WorkerId, j: JobId, now: Time)
    requires Takes(s, cfg, w, j, now) && Takes(s, cfg, v, j, now) && s.jobs[j].target == Auto
    ensures w == v
  {
    var a := RankOf(s, w);
    var b := RankOf(s, v);
    hide Eligible, Ranks, Before, Required;
    RankNames(s, w, a);
    RankNames(s, v, b);
    assert Before(a, b) && Before(b, a);
    BeforeTotal(a, b);
  }

  lemma RankNames(s: Tables, w: WorkerId, r: Rank)
    requires Ranks(s, w, r)
    ensures r.worker == w
  {}

  /** No eligible worker before `w` among `ws`. */
  ghost predicate LeadsAmong(s: Tables, w: WorkerId, ws: set<WorkerId>) {
    && w in ws
    && forall v, a: Rank, b: Rank | v in ws && Ranks(s, w, a) && Ranks(s, v, b) :: Before(a, b)
  }

  lemma {:induction false} LeaderAmong(s: Tables, ws: set<WorkerId>) returns (w: WorkerId)
    requires ws != {} && forall v | v in ws :: v in s.workers && s.workers[v].concurrency > 0
    ensures LeadsAmong(s, w, ws)
  {
    hide Before, IsAssigned, ActiveJobs;
    var v :| v in ws;
    var y := RankOf(s, v);
    if ws == {v} {
      w := v;
      forall u, a: Rank, b: Rank | u in ws && Ranks(s, w, a) && Ranks(s, u, b) ensures Before(a, b) {
        OneRank(s, w, a, b);
        BeforeTotal(a, b);
      }
    } else {
      var u := LeaderAmong(s, ws - {v});
      var x := RankOf(s, u);
      BeforeTotal(x, y);
      w := if Before(x, y) then u else v;
      forall k, a: Rank, b: Rank | k in ws && Ranks(s, w, a) && Ranks(s, k, b) ensures Before(a, b) {
        BetterLeads(s, ws, u, v, w, x, y, k, a, b);
      }
    }
  }

  lemma BetterLeads(s: Tables, ws: set<WorkerId>, u: WorkerId, v: WorkerId, w: WorkerId, x: Rank, y: Rank, k: WorkerId,
                    a: Rank, b: Rank)
    requires forall v | v in ws :: v in s.workers && s.workers[v].concurrency > 0
    requires v in ws && LeadsAmong(s, u, ws - {v}) && Ranks(s, u, x) && Ranks(s, v, y)
    requires w == (if Before(x, y) then u else v) && k in ws && Ranks(s, w, a) && Ranks(s, k, b)
    ensures Before(a, b)
  {
    hide Before, IsAssigned, ActiveJobs;
    BeforeTotal(x, y);
    if w == u { OneRank(s, u, a, x); } else { OneRank(s, v, a, y); }
    if k == v {
      OneRank(s, v, b, y);
      BeforeTotal(a, b);
    } else {
      assert Before(x, b);
      if w == v { BeforeTransitive(y, x, b); }
    }
  }

  predicate ConcurrencyPositive(s: Tables) {
    forall w | w in s.workers :: s.workers[w].concurrency > 0
  }

  /** Wherever some worker is eligible for a job, one of them leads. */
  lemma LeaderExists(s: Tables, cfg: Settings, job: Job, now: Time) returns (w: WorkerId)
    requires ConcurrencyPositive(s) && exists v: WorkerId :: Eligible(s, cfg, job, v, now)
    ensures Leads(s, cfg, job, w, now)
  {
    var ws := set v | v in s.workers && Eligible(s, cfg, job, v, now);
    var v: WorkerId :| Eligible(s, cfg, job, v, now);
    assert v in ws;
    w := LeaderAmong(s, ws);
    hide Before, Ranks;
    forall v, a: Rank, b: Rank | Eligible(s, cfg, job, v, now) && Ranks(s, w, a) && Ranks(s, v, b)
      ensures Before(a, b)
    {
      assert v in ws;
    }
  }

  // ---- progress ------------------------------------------------------------------------------------

  lemma {:induction false} Oldest(s: Tables, js: set<JobId>) returns (j: JobId)
    requires js != {} && js <= s.jobs.Keys
    ensures j in js && forall i | i in js :: Older(s.jobs, j, i)
  {
    var x :| x in js;
    j := x;
    if js != {x} {
      assert js - {x} != {};
      var i := Oldest(s, js - {x});
      if Older(s.jobs, i, j) { j := i; }
      assert forall y | y in js :: y == x || y in js - {x};
    }
  }

  /** A worker that may take some job is given one. */
  lemma TakerClaims(s: Tables, cfg: Settings, w: WorkerId, a: AttemptId, token: Token, now: Time, j: JobId)
    requires CanClaim(s, cfg, w, now) && Takes(s, cfg, w, j, now)
    ensures Claim(s, cfg, w, a, token, now).out.value.Some?
    ensures IsNext(s, cfg, w, Claim(s, cfg, w, a, token, now).out.value.value, now)
  {
    var js := set i | i in s.jobs && Takes(s, cfg, w, i, now);
    assert j in js;
    var next := Oldest(s, js);
    hide Takes, CanClaim;
    InStore(s, cfg, w, now);
    assert IsNext(s, cfg, w, next, now);
  }

  lemma InStore(s: Tables, cfg: Settings, w: WorkerId, now: Time)
    ensures forall i | Takes(s, cfg, w, i, now) :: i in s.jobs
  {}

  lemma LeaderClaims(s: Tables, cfg: Settings, j: JobId, now: Time, a: AttemptId, token: Token) returns (w: WorkerId)
    requires ConcurrencyPositive(s)
    requires j in s.jobs && s.jobs[j].state.Queued? && s.jobs[j].target == Auto && s.jobs[j].deadline > now
    requires exists v: WorkerId :: Eligible(s, cfg, s.jobs[j], v, now)
    ensures Leads(s, cfg, s.jobs[j], w, now)
    ensures Claim(s, cfg, w, a, token, now).out.value.Some?
  {
    w := LeaderExists(s, cfg, s.jobs[j], now);
    assert Takes(s, cfg, w, j, now);
    TakerClaims(s, cfg, w, a, token, now, j);
  }

  lemma WorkersKept(s: Tables, cfg: Settings, op: Op, now: Time, t: Tables)
    requires Steps(s, cfg, op, now, t) && !op.DoRegister? && !op.DoSweep?
    ensures t.workers == s.workers
  {
    hide Verdict, UploadRefusal, CanClaim, IsNext, Outdated, Parsed, ParentRefusal, Owns, RetryRefusal, Resubmission;
  }

  lemma ConcurrencyKept(s: Tables, cfg: Settings, op: Op, now: Time, t: Tables)
    requires Steps(s, cfg, op, now, t) && ConcurrencyPositive(s)
    ensures ConcurrencyPositive(t)
  {
    hide Expire;
    if op.DoRegister? || op.DoSweep? {
      assert op.DoSweep? ==> Expire(s, now).workers == s.workers by { ExpireWorkers(s, now); }
    } else {
      WorkersKept(s, cfg, op, now, t);
    }
  }

  lemma ExpireWorkers(s: Tables, now: Time)
    ensures Expire(s, now).workers == s.workers
  {}

  lemma {:induction false} RunConcurrency(cfg: Settings, states: seq<Tables>, events: seq<Event>, i: nat)
    requires IsRun(cfg, states, events) && i < |states|
    ensures ConcurrencyPositive(states[i])
  {
    if i > 0 {
      RunConcurrency(cfg, states, events, i - 1);
      hide StepAt, ConcurrencyPositive;
      assert StepAt(cfg, states, events, i - 1);
      StepTaken(cfg, states, events, i - 1);
      hide Steps;
      ConcurrencyKept(states[i - 1], cfg, events[i - 1].op, events[i - 1].now, states[i]);
    }
  }

  /** Nobody starves: in every state of every run, while a live queued job for any worker has an eligible worker, one of
      these leads, and its next claim returns a job. */
  lemma Progress(cfg: Settings, states: seq<Tables>, events: seq<Event>, i: nat, j: JobId, now: Time, a: AttemptId,
                 token: Token) returns (w: WorkerId)
    requires IsRun(cfg, states, events) && i < |states| && j in states[i].jobs
    requires states[i].jobs[j].state.Queued? && states[i].jobs[j].target == Auto && states[i].jobs[j].deadline > now
    requires exists v: WorkerId :: Eligible(states[i], cfg, states[i].jobs[j], v, now)
    ensures Leads(states[i], cfg, states[i].jobs[j], w, now)
    ensures Claim(states[i], cfg, w, a, token, now).out.value.Some?
  {
    RunConcurrency(cfg, states, events, i);
    w := LeaderClaims(states[i], cfg, j, now, a, token);
  }

  /** A job for any worker goes to a worker no busier than any other eligible one. */
  lemma ClaimIsLeastLoaded(s: Tables, cfg: Settings, w: WorkerId, a: AttemptId, token: Token, now: Time, j: JobId,
                           v: WorkerId)
    requires Claim(s, cfg, w, a, token, now).out == Ok(Some(j)) && s.jobs[j].target == Auto
    requires Eligible(s, cfg, s.jobs[j], v, now)
    ensures Eligible(s, cfg, s.jobs[j], w, now)
    ensures |ActiveJobs(s, w)| * s.workers[v].concurrency <= |ActiveJobs(s, v)| * s.workers[w].concurrency
  {
    var x := RankOf(s, w);
    var y := RankOf(s, v);
    assert Leads(s, cfg, s.jobs[j], w, now);
    assert Before(x, y);
  }

  // ---- concurrency ---------------------------------------------------------------------------------

  /** Apart from claims no operation makes a job active. */
  lemma OnlyClaimStarts(s: Tables, cfg: Settings, op: Op, now: Time, t: Tables, j: JobId)
    requires Inv(s, cfg) && cfg.ttl > 0 && Steps(s, cfg, op, now, t) && !op.DoClaim?
    requires j in t.jobs && Active(t.jobs[j].state)
    ensures j in s.jobs && Active(s.jobs[j].state) && t.jobs[j].worker == s.jobs[j].worker
  {
    hide Inv, Moves, Active, Rooted, Parsed, ValidSubmission;
    hide Register, Submit, Claim, Renew, Cancel, Finalize, Retry, AddArtifact, Delete, Expire, Sweep;
    StepKeeps(s, cfg, op, now, t);
    NewIsQueued(s, t, j);
    StoredIssued(s, cfg);
    match op
    case DoRegister(w, capabilities, contract, concurrency) =>
      RegisterRows(s, w, capabilities, contract, concurrency, now);
    case DoSubmit(q, id) => SubmitOthers(s, q, id, now, j);
    case DoRenew(i, w, a, token) => RenewRows(s, cfg, i, w, a, token, now);
    case DoCancel(i) => CancelStarts(s, i, j);
    case DoFinalize(i, w, token, p) => FinalizeStarts(s, i, w, token, p, now, j);
    case DoRetry(i, key, id) => RetryOthers(s, i, key, id, now, j);
    case DoUpload(i, w, a, token, ref, data) => UploadRows(s, cfg, i, w, a, token, ref, data, now);
    case DoDelete(i) => DeleteStarts(s, i, j);
    case DoExpire => ExpireStarts(s, now, j);
    case DoSweep => SweepStarts(s, cfg, now, j);
    case _ =>
  }

  lemma DeleteStarts(s: Tables, i: JobId, j: JobId)
    requires j in s.jobs && j in Delete(s, i).after.jobs
    ensures Delete(s, i).after.jobs[j] == s.jobs[j]
  {}

  lemma ExpireStarts(s: Tables, now: Time, j: JobId)
    requires j in s.jobs
    ensures var t := Expire(s, now);
            j in t.jobs && t.jobs[j].state == s.jobs[j].state && t.jobs[j].worker == s.jobs[j].worker
  {
    hide Outdated;
  }

  lemma NewIsQueued(s: Tables, t: Tables, j: JobId)
    requires Moves(s, t) && j in t.jobs && Active(t.jobs[j].state)
    ensures j in s.jobs
  {}

  lemma CancelStarts(s: Tables, i: JobId, j: JobId)
    requires j in s.jobs
    ensures var t := Cancel(s, i).after;
            j in t.jobs && t.jobs[j].worker == s.jobs[j].worker
            && (Active(t.jobs[j].state) ==> Active(s.jobs[j].state))
  {}

  lemma FinalizeStarts(s: Tables, i: JobId, w: WorkerId, token: Token, p: Pack, now: Time, j: JobId)
    requires Parsed(p) && j in s.jobs && j in Finalize(s, i, w, token, p, now).after.jobs
    requires Active(Finalize(s, i, w, token, p, now).after.jobs[j].state)
    ensures Finalize(s, i, w, token, p, now).after.jobs[j] == s.jobs[j]
  {
    hide ManifestRefusal, ObservationRefusal, Parsed;
  }

  lemma SweepStarts(s: Tables, cfg: Settings, now: Time, j: JobId)
    requires j in s.jobs
    ensures var t := Sweep(s, cfg, now);
            j in t.jobs && t.jobs[j].worker == s.jobs[j].worker
            && (Active(t.jobs[j].state) ==> Active(s.jobs[j].state))
  {
    hide Outdated;
  }

  lemma {:induction false} SubsetSize<T>(a: set<T>, b: set<T>)
    requires a <= b
    ensures |a| <= |b|
  {
    if a != {} {
      var x :| x in a;
      SubsetSize(a - {x}, b - {x});
    }
  }

  lemma ActiveStep(s: Tables, cfg: Settings, op: Op, now: Time, t: Tables, w: WorkerId)
    requires Inv(s, cfg) && cfg.ttl > 0 && Steps(s, cfg, op, now, t)
    ensures || |ActiveJobs(t, w)| <= |ActiveJobs(s, w)|
            || (w in s.workers && |ActiveJobs(t, w)| <= s.workers[w].concurrency)
  {
    if op.DoClaim? {
      ActiveClaim(s, cfg, op.w, op.a, op.token, now, w);
    } else {
      hide Inv, Steps;
      forall j | j in ActiveJobs(t, w) ensures j in ActiveJobs(s, w) {
        OnlyClaimStarts(s, cfg, op, now, t, j);
      }
      SubsetSize(ActiveJobs(t, w), ActiveJobs(s, w));
    }
  }

  lemma ActiveClaim(s: Tables, cfg: Settings, v: WorkerId, a: AttemptId, token: Token, now: Time, w: WorkerId)
    ensures var t := Claim(s, cfg, v, a, token, now).after;
            || |ActiveJobs(t, w)| <= |ActiveJobs(s, w)|
            || (w in s.workers && |ActiveJobs(t, w)| <= s.workers[w].concurrency)
  {
    var c := Claim(s, cfg, v, a, token, now);
    var t := c.after;
    if c.out.value.Some? {
      var j := c.out.value.value;
      hide IsNext, Present;
      if w == v {
        SubsetSize(ActiveJobs(t, w), ActiveJobs(s, w) + {j});
      } else {
        SubsetSize(ActiveJobs(t, w), ActiveJobs(s, w));
      }
    }
  }

  /** A worker never has more active jobs than some concurrency it had registered. */
  lemma {:induction false} WithinConcurrency(cfg: Settings, states: seq<Tables>, events: seq<Event>, i: nat,
                                             w: WorkerId)
    requires IsRun(cfg, states, events) && i < |states|
    ensures || ActiveJobs(states[i], w) == {}
            || exists k :: 0 <= k <= i && w in states[k].workers
                           && |ActiveJobs(states[i], w)| <= states[k].workers[w].concurrency
  {
    hide Inv, StepAt;
    if i > 0 {
      WithinConcurrency(cfg, states, events, i - 1, w);
      RunKeeps(cfg, states, events, i - 1);
      assert StepAt(cfg, states, events, i - 1);
      StepTaken(cfg, states, events, i - 1);
      ActiveStep(states[i - 1], cfg, events[i - 1].op, events[i - 1].now, states[i], w);
    }
  }
}
