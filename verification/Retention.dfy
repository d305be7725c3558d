/** What an observing lineage has ever reported stays within its root's budget, also after retention has dropped
    results. */
module Retention {
  import opened Options
  import opened Activity
  import opened Sums
  import opened Store
  import opened Operations
  import opened Runs
  import opened Lifecycle
  import opened Lineage

  // ---- dates ---------------------------------------------------------------------------------------

  const HOUR: int := 3600 * SECOND

  predicate JobDated(job: Job, clock: Time) { job.created <= clock && job.deadline <= job.created + HOUR }

  /** Jobs end within an hour, parents are older than their children, and results are kept for thirty days. */
  predicate Dated(s: Tables, clock: Time) {
    && (forall j | j in s.jobs :: JobDated(s.jobs[j], clock))
    && (forall j | j in s.jobs && s.jobs[j].parent.Some? && s.jobs[j].parent.value in s.jobs ::
          s.jobs[s.jobs[j].parent.value].created <= s.jobs[j].created)
    && (forall j | j in s.observations :: KeptLong(s, j))
  }

  predicate KeptLong(s: Tables, j: JobId)
    requires j in s.observations
  {
    j in s.jobs && (s.jobs[j].input.Observe? ==> s.jobs[j].created + 30 * DAY - SECOND <= s.observations[j])
  }

  lemma SubmittedDates(s: Tables, q: Submission, id: JobId, now: Time, j: JobId)
    requires Rooted(s.jobs) && j !in s.jobs && j in Submit(s, q, id, now).after.jobs
    ensures var job := Submit(s, q, id, now).after.jobs[j]; job.created == now && job.deadline == now + q.span
  {
    hide ParentRefusal, Owns;
  }

  lemma RetriedDates(s: Tables, i: JobId, key: string, id: JobId, now: Time, j: JobId)
    requires Rooted(s.jobs) && j !in s.jobs && j in Retry(s, i, key, id, now).after.jobs
    ensures var job := Retry(s, i, key, id, now).after.jobs[j];
            job.created == now && now < job.deadline <= now + HOUR
  {
    hide Submit, Resubmission, RetryRefusal;
    if RetryRefusal(s, i, key, now).None? {
      RetrySpan(s, i, key, now);
      SubmittedDates(s, Resubmission(s, i, key, now), id, now, j);
    }
  }

  lemma RetrySpan(s: Tables, j: JobId, key: string, now: Time)
    requires RetryRefusal(s, j, key, now).None?
    ensures j in s.jobs && 0 < Resubmission(s, j, key, now).span <= HOUR
  {}

  /** A new job is created now and ends later, within an hour. */
  lemma NewDates(s: Tables, cfg: Settings, op: Op, now: Time, t: Tables, j: JobId)
    requires Inv(s, cfg) && Steps(s, cfg, op, now, t) && j in t.jobs && j !in s.jobs
    ensures t.jobs[j].created == now && now < t.jobs[j].deadline <= now + HOUR
  {
    hide Inv, Rooted, FieldsInRange, ValidInput;
    hide Register, Submit, Claim, Renew, Cancel, Finalize, Retry, AddArtifact, Delete, Expire, Sweep;
    match op
    case DoSubmit(q, id) => SubmittedDates(s, q, id, now, j);
    case DoRetry(i, key, id) => RetriedDates(s, i, key, id, now, j);
    case _ => NoNewJob(s, cfg, op, now, t, j);
  }

  /** An entry of the retention table is an old one of a job still stored, or that of a result just accepted. */
  lemma ObservationRows(s: Tables, cfg: Settings, op: Op, now: Time, t: Tables, j: JobId)
    requires Steps(s, cfg, op, now, t) && j in t.observations
    requires j in s.observations ==> j in s.jobs
    ensures j in s.jobs && j in t.jobs
    ensures || (j in s.observations && t.observations[j] == s.observations[j])
            || (op.DoFinalize? && op.j == j && t != s && op.p.payload.ObservePayload?
                && t.observations[j] == op.p.payload.report.coverage.observedAt + 30 * DAY)
  {
    hide Rooted, Parsed, Outdated;
    hide Register, Submit, Claim, Renew, Cancel, Finalize, Retry, AddArtifact, Sweep;
    match op
    case DoFinalize(i, w, token, p) => FinalizeRows(s, i, w, token, p, now);
    case DoDelete(_) =>
    case DoExpire =>
    case DoSweep => SweepObservations(s, cfg, now);
    case _ => OtherRows(s, cfg, op, now, t);
  }

  lemma FinalizeRows(s: Tables, i: JobId, w: WorkerId, token: Token, p: Pack, now: Time)
    requires Parsed(p)
    ensures var t := Finalize(s, i, w, token, p, now).after;
            && s.jobs.Keys == t.jobs.Keys
            && (t.observations == s.observations
                || (t != s && i in s.jobs && p.payload.ObservePayload?
                    && t.observations == s.observations[i := p.payload.report.coverage.observedAt + 30 * DAY]))
  {
    hide Verdict, Parsed;
  }

  lemma SweepObservations(s: Tables, cfg: Settings, now: Time)
    ensures Sweep(s, cfg, now).jobs.Keys == s.jobs.Keys
    ensures Sweep(s, cfg, now).observations == Expire(s, now).observations
  {
    hide Outdated, Swept;
  }

  lemma OtherRows(s: Tables, cfg: Settings, op: Op, now: Time, t: Tables)
    requires Steps(s, cfg, op, now, t)
    requires !op.DoFinalize? && !op.DoDelete? && !op.DoExpire? && !op.DoSweep?
    ensures t.observations == s.observations && s.jobs.Keys <= t.jobs.Keys
  {
    hide Register, AddArtifact, Submit, Retry, Claim, Renew, Cancel, Rooted, Parsed, ValidSubmission;
    match op
    case DoRenew(j, w, a, token) => RenewKept(s, cfg, j, w, a, token, now);
    case DoCancel(j) => CancelKept(s, j);
    case DoSubmit(q, id) => SubmitKept(s, q, id, now);
    case DoRetry(j, key, id) => RetryKept(s, j, key, id, now);
    case DoClaim(w, a, token) => ClaimKept(s, cfg, w, a, token, now);
    case DoUpload(j, w, a, token, ref, data) => UploadKept(s, cfg, j, w, a, token, ref, data, now);
    case DoRegister(w, capabilities, contract, concurrency) =>
      RegisterKept(s, w, capabilities, contract, concurrency, now);
    case _ =>
  }

  lemma RegisterKept(s: Tables, w: WorkerId, capabilities: set<Capability>, contract: nat, concurrency: nat, now: Time)
    ensures var t := Register(s, w, capabilities, contract, concurrency, now);
            t.observations == s.observations && t.jobs == s.jobs
  {}

  lemma RenewKept(s: Tables, cfg: Settings, j: JobId, w: WorkerId, a: AttemptId, token: Token, now: Time)
    ensures var t := Renew(s, cfg, j, w, a, token, now).after;
            t.observations == s.observations && t.jobs == s.jobs
  {}

  lemma CancelKept(s: Tables, j: JobId)
    ensures var t := Cancel(s, j).after; t.observations == s.observations && s.jobs.Keys <= t.jobs.Keys
  {}

  lemma SubmitKept(s: Tables, q: Submission, id: JobId, now: Time)
    requires Rooted(s.jobs)
    ensures var t := Submit(s, q, id, now).after; t.observations == s.observations && s.jobs.Keys <= t.jobs.Keys
  {
    hide ParentRefusal, Owns, NewJob;
  }

  lemma RetryKept(s: Tables, j: JobId, key: string, id: JobId, now: Time)
    requires Rooted(s.jobs)
    ensures var t := Retry(s, j, key, id, now).after; t.observations == s.observations && s.jobs.Keys <= t.jobs.Keys
  {
    hide Submit, Resubmission, RetryRefusal;
    if RetryRefusal(s, j, key, now).None? {
      RetryOk(s, j, key, now);
      SubmitKept(s, Resubmission(s, j, key, now), id, now);
    }
  }

  lemma ClaimKept(s: Tables, cfg: Settings, w: WorkerId, a: AttemptId, token: Token, now: Time)
    ensures var t := Claim(s, cfg, w, a, token, now).after;
            t.observations == s.observations && s.jobs.Keys <= t.jobs.Keys
  {
    hide CanClaim;
  }

  lemma UploadKept(s: Tables, cfg: Settings, j: JobId, w: WorkerId, a: AttemptId, token: Token, ref: Ref, data: Blob,
                   now: Time)
    ensures var t := AddArtifact(s, cfg, j, w, a, token, ref, data, now).after;
            t.observations == s.observations && t.jobs == s.jobs
  {
    hide UploadRefusal;
  }

  lemma ResultDates(s: Tables, j: JobId, w: WorkerId, token: Token, p: Pack, now: Time)
    requires Parsed(p) && Finalize(s, j, w, token, p, now).after != s && j in s.jobs && s.jobs[j].input.Observe?
    ensures p.payload.ObservePayload? && s.jobs[j].created - SECOND <= p.payload.report.coverage.observedAt
  {
    ObservationPassed(s, j, w, token, p, now);
    hide Finalize, Parsed, SameSummary, Summarize, WellFormed;
  }

  lemma StepDates(s: Tables, cfg: Settings, op: Op, now: Time, t: Tables, clock: Time)
    requires Inv(s, cfg) && cfg.ttl > 0 && Steps(s, cfg, op, now, t) && Dated(s, clock) && clock <= now
    ensures Dated(t, now)
  {
    StepKeeps(s, cfg, op, now, t);
    ParentsIssued(s, cfg);
    hide Inv, Steps, Moves, JobDated, KeptLong;
    forall j | j in t.jobs ensures JobDated(t.jobs[j], now) {
      if j in s.jobs {
        OldDates(s, t, j, clock, now);
      } else {
        NewDates(s, cfg, op, now, t, j);
        FreshlyDated(t.jobs[j], now);
      }
    }
    forall j | j in t.jobs && t.jobs[j].parent.Some? && t.jobs[j].parent.value in t.jobs
      ensures t.jobs[t.jobs[j].parent.value].created <= t.jobs[j].created
    {
      var p := t.jobs[j].parent.value;
      if j in s.jobs {
        OldParent(s, t, j, clock);
      } else {
        NewDates(s, cfg, op, now, t, j);
        CreatedBefore(t.jobs[p], now);
      }
    }
    forall j | j in t.observations ensures KeptLong(t, j) {
      KeptLonger(s, cfg, op, now, t, j);
    }
  }

  lemma FreshlyDated(job: Job, now: Time)
    requires job.created == now && job.deadline <= now + HOUR
    ensures JobDated(job, now)
  {}

  lemma CreatedBefore(job: Job, now: Time)
    requires JobDated(job, now)
    ensures job.created <= now
  {}

  lemma OldDates(s: Tables, t: Tables, j: JobId, clock: Time, now: Time)
    requires Moves(s, t) && j in s.jobs && j in t.jobs && JobDated(s.jobs[j], clock) && clock <= now
    ensures JobDated(t.jobs[j], now)
  {
    assert Evolves(s.jobs[j], t.jobs[j]);
  }

  lemma OldParent(s: Tables, t: Tables, j: JobId, clock: Time)
    requires Moves(s, t) && Dated(s, clock) && j in s.jobs && j in t.jobs && t.jobs[j].parent.Some?
    requires t.jobs[j].parent.value in t.jobs && (s.jobs[j].parent.Some? ==> s.jobs[j].parent.value in s.issued)
    ensures t.jobs[t.jobs[j].parent.value].created <= t.jobs[j].created
  {
    assert Evolves(s.jobs[j], t.jobs[j]);
    var p := t.jobs[j].parent.value;
    assert p in s.jobs;
    assert Evolves(s.jobs[p], t.jobs[p]);
  }

  lemma KeptLonger(s: Tables, cfg: Settings, op: Op, now: Time, t: Tables, j: JobId)
    requires Inv(s, cfg) && Steps(s, cfg, op, now, t) && Moves(s, t) && j in t.observations
    requires j in s.observations ==> KeptLong(s, j)
    ensures KeptLong(t, j)
  {
    ObservationRows(s, cfg, op, now, t, j);
    hide Inv, Finalize, Parsed;
    assert Evolves(s.jobs[j], t.jobs[j]);
    if s.jobs[j].input.Observe? && !(j in s.observations && t.observations[j] == s.observations[j]) {
      ResultDates(s, j, op.w, op.token, op.p, now);
    }
  }

  /** A root is the oldest of its lineage. */
  lemma {:induction false} RootOldest(s: Tables, clock: Time, j: JobId, r: JobId)
    requires Rooted(s.jobs) && Dated(s, clock) && Belongs(s.jobs, j, r)
    ensures r in s.jobs && s.jobs[r].created <= s.jobs[j].created
    decreases s.jobs[j].serial
  {
    if s.jobs[j].parent.Some? { RootOldest(s, clock, s.jobs[j].parent.value, r); }
  }

  // ---- what was ever reported ------------------------------------------------------------------------

  /** The stored jobs, each with the result it has or last had. */
  function Remember(before: map<JobId, Job>, jobs: map<JobId, Job>): map<JobId, Job> {
    map j | j in jobs :: if jobs[j].result.None? && j in before then jobs[j].(result := before[j].result) else jobs[j]
  }

  function Ever(states: seq<Tables>, i: nat): map<JobId, Job>
    requires i < |states|
  {
    if i == 0 then states[0].jobs else Remember(Ever(states, i - 1), states[i].jobs)
  }

  /** `ever` differs from the stored jobs only in results that are gone, which jobs had that have ended. */
  predicate Recalls(ever: map<JobId, Job>, jobs: map<JobId, Job>) {
    && ever.Keys == jobs.Keys
    && forall j | j in jobs ::
         && ever[j] == jobs[j].(result := ever[j].result) && (jobs[j].result.Some? ==> ever[j] == jobs[j])
         && (ever[j].result.Some? ==> Terminal(jobs[j].state))
  }

  /** Where a result of the lineage is gone, the root's deadline has passed. */
  ghost predicate GoneLate(ever: map<JobId, Job>, s: Tables, r: JobId, clock: Time)
    requires Rooted(s.jobs) && Recalls(ever, s.jobs)
  {
    forall j | Belongs(s.jobs, j, r) && ever[j] != s.jobs[j] :: r in s.jobs && s.jobs[r].deadline < clock
  }

  lemma RecallsRooted(ever: map<JobId, Job>, jobs: map<JobId, Job>)
    requires Recalls(ever, jobs) && Rooted(jobs)
    ensures Rooted(ever) && forall j | j in jobs :: RootOf(ever, j) == RootOf(jobs, j)
  {
    assert forall j | j in jobs :: SameTerms(jobs[j], ever[j]);
    hide Recalls;
    assert Rooted(ever);
    forall j | j in jobs ensures RootOf(ever, j) == RootOf(jobs, j) { SameRoots(jobs, ever, j); }
  }

  lemma StepRecalls(s: Tables, cfg: Settings, t: Tables, ever: map<JobId, Job>)
    requires Inv(t, cfg) && Moves(s, t) && Recalls(ever, s.jobs)
    ensures Recalls(Remember(ever, t.jobs), t.jobs)
  {
    hide Inv;
    var after := Remember(ever, t.jobs);
    forall j | j in t.jobs && after[j].result.Some? ensures Terminal(t.jobs[j].state) {
      if t.jobs[j].result.Some? { ReportedEnded(t, cfg, j); } else { EndedStays(s, t, j); }
    }
  }

  lemma EndedStays(s: Tables, t: Tables, j: JobId)
    requires Moves(s, t) && j in s.jobs && j in t.jobs && Terminal(s.jobs[j].state)
    ensures t.jobs[j].state == s.jobs[j].state
  {}

  /** A stored job's walk has not changed. */
  lemma {:induction false} OlderRoots(s: Tables, cfg: Settings, t: Tables, j: JobId, r: JobId)
    requires Inv(s, cfg) && Moves(s, t) && Rooted(s.jobs) && Rooted(t.jobs) && j in s.jobs && Belongs(t.jobs, j, r)
    ensures Belongs(s.jobs, j, r)
    decreases t.jobs[j].serial
  {
    assert Evolves(s.jobs[j], t.jobs[j]);
    if t.jobs[j].parent.Some? {
      InvAt(s, cfg, j);
      OlderRoots(s, cfg, t, t.jobs[j].parent.value, r);
    }
  }

  /** Only retention takes results away. */
  lemma DroppedOnly(s: Tables, cfg: Settings, op: Op, now: Time, t: Tables, j: JobId)
    requires Inv(s, cfg) && cfg.ttl > 0 && Steps(s, cfg, op, now, t)
    requires j in s.jobs && j in t.jobs && s.jobs[j].result.Some? && t.jobs[j].result.None?
    ensures j in Dropped(s, op, now)
  {
    StoredIssued(s, cfg);
    hide Inv, Dropped, Rooted, Parsed, ValidSubmission;
    hide Register, Submit, Claim, Renew, Cancel, Finalize, Retry, AddArtifact, Delete, Expire, Sweep;
    match op
    case DoSubmit(q, id) => SubmitOthers(s, q, id, now, j);
    case DoRetry(i, key, id) => RetryOthers(s, i, key, id, now, j);
    case DoDelete(i) => if t != s { DeletedJobs(s, i); }
    case DoFinalize(i, w, token, p) => FinalizeKeepsResult(s, cfg, i, w, token, p, now, j);
    case _ => if j !in Dropped(s, op, now) { PlainKeepsResult(s, cfg, op, now, t, j); }
  }

  lemma FinalizeKeepsResult(s: Tables, cfg: Settings, i: JobId, w: WorkerId, token: Token, p: Pack, now: Time, j: JobId)
    requires Inv(s, cfg) && Parsed(p) && j in s.jobs && s.jobs[j].result.Some?
    ensures var t := Finalize(s, i, w, token, p, now).after; j in t.jobs && t.jobs[j].result.Some?
  {
    FinalizeRow(s, cfg, i, w, token, p, now);
    hide Inv, Finalize, SameTerms;
  }

  lemma PlainKeepsResult(s: Tables, cfg: Settings, op: Op, now: Time, t: Tables, j: JobId)
    requires Inv(s, cfg) && Steps(s, cfg, op, now, t) && Plain(op) && j in s.jobs && j !in Dropped(s, op, now)
    ensures j in t.jobs && t.jobs[j].result == s.jobs[j].result
  {
    PlainRows(s, cfg, op, now, t);
    hide Inv, Steps, Dropped, SameTerms;
  }

  /** By the time retention drops a result of a lineage, the root's deadline has passed. */
  lemma DroppedLate(s: Tables, op: Op, now: Time, clock: Time, j: JobId, r: JobId)
    requires Rooted(s.jobs) && Dated(s, clock) && j in Dropped(s, op, now) && Belongs(s.jobs, j, r)
    ensures r in s.jobs && s.jobs[r].deadline < now
  {
    RootOldest(s, clock, j, r);
    assert JobDated(s.jobs[r], clock);
    assert j in s.observations ==> KeptLong(s, j);
  }

  lemma StepGoneLate(s: Tables, cfg: Settings, op: Op, now: Time, t: Tables, ever: map<JobId, Job>, r: JobId,
                     clock: Time)
    requires Inv(s, cfg) && cfg.ttl > 0 && Steps(s, cfg, op, now, t) && Dated(s, clock) && clock <= now
    requires Recalls(ever, s.jobs) && Rooted(t.jobs) && Recalls(Remember(ever, t.jobs), t.jobs) && r in t.jobs
    requires GoneLate(ever, s, r, clock)
    ensures GoneLate(Remember(ever, t.jobs), t, r, now)
  {
    StepKeeps(s, cfg, op, now, t);
    hide Inv, Steps, Dated, Rooted;
    var after := Remember(ever, t.jobs);
    forall j | Belongs(t.jobs, j, r) && after[j] != t.jobs[j] ensures t.jobs[r].deadline < now {
      OlderRoots(s, cfg, t, j, r);
      if ever[j] == s.jobs[j] {
        DroppedOnly(s, cfg, op, now, t, j);
        DroppedLate(s, op, now, clock, j, r);
      }
      assert Evolves(s.jobs[r], t.jobs[r]);
    }
  }

  // ---- nothing is handed out again ---------------------------------------------------------------------

  /** No result of the lineage has gone, and none goes in this step. */
  ghost predicate Fresh(ever: map<JobId, Job>, s: Tables, op: Op, now: Time, r: JobId)
    requires Rooted(s.jobs) && Recalls(ever, s.jobs)
  {
    (forall j | Belongs(s.jobs, j, r) :: ever[j] == s.jobs[j]) && Spares(s, op, now, r)
  }

  /** While all results of a lineage are there, what was reported is what is stored. */
  lemma SameReckoning(ever: map<JobId, Job>, jobs: map<JobId, Job>, r: JobId)
    requires Rooted(jobs) && Rooted(ever) && Recalls(ever, jobs) && r in jobs
    requires forall j | Belongs(jobs, j, r) :: ever[j] == jobs[j]
    ensures WithinBudget(ever, r) <==> WithinBudget(jobs, r)
  {
    RecallsRooted(ever, jobs);
    assert SameTerms(jobs[r], ever[r]);
    hide Recalls, Charge, RootOf, Rooted;
    forall res: Resource ensures Charges(ever, r, res) == Charges(jobs, r, res) {
      assert forall j | j in jobs && RootOf(jobs, j) == Some(r) :: Belongs(jobs, j, r);
    }
  }

  lemma FreshStep(s: Tables, cfg: Settings, op: Op, now: Time, t: Tables, ever: map<JobId, Job>, r: JobId)
    requires Inv(s, cfg) && cfg.ttl > 0 && Steps(s, cfg, op, now, t) && BudgetsPositive(s.jobs) && Rooted(t.jobs)
    requires Recalls(ever, s.jobs) && Rooted(ever) && Fresh(ever, s, op, now, r)
    requires r in t.jobs && t.jobs[r].parent.None? && t.jobs[r].input.Observe?
    requires r in s.jobs ==> WithinBudget(ever, r)
    requires Recalls(Remember(ever, t.jobs), t.jobs) && Rooted(Remember(ever, t.jobs))
    ensures WithinBudget(Remember(ever, t.jobs), r)
  {
    StepKeeps(s, cfg, op, now, t);
    hide Inv, Steps, WithinBudget, Rooted, BudgetsPositive, Honest;
    if r in s.jobs { SameReckoning(ever, s.jobs, r); }
    StepWithin(s, cfg, op, now, t, r);
    var after := Remember(ever, t.jobs);
    forall j | Belongs(t.jobs, j, r) ensures after[j] == t.jobs[j] {
      if j in s.jobs {
        OlderRoots(s, cfg, t, j, r);
        if s.jobs[j].result.Some? && t.jobs[j].result.None? { DroppedOnly(s, cfg, op, now, t, j); }
      }
    }
    SameReckoning(after, t.jobs, r);
  }

  /** Past the root's deadline nothing is added to a lineage. */
  lemma NothingNew(s: Tables, cfg: Settings, op: Op, now: Time, t: Tables, j: JobId, r: JobId)
    requires Inv(s, cfg) && Steps(s, cfg, op, now, t) && Moves(s, t) && Rooted(t.jobs) && AllInTime(t.jobs)
    requires r in s.jobs && s.jobs[r].deadline < now && Belongs(t.jobs, j, r)
    ensures j in s.jobs
  {
    RootStored(t.jobs, j);
    assert InTime(t.jobs, j) && Evolves(s.jobs[r], t.jobs[r]);
    hide Inv, Steps, Moves;
    if j !in s.jobs { NewDates(s, cfg, op, now, t, j); }
  }

  /** A job of the lineage counts for no more than before, also when its result is accepted or dropped. */
  lemma NoMore(s: Tables, cfg: Settings, op: Op, now: Time, t: Tables, ever: map<JobId, Job>, j: JobId, r: JobId)
    requires Inv(s, cfg) && cfg.ttl > 0 && Steps(s, cfg, op, now, t) && Moves(s, t) && BudgetsPositive(s.jobs)
    requires Recalls(ever, s.jobs) && j in s.jobs && j in t.jobs && s.jobs[j].input.Observe?
    requires j == r && s.jobs[j].result.None? ==> t.jobs[j].result.None?
    ensures NoDearer(ever[j], Remember(ever, t.jobs)[j], j == r)
  {
    var was, job := s.jobs[j], t.jobs[j];
    assert Evolves(was, job) && FieldsInRange(was.budget);
    hide Inv, Steps, Rooted, Evolves, FieldsInRange, NoDearer, UsageFits, Moves;
    if was.result.None? && job.result.Some? { AcceptedCharge(s, cfg, op, now, t, j); }
    RememberedCharge(was, job, ever[j], j == r);
  }

  lemma RememberedCharge(was: Job, job: Job, ever: Job, isRoot: bool)
    requires Evolves(was, job) && FieldsInRange(was.budget)
    requires ever == was.(result := ever.result) && (was.result.Some? ==> ever == was)
    requires (ever.result.Some? ==> Terminal(was.state)) 
    requires isRoot && was.result.None? ==> job.result.None?
    requires was.result.None? && job.result.Some? ==>
               !Terminal(was.state) && UsageFits(job.result.value.usage, was.budget)
    ensures NoDearer(ever, if job.result.None? then job.(result := ever.result) else job, isRoot)
  {}

  lemma AcceptedCharge(s: Tables, cfg: Settings, op: Op, now: Time, t: Tables, j: JobId)
    requires Inv(s, cfg) && cfg.ttl > 0 && Steps(s, cfg, op, now, t) && BudgetsPositive(s.jobs)
    requires j in s.jobs && j in t.jobs && s.jobs[j].input.Observe?
    requires s.jobs[j].result.None? && t.jobs[j].result.Some?
    ensures !Terminal(s.jobs[j].state) && UsageFits(t.jobs[j].result.value.usage, s.jobs[j].budget)
  {
    AcceptedInTime(s, cfg, op, now, t, j);
    hide Inv, Finalize, Parsed, OwnResult, UsageFits, BudgetsPositive, Rooted;
    FinalizeRow(s, cfg, j, op.w, op.token, op.p, now);
    AcceptedUsage(s, j, op.w, op.token, op.p, now);
  }

  /** Where a result has gone or goes, the deadline has passed, and the root has reported. */
  lemma NotFresh(s: Tables, cfg: Settings, op: Op, now: Time, ever: map<JobId, Job>, r: JobId, clock: Time)
    requires Inv(s, cfg) && Rooted(s.jobs) && Recalls(ever, s.jobs) && Dated(s, clock) && clock <= now
    requires GoneLate(ever, s, r, clock) && !Fresh(ever, s, op, now, r)
    ensures r in s.jobs && s.jobs[r].deadline < now
    ensures op.DoExpire? || op.DoSweep? || Terminal(s.jobs[r].state)
  {
    hide Inv, Dated, Rooted;
    if j :| Belongs(s.jobs, j, r) && ever[j] != s.jobs[j] {
      BelowRoot(s, cfg, j, r);
    } else {
      var j :| j in Dropped(s, op, now) && Belongs(s.jobs, j, r);
      DroppedLate(s, op, now, clock, j, r);
    }
  }

  lemma NotAccepted(s: Tables, cfg: Settings, op: Op, now: Time, t: Tables, r: JobId)
    requires Inv(s, cfg) && cfg.ttl > 0 && Steps(s, cfg, op, now, t) && BudgetsPositive(s.jobs)
    requires r in s.jobs && r in t.jobs && s.jobs[r].input.Observe? && s.jobs[r].result.None?
    requires op.DoExpire? || op.DoSweep? || Terminal(s.jobs[r].state)
    ensures t.jobs[r].result.None?
  {
    if t.jobs[r].result.Some? {
      AcceptedInTime(s, cfg, op, now, t, r);
      AcceptedCharge(s, cfg, op, now, t, r);
    }
  }

  lemma LateStep(s: Tables, cfg: Settings, op: Op, now: Time, t: Tables, ever: map<JobId, Job>, r: JobId, clock: Time)
    requires Inv(s, cfg) && cfg.ttl > 0 && Steps(s, cfg, op, now, t) && Moves(s, t) && BudgetsPositive(s.jobs)
    requires Rooted(t.jobs) && AllInTime(t.jobs) && Dated(s, clock) && clock <= now
    requires Recalls(ever, s.jobs) && Rooted(ever) && GoneLate(ever, s, r, clock) && !Fresh(ever, s, op, now, r)
    requires r in t.jobs && t.jobs[r].input.Observe? && (r in s.jobs ==> WithinBudget(ever, r))
    requires Recalls(Remember(ever, t.jobs), t.jobs) && Rooted(Remember(ever, t.jobs))
    ensures WithinBudget(Remember(ever, t.jobs), r)
  {
    NotFresh(s, cfg, op, now, ever, r, clock);
    MovedTerms(s, t, r);
    var after := Remember(ever, t.jobs);
    InvRooted(s, cfg);
    hide *;
    if s.jobs[r].result.None? { NotAccepted(s, cfg, op, now, t, r); }
    forall j | Belongs(after, j, r) ensures Belongs(ever, j, r) && NoDearer(ever[j], after[j], j == r) {
      RecalledBelongs(after, t.jobs, j, r);
      NothingNew(s, cfg, op, now, t, j, r);
      OlderRoots(s, cfg, t, j, r);
      RecalledBelongs(ever, s.jobs, j, r);
      BelowRoot(s, cfg, j, r);
      BothObserve(s.jobs[j].input, s.jobs[r].input);
      NoMore(s, cfg, op, now, t, ever, j, r);
    }
    SameBudgets(ever, s.jobs, after, t.jobs, r);
    ShrinksWithin(ever, after, r);
  }

  lemma RecalledBelongs(ever: map<JobId, Job>, jobs: map<JobId, Job>, j: JobId, r: JobId)
    requires Recalls(ever, jobs) && Rooted(jobs) && Rooted(ever)
    ensures Belongs(ever, j, r) <==> Belongs(jobs, j, r)
    ensures Belongs(jobs, j, r) ==> j in jobs && j in ever
  {
    RecallsRooted(ever, jobs);
    hide Recalls, Rooted, RootOf;
    assert j in ever <==> j in jobs by { SameKeys(ever, jobs); }
  }

  lemma SameKeys(ever: map<JobId, Job>, jobs: map<JobId, Job>)
    requires Recalls(ever, jobs)
    ensures ever.Keys == jobs.Keys
  {}

  lemma BothObserve(a: Input, b: Input)
    requires SameKind(a, b) && b.Observe?
    ensures a.Observe?
  {}

  lemma SameBudgets(ever: map<JobId, Job>, was: map<JobId, Job>, after: map<JobId, Job>, jobs: map<JobId, Job>,
                    r: JobId)
    requires Recalls(ever, was) && Recalls(after, jobs) && r in was && r in jobs && was[r].budget == jobs[r].budget
    requires BudgetsPositive(was)
    ensures BudgetsPositive(ever) && ever[r].budget == after[r].budget
  {
    forall j | j in ever ensures FieldsInRange(ever[j].budget) { assert FieldsInRange(was[j].budget); }
  }

  // ---- whole runs ----------------------------------------------------------------------------------

  /** The clock does not go back. */
  predicate ClockAscends(events: seq<Event>) {
    forall i, k | 0 <= i < k < |events| :: events[i].now <= events[k].now
  }

  function Clock(events: seq<Event>, i: nat): Time
    requires i <= |events|
  {
    if i == 0 then (if events == [] then 0 else events[0].now) else events[i - 1].now
  }

  /** What is kept about a lineage: what it ever reported fits, and any result is gone only past the deadline. */
  ghost predicate Reckoned(ever: map<JobId, Job>, s: Tables, clock: Time, r: JobId) {
    && Rooted(s.jobs) && Recalls(ever, s.jobs) && Rooted(ever) && AllInTime(s.jobs) && Dated(s, clock)
    && GoneLate(ever, s, r, clock) && (r in s.jobs ==> WithinBudget(ever, r))
  }

  lemma StepReckons(s: Tables, cfg: Settings, op: Op, now: Time, t: Tables, ever: map<JobId, Job>, r: JobId,
                    clock: Time)
    requires Inv(s, cfg) && cfg.ttl > 0 && Steps(s, cfg, op, now, t) && Inv(t, cfg) && BudgetsPositive(s.jobs)
    requires Reckoned(ever, s, clock, r) && clock <= now
    requires r in t.jobs ==> t.jobs[r].parent.None? && t.jobs[r].input.Observe?
    ensures Reckoned(Remember(ever, t.jobs), t, now, r)
  {
    var after := Remember(ever, t.jobs);
    ReckonedParts(ever, s, clock, r);
    hide *;
    InvRooted(t, cfg);
    StepKeeps(s, cfg, op, now, t);
    StepDates(s, cfg, op, now, t, clock);
    StepInTime(s, cfg, op, now, t);
    StepRecalls(s, cfg, t, ever);
    RecallsRooted(after, t.jobs);
    if r in t.jobs {
      StepGoneLate(s, cfg, op, now, t, ever, r, clock);
      if Fresh(ever, s, op, now, r) {
        FreshStep(s, cfg, op, now, t, ever, r);
      } else {
        LateStep(s, cfg, op, now, t, ever, r, clock);
      }
    } else {
      NoLineage(after, t, r, now);
    }
    ReckonedFrom(after, t, now, r);
  }

  lemma ReckonedParts(ever: map<JobId, Job>, s: Tables, clock: Time, r: JobId)
    requires Reckoned(ever, s, clock, r)
    ensures Rooted(s.jobs) && Recalls(ever, s.jobs) && Rooted(ever) && AllInTime(s.jobs) && Dated(s, clock)
    ensures GoneLate(ever, s, r, clock) && (r in s.jobs ==> r in ever && WithinBudget(ever, r))
  {}

  lemma ReckonedFrom(ever: map<JobId, Job>, s: Tables, clock: Time, r: JobId)
    requires Rooted(s.jobs) && Recalls(ever, s.jobs) && Rooted(ever) && AllInTime(s.jobs) && Dated(s, clock)
    requires GoneLate(ever, s, r, clock) && (r in ever ==> WithinBudget(ever, r))
    ensures Reckoned(ever, s, clock, r)
  {}

  lemma NoLineage(ever: map<JobId, Job>, s: Tables, r: JobId, clock: Time)
    requires Rooted(s.jobs) && Recalls(ever, s.jobs) && r !in s.jobs
    ensures GoneLate(ever, s, r, clock) && r !in ever
  {
    forall j | Belongs(s.jobs, j, r) ensures false { RootStored(s.jobs, j); }
  }

  lemma {:induction false} RunReckons(cfg: Settings, states: seq<Tables>, events: seq<Event>, i: nat, n: nat, r: JobId)
    requires IsRun(cfg, states, events) && ClockAscends(events) && i <= n < |states|
    requires r in states[n].jobs && states[n].jobs[r].parent.None? && states[n].jobs[r].input.Observe?
    ensures |states| == |events| + 1
    ensures Reckoned(Ever(states, i), states[i], Clock(events, i), r)
  {
    hide *;
    RunSizes(cfg, states, events);
    if i == 0 {
      EmptyReckons(states[0], Clock(events, 0), r);
      EverFirst(states);
    } else {
      RunReckons(cfg, states, events, i - 1, n, r);
      RunStep(cfg, states, events, i);
      if r in states[i].jobs { SameThroughout(cfg, states, events, i, n, r); }
      ClockStep(events, i);
      EverStep(states, i);
      StepReckons(states[i - 1], cfg, events[i - 1].op, events[i - 1].now, states[i], Ever(states, i - 1), r,
                  Clock(events, i - 1));
    }
  }

  lemma RunSizes(cfg: Settings, states: seq<Tables>, events: seq<Event>)
    requires IsRun(cfg, states, events)
    ensures |states| == |events| + 1 && states[0] == EMPTY
  {}

  lemma EverFirst(states: seq<Tables>)
    requires states != []
    ensures Ever(states, 0) == states[0].jobs
  {}

  lemma EverStep(states: seq<Tables>, i: nat)
    requires 0 < i < |states|
    ensures Ever(states, i) == Remember(Ever(states, i - 1), states[i].jobs)
  {}

  lemma ClockStep(events: seq<Event>, i: nat)
    requires ClockAscends(events) && 0 < i <= |events|
    ensures Clock(events, i - 1) <= events[i - 1].now == Clock(events, i)
  {}

  lemma EmptyReckons(s: Tables, clock: Time, r: JobId)
    requires s == EMPTY
    ensures Reckoned(s.jobs, s, clock, r)
  {}

  /** What a step of a run starts from and leads to. */
  lemma RunStep(cfg: Settings, states: seq<Tables>, events: seq<Event>, i: nat)
    requires IsRun(cfg, states, events) && 0 < i < |states|
    ensures cfg.ttl > 0 && |states| == |events| + 1
    ensures Inv(states[i - 1], cfg) && Inv(states[i], cfg) && BudgetsPositive(states[i - 1].jobs)
    ensures Steps(states[i - 1], cfg, events[i - 1].op, events[i - 1].now, states[i])
  {
    hide *;
    RunStepTaken(cfg, states, events, i);
    RunKeeps(cfg, states, events, i - 1);
    RunKeeps(cfg, states, events, i);
    RunTerms(cfg, states, events, i - 1);
  }

  lemma RunStepTaken(cfg: Settings, states: seq<Tables>, events: seq<Event>, i: nat)
    requires IsRun(cfg, states, events) && 0 < i < |states|
    ensures cfg.ttl > 0 && |states| == |events| + 1
    ensures Steps(states[i - 1], cfg, events[i - 1].op, events[i - 1].now, states[i])
  {
    hide StepAt;
    assert StepAt(cfg, states, events, i - 1);
    StepTaken(cfg, states, events, i - 1);
    hide Steps;
  }

  lemma SameThroughout(cfg: Settings, states: seq<Tables>, events: seq<Event>, i: nat, n: nat, r: JobId)
    requires IsRun(cfg, states, events) && i <= n < |states| && r in states[n].jobs && r in states[i].jobs
    ensures states[i].jobs[r].parent == states[n].jobs[r].parent
    ensures states[i].jobs[r].input == states[n].jobs[r].input
  {
    RunAdvances(cfg, states, events, i, n);
    hide IsRun;
  }

  /** While the clock does not go back, what the stored jobs of an observing lineage have ever reported, or may still
      report, stays within the root's budget for good: by the time retention drops a result of the lineage, the root's
      deadline has passed and nothing is handed out any more. */
  lemma RetentionFreesNothing(cfg: Settings, states: seq<Tables>, events: seq<Event>, i: nat, r: JobId)
    requires IsRun(cfg, states, events) && ClockAscends(events) && i < |states|
    requires r in states[i].jobs && states[i].jobs[r].parent.None? && states[i].jobs[r].input.Observe?
    ensures Rooted(Ever(states, i)) && r in Ever(states, i) && WithinBudget(Ever(states, i), r)
    ensures Ever(states, i)[r].budget == states[i].jobs[r].budget
  {
    RunReckons(cfg, states, events, i, i, r);
    hide *;
    ReckonedParts(Ever(states, i), states[i], Clock(events, i), r);
    RecalledTerms(Ever(states, i), states[i].jobs, r);
  }

  lemma RecalledTerms(ever: map<JobId, Job>, jobs: map<JobId, Job>, r: JobId)
    requires Recalls(ever, jobs) && r in jobs
    ensures r in ever && ever[r].budget == jobs[r].budget
  {}

  /** `Ever` forgets nothing: a result a job has had is the one it is remembered by as long as the job is stored. */
  lemma {:induction false} ReportedForGood(cfg: Settings, states: seq<Tables>, events: seq<Event>, k: nat, i: nat,
                                           j: JobId)
    requires IsRun(cfg, states, events) && k <= i < |states|
    requires j in states[k].jobs && states[k].jobs[j].result.Some? && j in states[i].jobs
    ensures j in Ever(states, i) && Ever(states, i)[j].result == states[k].jobs[j].result
    decreases i - k
  {
    if k < i {
      StaysStored(cfg, states, events, k, i, j);
      ReportedForGood(cfg, states, events, k, i - 1, j);
      RunKeeps(cfg, states, events, k);
      ReportedEnded(states[k], cfg, j);
      RunAdvances(cfg, states, events, k, i);
      hide IsRun;
    } else if k > 0 {
      assert Ever(states, k) == Remember(Ever(states, k - 1), states[k].jobs);
    }
  }

  lemma StaysStored(cfg: Settings, states: seq<Tables>, events: seq<Event>, k: nat, i: nat, j: JobId)
    requires IsRun(cfg, states, events) && k < i < |states| && j in states[k].jobs && j in states[i].jobs
    ensures j in states[i - 1].jobs
  {
    RunKeeps(cfg, states, events, k);
    StoredIssued(states[k], cfg);
    RunAdvances(cfg, states, events, k, i - 1);
    RunAdvances(cfg, states, events, i - 1, i);
    hide IsRun, Inv;
  }
}
