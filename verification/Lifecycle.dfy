/** What any run of the job manager keeps about the life of a job. */
module Lifecycle {
  import opened Options
  import opened Activity
  import opened Store
  import opened Operations
  import opened Runs

  datatype Event = Event(op: Op, now: Time)

  ghost predicate StepAt(cfg: Settings, states: seq<Tables>, events: seq<Event>, i: nat)
    requires |states| == |events| + 1 && i < |events|
  {
    Steps(states[i], cfg, events[i].op, events[i].now, states[i + 1])
  }

  /** A run from the empty tables. */
  ghost predicate IsRun(cfg: Settings, states: seq<Tables>, events: seq<Event>) {
    && cfg.ttl > 0 && cfg.offline > 0
    && |states| == |events| + 1 && states[0] == EMPTY
    && forall i | 0 <= i < |events| :: StepAt(cfg, states, events, i)
  }

  lemma StepKeeps(s: Tables, cfg: Settings, op: Op, now: Time, t: Tables)
    requires Inv(s, cfg) && cfg.ttl > 0 && Steps(s, cfg, op, now, t)
    ensures Inv(t, cfg) && Moves(s, t)
  {
    hide Inv, Moves, Rooted;
    hide Register, Submit, Claim, Renew, Cancel, Finalize, Retry, AddArtifact, Delete, Expire, Sweep;
    match op
    case DoRegister(w, capabilities, contract, concurrency) =>
      RegisterKeeps(s, cfg, w, capabilities, contract, concurrency, now);
    case DoSubmit(q, id) => SubmitKeeps(s, cfg, q, id, now);
    case DoClaim(w, a, token) => ClaimKeeps(s, cfg, w, a, token, now);
    case DoRenew(j, w, a, token) => RenewKeeps(s, cfg, j, w, a, token, now);
    case DoCancel(j) => CancelKeeps(s, cfg, j);
    case DoFinalize(j, w, token, p) => FinalizeKeeps(s, cfg, j, w, token, p, now);
    case DoRetry(j, key, id) => RetryKeeps(s, cfg, j, key, id, now);
    case DoUpload(j, w, a, token, ref, data) => UploadKeeps(s, cfg, j, w, a, token, ref, data, now);
    case DoDelete(j) => DeleteKeeps(s, cfg, j);
    case DoExpire => ExpireKeeps(s, cfg, now);
    case DoSweep => SweepKeeps(s, cfg, now);
  }

  lemma {:induction false} RunKeeps(cfg: Settings, states: seq<Tables>, events: seq<Event>, i: nat)
    requires IsRun(cfg, states, events) && i < |states|
    ensures Inv(states[i], cfg)
  {
    hide StepAt;
    if i == 0 {
    } else {
      RunKeeps(cfg, states, events, i - 1);
      hide Inv;
      assert StepAt(cfg, states, events, i - 1);
      StepTaken(cfg, states, events, i - 1);
      StepKeeps(states[i - 1], cfg, events[i - 1].op, events[i - 1].now, states[i]);
    }
  }

  lemma StepTaken(cfg: Settings, states: seq<Tables>, events: seq<Event>, i: nat)
    requires |states| == |events| + 1 && i < |events| && StepAt(cfg, states, events, i)
    ensures Steps(states[i], cfg, events[i].op, events[i].now, states[i + 1])
  {}

  // ---- the terms jobs were submitted on -------------------------------------------------------------

  predicate BudgetsPositive(jobs: map<JobId, Job>) {
    forall j | j in jobs :: FieldsInRange(jobs[j].budget)
  }

  predicate InputsValid(jobs: map<JobId, Job>) {
    forall j | j in jobs :: ValidInput(jobs[j].input)
  }

  /** Whatever is stored was parsed when it was submitted, a retry like any other submission. */
  lemma StepTerms(s: Tables, cfg: Settings, op: Op, now: Time, t: Tables)
    requires Inv(s, cfg) && cfg.ttl > 0 && Steps(s, cfg, op, now, t) && BudgetsPositive(s.jobs)
    ensures BudgetsPositive(t.jobs) && (InputsValid(s.jobs) ==> InputsValid(t.jobs))
  {
    StepKeeps(s, cfg, op, now, t);
    hide Inv, FieldsInRange, ValidInput, ValidSubmission, Rooted;
    hide Register, Submit, Claim, Renew, Cancel, Finalize, Retry, AddArtifact, Delete, Expire, Sweep;
    forall j | j in t.jobs
      ensures FieldsInRange(t.jobs[j].budget) && (InputsValid(s.jobs) ==> ValidInput(t.jobs[j].input))
    {
      if j in s.jobs {
        MovedTerms(s, t, j);
      } else {
        match op
        case DoSubmit(q, id) =>
          SubmissionParsed(q);
          SubmittedTerms(s, q, id, now, j);
        case DoRetry(i, key, id) => RetriedTerms(s, i, key, id, now, j);
        case _ => NoNewJob(s, cfg, op, now, t, j);
      }
    }
  }

  lemma SubmissionParsed(q: Submission)
    requires ValidSubmission(q)
    ensures FieldsInRange(q.budget) && ValidInput(q.input)
  {}

  lemma MovedTerms(s: Tables, t: Tables, j: JobId)
    requires Moves(s, t) && j in s.jobs && j in t.jobs
    ensures t.jobs[j].budget == s.jobs[j].budget && t.jobs[j].input == s.jobs[j].input
  {}

  lemma SubmittedTerms(s: Tables, q: Submission, id: JobId, now: Time, j: JobId)
    requires Rooted(s.jobs) && j !in s.jobs && j in Submit(s, q, id, now).after.jobs
    ensures Submit(s, q, id, now).after.jobs[j].budget == q.budget
    ensures Submit(s, q, id, now).after.jobs[j].input == q.input
  {
    hide ParentRefusal, Owns;
  }

  lemma RetriedTerms(s: Tables, i: JobId, key: string, id: JobId, now: Time, j: JobId)
    requires Rooted(s.jobs) && j !in s.jobs && j in Retry(s, i, key, id, now).after.jobs
    ensures var job := Retry(s, i, key, id, now).after.jobs[j]; FieldsInRange(job.budget) && ValidInput(job.input)
  {
    hide Submit, Resubmission, RetryRefusal, FieldsInRange, ValidInput;
    if RetryRefusal(s, i, key, now).None? {
      RetryParsed(s, i, key, now);
      SubmittedTerms(s, Resubmission(s, i, key, now), id, now, j);
    }
  }

  lemma RetryParsed(s: Tables, j: JobId, key: string, now: Time)
    requires RetryRefusal(s, j, key, now).None?
    ensures j in s.jobs
    ensures var q := Resubmission(s, j, key, now); FieldsInRange(q.budget) && ValidInput(q.input)
  {}

  lemma NoNewJob(s: Tables, cfg: Settings, op: Op, now: Time, t: Tables, j: JobId)
    requires Inv(s, cfg) && Steps(s, cfg, op, now, t) && !op.DoSubmit? && !op.DoRetry?
    ensures j in t.jobs ==> j in s.jobs
  {
    hide Inv, Verdict, CanClaim, Outdated, Swept, Parsed;
    hide Submit, Retry, AddArtifact, Rooted;
    if op.DoUpload? { UploadRows(s, cfg, op.j, op.w, op.a, op.token, op.ref, op.data, now); }
  }

  /** In every state of every run, each stored job's budget is in range and its input is valid. */
  lemma {:induction false} RunTerms(cfg: Settings, states: seq<Tables>, events: seq<Event>, i: nat)
    requires IsRun(cfg, states, events) && i < |states|
    ensures BudgetsPositive(states[i].jobs) && InputsValid(states[i].jobs)
  {
    if i > 0 {
      RunTerms(cfg, states, events, i - 1);
      RunKeeps(cfg, states, events, i - 1);
      hide Inv, StepAt, BudgetsPositive, InputsValid;
      assert StepAt(cfg, states, events, i - 1);
      StepTaken(cfg, states, events, i - 1);
      StepTerms(states[i - 1], cfg, events[i - 1].op, events[i - 1].now, states[i]);
    }
  }

  // ---- over a stretch of a run ------------------------------------------------------------------------

  /** Between two states of a run: stored jobs move as they may, and deleted ones do not come back. */
  predicate Later(s: Tables, t: Tables) {
    && (forall j | j in s.jobs && j in t.jobs :: Evolves(s.jobs[j], t.jobs[j]))
    && s.issued <= t.issued
    && (forall j | j in t.jobs && j !in s.jobs :: j !in s.issued)
  }

  lemma LaterOn(s: Tables, m: Tables, t: Tables)
    requires Later(s, m) && Later(m, t) && s.jobs.Keys <= s.issued
    ensures Later(s, t)
  {
    hide Evolves;
    forall j | j in s.jobs && j in t.jobs ensures Evolves(s.jobs[j], t.jobs[j]) {
      EvolvesOn(s.jobs[j], m.jobs[j], t.jobs[j]);
    }
  }

  /** Over any stretch of a run, terminal states are absorbing, a job asked to stop only becomes cancelled, a claimed
      job keeps its one attempt and worker, and no job is queued again. */
  lemma {:induction false} RunAdvances(cfg: Settings, states: seq<Tables>, events: seq<Event>, i: nat, k: nat)
    requires IsRun(cfg, states, events) && i <= k < |states|
    ensures Later(states[i], states[k])
    decreases k - i
  {
    hide StepAt, Inv, Evolves, Moves;
    if i == k {
      SameLater(states[i]);
    } else {
      RunAdvances(cfg, states, events, i, k - 1);
      RunKeeps(cfg, states, events, i);
      RunKeeps(cfg, states, events, k - 1);
      assert StepAt(cfg, states, events, k - 1);
      StepTaken(cfg, states, events, k - 1);
      StepKeeps(states[k - 1], cfg, events[k - 1].op, events[k - 1].now, states[k]);
      MovesLater(states[k - 1], states[k]);
      StoredIssued(states[i], cfg);
      LaterOn(states[i], states[k - 1], states[k]);
    }
  }

  lemma SameLater(s: Tables)
    ensures Later(s, s)
  {}

  lemma MovesLater(s: Tables, t: Tables)
    requires Moves(s, t)
    ensures Later(s, t)
  {}

  // ---- claims ------------------------------------------------------------------------------------

  /** Event `i` hands out job `j`. */
  ghost predicate HandsOut(cfg: Settings, states: seq<Tables>, events: seq<Event>, i: nat, j: JobId) {
    && i < |events| && i < |states| && events[i].op.DoClaim?
    && Claim(states[i], cfg, events[i].op.w, events[i].op.a, events[i].op.token, events[i].now).out == Ok(Some(j))
  }

  lemma HandedOut(s: Tables, cfg: Settings, w: WorkerId, a: AttemptId, token: Token, now: Time, j: JobId)
    requires Claim(s, cfg, w, a, token, now).out == Ok(Some(j))
    ensures j in s.jobs && s.jobs[j].state.Queued?
    ensures var t := Claim(s, cfg, w, a, token, now).after;
            j in t.jobs && t.jobs[j].state.Running? && t.jobs[j].worker == Some(w) && t.jobs[j].attempt == Some(a)
  {}

  /** No job is handed out twice, to the same worker or to another. */
  lemma ClaimedOnce(cfg: Settings, states: seq<Tables>, events: seq<Event>, i: nat, k: nat, j: JobId)
    requires IsRun(cfg, states, events)
    requires HandsOut(cfg, states, events, i, j) && HandsOut(cfg, states, events, k, j)
    ensures i == k
  {
    HandedOutFirst(cfg, states, events, i, k, j);
    HandedOutFirst(cfg, states, events, k, i, j);
  }

  lemma HandedOutFirst(cfg: Settings, states: seq<Tables>, events: seq<Event>, i: nat, k: nat, j: JobId)
    requires IsRun(cfg, states, events)
    requires HandsOut(cfg, states, events, i, j) && HandsOut(cfg, states, events, k, j)
    ensures k <= i
  {
    hide Claim, Inv;
    if i < k {
      var c, d := events[i].op, events[k].op;
      HandedOut(states[i], cfg, c.w, c.a, c.token, events[i].now, j);
      HandedOut(states[k], cfg, d.w, d.a, d.token, events[k].now, j);
      assert StepAt(cfg, states, events, i);
      RunAdvances(cfg, states, events, i + 1, k);
    }
  }

  /** A job has at most one attempt, the one it names, and it is its first. */
  lemma OneAttempt(s: Tables, cfg: Settings, a: AttemptId, b: AttemptId)
    requires Inv(s, cfg) && a in s.attempts && b in s.attempts && s.attempts[a].job == s.attempts[b].job
    ensures a == b && s.attempts[a].number == 1
  {
    assert AttemptOk(s, a) && AttemptOk(s, b);
    assert JobOk(s, cfg, s.attempts[a].job);
  }

  // ---- cancellation and results --------------------------------------------------------------------

  /** The only ways to become cancelled: by request while queued, or, once claimed, by the result of the job's own
      worker while it holds the lease of the job's own attempt. */
  lemma OnlyOwnWorkerCancels(s: Tables, cfg: Settings, op: Op, now: Time, t: Tables, j: JobId)
    requires Inv(s, cfg) && cfg.ttl > 0 && Steps(s, cfg, op, now, t)
    requires j in s.jobs && j in t.jobs && !s.jobs[j].state.Cancelled? && t.jobs[j].state.Cancelled?
    ensures || (op == DoCancel(j) && s.jobs[j].state.Queued?)
            || (op.DoFinalize? && op.j == j && s.jobs[j].state.CancelRequested? && op.p.status.CancelledStatus?
                && s.jobs[j].worker == Some(op.w) && OwnResult(s, j, op.w, op.token, op.p, now))
  {
    hide Inv;
    hide Submit, Claim, Cancel, Finalize, Retry, AddArtifact;
    InvAt(s, cfg, j);
    StoredIssued(s, cfg);
    match op
    case DoSubmit(q, id) => SubmitOthers(s, q, id, now, j);
    case DoClaim(w, a, token) => ClaimNotCancels(s, cfg, w, a, token, now, j);
    case DoCancel(i) => CancelOthers(s, i, j);
    case DoFinalize(i, w, token, p) => FinalizeCancels(s, cfg, i, w, token, p, now, j);
    case DoRetry(i, key, id) => RetryOthers(s, i, key, id, now, j);
    case DoUpload(i, w, a, token, ref, data) => UploadRows(s, cfg, i, w, a, token, ref, data, now);
    case _ =>
  }

  /** The result names the job's own attempt, and the caller holds that attempt's unexpired lease. */
  predicate OwnResult(s: Tables, j: JobId, w: WorkerId, token: Token, p: Pack, now: Time)
    requires j in s.jobs
  {
    && s.jobs[j].attempt == Some(p.attempt) && p.job == j
    && Holds(s, j, p.attempt, w, token) && s.attempts[p.attempt].finalized.None? && now <= s.attempts[p.attempt].lease
  }

  lemma SubmitOthers(s: Tables, q: Submission, id: JobId, now: Time, j: JobId)
    requires Rooted(s.jobs) && j in s.jobs && id !in s.jobs
    ensures var t := Submit(s, q, id, now).after; j in t.jobs && t.jobs[j] == s.jobs[j]
  {
    hide ParentRefusal, Owns;
  }

  lemma RetryOthers(s: Tables, i: JobId, key: string, id: JobId, now: Time, j: JobId)
    requires Rooted(s.jobs) && j in s.jobs && id !in s.jobs
    ensures var t := Retry(s, i, key, id, now).after; j in t.jobs && t.jobs[j] == s.jobs[j]
  {
    hide Submit, Resubmission, RetryRefusal;
    if RetryRefusal(s, i, key, now).None? {
      RetryOk(s, i, key, now);
      SubmitOthers(s, Resubmission(s, i, key, now), id, now, j);
    }
  }

  lemma ClaimNotCancels(s: Tables, cfg: Settings, w: WorkerId, a: AttemptId, token: Token, now: Time, j: JobId)
    requires j in s.jobs
    ensures var t := Claim(s, cfg, w, a, token, now).after;
            j in t.jobs && (t.jobs[j] == s.jobs[j] || t.jobs[j].state.Running?)
  {}

  lemma CancelOthers(s: Tables, i: JobId, j: JobId)
    requires j in s.jobs
    ensures var t := Cancel(s, i).after;
            && j in t.jobs && (t.jobs[j].state.Cancelled? && !s.jobs[j].state.Cancelled? ==>
                                 i == j && s.jobs[j].state.Queued?)
  {}

  lemma FinalizeCancels(s: Tables, cfg: Settings, i: JobId, w: WorkerId, token: Token, p: Pack, now: Time, j: JobId)
    requires j in s.jobs && JobOk(s, cfg, j) && Parsed(p)
    ensures var t := Finalize(s, i, w, token, p, now).after;
            && j in t.jobs
            && (t.jobs[j] != s.jobs[j] ==>
                  && i == j && OwnResult(s, j, w, token, p, now) && s.jobs[j].worker == Some(w)
                  && t.jobs[j].result == Some(p) && Outcome(s.jobs[j].state, p.status) == Ok(t.jobs[j].state))
  {
    hide Check, WellFormed, ManifestRefusal, ObservationRefusal;
  }

  /** A job without a result gets one only from its own worker, before its lease ends, and a lease ends before the
      deadline plus the lease time. */
  lemma AcceptedInTime(s: Tables, cfg: Settings, op: Op, now: Time, t: Tables, j: JobId)
    requires Inv(s, cfg) && cfg.ttl > 0 && Steps(s, cfg, op, now, t)
    requires j in s.jobs && j in t.jobs && s.jobs[j].result.None? && t.jobs[j].result.Some?
    ensures op.DoFinalize? && op.j == j && t.jobs[j].result == Some(op.p)
    ensures OwnResult(s, j, op.w, op.token, op.p, now) && s.jobs[j].worker == Some(op.w)
    ensures now < s.jobs[j].deadline + cfg.ttl
  {
    hide Inv;
    hide Submit, Claim, Cancel, Finalize, Retry, AddArtifact;
    InvAt(s, cfg, j);
    StoredIssued(s, cfg);
    match op
    case DoSubmit(q, id) => SubmitOthers(s, q, id, now, j);
    case DoClaim(w, a, token) => ClaimNoResult(s, cfg, w, a, token, now, j);
    case DoCancel(i) => CancelNoResult(s, i, j);
    case DoFinalize(i, w, token, p) => FinalizeCancels(s, cfg, i, w, token, p, now, j);
    case DoRetry(i, key, id) => RetryOthers(s, i, key, id, now, j);
    case DoUpload(i, w, a, token, ref, data) => UploadRows(s, cfg, i, w, a, token, ref, data, now);
    case _ =>
  }

  /** The figures of an observation account for every message, and it fetched within its budget and did nothing else. */
  ghost predicate Accounted(p: Pack, b: Limits) {
    && p.payload.ObservePayload? && WellFormed(p.payload.report)
    && var r := p.payload.report;
       && Activity.Reported(r, 30).messages == |r.messages| == Total(r.coverage.each, OfCoverage)
       && Balanced(Activity.Reported(r, 7)) && Balanced(Activity.Reported(r, 30))
       && Within(Activity.Reported(r, 7), Activity.Reported(r, 30))
       && |Activity.Reported(r, 30).daily| <= 31
       && p.usage.search == 0 && p.usage.model == 0 && p.usage.fetch <= b.fetch
  }

  /** An observation that the manager stores has passed the check, so it is accounted for. */
  lemma StoredObservationBalances(s: Tables, j: JobId, w: WorkerId, token: Token, p: Pack, now: Time)
    requires Parsed(p) && Finalize(s, j, w, token, p, now).after != s
    requires j in s.jobs && s.jobs[j].input.Observe? && ValidInput(s.jobs[j].input)
    ensures Accounted(p, s.jobs[j].budget)
  {
    ObservationPassed(s, j, w, token, p, now);
    assert Unique(s.jobs[j].input.scope.channels);
    hide *;
    var job := s.jobs[j];
    PassedUsage(p, job, now);
    AcceptedConserves(p.payload.report, job.input.scope, job.created, now, p.status.Succeeded?, p.usage.fetch,
                      p.usage.search != 0 || p.usage.model != 0, p.usage.documentBytes, job.budget.fetch);
    AccountedFrom(p, job.budget);
  }

  lemma AccountedFrom(p: Pack, b: Limits)
    requires p.payload.ObservePayload? && WellFormed(p.payload.report)
    requires var r := p.payload.report;
             && Activity.Reported(r, 30).messages == |r.messages| == Total(r.coverage.each, OfCoverage)
             && Balanced(Activity.Reported(r, 7)) && Balanced(Activity.Reported(r, 30))
             && Within(Activity.Reported(r, 7), Activity.Reported(r, 30))
             && |Activity.Reported(r, 30).daily| <= 31
    requires p.usage.search == 0 && p.usage.model == 0 && p.usage.fetch <= b.fetch
    ensures Accounted(p, b)
  {}

  ghost predicate KeptAccounted(job: Job) {
    job.input.Observe? && job.result.Some? ==> Accounted(job.result.value, job.budget)
  }

  lemma StepAccounts(s: Tables, cfg: Settings, op: Op, now: Time, t: Tables, j: JobId)
    requires Inv(s, cfg) && cfg.ttl > 0 && Steps(s, cfg, op, now, t) && InputsValid(s.jobs) && j in t.jobs
    requires j in s.jobs ==> KeptAccounted(s.jobs[j])
    ensures KeptAccounted(t.jobs[j])
  {
    StepKeeps(s, cfg, op, now, t);
    hide Inv, Accounted, ValidInput, Rooted, Finalize, OwnResult, Allowed, Parsed;
    if j !in s.jobs {
      NewUnreported(s, cfg, t, j);
    } else if s.jobs[j].result.Some? {
      ReportedStays(s, cfg, t, j);
    } else if t.jobs[j].result.Some? {
      AcceptedInTime(s, cfg, op, now, t, j);
      MovedTerms(s, t, j);
      ResultParsed(s, op);
      if t.jobs[j].input.Observe? { StoredObservationBalances(s, j, op.w, op.token, op.p, now); }
    }
  }

  lemma ResultParsed(s: Tables, op: Op)
    requires Allowed(s, op) && op.DoFinalize?
    ensures Parsed(op.p)
  {}

  lemma NewUnreported(s: Tables, cfg: Settings, t: Tables, j: JobId)
    requires Inv(t, cfg) && Moves(s, t) && j in t.jobs && j !in s.jobs
    ensures t.jobs[j].result.None?
  {
    QueuedUnclaimed(t, cfg, j);
  }

  lemma ReportedEnded(s: Tables, cfg: Settings, j: JobId)
    requires Inv(s, cfg) && j in s.jobs && s.jobs[j].result.Some?
    ensures Terminal(s.jobs[j].state)
  {
    InvAt(s, cfg, j);
    hide Inv;
  }

  lemma ReportedStays(s: Tables, cfg: Settings, t: Tables, j: JobId)
    requires Inv(s, cfg) && Moves(s, t) && j in s.jobs && j in t.jobs && s.jobs[j].result.Some?
    ensures t.jobs[j].input == s.jobs[j].input && t.jobs[j].budget == s.jobs[j].budget
    ensures t.jobs[j].result == s.jobs[j].result || t.jobs[j].result.None?
  {
    InvAt(s, cfg, j);
    hide Inv;
  }

  /** In every state of every run, every observation result that is kept is accounted for. */
  lemma {:induction false} KeptObservationsBalance(cfg: Settings, states: seq<Tables>, events: seq<Event>, i: nat,
                                                   j: JobId)
    requires IsRun(cfg, states, events) && i < |states| && j in states[i].jobs
    ensures KeptAccounted(states[i].jobs[j])
  {
    if i > 0 {
      RunTerms(cfg, states, events, i - 1);
      RunKeeps(cfg, states, events, i - 1);
      if j in states[i - 1].jobs { KeptObservationsBalance(cfg, states, events, i - 1, j); }
      hide Inv, StepAt, BudgetsPositive, InputsValid, KeptAccounted;
      assert StepAt(cfg, states, events, i - 1);
      StepTaken(cfg, states, events, i - 1);
      StepAccounts(states[i - 1], cfg, events[i - 1].op, events[i - 1].now, states[i], j);
    }
  }

  predicate Passed(p: Pack, job: Job, now: Time) {
    && p.payload.ObservePayload? && WellFormed(p.payload.report) && job.input.Observe?
    && Check(p.payload.report, job.input.scope, job.created, now, p.status.Succeeded?, p.usage.fetch,
             p.usage.search != 0 || p.usage.model != 0, p.usage.documentBytes, job.budget.fetch) == None
  }

  lemma ObservationPassed(s: Tables, j: JobId, w: WorkerId, token: Token, p: Pack, now: Time)
    requires Parsed(p) && Finalize(s, j, w, token, p, now).after != s && j in s.jobs && s.jobs[j].input.Observe?
    ensures Passed(p, s.jobs[j], now)
    ensures WellFormed(p.payload.report)
    ensures Check(p.payload.report, s.jobs[j].input.scope, s.jobs[j].created, now, p.status.Succeeded?, p.usage.fetch,
                  p.usage.search != 0 || p.usage.model != 0, p.usage.documentBytes, s.jobs[j].budget.fetch) == None
  {
    hide Check, WellFormed, ManifestRefusal, Outcome, Settle;
  }

  lemma PassedUsage(p: Pack, job: Job, now: Time)
    requires Passed(p, job, now)
    ensures p.usage.search == 0 && p.usage.model == 0 && p.usage.fetch <= job.budget.fetch
  {
    hide SameSummary, Summarize, WellFormed;
  }

  lemma ClaimNoResult(s: Tables, cfg: Settings, w: WorkerId, a: AttemptId, token: Token, now: Time, j: JobId)
    requires j in s.jobs
    ensures Claim(s, cfg, w, a, token, now).after.jobs[j].result == s.jobs[j].result
  {}

  lemma CancelNoResult(s: Tables, i: JobId, j: JobId)
    requires j in s.jobs
    ensures Cancel(s, i).after.jobs[j].result == s.jobs[j].result
  {}

  // ---- the sweep -----------------------------------------------------------------------------------

  predicate Over(job: Job) { Terminal(job.state) || job.state.CancelRequested? }

  lemma SweepSettles(s: Tables, cfg: Settings, now: Time, j: JobId)
    requires Inv(s, cfg) && cfg.ttl > 0 && j in s.jobs && s.jobs[j].deadline + cfg.ttl <= now
    ensures j in Sweep(s, cfg, now).jobs && Over(Sweep(s, cfg, now).jobs[j])
  {
    hide Outdated;
    assert JobOk(s, cfg, j);
  }

  /** From the first sweep at or past the deadline plus the lease time on, a stored job is terminal, or waits for its
      worker to confirm a cancellation. */
  lemma SettledForGood(cfg: Settings, states: seq<Tables>, events: seq<Event>, i: nat, k: nat, j: JobId)
    requires IsRun(cfg, states, events) && i < k < |states|
    requires events[i].op.DoSweep? && j in states[i].jobs && j in states[k].jobs
    requires states[i].jobs[j].deadline + cfg.ttl <= events[i].now
    ensures Over(states[k].jobs[j])
  {
    hide Inv, Sweep;
    assert StepAt(cfg, states, events, i);
    RunKeeps(cfg, states, events, i);
    SweepSettles(states[i], cfg, events[i].now, j);
    RunAdvances(cfg, states, events, i + 1, k);
  }
}
