/** What each call of the job manager answers and leaves behind, told in the fields of its tables. */
module Answers {
  import opened Options
  import opened Activity
  import opened Sums
  import opened Store
  import opened Operations
  import opened Runs
  import opened Lifecycle
  import opened Lineage
  import opened Scheduler

  // ---- results ---------------------------------------------------------------------------------------

  /** The caller holds the lease of the job's own attempt. */
  predicate Leased(s: Tables, j: JobId, w: WorkerId, token: Token) {
    && j in s.jobs && s.jobs[j].attempt.Some? && s.jobs[j].attempt.value in s.attempts
    && var at := s.attempts[s.jobs[j].attempt.value]; at.job == j && at.worker == w && at.token == token
  }

  /** It does, nothing has been accepted under it, and it has not run out. */
  predicate Live(s: Tables, j: JobId, w: WorkerId, token: Token, now: Time) {
    Leased(s, j, w, token)
    && var at := s.attempts[s.jobs[j].attempt.value]; at.finalized.None? && now <= at.lease
  }

  /** A stored row of the attempt is exactly the manifest entry. */
  predicate RowMatches(s: Tables, j: JobId, a: AttemptId, ref: Ref) {
    ref.id in s.artifacts && s.artifacts[ref.id].job == j && s.artifacts[ref.id].attempt == a
    && s.artifacts[ref.id].ref == ref
  }

  /** The first entry that has no matching row. */
  ghost predicate FirstBad(s: Tables, j: JobId, a: AttemptId, refs: seq<Ref>, i: nat) {
    i < |refs| && !RowMatches(s, j, a, refs[i]) && forall k | 0 <= k < i :: RowMatches(s, j, a, refs[k])
  }

  lemma {:induction false} ManifestExactly(s: Tables, j: JobId, a: AttemptId, refs: seq<Ref>)
    ensures ManifestRefusal(s, j, a, refs).None? <==> forall ref | ref in refs :: RowMatches(s, j, a, ref)
    ensures forall i: nat | FirstBad(s, j, a, refs, i) ::
              ManifestRefusal(s, j, a, refs)
              == Some(if refs[i].id in s.artifacts && s.artifacts[refs[i].id].job == j
                         && s.artifacts[refs[i].id].attempt == a
                      then ArtifactMismatch else ArtifactMissing)
  {
    if refs != [] {
      ManifestExactly(s, j, a, refs[1..]);
      assert refs == [refs[0]] + refs[1..];
      assert refs[0] in refs && forall ref :: ref in refs <==> ref == refs[0] || ref in refs[1..];
      forall i: nat | FirstBad(s, j, a, refs, i) && i > 0
        ensures RowMatches(s, j, a, refs[0]) && FirstBad(s, j, a, refs[1..], i - 1)
      {
        forall k | 0 <= k < i - 1 ensures RowMatches(s, j, a, refs[1..][k]) { assert RowMatches(s, j, a, refs[k + 1]); }
      }
    }
  }

  /** What a result says of the state it is for. */
  predicate Tells(status: Status, state: State) {
    match status
    case Succeeded => state == Completed
    case PartialStatus => state == PartialResult
    case FailedStatus => state == Failed
    case CancelledStatus => state == Cancelled
  }

  /** What is wrong with a result as an observation. */
  function Fault(job: Job, p: Pack, now: Time): Option<Activity.Refusal>
    requires Parsed(p) && job.input.Observe? && p.payload.ObservePayload?
  {
    Check(p.payload.report, job.input.scope, job.created, now, p.status == Succeeded, p.usage.fetch,
          p.usage.search > 0 || p.usage.model > 0, p.usage.documentBytes, job.budget.fetch)
  }

  /** A result that names its job and attempt, has the mode of the input and is in order as an observation. */
  ghost predicate InOrder(job: Job, j: JobId, p: Pack, now: Time)
    requires Parsed(p)
  {
    && p.job == j && job.attempt == Some(p.attempt)
    && (job.input.Search? <==> p.payload.SearchPayload?) && (job.input.Extract? <==> p.payload.ExtractPayload?)
    && (job.input.Observe? ==>
          p.payload.ObservePayload? && Fault(job, p, now) == None)
  }

  /** Everything that must be right for a result to be accepted. */
  ghost predicate Acceptable(s: Tables, j: JobId, w: WorkerId, token: Token, p: Pack, now: Time)
    requires Parsed(p)
  {
    && Live(s, j, w, token, now) && InOrder(s.jobs[j], j, p, now)
    && (if p.status == CancelledStatus then s.jobs[j].state == CancelRequested else s.jobs[j].state == Running)
    && forall ref | ref in p.manifest :: RowMatches(s, j, p.attempt, ref)
  }

  lemma VerdictExactly(s: Tables, j: JobId, a: AttemptId, p: Pack, now: Time)
    requires j in s.jobs && a in s.attempts && Parsed(p) && s.jobs[j].attempt == Some(a)
    ensures var v := Verdict(s, j, a, p, now);
            var settles := && now <= s.attempts[a].lease && InOrder(s.jobs[j], j, p, now)
                           && (if p.status == CancelledStatus then s.jobs[j].state == CancelRequested
                               else s.jobs[j].state == Running);
            && (v.Ok? <==> settles && forall ref | ref in p.manifest :: RowMatches(s, j, p.attempt, ref))
            && (v.Ok? ==> Tells(p.status, v.value))
  {
    ManifestExactly(s, j, a, p.manifest);
    hide Check, WellFormed, ManifestRefusal, RowMatches;
  }

  /** When a result is accepted, and what it leaves: the state its status tells, the result itself, and nothing else but
      the attempt's end and, for an observation, thirty days to keep it. */
  lemma FinalizeExactly(s: Tables, j: JobId, w: WorkerId, token: Token, p: Pack, now: Time)
    requires Parsed(p)
    ensures var f := Finalize(s, j, w, token, p, now);
            && (f.after != s ==> Acceptable(s, j, w, token, p, now))
            && (f.out.Err? ==> f.after == s)
            && (Acceptable(s, j, w, token, p, now) ==>
                  && f.out.Ok? && Tells(p.status, f.out.value)
                  && j in f.after.jobs && f.after.jobs[j].state == f.out.value && f.after.jobs[j].result == Some(p)
                  && f.after.jobs[j].stop ==
                     (if f.out.value == Cancelled && p.stop == None then Some(CancelledByRequester) else p.stop)
                  && SameTerms(s.jobs[j], f.after.jobs[j]) && f.after.jobs.Keys == s.jobs.Keys
                  && (forall i | i in s.jobs && i != j :: f.after.jobs[i] == s.jobs[i])
                  && p.attempt in f.after.attempts && f.after.attempts[p.attempt].finalized == Some(now)
                  && f.after.attempts - {p.attempt} == s.attempts - {p.attempt}
                  && (s.jobs[j].input.Observe? ==>
                        j in f.after.observations
                        && f.after.observations[j] == p.payload.report.coverage.observedAt + 30 * 86_400 * SECOND)
                  && f.after.artifacts == s.artifacts && f.after.files == s.files)
  {
    if Leased(s, j, w, token) { VerdictExactly(s, j, s.jobs[j].attempt.value, p, now); }
    hide Verdict, Parsed, InOrder, RowMatches;
  }

  /** Every refusal of a result, and the answer to a repeated one. */
  lemma FinalizeRefusals(s: Tables, j: JobId, w: WorkerId, token: Token, p: Pack, now: Time)
    requires Parsed(p)
    ensures var out := Finalize(s, j, w, token, p, now).out;
            var live := Live(s, j, w, token, now);
            var named := live && p.job == j && s.jobs[j].attempt == Some(p.attempt);
            var moded := named && (s.jobs[j].input.Search? <==> p.payload.SearchPayload?)
                         && (s.jobs[j].input.Extract? <==> p.payload.ExtractPayload?);
            var ordered := live && InOrder(s.jobs[j], j, p, now);
            var state := if j in s.jobs then s.jobs[j].state else Queued;
            var again := Leased(s, j, w, token) && s.attempts[s.jobs[j].attempt.value].finalized.Some?;
            && (out == Err(UnknownJob) <==> j !in s.jobs)
            && (out == Err(LeaseConflict) <==> j in s.jobs && !Leased(s, j, w, token))
            && (again ==> out == if s.jobs[j].result == Some(p) then Ok(state) else Err(ResultConflict))
            && (out == Err(ResultConflict) ==> again)
            && (out == Err(LeaseExpired) <==> Leased(s, j, w, token) && !again && !live)
            && (out == Err(AttemptMismatch) <==> live && !named)
            && (out == Err(ModeMismatch) <==> named && !moded)
            && (out == Err(PayloadMismatch) <==> moded && s.jobs[j].input.Observe? && !p.payload.ObservePayload?)
            && (out.Err? && out.error.ObservationRefused? ==> moded && !ordered)
            && (moded && s.jobs[j].input.Observe? && p.payload.ObservePayload? ==>
                  forall why :: out == Err(ObservationRefused(why)) <==> Fault(s.jobs[j], p, now) == Some(why))
            && (out == Err(CancelConflict) <==>
                  ordered && ((state == Running && p.status == CancelledStatus)
                              || (state == CancelRequested && p.status != CancelledStatus)))
            && (out == Err(NotRunnable) <==> ordered && state != Running && state != CancelRequested)
            && (out == Err(ArtifactMissing) || out == Err(ArtifactMismatch) ==>
                  ordered && !forall ref | ref in p.manifest :: RowMatches(s, j, p.attempt, ref))
            && (ordered && state == (if p.status == CancelledStatus then CancelRequested else Running) ==>
                  forall i: nat | FirstBad(s, j, p.attempt, p.manifest, i) ::
                    out == Err(if p.manifest[i].id in s.artifacts && s.artifacts[p.manifest[i].id].job == j
                                  && s.artifacts[p.manifest[i].id].attempt == p.attempt
                               then ArtifactMismatch else ArtifactMissing))
  {
    if Leased(s, j, w, token) { ManifestExactly(s, j, s.jobs[j].attempt.value, p.manifest); }
    ManifestCodes(s, j, p.attempt, p.manifest);
    hide Check, WellFormed, ManifestRefusal, Parsed, RowMatches, Settle, FirstBad;
  }

  lemma {:induction false} ManifestCodes(s: Tables, j: JobId, a: AttemptId, refs: seq<Ref>)
    ensures ManifestRefusal(s, j, a, refs) in {None, Some(ArtifactMissing), Some(ArtifactMismatch)}
  {
    if refs != [] { ManifestCodes(s, j, a, refs[1..]); }
  }

  /** The state of a job with a result is the one the result tells. */
  predicate StateTold(job: Job) { job.result.Some? ==> Tells(job.result.value.status, job.state) }

  lemma StepTells(s: Tables, cfg: Settings, op: Op, now: Time, t: Tables, j: JobId)
    requires Inv(s, cfg) && cfg.ttl > 0 && Steps(s, cfg, op, now, t) && j in t.jobs
    requires j in s.jobs ==> StateTold(s.jobs[j])
    ensures StateTold(t.jobs[j])
  {
    StepKeeps(s, cfg, op, now, t);
    hide Inv, Rooted, Finalize, OwnResult, Allowed, Parsed, Tells;
    if j !in s.jobs {
      NewUnreported(s, cfg, t, j);
    } else if s.jobs[j].result.Some? {
      ReportedStays(s, cfg, t, j);
      ReportedEnded(s, cfg, j);
      assert Evolves(s.jobs[j], t.jobs[j]);
    } else if t.jobs[j].result.Some? {
      AcceptedInTime(s, cfg, op, now, t, j);
      ResultParsed(s, op);
      FinalizeExactly(s, j, op.w, op.token, op.p, now);
    }
  }

  lemma {:induction false} RunTells(cfg: Settings, states: seq<Tables>, events: seq<Event>, i: nat, j: JobId)
    requires IsRun(cfg, states, events) && i < |states| && j in states[i].jobs
    ensures StateTold(states[i].jobs[j])
  {
    if i > 0 {
      RunKeeps(cfg, states, events, i - 1);
      if j in states[i - 1].jobs { RunTells(cfg, states, events, i - 1, j); }
      hide Inv, StepAt, StateTold;
      assert StepAt(cfg, states, events, i - 1);
      StepTaken(cfg, states, events, i - 1);
      StepTells(states[i - 1], cfg, events[i - 1].op, events[i - 1].now, states[i], j);
    }
  }

  /** In every state of every run a job whose result is kept is completed exactly when it succeeded, partial exactly
      when it is partial, failed exactly when it failed, and cancelled exactly when it was cancelled. */
  lemma StateIsResult(cfg: Settings, states: seq<Tables>, events: seq<Event>, i: nat, j: JobId)
    requires IsRun(cfg, states, events) && i < |states| && j in states[i].jobs && states[i].jobs[j].result.Some?
    ensures var job := states[i].jobs[j];
            var status := job.result.value.status;
            && (job.state == Completed <==> status == Succeeded)
            && (job.state == PartialResult <==> status == PartialStatus)
            && (job.state == Failed <==> status == FailedStatus)
            && (job.state == Cancelled <==> status == CancelledStatus)
  {
    RunTells(cfg, states, events, i, j);
  }

  /** A job ends completed, partial or failed only by a result of that status while it runs. */
  lemma EndsByResult(s: Tables, cfg: Settings, op: Op, now: Time, t: Tables, j: JobId)
    requires Inv(s, cfg) && cfg.ttl > 0 && Steps(s, cfg, op, now, t) && j in s.jobs && j in t.jobs
    requires t.jobs[j].state != s.jobs[j].state
    requires t.jobs[j].state == Completed || t.jobs[j].state == PartialResult || t.jobs[j].state == Failed
    ensures op.DoFinalize? && op.j == j && s.jobs[j].state == Running && t.jobs[j].result == Some(op.p)
    ensures op.p.status == match t.jobs[j].state case Completed => Succeeded case Failed => FailedStatus
                                                 case _ => PartialStatus
  {
    StoredIssued(s, cfg);
    hide Inv, Rooted, Parsed, ValidSubmission, Acceptable;
    hide Register, Submit, Claim, Renew, Cancel, Finalize, Retry, AddArtifact, Delete, Expire, Sweep;
    match op
    case DoRegister(w, capabilities, contract, concurrency) =>
      RegisterRows(s, w, capabilities, contract, concurrency, now);
    case DoRenew(i, w, a, token) => RenewRows(s, cfg, i, w, a, token, now);
    case DoDelete(i) => DeleteStarts(s, i, j);
    case DoSubmit(q, id) => SubmitOthers(s, q, id, now, j);
    case DoClaim(w, a, token) => ClaimNotCancels(s, cfg, w, a, token, now, j);
    case DoCancel(i) => CancelEndsNone(s, i, j);
    case DoFinalize(i, w, token, p) => FinalizeEnds(s, i, w, token, p, now, j);
    case DoRetry(i, key, id) => RetryOthers(s, i, key, id, now, j);
    case DoUpload(i, w, a, token, ref, data) => UploadRows(s, cfg, i, w, a, token, ref, data, now);
    case DoExpire => ExpireEndsNone(s, now, j);
    case DoSweep => SweepEndsNone(s, cfg, now, j);
  }

  lemma FinalizeEnds(s: Tables, i: JobId, w: WorkerId, token: Token, p: Pack, now: Time, j: JobId)
    requires Parsed(p) && j in s.jobs && j in Finalize(s, i, w, token, p, now).after.jobs
    requires Finalize(s, i, w, token, p, now).after.jobs[j].state != s.jobs[j].state
    ensures i == j && Acceptable(s, j, w, token, p, now)
    ensures var job := Finalize(s, i, w, token, p, now).after.jobs[j];
            && job.result == Some(p) && Tells(p.status, job.state)
            && (job.state in {Completed, PartialResult, Failed} ==> s.jobs[j].state == Running)
  {
    FinalizeExactly(s, i, w, token, p, now);
    if Acceptable(s, i, w, token, p, now) && p.status != CancelledStatus { AcceptableRuns(s, i, w, token, p, now); }
    hide Finalize, Acceptable, Parsed;
    var t := Finalize(s, i, w, token, p, now).after;
  }

  lemma AcceptableRuns(s: Tables, j: JobId, w: WorkerId, token: Token, p: Pack, now: Time)
    requires Parsed(p) && Acceptable(s, j, w, token, p, now) && p.status != CancelledStatus
    ensures s.jobs[j].state == Running
  {}

  lemma CancelEndsNone(s: Tables, i: JobId, j: JobId)
    requires j in s.jobs
    ensures var t := Cancel(s, i).after;
            j in t.jobs && (t.jobs[j].state == s.jobs[j].state || t.jobs[j].state in {Cancelled, CancelRequested})
  {}

  lemma ExpireEndsNone(s: Tables, now: Time, j: JobId)
    requires j in s.jobs
    ensures j in Expire(s, now).jobs && Expire(s, now).jobs[j].state == s.jobs[j].state
  {
    hide Outdated;
  }

  lemma SweepEndsNone(s: Tables, cfg: Settings, now: Time, j: JobId)
    requires j in s.jobs
    ensures j in Sweep(s, cfg, now).jobs && Sweep(s, cfg, now).jobs[j].state in {s.jobs[j].state, Lost}
  {
    ExpireEndsNone(s, now, j);
    hide Expire;
  }

  // ---- leases and cancellation -------------------------------------------------------------------------

  /** Every answer of a renewal, and the lease it writes. */
  lemma RenewExactly(s: Tables, cfg: Settings, j: JobId, w: WorkerId, a: AttemptId, token: Token, now: Time)
    ensures var r := Renew(s, cfg, j, w, a, token, now);
            var held := && j in s.jobs && a in s.attempts && s.attempts[a].job == j && s.attempts[a].worker == w
                        && s.attempts[a].token == token;
            var active := held && s.attempts[a].finalized == None && s.jobs[j].attempt == Some(a);
            var open := active && s.jobs[j].state in {Queued, Running, CancelRequested};
            && (r.out == Err(UnknownJob) <==> j !in s.jobs)
            && (r.out == Err(LeaseConflict) <==> j in s.jobs && !held)
            && (r.out == Err(AttemptNotActive) <==> held && !active)
            && (r.out == Ok(Ended) <==> active && !open)
            && (r.out == Err(LeaseExpired) <==> open && s.attempts[a].lease < now)
            && (r.out == Ok(DeadlinePassed) <==> open && s.jobs[j].deadline < now <= s.attempts[a].lease)
            && (r.out.Ok? && r.out.value.Renewed? <==> open && now <= s.attempts[a].lease && now <= s.jobs[j].deadline)
            && (if r.out.Ok? && r.out.value.Renewed? then
                  var until := r.out.value.until;
                  && until == (if now + cfg.ttl < s.jobs[j].deadline then now + cfg.ttl else s.jobs[j].deadline)
                  && r.after == s.(attempts := s.attempts[a := s.attempts[a].(lease := until)])
                else r.after == s)
  {}

  /** A queued job is cancelled, a running one asked to stop, any other left as it is. */
  lemma CancelExactly(s: Tables, j: JobId)
    ensures var c := Cancel(s, j);
            && (c.out == Err(UnknownJob) <==> j !in s.jobs)
            && (j in s.jobs ==>
                  && j in c.after.jobs && c.out == Ok(c.after.jobs[j].state) && SameTerms(s.jobs[j], c.after.jobs[j])
                  && c.after.jobs[j].state == (match s.jobs[j].state
                                               case Queued => Cancelled
                                               case Running => CancelRequested
                                               case other => other)
                  && (s.jobs[j].state == Queued ==> c.after.jobs[j].stop == Some(CancelledByRequester))
                  && (s.jobs[j].state != Queued ==> c.after.jobs[j].stop == s.jobs[j].stop))
            && c.after.jobs.Keys == s.jobs.Keys && (forall i | i in s.jobs && i != j :: c.after.jobs[i] == s.jobs[i])
            && c.after == s.(jobs := c.after.jobs)
  {}

  // ---- submission ----------------------------------------------------------------------------------------

  /** A lineage is charged what was reported, and the whole allowance of each job below the root that has not reported
      and was not cancelled. */
  lemma ChargesExactly(jobs: map<JobId, Job>, r: JobId, res: Resource)
    requires Rooted(jobs)
    ensures forall j :: j in Charges(jobs, r, res) <==> Belongs(jobs, j, r)
    ensures forall j | Belongs(jobs, j, r) ::
              var job := jobs[j];
              && (job.result.Some? ==>
                    Charges(jobs, r, res)[j] == match res
                                                case Searches => job.result.value.usage.search
                                                case Fetches => job.result.value.usage.fetch
                                                case Models => job.result.value.usage.model)
              && (job.result.None? && j != r && job.state != Cancelled ==>
                    Charges(jobs, r, res)[j] == match res
                                                case Searches => job.budget.search
                                                case Fetches => job.budget.fetch
                                                case Models => job.budget.model)
              && (job.result.None? && (j == r || job.state == Cancelled) ==> Charges(jobs, r, res)[j] == 0)
  {
    hide RootOf, Rooted;
  }

  /** What is left of a root's allowances covers a child's; observing does not draw on the selection of sources. */
  ghost predicate Covers(s: Tables, r: JobId, observing: bool, b: Limits)
    requires Rooted(s.jobs) && r in s.jobs
  {
    var root := s.jobs[r].budget;
    && b.search + Sum(Charges(s.jobs, r, Searches)) <= root.search
    && b.maxQueries + Sum(Charges(s.jobs, r, Searches)) <= root.maxQueries
    && b.fetch + Sum(Charges(s.jobs, r, Fetches)) <= root.fetch
    && (if observing then b.maxSources <= root.maxSources
        else b.maxSources + Sum(Charges(s.jobs, r, Fetches)) <= root.maxSources)
    && b.model + Sum(Charges(s.jobs, r, Models)) <= root.model
  }

  /** Every answer of a submission, and the job it stores. */
  lemma SubmitExactly(s: Tables, q: Submission, id: JobId, now: Time)
    requires Rooted(s.jobs) && UniqueKeys(s.jobs)
    ensures var r := Submit(s, q, id, now);
            && (forall j | j in s.jobs && s.jobs[j].key == q.key ::
                  && r.after == s
                  && r.out == if s.jobs[j].input == q.input then Ok((j, false)) else Err(SubmitKeyConflict))
            && ((forall j | j in s.jobs :: s.jobs[j].key != q.key) ==> SubmitNew(s, q, id, now, r))
  {
    forall j | j in s.jobs && s.jobs[j].key == q.key
      ensures var r := Submit(s, q, id, now);
              r.after == s && r.out == if s.jobs[j].input == q.input then Ok((j, false)) else Err(SubmitKeyConflict)
    {
      assert Owns(s, j, q.key);
    }
    if forall j | j in s.jobs :: s.jobs[j].key != q.key {
      assert forall j: JobId :: !Owns(s, j, q.key);
      SubmitNewly(s, q, id, now);
    }
  }

  lemma SubmitNewly(s: Tables, q: Submission, id: JobId, now: Time)
    requires Rooted(s.jobs) && forall j: JobId :: !Owns(s, j, q.key)
    ensures SubmitNew(s, q, id, now, Submit(s, q, id, now))
  {
    if q.parent.Some? && q.parent.value in s.jobs && RootOf(s.jobs, q.parent.value).Some? {
      RootStored(s.jobs, q.parent.value);
    }
    CoversExactly(s, q);
    hide Owns, Charges, RootOf, Rooted, UniqueKeys, Covers, Affordable;
  }

  lemma CoversExactly(s: Tables, q: Submission)
    requires Rooted(s.jobs)
    ensures q.parent.Some? && q.parent.value in s.jobs && RootOf(s.jobs, q.parent.value).Some?
            && RootOf(s.jobs, q.parent.value).value in s.jobs ==>
              var p := q.parent.value;
              var r := RootOf(s.jobs, p).value;
              Affordable(s.jobs[r].budget, s.jobs[p].input.Observe?, Sum(Charges(s.jobs, r, Searches)),
                         Sum(Charges(s.jobs, r, Fetches)), Sum(Charges(s.jobs, r, Models)), q.budget)
              <==> Covers(s, r, s.jobs[p].input.Observe?, q.budget)
  {
    hide Charges, RootOf, Rooted;
  }

  /** A new key: refused for the first thing that is wrong with the parent, else stored. */
  ghost predicate SubmitNew(s: Tables, q: Submission, id: JobId, now: Time, r: Step<(JobId, bool)>)
    requires Rooted(s.jobs)
  {
    var child := q.parent.Some?;
    var known := child && q.parent.value in s.jobs;
    var ended := known && s.jobs[q.parent.value].state in {Completed, PartialResult, Failed, Cancelled, Lost};
    var rooted := ended && RootOf(s.jobs, q.parent.value).Some? && RootOf(s.jobs, q.parent.value).value in s.jobs;
    var timely := rooted && now + q.span <= s.jobs[RootOf(s.jobs, q.parent.value).value].deadline;
    var covered := timely && Covers(s, RootOf(s.jobs, q.parent.value).value, s.jobs[q.parent.value].input.Observe?,
                                    q.budget);
    var kin := covered && (s.jobs[q.parent.value].input.Observe? <==> q.input.Observe?);
    && (r.out == Err(ParentNotTerminal) <==> known && !ended)
    && (r.out == Err(UnknownParent) <==> child && (!known || (ended && !rooted)))
    && (r.out == Err(ChildDeadline) <==> rooted && !timely)
    && (r.out == Err(ChildBudget) <==> timely && !covered)
    && (r.out == Err(ParentKindMismatch) <==> covered && !kin)
    && (r.out.Ok? <==> !child || kin)
    && (r.out.Err? ==> r.after == s)
    && (r.out.Ok? ==>
          && r.out.value == (id, true) && id in r.after.jobs
          && (var job := r.after.jobs[id];
              && job.key == q.key && job.parent == q.parent && job.input == q.input && job.target == q.target
              && job.budget == q.budget && job.created == now && job.deadline == now + q.span
              && job.state == Queued && job.worker == None && job.attempt == None && job.attempts == 0
              && job.stop == None && job.result == None)
          && r.after.jobs == s.jobs[id := r.after.jobs[id]]
          && r.after == s.(jobs := r.after.jobs, issued := s.issued + {id}, submitted := s.submitted + 1))
  }

  /** What a retry asks for: with what was used and one search and one fetch kept back, no more than was given. */
  lemma RetryAsks(s: Tables, j: JobId, key: string, now: Time)
    requires j in s.jobs
    ensures var q, job := Resubmission(s, j, key, now), s.jobs[j];
            var u := if job.result.Some? then job.result.value.usage else Usage(0, 0, 0, 0);
            var left := if job.deadline > now then job.deadline - now else 0;
            && q.parent == Some(j) && q.input == job.input && q.target == job.target
            && (key != "" ==> q.key == key)
            && (key == "" ==>
                  q.key == job.key + ":retry:" + Digits(|set c | c in s.jobs && s.jobs[c].parent == Some(j)| + 1))
            && q.budget.fetch + u.fetch + 1 == job.budget.fetch
            && (if job.input.Observe?
                then q.budget.search == job.budget.search && q.budget.maxQueries == job.budget.maxQueries
                     && q.budget.maxSources == job.budget.maxSources
                else q.budget.search + u.search + 1 == job.budget.search
                     && q.budget.maxQueries + u.search + 1 == job.budget.maxQueries
                     && q.budget.maxSources + u.fetch + 1 == job.budget.maxSources)
            && (u.model <= job.budget.model ==> q.budget.model + u.model == job.budget.model)
            && (u.model > job.budget.model ==> q.budget.model == 0)
            && q.budget.cacheBytes == job.budget.cacheBytes
            && (left >= 25 * SECOND ==>
                  && q.span == (if left - 10 * SECOND < 3600 * SECOND then left - 10 * SECOND else 3600 * SECOND)
                  && (15 * SECOND <= job.budget.seconds ==>
                        q.budget.seconds == if job.budget.seconds < left - 10 * SECOND then job.budget.seconds
                                            else left - 10 * SECOND))
  {
    assert Children(s, j) == set c | c in s.jobs && s.jobs[c].parent == Some(j);
    hide Digits;
  }

  /** Every refusal of a retry by its own checks; what passes them is submitted. */
  lemma RetryExactly(s: Tables, j: JobId, key: string, id: JobId, now: Time)
    requires Rooted(s.jobs)
    ensures var r := Retry(s, j, key, id, now);
            var ended := j in s.jobs && s.jobs[j].state in {Failed, PartialResult, Lost};
            var timely := ended && s.jobs[j].deadline - now >= 30 * SECOND;
            var b := if j in s.jobs then Resubmission(s, j, key, now).budget else Limits(0, 0, 0, 0, 0, 0, 0);
            var left := && timely && (s.jobs[j].state == Lost ==> s.jobs[j].result.Some?)
                        && b.maxQueries >= 1 && b.search >= 1 && b.maxSources >= 1 && b.fetch >= 1;
            && (j !in s.jobs ==> r == Step(s, Err(UnknownJob)))
            && (j in s.jobs && !ended ==> r == Step(s, Err(NotRetryable)))
            && (ended && !timely ==> r == Step(s, Err(NoRemainingTime)))
            && (timely && !left ==> r == Step(s, Err(NoRemainingBudget)))
            && (left && !ValidSubmission(Resubmission(s, j, key, now)) ==> r == Step(s, Err(InvalidPayload)))
            && (left && ValidSubmission(Resubmission(s, j, key, now)) ==>
                  r == Submit(s, Resubmission(s, j, key, now), id, now))
  {
    hide Digits, Submit, ValidInput, FieldsInRange, RetryKey;
  }

  // ---- workers and claims ----------------------------------------------------------------------------------

  /** What a worker must be able to do for an input. */
  predicate Able(capabilities: set<Capability>, i: Input) {
    if i.Observe? then ObserveCapability in capabilities
                       && forall c | c in i.scope.channels :: ChannelCapability(i.scope.guild, c) in capabilities
    else CollectCapability in capabilities
  }

  function Busy(s: Tables, w: WorkerId): nat {
    |set j | j in s.jobs && s.jobs[j].worker == Some(w) && s.jobs[j].state in {Running, CancelRequested}|
  }

  /** The worker is there, speaks the contract, has room and is able. */
  predicate Suits(s: Tables, cfg: Settings, i: Input, w: WorkerId, now: Time) {
    && w in s.workers && s.workers[w].online && now - s.workers[w].heartbeat <= cfg.offline
    && s.workers[w].contract == 4 && Busy(s, w) < s.workers[w].concurrency && Able(s.workers[w].capabilities, i)
  }

  /** The time of the last assignment to a worker, 0 without one. */
  predicate LastGiven(s: Tables, w: WorkerId, t: Time) {
    if exists a :: a in s.attempts && s.attempts[a].worker == w then
      && (forall a | a in s.attempts && s.attempts[a].worker == w :: s.attempts[a].created <= t)
      && exists a :: a in s.attempts && s.attempts[a].worker == w && s.attempts[a].created == t
    else t == 0
  }

  /** `w` is tried before `v`: less loaded, or as loaded and idle for longer, or that too and first by name. */
  predicate Sooner(s: Tables, w: WorkerId, since: Time, v: WorkerId, other: Time)
    requires w in s.workers && v in s.workers
  {
    var mine, its := Busy(s, w) * s.workers[v].concurrency, Busy(s, v) * s.workers[w].concurrency;
    mine < its || (mine == its && (since < other || (since == other && w <= v)))
  }

  /** The job waits for this worker: it is queued and in time, the worker is able, and where any worker will do no
      suitable one is tried sooner. */
  ghost predicate WaitsFor(s: Tables, cfg: Settings, w: WorkerId, j: JobId, now: Time) {
    && j in s.jobs && s.jobs[j].state == Queued && now < s.jobs[j].deadline
    && w in s.workers && Able(s.workers[w].capabilities, s.jobs[j].input)
    && match s.jobs[j].target
       case To(v) => v == w
       case Auto => TriedFirst(s, cfg, s.jobs[j].input, w, now)
  }

  /** No suitable worker is tried sooner. */
  ghost predicate TriedFirst(s: Tables, cfg: Settings, i: Input, w: WorkerId, now: Time) {
    && Suits(s, cfg, i, w, now)
    && forall v, since, other | Suits(s, cfg, i, v, now) && LastGiven(s, w, since) && LastGiven(s, v, other) ::
         Sooner(s, w, since, v, other)
  }

  lemma AbleExactly(capabilities: set<Capability>, i: Input)
    ensures Required(i) <= capabilities <==> Able(capabilities, i)
  {
    if i.Observe? && Required(i) <= capabilities {
      forall c | c in i.scope.channels ensures ChannelCapability(i.scope.guild, c) in capabilities {
        assert ChannelCapability(i.scope.guild, c) in Required(i);
      }
      assert ObserveCapability in Required(i);
    }
  }

  lemma BusyExactly(s: Tables, w: WorkerId)
    ensures |ActiveJobs(s, w)| == Busy(s, w)
  {
    assert ActiveJobs(s, w) == set j | j in s.jobs && s.jobs[j].worker == Some(w)
                                       && s.jobs[j].state in {Running, CancelRequested};
  }

  lemma SuitsExactly(s: Tables, cfg: Settings, job: Job, w: WorkerId, now: Time)
    ensures Eligible(s, cfg, job, w, now) <==> Suits(s, cfg, job.input, w, now)
  {
    BusyExactly(s, w);
    if w in s.workers { AbleExactly(s.workers[w].capabilities, job.input); }
    hide ActiveJobs, Required, Able, Busy;
  }

  lemma LastExactly(s: Tables, w: WorkerId, t: Time)
    ensures IsAssigned(s, w, t) <==> LastGiven(s, w, t)
  {
    assert forall a :: a in AttemptsOf(s, w) <==> a in s.attempts && s.attempts[a].worker == w;
    if exists a :: a in s.attempts && s.attempts[a].worker == w {
      var a :| a in s.attempts && s.attempts[a].worker == w;
      assert a in AttemptsOf(s, w);
    } else {
      assert AttemptsOf(s, w) == {};
    }
  }

  lemma SoonerExactly(s: Tables, w: WorkerId, v: WorkerId, a: Rank, b: Rank)
    requires Ranks(s, w, a) && Ranks(s, v, b)
    ensures Before(a, b) <==> Sooner(s, w, a.latest, v, b.latest)
  {
    BusyExactly(s, w);
    BusyExactly(s, v);
    hide ActiveJobs, Busy, IsAssigned;
  }

  lemma RankParts(s: Tables, w: WorkerId, r: Rank)
    requires Ranks(s, w, r)
    ensures w in s.workers && LastGiven(s, w, r.latest)
  {
    LastExactly(s, w, r.latest);
  }

  lemma RankFrom(s: Tables, w: WorkerId, t: Time) returns (r: Rank)
    requires w in s.workers && LastGiven(s, w, t)
    ensures Ranks(s, w, r) && r.latest == t
  {
    LastExactly(s, w, t);
    r := Rank(|ActiveJobs(s, w)|, s.workers[w].concurrency, t, w);
  }

  lemma LeadsExactly(s: Tables, cfg: Settings, job: Job, w: WorkerId, now: Time)
    ensures Leads(s, cfg, job, w, now) <==> TriedFirst(s, cfg, job.input, w, now)
  {
    hide Eligible, Ranks, Before, LastGiven, Sooner;
    SuitsExactly(s, cfg, job, w, now);
    if Leads(s, cfg, job, w, now) {
      forall v, since, other | Suits(s, cfg, job.input, v, now) && LastGiven(s, w, since) && LastGiven(s, v, other)
        ensures w in s.workers && v in s.workers && Sooner(s, w, since, v, other)
      {
        SuitsExactly(s, cfg, job, v, now);
        SuitsStored(s, cfg, job.input, w, now);
        SuitsStored(s, cfg, job.input, v, now);
        var a := RankFrom(s, w, since);
        var b := RankFrom(s, v, other);
        SoonerExactly(s, w, v, a, b);
      }
    }
    if TriedFirst(s, cfg, job.input, w, now) {
      forall v, a: Rank, b: Rank | Eligible(s, cfg, job, v, now) && Ranks(s, w, a) && Ranks(s, v, b)
        ensures Before(a, b)
      {
        SuitsExactly(s, cfg, job, v, now);
        RankParts(s, w, a);
        RankParts(s, v, b);
        SoonerExactly(s, w, v, a, b);
      }
    }
  }

  lemma SuitsStored(s: Tables, cfg: Settings, i: Input, w: WorkerId, now: Time)
    requires Suits(s, cfg, i, w, now)
    ensures w in s.workers
  {}

  lemma TakesExactly(s: Tables, cfg: Settings, w: WorkerId, j: JobId, now: Time)
    ensures Takes(s, cfg, w, j, now) <==> WaitsFor(s, cfg, w, j, now)
  {
    if j in s.jobs && w in s.workers {
      LeadsExactly(s, cfg, s.jobs[j], w, now);
      AbleExactly(s.workers[w].capabilities, s.jobs[j].input);
    }
    hide Leads, TriedFirst, Required, Able;
  }

  /** A worker that is there with room is given the oldest job that waits for it, under a fresh lease; nobody else is
      given anything. */
  lemma ClaimExactly(s: Tables, cfg: Settings, w: WorkerId, a: AttemptId, token: Token, now: Time)
    ensures var c := Claim(s, cfg, w, a, token, now);
            var ready := && w in s.workers && s.workers[w].online && now - s.workers[w].heartbeat <= cfg.offline
                         && s.workers[w].contract == 4 && Busy(s, w) < s.workers[w].concurrency;
            && c.out.Ok?
            && (c.out.value.Some? <==> ready && exists j :: WaitsFor(s, cfg, w, j, now))
            && (c.out.value == None ==> c.after == s)
            && (c.out.value.Some? ==> Given(s, cfg, w, a, token, now, c.out.value.value, c.after))
  {
    BusyExactly(s, w);
    hide Takes, WaitsFor, ActiveJobs, Busy;
    forall j ensures Takes(s, cfg, w, j, now) <==> WaitsFor(s, cfg, w, j, now) { TakesExactly(s, cfg, w, j, now); }
    InStore(s, cfg, w, now);
    if CanClaim(s, cfg, w, now) && exists j :: WaitsFor(s, cfg, w, j, now) {
      var j :| WaitsFor(s, cfg, w, j, now);
      assert Takes(s, cfg, w, j, now);
      TakerClaims(s, cfg, w, a, token, now, j);
    }
    var c := Claim(s, cfg, w, a, token, now);
    if c.out.value.Some? { GivenExactly(s, cfg, w, a, token, now, c.out.value.value); }
  }

  /** Job `j` is the oldest that waits, and runs now under attempt `a` of the worker. */
  ghost predicate Given(s: Tables, cfg: Settings, w: WorkerId, a: AttemptId, token: Token, now: Time, j: JobId,
                        t: Tables)
  {
    && WaitsFor(s, cfg, w, j, now)
    && (forall i | WaitsFor(s, cfg, w, i, now) ::
          s.jobs[j].created < s.jobs[i].created || (s.jobs[j].created == s.jobs[i].created && j <= i))
    && t.jobs == s.jobs[j := s.jobs[j].(state := Running, worker := Some(w), attempt := Some(a),
                                         attempts := s.jobs[j].attempts + 1)]
    && a in t.attempts && t.attempts == s.attempts[a := t.attempts[a]]
    && (var at := t.attempts[a];
        && at.job == j && at.worker == w && at.token == token && at.lease == now + cfg.ttl && at.created == now
        && at.number == s.jobs[j].attempts + 1 && at.finalized == None)
    && t == s.(jobs := t.jobs, attempts := t.attempts, issued := s.issued + {a})
  }

  lemma GivenExactly(s: Tables, cfg: Settings, w: WorkerId, a: AttemptId, token: Token, now: Time, j: JobId)
    requires Claim(s, cfg, w, a, token, now).out == Ok(Some(j))
    requires forall i :: Takes(s, cfg, w, i, now) <==> WaitsFor(s, cfg, w, i, now)
    ensures Given(s, cfg, w, a, token, now, j, Claim(s, cfg, w, a, token, now).after)
  {
    hide Takes, WaitsFor, CanClaim;
    InStore(s, cfg, w, now);
    assert IsNext(s, cfg, w, j, now);
  }

  /** A worker that has registered is there until it has been silent for too long, with what it said of itself. */
  lemma RegisterExactly(s: Tables, cfg: Settings, w: WorkerId, capabilities: set<Capability>, contract: nat,
                        concurrency: nat, now: Time, later: Time, i: Input)
    ensures var t := Register(s, w, capabilities, contract, concurrency, now);
            && (Suits(t, cfg, i, w, later) <==>
                  later - now <= cfg.offline && contract == 4 && Busy(s, w) < concurrency && Able(capabilities, i))
            && w in t.workers && t.workers == s.workers[w := t.workers[w]] && t == s.(workers := t.workers)
  {
    var t := Register(s, w, capabilities, contract, concurrency, now);
    assert Busy(t, w) == Busy(s, w);
  }

  // ---- artifacts -------------------------------------------------------------------------------------------

  /** The name of a file: letters, digits, dot, underscore and hyphen, at most 200, a letter or digit first. */
  predicate PlainName(n: string) {
    && 0 < |n| <= 200
    && (forall c | c in n :: 'a' <= c <= 'z' || 'A' <= c <= 'Z' || '0' <= c <= '9' || c == '.' || c == '_' || c == '-')
    && n[0] != '.' && n[0] != '_' && n[0] != '-'
  }

  lemma PlainExactly(n: string)
    ensures SafeName(n) <==> PlainName(n)
  {
    if n != [] { assert n[0] in n; }
  }

  /** What is sent is what was announced, under a plain name and a known type. */
  predicate Announced(ref: Ref, data: Blob) {
    |data| == ref.bytes && data == ref.digest && PlainName(ref.name)
    && ref.media in {"application/json", "text/html", "application/pdf", "text/plain"}
  }

  /** The caller holds the lease of the job's own attempt `a`. */
  predicate Holder(s: Tables, j: JobId, w: WorkerId, a: AttemptId, token: Token) {
    j in s.jobs && s.jobs[j].attempt == Some(a) && Leased(s, j, w, token)
  }

  /** The attempt goes on, and its lease has not run out. */
  predicate Uploading(s: Tables, j: JobId, w: WorkerId, a: AttemptId, token: Token, now: Time) {
    Holder(s, j, w, a, token) && s.attempts[a].finalized == None && s.jobs[j].state in {Running, CancelRequested}
    && now <= s.attempts[a].lease
  }

  function BytesEach(s: Tables, j: JobId): map<ArtifactId, int> {
    map x | x in s.artifacts && s.artifacts[x].job == j :: s.artifacts[x].ref.bytes
  }

  ghost function BytesStored(s: Tables, j: JobId): int { Sum(BytesEach(s, j)) }

  lemma BytesExactly(s: Tables, j: JobId)
    ensures Sum(Sizes(s, j)) == BytesStored(s, j)
  {
    var a, b := Sizes(s, j), BytesEach(s, j);
    assert a.Keys == b.Keys;
    assert a == b;
  }

  /** A new artifact fits the job's bytes, the number of its artifacts and their names. */
  ghost predicate Roomy(s: Tables, cfg: Settings, j: JobId, ref: Ref)
    requires j in s.jobs
  {
    && BytesStored(s, j) + ref.bytes <= s.jobs[j].budget.cacheBytes
    && |set x | x in s.artifacts && s.artifacts[x].job == j| < cfg.maxArtifacts
    && forall x | x in s.artifacts && s.artifacts[x].job == j :: s.artifacts[x].ref.name != ref.name
  }

  /** When an upload is taken, and the row and file of a new one. */
  lemma UploadExactly(s: Tables, cfg: Settings, j: JobId, w: WorkerId, a: AttemptId, token: Token, ref: Ref, data: Blob,
                      now: Time)
    ensures var u := AddArtifact(s, cfg, j, w, a, token, ref, data, now);
            var able := Announced(ref, data) && Uploading(s, j, w, a, token, now);
            var again := able && ref.id in s.artifacts && s.artifacts[ref.id] == Artifact(j, a, ref);
            var anew := able && ref.id !in s.artifacts && Roomy(s, cfg, j, ref);
            && (u.out.Ok? <==> again || anew)
            && (u.out.Ok? ==> u.out.value == ref)
            && u.after == if anew then s.(artifacts := s.artifacts[ref.id := Artifact(j, a, ref)],
                                          files := s.files[Path(j, a, ref.name) := data])
                          else s
  {
    PlainExactly(ref.name);
    assert ArtifactsOf(s, j) == set x | x in s.artifacts && s.artifacts[x].job == j;
    BytesExactly(s, j);
    NameTakenExactly(s, j, ref.name);
    hide NameTaken, ArtifactsOf, SafeName, PlainName, Sizes, BytesStored;
  }

  /** Every refusal of an upload. */
  lemma UploadRefusals(s: Tables, cfg: Settings, j: JobId, w: WorkerId, a: AttemptId, token: Token, ref: Ref,
                       data: Blob, now: Time)
    ensures var out := AddArtifact(s, cfg, j, w, a, token, ref, data, now).out;
            && (out == Err(ArtifactSize) <==> |data| != ref.bytes)
            && (out == Err(ArtifactDigest) <==> |data| == ref.bytes && data != ref.digest)
            && (out == Err(ArtifactName) <==> |data| == ref.bytes && data == ref.digest && !PlainName(ref.name))
            && (out == Err(ArtifactMedia) <==>
                  |data| == ref.bytes && data == ref.digest && PlainName(ref.name) && !Announced(ref, data))
            && (out == Err(UnknownJob) <==> Announced(ref, data) && j !in s.jobs)
            && (out == Err(UnknownAttempt) <==>
                  Announced(ref, data) && j in s.jobs && !(a in s.attempts && s.attempts[a].job == j))
            && (out == Err(LeaseConflict) <==>
                  Announced(ref, data) && j in s.jobs && a in s.attempts && s.attempts[a].job == j
                  && !Holder(s, j, w, a, token))
  {
    PlainExactly(ref.name);
    hide NameTaken, SafeName, PlainName, Sizes;
  }

  /** Every refusal of an upload by the holder of the lease. */
  lemma UploadLateRefusals(s: Tables, cfg: Settings, j: JobId, w: WorkerId, a: AttemptId, token: Token, ref: Ref,
                           data: Blob, now: Time)
    requires Announced(ref, data) && Holder(s, j, w, a, token)
    ensures LateRefusals(s, cfg, j, a, ref, now, AddArtifact(s, cfg, j, w, a, token, ref, data, now).out)
  {
    PlainExactly(ref.name);
    BytesExactly(s, j);
    assert ArtifactsOf(s, j) == set x | x in s.artifacts && s.artifacts[x].job == j;
    NameTakenExactly(s, j, ref.name);
    hide NameTaken, ArtifactsOf, SafeName, PlainName, Sizes, BytesStored;
  }

  /** What can still be wrong when the caller holds the lease. */
  ghost predicate LateRefusals(s: Tables, cfg: Settings, j: JobId, a: AttemptId, ref: Ref, now: Time,
                               out: Result<Ref, Store.Refusal>)
    requires j in s.jobs && a in s.attempts
  {
    var active := s.attempts[a].finalized == None && s.jobs[j].state in {Running, CancelRequested};
    var live := active && now <= s.attempts[a].lease;
    var unused := live && ref.id !in s.artifacts;
    var room := unused && BytesStored(s, j) + ref.bytes <= s.jobs[j].budget.cacheBytes;
    var few := room && |set x | x in s.artifacts && s.artifacts[x].job == j| < cfg.maxArtifacts;
    && (out == Err(AttemptNotActive) <==> !active)
    && (out == Err(LeaseExpired) <==> active && !live)
    && (out == Err(ArtifactIdConflict) <==> live && !unused && s.artifacts[ref.id] != Artifact(j, a, ref))
    && (out == Err(ArtifactBytes) <==> unused && !room)
    && (out == Err(ArtifactCount) <==> room && !few)
    && (out == Err(ArtifactNameConflict) <==> few && !Roomy(s, cfg, j, ref))
  }

  lemma NameTakenExactly(s: Tables, j: JobId, name: string)
    ensures NameTaken(s, j, name) <==>
              exists x :: x in s.artifacts && s.artifacts[x].job == j && s.artifacts[x].ref.name == name
  {
    if exists x :: x in s.artifacts && s.artifacts[x].job == j && s.artifacts[x].ref.name == name {
      var x :| x in s.artifacts && s.artifacts[x].job == j && s.artifacts[x].ref.name == name;
      assert x in ArtifactsOf(s, j);
    }
  }

  // ---- deletion, retention and the sweep -----------------------------------------------------------------------

  /** An ended job goes with all its rows and files; nothing else changes. */
  lemma DeleteExactly(s: Tables, j: JobId)
    ensures var d := Delete(s, j);
            var ended := j in s.jobs && s.jobs[j].state in {Completed, PartialResult, Failed, Cancelled, Lost};
            && (d.out == Err(UnknownJob) <==> j !in s.jobs)
            && (d.out == Err(NotTerminal) <==> j in s.jobs && !ended)
            && (d.out.Ok? <==> ended)
            && (d.out.Err? ==> d.after == s)
            && (ended ==>
                  && d.out == Ok(|set x | x in s.artifacts && s.artifacts[x].job == j|)
                  && (forall i :: i in d.after.jobs <==> i in s.jobs && i != j)
                  && (forall i | i in d.after.jobs :: d.after.jobs[i] == s.jobs[i])
                  && (forall a :: a in d.after.attempts <==> a in s.attempts && s.attempts[a].job != j)
                  && (forall a | a in d.after.attempts :: d.after.attempts[a] == s.attempts[a])
                  && (forall x :: x in d.after.artifacts <==> x in s.artifacts && s.artifacts[x].job != j)
                  && (forall x | x in d.after.artifacts :: d.after.artifacts[x] == s.artifacts[x])
                  && (forall i :: i in d.after.observations <==> i in s.observations && i != j)
                  && (forall i | i in d.after.observations :: d.after.observations[i] == s.observations[i])
                  && (forall p: Path :: p in d.after.files <==> p in s.files && p.job != j)
                  && (forall p: Path | p in d.after.files :: d.after.files[p] == s.files[p])
                  && d.after.workers == s.workers && d.after.issued == s.issued && d.after.submitted == s.submitted)
  {
    assert ArtifactsOf(s, j) == set x | x in s.artifacts && s.artifacts[x].job == j;
  }

  /** An observation whose time is up: the entry of its result says so, or, without one, it is thirty days old and has
      not been expired before. */
  predicate TimeUp(s: Tables, j: JobId, now: Time) {
    && j in s.jobs && s.jobs[j].input.Observe?
    && (j in s.observations ==> s.observations[j] <= now)
    && (j !in s.observations ==>
          s.jobs[j].created + 30 * 86_400 * SECOND <= now && s.jobs[j].stop != Some(RetentionExpired))
  }

  /** What is left of a job at the end of its retention. */
  predicate Bare(s: Tables, t: Tables, j: JobId)
    requires j in s.jobs && j in t.jobs
  {
    t.jobs[j] == s.jobs[j].(result := None, stop := Some(RetentionExpired))
  }

  /** Exactly the observations whose time is up lose their result, their entry, and their rows with the files. */
  lemma ExpireExactly(s: Tables, now: Time)
    ensures var t := Expire(s, now);
            && t.jobs.Keys == s.jobs.Keys
            && (forall j | j in s.jobs :: if TimeUp(s, j, now) then Bare(s, t, j) else t.jobs[j] == s.jobs[j])
            && (forall x :: x in t.artifacts <==> x in s.artifacts && !TimeUp(s, s.artifacts[x].job, now))
            && (forall x | x in t.artifacts :: t.artifacts[x] == s.artifacts[x])
            && (forall j :: j in t.observations <==> j in s.observations && !TimeUp(s, j, now))
            && (forall j | j in t.observations :: t.observations[j] == s.observations[j])
            && (forall p :: p in t.files <==>
                  p in s.files && forall x | x in s.artifacts && TimeUp(s, s.artifacts[x].job, now) ::
                                    p != Path(s.artifacts[x].job, s.artifacts[x].attempt, s.artifacts[x].ref.name))
            && (forall p | p in t.files :: t.files[p] == s.files[p])
            && t == s.(jobs := t.jobs, artifacts := t.artifacts, observations := t.observations, files := t.files)
  {
    forall j ensures Outdated(s, j, now) <==> TimeUp(s, j, now) {}
    hide Outdated, TimeUp;
    var t := Expire(s, now);
    forall p ensures p in t.files <==>
                       p in s.files && forall x | x in s.artifacts && TimeUp(s, s.artifacts[x].job, now) ::
                                         p != Path(s.artifacts[x].job, s.artifacts[x].attempt, s.artifacts[x].ref.name)
    {
      if x :| x in s.artifacts && TimeUp(s, s.artifacts[x].job, now)
              && p == Path(s.artifacts[x].job, s.artifacts[x].attempt, s.artifacts[x].ref.name) {
        assert PathOf(s.artifacts[x]) == p;
      }
    }
  }

  /** After expiry, a running job whose lease has run out is lost, and so is a queued one past its deadline; workers
      that have been silent for too long are offline. */
  lemma SweepExactly(s: Tables, cfg: Settings, now: Time)
    ensures var m, t := Expire(s, now), Sweep(s, cfg, now);
            && t.jobs.Keys == m.jobs.Keys
            && (forall j | j in m.jobs ::
                  var job := m.jobs[j];
                  var late := && job.state == Running && job.attempt.Some? && job.attempt.value in m.attempts
                              && m.attempts[job.attempt.value].job == j && m.attempts[job.attempt.value].lease < now;
                  var missed := job.state == Queued && job.deadline < now;
                  && (late ==> t.jobs[j] == job.(state := Lost, stop := Some(LeaseRanOut)))
                  && (missed ==> t.jobs[j] == job.(state := Lost, stop := Some(DeadlineRanOut)))
                  && (!late && !missed ==> t.jobs[j] == job))
            && t.workers.Keys == m.workers.Keys
            && (forall w | w in m.workers ::
                  t.workers[w] == m.workers[w].(online := m.workers[w].online
                                                          && now - m.workers[w].heartbeat <= cfg.offline))
            && t == m.(jobs := t.jobs, workers := t.workers)
  {
    hide Expire;
  }

  // ---- numbers ---------------------------------------------------------------------------------------

  function Value(s: string): int {
    if s == "" then 0 else 10 * Value(s[..|s| - 1]) + (s[|s| - 1] as int - '0' as int)
  }

  /** A number is written in decimal digits, without leading zeros. */
  lemma {:induction false} DigitsExactly(n: nat)
    ensures var s := Digits(n);
            && s != "" && (forall c | c in s :: '0' <= c <= '9') && Value(s) == n && (n > 0 ==> s[0] != '0')
  {
    var tail := ["0123456789"[n % 10]];
    assert '0' <= tail[0] <= '9' && tail[0] as int - '0' as int == n % 10;
    if n >= 10 {
      DigitsExactly(n / 10);
      assert Digits(n) == Digits(n / 10) + tail;
      assert Digits(n)[..|Digits(n)| - 1] == Digits(n / 10);
    } else {
      assert Digits(n) == "" + tail;
      assert Digits(n)[..0] == "";
    }
  }
}
