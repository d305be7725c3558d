/** What each operation of the job manager does to its tables, as a function of the tables before it and of one
    reading of the clock. Identifiers drawn at random are arguments. */
module Operations {
  import opened Options
  import opened Activity
  import opened Sums
  import opened Store

  datatype Step<T> = Step(after: Tables, out: Result<T, Store.Refusal>)

  function Refuse<T>(s: Tables, e: Store.Refusal): Step<T> { Step(s, Err(e)) }

  // ---- workers -----------------------------------------------------------------------------------

  function Register(s: Tables, w: WorkerId, capabilities: set<Capability>, contract: nat, concurrency: nat,
                    now: Time): Tables {
    s.(workers := s.workers[w := Worker(capabilities, contract, concurrency, true, now)])
  }

  // ---- submission --------------------------------------------------------------------------------

  datatype Submission = Submission(key: string, parent: Option<JobId>, input: Input, target: Target, budget: Limits,
                                   span: int)

  predicate Owns(s: Tables, j: JobId, key: string) { j in s.jobs && s.jobs[j].key == key }

  datatype Resource = Searches | Fetches | Models

  function Given(b: Limits, r: Resource): int {
    match r case Searches => b.search case Fetches => b.fetch case Models => b.model
  }

  function Used(u: Usage, r: Resource): nat {
    match r case Searches => u.search case Fetches => u.fetch case Models => u.model
  }

  /** What a job counts for in its lineage: what it reported, else all it was given. */
  function Charge(job: Job, isRoot: bool, r: Resource): int {
    if job.result.Some? then Used(job.result.value.usage, r)
    else if !isRoot && !job.state.Cancelled? then Given(job.budget, r)
    else 0
  }

  function Charges(jobs: map<JobId, Job>, root: JobId, r: Resource): map<JobId, int>
    requires Rooted(jobs)
  {
    map j | j in jobs && RootOf(jobs, j) == Some(root) :: Charge(jobs[j], j == root, r)
  }

  predicate Affordable(root: Limits, observing: bool, searches: int, fetches: int, models: int, b: Limits) {
    && b.maxQueries <= root.maxQueries - searches
    && b.search <= root.search - searches
    && b.maxSources <= (if observing then root.maxSources else root.maxSources - fetches)
    && b.fetch <= root.fetch - fetches
    && b.model <= root.model - models
  }

  ghost function AllocationRefusal(s: Tables, p: JobId, q: Submission, now: Time): Option<Store.Refusal>
    requires Rooted(s.jobs) && p in s.jobs
  {
    if !Terminal(s.jobs[p].state) then Some(ParentNotTerminal)
    else if RootOf(s.jobs, p).None? then Some(UnknownParent)
    else
      var r := RootOf(s.jobs, p).value;
      RootStored(s.jobs, p);
      if now + q.span > s.jobs[r].deadline then Some(ChildDeadline)
      else if !Affordable(s.jobs[r].budget, s.jobs[p].input.Observe?, Sum(Charges(s.jobs, r, Searches)),
                          Sum(Charges(s.jobs, r, Fetches)), Sum(Charges(s.jobs, r, Models)), q.budget)
      then Some(ChildBudget)
      else None
  }

  lemma {:induction false} RootStored(jobs: map<JobId, Job>, j: JobId)
    requires Rooted(jobs) && j in jobs && RootOf(jobs, j).Some?
    ensures RootOf(jobs, j).value in jobs && jobs[RootOf(jobs, j).value].parent.None?
    ensures RootOf(jobs, RootOf(jobs, j).value) == RootOf(jobs, j)
    decreases jobs[j].serial
  {
    if jobs[j].parent.Some? { RootStored(jobs, jobs[j].parent.value); }
  }

  function NewJob(s: Tables, q: Submission, now: Time): Job {
    Job(s.submitted, q.key, q.parent, q.input, q.target, q.budget, now, now + q.span, Queued, None, None, 0, None,
        None)
  }

  function Insert(s: Tables, q: Submission, id: JobId, now: Time): Step<(JobId, bool)> {
    Step(s.(jobs := s.jobs[id := NewJob(s, q, now)], issued := s.issued + {id}, submitted := s.submitted + 1),
         Ok((id, true)))
  }

  ghost function ParentRefusal(s: Tables, q: Submission, now: Time): Option<Store.Refusal>
    requires Rooted(s.jobs)
  {
    if q.parent.None? then None
    else if q.parent.value !in s.jobs then Some(UnknownParent)
    else
      var e := AllocationRefusal(s, q.parent.value, q, now);
      if e.Some? then e
      else if !SameKind(s.jobs[q.parent.value].input, q.input) then Some(ParentKindMismatch)
      else None
  }

  /** The flag tells whether a job was created. */
  ghost function Submit(s: Tables, q: Submission, id: JobId, now: Time): Step<(JobId, bool)>
    requires Rooted(s.jobs)
  {
    if exists j: JobId :: Owns(s, j, q.key) then
      var j: JobId :| Owns(s, j, q.key);
      if s.jobs[j].input != q.input then Refuse(s, SubmitKeyConflict) else Step(s, Ok((j, false)))
    else
      var e := ParentRefusal(s, q, now);
      if e.Some? then Refuse(s, e.value) else Insert(s, q, id, now)
  }

  // ---- claiming ----------------------------------------------------------------------------------

  /** The oldest job the worker may take. */
  ghost predicate IsNext(s: Tables, cfg: Settings, w: WorkerId, j: JobId, now: Time) {
    Takes(s, cfg, w, j, now) && forall i | Takes(s, cfg, w, i, now) :: Older(s.jobs, j, i)
  }

  function Start(s: Tables, cfg: Settings, w: WorkerId, j: JobId, a: AttemptId, token: Token, now: Time): Tables
    requires j in s.jobs
  {
    var number := s.jobs[j].attempts + 1;
    s.(jobs := s.jobs[j := s.jobs[j].(state := Running, worker := Some(w), attempt := Some(a), attempts := number)],
       attempts := s.attempts[a := Attempt(j, w, token, now + cfg.ttl, number, now, None)],
       issued := s.issued + {a})
  }

  ghost predicate CanClaim(s: Tables, cfg: Settings, w: WorkerId, now: Time) {
    Present(s, cfg, w, now) && |ActiveJobs(s, w)| < s.workers[w].concurrency
  }

  ghost function Claim(s: Tables, cfg: Settings, w: WorkerId, a: AttemptId, token: Token, now: Time)
    : Step<Option<JobId>>
  {
    if CanClaim(s, cfg, w, now) && exists j: JobId :: IsNext(s, cfg, w, j, now) then
      var j: JobId :| IsNext(s, cfg, w, j, now);
      Step(Start(s, cfg, w, j, a, token, now), Ok(Some(j)))
    else Step(s, Ok(None))
  }

  // ---- leases ------------------------------------------------------------------------------------

  datatype Renewal = Renewed(until: Time) | Ended | DeadlinePassed

  /** The attempt exists, is the job's, and the caller holds its lease. */
  predicate Holds(s: Tables, j: JobId, a: AttemptId, w: WorkerId, token: Token) {
    a in s.attempts && s.attempts[a].job == j && s.attempts[a].worker == w && s.attempts[a].token == token
  }

  function Earlier(a: Time, b: Time): Time { if a <= b then a else b }

  function Renew(s: Tables, cfg: Settings, j: JobId, w: WorkerId, a: AttemptId, token: Token, now: Time)
    : Step<Renewal>
  {
    if j !in s.jobs then Refuse(s, UnknownJob)
    else if !Holds(s, j, a, w, token) then Refuse(s, LeaseConflict)
    else if s.attempts[a].finalized.Some? || s.jobs[j].attempt != Some(a) then Refuse(s, AttemptNotActive)
    else if Terminal(s.jobs[j].state) then Step(s, Ok(Ended))
    else if s.attempts[a].lease < now then Refuse(s, LeaseExpired)
    else if s.jobs[j].deadline < now then Step(s, Ok(DeadlinePassed))
    else
      var until := Earlier(now + cfg.ttl, s.jobs[j].deadline);
      Step(s.(attempts := s.attempts[a := s.attempts[a].(lease := until)]), Ok(Renewed(until)))
  }

  function SetJob(s: Tables, j: JobId, job: Job): Tables { s.(jobs := s.jobs[j := job]) }

  function Cancel(s: Tables, j: JobId): Step<State> {
    if j !in s.jobs then Refuse(s, UnknownJob)
    else
      var job := s.jobs[j];
      if job.state.Queued? then
        Step(SetJob(s, j, job.(state := Cancelled, stop := Some(CancelledByRequester))), Ok(Cancelled))
      else if job.state.Running? then Step(SetJob(s, j, job.(state := CancelRequested)), Ok(CancelRequested))
      else Step(s, Ok(job.state))
  }

  // ---- results -----------------------------------------------------------------------------------

  /** What parsing a result already guarantees. */
  predicate Parsed(p: Pack) { p.payload.ObservePayload? ==> WellFormed(p.payload.report) }

  function ManifestRefusal(s: Tables, j: JobId, a: AttemptId, refs: seq<Ref>): Option<Store.Refusal> {
    if refs == [] then None
    else
      var id := refs[0].id;
      if !(id in s.artifacts && s.artifacts[id].job == j && s.artifacts[id].attempt == a) then Some(ArtifactMissing)
      else if s.artifacts[id].ref != refs[0] then Some(ArtifactMismatch)
      else ManifestRefusal(s, j, a, refs[1..])
  }

  function Outcome(state: State, status: Status): Result<State, Store.Refusal> {
    if state.Running? && status.Succeeded? then Ok(Completed)
    else if state.Running? && status.PartialStatus? then Ok(PartialResult)
    else if state.Running? && status.FailedStatus? then Ok(Failed)
    else if state.CancelRequested? && status.CancelledStatus? then Ok(Cancelled)
    else if state.Running? || state.CancelRequested? then Err(CancelConflict)
    else Err(NotRunnable)
  }

  function ObservationRefusal(job: Job, p: Pack, now: Time): Option<Store.Refusal>
    requires Parsed(p)
  {
    if !job.input.Observe? then None
    else if !p.payload.ObservePayload? then Some(PayloadMismatch)
    else
      var why := Check(p.payload.report, job.input.scope, job.created, now, p.status.Succeeded?, p.usage.fetch,
                       p.usage.search != 0 || p.usage.model != 0, p.usage.documentBytes, job.budget.fetch);
      if why.Some? then Some(ObservationRefused(why.value)) else None
  }

  /** The order of the checks of a result, and the state it leads to. */
  function Verdict(s: Tables, j: JobId, a: AttemptId, p: Pack, now: Time): Result<State, Store.Refusal>
    requires j in s.jobs && a in s.attempts && Parsed(p)
  {
    var refusal := ObservationRefusal(s.jobs[j], p, now);
    var outcome := Outcome(s.jobs[j].state, p.status);
    if s.attempts[a].lease < now then Err(LeaseExpired)
    else if p.job != j || p.attempt != a then Err(AttemptMismatch)
    else if !SameMode(s.jobs[j].input, p.payload) then Err(ModeMismatch)
    else if refusal.Some? then Err(refusal.value)
    else if outcome.Err? then outcome
    else
      var bad := ManifestRefusal(s, j, a, p.manifest);
      if bad.Some? then Err(bad.value) else outcome
  }

  function Settle(s: Tables, j: JobId, a: AttemptId, p: Pack, state: State, now: Time): Tables
    requires j in s.jobs && a in s.attempts
  {
    var stop := if state.Cancelled? && p.stop.None? then Some(CancelledByRequester) else p.stop;
    s.(jobs := s.jobs[j := s.jobs[j].(state := state, stop := stop, result := Some(p))],
       attempts := s.attempts[a := s.attempts[a].(finalized := Some(now))],
       observations := if p.payload.ObservePayload?
                       then s.observations[j := p.payload.report.coverage.observedAt + 30 * DAY]
                       else s.observations)
  }

  function Finalize(s: Tables, j: JobId, w: WorkerId, token: Token, p: Pack, now: Time): Step<State>
    requires Parsed(p)
  {
    if j !in s.jobs then Refuse(s, UnknownJob)
    else if s.jobs[j].attempt.None? || !Holds(s, j, s.jobs[j].attempt.value, w, token) then Refuse(s, LeaseConflict)
    else
      var a := s.jobs[j].attempt.value;
      if s.attempts[a].finalized.Some? then
        if s.jobs[j].result == Some(p) then Step(s, Ok(s.jobs[j].state)) else Refuse(s, ResultConflict)
      else
        var v := Verdict(s, j, a, p, now);
        if v.Err? then Refuse(s, v.error) else Step(Settle(s, j, a, p, v.value, now), Ok(v.value))
  }

  // ---- retry -------------------------------------------------------------------------------------

  function Digits(n: nat): string {
    (if n < 10 then "" else Digits(n / 10)) + ["0123456789"[n % 10]]
  }

  function Least(a: int, b: int): int { if a <= b then a else b }

  function Most(a: int, b: int): int { if a >= b then a else b }

  function Children(s: Tables, j: JobId): set<JobId> {
    set c | c in s.jobs && s.jobs[c].parent == Some(j)
  }

  /** What is left of a job's budget after its usage and a reserve of one search and one fetch. */
  function Remainder(job: Job, left: int): Limits {
    var u := if job.result.Some? then job.result.value.usage else Usage(0, 0, 0, 0);
    var b := job.budget;
    Limits(if job.input.Observe? then b.maxQueries else b.maxQueries - u.search - 1,
           if job.input.Observe? then b.search else b.search - u.search - 1,
           if job.input.Observe? then b.maxSources else b.maxSources - u.fetch - 1,
           b.fetch - u.fetch - 1,
           Most(0, b.model - u.model),
           b.cacheBytes,
           Most(15 * SECOND, Least(b.seconds, left - 10 * SECOND)))
  }

  function RetryKey(s: Tables, j: JobId, key: string): string
    requires j in s.jobs
  {
    if key != "" then key else s.jobs[j].key + ":retry:" + Digits(|Children(s, j)| + 1)
  }

  function Resubmission(s: Tables, j: JobId, key: string, now: Time): Submission
    requires j in s.jobs
  {
    var job := s.jobs[j];
    var left := Most(0, job.deadline - now);
    Submission(RetryKey(s, j, key), Some(j), job.input, job.target, Remainder(job, left),
               Most(15 * SECOND, Least(left - 10 * SECOND, 3600 * SECOND)))
  }

  predicate ValidSubmission(q: Submission) {
    1 <= |q.key| <= 200 && ValidInput(q.input) && FieldsInRange(q.budget) && 0 < q.span <= 3600 * SECOND
  }

  function RetryRefusal(s: Tables, j: JobId, key: string, now: Time): Option<Store.Refusal> {
    if j !in s.jobs then Some(UnknownJob)
    else
      var job := s.jobs[j];
      var left := Most(0, job.deadline - now);
      var b := Remainder(job, left);
      if !(job.state.Failed? || job.state.PartialResult? || job.state.Lost?) then Some(NotRetryable)
      else if left < 30 * SECOND then Some(NoRemainingTime)
      else if job.state.Lost? && job.result.None? then Some(NoRemainingBudget)
      else if b.maxQueries < 1 || b.search < 1 || b.maxSources < 1 || b.fetch < 1 then Some(NoRemainingBudget)
      else if !ValidSubmission(Resubmission(s, j, key, now)) then Some(InvalidPayload)
      else None
  }

  ghost function Retry(s: Tables, j: JobId, key: string, id: JobId, now: Time): Step<(JobId, bool)>
    requires Rooted(s.jobs)
  {
    var e := RetryRefusal(s, j, key, now);
    if e.Some? then Refuse(s, e.value) else Submit(s, Resubmission(s, j, key, now), id, now)
  }

  // ---- artifacts ---------------------------------------------------------------------------------

  function Sizes(s: Tables, j: JobId): map<ArtifactId, int> {
    map a | a in ArtifactsOf(s, j) :: s.artifacts[a].ref.bytes
  }

  predicate NameTaken(s: Tables, j: JobId, name: string) {
    exists a | a in ArtifactsOf(s, j) :: s.artifacts[a].ref.name == name
  }

  ghost function UploadRefusal(s: Tables, cfg: Settings, j: JobId, w: WorkerId, a: AttemptId, token: Token, ref: Ref,
                               data: Blob, now: Time): Option<Store.Refusal>
  {
    if |data| != ref.bytes then Some(ArtifactSize)
    else if data != ref.digest then Some(ArtifactDigest)
    else if !SafeName(ref.name) then Some(ArtifactName)
    else if ref.media !in MEDIA then Some(ArtifactMedia)
    else if j !in s.jobs then Some(UnknownJob)
    else if !(a in s.attempts && s.attempts[a].job == j) then Some(UnknownAttempt)
    else if !Holds(s, j, a, w, token) || s.jobs[j].attempt != Some(a) then Some(LeaseConflict)
    else if s.attempts[a].finalized.Some? || !Active(s.jobs[j].state) then Some(AttemptNotActive)
    else if s.attempts[a].lease < now then Some(LeaseExpired)
    else if ref.id in s.artifacts then
      if s.artifacts[ref.id] == Artifact(j, a, ref) then None else Some(ArtifactIdConflict)
    else if Sum(Sizes(s, j)) + ref.bytes > s.jobs[j].budget.cacheBytes then Some(ArtifactBytes)
    else if |ArtifactsOf(s, j)| >= cfg.maxArtifacts then Some(ArtifactCount)
    else if NameTaken(s, j, ref.name) then Some(ArtifactNameConflict)
    else None
  }

  ghost function AddArtifact(s: Tables, cfg: Settings, j: JobId, w: WorkerId, a: AttemptId, token: Token, ref: Ref,
                             data: Blob, now: Time): Step<Ref>
  {
    var e := UploadRefusal(s, cfg, j, w, a, token, ref, data, now);
    if e.Some? then Refuse(s, e.value)
    else if ref.id in s.artifacts then Step(s, Ok(ref))
    else
      Step(s.(artifacts := s.artifacts[ref.id := Artifact(j, a, ref)], files := s.files[Path(j, a, ref.name) := data]),
           Ok(ref))
  }

  // ---- deletion, expiry and the sweep ------------------------------------------------------------

  function Delete(s: Tables, j: JobId): Step<nat> {
    if j !in s.jobs then Refuse(s, UnknownJob)
    else if !Terminal(s.jobs[j].state) then Refuse(s, NotTerminal)
    else
      Step(s.(jobs := s.jobs - {j},
              attempts := map a | a in s.attempts && s.attempts[a].job != j :: s.attempts[a],
              artifacts := s.artifacts - ArtifactsOf(s, j),
              observations := s.observations - {j},
              files := map p: Path | p in s.files && p.job != j :: s.files[p]),
           Ok(|ArtifactsOf(s, j)|))
  }

  predicate Outdated(s: Tables, j: JobId, now: Time) {
    && j in s.jobs && s.jobs[j].input.Observe?
    && (if j in s.observations then s.observations[j] <= now
        else s.jobs[j].created <= now - 30 * DAY && s.jobs[j].stop != Some(RetentionExpired))
  }

  function Forgotten(job: Job): Job { job.(result := None, stop := Some(RetentionExpired)) }

  /** Observations past their retention lose their result, their rows and their files. */
  function Expire(s: Tables, now: Time): Tables {
    var gone := set a | a in s.artifacts && Outdated(s, s.artifacts[a].job, now);
    s.(jobs := map j | j in s.jobs :: if Outdated(s, j, now) then Forgotten(s.jobs[j]) else s.jobs[j],
       artifacts := s.artifacts - gone,
       observations := map j | j in s.observations && !Outdated(s, j, now) :: s.observations[j],
       files := s.files - set a | a in gone :: PathOf(s.artifacts[a]))
  }

  function Swept(s: Tables, job: Job, j: JobId, now: Time): Job {
    if && job.state.Running? && job.attempt.Some? && job.attempt.value in s.attempts
       && s.attempts[job.attempt.value].job == j && s.attempts[job.attempt.value].lease < now
    then job.(state := Lost, stop := Some(LeaseRanOut))
    else if job.state.Queued? && job.deadline < now then job.(state := Lost, stop := Some(DeadlineRanOut))
    else job
  }

  /** A job that was asked to stop keeps waiting for its worker's word. */
  function Sweep(s: Tables, cfg: Settings, now: Time): Tables {
    var t := Expire(s, now);
    t.(jobs := map j | j in t.jobs :: Swept(t, t.jobs[j], j, now),
       workers := map w | w in t.workers ::
                    t.workers[w].(online := t.workers[w].online && t.workers[w].heartbeat >= now - cfg.offline))
  }
}
