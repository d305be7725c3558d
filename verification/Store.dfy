/** The tables of the job manager and the questions its operations ask of them. */
module Store {
  import opened Options
  import opened Activity

  type JobId = nat
  type AttemptId = nat
  type WorkerId = nat
  type ArtifactId = nat
  type Token = nat
  type Blob = seq<nat>

  datatype Settings = Settings(ttl: int, offline: int, maxArtifacts: nat)

  datatype Limits = Limits(maxQueries: int, search: int, maxSources: int, fetch: int, model: int, cacheBytes: int,
                           seconds: int)

  datatype Usage = Usage(search: nat, fetch: nat, model: nat, documentBytes: nat)

  datatype Input = Search(text: string) | Extract(text: string) | Observe(scope: ObserveInput)

  /** The reserved target "auto" is no worker's name. */
  datatype Target = Auto | To(worker: WorkerId)

  datatype State = Queued | Running | CancelRequested | Completed | PartialResult | Failed | Cancelled | Lost

  datatype Status = Succeeded | PartialStatus | FailedStatus | CancelledStatus

  /** The manager's own reasons by name, any other by its text. */
  datatype Stop = CancelledByRequester | LeaseRanOut | DeadlineRanOut | RetentionExpired | Other(text: string)

  datatype Ref = Ref(id: ArtifactId, name: string, media: string, bytes: nat, digest: Blob, schema: nat)

  datatype Payload = SearchPayload | ExtractPayload | ObservePayload(report: Report)

  datatype Pack = Pack(job: JobId, attempt: AttemptId, status: Status, stop: Option<Stop>, usage: Usage,
                       payload: Payload, manifest: seq<Ref>)

  /** `serial` counts the submissions that came before. */
  datatype Job = Job(serial: nat, key: string, parent: Option<JobId>, input: Input, target: Target, budget: Limits,
                     created: Time, deadline: Time, state: State, worker: Option<WorkerId>,
                     attempt: Option<AttemptId>, attempts: nat, stop: Option<Stop>, result: Option<Pack>)

  datatype Attempt = Attempt(job: JobId, worker: WorkerId, token: Token, lease: Time, number: nat, created: Time,
                             finalized: Option<Time>)

  datatype Capability = CollectCapability | ObserveCapability | ChannelCapability(guild: Id, channel: Id)

  datatype Worker = Worker(capabilities: set<Capability>, contract: nat, concurrency: nat, online: bool,
                           heartbeat: Time)

  datatype Artifact = Artifact(job: JobId, attempt: AttemptId, ref: Ref)

  datatype Path = Path(job: JobId, attempt: AttemptId, name: string)

  /** `issued` holds every identifier ever drawn at random: none is drawn twice. */
  datatype Tables = Tables(
    jobs: map<JobId, Job>, attempts: map<AttemptId, Attempt>, workers: map<WorkerId, Worker>,
    artifacts: map<ArtifactId, Artifact>, observations: map<JobId, Time>, files: map<Path, Blob>,
    issued: set<nat>, submitted: nat)

  datatype Refusal =
    | UnknownJob | UnknownParent | SubmitKeyConflict | ParentNotTerminal | ChildDeadline | ChildBudget
    | ParentKindMismatch | LeaseConflict | AttemptNotActive | LeaseExpired | ResultConflict | AttemptMismatch
    | ModeMismatch | PayloadMismatch | ObservationRefused(why: Activity.Refusal) | CancelConflict | NotRunnable
    | ArtifactMissing | ArtifactMismatch | NotRetryable | NoRemainingTime | NoRemainingBudget | InvalidPayload
    | NotTerminal | ArtifactSize | ArtifactDigest | ArtifactName | ArtifactMedia | UnknownAttempt
    | ArtifactIdConflict | ArtifactBytes | ArtifactCount | ArtifactNameConflict

  const CONTRACT: nat := 4

  predicate Terminal(s: State) {
    s.Completed? || s.PartialResult? || s.Failed? || s.Cancelled? || s.Lost?
  }

  predicate Active(s: State) { s.Running? || s.CancelRequested? }

  predicate FieldsInRange(b: Limits) {
    && 1 <= b.maxQueries <= 30 && 1 <= b.search <= 100 && 1 <= b.maxSources <= 30 && 1 <= b.fetch <= 100
    && 1 <= b.model <= 100 && 1024 <= b.cacheBytes <= 512 * 1024 * 1024 && 0 < b.seconds <= 7200 * SECOND
  }

  /** What parsing an input already guarantees of an observation. */
  predicate ValidInput(i: Input) {
    i.Observe? ==> 1 <= |i.scope.channels| <= 30 && Unique(i.scope.channels) && 1 <= i.scope.perChannel <= 2000
  }

  function Required(i: Input): set<Capability> {
    match i
    case Observe(o) => {ObserveCapability} + set c | c in o.channels :: ChannelCapability(o.guild, c)
    case _ => {CollectCapability}
  }

  predicate SameMode(i: Input, p: Payload) {
    (i.Search? <==> p.SearchPayload?) && (i.Extract? <==> p.ExtractPayload?)
  }

  predicate SameKind(a: Input, b: Input) { a.Observe? <==> b.Observe? }

  // ---- lineages --------------------------------------------------------------------------------

  /** A job is submitted after its parent. */
  predicate Rooted(jobs: map<JobId, Job>) {
    forall j | j in jobs && jobs[j].parent.Some? && jobs[j].parent.value in jobs ::
      jobs[jobs[j].parent.value].serial < jobs[j].serial
  }

  /** Following parents upwards: the first job without one, unless a parent has been deleted. */
  function RootOf(jobs: map<JobId, Job>, j: JobId): Option<JobId>
    requires Rooted(jobs) && j in jobs
    decreases jobs[j].serial
  {
    match jobs[j].parent
    case None => Some(j)
    case Some(p) => if p in jobs then RootOf(jobs, p) else None
  }

  // ---- workers -----------------------------------------------------------------------------------

  function ActiveJobs(s: Tables, w: WorkerId): set<JobId> {
    set j | j in s.jobs && s.jobs[j].worker == Some(w) && Active(s.jobs[j].state)
  }

  function AttemptsOf(s: Tables, w: WorkerId): set<AttemptId> {
    set a | a in s.attempts && s.attempts[a].worker == w
  }

  /** The time of the latest assignment to the worker, 0 without one. */
  predicate IsAssigned(s: Tables, w: WorkerId, t: Time) {
    if AttemptsOf(s, w) == {} then t == 0
    else (exists a | a in AttemptsOf(s, w) :: s.attempts[a].created == t)
         && forall a | a in AttemptsOf(s, w) :: s.attempts[a].created <= t
  }

  predicate Present(s: Tables, cfg: Settings, w: WorkerId, now: Time) {
    w in s.workers && s.workers[w].online && s.workers[w].heartbeat >= now - cfg.offline
    && s.workers[w].contract == CONTRACT
  }

  predicate Eligible(s: Tables, cfg: Settings, job: Job, w: WorkerId, now: Time) {
    Present(s, cfg, w, now) && |ActiveJobs(s, w)| < s.workers[w].concurrency
    && Required(job.input) <= s.workers[w].capabilities
  }

  /** The order workers are tried in: load (as a fraction), latest assignment, name. */
  datatype Rank = Rank(active: nat, concurrency: nat, latest: Time, worker: WorkerId)

  predicate Before(a: Rank, b: Rank) {
    || a.active * b.concurrency < b.active * a.concurrency
    || (a.active * b.concurrency == b.active * a.concurrency
        && (a.latest < b.latest || (a.latest == b.latest && a.worker <= b.worker)))
  }

  /** `r` describes worker `w` as it stands. */
  predicate Ranks(s: Tables, w: WorkerId, r: Rank) {
    && w in s.workers && r.worker == w && r.active == |ActiveJobs(s, w)| && r.concurrency == s.workers[w].concurrency
    && IsAssigned(s, w, r.latest)
  }

  /** `w` is eligible for the job and no eligible worker comes before it. */
  ghost predicate Leads(s: Tables, cfg: Settings, job: Job, w: WorkerId, now: Time) {
    && Eligible(s, cfg, job, w, now)
    && forall v, a: Rank, b: Rank | Eligible(s, cfg, job, v, now) && Ranks(s, w, a) && Ranks(s, v, b) :: Before(a, b)
  }

  predicate Open(s: Tables, w: WorkerId, j: JobId, now: Time) {
    && j in s.jobs && s.jobs[j].state.Queued? && (s.jobs[j].target == Auto || s.jobs[j].target == To(w))
    && s.jobs[j].deadline > now
  }

  /** Whether worker `w` may take job `j`. */
  ghost predicate Takes(s: Tables, cfg: Settings, w: WorkerId, j: JobId, now: Time) {
    && Open(s, w, j, now) && w in s.workers && Required(s.jobs[j].input) <= s.workers[w].capabilities
    && (s.jobs[j].target == Auto ==> Leads(s, cfg, s.jobs[j], w, now))
  }

  predicate Older(jobs: map<JobId, Job>, i: JobId, j: JobId)
    requires i in jobs && j in jobs
  {
    jobs[i].created < jobs[j].created || (jobs[i].created == jobs[j].created && i <= j)
  }

  // ---- artifacts -------------------------------------------------------------------------------

  function ArtifactsOf(s: Tables, j: JobId): set<ArtifactId> {
    set a | a in s.artifacts && s.artifacts[a].job == j
  }

  function PathOf(a: Artifact): Path { Path(a.job, a.attempt, a.ref.name) }

  predicate Letter(c: char) { 'a' <= c <= 'z' || 'A' <= c <= 'Z' || '0' <= c <= '9' }

  predicate SafeName(n: string) {
    1 <= |n| <= 200 && Letter(n[0]) && forall c | c in n :: Letter(c) || c in "._-"
  }

  const MEDIA: set<string> := {"application/json", "text/html", "application/pdf", "text/plain"}
}
