/** Reading one producer status against the evidence a worker job was frozen with. */
module Consumer {
  import opened Options

  datatype Phase = Prepared | Pending | ReportAccepted | Rejected | Conflict | Invalid {
    predicate Terminal() {
      !Prepared? && !Pending?
    }

    /** Position in the only order in which committed phases may move. */
    function Rank(): nat {
      match this
      case Prepared => 0
      case Pending => 1
      case _ => 2
    }
  }

  datatype WorkerResult = StrictPass | Halted | ExternalReview

  datatype Ids = Ids(experiment: string, run: string, attempt: string, commit: string)

  datatype JobStatus =
    ReviewPending | ReviewReady | VerificationFailed | Failed | Cancelled | JobHalted | BudgetExhausted

  /** The worker's artifacts by name, the evidence manifest among them. */
  type Artifacts = map<string, string>

  /** A stopped job: its file, and the evidence it was frozen with. */
  datatype Job = Job(id: string, base: string, status: JobStatus, artifacts: Artifacts)

  /** Decoded inputs; a digest is represented by the document it identifies. `wellFormed` stands for
      the checks on one document alone (JSON shape, schema versions, sizes, timestamps, valid names), for a
      payload also on the documents it pins; `supported` for the adapter checks made before anything is
      written. */
  datatype Metadata = Metadata(supported: bool, wellFormed: bool, ids: Ids, result: WorkerResult)

  datatype Payload = Payload(wellFormed: bool, candidate: string, patch: string, ids: Ids, metadata: Metadata,
                             artifacts: Artifacts)

  datatype Receipt = Receipt(wellFormed: bool, candidate: string, result: Phase, body: string)

  datatype Status = Status(wellFormed: bool, candidate: string, pin: Payload, phase: Phase, receipt: Option<Receipt>)

  datatype Target = Target(candidate: string, pin: Payload, patch: string, ids: Ids)

  datatype Observation = Observation(target: Target, phase: Phase, result: WorkerResult,
                                     receipt: Option<Receipt>, cancelled: bool)

  /** What stays fixed over the life of one sidecar: the stopped job and the caller's pinned inputs. */
  datatype Context = Context(job: Job, candidate: string, pin: Payload, payload: Payload, metadata: Metadata)

  predicate BoundToJob(c: Context) {
    c.metadata.ids.run == c.job.id && c.metadata.ids.experiment == c.job.id + "-audit"
    && c.metadata.ids.commit == c.job.base
  }

  function TargetOf(c: Context): Target {
    Target(c.candidate, c.pin, c.payload.patch, c.metadata.ids)
  }

  /** The payload is the pinned one, and metadata and artifacts are those it pins, so they name one review target. */
  predicate Binds(c: Context) {
    && c.pin == c.payload && c.payload.wellFormed && c.payload.candidate == c.candidate
    && c.payload.artifacts == c.job.artifacts
    && c.metadata == c.payload.metadata && c.metadata.supported && c.metadata.wellFormed
    && c.metadata.ids == c.payload.ids
  }

  /** Receipt semantics of a status for an already bound target. */
  function StatusObservation(s: Status, t: Target, result: WorkerResult, cancelled: bool): Option<Observation> {
    if !s.wellFormed || s.candidate != t.candidate || s.pin != t.pin then None
    else if s.phase.Terminal() then
      match s.receipt
      case None => None
      case Some(r) =>
        if r.wellFormed && r.candidate == t.candidate && r.result == s.phase
        then Some(Observation(t, s.phase, result, s.receipt, cancelled)) else None
    else if s.receipt.Some? then None
    else Some(Observation(t, s.phase, result, None, cancelled))
  }

  /** The order rules for a status that follows an earlier observation. */
  predicate MayFollow(previous: Option<Observation>, target: Target, phase: Phase, receipt: Option<Receipt>) {
    previous.Some? ==>
      var p := previous.value;
      && p.target == target
      && (p.phase.Terminal() ==> p.phase == phase && p.receipt == receipt)
      && !(p.phase == Pending && phase == Prepared)
  }

  /** Accept a status, or None when the evidence, the status or the order rules reject it. `evidence`
      says that the job's directory holds the frozen evidence intact. */
  function Consume(c: Context, s: Status, evidence: bool, previous: Option<Observation>, cancelled: bool)
    : Option<Observation>
  {
    if !evidence || !Binds(c) then None
    else
      match StatusObservation(s, TargetOf(c), c.metadata.result, false)
      case None => None
      case Some(o) =>
        if MayFollow(previous, o.target, o.phase, o.receipt)
        then Some(o.(cancelled := cancelled || (previous.Some? && previous.value.cancelled)))
        else None
  }
}
