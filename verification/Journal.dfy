/** The consumer sidecar: a write-ahead journal over a directory of immutable snapshots and latches.
    The process may die before any file step, also while it repairs an earlier death. */
module Journal {
  import opened Options
  import opened Consumer

  datatype StateName = Received | Verified | ReviewPendingState | ResultFailed | CancelledState | FailedState

  datatype Event = Event(state: StateName, at: int)

  datatype ErrorKind = ConsumerError | GateError | OtherError

  datatype Record = Record(job: Job, candidate: string, pin: Payload, status: Status, state: StateName,
                           transitions: seq<Event>, observation: Option<Observation>, error: Option<ErrorKind>)

  datatype Report = Report(job: Job, status: Status, prior: Record, error: ErrorKind)

  datatype FileName =
    | PayloadFile | MetadataFile | StateFile | TransactionFile | TerminalFile | CancelledFile
    | CheckpointFile(record: Record) | StatusFile(status: Status) | FailureFile(report: Report)

  datatype Content =
    | PayloadDoc(payload: Payload)
    | MetadataDoc(metadata: Metadata)
    | RecordDoc(record: Record)
    | StatusDoc(status: Status)
    | JournalDoc(job: Job, prior: Option<Record>, next: Record)
    | TerminalDoc(job: Job, target: Target, phase: Phase, receipt: Option<Receipt>)
    | CancelledDoc(job: Job, target: Target)
    | FailureDoc(report: Report)

  type Dir = map<FileName, Content>

  /** A directory and the number of file steps the process still lives to take. */
  datatype Machine = Machine(dir: Dir, life: nat)

  datatype Exit = Done | Refused | Died

  datatype Progress = Progress(m: Machine, exit: Exit)

  // ---- atomic file steps -----------------------------------------------------------------------

  datatype Step = Retain(name: FileName, doc: Content) | Replace(name: FileName, doc: Content) | Unlink(name: FileName)

  function DoStep(m: Machine, s: Step): Progress {
    match s
    case Retain(n, doc) =>
      if n in m.dir then Progress(m, if m.dir[n] == doc then Done else Refused)
      else if m.life == 0 then Progress(m, Died)
      else Progress(Machine(m.dir[n := doc], m.life - 1), Done)
    case Replace(n, doc) =>
      if m.life == 0 then Progress(m, Died) else Progress(Machine(m.dir[n := doc], m.life - 1), Done)
    case Unlink(n) =>
      if n !in m.dir then Progress(m, Refused)
      else if m.life == 0 then Progress(m, Died)
      else Progress(Machine(m.dir - {n}, m.life - 1), Done)
  }

  /** Take one more step unless an earlier one ended the run; `None` is a step that is skipped. */
  function AndThen(p: Progress, s: Option<Step>): Progress {
    if p.exit == Done && s.Some? then DoStep(p.m, s.value) else p
  }

  // ---- records -------------------------------------------------------------------------------

  function StateOf(o: Observation, job: Job): StateName {
    if o.cancelled || job.status == Cancelled then CancelledState
    else if o.phase in {Rejected, Conflict, Invalid} || o.result == Halted
            || job.status in {VerificationFailed, Failed, JobHalted, BudgetExhausted} then ResultFailed
    else ReviewPendingState
  }

  function States(events: seq<Event>): seq<StateName> {
    seq(|events|, i requires 0 <= i < |events| => events[i].state)
  }

  function TerminalOf(o: Observation, job: Job): Content {
    TerminalDoc(job, o.target, o.phase, o.receipt)
  }

  function CancellationOf(o: Observation, job: Job): Content {
    CancelledDoc(job, o.target)
  }

  /** A terminal latch, once written, agrees with the observation; likewise the cancellation latch. */
  predicate LatchesAllow(d: Dir, o: Observation, job: Job) {
    && (TerminalFile in d ==> o.phase.Terminal() && d[TerminalFile] == TerminalOf(o, job))
    && (CancelledFile in d ==> o.cancelled && d[CancelledFile] == CancellationOf(o, job))
  }

  predicate Holds(d: Dir, n: FileName, doc: Content) {
    n in d && d[n] == doc
  }

  /** Revalidation of a saved record against the retained snapshots. */
  predicate PreviousOk(d: Dir, r: Record, c: Context, checkLatches: bool) {
    && r.job == c.job && r.candidate == c.candidate && r.pin == c.pin
    && Holds(d, StatusFile(r.status), StatusDoc(r.status))
    && c.payload == c.pin
    && Holds(d, PayloadFile, PayloadDoc(c.payload)) && Holds(d, MetadataFile, MetadataDoc(c.metadata))
    && match r.observation
       case None =>
         r.state == FailedState && r.error.Some? && States(r.transitions) == [Received, FailedState]
       case Some(o) =>
         && r.error.None?
         && Holds(d, CheckpointFile(r), RecordDoc(r))
         && BoundToJob(c)
         && StatusObservation(r.status, TargetOf(c), c.metadata.result, o.cancelled) == Some(o)
         && r.state == StateOf(o, c.job)
         && (checkLatches ==> LatchesAllow(d, o, c.job))
         && States(r.transitions) == [Received, Verified, r.state]
  }

  // ---- finishing and recovering a transaction ----------------------------------------------------

  function FinishTransaction(m: Machine, r: Record, o: Observation, job: Job): Progress {
    var latchTerminal := TerminalFile in m.dir || o.phase.Terminal();
    var latch := if latchTerminal then Some(Retain(TerminalFile, TerminalOf(o, job))) else None;
    var p1 := AndThen(Progress(m, Done), latch);
    var p2 := AndThen(p1, if o.cancelled then Some(Retain(CancelledFile, CancellationOf(o, job))) else None);
    var p3 := AndThen(p2, Some(Replace(StateFile, RecordDoc(r))));
    AndThen(p3, Some(Unlink(TransactionFile)))
  }

  function CommitState(m: Machine, r: Record, o: Observation, prior: Option<Record>): Progress {
    var kept := if prior.Some? then Some(Retain(CheckpointFile(prior.value), RecordDoc(prior.value))) else None;
    var p1 := AndThen(Progress(m, Done), kept);
    var p2 := AndThen(p1, Some(Retain(CheckpointFile(r), RecordDoc(r))));
    var p3 := AndThen(p2, Some(Retain(TransactionFile, JournalDoc(r.job, prior, r))));
    if p3.exit == Done then FinishTransaction(p3.m, r, o, r.job) else p3
  }

  function ObservationOf(r: Option<Record>): Option<Observation> {
    if r.Some? then r.value.observation else None
  }

  /** Every check recovery makes before it touches the directory. */
  predicate Recoverable(d: Dir, current: Option<Record>, c: Context, evidence: bool) {
    && TransactionFile in d && d[TransactionFile].JournalDoc? && d[TransactionFile].job == c.job
    && var prior, next := d[TransactionFile].prior, d[TransactionFile].next;
    && prior != Some(next)
    && (current == prior || current == Some(next))
    && (prior.Some? ==>
          Holds(d, CheckpointFile(prior.value), RecordDoc(prior.value)) && PreviousOk(d, prior.value, c, false))
    && Holds(d, CheckpointFile(next), RecordDoc(next)) && PreviousOk(d, next, c, true)
    && next.observation.Some?
    && Consume(c, next.status, evidence, ObservationOf(prior), next.observation.value.cancelled) == next.observation
  }

  function RecoverTransaction(m: Machine, current: Option<Record>, c: Context, evidence: bool): Progress {
    if Recoverable(m.dir, current, c, evidence) then
      var next := m.dir[TransactionFile].next;
      FinishTransaction(m, next, next.observation.value, c.job)
    else Progress(m, Refused)
  }

  // ---- one call --------------------------------------------------------------------------------

  /** What differs from call to call: the status, the outside world and the clock. */
  datatype Input = Input(status: Status, evidence: bool, cancel: bool, at: (int, int, int), error: ErrorKind)

  datatype Reply = Returned(record: Record, duplicate: bool) | Failure | Crash

  datatype Outcome = Outcome(m: Machine, reply: Reply)

  predicate StateReadable(d: Dir) {
    StateFile in d ==> d[StateFile].RecordDoc?
  }

  function Current(d: Dir): Option<Record>
    requires StateReadable(d)
  {
    if StateFile in d then Some(d[StateFile].record) else None
  }

  function NewRecord(c: Context, i: Input, o: Observation): Record {
    var state := StateOf(o, c.job);
    Record(c.job, c.candidate, c.pin, i.status, state,
           [Event(Received, i.at.0), Event(Verified, i.at.1), Event(state, i.at.2)], Some(o), None)
  }

  function FailedRecord(c: Context, i: Input): Record {
    Record(c.job, c.candidate, c.pin, i.status, FailedState,
           [Event(Received, i.at.0), Event(FailedState, i.at.1)], None, Some(i.error))
  }

  function CancelledNow(d: Dir, c: Context, i: Input): bool {
    i.cancel || c.job.status == Cancelled || CancelledFile in d
  }

  function Finish(p: Progress, done: Reply): Outcome {
    Outcome(p.m, match p.exit case Done => done case Refused => Failure case Died => Crash)
  }

  /** The rest of a call once the saved state is settled and revalidated. */
  function Advance(m: Machine, c: Context, i: Input, saved: Option<Record>): Outcome {
    var p1 := AndThen(Progress(m, Done), Some(Retain(PayloadFile, PayloadDoc(c.payload))));
    var p2 := AndThen(p1, Some(Retain(MetadataFile, MetadataDoc(c.metadata))));
    if p2.exit != Done then Finish(p2, Failure)
    else
      var previous := ObservationOf(saved);
      var p3 := AndThen(p2, Some(Retain(StatusFile(i.status), StatusDoc(i.status))));
      match Consume(c, i.status, i.evidence, previous, CancelledNow(p2.m.dir, c, i))
      case None =>
        var last := if previous.None? then Replace(StateFile, RecordDoc(FailedRecord(c, i)))
                    else var report := Report(c.job, i.status, saved.value, i.error);
                      Retain(FailureFile(report), FailureDoc(report));
        Finish(AndThen(p3, Some(last)), Failure)
      case Some(o) =>
        if Some(o) == previous then Outcome(p2.m, Returned(saved.value, true))
        else if p3.exit != Done then Finish(p3, Failure)
        else Finish(CommitState(p3.m, NewRecord(c, i, o), o, saved), Returned(NewRecord(c, i, o), false))
  }

  function RecordResult(m: Machine, c: Context, i: Input): Outcome {
    if !c.metadata.supported || !BoundToJob(c) || !StateReadable(m.dir) then Outcome(m, Failure)
    else
      var current := Current(m.dir);
      if TransactionFile in m.dir then
        var p := RecoverTransaction(m, current, c, i.evidence);
        if p.exit != Done then Finish(p, Failure)
        else Settled(p.m, c, i, Some(m.dir[TransactionFile].next))
      else Settled(m, c, i, current)
  }

  function Settled(m: Machine, c: Context, i: Input, saved: Option<Record>): Outcome {
    if saved.Some? && !PreviousOk(m.dir, saved.value, c, true) then Outcome(m, Failure)
    else Advance(m, c, i, saved)
  }

  /** The record the directory stands for: the journal's target while one is open, else the saved one. */
  function Committed(d: Dir): Option<Record>
    requires StateReadable(d)
  {
    if TransactionFile in d && d[TransactionFile].JournalDoc? then Some(d[TransactionFile].next) else Current(d)
  }
}
