/** What the consumer's records, latches and answers say, told in their fields and in the status that led to them. */
module Records {
  import opened Options
  import opened Consumer
  import opened Journal
  import opened JournalProofs

  // ---- records ---------------------------------------------------------------------------------------

  predicate Stopped(o: Observation, job: Job) { o.cancelled || job.status == Cancelled }

  predicate WentWrong(o: Observation, job: Job) {
    || o.phase == Rejected || o.phase == Conflict || o.phase == Invalid || o.result == Halted
    || job.status == VerificationFailed || job.status == Failed || job.status == JobHalted
    || job.status == BudgetExhausted
  }

  predicate Final(p: Phase) { p == ReportAccepted || p == Rejected || p == Conflict || p == Invalid }

  /** The state of a verified record: cancelled first, then failed, and otherwise waiting for its review. */
  predicate StateTold(r: Record, o: Observation) {
    && (r.state == CancelledState <==> Stopped(o, r.job))
    && (r.state == ResultFailed <==> !Stopped(o, r.job) && WentWrong(o, r.job))
    && (r.state == ReviewPendingState <==> !Stopped(o, r.job) && !WentWrong(o, r.job))
    && |r.transitions| == 3
    && r.transitions[0].state == Received && r.transitions[1].state == Verified && r.transitions[2].state == r.state
  }

  /** A status is about the candidate and the pinned payload, with a receipt of its own phase if that is a last one. */
  predicate StatusFits(s: Status, candidate: string, pin: Payload) {
    && s.wellFormed && s.candidate == candidate && s.pin == pin
    && (if Final(s.phase) then s.receipt.Some? && s.receipt.value.wellFormed && s.receipt.value.candidate == candidate
                               && s.receipt.value.result == s.phase
        else s.receipt == None)
  }

  /** The observation of a verified record is what its status says about the pinned payload. */
  predicate StatusTold(r: Record, o: Observation) {
    && StatusFits(r.status, r.candidate, r.pin)
    && o.phase == r.status.phase && o.receipt == r.status.receipt && o.result == r.pin.metadata.result
    && o.target.candidate == r.candidate && o.target.pin == r.pin && o.target.patch == r.pin.patch
    && o.target.ids == r.pin.ids
  }

  /** A record says what happened: a verified one as above, any other that verification failed, and why. */
  predicate RecordTells(r: Record) {
    match r.observation
    case Some(o) => StateTold(r, o) && StatusTold(r, o) && r.error == None
    case None =>
      && r.state == FailedState && r.error.Some? && |r.transitions| == 2
      && r.transitions[0].state == Received && r.transitions[1].state == FailedState
  }

  lemma StatesAre(events: seq<Event>, states: seq<StateName>)
    requires States(events) == states
    ensures |events| == |states| && forall k | 0 <= k < |events| :: events[k].state == states[k]
  {
    forall k | 0 <= k < |events| ensures events[k].state == states[k] { assert States(events)[k] == events[k].state; }
  }

  lemma BackedTells(d: Dir, c: Context, r: Record)
    requires Backed(d, c, r)
    ensures RecordTells(r) && r.job == c.job
  {
    match r.observation
    case Some(o) => StatesAre(r.transitions, [Received, Verified, r.state]);
    case None => StatesAre(r.transitions, [Received, FailedState]);
  }

  lemma CommittedBacked(d: Dir, c: Context)
    requires Inv(d, c) && StateReadable(d) && Committed(d).Some?
    ensures Backed(d, c, Committed(d).value)
  {
    hide PreviousOk, Steps, LatchesAllow;
  }

  /** Whatever calls and deaths led there, a committed record says what happened; of a first failure that was mispinned
      only that nothing was verified. */
  lemma RunTells(calls: seq<Call>)
    ensures var d := Run(map[], calls);
            && StateReadable(d)
            && (Committed(d).Some? && Committed(d).value.observation.Some? ==> RecordTells(Committed(d).value))
            && (Committed(d).Some? && !Mispinned(d) ==> RecordTells(Committed(d).value))
  {
    AnyContext();
    RunInv(map[], calls);
    var d := Run(map[], calls);
    SaneReadable(d);
    if !Mispinned(d) && Committed(d).Some? {
      var c: Context :| Inv(d, c);
      CommittedBacked(d, c);
      BackedTells(d, c, Committed(d).value);
    }
    hide RecordTells, Run;
  }

  // ---- answers ---------------------------------------------------------------------------------------

  /** A call is answered only with a verified record. */
  lemma ReturnedVerified(m: Machine, c: Context, i: Input)
    requires RecordResult(m, c, i).reply.Returned?
    ensures RecordResult(m, c, i).reply.record.observation.Some?
  {
    hide Consume, PreviousOk, StateOf, FinishTransaction, CommitState, Recoverable;
  }

  /** The record a call is answered with is the committed one, made from a status that is in order; a new one is made
      from the status of this very call. */
  lemma RepliesTell(m: Machine, c: Context, i: Input)
    requires Sane(m.dir) && RecordResult(m, c, i).reply.Returned?
    ensures var out := RecordResult(m, c, i);
            && RecordTells(out.reply.record) && out.reply.record.observation.Some? && out.reply.record.job == c.job
            && StateReadable(out.m.dir) && StateReadable(m.dir) && Committed(out.m.dir) == Some(out.reply.record)
            && (out.reply.duplicate <==> Committed(m.dir) == Some(out.reply.record))
            && (!out.reply.duplicate ==>
                  && out.reply.record.status == i.status && out.reply.record.candidate == c.candidate
                  && out.reply.record.pin == c.pin && out.reply.record.transitions[0].at == i.at.0
                  && out.reply.record.transitions[1].at == i.at.1 && out.reply.record.transitions[2].at == i.at.2)
  {
    SaneReadable(m.dir);
    CallIsAtomic(m, c, i);
    ReturnedVerified(m, c, i);
    var out := RecordResult(m, c, i);
    hide RecordResult, Sane, Mispinned;
    QuietInv(out.m.dir, c);
    CommittedBacked(out.m.dir, c);
    BackedTells(out.m.dir, c, out.reply.record);
    hide Backed, Quiet, Inv, RecordTells, Steps;
  }

  /** So after any calls and deaths: every answer is a verified record that says what happened, and the committed
      one. */
  lemma RunReplies(calls: seq<Call>, c: Context, i: Input, life: nat)
    requires RecordResult(Machine(Run(map[], calls), life), c, i).reply.Returned?
    ensures var out := RecordResult(Machine(Run(map[], calls), life), c, i);
            && out.reply.record.observation.Some? && StateTold(out.reply.record, out.reply.record.observation.value)
            && StatusTold(out.reply.record, out.reply.record.observation.value)
            && StateReadable(out.m.dir) && Committed(out.m.dir) == Some(out.reply.record)
  {
    AnyContext();
    RunInv(map[], calls);
    RepliesTell(Machine(Run(map[], calls), life), c, i);
    hide RecordResult, Run, Sane, StateTold, StatusTold, Committed;
  }

  /** A status may come after what was observed before: never another target, nothing after a last phase but the same
      receipt again, and not prepared after pending. */
  predicate MayCome(previous: Option<Observation>, s: Status) {
    previous.Some? ==>
      var p := previous.value;
      && p.target.candidate == s.candidate && p.target.pin == s.pin
      && (Final(p.phase) ==> p.phase == s.phase && p.receipt == s.receipt)
      && !(p.phase == Pending && s.phase == Prepared)
  }

  /** The caller's inputs name one target: the payload is the pinned one, names the candidate, and pins the job's
      evidence and the metadata, which are the job's. */
  predicate InputsFit(c: Context) {
    && c.payload == c.pin && c.payload.wellFormed && c.payload.candidate == c.candidate
    && c.payload.artifacts == c.job.artifacts && c.payload.metadata == c.metadata
    && c.metadata.supported && c.metadata.wellFormed && c.metadata.ids == c.payload.ids
  }

  lemma AcceptableExactly(d: Dir, c: Context, i: Input)
    requires Quiet(d, c)
    ensures Acceptable(d, c, i) <==>
              && i.evidence && InputsFit(c) && StatusFits(i.status, c.candidate, c.pin)
              && MayCome(ObservationOf(Current(d)), i.status)
  {
    if Current(d).Some? { QuietTarget(d, c); }
    hide Quiet;
  }

  lemma QuietTarget(d: Dir, c: Context)
    requires Quiet(d, c) && Current(d).Some?
    ensures ObservationOf(Current(d)).Some? ==> ObservationOf(Current(d)).value.target == TargetOf(c)
  {}

  /** Which calls are answered in a directory in order, given life enough: those in the context of its record, if it has
      one, whose inputs fit the job and whose status may come. */
  lemma AnsweredExactly(m: Machine, c: Context, i: Input)
    requires Quiet(m.dir, c) && m.life >= 10
    ensures RecordResult(m, c, i).reply.Returned? <==>
              && i.evidence && InputsFit(c) && StatusFits(i.status, c.candidate, c.pin)
              && MayCome(ObservationOf(Current(m.dir)), i.status)
              && c.metadata.ids.run == c.job.id && c.metadata.ids.experiment == c.job.id + "-audit"
              && c.metadata.ids.commit == c.job.base
  {
    AcceptableExactly(m.dir, c, i);
    if BoundToJob(c) && Acceptable(m.dir, c, i) {
      AcceptableStatusCommits(m, c, i);
    } else if BoundToJob(c) {
      RefusedUnanswered(m, c, i);
    }
    hide Quiet, InputsFit, StatusFits, MayCome, Acceptable, Advance, Settled;
  }

  lemma RefusedUnanswered(m: Machine, c: Context, i: Input)
    requires Quiet(m.dir, c) && !Acceptable(m.dir, c, i) && BoundToJob(c)
    ensures !RecordResult(m, c, i).reply.Returned?
  {
    SnapshotsCalm(m, c, i);
    AdvanceWays(m, c, i, Current(m.dir));
    SameCancel(m.dir, Inputs(m, c).m.dir, c, i);
    hide Quiet, Inputs, Snapshots, PreviousOk, Consume, CommitState, AndThen, FailedRecord;
  }

  /** Cancellation as it stands when the call decides: asked for now, by the job, or recorded before. */
  lemma CancellationTold(m: Machine, c: Context, i: Input)
    requires Quiet(m.dir, c) && RecordResult(m, c, i).reply.Returned?
    ensures RecordResult(m, c, i).reply.record.observation.Some?
    ensures RecordResult(m, c, i).reply.record.observation.value.cancelled <==>
              || i.cancel || c.job.status == Cancelled
              || (ObservationOf(Current(m.dir)).Some? && ObservationOf(Current(m.dir)).value.cancelled)
  {
    ReturnedVerified(m, c, i);
    var saved := Current(m.dir);
    SnapshotsCalm(m, c, i);
    SameCancel(m.dir, Inputs(m, c).m.dir, c, i);
    AdvanceWays(m, c, i, saved);
    CancelFileTold(m.dir, c);
    var k := CancelledNow(m.dir, c, i);
    ConsumedCancel(c, i, ObservationOf(saved), k);
    assert CancelledNow(m.dir, c, i) <==> i.cancel || c.job.status == Cancelled || CancelledFile in m.dir;
    hide Quiet, Inputs, Snapshots, PreviousOk, Consume, CommitState, AndThen, FailedRecord, CancelledNow, StateOf;
  }

  lemma CancelFileTold(d: Dir, c: Context)
    requires Quiet(d, c)
    ensures CancelledFile in d <==> ObservationOf(Current(d)).Some? && ObservationOf(Current(d)).value.cancelled
  {}

  lemma ConsumedCancel(c: Context, i: Input, previous: Option<Observation>, cancelled: bool)
    ensures var o := Consume(c, i.status, i.evidence, previous, cancelled);
            o.Some? ==> (o.value.cancelled <==> cancelled || (previous.Some? && previous.value.cancelled))
  {}

  /** In a directory in order the latches repeat the record: one for a last phase, with its receipt, one for a
      cancellation. */
  lemma LatchesTell(d: Dir, c: Context)
    requires Quiet(d, c)
    ensures var o := ObservationOf(Current(d));
            && (TerminalFile in d <==> o.Some? && Final(o.value.phase))
            && (TerminalFile in d ==>
                  d[TerminalFile] == TerminalDoc(c.job, o.value.target, o.value.phase, o.value.receipt))
            && (CancelledFile in d <==> o.Some? && o.value.cancelled)
            && (CancelledFile in d ==> d[CancelledFile] == CancelledDoc(c.job, o.value.target))
  {}

  /** The history in plain words: over any calls and deaths an observation keeps its target, a last phase and its
      receipt, never goes back from pending to prepared, and stays cancelled. */
  lemma HistoryTells(d: Dir, calls: seq<Call>)
    requires Sane(d) && StateReadable(d) && ObservationOf(Committed(d)).Some?
    ensures StateReadable(Run(d, calls)) && ObservationOf(Committed(Run(d, calls))).Some?
    ensures var a, b := ObservationOf(Committed(d)).value, ObservationOf(Committed(Run(d, calls))).value;
            && b.target == a.target
            && (Final(a.phase) ==> b.phase == a.phase && b.receipt == a.receipt)
            && !(a.phase == Pending && b.phase == Prepared)
            && (a.cancelled ==> b.cancelled)
  {
    HistoryIsMonotone(d, calls);
    hide Sane, Run, Committed;
  }

  /** What a status that cannot be taken leaves in a directory in order: the first time a failed record, after a
      verified one a report beside it. */
  lemma RefusalTold(m: Machine, c: Context, i: Input)
    requires Quiet(m.dir, c) && c.payload == c.pin && c.metadata.supported && BoundToJob(c)
    requires m.life >= 10 && !Acceptable(m.dir, c, i)
    ensures var out := RecordResult(m, c, i);
            var saved := Current(m.dir);
            && out.reply == Failure && StateReadable(out.m.dir)
            && Holds(out.m.dir, StatusFile(i.status), StatusDoc(i.status))
            && (ObservationOf(saved).None? ==>
                  Current(out.m.dir).Some?
                  && (var r := Current(out.m.dir).value;
                      && r.state == FailedState && r.observation == None && r.error == Some(i.error)
                      && r.job == c.job && r.candidate == c.candidate && r.pin == c.pin && r.status == i.status
                      && r.transitions == [Event(Received, i.at.0), Event(FailedState, i.at.1)]))
            && (ObservationOf(saved).Some? ==>
                  && Current(out.m.dir) == saved
                  && (var report := Report(c.job, i.status, saved.value, i.error);
                      Holds(out.m.dir, FailureFile(report), FailureDoc(report))))
  {
    if Current(m.dir).Some? { QuietPasses(m.dir, c); }
    var saved := Current(m.dir);
    SnapshotsCalm(m, c, i);
    SameCancel(m.dir, Inputs(m, c).m.dir, c, i);
    AdvanceWays(m, c, i, saved);
    var p := Snapshots(m, c, i);
    RefusedStep(p.m, c, i, saved, m.dir);
    hide Quiet, Inputs, Snapshots, PreviousOk, Consume, CommitState, AndThen, FailedRecord, Decide;
  }

  lemma RefusedStep(m: Machine, c: Context, i: Input, saved: Option<Record>, d: Dir)
    ensures m.life >= 7 && Quiet(m.dir, c) && Current(m.dir) == saved
            && Consume(c, i.status, i.evidence, ObservationOf(saved), CancelledNow(d, c, i)).None? ==>
              RefusedTo(m, Decide(m, c, i, saved, CancelledNow(d, c, i)), c, i, saved)
  {
    hide Consume, PreviousOk, CommitState, CancelledNow, NewRecord;
    if saved.Some? && Quiet(m.dir, c) {
      var report := Report(c.job, i.status, saved.value, i.error);
      assert FailureFile(report) in m.dir ==> Matches(FailureFile(report), m.dir[FailureFile(report)], c);
    }
  }

  ghost predicate RefusedTo(m: Machine, out: Outcome, c: Context, i: Input, saved: Option<Record>) {
    && out.reply == Failure
    && if ObservationOf(saved).None?
       then out.m.dir == m.dir[StateFile := RecordDoc(Record(c.job, c.candidate, c.pin, i.status, FailedState,
                                 [Event(Received, i.at.0), Event(FailedState, i.at.1)], None, Some(i.error)))]
       else var report := Report(c.job, i.status, saved.value, i.error);
            out.m.dir == m.dir[FailureFile(report) := FailureDoc(report)]
  }
}
