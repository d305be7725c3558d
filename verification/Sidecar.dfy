/** The journal in the form the program has: one object that writes and unlinks files step by step. */
module JournalSidecar {
  import opened Options
  import opened Consumer
  import opened Journal

  /** The directory as an object: every write first asks whether the process is still alive. */
  class Sidecar {
    var files: Dir
    var life: nat

    constructor (files: Dir, life: nat)
      ensures this.files == files && this.life == life
    {
      this.files, this.life := files, life;
    }

    ghost function View(): Machine
      reads this
    {
      Machine(files, life)
    }

    method RetainFile(name: FileName, doc: Content) returns (e: Exit)
      modifies this
      ensures Progress(View(), e) == DoStep(old(View()), Retain(name, doc))
    {
      if name in files {
        return if files[name] == doc then Done else Refused;
      }
      e := ReplaceFile(name, doc);
    }

    method ReplaceFile(name: FileName, doc: Content) returns (e: Exit)
      modifies this
      ensures Progress(View(), e) == DoStep(old(View()), Replace(name, doc))
    {
      if life == 0 { return Died; }
      files, life := files[name := doc], life - 1;
      return Done;
    }

    method UnlinkFile(name: FileName) returns (e: Exit)
      modifies this
      ensures Progress(View(), e) == DoStep(old(View()), Unlink(name))
    {
      if name !in files { return Refused; }
      if life == 0 { return Died; }
      files, life := files - {name}, life - 1;
      return Done;
    }

    method FinishTransaction(r: Record, o: Observation, job: Job) returns (e: Exit)
      modifies this
      ensures Progress(View(), e) == Journal.FinishTransaction(old(View()), r, o, job)
    {
      if TerminalFile in files || o.phase.Terminal() {
        e := RetainFile(TerminalFile, TerminalOf(o, job));
        if e != Done { return; }
      }
      if o.cancelled {
        e := RetainFile(CancelledFile, CancellationOf(o, job));
        if e != Done { return; }
      }
      e := ReplaceFile(StateFile, RecordDoc(r));
      if e != Done { return; }
      e := UnlinkFile(TransactionFile);
    }

    method CommitState(r: Record, o: Observation, prior: Option<Record>) returns (e: Exit)
      modifies this
      ensures Progress(View(), e) == Journal.CommitState(old(View()), r, o, prior)
    {
      if prior.Some? {
        e := RetainFile(CheckpointFile(prior.value), RecordDoc(prior.value));
        if e != Done { return; }
      }
      e := RetainFile(CheckpointFile(r), RecordDoc(r));
      if e != Done { return; }
      e := RetainFile(TransactionFile, JournalDoc(r.job, prior, r));
      if e != Done { return; }
      e := FinishTransaction(r, o, r.job);
    }

    method RecoverTransaction(current: Option<Record>, c: Context, evidence: bool) returns (e: Exit)
      modifies this
      ensures Progress(View(), e) == Journal.RecoverTransaction(old(View()), current, c, evidence)
    {
      if !Recoverable(files, current, c, evidence) { return Refused; }
      var next := files[TransactionFile].next;
      e := FinishTransaction(next, next.observation.value, c.job);
    }

    /** Record one producer status: recover, revalidate, retain the inputs, consume, commit. */
    method RecordResult(c: Context, i: Input) returns (reply: Reply)
      modifies this
      ensures Outcome(View(), reply) == Journal.RecordResult(old(View()), c, i)
    {
      hide PreviousOk, Consume, Journal.CommitState, Journal.FinishTransaction;
      if !c.metadata.supported || !BoundToJob(c) || !StateReadable(files) {
        return Failure;
      }
      var saved := Current(files);
      if TransactionFile in files {
        var next := Committed(files);
        var e := RecoverTransaction(saved, c, i.evidence);
        if e != Done { return if e == Died then Crash else Failure; }
        saved := next;
      }
      if saved.Some? && !PreviousOk(files, saved.value, c, true) {
        return Failure;
      }
      reply := AdvanceState(c, i, saved);
    }

    method AdvanceState(c: Context, i: Input, saved: Option<Record>) returns (reply: Reply)
      modifies this
      ensures Outcome(View(), reply) == Advance(old(View()), c, i, saved)
    {
      hide PreviousOk, Recoverable, Consume, Journal.CommitState, Journal.FinishTransaction;
      var e := RetainFile(PayloadFile, PayloadDoc(c.payload));
      if e != Done { return if e == Died then Crash else Failure; }
      e := RetainFile(MetadataFile, MetadataDoc(c.metadata));
      if e != Done { return if e == Died then Crash else Failure; }
      var previous := ObservationOf(saved);
      var consumed := Consume(c, i.status, i.evidence, previous, CancelledNow(files, c, i));
      if consumed.Some? && consumed == previous {
        return Returned(saved.value, true);
      }
      e := RetainFile(StatusFile(i.status), StatusDoc(i.status));
      if e != Done { return if e == Died then Crash else Failure; }
      if consumed.None? {
        if previous.None? {
          e := ReplaceFile(StateFile, RecordDoc(FailedRecord(c, i)));
        } else {
          var report := Report(c.job, i.status, saved.value, i.error);
          e := RetainFile(FailureFile(report), FailureDoc(report));
        }
        return if e == Died then Crash else Failure;
      }
      var r := NewRecord(c, i, consumed.value);
      e := CommitState(r, consumed.value, saved);
      if e != Done { return if e == Died then Crash else Failure; }
      return Returned(r, false);
    }
  }
}
