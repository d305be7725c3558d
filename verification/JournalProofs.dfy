/** Crash atomicity and monotone history of the consumer sidecar, over every run of calls and deaths. */
module JournalProofs {
  import opened Options
  import opened Consumer
  import opened Journal

  // ---- the invariant ----------------------------------------------------------------------------

  /** Immutable snapshots carry the content their name identifies. */
  predicate Matches(n: FileName, doc: Content, c: Context) {
    match n
    case PayloadFile => doc == PayloadDoc(c.payload)
    case MetadataFile => doc == MetadataDoc(c.metadata)
    case CheckpointFile(r) => doc == RecordDoc(r)
    case StatusFile(s) => doc == StatusDoc(s)
    case FailureFile(r) => doc == FailureDoc(r)
    case StateFile => doc.RecordDoc?
    case _ => true
  }

  predicate Immutable(n: FileName) {
    n.PayloadFile? || n.MetadataFile? || n.CheckpointFile? || n.StatusFile? || n.FailureFile?
  }

  ghost predicate NamesMatch(d: Dir, c: Context) {
    forall n | n in d :: Matches(n, d[n], c)
  }

  /** A saved record is backed by its snapshots; a verified one also by inputs that bind. */
  ghost predicate Backed(d: Dir, c: Context, r: Record) {
    PreviousOk(d, r, c, false) && (r.observation.Some? ==> Binds(c))
  }

  ghost predicate TerminalAgrees(d: Dir, c: Context, o: Option<Observation>) {
    if o.Some? && o.value.phase.Terminal() then Holds(d, TerminalFile, TerminalOf(o.value, c.job))
    else TerminalFile !in d
  }

  ghost predicate CancelAgrees(d: Dir, c: Context, o: Option<Observation>) {
    if o.Some? && o.value.cancelled then Holds(d, CancelledFile, CancellationOf(o.value, c.job))
    else CancelledFile !in d
  }

  /** No journal: the saved record is backed and both latches agree with it exactly. */
  ghost predicate Quiet(d: Dir, c: Context) {
    && TransactionFile !in d && NamesMatch(d, c) && StateReadable(d)
    && (Current(d).Some? ==> Backed(d, c, Current(d).value))
    && TerminalAgrees(d, c, ObservationOf(Current(d))) && CancelAgrees(d, c, ObservationOf(Current(d)))
  }

  /** An open journal: both ends are backed, the step between them is a legal one, and no latch
      contradicts the target. */
  ghost predicate Journaled(d: Dir, c: Context) {
    && TransactionFile in d && d[TransactionFile].JournalDoc? && d[TransactionFile].job == c.job
    && NamesMatch(d, c) && StateReadable(d)
    && var prior, next := d[TransactionFile].prior, d[TransactionFile].next;
    && prior != Some(next) && (Current(d) == prior || Current(d) == Some(next))
    && (prior.Some? ==> Backed(d, c, prior.value) && Holds(d, CheckpointFile(prior.value), RecordDoc(prior.value)))
    && Backed(d, c, next) && next.observation.Some?
    && Steps(ObservationOf(prior), next.observation.value)
    && LatchesAllow(d, next.observation.value, c.job)
  }

  ghost predicate Inv(d: Dir, c: Context) {
    Quiet(d, c) || Journaled(d, c)
  }

  ghost predicate Steps(a: Option<Observation>, b: Observation) {
    MayFollow(a, b.target, b.phase, b.receipt) && (a.Some? && a.value.cancelled ==> b.cancelled)
  }

  lemma EmptyInv(c: Context)
    ensures Inv(map[], c)
  {}

  // ---- immutable files -----------------------------------------------------------------------------

  ghost predicate Extends(d: Dir, d': Dir) {
    forall f | f in d :: f in d' && d'[f] == d[f]
  }

  lemma PreviousOkGrows(d: Dir, n: FileName, doc: Content, r: Record, c: Context)
    requires n !in d && Immutable(n) && Matches(n, doc, c)
    ensures forall latches :: PreviousOk(d, r, c, latches) ==> PreviousOk(d[n := doc], r, c, latches)
  {}

  lemma QuietGrows(d: Dir, n: FileName, doc: Content, c: Context)
    requires n !in d && Immutable(n) && Matches(n, doc, c) && Quiet(d, c)
    ensures Quiet(d[n := doc], c) && Current(d[n := doc]) == Current(d)
  {
    hide PreviousOk;
    if Current(d).Some? { PreviousOkGrows(d, n, doc, Current(d).value, c); }
    assert Current(d[n := doc]) == Current(d);
  }

  /** A run that set out from `d` has only added snapshots so far. */
  ghost predicate Calm(d: Dir, p: Progress, c: Context) {
    p.exit != Refused && Quiet(p.m.dir, c) && StateReadable(d) && Current(p.m.dir) == Current(d) && Extends(d, p.m.dir)
  }

  /** Retaining a snapshot never fails for content, and changes nothing but its own presence. */
  lemma RetainCalm(d: Dir, p: Progress, n: FileName, doc: Content, c: Context)
    requires Calm(d, p, c) && Immutable(n) && Matches(n, doc, c)
    ensures var q := AndThen(p, Some(Retain(n, doc)));
      && Calm(d, q, c) && Extends(p.m.dir, q.m.dir) && (q.exit == Done ==> p.exit == Done && Holds(q.m.dir, n, doc))
      && (p.exit == Done && p.m.life > 0 ==> q.exit == Done && q.m.life >= p.m.life - 1)
  {
    hide Matches;
    if n in p.m.dir { MatchUnique(n, p.m.dir[n], doc, c); } else { QuietGrows(p.m.dir, n, doc, c); }
  }

  lemma MatchUnique(n: FileName, a: Content, b: Content, c: Context)
    requires Immutable(n) && Matches(n, a, c) && Matches(n, b, c)
    ensures a == b
  {}

  lemma InvParts(d: Dir, c: Context)
    requires Inv(d, c)
    ensures StateReadable(d) && NamesMatch(d, c)
  {}

  lemma QuietCommitted(d: Dir, c: Context)
    requires Quiet(d, c)
    ensures Committed(d) == Current(d)
  {}

  // ---- finishing a transaction ------------------------------------------------------------------------

  /** The directory a finished transaction leaves, written without steps. */
  ghost function FinalDir(d: Dir, c: Context): Dir
    requires Journaled(d, c)
  {
    var next := d[TransactionFile].next;
    var o := next.observation.value;
    var t := if o.phase.Terminal() then d[TerminalFile := TerminalOf(o, c.job)] else d;
    var k := if o.cancelled then t[CancelledFile := CancellationOf(o, c.job)] else t;
    k[StateFile := RecordDoc(next)] - {TransactionFile}
  }

  /** A latch or the saved state of the journal's target may be written at any time while it is open. */
  lemma JournaledAdvances(d: Dir, n: FileName, doc: Content, c: Context)
    requires Journaled(d, c)
    requires var o := d[TransactionFile].next.observation.value;
      || (n == TerminalFile && o.phase.Terminal() && doc == TerminalOf(o, c.job))
      || (n == CancelledFile && o.cancelled && doc == CancellationOf(o, c.job))
      || (n == StateFile && doc == RecordDoc(d[TransactionFile].next))
    ensures Journaled(d[n := doc], c) && d[n := doc][TransactionFile] == d[TransactionFile]
  {
    hide Consume, StatusObservation;
    var d' := d[n := doc];
    PreviousOkOther(d, n, doc, d[TransactionFile].next, c);
    if d[TransactionFile].prior.Some? { PreviousOkOther(d, n, doc, d[TransactionFile].prior.value, c); }
    assert n == StateFile ==> Current(d') == Some(d[TransactionFile].next);
    assert n != StateFile ==> Current(d') == Current(d);
  }

  lemma PreviousOkOther(d: Dir, n: FileName, doc: Content, r: Record, c: Context)
    requires !Immutable(n) && PreviousOk(d, r, c, false)
    ensures PreviousOk(d[n := doc], r, c, false)
  {}

  lemma PreviousOkDrop(d: Dir, r: Record, c: Context)
    ensures PreviousOk(d, r, c, false) ==> PreviousOk(d - {TransactionFile}, r, c, false)
  {}

  /** A run that set out from `d` has not failed and still leads to the same final directory. */
  ghost predicate OnTrack(d: Dir, p: Progress, c: Context)
    requires Journaled(d, c)
  {
    && p.exit != Refused && Journaled(p.m.dir, c) && p.m.dir[TransactionFile] == d[TransactionFile]
    && FinalDir(p.m.dir, c) == FinalDir(d, c)
  }

  /** What a step wrote. */
  ghost predicate Wrote(p: Progress, s: Option<Step>) {
    p.exit == Done && s.Some? && !s.value.Unlink? ==> Holds(p.m.dir, s.value.name, s.value.doc)
  }

  /** One step of finishing dies without effect or takes effect, and stays on track either way. */
  lemma FinishStep(d: Dir, p: Progress, s: Option<Step>, c: Context)
    requires Journaled(d, c) && OnTrack(d, p, c)
    requires s.Some? ==> LatchStep(s.value, d, c)
    ensures OnTrack(d, AndThen(p, s), c) && Wrote(AndThen(p, s), s)
    ensures p.exit == Done && p.m.life > 0 ==> AndThen(p, s).exit == Done && AndThen(p, s).m.life >= p.m.life - 1
  {
    hide Journaled;
    if p.exit == Done && s.Some? {
      LatchFits(p.m.dir, s.value, c);
      if DoStep(p.m, s.value).m != p.m {
        JournaledAdvances(p.m.dir, s.value.name, s.value.doc, c);
        FinalDirStable(p.m.dir, s.value.name, s.value.doc, c);
      }
    }
  }

  lemma WroteStays(p: Progress, earlier: Option<Step>, s: Option<Step>)
    requires Wrote(p, earlier) && (s.Some? && earlier.Some? ==> s.value.name != earlier.value.name)
    ensures Wrote(AndThen(p, s), earlier)
  {}

  ghost predicate LatchStep(s: Step, d: Dir, c: Context)
    requires Journaled(d, c)
  {
    var next := d[TransactionFile].next;
    var o := next.observation.value;
    || (s == Retain(TerminalFile, TerminalOf(o, c.job)) && o.phase.Terminal())
    || (s == Retain(CancelledFile, CancellationOf(o, c.job)) && o.cancelled)
    || s == Replace(StateFile, RecordDoc(next))
  }

  lemma LatchFits(d: Dir, s: Step, c: Context)
    requires Journaled(d, c) && LatchStep(s, d, c)
    ensures s.Retain? && s.name in d ==> d[s.name] == s.doc
    ensures s.name != TransactionFile
  {}

  lemma FinalDirStable(d: Dir, n: FileName, doc: Content, c: Context)
    requires Journaled(d, c) && Journaled(d[n := doc], c) && d[n := doc][TransactionFile] == d[TransactionFile]
    requires exists s :: LatchStep(s, d, c) && s.name == n && s.doc == doc
    ensures FinalDir(d[n := doc], c) == FinalDir(d, c)
  {
    hide Backed, Steps, LatchesAllow, NamesMatch;
  }

  /** Finishing never refuses; it ends in the one final directory, or dies on the way to it. */
  lemma FinishEffect(m: Machine, c: Context)
    requires Journaled(m.dir, c)
    ensures var next := m.dir[TransactionFile].next;
      var p := FinishTransaction(m, next, next.observation.value, c.job);
      && p.exit != Refused
      && (p.exit == Died ==> OnTrack(m.dir, p, c))
      && (p.exit == Done ==> p.m.dir == FinalDir(m.dir, c))
      && (m.life >= 4 ==> p.exit == Done)
  {
    var next := m.dir[TransactionFile].next;
    var o := next.observation.value;
    TerminalOnlyIfTarget(m.dir, c);
    var s1 := if TerminalFile in m.dir || o.phase.Terminal() then Some(Retain(TerminalFile, TerminalOf(o, c.job)))
              else None;
    var s2 := if o.cancelled then Some(Retain(CancelledFile, CancellationOf(o, c.job))) else None;
    var s3 := Some(Replace(StateFile, RecordDoc(next)));
    var p0 := Progress(m, Done);
    assert OnTrack(m.dir, p0, c);
    hide OnTrack, Journaled, FinalDir, DoStep, AndThen, TerminalOf, CancellationOf, Wrote;
    FinishStep(m.dir, p0, s1, c);
    var p1 := AndThen(p0, s1);
    FinishStep(m.dir, p1, s2, c);
    var p2 := AndThen(p1, s2);
    FinishStep(m.dir, p2, s3, c);
    var p3 := AndThen(p2, s3);
    WroteStays(p1, s1, s2);
    WroteStays(p2, s1, s3);
    WroteStays(p2, s2, s3);
    UnlinkLast(m.dir, p3, s1, s2, s3, c);
  }

  lemma UnlinkLast(d: Dir, p: Progress, s1: Option<Step>, s2: Option<Step>, s3: Option<Step>, c: Context)
    requires Journaled(d, c) && OnTrack(d, p, c) && Wrote(p, s1) && Wrote(p, s2) && Wrote(p, s3)
    requires var next := d[TransactionFile].next; var o := next.observation.value;
      && s3 == Some(Replace(StateFile, RecordDoc(next)))
      && (o.phase.Terminal() ==> s1 == Some(Retain(TerminalFile, TerminalOf(o, c.job))))
      && (o.cancelled ==> s2 == Some(Retain(CancelledFile, CancellationOf(o, c.job))))
    ensures var q := AndThen(p, Some(Unlink(TransactionFile)));
      && q.exit != Refused && (q.exit == Died ==> OnTrack(d, q, c)) && (q.exit == Done ==> q.m.dir == FinalDir(d, c))
      && (p.exit == Done && p.m.life > 0 ==> q.exit == Done)
  {
    if p.exit == Done { FinalWhenWritten(p.m.dir, c); }
  }

  lemma TerminalOnlyIfTarget(d: Dir, c: Context)
    requires Journaled(d, c)
    ensures TerminalFile in d ==> d[TransactionFile].next.observation.value.phase.Terminal()
  {}

  lemma FinalWhenWritten(d: Dir, c: Context)
    requires Journaled(d, c)
    requires var next := d[TransactionFile].next; var o := next.observation.value;
      && Holds(d, StateFile, RecordDoc(next))
      && (o.phase.Terminal() ==> Holds(d, TerminalFile, TerminalOf(o, c.job)))
      && (o.cancelled ==> Holds(d, CancelledFile, CancellationOf(o, c.job)))
    ensures d - {TransactionFile} == FinalDir(d, c)
  {
    hide Backed, Steps, LatchesAllow, NamesMatch;
  }

  lemma FinalIsQuiet(d: Dir, c: Context)
    requires Journaled(d, c)
    ensures Quiet(FinalDir(d, c), c) && Current(FinalDir(d, c)) == Some(d[TransactionFile].next)
  {
    hide PreviousOk, Consume, StatusObservation, MayFollow;
    var next := d[TransactionFile].next;
    var o := next.observation.value;
    var f := FinalDir(d, c);
    FinalBacked(d, c);
    forall n | n in f ensures Matches(n, f[n], c) {
      if n != StateFile && n != TerminalFile && n != CancelledFile { assert n in d && f[n] == d[n]; }
    }
  }

  lemma FinalBacked(d: Dir, c: Context)
    requires Journaled(d, c)
    ensures PreviousOk(FinalDir(d, c), d[TransactionFile].next, c, false)
  {
    hide PreviousOk;
    var next := d[TransactionFile].next;
    var o := next.observation.value;
    var t := if o.phase.Terminal() then d[TerminalFile := TerminalOf(o, c.job)] else d;
    if o.phase.Terminal() { PreviousOkOther(d, TerminalFile, TerminalOf(o, c.job), next, c); }
    var k := if o.cancelled then t[CancelledFile := CancellationOf(o, c.job)] else t;
    if o.cancelled { PreviousOkOther(t, CancelledFile, CancellationOf(o, c.job), next, c); }
    PreviousOkOther(k, StateFile, RecordDoc(next), next, c);
    PreviousOkDrop(k[StateFile := RecordDoc(next)], next, c);
  }

  // ---- recovery -------------------------------------------------------------------------------------

  lemma ConsumesAgain(d: Dir, c: Context, r: Record, prior: Option<Observation>)
    requires Backed(d, c, r) && r.observation.Some? && Steps(prior, r.observation.value)
    ensures Consume(c, r.status, true, prior, r.observation.value.cancelled) == r.observation
  {}

  /** An open journal passes every check of recovery as long as the job's evidence is intact. */
  lemma JournaledIsRecoverable(d: Dir, c: Context)
    requires Journaled(d, c)
    ensures Recoverable(d, Current(d), c, true) && !Recoverable(d, Current(d), c, false)
  {
    var prior, next := d[TransactionFile].prior, d[TransactionFile].next;
    ConsumesAgain(d, c, next, ObservationOf(prior));
  }

  /** The directory recovery leaves when nothing interrupts it. */
  ghost function Recovered(d: Dir, c: Context): Dir
    requires StateReadable(d)
  {
    RecoverTransaction(Machine(d, 4), Current(d), c, true).m.dir
  }

  /** Recovery from an open journal, killed after any number of file steps: it never refuses, and either
      it is done, with the target saved and both latches in exact agreement, or the next recovery ends
      in the very directory this one would have ended in. */
  lemma RecoveryIsAtomic(m: Machine, c: Context)
    requires Journaled(m.dir, c)
    ensures var p := RecoverTransaction(m, Current(m.dir), c, true);
      && p.exit != Refused && Inv(p.m.dir, c)
      && Committed(p.m.dir) == Committed(m.dir) == Some(m.dir[TransactionFile].next)
      && (p.exit == Died ==> Journaled(p.m.dir, c) && Recovered(p.m.dir, c) == Recovered(m.dir, c))
      && (p.exit == Done ==> p.m.dir == Recovered(m.dir, c) && Quiet(p.m.dir, c))
      && (m.life >= 4 ==> p.exit == Done)
  {
    hide Recoverable, PreviousOk, FinishTransaction, FinalDir;
    JournaledIsRecoverable(m.dir, c);
    FinishEffect(m, c);
    FinishEffect(Machine(m.dir, 4), c);
    FinalIsQuiet(m.dir, c);
    var p := RecoverTransaction(m, Current(m.dir), c, true);
    if p.exit == Died {
      JournaledIsRecoverable(p.m.dir, c);
      FinishEffect(Machine(p.m.dir, 4), c);
    }
  }

  /** Recovering once more after a recovery changes nothing: the journal is gone. */
  lemma RecoveryIsIdempotent(d: Dir, c: Context)
    requires Inv(d, c)
    ensures var once := if TransactionFile in d then Recovered(d, c) else d;
      Quiet(once, c) && TransactionFile !in once
  {
    if TransactionFile in d { RecoveryIsAtomic(Machine(d, 4), c); }
  }

  // ---- committing --------------------------------------------------------------------------------------

  lemma NewRecordBacked(d: Dir, c: Context, i: Input, o: Observation, prior: Option<Observation>, cancelled: bool)
    requires BoundToJob(c) && Consume(c, i.status, i.evidence, prior, cancelled) == Some(o)
    requires Holds(d, StatusFile(i.status), StatusDoc(i.status))
    requires Holds(d, PayloadFile, PayloadDoc(c.payload)) && Holds(d, MetadataFile, MetadataDoc(c.metadata))
    requires Holds(d, CheckpointFile(NewRecord(c, i, o)), RecordDoc(NewRecord(c, i, o)))
    ensures Backed(d, c, NewRecord(c, i, o)) && Steps(prior, o) && Binds(c)
  {
    var r := NewRecord(c, i, o);
    assert States(r.transitions) == [Received, Verified, r.state];
  }

  /** Publishing the journal is the commit point. */
  lemma BeginKeeps(d: Dir, c: Context, r: Record, prior: Option<Record>)
    requires Quiet(d, c) && Current(d) == prior && Backed(d, c, r) && r.observation.Some?
    requires prior.Some? ==> Holds(d, CheckpointFile(prior.value), RecordDoc(prior.value))
    requires Steps(ObservationOf(prior), r.observation.value) && Some(r) != prior
    ensures Journaled(d[TransactionFile := JournalDoc(c.job, prior, r)], c)
  {
    hide Consume, StatusObservation;
    var d' := d[TransactionFile := JournalDoc(c.job, prior, r)];
    PreviousOkOther(d, TransactionFile, JournalDoc(c.job, prior, r), r, c);
    if prior.Some? { PreviousOkOther(d, TransactionFile, JournalDoc(c.job, prior, r), prior.value, c); }
    assert Current(d') == prior;
    BackedObservation(d, c, r);
    if prior.Some? { BackedObservation(d, c, prior.value); }
  }

  lemma BackedObservation(d: Dir, c: Context, r: Record)
    requires Backed(d, c, r)
    ensures r.observation.Some? ==> r.observation.value.target == TargetOf(c)
  {}

  lemma FinishCommits(m: Machine, c: Context)
    requires Journaled(m.dir, c)
    ensures var next := m.dir[TransactionFile].next;
      var p := FinishTransaction(m, next, next.observation.value, c.job);
      && p.exit != Refused && Inv(p.m.dir, c) && Committed(p.m.dir) == Some(next)
      && (p.exit == Done ==> Quiet(p.m.dir, c) && Current(p.m.dir) == Some(next))
      && (m.life >= 4 ==> p.exit == Done)
  {
    hide PreviousOk, FinishTransaction, FinalDir;
    FinishEffect(m, c);
    FinalIsQuiet(m.dir, c);
  }

  /** Where a commit of `r` may leave the directory. */
  ghost predicate CommittedTo(before: Option<Record>, p: Progress, r: Record, c: Context) {
    && p.exit != Refused && Inv(p.m.dir, c)
    && (Committed(p.m.dir) == before || Committed(p.m.dir) == Some(r))
    && (p.exit == Done ==> Quiet(p.m.dir, c) && Current(p.m.dir) == Some(r))
  }

  lemma CommitEffect(m: Machine, c: Context, i: Input, o: Observation, prior: Option<Record>, cancelled: bool)
    requires Quiet(m.dir, c) && Current(m.dir) == prior && BoundToJob(c)
    requires Consume(c, i.status, i.evidence, ObservationOf(prior), cancelled) == Some(o)
            && Some(o) != ObservationOf(prior)
    requires Holds(m.dir, StatusFile(i.status), StatusDoc(i.status))
    requires Holds(m.dir, PayloadFile, PayloadDoc(c.payload)) && Holds(m.dir, MetadataFile, MetadataDoc(c.metadata))
    ensures CommittedTo(prior, CommitState(m, NewRecord(c, i, o), o, prior), NewRecord(c, i, o), c)
    ensures Steps(ObservationOf(prior), o)
    ensures m.life >= 7 ==> CommitState(m, NewRecord(c, i, o), o, prior).exit == Done
  {
    var r := NewRecord(c, i, o);
    assert r.observation == Some(o) && r.job == c.job && Some(r) != prior;
    var p0 := Progress(m, Done);
    assert Calm(m.dir, p0, c);
    var p1 := if prior.Some? then AndThen(p0, Some(Retain(CheckpointFile(prior.value), RecordDoc(prior.value))))
      else p0;
    if prior.Some? { RetainCalm(m.dir, p0, CheckpointFile(prior.value), RecordDoc(prior.value), c); }
    var p2 := AndThen(p1, Some(Retain(CheckpointFile(r), RecordDoc(r))));
    RetainCalm(m.dir, p1, CheckpointFile(r), RecordDoc(r), c);
    hide Quiet, Journaled, Consume, FinishTransaction, NewRecord, Backed, Matches;
    CalmCommitted(m.dir, p2, c);
    ConsumeSteps(c, i, o, prior, cancelled);
    if p2.exit == Done {
      NewRecordBacked(p2.m.dir, c, i, o, ObservationOf(prior), cancelled);
      PublishEffect(p2.m, c, r, prior);
    }
  }

  lemma CalmCommitted(d: Dir, p: Progress, c: Context)
    requires Calm(d, p, c)
    ensures Inv(p.m.dir, c) && Committed(p.m.dir) == Current(d) && TransactionFile !in p.m.dir
  {}

  lemma ConsumeSteps(c: Context, i: Input, o: Observation, prior: Option<Record>, cancelled: bool)
    requires Consume(c, i.status, i.evidence, ObservationOf(prior), cancelled) == Some(o)
    ensures Steps(ObservationOf(prior), o)
  {}

  lemma PublishEffect(m: Machine, c: Context, r: Record, prior: Option<Record>)
    requires Quiet(m.dir, c) && Current(m.dir) == prior && Backed(m.dir, c, r) && r.observation.Some?
    requires prior.Some? ==> Holds(m.dir, CheckpointFile(prior.value), RecordDoc(prior.value))
    requires Steps(ObservationOf(prior), r.observation.value) && Some(r) != prior
    ensures var p := AndThen(Progress(m, Done), Some(Retain(TransactionFile, JournalDoc(c.job, prior, r))));
      var q := if p.exit == Done then FinishTransaction(p.m, r, r.observation.value, c.job) else p;
      CommittedTo(prior, q, r, c) && (m.life >= 5 ==> q.exit == Done)
  {
    BeginKeeps(m.dir, c, r, prior);
    QuietCommitted(m.dir, c);
    assert TransactionFile !in m.dir;
    hide FinishTransaction, Backed, PreviousOk;
    var p := AndThen(Progress(m, Done), Some(Retain(TransactionFile, JournalDoc(c.job, prior, r))));
    if p.exit == Done { FinishCommits(p.m, c); }
  }

  // ---- one call ------------------------------------------------------------------------------------------

  /** How one call may move the committed record: not at all, to a newly verified record that legally
      follows it, or, while nothing was verified yet, to a record of the failure. */
  ghost predicate Moves(before: Option<Record>, after: Option<Record>, c: Context, i: Input) {
    || after == before
    || (after.Some? && after.value.observation.Some?
        && after.value == NewRecord(c, i, after.value.observation.value)
        && Steps(ObservationOf(before), after.value.observation.value))
    || (after == Some(FailedRecord(c, i)) && ObservationOf(before).None?)
  }

  ghost predicate CallOk(before: Option<Record>, out: Outcome, c: Context, i: Input) {
    && Inv(out.m.dir, c) && Moves(before, Committed(out.m.dir), c, i)
    && (out.reply.Returned? ==>
          && Quiet(out.m.dir, c) && Committed(out.m.dir) == Some(out.reply.record)
          && (out.reply.duplicate <==> Committed(out.m.dir) == before))
    && (out.reply == Failure && ObservationOf(before).Some? ==> Committed(out.m.dir) == before)
  }

  lemma FailureQuiet(m: Machine, c: Context, i: Input)
    requires Quiet(m.dir, c) && ObservationOf(Current(m.dir)).None?
    requires Holds(m.dir, StatusFile(i.status), StatusDoc(i.status)) && c.payload == c.pin
    requires Holds(m.dir, PayloadFile, PayloadDoc(c.payload)) && Holds(m.dir, MetadataFile, MetadataDoc(c.metadata))
    ensures var d := m.dir[StateFile := RecordDoc(FailedRecord(c, i))];
      Quiet(d, c) && Committed(d) == Some(FailedRecord(c, i))
  {
    var r := FailedRecord(c, i);
    assert States(r.transitions) == [Received, FailedState];
    var d := m.dir[StateFile := RecordDoc(r)];
    assert Current(d) == Some(r);
    hide StatusObservation, Consume;
  }

  /** The snapshots a call retains before it decides: payload, metadata, and then the status. */
  ghost function Inputs(m: Machine, c: Context): Progress {
    AndThen(AndThen(Progress(m, Done), Some(Retain(PayloadFile, PayloadDoc(c.payload)))),
            Some(Retain(MetadataFile, MetadataDoc(c.metadata))))
  }

  ghost function Snapshots(m: Machine, c: Context, i: Input): Progress {
    AndThen(Inputs(m, c), Some(Retain(StatusFile(i.status), StatusDoc(i.status))))
  }

  lemma SnapshotsCalm(m: Machine, c: Context, i: Input)
    requires Quiet(m.dir, c)
    ensures Calm(m.dir, Inputs(m, c), c) && Calm(m.dir, Snapshots(m, c, i), c)
    ensures var p := Snapshots(m, c, i);
      && (p.exit == Done ==>
            && Inputs(m, c).exit == Done && Holds(p.m.dir, StatusFile(i.status), StatusDoc(i.status))
            && Holds(p.m.dir, PayloadFile, PayloadDoc(c.payload))
                    && Holds(p.m.dir, MetadataFile, MetadataDoc(c.metadata)))
      && (m.life >= 10 ==> p.exit == Done && p.m.life >= 7)
  {
    var p0 := CalmStart(m, c);
    hide Quiet, AndThen;
    var p1 := AndThen(p0, Some(Retain(PayloadFile, PayloadDoc(c.payload))));
    RetainCalm(m.dir, p0, PayloadFile, PayloadDoc(c.payload), c);
    var p2 := AndThen(p1, Some(Retain(MetadataFile, MetadataDoc(c.metadata))));
    RetainCalm(m.dir, p1, MetadataFile, MetadataDoc(c.metadata), c);
    RetainCalm(m.dir, p2, StatusFile(i.status), StatusDoc(i.status), c);
  }

  /** The observation saved before is reported again. */
  ghost predicate Repeats(m: Machine, c: Context, i: Input, saved: Option<Record>) {
    ObservationOf(saved).Some?
    && Consume(c, i.status, i.evidence, ObservationOf(saved), CancelledNow(Inputs(m, c).m.dir, c, i)) ==
            ObservationOf(saved)
  }

  /** The four ways through the rest of a call. */
  lemma AdvanceWays(m: Machine, c: Context, i: Input, saved: Option<Record>)
    ensures Advance(m, c, i, saved)
            == if Inputs(m, c).exit != Done then Finish(Inputs(m, c), Failure)
               else if Repeats(m, c, i, saved) then Outcome(Inputs(m, c).m, Returned(saved.value, true))
               else if Snapshots(m, c, i).exit != Done then Finish(Snapshots(m, c, i), Failure)
               else Decide(Snapshots(m, c, i).m, c, i, saved, CancelledNow(Inputs(m, c).m.dir, c, i))
  {
    hide Consume, CancelledNow, CommitState, NewRecord, FailedRecord, DoStep;
  }

  lemma AdvanceOk(m: Machine, c: Context, i: Input)
    requires Quiet(m.dir, c) && BoundToJob(c) && c.payload == c.pin
    ensures CallOk(Current(m.dir), Advance(m, c, i, Current(m.dir)), c, i)
    ensures m.life >= 10 && Acceptable(m.dir, c, i) ==> Advance(m, c, i, Current(m.dir)).reply.Returned?
  {
    hide *;
    CalmParts(m.dir, CalmStart(m, c), c);
    SnapshotsCalm(m, c, i);
    var saved := Current(m.dir);
    AdvanceWays(m, c, i, saved);
    var p2, p3 := Inputs(m, c), Snapshots(m, c, i);
    InterruptedOk(m.dir, p2, c, i);
    InterruptedOk(m.dir, p3, c, i);
    CalmParts(m.dir, p2, c);
    CalmParts(m.dir, p3, c);
    if Repeats(m, c, i, saved) {
      RepeatsSaved(m, c, i, saved);
      RepeatedOk(m.dir, p2, c, i);
    } else if p3.exit == Done {
      ConsumedOk(p3.m, c, i, CancelledNow(p2.m.dir, c, i));
      SameCancel(m.dir, p2.m.dir, c, i);
      AcceptableParts(m.dir, c, i);
    }
  }

  lemma CalmParts(d: Dir, p: Progress, c: Context)
    requires Calm(d, p, c)
    ensures StateReadable(d) && StateReadable(p.m.dir) && Quiet(p.m.dir, c) && Current(p.m.dir) == Current(d)
  {}

  lemma RepeatsSaved(m: Machine, c: Context, i: Input, saved: Option<Record>)
    requires Repeats(m, c, i, saved)
    ensures saved.Some?
  {}

  lemma AcceptableParts(d: Dir, c: Context, i: Input)
    requires StateReadable(d)
    ensures Acceptable(d, c, i)
            <==> Consume(c, i.status, i.evidence, ObservationOf(Current(d)), CancelledNow(d, c, i)).Some?
  {}

  lemma InterruptedOk(d: Dir, p: Progress, c: Context, i: Input)
    requires Calm(d, p, c)
    ensures CallOk(Current(d), Finish(p, Failure), c, i)
  {
    CalmCommitted(d, p, c);
  }

  lemma RepeatedOk(d: Dir, p: Progress, c: Context, i: Input)
    requires Calm(d, p, c) && Current(d).Some?
    ensures CallOk(Current(d), Outcome(p.m, Returned(Current(d).value, true)), c, i)
  {
    CalmCommitted(d, p, c);
  }

  /** The status advances or repeats the saved observation. */
  ghost predicate Acceptable(d: Dir, c: Context, i: Input)
    requires StateReadable(d)
  {
    Consume(c, i.status, i.evidence, ObservationOf(Current(d)), CancelledNow(d, c, i)).Some?
  }

  lemma SameCancel(d: Dir, d': Dir, c: Context, i: Input)
    requires Quiet(d, c) && Quiet(d', c) && Current(d) == Current(d')
    ensures CancelledNow(d, c, i) == CancelledNow(d', c, i)
  {}

  /** What follows the decision of the consumer, with every snapshot in place. */
  ghost function Decide(m: Machine, c: Context, i: Input, saved: Option<Record>, cancelled: bool): Outcome {
    match Consume(c, i.status, i.evidence, ObservationOf(saved), cancelled)
    case None =>
      var last := if ObservationOf(saved).None? then Replace(StateFile, RecordDoc(FailedRecord(c, i)))
                  else var report := Report(c.job, i.status, saved.value, i.error);
                    Retain(FailureFile(report), FailureDoc(report));
      Finish(AndThen(Progress(m, Done), Some(last)), Failure)
    case Some(o) =>
      if Some(o) == ObservationOf(saved) then Outcome(m, Returned(saved.value, true))
      else Finish(CommitState(m, NewRecord(c, i, o), o, saved), Returned(NewRecord(c, i, o), false))
  }

  lemma ConsumedOk(m: Machine, c: Context, i: Input, cancelled: bool)
    requires Quiet(m.dir, c) && BoundToJob(c) && c.payload == c.pin
            && Holds(m.dir, StatusFile(i.status), StatusDoc(i.status))
    requires Holds(m.dir, PayloadFile, PayloadDoc(c.payload)) && Holds(m.dir, MetadataFile, MetadataDoc(c.metadata))
    ensures CallOk(Current(m.dir), Decide(m, c, i, Current(m.dir), cancelled), c, i)
    ensures m.life >= 7 && Consume(c, i.status, i.evidence, ObservationOf(Current(m.dir)), cancelled).Some?
      ==> Decide(m, c, i, Current(m.dir), cancelled).reply.Returned?
  {
    var saved := Current(m.dir);
    hide Quiet, Journaled, Consume, CommitState, NewRecord, FailedRecord, AndThen, Steps, Inv, Moves, CallOk;
    match Consume(c, i.status, i.evidence, ObservationOf(saved), cancelled) {
      case None =>
        RejectedOk(m, c, i);
      case Some(o) =>
        if Some(o) == ObservationOf(saved) {
          RepeatedOk(m.dir, CalmStart(m, c), c, i);
        } else {
          CommitEffect(m, c, i, o, saved, cancelled);
          NewRecordDiffers(c, i, o, saved);
          CommittedIsOk(CommitState(m, NewRecord(c, i, o), o, saved), c, i, o, saved);
        }
    }
  }

  ghost function CalmStart(m: Machine, c: Context): (p: Progress)
    requires Quiet(m.dir, c)
    ensures Calm(m.dir, p, c) && p == Progress(m, Done)
  {
    Progress(m, Done)
  }

  lemma CommittedIsOk(p: Progress, c: Context, i: Input, o: Observation, saved: Option<Record>)
    requires CommittedTo(saved, p, NewRecord(c, i, o), c) && Steps(ObservationOf(saved), o)
    requires NewRecord(c, i, o).observation == Some(o) && Some(NewRecord(c, i, o)) != saved
    ensures CallOk(saved, Finish(p, Returned(NewRecord(c, i, o), false)), c, i)
  {
    hide Journaled, NewRecord, Steps;
  }

  lemma NewRecordDiffers(c: Context, i: Input, o: Observation, saved: Option<Record>)
    requires Some(o) != ObservationOf(saved)
    ensures NewRecord(c, i, o).observation == Some(o) && Some(NewRecord(c, i, o)) != saved
  {}

  lemma RejectedOk(m: Machine, c: Context, i: Input)
    requires Quiet(m.dir, c) && c.payload == c.pin && Holds(m.dir, StatusFile(i.status), StatusDoc(i.status))
    requires Holds(m.dir, PayloadFile, PayloadDoc(c.payload)) && Holds(m.dir, MetadataFile, MetadataDoc(c.metadata))
    ensures var saved := Current(m.dir);
      var last := if ObservationOf(saved).None? then Replace(StateFile, RecordDoc(FailedRecord(c, i)))
                  else var report := Report(c.job, i.status, saved.value, i.error);
                    Retain(FailureFile(report), FailureDoc(report));
      CallOk(saved, Finish(AndThen(Progress(m, Done), Some(last)), Failure), c, i)
  {
    hide Journaled, FailedRecord, NewRecord, Steps;
    var saved := Current(m.dir);
    var p := Progress(m, Done);
    assert Calm(m.dir, p, c);
    if ObservationOf(saved).None? {
      FailureQuiet(m, c, i);
    } else {
      var report := Report(c.job, i.status, saved.value, i.error);
      RetainCalm(m.dir, p, FailureFile(report), FailureDoc(report), c);
      CalmCommitted(m.dir, AndThen(p, Some(Retain(FailureFile(report), FailureDoc(report)))), c);
    }
    CalmCommitted(m.dir, p, c);
  }

  lemma QuietPasses(d: Dir, c: Context)
    requires Quiet(d, c) && Current(d).Some?
    ensures PreviousOk(d, Current(d).value, c, true)
  {}

  /** A call in the directory's own context, with its payload pinned. */
  lemma OwnCallOk(m: Machine, c: Context, i: Input)
    requires Inv(m.dir, c) && c.payload == c.pin
    ensures CallOk(Committed(m.dir), RecordResult(m, c, i), c, i)
  {
    InvParts(m.dir, c);
    if !c.metadata.supported || !BoundToJob(c) {
      return;
    }
    hide PreviousOk, Recoverable, FinishTransaction, Advance, Steps, NewRecord, FailedRecord, Journaled;
    if TransactionFile in m.dir {
      JournaledWhenOpen(m.dir, c);
      JournaledIsRecoverable(m.dir, c);
      if i.evidence {
        RecoveryIsAtomic(m, c);
        var p := RecoverTransaction(m, Current(m.dir), c, true);
        if p.exit == Done { SettledOk(p.m, c, i); }
      }
    } else {
      SettledOk(m, c, i);
    }
  }

  lemma JournaledWhenOpen(d: Dir, c: Context)
    requires Inv(d, c) && TransactionFile in d
    ensures Journaled(d, c) && Committed(d) == Some(d[TransactionFile].next)
  {}

  lemma SettledOk(m: Machine, c: Context, i: Input)
    requires Inv(m.dir, c) && TransactionFile !in m.dir && BoundToJob(c) && c.payload == c.pin
    ensures Committed(m.dir) == Current(m.dir)
    ensures CallOk(Committed(m.dir), Settled(m, c, i, Current(m.dir)), c, i)
  {
    assert Quiet(m.dir, c);
    if Current(m.dir).Some? { QuietPasses(m.dir, c); }
    hide PreviousOk, Advance, Quiet, Journaled;
    AdvanceOk(m, c, i);
  }

  /** A call that lives long enough and brings an acceptable status is answered with a committed record. */
  lemma AcceptableStatusCommits(m: Machine, c: Context, i: Input)
    requires Quiet(m.dir, c) && c.payload == c.pin && c.metadata.supported && BoundToJob(c)
    requires m.life >= 10 && Acceptable(m.dir, c, i)
    ensures RecordResult(m, c, i).reply.Returned? && CallOk(Current(m.dir), RecordResult(m, c, i), c, i)
  {
    if Current(m.dir).Some? { QuietPasses(m.dir, c); }
    AdvanceOk(m, c, i);
    assert TransactionFile !in m.dir;
    hide PreviousOk, Quiet, Advance, CallOk, Acceptable;
  }

  // ---- calls in another context --------------------------------------------------------------------------

  /** The first failure was recorded for a payload other than the pinned one. */
  ghost predicate Mispinned(d: Dir) {
    && TransactionFile !in d && StateFile in d && d[StateFile].RecordDoc? && d[StateFile].record.observation.None?
    && PayloadFile in d && d[PayloadFile] != PayloadDoc(d[StateFile].record.pin)
  }

  /** What every run of calls keeps, whoever makes them: some context explains the directory, unless its first failure
      was mispinned. */
  ghost predicate Sane(d: Dir) {
    Mispinned(d) || exists c: Context :: Inv(d, c)
  }

  lemma SaneReadable(d: Dir)
    requires Sane(d)
    ensures StateReadable(d)
  {
    if !Mispinned(d) {
      var c: Context :| Inv(d, c);
      InvParts(d, c);
    }
  }

  /** A record is backed in one context only. */
  lemma OneContext(d: Dir, r: Record, c: Context, c': Context, latches: bool)
    requires PreviousOk(d, r, c, false) && PreviousOk(d, r, c', latches)
    ensures c == c'
  {
    hide StatusObservation;
  }

  /** Once anything is committed, a call in another context fails and changes no file. */
  lemma ForeignCallFails(m: Machine, c: Context, c': Context, i: Input)
    requires Inv(m.dir, c) && c' != c
    requires TransactionFile in m.dir || StateFile in m.dir
    ensures RecordResult(m, c', i) == Outcome(m, Failure)
  {
    InvParts(m.dir, c);
    hide PreviousOk, Advance, FinishTransaction;
    if TransactionFile in m.dir {
      JournaledWhenOpen(m.dir, c);
      var next := m.dir[TransactionFile].next;
      if PreviousOk(m.dir, next, c', true) { OneContext(m.dir, next, c, c', true); }
    } else {
      var r := Current(m.dir).value;
      if PreviousOk(m.dir, r, c', true) { OneContext(m.dir, r, c, c', true); }
    }
  }

  /** No call gets past a mispinned failure. */
  lemma MispinnedCallFails(m: Machine, c: Context, i: Input)
    requires Mispinned(m.dir)
    ensures RecordResult(m, c, i) == Outcome(m, Failure)
  {
    hide StatusObservation, Advance;
  }

  /** How any call may leave a directory in which `before` was committed. */
  ghost predicate CallSound(before: Option<Record>, out: Outcome, c: Context, i: Input) {
    && Sane(out.m.dir) && StateReadable(out.m.dir) && Moves(before, Committed(out.m.dir), c, i)
    && (out.reply.Returned? ==>
          && Quiet(out.m.dir, c) && Committed(out.m.dir) == Some(out.reply.record)
          && (out.reply.duplicate <==> Committed(out.m.dir) == before))
    && (out.reply == Failure && ObservationOf(before).Some? ==> Committed(out.m.dir) == before)
  }

  lemma OkIsSound(before: Option<Record>, out: Outcome, c: Context, i: Input)
    requires CallOk(before, out, c, i)
    ensures CallSound(before, out, c, i)
  {
    InvParts(out.m.dir, c);
    hide Inv, Quiet, Moves;
  }

  lemma UnchangedIsSound(m: Machine, c: Context, i: Input)
    requires Sane(m.dir) && StateReadable(m.dir)
    ensures CallSound(Committed(m.dir), Outcome(m, Failure), c, i)
  {}

  /** Nothing is committed: the context matters only where its snapshots are there already. */
  lemma UncommittedFits(d: Dir, c: Context, c': Context)
    requires Quiet(d, c) && StateFile !in d
    requires PayloadFile in d ==> c'.payload == c.payload
    requires MetadataFile in d ==> c'.metadata == c.metadata
    ensures Quiet(d, c')
  {
    forall n | n in d ensures Matches(n, d[n], c') { assert Matches(n, d[n], c); }
  }

  /** Other snapshots are in the way: the call is refused, at most after retaining its own payload. */
  lemma OtherSnapshotsSound(m: Machine, c: Context, c': Context, i: Input)
    requires Quiet(m.dir, c) && StateFile !in m.dir
    requires (PayloadFile in m.dir && c'.payload != c.payload) || (MetadataFile in m.dir && c'.metadata != c.metadata)
    ensures CallSound(None, Advance(m, c', i, None), c', i)
  {
    assert StateReadable(m.dir) && Inv(m.dir, c);
    if PayloadFile in m.dir && c'.payload != c.payload {
      assert Matches(PayloadFile, m.dir[PayloadFile], c);
      hide Quiet, Inv, CallSound, Consume;
      UnchangedIsSound(m, c', i);
    } else {
      var mixed := c'.(metadata := c.metadata);
      UncommittedFits(m.dir, c, mixed);
      assert Matches(MetadataFile, m.dir[MetadataFile], c);
      var p := AndThen(Progress(m, Done), Some(Retain(PayloadFile, PayloadDoc(c'.payload))));
      RetainCalm(m.dir, CalmStart(m, mixed), PayloadFile, PayloadDoc(c'.payload), mixed);
      RefusedMetadata(m, p, c', i);
      StillUncommitted(m.dir, p, mixed, c', i);
    }
  }

  lemma RefusedMetadata(m: Machine, p: Progress, c: Context, i: Input)
    requires p == AndThen(Progress(m, Done), Some(Retain(PayloadFile, PayloadDoc(c.payload))))
    requires p.exit == Done ==> MetadataFile in p.m.dir && p.m.dir[MetadataFile] != MetadataDoc(c.metadata)
    ensures Advance(m, c, i, None) == Outcome(p.m, Failure) || Advance(m, c, i, None) == Outcome(p.m, Crash)
  {
    hide Consume;
  }

  lemma StillUncommitted(d: Dir, p: Progress, mixed: Context, c: Context, i: Input)
    requires Calm(d, p, mixed) && StateFile !in d
    ensures CallSound(None, Outcome(p.m, Failure), c, i) && CallSound(None, Outcome(p.m, Crash), c, i)
  {
    CalmCommitted(d, p, mixed);
    hide Calm, Inv, Quiet;
  }

  /** A call whose payload is not the pinned one, while nothing is committed, ends in a mispinned failure or before. */
  lemma MispinnedAdvance(m: Machine, c: Context, i: Input)
    requires Quiet(m.dir, c) && StateFile !in m.dir && c.payload != c.pin
    ensures CallSound(None, Advance(m, c, i, None), c, i)
    ensures m.life >= 10 ==> Mispinned(Advance(m, c, i, None).m.dir)
  {
    SnapshotsCalm(m, c, i);
    var p2, p3 := Inputs(m, c), Snapshots(m, c, i);
    assert StateReadable(m.dir) && Current(m.dir) == None;
    hide Quiet, AndThen, StatusObservation, CallSound;
    StillUncommitted(m.dir, p2, c, c, i);
    StillUncommitted(m.dir, p3, c, c, i);
    if p3.exit == Done { MispinnedRecord(p3, c, i);
      } else { DeadStays(p3, Replace(StateFile, RecordDoc(FailedRecord(c, i)))); }
  }

  lemma DeadStays(p: Progress, s: Step)
    requires p.exit != Done
    ensures AndThen(p, Some(s)) == p
  {}

  lemma MispinnedRecord(p: Progress, c: Context, i: Input)
    requires p.exit == Done && Quiet(p.m.dir, c) && StateFile !in p.m.dir && c.payload != c.pin
    requires Holds(p.m.dir, PayloadFile, PayloadDoc(c.payload))
    ensures var q := AndThen(p, Some(Replace(StateFile, RecordDoc(FailedRecord(c, i)))));
            && CallSound(None, Finish(q, Failure), c, i)
            && (p.m.life > 0 ==> Mispinned(q.m.dir))
  {
    assert Inv(p.m.dir, c);
    hide PreviousOk;
  }

  /** Any call, in whatever context and facing any status, killed after any number of file steps: the directory stays
      one that recovery can handle, and the committed record moves at most one legal step. */
  lemma CallIsAtomic(m: Machine, c: Context, i: Input)
    requires Sane(m.dir)
    ensures StateReadable(m.dir) && CallSound(Committed(m.dir), RecordResult(m, c, i), c, i)
  {
    SaneReadable(m.dir);
    UnchangedIsSound(m, c, i);
    if Mispinned(m.dir) {
      MispinnedCallFails(m, c, i);
    } else {
      var own: Context :| Inv(m.dir, own);
      hide Inv, CallSound, CallOk, Mispinned, RecordResult, Sane;
      if TransactionFile in m.dir || StateFile in m.dir {
        if c == own {
          CommittedPinned(m.dir, c);
          OwnCallOk(m, c, i);
          OkIsSound(Committed(m.dir), RecordResult(m, c, i), c, i);
        } else {
          ForeignCallFails(m, own, c, i);
        }
      } else {
        UncommittedCall(m, own, c, i);
      }
    }
  }

  lemma CommittedPinned(d: Dir, c: Context)
    requires Inv(d, c) && (TransactionFile in d || StateFile in d)
    ensures c.payload == c.pin
  {}

  lemma UncommittedCall(m: Machine, own: Context, c: Context, i: Input)
    requires Inv(m.dir, own) && TransactionFile !in m.dir && StateFile !in m.dir
    ensures StateReadable(m.dir) && CallSound(Committed(m.dir), RecordResult(m, c, i), c, i)
  {
    assert Quiet(m.dir, own) && Committed(m.dir) == None && Current(m.dir) == None;
    UnchangedIsSound(m, c, i);
    PlainCall(m, c, i);
    hide Quiet, CallSound, CallOk, Advance, RecordResult, Inv;
    if (PayloadFile in m.dir && c.payload != own.payload) || (MetadataFile in m.dir && c.metadata != own.metadata) {
      OtherSnapshotsSound(m, own, c, i);
    } else {
      UncommittedFits(m.dir, own, c);
      if c.payload != c.pin {
        MispinnedAdvance(m, c, i);
      } else {
        QuietInv(m.dir, c);
        OwnCallOk(m, c, i);
        OkIsSound(Committed(m.dir), RecordResult(m, c, i), c, i);
      }
    }
  }

  lemma QuietInv(d: Dir, c: Context)
    requires Quiet(d, c)
    ensures Inv(d, c)
  {}

  lemma PlainCall(m: Machine, c: Context, i: Input)
    requires TransactionFile !in m.dir && StateFile !in m.dir
    ensures RecordResult(m, c, i) == Outcome(m, Failure) || RecordResult(m, c, i) == Advance(m, c, i, None)
  {
    hide Advance;
  }

  // ---- every run ------------------------------------------------------------------------------------------

  /** Every call brings its own candidate, pin, payload, metadata and reading of the job. */
  datatype Call = Call(context: Context, input: Input, life: nat)

  /** The directory after a run of calls; a process may die in any of them. */
  ghost function Run(d: Dir, calls: seq<Call>): Dir {
    if calls == [] then d
    else
      var before := Run(d, calls[..|calls| - 1]);
      var last := calls[|calls| - 1];
      RecordResult(Machine(before, last.life), last.context, last.input).m.dir
  }

  /** What may never be taken back about an observation. */
  ghost predicate HistoryLe(a: Option<Observation>, b: Option<Observation>) {
    a.Some? ==>
      && b.Some? && b.value.target == a.value.target
      && a.value.phase.Rank() <= b.value.phase.Rank()
      && (a.value.phase.Terminal() ==> b.value.phase == a.value.phase && b.value.receipt == a.value.receipt)
      && (a.value.cancelled ==> b.value.cancelled)
  }

  lemma {:induction false} RunInv(d: Dir, calls: seq<Call>)
    requires Sane(d)
    ensures Sane(Run(d, calls))
  {
    hide Sane, RecordResult;
    if calls != [] {
      var last := calls[|calls| - 1];
      RunInv(d, calls[..|calls| - 1]);
      CallIsAtomic(Machine(Run(d, calls[..|calls| - 1]), last.life), last.context, last.input);
    }
  }

  /** Over any run of calls and deaths, whoever makes the calls, the committed history only grows: the target never
      changes, the phase never moves back, a terminal receipt and a cancellation stay for ever. */
  lemma {:induction false} HistoryIsMonotone(d: Dir, calls: seq<Call>)
    requires Sane(d)
    ensures StateReadable(d) && StateReadable(Run(d, calls))
    ensures HistoryLe(ObservationOf(Committed(d)), ObservationOf(Committed(Run(d, calls))))
  {
    hide RecordResult, Sane;
    RunInv(d, calls);
    SaneReadable(d);
    SaneReadable(Run(d, calls));
    if calls != [] {
      var init, last := calls[..|calls| - 1], calls[|calls| - 1];
      HistoryIsMonotone(d, init);
      RunInv(d, init);
      CallIsAtomic(Machine(Run(d, init), last.life), last.context, last.input);
      hide Committed, Quiet;
    }
  }

  /** From the empty directory, after any run of calls and deaths, recovery in the context that explains the directory
      restores agreement between the saved record and both latches, unless the first failure was mispinned. */
  lemma EveryRunRecovers(calls: seq<Call>)
    ensures var d := Run(map[], calls);
      Mispinned(d) || exists c: Context ::
        Inv(d, c) && StateReadable(d) && Quiet(if TransactionFile in d then Recovered(d, c) else d, c)
  {
    assert forall c: Context :: Inv(map[], c) by {
      forall c: Context ensures Inv(map[], c) { EmptyInv(c); }
    }
    AnyContext();
    RunInv(map[], calls);
    var d := Run(map[], calls);
    if !Mispinned(d) {
      var c: Context :| Inv(d, c);
      InvParts(d, c);
      RecoveryIsIdempotent(d, c);
    }
  }

  lemma AnyContext()
    ensures Sane(map[])
  {
    var ids := Ids("", "", "", "");
    var metadata := Metadata(false, false, ids, Halted);
    var pin := Payload(false, "", "", ids, metadata, map[]);
    EmptyInv(Context(Job("", "", Failed, map[]), "", pin, pin, metadata));
  }

  /** Replaying the status a verified record was made from changes no file. */
  lemma ReplayIsNoOp(m: Machine, c: Context, i: Input)
    requires Quiet(m.dir, c) && BoundToJob(c) && c.metadata.supported && i.evidence
    requires ObservationOf(Current(m.dir)).Some? && i.status == Current(m.dir).value.status
    requires (i.cancel || c.job.status == Cancelled) ==> Current(m.dir).value.observation.value.cancelled
    ensures RecordResult(m, c, i) == Outcome(m, Returned(Current(m.dir).value, true))
  {
    var r := Current(m.dir).value;
    QuietPasses(m.dir, c);
    ConsumesAgain(m.dir, c, r, r.observation);
    StatusNamesObservation(c, r);
  }

  lemma StatusNamesObservation(c: Context, r: Record)
    requires r.observation.Some?
    requires StatusObservation(r.status, TargetOf(c), c.metadata.result, r.observation.value.cancelled) == r.observation
    ensures forall k :: (StatusObservation(r.status, TargetOf(c), c.metadata.result, k)
                         == Some(r.observation.value.(cancelled := k)))
  {}

  // ---- which directories can be got past --------------------------------------------------------------------

  /** Some later call for the job, in whatever context and with whatever status, is answered with a record. */
  ghost predicate CanReturn(d: Dir, job: Job) {
    exists c: Context, i: Input, life: nat :: c.job == job && RecordResult(Machine(d, life), c, i).reply.Returned?
  }

  /** The inputs of a call that can be consumed for their job. */
  predicate Usable(c: Context) { Binds(c) && BoundToJob(c) }

  /** The context a payload asks for. */
  function ContextOf(job: Job, p: Payload): Context { Context(job, p.candidate, p, p, p.metadata) }

  /** Read off the files: the record that counts is the job's own, and verified or made from inputs that can be
      consumed; without a record, the inputs retained so far are some that can be consumed. */
  predicate Answerable(d: Dir, job: Job) {
    if TransactionFile in d then d[TransactionFile].JournalDoc? && d[TransactionFile].next.job == job
    else if StateFile in d then d[StateFile].RecordDoc? && RecordAnswerable(d, d[StateFile].record, job)
    else InputsAnswerable(d, job)
  }

  predicate RecordAnswerable(d: Dir, r: Record, job: Job) {
    r.job == job
    && (r.observation.None? ==>
          && PayloadFile in d && d[PayloadFile].PayloadDoc? && MetadataFile in d && d[MetadataFile].MetadataDoc?
          && Usable(Context(job, r.candidate, r.pin, d[PayloadFile].payload, d[MetadataFile].metadata)))
  }

  predicate InputsAnswerable(d: Dir, job: Job) {
    if PayloadFile in d then
      && d[PayloadFile].PayloadDoc? && Usable(ContextOf(job, d[PayloadFile].payload))
      && (MetadataFile in d ==> d[MetadataFile] == MetadataDoc(d[PayloadFile].payload.metadata))
    else
      MetadataFile in d ==>
        d[MetadataFile].MetadataDoc? && Usable(ContextOf(job, PayloadFor(job, d[MetadataFile].metadata)))
  }

  /** A payload that pins the job's evidence and the metadata. */
  function PayloadFor(job: Job, m: Metadata): Payload { Payload(true, "candidate", "patch", m.ids, m, job.artifacts) }

  function MetadataFor(job: Job): Metadata {
    Metadata(true, true, Ids(job.id + "-audit", job.id, "attempt", job.base), StrictPass)
  }

  /** A status that is acceptable as the first one of a target. */
  function FirstStatus(c: Context): Input {
    Input(Status(true, c.candidate, c.pin, Prepared, None), true, false, (0, 0, 0), OtherError)
  }

  /** From a directory without a verified record, the first status of inputs that can be consumed is answered. */
  lemma FirstStatusReturns(d: Dir, c: Context)
    requires Quiet(d, c) && Usable(c) && ObservationOf(Current(d)).None?
    ensures CanReturn(d, c.job)
  {
    var i := FirstStatus(c);
    AcceptableStatusCommits(Machine(d, 10), c, i);
    assert RecordResult(Machine(d, 10), c, i).reply.Returned?;
  }

  /** The status of a verified record is acceptable again. */
  lemma VerifiedAcceptable(d: Dir, c: Context, i: Input)
    requires Quiet(d, c) && Current(d).Some? && Current(d).value.observation.Some?
    requires i.status == Current(d).value.status && i.evidence
    ensures Usable(c) && Acceptable(d, c, i)
  {
    StatusNamesObservation(c, Current(d).value);
  }

  function Again(r: Record): Input { Input(r.status, true, false, (0, 0, 0), OtherError) }

  /** A verified record is answered with again. */
  lemma VerifiedReturns(d: Dir, c: Context)
    requires Quiet(d, c) && ObservationOf(Current(d)).Some?
    ensures CanReturn(d, c.job)
  {
    var i := Again(Current(d).value);
    VerifiedAcceptable(d, c, i);
    AcceptableStatusCommits(Machine(d, 10), c, i);
    assert RecordResult(Machine(d, 10), c, i).reply.Returned?;
  }

  lemma FinishLife(m: Machine, r: Record, o: Observation, job: Job)
    ensures FinishTransaction(m, r, o, job).m.life + 4 >= m.life
  {
    hide TerminalOf, CancellationOf;
  }

  /** An open journal is finished, and its record answered with. */
  lemma JournaledReturns(d: Dir, c: Context)
    requires Journaled(d, c)
    ensures CanReturn(d, c.job)
  {
    var m := Machine(d, 14);
    var next := d[TransactionFile].next;
    var i := Again(next);
    RecoveryIsAtomic(m, c);
    var p := RecoverTransaction(m, Current(d), c, true);
    JournaledIsRecoverable(d, c);
    FinishLife(m, next, next.observation.value, c.job);
    hide Journaled, FinishTransaction, PreviousOk, Recoverable;
    QuietCommitted(p.m.dir, c);
    VerifiedAcceptable(p.m.dir, c, i);
    QuietPasses(p.m.dir, c);
    hide Quiet, Acceptable;
    AdvanceOk(p.m, c, i);
    assert RecordResult(m, c, i).reply.Returned?;
  }

  /** Whoever is answered, the directory could be read to allow it. */
  lemma ReturnedAnswerable(d: Dir, c: Context, i: Input, life: nat)
    requires Sane(d) && RecordResult(Machine(d, life), c, i).reply.Returned?
    ensures Answerable(d, c.job)
  {
    var m := Machine(d, life);
    if Mispinned(d) {
      MispinnedCallFails(m, c, i);
    } else {
      var own: Context :| Inv(d, own);
      if TransactionFile in d || StateFile in d {
        if c != own { ForeignCallFails(m, own, c, i); }
        RecordedAnswerable(d, c, i, life);
      } else {
        FreshAnswerable(d, c, i, life);
      }
    }
  }

  lemma RecordedAnswerable(d: Dir, c: Context, i: Input, life: nat)
    requires Inv(d, c) && (TransactionFile in d || StateFile in d)
    requires RecordResult(Machine(d, life), c, i).reply.Returned?
    ensures Answerable(d, c.job)
  {
    if TransactionFile !in d && Current(d).value.observation.None? {
      if !Binds(c) { UnboundNeverReturns(Machine(d, life), c, i); }
    }
    hide RecordResult, StatusObservation, States;
  }

  lemma FreshAnswerable(d: Dir, c: Context, i: Input, life: nat)
    requires TransactionFile !in d && StateFile !in d
    requires RecordResult(Machine(d, life), c, i).reply.Returned?
    ensures Answerable(d, c.job)
  {
    if !Binds(c) { UnboundNeverReturns(Machine(d, life), c, i); }
    hide StatusObservation, CommitState, Consume;
  }

  lemma UnboundNeverReturns(m: Machine, c: Context, i: Input)
    requires TransactionFile !in m.dir && !Binds(c)
    ensures !RecordResult(m, c, i).reply.Returned?
  {
    hide PreviousOk, StatusObservation;
  }

  lemma AnswerableReturns(d: Dir, job: Job)
    requires Sane(d) && Answerable(d, job)
    ensures CanReturn(d, job)
  {
    if !Mispinned(d) {
      var own: Context :| Inv(d, own);
      if TransactionFile in d {
        JournaledWhenOpen(d, own);
        JournaledReturns(d, own);
      } else if StateFile in d {
        RecordReturns(d, own, job);
      } else {
        InputsReturn(d, own, job);
      }
    }
  }

  lemma RecordReturns(d: Dir, own: Context, job: Job)
    requires Quiet(d, own) && StateFile in d && RecordAnswerable(d, Current(d).value, job)
    ensures CanReturn(d, job)
  {
    assert Current(d).value.job == own.job;
    if Current(d).value.observation.Some? { VerifiedReturns(d, own); } else { FirstStatusReturns(d, own); }
  }

  lemma InputsReturn(d: Dir, own: Context, job: Job)
    requires Quiet(d, own) && StateFile !in d && InputsAnswerable(d, job)
    ensures CanReturn(d, job)
  {
    assert PayloadFile in d ==> Matches(PayloadFile, d[PayloadFile], own);
    assert MetadataFile in d ==> Matches(MetadataFile, d[MetadataFile], own);
    var p := if PayloadFile in d then own.payload
             else PayloadFor(job, if MetadataFile in d then own.metadata else MetadataFor(job));
    var c := ContextOf(job, p);
    assert Usable(c);
    UncommittedFits(d, own, c);
    hide Quiet;
    FirstStatusReturns(d, c);
  }

  /** Which directories can be got past: read off the files, for whatever calls and deaths led to them. */
  lemma AnswerableExactly(calls: seq<Call>, job: Job)
    ensures CanReturn(Run(map[], calls), job) <==> Answerable(Run(map[], calls), job)
  {
    AnyContext();
    RunInv(map[], calls);
    SaneAnswerable(Run(map[], calls), job);
  }

  lemma SaneAnswerable(d: Dir, job: Job)
    requires Sane(d)
    ensures CanReturn(d, job) <==> Answerable(d, job)
  {
    hide Sane, Answerable, RecordResult;
    if Answerable(d, job) { AnswerableReturns(d, job); }
    forall c: Context, i: Input, life: nat | c.job == job && RecordResult(Machine(d, life), c, i).reply.Returned?
      ensures Answerable(d, job)
    {
      ReturnedAnswerable(d, c, i, life);
    }
  }

  /** A first call that recorded a failure leaves a directory that some later call for the job gets past if and only if
      the payload is the pinned one and pins the job's evidence and the metadata; otherwise no call, whoever makes it
      and with whatever status, is ever answered with a record. */
  lemma FirstFailureExactly(c: Context, i: Input, life: nat, job: Job)
    requires Holds(RecordResult(Machine(map[], life), c, i).m.dir, StateFile, RecordDoc(FailedRecord(c, i)))
    ensures CanReturn(RecordResult(Machine(map[], life), c, i).m.dir, job) <==> job == c.job && Binds(c)
  {
    var d := RecordResult(Machine(map[], life), c, i).m.dir;
    assert BoundToJob(c);
    AnyContext();
    CallIsAtomic(Machine(map[], life), c, i);
    SaneAnswerable(d, job);
    FirstFailureFiles(c, i, life);
    hide RecordResult;
  }

  /** The files of a first failure, by which it can be judged. */
  lemma FirstFailureFiles(c: Context, i: Input, life: nat)
    requires Holds(RecordResult(Machine(map[], life), c, i).m.dir, StateFile, RecordDoc(FailedRecord(c, i)))
    ensures var d := RecordResult(Machine(map[], life), c, i).m.dir;
            && TransactionFile !in d
            && Holds(d, PayloadFile, PayloadDoc(c.payload)) && Holds(d, MetadataFile, MetadataDoc(c.metadata))
  {
    var m := Machine(map[], life);
    PlainCall(m, c, i);
    if c.payload == c.pin {
      FirstFailureQuiet(c, i, life);
      hide RecordResult, StatusObservation, Consume;
    } else {
      FirstMispinned(c, i, life);
      hide StatusObservation;
    }
  }

  /** A commit writes no other saved state than its own record. */
  lemma CommitWritesState(m: Machine, r: Record, o: Observation)
    requires StateFile !in m.dir
    ensures var d := CommitState(m, r, o, None).m.dir; StateFile in d ==> d[StateFile] == RecordDoc(r)
  {
    FinishWritesState(m, r, o);
    hide FinishTransaction, TerminalOf, CancellationOf;
    var p := AndThen(Progress(m, Done), Some(Retain(CheckpointFile(r), RecordDoc(r))));
    var q := AndThen(p, Some(Retain(TransactionFile, JournalDoc(r.job, None, r))));
    FinishWritesState(q.m, r, o);
  }

  lemma FinishWritesState(m: Machine, r: Record, o: Observation)
    requires StateFile !in m.dir
    ensures var d := FinishTransaction(m, r, o, r.job).m.dir; StateFile in d ==> d[StateFile] == RecordDoc(r)
  {
    hide TerminalOf, CancellationOf;
  }

  lemma FirstFailureQuiet(c: Context, i: Input, life: nat)
    requires c.payload == c.pin
    requires Holds(RecordResult(Machine(map[], life), c, i).m.dir, StateFile, RecordDoc(FailedRecord(c, i)))
    ensures Quiet(RecordResult(Machine(map[], life), c, i).m.dir, c)
  {
    var m := Machine(map[], life);
    PlainCall(m, c, i);
    assert Quiet(m.dir, c) && Current(m.dir) == None;
    SnapshotsCalm(m, c, i);
    var p := Snapshots(m, c, i);
    hide Quiet, PreviousOk, Consume, CommitState, RecordResult, AndThen;
    if p.exit == Done {
      FirstDecision(p, c, i, CancelledNow(Inputs(m, c).m.dir, c, i));
    } else {
      DeadStays(p, Replace(StateFile, RecordDoc(FailedRecord(c, i))));
    }
  }

  lemma FirstDecision(p: Progress, c: Context, i: Input, cancelled: bool)
    requires p.exit == Done && Quiet(p.m.dir, c) && StateFile !in p.m.dir && c.payload == c.pin
    requires Holds(p.m.dir, StatusFile(i.status), StatusDoc(i.status))
    requires Holds(p.m.dir, PayloadFile, PayloadDoc(c.payload)) && Holds(p.m.dir, MetadataFile, MetadataDoc(c.metadata))
    ensures var q := AndThen(p, Some(Replace(StateFile, RecordDoc(FailedRecord(c, i)))));
            Holds(q.m.dir, StateFile, RecordDoc(FailedRecord(c, i))) ==> Quiet(q.m.dir, c)
    ensures forall o: Observation ::
              !Holds(CommitState(p.m, NewRecord(c, i, o), o, None).m.dir, StateFile, RecordDoc(FailedRecord(c, i)))
  {
    assert Current(p.m.dir) == None;
    FailureQuiet(p.m, c, i);
    forall o: Observation
      ensures !Holds(CommitState(p.m, NewRecord(c, i, o), o, None).m.dir, StateFile, RecordDoc(FailedRecord(c, i)))
    {
      CommitWritesState(p.m, NewRecord(c, i, o), o);
    }
  }

  lemma FirstMispinned(c: Context, i: Input, life: nat)
    requires c.payload != c.pin
    requires Holds(RecordResult(Machine(map[], life), c, i).m.dir, StateFile, RecordDoc(FailedRecord(c, i)))
    ensures Mispinned(RecordResult(Machine(map[], life), c, i).m.dir)
  {
    hide StatusObservation;
  }

  /** When the caller's pin does not identify its payload, a complete first call leaves a directory in which each later
      call, in whatever context, also changes nothing. */
  lemma MispinnedIsStuck(c: Context, i: Input, life: nat, c': Context, i': Input, life': nat)
    requires c.payload != c.pin && BoundToJob(c) && c.metadata.supported && life >= 4
    ensures var d := RecordResult(Machine(map[], life), c, i).m.dir;
      RecordResult(Machine(d, life'), c', i') == Outcome(Machine(d, life'), Failure)
  {
    hide StatusObservation;
    var d := RecordResult(Machine(map[], life), c, i).m.dir;
    assert Current(d) == Some(FailedRecord(c, i)) && Holds(d, PayloadFile, PayloadDoc(c.payload));
  }
}
