/** Runs of the job manager: any sequence of operations by any clients at any readings of the clock. */
module Runs {
  import opened Options
  import opened Activity
  import opened Store
  import opened Operations

  datatype Op =
    | DoRegister(w: WorkerId, capabilities: set<Capability>, contract: nat, concurrency: nat)
    | DoSubmit(q: Submission, id: JobId)
    | DoClaim(w: WorkerId, a: AttemptId, token: Token)
    | DoRenew(j: JobId, w: WorkerId, a: AttemptId, token: Token)
    | DoCancel(j: JobId)
    | DoFinalize(j: JobId, w: WorkerId, token: Token, p: Pack)
    | DoRetry(j: JobId, key: string, id: JobId)
    | DoUpload(j: JobId, w: WorkerId, a: AttemptId, token: Token, ref: Ref, data: Blob)
    | DoDelete(j: JobId)
    | DoExpire
    | DoSweep

  ghost function Apply(s: Tables, cfg: Settings, op: Op, now: Time): Tables
    requires Rooted(s.jobs) && Allowed(s, op)
  {
    match op
    case DoRegister(w, capabilities, contract, concurrency) => Register(s, w, capabilities, contract, concurrency, now)
    case DoSubmit(q, id) => Submit(s, q, id, now).after
    case DoClaim(w, a, token) => Claim(s, cfg, w, a, token, now).after
    case DoRenew(j, w, a, token) => Renew(s, cfg, j, w, a, token, now).after
    case DoCancel(j) => Cancel(s, j).after
    case DoFinalize(j, w, token, p) => Finalize(s, j, w, token, p, now).after
    case DoRetry(j, key, id) => Retry(s, j, key, id, now).after
    case DoUpload(j, w, a, token, ref, data) => AddArtifact(s, cfg, j, w, a, token, ref, data, now).after
    case DoDelete(j) => Delete(s, j).after
    case DoExpire => Expire(s, now)
    case DoSweep => Sweep(s, cfg, now)
  }

  /** Random identifiers are new; registrations, submissions and results are parsed before they arrive. */
  predicate Allowed(s: Tables, op: Op) {
    match op
    case DoRegister(_, _, _, concurrency) => 1 <= concurrency <= 16
    case DoSubmit(q, id) => id !in s.issued && ValidSubmission(q)
    case DoRetry(_, _, id) => id !in s.issued
    case DoClaim(_, a, _) => a !in s.issued
    case DoFinalize(_, _, _, p) => Parsed(p)
    case _ => true
  }

  ghost predicate Steps(s: Tables, cfg: Settings, op: Op, now: Time, t: Tables) {
    Rooted(s.jobs) && Allowed(s, op) && t == Apply(s, cfg, op, now)
  }

  // ---- what every state keeps --------------------------------------------------------------------

  predicate ParentOk(p: Job, c: Job) {
    p.serial < c.serial && Terminal(p.state) && SameKind(p.input, c.input)
  }

  /** A state only a result leads to. */
  predicate Reported(s: State) { s.Completed? || s.PartialResult? || s.Failed? || s.Cancelled? }

  predicate ClaimedOk(cfg: Settings, j: JobId, job: Job, at: Attempt) {
    && at.job == j && job.worker == Some(at.worker) && job.attempts == 1 && at.number == 1
    && !job.state.Queued?
    && at.lease < job.deadline + cfg.ttl
    && (at.finalized.Some? <==> Reported(job.state))
    && (job.result.Some? ==> at.finalized.Some?)
    && (at.finalized.Some? && job.result.None? ==> job.input.Observe?)
  }

  predicate UnclaimedOk(job: Job) {
    && job.worker.None? && job.attempts == 0 && job.result.None?
    && (job.state.Queued? || job.state.Cancelled? || job.state.Lost?)
  }

  predicate JobOk(s: Tables, cfg: Settings, j: JobId)
    requires j in s.jobs
  {
    var job := s.jobs[j];
    && j in s.issued && job.serial < s.submitted
    && (job.parent.Some? ==> job.parent.value in s.issued)
    && (job.parent.Some? && job.parent.value in s.jobs ==> ParentOk(s.jobs[job.parent.value], job))
    && (job.attempt.Some? ==> job.attempt.value in s.attempts
                              && ClaimedOk(cfg, j, job, s.attempts[job.attempt.value]))
    && (job.attempt.None? ==> UnclaimedOk(job))
  }

  predicate AttemptOk(s: Tables, a: AttemptId)
    requires a in s.attempts
  {
    a in s.issued && s.attempts[a].job in s.jobs && s.jobs[s.attempts[a].job].attempt == Some(a)
  }

  predicate UniqueKeys(jobs: map<JobId, Job>) {
    forall i, j | i in jobs && j in jobs && jobs[i].key == jobs[j].key :: i == j
  }

  predicate Inv(s: Tables, cfg: Settings) {
    && (forall j | j in s.jobs :: JobOk(s, cfg, j))
    && (forall a | a in s.attempts :: AttemptOk(s, a))
    && UniqueKeys(s.jobs)
  }

  lemma InvRooted(s: Tables, cfg: Settings)
    requires Inv(s, cfg)
    ensures Rooted(s.jobs)
  {}

  const EMPTY: Tables := Tables(map[], map[], map[], map[], map[], map[], {}, 0)

  // ---- how one job moves --------------------------------------------------------------------------

  /** What no operation changes. */
  predicate SameTerms(a: Job, b: Job) {
    && a.serial == b.serial && a.key == b.key && a.parent == b.parent && a.input == b.input && a.target == b.target
    && a.budget == b.budget && a.created == b.created && a.deadline == b.deadline
  }

  predicate Evolves(a: Job, b: Job) {
    && SameTerms(a, b)
    && (Terminal(a.state) ==> b.state == a.state)
    && (a.state.CancelRequested? ==> b.state.CancelRequested? || b.state.Cancelled?)
    && (!a.state.Queued? ==> !b.state.Queued?)
    && (a.attempt.Some? ==> b.attempt == a.attempt && b.worker == a.worker)
    && (Terminal(a.state) ==> b.attempt == a.attempt && b.worker == a.worker)
    && (Terminal(a.state) ==> b.result == a.result || (b.result.None? && a.input.Observe?))
    && (Terminal(a.state) && !a.input.Observe? ==> b == a)
  }

  lemma EvolvesOn(a: Job, b: Job, c: Job)
    requires Evolves(a, b) && Evolves(b, c)
    ensures Evolves(a, c)
  {}

  /** Every stored job moves as it may, and no identifier comes back. */
  predicate Moves(s: Tables, t: Tables) {
    && (forall j | j in s.jobs && j in t.jobs :: Evolves(s.jobs[j], t.jobs[j]))
    && s.issued <= t.issued && s.submitted <= t.submitted
    && (forall j | j in t.jobs && j !in s.jobs :: j !in s.issued && t.jobs[j].state.Queued?)
  }

  // ---- one lemma for each operation ----------------------------------------------------------------

  lemma RegisterKeeps(s: Tables, cfg: Settings, w: WorkerId, capabilities: set<Capability>, contract: nat,
                      concurrency: nat, now: Time)
    requires Inv(s, cfg)
    ensures Inv(Register(s, w, capabilities, contract, concurrency, now), cfg)
    ensures Moves(s, Register(s, w, capabilities, contract, concurrency, now))
  {
    var t := Register(s, w, capabilities, contract, concurrency, now);
    assert forall j | j in s.jobs :: JobOk(s, cfg, j) == JobOk(t, cfg, j);
    assert forall a | a in s.attempts :: AttemptOk(s, a) == AttemptOk(t, a);
  }

  /** The rows of job `j` and of its attempt change as they may, and no other. */
  predicate OneJobChange(s: Tables, cfg: Settings, t: Tables, j: JobId)
    requires j in s.jobs
  {
    && t.jobs.Keys == s.jobs.Keys && (forall i | i in s.jobs && i != j :: t.jobs[i] == s.jobs[i])
    && (forall a | a in s.attempts && s.jobs[j].attempt != Some(a) :: a in t.attempts && t.attempts[a] == s.attempts[a])
    && (forall a | a in t.attempts && a !in s.attempts :: t.jobs[j].attempt == Some(a) && a in t.issued)
    && t.issued >= s.issued && t.submitted == s.submitted
    && OneJobFits(s, cfg, t, j)
  }

  predicate OneJobFits(s: Tables, cfg: Settings, t: Tables, j: JobId)
    requires j in s.jobs && j in t.jobs
  {
    && Evolves(s.jobs[j], t.jobs[j])
    && (t.jobs[j].attempt.None? ==> UnclaimedOk(t.jobs[j]))
    && (t.jobs[j].attempt.Some? ==>
          (t.jobs[j].attempt.value in t.attempts
           && ClaimedOk(cfg, j, t.jobs[j], t.attempts[t.jobs[j].attempt.value])))
  }

  lemma OtherJobKept(s: Tables, cfg: Settings, t: Tables, j: JobId, i: JobId)
    requires j in s.jobs && JobOk(s, cfg, j) && i in s.jobs && JobOk(s, cfg, i) && i != j
    requires OneJobChange(s, cfg, t, j)
    ensures JobOk(t, cfg, i)
  {
    hide OneJobFits;
    assert t.jobs[i] == s.jobs[i];
    assert SameTerms(s.jobs[j], t.jobs[j]) && (Terminal(s.jobs[j].state) ==> t.jobs[j].state == s.jobs[j].state) by {
      OneJobTerms(s, cfg, t, j);
    }
    if s.jobs[i].attempt.Some? {
      assert s.jobs[j].attempt != s.jobs[i].attempt;
    }
  }

  lemma OneJobTerms(s: Tables, cfg: Settings, t: Tables, j: JobId)
    requires j in s.jobs && j in t.jobs && OneJobFits(s, cfg, t, j)
    ensures SameTerms(s.jobs[j], t.jobs[j]) && (Terminal(s.jobs[j].state) ==> t.jobs[j].state == s.jobs[j].state)
    ensures s.jobs[j].attempt.Some? ==> t.jobs[j].attempt == s.jobs[j].attempt
    ensures t.jobs[j].attempt.Some? ==> t.jobs[j].attempt.value in t.attempts
                                        && t.attempts[t.jobs[j].attempt.value].job == j
  {}

  lemma SameJobKept(s: Tables, cfg: Settings, t: Tables, j: JobId)
    requires j in s.jobs && JobOk(s, cfg, j) && OneJobChange(s, cfg, t, j)
    ensures JobOk(t, cfg, j)
  {
    assert SameTerms(s.jobs[j], t.jobs[j]);
    if s.jobs[j].parent.Some? && s.jobs[j].parent.value in s.jobs {
      assert s.jobs[j].parent.value != j;
    }
  }

  lemma JobChangeKeeps(s: Tables, cfg: Settings, t: Tables, j: JobId)
    requires Inv(s, cfg) && j in s.jobs && OneJobChange(s, cfg, t, j)
    ensures Inv(t, cfg) && Moves(s, t)
  {
    hide JobOk, OneJobFits;
    OneJobTerms(s, cfg, t, j);
    forall i | i in t.jobs ensures JobOk(t, cfg, i) {
      if i == j { SameJobKept(s, cfg, t, j); } else { OtherJobKept(s, cfg, t, j, i); }
    }
    forall a | a in t.attempts ensures AttemptOk(t, a) {
      if a in s.attempts { assert AttemptOk(s, a); }
    }
    assert forall i | i in t.jobs :: t.jobs[i].key == s.jobs[i].key;
    OneJobMoves(s, cfg, t, j);
  }

  lemma OneJobMoves(s: Tables, cfg: Settings, t: Tables, j: JobId)
    requires j in s.jobs && OneJobChange(s, cfg, t, j)
    ensures Moves(s, t)
  {}

  /** The new row of a job, with its attempt if it has one, obeys the rules if the old one did. */
  predicate RowFits(cfg: Settings, j: JobId, was: Job, job: Job, at: Option<Attempt>) {
    && Evolves(was, job)
    && (job.attempt.None? ==> UnclaimedOk(job))
    && (job.attempt.Some? ==> at.Some? && ClaimedOk(cfg, j, job, at.value))
  }

  function AttemptRow(s: Tables, j: JobId): Option<Attempt>
    requires j in s.jobs
  {
    if s.jobs[j].attempt.Some? && s.jobs[j].attempt.value in s.attempts
    then Some(s.attempts[s.jobs[j].attempt.value]) else None
  }

  /** Writing a job's row and its attempt's. */
  function WriteRows(s: Tables, j: JobId, job: Job, at: Option<Attempt>): Tables {
    s.(jobs := s.jobs[j := job],
       attempts := if job.attempt.Some? && at.Some? then s.attempts[job.attempt.value := at.value] else s.attempts)
  }

  lemma WriteKeeps(s: Tables, cfg: Settings, t: Tables, j: JobId, job: Job, at: Option<Attempt>)
    requires Inv(s, cfg) && j in s.jobs && RowFits(cfg, j, s.jobs[j], job, at)
    requires t.jobs == WriteRows(s, j, job, at).jobs && t.attempts == WriteRows(s, j, job, at).attempts
    requires t.issued >= s.issued && t.submitted == s.submitted
    requires job.attempt.Some? && s.jobs[j].attempt.None? ==>
               (job.attempt.value in t.issued && job.attempt.value !in s.attempts)
    ensures Inv(t, cfg) && Moves(s, t)
  {
    hide Evolves, ClaimedOk, UnclaimedOk, Moves, JobOk, AttemptOk, UniqueKeys;
    AttemptKept(cfg, j, s.jobs[j], job, at);
    if s.jobs[j].attempt.Some? { OwnAttempt(s, cfg, j); }
    JobChangeKeeps(s, cfg, t, j);
  }

  lemma AttemptKept(cfg: Settings, j: JobId, was: Job, job: Job, at: Option<Attempt>)
    requires RowFits(cfg, j, was, job, at)
    ensures was.attempt.Some? ==> job.attempt == was.attempt
  {}

  lemma OwnAttempt(s: Tables, cfg: Settings, j: JobId)
    requires Inv(s, cfg) && j in s.jobs && s.jobs[j].attempt.Some?
    ensures s.jobs[j].attempt.value in s.attempts
    ensures ClaimedOk(cfg, j, s.jobs[j], s.attempts[s.jobs[j].attempt.value])
  {
    assert JobOk(s, cfg, j);
  }

  lemma NoAttempt(s: Tables, cfg: Settings, j: JobId)
    requires Inv(s, cfg) && j in s.jobs && s.jobs[j].attempt.None?
    ensures UnclaimedOk(s.jobs[j])
  {
    assert JobOk(s, cfg, j);
  }

  lemma InsertKeeps(s: Tables, cfg: Settings, q: Submission, id: JobId, now: Time)
    requires Inv(s, cfg) && id !in s.issued && !exists j: JobId :: Owns(s, j, q.key)
    requires q.parent.Some? ==> q.parent.value in s.jobs && Terminal(s.jobs[q.parent.value].state)
                                && SameKind(s.jobs[q.parent.value].input, q.input)
    ensures Inv(Insert(s, q, id, now).after, cfg) && Moves(s, Insert(s, q, id, now).after)
  {
    var t := Insert(s, q, id, now).after;
    forall i | i in t.jobs ensures JobOk(t, cfg, i) {
      if i != id {
        assert JobOk(s, cfg, i);
      } else if q.parent.Some? {
        assert JobOk(s, cfg, q.parent.value);
      }
    }
    forall a | a in t.attempts ensures AttemptOk(t, a) {
      assert AttemptOk(s, a);
      assert JobOk(s, cfg, s.attempts[a].job);
    }
    forall i, k | i in t.jobs && k in t.jobs && t.jobs[i].key == t.jobs[k].key ensures i == k {
      assert i != id && k == id ==> Owns(s, i, q.key);
      assert k != id && i == id ==> Owns(s, k, q.key);
    }
    forall j | j in s.jobs && j in t.jobs ensures Evolves(s.jobs[j], t.jobs[j]) {
      assert JobOk(s, cfg, j);
    }
  }

  lemma ParentFit(s: Tables, q: Submission, now: Time)
    requires Rooted(s.jobs) && ParentRefusal(s, q, now).None?
    ensures q.parent.Some? ==> q.parent.value in s.jobs && Terminal(s.jobs[q.parent.value].state)
                               && SameKind(s.jobs[q.parent.value].input, q.input)
  {
    hide Affordable, Charges, RootOf;
  }

  lemma NothingMoves(s: Tables)
    ensures Moves(s, s)
  {}

  lemma SubmitKeeps(s: Tables, cfg: Settings, q: Submission, id: JobId, now: Time)
    requires Inv(s, cfg) && id !in s.issued
    requires Rooted(s.jobs)
    ensures Inv(Submit(s, q, id, now).after, cfg) && Moves(s, Submit(s, q, id, now).after)
  {
    hide Inv, Moves, ParentRefusal, Insert, Owns;
    NothingMoves(s);
    if ParentRefusal(s, q, now).None? && !exists j: JobId :: Owns(s, j, q.key) {
      ParentFit(s, q, now);
      InsertKeeps(s, cfg, q, id, now);
    }
  }

  lemma ClaimKeeps(s: Tables, cfg: Settings, w: WorkerId, a: AttemptId, token: Token, now: Time)
    requires Inv(s, cfg) && a !in s.issued && Rooted(s.jobs)
    ensures Inv(Claim(s, cfg, w, a, token, now).after, cfg) && Moves(s, Claim(s, cfg, w, a, token, now).after)
  {
    NothingMoves(s);
    var c := Claim(s, cfg, w, a, token, now);
    if c.out.value.Some? {
      var j := c.out.value.value;
      assert IsNext(s, cfg, w, j, now);
      assert JobOk(s, cfg, j);
      StartKeeps(s, cfg, w, j, a, token, now);
    }
  }

  lemma StartKeeps(s: Tables, cfg: Settings, w: WorkerId, j: JobId, a: AttemptId, token: Token, now: Time)
    requires Inv(s, cfg) && a !in s.issued && j in s.jobs && s.jobs[j].state.Queued? && s.jobs[j].deadline > now
    ensures Inv(Start(s, cfg, w, j, a, token, now), cfg) && Moves(s, Start(s, cfg, w, j, a, token, now))
  {
    var t := Start(s, cfg, w, j, a, token, now);
    QueuedUnclaimed(s, cfg, j);
    StoredIssued(s, cfg);
    hide Inv, Moves;
    WriteKeeps(s, cfg, t, j, t.jobs[j], Some(t.attempts[a]));
  }

  lemma QueuedUnclaimed(s: Tables, cfg: Settings, j: JobId)
    requires Inv(s, cfg) && j in s.jobs && s.jobs[j].state.Queued?
    ensures s.jobs[j].attempt.None? && UnclaimedOk(s.jobs[j])
  {
    assert JobOk(s, cfg, j);
  }

  lemma RenewKeeps(s: Tables, cfg: Settings, j: JobId, w: WorkerId, a: AttemptId, token: Token, now: Time)
    requires Inv(s, cfg) && cfg.ttl > 0
    ensures Inv(Renew(s, cfg, j, w, a, token, now).after, cfg) && Moves(s, Renew(s, cfg, j, w, a, token, now).after)
  {
    NothingMoves(s);
    var r := Renew(s, cfg, j, w, a, token, now);
    if r.out.Ok? && r.out.value.Renewed? {
      OwnAttempt(s, cfg, j);
      hide Inv, Moves;
      assert s.jobs[j := s.jobs[j]] == s.jobs;
      WriteKeeps(s, cfg, r.after, j, s.jobs[j], Some(r.after.attempts[a]));
    }
  }

  lemma CancelKeeps(s: Tables, cfg: Settings, j: JobId)
    requires Inv(s, cfg)
    ensures Inv(Cancel(s, j).after, cfg) && Moves(s, Cancel(s, j).after)
  {
    NothingMoves(s);
    var t := Cancel(s, j).after;
    if t != s {
      RowFine(s, cfg, j);
      CancelFits(cfg, j, s.jobs[j], t.jobs[j], AttemptRow(s, j));
      hide Inv, Moves, RowFits;
      SameAttempts(s, j);
      WriteKeeps(s, cfg, t, j, t.jobs[j], AttemptRow(s, j));
    }
  }

  lemma SameAttempts(s: Tables, j: JobId)
    requires j in s.jobs
    ensures s.jobs[j].attempt.Some? && AttemptRow(s, j).Some? ==>
              s.attempts[s.jobs[j].attempt.value := AttemptRow(s, j).value] == s.attempts
  {}

  lemma RowFine(s: Tables, cfg: Settings, j: JobId)
    requires Inv(s, cfg) && j in s.jobs
    ensures RowFits(cfg, j, s.jobs[j], s.jobs[j], AttemptRow(s, j))
  {
    if s.jobs[j].attempt.Some? { OwnAttempt(s, cfg, j); } else { NoAttempt(s, cfg, j); }
  }

  lemma CancelFits(cfg: Settings, j: JobId, was: Job, job: Job, at: Option<Attempt>)
    requires RowFits(cfg, j, was, was, at)
    requires || (was.state.Queued? && job == was.(state := Cancelled, stop := Some(CancelledByRequester)))
             || (was.state.Running? && job == was.(state := CancelRequested))
    ensures RowFits(cfg, j, was, job, at)
  {}

  lemma FinalizeKeeps(s: Tables, cfg: Settings, j: JobId, w: WorkerId, token: Token, p: Pack, now: Time)
    requires Inv(s, cfg) && Parsed(p)
    ensures Inv(Finalize(s, j, w, token, p, now).after, cfg) && Moves(s, Finalize(s, j, w, token, p, now).after)
  {
    hide Check, WellFormed, ManifestRefusal, Inv, Moves, ObservationRefusal;
    NothingMoves(s);
    var f := Finalize(s, j, w, token, p, now);
    if f.after != s {
      var a := s.jobs[j].attempt.value;
      InvAt(s, cfg, j);
      SettleKeeps(s, cfg, j, a, p, f.out.value, now);
    }
  }

  lemma InvAt(s: Tables, cfg: Settings, j: JobId)
    requires Inv(s, cfg) && j in s.jobs
    ensures JobOk(s, cfg, j)
  {}

  lemma SettledFits(cfg: Settings, j: JobId, job: Job, at: Attempt, p: Pack, state: State, stop: Option<Stop>,
                    now: Time)
    requires ClaimedOk(cfg, j, job, at) && Active(job.state) && Reported(state) && job.attempt.Some?
    requires job.state.CancelRequested? ==> state.Cancelled?
    ensures RowFits(cfg, j, job, job.(state := state, stop := stop, result := Some(p)),
                    Some(at.(finalized := Some(now))))
  {}

  lemma SettleKeeps(s: Tables, cfg: Settings, j: JobId, a: AttemptId, p: Pack, state: State, now: Time)
    requires Inv(s, cfg) && j in s.jobs && a in s.attempts && s.jobs[j].attempt == Some(a)
    requires s.attempts[a].finalized.None? && Reported(state) && Active(s.jobs[j].state)
    requires s.jobs[j].state.CancelRequested? ==> state.Cancelled?
    ensures Inv(Settle(s, j, a, p, state, now), cfg) && Moves(s, Settle(s, j, a, p, state, now))
  {
    var t := Settle(s, j, a, p, state, now);
    OwnAttempt(s, cfg, j);
    SettledFits(cfg, j, s.jobs[j], s.attempts[a], p, state, t.jobs[j].stop, now);
    hide Inv, Moves, RowFits, ClaimedOk;
    WriteKeeps(s, cfg, t, j, t.jobs[j], Some(t.attempts[a]));
  }

  lemma RetryKeeps(s: Tables, cfg: Settings, j: JobId, key: string, id: JobId, now: Time)
    requires Inv(s, cfg) && id !in s.issued && Rooted(s.jobs)
    ensures Inv(Retry(s, j, key, id, now).after, cfg) && Moves(s, Retry(s, j, key, id, now).after)
  {
    hide Inv, Moves, RetryRefusal, Resubmission, Submit;
    NothingMoves(s);
    if RetryRefusal(s, j, key, now).None? {
      RetryOk(s, j, key, now);
      SubmitKeeps(s, cfg, Resubmission(s, j, key, now), id, now);
    }
  }

  lemma RetryOk(s: Tables, j: JobId, key: string, now: Time)
    requires RetryRefusal(s, j, key, now).None?
    ensures j in s.jobs
  {}

  lemma UploadKeeps(s: Tables, cfg: Settings, j: JobId, w: WorkerId, a: AttemptId, token: Token, ref: Ref, data: Blob,
                    now: Time)
    requires Inv(s, cfg)
    ensures Inv(AddArtifact(s, cfg, j, w, a, token, ref, data, now).after, cfg)
    ensures Moves(s, AddArtifact(s, cfg, j, w, a, token, ref, data, now).after)
  {
    var t := AddArtifact(s, cfg, j, w, a, token, ref, data, now).after;
    UploadRows(s, cfg, j, w, a, token, ref, data, now);
    hide UploadRefusal, AddArtifact;
    SameRowsKeep(s, cfg, t);
  }

  lemma UploadRows(s: Tables, cfg: Settings, j: JobId, w: WorkerId, a: AttemptId, token: Token, ref: Ref, data: Blob,
                   now: Time)
    ensures var t := AddArtifact(s, cfg, j, w, a, token, ref, data, now).after;
            t.jobs == s.jobs && t.attempts == s.attempts && t.issued == s.issued && t.submitted == s.submitted
  {
    hide UploadRefusal;
  }

  lemma SameRowsKeep(s: Tables, cfg: Settings, t: Tables)
    requires Inv(s, cfg)
    requires t.jobs == s.jobs && t.attempts == s.attempts && t.issued == s.issued && t.submitted == s.submitted
    ensures Inv(t, cfg) && Moves(s, t)
  {
    assert t.jobs == s.jobs && t.attempts == s.attempts && t.issued == s.issued && t.submitted == s.submitted;
    assert forall j | j in s.jobs :: JobOk(s, cfg, j) == JobOk(t, cfg, j);
    assert forall a | a in s.attempts :: AttemptOk(s, a) == AttemptOk(t, a);
  }

  lemma DeleteKeeps(s: Tables, cfg: Settings, j: JobId)
    requires Inv(s, cfg)
    ensures Inv(Delete(s, j).after, cfg) && Moves(s, Delete(s, j).after)
  {
    NothingMoves(s);
    var t := Delete(s, j).after;
    if t != s {
      forall i | i in t.jobs ensures JobOk(t, cfg, i) {
        assert JobOk(s, cfg, i);
      }
      forall a | a in t.attempts ensures AttemptOk(t, a) {
        assert AttemptOk(s, a);
      }
      assert UniqueKeys(t.jobs);
    }
  }

  /** A change of many jobs that touches no attempt. */
  lemma ManyJobsKeep(s: Tables, cfg: Settings, t: Tables)
    requires Inv(s, cfg) && t.jobs.Keys == s.jobs.Keys && t.attempts == s.attempts
    requires t.issued == s.issued && t.submitted == s.submitted
    requires forall j | j in s.jobs :: RowFits(cfg, j, s.jobs[j], t.jobs[j], AttemptRow(s, j))
                                       && t.jobs[j].attempt == s.jobs[j].attempt
    ensures Inv(t, cfg) && Moves(s, t)
  {
    hide ClaimedOk, UnclaimedOk;
    forall j | j in t.jobs ensures JobOk(t, cfg, j) {
      assert JobOk(s, cfg, j);
      if s.jobs[j].parent.Some? && s.jobs[j].parent.value in s.jobs {
        assert Evolves(s.jobs[s.jobs[j].parent.value], t.jobs[s.jobs[j].parent.value]);
      }
    }
    forall a | a in t.attempts ensures AttemptOk(t, a) {
      assert AttemptOk(s, a);
    }
    forall i, k | i in t.jobs && k in t.jobs && t.jobs[i].key == t.jobs[k].key ensures i == k {
      assert SameTerms(s.jobs[i], t.jobs[i]) && SameTerms(s.jobs[k], t.jobs[k]);
    }
  }

  lemma ExpireKeeps(s: Tables, cfg: Settings, now: Time)
    requires Inv(s, cfg)
    ensures Inv(Expire(s, now), cfg) && Moves(s, Expire(s, now))
  {
    var t := Expire(s, now);
    hide Inv, Moves, RowFits;
    forall j | j in s.jobs
      ensures RowFits(cfg, j, s.jobs[j], t.jobs[j], AttemptRow(s, j)) && t.jobs[j].attempt == s.jobs[j].attempt
    {
      RowFine(s, cfg, j);
      if t.jobs[j] != s.jobs[j] { ForgottenFits(cfg, j, s.jobs[j], AttemptRow(s, j)); }
    }
    ManyJobsKeep(s, cfg, t);
  }

  lemma ForgottenFits(cfg: Settings, j: JobId, job: Job, at: Option<Attempt>)
    requires RowFits(cfg, j, job, job, at) && job.input.Observe?
    ensures RowFits(cfg, j, job, Forgotten(job), at)
  {}

  lemma SweepKeeps(s: Tables, cfg: Settings, now: Time)
    requires Inv(s, cfg)
    ensures Inv(Sweep(s, cfg, now), cfg) && Moves(s, Sweep(s, cfg, now))
  {
    ExpireKeeps(s, cfg, now);
    ExpireStored(s, now);
    var m, t := Expire(s, now), Sweep(s, cfg, now);
    StoredIssued(s, cfg);
    SweptKeeps(m, cfg, t, now);
    hide *;
    MovesOn(s, m, t);
  }

  lemma StoredIssued(s: Tables, cfg: Settings)
    requires Inv(s, cfg)
    ensures s.jobs.Keys <= s.issued && s.attempts.Keys <= s.issued
  {
    forall j | j in s.jobs ensures j in s.issued { assert JobOk(s, cfg, j); }
    forall a | a in s.attempts ensures a in s.issued { assert AttemptOk(s, a); }
  }

  lemma SweptKeeps(m: Tables, cfg: Settings, t: Tables, now: Time)
    requires Inv(m, cfg)
    requires t.attempts == m.attempts && t.issued == m.issued && t.submitted == m.submitted
    requires t.jobs == map j | j in m.jobs :: Swept(m, m.jobs[j], j, now)
    ensures Inv(t, cfg) && Moves(m, t)
  {
    hide Inv, Moves, RowFits;
    forall j | j in m.jobs
      ensures RowFits(cfg, j, m.jobs[j], t.jobs[j], AttemptRow(m, j)) && t.jobs[j].attempt == m.jobs[j].attempt
    {
      RowFine(m, cfg, j);
      if t.jobs[j] != m.jobs[j] { SweptFits(cfg, j, m.jobs[j], t.jobs[j], AttemptRow(m, j)); }
    }
    ManyJobsKeep(m, cfg, t);
  }

  lemma SweptFits(cfg: Settings, j: JobId, was: Job, job: Job, at: Option<Attempt>)
    requires RowFits(cfg, j, was, was, at)
    requires job == was.(state := Lost, stop := job.stop) && (was.state.Running? || was.state.Queued?)
    ensures RowFits(cfg, j, was, job, at)
  {}

  lemma ExpireStored(s: Tables, now: Time)
    ensures Expire(s, now).jobs.Keys == s.jobs.Keys
  {}

  lemma MovesOn(s: Tables, m: Tables, t: Tables)
    requires Moves(s, m) && Moves(m, t) && m.jobs.Keys == s.jobs.Keys
    ensures Moves(s, t)
  {}
}
