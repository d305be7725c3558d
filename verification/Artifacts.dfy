/** What every state of the job manager keeps about stored artifacts. */
module Artifacts {
  import opened Options
  import opened Activity
  import opened Sums
  import opened Store
  import opened Operations
  import opened Runs
  import opened Lifecycle
  import opened Lineage
  import opened Scheduler

  /** The row is its job's own attempt's, and its file has the size and digest it names. */
  predicate RowOk(s: Tables, id: ArtifactId)
    requires id in s.artifacts
  {
    var a := s.artifacts[id];
    && a.ref.id == id && a.job in s.jobs && s.jobs[a.job].attempt == Some(a.attempt)
    && PathOf(a) in s.files && s.files[PathOf(a)] == a.ref.digest && |a.ref.digest| == a.ref.bytes
    && SafeName(a.ref.name) && a.ref.media in MEDIA
  }

  predicate NamesUnique(s: Tables) {
    forall a, b | a in s.artifacts && b in s.artifacts && s.artifacts[a].job == s.artifacts[b].job
                  && s.artifacts[a].ref.name == s.artifacts[b].ref.name :: a == b
  }

  /** The job's artifacts fit its budget and the manager's setting. */
  ghost predicate QuotaOk(s: Tables, cfg: Settings, j: JobId)
    requires j in s.jobs
  {
    Sum(Sizes(s, j)) <= s.jobs[j].budget.cacheBytes && |ArtifactsOf(s, j)| <= cfg.maxArtifacts
  }

  /** Every entry of a kept result's manifest is a stored row of that result's attempt. */
  predicate ManifestOk(s: Tables, j: JobId)
    requires j in s.jobs
  {
    s.jobs[j].result.Some? ==>
      forall ref | ref in s.jobs[j].result.value.manifest :: Backed(s, j, s.jobs[j].result.value.attempt, ref)
  }

  predicate Backed(s: Tables, j: JobId, a: AttemptId, ref: Ref) {
    ref.id in s.artifacts && s.artifacts[ref.id] == Artifact(j, a, ref)
  }

  ghost predicate Stored(s: Tables, cfg: Settings) {
    && (forall id | id in s.artifacts :: RowOk(s, id))
    && NamesUnique(s)
    && (forall j | j in s.jobs :: QuotaOk(s, cfg, j))
    && (forall j | j in s.jobs :: ManifestOk(s, j))
    && BudgetsPositive(s.jobs)
  }

  // ---- operations that leave artifacts alone ---------------------------------------------------------

  predicate ResultKept(a: Job, b: Job) { b.result == a.result || b.result.None? }

  /** Artifacts and files are as before, and no result is new. */
  ghost predicate LeavesArtifacts(s: Tables, t: Tables) {
    && t.artifacts == s.artifacts && t.files == s.files && s.jobs.Keys <= t.jobs.Keys
    && (forall j | j in s.jobs :: ResultKept(s.jobs[j], t.jobs[j]))
  }

  lemma RowsSame(s: Tables, cfg: Settings, t: Tables)
    requires LeavesArtifacts(s, t) && Moves(s, t) && forall id | id in s.artifacts :: RowOk(s, id)
    ensures forall id | id in t.artifacts :: RowOk(t, id)
  {
    forall id | id in t.artifacts ensures RowOk(t, id) {
      assert RowOk(s, id);
      var j := s.artifacts[id].job;
      assert Evolves(s.jobs[j], t.jobs[j]);
    }
  }

  lemma QuotasSame(s: Tables, cfg: Settings, t: Tables, j: JobId)
    requires LeavesArtifacts(s, t) && Moves(s, t) && Stored(s, cfg) && j in t.jobs && BudgetsPositive(t.jobs)
    ensures QuotaOk(t, cfg, j)
  {
    assert Sizes(t, j) == Sizes(s, j) && ArtifactsOf(t, j) == ArtifactsOf(s, j);
    if j in s.jobs {
      assert QuotaOk(s, cfg, j) && Evolves(s.jobs[j], t.jobs[j]);
    } else {
      NoneYet(s, cfg, j);
      assert FieldsInRange(t.jobs[j].budget);
    }
  }

  lemma NoneYet(s: Tables, cfg: Settings, j: JobId)
    requires Stored(s, cfg) && j !in s.jobs
    ensures ArtifactsOf(s, j) == {} && Sizes(s, j) == map[]
  {
    forall a | a in s.artifacts ensures s.artifacts[a].job != j {
      assert RowOk(s, a);
    }
  }

  lemma LeavingKeeps(s: Tables, cfg: Settings, t: Tables)
    requires Stored(s, cfg) && Inv(t, cfg) && Moves(s, t) && LeavesArtifacts(s, t) && BudgetsPositive(t.jobs)
    ensures Stored(t, cfg)
  {
    RowsSame(s, cfg, t);
    forall j | j in t.jobs ensures QuotaOk(t, cfg, j) {
      QuotasSame(s, cfg, t, j);
    }
    forall j | j in t.jobs ensures ManifestOk(t, j) {
      if j in s.jobs {
        assert ManifestOk(s, j) && ResultKept(s.jobs[j], t.jobs[j]);
        if t.jobs[j].result.Some? {
          forall ref | ref in t.jobs[j].result.value.manifest
            ensures Backed(t, j, t.jobs[j].result.value.attempt, ref)
          {
            assert Backed(s, j, s.jobs[j].result.value.attempt, ref);
          }
        }
      } else {
        QueuedUnclaimed(t, cfg, j);
      }
    }
  }

  // ---- results -----------------------------------------------------------------------------------

  lemma {:induction false} ManifestAccepted(s: Tables, j: JobId, a: AttemptId, refs: seq<Ref>)
    requires ManifestRefusal(s, j, a, refs).None? && forall id | id in s.artifacts :: s.artifacts[id].ref.id == id
    ensures forall ref | ref in refs :: Backed(s, j, a, ref)
  {
    if refs != [] { ManifestAccepted(s, j, a, refs[1..]); }
  }

  /** A result has been stored with its job, and nothing else about artifacts has changed. */
  predicate ResultStored(s: Tables, t: Tables, i: JobId, p: Pack) {
    && t.artifacts == s.artifacts && t.files == s.files && i in s.jobs && s.jobs[i].attempt == Some(p.attempt)
    && t.jobs.Keys == s.jobs.Keys && t.jobs[i].result == Some(p)
    && (forall j | j in s.jobs && j != i :: t.jobs[j] == s.jobs[j])
    && (forall j | j in s.jobs :: t.jobs[j].budget == s.jobs[j].budget && t.jobs[j].attempt == s.jobs[j].attempt)
    && ManifestRefusal(s, i, p.attempt, p.manifest).None?
  }

  lemma FinalizeArtifacts(s: Tables, i: JobId, w: WorkerId, token: Token, p: Pack, now: Time)
    requires Parsed(p) && Finalize(s, i, w, token, p, now).after != s
    ensures ResultStored(s, Finalize(s, i, w, token, p, now).after, i, p)
  {
    Accepted(s, i, w, token, p, now);
    hide Finalize, Parsed, ManifestRefusal;
  }

  lemma Accepted(s: Tables, i: JobId, w: WorkerId, token: Token, p: Pack, now: Time)
    requires Parsed(p) && Finalize(s, i, w, token, p, now).after != s
    ensures i in s.jobs && s.jobs[i].attempt == Some(p.attempt) && p.attempt in s.attempts
    ensures ManifestRefusal(s, i, p.attempt, p.manifest).None?
    ensures exists state :: Finalize(s, i, w, token, p, now).after == Settle(s, i, p.attempt, p, state, now)
  {
    hide ManifestRefusal, ObservationRefusal, Parsed, Settle, Outcome;
  }

  lemma FinalizeStores(s: Tables, cfg: Settings, i: JobId, w: WorkerId, token: Token, p: Pack, now: Time)
    requires Stored(s, cfg) && Parsed(p)
    ensures Stored(Finalize(s, i, w, token, p, now).after, cfg)
  {
    var t := Finalize(s, i, w, token, p, now).after;
    hide *;
    if t != s {
      FinalizeArtifacts(s, i, w, token, p, now);
      ResultKeeps(s, cfg, t, i, p);
    }
  }

  lemma ResultKeeps(s: Tables, cfg: Settings, t: Tables, i: JobId, p: Pack)
    requires Stored(s, cfg) && ResultStored(s, t, i, p)
    ensures Stored(t, cfg)
  {
    hide ManifestRefusal, FieldsInRange, QuotaOk, ManifestOk, RowOk;
    FinalizedRows(s, t, i);
    ManifestAccepted(s, i, p.attempt, p.manifest);
    forall j | j in t.jobs ensures ManifestOk(t, j) && QuotaOk(t, cfg, j) {
      QuotaCarried(s, cfg, t, j);
      if j == i { ManifestNew(s, t, j, p); } else { ManifestCarried(s, t, j); }
    }
  }

  lemma FinalizedRows(s: Tables, t: Tables, i: JobId)
    requires t.artifacts == s.artifacts && t.files == s.files && i in s.jobs && t.jobs.Keys == s.jobs.Keys
    requires forall j | j in s.jobs :: t.jobs[j].attempt == s.jobs[j].attempt
    requires forall id | id in s.artifacts :: RowOk(s, id)
    ensures (forall id | id in s.artifacts :: s.artifacts[id].ref.id == id && RowOk(t, id))
  {
    hide SafeName;
    forall id | id in s.artifacts ensures s.artifacts[id].ref.id == id && RowOk(t, id) { assert RowOk(s, id); }
  }

  lemma QuotaCarried(s: Tables, cfg: Settings, t: Tables, j: JobId)
    requires j in s.jobs && j in t.jobs && t.artifacts == s.artifacts && t.jobs[j].budget == s.jobs[j].budget
    requires QuotaOk(s, cfg, j)
    ensures QuotaOk(t, cfg, j)
  {
    assert Sizes(t, j) == Sizes(s, j) && ArtifactsOf(t, j) == ArtifactsOf(s, j);
  }

  lemma ManifestCarried(s: Tables, t: Tables, j: JobId)
    requires j in s.jobs && j in t.jobs && t.artifacts == s.artifacts && t.jobs[j].result == s.jobs[j].result
    requires ManifestOk(s, j)
    ensures ManifestOk(t, j)
  {
    SameBacking(s, t);
  }

  lemma ManifestNew(s: Tables, t: Tables, j: JobId, p: Pack)
    requires j in t.jobs && t.artifacts == s.artifacts && t.jobs[j].result == Some(p)
    requires forall ref | ref in p.manifest :: Backed(s, j, p.attempt, ref)
    ensures ManifestOk(t, j)
  {
    SameBacking(s, t);
  }

  lemma SameBacking(s: Tables, t: Tables)
    requires t.artifacts == s.artifacts
    ensures forall j, a, ref :: Backed(t, j, a, ref) == Backed(s, j, a, ref)
  {}

  // ---- uploads -------------------------------------------------------------------------------------

  lemma UploadStores(s: Tables, cfg: Settings, j: JobId, w: WorkerId, a: AttemptId, token: Token, ref: Ref, data: Blob,
                     now: Time)
    requires Stored(s, cfg)
    ensures Stored(AddArtifact(s, cfg, j, w, a, token, ref, data, now).after, cfg)
  {
    var t := AddArtifact(s, cfg, j, w, a, token, ref, data, now).after;
    if t != s {
      Uploaded(s, cfg, j, w, a, token, ref, data, now);
      hide AddArtifact, UploadRefusal;
      UploadRowsOk(s, cfg, t, j, a, ref, data);
      UploadQuotas(s, cfg, t, j, a, ref, data);
      UploadManifests(s, cfg, t, j, a, ref, data);
    }
  }

  /** What an upload has passed, and what it writes. */
  ghost predicate Upload(s: Tables, cfg: Settings, t: Tables, j: JobId, a: AttemptId, ref: Ref, data: Blob) {
    && t == s.(artifacts := s.artifacts[ref.id := Artifact(j, a, ref)], files := s.files[Path(j, a, ref.name) := data])
    && ref.id !in s.artifacts && j in s.jobs && s.jobs[j].attempt == Some(a)
    && |data| == ref.bytes && data == ref.digest && SafeName(ref.name) && ref.media in MEDIA
    && Sum(Sizes(s, j)) + ref.bytes <= s.jobs[j].budget.cacheBytes && |ArtifactsOf(s, j)| < cfg.maxArtifacts
    && !NameTaken(s, j, ref.name)
  }

  lemma Uploaded(s: Tables, cfg: Settings, j: JobId, w: WorkerId, a: AttemptId, token: Token, ref: Ref, data: Blob,
                 now: Time)
    requires AddArtifact(s, cfg, j, w, a, token, ref, data, now).after != s
    ensures Upload(s, cfg, AddArtifact(s, cfg, j, w, a, token, ref, data, now).after, j, a, ref, data)
  {
    hide SafeName, NameTaken, Sizes, ArtifactsOf;
  }

  lemma UploadRowsOk(s: Tables, cfg: Settings, t: Tables, j: JobId, a: AttemptId, ref: Ref, data: Blob)
    requires Stored(s, cfg) && Upload(s, cfg, t, j, a, ref, data)
    ensures (forall id | id in t.artifacts :: RowOk(t, id)) && NamesUnique(t)
  {
    hide SafeName, Sizes, QuotaOk, ManifestOk, BudgetsPositive;
    forall id | id in s.artifacts ensures s.artifacts[id].job == j ==> s.artifacts[id].ref.name != ref.name {
      assert id in ArtifactsOf(s, s.artifacts[id].job);
    }
    forall id | id in t.artifacts ensures RowOk(t, id) {
      if id != ref.id { assert RowOk(s, id); }
    }
  }

  lemma UploadQuotas(s: Tables, cfg: Settings, t: Tables, j: JobId, a: AttemptId, ref: Ref, data: Blob)
    requires Stored(s, cfg) && Upload(s, cfg, t, j, a, ref, data)
    ensures forall i | i in t.jobs :: QuotaOk(t, cfg, i)
  {
    hide RowOk, ManifestOk, NamesUnique, NameTaken, BudgetsPositive, QuotaOk;
    forall i | i in t.jobs ensures QuotaOk(t, cfg, i) {
      if i == j { OwnQuota(s, cfg, t, j, a, ref, data); } else { OtherQuota(s, cfg, t, j, a, ref, data, i); }
    }
  }

  lemma OwnQuota(s: Tables, cfg: Settings, t: Tables, j: JobId, a: AttemptId, ref: Ref, data: Blob)
    requires Upload(s, cfg, t, j, a, ref, data)
    ensures QuotaOk(t, cfg, j)
  {
    hide SafeName, NameTaken;
    assert ArtifactsOf(t, j) == ArtifactsOf(s, j) + {ref.id};
    assert Sizes(t, j) == Sizes(s, j)[ref.id := ref.bytes];
    SumInsert(Sizes(s, j), ref.id, ref.bytes);
  }

  lemma OtherQuota(s: Tables, cfg: Settings, t: Tables, j: JobId, a: AttemptId, ref: Ref, data: Blob, i: JobId)
    requires Upload(s, cfg, t, j, a, ref, data) && i != j && i in s.jobs && QuotaOk(s, cfg, i)
    ensures QuotaOk(t, cfg, i)
  {
    hide SafeName, NameTaken;
    assert ArtifactsOf(t, i) == ArtifactsOf(s, i);
    assert Sizes(t, i) == Sizes(s, i);
  }

  lemma UploadManifests(s: Tables, cfg: Settings, t: Tables, j: JobId, a: AttemptId, ref: Ref, data: Blob)
    requires Stored(s, cfg) && Upload(s, cfg, t, j, a, ref, data)
    ensures forall i | i in t.jobs :: ManifestOk(t, i)
  {
    hide SafeName, RowOk, QuotaOk, NamesUnique, NameTaken;
    forall i | i in t.jobs ensures ManifestOk(t, i) {
      assert ManifestOk(s, i);
      assert forall a, r | Backed(s, i, a, r) :: Backed(t, i, a, r);
    }
  }

  // ---- deletion and expiry ---------------------------------------------------------------------------

  /** Rows, files and results vanish together: what is left belongs to other jobs. */
  ghost predicate Clears(s: Tables, t: Tables, gone: set<JobId>) {
    && (forall id :: id in t.artifacts <==> id in s.artifacts && s.artifacts[id].job !in gone)
    && (forall id | id in t.artifacts :: t.artifacts[id] == s.artifacts[id])
    && (forall p: Path | p in s.files && p.job !in gone :: p in t.files && t.files[p] == s.files[p])
    && (forall j | j in t.jobs :: j in s.jobs && t.jobs[j].budget == s.jobs[j].budget
                                  && t.jobs[j].attempt == s.jobs[j].attempt)
    && (forall j | j in t.jobs && j in gone :: t.jobs[j].result.None?)
    && (forall j | j in s.jobs && j !in gone :: j in t.jobs && t.jobs[j].result == s.jobs[j].result)
  }

  lemma ClearingKeeps(s: Tables, cfg: Settings, t: Tables, gone: set<JobId>)
    requires Stored(s, cfg) && Clears(s, t, gone)
    ensures Stored(t, cfg)
  {
    hide SafeName;
    forall id | id in t.artifacts ensures RowOk(t, id) { assert RowOk(s, id); }
    assert NamesUnique(t);
    forall j | j in t.jobs ensures QuotaOk(t, cfg, j) && ManifestOk(t, j) && FieldsInRange(t.jobs[j].budget) {
      ClearedJob(s, cfg, t, gone, j);
    }
  }

  lemma ClearedJob(s: Tables, cfg: Settings, t: Tables, gone: set<JobId>, j: JobId)
    requires Stored(s, cfg) && Clears(s, t, gone) && j in t.jobs
    ensures QuotaOk(t, cfg, j) && ManifestOk(t, j)
  {
    hide RowOk, NamesUnique, QuotaOk;
    assert QuotaOk(s, cfg, j) && ManifestOk(s, j) && FieldsInRange(s.jobs[j].budget);
    ClearedQuota(s, cfg, t, gone, j);
    if j !in gone {
      if t.jobs[j].result.Some? {
        forall ref | ref in t.jobs[j].result.value.manifest
          ensures Backed(t, j, t.jobs[j].result.value.attempt, ref)
        {
          assert Backed(s, j, s.jobs[j].result.value.attempt, ref);
        }
      }
    }
  }

  lemma ClearedQuota(s: Tables, cfg: Settings, t: Tables, gone: set<JobId>, j: JobId)
    requires Clears(s, t, gone) && j in s.jobs && j in t.jobs && QuotaOk(s, cfg, j) && FieldsInRange(s.jobs[j].budget)
    ensures QuotaOk(t, cfg, j)
  {
    if j in gone {
      assert ArtifactsOf(t, j) == {} && Sizes(t, j) == map[];
    } else {
      assert ArtifactsOf(t, j) == ArtifactsOf(s, j) && Sizes(t, j) == Sizes(s, j);
    }
  }

  lemma DeleteStores(s: Tables, cfg: Settings, j: JobId)
    requires Stored(s, cfg)
    ensures Stored(Delete(s, j).after, cfg)
  {
    var t := Delete(s, j).after;
    if t != s {
      DeleteClears(s, j);
      hide Delete, Stored, Clears;
      ClearingKeeps(s, cfg, t, {j});
    }
  }

  lemma DeleteClears(s: Tables, j: JobId)
    requires Delete(s, j).after != s
    ensures Clears(s, Delete(s, j).after, {j})
  {}

  lemma ExpireStores(s: Tables, cfg: Settings, now: Time)
    requires Stored(s, cfg)
    ensures Stored(Expire(s, now), cfg)
  {
    var t := Expire(s, now);
    ExpireClears(s, now);
    hide Expire, Stored, Clears;
    ClearingKeeps(s, cfg, t, set j | j in s.jobs && Outdated(s, j, now));
  }

  lemma ExpireClears(s: Tables, now: Time)
    ensures Clears(s, Expire(s, now), set j | j in s.jobs && Outdated(s, j, now))
  {
    var t := Expire(s, now);
    var gone := set j | j in s.jobs && Outdated(s, j, now);
    assert forall j :: Outdated(s, j, now) <==> j in gone;
    hide Outdated;
    forall p: Path | p in s.files && p.job !in gone ensures p in t.files && t.files[p] == s.files[p] {
      assert forall a: Artifact | PathOf(a) == p :: a.job == p.job;
    }
  }

  // ---- every operation -----------------------------------------------------------------------------

  /** The operations that touch neither artifacts nor results. */
  predicate Quiet(op: Op) {
    op.DoRegister? || op.DoSubmit? || op.DoClaim? || op.DoRenew? || op.DoCancel? || op.DoRetry?
  }

  lemma QuietLeaves(s: Tables, cfg: Settings, op: Op, now: Time, t: Tables)
    requires Inv(s, cfg) && cfg.ttl > 0 && Steps(s, cfg, op, now, t) && Quiet(op)
    ensures LeavesArtifacts(s, t)
  {
    StoredIssued(s, cfg);
    hide Inv, ResultKept, Rooted, ValidSubmission;
    hide Register, Submit, Claim, Renew, Cancel, Retry;
    SameResults(s);
    match op
    case DoRegister(w, capabilities, contract, concurrency) =>
      RegisterLeaves(s, w, capabilities, contract, concurrency, now);
    case DoSubmit(q, id) => SubmitLeaves(s, q, id, now);
    case DoClaim(w, a, token) => ClaimLeaves(s, cfg, w, a, token, now);
    case DoRenew(j, w, a, token) => RenewLeaves(s, cfg, j, w, a, token, now);
    case DoCancel(j) => CancelLeaves(s, j);
    case DoRetry(j, key, id) => RetryLeaves(s, j, key, id, now);
    case _ =>
  }

  lemma SameResults(s: Tables)
    ensures LeavesArtifacts(s, s)
  {}

  lemma RegisterLeaves(s: Tables, w: WorkerId, capabilities: set<Capability>, contract: nat, concurrency: nat,
                       now: Time)
    ensures LeavesArtifacts(s, Register(s, w, capabilities, contract, concurrency, now))
  {}

  lemma SubmitLeaves(s: Tables, q: Submission, id: JobId, now: Time)
    requires Rooted(s.jobs) && id !in s.jobs
    ensures LeavesArtifacts(s, Submit(s, q, id, now).after)
  {
    hide ParentRefusal, Owns;
  }

  lemma ClaimLeaves(s: Tables, cfg: Settings, w: WorkerId, a: AttemptId, token: Token, now: Time)
    ensures LeavesArtifacts(s, Claim(s, cfg, w, a, token, now).after)
  {}

  lemma RenewLeaves(s: Tables, cfg: Settings, j: JobId, w: WorkerId, a: AttemptId, token: Token, now: Time)
    ensures LeavesArtifacts(s, Renew(s, cfg, j, w, a, token, now).after)
  {}

  lemma CancelLeaves(s: Tables, j: JobId)
    ensures LeavesArtifacts(s, Cancel(s, j).after)
  {
    CancelRows(s, j);
    CancelFiles(s, j);
    hide Cancel;
    CheaperLeaves(s, Cancel(s, j).after);
  }

  lemma CancelFiles(s: Tables, j: JobId)
    ensures Cancel(s, j).after.artifacts == s.artifacts && Cancel(s, j).after.files == s.files
  {}

  lemma CheaperLeaves(s: Tables, t: Tables)
    requires CheaperRows(s, t, {}) && t.artifacts == s.artifacts && t.files == s.files
    ensures LeavesArtifacts(s, t)
  {
    hide SameTerms;
  }

  lemma RetryLeaves(s: Tables, j: JobId, key: string, id: JobId, now: Time)
    requires Rooted(s.jobs) && id !in s.jobs
    ensures LeavesArtifacts(s, Retry(s, j, key, id, now).after)
  {
    hide Submit, Resubmission, RetryRefusal, LeavesArtifacts;
    SameResults(s);
    if RetryRefusal(s, j, key, now).None? {
      RetryOk(s, j, key, now);
      SubmitLeaves(s, Resubmission(s, j, key, now), id, now);
    }
  }

  lemma SweepStores(s: Tables, cfg: Settings, now: Time)
    requires Inv(s, cfg) && Stored(s, cfg)
    ensures Stored(Sweep(s, cfg, now), cfg)
  {
    ExpireStores(s, cfg, now);
    ExpireKeeps(s, cfg, now);
    var m, t := Expire(s, now), Sweep(s, cfg, now);
    SweptKeeps(m, cfg, t, now);
    SweptLeaves(m, t, now);
    hide Expire, Sweep, Inv, Moves, Stored, LeavesArtifacts;
    SweptBudgets(m, cfg, t);
    LeavingKeeps(m, cfg, t);
  }

  lemma SweptLeaves(m: Tables, t: Tables, now: Time)
    requires t.artifacts == m.artifacts && t.files == m.files
    requires t.jobs == map j | j in m.jobs :: Swept(m, m.jobs[j], j, now)
    ensures LeavesArtifacts(m, t) && t.jobs.Keys == m.jobs.Keys
  {}

  lemma SweptBudgets(m: Tables, cfg: Settings, t: Tables)
    requires Stored(m, cfg) && t.jobs.Keys == m.jobs.Keys && Moves(m, t)
    ensures BudgetsPositive(t.jobs)
  {
    forall j | j in t.jobs ensures FieldsInRange(t.jobs[j].budget) {
      assert SameTerms(m.jobs[j], t.jobs[j]) && FieldsInRange(m.jobs[j].budget);
    }
  }

  lemma StepStores(s: Tables, cfg: Settings, op: Op, now: Time, t: Tables)
    requires Inv(s, cfg) && cfg.ttl > 0 && Steps(s, cfg, op, now, t) && Stored(s, cfg)
    ensures Stored(t, cfg)
  {
    StoredBudgets(s, cfg);
    StepTerms(s, cfg, op, now, t);
    StepKeeps(s, cfg, op, now, t);
    hide Inv, Moves, Stored, Rooted, BudgetsPositive, LeavesArtifacts;
    hide Register, Submit, Claim, Renew, Cancel, Finalize, Retry, AddArtifact, Delete, Expire, Sweep;
    if Quiet(op) {
      QuietLeaves(s, cfg, op, now, t);
      LeavingKeeps(s, cfg, t);
    } else {
      match op
      case DoFinalize(j, w, token, p) => FinalizeStores(s, cfg, j, w, token, p, now);
      case DoUpload(j, w, a, token, ref, data) => UploadStores(s, cfg, j, w, a, token, ref, data, now);
      case DoDelete(j) => DeleteStores(s, cfg, j);
      case DoExpire => ExpireStores(s, cfg, now);
      case DoSweep => SweepStores(s, cfg, now);
      case _ =>
    }
  }

  lemma StoredBudgets(s: Tables, cfg: Settings)
    requires Stored(s, cfg)
    ensures BudgetsPositive(s.jobs)
  {}

  /** In every state of every run the artifacts of a job stay within its quotas under distinct names, each row's file
      has the row's content, and every manifest entry of a kept result is such a row. */
  lemma {:induction false} ArtifactsIntact(cfg: Settings, states: seq<Tables>, events: seq<Event>, i: nat)
    requires IsRun(cfg, states, events) && i < |states|
    ensures Stored(states[i], cfg)
  {
    if i > 0 {
      ArtifactsIntact(cfg, states, events, i - 1);
      RunKeeps(cfg, states, events, i - 1);
      hide Inv, Stored, StepAt;
      assert StepAt(cfg, states, events, i - 1);
      StepTaken(cfg, states, events, i - 1);
      StepStores(states[i - 1], cfg, events[i - 1].op, events[i - 1].now, states[i]);
    }
  }

  /** A file named by a kept result reads back as the bytes the result was accepted with. */
  lemma ManifestReadsBack(s: Tables, cfg: Settings, j: JobId, ref: Ref)
    requires Stored(s, cfg) && j in s.jobs && s.jobs[j].result.Some? && ref in s.jobs[j].result.value.manifest
    ensures var path := Path(j, s.jobs[j].result.value.attempt, ref.name);
            path in s.files && s.files[path] == ref.digest && |s.files[path]| == ref.bytes
  {
    assert ManifestOk(s, j) && Backed(s, j, s.jobs[j].result.value.attempt, ref);
    assert RowOk(s, ref.id);
  }
}
