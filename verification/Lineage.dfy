/** The budget of a job bounds what it and everything submitted under it may use. */
module Lineage {
  import opened Options
  import opened Activity
  import opened Sums
  import opened Store
  import opened Operations
  import opened Runs
  import opened Lifecycle

  // ---- the parent walk ---------------------------------------------------------------------------

  predicate Belongs(jobs: map<JobId, Job>, j: JobId, r: JobId)
    requires Rooted(jobs)
  {
    j in jobs && RootOf(jobs, j) == Some(r)
  }

  /** Same jobs under the same parents: the same walks. */
  lemma {:induction false} SameRoots(a: map<JobId, Job>, b: map<JobId, Job>, j: JobId)
    requires Rooted(a) && Rooted(b) && a.Keys == b.Keys && j in a
    requires forall i | i in a :: SameTerms(a[i], b[i])
    ensures RootOf(a, j) == RootOf(b, j)
    decreases a[j].serial
  {
    assert SameTerms(a[j], b[j]);
    if a[j].parent.Some? && a[j].parent.value in a { SameRoots(a, b, a[j].parent.value); }
  }

  /** A new job changes no old walk. */
  lemma {:induction false} OldRoots(a: map<JobId, Job>, id: JobId, job: Job, j: JobId)
    requires Rooted(a) && Rooted(a[id := job]) && j in a && id !in a
    requires forall i | i in a :: a[i].parent != Some(id)
    ensures RootOf(a[id := job], j) == RootOf(a, j)
    decreases a[j].serial
  {
    if a[j].parent.Some? && a[j].parent.value in a { OldRoots(a, id, job, a[j].parent.value); }
  }

  /** The walk from job `i` upwards comes past job `j`. */
  predicate Under(jobs: map<JobId, Job>, i: JobId, j: JobId)
    requires Rooted(jobs) && i in jobs
    decreases jobs[i].serial
  {
    i == j || (jobs[i].parent.Some? && jobs[i].parent.value in jobs && Under(jobs, jobs[i].parent.value, j))
  }

  function Subtree(jobs: map<JobId, Job>, j: JobId): set<JobId>
    requires Rooted(jobs)
  {
    set i | i in jobs && Under(jobs, i, j)
  }

  /** Without job `gone` the walks that came past it end nowhere, and the others where they did. */
  lemma {:induction false} DeletedRoots(a: map<JobId, Job>, gone: JobId, j: JobId)
    requires Rooted(a) && Rooted(a - {gone}) && j in a && j != gone
    ensures RootOf(a - {gone}, j) == if Under(a, j, gone) then None else RootOf(a, j)
    decreases a[j].serial
  {
    if a[j].parent.Some? && a[j].parent.value in a && a[j].parent.value != gone {
      DeletedRoots(a, gone, a[j].parent.value);
    }
  }

  /** A job below a root has the root's kind, and a root with jobs below it has ended. */
  lemma {:induction false} BelowRoot(s: Tables, cfg: Settings, j: JobId, r: JobId)
    requires Inv(s, cfg) && Rooted(s.jobs) && Belongs(s.jobs, j, r)
    ensures r in s.jobs && SameKind(s.jobs[j].input, s.jobs[r].input)
    ensures j != r ==> Terminal(s.jobs[r].state)
    decreases s.jobs[j].serial
  {
    InvAt(s, cfg, j);
    hide Inv;
    if s.jobs[j].parent.Some? { BelowRoot(s, cfg, s.jobs[j].parent.value, r); }
  }

  lemma RootsItself(s: Tables, r: JobId)
    requires Rooted(s.jobs) && r in s.jobs && s.jobs[r].parent.None?
    ensures Belongs(s.jobs, r, r)
  {}

  // ---- the invariant -----------------------------------------------------------------------------

  /** What a root and its descendants have used, or may still use, stays within the root's budget. */
  ghost predicate WithinBudget(jobs: map<JobId, Job>, r: JobId)
    requires Rooted(jobs) && r in jobs
  {
    forall res: Resource :: Sum(Charges(jobs, r, res)) <= Given(jobs[r].budget, res)
  }

  predicate InTime(jobs: map<JobId, Job>, j: JobId)
    requires Rooted(jobs) && j in jobs
  {
    RootOf(jobs, j).Some? && RootOf(jobs, j).value in jobs ==> jobs[j].deadline <= jobs[RootOf(jobs, j).value].deadline
  }

  ghost predicate Conserved(s: Tables)
    requires Rooted(s.jobs)
  {
    && BudgetsPositive(s.jobs)
    && (forall r | r in s.jobs && s.jobs[r].parent.None? && !s.jobs[r].input.Observe? :: WithinBudget(s.jobs, r))
    && AllInTime(s.jobs)
  }

  predicate AllInTime(jobs: map<JobId, Job>)
    requires Rooted(jobs)
  {
    forall j | j in jobs :: InTime(jobs, j)
  }

  /** The results that expiry is about to drop. */
  function Dropped(s: Tables, op: Op, now: Time): set<JobId> {
    if op.DoExpire? || op.DoSweep? then set j | j in s.jobs && Outdated(s, j, now) && s.jobs[j].result.Some? else {}
  }

  /** Expiry drops no result below the root. */
  predicate Spares(s: Tables, op: Op, now: Time, r: JobId)
    requires Rooted(s.jobs)
  {
    forall j | j in Dropped(s, op, now) :: !Belongs(s.jobs, j, r)
  }

  /** A worker reports no more than its job's budget allowed it. */
  predicate Honest(s: Tables, op: Op) {
    op.DoFinalize? && op.j in s.jobs && !s.jobs[op.j].input.Observe? ==> UsageFits(op.p.usage, s.jobs[op.j].budget)
  }

  lemma ChargePositive(job: Job, isRoot: bool, res: Resource)
    requires FieldsInRange(job.budget)
    ensures 0 <= Charge(job, isRoot, res)
  {}

  // ---- operations that add no job and raise no charge ----------------------------------------------

  predicate NoDearer(a: Job, b: Job, isRoot: bool) {
    forall res: Resource :: Charge(b, isRoot, res) <= Charge(a, isRoot, res)
  }

  /** No job of the lineage counts for more than before. */
  ghost predicate NoCharge(s: Tables, t: Tables, r: JobId)
    requires Rooted(s.jobs)
  {
    && t.jobs.Keys == s.jobs.Keys
    && (forall j | j in s.jobs :: SameTerms(s.jobs[j], t.jobs[j]))
    && forall j | Belongs(s.jobs, j, r) :: NoDearer(s.jobs[j], t.jobs[j], j == r)
  }

  /** A lineage in which every job counts for no more than before stays within its budget. */
  lemma ShrinksWithin(a: map<JobId, Job>, b: map<JobId, Job>, r: JobId)
    requires Rooted(a) && Rooted(b) && BudgetsPositive(a) && r in a && r in b && a[r].budget == b[r].budget
    requires forall j | Belongs(b, j, r) :: Belongs(a, j, r) && NoDearer(a[j], b[j], j == r)
    requires WithinBudget(a, r)
    ensures WithinBudget(b, r)
  {
    hide Charge, Rooted, RootOf;
    forall res: Resource ensures Sum(Charges(b, r, res)) <= Given(b[r].budget, res) {
      var m, n := Charges(a, r, res), Charges(b, r, res);
      forall j | j in n ensures j in m && n[j] <= m[j] {
        assert Belongs(b, j, r);
      }
      forall j | j in m ensures 0 <= m[j] {
        ChargePositive(a[j], j == r, res);
      }
      SumLess(m, n);
      assert Sum(m) <= Given(a[r].budget, res);
    }
  }

  lemma NoChargeKeeps(s: Tables, t: Tables, r: JobId)
    requires Rooted(s.jobs) && Rooted(t.jobs) && BudgetsPositive(s.jobs) && NoCharge(s, t, r) && r in s.jobs
    requires WithinBudget(s.jobs, r)
    ensures WithinBudget(t.jobs, r)
  {
    hide WithinBudget, NoDearer, SameTerms, Rooted;
    forall j | Belongs(t.jobs, j, r) ensures Belongs(s.jobs, j, r) { SameRoots(s.jobs, t.jobs, j); }
    SameBudget(s.jobs[r], t.jobs[r]);
    ShrinksWithin(s.jobs, t.jobs, r);
  }

  lemma SameBudget(a: Job, b: Job)
    requires SameTerms(a, b)
    ensures a.budget == b.budget && a.deadline == b.deadline && a.parent == b.parent && a.input == b.input
  {}

  lemma SameTermsInTime(s: Tables, t: Tables)
    requires Rooted(s.jobs) && Rooted(t.jobs) && AllInTime(s.jobs) && t.jobs.Keys == s.jobs.Keys
    requires forall j | j in s.jobs :: SameTerms(s.jobs[j], t.jobs[j])
    ensures AllInTime(t.jobs)
  {
    hide SameTerms;
    forall j | j in t.jobs ensures InTime(t.jobs, j) {
      SameRoots(s.jobs, t.jobs, j);
      SameBudget(s.jobs[j], t.jobs[j]);
      assert InTime(s.jobs, j);
      var r := RootOf(s.jobs, j);
      if r.Some? && r.value in s.jobs { SameBudget(s.jobs[r.value], t.jobs[r.value]); }
    }
  }

  // ---- a new job ---------------------------------------------------------------------------------

  lemma InsertCharges(s: Tables, q: Submission, id: JobId, now: Time, r: JobId, res: Resource)
    requires Rooted(s.jobs) && Rooted(Insert(s, q, id, now).after.jobs) && id !in s.jobs
    requires forall i | i in s.jobs :: s.jobs[i].parent != Some(id)
    ensures var t := Insert(s, q, id, now).after;
            Charges(t.jobs, r, res) == if Belongs(t.jobs, id, r)
                                       then Charges(s.jobs, r, res)[id := Charge(NewJob(s, q, now), id == r, res)]
                                       else Charges(s.jobs, r, res)
  {
    hide Charge;
    var t := Insert(s, q, id, now).after;
    var job := NewJob(s, q, now);
    assert t.jobs == s.jobs[id := job];
    hide Insert, NewJob;
    forall j | j in s.jobs ensures RootOf(t.jobs, j) == RootOf(s.jobs, j) {
      OldRoots(s.jobs, id, job, j);
    }
    hide RootOf;
  }

  lemma SubmitWithin(s: Tables, cfg: Settings, q: Submission, id: JobId, now: Time, r: JobId)
    requires Inv(s, cfg) && Rooted(s.jobs) && id !in s.issued && FieldsInRange(q.budget)
    requires Rooted(Submit(s, q, id, now).after.jobs)
    requires var t := Submit(s, q, id, now).after; r in t.jobs && t.jobs[r].parent.None?
    requires r in s.jobs ==> WithinBudget(s.jobs, r)
    ensures WithinBudget(Submit(s, q, id, now).after.jobs, r)
  {
    StoredIssued(s, cfg);
    ParentsIssued(s, cfg);
    var t := Submit(s, q, id, now).after;
    hide Inv, FieldsInRange, Charges, ParentRefusal, Owns;
    if ParentRefusal(s, q, now).None? && !exists j: JobId :: Owns(s, j, q.key) {
      forall res: Resource ensures Sum(Charges(t.jobs, r, res)) <= Given(t.jobs[r].budget, res) {
        InsertWithin(s, cfg, q, id, now, r, res);
      }
    }
  }

  lemma SubmitInTime(s: Tables, cfg: Settings, q: Submission, id: JobId, now: Time)
    requires Inv(s, cfg) && Rooted(s.jobs) && id !in s.issued && AllInTime(s.jobs)
    requires Rooted(Submit(s, q, id, now).after.jobs)
    ensures AllInTime(Submit(s, q, id, now).after.jobs)
  {
    StoredIssued(s, cfg);
    ParentsIssued(s, cfg);
    var t := Submit(s, q, id, now).after;
    hide Inv, InTime, ParentRefusal, Owns;
    if ParentRefusal(s, q, now).None? && !exists j: JobId :: Owns(s, j, q.key) {
      forall j | j in t.jobs ensures InTime(t.jobs, j) {
        InsertInTime(s, q, id, now, j);
      }
    }
  }

  lemma ParentsIssued(s: Tables, cfg: Settings)
    requires Inv(s, cfg)
    ensures forall j | j in s.jobs && s.jobs[j].parent.Some? :: s.jobs[j].parent.value in s.issued
  {
    forall j | j in s.jobs && s.jobs[j].parent.Some? ensures s.jobs[j].parent.value in s.issued {
      assert JobOk(s, cfg, j);
    }
  }

  /** What the allocation check has established when it lets a child through. */
  lemma Allocated(s: Tables, q: Submission, now: Time)
    requires Rooted(s.jobs) && ParentRefusal(s, q, now).None? && q.parent.Some?
    ensures q.parent.value in s.jobs && RootOf(s.jobs, q.parent.value).Some?
    ensures var r := RootOf(s.jobs, q.parent.value).value;
            && r in s.jobs && now + q.span <= s.jobs[r].deadline
            && forall res: Resource :: Given(q.budget, res) + Sum(Charges(s.jobs, r, res)) <= Given(s.jobs[r].budget,
                    res)
  {
    hide Charges;
    RootStored(s.jobs, q.parent.value);
  }

  lemma InsertWithin(s: Tables, cfg: Settings, q: Submission, id: JobId, now: Time, r: JobId, res: Resource)
    requires Inv(s, cfg) && Rooted(s.jobs) && id !in s.jobs
    requires forall i | i in s.jobs :: s.jobs[i].parent != Some(id)
    requires FieldsInRange(q.budget) && ParentRefusal(s, q, now).None?
    requires var t := Insert(s, q, id, now).after; Rooted(t.jobs) && r in t.jobs && t.jobs[r].parent.None?
    requires r in s.jobs ==> WithinBudget(s.jobs, r)
    ensures var t := Insert(s, q, id, now).after; Sum(Charges(t.jobs, r, res)) <= Given(t.jobs[r].budget, res)
  {
    var t := Insert(s, q, id, now).after;
    hide Inv, FieldsInRange, ParentRefusal, Charges;
    InsertCharges(s, q, id, now, r, res);
    if r == id {
      NoCharges(s, id, res);
      SumInsert(map[], id, 0);
      GivenPositive(q.budget, res);
    } else {
      assert WithinBudget(s.jobs, r);
      if Belongs(t.jobs, id, r) {
        Allocated(s, q, now);
        OldRoots(s.jobs, id, NewJob(s, q, now), q.parent.value);
        NotCharged(s, id, r, res);
        SumInsert(Charges(s.jobs, r, res), id, Charge(NewJob(s, q, now), false, res));
      }
    }
  }

  lemma GivenPositive(b: Limits, res: Resource)
    requires FieldsInRange(b)
    ensures 0 < Given(b, res)
  {}

  lemma NotCharged(s: Tables, id: JobId, r: JobId, res: Resource)
    requires Rooted(s.jobs) && id !in s.jobs
    ensures id !in Charges(s.jobs, r, res)
  {}

  lemma NoCharges(s: Tables, id: JobId, res: Resource)
    requires Rooted(s.jobs) && id !in s.jobs
    ensures Charges(s.jobs, id, res) == map[]
  {
    forall j | j in s.jobs ensures RootOf(s.jobs, j) != Some(id) {
      if RootOf(s.jobs, j).Some? { RootStored(s.jobs, j); }
    }
  }

  lemma InsertInTime(s: Tables, q: Submission, id: JobId, now: Time, j: JobId)
    requires Rooted(s.jobs) && AllInTime(s.jobs) && id !in s.jobs
    requires forall i | i in s.jobs :: s.jobs[i].parent != Some(id)
    requires ParentRefusal(s, q, now).None?
    requires Rooted(Insert(s, q, id, now).after.jobs) && j in Insert(s, q, id, now).after.jobs
    ensures InTime(Insert(s, q, id, now).after.jobs, j)
  {
    hide ParentRefusal;
    if j != id {
      OldRoots(s.jobs, id, NewJob(s, q, now), j);
      assert InTime(s.jobs, j);
      if RootOf(s.jobs, j).Some? { RootStored(s.jobs, j); }
    } else if q.parent.Some? {
      Allocated(s, q, now);
      OldRoots(s.jobs, id, NewJob(s, q, now), q.parent.value);
    }
  }

  // ---- deletion ----------------------------------------------------------------------------------

  lemma DeleteWithin(s: Tables, j: JobId, r: JobId)
    requires Rooted(s.jobs) && BudgetsPositive(s.jobs) && Rooted(Delete(s, j).after.jobs)
    requires r in Delete(s, j).after.jobs && (r in s.jobs ==> WithinBudget(s.jobs, r))
    ensures WithinBudget(Delete(s, j).after.jobs, r)
  {
    var t := Delete(s, j).after;
    if t != s {
      DeletedJobs(s, j);
      hide Delete, WithinBudget;
      FewerWithin(s, t, j, r);
    }
  }

  lemma DeleteInTime(s: Tables, j: JobId)
    requires Rooted(s.jobs) && AllInTime(s.jobs) && Rooted(Delete(s, j).after.jobs)
    ensures AllInTime(Delete(s, j).after.jobs)
  {
    var t := Delete(s, j).after;
    if t != s {
      DeletedJobs(s, j);
      hide Delete;
      forall i | i in t.jobs ensures InTime(t.jobs, i) {
        DeletedRoots(s.jobs, j, i);
        assert InTime(s.jobs, i);
      }
    }
  }

  lemma DeletedJobs(s: Tables, j: JobId)
    requires Delete(s, j).after != s
    ensures Delete(s, j).after.jobs == s.jobs - {j}
  {}

  lemma FewerWithin(s: Tables, t: Tables, j: JobId, r: JobId)
    requires Rooted(s.jobs) && BudgetsPositive(s.jobs) && t.jobs == s.jobs - {j} && Rooted(t.jobs)
    requires r in t.jobs && WithinBudget(s.jobs, r)
    ensures WithinBudget(t.jobs, r)
  {
    hide WithinBudget, NoDearer;
    forall i | Belongs(t.jobs, i, r) ensures Belongs(s.jobs, i, r) && NoDearer(s.jobs[i], t.jobs[i], i == r) {
      DeletedRoots(s.jobs, j, i);
      SameCharges(s.jobs[i], i == r);
    }
    ShrinksWithin(s.jobs, t.jobs, r);
  }

  /** Deleting a job hands all that it and the jobs below it counted for back to their lineage, whatever they used: the
      jobs below it stay stored but belong to no lineage any more. */
  lemma DeletionFreesBudget(s: Tables, j: JobId, r: JobId, res: Resource)
    requires Rooted(s.jobs) && Rooted(Delete(s, j).after.jobs) && Delete(s, j).out.Ok?
    ensures var t := Delete(s, j).after;
            && Sum(Charges(t.jobs, r, res))
               == Sum(Charges(s.jobs, r, res)) - Sum(Restrict(Charges(s.jobs, r, res), Subtree(s.jobs, j)))
            && forall i | i in t.jobs ::
                 RootOf(t.jobs, i) == if i in Subtree(s.jobs, j) then None else RootOf(s.jobs, i)
  {
    var t := Delete(s, j).after;
    assert t.jobs == s.jobs - {j};
    hide Delete;
    SubtreeGone(s.jobs, j, r, res);
    SumSplit(Charges(s.jobs, r, res), Subtree(s.jobs, j));
  }

  lemma SubtreeGone(a: map<JobId, Job>, j: JobId, r: JobId, res: Resource)
    requires Rooted(a) && Rooted(a - {j}) && j in a
    ensures forall i | i in a && i != j :: RootOf(a - {j}, i) == if i in Subtree(a, j) then None else RootOf(a, i)
    ensures Charges(a - {j}, r, res) == Charges(a, r, res) - Subtree(a, j)
  {
    hide Charge;
    var below := Subtree(a, j);
    assert j in below;
    forall i | i in a && i != j ensures RootOf(a - {j}, i) == if i in below then None else RootOf(a, i) {
      DeletedRoots(a, j, i);
    }
    hide RootOf, Under, Rooted;
    assert Charges(a - {j}, r, res) == Charges(a, r, res) - below;
  }

  // ---- results -----------------------------------------------------------------------------------

  /** The first charge of a root: until its own result there was nothing below it. */
  lemma RootResult(s: Tables, cfg: Settings, t: Tables, r: JobId, p: Pack)
    requires Inv(s, cfg) && Rooted(s.jobs) && Rooted(t.jobs) && r in s.jobs && s.jobs[r].parent.None?
    requires t.jobs.Keys == s.jobs.Keys && (forall j | j in s.jobs :: SameTerms(s.jobs[j], t.jobs[j]))
    requires !Terminal(s.jobs[r].state) && t.jobs[r].result == Some(p)
    requires UsageFits(p.usage, s.jobs[r].budget)
    ensures WithinBudget(t.jobs, r)
  {
    hide Inv, SameTerms;
    SameBudget(s.jobs[r], t.jobs[r]);
    forall res: Resource ensures Sum(Charges(t.jobs, r, res)) <= Given(t.jobs[r].budget, res) {
      var m := Charges(t.jobs, r, res);
      forall j | j in m ensures j == r {
        SameRoots(s.jobs, t.jobs, j);
        BelowRoot(s, cfg, j, r);
      }
      RootsItself(s, r);
      SameRoots(s.jobs, t.jobs, r);
      assert m == map[r := Used(p.usage, res)];
      assert m - {r} == map[];
      SumWithout(m, r);
    }
  }

  /** The result of another job than the root. */
  lemma OtherResult(s: Tables, cfg: Settings, t: Tables, i: JobId, r: JobId, p: Pack)
    requires Inv(s, cfg) && Rooted(s.jobs) && Rooted(t.jobs) && BudgetsPositive(s.jobs)
    requires i in s.jobs && r in s.jobs && i != r && WithinBudget(s.jobs, r)
    requires t.jobs.Keys == s.jobs.Keys && (forall j | j in s.jobs && j != i :: t.jobs[j] == s.jobs[j])
    requires forall j | j in s.jobs :: SameTerms(s.jobs[j], t.jobs[j])
    requires s.jobs[i].result.None? && !s.jobs[i].state.Cancelled? && t.jobs[i].result == Some(p)
    requires Belongs(s.jobs, i, r) ==> UsageFits(p.usage, s.jobs[i].budget)
    ensures WithinBudget(t.jobs, r)
  {
    hide Inv, WithinBudget, Charge, Rooted, SameTerms, UsageFits, NoDearer;
    forall j | Belongs(s.jobs, j, r) ensures NoDearer(s.jobs[j], t.jobs[j], j == r) {
      if j == i {
        ResultCharges(s.jobs[j], t.jobs[j], p);
      } else {
        SameCharges(s.jobs[j], j == r);
      }
    }
    NoChargeKeeps(s, t, r);
  }

  predicate UsageFits(u: Usage, b: Limits) { forall res: Resource :: Used(u, res) <= Given(b, res) }

  lemma SameCharges(a: Job, isRoot: bool)
    ensures NoDearer(a, a, isRoot)
  {}

  /** What an accepted result reports fits its job's budget: the check of an observation sees to that, elsewhere it
      takes an honest worker. */
  lemma AcceptedUsage(s: Tables, i: JobId, w: WorkerId, token: Token, p: Pack, now: Time)
    requires Parsed(p) && Finalize(s, i, w, token, p, now).after != s && i in s.jobs && BudgetsPositive(s.jobs)
    requires s.jobs[i].input.Observe? || Honest(s, DoFinalize(i, w, token, p))
    ensures UsageFits(p.usage, s.jobs[i].budget)
  {
    if s.jobs[i].input.Observe? {
      ObservationPassed(s, i, w, token, p, now);
      hide Passed, Finalize, Parsed;
      PassedUsage(p, s.jobs[i], now);
      assert FieldsInRange(s.jobs[i].budget);
    }
  }

  lemma FinalizeWithin(s: Tables, cfg: Settings, i: JobId, w: WorkerId, token: Token, p: Pack, now: Time, r: JobId)
    requires Inv(s, cfg) && Rooted(s.jobs) && BudgetsPositive(s.jobs) && Parsed(p)
    requires r in s.jobs && s.jobs[r].parent.None? && WithinBudget(s.jobs, r)
    requires s.jobs[r].input.Observe? || Honest(s, DoFinalize(i, w, token, p))
    requires Rooted(Finalize(s, i, w, token, p, now).after.jobs)
    ensures WithinBudget(Finalize(s, i, w, token, p, now).after.jobs, r)
  {
    var t := Finalize(s, i, w, token, p, now).after;
    FinalizeRow(s, cfg, i, w, token, p, now);
    RootsItself(s, r);
    hide Inv, Finalize, WithinBudget, Charge, Rooted, SameTerms, Honest, BudgetsPositive, UsageFits, Belongs, Parsed;
    if t.jobs != s.jobs {
      if Belongs(s.jobs, i, r) {
        BelowRoot(s, cfg, i, r);
        AcceptedUsage(s, i, w, token, p, now);
      }
      if i == r {
        RootResult(s, cfg, t, r, p);
      } else {
        OtherResult(s, cfg, t, i, r, p);
      }
    }
  }

  lemma ResultCharges(was: Job, job: Job, p: Pack)
    requires was.result.None? && !was.state.Cancelled? && job.result == Some(p) && UsageFits(p.usage, was.budget)
    ensures NoDearer(was, job, false)
  {}

  /** Accepting a result changes one row, which was active and had no result. */
  lemma FinalizeRow(s: Tables, cfg: Settings, i: JobId, w: WorkerId, token: Token, p: Pack, now: Time)
    requires Inv(s, cfg) && Parsed(p)
    ensures var t := Finalize(s, i, w, token, p, now).after;
            && t.jobs.Keys == s.jobs.Keys
            && (forall j | j in s.jobs && j != i :: t.jobs[j] == s.jobs[j])
            && (forall j | j in s.jobs :: SameTerms(s.jobs[j], t.jobs[j]))
            && (t.jobs != s.jobs ==> i in s.jobs && Active(s.jobs[i].state) && s.jobs[i].result.None?
                                     && t.jobs[i].result == Some(p))
  {
    var t := Finalize(s, i, w, token, p, now).after;
    if t != s {
      InvAt(s, cfg, i);
      FinalizeTaken(s, i, w, token, p, now);
      hide Inv, Finalize, Parsed, Verdict;
    }
  }

  lemma FinalizeTaken(s: Tables, i: JobId, w: WorkerId, token: Token, p: Pack, now: Time)
    requires Parsed(p) && Finalize(s, i, w, token, p, now).after != s
    ensures i in s.jobs && s.jobs[i].attempt.Some? && s.jobs[i].attempt.value in s.attempts
    ensures var a := s.jobs[i].attempt.value;
            && s.attempts[a].finalized.None? && Active(s.jobs[i].state)
            && exists state :: Finalize(s, i, w, token, p, now).after == Settle(s, i, a, p, state, now)
  {
    hide ManifestRefusal, ObservationRefusal, Parsed, Settle;
    ActiveOutcome(s.jobs[i].state, p.status);
  }

  lemma ActiveOutcome(state: State, status: Status)
    ensures Outcome(state, status).Ok? ==> Active(state)
  {}

  // ---- every operation -----------------------------------------------------------------------------

  lemma RetryWithin(s: Tables, cfg: Settings, j: JobId, key: string, id: JobId, now: Time, r: JobId)
    requires Inv(s, cfg) && Rooted(s.jobs) && id !in s.issued
    requires Rooted(Retry(s, j, key, id, now).after.jobs)
    requires var t := Retry(s, j, key, id, now).after; r in t.jobs && t.jobs[r].parent.None?
    requires r in s.jobs ==> WithinBudget(s.jobs, r)
    ensures WithinBudget(Retry(s, j, key, id, now).after.jobs, r)
  {
    hide Inv, WithinBudget, Rooted, Submit, Resubmission, RetryRefusal, FieldsInRange, ValidInput;
    if RetryRefusal(s, j, key, now).None? {
      RetryParsed(s, j, key, now);
      SubmitWithin(s, cfg, Resubmission(s, j, key, now), id, now, r);
    }
  }

  lemma RetryInTime(s: Tables, cfg: Settings, j: JobId, key: string, id: JobId, now: Time)
    requires Inv(s, cfg) && Rooted(s.jobs) && id !in s.issued && AllInTime(s.jobs)
    requires Rooted(Retry(s, j, key, id, now).after.jobs)
    ensures AllInTime(Retry(s, j, key, id, now).after.jobs)
  {
    hide Inv, AllInTime, Rooted, Submit, Resubmission, RetryRefusal;
    if RetryRefusal(s, j, key, now).None? {
      RetryOk(s, j, key, now);
      SubmitInTime(s, cfg, Resubmission(s, j, key, now), id, now);
    }
  }

  /** The other operations keep every job's terms, and its result unless it is dropped. */
  predicate Plain(op: Op) {
    op.DoRegister? || op.DoClaim? || op.DoRenew? || op.DoCancel? || op.DoUpload? || op.DoExpire? || op.DoSweep?
  }

  predicate CheaperOrEqual(a: Job, b: Job, dropped: bool) {
    SameTerms(a, b) && (a.state.Cancelled? ==> b.state.Cancelled?) && (!dropped ==> b.result == a.result)
  }

  predicate CheaperRows(s: Tables, t: Tables, gone: set<JobId>) {
    t.jobs.Keys == s.jobs.Keys && forall j | j in s.jobs :: CheaperOrEqual(s.jobs[j], t.jobs[j], j in gone)
  }

  lemma PlainRows(s: Tables, cfg: Settings, op: Op, now: Time, t: Tables)
    requires Inv(s, cfg) && Steps(s, cfg, op, now, t) && Plain(op)
    ensures CheaperRows(s, t, Dropped(s, op, now))
  {
    hide Inv, CheaperOrEqual, Outdated;
    hide Register, Claim, Renew, Cancel, AddArtifact, Expire, Sweep;
    match op
    case DoRegister(w, capabilities, contract, concurrency) =>
      RegisterRows(s, w, capabilities, contract, concurrency, now);
      SameCheaper(s);
    case DoClaim(w, a, token) => ClaimRows(s, cfg, w, a, token, now);
    case DoRenew(j, w, a, token) =>
      RenewRows(s, cfg, j, w, a, token, now);
      SameCheaper(s);
    case DoCancel(j) => CancelRows(s, j);
    case DoUpload(j, w, a, token, ref, data) =>
      UploadRows(s, cfg, j, w, a, token, ref, data, now);
      SameCheaper(s);
    case DoExpire => ExpireRows(s, now);
    case DoSweep => SweepRows(s, cfg, now);
    case _ =>
  }

  lemma SameCheaper(s: Tables)
    ensures CheaperRows(s, s, {})
  {}

  lemma RegisterRows(s: Tables, w: WorkerId, capabilities: set<Capability>, contract: nat, concurrency: nat, now: Time)
    ensures Register(s, w, capabilities, contract, concurrency, now).jobs == s.jobs
  {}

  lemma RenewRows(s: Tables, cfg: Settings, j: JobId, w: WorkerId, a: AttemptId, token: Token, now: Time)
    ensures Renew(s, cfg, j, w, a, token, now).after.jobs == s.jobs
  {}

  lemma ClaimRows(s: Tables, cfg: Settings, w: WorkerId, a: AttemptId, token: Token, now: Time)
    ensures CheaperRows(s, Claim(s, cfg, w, a, token, now).after, {})
  {}

  lemma CancelRows(s: Tables, j: JobId)
    ensures CheaperRows(s, Cancel(s, j).after, {})
  {
    hide CheaperOrEqual;
    SameCheaper(s);
    if j in s.jobs { CancelCheaper(s.jobs[j]); }
  }

  lemma CancelCheaper(job: Job)
    ensures job.state.Queued? ==>
              CheaperOrEqual(job, job.(state := Cancelled, stop := Some(CancelledByRequester)), false)
    ensures job.state.Running? ==> CheaperOrEqual(job, job.(state := CancelRequested), false)
  {}

  lemma ExpireRows(s: Tables, now: Time)
    ensures CheaperRows(s, Expire(s, now), Dropped(s, DoExpire, now))
  {
    hide Outdated;
  }

  lemma SweepRows(s: Tables, cfg: Settings, now: Time)
    ensures CheaperRows(s, Sweep(s, cfg, now), Dropped(s, DoSweep, now))
  {
    ExpireRows(s, now);
    var m, t := Expire(s, now), Sweep(s, cfg, now);
    assert Dropped(s, DoExpire, now) == Dropped(s, DoSweep, now);
    hide Expire, Dropped;
    assert CheaperRows(m, t, {});
  }

  lemma PlainWithin(s: Tables, t: Tables, gone: set<JobId>, r: JobId)
    requires Rooted(s.jobs) && Rooted(t.jobs) && BudgetsPositive(s.jobs) && CheaperRows(s, t, gone)
    requires r in s.jobs && WithinBudget(s.jobs, r) && forall j | j in gone :: !Belongs(s.jobs, j, r)
    ensures WithinBudget(t.jobs, r)
  {
    hide Charge, SameTerms, WithinBudget, FieldsInRange, NoDearer, Rooted, CheaperOrEqual;
    forall j | j in s.jobs ensures SameTerms(s.jobs[j], t.jobs[j]) {
      CheaperTerms(s.jobs[j], t.jobs[j], j in gone);
    }
    forall j | Belongs(s.jobs, j, r) ensures NoDearer(s.jobs[j], t.jobs[j], j == r) {
      NotDearer(s.jobs[j], t.jobs[j], j == r);
    }
    NoChargeKeeps(s, t, r);
  }

  lemma CheaperTerms(a: Job, b: Job, dropped: bool)
    requires CheaperOrEqual(a, b, dropped)
    ensures SameTerms(a, b)
  {}

  lemma NotDearer(a: Job, b: Job, isRoot: bool)
    requires CheaperOrEqual(a, b, false) && FieldsInRange(a.budget)
    ensures NoDearer(a, b, isRoot)
  {}

  /** Retention drops results of observations only. */
  lemma CollectingSpared(s: Tables, cfg: Settings, op: Op, now: Time, r: JobId)
    requires Inv(s, cfg) && Rooted(s.jobs) && (r in s.jobs ==> !s.jobs[r].input.Observe?)
    ensures Spares(s, op, now, r)
  {
    hide Inv;
    forall j | j in Dropped(s, op, now) ensures !Belongs(s.jobs, j, r) {
      if Belongs(s.jobs, j, r) { BelowRoot(s, cfg, j, r); }
    }
  }

  /** One operation keeps a lineage within its root's budget, unless it drops a result of the lineage, and unless the
      lineage is a collecting one and the operation brings a dishonest report. */
  lemma StepWithin(s: Tables, cfg: Settings, op: Op, now: Time, t: Tables, r: JobId)
    requires Inv(s, cfg) && cfg.ttl > 0 && Steps(s, cfg, op, now, t) && Rooted(t.jobs) && BudgetsPositive(s.jobs)
    requires r in t.jobs && t.jobs[r].parent.None? && (r in s.jobs ==> WithinBudget(s.jobs, r))
    requires Spares(s, op, now, r) && (t.jobs[r].input.Observe? || Honest(s, op))
    ensures WithinBudget(t.jobs, r)
  {
    SameRoot(s, cfg, op, now, t, r);
    hide Inv, WithinBudget, Rooted, Honest, ValidSubmission, BudgetsPositive, FieldsInRange, ValidInput, Spares, Parsed;
    hide Register, Submit, Claim, Renew, Cancel, Finalize, Retry, AddArtifact, Delete, Expire, Sweep;
    match op
    case DoSubmit(q, id) =>
      SubmissionParsed(q);
      SubmitWithin(s, cfg, q, id, now, r);
    case DoRetry(j, key, id) => RetryWithin(s, cfg, j, key, id, now, r);
    case DoDelete(j) => DeleteWithin(s, j, r);
    case DoFinalize(j, w, token, p) => FinalizeWithin(s, cfg, j, w, token, p, now, r);
    case _ => PlainStepWithin(s, cfg, op, now, t, r);
  }

  lemma PlainStepWithin(s: Tables, cfg: Settings, op: Op, now: Time, t: Tables, r: JobId)
    requires Inv(s, cfg) && Steps(s, cfg, op, now, t) && Plain(op) && Rooted(t.jobs) && BudgetsPositive(s.jobs)
    requires r in s.jobs && r in t.jobs && WithinBudget(s.jobs, r) && Spares(s, op, now, r)
    ensures WithinBudget(t.jobs, r)
  {
    hide *;
    InvRooted(s, cfg);
    PlainRows(s, cfg, op, now, t);
    SparedRows(s, op, now, r);
    PlainWithin(s, t, Dropped(s, op, now), r);
  }

  lemma SparedRows(s: Tables, op: Op, now: Time, r: JobId)
    requires Rooted(s.jobs) && Spares(s, op, now, r)
    ensures forall j | j in Dropped(s, op, now) :: !Belongs(s.jobs, j, r)
  {}

  lemma SameRoot(s: Tables, cfg: Settings, op: Op, now: Time, t: Tables, r: JobId)
    requires Inv(s, cfg) && cfg.ttl > 0 && Steps(s, cfg, op, now, t) && r in t.jobs
    ensures r in s.jobs ==> s.jobs[r].parent == t.jobs[r].parent && s.jobs[r].input == t.jobs[r].input
    ensures !op.DoSubmit? && !op.DoRetry? ==> r in s.jobs
  {
    StepKeeps(s, cfg, op, now, t);
    hide Inv, Steps;
    if !op.DoSubmit? && !op.DoRetry? { NoNewJob(s, cfg, op, now, t, r); }
  }

  lemma StepInTime(s: Tables, cfg: Settings, op: Op, now: Time, t: Tables)
    requires Inv(s, cfg) && cfg.ttl > 0 && Steps(s, cfg, op, now, t) && Rooted(t.jobs) && AllInTime(s.jobs)
    ensures AllInTime(t.jobs)
  {
    hide Inv, AllInTime, Rooted, ValidSubmission, Parsed, Dropped, SameTerms;
    hide Register, Submit, Claim, Renew, Cancel, Finalize, Retry, AddArtifact, Delete, Expire, Sweep;
    match op
    case DoSubmit(q, id) => SubmitInTime(s, cfg, q, id, now);
    case DoRetry(j, key, id) => RetryInTime(s, cfg, j, key, id, now);
    case DoDelete(j) => DeleteInTime(s, j);
    case DoFinalize(j, w, token, p) =>
      FinalizeRow(s, cfg, j, w, token, p, now);
      SameTermsInTime(s, t);
    case _ =>
      PlainRows(s, cfg, op, now, t);
      SameTermsInTime(s, t);
  }

  lemma StepConserves(s: Tables, cfg: Settings, op: Op, now: Time, t: Tables)
    requires Inv(s, cfg) && cfg.ttl > 0 && Steps(s, cfg, op, now, t) && Rooted(t.jobs)
    requires Conserved(s) && Honest(s, op)
    ensures Conserved(t)
  {
    InvRooted(s, cfg);
    hide Inv, WithinBudget, AllInTime, BudgetsPositive, Rooted, Honest, Steps, Spares;
    StepTerms(s, cfg, op, now, t);
    StepInTime(s, cfg, op, now, t);
    forall r | r in t.jobs && t.jobs[r].parent.None? && !t.jobs[r].input.Observe? ensures WithinBudget(t.jobs, r) {
      SameRoot(s, cfg, op, now, t, r);
      CollectingSpared(s, cfg, op, now, r);
      StepWithin(s, cfg, op, now, t, r);
    }
  }

  // ---- whole runs ----------------------------------------------------------------------------------

  ghost predicate HonestRun(states: seq<Tables>, events: seq<Event>) {
    |states| == |events| + 1 && forall i | 0 <= i < |events| :: HonestAt(states, events, i)
  }

  ghost predicate HonestAt(states: seq<Tables>, events: seq<Event>, i: nat)
    requires |states| == |events| + 1 && i < |events|
  {
    Honest(states[i], events[i].op)
  }

  /** In every state of a run in which no worker reports more than its job allowed: the usage reported under a
      collecting root, and the whole budget of what is still unreported, stay within the root's budget, and no
      descendant's deadline is later than the root's. */
  lemma {:induction false} BudgetConserved(cfg: Settings, states: seq<Tables>, events: seq<Event>, i: nat)
    requires IsRun(cfg, states, events) && HonestRun(states, events) && i < |states|
    ensures Rooted(states[i].jobs) && Conserved(states[i])
  {
    hide StepAt, HonestAt, Inv;
    RunKeeps(cfg, states, events, i);
    InvRooted(states[i], cfg);
    if i > 0 {
      BudgetConserved(cfg, states, events, i - 1);
      RunKeeps(cfg, states, events, i - 1);
      hide Conserved, Rooted, Honest, Steps;
      assert StepAt(cfg, states, events, i - 1) && HonestAt(states, events, i - 1);
      HonestThen(states, events, i - 1);
      StepTaken(cfg, states, events, i - 1);
      StepConserves(states[i - 1], cfg, events[i - 1].op, events[i - 1].now, states[i]);
    }
  }

  lemma HonestThen(states: seq<Tables>, events: seq<Event>, i: nat)
    requires |states| == |events| + 1 && i < |events| && HonestAt(states, events, i)
    ensures Honest(states[i], events[i].op)
  {}

  ghost predicate SparedAt(states: seq<Tables>, events: seq<Event>, i: nat, r: JobId)
    requires i < |events| && i < |states|
  {
    Rooted(states[i].jobs) && Spares(states[i], events[i].op, events[i].now, r)
  }

  /** An observing lineage stays within its root's budget whatever the workers report, as long as retention has dropped
      no result of it. */
  lemma {:induction false} ObservingConserved(cfg: Settings, states: seq<Tables>, events: seq<Event>, i: nat, r: JobId)
    requires IsRun(cfg, states, events) && i < |states|
    requires r in states[i].jobs && states[i].jobs[r].parent.None? && states[i].jobs[r].input.Observe?
    requires forall k | 0 <= k < i :: SparedAt(states, events, k, r)
    ensures Rooted(states[i].jobs) && WithinBudget(states[i].jobs, r)
  {
    RunKeeps(cfg, states, events, i);
    InvRooted(states[i], cfg);
    if i > 0 {
      RunKeeps(cfg, states, events, i - 1);
      RunTerms(cfg, states, events, i - 1);
      hide Inv, BudgetsPositive, WithinBudget, Rooted, StepAt, Spares, InputsValid, Steps;
      assert StepAt(cfg, states, events, i - 1) && SparedAt(states, events, i - 1, r);
      StepTaken(cfg, states, events, i - 1);
      SameRoot(states[i - 1], cfg, events[i - 1].op, events[i - 1].now, states[i], r);
      if r in states[i - 1].jobs { ObservingConserved(cfg, states, events, i - 1, r); }
      StepWithin(states[i - 1], cfg, events[i - 1].op, events[i - 1].now, states[i], r);
    }
  }

  /** A job whose ancestors are all stored hangs below a root, and its parent has ended. */
  lemma {:induction false} AlwaysRooted(s: Tables, cfg: Settings, j: JobId)
    requires Inv(s, cfg) && Rooted(s.jobs) && j in s.jobs
    requires forall i | i in s.jobs && s.jobs[i].parent.Some? :: s.jobs[i].parent.value in s.jobs
    ensures RootOf(s.jobs, j).Some? && Belongs(s.jobs, j, RootOf(s.jobs, j).value)
    ensures s.jobs[j].parent.Some? ==> Terminal(s.jobs[s.jobs[j].parent.value].state)
    decreases s.jobs[j].serial
  {
    InvAt(s, cfg, j);
    hide Inv;
    if s.jobs[j].parent.Some? { AlwaysRooted(s, cfg, s.jobs[j].parent.value); }
  }

  // ---- retries -------------------------------------------------------------------------------------

  /** Event `i` creates job `c` as a retry of job `p`. */
  ghost predicate Retried(cfg: Settings, states: seq<Tables>, events: seq<Event>, i: nat, p: JobId, c: JobId) {
    && i < |events| && i < |states| && events[i].op.DoRetry? && events[i].op.j == p && events[i].op.id == c
    && Rooted(states[i].jobs)
    && Retry(states[i], p, events[i].op.key, c, events[i].now).out == Ok((c, true))
  }

  /** A retry gives less than what it retries: fewer fetches, and fewer searches unless it observes. */
  lemma RetryShrinks(s: Tables, p: JobId, key: string, c: JobId, now: Time)
    requires Rooted(s.jobs) && c !in s.issued && s.jobs.Keys <= s.issued
    requires Retry(s, p, key, c, now).out == Ok((c, true))
    ensures p in s.jobs
    ensures var t := Retry(s, p, key, c, now).after;
            && c in t.jobs && t.jobs[c].parent == Some(p) && SameKind(t.jobs[c].input, s.jobs[p].input)
            && 1 <= t.jobs[c].budget.fetch < s.jobs[p].budget.fetch
            && (if s.jobs[p].input.Observe? then t.jobs[c].budget.search == s.jobs[p].budget.search
                else 1 <= t.jobs[c].budget.search < s.jobs[p].budget.search)
            && t.jobs[c].budget.model <= s.jobs[p].budget.model
            && t.jobs[c].deadline <= s.jobs[p].deadline
  {
    hide ParentRefusal, Owns;
    if RetryRefusal(s, p, key, now).None? {
      RetryOk(s, p, key, now);
      RetryTerms(s, p, key, now);
      hide RetryRefusal, Resubmission;
    }
  }

  lemma RetryTerms(s: Tables, p: JobId, key: string, now: Time)
    requires RetryRefusal(s, p, key, now).None?
    ensures p in s.jobs
    ensures var q := Resubmission(s, p, key, now);
            && q.parent == Some(p) && q.input == s.jobs[p].input && 1 <= q.budget.fetch < s.jobs[p].budget.fetch
            && (if s.jobs[p].input.Observe? then q.budget.search == s.jobs[p].budget.search
                else 1 <= q.budget.search < s.jobs[p].budget.search)
            && q.budget.model <= s.jobs[p].budget.model && now + q.span <= s.jobs[p].deadline
  {}

  /** When a retry is let through, given that the job itself was valid: time and every allowance must be left, also one
      model request, although a job that ran out of those, and only of those, is told that its payload is invalid. */
  lemma RetryAllowedExactly(s: Tables, j: JobId, key: string, now: Time)
    requires j in s.jobs && FieldsInRange(s.jobs[j].budget) && ValidInput(s.jobs[j].input)
    ensures RetryRefusal(s, j, key, now).None?
            <==> SeemsRetryable(s, j, now) && ModelLeft(s.jobs[j]) && |RetryKey(s, j, key)| <= 200
    ensures RetryRefusal(s, j, key, now) == Some(InvalidPayload)
            <==> SeemsRetryable(s, j, now) && !(ModelLeft(s.jobs[j]) && |RetryKey(s, j, key)| <= 200)
  {
    hide Digits, ValidInput;
  }

  /** The job has ended short of success, and time and every allowance that is looked at are left. */
  predicate SeemsRetryable(s: Tables, j: JobId, now: Time)
    requires j in s.jobs
  {
    var job := s.jobs[j];
    var b := Remainder(job, Most(0, job.deadline - now));
    && (job.state.Failed? || job.state.PartialResult? || job.state.Lost?)
    && job.deadline - now >= 30 * SECOND
    && (job.state.Lost? ==> job.result.Some?)
    && b.maxQueries >= 1 && b.search >= 1 && b.maxSources >= 1 && b.fetch >= 1
  }

  predicate ModelLeft(job: Job) { job.result.Some? ==> job.result.value.usage.model < job.budget.model }

  /** A chain of retries, each of the job the one before created, is shorter than the first job's fetch budget. */
  lemma {:induction false} RetriesEnd(cfg: Settings, states: seq<Tables>, events: seq<Event>, at: seq<nat>,
                                      chain: seq<JobId>)
    requires IsRun(cfg, states, events) && |chain| == |at| + 1 && at != []
    requires forall k, n | 0 <= k < |at| && n == k + 1 :: Retried(cfg, states, events, at[k], chain[k], chain[n])
    ensures at[0] < |states| && chain[0] in states[at[0]].jobs
    ensures |at| < states[at[0]].jobs[chain[0]].budget.fetch
    decreases |at|
  {
    hide Retry, Inv, Allowed, Rooted;
    assert Retried(cfg, states, events, at[0], chain[0], chain[1]);
    var i := at[0];
    FirstRetry(cfg, states, events, i, chain[0], chain[1]);
    if |at| > 1 {
      assert forall k, n | 0 <= k < |at| - 1 && n == k + 1 ::
          Retried(cfg, states, events, at[1..][k], chain[1..][k], chain[1..][n]) by {
        forall k, n | 0 <= k < |at| - 1 && n == k + 1
          ensures Retried(cfg, states, events, at[1..][k], chain[1..][k], chain[1..][n])
        {
          assert Retried(cfg, states, events, at[k + 1], chain[k + 1], chain[k + 2]);
        }
      }
      RetriesEnd(cfg, states, events, at[1..], chain[1..]);
      SameBudgetLater(cfg, states, events, i, at[1], chain[1]);
    }
  }

  lemma FirstRetry(cfg: Settings, states: seq<Tables>, events: seq<Event>, i: nat, p: JobId, c: JobId)
    requires IsRun(cfg, states, events) && Retried(cfg, states, events, i, p, c)
    ensures p in states[i].jobs && c in states[i + 1].jobs && c !in states[i].issued
    ensures 1 <= states[i + 1].jobs[c].budget.fetch < states[i].jobs[p].budget.fetch
  {
    hide Inv, Retry, Rooted;
    RunKeeps(cfg, states, events, i);
    StoredIssued(states[i], cfg);
    assert StepAt(cfg, states, events, i);
    StepTaken(cfg, states, events, i);
    RetryShrinks(states[i], p, events[i].op.key, c, events[i].now);
  }

  /** A job created by event `i` and stored at `k` was created before `k`, with the budget it has there. */
  lemma SameBudgetLater(cfg: Settings, states: seq<Tables>, events: seq<Event>, i: nat, k: nat, c: JobId)
    requires IsRun(cfg, states, events) && i < |events| && k < |states|
    requires c !in states[i].issued && c in states[i + 1].jobs && c in states[k].jobs
    ensures states[k].jobs[c].budget == states[i + 1].jobs[c].budget
  {
    hide Inv, StepAt;
    if k <= i {
      RunKeeps(cfg, states, events, k);
      StoredIssued(states[k], cfg);
      RunAdvances(cfg, states, events, k, i);
      assert false;
    }
    RunAdvances(cfg, states, events, i + 1, k);
  }
}
