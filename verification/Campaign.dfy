/** A finite campaign of jobs that survives the death of its controller at any file write and never replays a job. */
module Campaign {
  import opened Options

  datatype Spec = Spec(timeout: int, plannerOnly: bool, external: bool, sameLock: bool)

  datatype Plan = Plan(specs: seq<Spec>, maxFailures: nat, timeout: int)

  datatype JobStatus = ReviewReady | ExternalPending | VerificationFailed | FailedJob | PlannerStopped | InProgress

  /** `sound`: what the verification of a finished proposal would say; `infrastructure`: the job's recorded outcome. */
  datatype Record = Record(status: JobStatus, sound: bool, infrastructure: bool)

  datatype Status = Running | Completed | Stopped | Failed

  datatype Progress = Progress(plan: Plan, status: Status, next: nat, failures: nat, results: seq<JobStatus>,
                               active: Option<nat>, elapsed: int)

  /** A start of a job's runner, with the failures counted at that moment. */
  datatype Run = Run(index: nat, failures: nat)

  /** What outlives the controller; `runs` is the history of starts. */
  datatype Disk = Disk(root: bool, state: Option<Progress>, submissions: set<nat>, jobs: map<nat, Record>,
                       runs: seq<Run>)

  datatype Freeze = Same | Changed | Broken

  /** What the world does around one cycle: the stop file, the clocks, the verifier's identity, and the runner. */
  datatype World = World(stop: bool, wallLeft: int, elapsed: int, freeze: Freeze, submits: bool, after: Record,
                         raises: bool)

  datatype Exit = Returned | Raised | Died

  predicate ValidPlan(p: Plan) {
    1 <= |p.specs| <= 20 && 1 <= p.maxFailures <= 3 && 1 <= p.timeout <= 86400
    && ((exists s | s in p.specs :: s.external) ==> p.timeout <= 14400)
  }

  predicate Terminal(s: JobStatus) { !s.InProgress? }

  predicate Ready(s: JobStatus) { s.ReviewReady? || s.ExternalPending? }

  predicate Valid(r: Record) { Ready(r.status) && r.sound }

  /** Checking a finished proposal that does not verify raises. */
  predicate Unsound(r: Record) { Ready(r.status) && !r.sound }

  predicate Finished(s: Status) { !s.Running? }

  // ---- what every disk keeps -------------------------------------------------------------------------

  predicate Once(runs: seq<Run>) {
    forall i, j | 0 <= i < j < |runs| :: runs[i].index != runs[j].index
  }

  /** How many of the last jobs in a row did not validate. */
  function Trailing(jobs: map<nat, Record>, n: nat): nat {
    if n == 0 || (n - 1 in jobs && Valid(jobs[n - 1])) then 0 else 1 + Trailing(jobs, n - 1)
  }

  predicate RunOk(d: Disk, plan: Plan, r: Run) {
    && r.index < |plan.specs| && r.index in d.submissions && r.failures < plan.maxFailures
    && (r.index > 0 ==> 0 in d.jobs && Valid(d.jobs[0]))
  }

  /** The state of a campaign that may go on. */
  predicate GoingOn(d: Disk, p: Progress) {
    && p.next <= |p.plan.specs| && |p.results| == p.next
    && p.failures == Trailing(d.jobs, p.next)
    && (forall i | 0 <= i < p.next :: i in d.jobs && p.results[i] == d.jobs[i].status)
    && (p.active.Some? ==> p.active.value == p.next < |p.plan.specs| && p.next in d.jobs && p.next in d.submissions)
    && (forall r | r in d.runs :: r.index < p.next || (r.index == p.next && p.active.Some?))
  }

  predicate DiskOk(d: Disk) {
    && Once(d.runs)
    && (d.state.None? ==> d.runs == [] && d.submissions == {} && d.jobs == map[])
    && (d.state.Some? ==>
          && d.root && ValidPlan(d.state.value.plan)
          && (forall r | r in d.runs :: RunOk(d, d.state.value.plan, r))
          && (d.state.value.status.Running? ==> GoingOn(d, d.state.value))
          && (d.state.value.status.Completed? ==> d.state.value.next == |d.state.value.plan.specs|))
  }

  /** How a call may change a disk: starts are only added, a finished campaign stays as it is, and so does the record
      of a job that has been counted. */
  predicate Grows(d: Disk, e: Disk) {
    && d.runs <= e.runs && d.submissions <= e.submissions && (d.root ==> e.root)
    && (d.state.Some? && Finished(d.state.value.status) ==> e == d)
    && (d.state.Some? ==>
          e.state.Some? && e.state.value.plan == d.state.value.plan && d.state.value.next <= e.state.value.next)
    && (forall i | i in d.jobs && d.state.Some? && i < d.state.value.next :: i in e.jobs && e.jobs[i] == d.jobs[i])
  }

  /** The count of failures is the length of the run of jobs that did not validate, up to the last one. */
  lemma {:induction false} TrailingExact(jobs: map<nat, Record>, n: nat)
    ensures Trailing(jobs, n) <= n
    ensures forall i | n - Trailing(jobs, n) <= i < n :: !(i in jobs && Valid(jobs[i]))
    ensures Trailing(jobs, n) < n ==> n - Trailing(jobs, n) - 1 in jobs && Valid(jobs[n - Trailing(jobs, n) - 1])
  {
    if n > 0 && !(n - 1 in jobs && Valid(jobs[n - 1])) { TrailingExact(jobs, n - 1); }
  }

  lemma GrowsOn(a: Disk, b: Disk, c: Disk)
    requires Grows(a, b) && Grows(b, c)
    ensures Grows(a, c)
  {}

  const BLANK := Disk(false, None, {}, map[], [])
}

/** The campaign controller in the form the program has. */
module CampaignControl {
  import opened Options
  import opened Campaign

  lemma {:induction false} TrailingSame(a: map<nat, Record>, b: map<nat, Record>, n: nat)
    requires forall i | 0 <= i < n :: i in a && i in b && Valid(a[i]) == Valid(b[i])
    ensures Trailing(a, n) == Trailing(b, n)
  {
    if n > 0 && !Valid(a[n - 1]) { TrailingSame(a, b, n - 1); }
  }

  /** Adds a finished job to the results. */
  function Counted(p: Progress, job: Record): Progress {
    p.(results := p.results + [job.status], next := p.next + 1, failures := if Valid(job) then 0 else p.failures + 1,
       active := None)
  }

  /** Counting the active job, and stopping or not, keeps everything. */
  lemma CountedKeeps(d: Disk, p: Progress, stop: bool)
    requires DiskOk(d) && d.state == Some(p) && p.status.Running? && p.active.Some?
    ensures var q := Counted(p, d.jobs[p.next]).(status := if stop then Stopped else Running);
            DiskOk(d.(state := Some(q))) && Grows(d, d.(state := Some(q)))
  {
    hide Once, ValidPlan;
  }

  /** Starting the active job's runner keeps everything. */
  lemma RunKeeps(d: Disk, p: Progress)
    requires DiskOk(d) && d.state == Some(p) && p.status.Running? && p.active.Some?
    requires p.failures < p.plan.maxFailures && (p.next > 0 ==> Valid(d.jobs[0]))
    requires forall r | r in d.runs :: r.index < p.next
    ensures var e := d.(runs := d.runs + [Run(p.next, p.failures)]); DiskOk(e) && Grows(d, e)
  {
    forall i | 0 <= i < |d.runs| ensures d.runs[i].index != p.next { assert d.runs[i] in d.runs; }
  }

  /** A new active job, with its record. */
  lemma ActiveKeeps(d: Disk, p: Progress, elapsed: int)
    requires DiskOk(d) && d.state == Some(p) && p.status.Running? && p.active.None?
    requires p.next < |p.plan.specs| && p.next in d.submissions
    ensures var e := d.(jobs := d.jobs[p.next := Record(InProgress, false, false)]);
            var q := p.(active := Some(p.next), elapsed := elapsed);
            && DiskOk(e) && Grows(d, e)
            && DiskOk(e.(state := Some(q))) && Grows(e, e.(state := Some(q)))
  {
    TrailingSame(d.jobs, d.jobs[p.next := Record(InProgress, false, false)], p.next);
    hide Once, ValidPlan, Trailing;
  }

  lemma StoredNext(d: Disk, p: Progress)
    requires DiskOk(d) && d.state == Some(p) && p.status.Running?
    ensures p.next <= |p.plan.specs|
  {}

  lemma PlanStays(d: Disk, e: Disk)
    requires Grows(d, e) && d.state.Some?
    ensures e.state.Some? && e.state.value.plan == d.state.value.plan
  {}

  lemma SaveEnds(d: Disk, p: Progress)
    requires SaveKeeps(d, p)
    ensures Finished(p.status) && d.state.Some? && p.plan == d.state.value.plan
  {}

  lemma SameCount(p: Progress, job: Record, elapsed: int)
    requires p.next < |p.plan.specs|
    ensures var q := p.(active := Some(p.next), elapsed := elapsed);
            Counted(q, job) == Counted(p, job).(elapsed := elapsed) && GoesOn(q, job) == GoesOn(p, job)
  {}

  lemma FirstRecorded(d: Disk, p: Progress)
    requires DiskOk(d) && d.state == Some(p) && p.status.Running?
    ensures |p.results| == p.next && (p.next > 0 ==> 0 in d.jobs)
  {}

  /** A new submission record changes nothing else. */
  lemma SubmittedKeeps(d: Disk, i: nat)
    requires DiskOk(d) && d.state.Some? && d.state.value.status.Running?
    ensures var e := d.(submissions := d.submissions + {i}); DiskOk(e) && Grows(d, e)
  {}

  lemma CountedIs(d: Disk, p: Progress, job: Record, stop: bool, jobs: map<nat, Record>)
    requires d.state == Some(p) && p.next in d.jobs && p.next < |p.plan.specs|
    requires var was, spec := d.jobs[p.next], p.plan.specs[p.next];
             && job == (if Terminal(was.status) then was
                        else was.(status := FailedJob, infrastructure := spec.external || was.infrastructure))
             && jobs == d.jobs[p.next := job] && !Unsound(job)
             && stop == (spec.plannerOnly || job.status.PlannerStopped? || (spec.external && job.infrastructure))
    ensures TakenUp(d, Counted(p, job).(status := if stop then Stopped else Running), jobs)
  {}

  lemma SameGrows(d: Disk)
    ensures Grows(d, d)
  {}

  lemma StateRecord(d: Disk, p: Progress)
    requires DiskOk(d) && d.state == Some(p) && p.status.Running? && p.active.Some?
    ensures p.next < |p.plan.specs| && p.next in d.jobs
  {}

  lemma OnlyBefore(d: Disk, p: Progress)
    requires DiskOk(d) && d.state == Some(p) && p.status.Running? && p.active.None?
    ensures forall r | r in d.runs :: r.index < p.next
  {}

  lemma MayEnd(d: Disk, p: Progress, q: Progress)
    requires DiskOk(d) && d.state == Some(p) && (Finished(p.status) ==> q == p) && Finished(q.status)
    requires q.plan == p.plan && p.next <= q.next && (q.status.Completed? ==> q.next == |q.plan.specs|)
    ensures SaveKeeps(d, q)
  {}

  class Controller {
    var root: bool
    var state: Option<Progress>
    var submissions: set<nat>
    var jobs: map<nat, Record>
    ghost var runs: seq<Run>
    var life: nat

    ghost function View(): Disk
      reads this
    {
      Disk(root, state, submissions, jobs, runs)
    }

    /** The controller died with a job active. */
    predicate Interrupted()
      reads this
    {
      state.Some? && state.value.status.Running? && state.value.active.Some?
    }

    constructor (life: nat)
      ensures View() == BLANK && DiskOk(View()) && this.life == life
    {
      root, state, submissions, jobs, runs, this.life := false, None, {}, map[], [], life;
    }

    /** Writes the state, if the controller lives to do it. */
    method Save(p: Progress) returns (alive: bool)
      modifies this`state, this`life
      ensures alive <==> old(life) > 0
      ensures life == if alive then old(life) - 1 else old(life)
      ensures View() == if alive then old(View()).(state := Some(p)) else old(View())
    {
      if life == 0 { return false; }
      state, life := Some(p), life - 1;
      return true;
    }

    /** Opens a new campaign; the directory must not exist. */
    method Open(plan: Plan) returns (exit: Exit, p: Progress)
      requires DiskOk(View()) && ValidPlan(plan)
      modifies this`root, this`state, this`life
      ensures DiskOk(View()) && Grows(old(View()), View())
      ensures exit.Returned? ==> state == Some(p) && p.status.Running? && p.plan == plan && p.active.None?
      ensures p == Progress(plan, Running, 0, 0, [], None, 0)
      ensures exit.Returned? <==> !old(root) && old(life) >= 2
      ensures exit.Returned? ==> life == old(life) - 2
    {
      p := Progress(plan, Running, 0, 0, [], None, 0);
      if root { return Raised, p; }
      if life == 0 { return Died, p; }
      root, life := true, life - 1;
      var alive := Save(p);
      return if alive then Returned else Died, p;
    }

    /** Takes up an interrupted campaign. A job left active counts as an attempt, and is never run again. */
    method Resume(plan: Plan, frozen: bool) returns (exit: Exit, p: Progress)
      requires DiskOk(View())
      modifies this`state, this`jobs, this`life
      ensures DiskOk(View()) && Grows(old(View()), View())
      ensures exit.Returned? ==> state == Some(p) && p.plan == plan && (p.status.Running? ==> p.active.None?)
      ensures exit.Returned? && old(Interrupted()) ==> TakenUp(old(View()), p, jobs)
      ensures exit.Returned? && !old(Interrupted()) ==> Some(p) == old(state) && jobs == old(jobs)
      ensures exit.Raised? <==>
                || old(state).None? || old(state).value.plan != plan || !frozen
                || (old(Interrupted()) && Proposes(old(jobs)[old(state).value.next])
                    && !old(jobs)[old(state).value.next].sound)
    {
      p := Progress(plan, Stopped, 0, 0, [], None, 0);
      if state.None? { return Raised, p; }
      p := state.value;
      if p.plan != plan || !frozen { return Raised, p; }
      if Finished(p.status) { return Returned, p; }
      ghost var d := View();
      hide Grows, GoingOn, Once, RunOk, ValidPlan, TakenUp, DiskOk;
      SameGrows(d);
      if p.active.Some? {
        exit, p := TakeUp(p);
        if !exit.Returned? { return; }
      }
      var alive := Save(p);
      return if alive then Returned else Died, p;
    }

    /** Counts the job that was left active. */
    method TakeUp(p0: Progress) returns (exit: Exit, p: Progress)
      requires DiskOk(View()) && state == Some(p0) && p0.status.Running? && p0.active.Some?
      modifies this`jobs, this`life
      ensures DiskOk(View()) && Grows(old(View()), View())
      ensures exit.Returned? ==> TakenUp(old(View()), p, jobs) && p.plan == p0.plan
                                 && (p.status.Running? ==> p.active.None?)
      ensures exit.Returned? ==> DiskOk(View().(state := Some(p))) && Grows(old(View()), View().(state := Some(p)))
      ensures p0.next in old(jobs)
      ensures exit.Raised? <==> Proposes(old(jobs)[p0.next]) && !old(jobs)[p0.next].sound
    {
      p := p0;
      ghost var d := View();
      hide Grows, GoingOn, Once, RunOk, ValidPlan, TakenUp;
      SameGrows(d);
      StateRecord(d, p);
      var spec := p.plan.specs[p.next];
      var job := jobs[p.next];
      if !Terminal(job.status) {
        job := job.(status := FailedJob, infrastructure := spec.external || job.infrastructure);
        var alive := Amend(p, job);
        if !alive { return Died, p; }
      }
      if Unsound(job) { return Raised, p; }
      var stop := spec.plannerOnly || job.status.PlannerStopped? || (spec.external && job.infrastructure);
      CountedKeeps(View(), p, stop);
      p := Counted(p, job).(status := if stop then Stopped else Running);
      GrowsOn(d, View(), View().(state := Some(p)));
      exit := Returned;
      CountedIs(d, p0, job, stop, jobs);
    }

    /** Rewrites the record of the active job. */
    method Amend(p: Progress, job: Record) returns (alive: bool)
      requires DiskOk(View()) && state == Some(p) && p.status.Running? && p.active.Some?
      modifies this`jobs, this`life
      ensures alive <==> old(life) > 0
      ensures life == if alive then old(life) - 1 else old(life)
      ensures DiskOk(View()) && Grows(old(View()), View())
      ensures View() == if alive then old(View()).(jobs := old(jobs)[p.next := job]) else old(View())
    {
      if life == 0 { return false; }
      TrailingSame(jobs, jobs[p.next := job], p.next);
      jobs, life := jobs[p.next := job], life - 1;
      return true;
    }

    /** One cycle: the stops, the submission record, the job, its run and its result. */
    method Cycle(plan: Plan, p0: Progress, w: World) returns (turn: Turn, p: Progress)
      requires DiskOk(View()) && state == Some(p0) && p0.status.Running? && p0.active.None? && p0.plan == plan
      requires p0.next < |plan.specs|
      modifies this`state, this`submissions, this`jobs, this`runs, this`life
      ensures runs == if old(life) >= 3 && MayStart(old(View()), p0, w) then old(runs) + [Run(p0.next, p0.failures)]
                      else old(runs)
      ensures turn.Again? <==> old(life) >= 5 && MayStart(old(View()), p0, w) && !w.raises && GoesOn(p0, w.after)
      ensures turn.Again? ==> jobs == old(jobs)[p0.next := w.after] && p == Counted(p0, w.after).(elapsed := w.elapsed)
      ensures turn.Again? ==> submissions == old(submissions) + {p0.next} && life == old(life) - 5
      ensures turn.Leave? || turn.Throw? ==> !(MayStart(old(View()), p0, w) && !w.raises && GoesOn(p0, w.after))
      ensures p0.next > 0 ==> 0 in old(jobs)
      ensures turn.Throw? <==> Breaks(old(View()), p0, w, old(life))
      ensures turn.Gone? ==> MayTry(old(View()), p0, w) && old(life) < 5
      ensures turn.Leave? ==> p.status.Stopped?
      ensures DiskOk(View()) && Grows(old(View()), View())
      ensures turn.Again? ==> state == Some(p) && p.status.Running? && p.active.None?
                              && p.plan == plan && p.next == p0.next + 1
      ensures turn.Leave? ==> SaveKeeps(View(), p)
      ensures turn.Throw? ==> SaveKeeps(View(), p.(status := Failed))
    {
      p := p0;
      ghost var d := View();
      SameGrows(d);
      FirstRecorded(d, p);
      MayEnd(d, p, p.(status := Stopped));
      MayEnd(d, p, p.(status := Failed));
      hide Grows, GoingOn, Once, RunOk, ValidPlan, SaveKeeps, GoesOn, Counted;
      if p.results != [] {
        if Unsound(jobs[0]) { return Throw, p; }
        if !Valid(jobs[0]) { return Leave, p.(status := Stopped); }
      }
      if w.stop || w.wallLeft <= 0 || p.elapsed >= plan.timeout || p.failures >= plan.maxFailures {
        return Leave, p.(status := Stopped);
      }
      var i := p.next;
      var spec := plan.specs[i];
      if !spec.sameLock { return Throw, p; }
      if spec.timeout > plan.timeout - p.elapsed { return Leave, p.(status := Stopped); }
      if spec.timeout > w.wallLeft { return Leave, p.(status := Stopped); }
      if i in submissions { return Throw, p; }
      if life == 0 { return Gone, p; }
      submissions, life := submissions + {i}, life - 1;
      ghost var e := View();
      SubmittedKeeps(d, i);
      MayEnd(e, p, p.(status := Failed));
      if !w.freeze.Same? || !w.submits { return Throw, p; }
      turn, p := RunJob(p, w);
      GrowsOn(d, e, View());
    }

    /** The submitted job: recorded as active before it is run, and counted after. */
    method RunJob(p0: Progress, w: World) returns (turn: Turn, p: Progress)
      requires DiskOk(View()) && state == Some(p0) && p0.status.Running? && p0.active.None?
      requires p0.next < |p0.plan.specs| && p0.next in submissions && p0.failures < p0.plan.maxFailures
      requires p0.next > 0 ==> Valid(jobs[0])
      modifies this`state, this`jobs, this`runs, this`life
      ensures runs == if old(life) >= 2 then old(runs) + [Run(p0.next, p0.failures)] else old(runs)
      ensures turn.Again? <==> old(life) >= 4 && !w.raises && GoesOn(p0, w.after)
      ensures turn.Again? ==> jobs == old(jobs)[p0.next := w.after] && p == Counted(p0, w.after).(elapsed := w.elapsed)
      ensures turn.Again? ==> life == old(life) - 4
      ensures turn.Leave? || turn.Throw? ==> w.raises || !GoesOn(p0, w.after)
      ensures turn.Throw? <==> old(life) >= 3 && (w.raises || Unsound(w.after))
      ensures turn.Gone? <==> old(life) < 3 || (old(life) == 3 && !w.raises && !Unsound(w.after))
      ensures turn.Leave? ==> p.status.Stopped?
      ensures DiskOk(View()) && Grows(old(View()), View())
      ensures turn.Again? ==> state == Some(p) && p.status.Running? && p.active.None?
                              && p.plan == p0.plan && p.next == p0.next + 1
      ensures turn.Leave? ==> SaveKeeps(View(), p)
      ensures turn.Throw? ==> SaveKeeps(View(), p.(status := Failed))
    {
      ghost var d := View();
      hide Grows, GoingOn, Once, RunOk, ValidPlan, SaveKeeps, GoesOn, Counted, Valid;
      OnlyBefore(d, p0);
      var alive;
      alive, p := Activate(p0, w.elapsed);
      if !alive { return Gone, p; }
      ghost var e := View();
      RunKeeps(e, p);
      runs := runs + [Run(p.next, p.failures)];
      GrowsOn(d, e, View());
      e := View();
      alive := Amend(p, w.after);
      GrowsOn(d, e, View());
      if !alive { return Gone, p; }
      if w.raises {
        MayEnd(View(), p, p.(status := Failed));
        return Throw, p;
      }
      e := View();
      SameCount(p0, w.after, w.elapsed);
      turn, p := CountJob(p);
      GrowsOn(d, e, View());
    }

    /** Records the submitted job, then makes it the active one. */
    method Activate(p0: Progress, elapsed: int) returns (alive: bool, p: Progress)
      requires DiskOk(View()) && state == Some(p0) && p0.status.Running? && p0.active.None?
      requires p0.next < |p0.plan.specs| && p0.next in submissions
      modifies this`state, this`jobs, this`life
      ensures DiskOk(View()) && Grows(old(View()), View())
      ensures alive <==> old(life) >= 2
      ensures alive ==> p == p0.(active := Some(p0.next), elapsed := elapsed) && life == old(life) - 2
                        && jobs == old(jobs)[p0.next := Record(InProgress, false, false)] && state == Some(p)
    {
      p := p0;
      ghost var d := View();
      hide Grows, GoingOn, Once, RunOk, ValidPlan;
      ActiveKeeps(d, p, elapsed);
      SameGrows(d);
      if life == 0 { return false, p; }
      jobs, life := jobs[p.next := Record(InProgress, false, false)], life - 1;
      ghost var e := View();
      p := p.(active := Some(p.next), elapsed := elapsed);
      GrowsOn(d, e, e.(state := Some(p)));
      alive := Save(p);
    }

    /** The result of the active job, once its runner has come back. */
    method CountJob(p0: Progress) returns (turn: Turn, p: Progress)
      requires DiskOk(View()) && state == Some(p0) && p0.status.Running? && p0.active.Some?
      requires p0.next < |p0.plan.specs| && p0.next in jobs
      modifies this`state, this`life
      ensures turn.Again? <==> old(life) > 0 && GoesOn(p0, jobs[p0.next])
      ensures turn.Again? ==> p == Counted(p0, jobs[p0.next]) && life == old(life) - 1
      ensures turn.Leave? || turn.Throw? ==> !GoesOn(p0, jobs[p0.next])
      ensures turn.Throw? <==> Unsound(jobs[p0.next])
      ensures turn.Gone? <==> old(life) == 0 && !Unsound(jobs[p0.next])
      ensures turn.Leave? ==> p.status.Stopped?
      ensures DiskOk(View()) && Grows(old(View()), View())
      ensures turn.Again? ==> state == Some(p) && p.status.Running? && p.active.None?
                              && p.plan == p0.plan && p.next == p0.next + 1
      ensures turn.Leave? ==> SaveKeeps(View(), p)
      ensures turn.Throw? ==> SaveKeeps(View(), p.(status := Failed))
    {
      p := p0;
      var i := p.next;
      ghost var d := View();
      SameGrows(d);
      StateRecord(d, p);
      hide Grows, GoingOn, Once, RunOk, ValidPlan, SaveKeeps;
      var job := jobs[i];
      if Unsound(job) {
        MayEnd(d, p, p.(results := p.results + [job.status], status := Failed));
        return Throw, p.(results := p.results + [job.status]);
      }
      var planner := p.plan.specs[i].plannerOnly || job.status.PlannerStopped?;
      CountedKeeps(d, p, planner);
      p := Counted(p, job).(status := if planner then Stopped else Running);
      var alive := Save(p);
      if !alive { return Gone, p; }
      if planner {
        MayEnd(View(), p, p);
        return Leave, p;
      }
      MayEnd(View(), p, p.(status := Stopped));
      if || (p.plan.specs[i].external && job.infrastructure)
         || (p.next == 1 && !Valid(job))
         || p.failures >= p.plan.maxFailures {
        return Leave, p.(status := Stopped);
      }
      return Again, p;
    }

    /** A new campaign, or the continuation of an old one, until it ends, fails, or its controller dies. */
    method RunCampaign(plan: Plan, resume: bool, frozen: bool, world: nat -> World) returns (exit: Exit)
      requires DiskOk(View())
      modifies this
      ensures DiskOk(View()) && Grows(old(View()), View())
      ensures exit.Returned? ==> state.Some? && Finished(state.value.status) && state.value.plan == plan
      ensures !Sized(plan) ==> exit.Raised? && View() == old(View())
      ensures (!resume && !old(root) && Sized(plan) && frozen && old(life) > 2 + 5 * |plan.specs|
               && Smooth(old(jobs), old(submissions), Progress(plan, Running, 0, 0, [], None, 0), world, 0)) ==>
                exit.Returned? && state.value.status.Completed?
    {
      hide Grows, GoingOn, Once, RunOk, ValidPlan, SaveKeeps, Smooth, Sized;
      ghost var d := View();
      var p;
      exit, p := Begin(plan, resume, frozen);
      if !exit.Returned? || Finished(p.status) { return; }
      exit := RunCycles(d, plan, p, world);
    }

    /** Opens or takes up the campaign, and stops it at once if it may not go on. */
    method Begin(plan: Plan, resume: bool, frozen: bool) returns (exit: Exit, p: Progress)
      requires DiskOk(View())
      modifies this
      ensures DiskOk(View()) && Grows(old(View()), View())
      ensures exit.Returned? ==> state == Some(p) && p.plan == plan
      ensures exit.Returned? && p.status.Running? ==> p.active.None? && p.failures < plan.maxFailures
      ensures !Sized(plan) ==> exit.Raised? && View() == old(View())
      ensures !resume && !old(root) && Sized(plan) && frozen && old(life) >= 2 ==>
                exit.Returned? && p == Progress(plan, Running, 0, 0, [], None, 0) && life == old(life) - 2
                && jobs == old(jobs) && submissions == old(submissions)
    {
      ghost var d := View();
      SameGrows(d);
      p := Progress(plan, Stopped, 0, 0, [], None, 0);
      SizedExactly(plan);
      if !ValidPlan(plan) { return Raised, p; }
      hide Sized;
      hide Grows, GoingOn, Once, RunOk, ValidPlan, SaveKeeps;
      if resume { exit, p := Resume(plan, frozen); } else { exit, p := Open(plan); }
      if !exit.Returned? || Finished(p.status) { return; }
      MayEnd(View(), p, p.(status := Stopped));
      MayEnd(View(), p, p.(status := Failed));
      if p.failures >= plan.maxFailures {
        p := p.(status := Stopped);
        exit := Close(d, p);
      } else if !frozen {
        p := p.(status := Failed);
        exit := Close(d, p);
        if exit.Returned? { exit := Raised; }
      }
    }

    method RunCycles(ghost d: Disk, plan: Plan, p0: Progress, world: nat -> World) returns (exit: Exit)
      requires DiskOk(View()) && Grows(d, View())
      requires state == Some(p0) && p0.status.Running? && p0.active.None? && p0.plan == plan
      modifies this
      ensures DiskOk(View()) && Grows(d, View())
      ensures exit.Returned? ==> state.Some? && Finished(state.value.status) && state.value.plan == plan
      ensures exit.Returned? ==> (state.value.status.Completed? <==> Smooth(old(jobs), old(submissions), p0, world, 0))
      ensures exit.Returned? ==> state.value.status.Completed? || state.value.status.Stopped?
      ensures exit.Raised? ==> state.Some? && state.value.status.Failed?
      ensures (Smooth(old(jobs), old(submissions), p0, world, 0) && p0.next <= |plan.specs|
               && old(life) > 5 * (|plan.specs| - p0.next)) ==> exit.Returned?
    {
      hide Grows, GoingOn, Once, RunOk, ValidPlan, SaveKeeps, Counted, MayStart, GoesOn;
      var p := p0;
      var n := 0;
      StoredNext(View(), p);
      while p.next < |plan.specs|
        invariant DiskOk(View()) && Grows(d, View()) && p.next <= |plan.specs|
        invariant state == Some(p) && p.status.Running? && p.active.None? && p.plan == plan
        invariant Smooth(old(jobs), old(submissions), p0, world, 0) <==> Smooth(jobs, submissions, p, world, n)
        invariant p0.next <= p.next && life + 5 * (p.next - p0.next) == old(life)
        decreases |plan.specs| - p.next
      {
        ghost var e := View();
        SmoothStep(View(), p, world, n);
        var turn, q := Cycle(plan, p, world(n));
        GrowsOn(d, e, View());
        n := n + 1;
        match turn {
          case Again => p := q;
          case Gone => return Died;
          case Leave =>
            SaveEnds(View(), q);
            PlanStays(e, View());
            exit := Close(d, q);
            return;
          case Throw =>
            exit := Close(d, q.(status := Failed));
            return if exit.Died? then Died else Raised;
        }
      }
      MayEnd(View(), p, p.(status := Completed));
      exit := Close(d, p.(status := Completed));
    }

    /** The last write of a call. */
    method Close(ghost d: Disk, p: Progress) returns (exit: Exit)
      requires DiskOk(View()) && Grows(d, View()) && SaveKeeps(View(), p)
      modifies this`state, this`life
      ensures DiskOk(View()) && Grows(d, View())
      ensures exit.Returned? || exit.Died?
      ensures exit.Returned? ==> state == Some(p)
      ensures exit.Returned? <==> old(life) > 0
    {
      ghost var e := View();
      var alive := Save(p);
      GrowsOn(d, e, View());
      return if alive then Returned else Died;
    }

    /** Any number of calls, each with its own plan, its own world and its own moment of death: no spec is ever run
        twice, the second runs only after the first validated, and none runs at the failure limit. */
    method Campaigns(calls: seq<Call>)
      requires DiskOk(View())
      modifies this
      ensures DiskOk(View()) && Grows(old(View()), View())
    {
      var i := 0;
      while i < |calls|
        invariant DiskOk(View()) && Grows(old(View()), View())
      {
        ghost var e := View();
        life := calls[i].life;
        var exit := RunCampaign(calls[i].plan, calls[i].resume, calls[i].frozen, calls[i].world);
        GrowsOn(old(View()), e, View());
        i := i + 1;
      }
    }
  }

  datatype Call = Call(plan: Plan, resume: bool, frozen: bool, world: nat -> World, life: nat)

  datatype Turn = Again | Leave | Throw | Gone

  /** Up to twenty jobs, up to three failures and up to a day, four hours with an external job among them. */
  predicate Sized(plan: Plan) {
    && 1 <= |plan.specs| <= 20 && 1 <= plan.maxFailures <= 3 && 1 <= plan.timeout <= 24 * 3600
    && forall i | 0 <= i < |plan.specs| && plan.specs[i].external :: plan.timeout <= 4 * 3600
  }

  lemma SizedExactly(plan: Plan)
    ensures ValidPlan(plan) <==> Sized(plan)
  {
    if ValidPlan(plan) { forall i | 0 <= i < |plan.specs| ensures plan.specs[i] in plan.specs {} }
  }

  /** Everything that must be right before a job is submitted and run. */
  predicate MayStart(d: Disk, p: Progress, w: World)
    requires p.next < |p.plan.specs|
  {
    var spec := p.plan.specs[p.next];
    && (p.next > 0 ==> 0 in d.jobs && Valid(d.jobs[0]))
    && !w.stop && w.wallLeft > 0 && p.elapsed < p.plan.timeout && p.failures < p.plan.maxFailures
    && spec.sameLock && spec.timeout <= p.plan.timeout - p.elapsed && spec.timeout <= w.wallLeft
    && p.next !in d.submissions && w.freeze.Same? && w.submits
  }

  /** The campaign goes on after a job: nothing it was stops it. */
  predicate GoesOn(p: Progress, job: Record)
    requires p.next < |p.plan.specs|
  {
    && !Unsound(job) && !p.plan.specs[p.next].plannerOnly && !job.status.PlannerStopped?
    && !(p.plan.specs[p.next].external && job.infrastructure)
    && (p.next == 0 ==> Valid(job))
    && (Valid(job) || p.failures + 1 < p.plan.maxFailures)
  }

  predicate Proposes(job: Record) { job.status == ReviewReady || job.status == ExternalPending }

  /** A job may be submitted: the first one validated, nothing stops the campaign, the lock is the campaign's, the time
      suffices, and there is no submission of this job yet. */
  predicate MayTry(d: Disk, p: Progress, w: World)
    requires p.next < |p.plan.specs| && (p.next > 0 ==> 0 in d.jobs)
  {
    var spec := p.plan.specs[p.next];
    && (p.next > 0 ==> Proposes(d.jobs[0]) && d.jobs[0].sound)
    && !w.stop && w.wallLeft > 0 && p.elapsed < p.plan.timeout && p.failures < p.plan.maxFailures
    && spec.sameLock && spec.timeout + p.elapsed <= p.plan.timeout && spec.timeout <= w.wallLeft
    && p.next !in d.submissions
  }

  /** What raises: a first proposal that no longer verifies; where nothing stops the campaign, another lock, or, with
      the time for it, a submission of this job that is there already; a changed or broken verifier or a failed
      submission; a runner that raises; and a proposal that does not verify. Anything else only stops. */
  predicate Breaks(d: Disk, p: Progress, w: World, life: nat)
    requires p.next < |p.plan.specs| && (p.next > 0 ==> 0 in d.jobs)
  {
    var spec := p.plan.specs[p.next];
    var goes := && (p.next > 0 ==> Proposes(d.jobs[0]) && d.jobs[0].sound)
                && !w.stop && w.wallLeft > 0 && p.elapsed < p.plan.timeout && p.failures < p.plan.maxFailures;
    || (p.next > 0 && Proposes(d.jobs[0]) && !d.jobs[0].sound)
    || (goes && !spec.sameLock)
    || (goes && spec.sameLock && spec.timeout + p.elapsed <= p.plan.timeout && spec.timeout <= w.wallLeft
        && p.next in d.submissions)
    || (MayTry(d, p, w) && life >= 1 && (w.freeze != Same || !w.submits))
    || (MayTry(d, p, w) && life >= 4 && w.freeze == Same && w.submits
        && (w.raises || (Proposes(w.after) && !w.after.sound)))
  }

  /** How a job left active is taken up: counted once, as failed unless it had ended, which of an external job is a
      failure of its infrastructure; and the campaign goes on unless this job stops it. */
  ghost predicate TakenUp(d: Disk, p: Progress, jobs: map<nat, Record>) {
    && d.state.Some? && d.state.value.next in d.jobs && d.state.value.next < |d.state.value.plan.specs|
    && var was, spec := d.jobs[d.state.value.next], d.state.value.plan.specs[d.state.value.next];
       var job := if was.status == InProgress then Record(FailedJob, was.sound, was.infrastructure || spec.external)
                  else was;
       && jobs == d.jobs[d.state.value.next := job]
       && p.next == d.state.value.next + 1 && p.active == None && p.results == d.state.value.results + [job.status]
       && p.failures == (if Proposes(job) && job.sound then 0 else d.state.value.failures + 1)
       && p.elapsed == d.state.value.elapsed
       && p.status == if spec.plannerOnly || job.status == PlannerStopped || (spec.external && job.infrastructure)
                      then Stopped else Running
  }

  /** Nothing stops the campaign from here on: the first job validated, there is no stop request, and time and failures
      are left; the job fits the campaign's lock and time and was never submitted; it can be submitted under the same
      verifier, its run comes back, and what it is does not end the campaign. And so on to the last. */
  ghost predicate Smooth(jobs: map<nat, Record>, submissions: set<nat>, p: Progress, world: nat -> World, n: nat)
    decreases |p.plan.specs| - p.next
  {
    p.next < |p.plan.specs| ==>
      var w, spec, job := world(n), p.plan.specs[p.next], world(n).after;
      var ready := job.status == ReviewReady || job.status == ExternalPending;
      && (p.next > 0 ==>
            && 0 in jobs && jobs[0].sound && (jobs[0].status == ReviewReady || jobs[0].status == ExternalPending))
      && !w.stop && w.wallLeft > 0 && p.elapsed < p.plan.timeout && p.failures < p.plan.maxFailures
      && spec.sameLock && spec.timeout + p.elapsed <= p.plan.timeout && spec.timeout <= w.wallLeft
      && p.next !in submissions && w.freeze == Same && w.submits && !w.raises
      && (ready ==> job.sound) && !spec.plannerOnly && job.status != PlannerStopped
      && !(spec.external && job.infrastructure)
      && (ready || (p.next > 0 && p.failures + 1 < p.plan.maxFailures))
      && Smooth(jobs[p.next := job], submissions + {p.next},
                Progress(p.plan, p.status, p.next + 1, if ready then 0 else p.failures + 1,
                         p.results + [job.status], None, w.elapsed),
                world, n + 1)
  }

  lemma SmoothStep(d: Disk, p: Progress, world: nat -> World, n: nat)
    requires p.next < |p.plan.specs|
    ensures Smooth(d.jobs, d.submissions, p, world, n) <==>
              && MayStart(d, p, world(n)) && !world(n).raises && GoesOn(p, world(n).after)
              && Smooth(d.jobs[p.next := world(n).after], d.submissions + {p.next},
                        Counted(p, world(n).after).(elapsed := world(n).elapsed), world, n + 1)
  {}

  /** Writing `p` would end the campaign without touching its history. */
  predicate SaveKeeps(d: Disk, p: Progress) {
    && DiskOk(d) && d.state.Some? && (Finished(d.state.value.status) ==> p == d.state.value) && Finished(p.status)
    && p.plan == d.state.value.plan && d.state.value.next <= p.next
    && (p.status.Completed? ==> p.next == |p.plan.specs|)
  }
}
