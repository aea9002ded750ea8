/** What a stopping runner leaves behind: on every interleaving, and exactly when nobody else writes. */
module JobShutdown {
  import opened KeyOrder
  import opened JobRecords
  import opened JobProtocol

  // ---- Under any interleaving -------------------------------------------------------------------

  /** While a runner flushes, everything it still owns is planned and not yet written, and its job
      bodies are over. */
  ghost predicate Planned(w: World, r: RunnerId) {
    var run := RunnerOf(w, r);
    run.pc.Flushing? ==>
      && (forall j | j in w.execs && Owned(w.execs[j], r) :: j in run.pc.todo && run.pc.todo[j] != ReleaseNext)
      && (forall j | j in run.tasks :: run.tasks[j].pc.Done?)
  }

  lemma ApiPlanned(w: World, s: ApiStep, r: RunnerId)
    requires Planned(w, r)
    ensures Planned(Api(w, s), r)
  {
  }

  lemma LoopPlanned(w: World, r': RunnerId, s: LoopStep, r: RunnerId)
    requires Planned(w, r)
    ensures Planned(Loop(w, r', s), r)
  {
    hide LeaseReleased;
    if r' != r {
      OtherLoopPlanned(w, r', s, r);
    } else if s.Flush? {
      OwnFlushPlanned(w, r, s.job);
    } else {
      hide FlushRest;
    }
  }

  lemma OtherLoopPlanned(w: World, r': RunnerId, s: LoopStep, r: RunnerId)
    requires Planned(w, r) && r' != r
    ensures Planned(Loop(w, r', s), r)
  {
    LoopSpares(w, r', s, r);
    hide LeaseReleased, FlushRest, FlushPlan;
  }

  lemma OwnFlushPlanned(w: World, r: RunnerId, job: JobId)
    requires Planned(w, r)
    ensures Planned(Loop(w, r, Flush(job)), r)
  {
    hide LeaseReleased, FlushPlan;
  }

  /** Writing a final status takes the owner away. */
  lemma RecordedIsDisowned(execs: Executions, job: JobId, pc: TaskPc, j: JobId, r: RunnerId)
    requires j in Recorded(execs, job, pc) && Owned(Recorded(execs, job, pc)[j], r)
    ensures j in execs && Owned(execs[j], r)
  {
  }

  lemma TaskPlanned(w: World, r': RunnerId, job: JobId, s: TaskStep, r: RunnerId)
    requires Planned(w, r)
    ensures Planned(Work(w, r', job, s), r)
  {
    hide LeaseReleased, Recorded;
    var w' := Work(w, r', job, s);
    if r' != r {
      WorkSpares(w, r', job, s, r);
      hide NextPc;
    }
    forall j | j in w'.execs && Owned(w'.execs[j], r) ensures j in w.execs && Owned(w.execs[j], r) {
      if job in RunnerOf(w, r').tasks {
        assert w'.execs == w.execs || w'.execs == Recorded(w.execs, job, RunnerOf(w, r').tasks[job].pc);
      }
      if w'.execs != w.execs { RecordedIsDisowned(w.execs, job, RunnerOf(w, r').tasks[job].pc, j, r); }
    }
  }

  lemma {:induction false} AlwaysPlanned(w: World, ls: seq<Label>, r: RunnerId)
    requires Planned(w, r)
    ensures Planned(Run(w, ls), r)
    decreases ls
  {
    hide Planned, Api, Loop, Work;
    if ls != [] {
      match ls[0] {
        case ApiLabel(s) => ApiPlanned(w, s, r);
        case LoopLabel(r', s) => LoopPlanned(w, r', s, r);
        case TaskLabel(r', job, s) => TaskPlanned(w, r', job, s, r);
      }
      AlwaysPlanned(Step(w, ls[0]), ls[1..], r);
    }
  }

  /** With any runners, API calls and interleaving: when a stopping runner has worked off its plan, no
      execution is running under its owner id. */
  lemma NothingOwnedAfterShutdown(ls: seq<Label>, r: RunnerId)
    requires RunnerOf(Run(START, ls), r).pc == Flushing(map[])
    ensures OwnedJobs(Run(START, ls).execs, r) == {}
  {
    AlwaysPlanned(START, ls, r);
  }

  // ---- When nobody else writes ------------------------------------------------------------------

  type Plan = map<JobId, FlushStage>

  /** A stage that the plan of a shutdown can be in. */
  predicate Reached(plan: Plan, todo: Plan) {
    forall j | j in todo ::
      && j in plan
      && (todo[j] == plan[j] || todo[j] == ReleaseNext || (plan[j] == DropSpecNext && todo[j] == MarkCancelledNext))
  }

  function Written(plan: Plan, todo: Plan): set<JobId> { set j | j in plan && (j in todo ==> todo[j] == ReleaseNext) }

  function Released(plan: Plan, todo: Plan): set<JobId> { set j | j in plan && j !in todo }

  function Dropped(plan: Plan, todo: Plan): set<JobId> {
    set j | j in plan && plan[j] == DropSpecNext && (j in todo ==> todo[j] != DropSpecNext)
  }

  /** The world of a shutdown depends only on what is left of its plan, not on the order of its steps. */
  function FlushWorld(w: World, r: RunnerId, todo: Plan): World {
    var plan := FlushPlan(w, r);
    WithPc(w, r, Flushing(todo))
    .(execs := ExecutionsAfter(w.execs, Written(plan, todo)),
      specs := w.specs - Dropped(plan, todo),
      holders := HoldersAfter(w.holders, Released(plan, todo), r))
  }

  lemma FlushStep(w: World, r: RunnerId, todo: Plan, job: JobId)
    requires Reached(FlushPlan(w, r), todo) && job in todo
    ensures Loop(FlushWorld(w, r, todo), r, Flush(job)) == FlushWorld(w, r, FlushRest(todo, job))
    ensures Reached(FlushPlan(w, r), FlushRest(todo, job))
  {
    var plan, rest := FlushPlan(w, r), FlushRest(todo, job);
    var w1, w2 := FlushWorld(w, r, todo), FlushWorld(w, r, rest);
    assert RunnerOf(w1, r).pc == Flushing(todo);
    FlushedRecords(w, r, todo, job);
    FlushedSpecs(w, r, todo, job);
    FlushedHolders(w, r, todo, job);
    assert w1.runners[r := RunnerOf(w1, r).(pc := Flushing(rest))] == w2.runners;
  }

  lemma FlushedRecords(w: World, r: RunnerId, todo: Plan, job: JobId)
    requires Reached(FlushPlan(w, r), todo) && job in todo
    ensures var plan, rest := FlushPlan(w, r), FlushRest(todo, job);
            var execs := ExecutionsAfter(w.execs, Written(plan, todo));
            ExecutionsAfter(w.execs, Written(plan, rest)) ==
              if todo[job] == MarkCancelledNext then Updated(execs, job, Cancelled, None)
              else if todo[job] == RequeueNext then Updated(execs, job, Queued, None) else execs
  {
    var plan, rest := FlushPlan(w, r), FlushRest(todo, job);
    assert Written(plan, rest) ==
      if todo[job] == MarkCancelledNext || todo[job] == RequeueNext then Written(plan, todo) + {job}
      else Written(plan, todo);
    assert plan[job] == if w.execs[job].cancelRequested then DropSpecNext else RequeueNext;
  }

  lemma FlushedSpecs(w: World, r: RunnerId, todo: Plan, job: JobId)
    requires Reached(FlushPlan(w, r), todo) && job in todo
    ensures var plan, rest := FlushPlan(w, r), FlushRest(todo, job);
            w.specs - Dropped(plan, rest) ==
              if todo[job] == DropSpecNext then w.specs - Dropped(plan, todo) - {job} else w.specs - Dropped(plan, todo)
  {
    var plan, rest := FlushPlan(w, r), FlushRest(todo, job);
    assert Dropped(plan, rest) ==
           if todo[job] == DropSpecNext then Dropped(plan, todo) + {job} else Dropped(plan, todo);
  }

  lemma FlushedHolders(w: World, r: RunnerId, todo: Plan, job: JobId)
    requires Reached(FlushPlan(w, r), todo) && job in todo
    ensures var plan, rest := FlushPlan(w, r), FlushRest(todo, job);
            var held := HoldersAfter(w.holders, Released(plan, todo), r);
            HoldersAfter(w.holders, Released(plan, rest), r) ==
              if todo[job] == ReleaseNext then LeaseReleased(held, job, r) else held
  {
    var plan, rest := FlushPlan(w, r), FlushRest(todo, job);
    assert Released(plan, rest) ==
           if todo[job] == ReleaseNext then Released(plan, todo) + {job} else Released(plan, todo);
  }

  // ---- Whole shutdowns --------------------------------------------------------------------------

  /** The plan after the next store operation on a job; none when nothing is left to do for it. */
  function Next(todo: Plan, job: JobId): Plan { if job in todo then FlushRest(todo, job) else todo }

  /** What is left of a plan after store operations on these jobs, in this order. */
  function RestOf(todo: Plan, jobs: seq<JobId>): Plan
    decreases jobs
  {
    if jobs == [] then todo else RestOf(Next(todo, jobs[0]), jobs[1..])
  }

  function Flushes(r: RunnerId, jobs: seq<JobId>): seq<Label>
    decreases jobs
  {
    if jobs == [] then [] else [LoopLabel(r, Flush(jobs[0]))] + Flushes(r, jobs[1..])
  }

  lemma {:induction false} FlushRun(w: World, r: RunnerId, todo: Plan, jobs: seq<JobId>)
    requires Reached(FlushPlan(w, r), todo)
    ensures Run(FlushWorld(w, r, todo), Flushes(r, jobs)) == FlushWorld(w, r, RestOf(todo, jobs))
    decreases jobs
  {
    hide Reached, FlushWorld, Loop, FlushRest, FlushPlan;
    if jobs != [] {
      var job := jobs[0];
      RunStep(FlushWorld(w, r, todo), LoopLabel(r, Flush(job)), Flushes(r, jobs[1..]));
      if job in todo {
        FlushStep(w, r, todo, job);
        FlushRun(w, r, FlushRest(todo, job), jobs[1..]);
      } else {
        NothingToFlush(w, r, todo, job);
        FlushRun(w, r, todo, jobs[1..]);
      }
    }
  }

  lemma NothingToFlush(w: World, r: RunnerId, todo: Plan, job: JobId)
    requires job !in todo
    ensures Loop(FlushWorld(w, r, todo), r, Flush(job)) == FlushWorld(w, r, todo)
  {
    assert RunnerOf(FlushWorld(w, r, todo), r).pc == Flushing(todo);
  }

  predicate ReadyToFlush(w: World, r: RunnerId) {
    RunnerOf(w, r).pc.Stopped? && forall j | j in RunnerOf(w, r).tasks :: RunnerOf(w, r).tasks[j].pc.Done?
  }

  /** The world that a shutdown has to reach. */
  function Flushed(w: World, r: RunnerId): World {
    var owned := OwnedJobs(w.execs, r);
    WithPc(w, r, Flushing(map[]))
    .(execs := ExecutionsAfter(w.execs, owned), specs := SpecsAfter(w.specs, w.execs, owned),
      holders := HoldersAfter(w.holders, owned, r))
  }

  lemma FlushBegins(w: World, r: RunnerId)
    requires ReadyToFlush(w, r)
    ensures Step(w, LoopLabel(r, BeginFlush)) == FlushWorld(w, r, FlushPlan(w, r)) &&
              Reached(FlushPlan(w, r), FlushPlan(w, r))
  {
    var plan := FlushPlan(w, r);
    assert Written(plan, plan) == {} && Dropped(plan, plan) == {} && Released(plan, plan) == {};
    NoneReleased(w.execs, w.specs, w.holders, r);
  }

  lemma FlushEnds(w: World, r: RunnerId)
    ensures FlushWorld(w, r, map[]) == Flushed(w, r)
  {
    var plan, owned := FlushPlan(w, r), OwnedJobs(w.execs, r);
    assert plan.Keys == owned && Written(plan, map[]) == owned && Released(plan, map[]) == owned;
    assert Dropped(plan, map[]) == set j | j in owned && j in w.execs && w.execs[j].cancelRequested;
  }

  /** A shutdown without other writers, whatever order its store operations take: once its plan is
      worked off, every execution it owned is queued with its spec or cancelled without one, its leases
      are free, and nothing else has changed. */
  lemma ShutdownIsExact(w: World, r: RunnerId, jobs: seq<JobId>)
    requires ReadyToFlush(w, r) && RestOf(FlushPlan(w, r), jobs) == map[]
    ensures Run(w, [LoopLabel(r, BeginFlush)] + Flushes(r, jobs)) == Flushed(w, r)
  {
    hide Run, Step, FlushWorld, FlushPlan, Reached, Flushed;
    RunStep(w, LoopLabel(r, BeginFlush), Flushes(r, jobs));
    FlushBegins(w, r);
    FlushRun(w, r, FlushPlan(w, r), jobs);
    FlushEnds(w, r);
  }

  lemma {:induction false} RestConcat(todo: Plan, a: seq<JobId>, b: seq<JobId>)
    ensures RestOf(todo, a + b) == RestOf(RestOf(todo, a), b)
    decreases a
  {
    hide Next;
    if a == [] {
      assert a + b == b;
    } else {
      assert (a + b)[1..] == a[1..] + b;
      RestConcat(Next(todo, a[0]), a[1..], b);
    }
  }

  lemma RestNext(todo: Plan, job: JobId, jobs: seq<JobId>)
    ensures RestOf(todo, [job] + jobs) == RestOf(Next(todo, job), jobs)
  {
    assert ([job] + jobs)[1..] == jobs;
  }

  /** Three store operations are enough for any stage. */
  lemma JobIsFlushed(todo: Plan, job: JobId)
    ensures RestOf(todo, [job, job, job]) == todo - {job}
  {
    var t1 := Next(todo, job);
    var t2 := Next(t1, job);
    assert Next(t2, job) == todo - {job};
    hide Next;
    RestNext(todo, job, [job, job]);
    RestNext(t1, job, [job]);
    RestNext(t2, job, []);
    assert [job] + [job, job] == [job, job, job] && [job] + [job] == [job, job] && [job] + [] == [job];
  }

  /** Every plan can be worked off. */
  lemma {:induction false} PlanEnds(todo: Plan) returns (jobs: seq<JobId>)
    ensures RestOf(todo, jobs) == map[]
    decreases |todo|
  {
    jobs := [];
    if todo != map[] {
      var job :| job in todo;
      assert (todo - {job}).Keys == todo.Keys - {job};
      assert |todo| == |todo.Keys| && |todo - {job}| == |(todo - {job}).Keys|;
      var rest := PlanEnds(todo - {job});
      JobIsFlushed(todo, job);
      RestConcat(todo, [job, job, job], rest);
      jobs := [job, job, job] + rest;
    }
  }
}
