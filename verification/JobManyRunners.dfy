/** The job protocol with any set of runners: when it loses a job, and what a shutdown leaves behind. */
module JobManyRunners {
  import opened KeyOrder
  import opened JobRecords
  import opened JobProtocol

  // ---- Any number of runners --------------------------------------------------------------------

  /** The runner has decided to claim or requeue the job, or is running it. */
  predicate Engaged(run: Runner, job: JobId) {
    || ((run.pc.Checked? || run.pc.Leased?) && run.pc.job == job)
    || Requeues(run, job)
    || (job in run.tasks && (run.tasks[job].pc.Starting? || run.tasks[job].pc.Working? || run.tasks[job].pc.Recording?))
  }

  predicate Requeues(run: Runner, job: JobId) {
    run.pc.Flushing? && job in run.pc.todo && run.pc.todo[job] == RequeueNext
  }

  predicate Runs(run: Runner, job: JobId) {
    job in run.tasks && (run.tasks[job].pc.Starting? || run.tasks[job].pc.Working? || run.tasks[job].pc.Recording?)
  }

  predicate Drops(run: Runner, job: JobId) { job in run.tasks && run.tasks[job].pc.Dropping? }

  /** The runner does not count on the record not getting this status. */
  predicate Tolerates(run: Runner, job: JobId, status: Status) {
    match status
    case Queued => !Runs(run, job) && !Drops(run, job) && !Requeues(run, job)
    case Running => !Drops(run, job)
    case Completed => !Engaged(run, job)
    case Failed => !Engaged(run, job)
    case Cancelled => false
  }

  /** A runner's step changes the status of an uncancelled record under another runner that counts on
      it: a claim decided on a check that another runner's finished job has overtaken, for one. */
  ghost predicate Overtakes(w: World, l: Label) {
    !l.ApiLabel? && exists r', job ::
      && r' != l.runner && job in w.execs && job in Step(w, l).execs && !w.execs[job].cancelRequested
      && Step(w, l).execs[job].status != w.execs[job].status
      && !Tolerates(RunnerOf(w, r'), job, Step(w, l).execs[job].status)
  }

  ghost predicate NeverOvertakes(w: World, ls: seq<Label>)
    decreases ls
  {
    ls == [] || (!Overtakes(w, ls[0]) && NeverOvertakes(Step(w, ls[0]), ls[1..]))
  }

  ghost predicate AllInv(w: World) { forall r :: Inv(w, r) }

  /** No record appears, vanishes, or gets a different cancel request. */
  ghost predicate SameRecords(w: World, w': World, job: JobId) {
    && w'.mentioned == w.mentioned && w'.calls == w.calls && (job in w'.execs <==> job in w.execs)
    && (job in w.execs ==> w'.execs[job].cancelRequested == w.execs[job].cancelRequested)
  }

  lemma LoopStepKeeps(w: World, r: RunnerId, s: LoopStep, job: JobId)
    ensures SameRecords(w, Loop(w, r, s), job)
  {
    hide LeaseReleased, FlushPlan, FlushRest;
  }

  lemma TaskStepKeeps(w: World, r: RunnerId, j: JobId, s: TaskStep, job: JobId)
    ensures SameRecords(w, Work(w, r, j, s), job)
  {
    hide NextPc, LeaseReleased;
  }

  /** What another runner relies on survives a step that it tolerates. */
  lemma OtherRunnerOk(w: World, w': World, r': RunnerId, job: JobId)
    requires JobOk(w, r', job) && RecordsOk(w', job) && SameRunner(w, w', r') && w'.mentioned == w.mentioned
    requires job in w'.execs ==>
               && job in w.execs && w'.execs[job].cancelRequested == w.execs[job].cancelRequested
               && (w'.execs[job].status == w.execs[job].status || w.execs[job].cancelRequested
                   || Tolerates(RunnerOf(w, r'), job, w'.execs[job].status))
    ensures JobOk(w', r', job)
  {
  }

  lemma RunnerStepAllInv(w: World, l: Label)
    requires AllInv(w) && !l.ApiLabel? && !Overtakes(w, l)
    ensures AllInv(Step(w, l))
  {
    hide JobOk, CallOk, Api, Loop, Work, Tolerates, RecordsOk, SameRunner;
    var w', r := Step(w, l), l.runner;
    StepInv(w, r, l);
    forall r', job ensures JobOk(w', r', job) {
      assert JobOk(w', r, job);
      if r' != r {
        assert Inv(w, r') && JobOk(w, r', job);
        OkRecords(w', r, job);
        match l {
          case LoopLabel(_, s) =>
            LoopSpares(w, r, s, r');
            LoopStepKeeps(w, r, s, job);
          case TaskLabel(_, j, s) =>
            WorkSpares(w, r, j, s, r');
            TaskStepKeeps(w, r, j, s, job);
        }
        OtherRunnerOk(w, w', r', job);
      }
    }
  }

  lemma OkRecords(w: World, r: RunnerId, job: JobId)
    requires JobOk(w, r, job)
    ensures RecordsOk(w, job)
  {
  }

  lemma ApiStepAllInv(w: World, s: ApiStep)
    requires AllInv(w)
    ensures AllInv(Api(w, s))
  {
    hide JobOk, CallOk, Api;
    var w' := Api(w, s);
    forall r', job ensures JobOk(w', r', job) {
      assert Inv(w, r');
      if s.Notify? && s.runner != r' {
        ApiSpares(w, s, r');
        NotifyUntouched(w, s, r', job);
        UntouchedOk(w, w', r', job);
      } else {
        ApiInv(w, r', s);
      }
    }
    forall c ensures CallOk(w', c) {
      ApiInv(w, if s.Notify? then s.runner else "", s);
    }
  }

  lemma NotifyUntouched(w: World, s: ApiStep, r': RunnerId, job: JobId)
    requires s.Notify? && s.runner != r'
    ensures Untouched(w, Api(w, s), r', job)
  {
  }

  lemma {:induction false} AlwaysAllInv(w: World, ls: seq<Label>)
    requires AllInv(w) && NeverOvertakes(w, ls)
    ensures AllInv(Run(w, ls))
    decreases ls
  {
    hide AllInv, Overtakes, Api, Loop, Work;
    if ls != [] {
      if ls[0].ApiLabel? { ApiStepAllInv(w, ls[0].api); } else { RunnerStepAllInv(w, ls[0]); }
      AlwaysAllInv(Step(w, ls[0]), ls[1..]);
    }
  }

  /** With any runners and any interleaving, leases running out included, no accepted job is lost as
      long as no runner's step overtakes another runner. */
  lemma ManyRunnersLoseNothing(ls: seq<Label>)
    requires NeverOvertakes(START, ls)
    ensures NothingLost(Run(START, ls))
  {
    assert forall r :: Inv(START, r);
    AlwaysAllInv(START, ls);
    InvLosesNothing(Run(START, ls), "");
  }

  // ---- Two runners are too many -----------------------------------------------------------------

  /** A world with two runners and one job. */
  function Two(a: RunnerId, b: RunnerId, job: JobId, e: Execution, specs: set<JobId>, holders: map<JobId, RunnerId>,
               runA: Runner, runB: Runner): World
  {
    World(map[job := e], specs, holders, map[a := runA, b := runB], map[], {job})
  }

  function WaitingJob(): Execution { Execution(Queued, false, None, NoError) }

  function RunBy(r: RunnerId): Execution { Execution(Running, false, Some(r), NoError) }

  function Idler(pc: RunnerPc): Runner { Runner(pc, map[], false) }

  function Worker(job: JobId, pc: TaskPc): Runner { Runner(Claiming(0), map[job := Task(pc, false)], false) }

  /** Both runners check the job before the first one claims it ... */
  function BothCheck(a: RunnerId, b: RunnerId, job: JobId): seq<Label> {
    [ApiLabel(Create(job)), LoopLabel(a, BeginRound(1)), LoopLabel(b, BeginRound(1)), LoopLabel(a, Check(job)),
     LoopLabel(b, Check(job))]
  }

  /** ... the first one takes the lease, runs the job, and finishes it ... */
  function FirstRuns(a: RunnerId, job: JobId): seq<Label> {
    [LoopLabel(a, TakeLease(false)), LoopLabel(a, WriteRunning),
     TaskLabel(a, job, Advance), TaskLabel(a, job, Finish(true)),
     TaskLabel(a, job, Advance), TaskLabel(a, job, Advance), TaskLabel(a, job, Advance)]
  }

  /** ... and the second one claims on the strength of its old check. No lease ever runs out. */
  function SecondClaims(b: RunnerId): seq<Label> { [LoopLabel(b, TakeLease(false)), LoopLabel(b, WriteRunning)] }

  function BothClaiming(a: RunnerId, b: RunnerId, job: JobId): World {
    Two(a, b, job, WaitingJob(), {job}, map[], Idler(Claiming(1)), Idler(Claiming(1)))
  }

  lemma BothBegin(a: RunnerId, b: RunnerId, job: JobId)
    requires a != b
    ensures var w1 := World(map[job := WaitingJob()], {job}, map[], map[], map[], {job});
            var w2 := w1.(runners := map[a := Idler(Claiming(1))]);
            && Step(START, ApiLabel(Create(job))) == w1 && Step(w1, LoopLabel(a, BeginRound(1))) == w2
            && Step(w2, LoopLabel(b, BeginRound(1))) == BothClaiming(a, b, job)
  {
  }

  lemma BothCheckNext(a: RunnerId, b: RunnerId, job: JobId)
    requires a != b
    ensures var w3 := BothClaiming(a, b, job);
            var w4 := w3.(runners := map[a := Idler(Checked(1, job)), b := Idler(Claiming(1))]);
            && Step(w3, LoopLabel(a, Check(job))) == w4
            && Step(w4, LoopLabel(b, Check(job))) ==
               w3.(runners := map[a := Idler(Checked(1, job)), b := Idler(Checked(1, job))])
  {
    var w3 := BothClaiming(a, b, job);
    OneChecks(w3, a, job);
    OneChecks(Step(w3, LoopLabel(a, Check(job))), b, job);
    assert w3.runners[a := Idler(Checked(1, job))][b := Idler(Checked(1, job))]
        == map[a := Idler(Checked(1, job)), b := Idler(Checked(1, job))];
  }

  lemma OneChecks(w: World, r: RunnerId, job: JobId)
    requires r in w.runners && w.runners[r] == Idler(Claiming(1))
    requires job in w.execs && w.execs[job] == WaitingJob()
    ensures Step(w, LoopLabel(r, Check(job))) == w.(runners := w.runners[r := Idler(Checked(1, job))])
  {
  }

  lemma BothHaveChecked(a: RunnerId, b: RunnerId, job: JobId)
    requires a != b
    ensures Run(START, BothCheck(a, b, job)) ==
              Two(a, b, job, WaitingJob(), {job}, map[], Idler(Checked(1, job)), Idler(Checked(1, job)))
  {
    hide Step, Run;
    var ls := BothCheck(a, b, job);
    BothBegin(a, b, job);
    BothCheckNext(a, b, job);
    var w1 := Step(START, ls[0]);
    var w2 := Step(w1, ls[1]);
    var w3 := Step(w2, ls[2]);
    var w4 := Step(w3, ls[3]);
    assert ls[0..] == ls && ls[5..] == [];
    RunFrom(START, ls, 0);
    RunFrom(w1, ls, 1);
    RunFrom(w2, ls, 2);
    RunFrom(w3, ls, 3);
    RunFrom(w4, ls, 4);
    RunEnd(Step(w4, ls[4]));
  }

  lemma FirstLeases(a: RunnerId, b: RunnerId, job: JobId, runB: Runner)
    requires a != b
    ensures var w0 := Two(a, b, job, WaitingJob(), {job}, map[], Idler(Checked(1, job)), runB);
            var w1 := Two(a, b, job, WaitingJob(), {job}, map[job := a], Idler(Leased(1, job)), runB);
            && Step(w0, LoopLabel(a, TakeLease(false))) == w1
            && Step(w1, LoopLabel(a, WriteRunning)) ==
               Two(a, b, job, RunBy(a), {job}, map[job := a], Worker(job, Starting), runB)
  {
    var w0 := Two(a, b, job, WaitingJob(), {job}, map[], Idler(Checked(1, job)), runB);
    var w1 := Two(a, b, job, WaitingJob(), {job}, map[job := a], Idler(Leased(1, job)), runB);
    assert w0.runners[a := Idler(Leased(1, job))] == w1.runners;
    var t: map<JobId, Task> := map[];
    assert t[job := Task(Starting, false)] == Worker(job, Starting).tasks;
    assert w1.runners[a := Worker(job, Starting)] == map[a := Worker(job, Starting), b := runB];
  }

  /** Any statement of the first runner's job body. */
  lemma FirstAdvances(a: RunnerId, b: RunnerId, job: JobId, e: Execution, specs: set<JobId>,
                      holders: map<JobId, RunnerId>,
                      pc: TaskPc, runB: Runner)
    requires a != b
    ensures var w := Two(a, b, job, e, specs, holders, Worker(job, pc), runB);
            Step(w, TaskLabel(a, job, Advance)) ==
              World(Recorded(w.execs, job, pc), if pc.Dropping? then specs - {job} else specs,
                    if pc.NoSpecRelease? || pc.Releasing? then LeaseReleased(holders, job, a) else holders,
                    map[a := Worker(job, NextPc(pc, job in specs)), b := runB], map[], {job})
  {
    hide Recorded, NextPc, LeaseReleased;
    var w := Two(a, b, job, e, specs, holders, Worker(job, pc), runB);
    var next := Worker(job, NextPc(pc, job in specs));
    assert Worker(job, pc).tasks[job := Task(NextPc(pc, job in specs), false)] == next.tasks;
    assert w.runners[a := next] == map[a := next, b := runB];
  }

  lemma FirstGenerates(a: RunnerId, b: RunnerId, job: JobId, runB: Runner)
    requires a != b
    ensures Step(Two(a, b, job, RunBy(a), {job}, map[job := a], Worker(job, Working), runB),
                 TaskLabel(a, job, Finish(true))) ==
              Two(a, b, job, RunBy(a), {job}, map[job := a], Worker(job, Recording(Success)), runB)
  {
    var w := Two(a, b, job, RunBy(a), {job}, map[job := a], Worker(job, Working), runB);
    var next := Worker(job, Recording(Success));
    assert Worker(job, Working).tasks[job := Task(Recording(Success), false)] == next.tasks;
    assert w.runners[a := next] == map[a := next, b := runB];
  }

  function FinishedJob(): Execution { Execution(Completed, false, None, NoError) }

  /** The steps of the first runner up to the end of the generation. */
  lemma FirstHasGenerated(a: RunnerId, b: RunnerId, job: JobId, runB: Runner)
    requires a != b
    ensures Run(Two(a, b, job, WaitingJob(), {job}, map[], Idler(Checked(1, job)), runB), FirstRuns(a, job)) ==
              Run(Two(a, b, job, RunBy(a), {job}, map[job := a], Worker(job, Recording(Success)), runB),
                  FirstRuns(a, job)[4..])
  {
    hide Step, Run;
    var ls, held := FirstRuns(a, job), map[job := a];
    var w0 := Two(a, b, job, WaitingJob(), {job}, map[], Idler(Checked(1, job)), runB);
    var w1 := Two(a, b, job, WaitingJob(), {job}, held, Idler(Leased(1, job)), runB);
    var w2 := Two(a, b, job, RunBy(a), {job}, held, Worker(job, Starting), runB);
    var w3 := Two(a, b, job, RunBy(a), {job}, held, Worker(job, Working), runB);
    FirstLeases(a, b, job, runB);
    FirstAdvances(a, b, job, RunBy(a), {job}, held, Starting, runB);
    FirstGenerates(a, b, job, runB);
    assert ls[0..] == ls;
    RunFrom(w0, ls, 0);
    RunFrom(w1, ls, 1);
    RunFrom(w2, ls, 2);
    RunFrom(w3, ls, 3);
  }

  lemma FirstRecords(a: RunnerId, b: RunnerId, job: JobId, runB: Runner)
    requires a != b
    ensures Step(Two(a, b, job, RunBy(a), {job}, map[job := a], Worker(job, Recording(Success)), runB),
                 TaskLabel(a, job, Advance)) ==
              Two(a, b, job, FinishedJob(), {job}, map[job := a], Worker(job, Dropping), runB)
  {
    FirstAdvances(a, b, job, RunBy(a), {job}, map[job := a], Recording(Success), runB);
    hide Step;
    assert Recorded(map[job := RunBy(a)], job, Recording(Success)) == map[job := FinishedJob()];
  }

  lemma FirstEnds(a: RunnerId, b: RunnerId, job: JobId, runB: Runner)
    requires a != b
    ensures var w5 := Two(a, b, job, FinishedJob(), {job}, map[job := a], Worker(job, Dropping), runB);
            var w6 := Two(a, b, job, FinishedJob(), {}, map[job := a], Worker(job, Releasing), runB);
            && Step(w5, TaskLabel(a, job, Advance)) == w6
            && Step(w6, TaskLabel(a, job, Advance)) == Two(a, b, job, FinishedJob(), {}, map[], Worker(job, Done), runB)
  {
    FirstAdvances(a, b, job, FinishedJob(), {job}, map[job := a], Dropping, runB);
    FirstAdvances(a, b, job, FinishedJob(), {}, map[job := a], Releasing, runB);
    hide Step;
    assert {job} - {job} == {} && LeaseReleased(map[job := a], job, a) == map[];
  }

  lemma FirstHasRun(a: RunnerId, b: RunnerId, job: JobId, runB: Runner)
    requires a != b
    ensures Run(Two(a, b, job, WaitingJob(), {job}, map[], Idler(Checked(1, job)), runB), FirstRuns(a, job)) ==
              Two(a, b, job, FinishedJob(), {}, map[], Worker(job, Done), runB)
  {
    hide Step, Run, Two;
    var ls := FirstRuns(a, job);
    FirstHasGenerated(a, b, job, runB);
    FirstRecords(a, b, job, runB);
    FirstEnds(a, b, job, runB);
    var w4 := Two(a, b, job, RunBy(a), {job}, map[job := a], Worker(job, Recording(Success)), runB);
    var w5 := Step(w4, ls[4]);
    var w6 := Step(w5, ls[5]);
    assert ls[7..] == [];
    RunFrom(w4, ls, 4);
    RunFrom(w5, ls, 5);
    RunFrom(w6, ls, 6);
    RunEnd(Step(w6, ls[6]));
  }

  lemma SecondHasClaimed(a: RunnerId, b: RunnerId, job: JobId, runA: Runner)
    requires a != b
    ensures var w := Run(Two(a, b, job, FinishedJob(), {}, map[], runA, Idler(Checked(1, job))), SecondClaims(b));
            w.execs == map[job := RunBy(b)] && w.specs == {}
  {
    var ls := SecondClaims(b);
    var w0 := Two(a, b, job, FinishedJob(), {}, map[], runA, Idler(Checked(1, job)));
    var w1 := Two(a, b, job, FinishedJob(), {}, map[job := b], runA, Idler(Leased(1, job)));
    assert w0.runners[b := Idler(Leased(1, job))] == w1.runners;
    assert Step(w0, ls[0]) == w1;
    var w2 := Step(w1, ls[1]);
    assert w2.execs == map[job := RunBy(b)] && w2.specs == {};
    hide Step, Run;
    assert ls[0..] == ls && ls[2..] == [];
    RunFrom(w0, ls, 0);
    RunFrom(w1, ls, 1);
    RunEnd(w2);
  }

  function LosingRun(a: RunnerId, b: RunnerId, job: JobId): seq<Label> {
    BothCheck(a, b, job) + FirstRuns(a, job) + SecondClaims(b)
  }

  /** For any two runners and any job: a claim decided on a check that the other runner's complete job
      has overtaken leaves the job running without its spec. */
  lemma TwoRunnersLoseASpec(a: RunnerId, b: RunnerId, job: JobId)
    requires a != b
    ensures var w := Run(START, LosingRun(a, b, job));
            && job in w.execs && w.execs[job].status == Running && !w.execs[job].cancelRequested && job !in w.specs
            && !NothingLost(w)
  {
    hide Run, BothCheck, FirstRuns, SecondClaims;
    RunConcat(START, BothCheck(a, b, job) + FirstRuns(a, job), SecondClaims(b));
    RunConcat(START, BothCheck(a, b, job), FirstRuns(a, job));
    BothHaveChecked(a, b, job);
    FirstHasRun(a, b, job, Idler(Checked(1, job)));
    SecondHasClaimed(a, b, job, Worker(job, Done));
  }

  ghost predicate ByRunners(ls: seq<Label>, rs: set<RunnerId>) {
    forall l | l in ls ::
      (l.LoopLabel? || l.TaskLabel? ==> l.runner in rs) && (l.ApiLabel? && l.api.Notify? ==> l.api.runner in rs)
  }

  lemma LosingRunIsBy(a: RunnerId, b: RunnerId, job: JobId, rs: set<RunnerId>)
    requires a in rs && b in rs
    ensures ByRunners(LosingRun(a, b, job), rs)
  {
  }

  lemma AtMostOne(rs: set<RunnerId>)
    ensures |rs| <= 1 <==> forall a, b | a in rs && b in rs :: a == b
  {
    if rs != {} {
      var c :| c in rs;
      var others := rs - {c};
      assert rs == {c} + others;
      if others != {} {
        var d :| d in others;
        assert d in rs && d != c;
      }
    }
  }

  /** Which runners may work on one store without losing a job: any one, and no two. */
  lemma SafeIffOneRunner(rs: set<RunnerId>)
    ensures (forall ls | ByRunners(ls, rs) :: NothingLost(Run(START, ls))) <==> |rs| <= 1
  {
    hide Run, NothingLost, LosingRun;
    AtMostOne(rs);
    if a, b :| a in rs && b in rs && a != b {
      TwoRunnersLoseASpec(a, b, "j");
      LosingRunIsBy(a, b, "j", rs);
    } else {
      var r: RunnerId := if rs == {} then "" else var r :| r in rs; r;
      forall ls | ByRunners(ls, rs) ensures NothingLost(Run(START, ls)) {
        assert OneRunner(ls, r);
        NoAcceptedJobIsLost(ls, r);
      }
    }
  }
}
