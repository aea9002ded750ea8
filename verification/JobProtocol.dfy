/** The background-job protocol as interleaved atomic steps: API creation, cancel and delete, the
    runner's claim loop, its job tasks, heartbeats, shutdown and restart. Creation and each store
    update are one step; entries do not expire. A cancelled task may be interrupted at any await. */
module JobProtocol {
  import opened KeyOrder
  import opened JobRecords

  type CallId = nat

  // ---- Program counters -------------------------------------------------------------------------

  datatype Outcome = Success | Failure | Interrupted

  // the body of a job task, by what it will do next
  datatype TaskPc =
    | Starting               // load the spec
    | NoSpec                 // spec was missing: record the failure
    | NoSpecRelease          // ... then release the lease
    | Working                // generating
    | Recording(outcome: Outcome)  // write the final status
    | Dropping               // delete the spec
    | Releasing              // finally: release the lease
    | Done

  // cancelSent: task.cancel() has been called
  datatype Task = Task(pc: TaskPc, cancelSent: bool)

  datatype FlushStage = DropSpecNext | MarkCancelledNext | RequeueNext | ReleaseNext

  datatype RunnerPc =
    | Idle
    | Claiming(available: int)
    | Checked(available: int, job: JobId)
    | Leased(available: int, job: JobId)
    | Abandoning(job: JobId)       // claim interrupted by shutdown: release the lease
    | Stopped
    | Flushing(todo: map<JobId, FlushStage>)

  datatype Runner = Runner(pc: RunnerPc, tasks: map<JobId, Task>, stopping: bool)

  // API calls in flight, by what they will do next
  datatype CallPc =
    | CancelDecided(job: JobId, previous: Option<Status>)
    | CancelDropSpec(job: JobId)
    | CancelNotify(job: JobId)
    | DeleteSpecNext(job: JobId)
    | DeleteExecutionNext(job: JobId)
    | DeleteLeaseNext(job: JobId)

  // mentioned: ids some API call has named; new jobs get ids nobody has named (random uuids)
  datatype World = World(execs: Executions, specs: set<JobId>, holders: map<JobId, RunnerId>,
                         runners: map<RunnerId, Runner>, calls: map<CallId, CallPc>, mentioned: set<JobId>)

  const START := World(map[], {}, map[], map[], map[], {})

  function RunnerOf(w: World, r: RunnerId): Runner {
    if r in w.runners then w.runners[r] else Runner(Idle, map[], false)
  }

  function WithRunner(w: World, r: RunnerId, run: Runner): World { w.(runners := w.runners[r := run]) }

  function WithPc(w: World, r: RunnerId, pc: RunnerPc): World { WithRunner(w, r, RunnerOf(w, r).(pc := pc)) }

  function WithTask(w: World, r: RunnerId, job: JobId, t: Task): World {
    var run := RunnerOf(w, r);
    WithRunner(w, r, run.(tasks := run.tasks[job := t]))
  }

  function WithCall(w: World, c: CallId, pc: CallPc): World { w.(calls := w.calls[c := pc]) }

  function EndCall(w: World, c: CallId): World { w.(calls := w.calls - {c}) }

  // ---- API steps --------------------------------------------------------------------------------

  datatype ApiStep =
    | Create(job: JobId)
    | BeginCancel(call: CallId, job: JobId)
    | LoadForCancel(call: CallId, stored: bool, storedActive: bool)
    | CancelDrop(call: CallId)
    | Notify(call: CallId, runner: RunnerId)
    | CheckDelete(call: CallId, job: JobId, stored: bool)
    | DeleteSpec(call: CallId)
    | DeleteExecution(call: CallId)
    | DeleteLease(call: CallId)

  function Api(w: World, s: ApiStep): World {
    match s
    case Create(job) =>
      if job in w.mentioned then w
      else w.(execs := w.execs[job := Execution(Queued, false, None, NoError)], specs := w.specs + {job},
              mentioned := w.mentioned + {job})
    case BeginCancel(c, job) =>
      if c in w.calls then w
      else
        var previous := if job in w.execs then Some(w.execs[job].status) else None;
        w.(execs := CancelRequested(w.execs, job), mentioned := w.mentioned + {job},
           calls := w.calls[c := CancelDecided(job, previous)])
    case LoadForCancel(c, stored, storedActive) =>
      if c !in w.calls || !w.calls[c].CancelDecided? then w
      else
        var job, previous := w.calls[c].job, w.calls[c].previous;
        if previous.None? && (!stored || !storedActive) then EndCall(w, c)
        else if previous.Some? && Terminal(previous.value) then EndCall(w, c)
        else if stored && previous != Some(Running) then WithCall(w, c, CancelDropSpec(job))
        else WithCall(w, c, CancelNotify(job))
    case CancelDrop(c) =>
      if c !in w.calls || !w.calls[c].CancelDropSpec? then w
      else WithCall(w, c, CancelNotify(w.calls[c].job)).(specs := w.specs - {w.calls[c].job})
    case Notify(c, r) =>
      if c !in w.calls || !w.calls[c].CancelNotify? then w
      else
        var job, run := w.calls[c].job, RunnerOf(w, r);
        if job in run.tasks then EndCall(WithTask(w, r, job, run.tasks[job].(cancelSent := true)), c)
        else EndCall(w, c)
    case CheckDelete(c, job, stored) =>
      if c in w.calls then w
      else if !stored || (job in w.execs && Active(w.execs[job].status)) then w.(mentioned := w.mentioned + {job})
      else WithCall(w, c, DeleteSpecNext(job)).(mentioned := w.mentioned + {job})
    case DeleteSpec(c) =>
      if c !in w.calls || !w.calls[c].DeleteSpecNext? then w
      else WithCall(w, c, DeleteExecutionNext(w.calls[c].job)).(specs := w.specs - {w.calls[c].job})
    case DeleteExecution(c) =>
      if c !in w.calls || !w.calls[c].DeleteExecutionNext? then w
      else WithCall(w, c, DeleteLeaseNext(w.calls[c].job)).(execs := w.execs - {w.calls[c].job})
    case DeleteLease(c) =>
      if c !in w.calls || !w.calls[c].DeleteLeaseNext? then w
      else EndCall(w, c).(holders := w.holders - {w.calls[c].job})
  }

  // ---- Runner loop steps ------------------------------------------------------------------------

  datatype LoopStep =
    | BeginRound(maxJobs: int)
    | Check(job: JobId)
    | TakeLease(expired: bool)     // expired: whether another holder's lease has run out
    | WriteRunning
    | EndRound
    | Beat(job: JobId)
    | Prune(job: JobId)
    | Stop
    | Abandon
    | BeginFlush
    | Flush(job: JobId)
    | Restart                      // the process dies and comes back without tasks

  predicate Claimable(w: World, r: RunnerId, job: JobId) {
    job in w.execs && job !in RunnerOf(w, r).tasks && !w.execs[job].cancelRequested && Active(w.execs[job].status)
  }

  function FlushPlan(w: World, r: RunnerId): map<JobId, FlushStage> {
    map j | j in w.execs && Owned(w.execs[j], r) :: if w.execs[j].cancelRequested then DropSpecNext else RequeueNext
  }

  /** What is left of a shutdown's plan after its next store operation on the job. */
  function FlushRest(todo: map<JobId, FlushStage>, job: JobId): map<JobId, FlushStage>
    requires job in todo
  {
    match todo[job]
    case DropSpecNext => todo[job := MarkCancelledNext]
    case ReleaseNext => todo - {job}
    case _ => todo[job := ReleaseNext]
  }

  function Loop(w: World, r: RunnerId, s: LoopStep): World {
    var run := RunnerOf(w, r);
    match s
    case BeginRound(maxJobs) =>
      if run.pc.Idle? && maxJobs - |run.tasks| > 0 then WithPc(w, r, Claiming(maxJobs - |run.tasks|)) else w
    case Check(job) =>
      if run.pc.Claiming? && run.pc.available > 0 && Claimable(w, r, job)
      then WithPc(w, r, Checked(run.pc.available, job)) else w
    case TakeLease(expired) =>
      if !run.pc.Checked? then w
      else if run.pc.job in w.holders && w.holders[run.pc.job] != r && !expired
      then WithPc(w, r, Claiming(run.pc.available))
      else WithPc(w, r, Leased(run.pc.available, run.pc.job)).(holders := w.holders[run.pc.job := r])
    case WriteRunning =>
      if !run.pc.Leased? then w
      else WithRunner(w, r, run.(pc := Claiming(run.pc.available - 1),
                                 tasks := run.tasks[run.pc.job := Task(Starting, false)]))
           .(execs := Updated(w.execs, run.pc.job, Running, Some(r)))
    case EndRound => if run.pc.Claiming? then WithPc(w, r, Idle) else w
    case Beat(job) =>
      if run.pc.Idle? && job in run.tasks && job in w.execs && w.execs[job].cancelRequested
      then WithTask(w, r, job, run.tasks[job].(cancelSent := true)) else w
    case Prune(job) =>
      if run.pc.Idle? && job in run.tasks && run.tasks[job].pc.Done?
      then WithRunner(w, r, run.(tasks := run.tasks - {job})) else w
    case Stop =>
      if run.stopping then w
      else WithRunner(w, r, Runner(if run.pc.Leased? then Abandoning(run.pc.job) else Stopped,
                                   map j | j in run.tasks :: run.tasks[j].(cancelSent := true), true))
    case Abandon =>
      if !run.pc.Abandoning? then w
      else WithPc(w, r, Stopped).(holders := LeaseReleased(w.holders, run.pc.job, r))
    case BeginFlush =>
      if run.pc.Stopped? && forall j | j in run.tasks :: run.tasks[j].pc.Done?
      then WithPc(w, r, Flushing(FlushPlan(w, r))) else w
    case Flush(job) =>
      if !run.pc.Flushing? || job !in run.pc.todo then w
      else
        var stage := run.pc.todo[job];
        WithPc(w, r, Flushing(FlushRest(run.pc.todo, job)))
        .(execs := if stage == MarkCancelledNext then Updated(w.execs, job, Cancelled, None)
                   else if stage == RequeueNext then Updated(w.execs, job, Queued, None)
                   else w.execs,
          specs := if stage == DropSpecNext then w.specs - {job} else w.specs,
          holders := if stage == ReleaseNext then LeaseReleased(w.holders, job, r) else w.holders)
    case Restart => WithRunner(w, r, Runner(Idle, map[], false))
  }

  // ---- Job task steps ---------------------------------------------------------------------------

  datatype TaskStep =
    | Advance            // the next statement of the job body
    | Finish(ok: bool)   // generation returns or raises
    | Deliver            // CancelledError is raised at the current await

  /** Where the job body stands after its next statement. */
  function NextPc(pc: TaskPc, hasSpec: bool): TaskPc {
    match pc
    case Starting => if hasSpec then Working else NoSpec
    case NoSpec => NoSpecRelease
    case NoSpecRelease => Done
    case Recording(_) => Dropping
    case Dropping => Releasing
    case Releasing => Done
    case _ => pc
  }

  function Recorded(execs: Executions, job: JobId, pc: TaskPc): Executions {
    match pc
    case NoSpec => WithError(Updated(execs, job, Failed, None), job, MissingSpec)
    case Recording(Success) => WithError(Updated(execs, job, Completed, None), job, NoError)
    case Recording(Failure) => WithError(Updated(execs, job, Failed, None), job, Crashed)
    case Recording(Interrupted) => Updated(execs, job, Cancelled, None)
    case _ => execs
  }

  /** The next statement of the job body. */
  function Advanced(w: World, r: RunnerId, job: JobId, t: Task): World {
    WithTask(w, r, job, t.(pc := NextPc(t.pc, job in w.specs)))
    .(execs := Recorded(w.execs, job, t.pc),
      specs := if t.pc.Dropping? then w.specs - {job} else w.specs,
      holders := if t.pc.NoSpecRelease? || t.pc.Releasing? then LeaseReleased(w.holders, job, r) else w.holders)
  }

  function Work(w: World, r: RunnerId, job: JobId, s: TaskStep): World {
    var run := RunnerOf(w, r);
    if job !in run.tasks then w
    else
      var t := run.tasks[job];
      match s
      case Finish(ok) =>
        if t.pc.Working? then WithTask(w, r, job, t.(pc := Recording(if ok then Success else Failure))) else w
      case Deliver =>
        if !t.cancelSent then w
        else WithTask(w, r, job, t.(pc := match t.pc
          case Working => if run.stopping then Releasing else Recording(Interrupted)
          case Recording(_) => Releasing
          case Dropping => Releasing
          case _ => Done))
      case Advance => Advanced(w, r, job, t)
  }

  // ---- Runs -------------------------------------------------------------------------------------

  datatype Label = ApiLabel(api: ApiStep) | LoopLabel(runner: RunnerId, loop: LoopStep)
                 | TaskLabel(runner: RunnerId, job: JobId, task: TaskStep)

  function Step(w: World, l: Label): World {
    match l
    case ApiLabel(s) => Api(w, s)
    case LoopLabel(r, s) => Loop(w, r, s)
    case TaskLabel(r, job, s) => Work(w, r, job, s)
  }

  function Run(w: World, ls: seq<Label>): World
    decreases ls
  {
    if ls == [] then w else Run(Step(w, ls[0]), ls[1..])
  }

  /** A runner step is taken by runner r, and a notification goes to it. */
  predicate ByRunner(l: Label, r: RunnerId) {
    && (l.LoopLabel? || l.TaskLabel? ==> l.runner == r)
    && (l.ApiLabel? && l.api.Notify? ==> l.api.runner == r)
  }

  /** A claim round starts with this job limit. */
  predicate Within(l: Label, maxJobs: int) {
    l.LoopLabel? && l.loop.BeginRound? ==> l.loop.maxJobs == maxJobs
  }

  // ---- The invariant, job by job ----------------------------------------------------------------

  /** Nobody waits for this job any more: it is gone, or its cancellation was requested. */
  predicate Waived(w: World, job: JobId) { job !in w.execs || w.execs[job].cancelRequested }

  predicate WaivedOrIn(w: World, job: JobId, statuses: set<Status>) {
    Waived(w, job) || w.execs[job].status in statuses
  }

  /** No accepted job is lost; cancellation and a missing spec only follow a cancel request. */
  ghost predicate RecordsOk(w: World, job: JobId) {
    job in w.execs ==>
      var e := w.execs[job];
      && job in w.mentioned
      && (Active(e.status) && !e.cancelRequested ==> job in w.specs)
      && (e.status == Cancelled || e.lastError == MissingSpec ==> e.cancelRequested)
  }

  ghost predicate TaskOk(w: World, job: JobId, run: Runner) {
    job in run.tasks ==>
      var t := run.tasks[job];
      && job in w.mentioned
      && (t.cancelSent && !run.stopping ==> Waived(w, job))
      && (run.pc.Flushing? ==> t.pc.Done?)
      && match t.pc
         case Starting => WaivedOrIn(w, job, {Running})
         case Working => WaivedOrIn(w, job, {Running})
         case NoSpec => Waived(w, job)
         case Recording(outcome) => if outcome == Interrupted then Waived(w, job) else WaivedOrIn(w, job, {Running})
         case Dropping => WaivedOrIn(w, job, {Completed, Failed})
         case _ => true
  }

  ghost predicate LoopOk(w: World, job: JobId, run: Runner) {
    && (run.pc.Checked? || run.pc.Leased? ==> run.pc.job == job ==>
          job in w.mentioned && job !in run.tasks && WaivedOrIn(w, job, {Queued, Running}))
    && (run.pc.Flushing? && job in run.pc.todo ==>
          && job in w.mentioned
          && (run.pc.todo[job] in {DropSpecNext, MarkCancelledNext} ==> Waived(w, job))
          && (run.pc.todo[job] == RequeueNext ==> WaivedOrIn(w, job, {Running})))
    && (run.pc.Abandoning? || run.pc.Stopped? || run.pc.Flushing? ==> run.stopping)
  }

  ghost predicate CallOk(w: World, c: CallId) {
    c in w.calls ==>
      var call := w.calls[c];
      && call.job in w.mentioned
      && match call
         case CancelDecided(job, previous) => (previous.Some? && Terminal(previous.value)) || Waived(w, job)
         case CancelDropSpec(job) => Waived(w, job)
         case CancelNotify(job) => Waived(w, job)
         case DeleteSpecNext(job) => WaivedOrIn(w, job, {Completed, Failed})
         case DeleteExecutionNext(job) => WaivedOrIn(w, job, {Completed, Failed})
         case DeleteLeaseNext(job) => true
  }

  ghost predicate JobOk(w: World, r: RunnerId, job: JobId) {
    RecordsOk(w, job) && TaskOk(w, job, RunnerOf(w, r)) && LoopOk(w, job, RunnerOf(w, r))
  }

  ghost predicate Inv(w: World, r: RunnerId) {
    (forall job :: JobOk(w, r, job)) && (forall c :: CallOk(w, c))
  }

  /** API steps that end a call or touch a runner, a spec or a lease. */
  lemma ApiEffectJob(w: World, r: RunnerId, s: ApiStep, j: JobId)
    requires Inv(w, r) && (s.Notify? ==> s.runner == r)
    requires s.Notify? || s.CancelDrop? || s.DeleteSpec? || s.DeleteExecution?
    ensures JobOk(Api(w, s), r, j)
  {
    assert JobOk(w, r, j);
    assert CallOk(w, s.call);
  }

  lemma ApiJob(w: World, r: RunnerId, s: ApiStep, j: JobId)
    requires Inv(w, r) && (s.Notify? ==> s.runner == r)
    ensures JobOk(Api(w, s), r, j)
  {
    assert JobOk(w, r, j);
    if s.Notify? || s.CancelDrop? || s.DeleteSpec? || s.DeleteExecution? { ApiEffectJob(w, r, s, j); }
  }

  /** Nothing the API does to the records makes anyone wait for a finished or waived job again. */
  lemma ApiKeepsWaived(w: World, s: ApiStep, job: JobId, statuses: set<Status>)
    requires job in w.mentioned && WaivedOrIn(w, job, statuses) && Queued !in statuses
    ensures job in Api(w, s).mentioned && WaivedOrIn(Api(w, s), job, statuses)
  {
  }

  /** The calls after a step: at most the step's own call is new or elsewhere. */
  lemma ApiOtherCall(w: World, s: ApiStep, c: CallId)
    requires s.Create? || s.call != c
    ensures c in Api(w, s).calls <==> c in w.calls
    ensures c in w.calls ==> Api(w, s).calls[c] == w.calls[c]
  {
    hide CancelRequested;
  }

  lemma ApiOwnCall(w: World, r: RunnerId, s: ApiStep)
    requires Inv(w, r) && !s.Create?
    ensures CallOk(Api(w, s), s.call)
  {
    hide TaskOk, LoopOk;
    assert CallOk(w, s.call);
    if s.CheckDelete? { assert JobOk(w, r, s.job); }
    if s.call in w.calls { assert JobOk(w, r, w.calls[s.call].job); }
  }

  lemma ApiCall(w: World, r: RunnerId, s: ApiStep, c: CallId)
    requires Inv(w, r)
    ensures CallOk(Api(w, s), c)
  {
    hide JobOk, Api, WaivedOrIn, Waived;
    assert CallOk(w, c);
    if !s.Create? && s.call == c {
      ApiOwnCall(w, r, s);
    } else {
      ApiOtherCall(w, s, c);
      if c in w.calls {
        var job := w.calls[c].job;
        WaivedIs(w, job);
        WaivedIs(Api(w, s), job);
        forall statuses | WaivedOrIn(w, job, statuses) && job in w.mentioned && Queued !in statuses
          ensures job in Api(w, s).mentioned && WaivedOrIn(Api(w, s), job, statuses)
        {
          ApiKeepsWaived(w, s, job, statuses);
        }
        ApiMentions(w, s, job);
      }
    }
  }

  lemma WaivedIs(w: World, job: JobId)
    ensures Waived(w, job) <==> WaivedOrIn(w, job, {})
  {
  }

  lemma ApiMentions(w: World, s: ApiStep, job: JobId)
    requires job in w.mentioned
    ensures job in Api(w, s).mentioned
  {
    hide CancelRequested;
  }

  lemma ApiInv(w: World, r: RunnerId, s: ApiStep)
    requires Inv(w, r) && (s.Notify? ==> s.runner == r)
    ensures Inv(Api(w, s), r)
  {
    hide JobOk, CallOk;
    var w' := Api(w, s);
    forall j ensures JobOk(w', r, j) { ApiJob(w, r, s, j); }
    forall c ensures CallOk(w', c) { ApiCall(w, r, s, c); }
  }

  /** Loop steps that change only the runner itself and lease holders. */
  lemma StopJob(w: World, r: RunnerId, j: JobId)
    requires Inv(w, r)
    ensures JobOk(Loop(w, r, Stop), r, j)
  {
    assert JobOk(w, r, j);
  }

  lemma BeginFlushJob(w: World, r: RunnerId, j: JobId)
    requires Inv(w, r)
    ensures JobOk(Loop(w, r, BeginFlush), r, j)
  {
    assert JobOk(w, r, j);
  }

  lemma RoundJob(w: World, r: RunnerId, s: LoopStep, j: JobId)
    requires Inv(w, r) && (s.BeginRound? || s.Check? || s.TakeLease? || s.EndRound?)
    ensures JobOk(Loop(w, r, s), r, j)
  {
    assert JobOk(w, r, j);
  }

  lemma BeatJob(w: World, r: RunnerId, s: LoopStep, j: JobId)
    requires Inv(w, r) && (s.Beat? || s.Prune? || s.Abandon? || s.Restart?)
    ensures JobOk(Loop(w, r, s), r, j)
  {
    assert JobOk(w, r, j);
  }

  lemma ControlJob(w: World, r: RunnerId, s: LoopStep, j: JobId)
    requires Inv(w, r) && !s.WriteRunning? && !s.Flush?
    ensures JobOk(Loop(w, r, s), r, j)
  {
    hide Inv, JobOk, Loop;
    if s.Stop? { StopJob(w, r, j); }
    else if s.BeginFlush? { BeginFlushJob(w, r, j); }
    else if s.Beat? || s.Prune? || s.Abandon? || s.Restart? { BeatJob(w, r, s, j); }
    else { RoundJob(w, r, s, j); }
  }

  lemma ControlCall(w: World, r: RunnerId, s: LoopStep, c: CallId)
    requires Inv(w, r) && !s.WriteRunning? && !s.Flush?
    ensures CallOk(Loop(w, r, s), c)
  {
    assert CallOk(w, c);
  }

  lemma ControlInv(w: World, r: RunnerId, s: LoopStep)
    requires Inv(w, r) && !s.WriteRunning? && !s.Flush?
    ensures Inv(Loop(w, r, s), r)
  {
    hide JobOk, CallOk;
    var w' := Loop(w, r, s);
    forall j ensures JobOk(w', r, j) { ControlJob(w, r, s, j); }
    forall c ensures CallOk(w', c) { ControlCall(w, r, s, c); }
  }

  lemma WriteRunningJob(w: World, r: RunnerId, j: JobId)
    requires Inv(w, r)
    ensures JobOk(Loop(w, r, WriteRunning), r, j)
  {
    assert JobOk(w, r, j);
  }

  lemma WriteRunningCall(w: World, r: RunnerId, c: CallId)
    requires Inv(w, r)
    ensures CallOk(Loop(w, r, WriteRunning), c)
  {
    assert CallOk(w, c);
    if c in w.calls { assert JobOk(w, r, w.calls[c].job); }
  }

  lemma WriteRunningInv(w: World, r: RunnerId)
    requires Inv(w, r)
    ensures Inv(Loop(w, r, WriteRunning), r)
  {
    hide JobOk, CallOk;
    var w' := Loop(w, r, WriteRunning);
    forall j ensures JobOk(w', r, j) { WriteRunningJob(w, r, j); }
    forall c ensures CallOk(w', c) { WriteRunningCall(w, r, c); }
  }

  lemma FlushOwnJob(w: World, r: RunnerId, job: JobId)
    requires Inv(w, r)
    ensures JobOk(Loop(w, r, Flush(job)), r, job)
  {
    assert JobOk(w, r, job);
  }

  lemma FlushOtherJob(w: World, r: RunnerId, job: JobId, j: JobId)
    requires Inv(w, r) && j != job
    ensures JobOk(Loop(w, r, Flush(job)), r, j)
  {
    assert JobOk(w, r, j);
  }

  lemma FlushJob(w: World, r: RunnerId, job: JobId, j: JobId)
    requires Inv(w, r)
    ensures JobOk(Loop(w, r, Flush(job)), r, j)
  {
    hide JobOk, Loop;
    if j == job { FlushOwnJob(w, r, job); } else { FlushOtherJob(w, r, job, j); }
  }

  lemma FlushCall(w: World, r: RunnerId, job: JobId, c: CallId)
    requires Inv(w, r)
    ensures CallOk(Loop(w, r, Flush(job)), c)
  {
    assert CallOk(w, c);
    if c in w.calls { assert JobOk(w, r, w.calls[c].job); }
  }

  lemma FlushInv(w: World, r: RunnerId, job: JobId)
    requires Inv(w, r)
    ensures Inv(Loop(w, r, Flush(job)), r)
  {
    hide JobOk, CallOk;
    var w' := Loop(w, r, Flush(job));
    forall j ensures JobOk(w', r, j) { FlushJob(w, r, job, j); }
    forall c ensures CallOk(w', c) { FlushCall(w, r, job, c); }
  }

  /** Nothing about job j differs between the two worlds. */
  ghost predicate Untouched(w: World, w': World, r: RunnerId, j: JobId) {
    var run, run' := RunnerOf(w, r), RunnerOf(w', r);
    && (j in w'.execs <==> j in w.execs) && (j in w.execs ==> w'.execs[j] == w.execs[j])
    && (j in w'.specs <==> j in w.specs) && w'.mentioned == w.mentioned
    && (j in run'.tasks <==> j in run.tasks) && (j in run.tasks ==> run'.tasks[j] == run.tasks[j])
    && run'.pc == run.pc && run'.stopping == run.stopping
  }

  lemma UntouchedOk(w: World, w': World, r: RunnerId, j: JobId)
    requires JobOk(w, r, j) && Untouched(w, w', r, j)
    ensures JobOk(w', r, j)
  {
  }

  lemma AdvancedUntouched(w: World, r: RunnerId, job: JobId, t: Task, j: JobId)
    requires j != job
    ensures Untouched(w, Advanced(w, r, job, t), r, j)
  {
    hide NextPc, LeaseReleased;
  }

  lemma TaskUntouched(w: World, r: RunnerId, job: JobId, s: TaskStep, j: JobId)
    requires j != job
    ensures Untouched(w, Work(w, r, job, s), r, j)
  {
    hide Advanced;
    if job in RunnerOf(w, r).tasks { AdvancedUntouched(w, r, job, RunnerOf(w, r).tasks[job], j); }
  }

  lemma TaskOtherJob(w: World, r: RunnerId, job: JobId, s: TaskStep, j: JobId)
    requires Inv(w, r) && j != job
    ensures JobOk(Work(w, r, job, s), r, j)
  {
    hide Work, Untouched, JobOk;
    TaskUntouched(w, r, job, s, j);
    UntouchedOk(w, Work(w, r, job, s), r, j);
  }

  lemma TaskOwnJob(w: World, r: RunnerId, job: JobId, s: TaskStep)
    requires Inv(w, r)
    ensures JobOk(Work(w, r, job, s), r, job)
  {
    assert JobOk(w, r, job);
  }

  lemma TaskJob(w: World, r: RunnerId, job: JobId, s: TaskStep, j: JobId)
    requires Inv(w, r)
    ensures JobOk(Work(w, r, job, s), r, j)
  {
    hide JobOk, Work;
    if j == job { TaskOwnJob(w, r, job, s); } else { TaskOtherJob(w, r, job, s, j); }
  }

  lemma TaskCall(w: World, r: RunnerId, job: JobId, s: TaskStep, c: CallId)
    requires Inv(w, r)
    ensures CallOk(Work(w, r, job, s), c)
  {
    assert CallOk(w, c);
    assert JobOk(w, r, job);
  }

  lemma TaskInv(w: World, r: RunnerId, job: JobId, s: TaskStep)
    requires Inv(w, r)
    ensures Inv(Work(w, r, job, s), r)
  {
    hide JobOk, CallOk;
    var w' := Work(w, r, job, s);
    forall j ensures JobOk(w', r, j) { TaskJob(w, r, job, s, j); }
    forall c ensures CallOk(w', c) { TaskCall(w, r, job, s, c); }
  }

  // ---- Whole runs with one runner -----------------------------------------------------------------

  lemma StepInv(w: World, r: RunnerId, l: Label)
    requires Inv(w, r) && ByRunner(l, r)
    ensures Inv(Step(w, l), r)
  {
    hide Inv, Api, Loop, Work;
    match l
    case ApiLabel(s) => ApiInv(w, r, s);
    case LoopLabel(_, s) =>
      if s.WriteRunning? { WriteRunningInv(w, r); }
      else if s.Flush? { FlushInv(w, r, s.job); }
      else { ControlInv(w, r, s); }
    case TaskLabel(_, job, s) => TaskInv(w, r, job, s);
  }

  ghost predicate OneRunner(ls: seq<Label>, r: RunnerId) { forall l | l in ls :: ByRunner(l, r) }

  lemma {:induction false} AlwaysInv(w: World, ls: seq<Label>, r: RunnerId)
    requires Inv(w, r) && OneRunner(ls, r)
    ensures Inv(Run(w, ls), r)
    decreases ls
  {
    hide Inv, Step;
    if ls != [] {
      assert ls[0] in ls;
      StepInv(w, r, ls[0]);
      AlwaysInv(Step(w, ls[0]), ls[1..], r);
    }
  }

  /** A queued or running execution nobody asked to cancel still has its spec, and only a cancel
      request leads to "cancelled" or to the "missing job spec" failure. */
  ghost predicate NothingLost(w: World) {
    forall job | job in w.execs ::
      && (Active(w.execs[job].status) && !w.execs[job].cancelRequested ==> job in w.specs)
      && (w.execs[job].status == Cancelled ==> w.execs[job].cancelRequested)
      && (w.execs[job].lastError == MissingSpec ==> w.execs[job].cancelRequested)
  }

  lemma InvLosesNothing(w: World, r: RunnerId)
    requires Inv(w, r)
    ensures NothingLost(w)
  {
    forall job | job in w.execs ensures RecordsOk(w, job) { assert JobOk(w, r, job); }
  }

  /** With one runner no accepted job is lost under any interleaving of API calls, job bodies,
      cancellations, shutdowns and restarts under the same owner id. */
  lemma NoAcceptedJobIsLost(ls: seq<Label>, r: RunnerId)
    requires OneRunner(ls, r)
    ensures NothingLost(Run(START, ls))
  {
    assert Inv(START, r);
    AlwaysInv(START, ls, r);
    InvLosesNothing(Run(START, ls), r);
  }

  // ---- One process after another ------------------------------------------------------------------

  /** A process with an owner id of its own, and the steps that it and the API take while it lives. */
  datatype Process = Process(owner: RunnerId, steps: seq<Label>)

  function RunAll(w: World, ps: seq<Process>): World
    decreases ps
  {
    if ps == [] then w else RunAll(Run(w, ps[0].steps), ps[1..])
  }

  /** A process that starts under an unused owner id takes over from one that is gone. */
  lemma TakeOver(w: World, r: RunnerId, r': RunnerId)
    requires Inv(w, r) && r' !in w.runners
    ensures Inv(w, r')
  {
    forall job ensures JobOk(w, r', job) { assert JobOk(w, r, job); }
  }

  lemma {:induction false} OthersStayUnused(w: World, ls: seq<Label>, r: RunnerId, r': RunnerId)
    requires OneRunner(ls, r) && r' != r && r' !in w.runners
    ensures r' !in Run(w, ls).runners
    decreases ls
  {
    if ls != [] {
      assert ls[0] in ls;
      OtherStaysUnused(w, ls[0], r, r');
      OthersStayUnused(Step(w, ls[0]), ls[1..], r, r');
    }
  }

  /** Runner r' is as it was. */
  ghost predicate SameRunner(w: World, w': World, r': RunnerId) {
    RunnerOf(w', r') == RunnerOf(w, r') && (r' in w'.runners <==> r' in w.runners)
  }

  lemma ApiSpares(w: World, s: ApiStep, r': RunnerId)
    requires s.Notify? ==> s.runner != r'
    ensures SameRunner(w, Api(w, s), r')
  {
    hide CancelRequested;
  }

  lemma LoopSpares(w: World, r: RunnerId, s: LoopStep, r': RunnerId)
    requires r != r'
    ensures SameRunner(w, Loop(w, r, s), r')
  {
    hide LeaseReleased, Updated, FlushPlan, FlushRest;
  }

  lemma WorkSpares(w: World, r: RunnerId, job: JobId, s: TaskStep, r': RunnerId)
    requires r != r'
    ensures SameRunner(w, Work(w, r, job, s), r')
  {
    hide Recorded, NextPc, LeaseReleased;
  }

  lemma OtherStaysUnused(w: World, l: Label, r: RunnerId, r': RunnerId)
    requires ByRunner(l, r) && r' != r && r' !in w.runners
    ensures r' !in Step(w, l).runners
  {
    hide Api, Loop, Work;
    match l
    case ApiLabel(s) => ApiSpares(w, s, r');
    case LoopLabel(_, s) => LoopSpares(w, r, s, r');
    case TaskLabel(_, job, s) => WorkSpares(w, r, job, s, r');
  }

  /** Every process has an owner id of its own and is the only runner while it lives. */
  ghost predicate OneAtATime(ps: seq<Process>) {
    && (forall p | p in ps :: OneRunner(p.steps, p.owner))
    && forall i, j | 0 <= i < j < |ps| :: ps[i].owner != ps[j].owner
  }

  lemma {:induction false} ProcessesKeepInv(w: World, ps: seq<Process>) returns (r: RunnerId)
    requires ps != [] && OneAtATime(ps) && Inv(w, ps[0].owner) && forall i | 0 < i < |ps| :: ps[i].owner !in w.runners
    ensures Inv(RunAll(w, ps), r)
    decreases ps
  {
    hide Inv;
    var p, rest := ps[0], ps[1..];
    assert p in ps && forall q | q in rest :: q in ps;
    var w' := Run(w, p.steps);
    AlwaysInv(w, p.steps, p.owner);
    if rest == [] {
      r := p.owner;
    } else {
      forall i | 0 < i < |ps| ensures ps[i].owner !in w'.runners {
        OthersStayUnused(w, p.steps, p.owner, ps[i].owner);
      }
      TakeOver(w', p.owner, ps[1].owner);
      r := ProcessesKeepInv(w', rest);
    }
  }

  /** Any number of processes, one alive at a time, each with its own owner id and stopping at any
      point: no accepted job is lost. */
  lemma NoJobIsLostAcrossProcesses(ps: seq<Process>)
    requires OneAtATime(ps)
    ensures NothingLost(RunAll(START, ps))
  {
    if ps != [] {
      assert Inv(START, ps[0].owner);
      var r := ProcessesKeepInv(START, ps);
      InvLosesNothing(RunAll(START, ps), r);
    }
  }

  // ---- Parallelism --------------------------------------------------------------------------------

  predicate InRound(pc: RunnerPc) { pc.Claiming? || pc.Checked? || pc.Leased? }

  /** Tracked tasks plus the slots the current claim round may still fill stay within the limit. */
  predicate RoomOk(run: Runner, maxJobs: int) {
    var tracked := |run.tasks.Keys|;
    && (tracked > 0 ==> tracked <= maxJobs)
    && (InRound(run.pc) ==> 0 <= run.pc.available && tracked + run.pc.available <= maxJobs)
    && (run.pc.Checked? || run.pc.Leased? ==> run.pc.available > 0)
  }

  lemma RoundRoom(w: World, r: RunnerId, maxJobs: int, s: LoopStep)
    requires RoomOk(RunnerOf(w, r), maxJobs) && (s.BeginRound? ==> s.maxJobs == maxJobs)
    requires s.BeginRound? || s.Check? || s.TakeLease? || s.EndRound?
    ensures RoomOk(RunnerOf(Loop(w, r, s), r), maxJobs)
  {
    assert |RunnerOf(w, r).tasks| == |RunnerOf(w, r).tasks.Keys|;
    assert RunnerOf(Loop(w, r, s), r).tasks == RunnerOf(w, r).tasks;
  }

  lemma ClaimRoom(w: World, r: RunnerId, maxJobs: int)
    requires RoomOk(RunnerOf(w, r), maxJobs)
    ensures RoomOk(RunnerOf(Loop(w, r, WriteRunning), r), maxJobs)
  {
    var run, run' := RunnerOf(w, r), RunnerOf(Loop(w, r, WriteRunning), r);
    if run.pc.Leased? {
      assert run'.tasks.Keys == run.tasks.Keys + {run.pc.job};
      assert |run.tasks.Keys + {run.pc.job}| <= |run.tasks.Keys| + 1;
    }
  }

  lemma TrackingShrinks(w: World, r: RunnerId, s: LoopStep)
    requires s.Beat? || s.Prune? || s.Stop? || s.Abandon? || s.BeginFlush? || s.Flush? || s.Restart?
    ensures RunnerOf(Loop(w, r, s), r).tasks.Keys <= RunnerOf(w, r).tasks.Keys
    ensures RunnerOf(Loop(w, r, s), r).pc == RunnerOf(w, r).pc || !InRound(RunnerOf(Loop(w, r, s), r).pc)
  {
    hide LeaseReleased, Updated, FlushPlan;
  }

  lemma LoopRoom(w: World, r: RunnerId, maxJobs: int, s: LoopStep)
    requires RoomOk(RunnerOf(w, r), maxJobs) && (s.BeginRound? ==> s.maxJobs == maxJobs)
    ensures RoomOk(RunnerOf(Loop(w, r, s), r), maxJobs)
  {
    hide Loop, RunnerOf;
    if s.WriteRunning? { ClaimRoom(w, r, maxJobs); }
    else if s.BeginRound? || s.Check? || s.TakeLease? || s.EndRound? { RoundRoom(w, r, maxJobs, s); }
    else {
      var keys, keys' := RunnerOf(w, r).tasks.Keys, RunnerOf(Loop(w, r, s), r).tasks.Keys;
      TrackingShrinks(w, r, s);
      assert keys == keys' + (keys - keys');
    }
  }

  lemma TaskStepTracks(w: World, r: RunnerId, job: JobId, s: TaskStep)
    ensures RunnerOf(Work(w, r, job, s), r).tasks.Keys == RunnerOf(w, r).tasks.Keys
    ensures RunnerOf(Work(w, r, job, s), r).pc == RunnerOf(w, r).pc
  {
    hide Recorded, NextPc, LeaseReleased;
  }

  lemma ApiStepTracks(w: World, r: RunnerId, s: ApiStep)
    ensures RunnerOf(Api(w, s), r).tasks.Keys == RunnerOf(w, r).tasks.Keys
    ensures RunnerOf(Api(w, s), r).pc == RunnerOf(w, r).pc
  {
    hide CancelRequested;
  }

  /** The job that is about to be claimed is not tracked. */
  predicate TrackOk(run: Runner) { run.pc.Checked? || run.pc.Leased? ==> run.pc.job !in run.tasks }

  lemma LoopTrack(w: World, r: RunnerId, s: LoopStep)
    requires TrackOk(RunnerOf(w, r))
    ensures TrackOk(RunnerOf(Loop(w, r, s), r))
  {
    hide LeaseReleased, Updated, FlushPlan, FlushRest;
  }

  /** The runner starts its own claim rounds with this job limit; others may have others. */
  predicate KeepsLimit(l: Label, r: RunnerId, maxJobs: int) { l.LoopLabel? && l.runner == r ==> Within(l, maxJobs) }

  lemma StepRoom(w: World, r: RunnerId, maxJobs: int, l: Label)
    requires RoomOk(RunnerOf(w, r), maxJobs) && TrackOk(RunnerOf(w, r)) && KeepsLimit(l, r, maxJobs)
    ensures RoomOk(RunnerOf(Step(w, l), r), maxJobs) && TrackOk(RunnerOf(Step(w, l), r))
  {
    hide Api, Work, Loop, RunnerOf;
    match l
    case ApiLabel(s) => ApiStepTracks(w, r, s);
    case LoopLabel(r', s) =>
      if r' == r {
        LoopRoom(w, r, maxJobs, s);
        LoopTrack(w, r, s);
      } else {
        LoopSpares(w, r', s, r);
      }
    case TaskLabel(r', job, s) =>
      if r' == r { TaskStepTracks(w, r, job, s); } else { WorkSpares(w, r', job, s, r); }
  }

  /** Whatever other runners and API calls do, a runner never tracks more jobs than its limit, and a
      claim only ever starts a job that it does not track. */
  lemma {:induction false} ParallelismIsBounded(w: World, ls: seq<Label>, r: RunnerId, maxJobs: int)
    requires RoomOk(RunnerOf(w, r), maxJobs) && TrackOk(RunnerOf(w, r)) &&
               forall l | l in ls :: KeepsLimit(l, r, maxJobs)
    ensures var run := RunnerOf(Run(w, ls), r);
            && (run.tasks.Keys != {} ==> |run.tasks.Keys| <= maxJobs)
            && (run.pc.Leased? ==> run.pc.job !in run.tasks && |run.tasks.Keys| < maxJobs)
    decreases ls
  {
    hide RunnerOf, Step, KeepsLimit;
    if ls != [] {
      hide RoomOk, TrackOk;
      assert ls[0] in ls;
      StepRoom(w, r, maxJobs, ls[0]);
      ParallelismIsBounded(Step(w, ls[0]), ls[1..], r, maxJobs);
    }
  }

  lemma ParallelismFromStart(ls: seq<Label>, r: RunnerId, maxJobs: int)
    requires forall l | l in ls :: KeepsLimit(l, r, maxJobs)
    ensures var run := RunnerOf(Run(START, ls), r);
            && (run.tasks.Keys != {} ==> |run.tasks.Keys| <= maxJobs)
            && (run.pc.Leased? ==> run.pc.job !in run.tasks && |run.tasks.Keys| < maxJobs)
  {
    assert RoomOk(RunnerOf(START, r), maxJobs);
    ParallelismIsBounded(START, ls, r, maxJobs);
  }

  // ---- Runs ---------------------------------------------------------------------------------------

  lemma RunStep(w: World, l: Label, rest: seq<Label>)
    ensures Run(w, [l] + rest) == Run(Step(w, l), rest)
  {
    assert ([l] + rest)[1..] == rest;
  }

  lemma RunFrom(w: World, ls: seq<Label>, i: nat)
    requires i < |ls|
    ensures Run(w, ls[i..]) == Run(Step(w, ls[i]), ls[i + 1..])
  {
    assert ls[i..][1..] == ls[i + 1..];
  }

  lemma {:induction false} RunConcat(w: World, a: seq<Label>, b: seq<Label>)
    ensures Run(w, a + b) == Run(Run(w, a), b)
    decreases a
  {
    if a == [] {
      assert a + b == b;
    } else {
      assert (a + b)[1..] == a[1..] + b;
      RunConcat(Step(w, a[0]), a[1..], b);
    }
  }

  lemma RunEnd(w: World)
    ensures Run(w, []) == w
  {
  }
}
