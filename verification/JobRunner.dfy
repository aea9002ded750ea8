/** The runner as an object: what its methods do when nothing interleaves, and that each of them is
    a run of the interleaved protocol, whose invariant it therefore keeps. */
module JobRunner {
  import opened KeyOrder
  import opened JobRecords
  import P = JobProtocol
  import opened JobPriority
  import S = JobShutdown

  // ---- Claims -----------------------------------------------------------------------------------

  function ClaimOne(w: P.World, r: RunnerId, job: JobId): P.World {
    var run := P.RunnerOf(w, r);
    P.WithRunner(w, r, run.(tasks := run.tasks[job := P.Task(P.Starting, false)]))
    .(execs := Updated(w.execs, job, Running, Some(r)), holders := w.holders[job := r])
  }

  /** The world after claiming these jobs one by one. */
  function Claimed(w: P.World, r: RunnerId, jobs: seq<JobId>): P.World {
    if jobs == [] then w else ClaimOne(Claimed(w, r, jobs[..|jobs| - 1]), r, jobs[|jobs| - 1])
  }

  /** Claims touch only the claimed jobs: those run under the claimer, which holds their leases and
      tracks them; everything else is as before. */
  lemma {:induction false} ClaimedIs(w: P.World, r: RunnerId, jobs: seq<JobId>)
    requires forall j | j in jobs :: j in w.execs
    ensures var w' := Claimed(w, r, jobs);
            && w'.execs.Keys == w.execs.Keys && w'.specs == w.specs
            && P.RunnerOf(w', r).pc == P.RunnerOf(w, r).pc && P.RunnerOf(w', r).stopping == P.RunnerOf(w, r).stopping
            && P.RunnerOf(w', r).tasks.Keys == P.RunnerOf(w, r).tasks.Keys + (set j | j in jobs)
            && (forall j | j in P.RunnerOf(w, r).tasks && j !in jobs ::
                  P.RunnerOf(w', r).tasks[j] == P.RunnerOf(w, r).tasks[j])
            && (forall j | j in jobs ::
                  && w'.execs[j] == w.execs[j].(status := Running, owner := Some(r))
                  && j in w'.holders && w'.holders[j] == r)
            && (forall j | j in w.execs && j !in jobs :: w'.execs[j] == w.execs[j])
            && (forall j | j !in jobs ::
                  && (j in w'.holders <==> j in w.holders)
                  && (j in w.holders ==> w'.holders[j] == w.holders[j]))
  {
    if jobs != [] {
      var n := |jobs| - 1;
      assert jobs == jobs[..n] + [jobs[n]];
      ClaimedIs(w, r, jobs[..n]);
    }
  }

  // ---- Methods as runs of the protocol ----------------------------------------------------------

  /** A step of this runner itself, with its job limit. */
  predicate OwnStep(l: P.Label, r: RunnerId, maxJobs: int) { !l.ApiLabel? && P.ByRunner(l, r) && P.Within(l, maxJobs) }

  ghost predicate OwnSteps(ls: seq<P.Label>, r: RunnerId, maxJobs: int) { forall l | l in ls :: OwnStep(l, r, maxJobs) }

  /** Some run of this runner's own steps leads from one world to the other. */
  ghost predicate Leads(w: P.World, w': P.World, r: RunnerId, maxJobs: int) {
    exists ls: seq<P.Label> :: P.Run(w, ls) == w' && OwnSteps(ls, r, maxJobs)
  }

  lemma LeadsNowhere(w: P.World, r: RunnerId, maxJobs: int)
    ensures Leads(w, w, r, maxJobs)
  {
    P.RunEnd(w);
    assert OwnSteps([], r, maxJobs);
  }

  lemma LeadsStep(w: P.World, w': P.World, r: RunnerId, maxJobs: int, l: P.Label)
    requires Leads(w, w', r, maxJobs) && OwnStep(l, r, maxJobs)
    ensures Leads(w, P.Step(w', l), r, maxJobs)
  {
    hide P.Step, P.Run, OwnStep;
    var ls: seq<P.Label> :| P.Run(w, ls) == w' && OwnSteps(ls, r, maxJobs);
    P.RunConcat(w, ls, [l]);
    P.RunStep(w', l, []);
    assert [l] + [] == [l];
    P.RunEnd(P.Step(w', l));
    assert OwnSteps(ls + [l], r, maxJobs);
  }

  lemma LeadsRun(w: P.World, w': P.World, r: RunnerId, maxJobs: int, more: seq<P.Label>)
    requires Leads(w, w', r, maxJobs) && OwnSteps(more, r, maxJobs)
    ensures Leads(w, P.Run(w', more), r, maxJobs)
  {
    hide P.Run, OwnStep;
    var ls: seq<P.Label> :| P.Run(w, ls) == w' && OwnSteps(ls, r, maxJobs);
    P.RunConcat(w, ls, more);
    assert OwnSteps(ls + more, r, maxJobs);
  }

  /** Such a run keeps the invariant of the protocol. */
  lemma LeadsKeepsInv(w: P.World, w': P.World, r: RunnerId, maxJobs: int)
    requires Leads(w, w', r, maxJobs) && P.Inv(w, r)
    ensures P.Inv(w', r)
  {
    hide P.Inv;
    var ls: seq<P.Label> :| P.Run(w, ls) == w' && OwnSteps(ls, r, maxJobs);
    assert P.OneRunner(ls, r) by { assert forall l | l in ls :: OwnStep(l, r, maxJobs); }
    P.AlwaysInv(w, ls, r);
  }

  lemma ClaimLeads(w0: P.World, w: P.World, r: RunnerId, maxJobs: int, expired: Expired, job: JobId)
    requires Leads(w0, w, r, maxJobs) && P.RunnerOf(w, r).pc.Claiming? && P.RunnerOf(w, r).pc.available > 0
    requires P.Claimable(w, r, job) && Free(w, r, expired, job)
    ensures Leads(w0, P.WithPc(ClaimOne(w, r, job), r, P.Claiming(P.RunnerOf(w, r).pc.available - 1)), r, maxJobs)
  {
    var n := P.RunnerOf(w, r).pc.available;
    var w1, w2 := P.WithPc(w, r, P.Checked(n, job)), P.WithPc(w, r, P.Leased(n, job)).(holders := w.holders[job := r]);
    var w3 := P.WithPc(ClaimOne(w, r, job), r, P.Claiming(n - 1));
    CheckStep(w, r, job);
    TakeLeaseStep(w, r, expired, job);
    WriteRunningStep(w, r, job);
    hide P.Step, Leads, ClaimOne;
    LeadsStep(w0, w, r, maxJobs, P.LoopLabel(r, P.Check(job)));
    LeadsStep(w0, w1, r, maxJobs, P.LoopLabel(r, P.TakeLease(expired(job))));
    LeadsStep(w0, w2, r, maxJobs, P.LoopLabel(r, P.WriteRunning));
  }

  lemma CheckStep(w: P.World, r: RunnerId, job: JobId)
    requires P.RunnerOf(w, r).pc.Claiming? && P.RunnerOf(w, r).pc.available > 0 && P.Claimable(w, r, job)
    ensures P.Step(w, P.LoopLabel(r, P.Check(job))) == P.WithPc(w, r, P.Checked(P.RunnerOf(w, r).pc.available, job))
  {
  }

  lemma TakeLeaseStep(w: P.World, r: RunnerId, expired: Expired, job: JobId)
    requires P.RunnerOf(w, r).pc.Claiming? && Free(w, r, expired, job)
    ensures var n := P.RunnerOf(w, r).pc.available;
            P.Step(P.WithPc(w, r, P.Checked(n, job)), P.LoopLabel(r, P.TakeLease(expired(job)))) ==
              P.WithPc(w, r, P.Leased(n, job)).(holders := w.holders[job := r])
  {
    var w1 := P.WithPc(w, r, P.Checked(P.RunnerOf(w, r).pc.available, job));
    assert P.RunnerOf(w1, r).pc.Checked?;
  }

  lemma WriteRunningStep(w: P.World, r: RunnerId, job: JobId)
    requires P.RunnerOf(w, r).pc.Claiming?
    ensures var n := P.RunnerOf(w, r).pc.available;
            P.Step(P.WithPc(w, r, P.Leased(n, job)).(holders := w.holders[job := r]), P.LoopLabel(r, P.WriteRunning)) ==
              P.WithPc(ClaimOne(w, r, job), r, P.Claiming(n - 1))
  {
    var w2 := P.WithPc(w, r, P.Leased(P.RunnerOf(w, r).pc.available, job)).(holders := w.holders[job := r]);
    assert P.RunnerOf(w2, r).pc.Leased?;
  }

  class JobRunnerService {
    const owner: RunnerId
    const maxJobs: int
    const store: JobStore
    var tasks: map<JobId, P.Task>
    var stopping: bool

    constructor (owner: RunnerId, maxJobs: int, store: JobStore)
      ensures this.owner == owner && this.maxJobs == maxJobs && this.store == store && tasks == map[] && !stopping
    {
      this.owner, this.maxJobs, this.store, tasks, stopping := owner, maxJobs, store, map[], false;
    }

    /** The runner as part of the interleaved protocol; no API call is in flight. */
    ghost function State(pc: P.RunnerPc, mentioned: set<JobId>): P.World
      reads this, store
    {
      P.World(store.executions, store.specs, store.holders,
              map[owner := P.Runner(pc, tasks, stopping)], map[], mentioned)
    }

    /** Lease claim of one job; the lease record is the holder. */
    method ClaimJob(job: JobId, expired: Expired) returns (claimed: bool)
      requires job in store.executions
      modifies this`tasks, store`executions, store`holders
      ensures claimed == (job in old(store.holders) && old(store.holders)[job] != owner ==> expired(job))
      ensures !claimed ==>
                && tasks == old(tasks) && store.executions == old(store.executions)
                && store.holders == old(store.holders)
      ensures claimed ==> tasks == old(tasks)[job := P.Task(P.Starting, false)]
      ensures claimed ==> store.executions == Updated(old(store.executions), job, Running, Some(owner))
      ensures claimed ==> store.holders == old(store.holders)[job := owner]
    {
      if job in store.holders && store.holders[job] != owner && !expired(job) { return false; }
      store.holders := store.holders[job := owner];
      store.UpdateExecution(job, Running, Some(owner));
      tasks := tasks[job := P.Task(P.Starting, false)];
      claimed := true;
    }

    /** One claim round over the listed executions: it takes the eligible jobs of highest priority, as
        many as fit, and is a run of the protocol, so it keeps its invariant. */
    method ClaimPending(listed: seq<JobId>, times: Times, expired: Expired, ghost mentioned: set<JobId>)
      returns (claimed: seq<JobId>)
      modifies this`tasks, store`executions, store`holders
      ensures var w := old(State(P.Idle, mentioned));
              var room := maxJobs - |old(tasks)|;
              && TakesBest(w, owner, times, expired, listed, claimed, Room(room))
              && State(P.Idle, mentioned) == Claimed(w, owner, claimed)
              && Leads(w, State(P.Idle, mentioned), owner, maxJobs)
    {
      hide Leads, Eligible, Claimed, ByPriority, TakesBest;
      ghost var w := State(P.Idle, mentioned);
      var candidates := ListCandidates(listed, mentioned);
      var ordered := ByPriority(store.executions, times, candidates);
      claimed := ClaimCandidates(ordered, expired, mentioned);
      FirstAreBest(w, owner, times, expired, listed, maxJobs - |w.runners[owner].tasks|);
    }

    method ListCandidates(listed: seq<JobId>, ghost mentioned: set<JobId>) returns (candidates: seq<JobId>)
      ensures candidates == Candidates(State(P.Idle, mentioned), owner, listed)
    {
      candidates := [];
      for i := 0 to |listed|
        invariant candidates == Candidates(State(P.Idle, mentioned), owner, listed[..i])
      {
        var job := listed[i];
        assert listed[..i + 1][..i] == listed[..i];
        if job !in store.executions || job in tasks { continue; }
        var execution := store.executions[job];
        if !execution.cancelRequested && Active(execution.status) {
          candidates := candidates + [job];
        }
      }
      assert listed[..|listed|] == listed;
    }

    /** The loop over the sorted candidates takes exactly the first eligible ones that fit. */
    method ClaimCandidates(candidates: seq<JobId>, expired: Expired, ghost mentioned: set<JobId>)
      returns (claimed: seq<JobId>)
      modifies this`tasks, store`executions, store`holders
      ensures var w := old(State(P.Idle, mentioned));
              var room := maxJobs - |old(tasks)|;
              var eligible := Eligible(w, owner, expired, candidates);
              && claimed == FirstOf(eligible, room)
              && State(P.Idle, mentioned) == Claimed(w, owner, claimed)
              && Leads(w, State(P.Idle, mentioned), owner, maxJobs)
    {
      hide P.Step, P.Run, Leads, Updated, Eligible, Claimed, P.WithPc;
      ghost var w := State(P.Idle, mentioned);
      claimed := [];
      var available := maxJobs - |tasks|;
      LeadsNowhere(w, owner, maxJobs);
      NothingClaimed(w, owner, expired);
      if available <= 0 { return; }
      BeginLeads(w, owner, maxJobs);
      assert candidates[..0] == [];
      var i := 0;
      while i < |candidates| && available > 0
        invariant 0 <= i <= |candidates| && available >= 0 && |claimed| + available == maxJobs - |old(tasks)|
        invariant claimed == Eligible(w, owner, expired, candidates[..i])
        invariant State(P.Idle, mentioned) == Claimed(w, owner, claimed)
        invariant Leads(w, P.WithPc(State(P.Idle, mentioned), owner, P.Claiming(available)), owner, maxJobs)
      {
        var job := candidates[i];
        RoundStep(w, State(P.Idle, mentioned), owner, maxJobs, expired, candidates, i, available);
        i := i + 1;
        if || job !in store.executions || job in tasks
           || store.executions[job].cancelRequested || !Active(store.executions[job].status)
        {
          continue;
        }
        var ok := ClaimJob(job, expired);
        if ok {
          available := available - 1;
          claimed := claimed + [job];
        }
      }
      EligiblePrefix(w, owner, expired, candidates, i);
      assert i == |candidates| ==> candidates[..i] == candidates;
      EndLeads(w, State(P.Idle, mentioned), owner, maxJobs, available);
    }

    /** Drops finished jobs, passes cancel requests on to the others and extends exactly their leases. */
    method HeartbeatAndPrune(ghost mentioned: set<JobId>) returns (extended: set<JobId>)
      modifies this`tasks
      ensures extended == set j | j in old(tasks) && !old(tasks)[j].pc.Done?
      ensures forall j :: j in tasks <==> j in old(tasks) && !old(tasks)[j].pc.Done?
      ensures forall j | j in tasks ::
                var cancelled := j in store.executions && store.executions[j].cancelRequested;
                tasks[j] == P.Task(old(tasks)[j].pc, old(tasks)[j].cancelSent || cancelled)
      ensures Leads(old(State(P.Idle, mentioned)), State(P.Idle, mentioned), owner, maxJobs)
    {
      hide Leads, Directed, Ordered, Along, Beaten, P.Step;
      ghost var w, tracked := State(P.Idle, mentioned), tasks;
      var listed := Directed(tasks.Keys, false);
      ghost var done: set<JobId> := {};
      LeadsNowhere(w, owner, maxJobs);
      NoneBeaten(tasks, store.executions);
      extended := {};
      for i := 0 to |listed|
        invariant forall j :: j in done <==> j in listed[..i]
        invariant tasks == Beaten(tracked, store.executions, done)
        invariant extended == set j | j in done && j in tracked && !tracked[j].pc.Done?
        invariant Leads(w, State(P.Idle, mentioned), owner, maxJobs)
      {
        var job := listed[i];
        assert job in listed;
        assert listed[..i + 1] == listed[..i] + [job];
        NotYetListed(listed, i);
        OneMoreBeaten(tracked, store.executions, done, job);
        ghost var before := State(P.Idle, mentioned);
        done := done + {job};
        if tasks[job].pc.Done? {
          tasks := tasks - {job};
          PruneIs(before, owner, job);
          LeadsStep(w, before, owner, maxJobs, P.LoopLabel(owner, P.Prune(job)));
        } else {
          extended := extended + {job};
          if job in store.executions && store.executions[job].cancelRequested {
            tasks := tasks[job := tasks[job].(cancelSent := true)];
            BeatIs(before, owner, job);
            LeadsStep(w, before, owner, maxJobs, P.LoopLabel(owner, P.Beat(job)));
          }
        }
      }
      assert listed[..|listed|] == listed && done == tracked.Keys;
      AllBeaten(tracked, store.executions);
    }

    /** One job body from start to end when nobody interrupts it; ok tells whether generation
        succeeded. The spec is gone and the lease free before the body ends. */
    method RunJob(job: JobId, ok: bool, ghost mentioned: set<JobId>)
      requires job in tasks && tasks[job] == P.Task(P.Starting, false)
      modifies this`tasks, store
      ensures tasks == old(tasks)[job := P.Task(P.Done, false)]
      ensures store.specs == old(store.specs) - {job}
      ensures store.holders ==
                if job in old(store.holders) && old(store.holders)[job] == owner then old(store.holders) - {job}
                else old(store.holders)
      ensures var execs := old(store.executions);
              var status := if ok && job in old(store.specs) then Completed else Failed;
              var error := if job !in old(store.specs) then MissingSpec else if ok then NoError else Crashed;
              store.executions ==
                if job in execs then execs[job := Execution(status, execs[job].cancelRequested, None, error)] else execs
      ensures Leads(old(State(P.Idle, mentioned)), State(P.Idle, mentioned), owner, maxJobs)
    {
      hide Leads, Updated, WithError, LeaseReleased;
      ghost var w := State(P.Idle, mentioned);
      LeadsNowhere(w, owner, maxJobs);
      FinishedIs(store.executions, job, Failed, MissingSpec);
      FinishedIs(store.executions, job, if ok then Completed else Failed, if ok then NoError else Crashed);
      ReleasedIs(store.holders, job, owner);
      var found := LoadSpec(job, w, mentioned);
      if found {
        RunFound(job, ok, w, mentioned);
      } else {
        RecordOutcome(job, Failed, MissingSpec, w, mentioned);
      }
      Finishes(job, w, mentioned);
    }

    /** The body with its spec, up to the release of the lease. */
    method RunFound(job: JobId, ok: bool, ghost w: P.World, ghost mentioned: set<JobId>)
      requires job in tasks && tasks[job].pc.Working? && Leads(w, State(P.Idle, mentioned), owner, maxJobs)
      modifies this`tasks, store`executions, store`specs
      ensures tasks == old(tasks)[job := P.Task(P.Releasing, old(tasks)[job].cancelSent)]
      ensures store.specs == old(store.specs) - {job}
      ensures store.executions ==
                if ok then WithError(Updated(old(store.executions), job, Completed, None), job, NoError)
                else WithError(Updated(old(store.executions), job, Failed, None), job, Crashed)
      ensures Leads(w, State(P.Idle, mentioned), owner, maxJobs)
    {
      hide Leads, Updated, WithError;
      Generate(job, ok, w, mentioned);
      RecordOutcome(job, if ok then Completed else Failed, if ok then NoError else Crashed, w, mentioned);
      DropSpec(job, w, mentioned);
    }

    /** The body looks for its spec. */
    method LoadSpec(job: JobId, ghost w: P.World, ghost mentioned: set<JobId>) returns (found: bool)
      requires job in tasks && tasks[job].pc.Starting? && Leads(w, State(P.Idle, mentioned), owner, maxJobs)
      modifies this`tasks
      ensures found == (job in store.specs)
      ensures tasks == old(tasks)[job := P.Task(if found then P.Working else P.NoSpec, old(tasks)[job].cancelSent)]
      ensures Leads(w, State(P.Idle, mentioned), owner, maxJobs)
    {
      hide Leads, P.Step;
      ghost var before := State(P.Idle, mentioned);
      AdvanceIs(before, owner, job);
      found := job in store.specs;
      Moves(if found then P.Working else P.NoSpec, job);
      LeadsStep(w, before, owner, maxJobs, P.TaskLabel(owner, job, P.Advance));
    }

    method Generate(job: JobId, ok: bool, ghost w: P.World, ghost mentioned: set<JobId>)
      requires job in tasks && tasks[job].pc.Working? && Leads(w, State(P.Idle, mentioned), owner, maxJobs)
      modifies this`tasks
      ensures tasks ==
                old(tasks)[job := P.Task(P.Recording(if ok then P.Success else P.Failure), old(tasks)[job].cancelSent)]
      ensures Leads(w, State(P.Idle, mentioned), owner, maxJobs)
    {
      hide Leads, P.Step;
      ghost var before := State(P.Idle, mentioned);
      FinishIs(before, owner, job, ok);
      Moves(P.Recording(if ok then P.Success else P.Failure), job);
      LeadsStep(w, before, owner, maxJobs, P.TaskLabel(owner, job, P.Finish(ok)));
    }

    /** The body writes its final status. */
    method RecordOutcome(job: JobId, status: Status, error: JobError, ghost w: P.World, ghost mentioned: set<JobId>)
      requires job in tasks && Leads(w, State(P.Idle, mentioned), owner, maxJobs)
      requires match tasks[job].pc
               case NoSpec => status == Failed && error == MissingSpec
               case Recording(Success) => status == Completed && error == NoError
               case Recording(Failure) => status == Failed && error == Crashed
               case _ => false
      modifies this`tasks, store`executions
      ensures tasks == old(tasks)[job := P.Task(if error == MissingSpec then P.NoSpecRelease else P.Dropping,
                                                old(tasks)[job].cancelSent)]
      ensures store.executions == WithError(Updated(old(store.executions), job, status, None), job, error)
      ensures Leads(w, State(P.Idle, mentioned), owner, maxJobs)
    {
      hide Leads, P.Step, Updated, WithError;
      ghost var before := State(P.Idle, mentioned);
      AdvanceIs(before, owner, job);
      store.FinishExecution(job, status, error);
      Moves(if error == MissingSpec then P.NoSpecRelease else P.Dropping, job);
      LeadsStep(w, before, owner, maxJobs, P.TaskLabel(owner, job, P.Advance));
    }

    method DropSpec(job: JobId, ghost w: P.World, ghost mentioned: set<JobId>)
      requires job in tasks && tasks[job].pc.Dropping? && Leads(w, State(P.Idle, mentioned), owner, maxJobs)
      modifies this`tasks, store`specs
      ensures tasks == old(tasks)[job := P.Task(P.Releasing, old(tasks)[job].cancelSent)]
      ensures store.specs == old(store.specs) - {job}
      ensures Leads(w, State(P.Idle, mentioned), owner, maxJobs)
    {
      hide Leads, P.Step;
      ghost var before := State(P.Idle, mentioned);
      AdvanceIs(before, owner, job);
      store.DeleteSpec(job);
      Moves(P.Releasing, job);
      LeadsStep(w, before, owner, maxJobs, P.TaskLabel(owner, job, P.Advance));
    }

    /** Shutdown with the loop and the job bodies at any point: an unfinished claim gives its lease back,
        each body is cancelled at its current await and runs to its end, then the plan is worked off. It is
        a run of the protocol, and every job that was running under this owner is queued with its spec
        untouched, or cancelled without it, with its lease free. */
    method Destroy(pc: P.RunnerPc, ghost mentioned: set<JobId>)
      requires !stopping && (pc.Idle? || P.InRound(pc))
      modifies this`tasks, this`stopping, store
      ensures stopping && tasks.Keys == old(tasks).Keys && forall j | j in tasks :: tasks[j].pc.Done?
      ensures Leads(old(State(pc, mentioned)), State(P.Flushing(map[]), mentioned), owner, maxJobs)
      ensures GivenBack(old(State(pc, mentioned)), State(P.Flushing(map[]), mentioned), owner)
    {
      hide Leads, Interrupted, GivenBack, LeaseReleased, Stopped, ExecutionsAfter, SpecsAfter, HoldersAfter, OwnedJobs;
      ghost var w := State(pc, mentioned);
      StoppingIs(w, owner);
      CancelTasks(pc, mentioned);
      ghost var w1 := State(P.Stopped, mentioned);
      AwaitTasks(w, mentioned);
      ghost var w2 := State(P.Stopped, mentioned);
      AllInterrupted(w1, owner);
      store.ReleaseOwnedWork(owner);
      ShutdownLeads(w, w2, owner, maxJobs);
      FlushedIs(w2, owner, State(P.Flushing(map[]), mentioned));
      GivenBackIs(w, w1, owner);
    }

    /** Cancels the loop, which releases the lease of an unfinished claim, and all job bodies. */
    method CancelTasks(pc: P.RunnerPc, ghost mentioned: set<JobId>)
      requires !stopping && (pc.Idle? || P.InRound(pc))
      modifies this`tasks, this`stopping, store`holders
      ensures stopping && tasks.Keys == old(tasks).Keys
      ensures State(P.Stopped, mentioned) == Stopped(old(State(pc, mentioned)), owner)
      ensures Leads(old(State(pc, mentioned)), State(P.Stopped, mentioned), owner, maxJobs)
    {
      hide Leads, LeaseReleased;
      ghost var w := State(pc, mentioned);
      stopping := true;
      if pc.Leased? { store.ReleaseLease(pc.job, owner); }
      tasks := map j | j in tasks :: tasks[j].(cancelSent := true);
      StoppedIs(w, owner, State(P.Stopped, mentioned));
      StopLeads(w, owner, maxJobs);
    }

    /** Every cancelled body runs to its end. */
    method AwaitTasks(ghost w: P.World, ghost mentioned: set<JobId>)
      requires Stopping(State(P.Stopped, mentioned), owner) && Leads(w, State(P.Stopped, mentioned), owner, maxJobs)
      modifies this`tasks, store`holders
      ensures tasks.Keys == old(tasks).Keys && forall j | j in tasks :: tasks[j].pc.Done?
      ensures State(P.Stopped, mentioned) == Interrupted(old(State(P.Stopped, mentioned)), owner, old(tasks).Keys)
      ensures Leads(w, State(P.Stopped, mentioned), owner, maxJobs)
    {
      hide Leads, Directed, Ordered, Along, Interrupted, Stopping, LeaseReleased, InTry;
      ghost var w1 := State(P.Stopped, mentioned);
      NoneInterrupted(w1, owner);
      var listed := Directed(tasks.Keys, false);
      ghost var done: set<JobId> := {};
      for i := 0 to |listed|
        invariant forall j :: j in done <==> j in listed[..i]
        invariant tasks.Keys == old(tasks).Keys && forall j | j in done :: j in tasks && tasks[j].pc.Done?
        invariant State(P.Stopped, mentioned) == Interrupted(w1, owner, done)
        invariant Leads(w, State(P.Stopped, mentioned), owner, maxJobs)
      {
        var job := listed[i];
        assert job in listed;
        assert listed[..i + 1] == listed[..i] + [job];
        NotYetListed(listed, i);
        OneMoreInterrupted(w, w1, owner, maxJobs, done, job);
        done := done + {job};
        InterruptBody(job);
      }
      assert listed[..|listed|] == listed && done == old(tasks).Keys;
    }

    /** The end of a cancelled job body: past its try block it ends at once, inside it the lease is
        released first. */
    method InterruptBody(job: JobId)
      requires job in tasks
      modifies this`tasks, store`holders
      ensures tasks == old(tasks)[job := P.Task(P.Done, old(tasks)[job].cancelSent)]
      ensures store.holders ==
                if InTry(old(tasks)[job].pc) then LeaseReleased(old(store.holders), job, owner) else old(store.holders)
    {
      if InTry(tasks[job].pc) { store.ReleaseLease(job, owner); }
      Moves(P.Done, job);
    }

    /** The body has reached this point. */
    method Moves(pc: P.TaskPc, job: JobId)
      requires job in tasks
      modifies this`tasks
      ensures tasks == old(tasks)[job := P.Task(pc, old(tasks)[job].cancelSent)]
    {
      tasks := tasks[job := tasks[job].(pc := pc)];
    }

    /** The last statement of a job body releases the lease. */
    method Finishes(job: JobId, ghost w: P.World, ghost mentioned: set<JobId>)
      requires job in tasks && (tasks[job].pc.Releasing? || tasks[job].pc.NoSpecRelease?)
      requires Leads(w, State(P.Idle, mentioned), owner, maxJobs)
      modifies this`tasks, store`holders
      ensures tasks == old(tasks)[job := P.Task(P.Done, old(tasks)[job].cancelSent)]
      ensures store.holders == LeaseReleased(old(store.holders), job, owner)
      ensures Leads(w, State(P.Idle, mentioned), owner, maxJobs)
    {
      hide Leads, P.Step, LeaseReleased;
      ghost var before := State(P.Idle, mentioned);
      AdvanceIs(before, owner, job);
      store.ReleaseLease(job, owner);
      Moves(P.Done, job);
      LeadsStep(w, before, owner, maxJobs, P.TaskLabel(owner, job, P.Advance));
    }
  }

  // ---- Shutdown ---------------------------------------------------------------------------------

  /** The runner after stop is set, its loop has ended and its jobs are cancelled. */
  function Stopped(w: P.World, r: RunnerId): P.World {
    var run := P.RunnerOf(w, r);
    P.WithRunner(w, r, P.Runner(P.Stopped, map j | j in run.tasks :: run.tasks[j].(cancelSent := true), true))
    .(holders := if run.pc.Leased? then LeaseReleased(w.holders, run.pc.job, r) else w.holders)
  }

  lemma StoppedIs(w: P.World, r: RunnerId, w': P.World)
    requires w.runners.Keys == {r}
    requires var run := w.runners[r];
             w' == w.(runners := map[r := P.Runner(P.Stopped,
                                                     map j | j in run.tasks :: run.tasks[j].(cancelSent := true),
                                                     true)],
                      holders := if run.pc.Leased? then LeaseReleased(w.holders, run.pc.job, r) else w.holders)
    ensures w' == Stopped(w, r)
  {
    hide LeaseReleased;
    assert Stopped(w, r).runners == w'.runners;
  }

  lemma StopLeads(w: P.World, r: RunnerId, maxJobs: int)
    requires (P.RunnerOf(w, r).pc.Idle? || P.InRound(P.RunnerOf(w, r).pc)) && !P.RunnerOf(w, r).stopping
    ensures Leads(w, Stopped(w, r), r, maxJobs)
  {
    StopIs(w, r);
    hide Leads, P.Step, Stopped;
    LeadsNowhere(w, r, maxJobs);
    LeadsStep(w, w, r, maxJobs, P.LoopLabel(r, P.Stop));
    if P.RunnerOf(w, r).pc.Leased? {
      LeadsStep(w, P.Step(w, P.LoopLabel(r, P.Stop)), r, maxJobs, P.LoopLabel(r, P.Abandon));
    }
  }

  lemma StopIs(w: P.World, r: RunnerId)
    requires (P.RunnerOf(w, r).pc.Idle? || P.InRound(P.RunnerOf(w, r).pc)) && !P.RunnerOf(w, r).stopping
    ensures var w1 := P.Step(w, P.LoopLabel(r, P.Stop));
            Stopped(w, r) == if P.RunnerOf(w, r).pc.Leased? then P.Step(w1, P.LoopLabel(r, P.Abandon)) else w1
  {
    hide LeaseReleased;
    var w1 := P.Step(w, P.LoopLabel(r, P.Stop));
    assert P.RunnerOf(w1, r).stopping;
    if P.RunnerOf(w, r).pc.Leased? {
      assert P.Step(w1, P.LoopLabel(r, P.Abandon)).runners == Stopped(w, r).runners;
    }
  }

  /** The body is inside its try block, whose finally clause releases the lease. */
  predicate InTry(pc: P.TaskPc) { pc.Working? || pc.Recording? || pc.Dropping? }

  /** A stopped runner after the bodies of these jobs have ended. */
  function Interrupted(w: P.World, r: RunnerId, done: set<JobId>): P.World {
    var run := P.RunnerOf(w, r);
    var tasks := map j | j in run.tasks :: if j in done then P.Task(P.Done, run.tasks[j].cancelSent) else run.tasks[j];
    w.(runners := map[r := run.(tasks := tasks)],
       holders := w.holders - (set j | && j in done && j in run.tasks && InTry(run.tasks[j].pc)
                                       && j in w.holders && w.holders[j] == r))
  }

  lemma NoneInterrupted(w: P.World, r: RunnerId)
    requires w.runners.Keys == {r}
    ensures Interrupted(w, r, {}) == w
  {
    assert Interrupted(w, r, {}).runners[r].tasks == w.runners[r].tasks;
    assert w.runners == map[r := w.runners[r]];
  }

  /** A runner that has stopped and cancelled all its jobs, and no other. */
  ghost predicate Stopping(w: P.World, r: RunnerId) {
    && w.runners.Keys == {r} && w.runners[r].pc.Stopped? && w.runners[r].stopping
    && forall j | j in w.runners[r].tasks :: w.runners[r].tasks[j].cancelSent
  }

  lemma StoppingIs(w: P.World, r: RunnerId)
    requires w.runners.Keys == {r}
    ensures Stopping(Stopped(w, r), r)
  {
  }

  lemma DeliverIs(w: P.World, r: RunnerId, job: JobId)
    requires Only(w, r, job) && w.runners[r].stopping && w.runners[r].tasks[job].cancelSent
    ensures P.Step(w, P.TaskLabel(r, job, P.Deliver)) ==
              w.(runners := map[r := Moved(w.runners[r], job,
                                           if InTry(w.runners[r].tasks[job].pc) then P.Releasing else P.Done)])
  {
  }

  /** The steps that end one more body. */
  lemma OneMoreInterrupted(w: P.World, w1: P.World, r: RunnerId, maxJobs: int, done: set<JobId>, job: JobId)
    requires Stopping(w1, r) && job in w1.runners[r].tasks && job !in done
    requires Leads(w, Interrupted(w1, r, done), r, maxJobs)
    ensures var w2 := Interrupted(w1, r, done);
            && Only(w2, r, job) && w2.runners[r].tasks[job] == w1.runners[r].tasks[job]
            && Interrupted(w1, r, done + {job}) == Ended(w2, r, job)
    ensures Leads(w, Interrupted(w1, r, done + {job}), r, maxJobs)
  {
    hide Leads;
    var w2 := Interrupted(w1, r, done);
    InterruptedIs(w1, r, done, job);
    BodyEnds(w, w2, r, maxJobs, job);
  }

  /** The body of one job has ended. */
  function Ended(w: P.World, r: RunnerId, job: JobId): P.World
    requires Only(w, r, job)
  {
    w.(runners := map[r := Moved(w.runners[r], job, P.Done)],
       holders := if InTry(w.runners[r].tasks[job].pc) then LeaseReleased(w.holders, job, r) else w.holders)
  }

  lemma InterruptedIs(w: P.World, r: RunnerId, done: set<JobId>, job: JobId)
    requires Stopping(w, r) && job in w.runners[r].tasks && job !in done
    ensures var w2 := Interrupted(w, r, done);
            && Only(w2, r, job) && w2.runners[r].tasks[job] == w.runners[r].tasks[job]
            && Interrupted(w, r, done + {job}) == Ended(w2, r, job)
  {
    var w2, w3 := Interrupted(w, r, done), Interrupted(w, r, done + {job});
    assert w3.runners[r].tasks == Moved(w2.runners[r], job, P.Done).tasks;
    assert w3.holders == Ended(w2, r, job).holders;
  }

  lemma BodyEnds(w: P.World, w2: P.World, r: RunnerId, maxJobs: int, job: JobId)
    requires Only(w2, r, job) && w2.runners[r].stopping && w2.runners[r].tasks[job].cancelSent &&
               Leads(w, w2, r, maxJobs)
    ensures Leads(w, Ended(w2, r, job), r, maxJobs)
  {
    hide Leads, P.Step, LeaseReleased;
    DeliverIs(w2, r, job);
    var w3 := P.Step(w2, P.TaskLabel(r, job, P.Deliver));
    LeadsStep(w, w2, r, maxJobs, P.TaskLabel(r, job, P.Deliver));
    if InTry(w2.runners[r].tasks[job].pc) {
      AdvanceIs(w3, r, job);
      MovedTwice(w2.runners[r], job, P.Releasing, P.Done);
      LeadsStep(w, w3, r, maxJobs, P.TaskLabel(r, job, P.Advance));
    }
  }

  lemma MovedTwice(run: P.Runner, job: JobId, pc: P.TaskPc, pc': P.TaskPc)
    requires job in run.tasks
    ensures Moved(Moved(run, job, pc), job, pc') == Moved(run, job, pc')
  {
  }

  lemma {:induction false} FlushesAreOwn(r: RunnerId, jobs: seq<JobId>, maxJobs: int)
    ensures OwnSteps(S.Flushes(r, jobs), r, maxJobs)
    decreases jobs
  {
    if jobs != [] { FlushesAreOwn(r, jobs[1..], maxJobs); }
  }

  lemma AllInterrupted(w: P.World, r: RunnerId)
    requires Stopping(w, r)
    ensures S.ReadyToFlush(Interrupted(w, r, w.runners[r].tasks.Keys), r)
  {
  }

  /** The flush after all bodies have ended. */
  lemma ShutdownLeads(w: P.World, w1: P.World, r: RunnerId, maxJobs: int)
    requires S.ReadyToFlush(w1, r) && Leads(w, w1, r, maxJobs)
    ensures Leads(w, S.Flushed(w1, r), r, maxJobs)
  {
    hide Leads, P.Step, P.Run, S.ReadyToFlush, S.Flushed, P.FlushPlan;
    var jobs := S.PlanEnds(P.FlushPlan(w1, r));
    S.ShutdownIsExact(w1, r, jobs);
    FlushesAreOwn(r, jobs, maxJobs);
    LeadsRun(w, w1, r, maxJobs, [P.LoopLabel(r, P.BeginFlush)] + S.Flushes(r, jobs));
  }

  lemma FlushedIs(w: P.World, r: RunnerId, w': P.World)
    requires w.runners.Keys == {r}
    requires w' == P.World(ExecutionsAfter(w.execs, OwnedJobs(w.execs, r)),
                           SpecsAfter(w.specs, w.execs, OwnedJobs(w.execs, r)),
                           HoldersAfter(w.holders, OwnedJobs(w.execs, r), r),
                           map[r := w.runners[r].(pc := P.Flushing(map[]))], w.calls, w.mentioned)
    ensures w' == S.Flushed(w, r)
  {
    hide ExecutionsAfter, SpecsAfter, HoldersAfter, OwnedJobs;
    assert S.Flushed(w, r).runners == w'.runners;
  }

  /** What a shutdown owes: every job that was running under the owner is queued with its spec
      untouched, or cancelled without a spec, and no lease of the owner is left on it; other records
      and specs are as they were. */
  ghost predicate GivenBack(w: P.World, w': P.World, r: RunnerId) {
    && w'.execs.Keys == w.execs.Keys
    && forall j | j in w.execs ::
         if Owned(w.execs[j], r) then
           && w'.execs[j] == Execution(if w.execs[j].cancelRequested then Cancelled else Queued,
                                       w.execs[j].cancelRequested, None, w.execs[j].lastError)
           && !(j in w'.holders && w'.holders[j] == r)
           && (if w.execs[j].cancelRequested then j !in w'.specs else j in w'.specs <==> j in w.specs)
         else w'.execs[j] == w.execs[j] && (j in w'.specs <==> j in w.specs)
  }

  lemma GivenBackIs(w: P.World, w1: P.World, r: RunnerId)
    requires w1 == Stopped(w, r)
    ensures GivenBack(w, S.Flushed(Interrupted(w1, r, P.RunnerOf(w1, r).tasks.Keys), r), r)
  {
    var w2 := Interrupted(w1, r, P.RunnerOf(w1, r).tasks.Keys);
    assert w2.execs == w.execs && w2.specs == w.specs;
    var owned := OwnedJobs(w.execs, r);
    var w3 := S.Flushed(w2, r);
    assert w3.execs == ExecutionsAfter(w.execs, owned) && w3.specs == SpecsAfter(w.specs, w.execs, owned);
    assert w3.holders == HoldersAfter(w2.holders, owned, r);
    hide S.Flushed, Interrupted, Stopped;
  }

  // ---- Finished bodies --------------------------------------------------------------------------

  lemma FinishedIs(execs: Executions, job: JobId, status: Status, error: JobError)
    ensures WithError(Updated(execs, job, status, None), job, error) ==
              if job in execs then execs[job := Execution(status, execs[job].cancelRequested, None, error)] else execs
  {
  }

  lemma ReleasedIs(holders: map<JobId, RunnerId>, job: JobId, owner: RunnerId)
    ensures LeaseReleased(holders, job, owner) ==
              if job in holders && holders[job] == owner then holders - {job} else holders
  {
  }

  // ---- Heartbeats -------------------------------------------------------------------------------

  function Beaten(tasks: map<JobId, P.Task>, execs: Executions, done: set<JobId>): map<JobId, P.Task> {
    map j | j in tasks && !(j in done && tasks[j].pc.Done?) ::
      if j in done && j in execs && execs[j].cancelRequested then tasks[j].(cancelSent := true) else tasks[j]
  }

  lemma AllBeaten(tasks: map<JobId, P.Task>, execs: Executions)
    ensures var after := Beaten(tasks, execs, tasks.Keys);
            && (forall j :: j in after <==> j in tasks && !tasks[j].pc.Done?)
            && forall j | j in after ::
                 after[j] == P.Task(tasks[j].pc, tasks[j].cancelSent || (j in execs && execs[j].cancelRequested))
  {
  }

  lemma NoneBeaten(tasks: map<JobId, P.Task>, execs: Executions)
    ensures Beaten(tasks, execs, {}) == tasks
  {
  }

  lemma OneMoreBeaten(tasks: map<JobId, P.Task>, execs: Executions, done: set<JobId>, job: JobId)
    requires job in tasks && job !in done
    ensures job in Beaten(tasks, execs, done) && Beaten(tasks, execs, done)[job] == tasks[job]
    ensures Beaten(tasks, execs, done + {job}) ==
              if tasks[job].pc.Done? then Beaten(tasks, execs, done) - {job}
              else if job in execs && execs[job].cancelRequested
              then Beaten(tasks, execs, done)[job := tasks[job].(cancelSent := true)]
              else Beaten(tasks, execs, done)
  {
  }

  // ---- Single steps of a world with one runner --------------------------------------------------

  predicate Only(w: P.World, r: RunnerId, job: JobId) { w.runners.Keys == {r} && job in w.runners[r].tasks }

  lemma PruneIs(w: P.World, r: RunnerId, job: JobId)
    requires Only(w, r, job) && w.runners[r].pc == P.Idle && w.runners[r].tasks[job].pc.Done?
    ensures var run := w.runners[r];
            P.Step(w, P.LoopLabel(r, P.Prune(job))) == w.(runners := map[r := run.(tasks := run.tasks - {job})])
  {
  }

  lemma BeatIs(w: P.World, r: RunnerId, job: JobId)
    requires Only(w, r, job) && w.runners[r].pc == P.Idle && job in w.execs && w.execs[job].cancelRequested
    ensures var run := w.runners[r];
            P.Step(w, P.LoopLabel(r, P.Beat(job))) ==
              w.(runners := map[r := run.(tasks := run.tasks[job := run.tasks[job].(cancelSent := true)])])
  {
  }

  function Moved(run: P.Runner, job: JobId, pc: P.TaskPc): P.Runner
    requires job in run.tasks
  {
    run.(tasks := run.tasks[job := P.Task(pc, run.tasks[job].cancelSent)])
  }

  lemma AdvanceIs(w: P.World, r: RunnerId, job: JobId)
    requires Only(w, r, job)
    ensures var run := w.runners[r];
            var pc := run.tasks[job].pc;
            P.Step(w, P.TaskLabel(r, job, P.Advance)) ==
              P.World(P.Recorded(w.execs, job, pc), if pc.Dropping? then w.specs - {job} else w.specs,
                      if pc.NoSpecRelease? || pc.Releasing? then LeaseReleased(w.holders, job, r) else w.holders,
                      map[r := Moved(run, job, P.NextPc(pc, job in w.specs))], w.calls, w.mentioned)
  {
    hide P.Recorded, P.NextPc, LeaseReleased;
  }

  lemma FinishIs(w: P.World, r: RunnerId, job: JobId, ok: bool)
    requires Only(w, r, job) && w.runners[r].tasks[job].pc.Working?
    ensures P.Step(w, P.TaskLabel(r, job, P.Finish(ok))) ==
              w.(runners := map[r := Moved(w.runners[r], job, P.Recording(if ok then P.Success else P.Failure))])
  {
  }

  // ---- Claim rounds -----------------------------------------------------------------------------

  lemma NothingClaimed(w: P.World, r: RunnerId, expired: Expired)
    ensures Eligible(w, r, expired, []) == [] && Claimed(w, r, []) == w
  {
  }

  /** One candidate: claimed exactly when it is eligible, with the protocol steps that do it. */
  lemma RoundStep(w: P.World, idle: P.World, r: RunnerId, maxJobs: int, expired: Expired, candidates: seq<JobId>,
                  i: nat, available: int)
    requires i < |candidates| && available > 0 && P.RunnerOf(w, r).pc == P.Idle
    requires idle == Claimed(w, r, Eligible(w, r, expired, candidates[..i]))
    requires Leads(w, P.WithPc(idle, r, P.Claiming(available)), r, maxJobs)
    ensures var claimed, job := Eligible(w, r, expired, candidates[..i]), candidates[i];
            if P.Claimable(idle, r, job) && Free(idle, r, expired, job) then
              && Eligible(w, r, expired, candidates[..i + 1]) == claimed + [job]
              && Claimed(w, r, claimed + [job]) == ClaimOne(idle, r, job)
              && Leads(w, P.WithPc(ClaimOne(idle, r, job), r, P.Claiming(available - 1)), r, maxJobs)
            else Eligible(w, r, expired, candidates[..i + 1]) == claimed
  {
    hide Leads, P.Claimable, Free, P.WithPc, ClaimOne, Claimed, Eligible;
    var claimed, job := Eligible(w, r, expired, candidates[..i]), candidates[i];
    StillEligible(w, r, expired, claimed, job);
    EligibleNext(w, r, expired, candidates, i);
    ClaimedNext(w, r, claimed, job);
    if P.Claimable(idle, r, job) && Free(idle, r, expired, job) {
      ClaimFrom(w, idle, r, maxJobs, expired, job, available);
    }
  }

  lemma EligibleNext(w: P.World, r: RunnerId, expired: Expired, candidates: seq<JobId>, i: nat)
    requires i < |candidates|
    ensures var claimed, job := Eligible(w, r, expired, candidates[..i]), candidates[i];
            Eligible(w, r, expired, candidates[..i + 1]) ==
              if P.Claimable(w, r, job) && Free(w, r, expired, job) && job !in claimed then claimed + [job] else claimed
  {
    assert candidates[..i + 1][..i] == candidates[..i];
  }

  lemma ClaimedNext(w: P.World, r: RunnerId, claimed: seq<JobId>, job: JobId)
    ensures Claimed(w, r, claimed + [job]) == ClaimOne(Claimed(w, r, claimed), r, job)
  {
    assert (claimed + [job])[..|claimed|] == claimed;
  }

  /** Claiming some jobs leaves the others as claimable as they were. */
  lemma StillEligible(w: P.World, r: RunnerId, expired: Expired, claimed: seq<JobId>, job: JobId)
    requires forall j | j in claimed :: P.Claimable(w, r, j)
    ensures var idle := Claimed(w, r, claimed);
            P.Claimable(idle, r, job) && Free(idle, r, expired, job) <==>
              P.Claimable(w, r, job) && Free(w, r, expired, job) && job !in claimed
  {
    hide Claimed;
    ClaimedIs(w, r, claimed);
  }

  lemma ClaimFrom(w: P.World, idle: P.World, r: RunnerId, maxJobs: int, expired: Expired, job: JobId, available: int)
    requires Leads(w, P.WithPc(idle, r, P.Claiming(available)), r, maxJobs) && available > 0
    requires P.Claimable(idle, r, job) && Free(idle, r, expired, job)
    ensures Leads(w, P.WithPc(ClaimOne(idle, r, job), r, P.Claiming(available - 1)), r, maxJobs)
  {
    hide Leads;
    ClaimKeepsPc(idle, r, job, P.Claiming(available), P.Claiming(available - 1));
    hide ClaimOne;
    ClaimLeads(w, P.WithPc(idle, r, P.Claiming(available)), r, maxJobs, expired, job);
  }

  lemma ClaimKeepsPc(w: P.World, r: RunnerId, job: JobId, pc: P.RunnerPc, pc': P.RunnerPc)
    ensures P.WithPc(ClaimOne(P.WithPc(w, r, pc), r, job), r, pc') == P.WithPc(ClaimOne(w, r, job), r, pc')
  {
  }

  lemma BeginLeads(w: P.World, r: RunnerId, maxJobs: int)
    requires P.RunnerOf(w, r).pc == P.Idle && maxJobs - |P.RunnerOf(w, r).tasks| > 0
    ensures Leads(w, P.WithPc(w, r, P.Claiming(maxJobs - |P.RunnerOf(w, r).tasks|)), r, maxJobs)
  {
    LeadsNowhere(w, r, maxJobs);
    LeadsStep(w, w, r, maxJobs, P.LoopLabel(r, P.BeginRound(maxJobs)));
  }

  lemma EndLeads(w: P.World, idle: P.World, r: RunnerId, maxJobs: int, available: int)
    requires Leads(w, P.WithPc(idle, r, P.Claiming(available)), r, maxJobs)
    requires r in idle.runners && idle.runners[r].pc == P.Idle
    ensures Leads(w, idle, r, maxJobs)
  {
    var claiming := P.WithPc(idle, r, P.Claiming(available));
    assert P.WithPc(claiming, r, P.Idle).runners == idle.runners;
    LeadsStep(w, claiming, r, maxJobs, P.LoopLabel(r, P.EndRound));
  }
}
