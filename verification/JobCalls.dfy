/** What the API calls on background jobs come to when they run through. */
module JobCalls {
  import opened KeyOrder
  import opened JobRecords
  import opened JobProtocol

  /** Cancelling a running job: the record is marked, the body is told, is interrupted, and finishes. */
  function CancelRunning(c: CallId, job: JobId, r: RunnerId, stored: bool, active: bool): seq<Label> {
    [ApiLabel(BeginCancel(c, job)), ApiLabel(LoadForCancel(c, stored, active)), ApiLabel(Notify(c, r)),
     TaskLabel(r, job, Deliver), TaskLabel(r, job, Advance), TaskLabel(r, job, Advance), TaskLabel(r, job, Advance)]
  }

  /** The job ends cancelled and without an owner; its spec is gone, its lease free, its body done, and
      the call has ended. Other jobs are as before. */
  lemma CancelStopsRunningJob(w: World, c: CallId, job: JobId, r: RunnerId, stored: bool, active: bool)
    requires c !in w.calls && job in w.execs && w.execs[job].status == Running
    requires r in w.runners && !w.runners[r].stopping && job in w.runners[r].tasks
    requires w.runners[r].tasks[job].pc == Working
    ensures var w' := Run(w, CancelRunning(c, job, r, stored, active));
            && w'.execs == w.execs[job := Execution(Cancelled, true, None, w.execs[job].lastError)]
            && w'.specs == w.specs - {job} && c !in w'.calls
            && w'.holders == (if job in w.holders && w.holders[job] == r then w.holders - {job} else w.holders)
            && r in w'.runners && w'.runners[r].tasks == w.runners[r].tasks[job := Task(Done, true)]
  {
    hide Run;
    var ls := CancelRunning(c, job, r, stored, active);
    Marked(w, c, job, r, stored, active);
    var w3 := Step(Step(Step(w, ls[0]), ls[1]), ls[2]);
    Interrupted(w3, job, r);
    hide Step;
    RunConcat(w, ls[..3], ls[3..]);
    assert ls == ls[..3] + ls[3..];
    RunThree(w, ls[..3]);
    RunFour(w3, ls[3..]);
  }

  lemma RunThree(w: World, ls: seq<Label>)
    requires |ls| == 3
    ensures Run(w, ls) == Step(Step(Step(w, ls[0]), ls[1]), ls[2])
  {
    hide Step, Run;
    var w1 := Step(w, ls[0]);
    var w2 := Step(w1, ls[1]);
    assert ls[0..] == ls && ls[3..] == [];
    RunFrom(w, ls, 0);
    RunFrom(w1, ls, 1);
    RunFrom(w2, ls, 2);
    RunEnd(Step(w2, ls[2]));
  }

  lemma RunFour(w: World, ls: seq<Label>)
    requires |ls| == 4
    ensures Run(w, ls) == Step(Step(Step(Step(w, ls[0]), ls[1]), ls[2]), ls[3])
  {
    hide Step, Run;
    RunConcat(w, ls[..3], ls[3..]);
    assert ls == ls[..3] + ls[3..];
    RunThree(w, ls[..3]);
    var w3 := Step(Step(Step(w, ls[0]), ls[1]), ls[2]);
    assert ls[3..] == [ls[3]] + [];
    RunStep(w3, ls[3], []);
    RunEnd(Step(w3, ls[3]));
  }

  lemma Marked(w: World, c: CallId, job: JobId, r: RunnerId, stored: bool, active: bool)
    requires c !in w.calls && job in w.execs && w.execs[job].status == Running
    requires r in w.runners && job in w.runners[r].tasks && w.runners[r].tasks[job].pc == Working
    ensures var ls := CancelRunning(c, job, r, stored, active);
            var w3 := Step(Step(Step(w, ls[0]), ls[1]), ls[2]);
            && w3.execs == w.execs[job := w.execs[job].(cancelRequested := true)] && c !in w3.calls
            && w3.specs == w.specs && w3.holders == w.holders && r in w3.runners
            && w3.runners[r] == w.runners[r].(tasks := w.runners[r].tasks[job := Task(Working, true)])
  {
    var ls := CancelRunning(c, job, r, stored, active);
    var w1 := Step(w, ls[0]);
    assert w1.execs == w.execs[job := w.execs[job].(cancelRequested := true)];
    assert w1.calls[c] == CancelDecided(job, Some(Running)) && w1.runners == w.runners;
    var w2 := Step(w1, ls[1]);
    assert w2 == w1.(calls := w1.calls[c := CancelNotify(job)]);
  }

  lemma Interrupted(w: World, job: JobId, r: RunnerId)
    requires job in w.execs && r in w.runners && !w.runners[r].stopping
    requires job in w.runners[r].tasks && w.runners[r].tasks[job] == Task(Working, true)
    ensures var advance := TaskLabel(r, job, Advance);
            var w4 := Step(Step(Step(Step(w, TaskLabel(r, job, Deliver)), advance), advance), advance);
            && w4.execs == w.execs[job := w.execs[job].(status := Cancelled, owner := None)] && w4.calls == w.calls
            && w4.specs == w.specs - {job} && r in w4.runners
            && w4.holders == (if job in w.holders && w.holders[job] == r then w.holders - {job} else w.holders)
            && w4.runners[r].tasks == w.runners[r].tasks[job := Task(Done, true)]
  {
    var advance := TaskLabel(r, job, Advance);
    var w1 := Step(w, TaskLabel(r, job, Deliver));
    assert w1 == WithTask(w, r, job, Task(Recording(Outcome.Interrupted), true));
    var w2 := Step(w1, advance);
    assert w2.execs == w.execs[job := w.execs[job].(status := Cancelled, owner := None)];
    assert RunnerOf(w2, r).tasks[job] == Task(Dropping, true);
    var w3 := Step(w2, advance);
    assert w3.specs == w.specs - {job} && RunnerOf(w3, r).tasks[job] == Task(Releasing, true);
  }

  /** Cancelling a job that waits: it is cancelled at once, no runner can claim it any more, and its spec
      is gone when the stored response was there to be cancelled too. */
  lemma CancelEndsQueuedJob(w: World, c: CallId, job: JobId, r: RunnerId, stored: bool, active: bool)
    requires c !in w.calls && job in w.execs && w.execs[job].status == Queued
    ensures var ls := [ApiLabel(BeginCancel(c, job)), ApiLabel(LoadForCancel(c, stored, active)),
                       ApiLabel(CancelDrop(c)),
                       ApiLabel(Notify(c, r))];
            var w' := Run(w, ls);
            && w'.execs == w.execs[job := w.execs[job].(status := Cancelled, cancelRequested := true)]
            && w'.specs == (if stored then w.specs - {job} else w.specs) && w'.holders == w.holders && c !in w'.calls
            && forall r' :: !Claimable(w', r', job)
  {
    hide Run;
    var ls := [ApiLabel(BeginCancel(c, job)), ApiLabel(LoadForCancel(c, stored, active)), ApiLabel(CancelDrop(c)),
               ApiLabel(Notify(c, r))];
    var w1 := Step(w, ls[0]);
    assert w1.execs == w.execs[job := w.execs[job].(status := Cancelled, cancelRequested := true)];
    assert w1.calls[c] == CancelDecided(job, Some(Queued));
    var w2 := Step(w1, ls[1]);
    assert w2 == w1.(calls := w1.calls[c := if stored then CancelDropSpec(job) else CancelNotify(job)]);
    var w3 := Step(w2, ls[2]);
    assert w3.calls[c] == CancelNotify(job) && w3.specs == if stored then w.specs - {job} else w.specs;
    var w4 := Step(w3, ls[3]);
    assert w4.execs == w1.execs && w4.specs == w3.specs && c !in w4.calls;
    RunFour(w, ls);
  }

  /** Deleting removes record, spec and lease of a job that is not active, and leaves an active one as it
      is. */
  lemma DeleteRemovesFinishedJob(w: World, c: CallId, job: JobId)
    requires c !in w.calls
    ensures var ls := [ApiLabel(CheckDelete(c, job, true)), ApiLabel(DeleteSpec(c)), ApiLabel(DeleteExecution(c)),
                       ApiLabel(DeleteLease(c))];
            var w' := Run(w, ls);
            var active := job in w.execs && w.execs[job].status in {Queued, Running};
            && w'.execs == (if active then w.execs else w.execs - {job})
            && w'.specs == (if active then w.specs else w.specs - {job})
            && w'.holders == (if active then w.holders else w.holders - {job})
            && c !in w'.calls && w'.runners == w.runners
  {
    hide Run;
    var ls := [ApiLabel(CheckDelete(c, job, true)), ApiLabel(DeleteSpec(c)), ApiLabel(DeleteExecution(c)),
               ApiLabel(DeleteLease(c))];
    var w1 := Step(w, ls[0]);
    var w2 := Step(w1, ls[1]);
    var w3 := Step(w2, ls[2]);
    var w4 := Step(w3, ls[3]);
    if job in w.execs && Active(w.execs[job].status) {
      assert w1.calls == w.calls && w4 == w1;
    } else {
      assert w1.calls[c] == DeleteSpecNext(job) && w2.calls[c] == DeleteExecutionNext(job);
      assert w3.calls[c] == DeleteLeaseNext(job);
    }
    RunFour(w, ls);
  }
}
