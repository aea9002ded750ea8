/** Durable records of background jobs: executions, job specs and lease holders. Responses and
    batches follow the same protocol, so a job id stands for either. */
module JobRecords {
  import opened KeyOrder

  type JobId = string
  type RunnerId = string

  datatype Status = Queued | Running | Completed | Failed | Cancelled

  datatype JobError = NoError | MissingSpec | Crashed

  datatype Execution = Execution(status: Status, cancelRequested: bool, owner: Option<RunnerId>, lastError: JobError)

  type Executions = map<JobId, Execution>

  predicate Active(s: Status) { s == Queued || s == Running }

  predicate Terminal(s: Status) { s == Completed || s == Failed || s == Cancelled }

  /** update_execution: a missing record is left alone. */
  function Updated(execs: Executions, job: JobId, status: Status, owner: Option<RunnerId>): Executions {
    if job in execs then execs[job := execs[job].(status := status, owner := owner)] else execs
  }

  function WithError(execs: Executions, job: JobId, error: JobError): Executions {
    if job in execs then execs[job := execs[job].(lastError := error)] else execs
  }

  /** The request_cancel mutation; a queued execution is cancelled on the spot. */
  function CancelRequested(execs: Executions, job: JobId): Executions {
    if job !in execs || Terminal(execs[job].status) then execs
    else
      var e := execs[job].(cancelRequested := true);
      execs[job := if e.status == Queued then e.(status := Cancelled) else e]
  }

  /** A waiting job is cancelled at once, a running one is only marked, a finished one stays as it is. */
  lemma CancelIs(execs: Executions, job: JobId, j: JobId)
    ensures var after := CancelRequested(execs, job);
            && after.Keys == execs.Keys
            && (j in execs && (j != job || execs[j].status in {Completed, Failed, Cancelled}) ==> after[j] == execs[j])
            && (job in execs && execs[job].status == Queued ==>
                  after[job] == Execution(Cancelled, true, execs[job].owner, execs[job].lastError))
            && (job in execs && execs[job].status == Running ==>
                  after[job] == Execution(Running, true, execs[job].owner, execs[job].lastError))
  {
  }

  function LeaseReleased(holders: map<JobId, RunnerId>, job: JobId, owner: RunnerId): map<JobId, RunnerId> {
    if job in holders && holders[job] == owner then holders - {job} else holders
  }

  // ---- What a stopping runner does to the records it owns -----------------------------------------

  predicate Owned(e: Execution, owner: RunnerId) { e.owner == Some(owner) && e.status == Running }

  function OwnedJobs(execs: Executions, owner: RunnerId): set<JobId> {
    set j | j in execs && Owned(execs[j], owner)
  }

  function Relinquished(e: Execution): Execution {
    e.(owner := None, status := if e.cancelRequested then Cancelled else Queued)
  }

  function ExecutionsAfter(execs: Executions, done: set<JobId>): Executions {
    map j | j in execs :: if j in done then Relinquished(execs[j]) else execs[j]
  }

  function SpecsAfter(specs: set<JobId>, execs: Executions, done: set<JobId>): set<JobId> {
    specs - (set j | j in done && j in execs && execs[j].cancelRequested)
  }

  function HoldersAfter(holders: map<JobId, RunnerId>, done: set<JobId>, owner: RunnerId): map<JobId, RunnerId> {
    holders - (set j | j in done && j in holders && holders[j] == owner)
  }

  lemma OneMoreReleased(execs: Executions, specs: set<JobId>, holders: map<JobId, RunnerId>, done: set<JobId>,
                        job: JobId, owner: RunnerId)
    requires job in execs && job !in done
    ensures ExecutionsAfter(execs, done + {job})
         == Updated(ExecutionsAfter(execs, done), job, Relinquished(execs[job]).status, None)
    ensures SpecsAfter(specs, execs, done + {job})
         == SpecsAfter(specs, execs, done) - (if execs[job].cancelRequested then {job} else {})
    ensures HoldersAfter(holders, done + {job}, owner)
         == LeaseReleased(HoldersAfter(holders, done, owner), job, owner)
  {
  }

  /** After a shutdown no execution runs under the stopped owner: each one it ran is queued with its
      spec, or cancelled without one, and its lease is free; nothing else has changed. */
  lemma ReleaseLeavesNothingRunning(execs: Executions, specs: set<JobId>, holders: map<JobId, RunnerId>,
                                    owner: RunnerId, job: JobId)
    requires job in execs
    ensures var done := OwnedJobs(execs, owner);
            var e := ExecutionsAfter(execs, done)[job];
            && !Owned(e, owner)
            && (job !in done ==> e == execs[job] && (job in SpecsAfter(specs, execs, done) <==> job in specs))
            && (job in done ==>
                  && e.owner == None
                  && !(job in holders && holders[job] == owner && job in HoldersAfter(holders, done, owner))
                  && (if e.cancelRequested then e.status == Cancelled && job !in SpecsAfter(specs, execs, done)
                      else e.status == Queued && (job in SpecsAfter(specs, execs, done) <==> job in specs)))
  {
  }

  class JobStore {
    var executions: Executions
    var specs: set<JobId>
    var holders: map<JobId, RunnerId>

    constructor ()
      ensures executions == map[] && specs == {} && holders == map[]
    {
      executions, specs, holders := map[], {}, map[];
    }

    method UpdateExecution(job: JobId, status: Status, owner: Option<RunnerId>)
      modifies this`executions
      ensures executions == Updated(old(executions), job, status, owner)
    {
      if job in executions {
        executions := executions[job := executions[job].(status := status, owner := owner)];
      }
    }

    /** The same update together with the last error of the job. */
    method FinishExecution(job: JobId, status: Status, error: JobError)
      modifies this`executions
      ensures executions == WithError(Updated(old(executions), job, status, None), job, error)
    {
      if job in executions {
        executions := executions[job := executions[job].(status := status, owner := None, lastError := error)];
      }
    }

    /** Returns the status before the request, if there is an execution. */
    method RequestCancel(job: JobId) returns (previous: Option<Status>)
      modifies this`executions
      ensures executions == CancelRequested(old(executions), job)
      ensures previous == if job in old(executions) then Some(old(executions)[job].status) else None
    {
      if job !in executions { return None; }
      var execution := executions[job];
      previous := Some(execution.status);
      if Terminal(execution.status) { return; }
      var updated := execution.(cancelRequested := true);
      if execution.status == Queued {
        updated := updated.(status := Cancelled);
      }
      executions := executions[job := updated];
    }

    method DeleteSpec(job: JobId)
      modifies this`specs
      ensures specs == old(specs) - {job}
    {
      specs := specs - {job};
    }

    method ReleaseLease(job: JobId, owner: RunnerId)
      modifies this`holders
      ensures holders == LeaseReleased(old(holders), job, owner)
    {
      if job in holders && holders[job] == owner {
        holders := holders - {job};
      }
    }

    /** Shutdown without concurrent writers: every execution this owner still runs is requeued with
        its spec untouched, or cancelled with its spec deleted, and its lease is released. */
    method ReleaseOwnedWork(owner: RunnerId)
      modifies this
      ensures executions == ExecutionsAfter(old(executions), OwnedJobs(old(executions), owner))
      ensures specs == SpecsAfter(old(specs), old(executions), OwnedJobs(old(executions), owner))
      ensures holders == HoldersAfter(old(holders), OwnedJobs(old(executions), owner), owner)
    {
      hide Updated, ExecutionsAfter, SpecsAfter, HoldersAfter, LeaseReleased, Directed, Ordered, Along, OwnedJobs;
      ghost var before, specs0, holders0 := executions, specs, holders;
      NoneReleased(before, specs0, holders0, owner);
      var snapshot := executions;
      var listed := Directed(snapshot.Keys, false);
      ghost var done: set<JobId> := {};
      for i := 0 to |listed|
        invariant forall j :: j in done <==> j in listed[..i] && j in before && Owned(before[j], owner)
        invariant executions == ExecutionsAfter(before, done)
        invariant specs == SpecsAfter(specs0, before, done)
        invariant holders == HoldersAfter(holders0, done, owner)
      {
        var job := listed[i];
        assert job in listed;
        assert listed[..i + 1] == listed[..i] + [job];
        var execution := snapshot[job];
        if execution.owner != Some(owner) || execution.status != Running { continue; }
        NotYetListed(listed, i);
        OneMoreReleased(before, specs0, holders0, done, job, owner);
        done := done + {job};
        if execution.cancelRequested {
          DeleteSpec(job);
          UpdateExecution(job, Cancelled, None);
        } else {
          UpdateExecution(job, Queued, None);
        }
        ReleaseLease(job, owner);
      }
      assert listed[..|listed|] == listed;
      OwnedJobsAre(before, owner, done);
    }
  }

  lemma NoneReleased(execs: Executions, specs: set<JobId>, holders: map<JobId, RunnerId>, owner: RunnerId)
    ensures ExecutionsAfter(execs, {}) == execs && SpecsAfter(specs, execs, {}) == specs
    ensures HoldersAfter(holders, {}, owner) == holders
  {
  }

  lemma OwnedJobsAre(execs: Executions, owner: RunnerId, done: set<JobId>)
    requires forall j :: j in done <==> j in execs && Owned(execs[j], owner)
    ensures done == OwnedJobs(execs, owner)
  {
  }

  lemma NotYetListed(listed: seq<Key>, i: nat)
    requires i < |listed| && Ordered(listed, Along(false))
    ensures listed[i] !in listed[..i]
  {
    LessIsStrictTotal();
  }
}
