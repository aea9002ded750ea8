/** Which of the listed jobs a claim round takes. */
module JobPriority {
  import opened KeyOrder
  import opened JobRecords
  import P = JobProtocol

  // ---- Which jobs a claim round takes -----------------------------------------------------------

  // Whether the lease another runner holds on a job has run out is a parameter.
  type Expired = JobId -> bool

  predicate Free(w: P.World, r: RunnerId, expired: Expired, job: JobId) {
    job in w.holders && w.holders[job] != r ==> expired(job)
  }

  /** The candidates that can be claimed, in order and without repetition. */
  function Eligible(w: P.World, r: RunnerId, expired: Expired, candidates: seq<JobId>): (e: seq<JobId>)
    ensures forall j :: j in e <==> j in candidates && P.Claimable(w, r, j) && Free(w, r, expired, j)
    ensures |e| <= |candidates|
  {
    if candidates == [] then []
    else
      var n := |candidates| - 1;
      var before, job := Eligible(w, r, expired, candidates[..n]), candidates[n];
      assert candidates == candidates[..n] + [job];
      if P.Claimable(w, r, job) && Free(w, r, expired, job) && job !in before then before + [job] else before
  }

  lemma {:induction false} EligiblePrefix(w: P.World, r: RunnerId, expired: Expired, candidates: seq<JobId>, i: nat)
    requires i <= |candidates|
    ensures Eligible(w, r, expired, candidates[..i]) <= Eligible(w, r, expired, candidates)
    decreases |candidates|
  {
    if i < |candidates| {
      var n := |candidates| - 1;
      EligiblePrefix(w, r, expired, candidates[..n], i);
      assert candidates[..n][..i] == candidates[..i];
    } else {
      assert candidates[..i] == candidates;
    }
  }

  // ---- Priorities -------------------------------------------------------------------------------

  // updated_at and created_at of an execution
  datatype Times = Times(updated: JobId -> real, created: JobId -> real)

  /** Running jobs first, then the most recently updated, then the most recently created. */
  predicate Precedes(execs: Executions, times: Times, a: JobId, b: JobId) {
    var ra, rb := a in execs && execs[a].status == Running, b in execs && execs[b].status == Running;
    if ra != rb then ra
    else if times.updated(a) != times.updated(b) then times.updated(a) > times.updated(b)
    else times.created(a) > times.created(b)
  }

  /** One comes before the other in the list. */
  ghost predicate Before(listed: seq<JobId>, a: JobId, b: JobId) {
    exists p, q :: 0 <= p < q < |listed| && listed[p] == a && listed[q] == b
  }

  /** The second job does not precede the first one, and is listed later where neither precedes. */
  ghost predicate Follows(execs: Executions, times: Times, listed: seq<JobId>, a: JobId, b: JobId) {
    !Precedes(execs, times, b, a) && (Precedes(execs, times, a, b) || Before(listed, a, b))
  }

  ghost predicate InPriority(execs: Executions, times: Times, listed: seq<JobId>, jobs: seq<JobId>) {
    forall i, j | 0 <= i < j < |jobs| :: Follows(execs, times, listed, jobs[i], jobs[j])
  }

  /** Behind everything that it does not precede. */
  function Inserted(execs: Executions, times: Times, jobs: seq<JobId>, job: JobId): seq<JobId> {
    if jobs == [] || Precedes(execs, times, job, jobs[0]) then [job] + jobs
    else [jobs[0]] + Inserted(execs, times, jobs[1..], job)
  }

  lemma {:induction false} InsertedMembers(execs: Executions, times: Times, jobs: seq<JobId>, job: JobId)
    ensures multiset(Inserted(execs, times, jobs, job)) == multiset(jobs) + multiset{job}
  {
    hide Precedes;
    if jobs != [] {
      assert jobs == [jobs[0]] + jobs[1..];
      InsertedMembers(execs, times, jobs[1..], job);
    }
  }

  lemma {:induction false} InsertedInOrder(execs: Executions, times: Times, listed: seq<JobId>, jobs: seq<JobId>,
                                           job: JobId)
    requires InPriority(execs, times, listed, jobs) && forall j | j in jobs :: Before(listed, j, job)
    ensures InPriority(execs, times, listed, Inserted(execs, times, jobs, job))
  {
    hide Precedes, Before;
    if jobs == [] {
    } else if Precedes(execs, times, job, jobs[0]) {
      PrecedesAll(execs, times, listed, jobs, job);
    } else {
      var rest := Inserted(execs, times, jobs[1..], job);
      InsertedInOrder(execs, times, listed, jobs[1..], job);
      InsertedMembers(execs, times, jobs[1..], job);
      forall k | 0 <= k < |rest| ensures Follows(execs, times, listed, jobs[0], rest[k]) {
        assert rest[k] in multiset(rest);
        if rest[k] != job {
          assert rest[k] in jobs[1..];
          var m :| 1 <= m < |jobs| && jobs[m] == rest[k];
        }
      }
    }
  }

  lemma PrecedesAll(execs: Executions, times: Times, listed: seq<JobId>, jobs: seq<JobId>, job: JobId)
    requires InPriority(execs, times, listed, jobs) && jobs != [] && Precedes(execs, times, job, jobs[0])
    ensures InPriority(execs, times, listed, [job] + jobs)
  {
    hide Before;
    var all := [job] + jobs;
    forall i, j | 0 <= i < j < |all| ensures Follows(execs, times, listed, all[i], all[j]) {
      if i > 0 { assert Follows(execs, times, listed, jobs[i - 1], jobs[j - 1]); }
    }
  }

  /** The stable sort of the candidates. */
  function ByPriority(execs: Executions, times: Times, jobs: seq<JobId>): (r: seq<JobId>)
    ensures InPriority(execs, times, jobs, r) && multiset(r) == multiset(jobs)
  {
    if jobs == [] then []
    else
      var n := |jobs| - 1;
      var sorted := ByPriority(execs, times, jobs[..n]);
      assert jobs == jobs[..n] + [jobs[n]];
      LaterListing(execs, times, jobs, n, sorted);
      InsertedInOrder(execs, times, jobs, sorted, jobs[n]);
      InsertedMembers(execs, times, sorted, jobs[n]);
      Inserted(execs, times, sorted, jobs[n])
  }

  lemma LaterListing(execs: Executions, times: Times, jobs: seq<JobId>, n: nat, sorted: seq<JobId>)
    requires n < |jobs| && InPriority(execs, times, jobs[..n], sorted) && multiset(sorted) == multiset(jobs[..n])
    ensures InPriority(execs, times, jobs, sorted) && forall j | j in sorted :: Before(jobs, j, jobs[n])
  {
    hide Precedes;
    WiderListing(execs, times, jobs[..n], jobs, sorted);
    forall j | j in sorted ensures Before(jobs, j, jobs[n]) {
      assert j in multiset(sorted);
      assert j in jobs[..n];
      var p :| 0 <= p < n && jobs[p] == j;
    }
  }

  /** Where one comes before the other in one list, it does so in every list that keeps its order. */
  ghost predicate Keeps(listed: seq<JobId>, wider: seq<JobId>) {
    forall a, b :: Before(listed, a, b) ==> Before(wider, a, b)
  }

  lemma WiderListing(execs: Executions, times: Times, listed: seq<JobId>, wider: seq<JobId>, jobs: seq<JobId>)
    requires InPriority(execs, times, listed, jobs) && (listed <= wider || Keeps(listed, wider))
    ensures InPriority(execs, times, wider, jobs)
  {
    hide Precedes;
    if listed <= wider {
      forall a, b | Before(listed, a, b) ensures Before(wider, a, b) {
        var p, q :| 0 <= p < q < |listed| && listed[p] == a && listed[q] == b;
        assert wider[p] == a && wider[q] == b;
      }
    }
    hide Before;
    forall i, j | 0 <= i < j < |jobs| ensures Follows(execs, times, wider, jobs[i], jobs[j]) {
      assert Follows(execs, times, listed, jobs[i], jobs[j]);
    }
  }

  /** The claimable ones among the listed executions. */
  function Candidates(w: P.World, r: RunnerId, listed: seq<JobId>): (c: seq<JobId>)
    ensures forall j :: j in c <==> j in listed && P.Claimable(w, r, j)
  {
    if listed == [] then []
    else
      var n := |listed| - 1;
      assert listed == listed[..n] + [listed[n]];
      Candidates(w, r, listed[..n]) + (if P.Claimable(w, r, listed[n]) then [listed[n]] else [])
  }

  lemma {:induction false} CandidatesKeepOrder(w: P.World, r: RunnerId, listed: seq<JobId>)
    ensures Keeps(Candidates(w, r, listed), listed)
  {
    hide P.Claimable;
    if listed != [] {
      var n := |listed| - 1;
      var before, c := Candidates(w, r, listed[..n]), Candidates(w, r, listed);
      CandidatesKeepOrder(w, r, listed[..n]);
      forall a, b | Before(c, a, b) ensures Before(listed, a, b) {
        var p, q :| 0 <= p < q < |c| && c[p] == a && c[q] == b;
        if q < |before| {
          assert before[p] == a && before[q] == b;
          assert Before(before, a, b) && Before(listed[..n], a, b);
          var i, j :| 0 <= i < j < n && listed[..n][i] == a && listed[..n][j] == b;
          assert listed[i] == a && listed[j] == b;
        } else {
          assert before[p] in before && a in listed[..n];
          var i :| 0 <= i < n && listed[i] == a;
          assert listed[n] == b;
        }
      }
    }
  }

  /** The record waits to be run, this runner does not track it, and nobody else holds its lease. */
  ghost predicate MayTake(w: P.World, r: RunnerId, expired: Expired, job: JobId) {
    && job in w.execs && w.execs[job].status in {Queued, Running} && !w.execs[job].cancelRequested
    && (r in w.runners ==> job !in w.runners[r].tasks)
    && (job in w.holders ==> w.holders[job] == r || expired(job))
  }

  /** By the records and times alone: a running job is not behind one that is not, then the later update
      and then the later creation come first, and then the order of the list. */
  ghost predicate Ranked(w: P.World, times: Times, listed: seq<JobId>, a: JobId, b: JobId) {
    var ra, rb := a in w.execs && w.execs[a].status == Running, b in w.execs && w.execs[b].status == Running;
    && (rb ==> ra)
    && (ra == rb ==> times.updated(b) <= times.updated(a))
    && (ra == rb && times.updated(b) == times.updated(a) ==> times.created(b) <= times.created(a))
    && (ra == rb && times.updated(b) == times.updated(a) && times.created(b) == times.created(a) ==>
          Before(listed, a, b))
  }

  /** Listed jobs that can be claimed, each once, in order of priority; when one is left out there was
      no room for it, and it ranks behind all that were taken. */
  ghost predicate TakesBest(w: P.World, r: RunnerId, times: Times, expired: Expired, listed: seq<JobId>,
                            claimed: seq<JobId>, room: nat) {
    && (forall j | j in claimed :: j in listed && MayTake(w, r, expired, j))
    && (forall i, j | 0 <= i < j < |claimed| ::
          claimed[i] != claimed[j] && Ranked(w, times, listed, claimed[i], claimed[j]))
    && |claimed| <= room
    && forall j | j in listed && j !in claimed && MayTake(w, r, expired, j) ::
         |claimed| == room && forall c | c in claimed :: Ranked(w, times, listed, c, j)
  }

  lemma FollowsIsRanked(w: P.World, times: Times, listed: seq<JobId>, a: JobId, b: JobId)
    requires Follows(w.execs, times, listed, a, b)
    ensures Ranked(w, times, listed, a, b)
  {
    hide Before;
  }

  lemma MayTakeIs(w: P.World, r: RunnerId, expired: Expired, job: JobId)
    ensures MayTake(w, r, expired, job) <==> P.Claimable(w, r, job) && Free(w, r, expired, job)
  {
  }

  lemma {:induction false} EligibleInOrder(w: P.World, r: RunnerId, times: Times, expired: Expired,
                                           listed: seq<JobId>, candidates: seq<JobId>)
    requires InPriority(w.execs, times, listed, candidates)
    ensures var e := Eligible(w, r, expired, candidates);
            InPriority(w.execs, times, listed, e) && forall i, j | 0 <= i < j < |e| :: e[i] != e[j]
  {
    hide Follows, P.Claimable, Free;
    if candidates != [] {
      var n := |candidates| - 1;
      var before := Eligible(w, r, expired, candidates[..n]);
      EligibleInOrder(w, r, times, expired, listed, candidates[..n]);
      forall i | 0 <= i < |before| ensures Follows(w.execs, times, listed, before[i], candidates[n]) {
        assert before[i] in before && before[i] in candidates[..n];
        var m :| 0 <= m < n && candidates[m] == before[i];
      }
    }
  }

  lemma PrefixIsBest(execs: Executions, times: Times, listed: seq<JobId>, e: seq<JobId>, n: nat)
    requires InPriority(execs, times, listed, e) && n <= |e|
    ensures InPriority(execs, times, listed, e[..n])
    ensures forall j, c | j in e && j !in e[..n] && c in e[..n] :: Follows(execs, times, listed, c, j)
  {
    hide Follows;
    forall m | 0 <= m < n ensures e[m] in e[..n] { assert e[..n][m] == e[m]; }
    forall j, c | j in e && j !in e[..n] && c in e[..n] ensures Follows(execs, times, listed, c, j) {
      var i :| 0 <= i < |e| && e[i] == j;
      var k :| 0 <= k < n && e[..n][k] == c;
      assert e[k] == c;
    }
  }

  lemma SortedMembers(execs: Executions, times: Times, jobs: seq<JobId>)
    ensures forall j :: j in ByPriority(execs, times, jobs) <==> j in jobs
  {
    forall j ensures j in ByPriority(execs, times, jobs) <==> j in jobs {
      assert j in multiset(ByPriority(execs, times, jobs)) <==> j in multiset(jobs);
    }
  }

  /** The first jobs of a list, as many as there is room for. */
  function FirstOf(jobs: seq<JobId>, room: int): seq<JobId> {
    if room <= 0 then [] else if |jobs| > room then jobs[..room] else jobs
  }

  lemma FirstOfIsBest(w: P.World, times: Times, listed: seq<JobId>, e: seq<JobId>, room: int)
    requires InPriority(w.execs, times, listed, e)
    ensures InPriority(w.execs, times, listed, FirstOf(e, room))
    ensures forall j | j in e && j !in FirstOf(e, room) ::
              && |FirstOf(e, room)| == Room(room)
              && forall c | c in FirstOf(e, room) :: Follows(w.execs, times, listed, c, j)
  {
    hide Follows, InPriority;
    var n := if room <= 0 then 0 else if |e| > room then room else |e|;
    PrefixIsBest(w.execs, times, listed, e, n);
    assert e[..n] == FirstOf(e, room);
  }

  function Room(free: int): nat { if free < 0 then 0 else free }

  /** The first eligible candidates in sorted order are the best ones. */
  lemma FirstAreBest(w: P.World, r: RunnerId, times: Times, expired: Expired, listed: seq<JobId>, room: int)
    ensures var eligible := Eligible(w, r, expired, ByPriority(w.execs, times, Candidates(w, r, listed)));
            TakesBest(w, r, times, expired, listed, FirstOf(eligible, room), Room(room))
  {
    hide Follows, InPriority, P.Claimable, Free, Candidates, Keeps;
    var candidates := Candidates(w, r, listed);
    var sorted := ByPriority(w.execs, times, candidates);
    var eligible := Eligible(w, r, expired, sorted);
    CandidatesKeepOrder(w, r, listed);
    WiderListing(w.execs, times, candidates, listed, sorted);
    SortedMembers(w.execs, times, candidates);
    EligibleInOrder(w, r, times, expired, listed, sorted);
    FirstOfIsBest(w, times, listed, eligible, room);
    FirstOfIsPart(eligible, room);
    EligibleAre(w, r, expired, listed, eligible, sorted);
    BestIs(w, r, times, expired, listed, eligible, FirstOf(eligible, room), Room(room));
  }

  lemma EligibleAre(w: P.World, r: RunnerId, expired: Expired, listed: seq<JobId>, eligible: seq<JobId>,
                    sorted: seq<JobId>)
    requires eligible == Eligible(w, r, expired, sorted)
    requires forall j :: j in sorted <==> j in Candidates(w, r, listed)
    ensures forall j :: j in eligible <==> j in listed && MayTake(w, r, expired, j)
  {
    hide P.Claimable, Free, MayTake;
    forall j ensures j in eligible <==> j in listed && MayTake(w, r, expired, j) { MayTakeIs(w, r, expired, j); }
  }

  lemma BestIs(w: P.World, r: RunnerId, times: Times, expired: Expired, listed: seq<JobId>, eligible: seq<JobId>,
               taken: seq<JobId>, room: nat)
    requires forall j :: j in eligible <==> j in listed && MayTake(w, r, expired, j)
    requires (forall i, j | 0 <= i < j < |eligible| :: eligible[i] != eligible[j]) && taken <= eligible
    requires InPriority(w.execs, times, listed, taken) && |taken| <= room
    requires forall j | j in eligible && j !in taken ::
               |taken| == room && forall c | c in taken :: Follows(w.execs, times, listed, c, j)
    ensures TakesBest(w, r, times, expired, listed, taken, room)
  {
    hide Follows, Ranked;
    forall j | j in taken ensures j in listed && MayTake(w, r, expired, j) { assert j in eligible; }
    forall i, j | 0 <= i < j < |taken| ensures Ranked(w, times, listed, taken[i], taken[j]) {
      assert taken[i] in taken && taken[j] in taken;
      FollowsIsRanked(w, times, listed, taken[i], taken[j]);
    }
    forall j, c | j in listed && j !in taken && MayTake(w, r, expired, j) && c in taken
      ensures Ranked(w, times, listed, c, j)
    {
      FollowsIsRanked(w, times, listed, c, j);
    }
  }

  lemma FirstOfIsPart(jobs: seq<JobId>, room: int)
    ensures FirstOf(jobs, room) <= jobs && |FirstOf(jobs, room)| <= Room(room)
  {
  }
}
