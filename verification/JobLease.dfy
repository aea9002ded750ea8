/** Job leases shared by any number of runners: claim, heartbeat and release as atomic mutations,
    and what every interleaving of them keeps on a non-decreasing clock. */
module JobLease {
  import opened KeyOrder

  type JobId = string
  type OwnerId = string

  datatype Lease = Lease(owner: OwnerId, expiresAt: real, heartbeatAt: real, attempt: nat)

  type Leases = map<JobId, Lease>

  /** The lease a claim is granted, or nothing while another owner's lease is unexpired. */
  function ClaimGrant(leases: Leases, job: JobId, owner: OwnerId, seconds: int, now: real): Option<Lease> {
    if job in leases && leases[job].expiresAt > now && leases[job].owner != owner then None
    else
      var attempt := if job in leases then leases[job].attempt else 0;
      Some(Lease(owner, now + seconds as real, now, attempt + 1))
  }

  function HeartbeatGrant(leases: Leases, job: JobId, owner: OwnerId, seconds: int, now: real): Option<Lease> {
    if job !in leases || leases[job].owner != owner then None
    else Some(leases[job].(expiresAt := now + seconds as real, heartbeatAt := now))
  }

  function Stored(leases: Leases, job: JobId, grant: Option<Lease>): Leases {
    if grant.Some? then leases[job := grant.value] else leases
  }

  function Released(leases: Leases, job: JobId, owner: OwnerId): Leases {
    if job in leases && leases[job].owner == owner then leases - {job} else leases
  }

  class JobLeaseService {
    var leases: Leases

    constructor ()
      ensures leases == map[]
    {
      leases := map[];
    }

    method Claim(job: JobId, owner: OwnerId, seconds: int, now: real) returns (granted: Option<Lease>)
      modifies this
      ensures granted == ClaimGrant(old(leases), job, owner, seconds, now)
      ensures leases == Stored(old(leases), job, granted)
    {
      var attempt := 0;
      if job in leases {
        var lease := leases[job];
        if lease.expiresAt > now && lease.owner != owner {
          return None;
        }
        attempt := lease.attempt;
      }
      var lease := Lease(owner, now + seconds as real, now, attempt + 1);
      leases := leases[job := lease];
      granted := Some(lease);
    }

    method Heartbeat(job: JobId, owner: OwnerId, seconds: int, now: real) returns (granted: Option<Lease>)
      modifies this
      ensures granted == HeartbeatGrant(old(leases), job, owner, seconds, now)
      ensures leases == Stored(old(leases), job, granted)
    {
      if job !in leases { return None; }
      var lease := leases[job];
      if lease.owner != owner { return None; }
      var updated := lease.(expiresAt := now + seconds as real, heartbeatAt := now);
      leases := leases[job := updated];
      granted := Some(updated);
    }

    method Release(job: JobId, owner: OwnerId) returns (released: bool)
      modifies this
      ensures leases == Released(old(leases), job, owner)
      ensures released <==> job in old(leases) && old(leases)[job].owner == owner
    {
      if job !in leases { return false; }
      if leases[job].owner != owner { return false; }
      leases := leases - {job};
      released := true;
    }
  }

  // ---- Interleavings ----------------------------------------------------------------------------

  // an expiry time promised to an owner for a job
  datatype Grant = Grant(owner: OwnerId, job: JobId, until: real)

  // grants: every promise made and not released by its owner since; latest: the newest of them
  // for each owner and job; claims: successful claims since the job's record was last deleted
  datatype World = World(now: real, leases: Leases, grants: set<Grant>,
                         latest: map<(OwnerId, JobId), real>, claims: map<JobId, nat>)

  datatype Label =
    | Tick(elapsed: real)
    | Claim(job: JobId, owner: OwnerId, seconds: int)
    | Heartbeat(job: JobId, owner: OwnerId, seconds: int)
    | Release(job: JobId, owner: OwnerId)

  function Claims(w: World, job: JobId): nat { if job in w.claims then w.claims[job] else 0 }

  function Granted(w: World, job: JobId, grant: Option<Lease>): World {
    if grant.None? then w
    else w.(leases := Stored(w.leases, job, grant),
            grants := w.grants + {Grant(grant.value.owner, job, grant.value.expiresAt)},
            latest := w.latest[(grant.value.owner, job) := grant.value.expiresAt])
  }

  function Step(w: World, l: Label): World {
    match l
    case Tick(elapsed) => if elapsed < 0.0 then w else w.(now := w.now + elapsed)
    case Claim(job, owner, seconds) =>
      var grant := ClaimGrant(w.leases, job, owner, seconds, w.now);
      if grant.None? then w else Granted(w, job, grant).(claims := w.claims[job := Claims(w, job) + 1])
    case Heartbeat(job, owner, seconds) =>
      Granted(w, job, HeartbeatGrant(w.leases, job, owner, seconds, w.now))
    case Release(job, owner) =>
      w.(leases := Released(w.leases, job, owner),
         grants := (set g | g in w.grants && !(g.owner == owner && g.job == job)),
         latest := w.latest - {(owner, job)},
         claims := if job in w.leases && w.leases[job].owner == owner then w.claims[job := 0] else w.claims)
  }

  function Run(w: World, ls: seq<Label>): World
    decreases ls
  {
    if ls == [] then w else Run(Step(w, ls[0]), ls[1..])
  }

  function Start(now: real): World { World(now, map[], {}, map[], map[]) }

  /** An unexpired promise is backed by the stored lease, and attempt counts the claims. */
  ghost predicate Exclusive(w: World) {
    && (forall o, j :: (o, j) in w.latest && w.latest[(o, j)] > w.now ==>
          j in w.leases && w.leases[j].owner == o && w.leases[j].expiresAt == w.latest[(o, j)])
    && (forall j :: j in w.leases ==> w.leases[j].attempt == Claims(w, j) >= 1)
    && (forall j :: j !in w.leases ==> Claims(w, j) == 0)
  }

  lemma StepExclusive(w: World, l: Label)
    requires Exclusive(w)
    ensures Exclusive(Step(w, l))
  {
  }

  lemma {:induction false} AlwaysExclusive(w: World, ls: seq<Label>)
    requires Exclusive(w)
    ensures Exclusive(Run(w, ls))
    decreases ls
  {
    hide Exclusive, Step;
    if ls != [] {
      StepExclusive(w, ls[0]);
      AlwaysExclusive(Step(w, ls[0]), ls[1..]);
    }
  }

  /** For any runners and any interleaving, two owners never hold unexpired leases on one job. */
  lemma NoTwoOwners(now: real, ls: seq<Label>, job: JobId, o: OwnerId, o': OwnerId)
    requires var w := Run(Start(now), ls);
             && (o, job) in w.latest && w.latest[(o, job)] > w.now
             && (o', job) in w.latest && w.latest[(o', job)] > w.now
    ensures o == o' && job in Run(Start(now), ls).leases && Run(Start(now), ls).leases[job].owner == o
  {
    AlwaysExclusive(Start(now), ls);
  }

  /** attempt is the number of successful claims since the record was created. */
  lemma AttemptCountsClaims(now: real, ls: seq<Label>, job: JobId)
    requires job in Run(Start(now), ls).leases
    ensures Run(Start(now), ls).leases[job].attempt == Claims(Run(Start(now), ls), job) > 0
  {
    AlwaysExclusive(Start(now), ls);
  }

  // ---- How long a lease lasts -------------------------------------------------------------------

  /** The step is not an operation of this owner on this job. */
  predicate Aside(l: Label, job: JobId, owner: OwnerId) { l.Tick? || l.job != job || l.owner != owner }

  lemma {:induction false} UndisturbedLease(w: World, ls: seq<Label>, job: JobId, lease: Lease)
    requires forall l | l in ls :: Aside(l, job, lease.owner)
    requires job in w.leases && w.leases[job] == lease
    ensures w.now <= Run(w, ls).now
    ensures Run(w, ls).now < lease.expiresAt ==> job in Run(w, ls).leases && Run(w, ls).leases[job] == lease
    decreases ls
  {
    if ls != [] {
      var w1 := Step(w, ls[0]);
      assert Aside(ls[0], job, lease.owner);
      TimeGrows(w1, ls[1..]);
      if w1.now < lease.expiresAt { UndisturbedLease(w1, ls[1..], job, lease); }
    }
  }

  lemma {:induction false} TimeGrows(w: World, ls: seq<Label>)
    ensures w.now <= Run(w, ls).now
    decreases ls
  {
    if ls != [] { TimeGrows(Step(w, ls[0]), ls[1..]); }
  }

  lemma {:induction false} OwnersLease(w: World, ls: seq<Label>, job: JobId, lease: Lease)
    requires forall l | l in ls :: Aside(l, job, lease.owner)
    requires job in w.leases && w.leases[job].owner == lease.owner ==> w.leases[job] == lease
    ensures var w' := Run(w, ls);
            job in w'.leases && w'.leases[job].owner == lease.owner ==> w'.leases[job] == lease
    decreases ls
  {
    if ls != [] {
      assert Aside(ls[0], job, lease.owner);
      OwnersLease(Step(w, ls[0]), ls[1..], job, lease);
    }
  }

  /** A claim of a job that nobody else holds, and a heartbeat of the stored owner, give the job to that
      owner for exactly that many seconds: whatever the others do meanwhile, nobody else can claim it
      before, and anybody can afterwards. */
  lemma LeaseLastsItsSeconds(w: World, job: JobId, o: OwnerId, seconds: int, beat: bool, ls: seq<Label>,
                             o': OwnerId, seconds': int)
    requires if beat then job in w.leases && w.leases[job].owner == o
             else job in w.leases ==> w.leases[job].owner == o || w.leases[job].expiresAt <= w.now
    requires (forall l | l in ls :: Aside(l, job, o)) && o' != o
    ensures var w1 := Step(w, if beat then Heartbeat(job, o, seconds) else Claim(job, o, seconds));
            var w2 := Run(w1, ls);
            var w3 := Step(w2, Claim(job, o', seconds'));
            && job in w1.leases && w1.leases[job].owner == o && w1.leases[job].heartbeatAt == w.now
            && (w2.now < w.now + seconds as real ==>
                  job in w2.leases && w2.leases[job] == w1.leases[job] && w3 == w2)
            && (w2.now >= w.now + seconds as real && job in w2.leases && w2.leases[job].owner == o ==>
                  w3.leases[job].owner == o')
  {
    var w1 := Step(w, if beat then Heartbeat(job, o, seconds) else Claim(job, o, seconds));
    UndisturbedLease(w1, ls, job, w1.leases[job]);
    OwnersLease(w1, ls, job, w1.leases[job]);
    hide Run;
  }

  // ---- Every promise, not only the newest -------------------------------------------------------

  /** Every runner uses the lease duration of its own settings. */
  ghost predicate FixedLease(l: Label, seconds: OwnerId -> int) {
    l.Claim? || l.Heartbeat? ==> l.seconds == seconds(l.owner)
  }

  /** With a fixed duration per owner a newer promise never ends earlier than an older one. */
  ghost predicate LatestIsLongest(w: World, seconds: OwnerId -> int) {
    && (forall g :: g in w.grants ==> (g.owner, g.job) in w.latest && g.until <= w.latest[(g.owner, g.job)])
    && (forall k :: k in w.latest ==> w.latest[k] <= w.now + seconds(k.0) as real)
  }

  lemma StepLatestIsLongest(w: World, l: Label, seconds: OwnerId -> int)
    requires LatestIsLongest(w, seconds) && FixedLease(l, seconds)
    ensures LatestIsLongest(Step(w, l), seconds)
  {
  }

  lemma {:induction false} RunLatestIsLongest(w: World, ls: seq<Label>, seconds: OwnerId -> int)
    requires LatestIsLongest(w, seconds) && forall l | l in ls :: FixedLease(l, seconds)
    ensures LatestIsLongest(Run(w, ls), seconds)
    decreases ls
  {
    hide LatestIsLongest, Step;
    if ls != [] {
      assert FixedLease(ls[0], seconds);
      StepLatestIsLongest(w, ls[0], seconds);
      RunLatestIsLongest(Step(w, ls[0]), ls[1..], seconds);
    }
  }

  ghost predicate Backed(w: World, g: Grant) { g.job in w.leases && w.leases[g.job].owner == g.owner }

  /** When each runner keeps to its own lease duration, every unexpired grant that its owner has not
      released belongs to the stored owner. */
  lemma EveryGrantIsBacked(now: real, ls: seq<Label>, seconds: OwnerId -> int, g: Grant)
    requires forall l | l in ls :: FixedLease(l, seconds)
    requires g in Run(Start(now), ls).grants && g.until > Run(Start(now), ls).now
    ensures Backed(Run(Start(now), ls), g)
  {
    AlwaysExclusive(Start(now), ls);
    RunLatestIsLongest(Start(now), ls, seconds);
  }

  // ---- Arbitrary durations ----------------------------------------------------------------------

  /** A stored lease is the newest promise to its owner, and every promise has a newest one. */
  ghost predicate StoredIsLatest(w: World) {
    && (forall j :: j in w.leases ==> (w.leases[j].owner, j) in w.latest
                                      && w.leases[j].expiresAt == w.latest[(w.leases[j].owner, j)])
    && (forall g :: g in w.grants ==> (g.owner, g.job) in w.latest)
  }

  lemma StepStoredIsLatest(w: World, l: Label)
    requires StoredIsLatest(w)
    ensures StoredIsLatest(Step(w, l))
  {
  }

  lemma {:induction false} AlwaysStoredIsLatest(w: World, ls: seq<Label>)
    requires StoredIsLatest(w)
    ensures StoredIsLatest(Run(w, ls))
    decreases ls
  {
    hide StoredIsLatest, Step;
    if ls != [] {
      StepStoredIsLatest(w, ls[0]);
      AlwaysStoredIsLatest(Step(w, ls[0]), ls[1..]);
    }
  }

  /** No other owner's claim can take the job before the grant ends. */
  ghost predicate Secure(w: World, g: Grant) {
    forall e: real, o: OwnerId, seconds: int | e >= 0.0 && w.now + e < g.until && o != g.owner ::
      Backed(Step(Step(w, Tick(e)), Claim(g.job, o, seconds)), g)
  }

  /** With arbitrary durations an unexpired grant is secure exactly when its owner's newest promise
      for the job does not end earlier: only a shorter claim or heartbeat of its own revokes it. */
  lemma GrantIsSecureIffNewestIsLongest(now: real, ls: seq<Label>, g: Grant)
    requires g in Run(Start(now), ls).grants && g.until > Run(Start(now), ls).now
    ensures var w := Run(Start(now), ls);
            (g.owner, g.job) in w.latest && (Secure(w, g) <==> g.until <= w.latest[(g.owner, g.job)])
  {
    var w := Run(Start(now), ls);
    AlwaysExclusive(Start(now), ls);
    AlwaysStoredIsLatest(Start(now), ls);
    var end := w.latest[(g.owner, g.job)];
    if end < g.until {
      var e := if end > w.now then end - w.now else 0.0;
      assert !Backed(Step(Step(w, Tick(e)), Claim(g.job, g.owner + "'", 1)), g);
    }
  }

  /** A shorter heartbeat revokes a longer grant: after any run, an owner that claims a free job and
      then renews it for a shorter time can lose it to anyone before the first promise ends. */
  lemma ShorterHeartbeatRevokes(now: real, ls: seq<Label>, job: JobId, o: OwnerId, o': OwnerId, long: int, short: int,
                                seconds: int)
    requires job !in Run(Start(now), ls).leases && o != o' && 0 <= short < long
    ensures var w := Run(Start(now), ls);
            var w' := Run(w, [Claim(job, o, long), Heartbeat(job, o, short), Tick(short as real),
                              Claim(job, o', seconds)]);
            && Grant(o, job, w.now + long as real) in w'.grants && w.now + long as real > w'.now
            && job in w'.leases && w'.leases[job].owner == o'
  {
    var w := Run(Start(now), ls);
    var steps := [Claim(job, o, long), Heartbeat(job, o, short), Tick(short as real), Claim(job, o', seconds)];
    var w1 := Step(w, steps[0]);
    var w2 := Step(w1, steps[1]);
    var w3 := Step(w2, steps[2]);
    var w4 := Step(w3, steps[3]);
    assert w1.leases[job] == Lease(o, w.now + long as real, w.now, 1);
    assert w2.leases[job] == Lease(o, w.now + short as real, w.now, 1);
    assert w4.leases[job].owner == o' && Grant(o, job, w.now + long as real) in w4.grants;
    assert steps[1..] == [steps[1], steps[2], steps[3]];
    assert Run(w3, [steps[3]]) == w4;
    assert Run(w2, [steps[2], steps[3]]) == Run(w3, [steps[3]]);
    assert Run(w1, steps[1..]) == Run(w2, [steps[2], steps[3]]);
  }
}
