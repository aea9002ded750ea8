/** When the cleanup does reclaim what has expired. */
module TtlReclaim {
  import opened KeyOrder
  import opened TtlTables
  import opened TtlStore
  import opened TtlHistory
  import opened TtlLastWrite

  /** An index row leads to the entry of the key, as long as it is stored. */
  ghost predicate Reached(t: Tables, key: Key, e: Entry) {
    key in t.data ==> t.data[key] == e && Row(e.expiry / 60, key) in t.exp
  }

  /** No cleanup falls into the part of the minute of the expiry that lies before it. */
  predicate AvoidsMinute(event: Event, expiry: nat) {
    event.step.CleanupStep? ==> event.at < expiry / 60 * 60 || expiry <= event.at
  }

  lemma PutIsReached(t: Tables, key: Key, e: Entry)
    ensures e.expiry != 0 ==> Reached(Put(t, key, e), key, e)
    ensures e.expiry == 0 ==> forall r | r in Put(t, key, e).exp :: r.key != key
  {
  }

  lemma CleanReaches(t: Tables, now: nat, room: nat, key: Key, e: Entry)
    requires Reached(t, key, e) && e.expiry != 0 && (now < e.expiry / 60 * 60 || e.expiry <= now)
    ensures Reached(Clean(t, now, room), key, e)
  {
    var row, taken := Row(e.expiry / 60, key), Taken(t, now, room);
    if key in t.data && row in taken {
      assert row.bucket <= now / 60;
      assert Expired(t.data[key], now) && row.key in Gone(t, taken, now);
    }
  }

  lemma {:induction false} SweepReaches(spaces: Spaces, nss: seq<string>, now: nat, budget: nat, ns: string,
                                        key: Key, e: Entry)
    requires Reached(Space(spaces, ns), key, e) && e.expiry != 0 && (now < e.expiry / 60 * 60 || e.expiry <= now)
    ensures Reached(Space(Sweep(spaces, nss, now, budget), ns), key, e)
    ensures spaces.Keys <= Sweep(spaces, nss, now, budget).Keys
    decreases nss
  {
    hide Clean, CleanCount, Reached;
    if nss != [] && budget != 0 {
      var t := Space(spaces, nss[0]);
      if nss[0] == ns { CleanReaches(t, now, budget, key, e); }
      SweepReaches(spaces[nss[0] := Clean(t, now, budget)], nss[1..], now, budget - CleanCount(t, now, budget), ns,
                   key, e);
    }
  }

  lemma {:induction false} HandlerReaches(t: Tables, limits: Limits, ms: seq<Mutation>, key: Key, e: Entry)
    requires Reached(t, key, e) && forall m | m in ms :: MutationSpares(m, key)
    ensures Reached(ApplyAll(t, limits, ms), key, e)
    decreases ms
  {
    hide TxnSetOutcome;
    if ms != [] {
      assert MutationSpares(ms[0], key);
      HandlerReaches(ApplyMutation(t, limits, ms[0]), limits, ms[1..], key, e);
    }
  }

  lemma StepReaches(c: Config, spaces: Spaces, event: Event, ns: string, key: Key, e: Entry)
    requires Reached(Space(spaces, ns), key, e) && e.expiry != 0
    requires Spares(event, ns, key) && AvoidsMinute(event, e.expiry)
    ensures Reached(Space(Next(c, spaces, event), ns), key, e) && spaces.Keys <= Next(c, spaces, event).Keys
  {
    hide SetOutcome, KeyOutcome, Reserved, ApplyAll, Sweep, Directed;
    match event.step
    case CleanupStep =>
      SweepReaches(spaces, Directed(spaces.Keys, false), event.at, c.cleanupMaxDeletes, ns, key, e);
    case MutateStep(n, handler, _) =>
      if n == ns { HandlerReaches(Space(spaces, ns), c.limits, handler, key, e); }
    case _ =>
  }

  lemma {:induction false} RunReaches(c: Config, spaces: Spaces, history: seq<Event>, ns: string, key: Key, e: Entry)
    requires Reached(Space(spaces, ns), key, e) && e.expiry != 0
    requires forall event | event in history :: Spares(event, ns, key) && AvoidsMinute(event, e.expiry)
    ensures Reached(Space(Final(c, spaces, history), ns), key, e) && spaces.Keys <= Final(c, spaces, history).Keys
    decreases history
  {
    hide Next, Reached, Spares, AvoidsMinute;
    if history != [] {
      assert Spares(history[0], ns, key) && AvoidsMinute(history[0], e.expiry);
      StepReaches(c, spaces, history[0], ns, key, e);
      RunReaches(c, Next(c, spaces, history[0]), history[1..], ns, key, e);
    }
  }

  /** An accepted set at time t with a retention of m minutes is reclaimed, in any run that does not write
      the key again, by every cleanup from t + 60 m on whose budget covers the due rows of all
      namespaces, if no earlier cleanup fell into the minute of the expiry before it. */
  lemma ExpiredIsReclaimed(c: Config, spaces: Spaces, ns: string, key: Key, value: Value, minutes: int, t: nat,
                           quiet: seq<Event>, at: nat)
    requires AllConsistent(spaces) && Accepted(c.limits, key, value, Some(minutes), t) && !Reserved(ns)
    requires forall e | e in quiet :: Spares(e, ns, key) && AvoidsMinute(e, t + 60 * minutes)
    requires var left := Final(c, Next(c, spaces, Event(t, SetStep(ns, key, value, Some(minutes)))), quiet);
             DueIn(left, Directed(left.Keys, false), at) <= c.cleanupMaxDeletes && t + 60 * minutes <= at
    ensures var left := Final(c, Next(c, spaces, Event(t, SetStep(ns, key, value, Some(minutes)))), quiet);
            key !in Space(Next(c, left, Event(at, CleanupStep)), ns).data
  {
    hide Put, Reached, Sweep, Directed, DueIn, Reserved, Accepted, SetOutcome, AllConsistent, CleanCount, Clean;
    AcceptedIs(c.limits, ns, key, value, Some(minutes), t);
    var write, e := Event(t, SetStep(ns, key, value, Some(minutes))), Entry(t + 60 * minutes, value);
    var stored := Next(c, spaces, write);
    assert Space(stored, ns) == Put(Space(spaces, ns), key, e);
    PutIsReached(Space(spaces, ns), key, e);
    ReachableConsistent(c, spaces, [write] + quiet);
    assert ([write] + quiet)[1..] == quiet;
    RunReaches(c, stored, quiet, ns, key, e);
    ReclaimedNow(Final(c, stored, quiet), ns, key, e, at, c.cleanupMaxDeletes);
  }

  lemma ReclaimedNow(spaces: Spaces, ns: string, key: Key, e: Entry, now: nat, budget: nat)
    requires AllConsistent(spaces) && ns in spaces && Reached(Space(spaces, ns), key, e)
    requires 0 < e.expiry <= now && DueIn(spaces, Directed(spaces.Keys, false), now) <= budget
    ensures key !in Space(AfterCleanup(spaces, now, budget), ns).data
  {
    hide Sweep, Directed, DueIn;
    var nss := Directed(spaces.Keys, false);
    assert ns in nss;
    DirectedIsDistinct(spaces.Keys);
    if key in Space(spaces, ns).data {
      var i :| 0 <= i < |nss| && nss[i] == ns;
      SweepComplete(spaces, nss, now, budget, i, Row(e.expiry / 60, key));
    } else {
      SweepRemovesOnlyExpired(spaces, nss, now, budget);
    }
  }
}
