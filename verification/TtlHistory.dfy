/** Whole runs of the store on a non-decreasing clock, against a plain map that is never cleaned. */
module TtlHistory {
  import opened KeyOrder
  import opened TtlTables
  import opened TtlStore

  datatype Step =
    | SetStep(ns: string, key: Key, value: Value, retention: Option<int>)
    | DeleteStep(ns: string, key: Key)
    | MutateStep(ns: string, handler: seq<Mutation>, commit: bool)
    | CleanupStep
    | GetStep(ns: string, key: Key)
    | ListKeysStep(ns: string)
    | ListPageStep(ns: string, after: Option<Key>, limit: int, reverse: bool)

  datatype Event = Event(at: nat, step: Step)

  datatype Config = Config(limits: Limits, cleanupMaxDeletes: nat)

  // What a caller gets back. The boolean of delete is left out: it tells whether cleanup has run.
  datatype Obs =
    | Failed(error: StoreError) | Done
    | GotValue(value: Value) | GotKeys(keys: seq<Key>) | GotPage(page: Page) | GotSeen(seen: seq<Seen>)

  function Next(c: Config, spaces: Spaces, e: Event): Spaces {
    match e.step
    case SetStep(ns, key, value, retention) => AfterSet(spaces, c.limits, ns, key, value, retention, e.at)
    case DeleteStep(ns, key) => AfterDelete(spaces, ns, key)
    case MutateStep(ns, handler, commit) => AfterMutate(spaces, c.limits, ns, handler, commit)
    case CleanupStep => AfterCleanup(spaces, e.at, c.cleanupMaxDeletes)
    case GetStep(ns, key) => if KeyOutcome(ns, key).Some? then spaces else Registered(spaces, ns)
    case ListKeysStep(ns) => if Reserved(ns) then spaces else Registered(spaces, ns)
    case ListPageStep(ns, _, limit, _) => if limit < 1 || Reserved(ns) then spaces else Registered(spaces, ns)
  }

  /** What a read or write reports, given the data rows of its namespace. */
  function Report(c: Config, data: map<Key, Entry>, e: Event): Obs {
    match e.step
    case SetStep(ns, key, value, retention) =>
      var outcome := SetOutcome(c.limits, ns, key, value, retention, e.at);
      if outcome.Err? then Failed(outcome.error) else Done
    case DeleteStep(ns, key) =>
      var outcome := KeyOutcome(ns, key);
      if outcome.Some? then Failed(outcome.value) else Done
    case GetStep(ns, key) =>
      var outcome := KeyOutcome(ns, key);
      if outcome.Some? then Failed(outcome.value) else GotValue(Lookup(Visible(data, e.at), key))
    case ListKeysStep(ns) =>
      if Reserved(ns) then Failed(ReservedNamespace)
      else GotKeys(Directed(Visible(data, e.at).Keys, false))
    case ListPageStep(ns, after, limit, reverse) =>
      if limit < 1 then Failed(BadLimit)
      else if Reserved(ns) then Failed(ReservedNamespace)
      else GotPage(PageOf(Visible(data, e.at), after, limit, reverse))
    case CleanupStep => Done
    case MutateStep(ns, _, _) => if Reserved(ns) then Failed(ReservedNamespace) else Done
  }

  function Observe(c: Config, spaces: Spaces, e: Event): Obs {
    match e.step
    case MutateStep(ns, handler, _) =>
      if Reserved(ns) then Failed(ReservedNamespace) else GotSeen(SeenByAll(Space(spaces, ns), c.limits, handler))
    case CleanupStep => Done
    case _ => Report(c, Space(spaces, e.step.ns).data, e)
  }

  function Observations(c: Config, spaces: Spaces, history: seq<Event>): seq<Obs>
    decreases history
  {
    if history == [] then []
    else [Observe(c, spaces, history[0])] + Observations(c, Next(c, spaces, history[0]), history[1..])
  }

  function Final(c: Config, spaces: Spaces, history: seq<Event>): Spaces
    decreases history
  {
    if history == [] then spaces else Final(c, Next(c, spaces, history[0]), history[1..])
  }

  // ---- The reference: plain maps, no index, no cleanup ----------------------------------------

  type Plain = map<string, map<Key, Entry>>

  function PlainSpace(plain: Plain, ns: string): map<Key, Entry> {
    if ns in plain then plain[ns] else map[]
  }

  function PlainMutation(data: map<Key, Entry>, limits: Limits, m: Mutation): map<Key, Entry> {
    match m
    case GetKey(_, _) => data
    case SetKey(key, value, retention, at) =>
      var outcome := TxnSetOutcome(limits, key, value, retention, at);
      if outcome.Err? then data else data[key := Entry(outcome.value, value)]
    case DeleteKey(key, _) => if key == [] then data else data - {key}
  }

  function PlainAll(data: map<Key, Entry>, limits: Limits, ms: seq<Mutation>): map<Key, Entry>
    decreases ms
  {
    if ms == [] then data else PlainAll(PlainMutation(data, limits, ms[0]), limits, ms[1..])
  }

  function PlainSeen(data: map<Key, Entry>, limits: Limits, ms: seq<Mutation>): seq<Seen>
    decreases ms
  {
    if ms == [] then []
    else [SeenBy(data, limits, ms[0])] + PlainSeen(PlainMutation(data, limits, ms[0]), limits, ms[1..])
  }

  function PlainNext(c: Config, plain: Plain, e: Event): Plain {
    match e.step
    case SetStep(ns, key, value, retention) =>
      var outcome := SetOutcome(c.limits, ns, key, value, retention, e.at);
      if outcome.Err? then plain else plain[ns := PlainSpace(plain, ns)[key := Entry(outcome.value, value)]]
    case DeleteStep(ns, key) =>
      if KeyOutcome(ns, key).Some? then plain else plain[ns := PlainSpace(plain, ns) - {key}]
    case MutateStep(ns, handler, commit) =>
      if Reserved(ns) || !commit then plain
      else plain[ns := PlainAll(PlainSpace(plain, ns), c.limits, handler)]
    case _ => plain
  }

  function PlainObserve(c: Config, plain: Plain, e: Event): Obs {
    match e.step
    case MutateStep(ns, handler, _) =>
      if Reserved(ns) then Failed(ReservedNamespace)
      else GotSeen(PlainSeen(PlainSpace(plain, ns), c.limits, handler))
    case CleanupStep => Done
    case _ => Report(c, PlainSpace(plain, e.step.ns), e)
  }

  function PlainObservations(c: Config, plain: Plain, history: seq<Event>): seq<Obs>
    decreases history
  {
    if history == [] then []
    else [PlainObserve(c, plain, history[0])] + PlainObservations(c, PlainNext(c, plain, history[0]), history[1..])
  }

  // ---- The clock --------------------------------------------------------------------------------

  ghost predicate HandlerClocked(ms: seq<Mutation>, now: nat) {
    ms == [] || (now <= ms[0].at && HandlerClocked(ms[1..], ms[0].at))
  }

  function HandlerEnd(ms: seq<Mutation>, now: nat): nat {
    if ms == [] then now else HandlerEnd(ms[1..], ms[0].at)
  }

  ghost predicate EventClocked(e: Event) {
    e.step.MutateStep? ==> HandlerClocked(e.step.handler, e.at)
  }

  function EventEnd(e: Event): nat {
    if e.step.MutateStep? then HandlerEnd(e.step.handler, e.at) else e.at
  }

  /** Clock readings never decrease along the run. */
  ghost predicate Clocked(history: seq<Event>, now: nat)
    decreases history
  {
    history == [] || (now <= history[0].at && EventClocked(history[0]) && Clocked(history[1..], EventEnd(history[0])))
  }

  // ---- Simulation -------------------------------------------------------------------------------

  /** The stored rows are those of the plain map, except that expired ones may be gone. */
  ghost predicate Agrees(data: map<Key, Entry>, plain: map<Key, Entry>, now: nat) {
    && (forall k | k in data :: k in plain && plain[k] == data[k])
    && (forall k | k in plain :: k in data || Expired(plain[k], now))
  }

  ghost predicate AgreesIn(spaces: Spaces, plain: Plain, ns: string, now: nat) {
    Agrees(Space(spaces, ns).data, PlainSpace(plain, ns), now)
  }

  ghost predicate AllAgree(spaces: Spaces, plain: Plain, now: nat) {
    forall ns :: AgreesIn(spaces, plain, ns, now)
  }

  lemma AgreesSameView(data: map<Key, Entry>, plain: map<Key, Entry>, now: nat, at: nat)
    requires Agrees(data, plain, now) && now <= at
    ensures Agrees(data, plain, at) && Visible(data, at) == Visible(plain, at)
  {
  }

  lemma AgreesUnderMutation(t: Tables, plain: map<Key, Entry>, limits: Limits, m: Mutation, now: nat)
    requires Agrees(t.data, plain, now) && now <= m.at
    ensures Agrees(ApplyMutation(t, limits, m).data, PlainMutation(plain, limits, m), m.at)
    ensures SeenBy(t.data, limits, m) == SeenBy(plain, limits, m)
  {
    AgreesSameView(t.data, plain, now, m.at);
  }

  lemma {:induction false} AgreesUnderHandler(t: Tables, plain: map<Key, Entry>, limits: Limits, ms: seq<Mutation>,
                                              now: nat)
    requires Agrees(t.data, plain, now) && HandlerClocked(ms, now)
    ensures Agrees(ApplyAll(t, limits, ms).data, PlainAll(plain, limits, ms), HandlerEnd(ms, now))
    ensures SeenByAll(t, limits, ms) == PlainSeen(plain, limits, ms)
    ensures now <= HandlerEnd(ms, now)
    decreases ms
  {
    hide ApplyMutation, PlainMutation, SeenBy, Agrees;
    if ms != [] {
      AgreesUnderMutation(t, plain, limits, ms[0], now);
      AgreesUnderHandler(ApplyMutation(t, limits, ms[0]), PlainMutation(plain, limits, ms[0]), limits, ms[1..],
                         ms[0].at);
    }
  }

  lemma AgreesUnderSweep(spaces: Spaces, plain: Plain, nss: seq<string>, now: nat, budget: nat)
    requires AllAgree(spaces, plain, now)
    ensures AllAgree(Sweep(spaces, nss, now, budget), plain, now)
  {
    SweepRemovesOnlyExpired(spaces, nss, now, budget);
    hide Sweep, Space, PlainSpace;
    forall ns ensures AgreesIn(Sweep(spaces, nss, now, budget), plain, ns, now) {
      assert AgreesIn(spaces, plain, ns, now);
    }
  }

  lemma AllAgreeLater(spaces: Spaces, plain: Plain, now: nat, at: nat)
    requires AllAgree(spaces, plain, now) && now <= at
    ensures AllAgree(spaces, plain, at)
  {
    forall ns ensures AgreesIn(spaces, plain, ns, at) {
      assert AgreesIn(spaces, plain, ns, now);
      AgreesSameView(Space(spaces, ns).data, PlainSpace(plain, ns), now, at);
    }
  }

  lemma AgreesWhereUpdated(spaces: Spaces, plain: Plain, ns: string, t: Tables, data: map<Key, Entry>, at: nat)
    requires AllAgree(spaces, plain, at) && Agrees(t.data, data, at)
    ensures AllAgree(spaces[ns := t], plain[ns := data], at)
  {
    var spaces', plain' := spaces[ns := t], plain[ns := data];
    forall n ensures AgreesIn(spaces', plain', n, at) {
      assert AgreesIn(spaces, plain, n, at);
    }
  }

  lemma AgreesWhereRegistered(spaces: Spaces, plain: Plain, ns: string, at: nat)
    requires AllAgree(spaces, plain, at)
    ensures AllAgree(Registered(spaces, ns), plain, at)
  {
    forall n ensures AgreesIn(Registered(spaces, ns), plain, n, at) {
      assert AgreesIn(spaces, plain, n, at);
    }
  }

  lemma StepSimulates(c: Config, spaces: Spaces, plain: Plain, e: Event, now: nat)
    requires AllAgree(spaces, plain, now) && now <= e.at && EventClocked(e)
    ensures AllAgree(Next(c, spaces, e), PlainNext(c, plain, e), EventEnd(e))
    ensures Observe(c, spaces, e) == PlainObserve(c, plain, e)
    ensures now <= EventEnd(e)
  {
    AllAgreeLater(spaces, plain, now, e.at);
    if e.step.CleanupStep? {
      hide AllAgree, Sweep, Directed;
      AgreesUnderSweep(spaces, plain, Directed(spaces.Keys, false), e.at, c.cleanupMaxDeletes);
    } else if e.step.MutateStep? {
      MutateSimulates(c, spaces, plain, e);
    } else {
      SimpleSimulates(c, spaces, plain, e);
    }
  }

  lemma MutateSimulates(c: Config, spaces: Spaces, plain: Plain, e: Event)
    requires AllAgree(spaces, plain, e.at) && EventClocked(e) && e.step.MutateStep?
    ensures AllAgree(Next(c, spaces, e), PlainNext(c, plain, e), EventEnd(e))
    ensures Observe(c, spaces, e) == PlainObserve(c, plain, e)
    ensures e.at <= EventEnd(e)
  {
    hide Reserved, ApplyAll, PlainAll, SeenByAll, PlainSeen, AllAgree;
    var ns, handler := e.step.ns, e.step.handler;
    var t, data := Space(spaces, ns), PlainSpace(plain, ns);
    AgreesAt(spaces, plain, ns, e.at);
    AgreesUnderHandler(t, data, c.limits, handler, e.at);
    AllAgreeLater(spaces, plain, e.at, EventEnd(e));
    AgreesWhereRegistered(spaces, plain, ns, EventEnd(e));
    AgreesWhereUpdated(spaces, plain, ns, ApplyAll(t, c.limits, handler), PlainAll(data, c.limits, handler),
                       EventEnd(e));
  }

  lemma SimpleSimulates(c: Config, spaces: Spaces, plain: Plain, e: Event)
    requires AllAgree(spaces, plain, e.at) && !e.step.MutateStep? && !e.step.CleanupStep?
    ensures AllAgree(Next(c, spaces, e), PlainNext(c, plain, e), e.at)
    ensures Observe(c, spaces, e) == PlainObserve(c, plain, e)
  {
    hide SetOutcome, KeyOutcome, Reserved, Directed, Visible, AllAgree;
    var ns := e.step.ns;
    var t, data := Space(spaces, ns), PlainSpace(plain, ns);
    AgreesAt(spaces, plain, ns, e.at);
    AgreesSameView(t.data, data, e.at, e.at);
    AgreesWhereRegistered(spaces, plain, ns, e.at);
    match e.step
    case SetStep(_, key, value, retention) =>
      var outcome := SetOutcome(c.limits, ns, key, value, retention, e.at);
      if outcome.Ok? {
        var entry := Entry(outcome.value, value);
        AgreesWhereUpdated(spaces, plain, ns, Put(t, key, entry), data[key := entry], e.at);
      }
    case DeleteStep(_, key) =>
      AgreesWhereUpdated(spaces, plain, ns, Remove(t, key), data - {key}, e.at);
    case _ =>
  }

  lemma AgreesAt(spaces: Spaces, plain: Plain, ns: string, at: nat)
    requires AllAgree(spaces, plain, at)
    ensures Agrees(Space(spaces, ns).data, PlainSpace(plain, ns), at)
  {
    assert AgreesIn(spaces, plain, ns, at);
  }

  lemma {:induction false} RunSimulates(c: Config, spaces: Spaces, plain: Plain, history: seq<Event>, now: nat)
    requires AllAgree(spaces, plain, now) && Clocked(history, now)
    ensures Observations(c, spaces, history) == PlainObservations(c, plain, history)
    decreases history
  {
    hide AllAgree, Next, PlainNext, Observe, PlainObserve, EventClocked, EventEnd;
    if history != [] {
      var e := history[0];
      StepSimulates(c, spaces, plain, e, now);
      RunSimulates(c, Next(c, spaces, e), PlainNext(c, plain, e), history[1..], EventEnd(e));
    }
  }

  /** Cleanup is never observable: every run of a fresh store reports exactly what a plain map of
      entries with expiry times, never cleaned, would report. */
  lemma CleanupIsInvisible(c: Config, history: seq<Event>, now: nat)
    requires Clocked(history, now)
    ensures Observations(c, map[], history) == PlainObservations(c, map[], history)
  {
    RunSimulates(c, map[], map[], history, now);
  }

  // ---- The invariant over whole runs ------------------------------------------------------------

  lemma {:induction false} HandlerConsistent(t: Tables, limits: Limits, ms: seq<Mutation>)
    requires Consistent(t)
    ensures Consistent(ApplyAll(t, limits, ms))
    decreases ms
  {
    if ms != [] {
      var next := ApplyMutation(t, limits, ms[0]);
      assert Consistent(next) by {
        match ms[0]
        case SetKey(key, value, retention, at) =>
          var outcome := TxnSetOutcome(limits, key, value, retention, at);
          MutationsConsistent(t, key, Entry(if outcome.Ok? then outcome.value else 0, value));
        case DeleteKey(key, _) => MutationsConsistent(t, key, Entry(0, Null));
        case _ =>
      }
      HandlerConsistent(next, limits, ms[1..]);
    }
  }

  lemma StepConsistent(c: Config, spaces: Spaces, e: Event)
    requires AllConsistent(spaces)
    ensures AllConsistent(Next(c, spaces, e))
  {
    hide Put, Remove, ApplyAll, SetOutcome, Consistent, Sweep, Directed, Space;
    if e.step.CleanupStep? {
      SweepConsistent(spaces, Directed(spaces.Keys, false), e.at, c.cleanupMaxDeletes);
      return;
    }
    SpaceConsistent(spaces, e.step.ns);
    match e.step
    case SetStep(ns, key, value, retention) =>
      var outcome := SetOutcome(c.limits, ns, key, value, retention, e.at);
      MutationsConsistent(Space(spaces, ns), key, Entry(if outcome.Ok? then outcome.value else 0, value));
    case DeleteStep(ns, key) => MutationsConsistent(Space(spaces, ns), key, Entry(0, Null));
    case MutateStep(ns, handler, _) => HandlerConsistent(Space(spaces, ns), c.limits, handler);
    case _ =>
  }

  /** In every reachable state of the store, metadata and index agree with the data rows. */
  lemma {:induction false} ReachableConsistent(c: Config, spaces: Spaces, history: seq<Event>)
    requires AllConsistent(spaces)
    ensures AllConsistent(Final(c, spaces, history))
    decreases history
  {
    hide Next;
    if history != [] {
      StepConsistent(c, spaces, history[0]);
      ReachableConsistent(c, Next(c, spaces, history[0]), history[1..]);
    }
  }

  // ---- Keys that lost their row -----------------------------------------------------------------

  predicate MutationSpares(m: Mutation, key: Key) { m.GetKey? || m.key != key }

  /** The event does not write the key. */
  predicate Spares(e: Event, ns: string, key: Key) {
    match e.step
    case SetStep(n, k, _, _) => n != ns || k != key
    case DeleteStep(n, k) => n != ns || k != key
    case MutateStep(n, handler, _) => n != ns || forall m | m in handler :: MutationSpares(m, key)
    case _ => true
  }

  lemma {:induction false} SweepKeepsRowless(spaces: Spaces, nss: seq<string>, now: nat, budget: nat, ns: string,
                                             key: Key, e: Entry)
    requires Rowless(Space(spaces, ns), key, e)
    ensures Rowless(Space(Sweep(spaces, nss, now, budget), ns), key, e)
    decreases nss
  {
    hide Clean, CleanCount, Rowless;
    if nss != [] && budget != 0 {
      var t := Space(spaces, nss[0]);
      if nss[0] == ns { CleanKeepsRowless(t, now, budget, key, e); }
      SweepKeepsRowless(spaces[nss[0] := Clean(t, now, budget)], nss[1..], now, budget - CleanCount(t, now, budget), ns,
                        key, e);
    }
  }

  lemma {:induction false} HandlerKeepsRowless(t: Tables, limits: Limits, ms: seq<Mutation>, key: Key, e: Entry)
    requires Rowless(t, key, e) && forall m | m in ms :: MutationSpares(m, key)
    ensures Rowless(ApplyAll(t, limits, ms), key, e)
    decreases ms
  {
    hide TxnSetOutcome;
    if ms != [] {
      assert MutationSpares(ms[0], key);
      HandlerKeepsRowless(ApplyMutation(t, limits, ms[0]), limits, ms[1..], key, e);
    }
  }

  lemma StepKeepsRowless(c: Config, spaces: Spaces, event: Event, ns: string, key: Key, e: Entry)
    requires Rowless(Space(spaces, ns), key, e) && Spares(event, ns, key)
    ensures Rowless(Space(Next(c, spaces, event), ns), key, e)
  {
    hide SetOutcome, KeyOutcome, Reserved, ApplyAll, Sweep, Directed;
    match event.step
    case CleanupStep =>
      SweepKeepsRowless(spaces, Directed(spaces.Keys, false), event.at, c.cleanupMaxDeletes, ns, key, e);
    case MutateStep(n, handler, _) =>
      if n == ns { HandlerKeepsRowless(Space(spaces, ns), c.limits, handler, key, e); }
    case _ =>
  }

  /** A key without a row keeps its entry through every run that does not write it, with any number of
      cleanup passes at any times: cleanup alone never reclaims it. */
  lemma {:induction false} RowlessIsNeverPurged(c: Config, spaces: Spaces, history: seq<Event>, ns: string, key: Key,
                                                e: Entry)
    requires Rowless(Space(spaces, ns), key, e) && forall event | event in history :: Spares(event, ns, key)
    ensures Rowless(Space(Final(c, spaces, history), ns), key, e)
    decreases history
  {
    hide Next, Rowless, Spares;
    if history != [] {
      assert Spares(history[0], ns, key);
      StepKeepsRowless(c, spaces, history[0], ns, key, e);
      RowlessIsNeverPurged(c, Next(c, spaces, history[0]), history[1..], ns, key, e);
    }
  }
}
