/** What readers get, in terms of the writes of a run alone: every read sees the last accepted write of
    each key, for exactly its retention. */
module TtlLastWrite {
  import opened KeyOrder
  import opened TtlTables
  import opened TtlStore
  import opened TtlHistory

  // ---- The last write of a key ------------------------------------------------------------------

  datatype Written = Nothing | Stored(value: Value, retention: Option<int>, at: nat)

  /** A write with these arguments takes effect; retention counts minutes. */
  predicate Accepted(limits: Limits, key: Key, value: Value, retention: Option<int>, at: nat) {
    && key != [] && Utf8Length(key) <= limits.keyBytes && EncodedLength(value) <= limits.valueBytes
    && (retention.Some? ==> 1 <= retention.value && at + 60 * retention.value < 0x8000_0000_0000_0000)
  }

  /** The write is still to be seen: always without retention, otherwise until that many minutes are
      over. */
  predicate Lasts(w: Written, now: nat) {
    w.Stored? && w.value != Null && (w.retention.Some? ==> now < w.at + 60 * w.retention.value)
  }

  function Rewritten(limits: Limits, w: Written, m: Mutation, key: Key): Written {
    match m
    case GetKey(_, _) => w
    case SetKey(k, value, retention, at) =>
      if k == key && Accepted(limits, k, value, retention, at) then Stored(value, retention, at) else w
    case DeleteKey(k, _) => if k == key then Nothing else w
  }

  function RewrittenAll(limits: Limits, w: Written, ms: seq<Mutation>, key: Key): Written
    decreases ms
  {
    if ms == [] then w else RewrittenAll(limits, Rewritten(limits, w, ms[0], key), ms[1..], key)
  }

  function After(c: Config, w: Written, e: Event, ns: string, key: Key): Written {
    match e.step
    case SetStep(n, k, value, retention) =>
      if n == ns && k == key && Accepted(c.limits, k, value, retention, e.at) then Stored(value, retention, e.at) else w
    case DeleteStep(n, k) => if n == ns && k == key then Nothing else w
    case MutateStep(n, handler, commit) => if n == ns && commit then RewrittenAll(c.limits, w, handler, key) else w
    case _ => w
  }

  function LastWrite(c: Config, w: Written, history: seq<Event>, ns: string, key: Key): Written
    decreases history
  {
    if history == [] then w else LastWrite(c, After(c, w, history[0], ns, key), history[1..], ns, key)
  }

  // ---- The plain map holds it -------------------------------------------------------------------

  function ExpiryOf(w: Written): nat
    requires w.Stored? && (w.retention.Some? ==> 1 <= w.retention.value)
  {
    if w.retention.None? then 0 else w.at + 60 * w.retention.value
  }

  ghost predicate Holds(data: map<Key, Entry>, key: Key, w: Written) {
    if key !in data then w == Nothing
    else
      && key != [] && w.Stored? && (w.retention.Some? ==> 1 <= w.retention.value)
      && data[key] == Entry(ExpiryOf(w), w.value)
  }

  lemma AcceptedIs(limits: Limits, ns: string, key: Key, value: Value, retention: Option<int>, at: nat)
    ensures var w, accepted := Stored(value, retention, at), Accepted(limits, key, value, retention, at);
            var single, inTxn := SetOutcome(limits, ns, key, value, retention, at),
                                 TxnSetOutcome(limits, key, value, retention, at);
            && (accepted ==> key != [] && (retention.Some? ==> 1 <= retention.value))
            && (inTxn.Ok? <==> accepted) && (accepted ==> inTxn == Ok(ExpiryOf(w)))
            && (single.Ok? <==> accepted && !Reserved(ns)) && (single.Ok? ==> single == Ok(ExpiryOf(w)))
  {
    hide Utf8Length, EncodedLength, Reserved;
  }

  /** Why a set is refused: the first of these reasons that applies, and no other. */
  lemma RefusalIs(limits: Limits, ns: string, key: Key, value: Value, retention: Option<int>, at: nat)
    ensures var outcome := SetOutcome(limits, ns, key, value, retention, at);
            var bad := retention.Some? && retention.value < 1;
            var late := retention.Some? && at + 60 * retention.value >= 0x8000_0000_0000_0000;
            && (outcome == Err(EmptyKey) <==> key == [])
            && (outcome == Err(BadRetention) <==> key != [] && bad)
            && (outcome == Err(ExpiryOverflow) <==> key != [] && !bad && late)
            && (outcome == Err(ReservedNamespace) <==> key != [] && !bad && !late && Reserved(ns))
            && (outcome == Err(KeyTooLong) <==>
                  key != [] && !bad && !late && !Reserved(ns) && Utf8Length(key) > limits.keyBytes)
            && (outcome == Err(ValueTooLarge) <==>
                  && key != [] && !bad && !late && !Reserved(ns)
                  && Utf8Length(key) <= limits.keyBytes && EncodedLength(value) > limits.valueBytes)
            && outcome != Err(BadLimit)
  {
    hide Utf8Length, EncodedLength, Reserved;
  }

  lemma MutationHolds(data: map<Key, Entry>, limits: Limits, m: Mutation, key: Key, w: Written)
    requires Holds(data, key, w)
    ensures Holds(PlainMutation(data, limits, m), key, Rewritten(limits, w, m, key))
  {
    hide Accepted, TxnSetOutcome;
    if m.SetKey? { AcceptedIs(limits, "", m.key, m.value, m.retention, m.at); }
  }

  lemma {:induction false} HandlerHolds(data: map<Key, Entry>, limits: Limits, ms: seq<Mutation>, key: Key, w: Written)
    requires Holds(data, key, w)
    ensures Holds(PlainAll(data, limits, ms), key, RewrittenAll(limits, w, ms, key))
    decreases ms
  {
    hide PlainMutation, Rewritten, Holds;
    if ms != [] {
      MutationHolds(data, limits, ms[0], key, w);
      HandlerHolds(PlainMutation(data, limits, ms[0]), limits, ms[1..], key, Rewritten(limits, w, ms[0], key));
    }
  }

  lemma StepHolds(c: Config, plain: Plain, e: Event, ns: string, key: Key, w: Written)
    requires Holds(PlainSpace(plain, ns), key, w) && !Reserved(ns)
    ensures Holds(PlainSpace(PlainNext(c, plain, e), ns), key, After(c, w, e, ns, key))
  {
    hide Accepted, SetOutcome, TxnSetOutcome, Reserved, PlainAll, RewrittenAll;
    match e.step
    case SetStep(n, k, value, retention) => AcceptedIs(c.limits, n, k, value, retention, e.at);
    case MutateStep(n, handler, _) =>
      if n == ns { HandlerHolds(PlainSpace(plain, ns), c.limits, handler, key, w); }
    case _ =>
  }

  function PlainFinal(c: Config, plain: Plain, history: seq<Event>): Plain
    decreases history
  {
    if history == [] then plain else PlainFinal(c, PlainNext(c, plain, history[0]), history[1..])
  }

  lemma {:induction false} RunHolds(c: Config, plain: Plain, history: seq<Event>, ns: string, key: Key, w: Written)
    requires Holds(PlainSpace(plain, ns), key, w) && !Reserved(ns)
    ensures Holds(PlainSpace(PlainFinal(c, plain, history), ns), key, LastWrite(c, w, history, ns, key))
    decreases history
  {
    hide PlainNext, After, Holds, Reserved;
    if history != [] {
      StepHolds(c, plain, history[0], ns, key, w);
      RunHolds(c, PlainNext(c, plain, history[0]), history[1..], ns, key, After(c, w, history[0], ns, key));
    }
  }

  lemma {:induction false} LastObservation(c: Config, plain: Plain, history: seq<Event>, e: Event)
    ensures PlainObservations(c, plain, history + [e]) ==
              PlainObservations(c, plain, history) + [PlainObserve(c, PlainFinal(c, plain, history), e)]
    decreases history
  {
    hide PlainNext, PlainObserve;
    var all := history + [e];
    if history == [] {
      assert all == [e] && all[1..] == [];
      assert PlainObservations(c, PlainNext(c, plain, e), []) == [];
    } else {
      assert all[0] == history[0] && all[1..] == history[1..] + [e];
      LastObservation(c, PlainNext(c, plain, history[0]), history[1..], e);
    }
  }

  // ---- What readers get -------------------------------------------------------------------------

  /** Exactly the keys whose last accepted write still lasts are visible, with the value it stored. */
  lemma ViewIsLastWrites(c: Config, history: seq<Event>, ns: string, key: Key, now: nat)
    requires !Reserved(ns)
    ensures var view := Visible(PlainSpace(PlainFinal(c, map[], history), ns), now);
            var w := LastWrite(c, Nothing, history, ns, key);
            (key in view <==> Lasts(w, now)) && (key in view ==> view[key] == w.value)
  {
    hide Reserved;
    RunHolds(c, map[], history, ns, key, Nothing);
  }

  /** In every run of a fresh store on a non-decreasing clock, with any operations, transactions and
      cleanup passes, a get returns the value of the last accepted write of the key, until the minutes
      of its retention are over or for ever without one, and None otherwise. */
  lemma GetReturnsLastWrite(c: Config, history: seq<Event>, ns: string, key: Key, at: nat, now: nat)
    requires Clocked(history + [Event(at, GetStep(ns, key))], now) && key != [] && !Reserved(ns)
    ensures var seen := Observations(c, map[], history + [Event(at, GetStep(ns, key))]);
            var w := LastWrite(c, Nothing, history, ns, key);
            seen != [] && seen[|seen| - 1] == GotValue(if Lasts(w, at) then w.value else Null)
  {
    hide Reserved, LastWrite, Lasts, Clocked, Visible, Observations, PlainObservations;
    var e := Event(at, GetStep(ns, key));
    CleanupIsInvisible(c, history + [e], now);
    LastObservation(c, map[], history, e);
    ViewIsLastWrites(c, history, ns, key, at);
  }

  /** Listing reports exactly the keys of such writes. */
  lemma ListReportsLastWrites(c: Config, history: seq<Event>, ns: string, key: Key, at: nat, now: nat)
    requires Clocked(history + [Event(at, ListKeysStep(ns))], now) && !Reserved(ns)
    ensures var seen := Observations(c, map[], history + [Event(at, ListKeysStep(ns))]);
            && seen != [] && seen[|seen| - 1].GotKeys?
            && (key in seen[|seen| - 1].keys <==> Lasts(LastWrite(c, Nothing, history, ns, key), at))
  {
    hide Reserved, LastWrite, Lasts, Clocked, Visible, Observations, PlainObservations;
    var e := Event(at, ListKeysStep(ns));
    CleanupIsInvisible(c, history + [e], now);
    LastObservation(c, map[], history, e);
    ViewIsLastWrites(c, history, ns, key, at);
  }

  /** What the k-th operation of a handler sees, when it is a get. */
  lemma {:induction false} HandlerGetSees(data: map<Key, Entry>, limits: Limits, ms: seq<Mutation>, k: nat, w: Written)
    requires k < |ms| && ms[k].GetKey? && ms[k].key != [] && Holds(data, ms[k].key, w)
    ensures var last := RewrittenAll(limits, w, ms[..k], ms[k].key);
            && |PlainSeen(data, limits, ms)| == |ms|
            && PlainSeen(data, limits, ms)[k] == SawValue(if Lasts(last, ms[k].at) then last.value else Null)
    decreases k
  {
    hide PlainMutation, Rewritten;
    SeenLength(data, limits, ms);
    if k > 0 {
      var key := ms[k].key;
      MutationHolds(data, limits, ms[0], key, w);
      HandlerGetSees(PlainMutation(data, limits, ms[0]), limits, ms[1..], k - 1, Rewritten(limits, w, ms[0], key));
      assert ms[..k][0] == ms[0] && ms[..k][1..] == ms[1..][..k - 1];
      hide Holds, Lasts, SeenBy;
    }
  }

  lemma {:induction false} SeenLength(data: map<Key, Entry>, limits: Limits, ms: seq<Mutation>)
    ensures |PlainSeen(data, limits, ms)| == |ms|
    decreases ms
  {
    hide PlainMutation, SeenBy;
    if ms != [] { SeenLength(PlainMutation(data, limits, ms[0]), limits, ms[1..]); }
  }

  /** A get inside a transaction returns the last accepted write of the key, those of the transaction so
      far included. */
  lemma TransactionReadsItsWrites(c: Config, history: seq<Event>, ns: string, handler: seq<Mutation>, commit: bool,
                                  k: nat, at: nat, now: nat)
    requires Clocked(history + [Event(at, MutateStep(ns, handler, commit))], now) && !Reserved(ns)
    requires k < |handler| && handler[k].GetKey? && handler[k].key != []
    ensures var seen := Observations(c, map[], history + [Event(at, MutateStep(ns, handler, commit))]);
            var key := handler[k].key;
            var w := RewrittenAll(c.limits, LastWrite(c, Nothing, history, ns, key), handler[..k], key);
            && seen != [] && seen[|seen| - 1].GotSeen? && |seen[|seen| - 1].seen| == |handler|
            && seen[|seen| - 1].seen[k] == SawValue(if Lasts(w, handler[k].at) then w.value else Null)
  {
    hide Reserved, LastWrite, Lasts, Clocked, PlainSeen, Observations, PlainObservations, RewrittenAll, PlainFinal,
        Holds;
    var e := Event(at, MutateStep(ns, handler, commit));
    CleanupIsInvisible(c, history + [e], now);
    LastObservation(c, map[], history, e);
    NothingHeld(handler[k].key);
    RunHolds(c, map[], history, ns, handler[k].key, Nothing);
    HandlerGetSees(PlainSpace(PlainFinal(c, map[], history), ns), c.limits, handler, k,
                   LastWrite(c, Nothing, history, ns, handler[k].key));
  }

  lemma NothingHeld(key: Key)
    ensures Holds(map[], key, Nothing)
  {
  }

  /** A run that does not write the key keeps what was written last. */
  lemma {:induction false} SparedIsKept(c: Config, w: Written, history: seq<Event>, ns: string, key: Key)
    requires forall e | e in history :: Spares(e, ns, key)
    ensures LastWrite(c, w, history, ns, key) == w
    decreases history
  {
    hide Spares, After;
    if history != [] {
      assert Spares(history[0], ns, key);
      SparedStep(c, w, history[0], ns, key);
      SparedIsKept(c, w, history[1..], ns, key);
    }
  }

  lemma SparedStep(c: Config, w: Written, e: Event, ns: string, key: Key)
    requires Spares(e, ns, key)
    ensures After(c, w, e, ns, key) == w
  {
    hide Accepted;
    if e.step.MutateStep? && e.step.ns == ns { SparedHandler(c.limits, w, e.step.handler, key); }
  }

  lemma {:induction false} SparedHandler(limits: Limits, w: Written, ms: seq<Mutation>, key: Key)
    requires forall m | m in ms :: MutationSpares(m, key)
    ensures RewrittenAll(limits, w, ms, key) == w
    decreases ms
  {
    hide Accepted;
    if ms != [] {
      assert MutationSpares(ms[0], key);
      SparedHandler(limits, w, ms[1..], key);
    }
  }

  lemma {:induction false} LastWriteConcat(c: Config, w: Written, a: seq<Event>, b: seq<Event>, ns: string, key: Key)
    ensures LastWrite(c, w, a + b, ns, key) == LastWrite(c, LastWrite(c, w, a, ns, key), b, ns, key)
    decreases a
  {
    hide After;
    if a == [] {
      assert a + b == b;
    } else {
      assert (a + b)[0] == a[0] && (a + b)[1..] == a[1..] + b;
      LastWriteConcat(c, After(c, w, a[0], ns, key), a[1..], b, ns, key);
    }
  }

  /** After an accepted set at time t with a retention of m minutes, in every run that does not write the
      key, a get returns the value before t + 60 m and None from then on; without retention it always
      returns the value. */
  lemma RetentionIsExact(c: Config, before: seq<Event>, ns: string, key: Key, value: Value, retention: Option<int>,
                         t: nat, quiet: seq<Event>, at: nat, now: nat)
    requires var set' := Event(t, SetStep(ns, key, value, retention));
             Clocked(before + [set'] + quiet + [Event(at, GetStep(ns, key))], now)
    requires Accepted(c.limits, key, value, retention, t) && !Reserved(ns)
    requires forall e | e in quiet :: Spares(e, ns, key)
    ensures var set' := Event(t, SetStep(ns, key, value, retention));
            var seen := Observations(c, map[], before + [set'] + quiet + [Event(at, GetStep(ns, key))]);
            var lasts := retention.Some? ==> at < t + 60 * retention.value;
            seen != [] && seen[|seen| - 1] == GotValue(if lasts then value else Null)
  {
    hide Reserved, Clocked, Observations, LastWrite, Spares, Utf8Length, EncodedLength;
    var e := Event(t, SetStep(ns, key, value, retention));
    GetReturnsLastWrite(c, before + [e] + quiet, ns, key, at, now);
    LastWriteConcat(c, Nothing, before + [e], quiet, ns, key);
    LastWriteConcat(c, Nothing, before, [e], ns, key);
    SparedIsKept(c, Stored(value, retention, t), quiet, ns, key);
    OneWrite(c, LastWrite(c, Nothing, before, ns, key), e, ns, key);
  }

  lemma OneWrite(c: Config, w: Written, e: Event, ns: string, key: Key)
    ensures LastWrite(c, w, [e], ns, key) == After(c, w, e, ns, key)
  {
    hide After;
    assert [e][1..] == [];
  }
}
