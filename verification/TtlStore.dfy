/** The key-value store service: validation, namespaces, transactions, cursor paging and the
    budgeted cleanup, as methods over the table values of TtlTables. The clock is a parameter. */
module TtlStore {
  import opened KeyOrder
  import opened TtlTables

  const INT64_MAX := 0x7FFF_FFFF_FFFF_FFFF

  datatype StoreError =
    EmptyKey | BadRetention | ExpiryOverflow | ReservedNamespace | KeyTooLong | ValueTooLarge | BadLimit

  datatype Result<+T> = Ok(value: T) | Err(error: StoreError)

  datatype Limits = Limits(keyBytes: nat, valueBytes: nat)

  // ---- Validation -------------------------------------------------------------------------------

  predicate Reserved(ns: string) {
    "__exp__" <= ns || "__expmeta__" <= ns || "__meta__" <= ns
  }

  function Utf8Length(s: string): nat {
    if s == [] then 0
    else
      var c := s[0] as int;
      (if c < 0x80 then 1 else if c < 0x800 then 2 else if c < 0x1_0000 then 3 else 4) + Utf8Length(s[1..])
  }

  // The text of a value stands for its CBOR encoding; None encodes to one byte.
  function EncodedLength(v: Value): nat {
    match v
    case Null => 1
    case Text(s) => |s|
  }

  /** The expiry a write asks for; 0 without retention (minutes). */
  function ExpiryFor(retention: Option<int>, now: nat): Result<nat> {
    if retention.None? then Ok(0)
    else if retention.value < 1 then Err(BadRetention)
    else if now + retention.value * 60 > INT64_MAX then Err(ExpiryOverflow)
    else Ok(now + retention.value * 60)
  }

  function CheckSizes(limits: Limits, key: Key, value: Value): Option<StoreError> {
    if Utf8Length(key) > limits.keyBytes then Some(KeyTooLong)
    else if EncodedLength(value) > limits.valueBytes then Some(ValueTooLarge)
    else None
  }

  /** What StoreMutation.set decides: an error, or the expiry to store. An empty key is refused last,
      by LMDB itself. */
  function TxnSetOutcome(limits: Limits, key: Key, value: Value, retention: Option<int>, now: nat): Result<nat> {
    var expiry := ExpiryFor(retention, now);
    if expiry.Err? then expiry
    else match CheckSizes(limits, key, value)
      case Some(e) => Err(e)
      case None => if key == [] then Err(EmptyKey) else expiry
  }

  /** What StoreService.set decides; the namespace is checked between expiry and sizes. */
  function SetOutcome(limits: Limits, ns: string, key: Key, value: Value, retention: Option<int>, now: nat)
    : Result<nat>
  {
    var expiry := ExpiryFor(retention, now);
    if key == [] then Err(EmptyKey)
    else if expiry.Err? then expiry
    else if Reserved(ns) then Err(ReservedNamespace)
    else TxnSetOutcome(limits, key, value, retention, now)
  }

  function KeyOutcome(ns: string, key: Key): Option<StoreError> {
    if key == [] then Some(EmptyKey) else if Reserved(ns) then Some(ReservedNamespace) else None
  }

  // ---- Namespaces -------------------------------------------------------------------------------

  // registered namespaces and their tables
  type Spaces = map<string, Tables>

  function Space(spaces: Spaces, ns: string): Tables {
    if ns in spaces then spaces[ns] else EMPTY
  }

  function Registered(spaces: Spaces, ns: string): Spaces { spaces[ns := Space(spaces, ns)] }

  ghost predicate AllConsistent(spaces: Spaces) {
    forall ns :: ns in spaces ==> Consistent(spaces[ns])
  }

  lemma SpaceConsistent(spaces: Spaces, ns: string)
    requires AllConsistent(spaces)
    ensures Consistent(Space(spaces, ns))
  {
  }

  // ---- Transactions -----------------------------------------------------------------------------

  // the operations a mutation handler performs, each with its own clock reading
  datatype Mutation =
    | GetKey(key: Key, at: nat)
    | SetKey(key: Key, value: Value, retention: Option<int>, at: nat)
    | DeleteKey(key: Key, at: nat)

  datatype Seen = SawValue(value: Value) | SawError(error: StoreError) | SawNothing

  function ApplyMutation(t: Tables, limits: Limits, m: Mutation): Tables {
    match m
    case GetKey(_, _) => t
    case SetKey(key, value, retention, at) =>
      var outcome := TxnSetOutcome(limits, key, value, retention, at);
      if outcome.Err? then t else Put(t, key, Entry(outcome.value, value))
    case DeleteKey(key, _) => if key == [] then t else Remove(t, key)
  }

  function SeenBy(data: map<Key, Entry>, limits: Limits, m: Mutation): Seen {
    match m
    case GetKey(key, at) => if key == [] then SawError(EmptyKey) else SawValue(Lookup(Visible(data, at), key))
    case SetKey(key, value, retention, at) =>
      var outcome := TxnSetOutcome(limits, key, value, retention, at);
      if outcome.Err? then SawError(outcome.error) else SawNothing
    case DeleteKey(key, _) => if key == [] then SawError(EmptyKey) else SawNothing
  }

  function ApplyAll(t: Tables, limits: Limits, ms: seq<Mutation>): Tables
    decreases ms
  {
    if ms == [] then t else ApplyAll(ApplyMutation(t, limits, ms[0]), limits, ms[1..])
  }

  function SeenByAll(t: Tables, limits: Limits, ms: seq<Mutation>): seq<Seen>
    decreases ms
  {
    if ms == [] then []
    else [SeenBy(t.data, limits, ms[0])] + SeenByAll(ApplyMutation(t, limits, ms[0]), limits, ms[1..])
  }

  lemma HandlerStep(t: Tables, limits: Limits, ms: seq<Mutation>, i: nat)
    requires i < |ms|
    ensures var t' := ApplyMutation(t, limits, ms[i]);
            && ApplyAll(t, limits, ms[i..]) == ApplyAll(t', limits, ms[i + 1..])
            && SeenByAll(t, limits, ms[i..]) == [SeenBy(t.data, limits, ms[i])] + SeenByAll(t', limits, ms[i + 1..])
  {
    assert ms[i..][1..] == ms[i + 1..];
  }

  lemma HandlerEnd(t: Tables, limits: Limits)
    ensures ApplyAll(t, limits, []) == t && SeenByAll(t, limits, []) == []
  {
  }

  /** A write transaction on the tables of one namespace; its owner commits or drops `tables`. */
  class StoreMutation {
    const limits: Limits
    var tables: Tables

    constructor (limits: Limits, tables: Tables)
      ensures this.limits == limits && this.tables == tables
    {
      this.limits := limits;
      this.tables := tables;
    }

    method TxnPut(key: Key, value: Value, expireTs: nat)
      requires Consistent(tables)
      modifies this
      ensures tables == Put(old(tables), key, Entry(expireTs, value)) && Consistent(tables)
    {
      MutationsConsistent(tables, key, Entry(expireTs, value));
      var data, exp, meta := tables.data, tables.exp, tables.meta;
      if key in meta {
        var oldTs := meta[key];
        if oldTs != 0 {
          exp := exp - {Row(oldTs / 60, key)};
        }
        meta := meta - {key};
      }
      data := data[key := Entry(expireTs, value)];
      if expireTs != 0 {
        exp := exp + {Row(expireTs / 60, key)};
        meta := meta[key := expireTs];
      }
      tables := Tables(data, exp, meta);
    }

    method TxnDelete(key: Key) returns (existed: bool)
      requires Consistent(tables)
      modifies this
      ensures tables == Remove(old(tables), key) && Consistent(tables)
      ensures existed <==> key in old(tables).data
    {
      MutationsConsistent(tables, key, Entry(0, Null));
      var data, exp, meta := tables.data, tables.exp, tables.meta;
      if key in meta {
        var oldTs := meta[key];
        if oldTs != 0 {
          exp := exp - {Row(oldTs / 60, key)};
        }
        meta := meta - {key};
      }
      existed := key in data;
      data := data - {key};
      tables := Tables(data, exp, meta);
    }

    method Get(key: Key, now: nat) returns (r: Result<Value>)
      ensures r == if key == [] then Err(EmptyKey) else Ok(Lookup(Visible(tables.data, now), key))
    {
      if key == [] { return Err(EmptyKey); }
      r := Ok(Null);
      if key in tables.data && !Expired(tables.data[key], now) {
        r := Ok(tables.data[key].value);
      }
    }

    method Delete(key: Key) returns (r: Result<bool>)
      requires Consistent(tables)
      modifies this
      ensures tables == (if key == [] then old(tables) else Remove(old(tables), key)) && Consistent(tables)
      ensures r == if key == [] then Err(EmptyKey) else Ok(key in old(tables).data)
    {
      if key == [] { return Err(EmptyKey); }
      var existed := TxnDelete(key);
      r := Ok(existed);
    }

    method Set(key: Key, value: Value, retention: Option<int>, now: nat) returns (r: Result<()>)
      requires Consistent(tables)
      modifies this
      ensures Consistent(tables)
      ensures match TxnSetOutcome(limits, key, value, retention, now)
              case Err(e) => r == Err(e) && tables == old(tables)
              case Ok(expiry) => r == Ok(()) && tables == Put(old(tables), key, Entry(expiry, value))
    {
      var expireTs := 0;
      if retention.Some? {
        if retention.value < 1 { return Err(BadRetention); }
        expireTs := now + retention.value * 60;
        if expireTs > INT64_MAX { return Err(ExpiryOverflow); }
      }
      if Utf8Length(key) > limits.keyBytes { return Err(KeyTooLong); }
      if EncodedLength(value) > limits.valueBytes { return Err(ValueTooLarge); }
      if key == [] { return Err(EmptyKey); }
      TxnPut(key, value, expireTs);
      r := Ok(());
    }

    /** Performs the operations of a handler one by one. */
    method Handle(handler: seq<Mutation>) returns (seen: seq<Seen>)
      requires Consistent(tables)
      modifies this
      ensures tables == ApplyAll(old(tables), limits, handler) && Consistent(tables)
      ensures seen == SeenByAll(old(tables), limits, handler)
    {
      hide TxnSetOutcome, Put, Remove, Visible, Lookup, ApplyAll, SeenByAll, Consistent;
      assert handler[0..] == handler;
      seen := [];
      ghost var t := tables;
      for i := 0 to |handler|
        invariant Consistent(tables)
        invariant ApplyAll(t, limits, handler) == ApplyAll(tables, limits, handler[i..])
        invariant SeenByAll(t, limits, handler) == seen + SeenByAll(tables, limits, handler[i..])
      {
        HandlerStep(tables, limits, handler, i);
        match handler[i]
        case GetKey(key, at) =>
          var value := Get(key, at);
          seen := seen + [if value.Err? then SawError(value.error) else SawValue(value.value)];
        case SetKey(key, value, retention, at) =>
          var outcome := Set(key, value, retention, at);
          seen := seen + [if outcome.Err? then SawError(outcome.error) else SawNothing];
        case DeleteKey(key, _) =>
          var existed := Delete(key);
          seen := seen + [if existed.Err? then SawError(existed.error) else SawNothing];
      }
      assert handler[|handler|..] == [] && seen + [] == seen;
      HandlerEnd(tables, limits);
    }

    /** One namespace's share of a cleanup pass: collect due rows, then drop them one by one. */
    method Purge(now: nat, room: nat) returns (deleted: nat)
      requires Consistent(tables) && room > 0
      modifies this
      ensures tables == Clean(old(tables), now, room) && Consistent(tables)
      ensures deleted == CleanCount(old(tables), now, room)
    {
      hide Consistent, TakeDue, IndexRows, Clean, CleanCount, Purged;
      ghost var t := tables;
      CleanConsistent(t, now, room);
      var rows := IndexRows(tables.exp);
      var toDelete := CollectDue(rows, now / 60, room);
      var data, exp, meta;
      data, exp, meta, deleted := DropRows(tables, toDelete, now);
      PurgeEnd(t, now, room, data, exp, meta, deleted);
      tables := Tables(data, exp, meta);
    }
  }

  /** The second loop of a pass: every collected row goes, and its key when it has expired. */
  method DropRows(t: Tables, toDelete: seq<Row>, now: nat)
    returns (data: map<Key, Entry>, exp: set<Row>, meta: map<Key, nat>, deleted: nat)
    ensures Purged(t, toDelete, now, data, exp, meta, deleted)
  {
    hide Purged;
    data, exp, meta, deleted := t.data, t.exp, t.meta, 0;
    NoneGone(t, now);
    assert toDelete[..0] == [];
    var j := 0;
    while j < |toDelete|
      invariant 0 <= j <= |toDelete|
      invariant Purged(t, toDelete[..j], now, data, exp, meta, deleted)
    {
      var row := toDelete[j];
      assert toDelete[..j + 1] == toDelete[..j] + [row];
      PurgeStep(t, toDelete[..j], row, now, data, exp, meta, deleted);
      if row.key in data {
        var expireTs := data[row.key].expiry;
        if expireTs != 0 && expireTs <= now {
          data := data - {row.key};
          meta := meta - {row.key};
          deleted := deleted + 1;
        }
      }
      exp := exp - {row};
      j := j + 1;
    }
    assert toDelete[..j] == toDelete;
  }

  /** The first loop of a pass: due rows in cursor order, until the budget is full. */
  method CollectDue(rows: seq<Row>, bucket: nat, room: nat) returns (toDelete: seq<Row>)
    requires room > 0
    ensures toDelete == TakeDue(rows, bucket, room)
  {
    toDelete := [];
    var i := 0;
    while i < |rows|
      invariant i <= |rows| && toDelete == rows[..i] && i < room
      invariant forall j | 0 <= j < i :: rows[j].bucket <= bucket
    {
      if rows[i].bucket > bucket { break; }
      toDelete := toDelete + [rows[i]];
      i := i + 1;
      if |toDelete| >= room { break; }
    }
    TakeDueIs(rows, bucket, room, i);
  }

  lemma {:induction false} TakeDueIs(rows: seq<Row>, bucket: nat, room: nat, n: nat)
    requires n <= |rows| && n <= room && forall j | 0 <= j < n :: rows[j].bucket <= bucket
    requires n == |rows| || n == room || rows[n].bucket > bucket
    ensures TakeDue(rows, bucket, room) == rows[..n]
  {
    if n > 0 {
      TakeDueIs(rows[1..], bucket, room - 1, n - 1);
      assert rows[..n] == [rows[0]] + rows[1..][..n - 1];
    }
  }

  lemma NoneGone(t: Tables, now: nat)
    ensures Purged(t, [], now, t.data, t.exp, t.meta, 0)
  {
    assert Gone(t, [], now) == {} && RowSet([]) == {};
  }

  /** What the purge loop has left after these rows. */
  ghost predicate Purged(t: Tables, rows: seq<Row>, now: nat, data: map<Key, Entry>, exp: set<Row>, meta: map<Key, nat>,
                         deleted: nat) {
    && data == t.data - Gone(t, rows, now) && meta == t.meta - Gone(t, rows, now)
    && exp == t.exp - RowSet(rows) && deleted == |Gone(t, rows, now)|
  }

  lemma PurgeStep(t: Tables, rows: seq<Row>, row: Row, now: nat, data: map<Key, Entry>, exp: set<Row>,
                  meta: map<Key, nat>, deleted: nat)
    requires Purged(t, rows, now, data, exp, meta, deleted)
    ensures if row.key in data && Expired(data[row.key], now)
            then Purged(t, rows + [row], now, data - {row.key}, exp - {row}, meta - {row.key}, deleted + 1)
            else Purged(t, rows + [row], now, data, exp - {row}, meta, deleted)
  {
    GoneStep(t, rows, row, now);
    hide Gone, RowSet;
    var gone := Gone(t, rows, now);
    if row.key in data && Expired(data[row.key], now) {
      assert data - {row.key} == t.data - (gone + {row.key});
      assert meta - {row.key} == t.meta - (gone + {row.key});
    } else if row.key in t.data && Expired(t.data[row.key], now) {
      assert row.key in gone && gone + {row.key} == gone;
    }
  }

  lemma PurgeEnd(t: Tables, now: nat, room: nat, data: map<Key, Entry>, exp: set<Row>, meta: map<Key, nat>,
                 deleted: nat)
    requires Purged(t, TakeDue(IndexRows(t.exp), now / 60, room), now, data, exp, meta, deleted)
    ensures Tables(data, exp, meta) == Clean(t, now, room) && deleted == CleanCount(t, now, room)
  {
  }

  lemma GoneStep(t: Tables, rows: seq<Row>, row: Row, now: nat)
    ensures Gone(t, rows + [row], now)
         == if row.key in t.data && Expired(t.data[row.key], now) then Gone(t, rows, now) + {row.key}
            else Gone(t, rows, now)
    ensures RowSet(rows + [row]) == RowSet(rows) + {row}
  {
  }

  // ---- The sweep over all namespaces ------------------------------------------------------------

  function Sweep(spaces: Spaces, nss: seq<string>, now: nat, budget: nat): Spaces
    decreases nss
  {
    if nss == [] || budget == 0 then spaces
    else
      var t := Space(spaces, nss[0]);
      Sweep(spaces[nss[0] := Clean(t, now, budget)], nss[1..], now, budget - CleanCount(t, now, budget))
  }

  function SweepCount(spaces: Spaces, nss: seq<string>, now: nat, budget: nat): nat
    decreases nss
  {
    if nss == [] || budget == 0 then 0
    else
      var t := Space(spaces, nss[0]);
      var n := CleanCount(t, now, budget);
      n + SweepCount(spaces[nss[0] := Clean(t, now, budget)], nss[1..], now, budget - n)
  }

  lemma {:induction false} SweepConsistent(spaces: Spaces, nss: seq<string>, now: nat, budget: nat)
    requires AllConsistent(spaces)
    ensures AllConsistent(Sweep(spaces, nss, now, budget))
    decreases nss
  {
    hide Clean, CleanCount;
    if nss != [] && budget != 0 {
      var t := Space(spaces, nss[0]);
      CleanConsistent(t, now, budget);
      SweepConsistent(spaces[nss[0] := Clean(t, now, budget)], nss[1..], now, budget - CleanCount(t, now, budget));
    }
  }

  /** One sweep deletes at most the budget over all namespaces, and never a live entry. */
  lemma {:induction false} SweepRemovesOnlyExpired(spaces: Spaces, nss: seq<string>, now: nat, budget: nat)
    ensures SweepCount(spaces, nss, now, budget) <= budget
    ensures forall ns, k | k in Space(spaces, ns).data && !Expired(Space(spaces, ns).data[k], now) ::
              k in Space(Sweep(spaces, nss, now, budget), ns).data
              && Space(Sweep(spaces, nss, now, budget), ns).data[k] == Space(spaces, ns).data[k]
    ensures forall ns, k | k in Space(Sweep(spaces, nss, now, budget), ns).data ::
              k in Space(spaces, ns).data
              && Space(Sweep(spaces, nss, now, budget), ns).data[k] == Space(spaces, ns).data[k]
    decreases nss
  {
    hide Clean, CleanCount;
    if nss != [] && budget != 0 {
      var t := Space(spaces, nss[0]);
      var next := spaces[nss[0] := Clean(t, now, budget)];
      CleanRemovesOnlyExpired(t, now, budget);
      SweepRemovesOnlyExpired(next, nss[1..], now, budget - CleanCount(t, now, budget));
      assert forall ns :: Space(next, ns) == if ns == nss[0] then Clean(t, now, budget) else Space(spaces, ns);
    }
  }

  lemma SweepStep(spaces: Spaces, nss: seq<string>, i: nat, now: nat, budget: nat)
    requires i < |nss| && budget > 0
    ensures var t := Space(spaces, nss[i]);
            var n := CleanCount(t, now, budget);
            var next := spaces[nss[i] := Clean(t, now, budget)];
            && Sweep(spaces, nss[i..], now, budget) == Sweep(next, nss[i + 1..], now, budget - n)
            && SweepCount(spaces, nss[i..], now, budget) == n + SweepCount(next, nss[i + 1..], now, budget - n)
  {
    hide Clean, CleanCount, Space;
    assert nss[i..][1..] == nss[i + 1..];
  }

  lemma SweepEnd(spaces: Spaces, nss: seq<string>, i: nat, now: nat, budget: nat)
    requires i == |nss| || (i < |nss| && budget == 0)
    ensures Sweep(spaces, nss[i..], now, budget) == spaces && SweepCount(spaces, nss[i..], now, budget) == 0
  {
  }

  // ---- What a sweep reaches ---------------------------------------------------------------------

  ghost predicate Distinct(nss: seq<string>) { forall i, j | 0 <= i < j < |nss| :: nss[i] != nss[j] }

  lemma {:induction false} SweepElsewhere(spaces: Spaces, nss: seq<string>, now: nat, budget: nat, ns: string)
    requires ns !in nss
    ensures Space(Sweep(spaces, nss, now, budget), ns) == Space(spaces, ns)
    decreases nss
  {
    hide Clean, CleanCount;
    if nss != [] && budget != 0 {
      var t := Space(spaces, nss[0]);
      SweepElsewhere(spaces[nss[0] := Clean(t, now, budget)], nss[1..], now, budget - CleanCount(t, now, budget), ns);
    }
  }

  lemma CleanNothing(t: Tables, now: nat)
    ensures Clean(t, now, 0) == t
  {
    assert Taken(t, now, 0) == [];
  }

  /** The budget that the namespaces before position i leave. */
  function RoomAt(spaces: Spaces, nss: seq<string>, now: nat, budget: nat, i: nat): (room: nat)
    requires i <= |nss|
  {
    SweepRemovesOnlyExpired(spaces, nss[..i], now, budget);
    budget - SweepCount(spaces, nss[..i], now, budget)
  }

  /** A sweep is one pass over each namespace with the budget the earlier ones leave. */
  lemma {:induction false} SweepAt(spaces: Spaces, nss: seq<string>, now: nat, budget: nat, i: nat)
    requires Distinct(nss) && i < |nss|
    ensures Space(Sweep(spaces, nss, now, budget), nss[i]) ==
              Clean(Space(spaces, nss[i]), now, RoomAt(spaces, nss, now, budget, i))
    decreases nss
  {
    hide Clean, CleanCount;
    if budget == 0 {
      CleanNothing(Space(spaces, nss[i]), now);
    } else {
      var t := Space(spaces, nss[0]);
      var next, left := spaces[nss[0] := Clean(t, now, budget)], budget - CleanCount(t, now, budget);
      if i == 0 {
        SweepElsewhere(next, nss[1..], now, left, nss[0]);
      } else {
        SweepAt(next, nss[1..], now, left, i - 1);
        assert nss[..i][1..] == nss[1..][..i - 1];
      }
    }
  }

  /** Exactly which expired keys survive a sweep: those whose row lies beyond the room left for
      their namespace. */
  lemma SurvivesSweepIff(spaces: Spaces, nss: seq<string>, now: nat, budget: nat, i: nat, r: Row)
    requires AllConsistent(spaces) && Distinct(nss) && i < |nss|
    requires r in Space(spaces, nss[i]).exp && Expired(Space(spaces, nss[i]).data[r.key], now)
    ensures r.key in Space(Sweep(spaces, nss, now, budget), nss[i]).data
       <==> r !in Taken(Space(spaces, nss[i]), now, RoomAt(spaces, nss, now, budget, i))
  {
    hide Clean, Taken, Sweep, RoomAt;
    SweepAt(spaces, nss, now, budget, i);
    CleanComplete(Space(spaces, nss[i]), now, RoomAt(spaces, nss, now, budget, i));
  }

  function DueIn(spaces: Spaces, nss: seq<string>, now: nat): nat {
    if nss == [] then 0 else |Due(Space(spaces, nss[0]), now)| + DueIn(spaces, nss[1..], now)
  }

  lemma {:induction false} DueElsewhere(spaces: Spaces, ns: string, t: Tables, nss: seq<string>, now: nat)
    requires ns !in nss
    ensures DueIn(spaces[ns := t], nss, now) == DueIn(spaces, nss, now)
  {
    hide Due;
    if nss != [] { DueElsewhere(spaces, ns, t, nss[1..], now); }
  }

  lemma CountWithinDue(t: Tables, now: nat, room: nat)
    ensures CleanCount(t, now, room) <= |Due(t, now)|
  {
    TakenIsDue(t, now, room);
    GoneIsSmall(t, Taken(t, now, room), now);
  }

  lemma {:induction false} DueBounds(spaces: Spaces, nss: seq<string>, now: nat, i: nat)
    requires i < |nss|
    ensures |Due(Space(spaces, nss[i]), now)| <= DueIn(spaces, nss, now)
    decreases nss
  {
    hide Due;
    if i > 0 { DueBounds(spaces, nss[1..], now, i - 1); }
  }

  lemma {:induction false} RoomCoversDue(spaces: Spaces, nss: seq<string>, now: nat, budget: nat, i: nat)
    requires Distinct(nss) && i < |nss| && DueIn(spaces, nss, now) <= budget
    ensures |Due(Space(spaces, nss[i]), now)| <= RoomAt(spaces, nss, now, budget, i)
    decreases nss
  {
    hide Clean, CleanCount, Due;
    DueBounds(spaces, nss, now, i);
    if i > 0 && budget > 0 {
      var t := Space(spaces, nss[0]);
      var t' := Clean(t, now, budget);
      CountWithinDue(t, now, budget);
      DueElsewhere(spaces, nss[0], t', nss[1..], now);
      RoomCoversDue(spaces[nss[0] := t'], nss[1..], now, budget - CleanCount(t, now, budget), i - 1);
      assert nss[..i][1..] == nss[1..][..i - 1];
    }
  }

  /** When the due rows of all namespaces together fit the budget, no expired key with a row is left
      in any of them. */
  lemma SweepComplete(spaces: Spaces, nss: seq<string>, now: nat, budget: nat, i: nat, r: Row)
    requires AllConsistent(spaces) && Distinct(nss) && DueIn(spaces, nss, now) <= budget && i < |nss|
    requires r in Space(spaces, nss[i]).exp && Expired(Space(spaces, nss[i]).data[r.key], now)
    ensures r.key !in Space(Sweep(spaces, nss, now, budget), nss[i]).data
  {
    hide Clean, Taken, Sweep, RoomAt, DueIn, Due;
    RoomCoversDue(spaces, nss, now, budget, i);
    SweepAt(spaces, nss, now, budget, i);
    CleanComplete(Space(spaces, nss[i]), now, RoomAt(spaces, nss, now, budget, i));
  }

  function EntriesIn(spaces: Spaces, nss: seq<string>): nat {
    if nss == [] then 0 else |Space(spaces, nss[0]).data| + EntriesIn(spaces, nss[1..])
  }

  lemma {:induction false} EntriesElsewhere(spaces: Spaces, ns: string, t: Tables, nss: seq<string>)
    requires ns !in nss
    ensures EntriesIn(spaces[ns := t], nss) == EntriesIn(spaces, nss)
  {
    if nss != [] { EntriesElsewhere(spaces, ns, t, nss[1..]); }
  }

  /** The count of a sweep is the number of entries that disappear. */
  lemma {:induction false} SweepCounts(spaces: Spaces, nss: seq<string>, now: nat, budget: nat)
    requires Distinct(nss)
    ensures EntriesIn(spaces, nss) ==
              EntriesIn(Sweep(spaces, nss, now, budget), nss) + SweepCount(spaces, nss, now, budget)
    decreases nss
  {
    hide Clean, CleanCount;
    if nss != [] && budget != 0 {
      var t := Space(spaces, nss[0]);
      var t', left := Clean(t, now, budget), budget - CleanCount(t, now, budget);
      CleanRemovesOnlyExpired(t, now, budget);
      EntriesElsewhere(spaces, nss[0], t', nss[1..]);
      SweepElsewhere(spaces[nss[0] := t'], nss[1..], now, left, nss[0]);
      SweepCounts(spaces[nss[0] := t'], nss[1..], now, left);
    }
  }

  lemma DirectedIsDistinct(keys: set<Key>)
    ensures Distinct(Directed(keys, false))
  {
    hide Less;
    LessIsStrictTotal();
  }

  /** A cleanup pass of the service: in every namespace exactly the expired keys whose row lies beyond
      the room left for it survive, none when all due rows fit, and the count is exact. */
  lemma CleanupReaches(spaces: Spaces, now: nat, budget: nat, i: nat, r: Row)
    requires AllConsistent(spaces) && i < |Directed(spaces.Keys, false)|
    requires var t := Space(spaces, Directed(spaces.Keys, false)[i]);
             r in t.exp && r.key in t.data && Expired(t.data[r.key], now)
    ensures var nss := Directed(spaces.Keys, false);
            var t, after := Space(spaces, nss[i]), AfterCleanup(spaces, now, budget);
            && (r.key in Space(after, nss[i]).data <==> r !in Taken(t, now, RoomAt(spaces, nss, now, budget, i)))
            && (DueIn(spaces, nss, now) <= budget ==> r.key !in Space(after, nss[i]).data)
            && EntriesIn(spaces, nss) == EntriesIn(after, nss) + SweepCount(spaces, nss, now, budget)
  {
    hide Sweep, SweepCount, RoomAt, DueIn, Taken, Directed, EntriesIn;
    var nss := Directed(spaces.Keys, false);
    DirectedIsDistinct(spaces.Keys);
    SurvivesSweepIff(spaces, nss, now, budget, i, r);
    if DueIn(spaces, nss, now) <= budget { SweepComplete(spaces, nss, now, budget, i, r); }
    SweepCounts(spaces, nss, now, budget);
  }

  // ---- Cursor positioning -----------------------------------------------------------------------

  /** LMDB's set_range: the first row not below the key, or |rows|. */
  function SetRange(rows: seq<Key>, key: Key): (i: nat)
    ensures i <= |rows| && forall j | 0 <= j < i :: Less(rows[j], key)
    ensures i < |rows| ==> !Less(rows[i], key)
  {
    if rows == [] || !Less(rows[0], key) then 0 else 1 + SetRange(rows[1..], key)
  }

  /** Rows before the cursor are below the key; the others are the key itself, first, and rows above it. */
  lemma CursorSplits(rows: seq<Key>, key: Key)
    requires Ordered(rows, Along(false))
    ensures var i := SetRange(rows, key);
            && (forall j | 0 <= j < i :: Less(rows[j], key) && !Less(key, rows[j]))
            && (forall j | i <= j < |rows| :: !Less(rows[j], key) && (Less(key, rows[j]) <==> j > i || rows[j] != key))
  {
    hide Less;
    var i := SetRange(rows, key);
    forall j | 0 <= j < i ensures !Less(key, rows[j]) { LessAsymmetric(rows[j], key); }
    forall j | i <= j < |rows| ensures !Less(rows[j], key) && (Less(key, rows[j]) <==> j > i || rows[j] != key) {
      LessTotal(rows[i], key);
      LessTotal(rows[j], key);
      LessIrreflexive(key);
      if j > i {
        assert Along(false)(rows[i], rows[j]);
        if rows[i] != key { LessTransitive(key, rows[i], rows[j]); }
        LessAsymmetric(key, rows[j]);
      }
    }
  }

  lemma LessAsymmetric(a: Key, b: Key)
    ensures !(Less(a, b) && Less(b, a))
  {
    if Less(a, b) && Less(b, a) {
      LessTransitive(a, b, a);
      LessIrreflexive(a);
    }
  }

  /** Positions a cursor on the first row strictly beyond `after`, if there is one. */
  method PositionCursor(rows: seq<Key>, after: Option<Key>, reverse: bool) returns (found: bool, pos: nat)
    requires Ordered(rows, Along(false))
    ensures found ==> pos < |rows|
    ensures forall i | 0 <= i < |rows| ::
              Beyond(rows[i], after, reverse) <==> found && if reverse then i <= pos else pos <= i
  {
    hide Less, Ordered;
    pos := 0;
    if after.None? {
      found := rows != [];
      if reverse && found { pos := |rows| - 1; }
      return;
    }
    var key := after.value;
    pos := SetRange(rows, key);
    CursorSplits(rows, key);
    if reverse {
      if pos == |rows| {
        found := rows != [];
        pos := if found then |rows| - 1 else 0;
        return;
      }
      while !Less(rows[pos], key)
        invariant pos < |rows|
        invariant forall i | pos < i < |rows| :: !Less(rows[i], key)
        decreases pos
      {
        if pos == 0 { return false, 0; }
        pos := pos - 1;
      }
      return true, pos;
    }
    if pos == |rows| { return false, 0; }
    if rows[pos] == key {
      pos := pos + 1;
      found := pos < |rows|;
      pos := if found then pos else 0;
      return;
    }
    found := true;
  }

  // ---- Effects of the service's operations ------------------------------------------------------

  function AfterSet(spaces: Spaces, limits: Limits, ns: string, key: Key, value: Value,
                    retention: Option<int>, now: nat): Spaces
  {
    match SetOutcome(limits, ns, key, value, retention, now)
    case Err(ValueTooLarge) => Registered(spaces, ns)
    case Err(_) => spaces
    case Ok(expiry) => spaces[ns := Put(Space(spaces, ns), key, Entry(expiry, value))]
  }

  function AfterDelete(spaces: Spaces, ns: string, key: Key): Spaces {
    if KeyOutcome(ns, key).Some? then spaces else spaces[ns := Remove(Space(spaces, ns), key)]
  }

  function AfterMutate(spaces: Spaces, limits: Limits, ns: string, handler: seq<Mutation>, commit: bool): Spaces {
    if Reserved(ns) then spaces
    else if commit then spaces[ns := ApplyAll(Space(spaces, ns), limits, handler)]
    else Registered(spaces, ns)
  }

  function AfterCleanup(spaces: Spaces, now: nat, budget: nat): Spaces {
    Sweep(spaces, Directed(spaces.Keys, false), now, budget)
  }

  // ---- The service ------------------------------------------------------------------------------

  class StoreService {
    const limits: Limits
    const cleanupMaxDeletes: nat
    var spaces: Spaces

    ghost predicate Valid()
      reads this
    {
      AllConsistent(spaces)
    }

    constructor (limits: Limits, cleanupMaxDeletes: nat)
      ensures Valid() && spaces == map[]
      ensures this.limits == limits && this.cleanupMaxDeletes == cleanupMaxDeletes
    {
      this.limits := limits;
      this.cleanupMaxDeletes := cleanupMaxDeletes;
      this.spaces := map[];
    }

    method RegisterNamespace(ns: string)
      requires Valid()
      modifies this
      ensures Valid() && spaces == Registered(old(spaces), ns)
    {
      if ns !in spaces {
        spaces := spaces[ns := EMPTY];
      }
    }

    method Set(ns: string, key: Key, value: Value, retention: Option<int>, now: nat) returns (r: Result<()>)
      requires Valid()
      modifies this
      ensures Valid()
      ensures spaces == AfterSet(old(spaces), limits, ns, key, value, retention, now)
      ensures match SetOutcome(limits, ns, key, value, retention, now)
              case Err(e) => r == Err(e)
              case Ok(_) => r == Ok(())
    {
      hide Utf8Length, EncodedLength, Reserved, Consistent, Put;
      if key == [] { return Err(EmptyKey); }
      var expireTs := 0;
      if retention.Some? {
        if retention.value < 1 { return Err(BadRetention); }
        expireTs := now + retention.value * 60;
        if expireTs > INT64_MAX { return Err(ExpiryOverflow); }
      }
      if Reserved(ns) { return Err(ReservedNamespace); }
      if Utf8Length(key) > limits.keyBytes { return Err(KeyTooLong); }
      RegisterNamespace(ns);
      if EncodedLength(value) > limits.valueBytes { return Err(ValueTooLarge); }
      var txn := new StoreMutation(limits, spaces[ns]);
      txn.TxnPut(key, value, expireTs);
      spaces := spaces[ns := txn.tables];
      r := Ok(());
    }

    method Get(ns: string, key: Key, now: nat) returns (r: Result<Value>)
      requires Valid()
      modifies this
      ensures Valid()
      ensures match KeyOutcome(ns, key)
              case Some(e) => r == Err(e) && spaces == old(spaces)
              case None =>
                r == Ok(Lookup(Visible(Space(old(spaces), ns).data, now), key))
                && spaces == Registered(old(spaces), ns)
    {
      if key == [] { return Err(EmptyKey); }
      if Reserved(ns) { return Err(ReservedNamespace); }
      RegisterNamespace(ns);
      var txn := new StoreMutation(limits, spaces[ns]);
      r := txn.Get(key, now);
    }

    method Delete(ns: string, key: Key) returns (r: Result<bool>)
      requires Valid()
      modifies this
      ensures Valid()
      ensures spaces == AfterDelete(old(spaces), ns, key)
      ensures match KeyOutcome(ns, key)
              case Some(e) => r == Err(e)
              case None => r == Ok(key in Space(old(spaces), ns).data)
    {
      if key == [] { return Err(EmptyKey); }
      if Reserved(ns) { return Err(ReservedNamespace); }
      RegisterNamespace(ns);
      var txn := new StoreMutation(limits, spaces[ns]);
      var existed := txn.TxnDelete(key);
      spaces := spaces[ns := txn.tables];
      r := Ok(existed);
    }

    method ListKeys(ns: string, now: nat) returns (r: Result<seq<Key>>)
      requires Valid()
      modifies this
      ensures Valid()
      ensures if Reserved(ns) then r == Err(ReservedNamespace) && spaces == old(spaces)
              else r == Ok(Directed(Visible(Space(old(spaces), ns).data, now).Keys, false))
                   && spaces == Registered(old(spaces), ns)
    {
      if Reserved(ns) { return Err(ReservedNamespace); }
      RegisterNamespace(ns);
      var keys := ScanKeys(spaces[ns].data, now);
      r := Ok(keys);
    }

    method ListPage(ns: string, after: Option<Key>, limit: int, reverse: bool, now: nat) returns (r: Result<Page>)
      requires Valid()
      modifies this
      ensures Valid()
      ensures if limit < 1 then r == Err(BadLimit) && spaces == old(spaces)
              else if Reserved(ns) then r == Err(ReservedNamespace) && spaces == old(spaces)
              else r == Ok(PageOf(Visible(Space(old(spaces), ns).data, now), after, limit, reverse))
                   && spaces == Registered(old(spaces), ns)
    {
      if limit < 1 { return Err(BadLimit); }
      if Reserved(ns) { return Err(ReservedNamespace); }
      RegisterNamespace(ns);
      var page := ScanPage(spaces[ns].data, after, limit, reverse, now);
      r := Ok(page);
    }

    /** Runs a handler's operations in one write transaction; a handler that raises (commit is
        false) leaves the namespace as it was. */
    method Mutate(ns: string, handler: seq<Mutation>, commit: bool) returns (r: Result<seq<Seen>>)
      requires Valid()
      modifies this
      ensures Valid()
      ensures spaces == AfterMutate(old(spaces), limits, ns, handler, commit)
      ensures r == if Reserved(ns) then Err(ReservedNamespace)
                   else Ok(SeenByAll(Space(old(spaces), ns), limits, handler))
    {
      if Reserved(ns) { return Err(ReservedNamespace); }
      RegisterNamespace(ns);
      var txn := new StoreMutation(limits, spaces[ns]);
      var seen := txn.Handle(handler);
      if commit {
        spaces := spaces[ns := txn.tables];
      }
      r := Ok(seen);
    }

    /** One namespace of a cleanup pass, in its own transaction. */
    method CleanupNamespace(ns: string, now: nat, room: nat) returns (deleted: nat)
      requires Valid() && room > 0
      modifies this
      ensures Valid()
      ensures spaces == old(spaces)[ns := Clean(Space(old(spaces), ns), now, room)]
      ensures deleted == CleanCount(Space(old(spaces), ns), now, room) && deleted <= room
    {
      hide Clean, Consistent;
      SpaceConsistent(spaces, ns);
      var txn := new StoreMutation(limits, Space(spaces, ns));
      deleted := txn.Purge(now, room);
      spaces := spaces[ns := txn.tables];
    }

    method CleanupExpired(now: nat) returns (deleted: nat)
      requires Valid()
      modifies this
      ensures Valid()
      ensures spaces == AfterCleanup(old(spaces), now, cleanupMaxDeletes)
      ensures deleted == SweepCount(old(spaces), Directed(old(spaces).Keys, false), now, cleanupMaxDeletes)
    {
      hide Clean, CleanCount, Directed, Sweep, SweepCount, AllConsistent, Space, Ordered, Along;
      var namespaces := Directed(spaces.Keys, false);
      deleted := 0;
      var i := 0;
      while i < |namespaces| && deleted < cleanupMaxDeletes
        invariant 0 <= i <= |namespaces| && deleted <= cleanupMaxDeletes && Valid()
        invariant Sweep(old(spaces), namespaces, now, cleanupMaxDeletes)
               == Sweep(spaces, namespaces[i..], now, cleanupMaxDeletes - deleted)
        invariant SweepCount(old(spaces), namespaces, now, cleanupMaxDeletes)
               == deleted + SweepCount(spaces, namespaces[i..], now, cleanupMaxDeletes - deleted)
      {
        SweepStep(spaces, namespaces, i, now, cleanupMaxDeletes - deleted);
        var n := CleanupNamespace(namespaces[i], now, cleanupMaxDeletes - deleted);
        deleted := deleted + n;
        i := i + 1;
      }
      SweepEnd(spaces, namespaces, i, now, cleanupMaxDeletes - deleted);
    }
  }

  /** The cursor loop of list_keys. */
  method ScanKeys(data: map<Key, Entry>, now: nat) returns (keys: seq<Key>)
    ensures keys == Directed(Visible(data, now).Keys, false)
  {
    hide Directed, Enumerate, Ordered, Along, Filter;
    assert Filter([], Visible(data, now)) == [] by { FilterNothing(Visible(data, now)); }
    var rows := Directed(data.Keys, false);
    ghost var view := Visible(data, now);
    keys := [];
    for i := 0 to |rows|
      invariant keys == Filter(rows[..i], view)
    {
      assert rows[i] in rows;
      FilterNext(rows, i, view);
      if Readable(data[rows[i]], now) {
        keys := keys + [rows[i]];
      }
    }
    assert rows[..|rows|] == rows;
    FilterOrdered(rows, view, false);
    DirectedIs(view.Keys, keys, false);
  }

  lemma FilterNothing(view: View)
    ensures Filter([], view) == []
  {
  }

  lemma FilterNext(rows: seq<Key>, i: nat, view: View)
    requires i < |rows|
    ensures Filter(rows[..i + 1], view) == Filter(rows[..i], view) + (if rows[i] in view then [rows[i]] else [])
  {
    assert rows[..i + 1][..i] == rows[..i];
  }

  /** The cursor loop of list_page over the data rows of one namespace. */
  method ScanPage(data: map<Key, Entry>, after: Option<Key>, limit: nat, reverse: bool, now: nat)
    returns (page: Page)
    requires limit > 0
    ensures page == PageOf(Visible(data, now), after, limit, reverse)
  {
    hide Directed, Scan, Visible, Listing, BeyondKeys, Beyond, Readable, Along, Ordered;
    var rows := Directed(data.Keys, false);
    var found, pos := PositionCursor(rows, after, reverse);
    ghost var start := pos;
    ghost var order := CursorOrder(data, rows, found, pos, after, reverse);
    ScanIsListing(data, now, order, after, reverse);
    ScanEmpty(data, now);
    var items: seq<(Key, Value)> := [];
    if !found {
      return Page([], false);
    }
    ghost var n := 0;
    assert order[..0] == [];
    while true
      invariant 0 <= n < |order| && pos < |rows| && start == if reverse then pos + n else pos - n
      invariant items == Scan(data, now, order[..n]) && |items| <= limit
      decreases |order| - n
    {
      var key := rows[pos];
      assert key in rows;
      assert order[..n + 1] == order[..n] + [key];
      ScanStep(data, now, order[..n], key);
      if Readable(data[key], now) {
        items := items + [(key, data[key].value)];
        if |items| > limit {
          ScanEnough(data, now, order, n + 1, limit);
          return Page(items[..limit], true);
        }
      }
      n := n + 1;
      if reverse {
        if pos == 0 { break; }
        pos := pos - 1;
      } else {
        if pos + 1 == |rows| { break; }
        pos := pos + 1;
      }
    }
    assert order[..n] == order;
    page := Page(items, false);
  }

  /** The rows a cursor visits from its position, in the order of its moves. */
  ghost function CursorOrder(data: map<Key, Entry>, rows: seq<Key>, found: bool, pos: nat,
                             after: Option<Key>, reverse: bool): (order: seq<Key>)
    requires Ordered(rows, Along(false)) && (forall k :: k in rows <==> k in data)
    requires found ==> pos < |rows|
    requires forall i | 0 <= i < |rows| ::
               Beyond(rows[i], after, reverse) <==> found && if reverse then i <= pos else pos <= i
    ensures Ordered(order, Along(reverse))
    ensures forall k :: k in order <==> k in BeyondKeys(data.Keys, after, reverse)
    ensures !found ==> order == []
    ensures found ==> |order| == if reverse then pos + 1 else |rows| - pos
    ensures forall i | 0 <= i < |order| :: order[i] == rows[if reverse then pos - i else pos + i]
  {
    if !found then []
    else if reverse then
      var order := seq(pos + 1, i requires 0 <= i <= pos => rows[pos - i]);
      VisitedElements(data.Keys, rows, order, pos, after, reverse);
      order
    else
      VisitedElements(data.Keys, rows, rows[pos..], pos, after, reverse);
      rows[pos..]
  }

  lemma VisitedElements(keys: set<Key>, rows: seq<Key>, order: seq<Key>, pos: nat, after: Option<Key>, reverse: bool)
    requires pos < |rows| && forall k :: k in rows <==> k in keys
    requires forall i | 0 <= i < |rows| ::
               Beyond(rows[i], after, reverse) <==> if reverse then i <= pos else pos <= i
    requires |order| == if reverse then pos + 1 else |rows| - pos
    requires forall i | 0 <= i < |order| :: order[i] == rows[if reverse then pos - i else pos + i]
    ensures forall k :: k in order <==> k in BeyondKeys(keys, after, reverse)
  {
    hide Beyond;
    forall k ensures k in order <==> k in BeyondKeys(keys, after, reverse) {
      if k in BeyondKeys(keys, after, reverse) {
        var i :| 0 <= i < |rows| && rows[i] == k;
        assert order[if reverse then pos - i else i - pos] == k;
      }
      if k in order {
        var i :| 0 <= i < |order| && order[i] == k;
        assert k == rows[if reverse then pos - i else pos + i];
      }
    }
  }
}
