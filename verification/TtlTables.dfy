/** The three LMDB tables behind one namespace of the key-value store, as values: data rows with
    an inline expiry, an expiry index bucketed by minute, and the expiry of every key that has
    one. Transactions are atomic, so each operation is a function from tables to tables. */
module TtlTables {
  import opened KeyOrder

  // Null is Python's None: a stored None cannot be told from a missing key.
  datatype Value = Null | Text(text: string)

  // expiry 0 means "never expires"; otherwise a time in seconds
  datatype Entry = Entry(expiry: nat, value: Value)

  // one duplicate (bucket, key) of the dupsort expiry index
  datatype Row = Row(bucket: nat, key: Key)

  datatype Tables = Tables(data: map<Key, Entry>, exp: set<Row>, meta: map<Key, nat>)

  const EMPTY := Tables(map[], {}, map[])

  predicate Expired(e: Entry, now: nat) { e.expiry != 0 && e.expiry <= now }

  /** What every reachable state of the tables satisfies. The index is only included in the
      metadata: a cleanup pass drops the row of a key that expires later in the same minute. */
  ghost predicate Consistent(t: Tables) {
    && (forall k :: k in t.meta <==> k in t.data && t.data[k].expiry != 0)
    && (forall k :: k in t.meta ==> t.meta[k] == t.data[k].expiry)
    && (forall r :: r in t.exp ==> r.key in t.meta && r.bucket == t.meta[r.key] / 60)
  }

  function RowsOf(exp: set<Row>, key: Key): set<Row> { set r | r in exp && r.key == key }

  // ---- Mutations ------------------------------------------------------------------------------

  function Put(t: Tables, key: Key, e: Entry): Tables {
    Tables(
      t.data[key := e],
      (t.exp - RowsOf(t.exp, key)) + (if e.expiry == 0 then {} else {Row(e.expiry / 60, key)}),
      if e.expiry == 0 then t.meta - {key} else t.meta[key := e.expiry])
  }

  function Remove(t: Tables, key: Key): Tables {
    Tables(t.data - {key}, t.exp - RowsOf(t.exp, key), t.meta - {key})
  }

  lemma MutationsConsistent(t: Tables, key: Key, e: Entry)
    requires Consistent(t)
    ensures Consistent(Put(t, key, e)) && Consistent(Remove(t, key))
  {
  }

  lemma AtMostOneRow(t: Tables, r: Row, r': Row)
    requires Consistent(t) && r in t.exp && r' in t.exp && r.key == r'.key
    ensures r == r'
  {
  }

  // ---- One cleanup pass -----------------------------------------------------------------------

  predicate RowLess(a: Row, b: Row) {
    a.bucket < b.bucket || (a.bucket == b.bucket && Less(a.key, b.key))
  }

  lemma RowLessIsStrictTotal()
    ensures StrictTotal(RowLess)
  {
    LessIsStrictTotal();
  }

  /** The index in cursor order: by bucket, then by key. */
  function IndexRows(exp: set<Row>): (r: seq<Row>)
    ensures forall x :: x in r <==> x in exp
    ensures Ordered(r, RowLess) && |r| == |exp|
  {
    RowLessIsStrictTotal();
    Enumerate(exp, RowLess)
  }

  /** The longest prefix of due rows that the remaining delete budget lets a pass look at. */
  function TakeDue(rows: seq<Row>, bucket: nat, room: nat): (taken: seq<Row>)
    ensures taken <= rows && |taken| <= room
    ensures forall r | r in taken :: r.bucket <= bucket
  {
    if rows == [] || room == 0 || rows[0].bucket > bucket then []
    else [rows[0]] + TakeDue(rows[1..], bucket, room - 1)
  }

  function Taken(t: Tables, now: nat, room: nat): seq<Row> {
    TakeDue(IndexRows(t.exp), now / 60, room)
  }

  /** Keys among the given rows whose entry has expired. */
  function Gone(t: Tables, rows: seq<Row>, now: nat): set<Key> {
    set r | r in rows && r.key in t.data && Expired(t.data[r.key], now) :: r.key
  }

  function Clean(t: Tables, now: nat, room: nat): Tables {
    var taken := Taken(t, now, room);
    var gone := Gone(t, taken, now);
    Tables(t.data - gone, t.exp - RowSet(taken), t.meta - gone)
  }

  function CleanCount(t: Tables, now: nat, room: nat): (n: nat)
    ensures n <= room
  {
    GoneIsSmall(t, Taken(t, now, room), now);
    |Gone(t, Taken(t, now, room), now)|
  }

  lemma CleanConsistent(t: Tables, now: nat, room: nat)
    requires Consistent(t)
    ensures Consistent(Clean(t, now, room))
  {
    var taken, t' := Taken(t, now, room), Clean(t, now, room);
    forall r | r in t'.exp ensures r.key in t'.meta {
      if r.key in Gone(t, taken, now) {
        var r' :| r' in taken && r'.key == r.key;
        AtMostOneRow(t, r, r');
        assert false;
      }
    }
  }

  /** A pass removes expired entries only and counts exactly the entries it removes. */
  lemma CleanRemovesOnlyExpired(t: Tables, now: nat, room: nat)
    ensures forall k | k in t.data && !Expired(t.data[k], now) ::
              k in Clean(t, now, room).data && Clean(t, now, room).data[k] == t.data[k]
    ensures forall k | k in Clean(t, now, room).data :: k in t.data && Clean(t, now, room).data[k] == t.data[k]
    ensures |t.data| - |Clean(t, now, room).data| == CleanCount(t, now, room)
  {
    var taken := Taken(t, now, room);
    var gone := Gone(t, taken, now);
    assert gone <= t.data.Keys;
    assert Clean(t, now, room).data.Keys == t.data.Keys - gone;
    assert |t.data| == |t.data.Keys|;
    assert |Clean(t, now, room).data| == |Clean(t, now, room).data.Keys|;
  }

  lemma {:induction false} GoneIsSmall(t: Tables, rows: seq<Row>, now: nat)
    ensures |Gone(t, rows, now)| <= |rows|
  {
    if rows == [] {
      assert Gone(t, rows, now) == {};
    } else {
      var n := |rows| - 1;
      GoneIsSmall(t, rows[..n], now);
      assert rows == rows[..n] + [rows[n]];
      assert Gone(t, rows, now) <= Gone(t, rows[..n], now) + {rows[n].key};
      SubsetIsSmaller(Gone(t, rows, now), Gone(t, rows[..n], now) + {rows[n].key});
    }
  }

  lemma SubsetIsSmaller<T>(a: set<T>, b: set<T>)
    requires a <= b
    ensures |a| <= |b|
  {
    assert b == a + (b - a);
  }

  function Due(t: Tables, now: nat): set<Row> { set r | r in t.exp && r.bucket <= now / 60 }

  function DueCount(rows: seq<Row>, bucket: nat): (n: nat)
    ensures n <= |rows|
  {
    if rows == [] || rows[0].bucket > bucket then 0 else 1 + DueCount(rows[1..], bucket)
  }

  lemma {:induction false} DueIsPrefix(rows: seq<Row>, bucket: nat)
    requires Ordered(rows, RowLess)
    ensures forall i :: 0 <= i < |rows| ==> (rows[i].bucket <= bucket <==> i < DueCount(rows, bucket))
  {
    if rows != [] {
      if rows[0].bucket > bucket {
        assert forall i :: 0 < i < |rows| ==> RowLess(rows[0], rows[i]);
      } else {
        DueIsPrefix(rows[1..], bucket);
        assert forall i :: 0 < i < |rows| ==> rows[i] == rows[1..][i - 1];
      }
    }
  }

  lemma {:induction false} TakeDueLength(rows: seq<Row>, bucket: nat, room: nat)
    ensures |TakeDue(rows, bucket, room)| == if DueCount(rows, bucket) <= room then DueCount(rows, bucket) else room
  {
    if rows != [] && room > 0 && rows[0].bucket <= bucket { TakeDueLength(rows[1..], bucket, room - 1); }
  }

  function RowSet(rows: seq<Row>): set<Row> { set r | r in rows }

  lemma {:induction false} DistinctCount(rows: seq<Row>, n: nat)
    requires Ordered(rows, RowLess) && n <= |rows|
    ensures |RowSet(rows[..n])| == n
  {
    if n == 0 {
      assert RowSet(rows[..0]) == {};
    } else {
      hide Ordered;
      DistinctCount(rows, n - 1);
      assert rows[..n] == rows[..n - 1] + [rows[n - 1]];
      assert RowSet(rows[..n]) == RowSet(rows[..n - 1]) + {rows[n - 1]};
      NotBefore(rows, n - 1);
    }
  }

  lemma NotBefore(rows: seq<Row>, n: nat)
    requires Ordered(rows, RowLess) && n < |rows|
    ensures rows[n] !in RowSet(rows[..n])
  {
    RowLessIsStrictTotal();
    hide RowLess;
    forall i | 0 <= i < n ensures rows[i] != rows[n] { assert RowLess(rows[i], rows[n]); }
  }

  /** A pass sees the first min(room, due) rows of the index; all due rows if they fit. */
  lemma TakenIsDue(t: Tables, now: nat, room: nat)
    ensures |Taken(t, now, room)| == if |Due(t, now)| <= room then |Due(t, now)| else room
    ensures |Due(t, now)| <= room ==> forall r :: r in Due(t, now) ==> r in Taken(t, now, room)
  {
    hide IndexRows, TakeDue;
    var rows, bucket := IndexRows(t.exp), now / 60;
    var n := DueCount(rows, bucket);
    DueIsPrefix(rows, bucket);
    TakeDueLength(rows, bucket, room);
    DistinctCount(rows, n);
    forall r ensures r in Due(t, now) <==> r in rows[..n] {
      if r in Due(t, now) {
        var i :| 0 <= i < |rows| && rows[i] == r;
        assert r == rows[..n][i];
      }
    }
    assert Due(t, now) == RowSet(rows[..n]);
    if n <= room { assert Taken(t, now, room) == rows[..n]; }
  }

  /** After a pass an expired key keeps a row exactly when the pass never reached that row; when
      the due rows fit in the budget, none is left. */
  lemma CleanComplete(t: Tables, now: nat, room: nat)
    requires Consistent(t)
    ensures forall r | r in t.exp && Expired(t.data[r.key], now) ::
              r.key in Clean(t, now, room).data <==> r !in Taken(t, now, room)
    ensures |Due(t, now)| <= room ==>
              forall r | r in t.exp && Expired(t.data[r.key], now) :: r.key !in Clean(t, now, room).data
  {
    var rows, taken := IndexRows(t.exp), Taken(t, now, room);
    TakenIsDue(t, now, room);
    forall r | r in t.exp && Expired(t.data[r.key], now)
      ensures r.key in Clean(t, now, room).data <==> r !in taken
      ensures |Due(t, now)| <= room ==> r in taken
    {
      assert r.bucket <= now / 60;
      if r.key in Gone(t, taken, now) {
        var r' :| r' in taken && r'.key == r.key;
        assert r' in rows;
        AtMostOneRow(t, r, r');
      }
    }
  }

  /** The delete count alone does not tell whether a pass was complete: rows of live keys use up
      the budget too. Here nothing is deleted although the budget is one and "z" has expired. */
  lemma CountBelowBudgetIsNotComplete()
    ensures exists t: Tables ::
              && Consistent(t) && CleanCount(t, 70, 1) == 0 && Row(1, "z") in t.exp
              && "z" in Clean(t, 70, 1).data && Expired(Clean(t, 70, 1).data["z"], 70)
  {
    var t := OneLiveOneDead();
    LiveRowFirst();
    assert Gone(t, [Row(1, "a")], 70) == {};
    hide Taken;
    assert Consistent(t) && CleanCount(t, 70, 1) == 0 && Clean(t, 70, 1).data == t.data;
  }

  // at second 70 "a" is live and "z" has expired, and both rows are due
  function OneLiveOneDead(): Tables {
    Tables(map["a" := Entry(119, Null), "z" := Entry(61, Null)], {Row(1, "a"), Row(1, "z")}, map["a" := 119, "z" := 61])
  }

  lemma LiveRowFirst()
    ensures Taken(OneLiveOneDead(), 70, 1) == [Row(1, "a")]
  {
    var live, dead := Row(1, "a"), Row(1, "z");
    var rows := IndexRows({live, dead});
    EnumerateTwo(live, dead, rows);
    hide IndexRows;
    assert TakeDue(rows, 1, 1) == [live] + TakeDue(rows[1..], 1, 0);
  }

  lemma EnumerateTwo(a: Row, b: Row, rows: seq<Row>)
    requires RowLess(a, b) && Ordered(rows, RowLess) && forall x :: x in rows <==> x in {a, b}
    ensures rows == [a, b]
  {
    RowLessIsStrictTotal();
    OrderedUnique(rows, [a, b], RowLess);
  }

  /** A live key loses its row exactly when a pass reaches it in the minute of its expiry ... */
  lemma LiveRowLost(t: Tables, now: nat, room: nat, r: Row)
    requires Consistent(t) && r in t.exp && !Expired(t.data[r.key], now)
    ensures r !in Clean(t, now, room).exp <==> r in Taken(t, now, room)
    ensures r in Taken(t, now, room) ==> now < t.data[r.key].expiry && t.data[r.key].expiry / 60 == now / 60
    ensures |Due(t, now)| <= room && t.data[r.key].expiry / 60 == now / 60 ==> r !in Clean(t, now, room).exp
  {
    TakenIsDue(t, now, room);
  }

  /** The key is stored but no index row leads to it. */
  ghost predicate Rowless(t: Tables, key: Key, e: Entry) {
    key in t.data && t.data[key] == e && forall r | r in t.exp :: r.key != key
  }

  /** ... and a pass never removes a key without a row, however long it has been expired. */
  lemma CleanKeepsRowless(t: Tables, now: nat, room: nat, key: Key, e: Entry)
    requires Rowless(t, key, e)
    ensures Rowless(Clean(t, now, room), key, e)
  {
    assert forall r | r in Taken(t, now, room) :: r in IndexRows(t.exp);
  }

  // ---- What readers see -----------------------------------------------------------------------

  type View = map<Key, Value>

  predicate Readable(e: Entry, now: nat) { !Expired(e, now) && e.value != Null }

  /** The entries a reader can see at time `now`. */
  function Visible(data: map<Key, Entry>, now: nat): View {
    map k | k in data && Readable(data[k], now) :: data[k].value
  }

  function Lookup(view: View, key: Key): Value {
    if key in view then view[key] else Null
  }

  datatype Page = Page(items: seq<(Key, Value)>, more: bool)

  function Items(keys: seq<Key>, view: View): (r: seq<(Key, Value)>)
    requires forall k | k in keys :: k in view
    ensures |r| == |keys| && forall i | 0 <= i < |r| :: r[i] == (keys[i], view[keys[i]])
  {
    seq(|keys|, i requires 0 <= i < |keys| => (keys[i], view[keys[i]]))
  }

  function BeyondKeys(keys: set<Key>, after: Option<Key>, reverse: bool): set<Key> {
    set k | k in keys && Beyond(k, after, reverse)
  }

  /** All visible items strictly beyond the cursor, in the direction of travel. */
  function Listing(view: View, after: Option<Key>, reverse: bool): seq<(Key, Value)> {
    Items(Directed(BeyondKeys(view.Keys, after, reverse), reverse), view)
  }

  function PageOf(view: View, after: Option<Key>, limit: nat, reverse: bool): Page {
    var all := Listing(view, after, reverse);
    if |all| > limit then Page(all[..limit], true) else Page(all, false)
  }

  /** What a page is, without its order of computation: visible items strictly beyond the cursor, in
      strict order; an item is left out only when the page is full, and then it comes after all of them;
      more tells whether any is. */
  lemma PageIs(view: View, after: Option<Key>, limit: nat, reverse: bool)
    ensures var page := PageOf(view, after, limit, reverse);
            && |page.items| <= limit
            && (forall i, j | 0 <= i < j < |page.items| :: Along(reverse)(page.items[i].0, page.items[j].0))
            && (forall k, v | (k, v) in page.items :: k in view && view[k] == v && Beyond(k, after, reverse))
            && (forall k | k in view && Beyond(k, after, reverse) && (k, view[k]) !in page.items ::
                  && page.more && |page.items| == limit
                  && forall i | 0 <= i < limit :: Along(reverse)(page.items[i].0, k))
            && (page.more ==> exists k :: k in view && Beyond(k, after, reverse) && (k, view[k]) !in page.items)
  {
    var keys := Directed(BeyondKeys(view.Keys, after, reverse), reverse);
    hide Beyond, BeyondKeys, Listing, Directed, Along;
    PageKeys(view, after, reverse, keys);
    PageOmits(view, after, limit, reverse, keys);
    forall k, v | (k, v) in PageOf(view, after, limit, reverse).items
      ensures k in view && view[k] == v && Beyond(k, after, reverse)
    {
      assert (k, v) in Listing(view, after, reverse);
    }
  }

  /** The items of a list in this order that are not among the first ones. */
  lemma PageOmits(view: View, after: Option<Key>, limit: nat, reverse: bool, keys: seq<Key>)
    requires forall i, j | 0 <= i < j < |keys| :: Along(reverse)(keys[i], keys[j])
    requires var all := Listing(view, after, reverse);
             |all| == |keys| && forall i | 0 <= i < |keys| :: keys[i] in view && all[i] == (keys[i], view[keys[i]])
    ensures var page := PageOf(view, after, limit, reverse);
            && (forall k | k in keys && (k, view[k]) !in page.items ::
                  && page.more && |page.items| == limit
                  && forall i | 0 <= i < limit :: Along(reverse)(page.items[i].0, k))
            && (page.more ==> |keys| > limit && keys[limit] in keys && (keys[limit], view[keys[limit]]) !in page.items)
  {
    hide Listing, Along;
    AlongIsStrictTotal(reverse);
    var page := PageOf(view, after, limit, reverse);
    forall k | k in keys && (k, view[k]) !in page.items
      ensures page.more && |page.items| == limit && forall i | 0 <= i < limit :: Along(reverse)(page.items[i].0, k)
    {
      var j :| 0 <= j < |keys| && keys[j] == k;
      assert forall i | 0 <= i < |page.items| :: page.items[i] in page.items;
    }
    if page.more {
      forall i | 0 <= i < limit ensures page.items[i].0 != keys[limit] { assert page.items[i].0 == keys[i]; }
    }
  }

  lemma PageKeys(view: View, after: Option<Key>, reverse: bool, keys: seq<Key>)
    requires keys == Directed(BeyondKeys(view.Keys, after, reverse), reverse)
    ensures forall k :: k in keys <==> k in view && Beyond(k, after, reverse)
    ensures forall i, j | 0 <= i < j < |keys| :: Along(reverse)(keys[i], keys[j])
    ensures var all := Listing(view, after, reverse);
            |all| == |keys| && forall i | 0 <= i < |keys| :: keys[i] in view && all[i] == (keys[i], view[keys[i]])
  {
    hide Beyond, Along;
  }

  lemma SuffixIsBeyond(keys: seq<Key>, less: (Key, Key) -> bool, n: nat, k: Key)
    requires StrictTotal(less) && Ordered(keys, less) && 0 < n <= |keys|
    ensures k in keys[n..] <==> k in keys && less(keys[n - 1], k)
  {
    if k in keys {
      var i :| 0 <= i < |keys| && keys[i] == k;
      if i < n {
        assert i == n - 1 || less(k, keys[n - 1]);
        assert less(k, k) || !less(keys[n - 1], k);
        forall j | n <= j < |keys| ensures keys[j] != k { assert less(keys[i], keys[j]); }
      } else {
        assert k == keys[n..][i - n];
      }
    }
  }

  /** Resuming after the last item of a page continues exactly where the page stopped. */
  lemma ListingResumes(view: View, after: Option<Key>, reverse: bool, n: nat)
    requires 0 < n <= |Listing(view, after, reverse)|
    ensures var all := Listing(view, after, reverse);
            Listing(view, Some(all[n - 1].0), reverse) == all[n..]
  {
    var keys := Directed(BeyondKeys(view.Keys, after, reverse), reverse);
    var last := keys[n - 1];
    assert last in keys;
    forall k ensures k in keys[n..] <==> k in BeyondKeys(view.Keys, Some(last), reverse) {
      AlongIsStrictTotal(reverse);
      SuffixIsBeyond(keys, Along(reverse), n, k);
    }
    DirectedIs(BeyondKeys(view.Keys, Some(last), reverse), keys[n..], reverse);
    ItemsSuffix(keys, view, n);
  }

  lemma ItemsSuffix(keys: seq<Key>, view: View, n: nat)
    requires n <= |keys| && forall k | k in keys :: k in view
    ensures Items(keys[n..], view) == Items(keys, view)[n..]
  {
  }

  /** The items of all pages obtained by following the last key of each page. */
  function Chain(view: View, after: Option<Key>, limit: nat, reverse: bool): seq<(Key, Value)>
    requires limit > 0
    decreases |Listing(view, after, reverse)|
  {
    var page := PageOf(view, after, limit, reverse);
    if !page.more then page.items
    else
      ListingResumes(view, after, reverse, limit);
      page.items + Chain(view, Some(page.items[limit - 1].0), limit, reverse)
  }

  lemma {:induction false} ChainIsListing(view: View, after: Option<Key>, limit: nat, reverse: bool)
    requires limit > 0
    ensures Chain(view, after, limit, reverse) == Listing(view, after, reverse)
    decreases |Listing(view, after, reverse)|
  {
    var all := Listing(view, after, reverse);
    if |all| > limit {
      ListingResumes(view, after, reverse, limit);
      ChainIsListing(view, Some(all[limit - 1].0), limit, reverse);
      assert all == all[..limit] + all[limit..];
    }
  }

  // ---- Scanning rows in cursor order ----------------------------------------------------------

  function Filter(keys: seq<Key>, view: View): (r: seq<Key>)
    ensures forall k :: k in r <==> k in keys && k in view
  {
    if keys == [] then []
    else
      var n := |keys| - 1;
      assert keys == keys[..n] + [keys[n]];
      Filter(keys[..n], view) + (if keys[n] in view then [keys[n]] else [])
  }

  lemma {:induction false} FilterConcat(a: seq<Key>, b: seq<Key>, view: View)
    ensures Filter(a + b, view) == Filter(a, view) + Filter(b, view)
  {
    if b == [] {
      assert a + b == a;
    } else {
      var n := |b| - 1;
      assert (a + b)[..|a + b| - 1] == a + b[..n];
      FilterConcat(a, b[..n], view);
    }
  }

  lemma {:induction false} FilterOrdered(keys: seq<Key>, view: View, reverse: bool)
    requires Ordered(keys, Along(reverse))
    ensures Ordered(Filter(keys, view), Along(reverse))
  {
    if keys != [] {
      var n := |keys| - 1;
      FilterOrdered(keys[..n], view, reverse);
      assert forall k | k in keys[..n] :: Along(reverse)(k, keys[n]);
      assert forall k | k in Filter(keys[..n], view) :: k in keys[..n];
    }
  }

  /** What a cursor has collected after visiting the keys of `order`. */
  function Scan(data: map<Key, Entry>, now: nat, order: seq<Key>): seq<(Key, Value)> {
    Items(Filter(order, Visible(data, now)), Visible(data, now))
  }

  lemma ScanEmpty(data: map<Key, Entry>, now: nat)
    ensures Scan(data, now, []) == []
  {
  }

  lemma ScanStep(data: map<Key, Entry>, now: nat, order: seq<Key>, key: Key)
    requires key in data
    ensures Scan(data, now, order + [key])
         == Scan(data, now, order) + (if Readable(data[key], now) then [(key, data[key].value)] else [])
  {
    assert (order + [key])[..|order|] == order;
  }

  /** Visiting every stored key beyond the cursor collects the listing of the visible ones. */
  lemma ScanIsListing(data: map<Key, Entry>, now: nat, order: seq<Key>, after: Option<Key>, reverse: bool)
    requires Ordered(order, Along(reverse))
    requires forall k :: k in order <==> k in BeyondKeys(data.Keys, after, reverse)
    ensures Scan(data, now, order) == Listing(Visible(data, now), after, reverse)
  {
    var view := Visible(data, now);
    FilterOrdered(order, view, reverse);
    DirectedIs(BeyondKeys(view.Keys, after, reverse), Filter(order, view), reverse);
  }

  /** Once a prefix of the visit has collected more than `limit` items the page is decided. */
  lemma ScanEnough(data: map<Key, Entry>, now: nat, order: seq<Key>, n: nat, limit: nat)
    requires n <= |order| && |Scan(data, now, order[..n])| > limit
    ensures |Scan(data, now, order)| > limit
    ensures Scan(data, now, order)[..limit] == Scan(data, now, order[..n])[..limit]
  {
    var view := Visible(data, now);
    assert order == order[..n] + order[n..];
    FilterConcat(order[..n], order[n..], view);
  }
}
