/** Listing models by creation time through an index of zero-padded keys "time:id". */
module CreatedAtIndex {
  import opened KeyOrder
  import opened TtlTables
  import opened TtlStore

  // ---- Index keys -------------------------------------------------------------------------------

  function Digit(d: nat): char
    requires d < 10
  {
    '0' + (d as char)
  }

  function Digits(n: nat): (s: string)
    ensures s != []
  {
    if n < 10 then [Digit(n)] else Digits(n / 10) + [Digit(n % 10)]
  }

  function Zeros(n: nat): (s: string)
    ensures |s| == n
  {
    if n == 0 then [] else ['0'] + Zeros(n - 1)
  }

  /** The format "020d": at least twenty digits, more if the number needs them. */
  function ZeroPad(n: nat): string {
    var d := Digits(n);
    if |d| < 20 then Zeros(20 - |d|) + d else d
  }

  /** int(created_at * scale) truncates toward zero; negative times are clamped to zero. */
  function ScaledTime(createdAt: real, scale: int): nat {
    var x := createdAt * scale as real;
    if x < 0.0 then 0 else x.Floor
  }

  function BuildKey(createdAt: real, id: string, scale: int): Key {
    ZeroPad(ScaledTime(createdAt, scale)) + [':'] + id
  }

  // ---- The order of index keys ------------------------------------------------------------------

  function Pow10(n: nat): (p: nat)
    ensures p >= 1
  {
    if n == 0 then 1 else 10 * Pow10(n - 1)
  }

  /** The last w decimal digits of n. */
  function Fixed(n: nat, w: nat): (s: string)
    ensures |s| == w
    decreases w
  {
    if w == 0 then [] else Fixed(n / 10, w - 1) + [Digit(n % 10)]
  }

  lemma {:induction false} FixedOrder(a: nat, b: nat, w: nat, s: string, t: string)
    requires a < Pow10(w) && b < Pow10(w)
    ensures Less(Fixed(a, w) + s, Fixed(b, w) + t) <==> a < b || (a == b && Less(s, t))
    decreases w
  {
    if w == 0 {
      assert Fixed(a, w) + s == s && Fixed(b, w) + t == t;
    } else {
      var d, e := [Digit(a % 10)] + s, [Digit(b % 10)] + t;
      assert Fixed(a, w) + s == Fixed(a / 10, w - 1) + d;
      assert Fixed(b, w) + t == Fixed(b / 10, w - 1) + e;
      FixedOrder(a / 10, b / 10, w - 1, d, e);
      assert d[1..] == s && e[1..] == t;
    }
  }

  lemma {:induction false} FixedZero(w: nat)
    ensures Fixed(0, w) == Zeros(w)
  {
    if w > 0 {
      FixedZero(w - 1);
      ZerosEnd(w);
    }
  }

  lemma {:induction false} ZerosEnd(w: nat)
    requires w > 0
    ensures Zeros(w) == Zeros(w - 1) + ['0']
  {
    if w > 1 { ZerosEnd(w - 1); }
  }

  /** Padding the digits of n with zeros on the left gives its last w digits. */
  lemma {:induction false} PaddedIsFixed(n: nat, w: nat)
    requires |Digits(n)| <= w
    ensures n < Pow10(w) && Zeros(w - |Digits(n)|) + Digits(n) == Fixed(n, w)
    decreases n
  {
    var zeros := Zeros(w - |Digits(n)|);
    if n < 10 {
      FixedZero(w - 1);
      assert n / 10 == 0 && n % 10 == n;
    } else {
      PaddedIsFixed(n / 10, w - 1);
      assert zeros + Digits(n) == (zeros + Digits(n / 10)) + [Digit(n % 10)];
    }
  }

  lemma {:induction false} DigitsLength(n: nat, w: nat)
    requires n < Pow10(w) && w > 0
    ensures |Digits(n)| <= w
    decreases w
  {
    if n >= 10 {
      assert Pow10(w) == 10 * Pow10(w - 1);
      DigitsLength(n / 10, w - 1);
    }
  }

  function Width(n: nat): nat { if |Digits(n)| < 20 then 20 else |Digits(n)| }

  lemma ZeroPadIsFixed(n: nat)
    ensures ZeroPad(n) == Fixed(n, Width(n)) && n < Pow10(Width(n))
  {
    hide Digits, Pow10, Fixed;
    PaddedIsFixed(n, Width(n));
    assert Zeros(0) + Digits(n) == Digits(n);
  }

  /** Below 10^20 the byte order of keys is the order of times, then of ids. */
  lemma KeyOrderIsTimeOrder(t: real, i: string, t': real, i': string, scale: int)
    requires ScaledTime(t, scale) < Pow10(20) && ScaledTime(t', scale) < Pow10(20)
    ensures var a, b := ScaledTime(t, scale), ScaledTime(t', scale);
            Less(BuildKey(t, i, scale), BuildKey(t', i', scale)) <==> a < b || (a == b && Less(i, i'))
  {
    hide ScaledTime, Pow10, Digits, Fixed, ZeroPad;
    var a, b := ScaledTime(t, scale), ScaledTime(t', scale);
    DigitsLength(a, 20);
    DigitsLength(b, 20);
    ZeroPadIsFixed(a);
    ZeroPadIsFixed(b);
    var s, s' := [':'] + i, [':'] + i';
    assert BuildKey(t, i, scale) == Fixed(a, 20) + s;
    assert BuildKey(t', i', scale) == Fixed(b, 20) + s';
    FixedOrder(a, b, 20, s, s');
    assert s[1..] == i && s'[1..] == i';
  }

  /** Keys are equal exactly when the clamped times and the ids are. */
  lemma KeyIsInjective(t: real, i: string, t': real, i': string, scale: int)
    requires ScaledTime(t, scale) < Pow10(20) && ScaledTime(t', scale) < Pow10(20)
    ensures BuildKey(t, i, scale) == BuildKey(t', i', scale)
       <==> ScaledTime(t, scale) == ScaledTime(t', scale) && i == i'
  {
    KeyOrderIsTimeOrder(t, i, t', i', scale);
    KeyOrderIsTimeOrder(t', i', t, i, scale);
    LessIrreflexive(BuildKey(t, i, scale));
    LessTotal(i, i');
  }

  function Scaled(t: real, scale: int): real { t * scale as real }

  /** The time of a key is the scaled time without its fraction, and zero for times before the epoch. */
  lemma ScaledTimeIs(createdAt: real, scale: int)
    ensures var x, n := Scaled(createdAt, scale), ScaledTime(createdAt, scale);
            if x < 1.0 then n == 0 else n as real <= x < n as real + 1.0
  {
  }

  lemma ScaleKeepsOrder(t: real, t': real, scale: int)
    requires t <= t' && scale > 0
    ensures Scaled(t, scale) <= Scaled(t', scale)
  {
    var factor := scale as real;
    assert 0.0 <= (t' - t) * factor;
  }

  lemma WholeParts(t: real, t': real, scale: int)
    ensures 0.0 <= Scaled(t, scale) <= Scaled(t', scale) - 1.0 ==> ScaledTime(t, scale) < ScaledTime(t', scale)
    ensures Scaled(t', scale) <= Scaled(t, scale) ==> ScaledTime(t', scale) <= ScaledTime(t, scale)
  {
    hide Scaled, ScaledTime;
    ScaledTimeIs(t, scale);
    ScaledTimeIs(t', scale);
  }

  /** Two objects whose scaled times differ by at least one unit are listed in the order of their times,
      whatever their ids; the order of keys never contradicts the order of times. */
  lemma KeysFollowTimes(t: real, i: string, t': real, i': string, scale: int)
    requires scale > 0 && ScaledTime(t, scale) < Pow10(20) && ScaledTime(t', scale) < Pow10(20)
    ensures 0.0 <= Scaled(t, scale) <= Scaled(t', scale) - 1.0 ==> Less(BuildKey(t, i, scale), BuildKey(t', i', scale))
    ensures Less(BuildKey(t, i, scale), BuildKey(t', i', scale)) && t' <= t ==>
              ScaledTime(t, scale) == ScaledTime(t', scale) && Less(i, i')
  {
    hide Scaled, ScaledTime, Pow10, BuildKey;
    KeyOrderIsTimeOrder(t, i, t', i', scale);
    WholeParts(t, t', scale);
    if t' <= t { ScaleKeepsOrder(t', t, scale); }
  }

  /** The number that decimal digits denote. */
  function Denoted(s: string): nat {
    if s == [] then 0
    else
      var c := s[|s| - 1];
      10 * Denoted(s[..|s| - 1]) + if '0' <= c <= '9' then c as int - '0' as int else 0
  }

  lemma {:induction false} FixedDenotes(n: nat, w: nat)
    requires n < Pow10(w)
    ensures Denoted(Fixed(n, w)) == n
    decreases w
  {
    if w > 0 {
      assert n / 10 < Pow10(w - 1);
      FixedDenotes(n / 10, w - 1);
      assert Fixed(n, w)[..w - 1] == Fixed(n / 10, w - 1);
    }
  }

  /** A key reads back: twenty digits that denote the scaled time, a colon, the id. */
  lemma KeyReadsBack(t: real, id: string, scale: int)
    requires ScaledTime(t, scale) < Pow10(20)
    ensures var key := BuildKey(t, id, scale);
            && |key| == 21 + |id| && Denoted(key[..20]) == ScaledTime(t, scale) && key[20] == ':' && key[21..] == id
  {
    hide ScaledTime, Pow10, Digits, Fixed, ZeroPad, Denoted;
    var n := ScaledTime(t, scale);
    DigitsLength(n, 20);
    ZeroPadIsFixed(n);
    FixedDenotes(n, 20);
    assert BuildKey(t, id, scale)[..20] == Fixed(n, 20);
  }

  /** b without its last k digits. */
  function DropDigits(b: nat, k: nat): nat
    decreases k
  {
    if k == 0 then b else DropDigits(b / 10, k - 1)
  }

  lemma {:induction false} FixedSplit(b: nat, w: nat, k: nat)
    ensures Fixed(b, w + k) == Fixed(DropDigits(b, k), w) + Fixed(b, k)
    decreases k
  {
    if k == 0 {
      assert Fixed(b, 0) == [];
    } else {
      FixedSplit(b / 10, w, k - 1);
      assert Fixed(b, k) == Fixed(b / 10, k - 1) + [Digit(b % 10)];
    }
  }

  lemma {:induction false} DroppedBelow(b: nat, w: nat, k: nat)
    requires b < Pow10(w + k)
    ensures DropDigits(b, k) < Pow10(w)
    decreases k
  {
    if k > 0 { DroppedBelow(b / 10, w, k - 1); }
  }

  /** From 10^20 on keys grow longer and order fails: the key of a sorts before the key of a wider
      b exactly when a is below b's leading digits. */
  lemma WideKeyOrder(a: nat, i: string, b: nat, j: string)
    requires Width(a) < Width(b)
    ensures Less(ZeroPad(a) + [':'] + i, ZeroPad(b) + [':'] + j) <==> a < DropDigits(b, Width(b) - Width(a))
  {
    hide Pow10, Digits, Fixed, ZeroPad, Width, DropDigits;
    var w, k := Width(a), Width(b) - Width(a);
    ZeroPadIsFixed(a);
    ZeroPadIsFixed(b);
    FixedSplit(b, w, k);
    DroppedBelow(b, w, k);
    var lead := DropDigits(b, k);
    var s, t := [':'] + i, Fixed(b, k) + ([':'] + j);
    assert ZeroPad(a) + [':'] + i == Fixed(a, w) + s;
    assert ZeroPad(b) + [':'] + j == Fixed(lead, w) + t;
    FixedOrder(a, lead, w, s, t);
    FirstIsDigit(b, k);
    assert t[0] == Fixed(b, k)[0];
  }

  lemma {:induction false} FirstIsDigit(b: nat, k: nat)
    requires k > 0
    ensures Fixed(b, k)[0] <= '9'
    decreases k
  {
    if k > 1 {
      FirstIsDigit(b / 10, k - 1);
      assert Fixed(b, k)[0] == Fixed(b / 10, k - 1)[0];
    }
  }

  // ---- Listing ----------------------------------------------------------------------------------

  // How a kind of model is read from its stored value, and which models a caller asks for.
  datatype Schema = Schema(idOf: Value -> string, createdAt: Value -> real, scale: int, accepts: Value -> bool)

  function KeyOf(schema: Schema, v: Value): Key { BuildKey(schema.createdAt(v), schema.idOf(v), schema.scale) }

  // index rows hold the object id as text
  function IdIn(v: Value): string {
    match v
    case Text(s) => s
    case Null => []
  }

  /** The accepted live objects behind some index rows, in row order. */
  function Matches(rows: seq<(Key, Value)>, objects: View, schema: Schema): (r: seq<Value>)
    ensures |r| <= |rows|
  {
    if rows == [] then []
    else
      var n := |rows| - 1;
      var v := Lookup(objects, IdIn(rows[n].1));
      Matches(rows[..n], objects, schema) + (if v != Null && schema.accepts(v) then [v] else [])
  }

  lemma {:induction false} MatchesConcat(a: seq<(Key, Value)>, b: seq<(Key, Value)>, objects: View, schema: Schema)
    ensures Matches(a + b, objects, schema) == Matches(a, objects, schema) + Matches(b, objects, schema)
  {
    if b == [] {
      assert a + b == a;
    } else {
      var n := |b| - 1;
      assert (a + b)[..|a + b| - 1] == a + b[..n];
      MatchesConcat(a, b[..n], objects, schema);
    }
  }

  datatype Cursor = NoCursor | At(key: Key) | Missing

  function CursorFor(objects: View, after: Option<string>, schema: Schema): Cursor {
    if after.None? then NoCursor
    else
      var v := Lookup(objects, after.value);
      if v == Null then Missing else At(KeyOf(schema, v))
  }

  function CursorKey(c: Cursor): Option<Key> {
    if c.At? then Some(c.key) else None
  }

  /** Every match of the index strictly beyond the cursor object. */
  function AllMatches(index: View, objects: View, after: Option<string>, schema: Schema, reverse: bool): seq<Value> {
    var c := CursorFor(objects, after, schema);
    if c.Missing? then [] else Matches(Listing(index, CursorKey(c), reverse), objects, schema)
  }

  datatype ModelPage = ModelPage(models: seq<Value>, more: bool)

  function FirstOf(all: seq<Value>, limit: int): ModelPage {
    if limit < 0 then ModelPage([], true)
    else if |all| > limit then ModelPage(all[..limit], true)
    else ModelPage(all, false)
  }

  /** The naive answer: sort, filter, take. */
  function NaivePage(index: View, objects: View, after: Option<string>, schema: Schema, reverse: bool, limit: int)
    : ModelPage
  {
    if CursorFor(objects, after, schema).Missing? then ModelPage([], false)
    else FirstOf(AllMatches(index, objects, after, schema, reverse), limit)
  }

  function Max(a: int, b: int): int { if a >= b then a else b }

  function Min(a: int, b: int): int { if a <= b then a else b }

  ghost predicate HoldsIds(index: View) {
    forall k :: k in index ==> IdIn(index[k]) != []
  }

  ghost predicate SameViews(a: Spaces, b: Spaces, now: nat) {
    forall ns :: Visible(Space(a, ns).data, now) == Visible(Space(b, ns).data, now)
  }

  lemma RegisteredSame(spaces: Spaces, ns: string, now: nat)
    ensures SameViews(Registered(spaces, ns), spaces, now)
  {
  }

  lemma SameSelf(a: Spaces, now: nat)
    ensures SameViews(a, a, now)
  {
  }

  lemma SameTransitive(a: Spaces, b: Spaces, c: Spaces, now: nat)
    requires SameViews(a, b, now) && SameViews(b, c, now)
    ensures SameViews(a, c, now)
  {
  }

  lemma SameAt(a: Spaces, b: Spaces, ns: string, now: nat)
    requires SameViews(a, b, now)
    ensures Visible(Space(a, ns).data, now) == Visible(Space(b, ns).data, now)
  {
  }

  /** The inner loop: load the objects of one index page until more than `limit` models are held. */
  method CollectPage(store: StoreService, storeNs: string, items: seq<(Key, Value)>, limit: nat, held: seq<Value>,
                     schema: Schema, now: nat) returns (models: seq<Value>, n: nat)
    requires store.Valid() && !Reserved(storeNs) && |held| <= limit
    requires forall i | 0 <= i < |items| :: IdIn(items[i].1) != []
    modifies store
    ensures store.Valid() && SameViews(store.spaces, old(store.spaces), now)
    ensures n <= |items| && (n == |items| || |models| > limit)
    ensures models == held + Matches(items[..n], old(Visible(Space(store.spaces, storeNs).data, now)), schema)
  {
    hide Visible, Lookup, Space, Registered, IdIn;
    ghost var objects := Visible(Space(store.spaces, storeNs).data, now);
    models, n := held, 0;
    while n < |items| && |models| <= limit
      invariant 0 <= n <= |items| && store.Valid() && SameViews(store.spaces, old(store.spaces), now)
      invariant models == held + Matches(items[..n], objects, schema)
    {
      RegisteredSame(store.spaces, storeNs, now);
      var stored := store.Get(storeNs, IdIn(items[n].1), now);
      assert items[..n + 1][..n] == items[..n];
      if stored.value != Null && schema.accepts(stored.value) {
        models := models + [stored.value];
      }
      n := n + 1;
    }
  }

  /** One page of the index; registering the namespace changes nothing that is visible. */
  method FetchPage(store: StoreService, ns: string, after: Option<Key>, batch: nat, reverse: bool, now: nat,
                   ghost origin: Spaces)
    returns (page: Page)
    requires store.Valid() && !Reserved(ns) && batch > 0 && SameViews(store.spaces, origin, now)
    modifies store
    ensures store.Valid() && SameViews(store.spaces, origin, now)
    ensures page == PageOf(Visible(Space(old(store.spaces), ns).data, now), after, batch, reverse)
  {
    hide Visible, Space, Registered, PageOf, SameViews;
    RegisteredSame(store.spaces, ns, now);
    SameTransitive(Registered(store.spaces, ns), store.spaces, origin, now);
    var listed := store.ListPage(ns, after, batch, reverse, now);
    page := listed.value;
  }

  /** The batched scan. Both namespaces are read at one instant `now`. */
  method ListCreatedAtModels(store: StoreService, storeNs: string, indexNs: string, limit: int, after: Option<string>,
                             schema: Schema, reverse: bool, now: nat) returns (r: Result<ModelPage>)
    requires store.Valid() && !Reserved(storeNs) && !Reserved(indexNs)
    requires HoldsIds(Visible(Space(store.spaces, indexNs).data, now))
    modifies store
    ensures store.Valid()
    ensures r == if after == Some([]) then Err(EmptyKey)
                 else Ok(NaivePage(old(Visible(Space(store.spaces, indexNs).data, now)),
                                   old(Visible(Space(store.spaces, storeNs).data, now)),
                                   after, schema, reverse, limit))
  {
    hide Visible, Listing, Lookup, KeyOf, HoldsIds, Consistent, Space, Registered, Matches, ScaledTime, ZeroPad;
    ghost var index := Visible(Space(store.spaces, indexNs).data, now);
    ghost var objects := Visible(Space(store.spaces, storeNs).data, now);
    var afterKey: Option<Key> := None;
    if after.Some? {
      RegisteredSame(store.spaces, storeNs, now);
      var stored := store.Get(storeNs, after.value, now);
      if stored.Err? { return Err(stored.error); }
      if stored.value == Null { return Ok(ModelPage([], false)); }
      afterKey := Some(KeyOf(schema, stored.value));
    }
    if limit < 0 { return Ok(ModelPage([], true)); }
    var page := ScanIndex(store, storeNs, indexNs, limit, afterKey, schema, reverse, now);
    r := Ok(page);
  }

  method ScanIndex(store: StoreService, storeNs: string, indexNs: string, limit: nat, afterKey: Option<Key>,
                   schema: Schema, reverse: bool, now: nat) returns (r: ModelPage)
    requires store.Valid() && !Reserved(storeNs) && !Reserved(indexNs)
    requires HoldsIds(Visible(Space(store.spaces, indexNs).data, now))
    modifies store
    ensures store.Valid()
    ensures r == FirstOf(Matches(Listing(old(Visible(Space(store.spaces, indexNs).data, now)), afterKey, reverse),
                                 old(Visible(Space(store.spaces, storeNs).data, now)), schema), limit)
  {
    hide Visible, Listing, Lookup, HoldsIds, Consistent, Space, Registered, Matches, PageOf, SameViews, FirstOf, IdIn;
    ghost var index := Visible(Space(store.spaces, indexNs).data, now);
    ghost var objects := Visible(Space(store.spaces, storeNs).data, now);
    var models: seq<Value> := [];
    var scanAfter := afterKey;
    var batchSize := Min(Max(limit * 2, 50), 500);
    ghost var rows := Listing(index, afterKey, reverse);
    ghost var n := 0;
    assert rows[..0] == [] && rows[0..] == rows;
    NoMatches(objects, schema);
    SameSelf(store.spaces, now);
    while |models| <= limit
      invariant store.Valid() && SameViews(store.spaces, old(store.spaces), now)
      invariant n <= |rows| && Listing(index, scanAfter, reverse) == rows[n..]
      invariant models == Matches(rows[..n], objects, schema)
      invariant |models| <= limit
      decreases |rows| - n
    {
      SameAt(store.spaces, old(store.spaces), indexNs, now);
      IdsPresent(index, scanAfter, reverse);
      var page := FetchPage(store, indexNs, scanAfter, batchSize, reverse, now, old(store.spaces));
      SameAt(store.spaces, old(store.spaces), storeNs, now);
      ghost var loading := store.spaces;
      var items, more := page.items, page.more;
      ListingPage(index, scanAfter, batchSize, reverse, rows, n);
      if items == [] { break; }
      var m: nat;
      models, m := CollectPage(store, storeNs, items, limit, models, schema, now);
      SameTransitive(store.spaces, loading, old(store.spaces), now);
      MatchesSoFar(rows, n, items, m, objects, schema);
      n := n + m;
      if |models| > limit || !more { break; }
      scanAfter := Some(items[|items| - 1].0);
    }
    ScanDecides(rows, n, objects, schema, limit);
    r := ModelPage(if |models| > limit then models[..limit] else models, |models| > limit);
  }

  /** The scan may stop at the end of the rows or with more than limit matches. */
  lemma ScanDecides(rows: seq<(Key, Value)>, n: nat, objects: View, schema: Schema, limit: nat)
    requires n <= |rows| && (n == |rows| || |Matches(rows[..n], objects, schema)| > limit)
    ensures var found := Matches(rows[..n], objects, schema);
            FirstOf(Matches(rows, objects, schema), limit) ==
              ModelPage(if |found| > limit then found[..limit] else found, |found| > limit)
  {
    hide Matches;
    if n == |rows| { assert rows[..n] == rows; }
    MatchesSoFar(rows, n, [], 0, objects, schema);
    assert rows[..n + 0] == rows[..n];
  }

  /** What one list_page call on the index yields, given where the scan stands. */
  lemma ListingPage(index: View, after: Option<Key>, batch: nat, reverse: bool, rows: seq<(Key, Value)>, n: nat)
    requires batch > 0 && n <= |rows| && Listing(index, after, reverse) == rows[n..]
    ensures var page := PageOf(index, after, batch, reverse);
            && n + |page.items| <= |rows| && page.items == rows[n..n + |page.items|]
            && (page.more <==> n + |page.items| < |rows|)
            && (page.items == [] <==> n == |rows|)
            && (page.items != [] ==>
                  Listing(index, Some(page.items[|page.items| - 1].0), reverse) == rows[n + |page.items|..])
  {
    hide Listing;
    var k := |PageOf(index, after, batch, reverse).items|;
    if k > 0 {
      ListingResumes(index, after, reverse, k);
      assert rows[n..][k..] == rows[n + k..];
    }
  }

  lemma MatchesSoFar(rows: seq<(Key, Value)>, n: nat, items: seq<(Key, Value)>, m: nat, objects: View, schema: Schema)
    requires m <= |items| && n + |items| <= |rows| && items == rows[n..n + |items|]
    ensures Matches(rows[..n + m], objects, schema)
         == Matches(rows[..n], objects, schema) + Matches(items[..m], objects, schema)
    ensures Matches(rows[..n + m], objects, schema) <= Matches(rows, objects, schema)
  {
    assert rows[..n + m] == rows[..n] + items[..m];
    MatchesConcat(rows[..n], items[..m], objects, schema);
    assert rows == rows[..n + m] + rows[n + m..];
    MatchesConcat(rows[..n + m], rows[n + m..], objects, schema);
  }

  lemma NoMatches(objects: View, schema: Schema)
    ensures Matches([], objects, schema) == []
  {
  }

  lemma IdsPresent(index: View, after: Option<Key>, reverse: bool)
    requires HoldsIds(index)
    ensures forall i | 0 <= i < |Listing(index, after, reverse)| :: IdIn(Listing(index, after, reverse)[i].1) != []
  {
    var keys := Directed(BeyondKeys(index.Keys, after, reverse), reverse);
    forall i | 0 <= i < |keys| ensures keys[i] in index && IdIn(index[keys[i]]) != [] { assert keys[i] in keys; }
  }

  // ---- Following the last id of each page -------------------------------------------------------

  /** Every live object behind an index row carries the row's id and the row's key. */
  ghost predicate Indexed(index: View, objects: View, schema: Schema) {
    forall k :: k in index && Lookup(objects, IdIn(index[k])) != Null ==>
      var v := objects[IdIn(index[k])];
      schema.idOf(v) == IdIn(index[k]) && KeyOf(schema, v) == k
  }

  predicate Matching(row: (Key, Value), objects: View, schema: Schema) {
    Lookup(objects, IdIn(row.1)) != Null && schema.accepts(Lookup(objects, IdIn(row.1)))
  }

  /** The row that yields the m-th match. */
  lemma {:induction false} RowOfMatch(rows: seq<(Key, Value)>, m: nat, objects: View, schema: Schema) returns (p: nat)
    requires 0 < m <= |Matches(rows, objects, schema)|
    ensures p < |rows| && Matching(rows[p], objects, schema)
    ensures Matches(rows[..p + 1], objects, schema) == Matches(rows, objects, schema)[..m]
    ensures Matches(rows, objects, schema)[m - 1] == Lookup(objects, IdIn(rows[p].1))
  {
    var n := |rows| - 1;
    if m <= |Matches(rows[..n], objects, schema)| {
      p := RowOfMatch(rows[..n], m, objects, schema);
      assert rows[..n][..p + 1] == rows[..p + 1];
    } else {
      p := n;
      assert rows[..n + 1] == rows;
    }
  }

  lemma KeyOfRow(index: View, objects: View, schema: Schema, after: Option<Key>, reverse: bool, p: nat)
    requires Indexed(index, objects, schema) && p < |Listing(index, after, reverse)|
    requires Matching(Listing(index, after, reverse)[p], objects, schema)
    ensures var row := Listing(index, after, reverse)[p];
            var v := Lookup(objects, IdIn(row.1));
            schema.idOf(v) == IdIn(row.1) && KeyOf(schema, v) == row.0
  {
    hide KeyOf;
    var keys := Directed(BeyondKeys(index.Keys, after, reverse), reverse);
    assert keys[p] in keys;
  }

  /** Resuming after the id of the m-th match continues with the following match. */
  lemma MatchesResume(index: View, objects: View, after: Option<string>, schema: Schema, reverse: bool, m: nat)
    requires Indexed(index, objects, schema) && 0 < m <= |AllMatches(index, objects, after, schema, reverse)|
    ensures var all := AllMatches(index, objects, after, schema, reverse);
            AllMatches(index, objects, Some(schema.idOf(all[m - 1])), schema, reverse) == all[m..]
  {
    hide Listing, KeyOf, Matches, Indexed;
    var all := AllMatches(index, objects, after, schema, reverse);
    var from := CursorKey(CursorFor(objects, after, schema));
    var rows := Listing(index, from, reverse);
    var p := RowOfMatch(rows, m, objects, schema);
    KeyOfRow(index, objects, schema, from, reverse, p);
    ListingResumes(index, from, reverse, p + 1);
    ListingItem(index, from, reverse, p);
    assert rows == rows[..p + 1] + rows[p + 1..];
    MatchesConcat(rows[..p + 1], rows[p + 1..], objects, schema);
  }

  lemma ListingItem(index: View, after: Option<Key>, reverse: bool, p: nat)
    requires p < |Listing(index, after, reverse)|
    ensures Listing(index, after, reverse)[p].0 in index
    ensures Listing(index, after, reverse)[p].1 == index[Listing(index, after, reverse)[p].0]
  {
    var keys := Directed(BeyondKeys(index.Keys, after, reverse), reverse);
    assert keys[p] in keys;
  }

  /** The models of all pages obtained by passing each page's last id as the next cursor. */
  function FollowIds(index: View, objects: View, after: Option<string>, schema: Schema, reverse: bool,
                     limit: nat): seq<Value>
    requires limit > 0 && Indexed(index, objects, schema)
    decreases |AllMatches(index, objects, after, schema, reverse)|
  {
    var page := NaivePage(index, objects, after, schema, reverse, limit);
    if !page.more then page.models
    else
      MatchesResume(index, objects, after, schema, reverse, limit);
      page.models + FollowIds(index, objects, Some(schema.idOf(page.models[limit - 1])), schema, reverse, limit)
  }

  lemma {:induction false} FollowingIdsIsComplete(index: View, objects: View, after: Option<string>, schema: Schema,
                                                  reverse: bool, limit: nat)
    requires limit > 0 && Indexed(index, objects, schema)
    ensures FollowIds(index, objects, after, schema, reverse, limit) ==
              AllMatches(index, objects, after, schema, reverse)
    decreases |AllMatches(index, objects, after, schema, reverse)|
  {
    hide AllMatches, Indexed, CursorFor;
    var all := AllMatches(index, objects, after, schema, reverse);
    MissingHasNone(index, objects, after, schema, reverse);
    if |all| > limit {
      MatchesResume(index, objects, after, schema, reverse, limit);
      FollowingIdsIsComplete(index, objects, Some(schema.idOf(all[limit - 1])), schema, reverse, limit);
      assert all == all[..limit] + all[limit..];
    }
  }

  lemma MissingHasNone(index: View, objects: View, after: Option<string>, schema: Schema, reverse: bool)
    ensures CursorFor(objects, after, schema).Missing? ==> AllMatches(index, objects, after, schema, reverse) == []
  {
  }

  /** Some index row leads to v, and v is live and accepted. */
  ghost predicate Reachable(index: View, objects: View, schema: Schema, v: Value) {
    exists k :: k in index && Matching((k, index[k]), objects, schema) && v == Lookup(objects, IdIn(index[k]))
  }

  /** From the start, exactly the accepted live objects with an index row are visited ... */
  lemma MatchesAreExact(index: View, objects: View, schema: Schema, reverse: bool, v: Value)
    ensures v in AllMatches(index, objects, None, schema, reverse) <==> Reachable(index, objects, schema, v)
  {
    hide Matching, Lookup, Matches;
    var rows := Listing(index, None, reverse);
    var keys := Directed(BeyondKeys(index.Keys, None, reverse), reverse);
    MatchesMember(rows, objects, schema, v);
    if Reachable(index, objects, schema, v) {
      var k :| k in index && Matching((k, index[k]), objects, schema) && v == Lookup(objects, IdIn(index[k]));
      assert k in keys;
      var p :| 0 <= p < |keys| && keys[p] == k;
      assert rows[p] == (k, index[k]);
    }
    if v in Matches(rows, objects, schema) {
      var p :| 0 <= p < |rows| && Matching(rows[p], objects, schema) && v == Lookup(objects, IdIn(rows[p].1));
      ListingItem(index, None, reverse, p);
      assert rows[p] == (rows[p].0, index[rows[p].0]);
    }
  }

  ghost predicate KeyOrdered(models: seq<Value>, schema: Schema, reverse: bool) {
    forall i, j | 0 <= i < j < |models| :: Along(reverse)(KeyOf(schema, models[i]), KeyOf(schema, models[j]))
  }

  /** ... each once, for their keys are strictly ordered in the direction of travel. */
  lemma MatchesAreOrdered(index: View, objects: View, schema: Schema, reverse: bool)
    requires Indexed(index, objects, schema)
    ensures KeyOrdered(AllMatches(index, objects, None, schema, reverse), schema, reverse)
  {
    hide Matching, Lookup, Matches, KeyOf, Indexed;
    var rows := Listing(index, None, reverse);
    forall p | 0 <= p < |rows| && Matching(rows[p], objects, schema)
      ensures KeyOf(schema, Lookup(objects, IdIn(rows[p].1))) == rows[p].0
    {
      KeyOfRow(index, objects, schema, None, reverse, p);
    }
    MatchesOrdered(rows, objects, schema, reverse);
  }

  lemma {:induction false} MatchesMember(rows: seq<(Key, Value)>, objects: View, schema: Schema, v: Value)
    ensures v in Matches(rows, objects, schema)
       <==> exists p :: 0 <= p < |rows| && Matching(rows[p], objects, schema) && v == Lookup(objects, IdIn(rows[p].1))
  {
    if rows != [] {
      var n := |rows| - 1;
      MatchesMember(rows[..n], objects, schema, v);
      assert forall p | 0 <= p < n :: rows[..n][p] == rows[p];
    }
  }

  lemma {:induction false} MatchesOrdered(rows: seq<(Key, Value)>, objects: View, schema: Schema, reverse: bool)
    requires forall p, q | 0 <= p < q < |rows| :: Along(reverse)(rows[p].0, rows[q].0)
    requires forall p | 0 <= p < |rows| && Matching(rows[p], objects, schema) ::
               KeyOf(schema, Lookup(objects, IdIn(rows[p].1))) == rows[p].0
    ensures KeyOrdered(Matches(rows, objects, schema), schema, reverse)
  {
    hide KeyOf, Along;
    if rows != [] {
      var n := |rows| - 1;
      var before := rows[..n];
      assert forall p | 0 <= p < n :: before[p] == rows[p];
      MatchesOrdered(before, objects, schema, reverse);
      var some := Matches(before, objects, schema);
      forall i | 0 <= i < |some| ensures Along(reverse)(KeyOf(schema, some[i]), rows[n].0) {
        assert some[i] in some;
        MatchesMember(before, objects, schema, some[i]);
      }
      if Matching(rows[n], objects, schema) {
        assert Matches(rows, objects, schema) == some + [Lookup(objects, IdIn(rows[n].1))];
      } else {
        assert Matches(rows, objects, schema) == some;
      }
    }
  }
}
