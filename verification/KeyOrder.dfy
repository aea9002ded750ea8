/** Ordered enumeration of finite sets, and the byte order in which LMDB keeps its keys.

    A key is a string; UTF-8 keeps code-point order, so comparing characters is the same as
    comparing the encoded bytes. */
module KeyOrder {

  datatype Option<+T> = None | Some(value: T)

  // ---- Enumerating a finite set along a strict total order --------------------------------

  ghost predicate StrictTotal<T(!new)>(less: (T, T) -> bool) {
    && (forall a :: !less(a, a))
    && (forall a, b :: a == b || less(a, b) || less(b, a))
    && (forall a, b, c :: less(a, b) && less(b, c) ==> less(a, c))
  }

  ghost predicate Ordered<T>(s: seq<T>, less: (T, T) -> bool) {
    forall i, j :: 0 <= i < j < |s| ==> less(s[i], s[j])
  }

  lemma LeastExists<T(!new)>(s: set<T>, less: (T, T) -> bool)
    requires StrictTotal(less) && s != {}
    ensures exists k :: k in s && forall j | j in s :: j == k || less(k, j)
  {
    var x :| x in s;
    if s != {x} {
      assert s == {x} + (s - {x});
      LeastExists(s - {x}, less);
      var k :| k in s - {x} && forall j | j in s - {x} :: j == k || less(k, j);
      var m := if less(x, k) then x else k;
      assert forall j | j in s :: j == m || less(m, j);
    }
  }

  /** The elements of s in ascending order. */
  function Enumerate<T(!new,==)>(s: set<T>, less: (T, T) -> bool): (r: seq<T>)
    requires StrictTotal(less)
    ensures Ordered(r, less)
    ensures forall x :: x in r <==> x in s
    ensures |r| == |s|
  {
    if s == {} then [] else
      LeastExists(s, less);
      var k :| k in s && forall j | j in s :: j == k || less(k, j);
      [k] + Enumerate(s - {k}, less)
  }

  /** An ordered sequence is determined by its set of elements. */
  lemma {:induction false} OrderedUnique<T(!new)>(a: seq<T>, b: seq<T>, less: (T, T) -> bool)
    requires StrictTotal(less) && Ordered(a, less) && Ordered(b, less)
    requires forall x :: x in a <==> x in b
    ensures a == b
  {
    if a == [] {
      assert forall i | 0 <= i < |b| :: b[i] in b;
    } else {
      assert a[0] in b;
      assert b[0] in a;
      assert a[0] == b[0];
      forall x ensures x in a[1..] <==> x in b[1..] {
        if x in a[1..] { assert x in a && x != a[0]; assert x in b; }
        if x in b[1..] { assert x in b && x != b[0]; assert x in a; }
      }
      OrderedUnique(a[1..], b[1..], less);
      assert a == [a[0]] + a[1..] && b == [b[0]] + b[1..];
    }
  }

  // ---- The byte order of keys ---------------------------------------------------------------

  type Key = string

  predicate Less(a: Key, b: Key) {
    b != [] && (a == [] || a[0] < b[0] || (a[0] == b[0] && Less(a[1..], b[1..])))
  }

  lemma {:induction false} LessIrreflexive(a: Key)
    ensures !Less(a, a)
  {
    if a != [] { LessIrreflexive(a[1..]); }
  }

  lemma {:induction false} LessTotal(a: Key, b: Key)
    ensures a == b || Less(a, b) || Less(b, a)
  {
    if a != [] && b != [] && a[0] == b[0] {
      LessTotal(a[1..], b[1..]);
      assert a == [a[0]] + a[1..] && b == [b[0]] + b[1..];
    }
  }

  lemma {:induction false} LessTransitive(a: Key, b: Key, c: Key)
    requires Less(a, b) && Less(b, c)
    ensures Less(a, c)
  {
    if a != [] && a[0] == b[0] && b[0] == c[0] {
      LessTransitive(a[1..], b[1..], c[1..]);
    }
  }

  lemma LessIsStrictTotal()
    ensures StrictTotal(Less)
  {
    forall a ensures !Less(a, a) { LessIrreflexive(a); }
    forall a, b ensures a == b || Less(a, b) || Less(b, a) { LessTotal(a, b); }
    forall a, b, c | Less(a, b) && Less(b, c) ensures Less(a, c) { LessTransitive(a, b, c); }
  }

  predicate Greater(a: Key, b: Key) { Less(b, a) }

  lemma GreaterIsStrictTotal()
    ensures StrictTotal(Greater)
  {
    LessIsStrictTotal();
  }

  /** Keys of s in the direction of travel. */
  function Directed(s: set<Key>, reverse: bool): (r: seq<Key>)
    ensures forall x :: x in r <==> x in s
    ensures |r| == |s|
    ensures Ordered(r, Along(reverse))
  {
    LessIsStrictTotal();
    GreaterIsStrictTotal();
    Enumerate(s, Along(reverse))
  }

  function Along(reverse: bool): (Key, Key) -> bool {
    if reverse then Greater else Less
  }

  lemma AlongIsStrictTotal(reverse: bool)
    ensures StrictTotal(Along(reverse))
  {
    LessIsStrictTotal();
    GreaterIsStrictTotal();
  }

  /** k lies strictly beyond the cursor in the direction of travel. */
  predicate Beyond(k: Key, after: Option<Key>, reverse: bool) {
    after.None? || Along(reverse)(after.value, k)
  }

  lemma DirectedIs(s: set<Key>, r: seq<Key>, reverse: bool)
    requires Ordered(r, Along(reverse))
    requires forall x :: x in r <==> x in s
    ensures Directed(s, reverse) == r
  {
    AlongIsStrictTotal(reverse);
    OrderedUnique(Directed(s, reverse), r, Along(reverse));
  }
}
