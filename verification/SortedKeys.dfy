/** Sorting the keys of a map: whatever order they are met in, one sequence comes out. */
module SortedKeys {
  import opened Basics
  import opened Base64

  /** A strict total order. */
  ghost predicate StrictOrder<T(!new)>(less: (T, T) -> bool) {
    && (forall a :: !less(a, a))
    && (forall a, b, c :: less(a, b) && less(b, c) ==> less(a, c))
    && (forall a, b :: a != b ==> less(a, b) || less(b, a))
  }

  predicate Ascending<T>(less: (T, T) -> bool, ks: seq<T>) {
    forall i, j :: 0 <= i < j < |ks| ==> less(ks[i], ks[j])
  }

  function Insert<T>(less: (T, T) -> bool, ks: seq<T>, k: T): seq<T> {
    if ks == [] || less(ks[|ks| - 1], k) then ks + [k]
    else Insert(less, ks[..|ks| - 1], k) + [ks[|ks| - 1]]
  }

  function Sort<T>(less: (T, T) -> bool, ks: seq<T>): seq<T> {
    if ks == [] then [] else Insert(less, Sort(less, ks[..|ks| - 1]), ks[|ks| - 1])
  }

  function Elements<T>(ks: seq<T>): set<T> {
    set k | k in ks
  }

  lemma {:induction false} InsertSpec<T(!new)>(less: (T, T) -> bool, ks: seq<T>, k: T)
    requires StrictOrder(less) && Ascending(less, ks) && k !in ks
    ensures Ascending(less, Insert(less, ks, k))
    ensures Elements(Insert(less, ks, k)) == Elements(ks) + {k}
  {
    if ks == [] {
    } else if less(ks[|ks| - 1], k) {
      forall i | 0 <= i < |ks| ensures less(ks[i], k) {
        assert i < |ks| - 1 ==> less(ks[i], ks[|ks| - 1]);
      }
    } else {
      var n := |ks| - 1;
      var rest := Insert(less, ks[..n], k);
      InsertSpec(less, ks[..n], k);
      assert less(k, ks[n]);
      forall i | 0 <= i < |rest| ensures less(rest[i], ks[n]) {
        assert rest[i] in Elements(rest);
        assert rest[i] == k || rest[i] in ks[..n];
      }
      assert ks == ks[..n] + [ks[n]];
    }
  }

  /** Sorting distinct keys gives an ascending sequence of the same keys. */
  lemma {:induction false} SortSpec<T(!new)>(less: (T, T) -> bool, ks: seq<T>)
    requires StrictOrder(less)
    requires forall i, j :: 0 <= i < j < |ks| ==> ks[i] != ks[j]
    ensures Ascending(less, Sort(less, ks)) && Elements(Sort(less, ks)) == Elements(ks)
  {
    if ks != [] {
      var n := |ks| - 1;
      SortSpec(less, ks[..n]);
      assert ks == ks[..n] + [ks[n]];
      assert ks[n] !in Elements(ks[..n]);
      assert ks[n] !in Sort(less, ks[..n]);
      InsertSpec(less, Sort(less, ks[..n]), ks[n]);
    }
  }

  /** There is only one ascending sequence of given elements. */
  lemma {:induction false} AscendingUnique<T(!new)>(less: (T, T) -> bool, a: seq<T>, b: seq<T>)
    requires StrictOrder(less) && Ascending(less, a) && Ascending(less, b) && Elements(a) == Elements(b)
    ensures a == b
  {
    AscendingSize(less, a);
    AscendingSize(less, b);
    if a != [] {
      var m, n := |a| - 1, |b| - 1;
      SameLast(less, a, b);
      LastIsNew(less, a);
      LastIsNew(less, b);
      AscendingUnique(less, a[..m], b[..n]);
      assert a == a[..m] + [a[m]] && b == b[..n] + [b[n]];
    }
  }

  lemma LastIsGreatest<T(!new)>(less: (T, T) -> bool, a: seq<T>, x: T)
    requires Ascending(less, a) && x in a
    ensures x == a[|a| - 1] || less(x, a[|a| - 1])
  {
  }

  lemma Asymmetric<T(!new)>(less: (T, T) -> bool, x: T, y: T)
    requires StrictOrder(less)
    ensures !less(x, y) || !less(y, x)
  {
    assert !less(x, x);
  }

  lemma SameLast<T(!new)>(less: (T, T) -> bool, a: seq<T>, b: seq<T>)
    requires StrictOrder(less) && Ascending(less, a) && Ascending(less, b) && Elements(a) == Elements(b)
    requires a != [] && b != []
    ensures a[|a| - 1] == b[|b| - 1]
  {
    var x, y := a[|a| - 1], b[|b| - 1];
    assert x in Elements(b) && y in Elements(a);
    LastIsGreatest(less, b, x);
    LastIsGreatest(less, a, y);
    Asymmetric(less, x, y);
  }

  lemma LastIsNew<T(!new)>(less: (T, T) -> bool, a: seq<T>)
    requires StrictOrder(less) && Ascending(less, a) && a != []
    ensures Elements(a[..|a| - 1]) == Elements(a) - {a[|a| - 1]}
  {
    var m := |a| - 1;
    assert a == a[..m] + [a[m]];
    forall i | 0 <= i < m ensures a[i] != a[m] {
      assert less(a[i], a[m]);
    }
  }

  /** The ascending sequence of a set of keys. */
  ghost function Canonical<T(!new)>(less: (T, T) -> bool, ks: set<T>): (r: seq<T>)
    requires StrictOrder(less)
    ensures Ascending(less, r) && Elements(r) == ks
  {
    if ks == {} then []
    else
      var k :| k in ks;
      InsertSpec(less, Canonical(less, ks - {k}), k);
      Insert(less, Canonical(less, ks - {k}), k)
  }

  // ----- the two key orders

  /** Byte-wise lexicographic order, as of Go strings. */
  predicate LessBytes(a: Bytes, b: Bytes) {
    b != [] && (a == [] || a[0] < b[0] || (a[0] == b[0] && LessBytes(a[1..], b[1..])))
  }

  predicate LessIndex(a: U64, b: U64) {
    a < b
  }

  lemma {:induction false} LessBytesTransitive(a: Bytes, b: Bytes, c: Bytes)
    requires LessBytes(a, b) && LessBytes(b, c)
    ensures LessBytes(a, c)
  {
    if a != [] && a[0] == b[0] == c[0] {
      LessBytesTransitive(a[1..], b[1..], c[1..]);
    }
  }

  lemma {:induction false} LessBytesTotal(a: Bytes, b: Bytes)
    ensures !LessBytes(a, a) && (a != b ==> LessBytes(a, b) || LessBytes(b, a))
  {
    if a != [] {
      if b != [] && a[0] == b[0] {
        LessBytesTotal(a[1..], b[1..]);
        assert a == [a[0]] + a[1..] && b == [b[0]] + b[1..];
      } else {
        LessBytesTotal(a[1..], a[1..]);
      }
    }
  }

  lemma KeyOrders()
    ensures StrictOrder(LessBytes) && StrictOrder(LessIndex)
  {
    forall a, b ensures !LessBytes(a, a) && (a != b ==> LessBytes(a, b) || LessBytes(b, a)) {
      LessBytesTotal(a, b);
    }
    forall a, b, c | LessBytes(a, b) && LessBytes(b, c) ensures LessBytes(a, c) {
      LessBytesTransitive(a, b, c);
    }
  }

  // ----- what the two orders give, in a form without the order axioms

  predicate AscendingBytes(ks: seq<Bytes>) {
    Ascending(LessBytes, ks)
  }

  predicate AscendingIndices(ks: seq<U64>) {
    Ascending(LessIndex, ks)
  }

  ghost function CanonicalBytes(ks: set<Bytes>): (r: seq<Bytes>)
    ensures AscendingBytes(r) && Elements(r) == ks && |r| == |ks|
  {
    KeyOrders();
    AscendingSize(LessBytes, Canonical(LessBytes, ks));
    Canonical(LessBytes, ks)
  }

  ghost function CanonicalIndices(ks: set<U64>): (r: seq<U64>)
    ensures AscendingIndices(r) && Elements(r) == ks
  {
    KeyOrders();
    Canonical(LessIndex, ks)
  }

  lemma BytesUnique(a: seq<Bytes>, b: seq<Bytes>)
    requires AscendingBytes(a) && AscendingBytes(b) && Elements(a) == Elements(b)
    ensures a == b
  {
    KeyOrders();
    AscendingUnique(LessBytes, a, b);
  }

  lemma IndicesUnique(a: seq<U64>, b: seq<U64>)
    requires AscendingIndices(a) && AscendingIndices(b) && Elements(a) == Elements(b)
    ensures a == b
  {
    KeyOrders();
    AscendingUnique(LessIndex, a, b);
  }

  lemma {:induction false} AscendingSize<T(!new)>(less: (T, T) -> bool, ks: seq<T>)
    requires StrictOrder(less) && Ascending(less, ks)
    ensures |Elements(ks)| == |ks|
  {
    if ks != [] {
      AscendingSize(less, ks[..|ks| - 1]);
      LastIsNew(less, ks);
    }
  }

  // ----- the loops of the source

  /** The keys of a map in the order in which some iteration meets them. */
  method KeysInSomeOrder<K, V>(d: map<K, V>) returns (ks: seq<K>)
    ensures Elements(ks) == d.Keys
    ensures forall i, j :: 0 <= i < j < |ks| ==> ks[i] != ks[j]
  {
    ks := [];
    var left := d.Keys;
    while left != {}
      invariant left <= d.Keys && forall k :: k in ks <==> k in d.Keys && k !in left
      invariant forall i, j :: 0 <= i < j < |ks| ==> ks[i] != ks[j]
      decreases left
    {
      var k :| k in left;
      assert k !in ks;
      ks := ks + [k];
      left := left - {k};
    }
  }

  /** The keys of a map sorted as byte strings: the iteration order leaves no trace. */
  method SortedByteKeys<V>(d: map<Bytes, V>) returns (ks: seq<Bytes>)
    ensures ks == CanonicalBytes(d.Keys)
  {
    var found := KeysInSomeOrder(d);
    ks := Sort(LessBytes, found);
    KeyOrders();
    SortSpec(LessBytes, found);
    BytesUnique(ks, CanonicalBytes(d.Keys));
  }

  method SortedIndexKeys<V>(d: map<U64, V>) returns (ks: seq<U64>)
    ensures ks == CanonicalIndices(d.Keys)
  {
    var found := KeysInSomeOrder(d);
    ks := Sort(LessIndex, found);
    KeyOrders();
    SortSpec(LessIndex, found);
    IndicesUnique(ks, CanonicalIndices(d.Keys));
  }
}
