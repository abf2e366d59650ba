/** Stable sorting under a strict total order, the shape of `Array.prototype.sort` with a comparator. */
module Ordering {

  ghost predicate StrictTotal<K(!new)>(lt: (K, K) -> bool) {
    && (forall a :: !lt(a, a))
    && (forall a, b, c :: lt(a, b) && lt(b, c) ==> lt(a, c))
    && (forall a, b :: a != b ==> lt(a, b) || lt(b, a))
  }

  /** Comparison of strings by code unit, the default order of `sort()`. */
  predicate CodeUnitLess(a: string, b: string) {
    if b == [] then false
    else if a == [] then true
    else if a[0] != b[0] then a[0] < b[0]
    else CodeUnitLess(a[1..], b[1..])
  }

  lemma CodeUnitTransitive(a: string, b: string, c: string)
    requires CodeUnitLess(a, b) && CodeUnitLess(b, c)
    ensures CodeUnitLess(a, c)
  {
    if a != [] && a[0] == b[0] == c[0] {
      CodeUnitTransitive(a[1..], b[1..], c[1..]);
    }
  }

  lemma CodeUnitConnected(a: string, b: string)
    requires a != b
    ensures CodeUnitLess(a, b) || CodeUnitLess(b, a)
  {
    if a != [] && b != [] && a[0] == b[0] {
      assert a == [a[0]] + a[1..] && b == [b[0]] + b[1..];
      CodeUnitConnected(a[1..], b[1..]);
    }
  }

  lemma CodeUnitIrreflexive(a: string)
    ensures !CodeUnitLess(a, a)
  {
  }

  lemma CodeUnitStrictTotal()
    ensures StrictTotal(CodeUnitLess)
  {
    forall a: string ensures !CodeUnitLess(a, a) { CodeUnitIrreflexive(a); }
    forall a: string, b: string, c: string | CodeUnitLess(a, b) && CodeUnitLess(b, c) ensures CodeUnitLess(a, c) {
      CodeUnitTransitive(a, b, c);
    }
    forall a: string, b: string | a != b ensures CodeUnitLess(a, b) || CodeUnitLess(b, a) {
      CodeUnitConnected(a, b);
    }
  }

  /** A locale comparison. Only that it is a strict total order is used, never which one. */
  type Collation = lt: (string, string) -> bool | StrictTotal(lt)
    ghost witness (CodeUnitStrictTotal(); CodeUnitLess)

  /** Places x after every element whose key is not greater, so that sorting is stable. */
  function Insert<T, K>(x: T, xs: seq<T>, key: T -> K, lt: (K, K) -> bool): (r: seq<T>)
    ensures multiset(r) == multiset(xs) + multiset{x}
    ensures |r| == |xs| + 1
  {
    if xs == [] || lt(key(x), key(xs[0])) then [x] + xs
    else
      assert xs == [xs[0]] + xs[1..];
      [xs[0]] + Insert(x, xs[1..], key, lt)
  }

  function Sort<T, K>(xs: seq<T>, key: T -> K, lt: (K, K) -> bool): (r: seq<T>)
    ensures multiset(r) == multiset(xs)
    ensures |r| == |xs|
  {
    if xs == [] then []
    else
      var n := |xs| - 1;
      assert xs == xs[..n] + [xs[n]];
      Insert(xs[n], Sort(xs[..n], key, lt), key, lt)
  }

  ghost predicate Sorted<T, K>(xs: seq<T>, key: T -> K, lt: (K, K) -> bool) {
    forall i, j | 0 <= i < j < |xs| :: !lt(key(xs[j]), key(xs[i]))
  }

  /** Elements with the same key are the same element. */
  ghost predicate KeyDetermines<T(!new), K>(xs: seq<T>, key: T -> K) {
    forall a, b | a in xs && b in xs && key(a) == key(b) :: a == b
  }

  lemma MultisetMembers<T>(xs: seq<T>, ys: seq<T>, x: T)
    requires multiset(xs) == multiset(ys)
    ensures x in xs <==> x in ys
  {
    assert x in xs <==> x in multiset(xs);
  }

  lemma InsertSorted<T, K(!new)>(x: T, xs: seq<T>, key: T -> K, lt: (K, K) -> bool)
    requires StrictTotal(lt) && Sorted(xs, key, lt)
    ensures Sorted(Insert(x, xs, key, lt), key, lt)
  {
    var r := Insert(x, xs, key, lt);
    if xs != [] && !lt(key(x), key(xs[0])) {
      var rest := xs[1..];
      InsertSorted(x, rest, key, lt);
      var tail := Insert(x, rest, key, lt);
      forall j | 0 <= j < |tail| ensures !lt(key(tail[j]), key(xs[0])) {
        assert tail[j] in multiset(tail);
        assert tail[j] in rest || tail[j] == x;
      }
    }
  }

  lemma SortSorted<T, K(!new)>(xs: seq<T>, key: T -> K, lt: (K, K) -> bool)
    requires StrictTotal(lt)
    ensures Sorted(Sort(xs, key, lt), key, lt)
  {
    if xs != [] {
      var n := |xs| - 1;
      SortSorted(xs[..n], key, lt);
      InsertSorted(xs[n], Sort(xs[..n], key, lt), key, lt);
    }
  }

  function RemoveAt<T>(xs: seq<T>, k: nat): (r: seq<T>)
    requires k < |xs|
    ensures |r| == |xs| - 1
  {
    xs[..k] + xs[k + 1..]
  }

  lemma RemoveAtMultiset<T>(xs: seq<T>, k: nat)
    requires k < |xs|
    ensures multiset(RemoveAt(xs, k)) == multiset(xs) - multiset{xs[k]}
  {
    assert xs == xs[..k] + [xs[k]] + xs[k + 1..];
  }

  lemma SameHead<T(!new), K(!new)>(xs: seq<T>, ys: seq<T>, key: T -> K, lt: (K, K) -> bool)
    requires StrictTotal(lt) && Sorted(xs, key, lt) && Sorted(ys, key, lt) && KeyDetermines(xs, key)
    requires xs != [] && ys != [] && multiset(xs) == multiset(ys)
    ensures xs[0] == ys[0]
  {
    MultisetMembers(xs, ys, xs[0]);
    MultisetMembers(xs, ys, ys[0]);
    var i :| 0 <= i < |ys| && ys[i] == xs[0];
    var j :| 0 <= j < |xs| && xs[j] == ys[0];
    assert !lt(key(ys[i]), key(ys[0])) && !lt(key(xs[j]), key(xs[0]));
    assert key(xs[0]) == key(ys[0]);
  }

  lemma TailMultiset<T>(xs: seq<T>)
    requires xs != []
    ensures multiset(xs[1..]) == multiset(xs) - multiset{xs[0]}
  {
    assert xs == [xs[0]] + xs[1..];
  }

  lemma SameTails<T>(xs: seq<T>, ys: seq<T>)
    requires multiset(xs) == multiset(ys) && xs != [] && ys != [] && xs[0] == ys[0]
    ensures |xs| == |ys| && multiset(xs[1..]) == multiset(ys[1..])
  {
    TailMultiset(xs);
    TailMultiset(ys);
    assert |xs| == |multiset(xs)|;
  }

  lemma SortedTail<T, K(!new)>(xs: seq<T>, key: T -> K, lt: (K, K) -> bool)
    requires Sorted(xs, key, lt) && xs != []
    ensures Sorted(xs[1..], key, lt)
  {
  }

  lemma DeterminesTail<T(!new), K>(xs: seq<T>, key: T -> K)
    requires KeyDetermines(xs, key) && xs != []
    ensures KeyDetermines(xs[1..], key)
  {
  }

  /** A sorted arrangement of given elements is unique when keys tell elements apart. */
  lemma {:induction false} SortedUnique<T(!new), K(!new)>(xs: seq<T>, ys: seq<T>, key: T -> K, lt: (K, K) -> bool)
    requires StrictTotal(lt) && Sorted(xs, key, lt) && Sorted(ys, key, lt)
    requires multiset(xs) == multiset(ys) && KeyDetermines(xs, key)
    ensures xs == ys
  {
    hide StrictTotal, Sorted, KeyDetermines;
    if xs == [] || ys == [] {
      assert |multiset(xs)| == |multiset(ys)|;
    } else {
      SameHead(xs, ys, key, lt);
      SameTails(xs, ys);
      SortedTail(xs, key, lt);
      SortedTail(ys, key, lt);
      DeterminesTail(xs, key);
      SortedUnique(xs[1..], ys[1..], key, lt);
      assert xs == [xs[0]] + xs[1..] && ys == [ys[0]] + ys[1..];
    }
  }

  /** Sorting forgets the order of its input. */
  lemma SortOrderFree<T(!new), K(!new)>(xs: seq<T>, ys: seq<T>, key: T -> K, lt: (K, K) -> bool)
    requires StrictTotal(lt) && multiset(xs) == multiset(ys) && KeyDetermines(xs, key)
    ensures Sort(xs, key, lt) == Sort(ys, key, lt)
  {
    SortSorted(xs, key, lt);
    SortSorted(ys, key, lt);
    var s := Sort(xs, key, lt);
    forall a, b | a in s && b in s && key(a) == key(b) ensures a == b {
      MultisetMembers(xs, s, a);
      MultisetMembers(xs, s, b);
    }
    SortedUnique(s, Sort(ys, key, lt), key, lt);
  }

  lemma SortOfSorted<T(!new), K(!new)>(xs: seq<T>, key: T -> K, lt: (K, K) -> bool)
    requires StrictTotal(lt) && Sorted(xs, key, lt) && KeyDetermines(xs, key)
    ensures Sort(xs, key, lt) == xs
  {
    SortSorted(xs, key, lt);
    SortedUnique(xs, Sort(xs, key, lt), key, lt);
  }

  function Map<A, B>(f: A -> B, xs: seq<A>): (r: seq<B>)
    ensures |r| == |xs| && forall i | 0 <= i < |xs| :: r[i] == f(xs[i])
  {
    seq(|xs|, i requires 0 <= i < |xs| => f(xs[i]))
  }

  lemma MapRemoveAt<A, B>(f: A -> B, xs: seq<A>, k: nat)
    requires k < |xs|
    ensures multiset(Map(f, xs)) == multiset(Map(f, RemoveAt(xs, k))) + multiset{f(xs[k])}
  {
    var m := Map(f, xs);
    assert Map(f, RemoveAt(xs, k)) == RemoveAt(m, k);
    RemoveAtMultiset(m, k);
    assert m[k] in multiset(m);
  }

  /** The image of a multiset does not depend on how it is listed. */
  lemma {:induction false} MapOrderFree<A, B>(f: A -> B, xs: seq<A>, ys: seq<A>)
    requires multiset(xs) == multiset(ys)
    ensures multiset(Map(f, xs)) == multiset(Map(f, ys))
  {
    assert |xs| == |multiset(xs)| == |multiset(ys)| == |ys|;
    if xs != [] {
      MultisetMembers(xs, ys, xs[0]);
      var k :| 0 <= k < |ys| && ys[k] == xs[0];
      RemoveAtMultiset(xs, 0);
      RemoveAtMultiset(ys, k);
      MapOrderFree(f, RemoveAt(xs, 0), RemoveAt(ys, k));
      MapRemoveAt(f, xs, 0);
      MapRemoveAt(f, ys, k);
    }
  }

  lemma StillThere<T>(ys: seq<T>, k: nat, z: T)
    requires k < |ys| && z in ys && z != ys[k]
    ensures z in RemoveAt(ys, k)
  {
    var j :| 0 <= j < |ys| && ys[j] == z;
    assert RemoveAt(ys, k)[if j < k then j else j - 1] == z;
  }

  /** With distinct keys, equal length and inclusion already make a permutation. */
  lemma {:induction false} DistinctKeysSameMultiset<T(!new), K(!new)>(xs: seq<T>, ys: seq<T>, key: T -> K)
    requires forall i, j | 0 <= i < j < |xs| :: key(xs[i]) != key(xs[j])
    requires |xs| == |ys| && forall i | 0 <= i < |xs| :: xs[i] in ys
    ensures multiset(xs) == multiset(ys)
  {
    if xs != [] {
      assert xs[0] in ys;
      var k :| 0 <= k < |ys| && ys[k] == xs[0];
      var tail, rest := xs[1..], RemoveAt(ys, k);
      forall i | 0 <= i < |tail| ensures tail[i] in rest {
        assert xs[i + 1] in ys && key(xs[0]) != key(xs[i + 1]);
        StillThere(ys, k, xs[i + 1]);
      }
      forall i, j | 0 <= i < j < |tail| ensures key(tail[i]) != key(tail[j]) {
        assert key(xs[i + 1]) != key(xs[j + 1]);
      }
      DistinctKeysSameMultiset(tail, rest, key);
      RemoveAtMultiset(ys, k);
      assert xs == [xs[0]] + tail;
      assert ys[k] in multiset(ys);
    }
  }
}
