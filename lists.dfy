/**
 * The array idioms the pages use on their record lists, stated once for any
 * record type: `filter`, `map` that rewrites the records whose key matches,
 * `Math.max(...ids, 0) + 1` as a fresh id, and the `reduce` sums.
 */
module Lists {

  import opened Js

  /** `xs.filter(p)` */
  function Filter<T>(xs: seq<T>, p: T -> bool): (r: seq<T>)
    ensures |r| <= |xs|
    ensures forall i :: 0 <= i < |r| ==> p(r[i])
  {
    if xs == [] then [] else (if p(xs[0]) then [xs[0]] else []) + Filter(xs[1..], p)
  }

  /** The filter keeps records of `xs` only, and every record of `xs` that passes. */
  lemma {:induction false} FilterMembers<T>(xs: seq<T>, p: T -> bool)
    ensures forall i :: 0 <= i < |Filter(xs, p)| ==> Filter(xs, p)[i] in xs
    ensures forall i :: 0 <= i < |xs| && p(xs[i]) ==> xs[i] in Filter(xs, p)
  {
    if xs != [] {
      FilterMembers(xs[1..], p);
      var rest := Filter(xs[1..], p);
      assert forall i :: 1 <= i < |xs| ==> xs[i] == xs[1..][i - 1];
      forall i | 0 <= i < |xs| && p(xs[i]) ensures xs[i] in Filter(xs, p) {
        if i > 0 {
          assert xs[1..][i - 1] in rest;
        }
      }
    }
  }

  /** A record of `xs` is in the filter exactly when it passes. */
  lemma FilterKeepsIff<T>(xs: seq<T>, p: T -> bool)
    ensures forall i :: 0 <= i < |xs| ==> (xs[i] in Filter(xs, p) <==> p(xs[i]))
  {
    FilterMembers(xs, p);
    forall i | 0 <= i < |xs| && xs[i] in Filter(xs, p) ensures p(xs[i]) {
      var r := Filter(xs, p);
      var k :| 0 <= k < |r| && r[k] == xs[i];
    }
  }

  /** Filtering distributes over concatenation: the kept records stay in order. */
  lemma {:induction false} FilterAppend<T>(a: seq<T>, b: seq<T>, p: T -> bool)
    ensures Filter(a + b, p) == Filter(a, p) + Filter(b, p)
  {
    if a != [] {
      assert (a + b)[0] == a[0];
      assert (a + b)[1..] == a[1..] + b;
      FilterAppend(a[1..], b, p);
      assert Filter(a + b, p) == (if p(a[0]) then [a[0]] else []) + Filter(a[1..] + b, p);
    } else {
      assert a + b == b;
    }
  }

  /** A filter that every record passes keeps the list as it is. */
  lemma {:induction false} FilterAll<T>(xs: seq<T>, p: T -> bool)
    requires forall i :: 0 <= i < |xs| ==> p(xs[i])
    ensures Filter(xs, p) == xs
  {
    if xs != [] {
      FilterAll(xs[1..], p);
    }
  }

  /** A filter that no record passes yields the empty list. */
  lemma {:induction false} FilterNone<T>(xs: seq<T>, p: T -> bool)
    requires forall i :: 0 <= i < |xs| ==> !p(xs[i])
    ensures Filter(xs, p) == []
  {
    if xs != [] {
      FilterNone(xs[1..], p);
    }
  }

  /** Counting by filter: each record passes exactly one of `p` and `!p`. */
  lemma {:induction false} FilterSplit<T>(xs: seq<T>, p: T -> bool)
    ensures |Filter(xs, p)| + |Filter(xs, x => !p(x))| == |xs|
  {
    if xs != [] {
      FilterSplit(xs[1..], p);
    }
  }

  /**
   * `xs.map(x => key(x) === k ? f(x) : x)`: the records whose key is `k` are
   * rewritten by `f`, every other record is kept at its position.
   */
  function MapWhere<T, K(==)>(xs: seq<T>, k: K, key: T -> K, f: T -> T): (r: seq<T>)
    ensures |r| == |xs|
    ensures forall i :: 0 <= i < |xs| && key(xs[i]) != k ==> r[i] == xs[i]
    ensures forall i :: 0 <= i < |xs| && key(xs[i]) == k ==> r[i] == f(xs[i])
  {
    seq(|xs|, i requires 0 <= i < |xs| => if key(xs[i]) == k then f(xs[i]) else xs[i])
  }

  /** Rewriting the records of a key that no record has changes nothing. */
  lemma MapWhereAbsent<T, K>(xs: seq<T>, k: K, key: T -> K, f: T -> T)
    requires forall i :: 0 <= i < |xs| ==> key(xs[i]) != k
    ensures MapWhere(xs, k, key, f) == xs
  {
  }

  /** A rewrite that keeps the key and is idempotent is idempotent on the list. */
  lemma MapWhereIdempotent<T, K>(xs: seq<T>, k: K, key: T -> K, f: T -> T)
    requires forall x :: key(f(x)) == key(x) && f(f(x)) == f(x)
    ensures MapWhere(MapWhere(xs, k, key, f), k, key, f) == MapWhere(xs, k, key, f)
  {
  }

  /** A rewrite that keeps the key keeps every record's key. */
  lemma MapWhereKeys<T, K>(xs: seq<T>, k: K, key: T -> K, f: T -> T)
    requires forall x :: key(f(x)) == key(x)
    ensures forall i :: 0 <= i < |xs| ==> key(MapWhere(xs, k, key, f)[i]) == key(xs[i])
  {
  }

  /** `xs.findIndex(x => key(x) === k)`: the first position with key `k`, or -1. */
  function FindIndex<T, K(==)>(xs: seq<T>, k: K, key: T -> K): (i: int)
    ensures -1 <= i < |xs|
    ensures i >= 0 ==> key(xs[i]) == k
    ensures forall j :: 0 <= j < (if i < 0 then |xs| else i) ==> key(xs[j]) != k
  {
    if xs == [] then -1
    else if key(xs[0]) == k then 0
    else
      var i := FindIndex(xs[1..], k, key);
      assert forall j :: 1 <= j < |xs| ==> xs[j] == xs[1..][j - 1];
      if i < 0 then -1 else i + 1
  }

  /** `xs.find(x => key(x) === k)` */
  function Find<T, K(==)>(xs: seq<T>, k: K, key: T -> K): (r: Option<T>)
    ensures r.None? <==> forall j :: 0 <= j < |xs| ==> key(xs[j]) != k
    ensures r.Some? ==> key(r.value) == k && r.value in xs
    ensures r.Some? ==> exists i :: 0 <= i < |xs| && r.value == xs[i] && forall j :: 0 <= j < i ==> key(xs[j]) != k
  {
    var i := FindIndex(xs, k, key);
    if i < 0 then None else Some(xs[i])
  }

  /** With unique keys, the record found is the one at the given position. */
  lemma FindUnique<T, K>(xs: seq<T>, i: int, key: T -> K)
    requires UniqueKeys(xs, key) && 0 <= i < |xs|
    ensures FindIndex(xs, key(xs[i]), key) == i
    ensures Find(xs, key(xs[i]), key) == Some(xs[i])
  {
  }

  /** With unique keys, rewriting by key rewrites one position. */
  lemma MapWhereUniqueAt<T, K>(xs: seq<T>, i: int, key: T -> K, f: T -> T)
    requires UniqueKeys(xs, key) && 0 <= i < |xs|
    ensures MapWhere(xs, key(xs[i]), key, f) == xs[i := f(xs[i])]
  {
  }

  /** A filter that rejects exactly one position removes that position. */
  lemma FilterDropsOne<T>(xs: seq<T>, i: int, p: T -> bool)
    requires 0 <= i < |xs|
    requires forall j :: 0 <= j < |xs| ==> (p(xs[j]) <==> j != i)
    ensures Filter(xs, p) == xs[..i] + xs[i + 1..]
  {
    var a, b := xs[..i], xs[i + 1..];
    forall j | 0 <= j < |a| ensures p(a[j]) {
      assert a[j] == xs[j];
    }
    forall j | 0 <= j < |b| ensures p(b[j]) {
      assert b[j] == xs[i + 1 + j];
    }
    FilterDropsMiddle(a, xs[i], b, p);
    SplitAt(xs, i);
  }

  /** A list is its prefix, the element at `i` and its suffix. */
  lemma SplitAt<T>(xs: seq<T>, i: int)
    requires 0 <= i < |xs|
    ensures xs[..i] + [xs[i]] + xs[i + 1..] == xs
  {
  }

  /** Filtering `a + [x] + b` where `x` alone fails gives `a + b`. */
  lemma FilterDropsMiddle<T>(a: seq<T>, x: T, b: seq<T>, p: T -> bool)
    requires forall j :: 0 <= j < |a| ==> p(a[j])
    requires !p(x)
    requires forall j :: 0 <= j < |b| ==> p(b[j])
    ensures Filter(a + [x] + b, p) == a + b
  {
    FilterAll(a, p);
    FilterOneRejected(x, p);
    FilterAppend(a, [x], p);
    assert Filter(a + [x], p) == a;
    FilterAll(b, p);
    FilterAppend(a + [x], b, p);
  }

  lemma FilterOneRejected<T>(x: T, p: T -> bool)
    requires !p(x)
    ensures Filter([x], p) == []
  {
    assert [x][1..] == [];
  }

  /** No two records share a key. */
  predicate UniqueKeys<T, K(==)>(xs: seq<T>, key: T -> K) {
    forall i, j :: 0 <= i < j < |xs| ==> key(xs[i]) != key(xs[j])
  }

  /** `Math.max(...xs.map(id), 0)` */
  function MaxId<T>(xs: seq<T>, id: T -> int): (m: int)
    ensures m >= 0
    ensures forall i :: 0 <= i < |xs| ==> id(xs[i]) <= m
    ensures m == 0 || exists i :: 0 <= i < |xs| && id(xs[i]) == m
  {
    if xs == [] then 0
    else
      var rest := MaxId(xs[1..], id);
      assert forall i :: 1 <= i < |xs| ==> xs[i] == xs[1..][i - 1];
      if id(xs[0]) > rest then id(xs[0]) else rest
  }

  /** `Math.max(...xs.map(id), 0) + 1`: the id a page gives a new record. */
  function NextId<T>(xs: seq<T>, id: T -> int): (n: int)
    ensures n >= 1
    ensures forall i :: 0 <= i < |xs| ==> id(xs[i]) < n
  {
    MaxId(xs, id) + 1
  }

  /** Appending a record under the next id keeps the ids unique. */
  lemma AppendNextIdUnique<T>(xs: seq<T>, x: T, id: T -> int)
    requires UniqueKeys(xs, id)
    requires id(x) == NextId(xs, id)
    ensures UniqueKeys(xs + [x], id)
  {
  }

  /** Removing records keeps the ids of the rest unique. */
  lemma {:induction false} FilterUnique<T, K>(xs: seq<T>, p: T -> bool, key: T -> K)
    requires UniqueKeys(xs, key)
    ensures UniqueKeys(Filter(xs, p), key)
  {
    if xs != [] {
      FilterUnique(xs[1..], p, key);
      FilterMembers(xs[1..], p);
      var rest := Filter(xs[1..], p);
      forall i | 0 <= i < |rest| ensures key(rest[i]) != key(xs[0]) {
        assert rest[i] in xs[1..];
      }
    }
  }

  /** Two filters that agree on every record keep the same records. */
  lemma {:induction false} FilterSame<T>(xs: seq<T>, p: T -> bool, q: T -> bool)
    requires forall i :: 0 <= i < |xs| ==> p(xs[i]) == q(xs[i])
    ensures Filter(xs, p) == Filter(xs, q)
  {
    if xs != [] {
      FilterSame(xs[1..], p, q);
    }
  }

  /** `|xs.filter(p)| > 0` exactly when some record passes `p`. */
  lemma FilterNonEmpty<T>(xs: seq<T>, p: T -> bool)
    ensures |Filter(xs, p)| > 0 <==> exists i :: 0 <= i < |xs| && p(xs[i])
  {
    if exists i :: 0 <= i < |xs| && p(xs[i]) {
      var i :| 0 <= i < |xs| && p(xs[i]);
      FilterMembers(xs, p);
      assert xs[i] in Filter(xs, p);
    } else {
      FilterNone(xs, p);
    }
  }

  function Const<T>(x: T): T -> T {
    (y: T) => x
  }

  /** `xs.map((y) => key(y) === key(x) ? x : y)`: the edit handlers of the list pages. */
  function ReplaceByKey<T, K(==)>(xs: seq<T>, x: T, key: T -> K): (r: seq<T>)
    ensures |r| == |xs|
    ensures forall i :: 0 <= i < |xs| ==> r[i] == if key(xs[i]) == key(x) then x else xs[i]
  {
    MapWhere(xs, key(x), key, Const(x))
  }

  /** Replacing by key keeps every key where it was, so unique keys stay unique. */
  lemma ReplaceByKeyUnique<T, K>(xs: seq<T>, x: T, key: T -> K)
    requires UniqueKeys(xs, key)
    ensures forall i :: 0 <= i < |xs| ==> key(ReplaceByKey(xs, x, key)[i]) == key(xs[i])
    ensures UniqueKeys(ReplaceByKey(xs, x, key), key)
  {
  }

  /** With unique keys, replacing the record at `i` is a point update. */
  lemma ReplaceByKeyAt<T, K>(xs: seq<T>, i: int, x: T, key: T -> K)
    requires UniqueKeys(xs, key) && 0 <= i < |xs| && key(xs[i]) == key(x)
    ensures ReplaceByKey(xs, x, key) == xs[i := x]
  {
    MapWhereUniqueAt(xs, i, key, Const(x));
  }

  function KeyIsNot<T, K(==)>(key: T -> K, k: K): T -> bool {
    (y: T) => key(y) != k
  }

  /** `xs.filter((y) => key(y) !== k)`: the delete handlers of the list pages. */
  function RemoveKey<T, K(==)>(xs: seq<T>, k: K, key: T -> K): (r: seq<T>)
    ensures |r| <= |xs|
    ensures forall i :: 0 <= i < |r| ==> key(r[i]) != k && r[i] in xs
    ensures forall i :: 0 <= i < |xs| && key(xs[i]) != k ==> xs[i] in r
  {
    FilterMembers(xs, KeyIsNot(key, k));
    Filter(xs, KeyIsNot(key, k))
  }

  /** With unique keys, deleting a present key removes exactly that record and keeps the others in order. */
  lemma RemoveKeyAt<T, K>(xs: seq<T>, i: int, key: T -> K)
    requires UniqueKeys(xs, key) && 0 <= i < |xs|
    ensures RemoveKey(xs, key(xs[i]), key) == xs[..i] + xs[i + 1..]
  {
    FilterDropsOne(xs, i, KeyIsNot(key, key(xs[i])));
  }

  /** Deleting a key no record has changes nothing. */
  lemma RemoveKeyAbsent<T, K>(xs: seq<T>, k: K, key: T -> K)
    requires forall i :: 0 <= i < |xs| ==> key(xs[i]) != k
    ensures RemoveKey(xs, k, key) == xs
  {
    FilterAll(xs, KeyIsNot(key, k));
  }

  /** `xs.reduce((acc, x) => acc + f(x), 0)` over reals, folding from the left. */
  function Sum<T>(xs: seq<T>, f: T -> real): real {
    if xs == [] then 0.0 else Sum(xs[..|xs| - 1], f) + f(xs[|xs| - 1])
  }

  /** The same fold over integers. */
  function SumInt<T>(xs: seq<T>, f: T -> int): int {
    if xs == [] then 0 else SumInt(xs[..|xs| - 1], f) + f(xs[|xs| - 1])
  }

  lemma SumSnoc<T>(xs: seq<T>, x: T, f: T -> real)
    ensures Sum(xs + [x], f) == Sum(xs, f) + f(x)
  {
    assert (xs + [x])[..|xs|] == xs;
  }

  /** The left fold adds up the two halves of a concatenation. */
  lemma {:induction false} SumAppend<T>(a: seq<T>, b: seq<T>, f: T -> real)
    ensures Sum(a + b, f) == Sum(a, f) + Sum(b, f)
  {
    if b != [] {
      var b' := b[..|b| - 1];
      assert a + b == (a + b') + [b[|b| - 1]];
      SumSnoc(a + b', b[|b| - 1], f);
      SumAppend(a, b', f);
    } else {
      assert a + b == a;
    }
  }

  /** Splitting a sum at its first element. */
  lemma SumCons<T>(x: T, xs: seq<T>, f: T -> real)
    ensures Sum([x] + xs, f) == f(x) + Sum(xs, f)
  {
    SumAppend([x], xs, f);
    assert Sum([x], f) == Sum([], f) + f(x);
  }

  lemma {:induction false} SumIntAppend<T>(a: seq<T>, b: seq<T>, f: T -> int)
    ensures SumInt(a + b, f) == SumInt(a, f) + SumInt(b, f)
  {
    if b != [] {
      var b' := b[..|b| - 1];
      assert a + b == (a + b') + [b[|b| - 1]];
      assert (a + b)[..|a + b| - 1] == a + b';
      SumIntAppend(a, b', f);
    } else {
      assert a + b == a;
    }
  }

  /** Replacing one element changes the sum by the difference. */
  lemma SumIntUpdate<T>(xs: seq<T>, i: int, x: T, f: T -> int)
    requires 0 <= i < |xs|
    ensures SumInt(xs[i := x], f) == SumInt(xs, f) - f(xs[i]) + f(x)
  {
    SplitAt(xs, i);
    SplitAt(xs[i := x], i);
    assert xs[i := x][..i] == xs[..i] && xs[i := x][i + 1..] == xs[i + 1..];
    SumIntAppend(xs[..i] + [xs[i]], xs[i + 1..], f);
    SumIntAppend(xs[..i], [xs[i]], f);
    SumIntAppend(xs[..i] + [x], xs[i + 1..], f);
    SumIntAppend(xs[..i], [x], f);
  }

  /** Deleting one element lowers the sum by that element. */
  lemma SumIntRemoveAt<T>(xs: seq<T>, i: int, f: T -> int)
    requires 0 <= i < |xs|
    ensures SumInt(xs[..i] + xs[i + 1..], f) == SumInt(xs, f) - f(xs[i])
  {
    SplitAt(xs, i);
    SumIntAppend(xs[..i] + [xs[i]], xs[i + 1..], f);
    SumIntAppend(xs[..i], [xs[i]], f);
    SumIntAppend(xs[..i], xs[i + 1..], f);
  }

  /** A sum over a list with no element where `f` is non-zero is zero. */
  lemma {:induction false} SumIntZero<T>(xs: seq<T>, f: T -> int)
    requires forall i :: 0 <= i < |xs| ==> f(xs[i]) == 0
    ensures SumInt(xs, f) == 0
  {
    if xs != [] {
      SumIntZero(xs[..|xs| - 1], f);
    }
  }

  /** Summing the records that pass `p` is summing `g`, which is `f` on those records and 0 elsewhere. */
  lemma {:induction false} SumFilter<T>(xs: seq<T>, p: T -> bool, f: T -> real, g: T -> real)
    requires forall i :: 0 <= i < |xs| ==> g(xs[i]) == if p(xs[i]) then f(xs[i]) else 0.0
    ensures Sum(Filter(xs, p), f) == Sum(xs, g)
  {
    if xs != [] {
      SumFilter(xs[1..], p, f, g);
      assert xs == [xs[0]] + xs[1..];
      SumCons(xs[0], xs[1..], g);
      SumAppend(if p(xs[0]) then [xs[0]] else [], Filter(xs[1..], p), f);
      if p(xs[0]) {
        SumCons(xs[0], [], f);
      }
    }
  }

  /** Summing `h` is summing `f` and `g` apart when `h` is their pointwise sum. */
  lemma {:induction false} SumPointwise<T>(xs: seq<T>, f: T -> real, g: T -> real, h: T -> real)
    requires forall i :: 0 <= i < |xs| ==> h(xs[i]) == f(xs[i]) + g(xs[i])
    ensures Sum(xs, h) == Sum(xs, f) + Sum(xs, g)
  {
    if xs != [] {
      SumPointwise(xs[..|xs| - 1], f, g, h);
    }
  }
}
