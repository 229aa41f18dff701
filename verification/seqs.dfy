/**
 * Bag operations on sequences that the relational queries are built from:
 * selection (Filter/Count), nested-loop joins (FlatMap), duplicate elimination
 * for GROUP BY keys (Distinct), and ordering (an insertion sort standing for
 * ORDER BY, whose order among ties SQL leaves open).
 */
module Seqs {

  // ---------------------------------------------------------------------
  // Selection
  // ---------------------------------------------------------------------

  /** The rows of `s` that satisfy `p`, in their original order (a WHERE clause). */
  function Filter<T(!new)>(s: seq<T>, p: T -> bool): (r: seq<T>)
    ensures |r| <= |s|
    ensures forall x :: multiset(r)[x] == if p(x) then multiset(s)[x] else 0
    ensures forall x :: x in r <==> x in s && p(x)
  {
    if |s| == 0 then []
    else
      assert s == [s[0]] + s[1..];
      if p(s[0]) then [s[0]] + Filter(s[1..], p) else Filter(s[1..], p)
  }

  /** When exactly the row at `i` fails `p`, selection removes that one row. */
  lemma FilterDropsOne<T(!new)>(s: seq<T>, p: T -> bool, i: nat)
    requires i < |s| && !p(s[i])
    requires forall j :: 0 <= j < |s| && j != i ==> p(s[j])
    ensures Filter(s, p) == s[..i] + s[i + 1..]
  {
    var front, back := s[..i], s[i + 1..];
    assert s == front + ([s[i]] + back);
    forall j | 0 <= j < |front|
      ensures p(front[j])
    {
      assert front[j] == s[j];
    }
    forall j | 0 <= j < |back|
      ensures p(back[j])
    {
      assert back[j] == s[i + 1 + j];
    }
    FilterAppend(front, [s[i]] + back, p);
    FilterAppend([s[i]], back, p);
    FilterKeepsAll(front, p);
    FilterKeepsAll(back, p);
  }

  lemma {:induction false} FilterKeepsAll<T(!new)>(s: seq<T>, p: T -> bool)
    requires forall j :: 0 <= j < |s| ==> p(s[j])
    ensures Filter(s, p) == s
  {
    if |s| > 0 {
      var rest := s[1..];
      assert s == [s[0]] + rest;
      forall j | 0 <= j < |rest|
        ensures p(rest[j])
      {
        assert rest[j] == s[j + 1];
      }
      FilterKeepsAll(rest, p);
    }
  }

  /** Two sequences that hold `x` at the same positions hold it equally often. */
  lemma {:induction false} SameOccurrences<T(!new)>(s: seq<T>, t: seq<T>, x: T)
    requires |s| == |t|
    requires forall i :: 0 <= i < |s| ==> (s[i] == x <==> t[i] == x)
    ensures multiset(s)[x] == multiset(t)[x]
  {
    if |s| > 0 {
      assert s == [s[0]] + s[1..] && t == [t[0]] + t[1..];
      SameOccurrences(s[1..], t[1..], x);
    }
  }

  /** The number of rows of `s` that satisfy `p` (a COUNT over a WHERE clause). */
  function Count<T(!new)>(s: seq<T>, p: T -> bool): nat {
    |Filter(s, p)|
  }

  lemma {:induction false} FilterAppend<T(!new)>(a: seq<T>, b: seq<T>, p: T -> bool)
    ensures Filter(a + b, p) == Filter(a, p) + Filter(b, p)
  {
    if |a| > 0 {
      assert (a + b)[1..] == a[1..] + b;
      FilterAppend(a[1..], b, p);
    } else {
      assert a + b == b;
    }
  }

  lemma CountAppend<T(!new)>(a: seq<T>, b: seq<T>, p: T -> bool)
    ensures Count(a + b, p) == Count(a, p) + Count(b, p)
  {
    FilterAppend(a, b, p);
  }

  lemma CountPositive<T(!new)>(s: seq<T>, p: T -> bool, x: T)
    requires x in s && p(x)
    ensures Count(s, p) >= 1
  {
    assert x in Filter(s, p);
  }

  /** A positive count has a witness. */
  lemma CountWitness<T(!new)>(s: seq<T>, p: T -> bool) returns (x: T)
    requires Count(s, p) > 0
    ensures x in s && p(x)
  {
    x := Filter(s, p)[0];
  }

  lemma CountNone<T(!new)>(s: seq<T>, p: T -> bool)
    requires forall x :: x in s ==> !p(x)
    ensures Count(s, p) == 0
  {
    if Count(s, p) > 0 {
      var x := CountWitness(s, p);
      assert false;
    }
  }

  /** No two rows of `s` share a key: the key is a PRIMARY KEY of the table. */
  ghost predicate UniqueBy<T(!new), K>(s: seq<T>, key: T -> K) {
    forall i, j :: 0 <= i < |s| && 0 <= j < |s| && key(s[i]) == key(s[j]) ==> i == j
  }

  /** A keyed table stays keyed when its first row is dropped, and that row's
      key occurs nowhere after it. */
  lemma UniqueByTail<T(!new), K>(s: seq<T>, key: T -> K)
    requires |s| > 0 && UniqueBy(s, key)
    ensures UniqueBy(s[1..], key)
    ensures forall y :: y in s[1..] ==> key(y) != key(s[0])
  {
    var rest := s[1..];
    forall i, j | 0 <= i < |rest| && 0 <= j < |rest| && key(rest[i]) == key(rest[j])
      ensures i == j
    {
      assert rest[i] == s[i + 1] && rest[j] == s[j + 1];
    }
    forall y | y in rest
      ensures key(y) != key(s[0])
    {
      var m :| 0 <= m < |rest| && rest[m] == y;
      assert s[m + 1] == y;
    }
  }

  /** Appending a row with a fresh key keeps a table keyed. */
  lemma UniqueByAppend<T(!new), K>(s: seq<T>, key: T -> K, x: T)
    requires UniqueBy(s, key)
    requires forall y :: y in s ==> key(y) != key(x)
    ensures UniqueBy(s + [x], key)
  {
    var t := s + [x];
    forall i, j | 0 <= i < |t| && 0 <= j < |t| && key(t[i]) == key(t[j])
      ensures i == j
    {
      if i < |s| && j < |s| {
        assert t[i] == s[i] && t[j] == s[j];
      }
    }
  }

  /** Deleting rows keeps a table keyed. */
  lemma {:induction false} FilterUnique<T(!new), K>(s: seq<T>, key: T -> K, p: T -> bool)
    requires UniqueBy(s, key)
    ensures UniqueBy(Filter(s, p), key)
  {
    if |s| > 0 {
      assert s == [s[0]] + s[1..];
      UniqueByTail(s, key);
      FilterUnique(s[1..], key, p);
      var rest := Filter(s[1..], p);
      if p(s[0]) {
        var t := [s[0]] + rest;
        forall i, j | 0 <= i < |t| && 0 <= j < |t| && key(t[i]) == key(t[j])
          ensures i == j
        {
          if i > 0 && j > 0 {
            assert t[i] == rest[i - 1] && t[j] == rest[j - 1];
          }
        }
      }
    }
  }

  /** Rewriting rows without touching their keys keeps a table keyed. */
  lemma UniqueBySameKeys<T(!new), K>(s: seq<T>, t: seq<T>, key: T -> K)
    requires UniqueBy(s, key)
    requires |t| == |s| && forall i :: 0 <= i < |s| ==> key(t[i]) == key(s[i])
    ensures UniqueBy(t, key)
  {
  }

  /** In a table keyed by `key`, a predicate that only rows with `y`'s key
      can meet is met by `y` alone. */
  lemma {:induction false} CountUniqueKey<T(!new), K>(s: seq<T>, key: T -> K, p: T -> bool, y: T)
    requires UniqueBy(s, key)
    requires y in s
    requires forall x :: x in s && p(x) ==> key(x) == key(y)
    ensures Count(s, p) == if p(y) then 1 else 0
  {
    assert s == [s[0]] + s[1..];
    var rest := s[1..];
    assert UniqueBy(rest, key) by {
      forall i, j | 0 <= i < |rest| && 0 <= j < |rest| && key(rest[i]) == key(rest[j])
        ensures i == j
      {
        assert rest[i] == s[i + 1] && rest[j] == s[j + 1];
      }
    }
    if key(s[0]) == key(y) {
      var k :| 0 <= k < |s| && s[k] == y;
      assert k == 0;
      forall x | x in rest
        ensures !p(x)
      {
        var m :| 0 <= m < |rest| && rest[m] == x;
        assert s[m + 1] == x;
      }
      CountNone(rest, p);
    } else {
      assert !p(s[0]);
      CountUniqueKey(rest, key, p, y);
    }
  }

  // ---------------------------------------------------------------------
  // Projection and nested-loop join
  // ---------------------------------------------------------------------

  /** The projection of every row of `s` through `f`, in order (a SELECT list). */
  function MapSeq<A(!new), B(!new)>(s: seq<A>, f: A -> B): (r: seq<B>)
    ensures |r| == |s|
  {
    seq(|s|, i requires 0 <= i < |s| => f(s[i]))
  }

  lemma MapSeqMember<A(!new), B(!new)>(s: seq<A>, f: A -> B, x: A)
    requires x in s
    ensures f(x) in MapSeq(s, f)
  {
    var i :| 0 <= i < |s| && s[i] == x;
    assert MapSeq(s, f)[i] == f(x);
  }

  lemma MapSeqSource<A(!new), B(!new)>(s: seq<A>, f: A -> B, y: B) returns (x: A)
    requires y in MapSeq(s, f)
    ensures x in s && f(x) == y
  {
    var i :| 0 <= i < |s| && MapSeq(s, f)[i] == y;
    x := s[i];
  }

  lemma MapSeqAppend<A(!new), B(!new)>(a: seq<A>, b: seq<A>, f: A -> B)
    ensures MapSeq(a + b, f) == MapSeq(a, f) + MapSeq(b, f)
  {
    var l, r := MapSeq(a + b, f), MapSeq(a, f) + MapSeq(b, f);
    forall i | 0 <= i < |l|
      ensures l[i] == r[i]
    {
      if i < |a| {
        assert r[i] == MapSeq(a, f)[i];
      } else {
        assert r[i] == MapSeq(b, f)[i - |a|];
      }
    }
  }

  /** Taking one occurrence of `a[0]` out of a reordering of `a` leaves a
      reordering of the rest of `a`. */
  lemma BagRemoveFirst<A>(a: seq<A>, b: seq<A>, j: nat)
    requires multiset(a) == multiset(b) && |a| > 0 && j < |b| && b[j] == a[0]
    ensures multiset(a[1..]) == multiset(b[..j] + b[j + 1..])
  {
    var x, front, back := a[0], b[..j], b[j + 1..];
    assert b == front + ([x] + back);
    assert a == [x] + a[1..];
    assert multiset(b) == multiset(front) + multiset([x]) + multiset(back);
    assert multiset(a[1..]) == multiset(a) - multiset([x]);
    assert multiset(front + back) == multiset(b) - multiset([x]);
  }

  /** Projecting a row spliced into the middle of a sequence. */
  lemma MapSeqSplice<A(!new), B(!new)>(b: seq<A>, j: nat, f: A -> B)
    requires j < |b|
    ensures multiset(MapSeq(b, f)) == multiset([f(b[j])]) + multiset(MapSeq(b[..j] + b[j + 1..], f))
  {
    var x, front, back := b[j], b[..j], b[j + 1..];
    assert b == front + ([x] + back);
    MapSeqAppend(front, [x] + back, f);
    MapSeqAppend([x], back, f);
    MapSeqAppend(front, back, f);
    assert MapSeq([x], f) == [f(x)];
  }

  /** Projecting two orderings of the same bag gives two orderings of the
      same projected bag. */
  lemma {:induction false} MapSeqPermutation<A(!new), B(!new)>(a: seq<A>, b: seq<A>, f: A -> B)
    requires multiset(a) == multiset(b)
    ensures multiset(MapSeq(a, f)) == multiset(MapSeq(b, f))
  {
    if |a| == 0 {
      assert |b| == |multiset(b)| == 0;
    } else {
      assert a[0] in multiset(b);
      var j :| 0 <= j < |b| && b[j] == a[0];
      BagRemoveFirst(a, b, j);
      MapSeqPermutation(a[1..], b[..j] + b[j + 1..], f);
      assert a == [a[0]] + a[1..];
      MapSeqAppend([a[0]], a[1..], f);
      assert MapSeq([a[0]], f) == [f(a[0])];
      MapSeqSplice(b, j, f);
    }
  }

  /** Projecting a prefix of a reordering never yields a value more often
      than projecting the whole original does. */
  lemma MapSeqPrefixBag<A(!new), B(!new)>(rows: seq<A>, s: seq<A>, k: nat, f: A -> B)
    requires multiset(rows) == multiset(s) && k <= |rows|
    ensures multiset(MapSeq(rows[..k], f)) <= multiset(MapSeq(s, f))
  {
    assert rows == rows[..k] + rows[k..];
    MapSeqAppend(rows[..k], rows[k..], f);
    MapSeqPermutation(rows, s, f);
  }

  /** `f(a)` for every row `a` of `s`, concatenated: the rows of a nested-loop join. */
  function FlatMap<A(!new), B(!new)>(s: seq<A>, f: A -> seq<B>): seq<B> {
    if |s| == 0 then [] else f(s[0]) + FlatMap(s[1..], f)
  }

  lemma {:induction false} FlatMapMember<A(!new), B(!new)>(s: seq<A>, f: A -> seq<B>, a: A, b: B)
    requires a in s && b in f(a)
    ensures b in FlatMap(s, f)
  {
    if s[0] != a {
      FlatMapMember(s[1..], f, a, b);
    }
  }

  lemma {:induction false} FlatMapSource<A(!new), B(!new)>(s: seq<A>, f: A -> seq<B>, b: B) returns (a: A)
    requires b in FlatMap(s, f)
    ensures a in s && b in f(a)
  {
    if b in f(s[0]) {
      a := s[0];
    } else {
      a := FlatMapSource(s[1..], f, b);
    }
  }

  /** When only `a0` can produce `b`, `b` occurs in the join as often as `a0`
      occurs in `s` times as often as `f(a0)` produces it. */
  lemma MulStep(m: nat, k: nat)
    ensures (m + 1) * k == m * k + k
  {
  }

  lemma {:induction false} FlatMapMultiplicity<A(!new), B(!new)>(s: seq<A>, f: A -> seq<B>, b: B, a0: A, k: nat)
    requires forall a :: a in s && a != a0 ==> multiset(f(a))[b] == 0
    requires multiset(f(a0))[b] == k
    ensures multiset(FlatMap(s, f))[b] == multiset(s)[a0] * k
  {
    if |s| > 0 {
      assert s == [s[0]] + s[1..];
      FlatMapMultiplicity(s[1..], f, b, a0, k);
      var m := multiset(s[1..])[a0];
      var here := multiset(f(s[0]))[b];
      assert multiset(FlatMap(s, f)) == multiset(f(s[0])) + multiset(FlatMap(s[1..], f));
      assert multiset(FlatMap(s, f))[b] == here + m * k;
      if s[0] == a0 {
        assert multiset(s)[a0] == m + 1;
        assert here == k;
        MulStep(m, k);
      } else {
        assert multiset(s)[a0] == m;
        assert here == 0;
      }
    }
  }

  /** If every row `a` contributes `k` matching join rows when `q(a)` holds and
      none otherwise, the join holds `k` matching rows per row meeting `q`. */
  lemma {:induction false} CountFlatMap<A(!new), B(!new)>(s: seq<A>, f: A -> seq<B>, p: B -> bool, q: A -> bool, k: nat)
    requires forall a :: a in s ==> Count(f(a), p) == if q(a) then k else 0
    ensures Count(FlatMap(s, f), p) == Count(s, q) * k
  {
    if |s| > 0 {
      assert s == [s[0]] + s[1..];
      CountFlatMap(s[1..], f, p, q, k);
      CountAppend(f(s[0]), FlatMap(s[1..], f), p);
      CountAppend([s[0]], s[1..], q);
      var m := Count(s[1..], q);
      assert Count(FlatMap(s, f), p) == Count(f(s[0]), p) + m * k;
      if q(s[0]) {
        assert Count(s, q) == m + 1;
        MulStep(m, k);
      } else {
        assert Count(s, q) == m;
      }
    }
  }

  // ---------------------------------------------------------------------
  // Duplicate elimination (GROUP BY keys, COUNT(DISTINCT ...))
  // ---------------------------------------------------------------------

  predicate NoDup<T(==)>(s: seq<T>) {
    forall i, j :: 0 <= i < j < |s| ==> s[i] != s[j]
  }

  /** The distinct values of `s`, each once. */
  function Distinct<T(==,!new)>(s: seq<T>): (r: seq<T>)
    ensures NoDup(r)
    ensures forall x :: x in r <==> x in s
    ensures |r| <= |s|
  {
    if |s| == 0 then []
    else
      var rest := Distinct(s[1..]);
      if s[0] in rest then rest else [s[0]] + rest
  }

  lemma {:induction false} NoDupMultiplicity<T(!new)>(s: seq<T>, x: T)
    requires NoDup(s)
    ensures multiset(s)[x] <= 1
  {
    if |s| > 0 {
      assert s == [s[0]] + s[1..];
      NoDupMultiplicity(s[1..], x);
      if s[0] == x {
        assert x !in s[1..];
      }
    }
  }

  lemma TwoIndicesMultiplicity<T(!new)>(s: seq<T>, i: int, j: int)
    requires 0 <= i < j < |s| && s[i] == s[j]
    ensures multiset(s)[s[i]] >= 2
  {
    var x := s[i];
    assert s == s[..i] + [x] + s[i + 1..j] + [x] + s[j + 1..];
    assert multiset(s) == multiset(s[..i]) + multiset{x} + multiset(s[i + 1..j]) + multiset{x} + multiset(s[j + 1..]);
  }

  /** A sub-bag of a table whose rows have pairwise distinct keys has pairwise
      distinct keys too (one output row per GROUP BY key). */
  lemma KeyedRowsDistinct<T(!new), K>(rows: seq<T>, groups: seq<T>, key: T -> K)
    requires forall i, j :: 0 <= i < j < |groups| ==> key(groups[i]) != key(groups[j])
    requires forall x :: multiset(rows)[x] <= multiset(groups)[x]
    ensures forall i, j :: 0 <= i < j < |rows| ==> key(rows[i]) != key(rows[j])
  {
    forall i, j | 0 <= i < j < |rows|
      ensures key(rows[i]) != key(rows[j])
    {
      var x, y := rows[i], rows[j];
      assert multiset(groups)[x] > 0 && multiset(groups)[y] > 0;
      var p :| 0 <= p < |groups| && groups[p] == x;
      var q :| 0 <= q < |groups| && groups[q] == y;
      if x == y {
        TwoIndicesMultiplicity(rows, i, j);
        assert NoDup(groups);
        NoDupMultiplicity(groups, x);
        assert false;
      } else {
        assert p != q;
        if p < q {
          assert key(groups[p]) != key(groups[q]);
        } else {
          assert key(groups[q]) != key(groups[p]);
        }
      }
    }
  }

  /** The rows of a GROUP BY: a sub-bag of one row per distinct key, each row
      computed from its key and carrying it, has one row per key, each the
      row of its key. */
  lemma GroupedRows<K(!new), T(!new)>(keys: seq<K>, row: K -> T, key: T -> K, rows: seq<T>)
    requires NoDup(keys)
    requires forall k :: key(row(k)) == k
    requires forall x :: multiset(rows)[x] <= multiset(MapSeq(keys, row))[x]
    ensures forall r :: r in rows ==> key(r) in keys && r == row(key(r))
    ensures forall i, j :: 0 <= i < j < |rows| ==> key(rows[i]) != key(rows[j])
  {
    var groups := MapSeq(keys, row);
    forall r | r in rows
      ensures key(r) in keys && r == row(key(r))
    {
      assert multiset(groups)[r] > 0;
      var k := MapSeqSource(keys, row, r);
    }
    forall i, j | 0 <= i < j < |groups|
      ensures key(groups[i]) != key(groups[j])
    {
      assert key(groups[i]) == keys[i] && key(groups[j]) == keys[j];
    }
    KeyedRowsDistinct(rows, groups, key);
  }

  lemma {:induction false} NoDupCard<T(!new)>(s: seq<T>)
    requires NoDup(s)
    ensures |set x | x in s| == |s|
  {
    if |s| > 0 {
      assert s == [s[0]] + s[1..];
      NoDupCard(s[1..]);
      assert (set x | x in s) == (set x | x in s[1..]) + {s[0]};
      assert s[0] !in s[1..];
    } else {
      assert (set x | x in s) == {};
    }
  }

  lemma {:induction false} ImageCard<A(!new), B(!new)>(s: seq<A>, f: A -> B)
    ensures |set a | a in s :: f(a)| <= |s|
  {
    if |s| > 0 {
      assert s == [s[0]] + s[1..];
      ImageCard(s[1..], f);
      assert (set a | a in s :: f(a)) == (set a | a in s[1..] :: f(a)) + {f(s[0])};
    } else {
      assert (set a | a in s :: f(a)) == {};
    }
  }

  lemma SubsetCard<T(!new)>(a: set<T>, b: set<T>)
    requires a <= b
    ensures |a| <= |b|
  {
    assert b == a + (b - a);
  }

  /** A duplicate-free sequence of `f`-images of rows of `s` is no longer than `s`. */
  lemma DistinctImageBound<A(!new), B(!new)>(r: seq<B>, s: seq<A>, f: A -> B)
    requires NoDup(r)
    requires forall y :: y in r ==> y in (set a | a in s :: f(a))
    ensures |r| <= |s|
  {
    NoDupCard(r);
    SubsetCard(set y | y in r, set a | a in s :: f(a));
    ImageCard(s, f);
  }

  // ---------------------------------------------------------------------
  // Ordering (ORDER BY)
  // ---------------------------------------------------------------------

  /** Any two rows are comparable, so an ORDER BY key gives a total preorder. */
  ghost predicate StronglyConnected<T(!new)>(le: (T, T) -> bool) {
    forall a, b :: le(a, b) || le(b, a)
  }

  ghost predicate Transitive<T(!new)>(le: (T, T) -> bool) {
    forall a, b, c :: le(a, b) && le(b, c) ==> le(a, c)
  }

  /** Each row is ordered no later than its successor. */
  predicate Sorted<T(!new)>(s: seq<T>, le: (T, T) -> bool) {
    forall i :: 0 <= i < |s| - 1 ==> le(s[i], s[i + 1])
  }

  function Insert<T(!new)>(x: T, s: seq<T>, le: (T, T) -> bool): (r: seq<T>)
    requires StronglyConnected(le)
    requires Sorted(s, le)
    ensures Sorted(r, le)
    ensures multiset(r) == multiset(s) + multiset{x}
    ensures |r| == |s| + 1
    ensures r[0] == x || (|s| > 0 && r[0] == s[0])
  {
    if |s| == 0 then [x]
    else if le(x, s[0]) then [x] + s
    else
      assert s == [s[0]] + s[1..];
      [s[0]] + Insert(x, s[1..], le)
  }

  /** An ordering of the rows of `s` by `le` (insertion sort). */
  function Sort<T(!new)>(s: seq<T>, le: (T, T) -> bool): (r: seq<T>)
    requires StronglyConnected(le)
    ensures Sorted(r, le)
    ensures multiset(r) == multiset(s)
    ensures |r| == |s|
  {
    if |s| == 0 then []
    else
      assert s == [s[0]] + s[1..];
      Insert(s[0], Sort(s[1..], le), le)
  }

  /** Under a transitive order, adjacent order gives order between any two rows. */
  lemma SortedAll<T(!new)>(s: seq<T>, le: (T, T) -> bool, i: int, j: int)
    requires Transitive(le) && Sorted(s, le)
    requires 0 <= i < j < |s|
    ensures le(s[i], s[j])
    decreases j - i
  {
    if i + 1 < j {
      SortedAll(s, le, i + 1, j);
    }
  }
}
