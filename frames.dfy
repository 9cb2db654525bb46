// Sequence models of the pandas operations the transformers chain together:
// dropna followed by a projection, drop_duplicates (keep the first row),
// merge(how='left') and the group-by size count.

module Frames {

  /** A nullable cell: None is pandas' NaN / None. */
  datatype Option<+T> = None | Some(value: T)

  function Identity<T>(x: T): T { x }

  /** Applies f to every row: a column assignment computed row by row. */
  function MapSeq<T, U>(s: seq<T>, f: T -> U): seq<U>
  {
    seq(|s|, i requires 0 <= i < |s| => f(s[i]))
  }

  /** Keeps, in order, the Some results of f: a row filter (dropna) fused
      with the projection that follows it. */
  function FilterMap<T, U>(s: seq<T>, f: T -> Option<U>): (r: seq<U>)
    ensures |r| <= |s|
  {
    if |s| == 0 then []
    else
      var p := FilterMap(s[..|s| - 1], f);
      match f(s[|s| - 1])
      case Some(u) => p + [u]
      case None => p
  }

  /** Every kept row is the Some result of some input row. */
  lemma {:induction false} FilterMapSound<T, U>(s: seq<T>, f: T -> Option<U>, j: int)
    requires 0 <= j < |FilterMap(s, f)|
    ensures exists i :: 0 <= i < |s| && f(s[i]) == Some(FilterMap(s, f)[j])
  {
    var n := |s| - 1;
    var p := FilterMap(s[..n], f);
    if j < |p| {
      FilterMapSound(s[..n], f, j);
      var i :| 0 <= i < n && f(s[..n][i]) == Some(p[j]);
      assert s[..n][i] == s[i];
    } else {
      assert f(s[n]) == Some(FilterMap(s, f)[j]);
    }
  }

  /** Every Some result of an input row is kept. */
  lemma {:induction false} FilterMapComplete<T, U>(s: seq<T>, f: T -> Option<U>, i: int)
    requires 0 <= i < |s| && f(s[i]).Some?
    ensures f(s[i]).value in FilterMap(s, f)
  {
    var n := |s| - 1;
    if i < n {
      FilterMapComplete(s[..n], f, i);
      assert s[..n][i] == s[i];
    }
  }

  /** Filtering two frames one after the other gives the filtered concatenation. */
  lemma {:induction false} FilterMapAppend<T, U>(a: seq<T>, b: seq<T>, f: T -> Option<U>)
    ensures FilterMap(a + b, f) == FilterMap(a, f) + FilterMap(b, f)
  {
    if |b| == 0 {
      assert a + b == a;
    } else {
      var b' := b[..|b| - 1];
      FilterMapAppend(a, b', f);
      assert (a + b)[..|a + b| - 1] == a + b';
      assert (a + b)[|a + b| - 1] == b[|b| - 1];
    }
  }

  /** True when an earlier row of s has the same key as row i. */
  predicate SeenBefore<T, K(==)>(s: seq<T>, key: T -> K, i: int)
    requires 0 <= i < |s|
  {
    exists k :: 0 <= k < i && key(s[k]) == key(s[i])
  }

  /** True when some row of r has key k. */
  predicate HasKey<T, K(==)>(r: seq<T>, key: T -> K, k: K)
  {
    exists j :: 0 <= j < |r| && key(r[j]) == k
  }

  /** drop_duplicates(subset=key, keep='first'): the first row of every key,
      in the order of the input. */
  function DedupBy<T(==), K(==)>(s: seq<T>, key: T -> K): (r: seq<T>)
    ensures |r| <= |s|
  {
    if |s| == 0 then []
    else
      var n := |s| - 1;
      var p := DedupBy(s[..n], key);
      if SeenBefore(s, key, n) then p else p + [s[n]]
  }

  /** Deduplication keeps only rows of its input. */
  lemma {:induction false} DedupBySubset<T, K>(s: seq<T>, key: T -> K, x: T)
    requires x in DedupBy(s, key)
    ensures x in s
  {
    var n := |s| - 1;
    if x in DedupBy(s[..n], key) {
      DedupBySubset(s[..n], key, x);
      assert forall y :: y in s[..n] ==> y in s;
    }
  }

  /** Every key of the input survives deduplication. */
  lemma {:induction false} DedupByCovers<T, K>(s: seq<T>, key: T -> K, i: int)
    requires 0 <= i < |s|
    ensures HasKey(DedupBy(s, key), key, key(s[i]))
  {
    var n := |s| - 1;
    var p := DedupBy(s[..n], key);
    var r := DedupBy(s, key);
    assert r == p || r == p + [s[n]];
    if i < n {
      assert s[..n][i] == s[i];
      DedupByCovers(s[..n], key, i);
      var j :| 0 <= j < |p| && key(p[j]) == key(s[i]);
      assert r[j] == p[j];
    } else if SeenBefore(s, key, n) {
      var k :| 0 <= k < n && key(s[k]) == key(s[n]);
      assert s[..n][k] == s[k];
      DedupByCovers(s[..n], key, k);
      var j :| 0 <= j < |p| && key(p[j]) == key(s[k]);
      assert r[j] == p[j];
    } else {
      assert r[|p|] == s[n];
    }
  }

  /** No two surviving rows share a key. */
  lemma {:induction false} DedupByDistinct<T, K>(s: seq<T>, key: T -> K)
    ensures forall a, b :: 0 <= a < b < |DedupBy(s, key)| ==>
      key(DedupBy(s, key)[a]) != key(DedupBy(s, key)[b])
  {
    if |s| > 0 {
      var n := |s| - 1;
      var p := DedupBy(s[..n], key);
      DedupByDistinct(s[..n], key);
      if !SeenBefore(s, key, n) {
        forall a | 0 <= a < |p| ensures key(p[a]) != key(s[n]) {
          DedupBySubset(s[..n], key, p[a]);
          var k :| 0 <= k < n && s[..n][k] == p[a];
          assert s[k] == p[a];
        }
      }
    }
  }

  /** Every surviving row is the first row of the input with its key. */
  lemma {:induction false} DedupByKeepsFirst<T, K>(s: seq<T>, key: T -> K, j: int)
    requires 0 <= j < |DedupBy(s, key)|
    ensures exists i :: 0 <= i < |s| && DedupBy(s, key)[j] == s[i] && !SeenBefore(s, key, i)
  {
    var n := |s| - 1;
    var p := DedupBy(s[..n], key);
    var r := DedupBy(s, key);
    if j < |p| {
      DedupByKeepsFirst(s[..n], key, j);
      var i :| 0 <= i < n && p[j] == s[..n][i] && !SeenBefore(s[..n], key, i);
      assert r[j] == p[j] == s[i];
      assert forall k :: 0 <= k < i ==> s[..n][k] == s[k];
    } else {
      assert r[j] == s[n];
    }
  }

  /** drop_duplicates() over whole rows. */
  function Dedup<T(==)>(s: seq<T>): seq<T>
  {
    DedupBy(s, Identity)
  }

  predicate Distinct<T(==)>(ks: seq<T>)
  {
    forall a, b :: 0 <= a < b < |ks| ==> ks[a] != ks[b]
  }

  /** Whole-row deduplication keeps exactly the values of the input, once each. */
  lemma DedupProperties<T>(s: seq<T>)
    ensures Distinct(Dedup(s))
    ensures forall x :: x in Dedup(s) <==> x in s
  {
    DedupByDistinct(s, Identity);
    forall x | x in Dedup(s) ensures x in s {
      DedupBySubset(s, Identity, x);
    }
    forall x | x in s ensures x in Dedup(s) {
      var i :| 0 <= i < |s| && s[i] == x;
      DedupByCovers(s, Identity, i);
    }
  }

  /** The rows of right whose key equals k, in order. */
  function Matches<R, K(==)>(right: seq<R>, rk: R -> K, k: K): (m: seq<R>)
    ensures forall y :: y in m ==> y in right && rk(y) == k
    ensures forall y :: y in right && rk(y) == k ==> y in m
  {
    if |right| == 0 then []
    else
      var p := Matches(right[..|right| - 1], rk, k);
      assert forall y :: y in right ==> y in right[..|right| - 1] || y == right[|right| - 1];
      if rk(right[|right| - 1]) == k then p + [right[|right| - 1]] else p
  }

  /** The joined rows produced for one left row: one per match, or a single
      row padded with None when nothing matches. */
  function JoinRow<L, R, K(==)>(x: L, right: seq<R>, lk: L -> K, rk: R -> K): seq<(L, Option<R>)>
  {
    var m := Matches(right, rk, lk(x));
    if |m| == 0 then [(x, None)]
    else seq(|m|, i requires 0 <= i < |m| => (x, Some(m[i])))
  }

  lemma JoinRowProperties<L, R, K>(x: L, right: seq<R>, lk: L -> K, rk: R -> K)
    ensures forall p :: p in JoinRow(x, right, lk, rk) ==> p.0 == x
    ensures forall p :: p in JoinRow(x, right, lk, rk) && p.1.Some? ==> p.1.value in right && rk(p.1.value) == lk(x)
    ensures forall p :: p in JoinRow(x, right, lk, rk) && p.1.None? ==> forall y :: y in right ==> rk(y) != lk(x)
    ensures forall y :: y in right && rk(y) == lk(x) ==> (x, Some(y)) in JoinRow(x, right, lk, rk)
    ensures (forall y :: y in right ==> rk(y) != lk(x)) ==> JoinRow(x, right, lk, rk) == [(x, None)]
  {
    var m := Matches(right, rk, lk(x));
    var q := JoinRow(x, right, lk, rk);
    if |m| > 0 {
      assert m[0] in m;
      forall y | y in right && rk(y) == lk(x) ensures (x, Some(y)) in q {
        var i :| 0 <= i < |m| && m[i] == y;
        assert q[i] == (x, Some(y));
      }
    }
  }

  /** merge(how='left', left_on=lk, right_on=rk), in left order. Keys are
      compared with ==, so two missing keys (None) match each other, as
      pandas matches NaN with NaN. */
  function LeftJoin<L, R, K(==)>(left: seq<L>, right: seq<R>, lk: L -> K, rk: R -> K): (j: seq<(L, Option<R>)>)
    ensures |j| >= |left|
  {
    if |left| == 0 then []
    else LeftJoin(left[..|left| - 1], right, lk, rk) + JoinRow(left[|left| - 1], right, lk, rk)
  }

  /** Every joined row pairs a left row with a right row of the same key, or
      with None when the left row has no match. */
  lemma {:induction false} LeftJoinSound<L, R, K>(left: seq<L>, right: seq<R>, lk: L -> K, rk: R -> K, p: (L, Option<R>))
    requires p in LeftJoin(left, right, lk, rk)
    ensures p.0 in left
    ensures p.1.Some? ==> p.1.value in right && rk(p.1.value) == lk(p.0)
    ensures p.1.None? ==> forall y :: y in right ==> rk(y) != lk(p.0)
  {
    var n := |left| - 1;
    var q := JoinRow(left[n], right, lk, rk);
    JoinRowProperties(left[n], right, lk, rk);
    if p in LeftJoin(left[..n], right, lk, rk) {
      LeftJoinSound(left[..n], right, lk, rk, p);
      assert p.0 in left[..n];
    } else {
      assert p in q;
    }
  }

  /** Every matching pair, and every unmatched left row, appears in the join. */
  lemma {:induction false} LeftJoinComplete<L, R, K>(left: seq<L>, right: seq<R>, lk: L -> K, rk: R -> K, x: L)
    requires x in left
    ensures forall y :: y in right && rk(y) == lk(x) ==> (x, Some(y)) in LeftJoin(left, right, lk, rk)
    ensures (forall y :: y in right ==> rk(y) != lk(x)) ==> (x, None) in LeftJoin(left, right, lk, rk)
  {
    var n := |left| - 1;
    var p := LeftJoin(left[..n], right, lk, rk);
    var q := JoinRow(left[n], right, lk, rk);
    JoinRowProperties(left[n], right, lk, rk);
    assert LeftJoin(left, right, lk, rk) == p + q;
    if x != left[n] {
      assert x in left[..n];
      LeftJoinComplete(left[..n], right, lk, rk, x);
    }
  }

  /** Number of rows of s equal to x: pandas' groupby(...).transform('size'). */
  function Occurrences<T(==)>(s: seq<T>, x: T): (n: nat)
    ensures n <= |s|
    ensures n > 0 <==> x in s
  {
    if |s| == 0 then 0
    else
      var p := s[..|s| - 1];
      assert x in s <==> x in p || x == s[|s| - 1];
      Occurrences(p, x) + (if s[|s| - 1] == x then 1 else 0)
  }

  /** The sum of the occurrence counts in s of the values listed in ks. */
  function SumOccurrences<T(==)>(ks: seq<T>, s: seq<T>): nat
  {
    if |ks| == 0 then 0
    else SumOccurrences(ks[..|ks| - 1], s) + Occurrences(s, ks[|ks| - 1])
  }

  lemma {:induction false} SumOccurrencesSnoc<T>(ks: seq<T>, s: seq<T>, x: T)
    requires Distinct(ks)
    ensures SumOccurrences(ks, s + [x]) == SumOccurrences(ks, s) + (if x in ks then 1 else 0)
  {
    assert (s + [x])[..|s|] == s;
    if |ks| > 0 {
      var ks' := ks[..|ks| - 1];
      var k := ks[|ks| - 1];
      assert Distinct(ks');
      SumOccurrencesSnoc(ks', s, x);
      assert x in ks <==> x in ks' || x == k;
      assert k !in ks';
    }
  }

  /** Counting every distinct value once adds up to the number of rows. */
  lemma {:induction false} SumOccurrencesOfDistinct<T>(s: seq<T>)
    ensures SumOccurrences(Dedup(s), s) == |s|
  {
    if |s| > 0 {
      var n := |s| - 1;
      var p, x := s[..n], s[n];
      assert s == p + [x];
      var d := Dedup(p);
      SumOccurrencesOfDistinct(p);
      DedupProperties(p);
      SumOccurrencesSnoc(d, p, x);
      if SeenBefore(s, Identity, n) {
        assert Dedup(s) == d;
        var k :| 0 <= k < n && s[k] == x;
        assert p[k] == x;
      } else {
        assert Dedup(s) == d + [x];
        assert (d + [x])[..|d|] == d;
        assert x !in p by {
          forall k | 0 <= k < n ensures p[k] != x { assert s[k] == p[k]; }
        }
      }
    }
  }

  /** Deduplicating after an injective relabelling is relabelling after deduplicating. */
  lemma {:induction false} DedupMapInjective<T, U>(s: seq<T>, f: T -> U)
    requires forall a, b :: a in s && b in s && f(a) == f(b) ==> a == b
    ensures Dedup(MapSeq(s, f)) == MapSeq(Dedup(s), f)
  {
    var fs := MapSeq(s, f);
    if |s| > 0 {
      var n := |s| - 1;
      var p := s[..n];
      assert fs[..n] == MapSeq(p, f);
      assert forall a, b :: a in p && b in p && f(a) == f(b) ==> a == b by {
        assert forall a :: a in p ==> a in s;
      }
      DedupMapInjective(p, f);
      var d := Dedup(p);
      assert SeenBefore(fs, Identity, n) <==> SeenBefore(s, Identity, n) by {
        if SeenBefore(fs, Identity, n) {
          var k :| 0 <= k < n && fs[k] == fs[n];
          assert f(s[k]) == f(s[n]);
          assert s[k] in s && s[n] in s;
          assert s[k] == s[n];
        }
        if SeenBefore(s, Identity, n) {
          var k :| 0 <= k < n && s[k] == s[n];
          assert fs[k] == fs[n];
        }
      }
      if !SeenBefore(s, Identity, n) {
        assert MapSeq(d + [s[n]], f) == MapSeq(d, f) + [f(s[n])];
      }
    }
  }

  lemma LeftJoinSnoc<L, R, K>(s: seq<L>, x: L, right: seq<R>, lk: L -> K, rk: R -> K)
    ensures LeftJoin(s + [x], right, lk, rk) == LeftJoin(s, right, lk, rk) + JoinRow(x, right, lk, rk)
  {
    assert (s + [x])[..|s|] == s;
  }

  /** Joining two frames one after the other gives the join of their concatenation. */
  lemma {:induction false} LeftJoinAppend<L, R, K>(a: seq<L>, b: seq<L>, right: seq<R>, lk: L -> K, rk: R -> K)
    ensures LeftJoin(a + b, right, lk, rk) == LeftJoin(a, right, lk, rk) + LeftJoin(b, right, lk, rk)
  {
    if |b| == 0 {
      assert a + b == a;
    } else {
      var b', x := b[..|b| - 1], b[|b| - 1];
      var ab' := a + b';
      assert b == b' + [x];
      assert a + b == ab' + [x];
      LeftJoinAppend(a, b', right, lk, rk);
      LeftJoinSnoc(ab', x, right, lk, rk);
      LeftJoinSnoc(b', x, right, lk, rk);
      ConcatAssoc(LeftJoin(a, right, lk, rk), LeftJoin(b', right, lk, rk), JoinRow(x, right, lk, rk));
    }
  }

  lemma ConcatAssoc<T>(p: seq<T>, q: seq<T>, r: seq<T>)
    ensures (p + q) + r == p + (q + r)
  {
  }
}
