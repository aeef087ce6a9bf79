/** Sequences, sums and choices shared by the whole model. */
module Collections {

  datatype Option<+T> = None | Some(value: T) {
    function GetOr(default: T): T {
      match this
      case None => default
      case Some(v) => v
    }
  }

  datatype Result<+T, +E> = Ok(value: T) | Err(error: E)

  function Max(a: int, b: int): int { if a < b then b else a }

  function Min(a: int, b: int): int { if a < b then a else b }

  ghost predicate Distinct<T>(xs: seq<T>) {
    forall i, j :: 0 <= i < j < |xs| ==> xs[i] != xs[j]
  }

  ghost function Elements<T>(xs: seq<T>): set<T> {
    set x | x in xs
  }

  ghost function Pick<T>(s: set<T>): (x: T)
    requires s != {}
    ensures x in s
  {
    var x :| x in s; x
  }

  lemma {:induction false} SubsetSize<T>(a: set<T>, b: set<T>)
    requires a <= b
    ensures |a| <= |b|
  {
    if a != {} {
      var x := Pick(a);
      SubsetSize(a - {x}, b - {x});
    }
  }

  // ---- filtering ----

  function Filter<T>(keep: T -> bool, xs: seq<T>): seq<T> {
    if xs == [] then [] else
      var rest := Filter(keep, xs[..|xs| - 1]);
      if keep(xs[|xs| - 1]) then rest + [xs[|xs| - 1]] else rest
  }

  lemma {:induction false} FilterMember<T>(keep: T -> bool, xs: seq<T>, x: T)
    ensures x in Filter(keep, xs) <==> x in xs && keep(x)
  {
    if xs != [] {
      FilterMember(keep, xs[..|xs| - 1], x);
      assert xs == xs[..|xs| - 1] + [xs[|xs| - 1]];
    }
  }

  lemma {:induction false} FilterConcat<T>(keep: T -> bool, xs: seq<T>, ys: seq<T>)
    ensures Filter(keep, xs + ys) == Filter(keep, xs) + Filter(keep, ys)
  {
    if ys == [] {
      assert xs + ys == xs;
    } else {
      assert (xs + ys)[..|xs + ys| - 1] == xs + ys[..|ys| - 1];
      FilterConcat(keep, xs, ys[..|ys| - 1]);
    }
  }

  lemma {:induction false} FilterAll<T>(keep: T -> bool, xs: seq<T>)
    requires forall x :: x in xs ==> keep(x)
    ensures Filter(keep, xs) == xs
  {
    if xs != [] {
      assert xs == xs[..|xs| - 1] + [xs[|xs| - 1]];
      assert keep(xs[|xs| - 1]);
      FilterAll(keep, xs[..|xs| - 1]);
    }
  }

  lemma {:induction false} FilterNone<T>(keep: T -> bool, xs: seq<T>)
    requires forall x :: x in xs ==> !keep(x)
    ensures Filter(keep, xs) == []
  {
    if xs != [] {
      assert !keep(xs[|xs| - 1]);
      FilterNone(keep, xs[..|xs| - 1]);
    }
  }

  /** Two filters in a row are one filter by both tests. */
  lemma {:induction false} FilterFilter<T>(inner: T -> bool, outer: T -> bool, both: T -> bool, xs: seq<T>)
    requires forall x :: x in xs ==> both(x) == (inner(x) && outer(x))
    ensures Filter(outer, Filter(inner, xs)) == Filter(both, xs)
  {
    if xs != [] {
      var init, last := xs[..|xs| - 1], xs[|xs| - 1];
      assert last in xs;
      FilterFilter(inner, outer, both, init);
      if inner(last) {
        FilterConcat(outer, Filter(inner, init), [last]);
        assert Filter(outer, [last]) == if outer(last) then [last] else [];
      }
    }
  }

  lemma {:induction false} FilterDistinct<T>(keep: T -> bool, xs: seq<T>)
    requires Distinct(xs)
    ensures Distinct(Filter(keep, xs))
  {
    if xs != [] {
      var init := xs[..|xs| - 1];
      FilterDistinct(keep, init);
      FilterMember(keep, init, xs[|xs| - 1]);
    }
  }

  lemma {:induction false} FilterMultiset<T>(keep: T -> bool, xs: seq<T>, x: T)
    requires keep(x)
    ensures multiset(Filter(keep, xs))[x] == multiset(xs)[x]
  {
    if xs != [] {
      FilterMultiset(keep, xs[..|xs| - 1], x);
      assert xs == xs[..|xs| - 1] + [xs[|xs| - 1]];
    }
  }

  // ---- mapping and dropping in one pass ----

  function FilterMap<A, B>(f: A -> Option<B>, xs: seq<A>): seq<B> {
    if xs == [] then [] else
      var rest := FilterMap(f, xs[..|xs| - 1]);
      match f(xs[|xs| - 1])
      case None => rest
      case Some(y) => rest + [y]
  }

  lemma {:induction false} FilterMapMember<A, B>(f: A -> Option<B>, xs: seq<A>, y: B)
    ensures y in FilterMap(f, xs) <==> exists x :: x in xs && f(x) == Some(y)
  {
    if xs != [] {
      var last := xs[|xs| - 1];
      FilterMapMember(f, xs[..|xs| - 1], y);
      assert xs == xs[..|xs| - 1] + [last];
      assert last in xs;
    }
  }

  lemma {:induction false} FilterMapConcat<A, B>(f: A -> Option<B>, xs: seq<A>, ys: seq<A>)
    ensures FilterMap(f, xs + ys) == FilterMap(f, xs) + FilterMap(f, ys)
  {
    if ys == [] {
      assert xs + ys == xs;
    } else {
      assert (xs + ys)[..|xs + ys| - 1] == xs + ys[..|ys| - 1];
      FilterMapConcat(f, xs, ys[..|ys| - 1]);
    }
  }

  /** A pass that keeps everything keeps the length and works position by position. */
  lemma {:induction false} FilterMapTotal<A, B>(f: A -> Option<B>, xs: seq<A>)
    requires forall x :: x in xs ==> f(x).Some?
    ensures |FilterMap(f, xs)| == |xs|
    ensures forall i :: 0 <= i < |xs| ==> f(xs[i]) == Some(FilterMap(f, xs)[i])
  {
    if xs != [] {
      assert xs[|xs| - 1] in xs;
      FilterMapTotal(f, xs[..|xs| - 1]);
    }
  }

  lemma {:induction false} FilterMapCongruent<A, B>(f: A -> Option<B>, g: A -> Option<B>, xs: seq<A>)
    requires forall x :: x in xs ==> f(x) == g(x)
    ensures FilterMap(f, xs) == FilterMap(g, xs)
  {
    if xs != [] {
      assert xs[|xs| - 1] in xs;
      FilterMapCongruent(f, g, xs[..|xs| - 1]);
    }
  }

  lemma FilterMapStep<A, B>(f: A -> Option<B>, xs: seq<A>, i: nat)
    requires i < |xs|
    ensures FilterMap(f, xs[..i + 1])
         == FilterMap(f, xs[..i]) + match f(xs[i]) { case None => [] case Some(y) => [y] }
  {
    assert xs[..i + 1][..i] == xs[..i];
  }

  lemma FilterStep<T>(keep: T -> bool, xs: seq<T>, i: nat)
    requires i < |xs|
    ensures Filter(keep, xs[..i + 1]) == Filter(keep, xs[..i]) + if keep(xs[i]) then [xs[i]] else []
  {
    assert xs[..i + 1][..i] == xs[..i];
  }

  // ---- sums over sequences ----

  function SumBy<T>(weight: T -> int, xs: seq<T>): int {
    if xs == [] then 0 else SumBy(weight, xs[..|xs| - 1]) + weight(xs[|xs| - 1])
  }

  lemma SumByStep<T>(weight: T -> int, xs: seq<T>, i: nat)
    requires i < |xs|
    ensures SumBy(weight, xs[..i + 1]) == SumBy(weight, xs[..i]) + weight(xs[i])
  {
    assert xs[..i + 1][..i] == xs[..i];
  }

  lemma {:induction false} SumByConcat<T>(weight: T -> int, xs: seq<T>, ys: seq<T>)
    ensures SumBy(weight, xs + ys) == SumBy(weight, xs) + SumBy(weight, ys)
  {
    if ys == [] {
      assert xs + ys == xs;
    } else {
      assert (xs + ys)[..|xs + ys| - 1] == xs + ys[..|ys| - 1];
      SumByConcat(weight, xs, ys[..|ys| - 1]);
    }
  }

  lemma {:induction false} SumByBounds<T>(low: T -> int, high: T -> int, xs: seq<T>)
    requires forall x :: x in xs ==> low(x) <= high(x)
    ensures SumBy(low, xs) <= SumBy(high, xs)
  {
    if xs != [] {
      assert xs[|xs| - 1] in xs;
      SumByBounds(low, high, xs[..|xs| - 1]);
    }
  }

  lemma {:induction false} SumByNonNegative<T>(weight: T -> int, xs: seq<T>)
    requires forall x :: x in xs ==> 0 <= weight(x)
    ensures 0 <= SumBy(weight, xs)
    ensures forall x :: x in xs ==> weight(x) <= SumBy(weight, xs)
  {
    if xs != [] {
      assert xs[|xs| - 1] in xs;
      SumByNonNegative(weight, xs[..|xs| - 1]);
    }
  }

  lemma {:induction false} SumByCongruent<T>(f: T -> int, g: T -> int, xs: seq<T>)
    requires forall x :: x in xs ==> f(x) == g(x)
    ensures SumBy(f, xs) == SumBy(g, xs)
  {
    SumByBounds(f, g, xs);
    SumByBounds(g, f, xs);
  }

  lemma {:induction false} SumByAdd<T>(f: T -> int, g: T -> int, h: T -> int, xs: seq<T>)
    requires forall x :: x in xs ==> f(x) == g(x) + h(x)
    ensures SumBy(f, xs) == SumBy(g, xs) + SumBy(h, xs)
  {
    if xs != [] {
      assert xs[|xs| - 1] in xs;
      SumByAdd(f, g, h, xs[..|xs| - 1]);
    }
  }

  /** Weighing only what a filter keeps. */
  lemma {:induction false} SumByFilter<T>(weight: T -> int, keep: T -> bool, masked: T -> int, xs: seq<T>)
    requires forall x :: x in xs ==> masked(x) == if keep(x) then weight(x) else 0
    ensures SumBy(weight, Filter(keep, xs)) == SumBy(masked, xs)
  {
    if xs != [] {
      var init, last := xs[..|xs| - 1], xs[|xs| - 1];
      assert last in xs;
      SumByFilter(weight, keep, masked, init);
      if keep(last) {
        SumByConcat(weight, Filter(keep, init), [last]);
        assert SumBy(weight, [last]) == weight(last);
      }
    }
  }

  /** Weighing what a pass produces is weighing what it was given by the pulled-back weight. */
  lemma {:induction false} SumByFilterMap<A, B>(f: A -> Option<B>, weight: B -> int, pulled: A -> int, xs: seq<A>)
    requires forall x :: x in xs ==> pulled(x) == match f(x) { case None => 0 case Some(y) => weight(y) }
    ensures SumBy(weight, FilterMap(f, xs)) == SumBy(pulled, xs)
  {
    if xs != [] {
      var init, last := xs[..|xs| - 1], xs[|xs| - 1];
      assert last in xs;
      SumByFilterMap(f, weight, pulled, init);
      if f(last).Some? {
        SumByConcat(weight, FilterMap(f, init), [f(last).value]);
        assert SumBy(weight, [f(last).value]) == weight(f(last).value);
      }
    }
  }

  lemma {:induction false} SumByMultiset<T>(weight: T -> int, xs: seq<T>, ys: seq<T>)
    requires multiset(xs) == multiset(ys)
    ensures SumBy(weight, xs) == SumBy(weight, ys)
    decreases |xs|
  {
    if xs == [] {
      assert |multiset(ys)| == 0;
      assert ys == [];
    } else {
      var last := xs[|xs| - 1];
      assert last in multiset(xs);
      assert last in ys;
      var i :| 0 <= i < |ys| && ys[i] == last;
      var init := xs[..|xs| - 1];
      assert xs == init + [last];
      assert ys == ys[..i] + [last] + ys[i + 1..];
      assert multiset(init) == multiset(xs) - multiset{last};
      assert multiset(ys[..i] + ys[i + 1..]) == multiset(ys) - multiset{last};
      SumByMultiset(weight, init, ys[..i] + ys[i + 1..]);
      SumByConcat(weight, ys[..i], ys[i + 1..]);
      SumByConcat(weight, ys[..i] + [last], ys[i + 1..]);
      SumByConcat(weight, ys[..i], [last]);
      assert SumBy(weight, [last]) == weight(last);
    }
  }

  // ---- sums over finite maps ----

  ghost function SumMap<K>(m: map<K, int>): int {
    if m == map[] then 0 else
      assert m.Keys != {};
      var k := Pick(m.Keys);
      m[k] + SumMap(m - {k})
  }

  lemma {:induction false} SumMapRemove<K>(m: map<K, int>, k: K)
    requires k in m
    ensures SumMap(m) == m[k] + SumMap(m - {k})
    decreases |m|
  {
    var first := Pick(m.Keys);
    if first != k {
      SumMapRemove(m - {first}, k);
      SumMapRemove(m - {k}, first);
      assert m - {first} - {k} == m - {k} - {first};
    }
  }

  lemma SumMapAdd<K>(m: map<K, int>, k: K, v: int)
    requires k !in m
    ensures SumMap(m[k := v]) == SumMap(m) + v
  {
    SumMapRemove(m[k := v], k);
    assert m[k := v] - {k} == m;
  }

  lemma SumMapUpdate<K>(m: map<K, int>, k: K, v: int)
    requires k in m
    ensures SumMap(m[k := v]) == SumMap(m) - m[k] + v
  {
    SumMapRemove(m[k := v], k);
    SumMapRemove(m, k);
    assert m[k := v] - {k} == m - {k};
  }

  // ---- sums of a weight over a set ----

  ghost function SumOver<K>(weight: K -> int, ids: set<K>): int {
    if ids == {} then 0 else
      var k := Pick(ids);
      weight(k) + SumOver(weight, ids - {k})
  }

  lemma {:induction false} SumOverRemove<K>(weight: K -> int, ids: set<K>, k: K)
    requires k in ids
    ensures SumOver(weight, ids) == weight(k) + SumOver(weight, ids - {k})
    decreases |ids|
  {
    var first := Pick(ids);
    if first != k {
      SumOverRemove(weight, ids - {first}, k);
      SumOverRemove(weight, ids - {k}, first);
      assert ids - {first} - {k} == ids - {k} - {first};
    }
  }

  lemma SumOverAdd<K>(weight: K -> int, ids: set<K>, k: K)
    requires k !in ids
    ensures SumOver(weight, ids + {k}) == SumOver(weight, ids) + weight(k)
  {
    SumOverRemove(weight, ids + {k}, k);
    assert ids + {k} - {k} == ids;
  }

  lemma {:induction false} SumOverCongruent<K>(f: K -> int, g: K -> int, ids: set<K>)
    requires forall k :: k in ids ==> f(k) == g(k)
    ensures SumOver(f, ids) == SumOver(g, ids)
  {
    if ids != {} {
      SumOverCongruent(f, g, ids - {Pick(ids)});
    }
  }

  lemma {:induction false} SumOverNonNegative<K>(weight: K -> int, ids: set<K>)
    requires forall k :: k in ids ==> 0 <= weight(k)
    ensures 0 <= SumOver(weight, ids)
    ensures forall k :: k in ids ==> weight(k) <= SumOver(weight, ids)
  {
    if ids != {} {
      SumOverNonNegative(weight, ids - {Pick(ids)});
    }
  }

  /** Ids of weight zero do not matter. */
  lemma {:induction false} SumOverSupport<K>(weight: K -> int, all: set<K>, ids: set<K>)
    requires ids <= all && forall k :: k in all && k !in ids ==> weight(k) == 0
    ensures SumOver(weight, all) == SumOver(weight, ids)
    decreases |all|
  {
    if all != ids {
      assert !(all <= ids);
      assert exists j :: j in all && j in all - ids;
      var k := Pick(all - ids);
      SumOverRemove(weight, all, k);
      SumOverSupport(weight, all - {k}, ids);
    }
  }

  lemma {:induction false} SumMapAsOver<K>(m: map<K, int>, weight: K -> int)
    requires forall k :: k in m ==> m[k] == weight(k)
    ensures SumMap(m) == SumOver(weight, m.Keys)
    decreases |m|
  {
    if m != map[] {
      var k := Pick(m.Keys);
      SumMapAsOver(m - {k}, weight);
      assert (m - {k}).Keys == m.Keys - {k};
    }
  }

  lemma SumOverEmpty<K>(weight: K -> int)
    ensures SumOver(weight, {}) == 0
  {
  }

  /** Adding up over a duplicate-free list is adding up over the set it lists. */
  lemma {:induction false} SumDistinct<K>(weight: K -> int, xs: seq<K>)
    requires Distinct(xs)
    ensures SumBy(weight, xs) == SumOver(weight, Elements(xs))
  {
    if xs == [] {
      SumOverEmpty(weight);
      assert Elements(xs) == {};
    } else {
      var init, last := xs[..|xs| - 1], xs[|xs| - 1];
      SumDistinct(weight, init);
      ElementsAppend(init, last);
      assert xs == init + [last];
      SumOverAdd(weight, Elements(init), last);
    }
  }

  lemma ElementsAppend<T>(xs: seq<T>, x: T)
    ensures Elements(xs + [x]) == Elements(xs) + {x}
  {
  }

  /** The largest weight over a finite set; zero for the empty set. */
  ghost function MaxOver<K>(weight: K -> int, ids: set<K>): (m: int)
    ensures ids == {} ==> m == 0
    ensures forall k :: k in ids ==> weight(k) <= m
    ensures ids != {} ==> exists k :: k in ids && weight(k) == m
  {
    if ids == {} then 0 else
      var k := Pick(ids);
      if ids == {k} then weight(k) else
        assert ids - {k} != {};
        var rest := MaxOver(weight, ids - {k});
        if weight(k) <= rest then rest else weight(k)
  }
}
