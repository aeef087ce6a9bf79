/** The code-point order on strings and sorting by a total order. */
module Ordering {
  import opened Collections

  predicate StrLe(a: string, b: string) {
    a == [] || (b != [] && (a[0] < b[0] || (a[0] == b[0] && StrLe(a[1..], b[1..]))))
  }

  lemma {:induction false} StrLeTotal(a: string, b: string)
    ensures StrLe(a, b) || StrLe(b, a)
  {
    if a != [] && b != [] && a[0] == b[0] {
      StrLeTotal(a[1..], b[1..]);
    }
  }

  lemma {:induction false} StrLeAntisymmetric(a: string, b: string)
    requires StrLe(a, b) && StrLe(b, a)
    ensures a == b
  {
    if a != [] && b != [] {
      StrLeAntisymmetric(a[1..], b[1..]);
      assert a == [a[0]] + a[1..];
      assert b == [b[0]] + b[1..];
    }
  }

  lemma {:induction false} StrLeTransitive(a: string, b: string, c: string)
    requires StrLe(a, b) && StrLe(b, c)
    ensures StrLe(a, c)
  {
    if a != [] && b != [] && c != [] && a[0] == b[0] == c[0] {
      StrLeTransitive(a[1..], b[1..], c[1..]);
    }
  }

  ghost predicate TotalPreorder<T(!new)>(le: (T, T) -> bool) {
    && (forall x, y :: le(x, y) || le(y, x))
    && (forall x, y, z :: le(x, y) && le(y, z) ==> le(x, z))
  }

  ghost predicate Antisymmetric<T(!new)>(le: (T, T) -> bool) {
    forall x, y :: le(x, y) && le(y, x) ==> x == y
  }

  const STRING_ORDER: (string, string) -> bool := (a: string, b: string) => StrLe(a, b)

  lemma StringOrderIsTotal()
    ensures TotalPreorder(STRING_ORDER) && Antisymmetric(STRING_ORDER)
  {
    forall x: string, y: string ensures STRING_ORDER(x, y) || STRING_ORDER(y, x) { StrLeTotal(x, y); }
    forall x: string, y: string | STRING_ORDER(x, y) && STRING_ORDER(y, x) ensures x == y { StrLeAntisymmetric(x, y); }
    forall x: string, y: string, z: string | STRING_ORDER(x, y) && STRING_ORDER(y, z) ensures STRING_ORDER(x, z) { StrLeTransitive(x, y, z); }
  }

  ghost predicate SortedBy<T>(le: (T, T) -> bool, xs: seq<T>) {
    forall i, j :: 0 <= i < j < |xs| ==> le(xs[i], xs[j])
  }

  function Insert<T>(le: (T, T) -> bool, x: T, xs: seq<T>): seq<T> {
    if xs == [] || le(x, xs[0]) then [x] + xs else [xs[0]] + Insert(le, x, xs[1..])
  }

  /** A stable sort: equal keys keep their order. */
  function Sort<T>(le: (T, T) -> bool, xs: seq<T>): seq<T> {
    if xs == [] then [] else Insert(le, xs[0], Sort(le, xs[1..]))
  }

  // ---- sorting values that not every comparison accepts ----

  function TryInsert<T>(le: (T, T) -> bool, comparable: (T, T) -> bool, x: T, xs: seq<T>): Option<seq<T>> {
    if xs == [] then Some([x])
    else if !comparable(x, xs[0]) then None
    else if le(x, xs[0]) then Some([x] + xs)
    else match TryInsert(le, comparable, x, xs[1..])
      case None => None
      case Some(ys) => Some([xs[0]] + ys)
  }

  /** The same sort, given up at the first pair it has to compare and cannot. */
  function TrySort<T>(le: (T, T) -> bool, comparable: (T, T) -> bool, xs: seq<T>): Option<seq<T>> {
    if xs == [] then Some([]) else
      match TrySort(le, comparable, xs[1..])
      case None => None
      case Some(ys) => TryInsert(le, comparable, xs[0], ys)
  }

  ghost predicate OneKind<T>(kind: T -> bool, xs: seq<T>) {
    forall x, y :: x in xs && y in xs ==> kind(x) == kind(y)
  }

  lemma {:induction false} TryInsertIff<T>(le: (T, T) -> bool, comparable: (T, T) -> bool, kind: T -> bool, x: T, xs: seq<T>)
    requires forall a, b :: comparable(a, b) <==> kind(a) == kind(b)
    requires OneKind(kind, xs)
    ensures TryInsert(le, comparable, x, xs) == if xs == [] || kind(x) == kind(xs[0]) then Some(Insert(le, x, xs)) else None
  {
    if xs == [] {
      assert [x] + xs == [x];
    } else {
      assert comparable(x, xs[0]) <==> kind(x) == kind(xs[0]);
      assert xs[0] in xs && forall a :: a in xs[1..] ==> a in xs;
      if |xs| > 1 { assert xs[1] in xs && xs[1..][0] == xs[1]; }
      TryInsertIff(le, comparable, kind, x, xs[1..]);
    }
  }

  /** When values of two kinds cannot be compared, sorting gives up exactly when both kinds are present. */
  lemma {:induction false} TrySortIff<T(!new)>(le: (T, T) -> bool, comparable: (T, T) -> bool, kind: T -> bool, xs: seq<T>)
    requires TotalPreorder(le) && forall a, b :: comparable(a, b) <==> kind(a) == kind(b)
    ensures TrySort(le, comparable, xs) == if OneKind(kind, xs) then Some(Sort(le, xs)) else None
  {
    if xs != [] {
      var rest := xs[1..];
      TrySortIff(le, comparable, kind, rest);
      SortSorts(le, rest);
      assert forall x :: x in xs <==> x == xs[0] || x in rest;
      if OneKind(kind, rest) {
        TryInsertIff(le, comparable, kind, xs[0], Sort(le, rest));
        if rest != [] { assert Sort(le, rest)[0] in Sort(le, rest); }
      }
    }
  }

  lemma {:induction false} InsertSorted<T(!new)>(le: (T, T) -> bool, x: T, xs: seq<T>)
    requires TotalPreorder(le) && SortedBy(le, xs)
    ensures SortedBy(le, Insert(le, x, xs))
    ensures multiset(Insert(le, x, xs)) == multiset(xs) + multiset{x}
  {
    if xs == [] {
    } else if le(x, xs[0]) {
      forall j | 0 <= j < |xs| ensures le(x, xs[j]) {
        if j > 0 { assert le(xs[0], xs[j]); }
      }
    } else {
      assert xs == [xs[0]] + xs[1..];
      InsertSorted(le, x, xs[1..]);
      var tail := Insert(le, x, xs[1..]);
      forall j | 0 <= j < |tail| ensures le(xs[0], tail[j]) {
        assert tail[j] in multiset(tail);
        if tail[j] != x {
          assert tail[j] in multiset(xs[1..]);
          assert tail[j] in xs[1..];
        }
      }
    }
  }

  lemma {:induction false} SortSorts<T(!new)>(le: (T, T) -> bool, xs: seq<T>)
    requires TotalPreorder(le)
    ensures SortedBy(le, Sort(le, xs))
    ensures multiset(Sort(le, xs)) == multiset(xs)
    ensures |Sort(le, xs)| == |xs|
    ensures forall x :: x in Sort(le, xs) <==> x in xs
  {
    if xs != [] {
      SortSorts(le, xs[1..]);
      InsertSorted(le, xs[0], Sort(le, xs[1..]));
      TailMultiset(xs);
    }
    SameMultisetSameMembers(Sort(le, xs), xs);
  }

  /** The first of a sorted list is least among its members. */
  lemma FirstIsLeast<T(!new)>(le: (T, T) -> bool, xs: seq<T>, x: T)
    requires TotalPreorder(le) && SortedBy(le, xs) && x in xs
    ensures le(xs[0], x)
  {
    var i :| 0 <= i < |xs| && xs[i] == x;
    if i == 0 { assert le(x, x) || le(x, x); }
  }

  lemma TailMultiset<T>(xs: seq<T>)
    requires xs != []
    ensures multiset(xs) == multiset{xs[0]} + multiset(xs[1..])
  {
    assert xs == [xs[0]] + xs[1..];
  }

  lemma SameMultisetSameMembers<T>(xs: seq<T>, ys: seq<T>)
    requires multiset(xs) == multiset(ys)
    ensures |xs| == |ys| && forall x :: x in xs <==> x in ys
  {
    assert |multiset(xs)| == |multiset(ys)|;
    forall x ensures x in xs <==> x in ys {
      assert x in multiset(xs) <==> x in multiset(ys);
    }
  }

  /** There is one way to put a bag of values in order. */
  lemma {:induction false} SortedUnique<T(!new)>(le: (T, T) -> bool, xs: seq<T>, ys: seq<T>)
    requires TotalPreorder(le) && Antisymmetric(le)
    requires SortedBy(le, xs) && SortedBy(le, ys) && multiset(xs) == multiset(ys)
    ensures xs == ys
  {
    SameMultisetSameMembers(xs, ys);
    if xs != [] {
      FirstIsLeast(le, xs, ys[0]);
      FirstIsLeast(le, ys, xs[0]);
      TailMultiset(xs);
      TailMultiset(ys);
      assert multiset(xs[1..]) == multiset(xs) - multiset{xs[0]};
      assert multiset(ys[1..]) == multiset(xs) - multiset{xs[0]};
      TailSorted(le, xs);
      TailSorted(le, ys);
      SortedUnique(le, xs[1..], ys[1..]);
      assert xs == [xs[0]] + xs[1..] && ys == [ys[0]] + ys[1..];
    }
  }

  lemma TailSorted<T>(le: (T, T) -> bool, xs: seq<T>)
    requires SortedBy(le, xs) && xs != []
    ensures SortedBy(le, xs[1..])
  {
  }

  lemma SortOfPermutation<T(!new)>(le: (T, T) -> bool, xs: seq<T>, ys: seq<T>)
    requires TotalPreorder(le) && Antisymmetric(le)
    requires multiset(xs) == multiset(ys)
    ensures Sort(le, xs) == Sort(le, ys)
  {
    SortSorts(le, xs);
    SortSorts(le, ys);
    SortedUnique(le, Sort(le, xs), Sort(le, ys));
  }

  lemma {:induction false} DistinctMultiset<T>(xs: seq<T>)
    requires Distinct(xs)
    ensures multiset(xs) == multiset(Elements(xs))
  {
    if xs == [] {
      assert Elements(xs) == {};
    } else {
      var init, last := xs[..|xs| - 1], xs[|xs| - 1];
      DistinctMultiset(init);
      assert xs == init + [last];
      assert Elements(xs) == Elements(init) + {last};
      assert last !in init;
    }
  }

  lemma {:induction false} MultisetDistinct<T>(xs: seq<T>)
    requires forall x :: x in xs ==> multiset(xs)[x] == 1
    ensures Distinct(xs)
  {
    forall i, j | 0 <= i < j < |xs| ensures xs[i] != xs[j] {
      assert xs == xs[..i] + [xs[i]] + xs[i + 1..j] + [xs[j]] + xs[j + 1..];
      assert xs[i] in xs;
    }
  }

  // ---- the ordered listing of a set of ids ----

  ghost function Listing(ids: set<string>): (xs: seq<string>) {
    if ids == {} then [] else
      var x := Pick(ids);
      Insert(STRING_ORDER, x, Listing(ids - {x}))
  }

  lemma {:induction false} ListingSorted(ids: set<string>)
    ensures SortedBy(STRING_ORDER, Listing(ids)) && multiset(Listing(ids)) == multiset(ids)
    ensures Distinct(Listing(ids)) && Elements(Listing(ids)) == ids
  {
    if ids != {} {
      var x := Pick(ids);
      ListingSorted(ids - {x});
      StringOrderIsTotal();
      InsertSorted(STRING_ORDER, x, Listing(ids - {x}));
      assert multiset(ids) == multiset(ids - {x}) + multiset{x};
    }
    ListsSet(Listing(ids), ids);
  }

  lemma ListsSet<T>(xs: seq<T>, ids: set<T>)
    requires multiset(xs) == multiset(ids)
    ensures Distinct(xs) && Elements(xs) == ids
  {
    forall y ensures y in xs <==> y in ids { assert y in multiset(xs) <==> y in multiset(ids); }
    MultisetDistinct(xs);
  }

  lemma ListingUnique(ids: set<string>, xs: seq<string>)
    requires SortedBy(STRING_ORDER, xs) && Distinct(xs) && Elements(xs) == ids
    ensures xs == Listing(ids)
  {
    StringOrderIsTotal();
    ListingSorted(ids);
    DistinctMultiset(xs);
    SortedUnique(STRING_ORDER, xs, Listing(ids));
  }
}
