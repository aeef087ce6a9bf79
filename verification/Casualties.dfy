/** Largest-remainder sharing of one owner's losses over its armies in one city. */
module Casualties {
  import opened Collections
  import opened Ordering
  import opened Domain

  const TROOPS: Army -> int := (a: Army) => a.troops
  const ID_ORDER: (Army, Army) -> bool := (a: Army, b: Army) => StrLe(a.id, b.id)

  /** What decides who takes an extra loss: bigger remainder first, then smaller id. */
  datatype Entry = Entry(remainder: int, id: ArmyId)
  const ENTRY_ORDER: (Entry, Entry) -> bool :=
    (x: Entry, y: Entry) => x.remainder > y.remainder || (x.remainder == y.remainder && StrLe(x.id, y.id))

  ghost predicate UniqueIds(armies: seq<Army>) {
    forall i, j :: 0 <= i < j < |armies| ==> armies[i].id != armies[j].id
  }

  ghost predicate AllStanding(armies: seq<Army>) {
    forall a :: a in armies ==> 0 < a.troops
  }

  // ---- the shares, defined army by army ----

  /** The whole part and the remainder of each army's quota `total * troops / all`. */
  function Shares(total: int, all: int): Army -> (int, int) {
    (a: Army) => if all <= 0 then (0, 0) else ((total * a.troops) / all, (total * a.troops) % all)
  }

  function WholePart(shares: Army -> (int, int)): Army -> int {
    (a: Army) => shares(a).0
  }

  function EntryFrom(shares: Army -> (int, int)): Army -> Option<Entry> {
    (a: Army) => Some(Entry(shares(a).1, a.id))
  }

  function FloorShare(total: int, all: int): Army -> int {
    WholePart(Shares(total, all))
  }

  function RemainderShare(total: int, all: int): Army -> int {
    (a: Army) => Shares(total, all)(a).1
  }

  function EntryOf(total: int, all: int): Army -> Option<Entry> {
    EntryFrom(Shares(total, all))
  }

  function Before(e: Entry): Entry -> int {
    (x: Entry) => if x != e && ENTRY_ORDER(x, e) then 1 else 0
  }

  function ArmyBefore(total: int, all: int, a: Army): Army -> int {
    (b: Army) => Before(EntryOf(total, all)(a).value)(EntryOf(total, all)(b).value)
  }

  /** How many armies come before `a` in the queue for extra losses. */
  ghost function Rank(armies: seq<Army>, total: int, a: Army): int {
    SumBy(ArmyBefore(total, SumBy(TROOPS, armies), a), armies)
  }

  /** Losses left over once every army has taken the floor of its quota. */
  ghost function Leftover(armies: seq<Army>, total: int): int {
    total - SumBy(FloorShare(total, SumBy(TROOPS, armies)), armies)
  }

  ghost function Extra(armies: seq<Army>, total: int): Army -> int {
    (a: Army) => if Rank(armies, total, a) < Leftover(armies, total) then 1 else 0
  }

  /** The loss of one army: the floor of its quota, plus one for the first `Leftover` ranks. */
  ghost function Loss(armies: seq<Army>, total: int): Army -> int {
    (a: Army) => if total <= 0 || armies == [] then 0
      else FloorShare(total, SumBy(TROOPS, armies))(a) + Extra(armies, total)(a)
  }

  // ---- order facts ----

  lemma EntryOrderIsTotal()
    ensures TotalPreorder(ENTRY_ORDER) && Antisymmetric(ENTRY_ORDER)
  {
    StringOrderIsTotal();
    forall x: Entry, y: Entry ensures ENTRY_ORDER(x, y) || ENTRY_ORDER(y, x) {
      assert STRING_ORDER(x.id, y.id) || STRING_ORDER(y.id, x.id);
    }
    forall x: Entry, y: Entry | ENTRY_ORDER(x, y) && ENTRY_ORDER(y, x) ensures x == y {
      assert STRING_ORDER(x.id, y.id) && STRING_ORDER(y.id, x.id);
    }
    forall x: Entry, y: Entry, z: Entry | ENTRY_ORDER(x, y) && ENTRY_ORDER(y, z) ensures ENTRY_ORDER(x, z) {
      if x.remainder == z.remainder {
        assert STRING_ORDER(x.id, y.id) && STRING_ORDER(y.id, z.id);
        assert STRING_ORDER(x.id, z.id);
      }
    }
  }

  lemma IdOrderIsTotal()
    ensures TotalPreorder(ID_ORDER)
  {
    StringOrderIsTotal();
    forall x: Army, y: Army ensures ID_ORDER(x, y) || ID_ORDER(y, x) {
      assert STRING_ORDER(x.id, y.id) || STRING_ORDER(y.id, x.id);
    }
    forall x: Army, y: Army, z: Army | ID_ORDER(x, y) && ID_ORDER(y, z) ensures ID_ORDER(x, z) {
      assert STRING_ORDER(x.id, y.id) && STRING_ORDER(y.id, z.id);
      assert STRING_ORDER(x.id, z.id);
    }
  }

  lemma UniqueIdsPermute(xs: seq<Army>, ys: seq<Army>)
    requires UniqueIds(xs) && multiset(xs) == multiset(ys)
    ensures UniqueIds(ys)
  {
    assert Distinct(xs);
    DistinctMultiset(xs);
    assert forall y :: y in ys ==> y in multiset(ys);
    MultisetDistinct(ys);
    forall i, j | 0 <= i < j < |ys| ensures ys[i].id != ys[j].id {
      assert ys[i] in multiset(xs) && ys[j] in multiset(xs);
      assert ys[i] in xs && ys[j] in xs;
    }
  }

  // ---- the queue of entries and its ranks ----

  ghost predicate UniqueEntryIds(entries: seq<Entry>) {
    forall i, j :: 0 <= i < j < |entries| ==> entries[i].id != entries[j].id
  }

  lemma EntriesUnique(total: int, all: int, armies: seq<Army>)
    requires UniqueIds(armies)
    ensures |FilterMap(EntryOf(total, all), armies)| == |armies|
    ensures UniqueEntryIds(FilterMap(EntryOf(total, all), armies))
    ensures forall i :: 0 <= i < |armies| ==> FilterMap(EntryOf(total, all), armies)[i] == EntryOf(total, all)(armies[i]).value
  {
    FilterMapTotal(EntryOf(total, all), armies);
  }

  lemma SortedEntriesUnique(entries: seq<Entry>)
    requires UniqueEntryIds(entries)
    ensures UniqueEntryIds(Sort(ENTRY_ORDER, entries))
  {
    EntryOrderIsTotal();
    SortSorts(ENTRY_ORDER, entries);
    var sorted := Sort(ENTRY_ORDER, entries);
    assert Distinct(entries);
    DistinctMultiset(entries);
    assert forall x :: x in sorted ==> x in multiset(sorted);
    MultisetDistinct(sorted);
    forall i, j | 0 <= i < j < |sorted| ensures sorted[i].id != sorted[j].id {
      assert sorted[i] in entries && sorted[j] in entries;
    }
  }

  /** A 0/1 weight that is one exactly on the first k positions sums to k. */
  lemma {:induction false} PrefixCount(weight: Entry -> int, xs: seq<Entry>, k: nat)
    requires k <= |xs|
    requires forall j :: 0 <= j < |xs| ==> weight(xs[j]) == if j < k then 1 else 0
    ensures SumBy(weight, xs) == k
  {
    if xs != [] {
      var init := xs[..|xs| - 1];
      assert forall j :: 0 <= j < |init| ==> weight(init[j]) == weight(xs[j]);
      PrefixCount(weight, init, if k < |xs| then k else |xs| - 1);
    }
  }

  /** In the sorted queue the number of entries before an entry is its position. */
  lemma PositionIsCount(entries: seq<Entry>, k: nat)
    requires UniqueEntryIds(entries) && k < |entries|
    ensures |Sort(ENTRY_ORDER, entries)| == |entries|
    ensures SumBy(Before(Sort(ENTRY_ORDER, entries)[k]), entries) == k
  {
    var sorted := Sort(ENTRY_ORDER, entries);
    EntryOrderIsTotal();
    SortSorts(ENTRY_ORDER, entries);
    SortedEntriesUnique(entries);
    var e := sorted[k];
    forall j | 0 <= j < |sorted| ensures Before(e)(sorted[j]) == if j < k then 1 else 0 {
      if j < k {
        assert ENTRY_ORDER(sorted[j], e);
        assert sorted[j].id != sorted[k].id;
      } else if j > k {
        assert ENTRY_ORDER(e, sorted[j]);
        assert sorted[k].id != sorted[j].id;
      }
    }
    PrefixCount(Before(e), sorted, k);
    SumByMultiset(Before(e), sorted, entries);
  }

  /** The position of an army's entry in the sorted queue is the army's rank. */
  lemma PositionIsRank(armies: seq<Army>, ordered: seq<Army>, total: int, a: Army, k: nat)
    requires UniqueIds(armies) && multiset(ordered) == multiset(armies) && a in armies
    requires k < |armies|
    requires |Sort(ENTRY_ORDER, FilterMap(EntryOf(total, SumBy(TROOPS, armies)), ordered))| == |armies|
    requires Sort(ENTRY_ORDER, FilterMap(EntryOf(total, SumBy(TROOPS, armies)), ordered))[k]
          == EntryOf(total, SumBy(TROOPS, armies))(a).value
    ensures Rank(armies, total, a) == k
  {
    var all := SumBy(TROOPS, armies);
    var f := EntryOf(total, all);
    UniqueIdsPermute(armies, ordered);
    EntriesUnique(total, all, ordered);
    assert |multiset(ordered)| == |multiset(armies)|;
    PositionIsCount(FilterMap(f, ordered), k);
    SumByFilterMap(f, Before(f(a).value), ArmyBefore(total, all, a), ordered);
    SumByMultiset(ArmyBefore(total, all, a), ordered, armies);
  }

  /** Every army's entry stands somewhere in the sorted queue. */
  lemma PositionOf(armies: seq<Army>, ordered: seq<Army>, total: int, a: Army) returns (k: nat)
    requires UniqueIds(armies) && multiset(ordered) == multiset(armies) && a in armies
    ensures k < |armies|
    ensures var queue := Sort(ENTRY_ORDER, FilterMap(EntryOf(total, SumBy(TROOPS, armies)), ordered));
      |queue| == |armies| && queue[k] == EntryOf(total, SumBy(TROOPS, armies))(a).value
  {
    var f := EntryOf(total, SumBy(TROOPS, armies));
    UniqueIdsPermute(armies, ordered);
    EntriesUnique(total, SumBy(TROOPS, armies), ordered);
    assert |multiset(ordered)| == |multiset(armies)|;
    EntryOrderIsTotal();
    SortSorts(ENTRY_ORDER, FilterMap(f, ordered));
    assert a in multiset(ordered);
    var i :| 0 <= i < |ordered| && ordered[i] == a;
    assert FilterMap(f, ordered)[i] == f(a).value;
    assert f(a).value in Sort(ENTRY_ORDER, FilterMap(f, ordered));
    k :| 0 <= k < |armies| && Sort(ENTRY_ORDER, FilterMap(f, ordered))[k] == f(a).value;
  }

  // ---- arithmetic of quotas ----

  lemma QuotaSplit(total: int, all: int, a: Army)
    requires 0 < all
    ensures total * a.troops == all * FloorShare(total, all)(a) + RemainderShare(total, all)(a)
    ensures 0 <= RemainderShare(total, all)(a) < all
  {
  }

  /** The remainders of all armies make up exactly `Leftover` whole shares. */
  lemma {:induction false} QuotaSums(total: int, all: int, armies: seq<Army>)
    requires 0 < all
    ensures total * SumBy(TROOPS, armies)
         == all * SumBy(FloorShare(total, all), armies) + SumBy(RemainderShare(total, all), armies)
  {
    if armies != [] {
      var init, a := armies[..|armies| - 1], armies[|armies| - 1];
      QuotaSums(total, all, init);
      QuotaSplit(total, all, a);
      Distribute(total, SumBy(TROOPS, init), a.troops);
      Distribute(all, SumBy(FloorShare(total, all), init), FloorShare(total, all)(a));
    }
  }

  lemma Distribute(x: int, y: int, z: int)
    ensures x * (y + z) == x * y + x * z
  {
  }

  function NonZeroRemainder(total: int, all: int): Army -> int {
    (a: Army) => if RemainderShare(total, all)(a) != 0 then 1 else 0
  }

  lemma {:induction false} RemaindersBounded(total: int, all: int, armies: seq<Army>)
    requires 0 < all
    ensures 0 <= SumBy(RemainderShare(total, all), armies) <= all * SumBy(NonZeroRemainder(total, all), armies)
    ensures 0 <= SumBy(NonZeroRemainder(total, all), armies) <= |armies|
  {
    if armies != [] {
      var init, a := armies[..|armies| - 1], armies[|armies| - 1];
      RemaindersBounded(total, all, init);
      QuotaSplit(total, all, a);
      Distribute(all, SumBy(NonZeroRemainder(total, all), init), NonZeroRemainder(total, all)(a));
    }
  }

  lemma ProductOrder(x: int, y: int, z: int)
    requires 0 < x && x * y <= x * z
    ensures y <= z
  {
  }

  lemma AllPositive(armies: seq<Army>)
    requires AllStanding(armies) && armies != []
    ensures 0 < SumBy(TROOPS, armies)
    ensures forall a :: a in armies ==> a.troops <= SumBy(TROOPS, armies)
  {
    SumByNonNegative(TROOPS, armies);
    assert armies[0] in armies;
  }

  lemma LeftoverFromSums(total: int, all: int, floors: int, remainders: int, uneven: int)
    requires 0 < all && total * all == all * floors + remainders
    requires 0 <= remainders <= all * uneven
    ensures 0 <= total - floors <= uneven
  {
    Distribute(all, total - floors, floors);
    assert all * (total - floors) == remainders;
    ProductOrder(all, total - floors, uneven);
    ProductOrder(all, 0, total - floors);
  }

  /** One pass of extras is always enough, and only uneven quotas receive one. */
  lemma LeftoverBounds(armies: seq<Army>, total: int)
    requires AllStanding(armies) && armies != []
    ensures 0 <= Leftover(armies, total)
         <= SumBy(NonZeroRemainder(total, SumBy(TROOPS, armies)), armies) <= |armies|
  {
    var all := SumBy(TROOPS, armies);
    AllPositive(armies);
    QuotaSums(total, all, armies);
    RemaindersBounded(total, all, armies);
    LeftoverFromSums(total, all, SumBy(FloorShare(total, all), armies), SumBy(RemainderShare(total, all), armies),
      SumBy(NonZeroRemainder(total, all), armies));
  }

  function CountsBelow(limit: int, queue: seq<Entry>): Entry -> int {
    (e: Entry) => if SumBy(Before(e), queue) < limit then 1 else 0
  }

  /** Exactly `Leftover` armies take an extra loss. */
  lemma ExtrasCount(armies: seq<Army>, total: int)
    requires UniqueIds(armies) && AllStanding(armies) && armies != []
    ensures SumBy(Extra(armies, total), armies) == Leftover(armies, total)
  {
    var all, limit := SumBy(TROOPS, armies), Leftover(armies, total);
    var f := EntryOf(total, all);
    var entries := FilterMap(f, armies);
    EntriesUnique(total, all, armies);
    LeftoverBounds(armies, total);
    EntryOrderIsTotal();
    SortSorts(ENTRY_ORDER, entries);
    var queue := Sort(ENTRY_ORDER, entries);
    var weight := CountsBelow(limit, entries);
    forall j | 0 <= j < |queue| ensures weight(queue[j]) == if j < limit then 1 else 0 {
      PositionIsCount(entries, j);
    }
    PrefixCount(weight, queue, limit);
    SumByMultiset(weight, queue, entries);
    forall a | a in armies ensures Extra(armies, total)(a) == weight(f(a).value) {
      SumByFilterMap(f, Before(f(a).value), ArmyBefore(total, all, a), armies);
    }
    SumByFilterMap(f, weight, Extra(armies, total), armies);
  }

  /** Nobody loses anything it does not have, and nothing is lost twice. */
  lemma LossesExact(armies: seq<Army>, total: int)
    requires UniqueIds(armies) && AllStanding(armies)
    requires 0 <= total <= SumBy(TROOPS, armies)
    ensures SumBy(Loss(armies, total), armies) == total
  {
    if total > 0 {
      var all := SumBy(TROOPS, armies);
      ExtrasCount(armies, total);
      SumByAdd(Loss(armies, total), FloorShare(total, all), Extra(armies, total), armies);
    } else {
      SumByCongruent(Loss(armies, total), NO_LOSS, armies);
      SumOfNoLoss(armies);
    }
  }

  const NO_LOSS: Army -> int := (a: Army) => 0

  lemma {:induction false} SumOfNoLoss(armies: seq<Army>)
    ensures SumBy(NO_LOSS, armies) == 0
  {
    if armies != [] { SumOfNoLoss(armies[..|armies| - 1]); }
  }

  /** A loss is the floor or the ceiling of the exact quota `total * troops / all`. */
  lemma LossNearQuota(armies: seq<Army>, total: int, a: Army)
    requires UniqueIds(armies) && AllStanding(armies) && a in armies && 0 < total
    ensures var all := SumBy(TROOPS, armies);
      total * a.troops - all < all * Loss(armies, total)(a) < total * a.troops + all
  {
    var all := SumBy(TROOPS, armies);
    AllPositive(armies);
    QuotaSplit(total, all, a);
    if Extra(armies, total)(a) == 1 {
      ExtraNeedsRemainder(armies, total, a);
      Distribute(all, FloorShare(total, all)(a), 1);
    }
  }

  lemma ExtraNeedsRemainder(armies: seq<Army>, total: int, a: Army)
    requires UniqueIds(armies) && AllStanding(armies) && a in armies
    requires Extra(armies, total)(a) == 1
    ensures RemainderShare(total, SumBy(TROOPS, armies))(a) != 0
  {
    var all := SumBy(TROOPS, armies);
    if RemainderShare(total, all)(a) == 0 {
      AllPositive(armies);
      forall b | b in armies ensures NonZeroRemainder(total, all)(b) <= ArmyBefore(total, all, a)(b) {
        ZeroRemainderLast(total, all, a, b);
      }
      SumByBounds(NonZeroRemainder(total, all), ArmyBefore(total, all, a), armies);
      LeftoverBounds(armies, total);
    }
  }

  lemma ZeroRemainderLast(total: int, all: int, a: Army, b: Army)
    requires 0 < all && RemainderShare(total, all)(a) == 0
    ensures NonZeroRemainder(total, all)(b) <= ArmyBefore(total, all, a)(b)
  {
    QuotaSplit(total, all, b);
    var ea, eb := EntryOf(total, all)(a).value, EntryOf(total, all)(b).value;
    if NonZeroRemainder(total, all)(b) == 1 {
      assert eb.remainder > ea.remainder;
      assert ENTRY_ORDER(eb, ea);
      assert Before(ea)(eb) == 1;
    }
  }

  /** No army loses more than it has. */
  lemma LossAffordable(armies: seq<Army>, total: int, a: Army)
    requires UniqueIds(armies) && AllStanding(armies) && a in armies
    requires total <= SumBy(TROOPS, armies)
    ensures 0 <= Loss(armies, total)(a) <= a.troops
  {
    if 0 < total {
      LossNearQuota(armies, total, a);
      AllPositive(armies);
      QuotaBound(total, SumBy(TROOPS, armies), a.troops, Loss(armies, total)(a));
    }
  }

  lemma QuotaBound(total: int, all: int, troops: int, loss: int)
    requires 0 < total <= all && 0 < troops
    requires total * troops - all < all * loss < total * troops + all
    ensures 0 <= loss <= troops
  {
    if loss < 0 {
      Distribute(all, loss + 1, -1);
      ProductSign(all, -(loss + 1));
      ProductSign(total, troops);
      assert false;
    }
    if loss > troops {
      Distribute(all, loss - troops - 1, troops + 1);
      ProductSign(all, loss - troops - 1);
      Distribute(all, troops, 1);
      Distribute(troops, all - total, total);
      ProductSign(all - total, troops);
      assert false;
    }
  }

  lemma ProductSign(x: int, y: int)
    requires 0 <= x && 0 <= y
    ensures 0 <= x * y
  {
  }

  /** Extras go to the largest remainders, ties to the smaller id. */
  lemma ExtrasByRemainder(armies: seq<Army>, total: int, a: Army, b: Army)
    requires UniqueIds(armies) && a in armies && b in armies
    requires Extra(armies, total)(a) == 1 && Extra(armies, total)(b) == 0
    ensures var all := SumBy(TROOPS, armies);
      RemainderShare(total, all)(a) > RemainderShare(total, all)(b)
      || (RemainderShare(total, all)(a) == RemainderShare(total, all)(b) && StrLe(a.id, b.id))
  {
    var all := SumBy(TROOPS, armies);
    var ea, eb := EntryOf(total, all)(a).value, EntryOf(total, all)(b).value;
    EntryOrderIsTotal();
    if !ENTRY_ORDER(ea, eb) {
      assert ENTRY_ORDER(eb, ea);
      forall x | x in armies ensures ArmyBefore(total, all, b)(x) <= ArmyBefore(total, all, a)(x) {
        var ex := EntryOf(total, all)(x).value;
        if ENTRY_ORDER(ex, eb) { assert ENTRY_ORDER(ex, ea); }
      }
      SumByBounds(ArmyBefore(total, all, b), ArmyBefore(total, all, a), armies);
    }
  }

  /** What "largest remainder" asks of any sharing of `total` over the armies. */
  ghost predicate LargestRemainder(armies: seq<Army>, total: int, share: Army -> int) {
    var all := SumBy(TROOPS, armies);
    && SumBy(share, armies) == total
    && (forall a :: a in armies ==>
          share(a) == FloorShare(total, all)(a) || share(a) == FloorShare(total, all)(a) + 1)
    && (forall a, b :: a in armies && b in armies
          && share(a) == FloorShare(total, all)(a) + 1 && share(b) == FloorShare(total, all)(b)
          ==> ENTRY_ORDER(EntryOf(total, all)(a).value, EntryOf(total, all)(b).value))
  }

  /** The rule leaves no choice: every sharing that meets it is `Loss`. */
  lemma LargestRemainderUnique(armies: seq<Army>, total: int, share: Army -> int)
    requires UniqueIds(armies) && AllStanding(armies) && 0 < total <= SumBy(TROOPS, armies)
    ensures LargestRemainder(armies, total, Loss(armies, total))
    ensures LargestRemainder(armies, total, share) ==> forall a :: a in armies ==> share(a) == Loss(armies, total)(a)
  {
    LossIsLargestRemainder(armies, total);
    if LargestRemainder(armies, total, share) {
      forall a | a in armies ensures share(a) == Loss(armies, total)(a) {
        if share(a) > Loss(armies, total)(a) {
          var b := SmallerSomewhere(armies, Loss(armies, total), share, a);
          Disagree(armies, total, a, b);
        } else if share(a) < Loss(armies, total)(a) {
          var b := SmallerSomewhere(armies, share, Loss(armies, total), a);
          Disagree(armies, total, b, a);
        }
      }
    }
  }

  lemma LossIsLargestRemainder(armies: seq<Army>, total: int)
    requires UniqueIds(armies) && AllStanding(armies) && 0 < total <= SumBy(TROOPS, armies)
    ensures LargestRemainder(armies, total, Loss(armies, total))
  {
    var all, share := SumBy(TROOPS, armies), Loss(armies, total);
    LossesExact(armies, total);
    forall a, b | a in armies && b in armies
      && share(a) == FloorShare(total, all)(a) + 1 && share(b) == FloorShare(total, all)(b)
      ensures ENTRY_ORDER(EntryOf(total, all)(a).value, EntryOf(total, all)(b).value)
    {
      ExtrasByRemainder(armies, total, a, b);
    }
  }

  /** Two armies cannot each come before the other. */
  lemma Disagree(armies: seq<Army>, total: int, a: Army, b: Army)
    requires UniqueIds(armies) && a in armies && b in armies && a != b
    ensures var all := SumBy(TROOPS, armies);
      !(ENTRY_ORDER(EntryOf(total, all)(a).value, EntryOf(total, all)(b).value)
        && ENTRY_ORDER(EntryOf(total, all)(b).value, EntryOf(total, all)(a).value))
  {
    EntryOrderIsTotal();
  }

  /** Equal totals: what is more here is less elsewhere. */
  lemma SmallerSomewhere(armies: seq<Army>, low: Army -> int, high: Army -> int, a: Army) returns (b: Army)
    requires SumBy(low, armies) == SumBy(high, armies) && a in armies && low(a) < high(a)
    ensures b in armies && high(b) < low(b)
  {
    if forall x :: x in armies ==> low(x) <= high(x) {
      StrictSum(low, high, armies, a);
    }
    b :| b in armies && high(b) < low(b);
  }

  lemma {:induction false} StrictSum(low: Army -> int, high: Army -> int, xs: seq<Army>, a: Army)
    requires forall x :: x in xs ==> low(x) <= high(x)
    requires a in xs && low(a) < high(a)
    ensures SumBy(low, xs) < SumBy(high, xs)
  {
    var init, last := xs[..|xs| - 1], xs[|xs| - 1];
    assert last in xs;
    SumByBounds(low, high, init);
    if a != last { StrictSum(low, high, init, a); }
  }

  // ---- the loop the engine runs ----

  ghost function LossById(armies: seq<Army>, total: int): map<ArmyId, int>
    requires UniqueIds(armies)
  {
    map a | a in armies && 0 < Loss(armies, total)(a) :: a.id := Loss(armies, total)(a)
  }

  /** Floors first, then one sorted pass of extras; armies that lose nothing are left out. */
  method AllocateProportionalCasualties(armies: seq<Army>, total: int) returns (losses: map<ArmyId, int>)
    requires UniqueIds(armies) && AllStanding(armies)
    ensures losses == LossById(armies, total)
  {
    if total <= 0 || armies == [] {
      return map[];
    }
    var all := SumBy(TROOPS, armies);
    AllPositive(armies);
    IdOrderIsTotal();
    SortSorts(ID_ORDER, armies);
    var ordered := Sort(ID_ORDER, armies);
    UniqueIdsPermute(armies, ordered);
    var casualties, remainders, floored := AllocateFloors(ordered, Shares(total, all));
    SumByMultiset(FloorShare(total, all), ordered, armies);
    casualties := AllocateExtras(armies, ordered, total, casualties, remainders, total - floored);
    losses := map id | id in casualties && 0 < casualties[id] :: casualties[id];
    LossByIdFrom(armies, total, casualties);
  }

  lemma LossByIdFrom(armies: seq<Army>, total: int, casualties: map<ArmyId, int>)
    requires UniqueIds(armies)
    requires casualties.Keys == Ids(armies)
    requires forall a :: a in armies ==> casualties[a.id] == Loss(armies, total)(a)
    ensures LossById(armies, total) == map id | id in casualties && 0 < casualties[id] :: casualties[id]
  {
  }

  ghost function Ids(armies: seq<Army>): set<ArmyId> {
    set a | a in armies :: a.id
  }

  /** The pass over the ordered armies: book whole parts, queue remainders. */
  method AllocateFloors(ordered: seq<Army>, shares: Army -> (int, int))
    returns (casualties: map<ArmyId, int>, remainders: seq<Entry>, floored: int)
    requires UniqueIds(ordered)
    ensures casualties.Keys == Ids(ordered)
    ensures forall a :: a in ordered ==> casualties[a.id] == WholePart(shares)(a)
    ensures remainders == FilterMap(EntryFrom(shares), ordered)
    ensures floored == SumBy(WholePart(shares), ordered)
  {
    casualties := map a | a in ordered :: a.id := 0;
    remainders := [];
    floored := 0;
    var i := 0;
    while i < |ordered|
      invariant 0 <= i <= |ordered|
      invariant casualties == Booked(ordered, shares, i)
      invariant remainders == FilterMap(EntryFrom(shares), ordered[..i])
      invariant floored == SumBy(WholePart(shares), ordered[..i])
    {
      var army := ordered[i];
      var (losses, remainder) := shares(army);
      casualties := casualties[army.id := losses];
      floored := floored + losses;
      remainders := remainders + [Entry(remainder, army.id)];
      FilterMapStep(EntryFrom(shares), ordered, i);
      SumByStep(WholePart(shares), ordered, i);
      i := i + 1;
    }
    assert ordered[..i] == ordered;
    BookedAll(ordered, shares, i);
  }

  /** The ledger once the first i armies are booked. */
  ghost function Booked(ordered: seq<Army>, shares: Army -> (int, int), i: nat): map<ArmyId, int>
    requires i <= |ordered|
  {
    if i == 0 then map a | a in ordered :: a.id := 0
    else Booked(ordered, shares, i - 1)[ordered[i - 1].id := shares(ordered[i - 1]).0]
  }

  lemma {:induction false} BookedAll(ordered: seq<Army>, shares: Army -> (int, int), i: nat)
    requires UniqueIds(ordered) && i <= |ordered|
    ensures Booked(ordered, shares, i).Keys == Ids(ordered)
    ensures forall j :: 0 <= j < i ==> Booked(ordered, shares, i)[ordered[j].id] == WholePart(shares)(ordered[j])
  {
    if i > 0 { BookedAll(ordered, shares, i - 1); }
  }

  ghost predicate ExtrasGiven(floors: map<ArmyId, int>, casualties: map<ArmyId, int>, queue: seq<Entry>, k: int)
    requires floors.Keys == casualties.Keys
    requires forall j :: 0 <= j < |queue| ==> queue[j].id in floors
  {
    forall j :: 0 <= j < |queue| ==> casualties[queue[j].id] == floors[queue[j].id] + if j < k then 1 else 0
  }

  /** The pass of extras, stopping when nothing is left to hand out. */
  method AllocateExtras(armies: seq<Army>, ghost ordered: seq<Army>, ghost total: int,
                        floors: map<ArmyId, int>, remainders: seq<Entry>, leftover: int)
    returns (casualties: map<ArmyId, int>)
    requires UniqueIds(armies) && AllStanding(armies) && armies != [] && 0 < total
    requires multiset(ordered) == multiset(armies)
    requires remainders == FilterMap(EntryOf(total, SumBy(TROOPS, armies)), ordered)
    requires leftover == Leftover(armies, total)
    requires floors.Keys == Ids(armies)
    requires forall a :: a in armies ==> floors[a.id] == FloorShare(total, SumBy(TROOPS, armies))(a)
    ensures casualties.Keys == floors.Keys
    ensures forall a :: a in armies ==> casualties[a.id] == Loss(armies, total)(a)
  {
    casualties := floors;
    var remaining := leftover;
    var queue := Sort(ENTRY_ORDER, remainders);
    QueueFacts(armies, ordered, total);
    LeftoverBounds(armies, total);
    var k := 0;
    while k < |queue| && 0 < remaining
      invariant 0 <= k <= |queue|
      invariant remaining == leftover - k >= 0
      invariant casualties.Keys == floors.Keys
      invariant ExtrasGiven(floors, casualties, queue, k)
    {
      var id := queue[k].id;
      casualties := casualties[id := casualties[id] + 1];
      remaining := remaining - 1;
      k := k + 1;
    }
    forall a | a in armies ensures casualties[a.id] == Loss(armies, total)(a) {
      ExtrasAreLosses(armies, ordered, total, floors, casualties, k, a);
    }
  }

  lemma ExtrasAreLosses(armies: seq<Army>, ordered: seq<Army>, total: int, floors: map<ArmyId, int>,
                        casualties: map<ArmyId, int>, k: int, a: Army)
    requires UniqueIds(armies) && a in armies && 0 < total
    requires multiset(ordered) == multiset(armies)
    requires floors.Keys == Ids(armies) == casualties.Keys
    requires floors[a.id] == FloorShare(total, SumBy(TROOPS, armies))(a)
    requires var queue := Sort(ENTRY_ORDER, FilterMap(EntryOf(total, SumBy(TROOPS, armies)), ordered));
      && (forall j :: 0 <= j < |queue| ==> queue[j].id in floors)
      && ExtrasGiven(floors, casualties, queue, k)
    requires k == Leftover(armies, total)
    ensures casualties[a.id] == Loss(armies, total)(a)
  {
    var j := PositionOf(armies, ordered, total, a);
    PositionIsRank(armies, ordered, total, a, j);
  }

  lemma QueueFacts(armies: seq<Army>, ordered: seq<Army>, total: int)
    requires UniqueIds(armies) && multiset(ordered) == multiset(armies)
    ensures var queue := Sort(ENTRY_ORDER, FilterMap(EntryOf(total, SumBy(TROOPS, armies)), ordered));
      |queue| == |armies| && UniqueEntryIds(queue)
      && forall j :: 0 <= j < |queue| ==> queue[j].id in Ids(armies)
  {
    var f := EntryOf(total, SumBy(TROOPS, armies));
    var entries := FilterMap(f, ordered);
    UniqueIdsPermute(armies, ordered);
    EntriesUnique(total, SumBy(TROOPS, armies), ordered);
    assert |multiset(ordered)| == |multiset(armies)|;
    EntryOrderIsTotal();
    SortSorts(ENTRY_ORDER, entries);
    SortedEntriesUnique(entries);
    var queue := Sort(ENTRY_ORDER, entries);
    forall j | 0 <= j < |queue| ensures queue[j].id in Ids(armies) {
      assert queue[j] in entries;
      FilterMapMember(f, ordered, queue[j]);
      var a :| a in ordered && f(a) == Some(queue[j]);
      assert a in multiset(armies);
      assert a in armies && a.id == queue[j].id;
    }
  }
}
