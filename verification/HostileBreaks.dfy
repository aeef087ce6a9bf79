/** The treaties that a tick's accepted movements break: which ones, by whom, and how it is announced. */
module HostileBreaks {
  import opened Collections
  import opened Ordering
  import opened Domain
  import opened Casualties
  import Validation
  import opened ValidationFacts
  import opened RecordTypes
  import opened TreatyRules

  // ---- who attacks whom ----

  /** Owners of armies standing in a city; armies under way are nowhere. */
  ghost function OccupantsOf(s: Snapshot, c: CityId): set<PlayerId> {
    set a | a in s.armies && a.location == Some(c) && a.destination == None :: a.owner
  }

  ghost function DefendersOf(s: Snapshot, attacker: PlayerId, c: CityId): set<PlayerId>
    requires c in s.cities
  {
    OccupantsOf(s, c) + (if s.cities[c].owner.Some? then {s.cities[c].owner.value} else {}) - {attacker}
  }

  function AttackBy(attacker: PlayerId): PlayerId -> Option<Attack> {
    (d: PlayerId) => Some(Attack(attacker, d))
  }

  ghost function AttacksByOrder(s: Snapshot, o: MovementOrder): seq<Attack> {
    match Validation.FindArmy(s.armies, o.armyId)
    case None => []
    case Some(a) =>
      if o.destination !in s.cities then []
      else FilterMap(AttackBy(a.owner), Listing(DefendersOf(s, a.owner, o.destination)))
  }

  ghost function AttacksOf(s: Snapshot, movements: seq<MovementOrder>): seq<Attack> {
    if movements == [] then []
    else AttacksOf(s, movements[..|movements| - 1]) + AttacksByOrder(s, movements[|movements| - 1])
  }

  /** An accepted movement sends one of the attacker's armies to a known city the defender owns or occupies. */
  ghost predicate OrderedAgainst(s: Snapshot, o: MovementOrder, h: Attack) {
    && o.destination in s.cities && h.defender != h.attacker
    && (s.cities[o.destination].owner == Some(h.defender)
        || exists b :: b in s.armies && b.owner == h.defender && b.location == Some(o.destination) && b.destination == None)
    && exists a :: a in s.armies && a.id == o.armyId && a.owner == h.attacker
  }

  lemma AttackedByOrder(s: Snapshot, o: MovementOrder, h: Attack)
    requires UniqueIds(s.armies)
    ensures h in AttacksByOrder(s, o) <==> OrderedAgainst(s, o, h)
  {
    ArmyFound(s.armies, o.armyId);
    match Validation.FindArmy(s.armies, o.armyId)
    case None =>
    case Some(a) =>
      if o.destination in s.cities {
        var ids := Listing(DefendersOf(s, a.owner, o.destination));
        ListingSorted(DefendersOf(s, a.owner, o.destination));
        FilterMapMember(AttackBy(a.owner), ids, h);
        if h.attacker == a.owner && h.defender in Elements(ids) {
          assert AttackBy(a.owner)(h.defender) == Some(h);
        }
        if h in AttacksByOrder(s, o) {
          var d :| d in ids && AttackBy(a.owner)(d) == Some(h);
          assert d in Elements(ids);
        }
      }
  }

  lemma {:induction false} AttackedIff(s: Snapshot, movements: seq<MovementOrder>, h: Attack)
    requires UniqueIds(s.armies)
    ensures h in AttacksOf(s, movements) <==> exists o :: o in movements && OrderedAgainst(s, o, h)
  {
    if movements != [] {
      var init, last := movements[..|movements| - 1], movements[|movements| - 1];
      AttackedIff(s, init, h);
      AttackedByOrder(s, last, h);
      assert movements == init + [last];
    }
  }

  // ---- what reconciliation does to the treaties ----

  ghost function Reconciled(treaties: seq<Treaty>, s: Snapshot, movements: seq<MovementOrder>): seq<Treaty> {
    AllBrokenBy(treaties, AttacksOf(s, movements), s.tick)
  }

  /** After reconciliation no treaty in force joins an attacker with anyone it was sent against. */
  lemma NoTreatyWithTheAttacked(treaties: seq<Treaty>, s: Snapshot, movements: seq<MovementOrder>, o: MovementOrder, h: Attack, i: nat)
    requires UniqueIds(s.armies) && o in movements && OrderedAgainst(s, o, h) && i < |treaties|
    ensures Reconciled(treaties, s, movements)[i].status.Active? ==> !Hits(Reconciled(treaties, s, movements)[i], h)
  {
    AttackedIff(s, movements, h);
    var attacks := AttacksOf(s, movements);
    var k := FirstAttackBreaks(treaties[i], attacks, s.tick);
    var j :| 0 <= j < |attacks| && attacks[j] == h;
    if Hits(treaties[i], h) { assert Hits(treaties[i], attacks[j]); }
  }

  /** The treaty is as it was, or it was in force and is now broken by h's attacker, on the matching side. */
  ghost predicate BrokenThrough(t: Treaty, u: Treaty, h: Attack, tick: nat) {
    && t.status.Active? && Hits(t, h)
    && u == t.(status := u.status, withdrawnBy := Some(h.attacker), withdrawnTick := Some(tick))
    && u.status == (if h.attacker == t.playerA then BrokenByA else BrokenByB)
    && (h.attacker == t.playerA || h.attacker == t.playerB)
  }

  /** Every treaty that reconciliation changes was broken by an accepted movement against its other party. */
  lemma BreaksAreEarned(treaties: seq<Treaty>, s: Snapshot, movements: seq<MovementOrder>, i: nat) returns (o: MovementOrder, h: Attack)
    requires UniqueIds(s.armies) && i < |treaties| && Reconciled(treaties, s, movements)[i] != treaties[i]
    ensures o in movements && OrderedAgainst(s, o, h)
    ensures BrokenThrough(treaties[i], Reconciled(treaties, s, movements)[i], h, s.tick)
  {
    var attacks := AttacksOf(s, movements);
    var k := FirstAttackBreaks(treaties[i], attacks, s.tick);
    h := attacks[k];
    PairInOrder(h.attacker, h.defender);
    AttackedIff(s, movements, h);
    o :| o in movements && OrderedAgainst(s, o, h);
  }

  // ---- announcements ----

  function BrokenText(h: Attack, kind: TreatyKind): string {
    "Treaty broken: " + h.attacker + " attacked " + h.defender + " and broke their " + KindName(kind) + " treaty."
  }

  function BreakNotice(h: Attack): Treaty -> Option<string> {
    (t: Treaty) => if Hits(t, h) && t.status.Active? then Some(BrokenText(h, t.kind)) else None
  }

  /** What is announced, attack by attack and treaty by treaty. */
  ghost function BreakNews(treaties: seq<Treaty>, attacks: seq<Attack>, tick: nat): seq<string> {
    if attacks == [] then [] else
      var init := attacks[..|attacks| - 1];
      BreakNews(treaties, init, tick) + FilterMap(BreakNotice(attacks[|attacks| - 1]), AllBrokenBy(treaties, init, tick))
  }

  function InForce(treaties: seq<Treaty>): nat {
    if treaties == [] then 0
    else InForce(treaties[..|treaties| - 1]) + if treaties[|treaties| - 1].status.Active? then 1 else 0
  }

  /** Exactly one announcement for every treaty that stops being in force. */
  lemma {:induction false} OneNoticePerBreak(treaties: seq<Treaty>, attacks: seq<Attack>, tick: nat)
    ensures InForce(treaties) == InForce(AllBrokenBy(treaties, attacks, tick)) + |BreakNews(treaties, attacks, tick)|
  {
    if attacks == [] {
      assert AllBrokenBy(treaties, attacks, tick) == treaties;
    } else {
      var init, h := attacks[..|attacks| - 1], attacks[|attacks| - 1];
      OneNoticePerBreak(treaties, init, tick);
      NoticesOfOne(AllBrokenBy(treaties, init, tick), h, tick);
      assert AllBrokenOnce(AllBrokenBy(treaties, init, tick), h, tick) == AllBrokenBy(treaties, attacks, tick);
    }
  }

  function AllBrokenOnce(treaties: seq<Treaty>, h: Attack, tick: nat): seq<Treaty> {
    seq(|treaties|, i requires 0 <= i < |treaties| => BrokenOnce(treaties[i], h, tick))
  }

  lemma {:induction false} NoticesOfOne(treaties: seq<Treaty>, h: Attack, tick: nat)
    ensures InForce(treaties) == InForce(AllBrokenOnce(treaties, h, tick)) + |FilterMap(BreakNotice(h), treaties)|
  {
    if treaties != [] {
      var init, after := treaties[..|treaties| - 1], AllBrokenOnce(treaties, h, tick);
      NoticesOfOne(init, h, tick);
      assert after[..|after| - 1] == AllBrokenOnce(init, h, tick);
    }
  }
}
