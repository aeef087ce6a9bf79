/** The announcements of a tick: whose they are, and when their order depends on how the queue was interleaved. */
module Announcements {
  import opened Collections
  import opened Ordering
  import opened Domain
  import opened Casualties
  import opened Submissions
  import opened OrderIndependence
  import opened RecordTypes
  import opened TreatyRules
  import opened HostileBreaks
  import opened RecordSteps
  import opened BlameOrder
  import opened HarnessOrders
  import opened Routes
  import Validation

  // ---- every ended treaty has its own announcement ----

  function FirstCrossing(t: Treaty, attacks: seq<Attack>): Option<Attack> {
    if attacks == [] then None else
      match FirstCrossing(t, attacks[..|attacks| - 1])
      case Some(h) => Some(h)
      case None => if Hits(t, attacks[|attacks| - 1]) then Some(attacks[|attacks| - 1]) else None
  }

  /** The text that announces a treaty's end, if it ends: it names the first attack that crosses it. */
  function NoticeOf(attacks: seq<Attack>): Treaty -> Option<string> {
    (t: Treaty) =>
      if !t.status.Active? then None else
        match FirstCrossing(t, attacks)
        case None => None
        case Some(h) => Some(BrokenText(h, t.kind))
  }

  lemma {:induction false} BrokenAsCrossed(t: Treaty, attacks: seq<Attack>, tick: nat)
    ensures BrokenBy(t, attacks, tick) == match FirstCrossing(t, attacks) { case None => t case Some(h) => BrokenOnce(t, h, tick) }
    ensures FirstCrossing(t, attacks).Some? ==> FirstCrossing(t, attacks).value in attacks && Hits(t, FirstCrossing(t, attacks).value)
    ensures FirstCrossing(t, attacks).Some? <==> Crossed(t, attacks)
  {
    if attacks != [] {
      var init, h := attacks[..|attacks| - 1], attacks[|attacks| - 1];
      BrokenAsCrossed(t, init, tick);
      assert attacks == init + [h];
      if Crossed(t, init) {
        var k :| 0 <= k < |init| && Hits(t, init[k]);
        assert Hits(t, attacks[k]);
      }
    }
  }

  /** One more attack adds the text of a treaty exactly if it is in force and crossed for the first time. */
  lemma NoticeStep(t: Treaty, init: seq<Attack>, h: Attack, tick: nat)
    ensures NoticeOf(init)(t).Some? ==> BreakNotice(h)(BrokenBy(t, init, tick)) == None && NoticeOf(init + [h])(t) == NoticeOf(init)(t)
    ensures NoticeOf(init)(t) == None ==> NoticeOf(init + [h])(t) == BreakNotice(h)(BrokenBy(t, init, tick))
  {
    BrokenAsCrossed(t, init, tick);
    assert (init + [h])[..|init + [h]| - 1] == init;
  }

  lemma {:induction false} NoticesStep(treaties: seq<Treaty>, init: seq<Attack>, h: Attack, tick: nat)
    ensures multiset(FilterMap(NoticeOf(init + [h]), treaties))
      == multiset(FilterMap(NoticeOf(init), treaties)) + multiset(FilterMap(BreakNotice(h), AllBrokenBy(treaties, init, tick)))
  {
    if treaties != [] {
      var rest, t := treaties[..|treaties| - 1], treaties[|treaties| - 1];
      NoticesStep(rest, init, h, tick);
      NoticeStep(t, init, h, tick);
      var broken := AllBrokenBy(treaties, init, tick);
      assert broken[..|broken| - 1] == AllBrokenBy(rest, init, tick);
    }
  }

  /** What a tick announces is, treaty by treaty, the one text of each treaty that it ends. */
  lemma {:induction false} AnnouncedAreTheirs(treaties: seq<Treaty>, attacks: seq<Attack>, tick: nat)
    ensures multiset(BreakNews(treaties, attacks, tick)) == multiset(FilterMap(NoticeOf(attacks), treaties))
  {
    if attacks == [] {
      NobodyCrossed(treaties);
    } else {
      var init, h := attacks[..|attacks| - 1], attacks[|attacks| - 1];
      AnnouncedAreTheirs(treaties, init, tick);
      NoticesStep(treaties, init, h, tick);
      assert attacks == init + [h];
    }
  }

  lemma {:induction false} NobodyCrossed(treaties: seq<Treaty>)
    ensures FilterMap(NoticeOf([]), treaties) == []
  {
    if treaties != [] { NobodyCrossed(treaties[..|treaties| - 1]); }
  }

  // ---- without a dispute the announcements are the same, whatever their order ----

  ghost function NewsAfter(treaties: seq<Treaty>, s: Snapshot, m: MapDefinition, queue: seq<OrderEnvelope>): seq<string> {
    BreakNews(treaties, AttacksOf(s, QueuedBatch(s, m, queue).movements), s.tick)
  }

  lemma UndisputedNotice(s: Snapshot, xs: seq<MovementOrder>, ys: seq<MovementOrder>, t: Treaty)
    requires UniqueIds(s.armies) && forall o :: o in xs <==> o in ys
    requires t.status.Active? ==> forall p, q :: !MarchBothWays(s, xs, t, p, q)
    ensures NoticeOf(AttacksOf(s, xs))(t) == NoticeOf(AttacksOf(s, ys))(t)
  {
    var gs, hs := AttacksOf(s, xs), AttacksOf(s, ys);
    forall h ensures h in gs <==> h in hs {
      AttackedIff(s, xs, h);
      AttackedIff(s, ys, h);
    }
    BrokenAsCrossed(t, gs, 0);
    BrokenAsCrossed(t, hs, 0);
    if Crossed(t, gs) { SameCrossing(t, gs, hs); }
    if Crossed(t, hs) { SameCrossing(t, hs, gs); }
    if t.status.Active? && Crossed(t, gs) {
      OneAttackCrosses(s, xs, t, FirstCrossing(t, gs).value, FirstCrossing(t, hs).value);
    }
  }

  /** Without a dispute every interleaving announces the same texts, each as often. */
  lemma UndisputedNewsIsSame(treaties: seq<Treaty>, s: Snapshot, m: MapDefinition, one: seq<OrderEnvelope>, other: seq<OrderEnvelope>)
    requires UniqueIds(s.armies) && SameSubmissions(one, other)
    requires !Disputed(treaties, s, QueuedBatch(s, m, one).movements)
    ensures multiset(NewsAfter(treaties, s, m, one)) == multiset(NewsAfter(treaties, s, m, other))
  {
    var xs, ys := QueuedBatch(s, m, one).movements, QueuedBatch(s, m, other).movements;
    SameMoves(s, m, one, other);
    AnnouncedAreTheirs(treaties, AttacksOf(s, xs), s.tick);
    AnnouncedAreTheirs(treaties, AttacksOf(s, ys), s.tick);
    forall t | t in treaties ensures NoticeOf(AttacksOf(s, xs))(t) == NoticeOf(AttacksOf(s, ys))(t) {
      UndisputedNotice(s, xs, ys, t);
    }
    FilterMapCongruent(NoticeOf(AttacksOf(s, xs)), NoticeOf(AttacksOf(s, ys)), treaties);
  }

  // ---- one aggressor: the order is fixed too ----

  /** The attack crosses some treaty in force. */
  ghost predicate BreaksPact(treaties: seq<Treaty>, h: Attack) {
    exists t :: t in treaties && t.status.Active? && Hits(t, h)
  }

  ghost function Breaking(treaties: seq<Treaty>): Attack -> bool {
    (h: Attack) => BreaksPact(treaties, h)
  }

  function LedBy(p: PlayerId): Attack -> bool {
    (h: Attack) => h.attacker == p
  }

  /** An accepted movement crosses a treaty in force, and h is the attack. */
  ghost predicate Aggression(treaties: seq<Treaty>, s: Snapshot, movements: seq<MovementOrder>, h: Attack) {
    BreaksPact(treaties, h) && exists o :: o in movements && OrderedAgainst(s, o, h)
  }

  /** All accepted movements that cross a treaty in force are one player's. */
  ghost predicate OneAggressor(treaties: seq<Treaty>, s: Snapshot, movements: seq<MovementOrder>) {
    forall g, h :: Aggression(treaties, s, movements, g) && Aggression(treaties, s, movements, h) ==> g.attacker == h.attacker
  }

  lemma HarmlessAttack(treaties: seq<Treaty>, init: seq<Attack>, h: Attack, tick: nat, i: nat)
    requires !BreaksPact(treaties, h) && i < |treaties|
    ensures BreakNotice(h)(BrokenBy(treaties[i], init, tick)) == None
    ensures BrokenOnce(BrokenBy(treaties[i], init, tick), h, tick) == BrokenBy(treaties[i], init, tick)
  {
    var k := FirstAttackBreaks(treaties[i], init, tick);
    assert treaties[i] in treaties;
  }

  lemma HarmlessNews(treaties: seq<Treaty>, init: seq<Attack>, h: Attack, tick: nat)
    requires !BreaksPact(treaties, h)
    ensures BreakNews(treaties, init + [h], tick) == BreakNews(treaties, init, tick)
    ensures AllBrokenBy(treaties, init + [h], tick) == AllBrokenBy(treaties, init, tick)
  {
    assert (init + [h])[..|init + [h]| - 1] == init;
    var broken := AllBrokenBy(treaties, init, tick);
    forall t | t in broken ensures BreakNotice(h)(t) == None {
      var i :| 0 <= i < |broken| && broken[i] == t;
      HarmlessAttack(treaties, init, h, tick, i);
    }
    NoneKept(BreakNotice(h), broken);
    forall i | 0 <= i < |treaties| ensures BrokenBy(treaties[i], init + [h], tick) == BrokenBy(treaties[i], init, tick) {
      HarmlessAttack(treaties, init, h, tick, i);
    }
  }

  lemma {:induction false} NoneKept<A, B>(f: A -> Option<B>, xs: seq<A>)
    requires forall x :: x in xs ==> f(x) == None
    ensures FilterMap(f, xs) == []
  {
    if xs != [] {
      assert xs[|xs| - 1] in xs;
      NoneKept(f, xs[..|xs| - 1]);
    }
  }

  lemma SameNewsStep(treaties: seq<Treaty>, gs: seq<Attack>, hs: seq<Attack>, h: Attack, tick: nat)
    requires BreakNews(treaties, gs, tick) == BreakNews(treaties, hs, tick)
    requires AllBrokenBy(treaties, gs, tick) == AllBrokenBy(treaties, hs, tick)
    ensures BreakNews(treaties, gs + [h], tick) == BreakNews(treaties, hs + [h], tick)
    ensures AllBrokenBy(treaties, gs + [h], tick) == AllBrokenBy(treaties, hs + [h], tick)
  {
    assert (gs + [h])[..|gs + [h]| - 1] == gs && (hs + [h])[..|hs + [h]| - 1] == hs;
    forall i | 0 <= i < |treaties| ensures BrokenBy(treaties[i], gs + [h], tick) == BrokenBy(treaties[i], hs + [h], tick) {
      assert AllBrokenBy(treaties, gs, tick)[i] == AllBrokenBy(treaties, hs, tick)[i];
    }
  }

  /** Only the attacks that cross a treaty in force make news. */
  lemma {:induction false} NewsOfBreaking(treaties: seq<Treaty>, attacks: seq<Attack>, tick: nat)
    ensures BreakNews(treaties, attacks, tick) == BreakNews(treaties, Filter(Breaking(treaties), attacks), tick)
    ensures AllBrokenBy(treaties, attacks, tick) == AllBrokenBy(treaties, Filter(Breaking(treaties), attacks), tick)
  {
    if attacks != [] {
      var init, h := attacks[..|attacks| - 1], attacks[|attacks| - 1];
      assert attacks == init + [h];
      NewsOfBreaking(treaties, init, tick);
      if BreaksPact(treaties, h) {
        SameNewsStep(treaties, init, Filter(Breaking(treaties), init), h, tick);
      } else {
        HarmlessNews(treaties, init, h, tick);
      }
    }
  }

  lemma OrderLedBy(s: Snapshot, o: MovementOrder, p: PlayerId)
    ensures Filter(LedBy(p), AttacksByOrder(s, o)) == if MovedBy(s)(p)(o) then AttacksByOrder(s, o) else []
  {
    var attacks := AttacksByOrder(s, o);
    forall h | h in attacks ensures LedBy(p)(h) <==> MovedBy(s)(p)(o) {
      var a := Validation.FindArmy(s.armies, o.armyId).value;
      FilterMapMember(AttackBy(a.owner), Listing(DefendersOf(s, a.owner, o.destination)), h);
    }
    if MovedBy(s)(p)(o) { FilterAll(LedBy(p), attacks); } else { FilterNone(LedBy(p), attacks); }
  }

  /** A player's attacks come from the player's own orders, in their order. */
  lemma {:induction false} AttacksLedBy(s: Snapshot, movements: seq<MovementOrder>, p: PlayerId)
    ensures Filter(LedBy(p), AttacksOf(s, movements)) == AttacksOf(s, Filter(MovedBy(s)(p), movements))
  {
    if movements != [] {
      var init, o := movements[..|movements| - 1], movements[|movements| - 1];
      AttacksLedBy(s, init, p);
      FilterConcat(LedBy(p), AttacksOf(s, init), AttacksByOrder(s, o));
      OrderLedBy(s, o, p);
      var kept := Filter(MovedBy(s)(p), init);
      assert (kept + [o])[..|kept + [o]| - 1] == kept;
    }
  }

  /** With one aggressor the news is that of the aggressor's own orders. */
  lemma NewsOfAggressor(treaties: seq<Treaty>, s: Snapshot, movements: seq<MovementOrder>, p: PlayerId)
    requires UniqueIds(s.armies) && forall h :: Aggression(treaties, s, movements, h) ==> h.attacker == p
    ensures BreakNews(treaties, AttacksOf(s, movements), s.tick)
      == BreakNews(treaties, Filter(Breaking(treaties), AttacksOf(s, Filter(MovedBy(s)(p), movements))), s.tick)
  {
    var attacks := AttacksOf(s, movements);
    NewsOfBreaking(treaties, attacks, s.tick);
    AttacksLedBy(s, movements, p);
    forall h | h in attacks ensures Breaking(treaties)(h) == (LedBy(p)(h) && Breaking(treaties)(h)) {
      AttackedIff(s, movements, h);
      if Breaking(treaties)(h) { assert Aggression(treaties, s, movements, h); }
    }
    FilterFilter(LedBy(p), Breaking(treaties), Breaking(treaties), attacks);
  }

  lemma SameAggressor(treaties: seq<Treaty>, s: Snapshot, xs: seq<MovementOrder>, ys: seq<MovementOrder>) returns (p: PlayerId)
    requires OneAggressor(treaties, s, xs) && forall o :: o in xs <==> o in ys
    ensures forall h :: Aggression(treaties, s, xs, h) ==> h.attacker == p
    ensures forall h :: Aggression(treaties, s, ys, h) ==> h.attacker == p
  {
    forall h ensures Aggression(treaties, s, ys, h) <==> Aggression(treaties, s, xs, h) { }
    if g :| Aggression(treaties, s, xs, g) { p := g.attacker; } else { p := ""; }
  }

  lemma OneAggressorFixesNews(treaties: seq<Treaty>, s: Snapshot, m: MapDefinition, one: seq<OrderEnvelope>, other: seq<OrderEnvelope>)
    requires UniqueIds(s.armies) && SameSubmissions(one, other)
    requires OneAggressor(treaties, s, QueuedBatch(s, m, one).movements)
    ensures NewsAfter(treaties, s, m, one) == NewsAfter(treaties, s, m, other)
  {
    var a, b := QueuedBatch(s, m, one), QueuedBatch(s, m, other);
    SameMoves(s, m, one, other);
    var p := SameAggressor(treaties, s, a.movements, b.movements);
    NewsOfAggressor(treaties, s, a.movements, p);
    NewsOfAggressor(treaties, s, b.movements, p);
    QueuedSameParts(s, m, one, other);
    SamePartsByKind(s, a, b);
    assert Filter(MovedBy(s)(p), a.movements) == Filter(MovedBy(s)(p), b.movements);
  }

  // ---- two aggressors: whoever is moved to the front is announced first ----

  lemma {:induction false} NewsInOrder(treaties: seq<Treaty>, first: seq<Attack>, all: seq<Attack>, tick: nat)
    requires first <= all
    ensures BreakNews(treaties, first, tick) <= BreakNews(treaties, all, tick)
  {
    if first != all { NewsInOrder(treaties, first, all[..|all| - 1], tick); }
  }

  ghost predicate TextBy(p: PlayerId, text: string) {
    exists d: PlayerId, k: TreatyKind :: text == BrokenText(Attack(p, d), k)
  }

  lemma {:induction false} NewsLedBy(treaties: seq<Treaty>, attacks: seq<Attack>, tick: nat, p: PlayerId)
    requires forall h :: h in attacks ==> h.attacker == p
    ensures forall text :: text in BreakNews(treaties, attacks, tick) ==> TextBy(p, text)
  {
    if attacks != [] {
      var init, h := attacks[..|attacks| - 1], attacks[|attacks| - 1];
      assert h in attacks;
      NewsLedBy(treaties, init, tick, p);
      forall text | text in FilterMap(BreakNotice(h), AllBrokenBy(treaties, init, tick)) ensures TextBy(p, text) {
        FilterMapMember(BreakNotice(h), AllBrokenBy(treaties, init, tick), text);
        var t :| t in AllBrokenBy(treaties, init, tick) && BreakNotice(h)(t) == Some(text);
        assert text == BrokenText(Attack(p, h.defender), t.kind);
      }
    }
  }

  lemma BreakingMakesNews(treaties: seq<Treaty>, attacks: seq<Attack>, tick: nat, h: Attack)
    requires h in attacks && BreaksPact(treaties, h)
    ensures BreakNews(treaties, attacks, tick) != []
  {
    var t :| t in treaties && t.status.Active? && Hits(t, h);
    var k :| 0 <= k < |attacks| && attacks[k] == h;
    assert Crossed(t, attacks);
    BrokenAsCrossed(t, attacks, tick);
    var text := NoticeOf(attacks)(t).value;
    FilterMapMember(NoticeOf(attacks), treaties, text);
    AnnouncedAreTheirs(treaties, attacks, tick);
    assert text in multiset(FilterMap(NoticeOf(attacks), treaties));
    assert text in multiset(BreakNews(treaties, attacks, tick));
  }

  /** An aggressor whose submissions come first is announced first. */
  lemma PromotedIsAnnounced(treaties: seq<Treaty>, s: Snapshot, m: MapDefinition, queue: seq<OrderEnvelope>, h: Attack)
    requires UniqueIds(s.armies) && Aggression(treaties, s, QueuedBatch(s, m, queue).movements, h)
    ensures NewsAfter(treaties, s, m, Promoted(queue, h.attacker)) != []
    ensures TextBy(h.attacker, NewsAfter(treaties, s, m, Promoted(queue, h.attacker))[0])
  {
    var o :| o in QueuedBatch(s, m, queue).movements && OrderedAgainst(s, o, h);
    var own := OwnAttacksFirst(s, m, queue, h, o);
    BreakingMakesNews(treaties, own, s.tick, h);
    NewsLedBy(treaties, own, s.tick, h.attacker);
    NewsInOrder(treaties, own, AttacksOf(s, QueuedBatch(s, m, Promoted(queue, h.attacker)).movements), s.tick);
    assert BreakNews(treaties, own, s.tick)[0] in BreakNews(treaties, own, s.tick);
  }

  /** Army owners whose names hold no blank, as all player names of a match do. */
  ghost predicate PlainOwners(s: Snapshot) {
    forall a :: a in s.armies ==> ' ' !in a.owner
  }

  lemma FirstBlank(word: string, rest: string)
    requires ' ' !in word
    ensures var text := word + (" " + rest);
      text[|word|] == ' ' && text[..|word|] == word && forall i :: 0 <= i < |word| ==> text[i] != ' '
  {
    var text := word + (" " + rest);
    forall i | 0 <= i < |word| ensures text[i] != ' ' { assert text[i] == word[i]; }
  }

  lemma WordEnds(a: string, x: string, b: string, y: string)
    requires ' ' !in a && ' ' !in b && a + (" " + x) == b + (" " + y)
    ensures a == b
  {
    FirstBlank(a, x);
    FirstBlank(b, y);
  }

  lemma Regroup(h: string, p: string, a: string, d: string, c: string, k: string, e: string)
    ensures h + p + a + d + c + k + e == h + (p + (a + (d + c + k + e)))
  {
  }

  lemma TextSplits(p: PlayerId, d: PlayerId, k: TreatyKind) returns (rest: string)
    ensures BrokenText(Attack(p, d), k)[15..] == p + (" " + rest)
  {
    var head, middle, last := "Treaty broken: ", " attacked ", d + " and broke their " + KindName(k) + " treaty.";
    Regroup(head, p, middle, d, " and broke their ", KindName(k), " treaty.");
    rest := middle[1..] + last;
    BlankFirst(head, p, middle, last);
  }

  lemma BlankFirst(head: string, p: string, middle: string, last: string)
    requires middle != "" && middle[0] == ' '
    ensures (head + (p + (middle + last)))[|head|..] == p + (" " + (middle[1..] + last))
  {
    assert middle + last == " " + (middle[1..] + last);
  }

  /** A text tells its attacker. */
  lemma TextTellsAttacker(p: PlayerId, q: PlayerId, text: string)
    requires ' ' !in p && ' ' !in q && TextBy(p, text) && TextBy(q, text)
    ensures p == q
  {
    var d: PlayerId, k: TreatyKind :| text == BrokenText(Attack(p, d), k);
    var e: PlayerId, l: TreatyKind :| text == BrokenText(Attack(q, e), l);
    var x := TextSplits(p, d, k);
    var y := TextSplits(q, e, l);
    WordEnds(p, x, q, y);
  }

  lemma TwoAggressorsShow(treaties: seq<Treaty>, s: Snapshot, m: MapDefinition, queue: seq<OrderEnvelope>)
    requires UniqueIds(s.armies) && PlainOwners(s) && !OneAggressor(treaties, s, QueuedBatch(s, m, queue).movements)
    ensures exists p, q :: NewsAfter(treaties, s, m, Promoted(queue, p)) != NewsAfter(treaties, s, m, Promoted(queue, q))
  {
    var movements := QueuedBatch(s, m, queue).movements;
    var g, h :| Aggression(treaties, s, movements, g) && Aggression(treaties, s, movements, h) && g.attacker != h.attacker;
    PromotedIsAnnounced(treaties, s, m, queue, g);
    PromotedIsAnnounced(treaties, s, m, queue, h);
    assert ' ' !in g.attacker && ' ' !in h.attacker;
    if NewsAfter(treaties, s, m, Promoted(queue, g.attacker)) == NewsAfter(treaties, s, m, Promoted(queue, h.attacker)) {
      TextTellsAttacker(g.attacker, h.attacker, NewsAfter(treaties, s, m, Promoted(queue, g.attacker))[0]);
    }
  }

  /**
   * The announcements of a tick are the same, in the same order, for every interleaving of the queue exactly when all
   * accepted movements that cross a treaty in force are one player's.
   */
  lemma NewsOrderIrrelevantIff(treaties: seq<Treaty>, s: Snapshot, m: MapDefinition, queue: seq<OrderEnvelope>)
    requires UniqueIds(s.armies) && PlainOwners(s)
    ensures (forall other :: SameSubmissions(queue, other) ==> NewsAfter(treaties, s, m, other) == NewsAfter(treaties, s, m, queue))
      <==> OneAggressor(treaties, s, QueuedBatch(s, m, queue).movements)
  {
    if OneAggressor(treaties, s, QueuedBatch(s, m, queue).movements) {
      forall other | SameSubmissions(queue, other) ensures NewsAfter(treaties, s, m, other) == NewsAfter(treaties, s, m, queue) {
        OneAggressorFixesNews(treaties, s, m, queue, other);
      }
    } else {
      TwoAggressorsShow(treaties, s, m, queue);
      var p, q :| NewsAfter(treaties, s, m, Promoted(queue, p)) != NewsAfter(treaties, s, m, Promoted(queue, q));
      PromotedIsSame(queue, p);
      PromotedIsSame(queue, q);
    }
  }

  // ---- the record ----

  /** Where one player is the only aggressor nobody marches both ways. */
  lemma OneAggressorMeansUndisputed(treaties: seq<Treaty>, s: Snapshot, movements: seq<MovementOrder>)
    requires OneAggressor(treaties, s, movements)
    ensures !Disputed(treaties, s, movements)
  {
    if Disputed(treaties, s, movements) {
      var t, p, q :| t in treaties && t.status.Active? && MarchBothWays(s, movements, t, p, q);
      PairInOrder(p, q);
      assert Aggression(treaties, s, movements, Attack(p, q)) && Aggression(treaties, s, movements, Attack(q, p));
    }
  }

  /** With one aggressor an advance leaves the same record, but for what still waits in the queue, whatever the interleaving. */
  lemma AdvanceIgnoresInterleavingInFull(r: Record, t: Record, m: MapDefinition)
    requires t == r.(submissions := t.submissions) && UniqueIds(r.state.armies) && SameSubmissions(r.submissions, t.submissions)
    requires OneAggressor(r.treaties, r.state, QueuedBatch(r.state, m, DueQueue(r)).movements)
    ensures Advanced(t, m) == Advanced(r, m).(submissions := Advanced(t, m).submissions)
  {
    OneAggressorMeansUndisputed(r.treaties, r.state, QueuedBatch(r.state, m, DueQueue(r)).movements);
    AdvanceIgnoresInterleavingOfAll(r, t, m);
    DueInterleaving(r, t);
    OneAggressorFixesNews(r.treaties, r.state, m, DueQueue(r), DueQueue(t));
  }
  // ---- two queues, two orders of announcements ----

  const ROADS: MapDefinition := MapDefinition(
    map["york" := CityDefinition("north", Food, true), "hull" := CityDefinition("north", Food, true),
        "leeds" := CityDefinition("north", Food, true)],
    [Edge("york", "leeds", 1, Land), Edge("hull", "leeds", 1, Land)])

  /** Two players with an army next to the third player's only city. */
  const THREE: Snapshot := Snapshot(
    0, map["york" := CityOf("p"), "hull" := CityOf("q"), "leeds" := CityOf("r")],
    [ArmyOf("a", "p", "york"), ArmyOf("b", "q", "hull")],
    map["p" := Player(PLAIN, ["york"], None, false), "q" := Player(PLAIN, ["hull"], None, false),
        "r" := Player(PLAIN, ["leeds"], None, false)],
    Victory(None, 0, 3, None))

  function PactWithR(id: nat, p: PlayerId): Treaty {
    Treaty(id, p, "r", NonAggression, Active, p, 0, Some(0), None, None)
  }

  const PACTS: seq<Treaty> := [PactWithR(0, "p"), PactWithR(1, "q")]

  const P_RAIDS := March("p", "a", "leeds")
  const Q_RAIDS := March("q", "b", "leeds")

  function Raided(p: PlayerId): string {
    BrokenText(Attack(p, "r"), NonAggression)
  }

  lemma ArmiesOfThree()
    ensures Validation.FindArmy(THREE.armies, "a") == Some(ArmyOf("a", "p", "york"))
    ensures Validation.FindArmy(THREE.armies, "b") == Some(ArmyOf("b", "q", "hull"))
  {
    assert THREE.armies[..1] == [ArmyOf("a", "p", "york")];
  }

  lemma RoadsToLeeds()
    ensures Connected(ROADS, None, "york", "leeds") && Connected(ROADS, None, "hull", "leeds")
  {
    assert ROADS.edges[0] in ROADS.edges && ROADS.edges[1] in ROADS.edges;
    assert Joins(ROADS.edges[0], "york", "leeds") && Joins(ROADS.edges[1], "hull", "leeds");
    ConnectedAnyMode(ROADS, "york", "leeds");
    ConnectedAnyMode(ROADS, "hull", "leeds");
  }

  lemma RaidAccepted(e: OrderEnvelope)
    requires e == P_RAIDS || e == Q_RAIDS
    ensures Validation.Validated(THREE, ROADS, e).accepted.movements == e.orders.movements
  {
    ArmiesOfThree();
    RoadsToLeeds();
    OneMovement(THREE, ROADS, e.playerId, e.orders.movements[0]);
    assert e.orders.movements == [e.orders.movements[0]];
  }

  lemma OneMovement(s: Snapshot, m: MapDefinition, p: PlayerId, o: MovementOrder)
    requires p in s.players
    ensures Validation.MovementReason(s, m, p, o) == None ==>
      Validation.MovementPass(s, m, p, s.players[p].resources, [o]).accepted == [o]
  {
    assert [o][..0] == [];
    assert Validation.MovementPass(s, m, p, s.players[p].resources, []) == Validation.Pass([], [], s.players[p].resources);
  }

  /** Two envelopes of two players make a batch of their accepted orders, in that order. */
  lemma MovesOfTwo(s: Snapshot, m: MapDefinition, queue: seq<OrderEnvelope>, e: OrderEnvelope, f: OrderEnvelope)
    requires queue == [e, f] && e.playerId != f.playerId
    ensures QueuedBatch(s, m, queue).movements
      == Validation.Validated(s, m, e).accepted.movements + Validation.Validated(s, m, f).accepted.movements
  {
    HarnessIsQueued(s, m, queue);
    EachMovesOfTwo(s, m, queue, e, f);
  }

  lemma EachMovesOfTwo(s: Snapshot, m: MapDefinition, queue: seq<OrderEnvelope>, e: OrderEnvelope, f: OrderEnvelope)
    requires queue == [e, f]
    ensures EachAccepted(s, m, queue).movements
      == Validation.Validated(s, m, e).accepted.movements + Validation.Validated(s, m, f).accepted.movements
  {
    ListsAlike(e, f);
    EachOfTwo(s, m, [], e, f);
    NothingMoves(s, m);
  }

  lemma ListsAlike(e: OrderEnvelope, f: OrderEnvelope)
    ensures [] + [e] + [f] == [e, f]
  {
  }

  lemma NothingMoves(s: Snapshot, m: MapDefinition)
    ensures EachAccepted(s, m, []).movements == []
  {
  }

  lemma EachOfTwo(s: Snapshot, m: MapDefinition, envelopes: seq<OrderEnvelope>, e: OrderEnvelope, f: OrderEnvelope)
    ensures EachAccepted(s, m, envelopes + [e] + [f]).movements == EachAccepted(s, m, envelopes).movements
      + Validation.Validated(s, m, e).accepted.movements + Validation.Validated(s, m, f).accepted.movements
  {
    EachOneMore(s, m, envelopes, e);
    EachOneMore(s, m, envelopes + [e], f);
  }

  lemma AttacksOfTwo(s: Snapshot, o: MovementOrder, u: MovementOrder)
    ensures AttacksOf(s, [o, u]) == AttacksByOrder(s, o) + AttacksByOrder(s, u)
  {
    assert [o, u][..1] == [o] && [o][..0] == [];
    assert AttacksOf(s, [o]) == AttacksOf(s, []) + AttacksByOrder(s, o);
  }

  lemma RaidAttacks(o: MovementOrder, p: PlayerId)
    requires (o == MovementOrder("a", "leeds") && p == "p") || (o == MovementOrder("b", "leeds") && p == "q")
    ensures AttacksByOrder(THREE, o) == [Attack(p, "r")]
  {
    ArmiesOfThree();
    assert DefendersOf(THREE, p, "leeds") == {"r"};
    ListingUnique({"r"}, ["r"]);
    assert ["r"][..0] == [];
  }

  lemma NewsOfTwo(treaties: seq<Treaty>, g: Attack, h: Attack, tick: nat)
    ensures BreakNews(treaties, [g, h], tick)
      == FilterMap(BreakNotice(g), treaties) + FilterMap(BreakNotice(h), AllBrokenBy(treaties, [g], tick))
  {
    assert [g, h][..1] == [g] && [g][..0] == [];
    assert BreakNews(treaties, [], tick) == [];
    assert AllBrokenBy(treaties, [], tick) == treaties;
    assert BreakNews(treaties, [g], tick) == FilterMap(BreakNotice(g), treaties);
  }

  lemma FilterMapTwo<A, B>(f: A -> Option<B>, x: A, y: A)
    ensures FilterMap(f, [x, y])
      == (match f(x) { case None => [] case Some(u) => [u] }) + (match f(y) { case None => [] case Some(v) => [v] })
  {
    assert [x, y][..1] == [x] && [x][..0] == [];
    assert FilterMap(f, [x]) == match f(x) { case None => [] case Some(u) => [u] };
  }

  lemma BrokenByOne(t: Treaty, g: Attack, tick: nat)
    ensures BrokenBy(t, [g], tick) == BrokenOnce(t, g, tick)
  {
    assert [g][..0] == [];
    assert BrokenBy(t, [], tick) == t;
  }

  lemma RaidedPacts(p: PlayerId, q: PlayerId)
    requires (p == "p" && q == "q") || (p == "q" && q == "p")
    ensures BreakNews(PACTS, [Attack(p, "r"), Attack(q, "r")], 0) == [Raided(p), Raided(q)]
  {
    var g, h := Attack(p, "r"), Attack(q, "r");
    assert StrLe("p", "r") && StrLe("q", "r") && PairOf("p", "r") == ("p", "r") && PairOf("q", "r") == ("q", "r");
    NewsOfTwo(PACTS, g, h, 0);
    FilterMapTwo(BreakNotice(g), PACTS[0], PACTS[1]);
    var broken := AllBrokenBy(PACTS, [g], 0);
    BrokenByOne(PACTS[0], g, 0);
    BrokenByOne(PACTS[1], g, 0);
    assert broken == [BrokenOnce(PACTS[0], g, 0), BrokenOnce(PACTS[1], g, 0)];
    FilterMapTwo(BreakNotice(h), broken[0], broken[1]);
  }

  function Raiding(submissions: seq<OrderEnvelope>): Record {
    Record("match", THREE, submissions, [], [], PACTS, [])
  }

  ghost predicate BothRaid(e: OrderEnvelope, f: OrderEnvelope) {
    (e == P_RAIDS && f == Q_RAIDS) || (e == Q_RAIDS && f == P_RAIDS)
  }

  lemma RaidMoves(e: OrderEnvelope, f: OrderEnvelope, queue: seq<OrderEnvelope>)
    requires BothRaid(e, f) && queue == [e, f]
    ensures QueuedBatch(THREE, ROADS, queue).movements == e.orders.movements + f.orders.movements
  {
    RaidAccepted(e);
    RaidAccepted(f);
    MovesOfTwo(THREE, ROADS, queue, e, f);
  }

  lemma RaidsAttack(e: OrderEnvelope, f: OrderEnvelope)
    requires BothRaid(e, f)
    ensures AttacksOf(THREE, e.orders.movements + f.orders.movements) == [Attack(e.playerId, "r"), Attack(f.playerId, "r")]
  {
    var o, u := e.orders.movements[0], f.orders.movements[0];
    assert e.orders.movements + f.orders.movements == [o, u];
    AttacksOfTwo(THREE, o, u);
    RaidAttacks(o, e.playerId);
    RaidAttacks(u, f.playerId);
  }

  lemma RaidNews(e: OrderEnvelope, f: OrderEnvelope, queue: seq<OrderEnvelope>)
    requires BothRaid(e, f) && queue == [e, f]
    ensures NewsAfter(PACTS, THREE, ROADS, queue) == [Raided(e.playerId), Raided(f.playerId)]
  {
    RaidMoves(e, f, queue);
    RaidsAttack(e, f);
    RaidedPacts(e.playerId, f.playerId);
  }

  lemma PostedTwo(tick: nat, first: string, second: string)
    ensures Posted([], tick, [first, second])
      == [Message(0, World, SYSTEM, None, tick, first), Message(1, World, SYSTEM, None, tick, second)]
  {
    assert [first, second][..1] == [first] && [first][..0] == [];
    assert Posted([], tick, []) == [];
    assert Posted([], tick, [first]) == PostedOne([], tick, first);
  }

  lemma MessagesAfter(r: Record, m: MapDefinition)
    ensures Advanced(r, m).messages == Posted(r.messages, r.state.tick, NewsAfter(r.treaties, r.state, m, DueQueue(r)))
  {
  }

  /**
   * Two queues that differ in nothing but the interleaving of two players, each of whom breaks a pact with a third: nobody
   * disputes who broke what, and yet the announcements come in another order.
   */
  lemma AnnouncedInOrderOfSubmission()
    ensures SameSubmissions([P_RAIDS, Q_RAIDS], [Q_RAIDS, P_RAIDS])
    ensures Advanced(Raiding([P_RAIDS, Q_RAIDS]), ROADS).messages
      == [Message(0, World, SYSTEM, None, 0, Raided("p")), Message(1, World, SYSTEM, None, 0, Raided("q"))]
    ensures Advanced(Raiding([Q_RAIDS, P_RAIDS]), ROADS).messages
      == [Message(0, World, SYSTEM, None, 0, Raided("q")), Message(1, World, SYSTEM, None, 0, Raided("p"))]
    ensures Raided("p") != Raided("q")
  {
    TwoSubmitters(P_RAIDS, Q_RAIDS);
    PromotedIsSame([P_RAIDS, Q_RAIDS], "q");
    RaidPosted(P_RAIDS, Q_RAIDS);
    RaidPosted(Q_RAIDS, P_RAIDS);
    RaidsDiffer();
  }

  lemma RaidsDiffer()
    ensures Raided("p") != Raided("q")
  {
    assert TextBy("p", Raided("p")) && TextBy("q", Raided("q"));
    if Raided("p") == Raided("q") { TextTellsAttacker("p", "q", Raided("p")); }
  }

  lemma RaidPosted(e: OrderEnvelope, f: OrderEnvelope)
    requires BothRaid(e, f)
    ensures Advanced(Raiding([e, f]), ROADS).messages
      == [Message(0, World, SYSTEM, None, 0, Raided(e.playerId)), Message(1, World, SYSTEM, None, 0, Raided(f.playerId))]
  {
    RaidNews(e, f, [e, f]);
    FilterAll(DueAt(0), [e, f]);
    MessagesAfter(Raiding([e, f]), ROADS);
    PostedTwo(0, Raided(e.playerId), Raided(f.playerId));
  }
}
