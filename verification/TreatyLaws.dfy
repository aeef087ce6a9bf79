/** When a treaty action succeeds, what it makes, and that a proposal left alone can be accepted at any later time. */
module TreatyLaws {
  import opened Collections
  import opened Ordering
  import opened Domain
  import opened RecordTypes
  import opened TreatyRules
  import opened HostileBreaks

  // ---- one pair and kind ----

  /** The treaty is of the kind and between the two players, who are on record in id order. */
  predicate Between(t: Treaty, p: PlayerId, q: PlayerId, kind: TreatyKind) {
    ((t.playerA == p && t.playerB == q) || (t.playerA == q && t.playerB == p)) && StrLe(t.playerA, t.playerB) && t.kind == kind
  }

  /** The i-th treaty is the last between the two players of the kind. */
  ghost predicate LastBetween(treaties: seq<Treaty>, i: nat, p: PlayerId, q: PlayerId, kind: TreatyKind) {
    && i < |treaties| && Between(treaties[i], p, q, kind)
    && forall j :: i < j < |treaties| ==> !Between(treaties[j], p, q, kind)
  }

  ghost predicate NoneBetween(treaties: seq<Treaty>, p: PlayerId, q: PlayerId, kind: TreatyKind) {
    forall t :: t in treaties ==> !Between(t, p, q, kind)
  }

  lemma BindsIsBetween(t: Treaty, p: PlayerId, q: PlayerId, kind: TreatyKind)
    ensures Binds(t, PairOf(p, q), kind) <==> Between(t, p, q, kind)
  {
    PairInOrder(p, q);
    PairInOrder(t.playerA, t.playerB);
  }

  lemma LatestBetween(treaties: seq<Treaty>, p: PlayerId, q: PlayerId, kind: TreatyKind) returns (latest: Option<nat>)
    ensures latest == LatestTreaty(treaties, PairOf(p, q), kind)
    ensures latest.Some? ==> latest.value < |treaties| && LastBetween(treaties, latest.value, p, q, kind)
    ensures forall i: nat :: LastBetween(treaties, i, p, q, kind) <==> latest == Some(i)
    ensures NoneBetween(treaties, p, q, kind) <==> latest == None
  {
    latest := LatestTreaty(treaties, PairOf(p, q), kind);
    LatestIsLast(treaties, PairOf(p, q), kind);
    forall t ensures Binds(t, PairOf(p, q), kind) <==> Between(t, p, q, kind) {
      BindsIsBetween(t, p, q, kind);
    }
  }

  // ---- accepting ----

  /**
   * Accepting succeeds if and only if the last treaty of the two of that kind is still proposed and was not proposed by the
   * acceptor, whenever that was.
   */
  lemma AcceptingSucceedsIff(treaties: seq<Treaty>, tick: nat, p: PlayerId, q: PlayerId, kind: TreatyKind)
    ensures TreatyOutcome(treaties, tick, p, TreatyAction(q, Accept, kind)).Ok? <==>
      exists i: nat :: LastBetween(treaties, i, p, q, kind) && treaties[i].status == Proposed && treaties[i].proposedBy != p
    ensures TreatyOutcome(treaties, tick, p, TreatyAction(q, Accept, kind)).Err? ==>
      TreatyOutcome(treaties, tick, p, TreatyAction(q, Accept, kind)) == Err(UnsupportedTreatyTransition)
  {
    var latest := LatestBetween(treaties, p, q, kind);
  }

  /** It makes that treaty active, signed now, and changes nothing else of it and no other treaty. */
  lemma AcceptingSigns(treaties: seq<Treaty>, tick: nat, p: PlayerId, q: PlayerId, kind: TreatyKind, i: nat)
    requires LastBetween(treaties, i, p, q, kind) && treaties[i].status == Proposed && treaties[i].proposedBy != p
    ensures var t := treaties[i];
      var signed := Treaty(t.id, t.playerA, t.playerB, kind, Active, t.proposedBy, t.proposedTick, Some(tick), t.withdrawnBy, t.withdrawnTick);
      TreatyOutcome(treaties, tick, p, TreatyAction(q, Accept, kind)) == Ok(TreatyChange(treaties[i := signed], signed, Some(
        "Treaty signed: " + t.playerA + " and " + t.playerB + " entered a "
        + (match kind case NonAggression => "non_aggression" case Defensive => "defensive" case Trade => "trade") + " treaty.")))
  {
    var latest := LatestBetween(treaties, p, q, kind);
  }

  // ---- proposing ----

  /** Proposing succeeds if and only if the last treaty of the two of that kind, if there is any, was withdrawn or broken. */
  lemma ProposingSucceedsIff(treaties: seq<Treaty>, tick: nat, p: PlayerId, q: PlayerId, kind: TreatyKind)
    ensures TreatyOutcome(treaties, tick, p, TreatyAction(q, Propose, kind)).Ok? <==>
      (NoneBetween(treaties, p, q, kind)
       || exists i: nat :: LastBetween(treaties, i, p, q, kind) && treaties[i].status in {Withdrawn, BrokenByA, BrokenByB})
    ensures TreatyOutcome(treaties, tick, p, TreatyAction(q, Propose, kind)).Err? ==>
      TreatyOutcome(treaties, tick, p, TreatyAction(q, Propose, kind)) == Err(UnsupportedTreatyTransition)
  {
    var latest := LatestBetween(treaties, p, q, kind);
  }

  /** In every list a run can reach: if and only if none of theirs of that kind is proposed or active. */
  lemma ProposingNeedsNoneOpen(treaties: seq<Treaty>, tick: nat, p: PlayerId, q: PlayerId, kind: TreatyKind)
    requires TreatiesOk(treaties)
    ensures TreatyOutcome(treaties, tick, p, TreatyAction(q, Propose, kind)).Ok? <==>
      forall t :: t in treaties && Between(t, p, q, kind) ==> t.status != Proposed && t.status != Active
  {
    var latest := LatestBetween(treaties, p, q, kind);
    forall t | t in treaties && Between(t, p, q, kind) && Open(t) ensures latest.Some? && treaties[latest.value] == t {
      var i :| 0 <= i < |treaties| && treaties[i] == t;
      OpenIsLatest(treaties, i, i);
      BindsIsBetween(t, p, q, kind);
    }
  }

  /** A proposal goes to the end of the list, in the proposer's name and of this tick, and says nothing to the world. */
  lemma ProposingAppends(treaties: seq<Treaty>, tick: nat, p: PlayerId, q: PlayerId, kind: TreatyKind) returns (t: Treaty)
    requires TreatyOutcome(treaties, tick, p, TreatyAction(q, Propose, kind)).Ok?
    ensures TreatyOutcome(treaties, tick, p, TreatyAction(q, Propose, kind)) == Ok(TreatyChange(treaties + [t], t, None))
    ensures Between(t, p, q, kind)
    ensures t == Treaty(|treaties|, t.playerA, t.playerB, kind, Proposed, p, tick, None, None, None)
  {
    PairInOrder(p, q);
    t := TreatyOutcome(treaties, tick, p, TreatyAction(q, Propose, kind)).value.reported;
  }

  // ---- withdrawing ----

  /** Withdrawing succeeds if and only if the last treaty of the two of that kind is proposed or active; without any it is not found. */
  lemma WithdrawingSucceedsIff(treaties: seq<Treaty>, tick: nat, p: PlayerId, q: PlayerId, kind: TreatyKind)
    ensures TreatyOutcome(treaties, tick, p, TreatyAction(q, Withdraw, kind)).Ok? <==>
      exists i: nat :: LastBetween(treaties, i, p, q, kind) && (treaties[i].status == Proposed || treaties[i].status == Active)
    ensures TreatyOutcome(treaties, tick, p, TreatyAction(q, Withdraw, kind)) == Err(TreatyNotFound)
      <==> NoneBetween(treaties, p, q, kind)
  {
    var latest := LatestBetween(treaties, p, q, kind);
  }

  /** It ends that treaty, whoever proposed it, in the withdrawer's name and now, and no other. */
  lemma WithdrawingEnds(treaties: seq<Treaty>, tick: nat, p: PlayerId, q: PlayerId, kind: TreatyKind, i: nat)
    requires LastBetween(treaties, i, p, q, kind) && (treaties[i].status == Proposed || treaties[i].status == Active)
    ensures var t := treaties[i];
      var ended := Treaty(t.id, t.playerA, t.playerB, kind, Withdrawn, t.proposedBy, t.proposedTick, t.signedTick, Some(p), Some(tick));
      TreatyOutcome(treaties, tick, p, TreatyAction(q, Withdraw, kind)) == Ok(TreatyChange(treaties[i := ended], ended, Some(
        "Treaty withdrawn: " + p + " withdrew the "
        + (match kind case NonAggression => "non_aggression" case Defensive => "defensive" case Trade => "trade")
        + " treaty with " + q + ".")))
  {
    var latest := LatestBetween(treaties, p, q, kind);
  }

  // ---- attacks ----

  /** The attack is by one of the treaty's players on the other. */
  predicate Crosses(h: Attack, t: Treaty) {
    (h.attacker == t.playerA && h.defender == t.playerB) || (h.attacker == t.playerB && h.defender == t.playerA)
  }

  lemma HitsIsCrosses(h: Attack, t: Treaty)
    requires StrLe(t.playerA, t.playerB)
    ensures Hits(t, h) <==> Crosses(h, t)
    ensures Hits(t, h) ==> BreakStatus(h) == if h.attacker == t.playerA then BrokenByA else BrokenByB
  {
    PairInOrder(h.attacker, h.defender);
    PairInOrder(t.playerA, t.playerB);
  }

  /** An active treaty that an attack crosses is broken by the first attacker, on record as such; one that none crosses stands. */
  lemma AttacksBreak(t: Treaty, attacks: seq<Attack>, tick: nat, k: nat)
    requires StrLe(t.playerA, t.playerB) && t.status == Active && k <= |attacks|
    requires forall j :: 0 <= j < k ==> !Crosses(attacks[j], t)
    requires k < |attacks| ==> Crosses(attacks[k], t)
    ensures BrokenBy(t, attacks, tick) ==
      if k == |attacks| then t
      else Treaty(t.id, t.playerA, t.playerB, t.kind, if attacks[k].attacker == t.playerA then BrokenByA else BrokenByB,
                  t.proposedBy, t.proposedTick, t.signedTick, Some(attacks[k].attacker), Some(tick))
  {
    var first := FirstAttackBreaks(t, attacks, tick);
    forall h ensures Hits(t, h) <==> Crosses(h, t) { HitsIsCrosses(h, t); }
    if k < |attacks| {
      assert Hits(t, attacks[k]);
      HitsIsCrosses(attacks[k], t);
    }
  }

  /** A treaty that one attack breaks is announced with the attacker named first. */
  lemma BreakIsAnnounced(t: Treaty, h: Attack, tick: nat)
    requires StrLe(t.playerA, t.playerB) && t.status == Active
    ensures BreakNews([t], [h], tick) == if !Crosses(h, t) then [] else [
      "Treaty broken: " + h.attacker + " attacked " + h.defender + " and broke their "
      + (match t.kind case NonAggression => "non_aggression" case Defensive => "defensive" case Trade => "trade") + " treaty."]
  {
    HitsIsCrosses(h, t);
    var one, attack := [t], [h];
    assert one[..0] == [] && attack[..0] == [];
    assert AllBrokenBy(one, [], tick) == one;
    assert BreakNews(one, [], tick) == [];
    assert FilterMap(BreakNotice(h), []) == [];
  }

  // ---- runs ----

  /** The event is no action of the two towards each other about the kind. */
  predicate LeavesAlone(e: TreatyEvent, p: PlayerId, q: PlayerId, kind: TreatyKind) {
    e.Acted? && e.action.kind == kind ==>
      !((e.player == p && e.action.counterparty == q) || (e.player == q && e.action.counterparty == p))
  }

  /** Nor does it have one of the two attack the other. */
  ghost predicate KeepsPeace(e: TreatyEvent, p: PlayerId, q: PlayerId) {
    e.Attacked? ==> forall h :: h in e.attacks ==> !((h.attacker == p && h.defender == q) || (h.attacker == q && h.defender == p))
  }

  lemma OthersAct(treaties: seq<Treaty>, tick: nat, r: PlayerId, action: TreatyAction, i: nat)
    requires i < |treaties| && !Between(treaties[i], r, action.counterparty, action.kind)
    ensures match TreatyOutcome(treaties, tick, r, action)
      case Ok(change) => i < |change.treaties| && change.treaties[i] == treaties[i]
      case Err(_) => true
  {
    var latest := LatestBetween(treaties, r, action.counterparty, action.kind);
  }

  lemma NoCrossingNoBreak(t: Treaty, attacks: seq<Attack>, tick: nat)
    requires StrLe(t.playerA, t.playerB) && (t.status != Active || forall h :: h in attacks ==> !Crosses(h, t))
    ensures BrokenBy(t, attacks, tick) == t
  {
    var first := FirstAttackBreaks(t, attacks, tick);
    forall h ensures Hits(t, h) <==> Crosses(h, t) { HitsIsCrosses(h, t); }
  }

  lemma LeftAloneStays(treaties: seq<Treaty>, e: TreatyEvent, i: nat)
    requires i < |treaties| && StrLe(treaties[i].playerA, treaties[i].playerB)
    requires LeavesAlone(e, treaties[i].playerA, treaties[i].playerB, treaties[i].kind)
    requires treaties[i].status == Active ==> KeepsPeace(e, treaties[i].playerA, treaties[i].playerB)
    ensures i < |AfterEvent(treaties, e)| && AfterEvent(treaties, e)[i] == treaties[i]
  {
    match e
    case Acted(r, action, tick) => OthersAct(treaties, tick, r, action, i);
    case Attacked(attacks, tick) => NoCrossingNoBreak(treaties[i], attacks, tick);
  }

  /** Over a run a treaty that is left alone, and in peace while it is in force, does not change. */
  lemma {:induction false} StaysWhileLeftAlone(events: seq<TreatyEvent>, n: nat, i: nat, t: Treaty)
    requires n <= |events| && i < |AfterEvents(events[..n])| && AfterEvents(events[..n])[i] == t && StrLe(t.playerA, t.playerB)
    requires forall k :: n <= k < |events| ==> LeavesAlone(events[k], t.playerA, t.playerB, t.kind)
    requires t.status == Active ==> forall k :: n <= k < |events| ==> KeepsPeace(events[k], t.playerA, t.playerB)
    ensures i < |AfterEvents(events)| && AfterEvents(events)[i] == t
    decreases |events|
  {
    if n == |events| {
      assert events[..n] == events;
    } else {
      var init := events[..|events| - 1];
      assert init[..n] == events[..n];
      StaysWhileLeftAlone(init, n, i, t);
      LeftAloneStays(AfterEvents(init), events[|events| - 1], i);
    }
  }

  /** A proposal that succeeds stands, as it was made, while the two leave it alone, whoever attacks whom in the meantime. */
  lemma ProposalStands(events: seq<TreatyEvent>, n: nat, p: PlayerId, q: PlayerId, kind: TreatyKind, tick: nat) returns (t: Treaty, i: nat)
    requires n < |events| && events[n] == Acted(p, TreatyAction(q, Propose, kind), tick)
    requires TreatyOutcome(AfterEvents(events[..n]), tick, p, TreatyAction(q, Propose, kind)).Ok?
    requires forall k :: n < k < |events| ==> LeavesAlone(events[k], p, q, kind)
    ensures i == |AfterEvents(events[..n])| < |AfterEvents(events)| && AfterEvents(events)[i] == t
    ensures Between(t, p, q, kind) && t == Treaty(i, t.playerA, t.playerB, kind, Proposed, p, tick, None, None, None)
  {
    i := |AfterEvents(events[..n])|;
    t := ProposingAppends(AfterEvents(events[..n]), tick, p, q, kind);
    AfterOneMore(events, n);
    StaysWhileLeftAlone(events, n + 1, i, t);
  }

  lemma OtherAccepts(treaties: seq<Treaty>, tick: nat, p: PlayerId, q: PlayerId, kind: TreatyKind, i: nat) returns (t: Treaty)
    requires TreatiesOk(treaties) && i < |treaties| && p != q
    requires Between(treaties[i], p, q, kind) && treaties[i].status == Proposed && treaties[i].proposedBy == p
    ensures AfterEvent(treaties, Acted(q, TreatyAction(p, Accept, kind), tick)) == treaties[i := t]
    ensures t == treaties[i].(status := Active, signedTick := Some(tick))
  {
    OpenIsLatest(treaties, i, i);
    BindsIsBetween(treaties[i], q, p, kind);
    var latest := LatestBetween(treaties, q, p, kind);
    AcceptingSigns(treaties, tick, q, p, kind, i);
    t := treaties[i].(status := Active, signedTick := Some(tick));
  }

  lemma AfterOneMore(events: seq<TreatyEvent>, k: nat)
    requires k < |events|
    ensures AfterEvents(events[..k + 1]) == AfterEvent(AfterEvents(events[..k]), events[k])
  {
    assert events[..k + 1][..k] == events[..k];
  }

  lemma AcceptedLater(events: seq<TreatyEvent>, n: nat, p: PlayerId, q: PlayerId, kind: TreatyKind, proposed: nat, accepted: nat)
    returns (t: Treaty, i: nat)
    requires n < |events| && p != q && events[n] == Acted(p, TreatyAction(q, Propose, kind), proposed)
    requires TreatyOutcome(AfterEvents(events[..n]), proposed, p, TreatyAction(q, Propose, kind)).Ok?
    requires forall j :: n < j < |events| ==> LeavesAlone(events[j], p, q, kind)
    ensures var after := AfterEvent(AfterEvents(events), Acted(q, TreatyAction(p, Accept, kind), accepted));
      i == |AfterEvents(events[..n])| < |after| && after[i] == t
    ensures Between(t, p, q, kind) && t == Treaty(i, t.playerA, t.playerB, kind, Active, p, proposed, Some(accepted), None, None)
  {
    t, i := ProposalStands(events, n, p, q, kind, proposed);
    TreatyRuns(events, 0);
    t := OtherAccepts(AfterEvents(events), accepted, p, q, kind, i);
  }

  lemma SignedThen(events: seq<TreatyEvent>, n: nat, k: nat, p: PlayerId, q: PlayerId, kind: TreatyKind, proposed: nat, accepted: nat)
    returns (t: Treaty, i: nat)
    requires n < k < |events| && p != q
    requires events[n] == Acted(p, TreatyAction(q, Propose, kind), proposed)
    requires events[k] == Acted(q, TreatyAction(p, Accept, kind), accepted)
    requires TreatyOutcome(AfterEvents(events[..n]), proposed, p, TreatyAction(q, Propose, kind)).Ok?
    requires forall j :: n < j < k ==> LeavesAlone(events[j], p, q, kind)
    ensures i == |AfterEvents(events[..n])| < |AfterEvents(events[..k + 1])| && AfterEvents(events[..k + 1])[i] == t
    ensures Between(t, p, q, kind) && t == Treaty(i, t.playerA, t.playerB, kind, Active, p, proposed, Some(accepted), None, None)
  {
    assert events[..k][..n] == events[..n];
    t, i := AcceptedLater(events[..k], n, p, q, kind, proposed, accepted);
    AfterOneMore(events, k);
  }

  lemma InForceStays(events: seq<TreatyEvent>, n: nat, i: nat, t: Treaty, p: PlayerId, q: PlayerId, kind: TreatyKind)
    requires n <= |events| && i < |AfterEvents(events[..n])| && AfterEvents(events[..n])[i] == t && Between(t, p, q, kind)
    requires forall j :: n <= j < |events| ==> LeavesAlone(events[j], p, q, kind) && KeepsPeace(events[j], p, q)
    ensures i < |AfterEvents(events)| && AfterEvents(events)[i] == t
  {
    StaysWhileLeftAlone(events, n, i, t);
  }

  /**
   * A proposal, then any events that leave the two alone on that matter, then the other's acceptance, however much later: the
   * treaty is in force, and stays so while the two leave it alone and neither attacks the other.
   */
  lemma AcceptedProposalIsInForce(events: seq<TreatyEvent>, n: nat, k: nat, p: PlayerId, q: PlayerId, kind: TreatyKind,
                                  proposed: nat, accepted: nat) returns (t: Treaty, i: nat)
    requires n < k < |events| && p != q
    requires events[n] == Acted(p, TreatyAction(q, Propose, kind), proposed)
    requires events[k] == Acted(q, TreatyAction(p, Accept, kind), accepted)
    requires TreatyOutcome(AfterEvents(events[..n]), proposed, p, TreatyAction(q, Propose, kind)).Ok?
    requires forall j :: n < j < |events| && j != k ==> LeavesAlone(events[j], p, q, kind)
    requires forall j :: k < j < |events| ==> KeepsPeace(events[j], p, q)
    ensures i == |AfterEvents(events[..n])| < |AfterEvents(events)| && AfterEvents(events)[i] == t
    ensures Between(t, p, q, kind)
    ensures t == Treaty(i, t.playerA, t.playerB, kind, Active, p, proposed, Some(accepted), None, None)
  {
    t, i := SignedThen(events, n, k, p, q, kind, proposed, accepted);
    InForceStays(events, k + 1, i, t, p, q, kind);
  }
}
