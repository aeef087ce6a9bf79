/** Treaties: proposing, accepting, withdrawing, and what holds of the list of treaties over every run. */
module TreatyRules {
  import opened Collections
  import opened Ordering
  import opened Domain
  import opened RecordTypes

  datatype TreatyVerb = Propose | Accept | Withdraw
  datatype TreatyAction = TreatyAction(counterparty: PlayerId, verb: TreatyVerb, kind: TreatyKind)

  /** The treaties after an action, the treaty it reports, and what the world is told. */
  datatype TreatyChange = TreatyChange(treaties: seq<Treaty>, reported: Treaty, news: Option<string>)

  /** Two players in id order. */
  function PairOf(p: PlayerId, q: PlayerId): (PlayerId, PlayerId) {
    if StrLe(p, q) then (p, q) else (q, p)
  }

  predicate Unites(t: Treaty, pair: (PlayerId, PlayerId)) {
    t.playerA == pair.0 && t.playerB == pair.1
  }

  predicate Binds(t: Treaty, pair: (PlayerId, PlayerId), kind: TreatyKind) {
    Unites(t, pair) && t.kind == kind
  }

  /** The position of the last treaty of a kind between two players. */
  function LatestTreaty(treaties: seq<Treaty>, pair: (PlayerId, PlayerId), kind: TreatyKind): Option<nat> {
    if treaties == [] then None
    else if Binds(treaties[|treaties| - 1], pair, kind) then Some(|treaties| - 1)
    else LatestTreaty(treaties[..|treaties| - 1], pair, kind)
  }

  lemma {:induction false} LatestIsLast(treaties: seq<Treaty>, pair: (PlayerId, PlayerId), kind: TreatyKind)
    ensures match LatestTreaty(treaties, pair, kind)
      case Some(i) => i < |treaties| && Binds(treaties[i], pair, kind)
        && forall j :: i < j < |treaties| ==> !Binds(treaties[j], pair, kind)
      case None => forall j :: 0 <= j < |treaties| ==> !Binds(treaties[j], pair, kind)
  {
    if treaties != [] && !Binds(treaties[|treaties| - 1], pair, kind) {
      var init := treaties[..|treaties| - 1];
      LatestIsLast(init, pair, kind);
      assert forall j :: 0 <= j < |init| ==> treaties[j] == init[j];
    }
  }

  method FindLatestTreaty(treaties: seq<Treaty>, pair: (PlayerId, PlayerId), kind: TreatyKind) returns (found: Option<nat>)
    ensures found == LatestTreaty(treaties, pair, kind)
  {
    var i := |treaties|;
    assert treaties[..i] == treaties;
    while i > 0
      invariant 0 <= i <= |treaties|
      invariant LatestTreaty(treaties, pair, kind) == LatestTreaty(treaties[..i], pair, kind)
    {
      i := i - 1;
      assert treaties[..i + 1][..i] == treaties[..i];
      if Binds(treaties[i], pair, kind) {
        return Some(i);
      }
    }
    found := None;
  }

  predicate Open(t: Treaty) {
    t.status.Proposed? || t.status.Active?
  }

  /** Statuses after which the same treaty may be proposed again. */
  predicate Ended(t: Treaty) {
    t.status.Withdrawn? || t.status.BrokenByA? || t.status.BrokenByB?
  }

  function KindName(kind: TreatyKind): string {
    match kind
    case NonAggression => "non_aggression"
    case Defensive => "defensive"
    case Trade => "trade"
  }

  function SignedNews(t: Treaty): string {
    "Treaty signed: " + t.playerA + " and " + t.playerB + " entered a " + KindName(t.kind) + " treaty."
  }

  function WithdrawnNews(p: PlayerId, q: PlayerId, kind: TreatyKind): string {
    "Treaty withdrawn: " + p + " withdrew the " + KindName(kind) + " treaty with " + q + "."
  }

  function Proposal(id: nat, pair: (PlayerId, PlayerId), kind: TreatyKind, p: PlayerId, tick: nat): Treaty {
    Treaty(id, pair.0, pair.1, kind, Proposed, p, tick, None, None, None)
  }

  function Signed(t: Treaty, tick: nat): Treaty {
    t.(status := Active, signedTick := Some(tick))
  }

  function WithdrawnBy(t: Treaty, p: PlayerId, tick: nat): Treaty {
    t.(status := Withdrawn, withdrawnBy := Some(p), withdrawnTick := Some(tick))
  }

  ghost function TreatyOutcome(treaties: seq<Treaty>, tick: nat, p: PlayerId, action: TreatyAction): Result<TreatyChange, CommandError> {
    var pair := PairOf(p, action.counterparty);
    LatestIsLast(treaties, pair, action.kind);
    var latest := LatestTreaty(treaties, pair, action.kind);
    match action.verb
    case Propose =>
      if latest.Some? && !Ended(treaties[latest.value]) then Err(UnsupportedTreatyTransition)
      else
        var t := Proposal(|treaties|, pair, action.kind, p, tick);
        Ok(TreatyChange(treaties + [t], t, None))
    case Accept =>
      if latest == None then Err(UnsupportedTreatyTransition)
      else
        var t := treaties[latest.value];
        if !t.status.Proposed? || t.proposedBy == p then Err(UnsupportedTreatyTransition)
        else Ok(TreatyChange(treaties[latest.value := Signed(t, tick)], Signed(t, tick), Some(SignedNews(t))))
    case Withdraw =>
      if latest == None then Err(TreatyNotFound)
      else
        var t := treaties[latest.value];
        if !Open(t) then Err(UnsupportedTreatyTransition)
        else Ok(TreatyChange(treaties[latest.value := WithdrawnBy(t, p, tick)], WithdrawnBy(t, p, tick),
                             Some(WithdrawnNews(p, action.counterparty, action.kind))))
  }

  // ---- hostile breaks ----

  /** One player's army ordered into a place where another owns or stands. */
  datatype Attack = Attack(attacker: PlayerId, defender: PlayerId)

  predicate Hits(t: Treaty, h: Attack) {
    Unites(t, PairOf(h.attacker, h.defender))
  }

  function BreakStatus(h: Attack): TreatyStatus {
    if h.attacker == PairOf(h.attacker, h.defender).0 then BrokenByA else BrokenByB
  }

  /** A treaty after one attack. */
  function BrokenOnce(t: Treaty, h: Attack, tick: nat): Treaty {
    if Hits(t, h) && t.status.Active?
    then t.(status := BreakStatus(h), withdrawnBy := Some(h.attacker), withdrawnTick := Some(tick))
    else t
  }

  function BrokenBy(t: Treaty, attacks: seq<Attack>, tick: nat): Treaty {
    if attacks == [] then t
    else BrokenOnce(BrokenBy(t, attacks[..|attacks| - 1], tick), attacks[|attacks| - 1], tick)
  }

  function AllBrokenBy(treaties: seq<Treaty>, attacks: seq<Attack>, tick: nat): seq<Treaty> {
    seq(|treaties|, i requires 0 <= i < |treaties| => BrokenBy(treaties[i], attacks, tick))
  }

  /** The k-th attack is the first that crosses the treaty. */
  ghost predicate CrossedAt(t: Treaty, attacks: seq<Attack>, k: nat) {
    k < |attacks| && Hits(t, attacks[k]) && forall j :: 0 <= j < k ==> !Hits(t, attacks[j])
  }

  ghost predicate Crossed(t: Treaty, attacks: seq<Attack>) {
    exists k :: 0 <= k < |attacks| && Hits(t, attacks[k])
  }

  /** An active treaty is broken by the first attack that crosses it and by no later one. */
  lemma {:induction false} FirstAttackBreaks(t: Treaty, attacks: seq<Attack>, tick: nat) returns (k: nat)
    ensures t.status.Active? && Crossed(t, attacks) ==>
      CrossedAt(t, attacks, k) && BrokenBy(t, attacks, tick) == BrokenOnce(t, attacks[k], tick)
    ensures !(t.status.Active? && Crossed(t, attacks)) ==> BrokenBy(t, attacks, tick) == t
  {
    k := 0;
    if attacks != [] {
      var init, h := attacks[..|attacks| - 1], attacks[|attacks| - 1];
      k := FirstAttackBreaks(t, init, tick);
      assert forall j :: 0 <= j < |init| ==> init[j] == attacks[j];
      if Crossed(t, init) {
        var j :| 0 <= j < |init| && Hits(t, init[j]);
        assert Hits(t, attacks[j]);
      } else {
        k := |init|;
        assert forall j :: 0 <= j < |init| ==> !Hits(t, init[j]);
      }
    }
  }

  // ---- what holds of the list ----

  /** No later treaty binds the same pair to the same kind. */
  ghost predicate IsLatest(treaties: seq<Treaty>, i: nat)
    requires i < |treaties|
  {
    forall j :: i < j < |treaties| ==> !Binds(treaties[j], (treaties[i].playerA, treaties[i].playerB), treaties[i].kind)
  }

  ghost predicate TreatyOk(t: Treaty) {
    && StrLe(t.playerA, t.playerB) && (t.proposedBy == t.playerA || t.proposedBy == t.playerB)
    && !t.status.Honored?
    && (t.status.Proposed? ==> t.signedTick == None)
    && (t.status.Active? ==> t.signedTick.Some?)
    && (Open(t) ==> t.withdrawnBy == None && t.withdrawnTick == None)
    && (Ended(t) ==> t.withdrawnTick.Some?)
    && (t.status.Withdrawn? ==> t.withdrawnBy == Some(t.playerA) || t.withdrawnBy == Some(t.playerB))
    && (t.status.BrokenByA? ==> t.withdrawnBy == Some(t.playerA) && t.signedTick.Some?)
    && (t.status.BrokenByB? ==> t.withdrawnBy == Some(t.playerB) && t.signedTick.Some?)
  }

  /** Ids are positions, each treaty is well formed, and only the latest of its pair and kind can still be open. */
  ghost predicate TreatiesOk(treaties: seq<Treaty>) {
    && (forall i :: 0 <= i < |treaties| ==> treaties[i].id == i && TreatyOk(treaties[i]))
    && (forall i :: 0 <= i < |treaties| && Open(treaties[i]) ==> IsLatest(treaties, i))
  }

  /** At most one treaty of a pair and kind is proposed or active, and it is the one a look-up finds. */
  lemma OpenIsLatest(treaties: seq<Treaty>, i: nat, j: nat)
    requires TreatiesOk(treaties) && i < |treaties| && j < |treaties| && Open(treaties[i])
    ensures LatestTreaty(treaties, (treaties[i].playerA, treaties[i].playerB), treaties[i].kind) == Some(i)
    ensures Open(treaties[j]) && Binds(treaties[j], (treaties[i].playerA, treaties[i].playerB), treaties[i].kind) ==> i == j
  {
    LatestIsLast(treaties, (treaties[i].playerA, treaties[i].playerB), treaties[i].kind);
    assert IsLatest(treaties, i);
    if Open(treaties[j]) { assert IsLatest(treaties, j); }
  }

  lemma PairInOrder(p: PlayerId, q: PlayerId)
    ensures StrLe(PairOf(p, q).0, PairOf(p, q).1)
    ensures PairOf(p, q) == (p, q) || PairOf(p, q) == (q, p)
    ensures PairOf(p, q) == PairOf(q, p)
  {
    StrLeTotal(p, q);
    if StrLe(p, q) && StrLe(q, p) { StrLeAntisymmetric(p, q); }
  }

  /** Nobody has a treaty with itself. */
  ghost predicate NoSelfTreaties(treaties: seq<Treaty>) {
    forall i :: 0 <= i < |treaties| ==> treaties[i].playerA != treaties[i].playerB
  }

  // ---- one step ----

  /** How one treaty may change: never who or what it is about, and only forward through its life. */
  ghost predicate Ages(t: Treaty, u: Treaty) {
    && u.id == t.id && u.playerA == t.playerA && u.playerB == t.playerB && u.kind == t.kind
    && u.proposedBy == t.proposedBy && u.proposedTick == t.proposedTick
    && (t.signedTick.Some? ==> u.signedTick == t.signedTick)
    && (t.status.Active? ==> !u.status.Proposed?)
    && (!Open(t) ==> u == t)
  }

  ghost predicate Evolves(before: seq<Treaty>, after: seq<Treaty>) {
    |before| <= |after| && forall i :: 0 <= i < |before| ==> Ages(before[i], after[i])
  }

  lemma AppendKeepsOk(treaties: seq<Treaty>, t: Treaty)
    requires TreatiesOk(treaties) && TreatyOk(t) && t.id == |treaties|
    requires forall i :: 0 <= i < |treaties| && Binds(treaties[i], (t.playerA, t.playerB), t.kind) ==> !Open(treaties[i])
    ensures TreatiesOk(treaties + [t]) && Evolves(treaties, treaties + [t])
  {
    forall i | 0 <= i < |treaties| + 1 && Open((treaties + [t])[i]) ensures IsLatest(treaties + [t], i) {
      if i < |treaties| { assert IsLatest(treaties, i); }
    }
  }

  lemma UpdateKeepsOk(treaties: seq<Treaty>, i: nat, t: Treaty)
    requires TreatiesOk(treaties) && i < |treaties| && Open(treaties[i]) && TreatyOk(t) && Ages(treaties[i], t)
    ensures TreatiesOk(treaties[i := t]) && Evolves(treaties, treaties[i := t])
  {
    var after := treaties[i := t];
    forall j | 0 <= j < |after| && Open(after[j]) ensures IsLatest(after, j) {
      assert Open(treaties[j]) && IsLatest(treaties, j);
    }
  }

  lemma ActionKeepsTreaties(treaties: seq<Treaty>, tick: nat, p: PlayerId, action: TreatyAction)
    requires TreatiesOk(treaties)
    ensures match TreatyOutcome(treaties, tick, p, action)
      case Ok(change) => TreatiesOk(change.treaties) && Evolves(treaties, change.treaties)
      case Err(_) => true
  {
    var pair := PairOf(p, action.counterparty);
    PairInOrder(p, action.counterparty);
    LatestIsLast(treaties, pair, action.kind);
    var latest := LatestTreaty(treaties, pair, action.kind);
    forall i | 0 <= i < |treaties| && Open(treaties[i]) && Binds(treaties[i], pair, action.kind) ensures latest == Some(i) {
      OpenIsLatest(treaties, i, i);
    }
    if TreatyOutcome(treaties, tick, p, action).Ok? {
      match action.verb
      case Propose =>
        AppendKeepsOk(treaties, Proposal(|treaties|, pair, action.kind, p, tick));
      case Accept =>
        UpdateKeepsOk(treaties, latest.value, Signed(treaties[latest.value], tick));
      case Withdraw =>
        UpdateKeepsOk(treaties, latest.value, WithdrawnBy(treaties[latest.value], p, tick));
    }
  }

  /** An action towards somebody else never makes a treaty of a player with itself. */
  lemma ActionJoinsTwo(treaties: seq<Treaty>, tick: nat, p: PlayerId, action: TreatyAction)
    requires TreatiesOk(treaties) && NoSelfTreaties(treaties) && p != action.counterparty
    ensures match TreatyOutcome(treaties, tick, p, action)
      case Ok(change) => NoSelfTreaties(change.treaties)
      case Err(_) => true
  {
    PairInOrder(p, action.counterparty);
    LatestIsLast(treaties, PairOf(p, action.counterparty), action.kind);
  }

  lemma AgedJoinsTwo(before: seq<Treaty>, after: seq<Treaty>)
    requires Evolves(before, after) && |after| == |before| && NoSelfTreaties(before)
    ensures NoSelfTreaties(after)
  {
    forall i | 0 <= i < |after| ensures after[i].playerA != after[i].playerB { assert Ages(before[i], after[i]); }
  }

  lemma AttacksKeepTreaty(t: Treaty, attacks: seq<Attack>, tick: nat)
    requires TreatyOk(t)
    ensures TreatyOk(BrokenBy(t, attacks, tick)) && Ages(t, BrokenBy(t, attacks, tick))
    ensures Open(BrokenBy(t, attacks, tick)) ==> Open(t)
  {
    var k := FirstAttackBreaks(t, attacks, tick);
    forall h: Attack | Hits(t, h)
      ensures BreakStatus(h).BrokenByA? ==> h.attacker == t.playerA
      ensures BreakStatus(h).BrokenByB? ==> h.attacker == t.playerB
    {
      PairInOrder(h.attacker, h.defender);
    }
  }

  lemma AttacksKeepTreaties(treaties: seq<Treaty>, attacks: seq<Attack>, tick: nat)
    requires TreatiesOk(treaties)
    ensures TreatiesOk(AllBrokenBy(treaties, attacks, tick)) && Evolves(treaties, AllBrokenBy(treaties, attacks, tick))
  {
    var after := AllBrokenBy(treaties, attacks, tick);
    forall i | 0 <= i < |treaties|
      ensures TreatyOk(after[i]) && Ages(treaties[i], after[i]) && (Open(after[i]) ==> Open(treaties[i]))
    {
      AttacksKeepTreaty(treaties[i], attacks, tick);
    }
    forall i | 0 <= i < |after| && Open(after[i]) ensures IsLatest(after, i) {
      assert IsLatest(treaties, i);
    }
  }

  // ---- runs ----

  /** What a treaty list can undergo: an action by a player, accepted or refused, or the attacks of a tick. */
  datatype TreatyEvent = Acted(player: PlayerId, action: TreatyAction, tick: nat) | Attacked(attacks: seq<Attack>, tick: nat)

  ghost function AfterEvent(treaties: seq<Treaty>, e: TreatyEvent): seq<Treaty> {
    match e
    case Acted(p, action, tick) => (
      match TreatyOutcome(treaties, tick, p, action)
      case Ok(change) => change.treaties
      case Err(_) => treaties)
    case Attacked(attacks, tick) => AllBrokenBy(treaties, attacks, tick)
  }

  ghost function AfterEvents(events: seq<TreatyEvent>): seq<Treaty> {
    if events == [] then [] else AfterEvent(AfterEvents(events[..|events| - 1]), events[|events| - 1])
  }

  lemma EventKeepsTreaties(treaties: seq<Treaty>, e: TreatyEvent)
    requires TreatiesOk(treaties)
    ensures TreatiesOk(AfterEvent(treaties, e)) && Evolves(treaties, AfterEvent(treaties, e))
  {
    match e
    case Acted(p, action, tick) => ActionKeepsTreaties(treaties, tick, p, action);
    case Attacked(attacks, tick) => AttacksKeepTreaties(treaties, attacks, tick);
  }

  lemma EvolvesTransitive(a: seq<Treaty>, b: seq<Treaty>, c: seq<Treaty>)
    requires Evolves(a, b) && Evolves(b, c)
    ensures Evolves(a, c)
  {
    forall i | 0 <= i < |a| ensures Ages(a[i], c[i]) { assert Ages(a[i], b[i]) && Ages(b[i], c[i]); }
  }

  /** Over every run the list stays well formed, and no treaty that has ended ever changes again. */
  lemma {:induction false} TreatyRuns(events: seq<TreatyEvent>, n: nat)
    requires n <= |events|
    ensures TreatiesOk(AfterEvents(events))
    ensures Evolves(AfterEvents(events[..n]), AfterEvents(events))
    decreases |events|
  {
    if n == |events| {
      assert events[..n] == events;
      if events != [] {
        TreatyRuns(events[..|events| - 1], 0);
        EventKeepsTreaties(AfterEvents(events[..|events| - 1]), events[|events| - 1]);
      }
    } else {
      var init := events[..|events| - 1];
      TreatyRuns(init, n);
      assert init[..n] == events[..n];
      EventKeepsTreaties(AfterEvents(init), events[|events| - 1]);
      EvolvesTransitive(AfterEvents(events[..n]), AfterEvents(init), AfterEvents(events));
    }
  }

  /** The event is an acceptance, at the tick on record, by the player of the pair who did not propose. */
  ghost predicate Signs(e: TreatyEvent, t: Treaty) {
    && e.Acted? && e.action.verb == Accept && e.action.kind == t.kind
    && Some(e.tick) == t.signedTick
    && e.player != t.proposedBy
    && PairOf(e.player, e.action.counterparty) == (t.playerA, t.playerB)
    && (e.player == t.playerA || e.player == t.playerB)
  }

  lemma StepSigns(treaties: seq<Treaty>, e: TreatyEvent, i: nat)
    requires TreatiesOk(treaties) && i < |AfterEvent(treaties, e)| && AfterEvent(treaties, e)[i].signedTick.Some?
    ensures (i < |treaties| && treaties[i].signedTick.Some?) || Signs(e, AfterEvent(treaties, e)[i])
  {
    match e
    case Acted(p, action, tick) =>
      LatestIsLast(treaties, PairOf(p, action.counterparty), action.kind);
      PairInOrder(p, action.counterparty);
    case Attacked(attacks, tick) =>
      var k := FirstAttackBreaks(treaties[i], attacks, tick);
  }

  /** Every treaty that was ever in force was accepted, in that run, by the player who had not proposed it. */
  lemma {:induction false} SignedByTheOther(events: seq<TreatyEvent>, i: nat)
    requires i < |AfterEvents(events)| && AfterEvents(events)[i].signedTick.Some?
    ensures exists k :: 0 <= k < |events| && Signs(events[k], AfterEvents(events)[i])
  {
    var init, e := events[..|events| - 1], events[|events| - 1];
    TreatyRuns(init, 0);
    StepSigns(AfterEvents(init), e, i);
    if i < |AfterEvents(init)| && AfterEvents(init)[i].signedTick.Some? {
      SignedByTheOther(init, i);
      EventKeepsTreaties(AfterEvents(init), e);
      assert Ages(AfterEvents(init)[i], AfterEvents(events)[i]);
      var k :| 0 <= k < |init| && Signs(init[k], AfterEvents(init)[i]);
      assert events[k] == init[k];
    }
  }
}
