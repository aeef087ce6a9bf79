/** The greedy rule behind the four validation passes, and what it takes for parts judged alone to be accepted together. */
module GreedyPasses {
  import opened Domain

  /** What may be accepted at all, what rules each other out, and what accepting it costs. */
  datatype Rule<!T> = Rule(ok: T -> bool, clash: (T, T) -> bool, charge: T -> Resources)

  datatype Outcome<T> = Outcome(accepted: seq<T>, budget: Resources)

  const NOTHING := Resources(0, 0, 0)

  function Plus(a: Resources, b: Resources): Resources {
    Resources(a.food + b.food, a.production + b.production, a.money + b.money)
  }

  function Total<T>(charge: T -> Resources, xs: seq<T>): Resources {
    if xs == [] then NOTHING else Plus(Total(charge, xs[..|xs| - 1]), charge(xs[|xs| - 1]))
  }

  ghost predicate Clashes<T>(clash: (T, T) -> bool, accepted: seq<T>, o: T) {
    exists x :: x in accepted && clash(x, o)
  }

  ghost predicate Takes<T>(rule: Rule<T>, earlier: Outcome<T>, o: T) {
    rule.ok(o) && !Clashes(rule.clash, earlier.accepted, o) && earlier.budget.Covers(rule.charge(o))
  }

  /** One more order: accepted if allowed, not ruled out by an accepted one, and paid for from what is left. */
  ghost function Taken<T>(rule: Rule<T>, earlier: Outcome<T>, o: T): Outcome<T> {
    if Takes(rule, earlier, o) then Outcome(earlier.accepted + [o], earlier.budget.Minus(rule.charge(o))) else earlier
  }

  ghost function Greedy<T>(rule: Rule<T>, start: Resources, orders: seq<T>): Outcome<T> {
    if orders == [] then Outcome([], start) else Taken(rule, Greedy(rule, start, orders[..|orders| - 1]), orders[|orders| - 1])
  }

  lemma GreedyStep<T>(rule: Rule<T>, start: Resources, xs: seq<T>, o: T)
    ensures Greedy(rule, start, xs + [o]) == Taken(rule, Greedy(rule, start, xs), o)
  {
    assert (xs + [o])[..|xs + [o]| - 1] == xs;
  }

  /** Nothing is ever paid back. */
  ghost predicate Costs<T(!new)>(charge: T -> Resources) {
    forall o :: charge(o).Covers(NOTHING)
  }

  ghost predicate NoClash<T>(clash: (T, T) -> bool, xs: seq<T>) {
    forall i, j :: 0 <= i < j < |xs| ==> !clash(xs[i], xs[j])
  }

  lemma {:induction false} TotalConcat<T>(charge: T -> Resources, xs: seq<T>, ys: seq<T>)
    ensures Total(charge, xs + ys) == Plus(Total(charge, xs), Total(charge, ys))
  {
    if ys == [] {
      assert xs + ys == xs;
    } else {
      assert (xs + ys)[..|xs + ys| - 1] == xs + ys[..|ys| - 1];
      TotalConcat(charge, xs, ys[..|ys| - 1]);
    }
  }

  lemma {:induction false} TotalCosts<T(!new)>(charge: T -> Resources, xs: seq<T>)
    requires Costs(charge)
    ensures Total(charge, xs).Covers(NOTHING)
  {
    if xs != [] { TotalCosts(charge, xs[..|xs| - 1]); }
  }

  lemma TotalOneMore<T>(charge: T -> Resources, xs: seq<T>, o: T)
    ensures Total(charge, xs + [o]) == Plus(Total(charge, xs), charge(o))
  {
    assert (xs + [o])[..|xs + [o]| - 1] == xs;
  }

  lemma ClashOneMore<T>(clash: (T, T) -> bool, xs: seq<T>, o: T)
    ensures NoClash(clash, xs + [o]) <==> NoClash(clash, xs) && !Clashes(clash, xs, o)
  {
    var all := xs + [o];
    if NoClash(clash, xs) && !Clashes(clash, xs, o) {
      forall i, j | 0 <= i < j < |all| ensures !clash(all[i], all[j]) { assert all[i] == xs[i]; }
    }
    if NoClash(clash, all) {
      PrefixNoClash(clash, xs, [o]);
      forall x | x in xs ensures !clash(x, o) {
        var i :| 0 <= i < |xs| && xs[i] == x;
        assert !clash(all[i], all[|xs|]);
      }
    }
  }

  lemma PrefixNoClash<T>(clash: (T, T) -> bool, xs: seq<T>, ys: seq<T>)
    requires NoClash(clash, xs + ys)
    ensures NoClash(clash, xs)
  {
    forall i, j | 0 <= i < j < |xs| ensures !clash(xs[i], xs[j]) { assert (xs + ys)[i] == xs[i] && (xs + ys)[j] == xs[j]; }
  }

  /** What an outcome of a greedy pass that began with a budget always is: free of clashes, accounted for, paid for. */
  ghost predicate Fair<T>(rule: Rule<T>, start: Resources, g: Outcome<T>) {
    && NoClash(rule.clash, g.accepted) && g.budget == start.Minus(Total(rule.charge, g.accepted))
    && (g.accepted != [] ==> g.budget.Covers(NOTHING))
  }

  lemma {:induction false} GreedyIsFair<T>(rule: Rule<T>, start: Resources, orders: seq<T>)
    ensures Fair(rule, start, Greedy(rule, start, orders))
  {
    if orders != [] {
      var earlier, o := Greedy(rule, start, orders[..|orders| - 1]), orders[|orders| - 1];
      GreedyIsFair(rule, start, orders[..|orders| - 1]);
      StayFair(rule, start, earlier, o);
    }
  }

  lemma StayFair<T>(rule: Rule<T>, start: Resources, g: Outcome<T>, o: T)
    requires Fair(rule, start, g)
    ensures Fair(rule, start, Taken(rule, g, o))
  {
    TotalOneMore(rule.charge, g.accepted, o);
    ClashOneMore(rule.clash, g.accepted, o);
  }

  /** What is accepted and can all be had from a budget. */
  ghost predicate Affordable<T>(charge: T -> Resources, xs: seq<T>, budget: Resources) {
    xs != [] ==> budget.Covers(Total(charge, xs))
  }

  /** Where a joint list stands when its second part is judged by itself on a larger budget. */
  ghost predicate Abreast<T>(rule: Rule<T>, first: Outcome<T>, alone: Outcome<T>, both: Outcome<T>) {
    && both.accepted == first.accepted + alone.accepted
    && both.budget == first.budget.Minus(Total(rule.charge, alone.accepted)) && alone.budget.Covers(both.budget)
  }

  /** The same verdict on one more order, if what is accepted by itself can also be had jointly. */
  lemma StayAbreast<T>(rule: Rule<T>, first: Outcome<T>, alone: Outcome<T>, both: Outcome<T>, o: T)
    requires Abreast(rule, first, alone, both)
    requires NoClash(rule.clash, first.accepted + Taken(rule, alone, o).accepted)
    requires Affordable(rule.charge, Taken(rule, alone, o).accepted, first.budget)
    ensures Abreast(rule, first, Taken(rule, alone, o), Taken(rule, both, o))
  {
    if Takes(rule, alone, o) {
      TotalOneMore(rule.charge, alone.accepted, o);
      assert first.accepted + (alone.accepted + [o]) == both.accepted + [o];
      ClashOneMore(rule.clash, both.accepted, o);
    } else {
      if Clashes(rule.clash, alone.accepted, o) {
        var x :| x in alone.accepted && rule.clash(x, o);
        assert x in both.accepted;
      }
    }
  }

  lemma EarlierFits<T>(rule: Rule<T>, first: Outcome<T>, alone: Outcome<T>, o: T)
    requires rule.charge(o).Covers(NOTHING)
    requires NoClash(rule.clash, first.accepted + Taken(rule, alone, o).accepted)
    requires Affordable(rule.charge, Taken(rule, alone, o).accepted, first.budget)
    ensures NoClash(rule.clash, first.accepted + alone.accepted) && Affordable(rule.charge, alone.accepted, first.budget)
  {
    if Takes(rule, alone, o) {
      TotalOneMore(rule.charge, alone.accepted, o);
      assert first.accepted + (alone.accepted + [o]) == first.accepted + alone.accepted + [o];
      ClashOneMore(rule.clash, first.accepted + alone.accepted, o);
    }
  }

  /** The second part of a list of orders, judged by itself on a larger budget, fares the same if all of it can be had. */
  lemma {:induction false} GreedyJoin<T(!new)>(rule: Rule<T>, start: Resources, xs: seq<T>, high: Resources, ys: seq<T>)
    requires Costs(rule.charge) && high.Covers(Greedy(rule, start, xs).budget)
    requires NoClash(rule.clash, Greedy(rule, start, xs).accepted + Greedy(rule, high, ys).accepted)
    requires Affordable(rule.charge, Greedy(rule, high, ys).accepted, Greedy(rule, start, xs).budget)
    ensures Abreast(rule, Greedy(rule, start, xs), Greedy(rule, high, ys), Greedy(rule, start, xs + ys))
  {
    if ys == [] {
      assert xs + ys == xs;
    } else {
      var init, o := ys[..|ys| - 1], ys[|ys| - 1];
      assert ys == init + [o] && xs + ys == xs + init + [o];
      GreedyStep(rule, high, init, o);
      GreedyStep(rule, start, xs + init, o);
      EarlierFits(rule, Greedy(rule, start, xs), Greedy(rule, high, init), o);
      GreedyJoin(rule, start, xs, high, init);
      StayAbreast(rule, Greedy(rule, start, xs), Greedy(rule, high, init), Greedy(rule, start, xs + init), o);
    }
  }

  // ---- many envelopes ----

  function Flat<T>(part: OrderEnvelope -> seq<T>, envelopes: seq<OrderEnvelope>): seq<T> {
    if envelopes == [] then [] else Flat(part, envelopes[..|envelopes| - 1]) + part(envelopes[|envelopes| - 1])
  }

  lemma {:induction false} FlatSame<T>(f: OrderEnvelope -> seq<T>, g: OrderEnvelope -> seq<T>, envelopes: seq<OrderEnvelope>)
    requires forall e :: e in envelopes ==> f(e) == g(e)
    ensures Flat(f, envelopes) == Flat(g, envelopes)
  {
    if envelopes != [] {
      assert envelopes[|envelopes| - 1] in envelopes;
      FlatSame(f, g, envelopes[..|envelopes| - 1]);
    }
  }

  /** What each envelope gets accepted by itself, on its own budget. */
  ghost function KeptBy<T>(rule: Rule<T>, part: OrderEnvelope -> seq<T>, high: OrderEnvelope -> Resources): OrderEnvelope -> seq<T> {
    (e: OrderEnvelope) => Greedy(rule, high(e), part(e)).accepted
  }

  /** If all that is accepted separately can be had together, together it is accepted. */
  lemma {:induction false} GreedyTogether<T(!new)>(rule: Rule<T>, part: OrderEnvelope -> seq<T>, high: OrderEnvelope -> Resources,
                                                   low: Resources, envelopes: seq<OrderEnvelope>)
    requires Costs(rule.charge) && forall e :: e in envelopes ==> high(e).Covers(low)
    requires NoClash(rule.clash, Flat(KeptBy(rule, part, high), envelopes))
    requires Affordable(rule.charge, Flat(KeptBy(rule, part, high), envelopes), low)
    ensures Greedy(rule, low, Flat(part, envelopes)).accepted == Flat(KeptBy(rule, part, high), envelopes)
  {
    if envelopes != [] {
      var kept, init, e := KeptBy(rule, part, high), envelopes[..|envelopes| - 1], envelopes[|envelopes| - 1];
      assert e in envelopes;
      FirstFits(rule, low, Flat(kept, init), kept(e));
      GreedyTogether(rule, part, high, low, init);
      GreedyIsFair(rule, low, Flat(part, init));
      assert high(e).Covers(low);
      SecondFits(rule, low, Greedy(rule, low, Flat(part, init)), kept(e), high(e));
      GreedyJoin(rule, low, Flat(part, init), high(e), part(e));
    }
  }

  lemma FirstFits<T(!new)>(rule: Rule<T>, low: Resources, first: seq<T>, second: seq<T>)
    requires Costs(rule.charge) && NoClash(rule.clash, first + second) && Affordable(rule.charge, first + second, low)
    ensures NoClash(rule.clash, first) && Affordable(rule.charge, first, low)
  {
    PrefixNoClash(rule.clash, first, second);
    TotalConcat(rule.charge, first, second);
    TotalCosts(rule.charge, second);
  }

  lemma SecondFits<T(!new)>(rule: Rule<T>, low: Resources, first: Outcome<T>, second: seq<T>, high: Resources)
    requires Costs(rule.charge) && Fair(rule, low, first) && Affordable(rule.charge, first.accepted + second, low) && high.Covers(low)
    ensures Affordable(rule.charge, second, first.budget) && high.Covers(first.budget)
  {
    TotalConcat(rule.charge, first.accepted, second);
    TotalCosts(rule.charge, first.accepted);
    LeftOver(low, Total(rule.charge, first.accepted), Total(rule.charge, second), high);
  }

  lemma LeftOver(low: Resources, first: Resources, second: Resources, high: Resources)
    requires first.Covers(NOTHING) && high.Covers(low)
    ensures low.Covers(Plus(first, second)) <==> low.Minus(first).Covers(second)
    ensures high.Covers(low.Minus(first))
  {
  }
  lemma {:induction false} PartOfTotal<T(!new)>(charge: T -> Resources, kept: OrderEnvelope -> seq<T>,
                                                envelopes: seq<OrderEnvelope>, e: OrderEnvelope)
    requires Costs(charge) && e in envelopes
    ensures Total(charge, Flat(kept, envelopes)).Covers(Total(charge, kept(e)))
  {
    var init, last := envelopes[..|envelopes| - 1], envelopes[|envelopes| - 1];
    TotalConcat(charge, Flat(kept, init), kept(last));
    TotalCosts(charge, Flat(kept, init));
    TotalCosts(charge, kept(last));
    if e != last {
      assert e in init;
      PartOfTotal(charge, kept, init, e);
    }
  }
}
