/** Headless simulation: tick after tick from fixed orders or from an order provider. */
module Simulation {
  import opened Collections
  import opened Domain
  import opened Phases
  import opened Invariants
  import opened RunInvariant
  import opened Regression
  import opened Submissions
  import opened Resolver

  type OrderProvider = (nat, Snapshot) -> OrderBatch

  datatype SimulationError = NegativeTicks | TwoOrderSources | TickFailed(cause: TickError)

  function OrdersFor(orders: Option<OrderBatch>, provider: Option<OrderProvider>, s: Snapshot): OrderBatch {
    match provider
    case Some(give) => give(s.tick, s)
    case None => orders.GetOr(NO_ORDERS)
  }

  ghost function Stepped(s: Snapshot, orders: Option<OrderBatch>, provider: Option<OrderProvider>, m: MapDefinition): Snapshot {
    NextState(s, OrdersFor(orders, provider, s), m).(tick := s.tick + 1)
  }

  /** Each state is the one before it, stepped. */
  ghost predicate Chain(states: seq<Snapshot>, orders: Option<OrderBatch>, provider: Option<OrderProvider>, m: MapDefinition) {
    forall i :: 0 <= i < |states| - 1 ==> states[i + 1] == Stepped(states[i], orders, provider, m)
  }

  /** Fixed orders are given again in every tick, and without any nobody orders. */
  lemma FixedOrdersEachTick(states: seq<Snapshot>, orders: Option<OrderBatch>, m: MapDefinition, i: nat)
    requires i + 1 < |states| && Chain(states, orders, None, m)
    ensures states[i + 1] == NextState(states[i], match orders case Some(batch) => batch case None => OrderBatch([], [], [], []), m)
      .(tick := states[i].tick + 1)
  {
    assert states[i + 1] == Stepped(states[i], orders, None, m);
  }

  /** A provider is asked in every tick, with the clock and the state. */
  lemma ProviderAskedEachTick(states: seq<Snapshot>, give: OrderProvider, m: MapDefinition, i: nat)
    requires i + 1 < |states| && Chain(states, None, Some(give), m)
    ensures states[i + 1] == NextState(states[i], give(states[i].tick, states[i]), m).(tick := states[i].tick + 1)
  {
    assert states[i + 1] == Stepped(states[i], None, Some(give), m);
  }

  lemma SteppedReady(s: Snapshot, orders: Option<OrderBatch>, provider: Option<OrderProvider>, m: MapDefinition)
    requires TickReady(s)
    ensures TickReady(Stepped(s, orders, provider, m))
  {
    TickKeepsReady(s, OrdersFor(orders, provider, s), m);
    ReadyIgnoresClock(NextState(s, OrdersFor(orders, provider, s), m), s.tick + 1);
  }

  /** A chain from the initial state, and the recorded states after it. */
  ghost predicate Traced(states: seq<Snapshot>, history: seq<Snapshot>, initial: Snapshot,
                         orders: Option<OrderBatch>, provider: Option<OrderProvider>, m: MapDefinition)
  {
    states != [] && states[0] == initial && history == states[1..] && Chain(states, orders, provider, m)
  }

  lemma TraceGrows(states: seq<Snapshot>, history: seq<Snapshot>, initial: Snapshot,
                   orders: Option<OrderBatch>, provider: Option<OrderProvider>, m: MapDefinition, next: Snapshot)
    requires Traced(states, history, initial, orders, provider, m)
    requires next == Stepped(states[|states| - 1], orders, provider, m)
    ensures Traced(states + [next], history + [next], initial, orders, provider, m)
  {
    var more := states + [next];
    forall i | 0 <= i < |more| - 1 ensures more[i + 1] == Stepped(more[i], orders, provider, m) {
      if i < |states| - 1 {
        assert more[i] == states[i] && more[i + 1] == states[i + 1];
      } else {
        assert more[i] == states[|states| - 1] && more[i + 1] == next;
      }
    }
    assert more[1..] == states[1..] + [next];
  }

  /** One tick of the simulation: resolve a copy, then set its clock. */
  method StepOnce(current: MatchState, orders: Option<OrderBatch>, provider: Option<OrderProvider>, m: MapDefinition)
    returns (failure: Option<TickError>, next: MatchState)
    requires TickReady(current.View())
    ensures fresh(next) && failure == TickFailure(current.View(), OrdersFor(orders, provider, current.View()))
    ensures failure == None ==> next.View() == Stepped(current.View(), orders, provider, m) && TickReady(next.View())
  {
    var snapshot := Snapshot(current.tick, current.cities, current.armies, current.players, current.victory);
    failure, next := ResolveTick(current, OrdersFor(orders, provider, snapshot), m);
    if failure == None {
      next.tick := current.tick + 1;
      SteppedReady(current.View(), orders, provider, m);
    }
  }

  /** The tick after the last state of a chain fails, for the given cause. */
  ghost predicate FailsAfter(states: seq<Snapshot>, cause: TickError, orders: Option<OrderBatch>, provider: Option<OrderProvider>) {
    states != [] && TickFailure(states[|states| - 1], OrdersFor(orders, provider, states[|states| - 1])) == Some(cause)
  }

  /** Every tick between the states of a chain resolves. */
  ghost predicate AllResolve(states: seq<Snapshot>, orders: Option<OrderBatch>, provider: Option<OrderProvider>) {
    forall i :: 0 <= i < |states| - 1 ==> TickFailure(states[i], OrdersFor(orders, provider, states[i])) == None
  }

  lemma ResolvesOneMore(states: seq<Snapshot>, orders: Option<OrderBatch>, provider: Option<OrderProvider>, next: Snapshot)
    requires states != [] && AllResolve(states, orders, provider)
    requires TickFailure(states[|states| - 1], OrdersFor(orders, provider, states[|states| - 1])) == None
    ensures AllResolve(states + [next], orders, provider)
  {
    var more := states + [next];
    forall i | 0 <= i < |more| - 1 ensures TickFailure(more[i], OrdersFor(orders, provider, more[i])) == None {
      assert more[i] == states[i];
    }
  }

  /** Records every state; stops with an error exactly when a tick fails: income refused, or orders that cannot be sorted. */
  method SimulateTicks(initial: MatchState, ticks: int, orders: Option<OrderBatch>, provider: Option<OrderProvider>, m: MapDefinition)
    returns (result: Result<seq<Snapshot>, SimulationError>, ghost states: seq<Snapshot>)
    requires TickReady(initial.View())
    ensures ticks < 0 <==> result == Err(NegativeTicks)
    ensures result == Err(TwoOrderSources) <==> 0 <= ticks && orders.Some? && provider.Some?
    ensures Chain(states, orders, provider, m) && states != [] && states[0] == initial.View()
    ensures AllResolve(states, orders, provider)
    ensures result.Ok? ==> result.value == states[1..] && |result.value| == ticks
    ensures result.Err? && result.error.TickFailed? ==> |states| <= ticks && FailsAfter(states, result.error.cause, orders, provider)
  {
    states := [initial.View()];
    if ticks < 0 {
      return Err(NegativeTicks), states;
    }
    if orders.Some? && provider.Some? {
      return Err(TwoOrderSources), states;
    }
    result, states := RecordTicks(initial, ticks, orders, provider, m);
  }

  method RecordTicks(initial: MatchState, ticks: nat, orders: Option<OrderBatch>, provider: Option<OrderProvider>, m: MapDefinition)
    returns (result: Result<seq<Snapshot>, SimulationError>, ghost states: seq<Snapshot>)
    requires TickReady(initial.View())
    ensures result.Err? ==> result.error.TickFailed?
    ensures states != [] && Traced(states, states[1..], initial.View(), orders, provider, m)
    ensures AllResolve(states, orders, provider)
    ensures result.Ok? ==> result.value == states[1..] && |result.value| == ticks
    ensures result.Err? ==> |states| <= ticks && FailsAfter(states, result.error.cause, orders, provider)
  {
    states := [initial.View()];
    var current := new MatchState.DeepCopy(initial);
    var history: seq<Snapshot> := [];
    var i := 0;
    while i < ticks
      invariant 0 <= i <= ticks && |states| == i + 1
      invariant Traced(states, history, initial.View(), orders, provider, m) && AllResolve(states, orders, provider)
      invariant fresh(current) && current.View() == states[i] && TickReady(current.View())
    {
      var failure, next := StepOnce(current, orders, provider, m);
      if failure.Some? {
        return Err(TickFailed(failure.value)), states;
      }
      TraceGrows(states, history, initial.View(), orders, provider, m, next.View());
      ResolvesOneMore(states, orders, provider, next.View());
      states := states + [next.View()];
      history := history + [Snapshot(next.tick, next.cities, next.armies, next.players, next.victory)];
      current := next;
      i := i + 1;
    }
    result := Ok(history);
  }

  /** Orders that come from validated queues make a simulation one of the runs the invariants cover. */
  lemma SimulationIsRun(states: seq<Snapshot>, give: OrderProvider, m: MapDefinition, queues: seq<seq<OrderEnvelope>>)
    requires |states| == |queues| + 1 && Chain(states, None, Some(give), m)
    requires forall i :: 0 <= i < |queues| ==> give(states[i].tick, states[i]) == QueuedBatch(states[i], m, queues[i])
    ensures IsRun(m, states, queues)
  {
    forall i | 0 <= i < |queues| ensures states[i + 1] == Tick(states[i], m, queues[i]) {
      assert states[i + 1] == Stepped(states[i], None, Some(give), m);
    }
  }
}
