# Iron Council's game engine, modelled and proved

Iron Council is a match server for a deterministic strategy game. This project models the parts of the server that
decide a match, in the system's own terms, and proves what they promise:

- the **tick resolver**: eight ordered phases that update a match state in place;
- the **order validator** and the way queued submissions are combined into one batch per tick;
- the **simulation loop** and the regression harness's invariants, here an inductive invariant of every run;
- the **match initialiser** with its backtracking search for starting cities;
- the **registry**: messages, treaties, alliances, the second victory rule, the all-or-nothing command envelope;
- four smaller cores: the fog-of-war projection, the sliding-window limiter, persisted player ids, and the dependency
  graph helpers.

Objects that the server updates in place are classes here (`Resolver.MatchState`, `Registry.MatchRecord`,
`SpawnSearch.Assignment`, `RateLimiter.AbuseGuard`, `DependencyGraph.CycleFinder`). Each method is proved equal to a
specification on values that is free of visiting order, and the theorems are about those specifications and about runs.
`Phases.dfy` holds the specification of a tick, phase by phase; `*Steps.dfy` the loops, `*Facts.dfy` their step lemmas.

## Reading order

1. `Domain.dfy`, `Phases.dfy`, `Casualties.dfy`, `Resolver.dfy`: one tick.
2. `Validation.dfy`, `Routes.dfy`, `Submissions.dfy`, `OrderIndependence.dfy`, `Departures.dfy`,
   `Economy.dfy`: from orders to a batch.
3. `Invariants.dfy`, `QueueInvariant.dfy`, `RunInvariant.dfy`, `Regression.dfy`, `Simulation.dfy`,
   `MixedBatch.dfy`, `HarnessOrders.dfy`, `GreedyPasses.dfy`, `HarnessBudgets.dfy`: every run.
4. `TroopLedger.dfy`, `Fortification.dfy`, `FoodDebt.dfy`: what a tick does to troops, walls and stores.
5. `VictorySync.dfy`, `AllianceRules.dfy`, `AllianceDerivation.dfy`, `TreatyRules.dfy`, `HostileBreaks.dfy`,
   `RecordSteps.dfy`, `Registry.dfy`, `RecordRuns.dfy`, `BlameOrder.dfy`, `Announcements.dfy`, `LeadPasses.dfy`:
   the registry and whole runs of a match record.
6. `SpawnSearch.dfy`, `MatchSetup.dfy`, `MatchStart.dfy`: how a match begins.
7. `Fog.dfy`, `RateLimiter.dfy`, `PlayerIds.dfy`, `PrintedIds.dfy`, `DependencyGraph.dfy`, `DependencyLayers.dfy`,
   `DependencyHeights.dfy`: the smaller cores.
8. `*Laws.dfy`: the same in the match's own terms, in numbers, edges, alliance ids and treaty fields instead of the
   specification's functions: `BattleLaws.dfy`, `BuildLaws.dfy`, `MarchLaws.dfy`, `IncomeLaws.dfy`, `SiegeLaws.dfy`,
   `BillLaws.dfy` and `CountdownLaws.dfy` for the tick and its runs, `OrderLaws.dfy` for validation, `CommandLaws.dfy`,
   `TreatyLaws.dfy` and `AllianceLaws.dfy` for the registry, `SightLaws.dfy` for the projection. They say what a reader of
   the specification would otherwise have to take from its bodies: what an order costs and who may give it, when an action
   succeeds, that what is started is finished, and when.

## Findings

Where the code does not meet what one would expect of it, the code is modelled as it is:

- Orders are budgeted on the resources before the tick, but upkeep is taken first, so food and money can go below zero.
  `Economy.StaysInTheBlackIff` gives the exact condition and `FoodDebt.FoodGoesNegative` a concrete tick. Only
  production is non-negative in every run.
- A player starves when its food is exactly zero. In debt it does not (`TroopLedger.StarvingIffEmpty`).
- Income stores food and money at no less than zero, so a debt lasts until the next income and is then forgotten
  (`FoodDebt.DebtForgotten`; `Fortification.UpkeepAccounts` for money).
- A city whose neighbours are all neutral counts as besieged: only a friendly neighbour prevents it
  (`SiegeSteps.NeutralNeighboursBesiege`).
- The recruitment sort compares owners, and a missing owner compares with none: a batch that mixes orders for owned and
  for ownerless or unknown cities fails the tick. `Resolver.ResolveTick` has the exact condition. Validated batches never
  do this (`OrderIndependence.QueuedSortable`); orders handed straight to the simulation can (`MixedBatch.MixedBatchFails`).
- The regression harness validates each envelope by itself, on the player's whole budget. With two envelopes a player can
  so spend twice what there is (`HarnessOrders.TwoEnvelopesOverspend`). `HarnessBudgets.SeparateIsTogetherIff` says exactly
  when separate validation accepts what the service's joint validation does; with one envelope a player it always does
  (`HarnessOrders.HarnessIsQueued`).
- The initialiser does not compare the victory threshold with the map; next to the signs of food and money that is the one
  harness check a run cannot establish by itself (`Regression.EveryTickPasses`, `Regression.EveryTickVerdict`).
- The sync is not idempotent exactly right after the lead has passed between two qualifying leaders
  (`VictorySync.SyncIdempotentIff`, with `LeadPasses.SecondSyncDiffers` for a record where it happens); after an advance
  it always is.
- When two treaty partners march on each other in one tick, who is blamed depends on how the two players' submissions were
  interleaved, although the match state does not (`OrderIndependence.QueueOrderIrrelevant`). That is the only case:
  `BlameOrder.InterleavingIrrelevantIff` gives the exact condition and `BlameOrder.WhoeverSubmitsFirstIsBlamed` two queues.
- Where nobody disputes a break, the announcements are the same whatever the interleaving
  (`Announcements.UndisputedNewsIsSame`). Their order is fixed exactly when all treaties that break are broken by one
  player (`Announcements.NewsOrderIrrelevantIff`); `Announcements.AnnouncedInOrderOfSubmission` shows two queues with two
  orders.
- The id reader accepts more than the printer prints (`PlayerIds.ReaderIsLenient`). `PrintedIds.PrintedIff` tells the
  printed ids by their text and `PrintedIds.AcceptedPrintsAgainIff` the accepted ids that print again unchanged.
- The layering helper overlooks dependencies that run through nodes outside the given set
  (`DependencyHeights.OpenSetsHideDependencies`). `DependencyHeights.LayersIndependentIff` says exactly for which node
  sets that does no harm.

## Assumptions

- Army ids are unique, armies stand, owners are known players and the ownership lists match at the start of a run; a
  fresh match satisfies this (`MatchStart.FreshMatchIsReady`) and every tick keeps it.
- Map edges join known cities and have positive length; upgrade tiers lie in 0 to 3 (types in `Domain.dfy`).
- No player goes by a name of the form `alliance-n`, so that alliance and player names never meet in the registry's
  single name space (`AllianceDerivation.PlainNames`).
- Army owners' names hold no blank where the order of announcements is told from their text
  (`Announcements.PlainOwners`); without that two different breaks could read alike.
- The limiter's clock never runs backwards.

## Model

| member | source | states |
|---|---|---|
| Casualties.AllocateProportionalCasualties | server/resolver.py:473-504 | returns, by army id and without zero entries, exactly the largest-remainder losses; the loop body is proved army by army |
| Casualties.AllocateFloors | server/resolver.py:485-495 | first pass: every army is booked the whole part of its quota, remainders are queued, the floors are totalled |
| Casualties.AllocateExtras | server/resolver.py:497-502 | second pass: one extra loss each to as many armies as the floors left over, in order of remainder and then id, leaves every army with its exact loss; one pass is enough |
| Casualties.LossesExact | server/resolver.py:473-504 | for any total up to the troops at hand, the losses of uniquely named armies add up to exactly that total |
| Casualties.LossNearQuota | server/resolver.py:473-504 | each loss is the floor or the ceiling of the exact quota total * troops / all troops |
| Casualties.LossAffordable | server/resolver.py:473-504 | no army loses more than it has and none gains |
| Casualties.ExtrasByRemainder | server/resolver.py:497-502 | an army that takes an extra loss has a remainder at least as large as any army that does not, and the smaller id when equal |
| Casualties.ExtraNeedsRemainder | server/resolver.py:497-502 | an army whose quota is whole never takes an extra loss |
| Casualties.LargestRemainderUnique | server/resolver.py:473-504 | the largest-remainder rule leaves no freedom: the computed sharing meets it, and any sharing that meets it is the computed one |
| CombatSteps.CombatCasualtiesByOwner | server/resolver.py:406-439 | exactly the owners who face a positive opposing strength are booked, each with the smaller of its own troops and a tenth, rounded down, of the strength of everyone else there; BattleLaws has the numbers |
| CombatSteps.CasualtiesHere | server/resolver.py:406-439 | those casualties are the ones the order-free specification of combat assigns |
| CombatSteps.ApplyLosses | server/resolver.py:375-381 | every army is reduced by what the ledger books for it and the spent ones are dropped, in list order |
| CombatSteps.ArmiesByOwner | server/resolver.py:442-446 | groups hold exactly the armies of each owner, in list order |
| Resolver.MatchState.ResolveContestedCityCombat | server/resolver.py:350-381 | whatever order cities and owners are visited in, every army loses its share of its owner's casualties in its city, all computed from the positions before the battle, and the dead are removed; BattleLaws has the numbers |
| Resolver.MatchState.TransferUncontestedCityControl | server/resolver.py:384-403 | in any visiting order each city falls to its only occupant when that is a known player, and both ownership records follow |
| Resolver.MatchState.RemoveCityFromPlayer | server/resolver.py:449-459 | strikes the city from one known player's list and leaves everyone else alone |
| Resolver.MatchState.AddCityToPlayer | server/resolver.py:462-470 | lists the city once, keeping the list sorted and free of duplicates; an already listed city changes nothing |
| Resolver.MatchState.ResolveCombatPhase | server/resolver.py:176-182 | fighting, then control, equals the phase's order-free specification |
| Resolver.PlayerIncome | server/resolver.py:120-140 | one player's food, production and money after yields, population, soldiers and upkeep, and the cities that went unpaid |
| Resolver.StoreIncome | server/resolver.py:119-140 | succeeds exactly when no stored count would be negative, and then every player holds its income and the unpaid cities are exactly the specified ones |
| Resolver.MatchState.ResolveResourcePhase | server/resolver.py:104-142 | the phase equals its specification, or refuses exactly when a stored count would be negative |
| ResourceSteps.DeductUpkeep | server/resolver.py:299-315 | walks the fortified cities by id, paying while the money lasts and skipping what it cannot cover |
| ResourceSteps.FortifiedInOrder | server/resolver.py:318-330 | the owner's fortified cities, each once, by id |
| ResourceSteps.CollectIncome | server/resolver.py:120-127 | adds up each listed city's yield in every resource and counts the mouths to feed |
| Resolver.MatchState.AdvanceBuildQueues | server/resolver.py:565-579 | every queue steps once, finished items raise their track, in any city order; BuildLaws says that what is due is built |
| Resolver.AdvanceCity | server/resolver.py:566-579 | one city: items at their last tick are applied in order, the others keep their place with one tick less; BuildLaws says that what is due is built |
| Resolver.MatchState.ProcessRecruitmentOrders | server/resolver.py:612-660 | succeeds exactly when the ordered cities are all owned or all ownerless; then orders run by owner, city and size, each known owner pays and is reinforced, and army ids stay unique; on failure nothing has changed |
| Resolver.MatchState.RecruitInOrder | server/resolver.py:625-660 | orders already in processing order are served one by one |
| Ordering.TrySortIff | server/resolver.py:621-624 | where values of two kinds cannot be compared, sorting fails exactly when both kinds are present, and otherwise gives the sorted list |
| BuildFacts.RecruitSortIff | server/resolver.py:689-695 | the recruitment sort fails exactly on a mix of owned and ownerless (or unknown) cities |
| OrderIndependence.QueuedSortable | server/resolver.py:621-624 | accepted orders are for owned cities only, so a validated batch is always sorted |
| Resolver.MatchState.RecruitInto | server/resolver.py:633-660 | recruits join the least-named friendly army standing in the city, or a new army under the first free numbered name |
| Naming.NextFreeName | server/resolver.py:718-728 | the search for a free numbered name terminates and returns the least free suffix |
| Resolver.MatchState.StartUpgradeOrders | server/resolver.py:582-609 | upgrades start unless the track was already queued at the start of the phase; items and bills equal their closed form |
| BuildFacts.UpgradeAllClosed | server/resolver.py:588-609 | starting upgrades one by one comes to extending each queue and billing each payer once |
| Resolver.MatchState.ProcessTransferOrders | server/resolver.py:663-686 | transfers between known players net out per player and resource, in any order |
| Resolver.MatchState.ResolveBuildPhase | server/resolver.py:145-161 | succeeds exactly when the recruitment orders can be sorted; then queues, recruitment, upgrades, transfers in that order equal the phase's specification |
| Resolver.MatchState.AdvanceTransitArmies | server/resolver.py:525-534 | armies under way step once and arrive when their time is up; MarchLaws says that armies arrive |
| Resolver.MatchState.StartMovementOrders | server/resolver.py:537-562 | each ordered army that stands in a city with a road to the destination departs for the length of that road; everybody else stays |
| Resolver.MatchState.ResolveMovementPhase | server/resolver.py:164-173 | arrivals before departures, army ids kept unique |
| SiegeSteps.AdjacentCityIdsByCity | server/resolver.py:737-745 | the neighbour sets are exactly the adjacency of the edges, both ways |
| SiegeSteps.IsBesiegedCity | server/resolver.py:770-799 | an owned city with neighbours is besieged exactly when no neighbour is held by its own coalition |
| SiegeSteps.NeutralNeighboursBesiege | server/resolver.py:770-799 | a concrete city, its only neighbour unowned and no army anywhere, loses a fortification tier to the siege |
| Resolver.MatchState.ResolveSiegePhase | server/resolver.py:748-767 | exactly the besieged fortified cities lose a tier and are recorded, whatever the visiting order |
| Resolver.StarveArmies | server/resolver.py:199-214 | armies of starving players lose one troop, the last one dies |
| Resolver.MatchState.DegradeUnpaidFortifications | server/resolver.py:333-347 | unpaid cities lose a tier unless the siege already took one |
| Resolver.MatchState.MarkEliminated | server/resolver.py:221-235 | a player is marked exactly when it holds no city and commands no army |
| Resolver.MatchState.ResolveAttritionPhase | server/resolver.py:196-237 | hunger, unpaid walls, elimination, in that order |
| VictorySteps.CountCities | server/resolver.py:828-845 | city counts per side, over cities with a known owner |
| VictorySteps.FindLeader | server/resolver.py:858-872 | names the side that holds strictly more cities than every other, or nobody, together with the largest holding |
| Resolver.MatchState.ResolveVictoryPhase | server/resolver.py:247-262 | the victory record names leader, holding and the stepped countdown |
| Resolver.ResolveTick | server/resolver.py:85-101 | resolves a fresh copy and leaves the given state untouched: fails exactly when income would store a negative count or recruitment mixes owned and ownerless cities, with the first of these causes, and otherwise equals the composed specification |
| Invariants.ReadyForSiege | server/resolver.py:384-403 | unique army ids, standing armies and matching ownership records survive income, building, movement, combat and control |
| ControlFacts.ControlDone | server/resolver.py:384-403 | settling cities one at a time ends in the order-free transfer of control, lists included |
| RunInvariant.TickKeepsPlaces | server/resolver.py:525-562 | armies stay well placed: standing in a known city, or under way to one with time left |
| QueueInvariant.TickKeepsQueues | server/resolver.py:565-609 | every queue keeps one unfinished item per track, each above the level built, through every phase |
| QueueInvariant.QueuedUpgradesFit | server/order_validation.py:387-441 | whatever the queue, accepted upgrades aim one tier up and no track is ordered twice, across all players |
| RunInvariant.TickKeepsInv | server/resolver.py:85-274 | a validated tick keeps the whole inductive invariant and cannot fail for any cause |
| RunInvariant.TickMarksEliminated | server/resolver.py:221-235 | after any tick a player is eliminated exactly when it has no city and no army |
| RunInvariant.LeadersAgree | server/resolver.py:848-872 | with alliance and player names apart, naming sides in one name space or in two finds the same leader and holding |
| Regression.InvariantPasses | server/simulation_regression.py:171-468 | the inductive invariant implies every check of the regression harness except food and money signs |
| Regression.VictoryPassesFrom | server/simulation_regression.py:380-468 | a victory record that matches the cities passes the harness's victory checks |
| Regression.TickVictoryOk | server/resolver.py:247-262 | after a tick the record matches the cities: sole leader, largest holding, countdown only at the threshold |
| Regression.EveryTickPasses | server/simulation_regression.py:171-468 | every state a run reaches passes the checks if and only if the threshold fits the map |
| Regression.EveryTickVerdict | server/simulation_regression.py:171-468 | the harness's whole verdict, signs of food and money included: a state a run reaches passes if and only if the threshold fits the map and in the tick before every player's accepted food and money spending fitted income and receipts |
| Regression.EveryTickResolves | server/resolver.py:85-101 | from any state a run reaches, the next tick resolves whatever is queued: no income is refused and no batch is unsortable |
| Simulation.SimulateTicks | server/simulation.py:28-70 | records exactly the states that follow one another by ticks; each argument error exactly in its case; no recorded tick failed, and it stops early exactly at a tick that fails, with that tick's cause |
| Simulation.RecordTicks | server/simulation.py:45-70 | the recorded list is the chain of stepped copies, one per tick that resolved, up to the first that fails |
| Simulation.StepOnce | server/simulation.py:46-59 | resolves a copy with the orders of the tick and sets its clock, or reports the tick's cause of failure |
| MixedBatch.MixedBatchFails | server/resolver.py:689-695 | a concrete state and batch, one city owned and one unknown, whose tick fails because the two orders cannot be compared |
| Simulation.SimulationIsRun | server/simulation.py:45-70 | a simulation whose provider returns combined and validated queues is one of the runs the invariants cover |
| HarnessOrders.ProvideOrders | server/simulation_regression.py:90-113 | the harness's own provider: every envelope validated by itself, accepted orders and rejections joined in order |
| HarnessOrders.HarnessIsQueued | server/simulation_regression.py:90-113 | with at most one envelope a player in the tick, that is the batch the service would resolve |
| HarnessOrders.HarnessSimulationIsRun | server/simulation_regression.py:90-113 | so the harness's simulation of such scenarios is one of the runs the invariants cover |
| HarnessOrders.TwoEnvelopesOverspend | server/simulation_regression.py:90-113 | a concrete pair of envelopes for which the condition below fails: five food are budgeted twice and recruit ten |
| HarnessBudgets.SeparateIsTogetherIff | server/simulation_regression.py:90-113 | for due envelopes, validating each by itself accepts of every player what validating them together does if and only if no player's separately accepted orders name an army twice, name a track of a city twice, or, costing anything, cost more of a resource than the player has |
| HarnessBudgets.HarnessStateIsTheServices | server/simulation_regression.py:90-113 | under that condition the harness's next state is the service's |
| HarnessBudgets.HarnessRunsTheService | server/simulation_regression.py:90-113 | a harness simulation that meets the condition in every tick is one of the runs the invariants cover |
| GreedyPasses.GreedyTogether | server/order_validation.py:100-175 | a greedy pass over joined lists accepts what passes over each list on larger budgets accept, if all of that is free of clashes and affordable |
| HarnessBudgets.UpgradesAreGreedy | server/order_validation.py:137-159 | the upgrade pass is that greedy rule, duplicates clashing by city and track |
| Validation.ValidateOrderEnvelope | server/order_validation.py:75-177 | the four passes, late and unknown-player rejections equal the specification: accepted orders, reasons and indexes |
| Validation.ValidateMovements | server/order_validation.py:100-122 | movement pass: duplicates refused first, then each order by its own reason |
| Validation.ValidateRecruitment | server/order_validation.py:124-135 | recruitment pass on the running budget |
| Validation.ValidateUpgrades | server/order_validation.py:137-159 | upgrade pass on what recruitment left, one order per city and track |
| Validation.ValidateTransfers | server/order_validation.py:161-175 | transfer pass on what upgrades left, stamping the sender |
| Validation.CheckMovement | server/order_validation.py:274-335 | the reason a movement is refused, in the validator's order of tests |
| Validation.CheckTransfer | server/order_validation.py:444-511 | the reason a transfer is refused, in the validator's order of tests; OrderLaws has the conditions on alliance ids and counts |
| ValidationFacts.MovementsAccepted | server/order_validation.py:100-122 | of the orders for one army exactly the first valid one is accepted |
| ValidationFacts.MovementsSplit | server/order_validation.py:100-122 | every movement is accepted in place or refused once under its index |
| ValidationFacts.RecruitmentAccepted | server/order_validation.py:124-135 | recruitment splits into accepted and refused, and the budget is start minus accepted cost, never negative once anything is accepted |
| ValidationFacts.UpgradesAccepted | server/order_validation.py:137-159 | the same for upgrades, each aiming exactly one tier up in an own city |
| ValidationFacts.UpgradesDistinct | server/order_validation.py:137-159 | no city and track is accepted twice in one envelope |
| ValidationFacts.TransfersAccepted | server/order_validation.py:161-175 | the same for transfers, which carry the sender and go to a known player |
| ValidationFacts.AcceptedAffordable | server/order_validation.py:96-175 | for every resource the accepted cost lies between zero and what the player had |
| ValidationFacts.NothingInTheRed | server/order_validation.py:366-384 | a player with any count below zero gets no recruitment, upgrade or transfer accepted |
| Routes.HasConnectedLandRoute | server/order_validation.py:530-580 | breadth-first search answers yes if and only if a path of land edges through cities of traversable owners joins the two players; it terminates |
| Routes.ConnectedRouteOwnerIds | server/order_validation.py:602-620 | both ends, plus the whole alliance when they share one |
| Routes.BuildAdjacencyIndex | server/order_validation.py:514-527 | the index is exactly the symmetric adjacency of the edges of the mode |
| Routes.LandRouteSymmetric | server/order_validation.py:530-580 | the answer is the same with sender and recipient swapped |
| Submissions.CombineSubmissionsByPlayer | server/agent_registry_commands.py:295-316 | one envelope per player, in order of first submission, holding that player's orders in submission order |
| Submissions.ValidateQueuedOrders | server/agent_registry_commands.py:271-292 | the batch is each submitter's accepted orders, joined in order of first submission |
| OrderIndependence.QueueOrderIrrelevant | server/agent_registry_commands.py:271-316 | any two queues in which each player's own submissions come in the same order resolve to the same next state |
| OrderIndependence.PartOfQueued | server/agent_registry_commands.py:271-292 | a player's part of the batch is what was accepted for that player, nothing more |
| OrderIndependence.SameRecruits | server/resolver.py:612-695 | recruitment depends only on which orders there are: the processing key fixes the order |
| OrderIndependence.SameDepartures | server/resolver.py:537-562 | movements depend only on each army's own orders |
| Departures.AcceptedMovement | server/order_validation.py:274-335 | an accepted movement names an army that stands in a city a road joins to the destination, and is the only one accepted for it |
| Departures.AcceptedMovementsDepart | server/resolver.py:537-562 | every accepted movement sets the very army it names out in that tick, from where that army stands, for the length of its road |
| OrderIndependence.SameTransfers | server/resolver.py:663-686 | transfers commute |
| Economy.IncomeAlwaysStorable | server/resolver.py:119-140 | with non-negative yields and production, the resource phase never fails and never lowers production |
| Economy.SpentWithinBudget | server/order_validation.py:96-175 | over a whole queue a player's accepted spending stays within what it had before the tick |
| Economy.BuildLedger | server/resolver.py:145-161 | building changes each resource of each player by exactly its bills and transfers |
| Economy.BuildAccounts | server/resolver.py:119-161 | after building a player holds income minus accepted spending plus receipts: exactly for food and money, at least for production |
| Economy.ProductionStaysNonNegative | server/resolver.py:582-660 | production is never negative after any validated tick |
| Economy.StaysInTheBlackIff | server/resolver.py:119-161 | food or money ends a tick non-negative if and only if the accepted spending fits what upkeep left plus receipts |
| Economy.TransfersConserve | server/resolver.py:663-686 | the total of each resource over all players is unchanged by transfers |
| FoodDebt.FoodGoesNegative | server/order_validation.py:96-175 | a concrete state and accepted order after which food is -5 and nobody starves: budgets are taken before upkeep |
| FoodDebt.DebtForgotten | server/resolver.py:129-132 | a concrete food debt is gone after the next income although the balance would be -14 |
| TroopLedger.TroopsOverTick | server/resolver.py:85-274 | over a whole tick each owner's troops change by recruits minus its casualties in each contested city minus one per surviving army when its food is exactly zero |
| TroopLedger.BuildTroops | server/resolver.py:612-660 | recruitment adds exactly the troops ordered in cities the player owns |
| TroopLedger.MovementTroops | server/resolver.py:525-562 | movement changes nobody's troops |
| TroopLedger.CombatTroops | server/resolver.py:350-381 | an owner loses its casualties in each contested city and nothing anywhere else |
| TroopLedger.GroupLoss | server/resolver.py:363-373 | the armies of one owner in one contested city together lose exactly that owner's casualties there |
| TroopLedger.NoFightNoLoss | server/resolver.py:350-381 | an army under way or in an uncontested city comes out of combat as it was |
| TroopLedger.HungerTroops | server/resolver.py:199-214 | hunger takes exactly one troop per army of a starving player |
| TroopLedger.StarvingIffEmpty | server/resolver.py:199-203 | a player starves in a tick exactly when its food ends that tick at zero; debt does not starve |
| Fortification.UpkeepAccounts | server/resolver.py:299-330 | money left is what was available minus the cost of the paid cities, and less than the cost of every unpaid one |
| Fortification.UnpaidExactly | server/resolver.py:299-330 | a city goes unpaid exactly when what the paid cities with smaller ids left does not cover it |
| Fortification.FortificationOverTick | server/resolver.py:333-347 | over a tick a city loses exactly one tier if it has one and is besieged or unpaid, otherwise none; other tracks keep what was built |
| VictorySync.SyncVictoryState | server/agent_registry_diplomacy.py:465-504 | sets leader, holding and countdown of the second victory rule |
| VictorySync.SyncIdempotentIff | server/agent_registry_diplomacy.py:465-504 | syncing twice equals syncing once, except exactly when the lead has just passed between qualifying leaders |
| LeadPasses.SyncTwice | server/agent_registry_diplomacy.py:465-504 | right after the lead has passed between qualifying sides, one sync stops the countdown and a second restarts it at the threshold |
| LeadPasses.SecondSyncDiffers | server/agent_registry_diplomacy.py:465-504 | a concrete record in sync and one member leaving: the lead passes from the alliance to the leaver, and syncing the result again changes it |
| VictorySync.AdvanceIsSynced | server/agent_registry_commands.py:259-262 | after an advance the sync is a fixed point, agrees with the resolver on leader and holding, and a countdown runs if and only if a sole leader meets the threshold |
| VictorySync.TickCountdown | server/resolver.py:875-891 | a tick restarts the countdown, lowers it by at most one under the same leader, or stops it |
| VictorySync.AllianceCountdown | server/agent_registry_diplomacy.py:490-504 | an alliance action never lowers a running countdown |
| VictorySync.EveryCountdownEarned | server/resolver.py:247-262 | every countdown on record was earned tick by tick under one unbroken lead |
| VictorySync.WinnerHasHeld | server/agent_registry.py:93-103 | a terminal winner led alone with at least the threshold of cities in every state of an unbroken stretch of at least threshold ticks |
| AllianceRules.IndexIsFaithful | server/agent_registry_diplomacy.py:67-166 | under the index a player's alliance id is A exactly when A lists the player once and no other alliance lists it |
| AllianceRules.ActionKeepsIndex | server/agent_registry_diplomacy.py:67-166 | every successful create, join or leave keeps ids unique, alliances non-empty, the leader a member, and lists and ids in agreement |
| AllianceRules.CreateKeepsIndex | server/agent_registry_diplomacy.py:77-104 | a new alliance gets a fresh id and its founder as only member and leader |
| AllianceRules.LeaveKeepsIndex | server/agent_registry_diplomacy.py:135-166 | leaving dissolves an emptied alliance and passes leadership to the least remaining id |
| AllianceRules.LeaveAlwaysFinds | server/agent_registry_diplomacy.py:135-146 | with the index in force, leaving succeeds exactly when the player is in an alliance |
| AllianceDerivation.DeriveAlliancesFromState | server/agent_registry_diplomacy.py:439-462 | one alliance per alliance id in id order, members by id, the first one leading |
| AllianceDerivation.GroupByAlliance | server/agent_registry_diplomacy.py:440-444 | players grouped by alliance id, each once |
| AllianceDerivation.RebuildingAgrees | server/agent_registry_diplomacy.py:439-462 | stored and rebuilt alliances have the same ids with the same member sets, both ways |
| AllianceDerivation.IndexKeepsNamesApart | server/agent_registry_diplomacy.py:400-405 | under the index alliance names never collide with player names |
| Registry.FindAlliance | server/agent_registry_diplomacy.py:389-397 | the first alliance under an id |
| Registry.NextAllianceName | server/agent_registry_diplomacy.py:400-405 | the first free numbered alliance id; the search terminates |
| Registry.MatchRecord.CreateAlliance | server/agent_registry_diplomacy.py:77-104 | creates in place exactly as specified, with both refusals, and syncs victory |
| Registry.MatchRecord.JoinAlliance | server/agent_registry_diplomacy.py:106-133 | joins in place exactly as specified, with all refusals, and syncs victory |
| Registry.MatchRecord.LeaveAlliance | server/agent_registry_diplomacy.py:135-166 | leaves in place exactly as specified, with both refusals, and syncs victory |
| Registry.MatchRecord.ApplyAllianceAction | server/agent_registry_diplomacy.py:67-166 | dispatches; on a refusal the record is unchanged |
| Registry.MinMember | server/agent_registry_diplomacy.py:163 | the least member id |
| TreatyRules.FindLatestTreaty | server/agent_registry_diplomacy.py:364-378 | the last treaty of a kind between two players |
| TreatyRules.OpenIsLatest | server/agent_registry_diplomacy.py:169-268 | at most one treaty of a pair and kind is proposed or active, and it is the one a look-up finds |
| TreatyRules.ActionKeepsTreaties | server/agent_registry_diplomacy.py:169-268 | proposing, accepting and withdrawing keep ids equal to positions and the list well formed, and only age treaties |
| TreatyRules.AttacksKeepTreaties | server/agent_registry_diplomacy.py:331-361 | hostile breaks keep the same |
| TreatyRules.FirstAttackBreaks | server/agent_registry_diplomacy.py:343-361 | an active treaty is broken by the first attack that crosses it and by no later one |
| TreatyRules.TreatyRuns | server/agent_registry_diplomacy.py:169-378 | over every run the list stays well formed and a treaty that has ended never changes again |
| TreatyRules.SignedByTheOther | server/agent_registry_diplomacy.py:228-247 | every treaty ever in force was accepted in that run, at its signing tick, by the player of the pair who had not proposed it |
| HostileBreaks.AttackedIff | server/agent_registry_diplomacy.py:298-319 | the attacks of a batch are exactly an ordered army's owner against each other owner or occupant of the destination |
| HostileBreaks.NoTreatyWithTheAttacked | server/agent_registry_diplomacy.py:290-328 | after reconciliation no active treaty joins an attacker with an owner or occupant of a city it was ordered into |
| HostileBreaks.BreaksAreEarned | server/agent_registry_diplomacy.py:331-361 | every treaty that changes was active and is broken, on the matching side, by an attacker with such an order; no other field or treaty changes |
| HostileBreaks.OneNoticePerBreak | server/agent_registry_diplomacy.py:351-361 | as many announcements as treaties that stop being in force |
| Announcements.AnnouncedAreTheirs | server/agent_registry_diplomacy.py:351-361 | what a tick announces is, as a multiset, one text for each treaty it ends, naming that treaty's first crossing attack and kind |
| Announcements.UndisputedNewsIsSame | server/agent_registry_diplomacy.py:290-361 | without a two-way march on a treaty in force, every interleaving announces the same texts, each as often |
| Announcements.NewsOrderIrrelevantIff | server/agent_registry_diplomacy.py:290-361 | the announcements come the same and in the same order for every interleaving if and only if all accepted movements that cross a treaty in force are one player's |
| Announcements.AdvanceIgnoresInterleavingInFull | server/agent_registry_commands.py:226-268 | under that condition an advance leaves the same record, but for what still waits in the queue |
| Announcements.AnnouncedInOrderOfSubmission | server/agent_registry_diplomacy.py:305-361 | two concrete queues that differ only in the interleaving of two players, without a dispute, whose messages come in opposite orders |
| BlameOrder.InterleavingIrrelevantIff | server/agent_registry_diplomacy.py:290-361 | the treaties after a tick are the same for every interleaving of different players' submissions if and only if no treaty in force binds two players whose accepted movements march on each other |
| BlameOrder.PromotedIsBlamed | server/agent_registry_diplomacy.py:305-328 | a player who marches on a treaty partner is blamed once the player's own submissions come first in the queue |
| BlameOrder.UndisputedIgnoresInterleaving | server/agent_registry_diplomacy.py:290-361 | without such a treaty, two queues with equal submissions player by player leave equal treaties |
| BlameOrder.AdvanceIgnoresInterleavingOfAll | server/agent_registry_commands.py:226-268 | without such a treaty a whole advance leaves the same state, the same treaties and as many messages, however the queue was interleaved |
| BlameOrder.WhoeverSubmitsFirstIsBlamed | server/agent_registry_diplomacy.py:305-328 | two concrete queues that differ only in the interleaving of two players: after the advance each blames the pact's end on the other player |
| Registry.MatchRecord.ApplyTreatyAction | server/agent_registry_diplomacy.py:169-268 | treaties, messages and outcome equal the specification for every action and refusal; TreatyLaws says when it succeeds |
| Registry.MatchRecord.ValidateCommandTreaty | server/agent_registry_diplomacy.py:271-287 | accepts exactly an action towards another known player; an unknown counterparty is refused as such, oneself as self-targeted |
| TreatyRules.ActionJoinsTwo | server/agent_registry_diplomacy.py:169-268 | an action towards somebody else never makes a treaty of a player with itself |
| RecordRuns.TreatyFrame | server/agent_registry_commands.py:168-193 | treaty commands keep the list well formed and free of treaties of a player with itself, whatever their counterparty |
| Registry.MatchRecord.BreakActiveTreatiesBetweenPlayers | server/agent_registry_diplomacy.py:331-361 | breaks exactly the active treaties of the pair, announcing each |
| Registry.MatchRecord.ReconcileHostileTreatyBreaks | server/agent_registry_diplomacy.py:290-328 | the treaties and announcements after all accepted movements |
| Registry.IndexOccupants | server/agent_registry_diplomacy.py:299-303 | the owners of armies standing in each city; armies under way count nowhere |
| Registry.MatchRecord.AppendMessage | server/agent_registry_messaging.py:224-242 | appends one message whose id is its position |
| Registry.MatchRecord.RecordWorldMessage | server/agent_registry.py:506-514 | a world message from the system |
| Registry.MatchRecord.ValidateCommandMessage | server/agent_registry_messaging.py:245-288 | accepts a world message without recipient, a direct one to a known player and no chat, and a group one without recipient to a chat that counts the sender as a member; a chat one may not see is refused as such, everything else as an unsupported recipient |
| Registry.MatchRecord.RequireGroupChatMember | server/agent_registry_messaging.py:291-310 | only a member finds a chat; a missing chat and a hidden one look alike |
| Registry.MatchRecord.RecordGroupChatMessage | server/agent_registry_messaging.py:118-144 | appends to one chat, numbered within it |
| Registry.MatchRecord.PostMessage | server/agent_registry_commands.py:115-166 | records one command message or refuses it, changing nothing |
| Registry.MatchRecord.PostMessages | server/agent_registry_commands.py:115-166 | all messages in turn, stopping at the first refusal |
| Registry.MatchRecord.ApplyTreatyCommands | server/agent_registry_commands.py:168-193 | all treaty actions in turn, stopping at the first refusal |
| Registry.MatchRecord.ApplyCommandEnvelopeMutations | server/agent_registry_commands.py:86-223 | orders, messages, treaties, alliance in turn on the record itself; a refusal leaves the earlier steps in place |
| Registry.MatchRecord.ApplyCommandEnvelope | server/agent_registry_commands.py:57-83 | all or nothing: a refused command leaves every field as it was, and after a successful trial on the copy the real run gives the same record and response |
| RecordSteps.MutationsAloneLeaveTraces | server/agent_registry_commands.py:57-83 | a concrete command that, run without the trial copy, would leave half of itself behind |
| Registry.MatchRecord.PrepareTick | server/agent_registry_commands.py:237-258 | takes exactly the due submissions out of the queue, validates them, and breaks the treaties they are hostile to |
| Registry.MatchRecord.ResolveState | server/agent_registry_commands.py:259-262 | resolves a copy, steps the clock, syncs victory |
| Registry.MatchRecord.AdvanceMatchTick | server/agent_registry_commands.py:226-268 | the whole advance, or, exactly when income cannot be stored, only its preparation |
| Registry.MatchRecord.ReplacePlayerSubmissions | server/agent_registry.py:303-320 | drops the player's submissions for the tick, appends the new one last, counts what it superseded, and leaves the rest of the record alone |
| Registry.MatchRecord.DeepCopy | server/agent_registry_commands.py:65 | a copy equal in content that shares no object |
| RecordRuns.CommandStep | server/agent_registry_commands.py:57-83 | a command keeps the record invariant, only adds messages, only ages treaties, and moves the state by at most one alliance action |
| RecordRuns.TickStep | server/agent_registry_commands.py:226-268 | an advance keeps the record invariant and cannot fail |
| RecordRuns.RecordRunKeepsInv | server/agent_registry.py:298-468 | commands, single submissions, overrides, messages, treaty and alliance requests and ticks, in any order, keep state, alliance, treaty and message invariants, and every tick of such a run resolves |
| RecordRuns.RecordRunContinues | server/agent_registry.py:298-468 | between any two points of such a run no message is lost or reordered and treaties only age |
| RecordRuns.TickedRecordPasses | server/simulation_regression.py:171-468 | after every advance the harness's checks pass if and only if the threshold fits the map, and the sync is a fixed point |
| RecordRuns.TickedRecordVerdict | server/simulation_regression.py:171-468 | the same whole verdict after every advance of a record's run |
| RecordRuns.RecordWinnerHasHeld | server/agent_registry.py:93-103 | the victory theorem for whole runs of requests and ticks from a fresh record |
| RecordRuns.RunIsTreatyRun | server/agent_registry_diplomacy.py:169-378 | the treaties of a record are exactly what the treaty machine makes of the run's own successful treaty requests and attacks, in order |
| RecordRuns.RecordTreatiesSigned | server/agent_registry_diplomacy.py:228-247 | for every treaty that is or was in force the run holds an event, at its signing tick, that put it in force: a successful request of the player of the pair who had not proposed it, holding its acceptance |
| RecordRuns.AdvanceIgnoresInterleaving | server/agent_registry_commands.py:226-316 | an advance gives the same match state however different players' submissions were interleaved in the queue |
| SpawnSearch.Assignment.AssignRemainingCities | server/match_initialization.py:202-241 | backtracking with undo finds the first allowed picks in search order if there are any; otherwise both ledgers are exactly as on entry |
| SpawnSearch.Assignment.CanAssignCity | server/match_initialization.py:282-298 | a city may be assigned exactly when it is free and every owned neighbour belongs to the same player |
| SpawnSearch.PlayableIffCompletable | server/match_initialization.py:202-241 | the search space misses nothing: allowed picks exist if and only if some legal, peaceful completion with the required counts exists |
| SpawnSearch.PlayCompletes | server/match_initialization.py:202-241 | soundness: the picks add exactly the required number of legal cities per player and no adjacent cities of different owners |
| SpawnSearch.CompletionPlays | server/match_initialization.py:202-241 | completeness: any completion yields picks that the search may make |
| SpawnSearch.BookAll | server/match_initialization.py:225-239 | the per-player lists and the owner map stay in agreement, without duplicates |
| MatchSetup.BuildAssignmentOrder | server/match_initialization.py:185-199 | slot by slot, the players who have not filled that slot |
| MatchSetup.SlotCount | server/match_initialization.py:185-199 | each player comes up once for every city still missing |
| MatchSetup.SearchDecides | server/match_initialization.py:154-182 | after the overrides the search succeeds if and only if a fair assignment of the whole roster exists |
| MatchSetup.TooFewCities | server/match_initialization.py:154-161 | the early count check only refuses what has no fair assignment |
| MatchStart.BuildAdjacencyLookup | server/match_initialization.py:328-335 | adjacency of every map city, both ways |
| MatchStart.LegalSpawnCityIds | server/match_initialization.py:338-343 | the legal mainland spawn cities, sorted |
| MatchStart.ValidateStartingCity | server/match_initialization.py:244-279 | accepts exactly a legal, free, peaceful city; every refusal is justified by the roster |
| MatchStart.PlaceOverride | server/match_initialization.py:136-152 | one player's chosen cities, in order, or a justified refusal |
| MatchStart.PlaceOverrides | server/match_initialization.py:119-152 | all chosen cities, placed, legal, peaceful and in agreement, or a justified refusal |
| MatchStart.JustifiedMeansNone | server/match_initialization.py:107-182 | whatever the override checks refuse has no fair assignment |
| MatchStart.AssignStartingCities | server/match_initialization.py:107-182 | succeeds if and only if the roster is well shaped and a fair assignment honouring it exists |
| MatchStart.InitializeMatchState | server/match_initialization.py:51-104 | succeeds if and only if roster, city count, shape and a fair assignment allow it, and then returns a fresh match |
| MatchStart.FirstState | server/match_initialization.py:79-104 | cities, players and victory record of the first state |
| MatchStart.FreshMatchIsReady | server/match_initialization.py:51-104 | a fresh match satisfies the invariant that all runs keep |
| MatchStart.FreshRecordIsReady | server/agent_registry_types.py:112-131 | a record made around a fresh match satisfies the invariant of all record runs |
| Fog.ProjectAgentState | server/fog.py:13-68 | the projection as specified, or nothing for an unknown player |
| Fog.AlliedPlayerIds | server/fog.py:71-81 | the player alone, or everyone of its alliance |
| Fog.AdjacentCityIds | server/fog.py:84-97 | exactly the neighbours of the given cities |
| Fog.SightIsMonotone | server/fog.py:84-141 | more allies never hide anything: cities and armies in sight stay in sight |
| Fog.SightIgnoresStrength | server/fog.py:129-167 | whether an army is seen does not depend on its troops or route, and a foreign army's view does not either |
| Fog.ProjectArmies | server/fog.py:44-55 | the visible armies by id, foreign ones without troops and path |
| Fog.ProjectionsEqualIff | server/fog.py:13-68 | two states give equal projections if and only if they agree on what the player may see |
| Fog.AlliesSeeTheSame | server/fog.py:13-68 | members of one alliance are shown the same cities, armies, members and victory record |
| RateLimiter.AbuseGuard.ConsumeRateAllowance | server/api/abuse.py:139-150 | refuses exactly when the limit of accepted requests lies in the window; the window then holds exactly the accepted times inside it; other keys are untouched |
| RateLimiter.Slide | server/api/abuse.py:139-150 | the same for one key's window |
| RateLimiter.AcceptedAreSpread | server/api/abuse.py:139-150 | over any run of requests, accepted ones `limit` places apart are at least one window apart in time |
| RateLimiter.WindowHoldsAtMostLimit | server/api/abuse.py:139-150 | accepted requests less than a window apart are never more than the limit in a row |
| PlayerIds.PrintedIdReadsBack | server/db/player_ids.py:31-61 | parsing a printed id gives back the player of its join index, for every match id and every index on the roster |
| PlayerIds.JoinedIdReadsBack | server/db/player_ids.py:48-49 | the same for the match-independent id |
| PlayerIds.PrintedSegments | server/db/player_ids.py:52-61 | a printed id always has five segments of 8, 4, 4, 4 and at least 12 characters |
| PlayerIds.PrintedIdsDistinct | server/db/player_ids.py:52-61 | different join indexes print different ids, even across matches |
| PlayerIds.SegmentReadsBack | server/db/player_ids.py:37-40 | the padded hexadecimal segment reads back as its number, however long |
| PlayerIds.ReaderIsLenient | server/db/player_ids.py:31-45 | a concrete id that is read as a player but printed for no match and index |
| PrintedIds.PrintedIff | server/db/player_ids.py:31-61 | an id is printed for some match and index if and only if its five segments have the printed lengths and the last is some index's join segment, which its text alone decides |
| PrintedIds.JoinSegmentIff | server/db/player_ids.py:52-61 | the texts that some index prints are those of at least twelve lower-case hexadecimal digits, without a leading zero when longer |
| PrintedIds.PrintedAgain | server/db/player_ids.py:52-61 | the four leading segments run together are a match id that prints them back |
| PrintedIds.AcceptedPrintsAgainIff | server/db/player_ids.py:31-61 | an id accepted as a player's prints again unchanged from that player's index, for some match, exactly when it has the printed text |
| PlayerIds.BuildPersistedPlayerMapping | server/db/player_ids.py:8-28 | exactly the readable ids with their players, or nothing if two stand for the same player |
| PlayerIds.RosterMapsOneToOne | server/db/player_ids.py:8-28 | the mapping of a full printed roster is the expected bijection onto player-1 to player-n |
| DependencyGraph.DetectCycles | _bmad/bmb/bmad-agent-builder/scripts/prepass-execution-deps.py:33-58 | reports something if and only if the graph has a closed walk, and every report is one |
| DependencyGraph.CycleFinder.Dfs | _bmad/bmb/bmad-agent-builder/scripts/prepass-execution-deps.py:40-53 | visits the node, restores the path, only adds reports, and finishes in dependency order while there are none |
| DependencyGraph.OrderedMeansAcyclic | _bmad/bmb/bmad-agent-builder/scripts/prepass-execution-deps.py:33-58 | a dependency order of all nodes rules out every closed walk |
| DependencyGraph.TransitiveDeps | _bmad/bmb/bmad-agent-builder/scripts/prepass-execution-deps.py:65-72 | exactly the nodes reachable by at least one dependency |
| DependencyGraph.FindTransitiveRedundancy | _bmad/bmb/bmad-agent-builder/scripts/prepass-execution-deps.py:61-88 | all findings, in listing order |
| DependencyGraph.RedundantIff | _bmad/bmb/bmad-agent-builder/scripts/prepass-execution-deps.py:61-88 | a finding says exactly that a node lists a dependency it also reaches through another one it lists |
| DependencyLayers.FindParallelGroups | _bmad/bmb/bmad-agent-builder/scripts/prepass-execution-deps.py:91-110 | the layers of at least two nodes, first to last, each sorted |
| DependencyHeights.GroupsAreIndependent | _bmad/bmb/bmad-agent-builder/scripts/prepass-execution-deps.py:91-110 | in a dependency-closed node set, cycles or not, no member of a reported group depends on another, however indirectly |
| DependencyHeights.LayersIndependentIff | _bmad/bmb/bmad-agent-builder/scripts/prepass-execution-deps.py:91-110 | for any node set the layers are free of dependencies among their own nodes if and only if every walk that leaves the layered nodes and returns leads to a node of smaller height, the longest walk among the nodes; without a cycle these are all the nodes |
| DependencyHeights.HeightIsLayer | _bmad/bmb/bmad-agent-builder/scripts/prepass-execution-deps.py:96-110 | where nothing is left over every node lies in the layer of its height and in no other |
| DependencyHeights.DescendingGroups | _bmad/bmb/bmad-agent-builder/scripts/prepass-execution-deps.py:106-108 | under that condition no member of a reported group depends on another |
| DependencyHeights.LayersWithoutStuck | _bmad/bmb/bmad-agent-builder/scripts/prepass-execution-deps.py:96-110 | nodes left over on or behind a cycle take no part: without them the layering is the same and complete |
| DependencyHeights.OpenSetsHideDependencies | _bmad/bmb/bmad-agent-builder/scripts/prepass-execution-deps.py:91-110 | a concrete graph and open node set for which a node and its indirect dependency are reported as one group |
| DependencyLayers.StopsEarlyIffCycle | _bmad/bmb/bmad-agent-builder/scripts/prepass-execution-deps.py:104-105 | nodes are left over if and only if there is a cycle among the nodes, and every such cycle is left over |
| DependencyLayers.LayersPartition | _bmad/bmb/bmad-agent-builder/scripts/prepass-execution-deps.py:96-110 | layers and left-overs together are the nodes, each exactly once |
| BattleLaws.OwnerMeetsAttacker | server/resolver.py:406-439 | an owner and one attacker: the owner loses a tenth of the attacker's bare troops, the attacker a tenth of the owner's raised by 12/10 and by 10, 13, 17 or 25 tenths by tier, neither more than it has |
| BattleLaws.OutsidersMeet | server/resolver.py:507-522 | two players in a city neither owns: each loses a tenth of the other's bare troops |
| BattleLaws.EveryoneMeets | server/resolver.py:406-439 | any number of players in a city: each loses a tenth of what all the others count for together, at most all it has |
| BattleLaws.BetterWalls | server/resolver.py:507-522 | a higher tier never lowers the attacker's loss and never changes the owner's |
| BattleLaws.ClashEnds | server/resolver.py:350-381 | a hundred against a hundred, at every tier: the owner loses 10, the attacker 12, 15, 20 or 30 |
| BattleLaws.ControlFalls | server/resolver.py:384-403 | a city goes to the known player whose armies alone stand in it, and otherwise stays with its owner |
| BuildLaws.QueueSteps | server/resolver.py:565-579 | due items raise their track to their tier, tracks without one stay, and every other item stays in place with one tick less |
| BuildLaws.DueItemIsBuilt | server/resolver.py:565-579 | over a whole tick a due item is built, but for a wall lost in that very tick |
| BuildLaws.IdleTrackStays | server/resolver.py:565-579 | over a whole tick a track without a due item keeps its tier, but for a lost wall |
| BuildLaws.QueueOverTick | server/resolver.py:565-609 | over a whole tick a queue is what still waits, and behind it one item for each order on an idle track of an owned city |
| BuildLaws.AcceptedUpgradeStarts | server/resolver.py:582-609 | an accepted upgrade of an idle track is queued with as many ticks as the tier it aims at |
| BuildLaws.AcceptedUpgradeIsBuilt | server/resolver.py:565-609 | in every run an accepted upgrade to tier t of an idle track is built t ticks later |
| BuildLaws.BuiltStands | server/resolver.py:565-579 | what is built stays built from tick to tick, unless it is a wall that falls |
| MarchLaws.ArmyArrives | server/resolver.py:525-534 | in the movement phase of a validated tick an army with one tick left comes to stand in its destination |
| MarchLaws.ArmyComesCloser | server/resolver.py:525-534 | with more ticks left it is the same army one tick closer |
| MarchLaws.NoOrderUnderWay | server/order_validation.py:304-313 | nobody's movement is accepted for an army under way |
| MarchLaws.UnderWayStays | server/resolver.py:164-237 | after movement an army under way can only lose troops to hunger in the rest of the tick |
| MarchLaws.LastRoadCounts | server/resolver.py:731-734 | a road is as long as the last edge on the map that joins the two cities |
| MarchLaws.AcceptedMovementArrives | server/resolver.py:525-562 | in every run an accepted movement along a road of length L arrives in the movement phase L ticks after departure, unless the army starves |
| IncomeLaws.FoodAndProduction | server/resolver.py:104-142 | food and production after income in numbers: the most-made resource raised by a third per economy tier, less one food for each inhabitant and soldier, food not below zero |
| IncomeLaws.MoneyAndWalls | server/resolver.py:120-140 | money after income in numbers: less the tier of every walled city that is paid, and a city goes unpaid only if what is left would not cover it |
| IncomeLaws.AllWallsPaid | server/resolver.py:299-315 | a player whose money covers all its walls has no unpaid city |
| IncomeLaws.FarmEarns | server/resolver.py:284-296 | a concrete income |
| SiegeLaws.BesiegedIsCutOff | server/resolver.py:770-799 | besieged exactly when owned, with roads, none of which leads to a city of the owner or of its alliance |
| SiegeLaws.SiegeTakesATier | server/resolver.py:748-767 | a siege takes one tier from every walled city that is so cut off, and nothing else from any city |
| BillLaws.RecruitsJoin | server/resolver.py:698-715 | recruits join the player's standing army with the least id, which alone grows by their number |
| BillLaws.RecruitsFound | server/resolver.py:650-660 | without one they form an army there under the first free number |
| BillLaws.RecruitsArePaid | server/resolver.py:628-634 | the owner pays a food and five production per recruit; without a known owner nothing happens |
| BillLaws.UpgradeIsPaid | server/resolver.py:582-609 | an upgrade of an idle track costs its listed production and is queued for as many ticks as its tier |
| BillLaws.BusyTrackIsFree | server/resolver.py:594-595 | an order on a track that is already queued changes nothing |
| BillLaws.TransfersArrive | server/resolver.py:663-686 | each count changes by what known players send of it less what is sent to known players |
| OrderLaws.MovementDecided | server/order_validation.py:274-335 | for every envelope and every movement in it: accepted if and only if the army has no accepted order yet, is the player's, stands, and an edge joins it to a known destination; otherwise refused for the first thing that fails |
| OrderLaws.StrangeArmyRefused | server/order_validation.py:283-290 | a movement for an army that does not exist is refused as such |
| OrderLaws.RecruitmentDecided | server/order_validation.py:338-384 | accepted if and only if the city is the player's own and one food and five production are left for each recruit |
| OrderLaws.UpgradeDecided | server/order_validation.py:387-441 | accepted if and only if none is accepted for the city and track, the city is the player's, the tier is the next and its listed production is left |
| OrderLaws.TransferDecided | server/order_validation.py:444-511 | accepted, stamped with the sender, if and only if the recipient is known and no rival, a land route joins the two unless it is money, and the amount is left |
| OrderLaws.Uncut | server/order_validation.py:75-99 | the four laws together determine the outcome for every envelope, from the empty one on |
| OrderLaws.AcceptedGoToFriends | server/order_validation.py:583-599 | no accepted transfer joins two players of different alliances |
| OrderLaws.RivalsAreRefused | server/order_validation.py:457-474 | a transfer is refused for the recipient's alliance if and only if the recipient is known and both alliance ids are set and differ |
| OrderLaws.OneTransfer | server/order_validation.py:444-511 | a single money transfer reaches every known player but a rival if the money is there, and is refused for the stated reason otherwise |
| OrderLaws.LandRouteInWords | server/order_validation.py:534-580 | a land route is a path of land edges from a city of the one to a city of the other through cities of the two or, if they are allied, of their alliance |
| OrderLaws.NotNow | server/order_validation.py:82-92 | an envelope for another tick, or of an unknown player, gets every order refused for that reason and nothing accepted |
| CommandLaws.CommandQueuesItsOrders | server/agent_registry_commands.py:319-327 | a command that succeeds queues its orders, of whatever kind, and one without orders queues nothing |
| CommandLaws.WorldMessage | server/agent_registry_messaging.py:245-288 | anybody may write to the world, naming no recipient |
| CommandLaws.DirectMessage | server/agent_registry_messaging.py:245-288 | a direct message is recorded if and only if the recipient is known and no chat is named |
| CommandLaws.ChatPosted | server/agent_registry_messaging.py:118-144 | a member's message gets the next number of its chat and no other chat changes; anybody else changes nothing |
| CommandLaws.TickTakesItsOwn | server/agent_registry_commands.py:226-268 | a tick takes exactly the submissions made for it and leaves every other in the queue |
| CommandLaws.DueInOrder | server/agent_registry_commands.py:226-268 | submissions for a tick are taken in the order they were made |
| CommandLaws.OverrideReplaces | server/agent_registry.py:303-320 | replacing leaves a player one submission for the tick, the new one, and touches nobody else's and no other tick's |
| TreatyLaws.AcceptingSucceedsIff | server/agent_registry_diplomacy.py:206-236 | accepting succeeds if and only if the last treaty of the two and the kind is proposed and not by the acceptor, whatever the ticks |
| TreatyLaws.AcceptingSigns | server/agent_registry_diplomacy.py:228-247 | it becomes active, signed now, with its text for the world, and no other treaty changes |
| TreatyLaws.ProposingSucceedsIff | server/agent_registry_diplomacy.py:185-198 | proposing succeeds if and only if the last treaty of the two and the kind, if any, was withdrawn or broken |
| TreatyLaws.ProposingNeedsNoneOpen | server/agent_registry_diplomacy.py:185-198 | in every list a run can reach: if and only if no treaty of the two and the kind is proposed or active |
| TreatyLaws.ProposingAppends | server/agent_registry_diplomacy.py:199-209 | a proposal goes to the end of the list in the proposer's name and tick |
| TreatyLaws.WithdrawingSucceedsIff | server/agent_registry_diplomacy.py:216-258 | withdrawing succeeds if and only if the last treaty of the two and the kind is proposed or active, and is not found if there is none |
| TreatyLaws.WithdrawingEnds | server/agent_registry_diplomacy.py:256-268 | it ends that treaty in the withdrawer's name and tick, with its text for the world, and no other |
| TreatyLaws.AttacksBreak | server/agent_registry_diplomacy.py:331-361 | an active treaty is broken by the first attack between its players, on record by attacker and tick, and by nothing else |
| TreatyLaws.StaysWhileLeftAlone | server/agent_registry_diplomacy.py:169-268 | over a run a treaty that is left alone, and in peace while it is in force, does not change |
| TreatyLaws.ProposalStands | server/agent_registry_diplomacy.py:184-209 | a proposal stands as made while the two leave it alone, whoever attacks whom in the meantime |
| TreatyLaws.AcceptedProposalIsInForce | server/agent_registry_diplomacy.py:169-268 | a proposal, any events that leave the two alone on that matter, and the other's acceptance, however late, put the treaty in force until one of them acts on it or attacks |
| AllianceLaws.CreatingSucceedsIff | server/agent_registry_diplomacy.py:77-88 | creating succeeds if and only if a known player in no alliance gives a name |
| AllianceLaws.CreatingFounds | server/agent_registry_diplomacy.py:90-107 | the new alliance has its founder as leader and only member and the first free number |
| AllianceLaws.JoiningSucceedsIff | server/agent_registry_diplomacy.py:109-129 | joining succeeds if and only if a known player in no alliance names one there is |
| AllianceLaws.JoiningAdds | server/agent_registry_diplomacy.py:131-139 | the player becomes its last member, joined now |
| AllianceLaws.LeavingSucceedsIff | server/agent_registry_diplomacy.py:141-152 | leaving succeeds if and only if the player's alliance id is that of an alliance there is |
| AllianceLaws.LeavingDrops | server/agent_registry_diplomacy.py:154-166 | the rest keep their leader, or are led by the least remaining id if it left, and an empty alliance is gone |
| CountdownLaws.AdvanceCountsDown | server/resolver.py:875-891 | an advanced tick names the side with most cities and steps the countdown of a side that holds the threshold: one lower if it was counting already, from the threshold otherwise, and none without such a side |
| CountdownLaws.AllianceCountsOn | server/agent_registry_diplomacy.py:465-494 | an alliance action never steps the countdown of a side that goes on dominating |
| CountdownLaws.SteadyLeadCounts | server/resolver.py:875-891 | over a run of ticks and alliance actions, while a side dominates, its countdown is lower by exactly the ticks passed, down to zero |
| CountdownLaws.SteadyLeadWins | server/agent_registry.py:93-104 | a side that dominates after a tick and through `threshold` more ticks has won |
| MatchStart.FreshCities | server/match_initialization.py:297-330 | every city of a fresh match in numbers: yields, inhabitants, garrison, no upgrades |
| SightLaws.CitiesShown | server/fog.py:23-37 | the cities shown are the known ones that are allied or an edge away from an allied one, each with its owner, allied ones in full and others with nothing more |
| SightLaws.ArmyListed | server/fog.py:129-167 | every allied army, and every army that stands in a city within reach or is heading there, is listed, allied ones in full |
| SightLaws.ListedIsInReach | server/fog.py:129-167 | and nothing else is |
| SightLaws.RestShown | server/fog.py:57-68 | resources, alliance, sorted members, clock and victory record are the player's own |
| CommandLaws.OwnMessageFirst | server/agent_registry_commands.py:86-223 | a command's own messages come before anything its treaties make the service announce |
| CommandLaws.AnnouncedByTheSystem | server/agent_registry_commands.py:226-235 | announcements are messages of the system to the world, one for each text and in their order |
| CommandLaws.NextSubmission | server/agent_registry_commands.py:295-316 | a further submission adds its orders, kind by kind, behind the player's earlier ones and nothing to anybody else's |
| CommandLaws.FirstSubmission | server/agent_registry_commands.py:271-292 | a first submission stands as it is, and what it gets accepted comes behind that of everybody before |
| TreatyLaws.BreakIsAnnounced | server/agent_registry_diplomacy.py:331-361 | a broken treaty is announced with the attacker named first |
| CountdownLaws.TickSetsCountdown | server/resolver.py:247-277 | the resolver's own rule, without the registry's sync: a side that takes the lead from another waits a tick |
| CountdownLaws.EmptyIdIsNone | server/agent_registry_diplomacy.py:475 | an empty alliance id counts as none in the registry's naming |
| MatchSetup.FairInWords | server/match_initialization.py:107-182 | a fair assignment in the map's own terms: open, non-Irish cities, no edge between two players, the right number each, choices honoured |
| MatchSetup.TakingTurns | server/match_initialization.py:185-199 | without chosen cities every round of the order is the roster itself |
| PlayerIds.PrefixInWords | server/db/player_ids.py:52-56 | the prefix is the first sixteen characters of the match id and then its last four, dashes not counted, filled up with f |
| RateLimiter.AcceptedIffSpread | server/api/abuse.py:139-150 | a request is accepted exactly when the limit-th accepted one from the end is a whole window old, or there is none |
| CommandLaws.MessagesAnswered | server/agent_registry_commands.py:86-223 | the response lists the command's messages one by one in its own order |
| CommandLaws.TreatiesAnswered | server/agent_registry_commands.py:86-223 | and its treaty actions, each by a treaty of the kind between the two in the status the action leaves |
| Simulation.FixedOrdersEachTick | server/simulation.py:45-59 | fixed orders are given again in every tick, and without any nobody orders |
| Simulation.ProviderAskedEachTick | server/simulation.py:45-59 | a provider is asked in every tick with the clock and the state |
| MarchLaws.OnlyStandingDepart | server/resolver.py:537-562 | only an army that stands somewhere sets out: on any other, orders have no effect, validated or not |

## Left out

- Nested objects inside a match state or record (a single city, army, player, treaty, chat or alliance) are values held in
  class fields, not separate heap objects; aliasing between them is not modelled.
- Python dictionaries and sets are maps and sets without an order; where the source iterates over one, the loops here visit
  it in an arbitrary order and the result is proved independent of it. The order in which city and army views or alliances
  are listed is modelled where the source sorts.
- Human-readable rejection texts, phase event names and the diplomacy phase, which changes nothing.
- Request parsing and field validation of the web layer, HTTP routes, websockets, the runtime loop, persistence, ratings,
  profiles, briefings and message listings.
- The concrete Britain map: everything is stated for any map.
- The scenario builders and failure texts of the regression harness; its sign checks on food and money are not invariants
  (see Findings and `Regression.EveryTickVerdict`).
- Creating and listing group chats; only posting to one is part of a run.
- The clock, the lock and the computation of identity and route keys of the limiter: the time is a parameter, one request
  at a time, and times are real numbers instead of floats.
- Unicode digits and blanks in player ids: the reader is modelled on ASCII.
- Errors raised by the state model when a tick would store a negative count are one refusal, without its text.
