# FBA-Bench verification

A Dafny model of the parts of FBA-Bench whose correctness spans several functions or a whole run, with proofs.
`dafny verify dfyconfig.toml` checks everything.

## What is modelled

**The market simulator** (`run_grok_proper_sim.py`). Each phase of a day is a function on `Market.State`: deliveries
(`SupplyChain`), refunds (`ReturnsDesk`), rivals and orders (`Demand`), events (`Events`), the agent's actions and the
books (`Trading`). `DayCycle` puts a day and a run together; a run is driven by arbitrary plans, so every agent is
covered. `Simulator.MarketSimulator` is the object whose methods update their fields in the source's loops; each method
is proved to do exactly what its step function says, and `RunSimulation` to pass through exactly the modelled states.
On that model: `Books` (cash conservation), `Solvency` with `Debt`, `Stock`, `Liabilities` (returns), `Deliveries`
(lateness), `CostBasis`, `DemandCache`, `Lifetimes` (events), `Bounds`, `Numbering` with `Ids` (identifiers). `Effects`
says what each handler means to its caller, and the object's methods promise it; `DemandLaws` how demand answers to
prices, ratings, advertising, events and rivals; `Obedience` that an evening sells and prices what its plan says.

**Replay** (`run_grok_proper_sim.py`, `scripts/`). `Json` gives Python's truth test and equality and `JsonPaths`
equality path by path; `Decisions` reads and cuts down a decision and `DecisionLaws` says what each of its keys does;
`ReplayFile` loads a saved run, `Comparator` is the determinism check, and `Replay` has the theorems across them.
`Benchmark` has the published contract, `Ledger` a file's totals against its days, sales and returns, `Theater` the
timeline rebuilt from profits.

**The tick barrier** (`infrastructure/distributed_coordinator.py`). `Barrier` gives the atomic steps between suspension
points, arbitrarily interleaved, and agreement; `BarrierProgress` when the tick can still move;
`Coordinator.DistributedCoordinator` the methods as written.

**The request batcher** (`infrastructure/llm_batcher.py`). `Batching` selects and groups, `BatchRun` is the step system,
`BatchLaws` its laws, `Batcher.LLMBatcher` the methods as written.

**Layered configuration** (`config/model_config.py`). `ConfigMerge` has the merge and its laws, `Settings` the key loop
and the cache.

Conventions. Money is an integer number of cents, ratios and clock readings are exact reals, and the random generator is an
arbitrary stream of draws read through a cursor. "History" fields and variables (restocks, sales, arrivals, issued
identifiers, publications, callbacks) record what happened; no branch reads them.

## Where the code differs from what one might expect

- The barrier does not check that an acknowledging worker is registered and compares sets for equality. Once an id that is
  not registered is in the current tick's set, because the worker was dropped after acknowledging or acknowledged late,
  no later step moves the tick (`BarrierProgress.CanAdvanceExactly`).
- A worker is charged with the whole wait for the current tick, even the part before it joined
  (`BarrierProgress.JoinerSurvivesExactly`); the wait also runs on while nobody is registered.
- A negative `max_order_qty_per_decision` turns a restock into an unchecked sale back to the supplier; stock is safe
  exactly when the limit is not negative (`Stock.NeverOversoldExactly`). The unit equation holds for any limit.
- Loading a replay raises on an older entry whose fields cannot be iterated or made into dictionaries, such as a number
  where a mapping is expected (`ReplayFile.LoadsExactlyGapless`). A decision that is no dictionary is saved as an empty
  one, which is not left alone when saved again (`Decisions.SanitizeIdempotent`).
- A sale is safe for cash exactly when its price covers its fees at every order size (`Solvency.SalesSafeExactly`); with
  the default fees that means from $3.30 up (`Solvency.DefaultBound`), and at $3.29 the simulator's own opening can end its
  first day in debt whatever the random stream (`Debt.DebtBelowTheBound`).
- A rebuilt frame measures return on investment on cash, the live one on equity; for positive starting cash and equity
  they agree exactly when the profits are in that proportion (`Theater.RebuiltRoiExactly`).
- The merge is associative for exactly the layer triples of `ConfigMerge.Layerable`; `ConfigMerge.MiddleValueMatters` is a
  triple for which it is not.
- The comparator finds even a payload compared with itself unequal when a required part is missing
  (`Comparator.AgreeReflexive`).
- A one-star product sells 0.56 times its base demand, not the 0.4 times of the comment above the formula
  (`DemandLaws.RawDemandExactly`).
- An order with a lead time below one still takes one morning to arrive (`Deliveries.RunKeepsTracking`).

## Model

| member | source | states |
|---|---|---|
| Simulator.MarketSimulator.constructor | run_grok_proper_sim.py:650-659 | before the first day all queues, totals and series are empty, every backlog is zero, and opening cash and inventory are the baseline |
| Simulator.MarketSimulator.SlipOrder | run_grok_proper_sim.py:867-892 | only an order more than a day away and below its delay limit slips; it does if and only if the draw is below the risk cap and its lane's risk (4% for an unknown lane, raised during a supply shock on its product), then by the drawn days as far as the limit leaves room; arrival date and delay counters move by exactly that |
| Simulator.MarketSimulator.ReceiveOrder | run_grok_proper_sim.py:903-910 | the shelf gains what the arrival records: the whole order if the draw is within the supplier's reliability, otherwise to half a unit the drawn share from 65% up to 95%; if and only if something arrived the cost moves, to half a cent of 70% old and 30% delivered cost; cash and other products do not move |
| Simulator.MarketSimulator.ProcessInboundOrders | run_grok_proper_sim.py:859-920 | the morning queue in order, each order slipping, counting down and being kept or received; the loop is the fold of the one-order step |
| Simulator.MarketSimulator.ReconcileUnits | run_grok_proper_sim.py:958-989 | a return is counted once; restockable units go back on their own shelf at the drawn rate to half a unit, none otherwise and never more than its quantity (rates being at most one); the rest is salvaged at its category's share of cost to half a cent, and the cash is exactly what totals and adjustments report |
| Simulator.MarketSimulator.ProcessPendingReturn | run_grok_proper_sim.py:936-994 | a refund due is what was paid plus what is still owed; only cash at hand is paid; the return leaves the queue if and only if it is due and paid off; it is counted, and its damaged units sold for what they are worth then, the first time it falls due and never again |
| Simulator.MarketSimulator.ProcessPendingReturns | run_grok_proper_sim.py:935-997 | the whole refund pass, with the adjustments handed to the evening |
| Simulator.MarketSimulator.EvolveCompetitorPrices | run_grok_proper_sim.py:661-684 | every rival with a listed product drifts or undercuts under price-war pressure, two draws each, in order |
| Demand.DriftStaysNear | run_grok_proper_sim.py:681-684 | a drifted price is at most 135% of our price and, where that leaves room, at least 102% of our cost |
| Simulator.MarketSimulator.RollForwardDailyEffects | run_grok_proper_sim.py:999-1006 | every product's scheduled boost becomes today's and the schedule is reset, visiting the products in any order |
| Simulator.MarketSimulator.GenerateDailyOrders | run_grok_proper_sim.py:1008-1032 | orders per product in catalogue order, numbered consecutively, then shuffled; state, orders and cursor all stated |
| Simulator.MarketSimulator.ShuffleOrders | run_grok_proper_sim.py:1031 | the shuffle is a chain of swaps downwards, one draw each |
| Rng.Shuffled | run_grok_proper_sim.py:1031 | a shuffle loses and invents no order |
| Rng.EveryOrderPossible | run_grok_proper_sim.py:1031 | for every rearrangement of the orders some draws make the shuffle produce it |
| DemandLaws.DayDemand | run_grok_proper_sim.py:1008-1032 | a day brings each listed product exactly as many orders as its demand on one draw calls for, all at ceilings within a tenth of its price |
| DemandLaws.OrderAsDrawn | run_grok_proper_sim.py:1018-1029 | an order wants one to three units by equal thirds of one draw, at a ceiling another draw sets between 90% and 110% of the price, to half a cent |
| DemandLaws.DemandResponds | run_grok_proper_sim.py:400-408 | on the same draws a product gets no fewer orders for being cheaper, better rated, better advertised or more favoured by events |
| DemandLaws.RawDemandExactly | run_grok_proper_sim.py:400-408 | raw demand is the whole part of base demand under multiplier, boost, rating and noise |
| DemandLaws.PriceFactorExactly | run_grok_proper_sim.py:686-695 | the rivals' average price over ours, within 35% either way, and one without rivals |
| DemandLaws.RivalsCount | run_grok_proper_sim.py:690-692 | only rivals with the same product count, each by its own price |
| DemandLaws.WarsPress | run_grok_proper_sim.py:1063-1069 | rivals are pressed by 2% to 45% while a price war is on over the product and not at all otherwise |
| DemandLaws.DriftFollows | run_grok_proper_sim.py:670-676 | an undercutting rival aims 2% to 10% below our price, any other within 3% of its own |
| Simulator.MarketSimulator.RecalculateDemandMultipliers | run_grok_proper_sim.py:1087-1102 | resetting and applying events one by one leaves each product with the clamped in-order product of its own demand events |
| Simulator.MarketSimulator.ApplyEventInitialEffects | run_grok_proper_sim.py:1043-1085 | only the event's product is hit: a review attack takes 1.2 stars a unit of severity, from 0.25 to 2.2, down to one star; a price war takes 35% a unit off its rivals' prices, from 5% to 45%, to half a cent |
| Simulator.MarketSimulator.MaybeInjectEvent | run_grok_proper_sim.py:1104-1135 | a new event comes if and only if the draw is at most 5%, after five draws instead of one: one of five kinds by equal fifths, for a listed product, 0.4 to 0.84 severe, three to fourteen days; cached multipliers stay exact |
| Simulator.MarketSimulator.UpdateEvents | run_grok_proper_sim.py:1137-1154 | events count down in order and those that end leave; a rating regains exactly what the attacks that end on it give back (0.45 a unit of severity, from 0.1 to 0.75 each), up to five stars; multipliers are refreshed and nothing else moves |
| Simulator.MarketSimulator.OpenBooks | run_grok_proper_sim.py:1248-1270 | cash pays the overhead it can bear and in full if it can; the booked result is salvage less refunds less overhead; credit is kept |
| Simulator.MarketSimulator.ApplyPriceChange | run_grok_proper_sim.py:1278-1289 | a price becomes exactly the positive price asked for, otherwise stays; all prices stay positive and nothing else moves |
| Simulator.MarketSimulator.ApplyRestock | run_grok_proper_sim.py:1293-1310 | a listed product gains the quantity asked for, up to the order limit, if it is positive and cash can pay it, otherwise none; cash turns into stock at cost, value for value; books balance, credit and the unit records are kept; only the named product moves |
| Simulator.MarketSimulator.ChooseSupplier | run_grok_proper_sim.py:1156-1169 | the first supplier of the given name if there is one; else the one no other beats on cost, then lead time, then reliability, and the earliest such; none only without offers |
| Trading.Preferred | run_grok_proper_sim.py:1164-1169 | the chosen offer is beaten by none on cost, then lead time, then reliability, and is the earliest such offer |
| Simulator.MarketSimulator.PlaceSupplierOrder | run_grok_proper_sim.py:1171-1214 | placed exactly when product, quantity, supplier and cash allow; then queued with its minimum quantity and dated id, otherwise nothing changes |
| Simulator.MarketSimulator.ApplySupplierOrder | run_grok_proper_sim.py:1323-1341 | one more order is under way if and only if one is counted, for at least the minimum and at the cost and lead time one of the product's suppliers offers, and paid in full; cash and booked costs balance; no order is lost track of |
| Simulator.MarketSimulator.ShiftAdBudget | run_grok_proper_sim.py:1346-1370 | a positive spend cash can pay is spent in full on a listed product, any other not at all, and counted alike in cash, costs, results and totals; it raises only that product's boost of tomorrow, by one for $220 and no more |
| Simulator.MarketSimulator.ServeCustomers | run_grok_proper_sim.py:1375-1413 | of a listed product's backlog the mode's share is served to half a ticket, or as many tickets as cash pays at the mode's price; the tickets leave that backlog, each is paid, the rating moves by the mode's step between one and five stars, and nothing else moves |
| Simulator.MarketSimulator.CollectPayment | run_grok_proper_sim.py:1460-1485 | goods leave the shelf; cash gains revenue less the fees booked, a fixed one a unit and the processing rate to half a cent; the sale is put on record and advertising credited its boost's share of the revenue, at most half |
| Simulator.MarketSimulator.MaybeFlagReturn | run_grok_proper_sim.py:1487-1516 | refunds flagged and refunds owed grow together; a sale is flagged if and only if the draw is below 0.8%, or below both 30% and the likelihood its category, rating, quantity and season give; a flagged return owes exactly its sale's revenue in two to ten days and is restockable as its category's odds and the draw have it; cash and shelf do not move |
| Effects.OddsRespond | run_grok_proper_sim.py:834-851 | a worse rating or a larger order never makes a return less likely |
| Simulator.MarketSimulator.ProcessOrder | run_grok_proper_sim.py:1428-1516 | a listed order is handled exactly once: fulfilled if and only if accepted, affordable and in stock, rejected if and only if not accepted or too dear; cash, stock and the record of sales move only for a fulfilled one, and complaints as the draw (5% or 15%) or the stockout has it |
| Simulator.MarketSimulator.ProcessOrders | run_grok_proper_sim.py:1415-1516 | no sale is of a rejected product, every sale was asked for by the flag, its id or its product and made at the listed price within its ceiling, and every listed order so asked for and not rejected is sold unless its price or its stock forbids it; orders are handled in order |
| Obedience.AppliedObeys | run_grok_proper_sim.py:1415-1465 | over the whole evening: only what was asked for and not rejected is sold, and all of it as far as prices and stock go |
| Obedience.AppliedPrices | run_grok_proper_sim.py:1276-1289 | after an evening every product costs the last positive price asked for it, or what it cost before |
| Obedience.SectionsInPlace | run_grok_proper_sim.py:1276-1413 | every action the plan asks for is there once, in its section: prices, restocks, supplier orders, adverts, service |
| Obedience.DayObeys | run_grok_proper_sim.py:2030-2097 | the same over a whole day from the morning on: sales and prices are as that day's plan says, for any plan |
| Simulator.MarketSimulator.DecayRatings | run_grok_proper_sim.py:1518-1523 | each product with a backlog above 25 loses 0.04 once, never below one star, and no other product moves |
| Simulator.MarketSimulator.ApplyAgentDecisions | run_grok_proper_sim.py:1216-1539 | the sections one after another are the single ordered list of actions between opening and closing the books; the evening sells what the plan asks for and does not reject, as far as prices and stock go, and every product ends at the last positive price asked for it |
| Simulator.MarketSimulator.SimulateDay | run_grok_proper_sim.py:2030-2097 | a day accounts for every order received, keeps balanced books balanced with cash moving by its profit, stays in credit if it sells nothing below its fees, and sells and prices as its plan says |
| Simulator.MarketSimulator.RunSimulation | run_grok_proper_sim.py:2029-2097 | from an opening the object ends in the modelled state, returned each day's results, its books balance, stock, orders, returns, salvage, identifiers and multipliers are all accounted for, and no two orders it handed out share an id; it is solvent if every sale covered its fees |
| Books.PerformKeepsBooks | run_grok_proper_sim.py:1291-1478 | no action moves cash without booking the same amount |
| Books.RefundsReported | run_grok_proper_sim.py:941-983 | the refund pass moves exactly the cash, and counts exactly the returns, that it reports |
| Books.DayKeepsBooks | run_grok_proper_sim.py:1257-1270 | cash moved in the morning and booked in the evening balances over the day: cash grows by exactly the recorded profit |
| Books.RunKeepsBooks | run_grok_proper_sim.py:1525-1537 | after every day capital is starting capital plus revenue less costs, revenue is the recorded sales less refunds plus salvage, and every daily series has one entry a day and adds up to its total |
| Books.EquityDecomposed | run_grok_proper_sim.py:518-538 | equity profit is net profit plus the change in inventory value less the refunds still owed |
| Books.RestockKeepsEquity | run_grok_proper_sim.py:1293-1310 | buying stock at cost leaves equity as it was |
| Books.SaleMovesEquity | run_grok_proper_sim.py:1460-1516 | a sale moves equity by its revenue less fees and cost of goods, less the refund a return flagged at once will owe |
| Solvency.SalesSafeExactly | run_grok_proper_sim.py:1460-1478 | a sale keeps cash non-negative from every debt-free state if and only if its price covers its fees at every order size |
| Solvency.NeverInDebt | run_grok_proper_sim.py:1460-1478 | while every order fulfilled so far covers its own fees, capital is never negative, after any delivery, refund or action of any day |
| Solvency.SaleMovesNet | run_grok_proper_sim.py:1460-1478 | an order moves cash by its revenue less its fees if it is fulfilled and by nothing otherwise |
| Solvency.PrudentRunStaysSolvent | run_grok_proper_sim.py:1278-1288 | a run whose opening and chosen prices cover their fees sells nothing below its fees |
| Debt.DebtBelowTheBound | run_grok_proper_sim.py:576-598 | from the simulator's own opening and default fees, for every random stream and any rivals, spending the cash on advertising and selling at $3.29 ends the first day in debt |
| Solvency.DefaultBound | run_grok_proper_sim.py:1467-1474 | with $3.20 a unit and 3% rounded half up, fees are covered if and only if the price is at least $3.30, for any quantity |
| Solvency.UncoveredSaleOverdraws | run_grok_proper_sim.py:1460-1478 | with no cash, selling below fees overdraws |
| Stock.RunKeepsStock | run_grok_proper_sim.py:899-906 | on every day each product's stock is its opening stock plus the restocks, supplier arrivals and returned units on record less the units of the orders on record, and is never negative unless the order limit is |
| Stock.NeverOversoldExactly | run_grok_proper_sim.py:1300-1306 | no action takes stock below zero, from any state, if and only if the order limit is not negative |
| Stock.DayHandlesEveryOrder | run_grok_proper_sim.py:1427-1465 | a day's received orders are its fulfilled, rejected and stocked-out ones |
| Liabilities.RunKeepsAccounts | run_grok_proper_sim.py:935-996 | refunds flagged equal paid plus owed, returns flagged equal processed plus unreconciled, identifiers flagged are those open and closed, and all salvage is the sum of what each return's damaged units brought, once, at their appraised value; closed returns were refunded in full; with recovery rates at most one their units were split without loss |
| Liabilities.StepKeepsAccounts | run_grok_proper_sim.py:936-994 | the same accounts, salvage included, hold after every single return of the morning queue |
| Effects.ReturnStepSalvages | run_grok_proper_sim.py:958-989 | the salvage total moves by the appraised value of a return's damaged units on the morning it first falls due, and by nothing on any other |
| Liabilities.EveryReturnOnce | run_grok_proper_sim.py:991-996 | every return ever flagged is, under its own identifier, either open or closed, never both, never twice, never lost |
| ReturnsDesk.UnitsSplit | run_grok_proper_sim.py:962-972 | recovered and damaged units make up the returned quantity |
| SupplyChain.DeliveryWithinOrder | run_grok_proper_sim.py:903-904 | no delivery exceeds its order |
| Deliveries.RunKeepsTracking | run_grok_proper_sim.py:867-897 | identifiers issued are those pending and arrived, pending orders are on schedule, arrived ones came on time and within their order, and the delay counters are the sum of all their delays, at least one day an event |
| Deliveries.EveryOrderOnce | run_grok_proper_sim.py:894-919 | every purchase order ever placed is, under its own identifier, either pending or arrived, never both, never twice, never lost |
| Deliveries.LatenessBound | run_grok_proper_sim.py:870-897 | with a lead time of at least one, an order arrives after exactly lead time plus its delay, never past lead time plus the cumulative limit |
| SupplyChain.BlendBetween | run_grok_proper_sim.py:907-910 | the rounded blend of two costs lies between them |
| CostBasis.RunKeepsSpan | run_grok_proper_sim.py:907-910 | a product's cost stays in any interval that holds its opening cost and its quotes |
| DemandCache.RunCaches | run_grok_proper_sim.py:1087-1102 | whenever the agent decides, after any of its actions, and each evening, cached multipliers are what the active events give, within [0.2, 4.0], and 1.0 without events |
| DemandCache.OthersDoNotMatter | run_grok_proper_sim.py:1094-1101 | an event for another product or of another kind may start or expire without touching a product's multiplier |
| DemandLaws.FactorByKind | run_grok_proper_sim.py:1035-1041 | a spike multiplies demand by one plus twice its severity up to 3.5, a crash by one less three quarters of it down to a quarter, other events not at all |
| DemandLaws.SpikesRaiseCrashesLower | run_grok_proper_sim.py:1087-1102 | while one event alone shapes a product's demand, its cached multiplier is above one if and only if it is a spike and below one if and only if it is a crash |
| Lifetimes.EventsLast | run_grok_proper_sim.py:1137-1153 | any event in force is in force on exactly the later days its countdown allows, in its place and with as many days fewer to go; afterwards what is left is what would be left without it; all other events came later |
| Bounds.RunBounded | run_grok_proper_sim.py:1409-1523 | on every day ratings lie in [1, 5], advertising at most doubles demand, and no backlog is negative |
| Bounds.AdvertsActTomorrow | run_grok_proper_sim.py:999-1006 | today's boost is what last evening scheduled, and nothing done today changes it |
| Numbering.IdentifiersUnique | run_grok_proper_sim.py:1020-1026 | over a whole run no two of the orders handed out share an id, and no purchase-order id or return id repeats |
| Numbering.DayNotes | run_grok_proper_sim.py:1008-1032 | the orders a day hands out are, shuffled, exactly those it puts on record, each once |
| Ids.OrderIdInjective | run_grok_proper_sim.py:1025 | different order numbers print differently even past the padding |
| Ids.DatedInjective | run_grok_proper_sim.py:1494 | a dated id determines its day and its slot even past the padding |
| Decisions.SanitizePreservesPlan | run_grok_proper_sim.py:169-186 | cutting down a well-typed decision raises nothing, and applying the saved copy reads the same plan as applying the original; what a plan reads is stated by the laws of `DecisionLaws` |
| Decisions.SanitizeIdempotent | run_grok_proper_sim.py:169-186 | cutting down a copy gives the copy again if and only if the decision was a dictionary |
| DecisionLaws.AcceptedAsWritten | run_grok_proper_sim.py:1416-1437 | an order is accepted if and only if the flag under "accept_all_orders" counts as true, or its id is an item of the list under "accept_orders" or its product of that under "accept_skus", and its product is no item of that under "reject_skus" |
| DecisionLaws.DaySellsAsWritten | run_grok_proper_sim.py:1415-1465 | a day sells only orders the decision object so asks for, and all of them as far as prices and stock go |
| DecisionLaws.SectionsAsWritten | run_grok_proper_sim.py:1277-1376 | price changes, restocks, adverts and service act on the entries of the object under their own key, in the order written, and on nothing where none stands there |
| DecisionLaws.SuppliesAsWritten | run_grok_proper_sim.py:1313-1330 | supplier orders are read entry by entry from an object, request by request from the objects of a list, and from nothing else |
| DecisionLaws.KeysApart | run_grok_proper_sim.py:1276-1425 | changing what stands under one key changes only what that key is for, and other keys change nothing |
| ReplayFile.LoadReplayDecisions | run_grok_proper_sim.py:189-227 | the table-and-walk loader gives the declared result: the first entry that raises, the missing list, the missing day, or the decisions |
| ReplayFile.EntryAsWritten | run_grok_proper_sim.py:203-216 | an entry's day is a positive integer, or True for one; its decision is the non-empty raw one, only without that the older form cut down, else none |
| ReplayFile.LastEntryWins | run_grok_proper_sim.py:203-216 | the decision loaded for a day is that of its last usable entry |
| ReplayFile.LoadsExactlyGapless | run_grok_proper_sim.py:204-227 | loading succeeds if and only if no entry raises and every day up to the last usable one has a usable entry; it raises at exactly the first entry that cannot be cut down |
| ReplayFile.SaveThenLoad | run_grok_proper_sim.py:2161-2166 | saving n days and loading them gives exactly the n cut-down decisions in day order |
| Replay.ReplayReproducesRun | run_grok_proper_sim.py:2077-2091 | a replay loaded from a run's own file passes through the same state, cursor included, and gives the same results every day |
| Replay.FaithfulReplayPasses | scripts/run_sim_benchmark_matrix.py:139-286 | under any contract the run's file is complete for, the comparator accepts its faithful replay |
| Ledger.DaysAddUp | run_grok_proper_sim.py:2077-2091 | in every run orders fulfilled, stockouts, revenue, advertising, returns processed, refunds and salvage in total are the sums of the daily results |
| Ledger.FileAddsUp | run_grok_proper_sim.py:2161-2326 | read from a run's own saved file, these figures of its days add up to its final ones |
| Ledger.FileAccounts | run_grok_proper_sim.py:2303-2326 | final revenue is what the recorded sales brought less refunds plus salvage; refunds paid and owed make up those flagged, and returns processed and unreconciled those flagged |
| Ledger.DayShown | run_grok_proper_sim.py:2178-2193 | a saved day shows each of its evening's fourteen figures under its own key |
| Ledger.ServiceLowersBacklog | run_grok_proper_sim.py:2323 | the open backlog on file falls by one for every ticket served |
| Ledger.DelaysOnFile | run_grok_proper_sim.py:2321-2322 | the delay days on file are those of all pending and arrived orders, and delay events are no more than them |
| Benchmark.SavedIsComplete | configs/sim_benchmark_contract_v1.json:4-83 | a run's file has every part and every config, execution, result, series, per-day action and per-day result key the published contract requires |
| Benchmark.DeterminismCheckPasses | scripts/run_sim_benchmark_matrix.py:139-286 | under the published contract the comparator accepts every run of well-typed decisions against its replay |
| Benchmark.ContractInvariantsHold | configs/sim_benchmark_contract_v1.json:89-99 | the numbers read back from a run's own file satisfy the published invariants on totals, equity, return on investment, series sums and lengths, and day order |
| Comparator.CompareLiveAndReplay | scripts/run_sim_benchmark_matrix.py:139-286 | the report is empty if and only if all required parts agree, and names exactly the places where they do not: a value standing on both sides if and only if two integers differ, numbers lie further apart than the contract tolerates in either direction, or other values differ at some path; and every part without a counterpart |
| Comparator.AgreeSymmetric | scripts/run_sim_benchmark_matrix.py:139-286 | the verdict does not depend on which payload is called live |
| Comparator.AgreeReflexive | scripts/run_sim_benchmark_matrix.py:161-286 | a payload agrees with itself if and only if it is complete |
| Json.EqualSymmetric | scripts/run_sim_benchmark_matrix.py:248 | equality of decoded values is symmetric although it compares numbers across types and ignores field order |
| JsonPaths.EqualExactly | scripts/run_sim_benchmark_matrix.py:248 | two decoded values are equal if and only if every path finds the same in both, numbers by value and whatever the order of an object's entries |
| Theater.BuildReplayPayload | scripts/sim_theater_demo.py:104-224 | each frame and series entry of the rebuilt timeline is fixed by starting capital and recorded profits |
| Theater.SavedArtifact | scripts/sim_theater_demo.py:98-117 | what the reconstruction reads from a run's saved file is what the run recorded |
| Theater.DaysFaithful | scripts/sim_theater_demo.py:104-111 | a saved run's timeline has exactly its days, or one for a run of none |
| Theater.ReconstructionFaithful | scripts/sim_theater_demo.py:131-149 | the capital rebuilt from a saved file's profits alone is the live capital of every evening, to the cent |
| Theater.FramesFaithful | scripts/sim_theater_demo.py:163-178 | a frame rebuilt from a saved file shows the live day's capital, total profit, revenue, costs, profit, fulfilled orders and stockouts |
| Theater.RebuiltRoiExactly | scripts/sim_theater_demo.py:149-150 | a rebuilt frame's return on investment is the live one if and only if equity profit and cash profit are in the proportion of starting equity and starting cash |
| Barrier.PublishedInOrder | infrastructure/distributed_coordinator.py:232-242 | in every interleaving the published ticks are 1, 2, 3, ... up to the current one |
| Barrier.AcksExplained | infrastructure/distributed_coordinator.py:394-400 | a tick's stored set is exactly the ids that acknowledged it since the set was last cleared |
| Barrier.AdvancesExactly | infrastructure/distributed_coordinator.py:214-232 | the tick moves, by one, if and only if the loop checks a non-empty worker set equal to the ids that acknowledged since the last clear |
| Barrier.AdvanceNeedsFreshAcks | infrastructure/distributed_coordinator.py:232-249 | leaving a tick takes an acknowledgement of every worker from after the publication returned; those between increment and clear are lost |
| BarrierProgress.TimeoutDropsMissing | infrastructure/distributed_coordinator.py:251-277 | a timeout drops exactly the workers that have not acknowledged |
| BarrierProgress.OneTimeoutSuffices | infrastructure/distributed_coordinator.py:250-281 | if only registered workers acknowledge and none is spawned or lost, after one check past the timeout the next has left the tick behind or finds no workers |
| BarrierProgress.CanAdvanceExactly | infrastructure/distributed_coordinator.py:227-281 | from any present some continuation with a forward-running clock moves the tick if and only if the loop is publishing or all ids acknowledged for the tick are registered; otherwise none whatever does |
| BarrierProgress.LosingAnAcknowledgedWorkerBlocks | infrastructure/distributed_coordinator.py:357-370 | dropping a worker that has acknowledged stops the barrier for good |
| BarrierProgress.StrayAcknowledgementBlocks | infrastructure/distributed_coordinator.py:394-400 | after an unregistered id acknowledges the current tick, progress is possible if and only if the loop is publishing |
| BarrierProgress.JoinerSurvivesExactly | infrastructure/distributed_coordinator.py:251-279 | a new worker survives the next check if and only if the wait it joined has not reached the timeout, whatever the other workers are |
| BarrierProgress.IdleTimeCounts | infrastructure/distributed_coordinator.py:216-223 | checks that find nobody change nothing, so the first worker to join is dropped at the next check if and only if the idle wait has reached the timeout |
| Coordinator.DistributedCoordinator.constructor | infrastructure/distributed_coordinator.py:51-58 | the coordinator starts in the initial barrier state |
| Coordinator.DistributedCoordinator.HandleTickAcknowledgement | infrastructure/distributed_coordinator.py:394-402 | exactly this id is added to exactly this tick's set; an unregistered id acknowledging the current tick leaves progress possible if and only if the loop is publishing |
| Coordinator.DistributedCoordinator.SpawnWorker | infrastructure/distributed_coordinator.py:120-144 | a new worker neither blocks nor unblocks the barrier and survives a check if and only if the wait it joined has not reached the timeout |
| Coordinator.DistributedCoordinator.HandleWorkerHeartbeat | infrastructure/distributed_coordinator.py:375-392 | at any later time exactly the registered workers not silent for 15 seconds, this one counted from its own message, would survive the monitor |
| Coordinator.DistributedCoordinator.MonitorWorkerHealth | infrastructure/distributed_coordinator.py:347-370 | one pass drops exactly the workers silent for more than 15 seconds and leaves the others' heartbeats as they were |
| Coordinator.DistributedCoordinator.CheckTick | infrastructure/distributed_coordinator.py:213-242 | one loop pass up to its suspension, in all four outcomes |
| Coordinator.DistributedCoordinator.ResumeAfterPublication | infrastructure/distributed_coordinator.py:243-249 | the new tick starts without acknowledgements and the old set is dropped |
| Batching.KeyIdentifiesCall | infrastructure/llm_batcher.py:165-178 | batch keys are equal if and only if model and prompt are, although the hashed text does not show where one ends |
| Batching.RoundSplits | infrastructure/llm_batcher.py:123-137 | a round takes and leaves every pending request exactly once, and takes at least one |
| Batching.GroupsPartition | infrastructure/llm_batcher.py:165-181 | grouping neither loses nor repeats a request |
| Batching.GroupsAreCalls | infrastructure/llm_batcher.py:165-181 | each group is the requests for one call in batch order, each call has one group, and groups plus duplicates make up the batch |
| BatchRun.CalledBackExactlyOnce | infrastructure/llm_batcher.py:225-258 | no request is called back twice, and between rounds every request neither pending nor overwritten was called back exactly once, even if callbacks raise |
| BatchRun.RunConserves | infrastructure/llm_batcher.py:81-87 | at every suspension point each request ever added is pending, overwritten, in flight or called back, exactly once |
| BatchLaws.AnswersAreOwn | infrastructure/llm_batcher.py:183-258 | every callback carries an answer that was brought to a call with its own prompt and model, and calls side by side all differ |
| BatchLaws.CountersAddUp | infrastructure/llm_batcher.py:278-281 | received is pending plus batched plus overwritten, and batched is duplicates plus batches, at every suspension point |
| BatchLaws.NoStarvation | infrastructure/llm_batcher.py:123-137 | a request that is its arrival plus the timeout old at every round, with j ahead of it, leaves within j / limit + 1 rounds, or in one when the limit is not positive |
| BatchLaws.RoundsComplete | infrastructure/llm_batcher.py:183-201 | in every run a round under way can finish if and only if nothing is left to do, otherwise some call can be answered or some member called back, and no step adds work |
| BatchLaws.WorkNeverGrows | infrastructure/llm_batcher.py:183-258 | nothing adds work to a round under way |
| Batcher.LLMBatcher.AddRequest | infrastructure/llm_batcher.py:81-87 | a reused id takes over its predecessor's place in the queue |
| Batcher.LLMBatcher.SelectBatch | infrastructure/llm_batcher.py:119-133 | with a positive limit and some request that has waited out the timeout on the clock, every request taken has, at most the limit of them, and one that has is left only behind a full batch of earlier ones; otherwise everything is taken |
| Batcher.LLMBatcher.RemovePending | infrastructure/llm_batcher.py:135-137 | removing by id leaves the others in order |
| Batcher.LLMBatcher.OptimizeBatchComposition | infrastructure/llm_batcher.py:157-181 | the grouping loop gives the groups and counts the duplicates |
| Batcher.LLMBatcher.UpdateStats | infrastructure/llm_batcher.py:278-281 | groups and members are counted |
| Batcher.LLMBatcher.AggregateAndProcess | infrastructure/llm_batcher.py:115-141 | one pass up to where it waits is one begin step |
| Batcher.LLMBatcher.ReceiveAnswer | infrastructure/llm_batcher.py:206-258 | an answer leaves every request of the group in flight, leaves one thing less to do, and loses no request |
| Batcher.LLMBatcher.InvokeCallback | infrastructure/llm_batcher.py:225-233 | exactly the next member leaves the requests in flight, called back with its group's call and answer, whether or not the callback raises; no request is lost |
| Batcher.LLMBatcher.FinishRound | infrastructure/llm_batcher.py:200-201 | no request was left in flight: every request ever added is pending, overwritten or called back |
| ConfigMerge.MergedAt | config/model_config.py:302-309 | every path of a merge is decided by the same path of the two layers |
| ConfigMerge.LaterLayersWin | config/model_config.py:312-333 | defaults, file and override: the last layer that sets a plain value wins, silent layers do not disturb it |
| ConfigMerge.MergeIdempotent | config/model_config.py:302-309 | merging a value with itself changes nothing |
| ConfigMerge.OverlayAgain | config/model_config.py:302-309 | applying an overlay twice is applying it once |
| ConfigMerge.AbsorbedExactly | config/model_config.py:302-309 | a base disappears in an overlay if and only if the overlay decides every key of it, all the way down |
| ConfigMerge.AssociativeExactly | config/model_config.py:302-309 | the merge is associative for a triple if and only if no plain middle value hides something the top layer does not decide |
| ConfigMerge.NothingBetweenAssociates | run_grok_proper_sim.py:128-135 | it is associative whenever no plain middle value sits between mappings |
| ConfigMerge.MiddleValueMatters | config/model_config.py:302-309 | a triple for which the grouping matters |
| Settings.DeepMerge | config/model_config.py:302-309 | writing the overlay's keys into a copy, in any order, is the merge |
| Settings.LayersDecide | config/model_config.py:312-342 | the override decides a path, then the file, then the defaults, where validation changes nothing; the defaults alone where it refuses |
| Settings.ModelConfig.GetModelParams | config/model_config.py:312-342 | plain calls answer from the cache, all others layer afresh, and whatever was computed, overrides included, is cached |

## Left out

- Language-model clients, prompts, response parsing, reflective memory, progress printing and live-trace files: input, output or code not shown; decisions are arbitrary input.
- The Mersenne Twister's numbers, binary floating-point rounding, infinities and NaN: draws are an arbitrary stream and reals are exact.
- The random opening rivals and supplier quotes and the product table: they are arbitrary inputs of a run.
- Seasonal windows: the seasonal factors are arbitrary functions of day and category.
- Text that is only shown (event messages, storylines, headlines, reasoning, action counts, memory summaries) and the fields of a theater frame that only repeat saved figures.
- Conversions of single decision values (to cents, whole numbers, stripped text, service mode): arbitrary deterministic functions.
- JSON encoding and decoding of the results file, the file's location and a replay longer or shorter than its source.
- Applying decisions of the wrong shape, such as a mapping where a list is expected: cutting them down does not preserve their meaning or raises, so replay requires well-typed shapes; loading them is modelled. A dictionary built from a list of pairs is kept as that list and not read.
- Comparator.CompareLiveAndReplay: does not model the text of a mismatch entry (values, tolerance, kind of difference); which places they name is stated.
- Rounding of dollar figures and percentages to two or three places in saved timelines: model figures are exact.
- The published invariant that the language model was called at least once a day: the number of calls is the session's own, and a replay's file, which records none, does not satisfy it.
- Results files whose figures are not numbers, which make the timeline reconstruction raise.
- Mutation of one object through two references (rivals, products, queued orders) is modelled by updating the collection that holds them.
- Heartbeats without a timestamp, which make the health monitor's next pass raise and end it.
- Worker capabilities, partitions, statuses and result aggregation of the coordinator, and shutdown.
- Event buses that raise, or that suspend when a worker is registered or reported lost; `publish_event` may suspend.
- Equal random worker ids: a spawned worker gets an id not used before.
- Several clock readings within one uninterrupted stretch are one reading.
- Non-integer batch limits, batch parameters changed during a run, token and cost estimates, latency statistics, and the request's own status fields.
- Cancellation, and exceptions that are not ordinary errors raised by callbacks.
- Hash collisions: batching laws that need it require that the hash separates the texts of the requests actually added.
- Parsing of the YAML file and the field-by-field validation of parameters: validation is an arbitrary function of the merged mapping.
