# bad_econ economy simulation in Dafny

This project models the core of a small agent-based economy simulation
written as Bevy ECS systems. It has two parts.

The static catalogue (`src/models.rs`) holds:
- the samplers that turn integer draws into a social class (Bourgeois or Proletariat) and an income tier;
- the starting money of each tier;
- the starting price of each of the 17 goods;
- the production recipe table, which gives each facility's ordered inputs and its single output;
- the records the systems spawn: persons, price records, buy orders and per-good buy-order sums.

The three systems (`src/main.rs`) are:
- `startup` spawns 100000 persons from one class draw and one income draw each. It forces a Bourgeois person to the top tier and its money. It then spawns one price record per good.
- `main_loop` has every Proletarian spawn one Food buy order. The order's amount is set by the tier, and its price is the current Food price, found by a first-match search. The system aborts when a Proletarian exists and no Food price record does; the price is only looked up for a Proletarian.
- `market_loop` groups the tick's buy orders by good and folds each group into a sum. The fold adds the amounts and keeps the price of the last order. The system then despawns every buy order.

Files:
- `models.dfy` (module `Models`): the catalogue.
- `startup.dfy` (`StartupSystem`): population and price book construction.
- `demand.dfy` (`DemandSystem`): the decision system.
- `market.dfy` (`MarketSystem`): grouping, folding and the reference aggregate `Aggregated`.
- `world.dfy` (`Simulation`): the `World` class and end-to-end lemmas.

The `World` class holds the ECS world as three sequences in iteration order: `persons`, `prices` and `buyOrders`. The systems are its methods. Each system reads the world, computes what it spawns or despawns, and applies those commands when it ends. So a system that aborts changes nothing.

The two per-tick systems are registered as `(main_loop, market_loop)` with no ordering edge, so Bevy puts no sync point between them. Both read the world as it was when the fixed-update run began, and both command buffers are applied when the run ends. So `market_loop` in run t aggregates and despawns the orders spawned in run t-1. The first run after startup aggregates nothing, and every run ends with its own orders live. `World.ScheduledTick` models that run, and `FirstScheduledTicks` states the first two runs after startup. `World.Tick` and `FirstTick` describe a step-by-step tick instead: `main_loop`'s orders are applied before `market_loop` runs, so a tick aggregates its own demand.

Modelling choices:
- The random number generator is replaced by the draws it would produce. These are `ClassDraw` (0 to 9) and `IncomeDraw` (0 to 99).
- `f64` prices and money are `real`, since they are only copied and never computed.
- The order-type tags `Production` and `Person` are named `FromProduction` and `FromPerson`. This avoids a clash with the `Production` and `Person` datatypes.
- The unwrap of the Food price search becomes the `Failure(MissingPrice(Food))` result.

Facts about the code worth stating:
- The income sampler's fall-through arm sends draw 99 to `Low`. So the sampler never yields `VeryHigh`, and no Proletarian ever holds it.
- The aggregated price of a good is the price of its last order in iteration order.
- The market system aggregates, reports and despawns the buy orders; it changes no price record.

## Model

| member | source | states |
|---|---|---|
| `Models.SampleClass` | src/models.rs:17-25 | draws 0 and 1 give Bourgeois; draws 2 to 9 give Proletariat |
| `Models.SampleIncome` | src/models.rs:27-36 | 0..=70 gives Low, 71..=90 Middle, 91..=98 High, and 99 falls to Low; the result is never VeryHigh |
| `Models.StartingMoney` | src/models.rs:97-106 | every tier starts with at least 10.0; 1500.0 is the top tier's amount and no other tier's |
| `Models.StartingMoneyIncreasing` | src/models.rs:98-105 | starting money strictly increases in the tier order Low < Middle < High < VeryHigh |
| `Models.StartingPrice` | src/models.rs:65-87 | every one of the 17 goods starts at price 1.0 |
| `Models.AllGoods` | src/models.rs:44-63 | the goods iterator yields 17 goods without repetition |
| `Models.AllGoodsComplete` | src/models.rs:44-63 | the goods iterator reaches every good |
| `Models.AllProductions` | src/models.rs:121-139 | there are 15 production kinds, listed without repetition |
| `Models.AllProductionsComplete` | src/models.rs:121-139 | every production kind is in the list |
| `Models.Input` | src/models.rs:143-161 | only House has an empty input list; every other list starts with Labor; no list repeats a good; no facility consumes its own output |
| `Models.Output` | src/models.rs:164-182 | no facility yields Food or Labor |
| `Models.WeaponFactoryRecipe` | src/models.rs:143-182 | WeaponFactory consumes exactly [Labor, Steel, Tool] and yields Weapon |
| `Models.OutputInjective` | src/models.rs:164-182 | two facilities with the same output are the same facility |
| `Models.OutputsDistinct` | src/models.rs:164-182 | the outputs of the 15 facilities are 15 distinct goods |
| `StartupSystem.PopulationShape` | src/main.rs:38-59 | one person per draw pair with id equal to its index; its class is the sampled class; a Bourgeois holds VeryHigh and 1500.0, whatever the income draw; a Proletarian holds its drawn tier, never VeryHigh, and that tier's money |
| `StartupSystem.SpawnPopulation` | src/main.rs:38-59 | the spawning loop yields exactly the population defined by the draws |
| `StartupSystem.StartingPriceBookComplete` | src/main.rs:60-66 | the startup price book has 17 records, exactly one per good, each at its starting price 1.0 |
| `StartupSystem.SpawnPriceBook` | src/main.rs:60-66 | the price spawning loop yields the starting price book, in goods iterator order |
| `DemandSystem.FirstPrice` | src/main.rs:80-83 | the Food price search finds a price exactly when some record is for the good, and then it is the price of the first such record |
| `DemandSystem.FindPrice` | src/main.rs:80-83 | the search loop returns the first matching record's price, or nothing |
| `DemandSystem.FirstPriceInCompleteBook` | src/main.rs:80-83 | with one record per good, the search returns that good's record's price |
| `DemandSystem.StartingFoodPrice` | src/main.rs:60-83 | after startup, the Food price search finds 1.0 |
| `DemandSystem.FoodDemand` | src/main.rs:84-117 | a Proletarian orders one more unit of Food per tier: 1, 2, 3 or 4 |
| `DemandSystem.OrdersForProletarians` | src/main.rs:74-120 | exactly one order per Proletarian, in person order; it is a Food order from a person at the Food price for the tier's amount; Bourgeois persons spawn nothing |
| `DemandSystem.OrdersAreFoodOrders` | src/main.rs:79-117 | every spawned order is for Food, is tagged as from a person, carries the Food price, and asks for 1 to 4 units |
| `DemandSystem.DemandFailsIffNoFoodPrice` | src/main.rs:79-83 | the system aborts exactly when some Proletarian exists and no Food price record does |
| `DemandSystem.OrdersForTotal` | src/main.rs:84-117 | the spawned amounts add up to the Food the Proletarians ask for |
| `DemandSystem.StartupDemand` | src/main.rs:37-120 | on a freshly spawned world the decision system cannot abort; it spawns one order per Proletarian at price 1.0 and never the 4-unit order |
| `DemandSystem.DecideOrders` | src/main.rs:69-121 | the decision loop, which looks the price up for each Proletarian, spawns the orders the demand specification gives, or aborts exactly when it does |
| `MarketSystem.OrdersOfMembers` | src/main.rs:129-133 | a good's group holds exactly the orders for that good |
| `MarketSystem.AggregatedKeys` | src/main.rs:129-146 | a good has a sum exactly when some order is for it; a good without orders has no entry |
| `MarketSystem.LastPriceIsLastOrder` | src/main.rs:140-144 | the kept price is that of an order for the good after which no other order for it comes |
| `MarketSystem.FoldOrders` | src/main.rs:135-144 | the fold keeps the good, adds the group's total amount, and ends with the last order's price (or the initial one when the group is empty) |
| `MarketSystem.LastPriceOfGroup` | src/main.rs:140-145 | the last-order price equals the price of the last member of the good's group |
| `MarketSystem.AggregatedIsFold` | src/main.rs:134-146 | each reference sum is the fold of its good's group from an empty sum with price 0.0 |
| `MarketSystem.GroupByGood` | src/main.rs:129-133 | the grouping loop yields one group per ordered good, holding that good's orders in iteration order |
| `MarketSystem.SumGroups` | src/main.rs:134-146 | folding the groups in any key order yields one sum per group, each the fold of its group |
| `MarketSystem.Aggregate` | src/main.rs:127-146 | grouping then summing yields the reference aggregate: amount summed per good, price of the last order, goods without orders absent |
| `MarketSystem.AggregatedConservesAmount` | src/main.rs:129-146 | the aggregated amounts over all goods add up to the total amount of all buy orders |
| `MarketSystem.AmountOfPermutation` | src/main.rs:129-146 | a good's aggregated amount is the same for any iteration order of the same orders |
| `MarketSystem.SingleGoodAggregate` | src/main.rs:129-146 | orders that are all for one good aggregate to the single sum of their total amount at the last order's price |
| `MarketSystem.LastOrderPriceWins` | src/main.rs:140-144 | the kept price depends on iteration order: the same two Food orders in either order give 3 units, at 2.0 in one order and at 1.0 in the other |
| `MarketSystem.ThreeFoodOrders` | src/main.rs:129-146 | Food orders of 1, 2 and 1 units at 1.0 aggregate to the single sum of 4 units at 1.0 |
| `Simulation.World.constructor` | src/main.rs:29-34 | the world starts with no persons, prices or buy orders |
| `Simulation.World.Startup` | src/main.rs:37-67 | appends the population and the starting price book, leaves buy orders alone, and on an empty world establishes one price per good, ids as indices and the class invariant |
| `Simulation.World.MainLoop` | src/main.rs:69-121 | appends exactly the demand orders, or on abort leaves buy orders as they were; persons and prices are unchanged |
| `Simulation.World.MarketLoop` | src/main.rs:123-156 | returns the aggregate of the buy orders present, leaves no buy order, and leaves persons and prices unchanged |
| `Simulation.World.Tick` | src/main.rs:33 | in a started world, a tick cannot abort; it aggregates the leftover orders plus the tick's demand, ends with no buy orders, and keeps the world's invariants |
| `Simulation.World.ScheduledTick` | src/main.rs:33-156 | in a started world, one fixed-update run as registered: it aggregates the orders left by the previous run, and ends holding exactly this run's demand orders; persons, prices and the world's invariants are kept |
| `Simulation.DemandGoods` | src/main.rs:74-120 | the decision system orders only Food, and orders it exactly when a Proletarian exists |
| `Simulation.DemandAggregate` | src/main.rs:74-146 | a tick's demand aggregates to the single Food sum of what the Proletarians ask for, at the Food price, or to nothing |
| `Simulation.FirstScheduledTicks` | src/main.rs:29-156 | after startup, the first scheduled run aggregates nothing; the second aggregates the first run's demand into one Food sum at 1.0, or nothing when there is no Proletarian |
| `Simulation.FirstTick` | src/main.rs:37-146 | on the first tick after startup the aggregate is one Food sum of the Proletarians' demand at price 1.0, or empty when there is no Proletarian |

## Left out

- Bevy plumbing is not modelled: `App`, `MinimalPlugins`, the `FixedUpdate` schedule and the 1-second fixed timestep. Systems are methods on an explicit world.
- Bevy's scheduler is not modelled as such. `World.ScheduledTick` fixes one fixed-update run as the source registers it: both systems read the state at the start of the run, and both command buffers are applied at its end. Which of the two systems executes first does not change that outcome. `World.Tick` is a step-by-step variant that applies each system's commands as that system ends; in the source, the demand of one run is aggregated in the next run.
- Randomness is not modelled. The draws are inputs bounded to 0..10 and 0..100, and the statistical proportions are not captured.
- The CLI parsing (`Cli::parse`) and the unused csv, polars, serde and strum imports are not part of this model.
- The console print of the aggregate is not modelled. `MarketLoop` returns the aggregate instead.
- Floating point is not modelled. Prices and money are `real`, because they are only copied and never computed.
- 64-bit integers are not modelled. Ids and amounts are unbounded `int`. The largest possible sum is 4 * 100000, so wrap-around cannot occur.
- Entities are not modelled. Orders have no entity ids, and despawning removes an order from the world's sequence.
- ECS query iteration order is fixed as sequence order. HashMap iteration order is left arbitrary: `SumGroups` takes the keys in any order. "Last order" means last in the buy-order sequence.
- `SellOrder`, the `BuyOrders`/`SellOrders` bundles and `ProductionInstance` are never constructed or used by the systems, so they are not modelled.
- No clearing, settlement or price update exists in the systems, so none is modelled. Price records never change after startup.
