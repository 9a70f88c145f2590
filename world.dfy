/**
 * The simulation world and its three systems. The world holds the spawned
 * persons, price records and buy orders as sequences in iteration order.
 * Each system reads the world, computes what it spawns or despawns, and
 * applies those changes when it finishes, so a system that aborts changes
 * nothing.
 */
module Simulation {
  import opened Models
  import opened StartupSystem
  import opened DemandSystem
  import opened MarketSystem

  class World {
    var persons: seq<Person>
    var prices: seq<Price>
    var buyOrders: seq<BuyOrder>

    /** An empty world, before the startup system runs. */
    constructor ()
      ensures persons == [] && prices == [] && buyOrders == []
    {
      persons, prices, buyOrders := [], [], [];
    }

    /**
     * What holds once startup has run on an empty world: one price record
     * per good, persons identified by their index, and every person obeying
     * the class invariant.
     */
    predicate Ready()
      reads this
    {
      && OnePricePerGood(prices)
      && IdsAreIndices(persons)
      && forall i :: 0 <= i < |persons| ==> ClassInvariant(persons[i])
    }

    /** The startup system: spawn the population, then one price record per good. */
    method Startup(classDraws: seq<ClassDraw>, incomeDraws: seq<IncomeDraw>)
      requires |classDraws| == PopulationSize && |incomeDraws| == PopulationSize
      modifies this
      ensures persons == old(persons) + Population(classDraws, incomeDraws)
      ensures prices == old(prices) + StartingPriceBook()
      ensures buyOrders == old(buyOrders)
      ensures old(persons) == [] && old(prices) == [] ==> Ready()
    {
      var spawnedPersons := SpawnPopulation(classDraws, incomeDraws);
      var spawnedPrices := SpawnPriceBook();
      persons := persons + spawnedPersons;
      prices := prices + spawnedPrices;
      PopulationShape(classDraws, incomeDraws);
      StartingPriceBookComplete();
      assert old(persons) == [] ==> persons == spawnedPersons;
      assert old(prices) == [] ==> prices == spawnedPrices;
    }

    /**
     * The decision system: spawn one Food order per Proletarian, or abort
     * without spawning anything when a Proletarian finds no Food price.
     */
    method MainLoop() returns (r: Result<seq<BuyOrder>>)
      modifies this
      ensures r == Demand(persons, FirstPrice(prices, Food))
      ensures r.Ok? ==> buyOrders == old(buyOrders) + r.value
      ensures r.Failure? ==> buyOrders == old(buyOrders)
      ensures persons == old(persons) && prices == old(prices)
    {
      r := DecideOrders(persons, prices);
      if r.Ok? {
        buyOrders := buyOrders + r.value;
      }
    }

    /**
     * The market system: aggregate the buy orders per good, then despawn
     * every buy order. Persons and prices are left as they were.
     */
    method MarketLoop() returns (sums: map<GoodsType, BuyOrderSum>)
      modifies this
      ensures sums == Aggregated(old(buyOrders))
      ensures buyOrders == []
      ensures persons == old(persons) && prices == old(prices)
    {
      sums := Aggregate(buyOrders);
      var n := |buyOrders|;
      for i := 0 to n
        invariant buyOrders == old(buyOrders)[i..]
        invariant persons == old(persons) && prices == old(prices)
      {
        buyOrders := buyOrders[1..];
      }
    }

    /**
     * A step-by-step tick: the decision system, whose commands are applied as
     * it ends, then the market system, which therefore sees this tick's orders. In a ready
     * world the decision system cannot abort, and the tick ends with no buy
     * orders and the world otherwise unchanged.
     */
    method Tick() returns (sums: map<GoodsType, BuyOrderSum>)
      requires Ready()
      modifies this
      ensures Ready()
      ensures FirstPrice(prices, Food).Some?
      ensures sums == Aggregated(old(buyOrders) + OrdersFor(persons, FirstPrice(prices, Food).value))
      ensures buyOrders == []
      ensures persons == old(persons) && prices == old(prices)
    {
      var r := MainLoop();
      sums := MarketLoop();
    }

    /**
     * One run of the fixed-update schedule as it is registered: the two
     * systems have no ordering edge, so no sync point separates them. Both
     * read the world as it was when the run began, and both command buffers
     * are applied when the run ends. The market system therefore aggregates
     * and despawns the orders left by the previous run, and the orders spawned
     * in this run are live when it ends.
     */
    method ScheduledTick() returns (sums: map<GoodsType, BuyOrderSum>)
      requires Ready()
      modifies this
      ensures Ready()
      ensures FirstPrice(prices, Food).Some?
      ensures sums == Aggregated(old(buyOrders))
      ensures buyOrders == OrdersFor(persons, FirstPrice(prices, Food).value)
      ensures persons == old(persons) && prices == old(prices)
    {
      var r := DecideOrders(persons, prices);
      sums := Aggregate(buyOrders);
      buyOrders := r.value;
    }
  }

  /**
   * The aggregate of one tick's demand: a single Food sum holding what the
   * Proletarians ask for at the Food price, or nothing when there is no
   * Proletarian.
   */
  lemma DemandAggregate(persons: seq<Person>, foodPrice: real)
    ensures Aggregated(OrdersFor(persons, foodPrice)).Keys
      == (if HasProletarian(persons) then {Food} else {})
    ensures HasProletarian(persons) ==>
      Aggregated(OrdersFor(persons, foodPrice))[Food] == BuyOrderSum(Food, FoodWanted(persons), foodPrice)
  {
    var orders := OrdersFor(persons, foodPrice);
    DemandGoods(persons, foodPrice);
    if HasProletarian(persons) {
      OrdersAreFoodOrders(persons, foodPrice);
      OrdersForTotal(persons, foodPrice);
      assert orders[0] in orders;
      SingleGoodAggregate(orders, Food);
    }
  }

  /** Only Food is ordered, and it is ordered exactly when there is a Proletarian. */
  lemma DemandGoods(persons: seq<Person>, foodPrice: real)
    ensures GoodsIn(OrdersFor(persons, foodPrice)) == (if HasProletarian(persons) then {Food} else {})
  {
    var orders := OrdersFor(persons, foodPrice);
    OrdersAreFoodOrders(persons, foodPrice);
    OrdersForProletarians(persons, foodPrice);
    if HasProletarian(persons) {
      var i :| 0 <= i < |persons| && persons[i].socialClass == Proletariat;
      assert persons[i] in Proletarians(persons);
      assert orders[0] in orders;
    }
  }

  /**
   * The first two scheduled runs after startup: the first aggregates nothing,
   * since no buy order exists yet, and the second aggregates the demand of
   * the first, a single Food sum at the starting price 1.0.
   */
  method FirstScheduledTicks(classDraws: seq<ClassDraw>, incomeDraws: seq<IncomeDraw>)
    returns (first: map<GoodsType, BuyOrderSum>, second: map<GoodsType, BuyOrderSum>)
    requires |classDraws| == PopulationSize && |incomeDraws| == PopulationSize
    ensures first == map[]
    ensures var persons := Population(classDraws, incomeDraws);
      && second.Keys == (if HasProletarian(persons) then {Food} else {})
      && (HasProletarian(persons) ==> second[Food] == BuyOrderSum(Food, FoodWanted(persons), 1.0))
  {
    var world := new World();
    world.Startup(classDraws, incomeDraws);
    assert world.persons == Population(classDraws, incomeDraws);
    assert world.prices == StartingPriceBook();
    first := world.ScheduledTick();
    assert first == Aggregated([]);
    StartingFoodPrice();
    ghost var demand := OrdersFor(world.persons, 1.0);
    assert world.buyOrders == demand;
    second := world.ScheduledTick();
    DemandAggregate(Population(classDraws, incomeDraws), 1.0);
  }

  /**
   * The first tick after startup: the population asks only for Food, at the
   * starting price 1.0, and the aggregate is that single Food sum.
   */
  lemma FirstTick(classDraws: seq<ClassDraw>, incomeDraws: seq<IncomeDraw>)
    requires |classDraws| == |incomeDraws|
    ensures var persons := Population(classDraws, incomeDraws);
      var r := Demand(persons, FirstPrice(StartingPriceBook(), Food));
      && r.Ok?
      && Aggregated(r.value).Keys == (if HasProletarian(persons) then {Food} else {})
      && (HasProletarian(persons) ==>
            Aggregated(r.value)[Food] == BuyOrderSum(Food, FoodWanted(persons), 1.0))
  {
    StartingFoodPrice();
    DemandAggregate(Population(classDraws, incomeDraws), 1.0);
  }
}
