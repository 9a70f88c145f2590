/**
 * The per-tick decision system: every Proletarian person spawns one Food buy
 * order whose amount grows with the income tier and whose unit price is the
 * current Food price; Bourgeois persons do nothing yet.
 *
 * The Food price is looked up with a first-match search over the price
 * records, and a missing record aborts the system (an unwrap of an empty
 * search result). That abort is the Failure case of Result here.
 */
module DemandSystem {
  import opened Models
  import opened StartupSystem

  datatype Option<T> = None | Some(value: T)

  /** The one way a system can fail: a lookup found no price record for a good. */
  datatype Error = MissingPrice(goodsType: GoodsType)

  datatype Result<T> = Ok(value: T) | Failure(error: Error)

  /**
   * The price of the first record for good `g`, or None when no record
   * covers `g`.
   */
  function FirstPrice(prices: seq<Price>, g: GoodsType): (r: Option<real>)
    ensures r.Some? <==> g in PricedGoods(prices)
    ensures r.Some? ==> exists i :: (IsFirstRecord(prices, g, i) && r.value == prices[i].price)
  {
    if prices == [] then None
    else if prices[0].goodsType == g then
      assert IsFirstRecord(prices, g, 0);
      Some(prices[0].price)
    else
      var r := FirstPrice(prices[1..], g);
      assert PricedGoods(prices) == [prices[0].goodsType] + PricedGoods(prices[1..]);
      assert forall i :: IsFirstRecord(prices[1..], g, i) ==> IsFirstRecord(prices, g, i + 1);
      r
  }

  /** Record `i` is for good `g` and no earlier record is. */
  predicate IsFirstRecord(prices: seq<Price>, g: GoodsType, i: int)
  {
    && 0 <= i < |prices|
    && prices[i].goodsType == g
    && forall j :: 0 <= j < i ==> prices[j].goodsType != g
  }

  /** With exactly one record per good, the search always finds that record's price. */
  lemma FirstPriceInCompleteBook(prices: seq<Price>, g: GoodsType, i: int)
    requires OnePricePerGood(prices)
    requires 0 <= i < |prices| && prices[i].goodsType == g
    ensures FirstPrice(prices, g) == Some(prices[i].price)
  {
    var r := FirstPrice(prices, g);
    var j :| IsFirstRecord(prices, g, j) && r.value == prices[j].price;
    assert PricedGoods(prices)[i] == PricedGoods(prices)[j];
  }

  /** The startup price book prices Food at its starting price. */
  lemma StartingFoodPrice()
    ensures FirstPrice(StartingPriceBook(), Food) == Some(StartingPrice(Food))
  {
    StartingPriceBookComplete();
    assert StartingPriceBook()[0].goodsType == Food;
    FirstPriceInCompleteBook(StartingPriceBook(), Food, 0);
  }

  /** Search loop over the price records, stopping at the first match. */
  method FindPrice(prices: seq<Price>, g: GoodsType) returns (r: Option<real>)
    ensures r == FirstPrice(prices, g)
  {
    var i := 0;
    while i < |prices|
      invariant 0 <= i <= |prices|
      invariant FirstPrice(prices[i..], g) == FirstPrice(prices, g)
    {
      if prices[i].goodsType == g {
        return Some(prices[i].price);
      }
      assert prices[i..][1..] == prices[i + 1..];
      i := i + 1;
    }
    assert prices[i..] == [];
    return None;
  }

  /** Units of Food a Proletarian asks for per tick: one more per tier. */
  function FoodDemand(income: Income): (n: int)
    ensures n == IncomeRank(income) + 1
  {
    match income
    case Low => 1
    case Middle => 2
    case High => 3
    case VeryHigh => 4
  }

  /** The order a Proletarian of the given tier spawns at the given Food price. */
  function FoodOrder(income: Income, foodPrice: real): BuyOrder
  {
    BuyOrder(Food, FoodDemand(income), foodPrice, FromPerson)
  }

  /** The Proletarians among the persons, in order. */
  function Proletarians(persons: seq<Person>): (ps: seq<Person>)
    ensures forall p :: p in ps <==> p in persons && p.socialClass == Proletariat
  {
    if persons == [] then []
    else
      var last := persons[|persons| - 1];
      var init := persons[..|persons| - 1];
      assert persons == init + [last];
      Proletarians(init) + (if last.socialClass == Proletariat then [last] else [])
  }

  /** True when some person is a Proletarian, so the Food price will be looked up. */
  predicate HasProletarian(persons: seq<Person>)
  {
    exists i :: 0 <= i < |persons| && persons[i].socialClass == Proletariat
  }

  /** The orders spawned for the persons, in order, at a known Food price. */
  function OrdersFor(persons: seq<Person>, foodPrice: real): seq<BuyOrder>
  {
    if persons == [] then []
    else
      var last := persons[|persons| - 1];
      OrdersFor(persons[..|persons| - 1], foodPrice)
        + (if last.socialClass == Proletariat then [FoodOrder(last.income, foodPrice)] else [])
  }

  /**
   * What the decision system spawns, given the result of the Food price
   * search: the orders when a price was found, nothing when nobody needed the
   * price, and a failure when a Proletarian met the missing price.
   */
  function Demand(persons: seq<Person>, foodPrice: Option<real>): Result<seq<BuyOrder>>
  {
    match foodPrice
    case Some(fp) => Ok(OrdersFor(persons, fp))
    case None => if HasProletarian(persons) then Failure(MissingPrice(Food)) else Ok([])
  }

  /**
   * The orders correspond one to one, in order, to the Proletarians: each is
   * a Food order from a person, at the Food price, for the tier's amount.
   * Bourgeois persons contribute nothing.
   */
  lemma {:induction false} OrdersForProletarians(persons: seq<Person>, foodPrice: real)
    ensures |OrdersFor(persons, foodPrice)| == |Proletarians(persons)|
    ensures forall k :: 0 <= k < |Proletarians(persons)| ==>
      OrdersFor(persons, foodPrice)[k] == FoodOrder(Proletarians(persons)[k].income, foodPrice)
    decreases |persons|
  {
    if persons != [] {
      OrdersForProletarians(persons[..|persons| - 1], foodPrice);
    }
  }

  /** Every spawned order is a Food order by a person at the Food price, for 1 to 4 units. */
  lemma OrdersAreFoodOrders(persons: seq<Person>, foodPrice: real)
    ensures forall o :: o in OrdersFor(persons, foodPrice) ==>
      && o.goodsType == Food && o.orderType == FromPerson && o.price == foodPrice
      && 1 <= o.amount <= 4
  {
    OrdersForProletarians(persons, foodPrice);
  }

  /** The system fails exactly when a Proletarian exists and no Food record does. */
  lemma DemandFailsIffNoFoodPrice(persons: seq<Person>, prices: seq<Price>)
    ensures Demand(persons, FirstPrice(prices, Food)).Failure?
      <==> HasProletarian(persons) && Food !in PricedGoods(prices)
  {
  }

  /** Units of Food the Proletarians among the persons ask for in total. */
  function FoodWanted(persons: seq<Person>): int
  {
    if persons == [] then 0
    else
      var last := persons[|persons| - 1];
      FoodWanted(persons[..|persons| - 1])
        + (if last.socialClass == Proletariat then FoodDemand(last.income) else 0)
  }

  /** The spawned amounts add up to what the Proletarians ask for. */
  lemma {:induction false} OrdersForTotal(persons: seq<Person>, foodPrice: real)
    ensures TotalAmount(OrdersFor(persons, foodPrice)) == FoodWanted(persons)
    decreases |persons|
  {
    if persons != [] {
      var init := persons[..|persons| - 1];
      var last := persons[|persons| - 1];
      OrdersForTotal(init, foodPrice);
      var tail := if last.socialClass == Proletariat then [FoodOrder(last.income, foodPrice)] else [];
      TotalAmountAppend(OrdersFor(init, foodPrice), tail);
    }
  }

  /**
   * Over a freshly spawned population and price book the system cannot fail,
   * spawns one order per Proletarian at price 1.0, and never the four-unit
   * order of the top tier, since no Proletarian holds it.
   */
  lemma StartupDemand(classDraws: seq<ClassDraw>, incomeDraws: seq<IncomeDraw>)
    requires |classDraws| == |incomeDraws|
    ensures var r := Demand(Population(classDraws, incomeDraws), FirstPrice(StartingPriceBook(), Food));
      && r.Ok?
      && |r.value| == |Proletarians(Population(classDraws, incomeDraws))|
      && forall o :: o in r.value ==> o.price == 1.0 && 1 <= o.amount <= 3
  {
    var persons := Population(classDraws, incomeDraws);
    PopulationShape(classDraws, incomeDraws);
    StartingFoodPrice();
    OrdersForProletarians(persons, 1.0);
    var orders := OrdersFor(persons, 1.0);
    var ps := Proletarians(persons);
    forall o | o in orders ensures o.price == 1.0 && 1 <= o.amount <= 3 {
      var k :| 0 <= k < |orders| && orders[k] == o;
      assert ps[k] in ps;
      var i :| 0 <= i < |persons| && persons[i] == ps[k];
      assert ClassInvariant(persons[i]);
    }
  }

  /** The decision loop: one Food order per Proletarian, looking the price up each time. */
  method DecideOrders(persons: seq<Person>, prices: seq<Price>) returns (r: Result<seq<BuyOrder>>)
    ensures r == Demand(persons, FirstPrice(prices, Food))
  {
    ghost var food := FirstPrice(prices, Food);
    var orders: seq<BuyOrder> := [];
    for i := 0 to |persons|
      invariant food.Some? ==> orders == OrdersFor(persons[..i], food.value)
      invariant food.None? ==> orders == [] && !HasProletarian(persons[..i])
    {
      var person := persons[i];
      assert persons[..i + 1][..i] == persons[..i];
      match person.socialClass {
        case Bourgeois =>
        case Proletariat =>
          var found := FindPrice(prices, Food);
          if found.None? {
            return Failure(MissingPrice(Food));
          }
          var foodPrice := found.value;
          match person.income {
            case Low =>
              orders := orders + [BuyOrder(Food, 1, foodPrice, FromPerson)];
            case Middle =>
              orders := orders + [BuyOrder(Food, 2, foodPrice, FromPerson)];
            case High =>
              orders := orders + [BuyOrder(Food, 3, foodPrice, FromPerson)];
            case VeryHigh =>
              orders := orders + [BuyOrder(Food, 4, foodPrice, FromPerson)];
          }
      }
    }
    assert persons[..|persons|] == persons;
    return Ok(orders);
  }
}
