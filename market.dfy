/**
 * The aggregation half of the market system: the tick's buy orders are
 * grouped by good (a map from good to the list of its orders, appended in
 * iteration order), each group is folded into a sum that adds the amounts and
 * keeps the price of the last order folded in, and the sums are collected in
 * a map from good to sum.
 *
 * Aggregated is the reference definition of the result: a good is a key
 * exactly when some order is for it, its amount is the sum of those orders'
 * amounts, and its price is that of the last of them in iteration order.
 */
module MarketSystem {
  import opened Models

  /** The orders for good `g`, in iteration order. */
  function OrdersOf(orders: seq<BuyOrder>, g: GoodsType): seq<BuyOrder>
  {
    if orders == [] then []
    else
      var last := orders[|orders| - 1];
      OrdersOf(orders[..|orders| - 1], g) + (if last.goodsType == g then [last] else [])
  }

  /** The group of `g` holds exactly the orders for `g`. */
  lemma {:induction false} OrdersOfMembers(orders: seq<BuyOrder>, g: GoodsType)
    ensures forall o :: o in OrdersOf(orders, g) <==> o in orders && o.goodsType == g
    decreases |orders|
  {
    if orders != [] {
      var init := orders[..|orders| - 1];
      assert orders == init + [orders[|orders| - 1]];
      OrdersOfMembers(init, g);
    }
  }

  /** The goods that at least one order is for. */
  function GoodsIn(orders: seq<BuyOrder>): set<GoodsType>
  {
    set o | o in orders :: o.goodsType
  }

  lemma GoodsInSnoc(orders: seq<BuyOrder>, o: BuyOrder)
    ensures GoodsIn(orders + [o]) == GoodsIn(orders) + {o.goodsType}
  {
  }

  /** Total amount ordered of good `g`. */
  function AmountOf(orders: seq<BuyOrder>, g: GoodsType): int
  {
    TotalAmount(OrdersOf(orders, g))
  }

  /**
   * The price of the last order for `g`, or 0.0 (the initial price of a sum)
   * when there is none.
   */
  function LastPriceOf(orders: seq<BuyOrder>, g: GoodsType): real
  {
    if orders == [] then 0.0
    else if orders[|orders| - 1].goodsType == g then orders[|orders| - 1].price
    else LastPriceOf(orders[..|orders| - 1], g)
  }

  /** The reference result of the aggregation. */
  function Aggregated(orders: seq<BuyOrder>): map<GoodsType, BuyOrderSum>
  {
    map g | g in GoodsIn(orders) :: BuyOrderSum(g, AmountOf(orders, g), LastPriceOf(orders, g))
  }

  /** A good has a sum exactly when some order is for it: absent goods had no orders. */
  lemma AggregatedKeys(orders: seq<BuyOrder>, g: GoodsType)
    ensures g in Aggregated(orders) <==> exists k :: 0 <= k < |orders| && orders[k].goodsType == g
    ensures g !in Aggregated(orders) ==> OrdersOf(orders, g) == [] && AmountOf(orders, g) == 0
  {
    OrdersOfMembers(orders, g);
  }

  /**
   * The price kept for a good is the price of an order for that good after
   * which no other order for it comes; `k` is that order's position.
   */
  lemma {:induction false} LastPriceIsLastOrder(orders: seq<BuyOrder>, g: GoodsType) returns (k: int)
    requires g in GoodsIn(orders)
    ensures 0 <= k < |orders| && orders[k].goodsType == g
    ensures LastPriceOf(orders, g) == orders[k].price
    ensures forall j :: k < j < |orders| ==> orders[j].goodsType != g
    decreases |orders|
  {
    var n := |orders|;
    if orders[n - 1].goodsType == g {
      k := n - 1;
    } else {
      var init := orders[..n - 1];
      var o :| o in orders && o.goodsType == g;
      assert o in init by { assert orders == init + [orders[n - 1]]; }
      k := LastPriceIsLastOrder(init, g);
      assert orders[k] == init[k];
    }
  }

  /** The fold over one group: add the amount, take the price. */
  function FoldOrders(acc: BuyOrderSum, group: seq<BuyOrder>): (r: BuyOrderSum)
    ensures r.goodsType == acc.goodsType
    ensures r.amount == acc.amount + TotalAmount(group)
    ensures r.price == if group == [] then acc.price else group[|group| - 1].price
    decreases |group|
  {
    if group == [] then acc
    else FoldOrders(BuyOrderSum(acc.goodsType, acc.amount + group[0].amount, group[0].price), group[1..])
  }

  /** The last order of a good's group carries the price LastPriceOf keeps. */
  lemma {:induction false} LastPriceOfGroup(orders: seq<BuyOrder>, g: GoodsType)
    ensures LastPriceOf(orders, g)
      == if OrdersOf(orders, g) == [] then 0.0 else OrdersOf(orders, g)[|OrdersOf(orders, g)| - 1].price
    decreases |orders|
  {
    if orders != [] {
      LastPriceOfGroup(orders[..|orders| - 1], g);
    }
  }

  /** Each reference sum is the fold of its good's group from an empty sum. */
  lemma AggregatedIsFold(orders: seq<BuyOrder>, g: GoodsType)
    requires g in GoodsIn(orders)
    ensures Aggregated(orders)[g] == FoldOrders(BuyOrderSum(g, 0, 0.0), OrdersOf(orders, g))
  {
    LastPriceOfGroup(orders, g);
  }

  /** First loop of the market system: append every order to its good's group. */
  method GroupByGood(orders: seq<BuyOrder>) returns (groups: map<GoodsType, seq<BuyOrder>>)
    ensures groups.Keys == GoodsIn(orders)
    ensures forall g :: g in groups ==> groups[g] == OrdersOf(orders, g)
  {
    groups := map[];
    for i := 0 to |orders|
      invariant groups.Keys == GoodsIn(orders[..i])
      invariant forall g :: g in groups ==> groups[g] == OrdersOf(orders[..i], g)
    {
      var order := orders[i];
      assert orders[..i + 1] == orders[..i] + [order];
      assert orders[..i + 1][..i] == orders[..i];
      GoodsInSnoc(orders[..i], order);
      if order.goodsType !in groups {
        AggregatedKeys(orders[..i], order.goodsType);
      }
      var group := if order.goodsType in groups then groups[order.goodsType] else [];
      groups := groups[order.goodsType := group + [order]];
    }
    assert orders[..|orders|] == orders;
  }

  /**
   * Second loop of the market system: fold every group, in whatever order
   * the map yields its keys, and insert the sum under its good.
   */
  method SumGroups(groups: map<GoodsType, seq<BuyOrder>>) returns (sums: map<GoodsType, BuyOrderSum>)
    ensures sums.Keys == groups.Keys
    ensures forall g :: g in groups ==> sums[g] == FoldOrders(BuyOrderSum(g, 0, 0.0), groups[g])
  {
    var remaining := groups.Keys;
    sums := map[];
    while remaining != {}
      invariant remaining <= groups.Keys
      invariant sums.Keys == groups.Keys - remaining
      invariant forall g :: g in sums ==> sums[g] == FoldOrders(BuyOrderSum(g, 0, 0.0), groups[g])
      decreases remaining
    {
      var g :| g in remaining;
      sums := sums[g := FoldOrders(BuyOrderSum(g, 0, 0.0), groups[g])];
      remaining := remaining - {g};
    }
  }

  /** The aggregation the market system computes before despawning the orders. */
  method Aggregate(orders: seq<BuyOrder>) returns (sums: map<GoodsType, BuyOrderSum>)
    ensures sums == Aggregated(orders)
  {
    var groups := GroupByGood(orders);
    sums := SumGroups(groups);
    forall g | g in sums ensures sums[g] == Aggregated(orders)[g] {
      AggregatedIsFold(orders, g);
    }
  }

  /** Sum of the aggregated amounts of the goods in `gs` (0 for a good without a sum). */
  function SumOverGoods(gs: seq<GoodsType>, sums: map<GoodsType, BuyOrderSum>): int
  {
    if gs == [] then 0
    else (if gs[0] in sums then sums[gs[0]].amount else 0) + SumOverGoods(gs[1..], sums)
  }

  /** Sum of AmountOf over the goods in `gs`. */
  function AmountsOver(gs: seq<GoodsType>, orders: seq<BuyOrder>): int
  {
    if gs == [] then 0 else AmountOf(orders, gs[0]) + AmountsOver(gs[1..], orders)
  }

  lemma {:induction false} SumOverGoodsIsAmounts(gs: seq<GoodsType>, orders: seq<BuyOrder>)
    ensures SumOverGoods(gs, Aggregated(orders)) == AmountsOver(gs, orders)
  {
    if gs != [] {
      AggregatedKeys(orders, gs[0]);
      SumOverGoodsIsAmounts(gs[1..], orders);
    }
  }

  /** Appending one order adds its amount under its own good and nowhere else. */
  lemma AmountOfSnoc(orders: seq<BuyOrder>, o: BuyOrder, g: GoodsType)
    ensures AmountOf(orders + [o], g) == AmountOf(orders, g) + (if o.goodsType == g then o.amount else 0)
  {
    var s := orders + [o];
    assert s[..|s| - 1] == orders;
    var tail := if o.goodsType == g then [o] else [];
    TotalAmountAppend(OrdersOf(orders, g), tail);
  }

  /** Sum over `gs` of o's amount where o's good matches. */
  function Matching(gs: seq<GoodsType>, o: BuyOrder): int
  {
    if gs == [] then 0 else (if o.goodsType == gs[0] then o.amount else 0) + Matching(gs[1..], o)
  }

  lemma {:induction false} MatchingOnce(gs: seq<GoodsType>, o: BuyOrder)
    requires Distinct(gs)
    ensures Matching(gs, o) == if o.goodsType in gs then o.amount else 0
  {
    if gs != [] {
      assert Distinct(gs[1..]);
      MatchingOnce(gs[1..], o);
      assert o.goodsType == gs[0] ==> o.goodsType !in gs[1..];
      assert gs == [gs[0]] + gs[1..];
    }
  }

  lemma {:induction false} AmountsOverSnoc(gs: seq<GoodsType>, orders: seq<BuyOrder>, o: BuyOrder)
    ensures AmountsOver(gs, orders + [o]) == AmountsOver(gs, orders) + Matching(gs, o)
  {
    if gs != [] {
      AmountOfSnoc(orders, o, gs[0]);
      AmountsOverSnoc(gs[1..], orders, o);
    }
  }

  /** Over a list naming every good once, the per-good amounts add up to the total. */
  lemma {:induction false} AmountsOverAllGoods(orders: seq<BuyOrder>)
    ensures AmountsOver(AllGoods(), orders) == TotalAmount(orders)
    decreases |orders|
  {
    var gs := AllGoods();
    if orders == [] {
      ZeroAmounts(gs);
    } else {
      var init := orders[..|orders| - 1];
      var o := orders[|orders| - 1];
      assert orders == init + [o];
      AmountsOverAllGoods(init);
      AmountsOverSnoc(gs, init, o);
      MatchingOnce(gs, o);
      AllGoodsComplete(o.goodsType);
      TotalAmountAppend(init, [o]);
    }
  }

  lemma {:induction false} ZeroAmounts(gs: seq<GoodsType>)
    ensures AmountsOver(gs, []) == 0
  {
    if gs != [] {
      ZeroAmounts(gs[1..]);
    }
  }

  /** Conservation: the aggregated amounts over all goods add up to the total ordered. */
  lemma AggregatedConservesAmount(orders: seq<BuyOrder>)
    ensures SumOverGoods(AllGoods(), Aggregated(orders)) == TotalAmount(orders)
  {
    SumOverGoodsIsAmounts(AllGoods(), orders);
    AmountsOverAllGoods(orders);
  }

  /** Grouping distributes over concatenation. */
  lemma {:induction false} OrdersOfAppend(a: seq<BuyOrder>, b: seq<BuyOrder>, g: GoodsType)
    ensures OrdersOf(a + b, g) == OrdersOf(a, g) + OrdersOf(b, g)
    decreases |b|
  {
    if b == [] {
      assert a + b == a;
    } else {
      var init := b[..|b| - 1];
      assert (a + b)[..|a + b| - 1] == a + init;
      OrdersOfAppend(a, init, g);
    }
  }

  lemma AmountOfAppend(a: seq<BuyOrder>, b: seq<BuyOrder>, g: GoodsType)
    ensures AmountOf(a + b, g) == AmountOf(a, g) + AmountOf(b, g)
  {
    OrdersOfAppend(a, b, g);
    TotalAmountAppend(OrdersOf(a, g), OrdersOf(b, g));
  }

  /**
   * The aggregated amount of a good does not depend on the order in which the
   * orders are iterated: any rearrangement of the same orders gives it.
   */
  lemma {:induction false} AmountOfPermutation(a: seq<BuyOrder>, b: seq<BuyOrder>, g: GoodsType)
    requires multiset(a) == multiset(b)
    ensures AmountOf(a, g) == AmountOf(b, g)
    decreases |a|
  {
    if a == [] {
      assert |b| == |multiset(b)| == 0;
    } else {
      var o := a[|a| - 1];
      var rest := a[..|a| - 1];
      var j := MatchLast(a, b);
      AmountOfPermutation(rest, b[..j] + b[j + 1..], g);
      assert a == rest + [o];
      AmountOfSnoc(rest, o, g);
      AmountOfRemove(b, j, g);
    }
  }

  /** Where the last order of `a` sits in a rearrangement `b`, and what is left on each side. */
  lemma MatchLast(a: seq<BuyOrder>, b: seq<BuyOrder>) returns (j: int)
    requires a != [] && multiset(a) == multiset(b)
    ensures 0 <= j < |b| && b[j] == a[|a| - 1]
    ensures multiset(a[..|a| - 1]) == multiset(b[..j] + b[j + 1..])
  {
    var o := a[|a| - 1];
    assert a == a[..|a| - 1] + [o];
    assert o in multiset(b);
    j :| 0 <= j < |b| && b[j] == o;
    MultisetRemove(b, j);
  }

  /** Removing the order at `j` removes one copy of it from the multiset. */
  lemma MultisetRemove(b: seq<BuyOrder>, j: int)
    requires 0 <= j < |b|
    ensures multiset(b[..j] + b[j + 1..]) == multiset(b) - multiset{b[j]}
  {
    assert b == b[..j] + [b[j]] + b[j + 1..];
  }

  /** Taking one order out removes its amount from its own good only. */
  lemma AmountOfRemove(b: seq<BuyOrder>, j: int, g: GoodsType)
    requires 0 <= j < |b|
    ensures AmountOf(b, g)
      == AmountOf(b[..j] + b[j + 1..], g) + (if b[j].goodsType == g then b[j].amount else 0)
  {
    var left, right := b[..j], b[j + 1..];
    assert b == (left + [b[j]]) + right;
    AmountOfAppend(left + [b[j]], right, g);
    AmountOfSnoc(left, b[j], g);
    AmountOfAppend(left, right, g);
  }

  /** Orders that are all for one good group into themselves. */
  lemma {:induction false} OnlyGood(orders: seq<BuyOrder>, g: GoodsType)
    requires forall o :: o in orders ==> o.goodsType == g
    ensures OrdersOf(orders, g) == orders
    decreases |orders|
  {
    if orders != [] {
      var init := orders[..|orders| - 1];
      assert orders == init + [orders[|orders| - 1]];
      OnlyGood(init, g);
    }
  }

  /** Orders all for one good, and at least one of them, name that good alone. */
  lemma GoodsInSingle(orders: seq<BuyOrder>, g: GoodsType)
    requires orders != [] && forall o :: o in orders ==> o.goodsType == g
    ensures GoodsIn(orders) == {g}
  {
    assert orders[0] in orders;
  }

  /** Orders all for one good aggregate to the single sum of their amounts at the last price. */
  lemma SingleGoodAggregate(orders: seq<BuyOrder>, g: GoodsType)
    requires orders != [] && forall o :: o in orders ==> o.goodsType == g
    ensures Aggregated(orders) == map[g := BuyOrderSum(g, TotalAmount(orders), orders[|orders| - 1].price)]
  {
    OnlyGood(orders, g);
    GoodsInSingle(orders, g);
    var sum := BuyOrderSum(g, TotalAmount(orders), orders[|orders| - 1].price);
    var m := Aggregated(orders);
    assert m.Keys == {g} && m[g] == sum;
    SingletonMap(m, g, sum);
  }

  /** A map whose only key is `k`, bound to `v`, is the one-entry map. */
  lemma SingletonMap<K, V>(m: map<K, V>, k: K, v: V)
    requires m.Keys == {k} && m[k] == v
    ensures m == map[k := v]
  {
  }

  /**
   * The kept price, unlike the amount, depends on iteration order: the same
   * two Food orders in the two possible orders give the same amount but
   * different prices.
   */
  lemma LastOrderPriceWins()
    ensures var first := BuyOrder(Food, 1, 1.0, FromPerson);
      var second := BuyOrder(Food, 2, 2.0, FromPerson);
      && Aggregated([first, second]) == map[Food := BuyOrderSum(Food, 3, 2.0)]
      && Aggregated([second, first]) == map[Food := BuyOrderSum(Food, 3, 1.0)]
  {
    var first := BuyOrder(Food, 1, 1.0, FromPerson);
    var second := BuyOrder(Food, 2, 2.0, FromPerson);
    TotalAmountOne(first);
    TotalAmountOne(second);
    assert [first, second] == [first] + [second] && [second, first] == [second] + [first];
    TotalAmountAppend([first], [second]);
    TotalAmountAppend([second], [first]);
    SingleGoodAggregate([first, second], Food);
    SingleGoodAggregate([second, first], Food);
  }

  /** Three Food orders of 1, 2 and 1 units at 1.0 aggregate to 4 units at 1.0. */
  lemma ThreeFoodOrders()
    ensures var o1 := BuyOrder(Food, 1, 1.0, FromPerson);
      var o2 := BuyOrder(Food, 2, 1.0, FromPerson);
      Aggregated([o1, o2, o1]) == map[Food := BuyOrderSum(Food, 4, 1.0)]
  {
    var o1 := BuyOrder(Food, 1, 1.0, FromPerson);
    var o2 := BuyOrder(Food, 2, 1.0, FromPerson);
    var s := [o1, o2, o1];
    TotalAmountOne(o1);
    TotalAmountOne(o2);
    assert s == [o1] + [o2] + [o1];
    TotalAmountAppend([o1], [o2]);
    TotalAmountAppend([o1] + [o2], [o1]);
    SingleGoodAggregate(s, Food);
  }
}
