/**
 * The startup system: spawns the population, one person per index with a
 * class and an income drawn from the samplers, and then one price record per
 * good at its starting price.
 *
 * The random number generator is replaced by the draws it would have
 * produced: the i-th person uses classDraws[i] and incomeDraws[i]. Both draws
 * are taken for every index, and a Bourgeois person discards its income draw.
 */
module StartupSystem {
  import opened Models

  /** The number of persons the startup system spawns. */
  const PopulationSize: nat := 100000

  /** The person spawned for index `id` from its class and its drawn income. */
  function SpawnedPerson(id: int, c: Class, drawn: Income): Person
  {
    match c
    case Bourgeois => Person(id, c, VeryHigh, StartingMoney(VeryHigh))
    case Proletariat => Person(id, c, drawn, StartingMoney(drawn))
  }

  /** The whole population spawned from the draws, index by index. */
  function Population(classDraws: seq<ClassDraw>, incomeDraws: seq<IncomeDraw>): seq<Person>
    requires |classDraws| == |incomeDraws|
  {
    seq(|classDraws|, i requires 0 <= i < |classDraws| =>
      SpawnedPerson(i, SampleClass(classDraws[i]), SampleIncome(incomeDraws[i])))
  }

  /**
   * The class invariant every spawned person satisfies: a Bourgeois holds the
   * top tier and its money; a Proletarian holds a lower tier and its money.
   */
  predicate ClassInvariant(p: Person)
  {
    match p.socialClass
    case Bourgeois => p.income == VeryHigh && p.money == StartingMoney(VeryHigh)
    case Proletariat => p.income != VeryHigh && p.money == StartingMoney(p.income)
  }

  /** Identities 0..n-1 in order; hence unique. */
  predicate IdsAreIndices(persons: seq<Person>)
  {
    forall i :: 0 <= i < |persons| ==> persons[i].id == i
  }

  /**
   * One person per draw pair, with id equal to its index, the class of its
   * class draw, the class invariant, and for a Proletarian the income of its
   * income draw.
   */
  lemma PopulationShape(classDraws: seq<ClassDraw>, incomeDraws: seq<IncomeDraw>)
    requires |classDraws| == |incomeDraws|
    ensures |Population(classDraws, incomeDraws)| == |classDraws|
    ensures IdsAreIndices(Population(classDraws, incomeDraws))
    ensures forall i :: 0 <= i < |classDraws| ==>
      var p := Population(classDraws, incomeDraws)[i];
      && p.socialClass == SampleClass(classDraws[i])
      && ClassInvariant(p)
      && (p.socialClass == Proletariat ==> p.income == SampleIncome(incomeDraws[i]))
  {
  }

  /** Loop that spawns one person per index, as the startup system does. */
  method SpawnPopulation(classDraws: seq<ClassDraw>, incomeDraws: seq<IncomeDraw>)
    returns (persons: seq<Person>)
    requires |classDraws| == |incomeDraws|
    ensures persons == Population(classDraws, incomeDraws)
  {
    persons := [];
    for i := 0 to |classDraws|
      invariant |persons| == i
      invariant forall k :: 0 <= k < i ==>
        persons[k] == SpawnedPerson(k, SampleClass(classDraws[k]), SampleIncome(incomeDraws[k]))
    {
      var c := SampleClass(classDraws[i]);
      var income := SampleIncome(incomeDraws[i]);
      match c {
        case Bourgeois =>
          persons := persons + [Person(i, c, VeryHigh, StartingMoney(VeryHigh))];
        case Proletariat =>
          persons := persons + [Person(i, c, income, StartingMoney(income))];
      }
    }
  }

  /** The goods that a list of price records covers, position by position. */
  function PricedGoods(prices: seq<Price>): (gs: seq<GoodsType>)
    ensures |gs| == |prices|
    ensures forall i :: 0 <= i < |prices| ==> gs[i] == prices[i].goodsType
  {
    seq(|prices|, i requires 0 <= i < |prices| => prices[i].goodsType)
  }

  /** Exactly one price record exists for every good. */
  predicate OnePricePerGood(prices: seq<Price>)
  {
    && Distinct(PricedGoods(prices))
    && forall g :: g in PricedGoods(prices)
  }

  /** The price records spawned at startup, in the order the goods iterator yields. */
  function StartingPriceBook(): seq<Price>
  {
    seq(|AllGoods()|, i requires 0 <= i < |AllGoods()| =>
      Price(AllGoods()[i], StartingPrice(AllGoods()[i])))
  }

  /** The starting price book has 17 records, one per good, each at 1.0. */
  lemma StartingPriceBookComplete()
    ensures |StartingPriceBook()| == 17
    ensures OnePricePerGood(StartingPriceBook())
    ensures forall i :: 0 <= i < 17 ==>
      StartingPriceBook()[i].price == StartingPrice(StartingPriceBook()[i].goodsType) == 1.0
  {
    var book := StartingPriceBook();
    assert PricedGoods(book) == AllGoods();
    forall g ensures g in PricedGoods(book) {
      AllGoodsComplete(g);
    }
  }

  /** Loop that spawns one price record per good, as the startup system does. */
  method SpawnPriceBook() returns (prices: seq<Price>)
    ensures prices == StartingPriceBook()
  {
    var goods := AllGoods();
    prices := [];
    for i := 0 to |goods|
      invariant |prices| == i
      invariant forall k :: 0 <= k < i ==> prices[k] == Price(goods[k], StartingPrice(goods[k]))
    {
      var g := goods[i];
      prices := prices + [Price(g, StartingPrice(g))];
    }
  }
}
