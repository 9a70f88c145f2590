/**
 * The static catalogue of the economy simulation: the two sampling rules that
 * turn integer draws into a social class and an income tier, the starting
 * money of each tier, the starting price of each good, the production recipe
 * table, and the records that the systems spawn (persons, prices, orders).
 *
 * Everything here is a total function over a closed enumeration.
 */
module Models {

  /** An integer drawn uniformly from 0..10 (exclusive) by the class sampler. */
  type ClassDraw = d: int | 0 <= d < 10

  /** An integer drawn uniformly from 0..100 (exclusive) by the income sampler. */
  type IncomeDraw = d: int | 0 <= d < 100

  datatype Class = Bourgeois | Proletariat

  datatype Income = Low | Middle | High | VeryHigh

  datatype GoodsType =
    | Food | Steel | Coal | Iron | Copper | Oil | Car | Tool | Weapon
    | Clothes | Furniture | Wine | Tobacco | Rent | Wood | Labor | Cotton

  /** Whether an order stems from a production facility or from a person. */
  datatype OrderType = FromProduction | FromPerson

  datatype Production =
    | SteelMill | IronMine | CoalMine | CopperMine | OilWell | CarFactory
    | ToolFactory | WeaponFactory | ClothesFactory | FurnitureFactory
    | WineFactory | TobaccoFarm | House | SawMill | CottonFarm

  datatype Person = Person(id: int, socialClass: Class, income: Income, money: real)

  datatype Price = Price(goodsType: GoodsType, price: real)

  datatype BuyOrder = BuyOrder(goodsType: GoodsType, amount: int, price: real, orderType: OrderType)

  /** Per-good aggregate of one tick's buy orders. */
  datatype BuyOrderSum = BuyOrderSum(goodsType: GoodsType, amount: int, price: real)

  /** The sum of the amounts of a list of orders. */
  function TotalAmount(orders: seq<BuyOrder>): int
  {
    if orders == [] then 0 else orders[0].amount + TotalAmount(orders[1..])
  }

  lemma TotalAmountOne(o: BuyOrder)
    ensures TotalAmount([o]) == o.amount
  {
    assert [o][1..] == [];
  }

  /** Summing over a concatenation sums over each part. */
  lemma {:induction false} TotalAmountAppend(a: seq<BuyOrder>, b: seq<BuyOrder>)
    ensures TotalAmount(a + b) == TotalAmount(a) + TotalAmount(b)
  {
    if a == [] {
      assert a + b == b;
    } else {
      assert (a + b)[1..] == a[1..] + b;
      TotalAmountAppend(a[1..], b);
    }
  }

  /** Class sampler: two of the ten equally likely draws give a Bourgeois. */
  function SampleClass(d: ClassDraw): (c: Class)
    ensures c == Bourgeois <==> d == 0 || d == 1
    ensures c == Proletariat <==> 2 <= d <= 9
  {
    match d
    case 0 => Bourgeois
    case 1 => Bourgeois
    case _ => Proletariat
  }

  /**
   * Income sampler. The draws 0..=70, 71..=90 and 91..=98 select Low, Middle
   * and High; the fall-through arm sends the remaining draw 99 to Low, so the
   * sampler never yields VeryHigh.
   */
  function SampleIncome(d: IncomeDraw): (i: Income)
    ensures i != VeryHigh
    ensures i == Low <==> d <= 70 || d == 99
    ensures i == Middle <==> 71 <= d <= 90
    ensures i == High <==> 91 <= d <= 98
  {
    if 0 <= d <= 70 then Low
    else if 71 <= d <= 90 then Middle
    else if 91 <= d <= 98 then High
    else Low
  }

  /** Position of an income tier in the order Low < Middle < High < VeryHigh. */
  function IncomeRank(i: Income): nat
  {
    match i
    case Low => 0
    case Middle => 1
    case High => 2
    case VeryHigh => 3
  }

  function StartingMoney(i: Income): (m: real)
    ensures m >= 10.0
    ensures i == VeryHigh <==> m == 1500.0
  {
    match i
    case Low => 10.0
    case Middle => 50.0
    case High => 100.0
    case VeryHigh => 1500.0
  }

  /** A richer tier always starts with strictly more money. */
  lemma StartingMoneyIncreasing(a: Income, b: Income)
    requires IncomeRank(a) < IncomeRank(b)
    ensures StartingMoney(a) < StartingMoney(b)
  {
  }

  /** The starting price is the same placeholder calibration for every good. */
  function StartingPrice(g: GoodsType): (p: real)
    ensures p == 1.0
  {
    match g
    case Food => 1.0
    case Steel => 1.0
    case Coal => 1.0
    case Iron => 1.0
    case Copper => 1.0
    case Oil => 1.0
    case Car => 1.0
    case Tool => 1.0
    case Weapon => 1.0
    case Clothes => 1.0
    case Furniture => 1.0
    case Wine => 1.0
    case Tobacco => 1.0
    case Rent => 1.0
    case Wood => 1.0
    case Labor => 1.0
    case Cotton => 1.0
  }

  /** True when no two positions of the sequence hold the same value. */
  predicate Distinct<T(==)>(s: seq<T>)
  {
    forall i, j :: 0 <= i < j < |s| ==> s[i] != s[j]
  }

  /** The goods in declaration order, which is the order the goods iterator yields. */
  function AllGoods(): (gs: seq<GoodsType>)
    ensures |gs| == 17
    ensures Distinct(gs)
  {
    [Food, Steel, Coal, Iron, Copper, Oil, Car, Tool, Weapon,
     Clothes, Furniture, Wine, Tobacco, Rent, Wood, Labor, Cotton]
  }

  /** The goods iterator reaches every good. */
  lemma AllGoodsComplete(g: GoodsType)
    ensures g in AllGoods()
  {
    match g {
      case Food => case Steel => case Coal => case Iron => case Copper =>
      case Oil => case Car => case Tool => case Weapon => case Clothes =>
      case Furniture => case Wine => case Tobacco => case Rent => case Wood =>
      case Labor => case Cotton =>
    }
  }

  /** Every production kind in declaration order. */
  function AllProductions(): (ps: seq<Production>)
    ensures |ps| == 15
    ensures Distinct(ps)
  {
    [SteelMill, IronMine, CoalMine, CopperMine, OilWell, CarFactory,
     ToolFactory, WeaponFactory, ClothesFactory, FurnitureFactory,
     WineFactory, TobaccoFarm, House, SawMill, CottonFarm]
  }

  /** Every production kind is listed. */
  lemma AllProductionsComplete(p: Production)
    ensures p in AllProductions()
  {
    match p {
      case SteelMill => case IronMine => case CoalMine => case CopperMine =>
      case OilWell => case CarFactory => case ToolFactory => case WeaponFactory =>
      case ClothesFactory => case FurnitureFactory => case WineFactory =>
      case TobaccoFarm => case House => case SawMill => case CottonFarm =>
    }
  }

  /** The recipe inputs of a production facility, in order. */
  function Input(p: Production): (r: seq<GoodsType>)
    ensures r == [] <==> p == House
    ensures r != [] ==> r[0] == Labor
    ensures Distinct(r)
    ensures Output(p) !in r
  {
    match p
    case SteelMill => [Labor, Iron, Coal]
    case IronMine => [Labor, Tool]
    case CoalMine => [Labor, Tool]
    case CopperMine => [Labor, Tool]
    case OilWell => [Labor, Tool]
    case CarFactory => [Labor, Steel]
    case ToolFactory => [Labor, Steel]
    case WeaponFactory => [Labor, Steel, Tool]
    case ClothesFactory => [Labor, Tool]
    case FurnitureFactory => [Labor, Wood, Tool]
    case WineFactory => [Labor, Tool]
    case TobaccoFarm => [Labor]
    case House => []
    case SawMill => [Labor, Tool]
    case CottonFarm => [Labor, Tool]
  }

  /** The single good a production facility yields. */
  function Output(p: Production): (g: GoodsType)
    ensures g != Food && g != Labor
  {
    match p
    case SteelMill => Steel
    case IronMine => Iron
    case CoalMine => Coal
    case CopperMine => Copper
    case OilWell => Oil
    case CarFactory => Car
    case ToolFactory => Tool
    case WeaponFactory => Weapon
    case ClothesFactory => Clothes
    case FurnitureFactory => Furniture
    case WineFactory => Wine
    case TobaccoFarm => Tobacco
    case House => Rent
    case SawMill => Wood
    case CottonFarm => Cotton
  }

  lemma WeaponFactoryRecipe()
    ensures Input(WeaponFactory) == [Labor, Steel, Tool]
    ensures Output(WeaponFactory) == Weapon
  {
  }

  /** Different facilities never yield the same good. */
  lemma OutputInjective(p: Production, q: Production)
    requires Output(p) == Output(q)
    ensures p == q
  {
  }

  /** Listing the outputs of all 15 facilities gives 15 distinct goods. */
  lemma OutputsDistinct()
    ensures |Outputs(AllProductions())| == 15
    ensures Distinct(Outputs(AllProductions()))
  {
    OutputsOfDistinct(AllProductions());
  }

  /** Output maps facilities without repetition to goods without repetition. */
  lemma OutputsOfDistinct(ps: seq<Production>)
    requires Distinct(ps)
    ensures Distinct(Outputs(ps))
  {
    var os := Outputs(ps);
    forall i, j | 0 <= i < j < |os| ensures os[i] != os[j] {
      if os[i] == os[j] {
        OutputInjective(ps[i], ps[j]);
      }
    }
  }

  /** The outputs of a list of facilities, position by position. */
  function Outputs(ps: seq<Production>): (os: seq<GoodsType>)
    ensures |os| == |ps|
    ensures forall i :: 0 <= i < |ps| ==> os[i] == Output(ps[i])
  {
    if ps == [] then [] else [Output(ps[0])] + Outputs(ps[1..])
  }
}
