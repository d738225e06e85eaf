/**
 * The discount simulator (components/dashboard/DiscountSimulator.tsx): the
 * selected bean's shelf price scaled to a larger bag, discounted and re-rounded
 * to 10, its cost, fee and profit, the cost-rate badge and the profit curve
 * over discounts 0, 5, ..., 50 %.
 */
module DiscountSimulator {
  import opened Types
  import opened Numeric
  import opened Calculations

  datatype Badge = Safe | Warning | Danger

  datatype ChartPoint = ChartPoint(discount: int, profit: real)

  /** What the result card shows. */
  datatype DiscountView = DiscountView(
    finalPrice: int,
    bagCost: real,
    fee: int,
    shipping: real,
    profit: real,
    genkaRate: real,
    badge: Badge)

  /** The shelf price per gram times the bag size. */
  function ScaledPrice(m: SimulationResult, g: GlobalSettings, bigBagG: real): (p: real)
    requires g.salesUnitG != 0.0
    ensures p * g.salesUnitG == m.retailPrice as real * bigBagG
  {
    m.retailPrice as real / g.salesUnitG * bigBagG
  }

  /** The cost per gram times the bag size. */
  function BagCost(m: SimulationResult, g: GlobalSettings, bigBagG: real): (c: real)
    requires g.salesUnitG != 0.0
    ensures c * g.salesUnitG == m.costPerBag as real * bigBagG
  {
    m.costPerBag as real / g.salesUnitG * bigBagG
  }

  /** The discounted price raised to the next multiple of 10. */
  function DiscountedPrice(scaledPriceRaw: real, discountRate: real): (p: int)
    ensures p % 10 == 0
    ensures scaledPriceRaw * (1.0 - discountRate / 100.0) <= p as real < scaledPriceRaw * (1.0 - discountRate / 100.0) + 10.0
  {
    CeilToTen(scaledPriceRaw * (1.0 - discountRate / 100.0))
  }

  /** The profit of one bag at a discount: price less bag cost, fee on that price and shipping. */
  function ProfitAt(scaledPriceRaw: real, discountRate: real, bagCost: real, shipping: real, fs: FeeSettings): real {
    var p := DiscountedPrice(scaledPriceRaw, discountRate);
    p as real - bagCost - PlatformFee(p, fs) as real - shipping
  }

  /** The cost rate in percent, taken as 100 when the price is not positive. */
  function GenkaRate(bagCost: real, finalPrice: int): (r: real)
    ensures finalPrice > 0 ==> r * finalPrice as real == bagCost * 100.0
    ensures finalPrice <= 0 ==> r == 100.0
  {
    if finalPrice > 0 then bagCost / finalPrice as real * 100.0 else 100.0
  }

  /** The badge: safe needs a profit and a cost rate within the wholesale target. */
  function BadgeFor(profit: real, genkaRate: real, targetRateWholesale: real): (b: Badge)
    ensures b == Safe <==> profit > 0.0 && genkaRate <= targetRateWholesale
    ensures b == Warning <==> profit > 0.0 && genkaRate > targetRateWholesale
    ensures b == Danger <==> profit <= 0.0
  {
    if profit > 0.0 then (if genkaRate <= targetRateWholesale then Safe else Warning) else Danger
  }

  predicate BeansSimulable(beans: seq<Bean>, g: GlobalSettings) {
    SettingsDefined(g) && forall b :: b in beans ==> TargetRatesDefined(b)
  }

  /** The card for a bean's base metrics at a bag size and a discount. */
  function Card(m: SimulationResult, targetRateWholesale: real, bigBagG: real, discountRate: real,
                g: GlobalSettings, fs: FeeSettings): (v: DiscountView)
    requires g.salesUnitG != 0.0
    ensures v.finalPrice == DiscountedPrice(ScaledPrice(m, g, bigBagG), discountRate) && v.finalPrice % 10 == 0
    ensures v.genkaRate == GenkaRate(v.bagCost, v.finalPrice)
    ensures v.fee == PlatformFee(v.finalPrice, fs) && v.shipping == ShippingPerBag(fs)
    ensures v.bagCost == BagCost(m, g, bigBagG)
    ensures v.profit == v.finalPrice as real - v.bagCost - v.fee as real - v.shipping
    ensures v.badge == BadgeFor(v.profit, v.genkaRate, targetRateWholesale)
  {
    var scaledPriceRaw := ScaledPrice(m, g, bigBagG);
    var finalPrice := DiscountedPrice(scaledPriceRaw, discountRate);
    var bagCost := BagCost(m, g, bigBagG);
    var fee := PlatformFee(finalPrice, fs);
    var shipping := ShippingPerBag(fs);
    var profit := finalPrice as real - bagCost - fee as real - shipping;
    var genkaRate := GenkaRate(bagCost, finalPrice);
    DiscountView(finalPrice, bagCost, fee, shipping, profit, genkaRate,
                 BadgeFor(profit, genkaRate, targetRateWholesale))
  }

  /** The result card for the selected bean; nothing without a bean or without its base metrics. */
  function View(beans: seq<Bean>, selectedBeanId: string, bigBagG: real, discountRate: real,
                g: GlobalSettings, fs: FeeSettings): (r: Option<DiscountView>)
    requires BeansSimulable(beans, g)
    ensures r.None? <==> beans == [] || BeanMetrics(FindOrFirst(beans, selectedBeanId).value, g, fs).None?
    ensures r.Some? ==>
              var bean := FindOrFirst(beans, selectedBeanId).value;
              r.value == Card(BeanMetrics(bean, g, fs).value, bean.targetRateWholesale, bigBagG, discountRate, g, fs)
  {
    match FindOrFirst(beans, selectedBeanId)
    case None => None
    case Some(bean) =>
      match BeanMetrics(bean, g, fs)
      case None => None
      case Some(m) => Some(Card(m, bean.targetRateWholesale, bigBagG, discountRate, g, fs))
  }

  /** The chart's point at discount d. */
  function PointAt(scaledPriceRaw: real, d: int, bagCost: real, shipping: real, fs: FeeSettings): ChartPoint {
    ChartPoint(d, ProfitAt(scaledPriceRaw, d as real, bagCost, shipping, fs))
  }

  /** The chart loop: a point for d = 0, 5, ..., 50 with the profit at that discount. */
  method Chart(scaledPriceRaw: real, bagCost: real, shipping: real, fs: FeeSettings) returns (data: seq<ChartPoint>)
    ensures |data| == 11
    ensures forall k :: 0 <= k < 11 ==> data[k] == PointAt(scaledPriceRaw, 5 * k, bagCost, shipping, fs)
  {
    data := [];
    var d := 0;
    ghost var i := 0;
    while d <= 50
      invariant 0 <= i <= 11 && d == 5 * i
      invariant |data| == i
      invariant forall k :: 0 <= k < i ==> data[k] == PointAt(scaledPriceRaw, 5 * k, bagCost, shipping, fs)
    {
      var pRaw := scaledPriceRaw * (1.0 - d as real / 100.0);
      var pFinal := CeilToTen(pRaw);
      var f := PlatformFee(pFinal, fs);
      var prof := pFinal as real - bagCost - f as real - shipping;
      assert ChartPoint(d, prof) == PointAt(scaledPriceRaw, d, bagCost, shipping, fs);
      data := data + [ChartPoint(d, prof)];
      d := d + 5;
      i := i + 1;
    }
  }

  /** The chart's point for discount 5k is the card's profit when the slider is at 5k. */
  lemma ChartMatchesCard(m: SimulationResult, targetRateWholesale: real, bigBagG: real, k: nat,
                         g: GlobalSettings, fs: FeeSettings)
    requires g.salesUnitG != 0.0 && k <= 10
    ensures Card(m, targetRateWholesale, bigBagG, (5 * k) as real, g, fs).profit ==
              PointAt(ScaledPrice(m, g, bigBagG), 5 * k, BagCost(m, g, bigBagG), ShippingPerBag(fs), fs).profit
  {
  }

  /** A deeper discount never gives a dearer rounded price. */
  lemma DeeperDiscountNoDearer(scaledPriceRaw: real, d1: real, d2: real)
    requires scaledPriceRaw >= 0.0 && d1 <= d2
    ensures DiscountedPrice(scaledPriceRaw, d2) <= DiscountedPrice(scaledPriceRaw, d1)
  {
    assert scaledPriceRaw * (1.0 - d2 / 100.0) <= scaledPriceRaw * (1.0 - d1 / 100.0) by {
      NonNegativeProduct(scaledPriceRaw, d2 - d1);
    }
    CeilToTenIsLeast(scaledPriceRaw * (1.0 - d2 / 100.0), DiscountedPrice(scaledPriceRaw, d1));
  }

  lemma NonNegativeProduct(a: real, b: real)
    requires a >= 0.0 && b >= 0.0
    ensures a * b >= 0.0
  {
  }

  /**
   * Undiscounted and at the standard bag size, the card shows the metrics' shelf
   * price, fee and cost per bag.
   */
  lemma StandardBagCard(m: SimulationResult, targetRateWholesale: real, g: GlobalSettings, fs: FeeSettings)
    requires g.salesUnitG != 0.0
    requires m.retailPrice % 10 == 0 && m.feePerBag == PlatformFee(m.retailPrice, fs)
    ensures var v := Card(m, targetRateWholesale, g.salesUnitG, 0.0, g, fs);
            v.finalPrice == m.retailPrice && v.fee == m.feePerBag && v.bagCost == m.costPerBag as real &&
            v.profit == m.retailPrice as real - m.costPerBag as real - m.feePerBag as real - ShippingPerBag(fs)
  {
    var scaled := ScaledPrice(m, g, g.salesUnitG);
    assert scaled == m.retailPrice as real;
    assert scaled * (1.0 - 0.0 / 100.0) == m.retailPrice as real;
    CeilToTenIsLeast(m.retailPrice as real, m.retailPrice);
    assert BagCost(m, g, g.salesUnitG) == m.costPerBag as real;
  }

  /**
   * For the selected bean, undiscounted and at the standard bag size, the card shows
   * the engine's shelf price and fee; for an exempt seller its profit is the engine's profit per bag.
   */
  lemma StandardBagMatchesEngine(beans: seq<Bean>, selectedBeanId: string, g: GlobalSettings, fs: FeeSettings)
    requires BeansSimulable(beans, g)
    requires View(beans, selectedBeanId, g.salesUnitG, 0.0, g, fs).Some?
    ensures var m := BeanMetrics(FindOrFirst(beans, selectedBeanId).value, g, fs).value;
            var v := View(beans, selectedBeanId, g.salesUnitG, 0.0, g, fs).value;
            v.finalPrice == m.retailPrice && v.fee == m.feePerBag && v.bagCost == m.costPerBag as real &&
            (!g.isTaxableEntity ==> v.profit == m.profitPerBag)
  {
    var bean := FindOrFirst(beans, selectedBeanId).value;
    var m := BeanMetrics(bean, g, fs).value;
    StandardBagCard(m, bean.targetRateWholesale, g, fs);
    if !g.isTaxableEntity {
      ExemptProfit(bean, g, fs);
    }
  }
}
