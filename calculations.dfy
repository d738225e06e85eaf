/**
 * The pricing engine (utils/calculations.ts): the channel fee table, the
 * weight-loss chain and the per-bean metrics with their tax treatment and
 * rounding rules.
 */
module Calculations {
  import opened Types
  import opened Numeric

  // ---------------------------------------------------------------------------
  // Fee table
  // ---------------------------------------------------------------------------

  /** One line of the published fee schedule: a percentage of the price plus a fixed amount. */
  datatype FeeRule = FeeRule(percent: real, fixed: real)

  /**
   * The schedule as a table, independent of how the engine's switch is laid out:
   * in-store by payment method, online by platform plan, CUSTOM at the custom rate.
   */
  function Schedule(s: FeeSettings): FeeRule {
    if s.saleType == InStore then
      match s.paymentMethod
      case Cash => FeeRule(0.0, 0.0)
      case PayPay => FeeRule(1.98, 0.0)
      case CreditCard => FeeRule(3.24, 0.0)
      case QuicPay => FeeRule(3.24, 0.0)
      case TransportIc => FeeRule(3.24, 0.0)
      case CustomPayment => FeeRule(s.customFeeRate, 0.0)
    else
      match s.platformType
      case BaseStandard => FeeRule(6.6, 40.0)
      case BaseGrowth => FeeRule(2.9, 0.0)
      case StoresFree => FeeRule(5.0, 0.0)
      case StoresStandard => FeeRule(3.6, 0.0)
      case ShopifyBasic => FeeRule(3.4, 0.0)
      case ShopifyStandard => FeeRule(3.3, 0.0)
      case ShopifyAdvanced => FeeRule(3.2, 0.0)
      case CustomPlatform => FeeRule(s.customFeeRate, 0.0)
  }

  /** A fee rule rounded down: floor(price * percent / 100 + fixed). */
  function FeeBy(price: int, rule: FeeRule): int {
    Floor(price as real * rule.percent / 100.0 + rule.fixed)
  }

  /** calculatePlatformFee: the fee on a gross price, always rounded down. */
  function PlatformFee(price: int, s: FeeSettings): (fee: int)
    ensures fee == FeeBy(price, Schedule(s))
  {
    var p := price as real;
    if s.saleType == InStore then
      match s.paymentMethod
      case Cash => 0
      case PayPay => Floor(p * 0.0198)
      case CreditCard => Floor(p * 0.0324)
      case QuicPay => Floor(p * 0.0324)
      case TransportIc => Floor(p * 0.0324)
      case CustomPayment => Floor(p * (s.customFeeRate / 100.0))
    else
      match s.platformType
      case BaseStandard => Floor(p * 0.066 + 40.0)
      case BaseGrowth => Floor(p * 0.029)
      case StoresFree => Floor(p * 0.05)
      case StoresStandard => Floor(p * 0.036)
      case ShopifyBasic => Floor(p * 0.034)
      case ShopifyStandard => Floor(p * 0.033)
      case ShopifyAdvanced => Floor(p * 0.032)
      case CustomPlatform => Floor(p * (s.customFeeRate / 100.0))
  }

  /** In store: cash is free, the card-like methods cost 3.24 % and PayPay 1.98 %, all rounded down. */
  lemma InStoreFees(price: int, s: FeeSettings)
    requires s.saleType == InStore
    ensures s.paymentMethod == Cash ==> PlatformFee(price, s) == 0
    ensures s.paymentMethod in {CreditCard, QuicPay, TransportIc} ==>
              PlatformFee(price, s) == Floor(price as real * 0.0324)
    ensures s.paymentMethod == PayPay ==> PlatformFee(price, s) == Floor(price as real * 0.0198)
  {
  }

  /** Online: BASE_STANDARD alone has a fixed part of 40 on top of 6.6 %. */
  lemma OnlineFees(price: int, s: FeeSettings)
    requires s.saleType == Online
    ensures s.platformType == BaseStandard ==> PlatformFee(price, s) == Floor(price as real * 0.066 + 40.0)
    ensures s.platformType != BaseStandard ==> Schedule(s).fixed == 0.0
  {
  }

  /** The worked example of the schedule: 6.6 % of 1000 plus 40. */
  lemma BaseStandardAtThousand(s: FeeSettings)
    requires s.saleType == Online && s.platformType == BaseStandard
    ensures PlatformFee(1000, s) == 106
  {
  }

  /** CUSTOM charges the custom percentage in either channel. */
  lemma CustomFees(price: int, s: FeeSettings)
    requires (s.saleType == InStore && s.paymentMethod == CustomPayment) ||
             (s.saleType == Online && s.platformType == CustomPlatform)
    ensures PlatformFee(price, s) == Floor(price as real * (s.customFeeRate / 100.0))
  {
  }

  /** In store the platform plan is irrelevant; online the payment method is. */
  lemma FeeIgnoresOtherChannel(price: int, s: FeeSettings, plan: PlatformType, payment: PaymentMethod)
    ensures s.saleType == InStore ==> PlatformFee(price, s) == PlatformFee(price, s.(platformType := plan))
    ensures s.saleType == Online ==> PlatformFee(price, s) == PlatformFee(price, s.(paymentMethod := payment))
  {
  }

  /** Every rate in the table is non-negative when the custom rate is. */
  lemma ScheduleNonNegative(s: FeeSettings)
    requires s.customFeeRate >= 0.0
    ensures Schedule(s).percent >= 0.0 && Schedule(s).fixed >= 0.0
  {
  }

  /** A rule with non-negative parts gives non-negative fees that grow with the price. */
  lemma FeeByMonotone(p: int, q: int, rule: FeeRule)
    requires 0 <= p <= q && rule.percent >= 0.0 && rule.fixed >= 0.0
    ensures 0 <= FeeBy(p, rule) <= FeeBy(q, rule)
  {
    var x, y := p as real * rule.percent, q as real * rule.percent;
    ScaleNonNegative(p as real, q as real, rule.percent);
    var a, b := x / 100.0 + rule.fixed, y / 100.0 + rule.fixed;
    assert 0.0 <= a <= b;
    assert FeeBy(p, rule) == Floor(a) && FeeBy(q, rule) == Floor(b);
    FloorMonotone(0.0, a);
    FloorMonotone(a, b);
  }

  /** With a non-negative custom rate, a dearer price never has a smaller fee, and fees are non-negative. */
  lemma FeeMonotone(p: int, q: int, s: FeeSettings)
    requires 0 <= p <= q && s.customFeeRate >= 0.0
    ensures 0 <= PlatformFee(p, s) <= PlatformFee(q, s)
  {
    ScheduleNonNegative(s);
    FeeByMonotone(p, q, Schedule(s));
  }

  lemma ScaleNonNegative(a: real, b: real, c: real)
    requires 0.0 <= a <= b && c >= 0.0
    ensures 0.0 <= a * c <= b * c
  {
  }

  // ---------------------------------------------------------------------------
  // Weight-loss chain
  // ---------------------------------------------------------------------------

  /** calculateRoastedWeight: grams left after the roast loss and then the handpick loss. */
  function RoastedWeight(rawWeightKg: real, roastLossRate: real, handpickLossRate: real): (w: real)
    ensures 0.0 <= rawWeightKg && 0.0 <= roastLossRate <= 100.0 && 0.0 <= handpickLossRate <= 100.0 ==>
              0.0 <= w <= rawWeightKg * 1000.0
  {
    var rawWeightG := rawWeightKg * 1000.0;
    var afterRoast := rawWeightG * (1.0 - roastLossRate / 100.0);
    var finalWeight := afterRoast * (1.0 - handpickLossRate / 100.0);
    ScaleDown(rawWeightG, 1.0 - roastLossRate / 100.0);
    ScaleDown(afterRoast, 1.0 - handpickLossRate / 100.0);
    assert 0.0 <= rawWeightKg && 0.0 <= roastLossRate <= 100.0 ==> 0.0 <= afterRoast <= rawWeightG;
    finalWeight
  }

  /** A fraction in [0, 1] of a non-negative amount is non-negative and no larger. */
  lemma ScaleDown(a: real, f: real)
    ensures 0.0 <= a && 0.0 <= f <= 1.0 ==> 0.0 <= a * f <= a
  {
    if 0.0 <= a && 0.0 <= f <= 1.0 {
      assert a - a * f == a * (1.0 - f);
      ScaleNonNegative(0.0, a, 1.0 - f);
      ScaleNonNegative(0.0, a, f);
    }
  }

  /** The two losses compound: the result is the raw grams times both retained fractions. */
  lemma RoastedWeightCompounds(kg: real, roast: real, handpick: real)
    ensures RoastedWeight(kg, roast, handpick) ==
              kg * 1000.0 * (1.0 - (roast + handpick) / 100.0 + roast * handpick / 10000.0)
  {
  }

  /** A non-positive purchase weight leaves no roasted weight when the loss rates are at most 100 %. */
  lemma RoastedWeightOfNothing(kg: real, roast: real, handpick: real)
    requires kg <= 0.0 && roast <= 100.0 && handpick <= 100.0
    ensures RoastedWeight(kg, roast, handpick) <= 0.0
  {
    var a := kg * 1000.0;
    var f := 1.0 - roast / 100.0;
    assert a * f <= 0.0 by { assert a <= 0.0 && f >= 0.0; }
    assert (a * f) * (1.0 - handpick / 100.0) <= 0.0;
  }

  // ---------------------------------------------------------------------------
  // Bean metrics
  // ---------------------------------------------------------------------------

  /** The divisions of the engine are defined: a sales unit size, and a tax divisor when taxable. */
  predicate SettingsDefined(g: GlobalSettings) {
    g.salesUnitG != 0.0 && (g.isTaxableEntity ==> g.taxRate != -100.0)
  }

  /** The target cost rates divide the cost per bag. */
  predicate TargetRatesDefined(bean: Bean) {
    bean.targetRateRetail != 0.0 && bean.targetRateWholesale != 0.0
  }

  /** `Math.floor(roastedWeightG / salesUnitG)`: whole bags in the roasted weight. */
  function SellableUnits(bean: Bean, g: GlobalSettings): (n: int)
    requires g.salesUnitG != 0.0
    ensures n as real <= RoastedWeight(bean.purchaseWeightKg, g.roastLossRate, g.handpickLossRate) / g.salesUnitG < n as real + 1.0
  {
    Floor(RoastedWeight(bean.purchaseWeightKg, g.roastLossRate, g.handpickLossRate) / g.salesUnitG)
  }

  /** `Math.round(x / (1 + taxRateDecimal))`: the nearest integer to the tax-exclusive amount. */
  function RemoveTax(amountIncTax: real, taxRate: real): (r: int)
    requires taxRate != -100.0
    ensures r as real - 0.5 <= amountIncTax / (1.0 + taxRate / 100.0) < r as real + 0.5
  {
    Round(amountIncTax / (1.0 + taxRate / 100.0))
  }

  /** A cost as the engine carries it: tax removed when taxable, the full amount paid when exempt. */
  function BaseAmount(amountIncTax: real, g: GlobalSettings): (r: real)
    requires g.isTaxableEntity ==> g.taxRate != -100.0
    ensures !g.isTaxableEntity ==> r == amountIncTax
    ensures g.isTaxableEntity ==> r == RemoveTax(amountIncTax, g.taxRate) as real
  {
    if g.isTaxableEntity then RemoveTax(amountIncTax, g.taxRate) as real else amountIncTax
  }

  /** `Math.ceil(batchCostBase / sellableUnits + packagingCostBase)`. */
  function CostPerBag(batchCostBase: real, sellableUnits: int, packagingCostBase: real): (c: int)
    requires sellableUnits >= 1
    ensures batchCostBase / sellableUnits as real + packagingCostBase <= c as real
    ensures (c - 1) as real < batchCostBase / sellableUnits as real + packagingCostBase
  {
    Ceil(batchCostBase / sellableUnits as real + packagingCostBase)
  }

  /** The price a cost rate asks for, re-grossed by the tax rate when taxable, before quantisation. */
  function TargetPriceRaw(costPerBag: int, targetRate: real, g: GlobalSettings): real
    requires targetRate != 0.0
  {
    var targetBase := costPerBag as real / (targetRate / 100.0);
    if g.isTaxableEntity then targetBase * (1.0 + g.taxRate / 100.0) else targetBase
  }

  /** The shelf price for a cost rate: the target price raised to a multiple of 10. */
  function ShelfPrice(costPerBag: int, targetRate: real, g: GlobalSettings): (p: int)
    requires targetRate != 0.0
    ensures p % 10 == 0
    ensures TargetPriceRaw(costPerBag, targetRate, g) <= p as real < TargetPriceRaw(costPerBag, targetRate, g) + 10.0
  {
    CeilToTen(TargetPriceRaw(costPerBag, targetRate, g))
  }

  /** Shipping counts per bag only for online sales. */
  function ShippingPerBag(fs: FeeSettings): real {
    if fs.saleType == Online then fs.shippingCost else 0.0
  }

  /** Profit per bag: net of tax on every amount when taxable, gross when exempt. */
  function ProfitPerBag(retailPrice: int, fee: int, shipping: real, costPerBag: int, g: GlobalSettings): real
    requires g.isTaxableEntity ==> g.taxRate != -100.0
  {
    if g.isTaxableEntity then
      var revenueNet := RemoveTax(retailPrice as real, g.taxRate);
      var feeNet := RemoveTax(fee as real, g.taxRate);
      var shippingNet := RemoveTax(shipping, g.taxRate);
      (revenueNet - feeNet - shippingNet - costPerBag) as real
    else
      retailPrice as real - fee as real - shipping - costPerBag as real
  }

  /** What one sold bag contributes towards the batch investment. */
  function ContributionPerBag(retailPrice: int, fee: int, shipping: real, packagingCostBase: real, g: GlobalSettings): real
    requires g.isTaxableEntity ==> g.taxRate != -100.0
  {
    if g.isTaxableEntity then
      var revenueNet := RemoveTax(retailPrice as real, g.taxRate);
      var feeNet := RemoveTax(fee as real, g.taxRate);
      var shippingNet := RemoveTax(shipping, g.taxRate);
      var packagingNet := Round(packagingCostBase);
      (revenueNet - feeNet - shippingNet - packagingNet) as real
    else
      retailPrice as real - fee as real - shipping - g.packagingCost
  }

  /** The up-front batch cost: purchase plus utility, net when taxable, as paid when exempt. */
  function InvestmentTotal(bean: Bean, g: GlobalSettings): real
    requires g.isTaxableEntity ==> g.taxRate != -100.0
  {
    if g.isTaxableEntity then BaseAmount(bean.purchasePrice, g) + BaseAmount(g.utilityCostPerRoast, g)
    else bean.purchasePrice + g.utilityCostPerRoast
  }

  /** The "never breaks even" sentinel. */
  const Unreachable: int := 999999

  /**
   * n is the break-even count for an investment and a per-bag contribution: the
   * least count of bags that covers the investment, or the sentinel when a bag
   * contributes nothing.
   */
  predicate IsBreakeven(n: int, investment: real, contribution: real) {
    (contribution <= 0.0 ==> n == Unreachable) &&
    (contribution > 0.0 ==> investment <= n as real * contribution && (n - 1) as real * contribution < investment)
  }

  /** Bags to sell before the investment is recovered; the sentinel when a bag contributes nothing. */
  function BreakevenUnits(investment: real, contribution: real): (n: int)
    ensures IsBreakeven(n, investment, contribution)
  {
    if contribution > 0.0 then
      var x := investment / contribution;
      var n := Ceil(x);
      assert x * contribution == investment;
      MulMonotone(x, n as real, contribution);
      assert (n - 1) as real < x;
      MulStrictlyMonotone((n - 1) as real, x, contribution);
      assert (n - 1) as real * contribution < investment;
      assert investment <= n as real * contribution;
      n
    else
      Unreachable
  }

  /** The break-even count is determined: two counts that both qualify are equal. */
  lemma BreakevenUnique(n1: int, n2: int, investment: real, contribution: real)
    requires IsBreakeven(n1, investment, contribution) && IsBreakeven(n2, investment, contribution)
    ensures n1 == n2
  {
    if contribution > 0.0 {
      assert investment <= n1 as real * contribution && (n1 - 1) as real * contribution < investment;
      assert investment <= n2 as real * contribution && (n2 - 1) as real * contribution < investment;
      if n1 < n2 {
        assert n1 as real <= (n2 - 1) as real;
        MulMonotone(n1 as real, (n2 - 1) as real, contribution);
        assert false;
      } else if n2 < n1 {
        assert n2 as real <= (n1 - 1) as real;
        MulMonotone(n2 as real, (n1 - 1) as real, contribution);
        assert false;
      }
    }
  }

  lemma MulMonotone(a: real, b: real, c: real)
    requires a <= b && c > 0.0
    ensures a * c <= b * c
  {
  }

  lemma MulStrictlyMonotone(a: real, b: real, c: real)
    requires a < b && c > 0.0
    ensures a * c < b * c
  {
  }

  /** calculateBeanMetrics: nothing when not even one bag comes out of the roast. */
  function BeanMetrics(bean: Bean, g: GlobalSettings, fs: FeeSettings): (r: Option<SimulationResult>)
    requires SettingsDefined(g) && TargetRatesDefined(bean)
    ensures r.None? <==> SellableUnits(bean, g) <= 0
    ensures r.Some? ==> r.value.beanId == bean.id && r.value.sellableUnits >= 1
    ensures r.Some? ==> r.value.retailPrice % 10 == 0 && r.value.wholesalePrice % 10 == 0
    ensures r.Some? ==> r.value.feePerBag == PlatformFee(r.value.retailPrice, fs)
    ensures r.Some? ==> (r.value.isSafeMargin <==> r.value.profitPerBag > 0.0)
  {
    var roastedWeightG := RoastedWeight(bean.purchaseWeightKg, g.roastLossRate, g.handpickLossRate);
    var sellableUnits := SellableUnits(bean, g);
    if sellableUnits <= 0 then None
    else
      var purchasePriceBase := BaseAmount(bean.purchasePrice, g);
      var utilityCostBase := BaseAmount(g.utilityCostPerRoast, g);
      var packagingCostBase := BaseAmount(g.packagingCost, g);
      var costPerBag := CostPerBag(purchasePriceBase + utilityCostBase, sellableUnits, packagingCostBase);
      var retailPrice := ShelfPrice(costPerBag, bean.targetRateRetail, g);
      var wholesalePrice := ShelfPrice(costPerBag, bean.targetRateWholesale, g);
      var feePerBag := PlatformFee(retailPrice, fs);
      var shipping := ShippingPerBag(fs);
      var profitPerBag := ProfitPerBag(retailPrice, feePerBag, shipping, costPerBag, g);
      var contribution := ContributionPerBag(retailPrice, feePerBag, shipping, packagingCostBase, g);
      var breakevenUnits := BreakevenUnits(InvestmentTotal(bean, g), contribution);
      Some(SimulationResult(
        bean.id, roastedWeightG, sellableUnits, costPerBag, retailPrice, wholesalePrice,
        profitPerBag, feePerBag, breakevenUnits, profitPerBag > 0.0))
  }

  /** The batch cost per bag before packaging and rounding, from the tax-treated amounts. */
  function RawCostPerBag(bean: Bean, g: GlobalSettings, units: int): real
    requires SettingsDefined(g) && units >= 1
  {
    (BaseAmount(bean.purchasePrice, g) + BaseAmount(g.utilityCostPerRoast, g)) / units as real
      + BaseAmount(g.packagingCost, g)
  }

  /** costPerBag is the least integer at or above the per-bag batch cost plus packaging. */
  lemma CostPerBagIsCeiling(bean: Bean, g: GlobalSettings, fs: FeeSettings)
    requires SettingsDefined(g) && TargetRatesDefined(bean)
    requires BeanMetrics(bean, g, fs).Some?
    ensures var m := BeanMetrics(bean, g, fs).value;
            RawCostPerBag(bean, g, m.sellableUnits) <= m.costPerBag as real < RawCostPerBag(bean, g, m.sellableUnits) + 1.0
    ensures var m := BeanMetrics(bean, g, fs).value;
            !g.isTaxableEntity ==>
              RawCostPerBag(bean, g, m.sellableUnits) ==
                (bean.purchasePrice + g.utilityCostPerRoast) / m.sellableUnits as real + g.packagingCost
  {
  }

  /** Both shelf prices lie in the ten-wide window above their raw target prices. */
  lemma ShelfPricesBracketTargets(bean: Bean, g: GlobalSettings, fs: FeeSettings)
    requires SettingsDefined(g) && TargetRatesDefined(bean)
    requires BeanMetrics(bean, g, fs).Some?
    ensures var m := BeanMetrics(bean, g, fs).value;
            var retailRaw := TargetPriceRaw(m.costPerBag, bean.targetRateRetail, g);
            retailRaw <= m.retailPrice as real < retailRaw + 10.0
    ensures var m := BeanMetrics(bean, g, fs).value;
            var wholesaleRaw := TargetPriceRaw(m.costPerBag, bean.targetRateWholesale, g);
            wholesaleRaw <= m.wholesalePrice as real < wholesaleRaw + 10.0
  {
    var m := BeanMetrics(bean, g, fs).value;
    assert m.retailPrice == ShelfPrice(m.costPerBag, bean.targetRateRetail, g);
    assert m.wholesalePrice == ShelfPrice(m.costPerBag, bean.targetRateWholesale, g);
  }

  /** The raw target price: the cost over the rate, times one plus the tax rate when taxable. */
  lemma TargetPriceRawForm(costPerBag: int, targetRate: real, g: GlobalSettings)
    requires targetRate != 0.0
    ensures TargetPriceRaw(costPerBag, targetRate, g) * (targetRate / 100.0) ==
              costPerBag as real * (if g.isTaxableEntity then 1.0 + g.taxRate / 100.0 else 1.0)
  {
    var base := costPerBag as real / (targetRate / 100.0);
    assert base * (targetRate / 100.0) == costPerBag as real;
  }

  /** For an exempt entity the profit is plain gross arithmetic, with no tax-conversion drift. */
  lemma ExemptProfit(bean: Bean, g: GlobalSettings, fs: FeeSettings)
    requires SettingsDefined(g) && TargetRatesDefined(bean) && !g.isTaxableEntity
    requires BeanMetrics(bean, g, fs).Some?
    ensures var m := BeanMetrics(bean, g, fs).value;
            m.profitPerBag == m.retailPrice as real - m.feePerBag as real - ShippingPerBag(fs) - m.costPerBag as real
    ensures fs.saleType == InStore ==> ShippingPerBag(fs) == 0.0
  {
  }

  /** Break-even bags: the least count whose contributions cover the investment, or the sentinel. */
  lemma BreakevenMeaning(bean: Bean, g: GlobalSettings, fs: FeeSettings)
    requires SettingsDefined(g) && TargetRatesDefined(bean)
    requires BeanMetrics(bean, g, fs).Some?
    ensures var m := BeanMetrics(bean, g, fs).value;
            IsBreakeven(m.breakevenUnits, InvestmentTotal(bean, g),
              ContributionPerBag(m.retailPrice, m.feePerBag, ShippingPerBag(fs), BaseAmount(g.packagingCost, g), g))
  {
    MetricsBreakeven(bean, g, fs);
  }

  /** The metrics' break-even count is BreakevenUnits of the bean's investment and its contribution per bag. */
  lemma MetricsBreakeven(bean: Bean, g: GlobalSettings, fs: FeeSettings)
    requires SettingsDefined(g) && TargetRatesDefined(bean)
    requires BeanMetrics(bean, g, fs).Some?
    ensures var m := BeanMetrics(bean, g, fs).value;
            m.breakevenUnits == BreakevenUnits(InvestmentTotal(bean, g),
              ContributionPerBag(m.retailPrice, m.feePerBag, ShippingPerBag(fs), BaseAmount(g.packagingCost, g), g))
  {
  }

  /** Exempt: a bag contributes its gross price less fee, shipping and packaging; the investment is what was paid. */
  lemma ExemptBreakevenTerms(bean: Bean, g: GlobalSettings, retailPrice: int, fee: int, shipping: real)
    requires !g.isTaxableEntity
    ensures ContributionPerBag(retailPrice, fee, shipping, BaseAmount(g.packagingCost, g), g) ==
              retailPrice as real - fee as real - shipping - g.packagingCost
    ensures InvestmentTotal(bean, g) == bean.purchasePrice + g.utilityCostPerRoast
  {
  }

  /** With loss rates in [0, 100] and a positive unit size, a bean with no weight has no metrics. */
  lemma NoWeightNoMetrics(bean: Bean, g: GlobalSettings, fs: FeeSettings)
    requires SettingsDefined(g) && TargetRatesDefined(bean)
    requires g.salesUnitG > 0.0 && g.roastLossRate <= 100.0 && g.handpickLossRate <= 100.0
    requires bean.purchaseWeightKg <= 0.0
    ensures BeanMetrics(bean, g, fs).None?
  {
    RoastedWeightOfNothing(bean.purchaseWeightKg, g.roastLossRate, g.handpickLossRate);
    var w := RoastedWeight(bean.purchaseWeightKg, g.roastLossRate, g.handpickLossRate);
    assert w / g.salesUnitG <= 0.0;
  }
}
