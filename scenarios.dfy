/**
 * The application's starting state (contexts/StorageContext.tsx) and worked
 * examples run through the model: a single bean for an exempt and for a
 * taxable seller, the default blend, and the legacy calculator on the same bean.
 */
module Scenarios {
  import opened Types
  import opened Numeric
  import opened Calculations
  import HomePage
  import BlendPage
  import BlendRecipeForm
  import LegacyCalculator

  /** initialGlobalSettings: 100 g bags, 8 % tax, 20 % roast loss, no other loss or cost, tax exempt. */
  const DefaultSettings: GlobalSettings := GlobalSettings(100.0, 8.0, 20.0, 0.0, 0.0, 0.0, false)

  /** initialFeeSettings: in-store cash sale. */
  const DefaultFees: FeeSettings := FeeSettings(InStore, BaseStandard, 0.0, Cash, 3.24)

  /** One of initialBeans: no price, no weight, rates 30 % and 50 %. */
  function DefaultBean(i: nat): Bean {
    Bean("bean-" + [(('0' as int) + i % 10) as char], "Bean " + [(('0' as int) + i % 10) as char],
         0.0, 0.0, Some(ActiveTotal), None, 30.0, 50.0)
  }

  const DefaultBeans: seq<Bean> := [DefaultBean(1), DefaultBean(2), DefaultBean(3), DefaultBean(4), DefaultBean(5)]

  /** initialRecipe: Brazil Santos 1500 and Colombia Supremo 1800 per kg, half each, 10 kg a batch. */
  const DefaultRecipe: BlendRecipe := BlendRecipe(
    "blend-1", "My Signature Blend",
    [BlendIngredient("i-1", "Brazil Santos", 1500.0, 50.0), BlendIngredient("i-2", "Columbia Supremo", 1800.0, 50.0)],
    10.0, 30.0, 50.0)

  /** The home page starts with no rows: none of the default beans has a price. */
  lemma DefaultBeansShowNothing()
    ensures HomePage.Simulable(DefaultBeans, DefaultSettings)
    ensures HomePage.Results(DefaultBeans, DefaultSettings, DefaultFees) == []
  {
    assert forall b :: b in DefaultBeans ==> !HomePage.Priced(b);
    HomePage.UnpricedBeansShowNothing(DefaultBeans, DefaultSettings, DefaultFees);
  }

  /** A bean bought for 50000 for 5 kg, at the default rates. */
  const SampleBean: Bean := Bean("b", "Sample", 50000.0, 5.0, None, None, 30.0, 50.0)

  /** Exempt seller: 40 bags at 1250 cost, shelf 4170 and wholesale 2500, 2920 profit a bag, 12 bags to break even. */
  lemma ExemptScenario()
    ensures var m := BeanMetrics(SampleBean, DefaultSettings, DefaultFees);
            m.Some? && m.value.sellableUnits == 40 && m.value.costPerBag == 1250 &&
            m.value.retailPrice == 4170 && m.value.wholesalePrice == 2500 && m.value.feePerBag == 0 &&
            m.value.profitPerBag == 2920.0 && m.value.breakevenUnits == 12
  {
    var g, fs, b := DefaultSettings, DefaultFees, SampleBean;
    assert RoastedWeight(5.0, 20.0, 0.0) == 4000.0;
    assert SellableUnits(b, g) == 40;
    var cost := CostPerBag(50000.0 + 0.0, 40, 0.0);
    assert cost == 1250;
    assert ShelfPrice(1250, 30.0, g) == 4170;
    assert ShelfPrice(1250, 50.0, g) == 2500;
    assert PlatformFee(4170, fs) == 0;
    assert BreakevenUnits(50000.0, 4170.0) == 12;
  }

  /** Taxable seller at 8 %: the purchase becomes 46296 net, 1158 a bag, shelf 4170, wholesale 2510, 2703 profit. */
  lemma TaxableScenario()
    ensures var g := DefaultSettings.(isTaxableEntity := true);
            var m := BeanMetrics(SampleBean, g, DefaultFees);
            m.Some? && m.value.costPerBag == 1158 && m.value.retailPrice == 4170 &&
            m.value.wholesalePrice == 2510 && m.value.profitPerBag == 2703.0 && m.value.breakevenUnits == 12
  {
    var g, fs, b := DefaultSettings.(isTaxableEntity := true), DefaultFees, SampleBean;
    assert SellableUnits(b, g) == 40;
    assert RemoveTax(50000.0, 8.0) == 46296;
    assert RemoveTax(0.0, 8.0) == 0;
    assert CostPerBag(46296.0 + 0.0, 40, 0.0) == 1158;
    assert ShelfPrice(1158, 30.0, g) == 4170;
    assert ShelfPrice(1158, 50.0, g) == 2510;
    assert PlatformFee(4170, fs) == 0;
    assert RemoveTax(4170.0, 8.0) == 3861;
    assert Round(0.0) == 0;
    assert BreakevenUnits(46296.0, 3861.0) == 12;
  }

  /** The default blend: 1650 per kg, 16500 a batch, 80 bags at 207, shelf 690, wholesale 420, 483 profit a bag. */
  lemma DefaultBlendScenario()
    ensures BlendPage.AvgCostPerKg(DefaultRecipe.ingredients) == 1650.0
    ensures BlendPage.VirtualBean(DefaultRecipe).purchasePrice == 16500.0
    ensures !BlendRecipeForm.IsInvalidRatio(DefaultRecipe)
    ensures var m := BlendPage.BlendMetrics(DefaultRecipe, DefaultSettings, DefaultFees);
            m.Some? && m.value.sellableUnits == 80 && m.value.costPerBag == 207 &&
            m.value.retailPrice == 690 && m.value.wholesalePrice == 420 && m.value.profitPerBag == 483.0
  {
    var r, g, fs := DefaultRecipe, DefaultSettings, DefaultFees;
    var ings := r.ingredients;
    assert ings[..1][..0] == [] && ings[..1] == [ings[0]] && ings[..|ings| - 1] == ings[..1];
    assert BlendPage.AvgCostPerKg(ings) == 1650.0;
    assert BlendRecipeForm.TotalRatio(ings) == 100.0;
    assert BlendPage.TotalCost(r) == 16500.0;
    var b := BlendPage.VirtualBean(r);
    assert b.purchasePrice == 16500.0;
    assert RoastedWeight(10.0, 20.0, 0.0) == 8000.0;
    assert SellableUnits(b, g) == 80;
    assert CostPerBag(16500.0 + 0.0, 80, 0.0) == 207;
    assert ShelfPrice(207, 30.0, g) == 690;
    assert ShelfPrice(207, 50.0, g) == 420;
    assert PlatformFee(690, fs) == 0;
  }

  /** The legacy calculator on the same bean: 40 bags, shelf 4170, wholesale 2500, 100120 expected profit. */
  lemma LegacyScenario()
    ensures var b := LegacyCalculator.BeanData(0, "Sample", 50000, 5.0, 30.0, 50.0);
            var r := LegacyCalculator.RowFor(b);
            r.Some? && r.value.no == 1 && r.value.sellableUnits == 40 && r.value.costPerBag == 1250 &&
            r.value.priceRetail == 4170 && r.value.priceWholesale == 2500 && r.value.expectedProfit == 100120
  {
    var b := LegacyCalculator.BeanData(0, "Sample", 50000, 5.0, 30.0, 50.0);
    assert LegacyCalculator.SellableUnits(b) == 40;
    assert LegacyCalculator.CostPerBag(b) == 1250.0;
    assert LegacyCalculator.PriceRetail(b) == 4170;
    assert LegacyCalculator.PriceWholesale(b) == 2500;
    assert LegacyCalculator.ExpectedProfit(b) == 100120.0;
  }
}
