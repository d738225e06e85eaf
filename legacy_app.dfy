/**
 * The legacy Streamlit calculator (app.py): up to five form rows become bean
 * records when their name, price and weight are filled in; each bean is then
 * priced with fixed constants (20 % roast loss, 100 g bags, 8 % tax shown as
 * included, 10 % platform fee) and the purchase prices and expected profits of
 * the beans that yield a bag are totalled.
 */
module LegacyCalculator {
  import opened Types
  import opened Numeric

  const LossRate: real := 0.20
  const SalesUnitG: real := 100.0
  const TaxRate: real := 0.08
  const PlatformFeeRate: real := 0.10

  /** The number of input rows the page lays out. */
  const FormCount: nat := 5

  /** One expander's inputs; the widgets keep price and weight at least 0 and the rates in [1, 100]. */
  datatype FormRow = FormRow(
    name: string,
    priceIn: int,
    weightInKg: real,
    targetRateRetail: real,
    targetRateWholesale: real)

  predicate WidgetBounds(row: FormRow) {
    row.priceIn >= 0 && row.weightInKg >= 0.0 &&
    1.0 <= row.targetRateRetail <= 100.0 && 1.0 <= row.targetRateWholesale <= 100.0
  }

  /** A row is taken when its name is non-empty and its price and weight are positive. */
  predicate Admitted(row: FormRow) {
    row.name != "" && row.priceIn > 0 && row.weightInKg > 0.0
  }

  datatype BeanData = BeanData(
    id: int,
    name: string,
    purchasePrice: int,
    purchaseWeightKg: real,
    targetRateRetail: real,
    targetRateWholesale: real)

  function ToBean(i: int, row: FormRow): BeanData {
    BeanData(i, row.name, row.priceIn, row.weightInKg, row.targetRateRetail, row.targetRateWholesale)
  }

  /** The beans the input loop collects from the rows, in row order, each with its row index as id. */
  function AdmittedBeans(rows: seq<FormRow>): seq<BeanData> {
    if rows == [] then []
    else
      var n := |rows| - 1;
      AdmittedBeans(rows[..n]) + (if Admitted(rows[n]) then [ToBean(n, rows[n])] else [])
  }

  /** The input loop of `main`. */
  method CollectBeans(rows: seq<FormRow>) returns (beansData: seq<BeanData>)
    ensures beansData == AdmittedBeans(rows)
  {
    beansData := [];
    var i := 0;
    while i < |rows|
      invariant 0 <= i <= |rows|
      invariant beansData == AdmittedBeans(rows[..i])
    {
      assert rows[..i + 1][..i] == rows[..i];
      if Admitted(rows[i]) {
        beansData := beansData + [ToBean(i, rows[i])];
      }
      i := i + 1;
    }
    assert rows[..|rows|] == rows;
  }

  /** Every collected bean is an admitted row, copied, and the ids increase with the row order. */
  lemma {:induction false} AdmittedBeansSound(rows: seq<FormRow>)
    ensures forall k :: 0 <= k < |AdmittedBeans(rows)| ==>
              var b := AdmittedBeans(rows)[k];
              0 <= b.id < |rows| && Admitted(rows[b.id]) && b == ToBean(b.id, rows[b.id])
    ensures forall j, k :: 0 <= j < k < |AdmittedBeans(rows)| ==> AdmittedBeans(rows)[j].id < AdmittedBeans(rows)[k].id
  {
    if rows != [] {
      var n := |rows| - 1;
      AdmittedBeansSound(rows[..n]);
      assert forall i :: 0 <= i < n ==> rows[..n][i] == rows[i];
    }
  }

  /** Every admitted row is collected. */
  lemma {:induction false} AdmittedBeansComplete(rows: seq<FormRow>, i: int)
    requires 0 <= i < |rows| && Admitted(rows[i])
    ensures exists k :: 0 <= k < |AdmittedBeans(rows)| && AdmittedBeans(rows)[k].id == i
  {
    var n := |rows| - 1;
    if i == n {
      assert AdmittedBeans(rows)[|AdmittedBeans(rows)| - 1].id == i;
    } else {
      assert rows[..n][i] == rows[i];
      AdmittedBeansComplete(rows[..n], i);
      var k :| 0 <= k < |AdmittedBeans(rows[..n])| && AdmittedBeans(rows[..n])[k].id == i;
      assert AdmittedBeans(rows)[k] == AdmittedBeans(rows[..n])[k];
    }
  }

  /** A row that is not admitted never becomes a bean. */
  lemma RejectedRowsIgnored(rows: seq<FormRow>, i: int)
    requires 0 <= i < |rows| && !Admitted(rows[i])
    ensures forall k :: 0 <= k < |AdmittedBeans(rows)| ==> AdmittedBeans(rows)[k].id != i
  {
    AdmittedBeansSound(rows);
  }

  /** What admission and the widgets guarantee of a bean before it is priced. */
  predicate InputBounds(b: BeanData) {
    b.purchasePrice > 0 && 1.0 <= b.targetRateRetail <= 100.0 && 1.0 <= b.targetRateWholesale <= 100.0
  }

  /** Green weight in grams less the fixed 20 % loss. */
  function RoastedWeightG(b: BeanData): (w: real)
    ensures w == b.purchaseWeightKg * 800.0
  {
    b.purchaseWeightKg * 1000.0 * (1.0 - LossRate)
  }

  /** Whole 100 g bags. */
  function SellableUnits(b: BeanData): (u: int)
    ensures u as real * SalesUnitG <= RoastedWeightG(b) < (u + 1) as real * SalesUnitG
  {
    Floor(RoastedWeightG(b) / SalesUnitG)
  }

  function CostPerBag(b: BeanData): real
    requires SellableUnits(b) > 0
  {
    b.purchasePrice as real / SellableUnits(b) as real
  }

  /** The cost over the target rate, raised to the next multiple of 10. */
  function ShelfPrice(cost: real, rate: real): (p: int)
    requires rate != 0.0
    ensures p % 10 == 0
    ensures cost / (rate / 100.0) <= p as real < cost / (rate / 100.0) + 10.0
  {
    CeilToTen(cost / (rate / 100.0))
  }

  function PriceRetail(b: BeanData): int
    requires InputBounds(b) && SellableUnits(b) > 0
  {
    ShelfPrice(CostPerBag(b), b.targetRateRetail)
  }

  function PriceWholesale(b: BeanData): int
    requires InputBounds(b) && SellableUnits(b) > 0
  {
    ShelfPrice(CostPerBag(b), b.targetRateWholesale)
  }

  /** A positive cost over a rate in (0, 100] gives a price of at least 10. */
  lemma PositivePrice(cost: real, rate: real)
    requires cost > 0.0 && 0.0 < rate <= 100.0
    ensures ShelfPrice(cost, rate) >= 10
  {
    assert cost / (rate / 100.0) > 0.0;
  }

  /** The share of the bags' retail takings the purchase price needs, in percent. */
  function BreakevenRate(b: BeanData): real
    requires InputBounds(b) && SellableUnits(b) > 0
  {
    PositivePrice(CostPerBag(b), b.targetRateRetail);
    (b.purchasePrice as real / PriceRetail(b) as real) / SellableUnits(b) as real * 100.0
  }

  /** Retail takings of every bag less the 10 % fee, less the purchase price. */
  function ExpectedProfit(b: BeanData): real
    requires InputBounds(b) && SellableUnits(b) > 0
  {
    PriceRetail(b) as real * SellableUnits(b) as real * (1.0 - PlatformFeeRate) - b.purchasePrice as real
  }

  /** The tax contained in the tax-inclusive retail price. */
  function TaxAmountRetail(b: BeanData): (t: real)
    requires InputBounds(b) && SellableUnits(b) > 0
    ensures t * 1.08 == PriceRetail(b) as real * 0.08
  {
    PriceRetail(b) as real * TaxRate / (1.0 + TaxRate)
  }

  /** Python's `round(x)`: to the nearest integer, ties to the even one. */
  function RoundHalfEven(x: real): (r: int)
    ensures r as real - 0.5 <= x <= r as real + 0.5
    ensures x == r as real - 0.5 || x == r as real + 0.5 ==> r % 2 == 0
  {
    var f := Floor(x);
    var d := x - f as real;
    if d < 0.5 then f
    else if d > 0.5 then f + 1
    else if f % 2 == 0 then f
    else f + 1
  }

  /** Python's `round(x, 1)`: to the nearest tenth, ties to the even tenth. */
  function RoundTenth(x: real): (r: real)
    ensures r - 0.05 <= x <= r + 0.05
  {
    RoundHalfEven(x * 10.0) as real / 10.0
  }

  /** Python's `int(x)`: truncation toward zero. */
  function Truncate(x: real): (r: int)
    ensures x >= 0.0 ==> r as real <= x < r as real + 1.0
    ensures x < 0.0 ==> r as real - 1.0 < x <= r as real
  {
    if x >= 0.0 then Floor(x) else -Floor(-x)
  }

  /** The row appended to `results`, with the values the table shows. */
  datatype ResultRow = ResultRow(
    no: int,
    name: string,
    purchasePrice: int,
    purchaseWeightKg: real,
    roastedWeightG: int,
    sellableUnits: int,
    costPerBag: int,
    priceRetail: int,
    priceWholesale: int,
    breakevenRate: real,
    expectedProfit: int,
    taxAmountRetail: int)

  /** One pass of the simulation loop: nothing when the bean yields no bag. */
  function RowFor(b: BeanData): (r: Option<ResultRow>)
    requires InputBounds(b)
    ensures r.None? <==> SellableUnits(b) <= 0
    ensures r.Some? ==>
              r.value.no == b.id + 1 && r.value.name == b.name && r.value.purchasePrice == b.purchasePrice &&
              r.value.sellableUnits == SellableUnits(b) >= 1 &&
              r.value.priceRetail == PriceRetail(b) && r.value.priceWholesale == PriceWholesale(b) &&
              r.value.priceRetail % 10 == 0 && r.value.priceWholesale % 10 == 0 &&
              r.value.priceRetail >= 10 && r.value.priceWholesale >= 10 &&
              r.value.breakevenRate - 0.05 <= BreakevenRate(b) <= r.value.breakevenRate + 0.05 &&
              r.value.expectedProfit as real - 0.5 <= ExpectedProfit(b) <= r.value.expectedProfit as real + 0.5
  {
    var units := SellableUnits(b);
    if units <= 0 then None
    else
      PositivePrice(CostPerBag(b), b.targetRateRetail);
      PositivePrice(CostPerBag(b), b.targetRateWholesale);
      Some(ResultRow(
        b.id + 1,
        b.name,
        b.purchasePrice,
        b.purchaseWeightKg,
        Truncate(RoastedWeightG(b)),
        units,
        RoundHalfEven(CostPerBag(b)),
        PriceRetail(b),
        PriceWholesale(b),
        RoundTenth(BreakevenRate(b)),
        RoundHalfEven(ExpectedProfit(b)),
        RoundHalfEven(TaxAmountRetail(b))))
  }

  predicate AllInBounds(beans: seq<BeanData>) {
    forall k :: 0 <= k < |beans| ==> InputBounds(beans[k])
  }

  /** The `results` list after the loop. */
  function Results(beans: seq<BeanData>): seq<ResultRow>
    requires AllInBounds(beans)
  {
    if beans == [] then []
    else
      var n := |beans| - 1;
      Results(beans[..n]) + RowsOf(beans[n])
  }

  /** The rows one bean appends: its row, or none when it yields no bag. */
  function RowsOf(b: BeanData): (r: seq<ResultRow>)
    requires InputBounds(b)
    ensures SellableUnits(b) > 0 ==> r == [RowFor(b).value]
    ensures SellableUnits(b) <= 0 ==> r == []
  {
    match RowFor(b)
    case None => []
    case Some(row) => [row]
  }

  /** `total_purchase_price` after the loop: only beans that produced a row add to it. */
  function TotalPurchase(beans: seq<BeanData>): int
    requires AllInBounds(beans)
  {
    if beans == [] then 0
    else
      var n := |beans| - 1;
      TotalPurchase(beans[..n]) + (if SellableUnits(beans[n]) > 0 then beans[n].purchasePrice else 0)
  }

  /** `total_expected_profit` after the loop, from the unrounded profits. */
  function TotalExpected(beans: seq<BeanData>): real
    requires AllInBounds(beans)
  {
    if beans == [] then 0.0
    else
      var n := |beans| - 1;
      TotalExpected(beans[..n]) + (if SellableUnits(beans[n]) > 0 then ExpectedProfit(beans[n]) else 0.0)
  }

  /** The simulation loop of `main`. */
  method RunSimulation(beansData: seq<BeanData>) returns (results: seq<ResultRow>, totalPurchasePrice: int, totalExpectedProfit: real)
    requires AllInBounds(beansData)
    ensures results == Results(beansData)
    ensures totalPurchasePrice == TotalPurchase(beansData)
    ensures totalExpectedProfit == TotalExpected(beansData)
  {
    results := [];
    totalPurchasePrice := 0;
    totalExpectedProfit := 0.0;
    var i := 0;
    while i < |beansData|
      invariant 0 <= i <= |beansData|
      invariant results == Results(beansData[..i])
      invariant totalPurchasePrice == TotalPurchase(beansData[..i])
      invariant totalExpectedProfit == TotalExpected(beansData[..i])
    {
      var bean := beansData[i];
      SimulationStep(beansData, i);
      var roastedWeightG := bean.purchaseWeightKg * 1000.0 * (1.0 - LossRate);
      var sellableUnits := Floor(roastedWeightG / SalesUnitG);
      if sellableUnits > 0 {
        var row := RowFor(bean).value;
        results := results + [row];
        totalPurchasePrice := totalPurchasePrice + bean.purchasePrice;
        totalExpectedProfit := totalExpectedProfit + ExpectedProfit(bean);
      }
      i := i + 1;
    }
    assert beansData[..|beansData|] == beansData;
  }

  /** One more bean extends each of the three folds by that bean's contribution. */
  lemma SimulationStep(beans: seq<BeanData>, i: int)
    requires AllInBounds(beans) && 0 <= i < |beans|
    ensures AllInBounds(beans[..i]) && AllInBounds(beans[..i + 1]) && InputBounds(beans[i])
    ensures Results(beans[..i + 1]) == Results(beans[..i]) + RowsOf(beans[i])
    ensures TotalPurchase(beans[..i + 1]) ==
              TotalPurchase(beans[..i]) + (if SellableUnits(beans[i]) > 0 then beans[i].purchasePrice else 0)
    ensures TotalExpected(beans[..i + 1]) ==
              TotalExpected(beans[..i]) + (if SellableUnits(beans[i]) > 0 then ExpectedProfit(beans[i]) else 0.0)
  {
    assert beans[..i + 1][..i] == beans[..i];
    assert beans[..i + 1][i] == beans[i];
  }

  /** The sum of the purchase prices shown in the table's rows. */
  function RowsPurchase(rows: seq<ResultRow>): int {
    if rows == [] then 0 else RowsPurchase(rows[..|rows| - 1]) + rows[|rows| - 1].purchasePrice
  }

  /** The sum of the rounded expected profits shown in the table's rows. */
  function RowsProfit(rows: seq<ResultRow>): int {
    if rows == [] then 0 else RowsProfit(rows[..|rows| - 1]) + rows[|rows| - 1].expectedProfit
  }

  /** The purchase total is exactly the sum over the rows shown: skipped beans add nothing. */
  lemma {:induction false} TotalPurchaseIsRowsSum(beans: seq<BeanData>)
    requires AllInBounds(beans)
    ensures TotalPurchase(beans) == RowsPurchase(Results(beans))
  {
    if beans != [] {
      var n := |beans| - 1;
      assert AllInBounds(beans[..n]);
      TotalPurchaseIsRowsSum(beans[..n]);
      var prev := Results(beans[..n]);
      match RowFor(beans[n])
      case None =>
        assert Results(beans) == prev;
      case Some(row) =>
        assert Results(beans) == prev + [row];
        assert (prev + [row])[..|prev|] == prev;
    }
  }

  /** The profit total differs from the sum of the rounded row profits by at most half a yen per row. */
  lemma {:induction false} TotalExpectedNearRowsSum(beans: seq<BeanData>)
    requires AllInBounds(beans)
    ensures RowsProfit(Results(beans)) as real - 0.5 * |Results(beans)| as real <= TotalExpected(beans)
    ensures TotalExpected(beans) <= RowsProfit(Results(beans)) as real + 0.5 * |Results(beans)| as real
  {
    if beans != [] {
      var n := |beans| - 1;
      assert AllInBounds(beans[..n]);
      TotalExpectedNearRowsSum(beans[..n]);
      var prev := Results(beans[..n]);
      match RowFor(beans[n])
      case None =>
        assert Results(beans) == prev;
      case Some(row) =>
        assert Results(beans) == prev + [row];
        assert (prev + [row])[..|prev|] == prev;
    }
  }

  /** Each row's number is its bean's input row plus one, so collected rows are numbered 1 to 5 in order. */
  lemma RowNumbersFollowRows(rows: seq<FormRow>)
    requires |rows| == FormCount && forall i :: 0 <= i < |rows| ==> WidgetBounds(rows[i])
    ensures forall k :: 0 <= k < |AdmittedBeans(rows)| ==> 1 <= AdmittedBeans(rows)[k].id + 1 <= FormCount
    ensures AllInBounds(AdmittedBeans(rows))
  {
    AdmittedBeansSound(rows);
  }

  /** The bags recovering the purchase price: the rate times the retail takings is the purchase price in percent. */
  lemma BreakevenMeaning(b: BeanData)
    requires InputBounds(b) && SellableUnits(b) > 0
    ensures PriceRetail(b) > 0
    ensures BreakevenRate(b) * PriceRetail(b) as real * SellableUnits(b) as real == b.purchasePrice as real * 100.0
  {
    PositivePrice(CostPerBag(b), b.targetRateRetail);
    var p, r, u := b.purchasePrice as real, PriceRetail(b) as real, SellableUnits(b) as real;
    assert BreakevenRate(b) == (p / r) / u * 100.0;
    QuotientTimes(p, r, u);
  }

  lemma QuotientTimes(p: real, r: real, u: real)
    requires r != 0.0 && u != 0.0
    ensures (p / r) / u * 100.0 * r * u == p * 100.0
  {
    assert (p / r) / u * u == p / r;
    assert (p / r) * r == p;
  }

  /** Rounding the price up never lets the breakeven rate exceed the retail target cost rate. */
  lemma BreakevenWithinTarget(b: BeanData)
    requires InputBounds(b) && SellableUnits(b) > 0
    ensures BreakevenRate(b) <= b.targetRateRetail
  {
    BreakevenMeaning(b);
    var p, r, u, t := b.purchasePrice as real, PriceRetail(b) as real, SellableUnits(b) as real, b.targetRateRetail;
    var c := CostPerBag(b);
    assert c * u == p;
    assert c / (t / 100.0) <= r;
    TargetBound(c, t, r, u, BreakevenRate(b));
  }

  /** From r at least c over t percent and x r u == 100 c u, conclude x <= t. */
  lemma TargetBound(c: real, t: real, r: real, u: real, x: real)
    requires c > 0.0 && t > 0.0 && r > 0.0 && u > 0.0
    requires c / (t / 100.0) <= r
    requires x * r * u == c * u * 100.0
    ensures x <= t
  {
    assert c * 100.0 <= t * r;
    assert x * r == c * 100.0;
    assert x * r <= t * r;
  }

  /** At a retail target cost rate of 90 % or less the expected profit is never negative. */
  lemma ProfitableUpToNinety(b: BeanData)
    requires InputBounds(b) && SellableUnits(b) > 0 && b.targetRateRetail <= 90.0
    ensures ExpectedProfit(b) >= 0.0
  {
    var p, r, u, t := b.purchasePrice as real, PriceRetail(b) as real, SellableUnits(b) as real, b.targetRateRetail;
    var c := CostPerBag(b);
    assert c * u == p;
    assert c / (t / 100.0) <= r;
    TakingsBound(c, t, r, u);
  }

  /** Takings at a rate t <= 90 cover the purchase price after a 10 % fee. */
  lemma TakingsBound(c: real, t: real, r: real, u: real)
    requires c > 0.0 && 0.0 < t <= 90.0 && u > 0.0
    requires c / (t / 100.0) <= r
    ensures r * u * (1.0 - 0.10) - c * u >= 0.0
  {
    assert c / (t / 100.0) == c * 100.0 / t;
    assert c * 100.0 / t * t == c * 100.0;
    assert c * 100.0 / t * t <= r * t;
    assert c * 100.0 <= t * r;
    assert c * 100.0 <= 90.0 * r;
    assert c * u * 100.0 <= 90.0 * r * u;
  }
}
