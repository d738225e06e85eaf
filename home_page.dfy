/**
 * The portfolio page (app/page.tsx): merging a form's updates into the bean
 * list, collecting one profit-table row per priced bean that yields metrics,
 * and the three summary cards (total investment, expected profit, ROI).
 */
module HomePage {
  import opened Types
  import opened Numeric
  import opened Calculations

  /** updateBean: every bean with the id gets the updates merged in; the list keeps its length and order. */
  function UpdateBean(beans: seq<Bean>, id: string, updates: BeanPatch): (r: seq<Bean>)
    ensures |r| == |beans|
    ensures forall k :: 0 <= k < |beans| ==>
              r[k] == if beans[k].id == id then MergeBean(beans[k], updates) else beans[k]
  {
    if beans == [] then []
    else [if beans[0].id == id then MergeBean(beans[0], updates) else beans[0]] + UpdateBean(beans[1..], id, updates)
  }

  /** A bean with no id match is left alone by any update. */
  lemma UpdateUnknownIdIsIdentity(beans: seq<Bean>, id: string, updates: BeanPatch)
    requires forall k :: 0 <= k < |beans| ==> beans[k].id != id
    ensures UpdateBean(beans, id, updates) == beans
  {
    var r := UpdateBean(beans, id, updates);
    assert forall k :: 0 <= k < |beans| ==> r[k] == beans[k];
  }

  /** The first filter: only beans with a positive price and weight are simulated. */
  predicate Priced(b: Bean) {
    b.purchasePrice > 0.0 && b.purchaseWeightKg > 0.0
  }

  /** `bean.name || 'Unnamed Bean'`. */
  function DisplayName(b: Bean): (n: string)
    ensures n != ""
    ensures b.name != "" ==> n == b.name
    ensures b.name == "" ==> n == "Unnamed Bean"
  {
    if b.name == "" then "Unnamed Bean" else b.name
  }

  /** The metrics are computable for every bean that passes the price filter. */
  predicate Simulable(beans: seq<Bean>, g: GlobalSettings) {
    SettingsDefined(g) && forall b :: b in beans && Priced(b) ==> TargetRatesDefined(b)
  }

  /** The rows one bean contributes: none, or its metrics under its display name. */
  function BeanRows(b: Bean, g: GlobalSettings, fs: FeeSettings): (r: seq<NamedResult>)
    requires SettingsDefined(g) && (Priced(b) ==> TargetRatesDefined(b))
    ensures |r| <= 1
    ensures |r| == 1 <==> Priced(b) && BeanMetrics(b, g, fs).Some?
    ensures |r| == 1 ==> r[0] == NamedResult(BeanMetrics(b, g, fs).value, DisplayName(b))
  {
    if Priced(b) then
      match BeanMetrics(b, g, fs)
      case None => []
      case Some(m) => [NamedResult(m, DisplayName(b))]
    else []
  }

  /** `beans.filter(priced).flatMap(metrics or nothing)`, in input order. */
  function Results(beans: seq<Bean>, g: GlobalSettings, fs: FeeSettings): (r: seq<NamedResult>)
    requires Simulable(beans, g)
    ensures |r| <= |beans|
    ensures forall k :: 0 <= k < |r| ==> r[k].metrics.sellableUnits >= 1 && r[k].beanName != ""
  {
    if beans == [] then []
    else
      var n := |beans| - 1;
      assert beans[n] in beans;
      assert forall b :: b in beans[..n] ==> b in beans;
      Results(beans[..n], g, fs) + BeanRows(beans[n], g, fs)
  }

  /** The table lists the beans in input order: a bean added last adds its own rows, if any, at the end. */
  lemma ResultsSnoc(beans: seq<Bean>, b: Bean, g: GlobalSettings, fs: FeeSettings)
    requires Simulable(beans + [b], g)
    ensures Simulable(beans, g) && (Priced(b) ==> TargetRatesDefined(b))
    ensures Results(beans + [b], g, fs) == Results(beans, g, fs) + BeanRows(b, g, fs)
  {
    assert forall x :: x in beans ==> x in beans + [b];
    assert (beans + [b])[..|beans|] == beans;
    assert b in beans + [b];
  }

  /** The table keeps only priced beans: a list without one shows no rows at all. */
  lemma {:induction false} UnpricedBeansShowNothing(beans: seq<Bean>, g: GlobalSettings, fs: FeeSettings)
    requires SettingsDefined(g)
    requires forall b :: b in beans ==> !Priced(b)
    ensures Simulable(beans, g)
    ensures Results(beans, g, fs) == []
  {
    if beans != [] {
      var n := |beans| - 1;
      assert forall b :: b in beans[..n] ==> b in beans;
      assert beans[n] in beans;
      UnpricedBeansShowNothing(beans[..n], g, fs);
    }
  }

  /** Summed `purchasePrice || 0` over every bean, filtered out or not. */
  function TotalInvestment(beans: seq<Bean>): real {
    if beans == [] then 0.0
    else TotalInvestment(beans[..|beans| - 1]) + beans[|beans| - 1].purchasePrice
  }

  lemma {:induction false} TotalInvestmentAppend(s: seq<Bean>, t: seq<Bean>)
    ensures TotalInvestment(s + t) == TotalInvestment(s) + TotalInvestment(t)
  {
    if t == [] {
      assert s + t == s;
    } else {
      assert (s + t)[..|s + t| - 1] == s + t[..|t| - 1];
      TotalInvestmentAppend(s, t[..|t| - 1]);
    }
  }

  /** One row's share of the expected-profit card: profit per bag times the bags. */
  function BatchProfit(m: SimulationResult): real {
    m.profitPerBag * m.sellableUnits as real
  }

  /** Summed profitPerBag * sellableUnits over the profit-table rows. */
  function ExpectedProfit(results: seq<NamedResult>): real {
    if results == [] then 0.0
    else ExpectedProfit(results[..|results| - 1]) + BatchProfit(results[|results| - 1].metrics)
  }

  lemma {:induction false} ExpectedProfitAppend(s: seq<NamedResult>, t: seq<NamedResult>)
    ensures ExpectedProfit(s + t) == ExpectedProfit(s) + ExpectedProfit(t)
  {
    if t == [] {
      assert s + t == s;
    } else {
      assert (s + t)[..|s + t| - 1] == s + t[..|t| - 1];
      ExpectedProfitAppend(s, t[..|t| - 1]);
    }
  }

  /**
   * Adding a bean always adds its price to the investment card, but adds to the
   * profit card only when the bean yields a profit-table row.
   */
  lemma AddingABean(beans: seq<Bean>, b: Bean, g: GlobalSettings, fs: FeeSettings)
    requires Simulable(beans + [b], g)
    ensures Simulable(beans, g)
    ensures TotalInvestment(beans + [b]) == TotalInvestment(beans) + b.purchasePrice
    ensures ExpectedProfit(Results(beans + [b], g, fs)) ==
              ExpectedProfit(Results(beans, g, fs)) +
              (if Priced(b) && BeanMetrics(b, g, fs).Some?
               then BatchProfit(BeanMetrics(b, g, fs).value)
               else 0.0)
  {
    assert forall x :: x in beans ==> x in beans + [b];
    assert (beans + [b])[..|beans|] == beans;
    TotalInvestmentAppend(beans, [b]);
    assert TotalInvestment([b]) == b.purchasePrice by {
      assert [b][..0] == [];
    }
    ResultsSnoc(beans, b, g, fs);
    ExpectedProfitAppend(Results(beans, g, fs), BeanRows(b, g, fs));
    BeanRowsProfit(b, g, fs);
  }

  lemma BeanRowsProfit(b: Bean, g: GlobalSettings, fs: FeeSettings)
    requires SettingsDefined(g) && (Priced(b) ==> TargetRatesDefined(b))
    ensures ExpectedProfit(BeanRows(b, g, fs)) ==
              (if Priced(b) && BeanMetrics(b, g, fs).Some?
               then BatchProfit(BeanMetrics(b, g, fs).value)
               else 0.0)
  {
    var rows := BeanRows(b, g, fs);
    if Priced(b) && BeanMetrics(b, g, fs).Some? {
      var x := NamedResult(BeanMetrics(b, g, fs).value, DisplayName(b));
      assert rows == [x];
      ExpectedProfitSingle(x);
    } else {
      assert rows == [];
    }
  }

  lemma ExpectedProfitSingle(x: NamedResult)
    ensures ExpectedProfit([x]) == BatchProfit(x.metrics)
  {
    assert [x][..0] == [];
  }

  /** The ROI card: profit as a percentage of the investment, or 0 when nothing is invested. */
  function Roi(investment: real, profit: real): (r: real)
    ensures investment <= 0.0 ==> r == 0.0
    ensures investment > 0.0 ==> r * investment == profit * 100.0
  {
    if investment > 0.0 then profit / investment * 100.0 else 0.0
  }
}
