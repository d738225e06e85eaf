/**
 * The blend page (app/blend/page.tsx): the recipe updaters, the reduction of a
 * recipe to a "virtual bean" that the metrics engine prices, and the page's
 * summary figures.
 */
module BlendPage {
  import opened Types
  import opened Numeric
  import opened Calculations
  import HomePage

  // ---------------------------------------------------------------------------
  // Recipe updaters (the setRecipe callbacks)
  // ---------------------------------------------------------------------------

  /** updateRecipe: `{ ...prev, ...updates }`. */
  function UpdateRecipe(recipe: BlendRecipe, updates: RecipePatch): (r: BlendRecipe)
    ensures updates == RecipePatch(None, None, None, None, None, None) ==> r == recipe
    ensures Overrides(updates.id, recipe.id, r.id) && Overrides(updates.name, recipe.name, r.name)
    ensures Overrides(updates.ingredients, recipe.ingredients, r.ingredients)
    ensures Overrides(updates.totalBatchWeightKg, recipe.totalBatchWeightKg, r.totalBatchWeightKg)
    ensures Overrides(updates.targetRateRetail, recipe.targetRateRetail, r.targetRateRetail)
    ensures Overrides(updates.targetRateWholesale, recipe.targetRateWholesale, r.targetRateWholesale)
  {
    BlendRecipe(
      Pick(updates.id, recipe.id),
      Pick(updates.name, recipe.name),
      Pick(updates.ingredients, recipe.ingredients),
      Pick(updates.totalBatchWeightKg, recipe.totalBatchWeightKg),
      Pick(updates.targetRateRetail, recipe.targetRateRetail),
      Pick(updates.targetRateWholesale, recipe.targetRateWholesale))
  }

  /** Sending the same updates twice is the same as sending them once. */
  lemma UpdateRecipeIdempotent(recipe: BlendRecipe, updates: RecipePatch)
    ensures UpdateRecipe(UpdateRecipe(recipe, updates), updates) == UpdateRecipe(recipe, updates)
  {
  }

  /** The ingredient map of updateIngredient. */
  function UpdateIngredients(ingredients: seq<BlendIngredient>, id: string, updates: IngredientPatch): (r: seq<BlendIngredient>)
    ensures |r| == |ingredients|
    ensures forall k :: 0 <= k < |ingredients| ==>
              r[k] == if ingredients[k].id == id then MergeIngredient(ingredients[k], updates) else ingredients[k]
  {
    if ingredients == [] then []
    else
      var head := if ingredients[0].id == id then MergeIngredient(ingredients[0], updates) else ingredients[0];
      assert forall k :: 1 <= k < |ingredients| ==> ingredients[k] == ingredients[1..][k - 1];
      [head] + UpdateIngredients(ingredients[1..], id, updates)
  }

  /** updateIngredient: only the ingredients with that id change; length and order are kept. */
  function UpdateIngredient(recipe: BlendRecipe, id: string, updates: IngredientPatch): (r: BlendRecipe)
    ensures r == recipe.(ingredients := r.ingredients)
    ensures |r.ingredients| == |recipe.ingredients|
    ensures forall k :: 0 <= k < |recipe.ingredients| && recipe.ingredients[k].id != id ==>
              r.ingredients[k] == recipe.ingredients[k]
    ensures forall k :: 0 <= k < |recipe.ingredients| && recipe.ingredients[k].id == id ==>
              r.ingredients[k] == MergeIngredient(recipe.ingredients[k], updates)
  {
    recipe.(ingredients := UpdateIngredients(recipe.ingredients, id, updates))
  }

  /** The ingredient addIngredient appends; the id comes from the clock, so it is a parameter here. */
  function NewIngredient(newId: string): BlendIngredient {
    BlendIngredient(newId, "New Bean", 0.0, 0.0)
  }

  /** addIngredient: exactly one zero-priced, zero-ratio ingredient at the end. */
  function AddIngredient(recipe: BlendRecipe, newId: string): (r: BlendRecipe)
    ensures r == recipe.(ingredients := r.ingredients)
    ensures |r.ingredients| == |recipe.ingredients| + 1
    ensures r.ingredients[..|recipe.ingredients|] == recipe.ingredients
    ensures r.ingredients[|recipe.ingredients|] == BlendIngredient(newId, "New Bean", 0.0, 0.0)
  {
    recipe.(ingredients := recipe.ingredients + [NewIngredient(newId)])
  }

  /** The filter of removeIngredient. */
  function DropId(ingredients: seq<BlendIngredient>, id: string): (r: seq<BlendIngredient>)
    ensures |r| <= |ingredients|
    ensures forall x :: x in r <==> x in ingredients && x.id != id
  {
    if ingredients == [] then []
    else
      var rest := DropId(ingredients[1..], id);
      assert forall x :: x in ingredients <==> x == ingredients[0] || x in ingredients[1..];
      if ingredients[0].id == id then rest else [ingredients[0]] + rest
  }

  /** Dropping from a concatenation drops from each part, so the kept ingredients keep their order. */
  lemma {:induction false} DropIdAppend(s: seq<BlendIngredient>, t: seq<BlendIngredient>, id: string)
    ensures DropId(s + t, id) == DropId(s, id) + DropId(t, id)
  {
    if s == [] {
      assert s + t == t;
    } else {
      assert (s + t)[0] == s[0];
      assert (s + t)[1..] == s[1..] + t;
      DropIdAppend(s[1..], t, id);
    }
  }

  /** One ingredient is kept exactly when its id differs. */
  lemma DropIdSingle(x: BlendIngredient, id: string)
    ensures DropId([x], id) == if x.id == id then [] else [x]
  {
    assert [x][1..] == [];
  }

  /** How many ingredients carry the id. */
  function CountId(ingredients: seq<BlendIngredient>, id: string): nat {
    if ingredients == [] then 0
    else (if ingredients[0].id == id then 1 else 0) + CountId(ingredients[1..], id)
  }

  /** Exactly the ingredients with the id are dropped. */
  lemma {:induction false} DropIdLength(ingredients: seq<BlendIngredient>, id: string)
    ensures |DropId(ingredients, id)| + CountId(ingredients, id) == |ingredients|
  {
    if ingredients != [] {
      DropIdLength(ingredients[1..], id);
    }
  }

  /** removeIngredient. */
  function RemoveIngredient(recipe: BlendRecipe, id: string): (r: BlendRecipe)
    ensures r == recipe.(ingredients := r.ingredients)
    ensures forall x :: x in r.ingredients <==> x in recipe.ingredients && x.id != id
  {
    recipe.(ingredients := DropId(recipe.ingredients, id))
  }

  // ---------------------------------------------------------------------------
  // Conversion to a virtual bean
  // ---------------------------------------------------------------------------

  /** One ingredient's share of the per-kg cost: `pricePerKg * (ratio / 100)`. */
  function IngredientShare(i: BlendIngredient): real {
    i.pricePerKg * (i.ratio / 100.0)
  }

  /** The `reduce` summing the shares left to right; ratios are used as given, not renormalised. */
  function AvgCostPerKg(ingredients: seq<BlendIngredient>): real {
    if ingredients == [] then 0.0
    else AvgCostPerKg(ingredients[..|ingredients| - 1]) + IngredientShare(ingredients[|ingredients| - 1])
  }

  /** The average of two lists joined is the sum of their averages. */
  lemma {:induction false} AvgCostAppend(s: seq<BlendIngredient>, t: seq<BlendIngredient>)
    ensures AvgCostPerKg(s + t) == AvgCostPerKg(s) + AvgCostPerKg(t)
  {
    if t == [] {
      assert s + t == s;
    } else {
      assert (s + t)[..|s + t| - 1] == s + t[..|t| - 1];
      AvgCostAppend(s, t[..|t| - 1]);
    }
  }

  /** The new ingredient is priced at 0 with ratio 0, so adding it leaves the average cost unchanged. */
  lemma AddKeepsAvgCost(recipe: BlendRecipe, newId: string)
    ensures AvgCostPerKg(AddIngredient(recipe, newId).ingredients) == AvgCostPerKg(recipe.ingredients)
  {
    var s := AddIngredient(recipe, newId).ingredients;
    assert s[..|s| - 1] == recipe.ingredients;
  }

  /** Removing an ingredient takes exactly its share out of the average. */
  lemma {:induction false} RemoveSubtractsShares(ingredients: seq<BlendIngredient>, id: string)
    ensures AvgCostPerKg(DropId(ingredients, id)) + SharesWithId(ingredients, id) == AvgCostPerKg(ingredients)
  {
    if ingredients != [] {
      var x := ingredients[0];
      assert ingredients == [x] + ingredients[1..];
      RemoveSubtractsShares(ingredients[1..], id);
      AvgCostAppend([x], ingredients[1..]);
      assert AvgCostPerKg([x]) == IngredientShare(x) by {
        assert [x][..0] == [];
      }
      if x.id != id {
        AvgCostAppend([x], DropId(ingredients[1..], id));
      }
    }
  }

  /** The summed shares of the ingredients that carry the id. */
  function SharesWithId(ingredients: seq<BlendIngredient>, id: string): real {
    if ingredients == [] then 0.0
    else (if ingredients[0].id == id then IngredientShare(ingredients[0]) else 0.0) + SharesWithId(ingredients[1..], id)
  }

  /** `avgCostPerKg * totalBatchWeightKg`: what the batch costs. */
  function TotalCost(recipe: BlendRecipe): real {
    AvgCostPerKg(recipe.ingredients) * recipe.totalBatchWeightKg
  }

  /** The recipe as a bean: its batch cost rounded to a whole amount, its batch weight and its own rates. */
  function VirtualBean(recipe: BlendRecipe): (b: Bean)
    ensures b.id == recipe.id && b.name == recipe.name
    ensures b.purchaseWeightKg == recipe.totalBatchWeightKg
    ensures b.targetRateRetail == recipe.targetRateRetail && b.targetRateWholesale == recipe.targetRateWholesale
    ensures b.purchasePrice == b.purchasePrice.Floor as real
    ensures b.purchasePrice - 0.5 <= TotalCost(recipe) < b.purchasePrice + 0.5
    ensures b.priceInputMode.None? && b.enteredUnitPrice.None?
  {
    Bean(
      recipe.id, recipe.name, Round(TotalCost(recipe)) as real, recipe.totalBatchWeightKg,
      None, None, recipe.targetRateRetail, recipe.targetRateWholesale)
  }

  predicate RecipeRatesDefined(recipe: BlendRecipe) {
    recipe.targetRateRetail != 0.0 && recipe.targetRateWholesale != 0.0
  }

  /** The page only runs the engine for a positive batch size. */
  function BlendMetrics(recipe: BlendRecipe, g: GlobalSettings, fs: FeeSettings): (r: Option<SimulationResult>)
    requires SettingsDefined(g) && RecipeRatesDefined(recipe)
    ensures recipe.totalBatchWeightKg <= 0.0 ==> r.None?
    ensures recipe.totalBatchWeightKg > 0.0 ==> r == BeanMetrics(VirtualBean(recipe), g, fs)
  {
    if recipe.totalBatchWeightKg > 0.0 then BeanMetrics(VirtualBean(recipe), g, fs) else None
  }

  /**
   * With loss rates of at most 100 % and a positive unit size the engine already
   * gives nothing for a batch of no weight, so the page's guard changes no outcome.
   */
  lemma BlendGuardAgreesWithEngine(recipe: BlendRecipe, g: GlobalSettings, fs: FeeSettings)
    requires SettingsDefined(g) && RecipeRatesDefined(recipe)
    requires g.salesUnitG > 0.0 && g.roastLossRate <= 100.0 && g.handpickLossRate <= 100.0
    ensures BlendMetrics(recipe, g, fs) == BeanMetrics(VirtualBean(recipe), g, fs)
  {
    if recipe.totalBatchWeightKg <= 0.0 {
      NoWeightNoMetrics(VirtualBean(recipe), g, fs);
    }
  }

  /** `metrics ? [{ ...metrics, beanName: recipe.name }] : []`. */
  function BlendResults(recipe: BlendRecipe, g: GlobalSettings, fs: FeeSettings): (r: seq<NamedResult>)
    requires SettingsDefined(g) && RecipeRatesDefined(recipe)
    ensures |r| <= 1
    ensures r == [] <==> BlendMetrics(recipe, g, fs).None?
    ensures r != [] ==> r[0] == NamedResult(BlendMetrics(recipe, g, fs).value, recipe.name)
  {
    match BlendMetrics(recipe, g, fs)
    case Some(m) => [NamedResult(m, recipe.name)]
    case None => []
  }

  /** The expected-profit card: the blend's profit per bag times its bags, or 0 without metrics. */
  lemma BlendExpectedProfit(recipe: BlendRecipe, g: GlobalSettings, fs: FeeSettings)
    requires SettingsDefined(g) && RecipeRatesDefined(recipe)
    ensures var m := BlendMetrics(recipe, g, fs);
            HomePage.ExpectedProfit(BlendResults(recipe, g, fs)) ==
              if m.None? then 0.0 else HomePage.BatchProfit(m.value)
  {
    var r := BlendResults(recipe, g, fs);
    if r != [] {
      assert r[..0] == [];
    }
  }

  /** The ROI card: the results' expected profit over the unrounded batch cost, in percent; 0 for no cost. */
  function BlendRoi(recipe: BlendRecipe, results: seq<NamedResult>): (r: real)
    ensures TotalCost(recipe) <= 0.0 ==> r == 0.0
    ensures TotalCost(recipe) > 0.0 ==> r * TotalCost(recipe) == HomePage.ExpectedProfit(results) * 100.0
  {
    HomePage.Roi(TotalCost(recipe), HomePage.ExpectedProfit(results))
  }
}
