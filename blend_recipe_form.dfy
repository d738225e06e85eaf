/**
 * The recipe form (components/dashboard/BlendRecipeForm.tsx): the ratio total,
 * the warning shown when the ratios do not add up to 100 and the rule that a
 * remove button is offered only while more than one ingredient is left. Its
 * average-cost and batch-cost figures are the blend page's fold, which the
 * form recomputes with the same expression (BlendPage.AvgCostPerKg and
 * BlendPage.TotalCost).
 */
module BlendRecipeForm {
  import opened Types
  import opened BlendPage

  /** `ingredients.reduce((sum, i) => sum + i.ratio, 0)`. */
  function TotalRatio(ingredients: seq<BlendIngredient>): real {
    if ingredients == [] then 0.0
    else TotalRatio(ingredients[..|ingredients| - 1]) + ingredients[|ingredients| - 1].ratio
  }

  lemma {:induction false} TotalRatioAppend(s: seq<BlendIngredient>, t: seq<BlendIngredient>)
    ensures TotalRatio(s + t) == TotalRatio(s) + TotalRatio(t)
  {
    if t == [] {
      assert s + t == s;
    } else {
      assert (s + t)[..|s + t| - 1] == s + t[..|t| - 1];
      TotalRatioAppend(s, t[..|t| - 1]);
    }
  }

  /** `Math.abs(totalRatio - 100) > 0.1`: the ratios miss 100 by more than the float tolerance. */
  function IsInvalidRatio(recipe: BlendRecipe): (invalid: bool)
    ensures invalid <==> TotalRatio(recipe.ingredients) < 99.9 || TotalRatio(recipe.ingredients) > 100.1
  {
    var d := TotalRatio(recipe.ingredients) - 100.0;
    (if d < 0.0 then -d else d) > 0.1
  }

  /** Adding the new zero-ratio ingredient does not change the ratio warning. */
  lemma AddKeepsRatioCheck(recipe: BlendRecipe, newId: string)
    ensures TotalRatio(AddIngredient(recipe, newId).ingredients) == TotalRatio(recipe.ingredients)
    ensures IsInvalidRatio(AddIngredient(recipe, newId)) == IsInvalidRatio(recipe)
  {
    var s := AddIngredient(recipe, newId).ingredients;
    assert s[..|s| - 1] == recipe.ingredients;
  }

  /** Each ingredient row shows a remove button only while the recipe has more than one ingredient. */
  predicate RemoveOffered(recipe: BlendRecipe) {
    |recipe.ingredients| > 1
  }

  /** No two ingredients share an id (the defaults and clock-made ids are distinct). */
  predicate DistinctIds(ingredients: seq<BlendIngredient>) {
    forall j, k :: 0 <= j < k < |ingredients| ==> ingredients[j].id != ingredients[k].id
  }

  lemma {:induction false} CountDistinct(ingredients: seq<BlendIngredient>, k: nat)
    requires DistinctIds(ingredients) && k < |ingredients|
    ensures CountId(ingredients, ingredients[k].id) == 1
  {
    var id := ingredients[k].id;
    if k == 0 {
      CountAbsent(ingredients[1..], id);
    } else {
      CountDistinct(ingredients[1..], k - 1);
    }
  }

  lemma {:induction false} CountAbsent(ingredients: seq<BlendIngredient>, id: string)
    requires forall j :: 0 <= j < |ingredients| ==> ingredients[j].id != id
    ensures CountId(ingredients, id) == 0
  {
    if ingredients != [] {
      CountAbsent(ingredients[1..], id);
    }
  }

  /**
   * A remove clicked in the form takes out exactly that row, so with distinct ids
   * the recipe never loses its last ingredient through the form.
   */
  lemma RemoveThroughFormKeepsOne(recipe: BlendRecipe, k: nat)
    requires RemoveOffered(recipe) && k < |recipe.ingredients| && DistinctIds(recipe.ingredients)
    ensures |RemoveIngredient(recipe, recipe.ingredients[k].id).ingredients| == |recipe.ingredients| - 1
    ensures |RemoveIngredient(recipe, recipe.ingredients[k].id).ingredients| >= 1
  {
    CountDistinct(recipe.ingredients, k);
    DropIdLength(recipe.ingredients, recipe.ingredients[k].id);
  }

  /**
   * With non-negative ratios and every price in [lo, hi], the average cost lies
   * between lo and hi scaled by the ratio total; at a total of 100 it is a true average.
   */
  lemma {:induction false} AvgCostBetweenPrices(ingredients: seq<BlendIngredient>, lo: real, hi: real)
    requires forall k :: 0 <= k < |ingredients| ==>
               ingredients[k].ratio >= 0.0 && lo <= ingredients[k].pricePerKg <= hi
    ensures lo * TotalRatio(ingredients) / 100.0 <= AvgCostPerKg(ingredients) <= hi * TotalRatio(ingredients) / 100.0
  {
    if ingredients != [] {
      var n := |ingredients| - 1;
      var x := ingredients[n];
      AvgCostBetweenPrices(ingredients[..n], lo, hi);
      ShareBetween(x, lo, hi);
    }
  }

  lemma ShareBetween(x: BlendIngredient, lo: real, hi: real)
    requires x.ratio >= 0.0 && lo <= x.pricePerKg <= hi
    ensures lo * x.ratio / 100.0 <= IngredientShare(x) <= hi * x.ratio / 100.0
  {
    assert lo * x.ratio <= x.pricePerKg * x.ratio;
    assert x.pricePerKg * x.ratio <= hi * x.ratio;
  }

  /** The ratio-100 case: the blend's cost per kg lies between its cheapest and dearest ingredient bounds. */
  lemma AvgCostIsAverage(recipe: BlendRecipe, lo: real, hi: real)
    requires forall k :: 0 <= k < |recipe.ingredients| ==>
               recipe.ingredients[k].ratio >= 0.0 && lo <= recipe.ingredients[k].pricePerKg <= hi
    requires TotalRatio(recipe.ingredients) == 100.0
    ensures lo <= AvgCostPerKg(recipe.ingredients) <= hi
  {
    AvgCostBetweenPrices(recipe.ingredients, lo, hi);
  }
}
