/**
 * The bean form (components/dashboard/BeanConfigForm.tsx): which bean is being
 * edited, which price it displays, and the partial updates its price-mode,
 * price and weight handlers send to the page, which keep the total price, the
 * per-kg price and the weight consistent.
 */
module BeanConfigForm {
  import opened Types
  import opened Numeric
  import HomePage

  /** `priceInputMode || 'active_total'`. */
  function CurrentPriceMode(bean: Bean): PriceInputMode {
    match bean.priceInputMode
    case Some(m) => m
    case None => ActiveTotal
  }

  /** The number in the price field: the total in total mode, the per-kg cache (or 0) in per-kg mode. */
  function DisplayPrice(bean: Bean): (d: real)
    ensures CurrentPriceMode(bean) == ActiveTotal ==> d == bean.purchasePrice
    ensures CurrentPriceMode(bean) == ActivePerKg && bean.enteredUnitPrice.Some? ==> d == bean.enteredUnitPrice.value
    ensures CurrentPriceMode(bean) == ActivePerKg && bean.enteredUnitPrice.None? ==> d == 0.0
  {
    if CurrentPriceMode(bean) == ActiveTotal then bean.purchasePrice
    else if bean.enteredUnitPrice.Some? then bean.enteredUnitPrice.value
    else 0.0
  }

  /** handlePriceModeChange: per-kg mode also caches the rounded price per kg of the current total. */
  function PriceModeChange(bean: Bean, mode: PriceInputMode): (p: BeanPatch)
    ensures mode == ActiveTotal ==> MergeBean(bean, p) == bean.(priceInputMode := Some(ActiveTotal))
    ensures mode == ActivePerKg ==>
              var b := MergeBean(bean, p);
              b == bean.(priceInputMode := Some(ActivePerKg), enteredUnitPrice := b.enteredUnitPrice) &&
              b.enteredUnitPrice.Some? &&
              b.enteredUnitPrice.value == b.enteredUnitPrice.value.Floor as real &&
              (bean.purchaseWeightKg > 0.0 ==>
                 b.enteredUnitPrice.value - 0.5 <= bean.purchasePrice / bean.purchaseWeightKg < b.enteredUnitPrice.value + 0.5) &&
              (bean.purchaseWeightKg <= 0.0 ==> b.enteredUnitPrice.value == 0.0)
  {
    if mode == ActivePerKg then
      var currentUnit := if bean.purchaseWeightKg > 0.0 then Round(bean.purchasePrice / bean.purchaseWeightKg) else 0;
      NoBeanChange.(priceInputMode := Some(mode), enteredUnitPrice := Some(currentUnit as real))
    else
      NoBeanChange.(priceInputMode := Some(mode))
  }

  /** handlePriceChange: a total edits the total; a per-kg price edits the cache and re-derives the total. */
  function PriceChange(bean: Bean, val: real): (p: BeanPatch)
    ensures CurrentPriceMode(bean) == ActiveTotal ==> MergeBean(bean, p) == bean.(purchasePrice := val)
    ensures CurrentPriceMode(bean) == ActivePerKg ==>
              MergeBean(bean, p) == bean.(enteredUnitPrice := Some(val), purchasePrice := val * bean.purchaseWeightKg)
  {
    if CurrentPriceMode(bean) == ActiveTotal then NoBeanChange.(purchasePrice := Some(val))
    else
      var newTotal := val * bean.purchaseWeightKg;
      NoBeanChange.(enteredUnitPrice := Some(val), purchasePrice := Some(newTotal))
  }

  /** The per-kg price a weight edit keeps: the cache, else the current total over the current weight, else 0. */
  function CurrentPerKg(bean: Bean): (u: real)
    ensures bean.enteredUnitPrice.Some? ==> u == bean.enteredUnitPrice.value
    ensures bean.enteredUnitPrice.None? && bean.purchaseWeightKg > 0.0 ==>
              u * bean.purchaseWeightKg == bean.purchasePrice
    ensures bean.enteredUnitPrice.None? && bean.purchaseWeightKg <= 0.0 ==> u == 0.0
  {
    if bean.enteredUnitPrice.Some? then bean.enteredUnitPrice.value
    else if bean.purchaseWeightKg > 0.0 then bean.purchasePrice / bean.purchaseWeightKg
    else 0.0
  }

  /** handleWeightChange: in per-kg mode the per-kg price is kept and the total follows the weight. */
  function WeightChange(bean: Bean, val: real): (p: BeanPatch)
    ensures CurrentPriceMode(bean) == ActiveTotal ==> MergeBean(bean, p) == bean.(purchaseWeightKg := val)
    ensures CurrentPriceMode(bean) == ActivePerKg ==>
              MergeBean(bean, p) == bean.(purchaseWeightKg := val, purchasePrice := CurrentPerKg(bean) * val,
                                          enteredUnitPrice := Some(CurrentPerKg(bean)))
  {
    if CurrentPriceMode(bean) == ActiveTotal then NoBeanChange.(purchaseWeightKg := Some(val))
    else
      var currentPerKg := CurrentPerKg(bean);
      var newTotal := currentPerKg * val;
      NoBeanChange.(purchaseWeightKg := Some(val), purchasePrice := Some(newTotal), enteredUnitPrice := Some(currentPerKg))
  }

  /** In per-kg mode with a cached per-kg price, the total is that price times the weight. */
  predicate PerKgConsistent(b: Bean) {
    CurrentPriceMode(b) == ActivePerKg && b.enteredUnitPrice.Some? ==>
      b.purchasePrice == b.enteredUnitPrice.value * b.purchaseWeightKg
  }

  /** Every price or weight edit leaves the bean consistent, whatever it was before. */
  lemma EditsLeaveConsistent(bean: Bean, val: real)
    ensures PerKgConsistent(MergeBean(bean, PriceChange(bean, val)))
    ensures PerKgConsistent(MergeBean(bean, WeightChange(bean, val)))
  {
  }

  /** A consistent per-kg bean keeps its per-kg price through a weight edit and shows it. */
  lemma WeightEditKeepsPerKg(bean: Bean, val: real)
    requires CurrentPriceMode(bean) == ActivePerKg
    ensures var b := MergeBean(bean, WeightChange(bean, val));
            DisplayPrice(b) == CurrentPerKg(bean) && b.purchasePrice == DisplayPrice(b) * val
  {
  }

  /**
   * An edit made through the form reaches the beans with the active id. When the
   * active id matches no bean the form shows beans[0], yet the update is merged
   * into nothing and the list is unchanged.
   */
  lemma FormEditTargetsActiveId(beans: seq<Bean>, activeBeanId: string, val: real)
    requires beans != []
    ensures var shown := FindOrFirst(beans, activeBeanId).value;
            var r := HomePage.UpdateBean(beans, activeBeanId, PriceChange(shown, val));
            (forall k :: 0 <= k < |beans| ==> beans[k].id != activeBeanId) ==> shown == beans[0] && r == beans
  {
    var shown := FindOrFirst(beans, activeBeanId).value;
    if forall k :: 0 <= k < |beans| ==> beans[k].id != activeBeanId {
      HomePage.UpdateUnknownIdIsIdentity(beans, activeBeanId, PriceChange(shown, val));
    }
  }
}
