/**
 * The records of the calculator (types/index.ts), the partial updates that its
 * handlers build with object spread (`{ ...x, ...updates }`) and the shared
 * "find by id, otherwise the first" selection.
 *
 * Money, weights and percentages are JavaScript numbers; they are exact reals
 * here. Optional fields (`priceInputMode?`, `enteredUnitPrice?`) are Options.
 */
module Types {

  datatype Option<+T> = None | Some(value: T)

  datatype SaleType = Online | InStore

  datatype PlatformType =
    | BaseStandard
    | BaseGrowth
    | StoresFree
    | StoresStandard
    | ShopifyBasic
    | ShopifyStandard
    | ShopifyAdvanced
    | CustomPlatform

  datatype PaymentMethod =
    | Cash
    | CreditCard
    | PayPay
    | QuicPay
    | TransportIc
    | CustomPayment

  /** The sales channel: fee schedule selectors, shipping per bag and the custom rate (a percentage). */
  datatype FeeSettings = FeeSettings(
    saleType: SaleType,
    platformType: PlatformType,
    shippingCost: real,
    paymentMethod: PaymentMethod,
    customFeeRate: real)

  datatype PriceInputMode = ActiveTotal | ActivePerKg

  /** A purchased lot. purchasePrice is the tax-inclusive total; the rates are cost-rate percentages. */
  datatype Bean = Bean(
    id: string,
    name: string,
    purchasePrice: real,
    purchaseWeightKg: real,
    priceInputMode: Option<PriceInputMode>,
    enteredUnitPrice: Option<real>,
    targetRateRetail: real,
    targetRateWholesale: real)

  datatype BlendIngredient = BlendIngredient(id: string, name: string, pricePerKg: real, ratio: real)

  datatype BlendRecipe = BlendRecipe(
    id: string,
    name: string,
    ingredients: seq<BlendIngredient>,
    totalBatchWeightKg: real,
    targetRateRetail: real,
    targetRateWholesale: real)

  /** Session-wide settings; the rates are percentages, the costs tax-inclusive. */
  datatype GlobalSettings = GlobalSettings(
    salesUnitG: real,
    taxRate: real,
    roastLossRate: real,
    handpickLossRate: real,
    utilityCostPerRoast: real,
    packagingCost: real,
    isTaxableEntity: bool)

  /** What the metrics engine returns for one bean. */
  datatype SimulationResult = SimulationResult(
    beanId: string,
    roastedWeightG: real,
    sellableUnits: int,
    costPerBag: int,
    retailPrice: int,
    wholesalePrice: int,
    profitPerBag: real,
    feePerBag: int,
    breakevenUnits: int,
    isSafeMargin: bool)

  /** `SimulationResult & { beanName: string }`, a row of the profit table. */
  datatype NamedResult = NamedResult(metrics: SimulationResult, beanName: string)

  /** `Partial<Bean>`: a present field overrides the bean's. */
  datatype BeanPatch = BeanPatch(
    name: Option<string>,
    purchasePrice: Option<real>,
    purchaseWeightKg: Option<real>,
    priceInputMode: Option<PriceInputMode>,
    enteredUnitPrice: Option<real>,
    targetRateRetail: Option<real>,
    targetRateWholesale: Option<real>)

  const NoBeanChange := BeanPatch(None, None, None, None, None, None, None)

  /** The spread rule for one field: a present update wins, an absent one keeps the current value. */
  predicate Overrides<T(==)>(update: Option<T>, current: T, result: T) {
    (update.Some? ==> result == update.value) && (update.None? ==> result == current)
  }

  /** The same rule for a field that is itself optional: the patch's option replaces the field when present. */
  predicate OverridesOptional<T(==)>(update: Option<T>, current: Option<T>, result: Option<T>) {
    (update.Some? ==> result == update) && (update.None? ==> result == current)
  }

  function Pick<T(==)>(update: Option<T>, current: T): (r: T)
    ensures Overrides(update, current, r)
  {
    match update
    case Some(v) => v
    case None => current
  }

  /** `{ ...b, ...p }`; the id is never part of the updates the forms build. */
  function MergeBean(b: Bean, p: BeanPatch): (r: Bean)
    ensures r.id == b.id
    ensures Overrides(p.name, b.name, r.name)
    ensures Overrides(p.purchasePrice, b.purchasePrice, r.purchasePrice)
    ensures Overrides(p.purchaseWeightKg, b.purchaseWeightKg, r.purchaseWeightKg)
    ensures OverridesOptional(p.priceInputMode, b.priceInputMode, r.priceInputMode)
    ensures OverridesOptional(p.enteredUnitPrice, b.enteredUnitPrice, r.enteredUnitPrice)
    ensures Overrides(p.targetRateRetail, b.targetRateRetail, r.targetRateRetail)
    ensures Overrides(p.targetRateWholesale, b.targetRateWholesale, r.targetRateWholesale)
  {
    Bean(
      b.id,
      Pick(p.name, b.name),
      Pick(p.purchasePrice, b.purchasePrice),
      Pick(p.purchaseWeightKg, b.purchaseWeightKg),
      if p.priceInputMode.Some? then p.priceInputMode else b.priceInputMode,
      if p.enteredUnitPrice.Some? then p.enteredUnitPrice else b.enteredUnitPrice,
      Pick(p.targetRateRetail, b.targetRateRetail),
      Pick(p.targetRateWholesale, b.targetRateWholesale))
  }

  /** `Partial<BlendIngredient>`. */
  datatype IngredientPatch = IngredientPatch(
    id: Option<string>,
    name: Option<string>,
    pricePerKg: Option<real>,
    ratio: Option<real>)

  /** `{ ...ing, ...updates }` for one ingredient. */
  function MergeIngredient(i: BlendIngredient, p: IngredientPatch): (r: BlendIngredient)
    ensures Overrides(p.id, i.id, r.id) && Overrides(p.name, i.name, r.name)
    ensures Overrides(p.pricePerKg, i.pricePerKg, r.pricePerKg) && Overrides(p.ratio, i.ratio, r.ratio)
  {
    BlendIngredient(Pick(p.id, i.id), Pick(p.name, i.name), Pick(p.pricePerKg, i.pricePerKg), Pick(p.ratio, i.ratio))
  }

  /** `Partial<BlendRecipe>`. */
  datatype RecipePatch = RecipePatch(
    id: Option<string>,
    name: Option<string>,
    ingredients: Option<seq<BlendIngredient>>,
    totalBatchWeightKg: Option<real>,
    targetRateRetail: Option<real>,
    targetRateWholesale: Option<real>)

  /**
   * `beans.find(b => b.id === id) || beans[0]`: the first bean with that id,
   * otherwise the first bean, and nothing when there are no beans.
   */
  function FindOrFirst(beans: seq<Bean>, id: string): (r: Option<Bean>)
    ensures r.None? <==> beans == []
    ensures r.Some? ==> r.value in beans
    ensures (exists k :: 0 <= k < |beans| && beans[k].id == id) ==> r.Some? && r.value.id == id
    ensures (forall k :: 0 <= k < |beans| ==> beans[k].id != id) && beans != [] ==> r == Some(beans[0])
  {
    match FindById(beans, id)
    case Some(b) => Some(b)
    case None => if beans == [] then None else Some(beans[0])
  }

  /** `beans.find(b => b.id === id)`: the earliest bean with that id. */
  function FindById(beans: seq<Bean>, id: string): (r: Option<Bean>)
    ensures r.None? <==> forall k :: 0 <= k < |beans| ==> beans[k].id != id
    ensures r.Some? ==> exists k :: 0 <= k < |beans| && beans[k] == r.value && r.value.id == id &&
                                    forall j :: 0 <= j < k ==> beans[j].id != id
  {
    if beans == [] then None
    else if beans[0].id == id then Some(beans[0])
    else
      var rest := FindById(beans[1..], id);
      assert forall k :: 1 <= k < |beans| ==> beans[k] == beans[1..][k - 1];
      rest
  }
}
