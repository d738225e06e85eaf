# Coffee cost accounting — a verified model of the pricing core

This project models the pricing core of a coffee roaster's cost-accounting
tool in Dafny and proves properties of that model.

- **The pricing engine.** It turns a green-bean purchase (price, weight and
  two target cost rates) into bags, a cost per bag and a shelf price and a
  wholesale price per bag. It also gives a channel fee, a profit per bag and
  a break-even count, for a tax-exempt or a taxable seller.
- **The portfolio page.** It merges form edits into the bean list, keeps one
  profit-table row per priced bean and shows three cards: total investment,
  expected profit and ROI.
- **The blend page and its recipe form.** Their fold reduces a recipe of
  ingredients to a "virtual bean" that the engine prices. The page's updaters
  edit the ingredient list, and the form shows the ratio warning.
- **The discount simulator.** It scales the shelf price to a larger bag,
  applies a discount, re-rounds to 10 and recomputes fee, profit, cost rate
  and badge. Its chart loop does the same for discounts 0, 5, …, 50 %.
- **The bean form.** Its price-mode, price and weight handlers keep the total
  price, the per-kg price and the weight consistent.
- **Country detection** for the market-price search, and the median
  recommendation of the market-price label.
- **The legacy Streamlit calculator.** An input loop and a simulation loop
  with fixed constants: 20 % loss, 100 g bags, 8 % tax and a 10 % fee.

All numbers are exact `real`s. `Math.floor` and `Math.ceil` are the
mathematical floor and ceiling. `Math.round` is `floor(x + 1/2)`. Python's
`round` rounds half to even, and `int()` truncates toward zero.

The modules follow the program's files:

- `Numeric`: the rounding primitives.
- `Types`: the records, together with the `Partial<T>` patches and their
  spread merges.
- `Calculations`: `utils/calculations.ts`.
- `HomePage`: `app/page.tsx`.
- `BlendPage` and `BlendRecipeForm`: the blend page and the recipe form.
- `DiscountSimulator`, `BeanConfigForm`, `SearchUtils` and `CoffeePriceLabel`:
  the components of the same names.
- `LegacyCalculator`: `app.py`.
- `Scenarios`: the application's initial state and worked examples.

The two loops of `app.py` and the chart loop of the discount simulator are
methods with `while` loops. Each is proved equal to the fold or the point
function that specifies it. Everything else in the core is written with
expressions, `map`, `filter` and `reduce`, and is modelled as functions.

## Model

| member | source | states |
|---|---|---|
| Numeric.Floor | utils/calculations.ts:13 | the result is the greatest integer not above x |
| Numeric.Ceil | utils/calculations.ts:113 | the result is the least integer not below x |
| Numeric.Round | utils/calculations.ts:92 | the nearest integer, with a tie going up: r − 1/2 ≤ x < r + 1/2 |
| Numeric.CeilToTen | utils/calculations.ts:134 | `ceil(x/10)*10` is a multiple of 10 in [x, x + 10) |
| Numeric.CeilToTenIsLeast | utils/calculations.ts:134 | no multiple of 10 that is at least x lies below `ceil(x/10)*10` |
| Numeric.RoundOfInteger | utils/calculations.ts:201 | rounding an integer gives it back |
| Numeric.FloorMonotone | utils/calculations.ts:13 | floor is monotone |
| Types.MergeBean | app/page.tsx:28 | the `{ ...b, ...updates }` merge keeps the id; each of the seven patch fields replaces the bean's field when present and leaves it as it was when absent (`Overrides`) |
| Types.MergeIngredient | app/blend/page.tsx:33 | `{ ...ing, ...updates }`: each of the four patch fields replaces the ingredient's field when present and leaves it as it was when absent |
| Types.FindById | components/dashboard/BeanConfigForm.tsx:17 | `find` returns nothing iff no bean has the id; otherwise it returns the earliest bean with it |
| Types.FindOrFirst | components/dashboard/BeanConfigForm.tsx:17 | the result is the bean with the id if one exists, otherwise `beans[0]`, and nothing only for an empty list |
| Calculations.PlatformFee | utils/calculations.ts:6-44 | the fee equals `floor(price*percent/100 + fixed)` for the schedule line that the sale type and selector pick (`Schedule`) |
| Calculations.InStoreFees | utils/calculations.ts:9-17 | cash costs 0 at any price; credit card, QUICPay and transport IC all cost `floor(price*0.0324)`; PayPay costs `floor(price*0.0198)` |
| Calculations.OnlineFees | utils/calculations.ts:24-38 | BASE_STANDARD costs `floor(price*0.066 + 40)`; every other online plan has no fixed part |
| Calculations.BaseStandardAtThousand | utils/calculations.ts:26 | BASE_STANDARD costs 106 at price 1000 |
| Calculations.CustomFees | utils/calculations.ts:18-41 | CUSTOM in either channel costs `floor(price*customFeeRate/100)` |
| Calculations.FeeIgnoresOtherChannel | utils/calculations.ts:7-24 | in store the platform plan does not affect the fee; online the payment method does not |
| Calculations.FeeMonotone | utils/calculations.ts:6-44 | with a non-negative custom rate, fees are non-negative and never drop as the price rises |
| Calculations.RoastedWeight | utils/calculations.ts:49-60 | with kg ≥ 0 and both loss rates in [0, 100], the roasted weight lies in [0, kg*1000] |
| Calculations.RoastedWeightCompounds | utils/calculations.ts:54-59 | the two losses compound: the result is kg*1000*(1 − (r+h)/100 + r*h/10000) |
| Calculations.RoastedWeightOfNothing | utils/calculations.ts:54-59 | no purchase weight and loss rates of at most 100 leave no roasted weight |
| Calculations.SellableUnits | utils/calculations.ts:78 | the result is the whole number of sales units in the roasted weight |
| Calculations.RemoveTax | utils/calculations.ts:92 | the result is the nearest integer to the amount over (1 + tax rate) |
| Calculations.BaseAmount | utils/calculations.ts:91-105 | an exempt seller keeps the tax-inclusive amount; a taxable seller uses it with the tax removed and rounded |
| Calculations.CostPerBag | utils/calculations.ts:110-113 | the result is the least integer at or above the batch cost per bag plus packaging |
| Calculations.ShelfPrice | utils/calculations.ts:128-142 | a shelf price is a multiple of 10 in [raw target, raw target + 10) |
| Calculations.BreakevenUnits | utils/calculations.ts:210-213 | the result is the sentinel 999999 for a non-positive contribution, otherwise the least count whose contributions cover the investment (`IsBreakeven`) |
| Calculations.BreakevenUnique | utils/calculations.ts:210-213 | the break-even count is determined: two counts that both satisfy `IsBreakeven` are equal, so it is `ceil(investment/contribution)` |
| Calculations.BeanMetrics | utils/calculations.ts:65-230 | null iff fewer than one bag comes out; otherwise at least one bag, both prices multiples of 10, the fee is the schedule's fee at the shelf price, and isSafeMargin holds iff profit > 0 |
| Calculations.CostPerBagIsCeiling | utils/calculations.ts:91-113 | costPerBag is the ceiling of (purchase + utility base)/bags + packaging base; for an exempt seller every base is the amount as paid |
| Calculations.ShelfPricesBracketTargets | utils/calculations.ts:128-142 | both shelf prices lie in the ten-wide window above their raw targets |
| Calculations.TargetPriceRawForm | utils/calculations.ts:128-140 | the raw target times the rate is the cost per bag, times (1 + tax) only when taxable |
| Calculations.ExemptProfit | utils/calculations.ts:150-183 | exempt: profit = retail − fee − shipping − costPerBag, where shipping is 0 in store |
| Calculations.BreakevenMeaning | utils/calculations.ts:194-213 | the metrics' break-even count satisfies `IsBreakeven` for the bean's investment and its contribution per bag |
| Calculations.MetricsBreakeven | utils/calculations.ts:194-213 | the metrics' break-even count is `BreakevenUnits` of that investment and contribution |
| Calculations.ExemptBreakevenTerms | utils/calculations.ts:205-208 | exempt: the contribution is retail − fee − shipping − packaging, and the investment is the purchase plus utility as paid |
| Calculations.NoWeightNoMetrics | utils/calculations.ts:71-82 | with loss rates of at most 100 and a positive unit size, a bean with no weight has no metrics |
| HomePage.UpdateBean | app/page.tsx:27-29 | updateBean keeps the length and order and merges the updates into exactly the beans with the id |
| HomePage.UpdateUnknownIdIsIdentity | app/page.tsx:27-29 | an update for an id that no bean has leaves the list unchanged |
| HomePage.DisplayName | app/page.tsx:37 | an empty name shows as "Unnamed Bean", and any other name as itself |
| HomePage.BeanRows | app/page.tsx:33-37 | a bean gives one row iff it is priced and has metrics, and that row holds its metrics under its display name |
| HomePage.Results | app/page.tsx:32-38 | no more rows than beans; each row has at least one bag and a non-empty name |
| HomePage.ResultsSnoc | app/page.tsx:32-38 | rows follow input order: a bean added last appends its own rows at the end |
| HomePage.UnpricedBeansShowNothing | app/page.tsx:33 | a list with no priced bean shows no rows |
| HomePage.TotalInvestmentAppend | app/page.tsx:82 | the investment card's sum splits over concatenation |
| HomePage.ExpectedProfitAppend | app/page.tsx:88 | the profit card's sum splits over concatenation |
| HomePage.ExpectedProfitSingle | app/page.tsx:88 | a single row contributes profitPerBag × bags |
| HomePage.BeanRowsProfit | app/page.tsx:33-38 | a bean's rows contribute profitPerBag × bags, or 0 when filtered out or without metrics |
| HomePage.AddingABean | app/page.tsx:82-88 | adding a bean always adds its price to the investment card, but adds to the profit card only when it yields a row |
| HomePage.Roi | app/page.tsx:95-97 | ROI is 0 for an investment ≤ 0; otherwise ROI × investment = profit × 100 |
| BlendPage.UpdateRecipe | app/blend/page.tsx:26-28 | `{ ...prev, ...updates }`: each of the six patch fields replaces the recipe's field when present and leaves it as it was when absent, so an empty patch changes nothing |
| BlendPage.UpdateRecipeIdempotent | app/blend/page.tsx:26-28 | sending the same updates twice gives the same recipe as sending them once |
| BlendPage.UpdateIngredients | app/blend/page.tsx:33 | the map keeps the length and order and merges into exactly the ingredients with the id |
| BlendPage.UpdateIngredient | app/blend/page.tsx:30-35 | only the ingredients with the id change; the other fields and the length are kept |
| BlendPage.AddIngredient | app/blend/page.tsx:37-45 | exactly one ingredient is appended, priced 0 with ratio 0, and the prefix is unchanged |
| BlendPage.DropId | app/blend/page.tsx:50 | the filter keeps exactly the ingredients without the id |
| BlendPage.DropIdAppend | app/blend/page.tsx:50 | filtering commutes with concatenation, so the kept ingredients stay in order |
| BlendPage.DropIdSingle | app/blend/page.tsx:50 | a single ingredient is kept iff its id differs |
| BlendPage.DropIdLength | app/blend/page.tsx:50 | the filter drops exactly as many ingredients as carry the id |
| BlendPage.RemoveIngredient | app/blend/page.tsx:47-52 | removeIngredient keeps every other field and exactly the ingredients without the id |
| BlendPage.AvgCostAppend | app/blend/page.tsx:56 | the average-cost fold splits over concatenation, so it is the sum of pricePerKg × ratio/100 taken in order, without renormalisation |
| BlendPage.AddKeepsAvgCost | app/blend/page.tsx:37-56 | adding the new ingredient leaves the average cost unchanged |
| BlendPage.RemoveSubtractsShares | app/blend/page.tsx:47-56 | removing an id subtracts exactly the shares of the ingredients that carry it |
| BlendPage.VirtualBean | app/blend/page.tsx:58-68 | the virtual bean copies the id, name, weight and rates, and its price is the batch cost rounded to a whole amount |
| BlendPage.BlendMetrics | app/blend/page.tsx:71 | no metrics for a batch weight ≤ 0; otherwise the engine's metrics of the virtual bean |
| BlendPage.BlendGuardAgreesWithEngine | app/blend/page.tsx:71 | with loss rates of at most 100 and a positive unit size, the weight guard changes no outcome |
| BlendPage.BlendResults | app/blend/page.tsx:72 | at most one row, present iff there are metrics, carrying the recipe's name |
| BlendPage.BlendExpectedProfit | app/blend/page.tsx:119-121 | the blend's expected profit is profitPerBag × bags, or 0 without metrics |
| BlendPage.BlendRoi | app/blend/page.tsx:126-130 | ROI is 0 for a batch cost ≤ 0; otherwise ROI × unrounded batch cost = profit × 100 |
| BlendRecipeForm.TotalRatioAppend | components/dashboard/BlendRecipeForm.tsx:27 | the ratio total splits over concatenation |
| BlendRecipeForm.IsInvalidRatio | components/dashboard/BlendRecipeForm.tsx:34 | the warning shows iff the ratio total is below 99.9 or above 100.1 |
| BlendRecipeForm.AddKeepsRatioCheck | components/dashboard/BlendRecipeForm.tsx:27-34 | adding the new ingredient changes neither the ratio total nor the warning |
| BlendRecipeForm.CountDistinct | components/dashboard/BlendRecipeForm.tsx:105 | with distinct ids, exactly one ingredient carries a listed ingredient's id |
| BlendRecipeForm.CountAbsent | components/dashboard/BlendRecipeForm.tsx:105 | no ingredient carries an id that none of them has |
| BlendRecipeForm.RemoveThroughFormKeepsOne | components/dashboard/BlendRecipeForm.tsx:103-105 | a remove offered by the form takes out exactly one row, so the recipe keeps at least one ingredient |
| BlendRecipeForm.AvgCostBetweenPrices | components/dashboard/BlendRecipeForm.tsx:29 | with non-negative ratios and prices in [lo, hi], the average cost lies between lo and hi scaled by the ratio total |
| BlendRecipeForm.ShareBetween | components/dashboard/BlendRecipeForm.tsx:29 | one share lies between lo and hi scaled by its ratio |
| BlendRecipeForm.AvgCostIsAverage | components/dashboard/BlendRecipeForm.tsx:29-34 | at a ratio total of 100 the average cost lies between the cheapest and the dearest price bound |
| DiscountSimulator.ScaledPrice | components/dashboard/DiscountSimulator.tsx:28-31 | the scaled price × unit size = shelf price × bag size |
| DiscountSimulator.BagCost | components/dashboard/DiscountSimulator.tsx:36-37 | the bag cost × unit size = cost per bag × bag size |
| DiscountSimulator.DiscountedPrice | components/dashboard/DiscountSimulator.tsx:32-33 | the final price is a multiple of 10 in [discounted raw, discounted raw + 10) |
| DiscountSimulator.GenkaRate | components/dashboard/DiscountSimulator.tsx:46 | for a positive price, rate × price = bag cost × 100; otherwise the rate is 100 |
| DiscountSimulator.BadgeFor | components/dashboard/DiscountSimulator.tsx:118-120 | safe iff profit > 0 and the rate is within the wholesale target; warning iff profit > 0 and the rate is above it; danger iff profit ≤ 0 |
| DiscountSimulator.Card | components/dashboard/DiscountSimulator.tsx:28-46 | the price is `DiscountedPrice` of the scaled price at the slider's discount (a multiple of 10); the bag cost is `BagCost`; the cost rate is `GenkaRate` of bag cost and price; the fee is the schedule's fee at that price; shipping is counted only online; profit = price − bag cost − fee − shipping; the badge follows the rule for that profit and rate |
| DiscountSimulator.View | components/dashboard/DiscountSimulator.tsx:21-26 | no card iff there is no bean or the selected bean (by id, else the first) has no metrics; otherwise the card for that bean's metrics |
| DiscountSimulator.Chart | components/dashboard/DiscountSimulator.tsx:49-56 | the loop yields exactly 11 points; point k has discount 5k and the profit at that discount |
| DiscountSimulator.ChartMatchesCard | components/dashboard/DiscountSimulator.tsx:31-56 | the chart's point for 5k has the card's profit at slider 5k |
| DiscountSimulator.DeeperDiscountNoDearer | components/dashboard/DiscountSimulator.tsx:32-33 | a deeper discount never gives a dearer final price |
| DiscountSimulator.StandardBagCard | components/dashboard/DiscountSimulator.tsx:28-45 | undiscounted and at the unit size, the card shows the metrics' shelf price, fee and cost per bag |
| DiscountSimulator.StandardBagMatchesEngine | components/dashboard/DiscountSimulator.tsx:21-45 | for the selected bean the same holds, and for an exempt seller the card's profit is the engine's profit per bag |
| BeanConfigForm.DisplayPrice | components/dashboard/BeanConfigForm.tsx:30-34 | the field shows the total in total mode (also when no mode is set), and in per-kg mode the cached per-kg price or 0 |
| BeanConfigForm.PriceModeChange | components/dashboard/BeanConfigForm.tsx:19-28 | total mode changes only the mode; per-kg mode also caches round(price/weight) for a positive weight, else 0 |
| BeanConfigForm.PriceChange | components/dashboard/BeanConfigForm.tsx:36-43 | in total mode an edit sets only the total; in per-kg mode it sets the cache to v and the total to v × weight |
| BeanConfigForm.CurrentPerKg | components/dashboard/BeanConfigForm.tsx:49-51 | the cached per-kg price when there is one; otherwise, for a positive weight, the price whose product with the weight is the total; otherwise 0 |
| BeanConfigForm.WeightChange | components/dashboard/BeanConfigForm.tsx:45-56 | in total mode an edit sets only the weight; in per-kg mode it keeps the per-kg price and sets the total to per-kg × new weight |
| BeanConfigForm.EditsLeaveConsistent | components/dashboard/BeanConfigForm.tsx:36-56 | after any price or weight edit a per-kg bean's total is its cached per-kg price × weight |
| BeanConfigForm.WeightEditKeepsPerKg | components/dashboard/BeanConfigForm.tsx:45-56 | a weight edit in per-kg mode shows the kept per-kg price, and the total is that price × the new weight |
| BeanConfigForm.FormEditTargetsActiveId | components/dashboard/BeanConfigForm.tsx:17-41 | when the active id matches no bean, the form shows beans[0] but an edit leaves the list unchanged |
| SearchUtils.Includes | utils/searchUtils.ts:36 | `includes` holds iff the part occurs at some position of the text |
| SearchUtils.FirstIncluded | utils/searchUtils.ts:36 | `find` gives nothing iff no listed name occurs; otherwise it gives the earliest listed name that occurs |
| SearchUtils.DetectCountry | utils/searchUtils.ts:34-37 | empty text gives null; otherwise null iff no country occurs; a result is a listed country that occurs, and the earliest in list order |
| SearchUtils.FirstIncludedAt | utils/searchUtils.ts:36 | the search returns the name at k when k is the first listed name that occurs |
| SearchUtils.MissingCharacter | utils/searchUtils.ts:36 | a name with a character the text lacks does not occur in it |
| SearchUtils.ListOrderWins | utils/searchUtils.ts:1-36 | list order wins over text order: "ブラジルとコロンビア" is detected as コロンビア |
| SearchUtils.EarlierLongerNameWins | utils/searchUtils.ts:1-36 | "インドネシア" is Indonesia, not the later-listed インド it contains |
| CoffeePriceLabel.UnitPrices | components/dashboard/CoffeePriceLabel.tsx:50 | the map keeps the length and takes each product's unit price |
| CoffeePriceLabel.Insert | components/dashboard/CoffeePriceLabel.tsx:50 | insertion into a sorted list keeps it sorted and adds exactly that element |
| CoffeePriceLabel.SortAscending | components/dashboard/CoffeePriceLabel.tsx:50 | the sort result is ascending and a permutation of its input |
| CoffeePriceLabel.SortedUnique | components/dashboard/CoffeePriceLabel.tsx:50 | two ascending lists with the same elements are equal, so any correct sort gives the same list |
| CoffeePriceLabel.MedianSplits | components/dashboard/CoffeePriceLabel.tsx:51-54 | the lower half of the sorted list is at most the median and the upper half at least it |
| CoffeePriceLabel.RecommendedPrice | components/dashboard/CoffeePriceLabel.tsx:48-58 | there is no price iff the product list is empty |
| CoffeePriceLabel.RecommendedIgnoresOrder | components/dashboard/CoffeePriceLabel.tsx:50-56 | the recommendation depends only on which unit prices were found, not on their order |
| CoffeePriceLabel.RecommendedWithinRange | components/dashboard/CoffeePriceLabel.tsx:50-56 | with every unit price in [lo, hi], the rounded median lies in (lo − 1/2, hi + 1/2] |
| CoffeePriceLabel.RecommendedFromAnySorting | components/dashboard/CoffeePriceLabel.tsx:50-56 | the recommendation is the rounded median of any ascending arrangement of the unit prices |
| CoffeePriceLabel.SingleProduct | components/dashboard/CoffeePriceLabel.tsx:50-56 | one product is recommended at its rounded unit price |
| CoffeePriceLabel.TwoProducts | components/dashboard/CoffeePriceLabel.tsx:50-56 | two products give the rounded mean of their unit prices |
| LegacyCalculator.CollectBeans | app.py:29-55 | the input loop collects exactly `AdmittedBeans` of the rows |
| LegacyCalculator.AdmittedBeansSound | app.py:47-55 | every collected bean is an admitted row, copied, with that row's index as id, and ids increase |
| LegacyCalculator.AdmittedBeansComplete | app.py:47-55 | every admitted row is collected |
| LegacyCalculator.RejectedRowsIgnored | app.py:47 | a row without a name, a positive price or a positive weight never becomes a bean |
| LegacyCalculator.RoastedWeightG | app.py:68 | roasted grams = kg × 800 |
| LegacyCalculator.SellableUnits | app.py:72 | the result is the whole number of 100 g bags in the roasted weight |
| LegacyCalculator.ShelfPrice | app.py:83-88 | a price is a multiple of 10 in [cost/(rate/100), cost/(rate/100) + 10) |
| LegacyCalculator.PositivePrice | app.py:83-88 | a positive cost at a rate in (0, 100] gives a price of at least 10 |
| LegacyCalculator.TaxAmountRetail | app.py:99 | the contained tax × 1.08 = retail price × 0.08 |
| LegacyCalculator.RoundHalfEven | app.py:108-113 | Python's round is within 1/2, and a tie goes to the even integer |
| LegacyCalculator.RoundTenth | app.py:111 | `round(x, 1)` is within 0.05 of x |
| LegacyCalculator.Truncate | app.py:104-107 | `int()` truncates toward zero |
| LegacyCalculator.RowFor | app.py:66-114 | no row iff the bean yields no bag; otherwise the row shows the row number, name and price, the bags, both prices (multiples of 10, at least 10), the rate within 0.05 and the profit within 1/2 |
| LegacyCalculator.RowsOf | app.py:74-114 | a bean appends its row iff it yields a bag |
| LegacyCalculator.RunSimulation | app.py:62-117 | the simulation loop yields exactly the rows and both totals of the folds `Results`, `TotalPurchase` and `TotalExpected` |
| LegacyCalculator.SimulationStep | app.py:66-117 | one more bean extends each fold by exactly that bean's contribution |
| LegacyCalculator.TotalPurchaseIsRowsSum | app.py:101-116 | the purchase total is exactly the sum over the rows shown, so skipped beans add nothing |
| LegacyCalculator.TotalExpectedNearRowsSum | app.py:112-117 | the profit total is within 1/2 per row of the sum of the rounded row profits |
| LegacyCalculator.RowNumbersFollowRows | app.py:29-102 | from the five bounded form rows, the table's row numbers lie in 1..5 and every collected bean is within the pricing bounds |
| LegacyCalculator.BreakevenMeaning | app.py:92 | break-even rate × retail price × bags = purchase price × 100 |
| LegacyCalculator.BreakevenWithinTarget | app.py:83-92 | rounding the price up never lets the break-even rate exceed the retail target rate |
| LegacyCalculator.ProfitableUpToNinety | app.py:83-96 | at a retail target rate of at most 90 % the expected profit is never negative |
| Scenarios.DefaultBeansShowNothing | contexts/StorageContext.tsx:27-35 | the five initial beans have no price, so the home page starts with no rows |
| Scenarios.ExemptScenario | utils/calculations.ts:65-230 | exempt: 50000 for 5 kg at 30/50 % gives 40 bags, cost 1250, shelf 4170, wholesale 2500, fee 0, profit 2920 and 12 bags to break even |
| Scenarios.TaxableScenario | utils/calculations.ts:65-230 | taxable at 8 %: cost 1158, shelf 4170, wholesale 2510, profit 2703 and 12 bags to break even |
| Scenarios.DefaultBlendScenario | app/blend/page.tsx:56-72 | the initial blend costs 1650/kg, 16500 a batch and passes the ratio check; it gives 80 bags at 207, shelf 690, wholesale 420 and profit 483 |
| Scenarios.LegacyScenario | app.py:66-114 | the legacy row for the same bean: number 1, 40 bags, cost 1250, shelf 4170, wholesale 2500, expected profit 100120 |

## Left out

- Rendering: JSX, Tailwind classes, `toLocaleString` and `toFixed`, and the Streamlit and pandas display code (app.py:119-201). These only present the numbers.
- Floating point: every number is an exact real, so the model makes no claim of bit-exact agreement with IEEE doubles, for instance where `price*0.0324` lands next to an integer. For the same reason, `round(x, 1)` is Python's decimal rounding of the exact value, not of its binary approximation.
- Browser and network I/O are left out: the search request, `alert` and `window.open` of CoffeePriceLabel.tsx, and React state (`useState`, `useEffect`). The found products are a parameter, and so are the discount simulator's slider values and the selected id.
- `Date.now()`: the id of a new ingredient is a parameter of `BlendPage.AddIngredient`.
- NumberInput.tsx is not part of this model. Values it would parse arrive as reals.
- The translation dictionary, the language and storage contexts, Header, NavigationTabs, LanguageSwitcher and the layout are not part of this model. GlobalSettingsForm, FeeSimulator and ProfitTable only set record fields or display them.
- Selectors such as sale type, payment method and platform are closed enumerations, as the type unions declare. The `default:` arms of the fee switch are therefore reached only by CUSTOM.
- Division by zero: the engine divides by `salesUnitG`, by both target rates and, for a taxable seller, by 1 + taxRate/100. The source gives no meaning to a zero divisor. So `SettingsDefined` and `TargetRatesDefined` require exactly these divisors to be non-zero, and the discount simulator requires a non-zero unit size.
- `packagingCost || 0`: the field is always a number here, so `|| 0` is the identity.
- SearchUtils: JavaScript compares UTF-16 code units and Dafny compares characters. Every listed country name is in the Basic Multilingual Plane, where the two agree.
- HomePage.Results: membership is not stated as one quantified "iff" over the whole list. Order and content follow from `Results` being the in-order fold of `BeanRows` (`ResultsSnoc`), and `BeanRows` states the per-bean iff.
- BlendRecipeForm.RemoveThroughFormKeepsOne: assumes distinct ingredient ids. Two ingredients sharing an id would both be dropped by one click and could empty the recipe.
- BeanConfigForm.FormEditTargetsActiveId: records a quirk rather than a defect. The form shows `beans[0]` when the active id matches nobody, but it sends edits to the active id, where they change nothing.
- LegacyCalculator.RowNumbersFollowRows: the widget bounds (price and weight at least 0, rates in [1, 100]) are stated as a precondition, because the widgets live outside app.py's arithmetic.
- LegacyCalculator.ProfitableUpToNinety: holds for the exact rates. With doubles, a price that lands next to a multiple of 10 can round differently.
