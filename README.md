# Customer rebates for SilverCart, modelled in Dafny

This project models the customer-rebate plugin of the SilverCart shop
system, in both of its generations. The namespaced generation lives under
`src/` and the older one under `code/`. The plugin gives a logged-in
customer a discount ("customer rebate") through the customer's groups.
Each group may offer rebate rules with a validity window, an absolute or
percent value, a minimum order value, a newsletter restriction and an
optional restriction to product groups. The plugin:

- picks, per group, the rebate valid now (`ValidFrom < now < ValidUntil`),
  most recently started first;
- picks among the customer's groups the candidate worth strictly most for
  the cart, and drops it unless it passes three gates;
- values a rule for the cart. The value is capped at its base: the cart
  total, or the total of the positions whose product group (or a mirror
  group) is related to the rule;
- hands the cart one negative discount position. When the discount's tax
  cannot be carried by the position's own rate, the position is split
  greedily across the cart's per-rate totals, largest first.

Both generations guard against re-entry through the flag
`doNotCallThisAsShoppingCartPlugin`, and memoize carts, positions, prices
and splits. The namespaced rebate also memoizes its related groups; the
older one looks them up again on every call.

Modules, one file each:

| file | module | models |
|---|---|---|
| `types.dfy` | `RebateTypes` | records, cart entries, tax-rate summary, discount lines, `round(x, 2)` |
| `valuation.dfy` | `Valuation` | product matching, position numbering, the absolute/percent value formulas |
| `validity.dfy` | `RebateValidity` | a group's valid rebate (both `GroupExtension` classes) |
| `selection.dfy` | `RebateSelection` | best rebate over the member's groups, the three gates |
| `tax_split.dfy` | `TaxSplit` | tax amount, per-rate buckets, descending sort, greedy allocation |
| `cart_position.dfy` | `CartPositions` | the discount position class with its memo fields and split |
| `customer_rebate.dfy` | `CustomerRebateModel` | the rebate class of each generation, with flag and memo fields |
| `member.dfy` | `Members` | the member extension of each generation, with its cache |

Stateful parts are classes whose fields are the memos and flags the source
reads and writes:
- the rebate's flag and its `shoppingCart`, `rebatePositions` and
  `relatedProductGroups` memos;
- the position's `priceTotal` and `splittedPositions` memos, which the
  position classes declare, and `priceNetTotal`, which `getPriceNetTotal`
  reads and writes although neither class declares it;
- the member extension's `customerRebate` cache and flag.

The namespaced member extension's flag is static. It is a `PluginGuard`
object shared by every extension built with it.

Each loop of the source is a `while` loop. It is proved equal to a function
on values, and the properties are proved about that function.

The two position classes (`src/Model/ShoppingCartPosition.php` and
`code/base/SilvercartCustomerRebateShoppingCartPosition.php`) have the
same logic for `getPriceTotal`, `getPriceNetTotal`, `setPriceTotal`,
`getTaxAmount` and `splitForTaxRates`. Inside the split they differ in how
a piece's tax is fetched by rate (an ORM `filter` on `Rate` in the
namespaced class, a `get_one` with a `Rate = %f` condition in the older one)
and in spelling the list count (`Count()` and `count()`). Their
`getCustomerRebate` lookups differ in substance. So one class,
`CartPositions.ShoppingCartPosition`, models both. Its callers pass in the rebate the position sees, and there is
one lookup function per generation.

Framework collaborators are parameters:
- the current member and whether one is logged in;
- the member's cart, as entries plus the two totals the cart reports;
- the current time;
- whether the page is a frontend page;
- the locale;
- the price type (`gross`);
- the cart's tax-rate summary and its most valuable rate.

Money is `real`, tax rates are whole percentages and dates are integer
timestamps.

Behaviours of the code worth knowing:
- The split's second test adds the own rate's `AmountRaw` to the
  position's tax amount (src/Model/ShoppingCartPosition.php:331-332). It
  does not compare prices.
- In `ShoppingCartPositions`, an empty cart or a member without a rebate
  leaves the rebate's flag raised, because `getShoppingCart` raised it
  (src/Model/CustomerRebate.php:505-528).
- `getRebateValueForShoppingCart` leaves the flag raised when the logged-in
  member has no cart (src/Model/CustomerRebate.php:288-316).

## Model

| member | source | states |
|---|---|---|
| Valuation.MatchPosition | src/Model/CustomerRebate.php:381-403 | the mirror-group search answers true exactly when the product's group, or one of its mirror groups, is related to the rule |
| Valuation.CollectRebatePositions | code/base/SilvercartCustomerRebate.php:377-404 | the numbering loop with inline matching yields exactly the matching positions of `MatchingPositions` |
| Valuation.MatchingPositionsSound | src/Model/CustomerRebate.php:355-366 | every selected position is a matching product entry, found at its 1-based number in the whole cart |
| Valuation.MatchingPositionsComplete | code/base/SilvercartCustomerRebate.php:381-401 | every matching product entry is selected, numbered by its 1-based index; discount entries are skipped but counted |
| Valuation.MatchingPositionsOrdered | src/Model/CustomerRebate.php:351-369 | selected positions keep cart order: numbers strictly increase and lie in 1..cart length |
| Valuation.AccumulateRebateValue | src/Model/CustomerRebate.php:323-344 | the accumulation loop gives `min(raw, total of the positions)`, with raw the absolute value or the sum of the percentages |
| Valuation.PercentOfPositionsScales | code/base/SilvercartCustomerRebate.php:361-365 | adding `price / 100 * Value` position by position equals the positions' total `/ 100 * Value` |
| Valuation.RestrictedPercentIsPercentOfBase | src/Model/CustomerRebate.php:332-341 | a restricted percent rule is `min(base * Value / 100, base)` over the matching positions' total |
| Valuation.UnrestrictedValueBounds | src/Model/CustomerRebate.php:296-306 | the unrestricted value lies between 0 and the cart total; an absolute value within the total, or a percentage of at most 100, is granted in full |
| Valuation.RestrictedValueBounds | code/base/SilvercartCustomerRebate.php:350-370 | with non-negative prices and value, the restricted value lies between 0 and the matching positions' total |
| RebateValidity.ValidCustomerRebate | src/Extensions/GroupExtension.php:100-106 | the rebate answered belongs to the group and has `ValidFrom < now < ValidUntil`; no qualifying rebate started later; None exactly when none qualifies |
| RebateValidity.HasValidCustomerRebate | code/customer/SilvercartCustomerRebateGroup.php:91-99 | true exactly when some rebate of the group is valid now |
| RebateValidity.ValidCustomerRebateIsFirst | code/customer/SilvercartCustomerRebateGroup.php:109-118 | under the default sort `ValidFrom DESC`, the answer is the first qualifying rebate: every earlier qualifying one started strictly before it |
| RebateSelection.SelectGreatestRebate | src/Extensions/MemberExtension.php:59-69 | the loop over the member's groups yields the best-so-far fold, which replaces the best only for a strictly greater value |
| RebateSelection.BestRebateExists | code/customer/SilvercartCustomerRebateCustomer.php:76-85 | a rebate is selected exactly when some group offers a valid rebate |
| RebateSelection.BestRebateIsFirstGreatest | code/customer/SilvercartCustomerRebateCustomer.php:77-85 | the selected rebate is some group's candidate, worth at least every candidate, and strictly more than every earlier group's candidate (ties keep the earlier group) |
| RebateSelection.CheckRebateConditions | src/Extensions/MemberExtension.php:89-112 | returns either the rebate unchanged or None, and None in gives None out |
| RebateSelection.CheckRebateConditionsAccepts | code/customer/SilvercartCustomerRebateCustomer.php:104-125 | a rebate passes exactly when the total without rebates reaches the minimum order value (equality passes), the newsletter restriction is met, and a restricted rule has a matching product position in the cart |
| RebateSelection.CustomerRebateForSound | src/Extensions/MemberExtension.php:55-76 | the member's rebate is valid now for one of their groups, is first-greatest among the candidates and passes all gates; without valid candidates there is none |
| Members.MemberExtension.CheckRebateConditions | src/Extensions/MemberExtension.php:89-112 | the gate checks give `CheckRebateConditions`; the static flag is raised during the check and clear afterwards |
| Members.MemberExtension.GetCustomerRebate | src/Extensions/MemberExtension.php:55-76 | an existing cache entry for the owner id is answered unchanged; otherwise the checked best rebate is cached under that id, or None (also cached) while the static flag is raised |
| Members.MemberExtension.HasCustomerRebate | src/Extensions/MemberExtension.php:41-48 | true exactly when the cached answer for the owner is a rebate |
| Members.SilvercartCustomerRebateCustomer.CheckRebateConditions | code/customer/SilvercartCustomerRebateCustomer.php:104-125 | the gate checks give `CheckRebateConditions`; the instance flag is clear on exit whenever a rebate was checked |
| Members.SilvercartCustomerRebateCustomer.GetCustomerRebate | code/customer/SilvercartCustomerRebateCustomer.php:72-91 | a cached rebate is answered unchanged; an empty cache is recomputed on every call, so a None answer is never remembered |
| Members.SilvercartCustomerRebateCustomer.HasCustomerRebate | code/customer/SilvercartCustomerRebateCustomer.php:57-65 | true exactly when the answer of `getCustomerRebate` is a rebate |
| TaxSplit.GrossTaxIsShareOfPrice | src/Model/ShoppingCartPosition.php:277-281 | for gross prices the tax is the share `rate / (100 + rate)` of the price |
| TaxSplit.TaxOfDiscountBounds | code/base/SilvercartCustomerRebateShoppingCartPosition.php:268-281 | the tax of a discount is non-positive and no larger in magnitude than the discount (gross, or net rates up to 100 %) |
| TaxSplit.AmountRawOf | src/Model/ShoppingCartPosition.php:331 | the `AmountRaw` of the first entry with the position's rate, wherever it stands; 0 when there is none |
| TaxSplit.CollectTaxAmounts | src/Model/ShoppingCartPosition.php:338-349 | the bucket loop builds the per-rate dictionary of product prices, skipping discount entries |
| TaxSplit.BucketsOfTotals | code/base/SilvercartCustomerRebateShoppingCartPosition.php:337-349 | each bucket holds the total price of the cart's product positions at its rate |
| TaxSplit.BucketsOfRates | src/Model/ShoppingCartPosition.php:343-347 | one bucket per rate, and the rates are exactly those of the product positions |
| TaxSplit.BucketsOfNonNegative | src/Model/ShoppingCartPosition.php:339-349 | with non-negative product prices every bucket is non-negative |
| TaxSplit.SortDescendingCorrect | src/Model/ShoppingCartPosition.php:351 | `arsort`: the buckets ordered by amount, descending, as a permutation of the input |
| TaxSplit.SortDescendingStable | src/Model/ShoppingCartPosition.php:351 | buckets of equal amount keep their input (first-seen) order, so a tie drains the rate seen first |
| TaxSplit.AllocateGreedily | src/Model/ShoppingCartPosition.php:353-372 | the allocation loop (stopping once the remainder is 0) yields the pieces and remainder of `Allocate` |
| TaxSplit.AllocateConserves | code/base/SilvercartCustomerRebateShoppingCartPosition.php:353-366 | the pieces plus the final remainder add up to the discount being split |
| TaxSplit.AllocatePieceRates | code/base/SilvercartCustomerRebateShoppingCartPosition.php:367-377 | piece k is flagged as split and carries the rate of bucket k; no more pieces than buckets |
| TaxSplit.AllocateWithinBuckets | src/Model/ShoppingCartPosition.php:359-365 | for a discount and non-negative buckets, no piece drives its bucket below 0, pieces are discounts, leftover remains only when all buckets are used |
| TaxSplit.AllocateRemainder | src/Model/ShoppingCartPosition.php:353-372 | over non-negative buckets the remainder is 0 exactly when the buckets together absorb the discount, and otherwise the discount plus their total |
| TaxSplit.SplitLinesProperties | code/base/SilvercartCustomerRebateShoppingCartPosition.php:330-379 | a split position yields pieces at the product rates, each within its bucket, totalling the discount when the cart's product total covers it and minus that total otherwise |
| CartPositions.CustomerRebateOfPosition | src/Model/ShoppingCartPosition.php:305-312 | the position sees a rebate exactly when someone is logged in and the member has one |
| CartPositions.LegacyCustomerRebateOfPosition | code/base/SilvercartCustomerRebateShoppingCartPosition.php:297-309 | the older position sees a rebate exactly when someone is logged in, the locale is `de_DE` and the member has one |
| CartPositions.LegacyRebateOnlyInGerman | code/base/SilvercartCustomerRebateShoppingCartPosition.php:301-305 | outside `de_DE` the older lookup finds nothing, where the namespaced one would find the member's rebate |
| CartPositions.FreshPriceTotal | code/base/SilvercartCustomerRebateShoppingCartPosition.php:205-215 | a fresh price total is 0 without a rebate; for a non-negative rebate value it is a discount within half a cent of its negation |
| CartPositions.ShoppingCartPosition.SetPriceTotal | src/Model/ShoppingCartPosition.php:240-244 | fixes the price total; no other field changes |
| CartPositions.ShoppingCartPosition.GetPriceTotal | src/Model/ShoppingCartPosition.php:205-216 | the negated rebate value rounded to cents (0 without rebate), computed once and then answered from the memo |
| CartPositions.ShoppingCartPosition.GetTaxAmount | src/Model/ShoppingCartPosition.php:274-288 | 0 without a tax; gross `p - p / (100 + r) * 100`; net `p * r / 100`; the price is only computed when there is a tax |
| CartPositions.ShoppingCartPosition.GetPriceNetTotal | code/base/SilvercartCustomerRebateShoppingCartPosition.php:222-229 | `round(priceTotal - taxAmount, 2)`, computed once and then answered from the memo |
| CartPositions.ShoppingCartPosition.SplitForTaxRates | src/Model/ShoppingCartPosition.php:325-378 | the first call yields `SplitLines` (the position alone for one tax rate or a non-negative own-rate check, nothing without a rebate, else the greedy pieces over the descending buckets) and memoizes it; later calls answer the memo whatever their arguments |
| CartPositions.NetTotalOfDiscount | src/Model/ShoppingCartPosition.php:223-231 | the net total of a discount lies between the discount (less half a cent) and 0 |
| CartPositions.SplitLinesUnsplit | code/base/SilvercartCustomerRebateShoppingCartPosition.php:326-333 | one tax rate keeps the position alone, as does a position without tax, whether or not there is a rebate; a split without a rebate to ask yields nothing |
| CartPositions.SplitExample | src/Model/ShoppingCartPosition.php:353-372 | 60.00 at 19 % and 40.00 at 7 % with a 70.00 discount: -60.00 at 19 % and -10.00 at 7 % |
| CustomerRebateModel.CustomerRebate.GetRelatedProductGroups | src/Model/CustomerRebate.php:264-281 | the related groups are looked up once and then answered from the memo |
| CustomerRebateModel.CustomerRebate.PositionIsMatchingWithRebate | src/Model/CustomerRebate.php:381-403 | matches exactly when the product's group or a mirror group is related |
| CustomerRebateModel.CustomerRebate.GetRebatePositions | src/Model/CustomerRebate.php:351-369 | the matching positions numbered by their place in the cart; the flag and other memos are untouched |
| CustomerRebateModel.CustomerRebate.GetRebateValueForShoppingCartPositions | src/Model/CustomerRebate.php:323-344 | the restricted rule's value over the matching positions |
| CustomerRebateModel.CustomerRebate.GetRebateValueForShoppingCart | src/Model/CustomerRebate.php:288-316 | 0 and no flag or memo change while the flag is set or nobody is logged in; for a cart, the rule's value with the flag clear on exit and the related groups memoized; without a cart 0 with the flag left raised |
| CustomerRebateModel.CustomerRebate.GetShoppingCart | src/Model/CustomerRebate.php:410-417 | raises the flag; the memoized cart, filled from the current one while empty |
| CustomerRebateModel.CustomerRebate.ShoppingCartInit | src/Model/CustomerRebate.php:449-460 | false exactly when the flag is clear and the page is not a frontend page |
| CustomerRebateModel.CustomerRebate.PerformShoppingCartConditionsCheck | src/Model/CustomerRebate.php:475-487 | true exactly when the flag is clear, the cart has positions and the member has a rebate; a clear flag stays clear |
| CustomerRebateModel.CustomerRebate.ShoppingCartPositions | src/Model/CustomerRebate.php:505-528 | nothing when not taxable or flagged; otherwise the split of a new position at the most valuable rate, built once and then answered from the memo, with the flag lowered |
| CustomerRebateModel.SilvercartCustomerRebate.GetRelatedProductGroups | code/base/SilvercartCustomerRebate.php:295-309 | the related groups, looked up and stored again on every call |
| CustomerRebateModel.SilvercartCustomerRebate.GetRebatePositions | code/base/SilvercartCustomerRebate.php:377-404 | the matching positions numbered by their place in the cart |
| CustomerRebateModel.SilvercartCustomerRebate.GetRebateValueForShoppingCartPositions | code/base/SilvercartCustomerRebate.php:350-370 | the restricted rule's value over the matching positions |
| CustomerRebateModel.SilvercartCustomerRebate.GetRebateValueForShoppingCart | code/base/SilvercartCustomerRebate.php:316-343 | the same flag discipline and value as the namespaced generation |
| CustomerRebateModel.SilvercartCustomerRebate.GetShoppingCart | code/base/SilvercartCustomerRebate.php:411-417 | raises the flag; the memoized cart, filled from the current one while empty |
| CustomerRebateModel.SilvercartCustomerRebate.ShoppingCartInit | code/base/SilvercartCustomerRebate.php:447-457 | false when the flag is clear and the page is not a frontend page, null (None) otherwise |
| CustomerRebateModel.SilvercartCustomerRebate.PerformShoppingCartConditionsCheck | code/base/SilvercartCustomerRebate.php:472-486 | false while flagged; otherwise whether the memoized cart has positions and the logged-in member has a rebate; a clear flag stays clear |
| CustomerRebateModel.SilvercartCustomerRebate.ShoppingCartPositions | code/base/SilvercartCustomerRebate.php:504-525 | as the namespaced hook, with the new position's rebate found only in the German locale |
| CustomerRebateModel.LegacyLinesOutsideGerman | code/base/SilvercartCustomerRebateShoppingCartPosition.php:205-215 | outside `de_DE` the older plugin's discount is 0 and, with one rate or a non-negative own-rate `AmountRaw`, listed as one unsplit line |
| CustomerRebateModel.AbsoluteRebateLines | src/Model/CustomerRebate.php:296-306 | an unrestricted absolute rule within the cart total is worth its value; the discount position's total is that value negated and rounded (-30.00 for a 30.00 rule), and with one tax rate it is listed unsplit |
| RebateTypes.Round2Close | src/Model/ShoppingCartPosition.php:213 | `round(x, 2)` moves a value by at most half a cent |
| RebateTypes.Round2Symmetric | src/Model/ShoppingCartPosition.php:213 | `round(x, 2)` rounds halves away from zero: rounding a negated value gives the negated rounding |

## Left out

- SQL translation workaround of `getRelatedProductGroups`: the related set is the rule's `productGroups` input. Only the memo behaviour is modelled.
- `updatePositionIsMatchingWithRebate` extension hook: foreign code with unknown behaviour; the match is what the loop computes.
- `Map` quirk: `map()` results are used as PHP arrays without `toArray()` in several places. The model reads each of them as membership in a key set:
  - the namespaced mirror-group check passes a `Map` object to `array_key_exists` (src/Model/CustomerRebate.php:395);
  - the older `getRebatePositions` takes `$validProductGroups` from `->map()` (code/base/SilvercartCustomerRebate.php:380);
  - it passes that object to `array_key_exists` in the direct-group check (code/base/SilvercartCustomerRebate.php:389);
  - it passes `->map()` of the mirror groups to `array_keys` (code/base/SilvercartCustomerRebate.php:392);
  - it passes `$validProductGroups` to `array_key_exists` in the mirror check (code/base/SilvercartCustomerRebate.php:394).
  What the framework's `map()` returns for the older generation is not part of this model.
- CartPositions.ShoppingCartPosition.priceNetTotal: models a property neither position class declares (src/Model/ShoppingCartPosition.php:225-230, code/base/SilvercartCustomerRebateShoppingCartPosition.php:223-228). It reaches the framework's magic property access, and the model takes it to work as a plain field.
- Collaborators: `Member::currentUser()`, `Controller::curr()->isFrontendPage`, `i18n::get_locale()`, `Config::PriceType()`, `getTaxRatesWithoutFeesAndCharges`, `getMostValuableTaxRate` and `getAmountTotalWithoutFees` are parameters. The member whose rebate is selected is taken to be the logged-in current member, and the cart the rebate reads is that member's cart.
- `NOW()` is the parameter `now`.
- The query's ordering of rebates with equal `ValidFrom` is taken to be the given sequence order.
- The `Tax` lookups by rate (`find('Rate', …)`, `Tax::get()->filter('Rate', …)`) are taken to succeed: pieces carry their bucket's rate, and a missing summary entry counts as 0.
- PHP floats: money is exact `real`, and `round($x, 2)` is rounding half away from zero to cents.
- Rates that are not whole percentages: `TaxRate` is a whole percentage, and the model does not cover fractional rates. For such rates the source does things the model cannot express:
  - PHP truncates the float keys of `$amounts` (src/Model/ShoppingCartPosition.php:343-347), so for example 7.5 % and 7 % products are merged into one bucket with key 7;
  - the rate stays a float in `getTaxAmount` and in the summary lookup (src/Model/ShoppingCartPosition.php:274-288, :331), and the piece's tax lookup by the truncated key (:369; code/base/SilvercartCustomerRebateShoppingCartPosition.php:369-375 with `Rate = %f`) finds the tax whose rate equals that whole number, if one exists, and otherwise none. So a merged piece carries the 7 % tax, and a piece from only 7.5 % products gets no tax unless a 7 % tax exists.
- `arsort` on equal amounts: modelled as stable (PHP 8), keeping first-seen order (`TaxSplit.SortDescendingStable`); the instability of older PHP versions is not modelled.
- Split pieces and cart positions are values (`RebateLine`, `CartEntry`), not objects. Not modelled:
  - the pieces' own memo fields;
  - the `PositionNum` written onto cart positions;
  - the effect of `splitForTaxRates` on the member's rebate object, which fetches its cart and lowers its flag. The split takes that cart's entries from the caller.
- Rebate objects inside member selection: the group rebates are compared and checked as rule values. The group rebates are taken to be fresh records with a clear flag and empty memos, so they value themselves by `RebateValueForCart`. The older generation fetches them through `DataObject::get_one`, whose per-request caching may hand back an object with the flag and memos earlier calls left; that framework behaviour is not part of this model.
- `loadObjectForShoppingCart` and `TaxableShoppingCartPositions`: thin hooks (a flag-guarded call to the member's lookup, and a call with `taxable = true`).
- CMS fields, labels, titles and descriptions, translations, and the product group page extensions: framework UI and ORM declarations.
- Missing cart: `ShoppingCartPositions` and the older `performShoppingCartConditionsCheck` dereference the cart, so their cart parameter is a `Cart` rather than an optional one.
