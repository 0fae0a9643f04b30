# Buy-get promotion actions, modelled in Dafny

This project models the buy-get action computer of the Medusa promotion engine
(`packages/promotion/src/utils/compute-actions/buy-get.ts`). Given a BUYGET promotion, the
line items of a cart and the caller's map of value already applied per item, the computer:

1. throws an `INVALID_DATA` error when the items context is missing;
2. returns no actions when the buy or target rules are not arrays;
3. sums the quantities of the items that satisfy the buy rules, and returns no actions unless
   `buy_rules_min_quantity` and `apply_to_quantity` are both truthy and the sum reaches the minimum;
4. sorts the items that satisfy the target rules by unit price, dearest first;
5. walks that list handing out `apply_to_quantity` discounted units. Each visited item takes
   `min(quantity, remaining)` units. The loop breaks at the first item whose amount
   `unit_price * units` is not positive. An amount the budget check rejects is replaced by the
   budget check's own action, and the loop continues. Any other amount becomes an
   `ADD_ITEM_ADJUSTMENT` and is added to the item's entry in the caller's map.

The same file holds `sortByBuyGetType`, a comparator that puts BUYGET promotions first.

Files:

- `Wrappers.dfy`: `Option` and `Result`.
- `PromotionTypes.dfy`: items, rules, promotions and computed actions. JavaScript truthiness of
  an optional number is `Truthy`: both `undefined` and `0` are falsy.
- `PriceOrder.dfy`: the stable sort by descending unit price.
- `BuyGet.dfy`: the computer. The pure prefix is a set of functions (`MatchingItems`,
  `ValidQuantity`, `TargetItems`, `BuyConditionMet`). The allocation loop is specified by the
  function `Allocate`, which returns one `Step` per visited item. `Plan` is the whole
  computation as a function. The caller's map is the class `PromoValueMap`.
  `GetComputedActionsForBuyGet` and its loop `AllocateActions` are methods proved against
  `Plan`, `ActionsOf` and `ApplySteps`.
- `BuyGetProperties.dfy`: lemmas about the steps, the actions and the map.

The two collaborators whose code is not part of this model are parameters:

- `matches(rules, item)` stands for `areRulesValidForContext`;
- `budget(promotion, amount)` stands for `computeActionForBudgetExceeded`.

The budget check's action has its own type parameter `A`, so the model says nothing about what
that action contains.

Two observations about the code as written, both stated as lemmas:

- the guard `newRemainingQtyToApply < 0` at line 60 can never fire, because
  `remaining - min(quantity, remaining)` is never negative. The loop therefore breaks only on
  a non-positive amount (`AllocateStopsAtFirstNonPositive`, `StepFollows`);
- the remaining quantity falls with every visited item only when quantities are non-negative.
  An item with a negative quantity and a negative price has a positive amount and adds units
  back (`NegativeQuantityRaisesRemaining`).

## Model

| member | source | states |
|---|---|---|
| `PriceOrder.InsertByPrice` | packages/promotion/src/utils/compute-actions/buy-get.ts:48-50 | inserting into a price-descending list keeps it price-descending and adds exactly the one item (multiset) |
| `PriceOrder.SortByPriceDesc` | packages/promotion/src/utils/compute-actions/buy-get.ts:48-50 | the sorted list is in non-increasing unit-price order and is a permutation of the input |
| `PriceOrder.SortByPriceDescStable` | packages/promotion/src/utils/compute-actions/buy-get.ts:48-50 | the sort is stable: for every price, the items of that price keep their input order |
| `BuyGet.MatchingItems` | packages/promotion/src/utils/compute-actions/buy-get.ts:34-35 | the filter keeps exactly the items that satisfy the rules, and is no longer than the input |
| `BuyGet.MatchingItemsCount` | packages/promotion/src/utils/compute-actions/buy-get.ts:34-35 | every matching item is kept as many times as it occurs in the input, and no other item is kept |
| `BuyGet.MatchingItemsAppend` | packages/promotion/src/utils/compute-actions/buy-get.ts:46-47 | filtering a concatenation is the concatenation of the filtered parts, so the kept items stay in their input order |
| `BuyGet.SumQuantities` | packages/promotion/src/utils/compute-actions/buy-get.ts:36 | definition: the quantities added up from 0; `SumQuantitiesAppend` and `ValidQuantityBounds` state its properties |
| `BuyGet.SumQuantitiesAppend` | packages/promotion/src/utils/compute-actions/buy-get.ts:36 | the sum splits over concatenation, so folding from the left as `reduce` does gives the same total |
| `BuyGet.ValidQuantity` | packages/promotion/src/utils/compute-actions/buy-get.ts:34-36 | definition: the summed quantity of the items satisfying the buy rules; `ValidQuantityBounds` bounds it |
| `BuyGet.RulesAreArrays` | packages/promotion/src/utils/compute-actions/buy-get.ts:30 | definition: the application method is present and both rule lists are arrays; `UnmetBuyConditionYieldsNothing` states the early return |
| `BuyGet.BuyConditionMet` | packages/promotion/src/utils/compute-actions/buy-get.ts:30-42 | definition: both rule lists are arrays, both quantities are truthy and the minimum is at most the bought quantity; `UnmetBuyConditionYieldsNothing` and `GetComputedActionsForBuyGet` state its effect |
| `BuyGet.TargetItems` | packages/promotion/src/utils/compute-actions/buy-get.ts:46-50 | the target list holds exactly the items satisfying the target rules (as a multiset), in non-increasing price order |
| `BuyGet.PromoValueMap.Get` | packages/promotion/src/utils/compute-actions/buy-get.ts:55 | the lookup is present exactly when the id is a key, and then holds that key's value |
| `BuyGet.PromoValueMap.Set` | packages/promotion/src/utils/compute-actions/buy-get.ts:77 | setting an entry changes that key to the new value and no other key |
| `BuyGet.Allocate` | packages/promotion/src/utils/compute-actions/buy-get.ts:52-64 | definition of the loop's walk as one step per visited item; `AllocateFollowsTargets`, `AllocateStepArithmetic` and `AllocateStopsAtFirstNonPositive` state what it visits, what each step holds and why it stops |
| `BuyGet.Plan` | packages/promotion/src/utils/compute-actions/buy-get.ts:11-88 | fails exactly when the items context is missing; otherwise no steps when the gate fails and the loop's steps over the sorted targets when it passes; `UnmetBuyConditionYieldsNothing` and the `BuyGetVisitsTargetsByPrice`, `BuyGetActionsPerItem` and `BuyGetValueMapEffect` lemmas state its properties |
| `BuyGet.ActionOf` | packages/promotion/src/utils/compute-actions/buy-get.ts:71-84 | definition: the budget check's action when it returns one, else an ADD_ITEM_ADJUSTMENT; `BuyGetActionsPerItem` states it per item |
| `BuyGet.ActionsOf` | packages/promotion/src/utils/compute-actions/buy-get.ts:72-84 | one action per step; `ActionsOfIndex` states that action `k` is the action of step `k` |
| `BuyGet.ActionsOfIndex` | packages/promotion/src/utils/compute-actions/buy-get.ts:72-84 | the actions are pushed in step order: action `k` is the action of step `k` |
| `BuyGet.Lookup` | packages/promotion/src/utils/compute-actions/buy-get.ts:55 | definition: the map's value for the id, or 0 when the id is absent; `ApplyStepsEffect` states its use |
| `BuyGet.ApplyStep` | packages/promotion/src/utils/compute-actions/buy-get.ts:77 | definition: an adjusted item's entry becomes its old value plus the amount; `ApplyStepsEffect` states the accumulated effect |
| `BuyGet.ApplySteps` | packages/promotion/src/utils/compute-actions/buy-get.ts:55-77 | definition: the map after the steps in order; `ApplyStepsEffect` gives its value key by key |
| `BuyGet.AllocateActions` | packages/promotion/src/utils/compute-actions/buy-get.ts:52-85 | the loop emits the actions of the steps `Allocate` takes and leaves the caller's map equal to the old map with those steps applied |
| `BuyGet.GetComputedActionsForBuyGet` | packages/promotion/src/utils/compute-actions/buy-get.ts:11-88 | a missing items context fails with INVALID_DATA even when the rules are malformed, and the map is unchanged; an unmet or malformed buy condition gives no actions and leaves the map unchanged; otherwise the actions and the new map are those of `Plan` |
| `BuyGet.SortByBuyGetType` | packages/promotion/src/utils/compute-actions/buy-get.ts:90-101 | -1 exactly when only `a` is BUYGET, 1 exactly when only `b` is, 0 exactly when both or neither are |
| `BuyGetProperties.AllocateFollowsTargets` | packages/promotion/src/utils/compute-actions/buy-get.ts:54-64 | the loop visits a prefix of the sorted target list, in order, one step per item |
| `BuyGetProperties.AllocateStepArithmetic` | packages/promotion/src/utils/compute-actions/buy-get.ts:55-69 | each step takes `min(quantity, remaining before)` units, leaves a remainder of at least 0, is worth `unit_price * units > 0`, and carries the budget check's verdict on that amount |
| `BuyGetProperties.AllocateStopsAtFirstNonPositive` | packages/promotion/src/utils/compute-actions/buy-get.ts:56-62 | when the loop stops before the end of the list, the next item's amount is not positive (the break is the only early exit) |
| `BuyGetProperties.AllocateMultiplierTotal` | packages/promotion/src/utils/compute-actions/buy-get.ts:52-64 | the units handed out plus the units left equal the initial quantity, so their sum never exceeds a non-negative starting quantity |
| `BuyGetProperties.AllocateRemainingDecreases` | packages/promotion/src/utils/compute-actions/buy-get.ts:56-64 | with non-negative quantities and start, every visited item takes at least one unit, so the remaining quantity strictly falls and stays at least 0 |
| `BuyGetProperties.NegativeQuantityRaisesRemaining` | packages/promotion/src/utils/compute-actions/buy-get.ts:56-64 | a negative quantity at a negative price is a positive amount that raises the remaining quantity from 1 to 2 |
| `BuyGetProperties.AllocateStopsWhenExhausted` | packages/promotion/src/utils/compute-actions/buy-get.ts:56-62 | with no units left, the next item (quantity at least 0) ends the loop |
| `BuyGetProperties.NonPositivePriceStops` | packages/promotion/src/utils/compute-actions/buy-get.ts:56-62 | a first target priced at most 0, with a quantity of at least 0 and a remaining quantity of at least 0, ends the loop at once, even if later items have other prices |
| `BuyGetProperties.ApplyStepsEffect` | packages/promotion/src/utils/compute-actions/buy-get.ts:55-77 | the new map's keys are the old keys plus the adjusted ids; an adjusted id's value is its old value (0 if absent) plus all amounts recorded for it; every other key keeps its value |
| `BuyGetProperties.AdjustedTotalPositive` | packages/promotion/src/utils/compute-actions/buy-get.ts:77 | with positive amounts, every adjusted id's recorded total is positive |
| `BuyGetProperties.BuyGetVisitsTargetsByPrice` | packages/promotion/src/utils/compute-actions/buy-get.ts:46-54 | the visited items are the first items of the target list; each one is an item of the context that satisfies the target rules; they come in non-increasing price order |
| `BuyGetProperties.BuyGetActionsPerItem` | packages/promotion/src/utils/compute-actions/buy-get.ts:66-84 | one action per visited item: either an ADD_ITEM_ADJUSTMENT for that item's id with a positive amount, the promotion's code, and no budget action; or exactly the budget check's action for that amount |
| `BuyGetProperties.BuyGetUnitsBounded` | packages/promotion/src/utils/compute-actions/buy-get.ts:52-64 | the units handed out never exceed a positive `apply_to_quantity` |
| `BuyGetProperties.BuyGetValueMapEffect` | packages/promotion/src/utils/compute-actions/buy-get.ts:55-77 | the map gains exactly the adjusted ids as keys; each adjusted id's value rises by the positive total of its adjustments; every other key keeps its value |
| `BuyGetProperties.ValidQuantityBounds` | packages/promotion/src/utils/compute-actions/buy-get.ts:34-36 | with non-negative quantities, the quantity bought under the buy rules lies between 0 and the cart's total quantity |
| `BuyGetProperties.UnmetBuyConditionYieldsNothing` | packages/promotion/src/utils/compute-actions/buy-get.ts:30-44 | a missing application method, a buy or target rule list that is not an array, an unset or zero minimum or apply quantity, or a minimum above the bought quantity each give no action and leave the caller's map unchanged |
| `BuyGetProperties.ScenarioDearestTargetIsDiscounted` | packages/promotion/src/utils/compute-actions/buy-get.ts:34-85 | buy 2, get 1, with targets priced 50 and 100: one ADD_ITEM_ADJUSTMENT of 100 on the 100-priced item, nothing on the other |
| `BuyGetProperties.SortByBuyGetTypeAntisymmetric` | packages/promotion/src/utils/compute-actions/buy-get.ts:90-101 | `cmp(a, b) == -cmp(b, a)` |
| `BuyGetProperties.SortByBuyGetTypeTransitive` | packages/promotion/src/utils/compute-actions/buy-get.ts:90-101 | "not after" is transitive, so the comparator is a consistent ordering for a sort |

## Left out

- `areRulesValidForContext` is not part of this model. It is the parameter `matches`, with no semantics assumed.
- `computeActionForBudgetExceeded` is not part of this model. It is the parameter `budget`, with no semantics assumed. For that reason no per-item budget ceiling on the map's values is claimed.
- Numbers are unbounded integers, not JavaScript floating-point numbers, so `NaN`, infinities and rounding are not modelled.
- A rule list that is not an array is `None`, whatever value it actually holds. A missing application method makes both rule lists `None`, as optional chaining does.
- `promotion.code!` is taken to be a string that is always present. An undefined code is not modelled.
- The `MedusaError` message text is not modelled, only its kind, `InvalidData`.
- The engine's own sort algorithm is replaced by a stable insertion sort. The insertion sort is proved sorted by price, a permutation of its input, and stable per price. These three properties determine the list, so any stable sort with the comparator `b.unit_price - a.unit_price` gives the same result, but that uniqueness is not itself proved.
- `sortByBuyGetType` takes untyped arguments in the source. Here it takes promotions, and only their type is read. The callers that sort with it are not part of this model.
- BuyGetProperties.AllocateRemainingDecreases: holds only for non-negative quantities and a non-negative starting quantity, because the source's arithmetic lets a negative quantity raise the remaining quantity (`NegativeQuantityRaisesRemaining`).
- BuyGetProperties.BuyGetUnitsBounded: stated for a positive `apply_to_quantity`. A negative value is truthy and passes the gate; the total then stays at or below it only when at least one item is visited (`AllocateMultiplierTotal`).
