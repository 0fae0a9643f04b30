/**
 * The buy-get action computer: given a BUYGET promotion, the line items of a
 * cart and the caller's map of value already applied per item, it decides which
 * items get how many discounted units and emits one computed action per item
 * it discounts.
 *
 * The rule matcher and the budget check are collaborators whose code is not
 * part of this model; they are parameters:
 *   matches(rules, item)       -- does `item` satisfy every rule of `rules`?
 *   budget(promotion, amount)  -- `Some(action)` to emit instead of an adjustment
 *                                 when `amount` would exceed the budget, else `None`.
 */
module BuyGet {
  import opened Wrappers
  import opened PromotionTypes
  import opened PriceOrder

  /** The items that satisfy `rules`, in input order (the source's `filter`). */
  function MatchingItems(items: seq<Item>, rules: seq<Rule>, matches: (seq<Rule>, Item) -> bool): (r: seq<Item>)
    ensures |r| <= |items|
    ensures forall x :: x in r <==> x in items && matches(rules, x)
  {
    if items == [] then []
    else (if matches(rules, items[0]) then [items[0]] else []) + MatchingItems(items[1..], rules, matches)
  }

  /** The filter keeps every matching item as often as it occurs, and no other item. */
  lemma {:induction false} MatchingItemsCount(items: seq<Item>, rules: seq<Rule>, matches: (seq<Rule>, Item) -> bool)
    ensures forall x :: multiset(MatchingItems(items, rules, matches))[x]
                        == if matches(rules, x) then multiset(items)[x] else 0
  {
    if items != [] {
      MatchingItemsCount(items[1..], rules, matches);
      assert items == [items[0]] + items[1..];
    }
  }

  /** Filtering distributes over concatenation: the kept items stay in their input order. */
  lemma {:induction false} MatchingItemsAppend(a: seq<Item>, b: seq<Item>, rules: seq<Rule>,
                                               matches: (seq<Rule>, Item) -> bool)
    ensures MatchingItems(a + b, rules, matches) == MatchingItems(a, rules, matches) + MatchingItems(b, rules, matches)
  {
    if a != [] {
      var head := if matches(rules, a[0]) then [a[0]] else [];
      var restA := MatchingItems(a[1..], rules, matches);
      var restB := MatchingItems(b, rules, matches);
      assert (a + b)[0] == a[0] && (a + b)[1..] == a[1..] + b;
      assert MatchingItems(a + b, rules, matches) == head + MatchingItems(a[1..] + b, rules, matches);
      MatchingItemsAppend(a[1..], b, rules, matches);
      assert MatchingItems(a, rules, matches) == head + restA;
      assert head + (restA + restB) == (head + restA) + restB;
    } else {
      assert a + b == b;
    }
  }

  /** The sum of the quantities (the source's `reduce` from 0). */
  function SumQuantities(items: seq<Item>): int
  {
    if items == [] then 0 else items[0].quantity + SumQuantities(items[1..])
  }

  /** The sum splits over concatenation, so summing from either end gives the same total. */
  lemma {:induction false} SumQuantitiesAppend(a: seq<Item>, b: seq<Item>)
    ensures SumQuantities(a + b) == SumQuantities(a) + SumQuantities(b)
  {
    if a != [] {
      assert (a + b)[0] == a[0] && (a + b)[1..] == a[1..] + b;
      SumQuantitiesAppend(a[1..], b);
    } else {
      assert a + b == b;
    }
  }

  /** The quantity bought under the promotion's buy rules (`validQuantity`). */
  function ValidQuantity(items: seq<Item>, buyRules: seq<Rule>, matches: (seq<Rule>, Item) -> bool): int
  {
    SumQuantities(MatchingItems(items, buyRules, matches))
  }

  /** The items that may receive the discount, dearest first (`validItemsForTargetRules`). */
  function TargetItems(items: seq<Item>, targetRules: seq<Rule>, matches: (seq<Rule>, Item) -> bool): (r: seq<Item>)
    ensures PriceNonIncreasing(r)
    ensures multiset(r) == multiset(MatchingItems(items, targetRules, matches))
    ensures forall x :: x in r <==> x in items && matches(targetRules, x)
  {
    var candidates := MatchingItems(items, targetRules, matches);
    var r := SortByPriceDesc(candidates);
    assert forall x :: x in r <==> x in multiset(r);
    assert forall x :: x in candidates <==> x in multiset(candidates);
    r
  }

  /** Both rule lists of the application method are arrays. */
  predicate RulesAreArrays(promotion: Promotion)
  {
    && promotion.applicationMethod.Some?
    && promotion.applicationMethod.value.buyRules.Some?
    && promotion.applicationMethod.value.targetRules.Some?
  }

  /** The buy condition of the promotion is configured and met by `items`. */
  predicate BuyConditionMet(promotion: Promotion, items: seq<Item>, matches: (seq<Rule>, Item) -> bool)
  {
    && RulesAreArrays(promotion)
    && var am := promotion.applicationMethod.value;
    && Truthy(am.buyRulesMinQuantity)
    && Truthy(am.applyToQuantity)
    && am.buyRulesMinQuantity.value <= ValidQuantity(items, am.buyRules.value, matches)
  }

  /** One visited target item: the units it gets, their value, the units left to
      hand out after it, and what the budget check said about that value. */
  datatype Step<A> = Step(item: Item, multiplier: int, amount: int, remainingAfter: int, substitute: Option<A>)

  /** The allocation loop as a function: the steps of the items visited before the loop breaks. */
  function Allocate<A>(promotion: Promotion, targets: seq<Item>, remaining: int,
                       budget: (Promotion, int) -> Option<A>): seq<Step<A>>
  {
    if targets == [] then []
    else
      var item := targets[0];
      var multiplier := Min(item.quantity, remaining);
      var amount := item.unitPrice * multiplier;
      if remaining - multiplier < 0 || amount <= 0 then []
      else
        [Step(item, multiplier, amount, remaining - multiplier, budget(promotion, amount))]
        + Allocate(promotion, targets[1..], remaining - multiplier, budget)
  }

  /** The steps a buy-get computation takes, or the error it throws. */
  function Plan<A>(promotion: Promotion, itemsContext: Option<seq<Item>>,
                   matches: (seq<Rule>, Item) -> bool, budget: (Promotion, int) -> Option<A>)
    : (r: Result<seq<Step<A>>, ErrorKind>)
    ensures r.Failure? <==> itemsContext.None?
  {
    if itemsContext.None? then Failure(InvalidData)
    else if !BuyConditionMet(promotion, itemsContext.value, matches) then Success([])
    else
      var am := promotion.applicationMethod.value;
      var targets := TargetItems(itemsContext.value, am.targetRules.value, matches);
      Success(Allocate(promotion, targets, am.applyToQuantity.value, budget))
  }

  /** The action a step emits. */
  function ActionOf<A>(step: Step<A>, code: string): ComputedAction<A>
  {
    match step.substitute
    case Some(action) => FromBudgetCheck(action)
    case None => AddItemAdjustment(step.item.id, step.amount, code)
  }

  function ActionsOf<A>(steps: seq<Step<A>>, code: string): (r: seq<ComputedAction<A>>)
    ensures |r| == |steps|
  {
    if steps == [] then [] else ActionsOf(steps[..|steps| - 1], code) + [ActionOf(steps[|steps| - 1], code)]
  }


  /** The value recorded for `id`, 0 when there is none (`get(id) || 0`). */
  function Lookup(m: map<string, int>, id: string): int
  {
    if id in m then m[id] else 0
  }

  /** The value map after one step: an adjusted item's value grows by the step's amount. */
  function ApplyStep<A>(m: map<string, int>, step: Step<A>): map<string, int>
  {
    if step.substitute.None? then m[step.item.id := Lookup(m, step.item.id) + step.amount] else m
  }

  function ApplySteps<A>(m: map<string, int>, steps: seq<Step<A>>): map<string, int>
  {
    if steps == [] then m else ApplyStep(ApplySteps(m, steps[..|steps| - 1]), steps[|steps| - 1])
  }

  /** The caller-owned map from item id to the value this promotion has applied to it. */
  class PromoValueMap {
    var entries: map<string, int>

    constructor ()
      ensures entries == map[]
    {
      entries := map[];
    }

    function Get(id: string): (r: Option<int>)
      reads this
      ensures r.Some? <==> id in entries
      ensures r.Some? ==> r.value == entries[id]
    {
      if id in entries then Some(entries[id]) else None
    }

    method Set(id: string, value: int)
      modifies this
      ensures entries == old(entries)[id := value]
    {
      entries := entries[id := value];
    }
  }

  /** One action per step, in the order of the steps. */
  lemma {:induction false} ActionsOfIndex<A>(steps: seq<Step<A>>, code: string)
    ensures |ActionsOf(steps, code)| == |steps|
    ensures forall k :: 0 <= k < |steps| ==> ActionsOf(steps, code)[k] == ActionOf(steps[k], code)
  {
    if steps != [] {
      ActionsOfIndex(steps[..|steps| - 1], code);
    }
  }

  lemma ActionsOfAppend<A>(steps: seq<Step<A>>, step: Step<A>, code: string)
    ensures ActionsOf(steps + [step], code) == ActionsOf(steps, code) + [ActionOf(step, code)]
  {
    assert (steps + [step])[..|steps|] == steps;
  }

  lemma ApplyStepsAppend<A>(m: map<string, int>, steps: seq<Step<A>>, step: Step<A>)
    ensures ApplySteps(m, steps + [step]) == ApplyStep(ApplySteps(m, steps), step)
  {
    assert (steps + [step])[..|steps|] == steps;
  }

  /** The value map after one more step, given the map before it and the value already applied. */
  lemma ValueMapTurn<A>(m: map<string, int>, done: seq<Step<A>>, step: Step<A>, entries: map<string, int>, applied: int)
    requires entries == ApplySteps(m, done)
    requires applied == Lookup(entries, step.item.id)
    ensures step.substitute.Some? ==> ApplySteps(m, done + [step]) == entries
    ensures step.substitute.None? ==> ApplySteps(m, done + [step]) == entries[step.item.id := applied + step.amount]
  {
    ApplyStepsAppend(m, done, step);
  }

  /** One turn of the allocation loop on the item at index `i`. */
  lemma AllocateUnfold<A>(promotion: Promotion, targets: seq<Item>, i: nat, remaining: int,
                          budget: (Promotion, int) -> Option<A>)
    requires i < |targets|
    ensures var item := targets[i];
            var multiplier := Min(item.quantity, remaining);
            var amount := item.unitPrice * multiplier;
            Allocate(promotion, targets[i..], remaining, budget)
            == if remaining - multiplier < 0 || amount <= 0 then []
               else [Step(item, multiplier, amount, remaining - multiplier, budget(promotion, amount))]
                    + Allocate(promotion, targets[i + 1..], remaining - multiplier, budget)
  {
    assert targets[i..][0] == targets[i] && targets[i..][1..] == targets[i + 1..];
  }

  /** The loop invariant `all == done + Allocate(targets[i..], remaining)` carried over one
      turn that does not break. */
  lemma AllocateAdvance<A>(promotion: Promotion, targets: seq<Item>, i: nat, remaining: int,
                           budget: (Promotion, int) -> Option<A>, done: seq<Step<A>>,
                           all: seq<Step<A>>, step: Step<A>)
    requires i < |targets|
    requires all == done + Allocate(promotion, targets[i..], remaining, budget)
    requires step.item == targets[i] && step.multiplier == Min(targets[i].quantity, remaining)
    requires step.amount == targets[i].unitPrice * step.multiplier
    requires step.remainingAfter == remaining - step.multiplier >= 0 && step.amount > 0
    requires step.substitute == budget(promotion, step.amount)
    ensures all == (done + [step]) + Allocate(promotion, targets[i + 1..], step.remainingAfter, budget)
  {
    AllocateUnfold(promotion, targets, i, remaining, budget);
    var rest := Allocate(promotion, targets[i + 1..], step.remainingAfter, budget);
    assert done + ([step] + rest) == (done + [step]) + rest;
  }

  /** The loop invariant at a turn that breaks: nothing is left to allocate. */
  lemma AllocateStop<A>(promotion: Promotion, targets: seq<Item>, i: nat, remaining: int,
                        budget: (Promotion, int) -> Option<A>, done: seq<Step<A>>, all: seq<Step<A>>)
    requires i < |targets|
    requires all == done + Allocate(promotion, targets[i..], remaining, budget)
    requires var multiplier := Min(targets[i].quantity, remaining);
             remaining - multiplier < 0 || targets[i].unitPrice * multiplier <= 0
    ensures all == done
  {
    AllocateUnfold(promotion, targets, i, remaining, budget);
    assert all == done + [];
  }

  /** The allocation loop: walks `targets`, handing out `applyToQuantity` units, and
      records every adjustment in `valueMap`. */
  method AllocateActions<A>(promotion: Promotion, targets: seq<Item>, applyToQuantity: int,
                            valueMap: PromoValueMap, budget: (Promotion, int) -> Option<A>)
    returns (computedActions: seq<ComputedAction<A>>)
    modifies valueMap
    ensures var steps := Allocate(promotion, targets, applyToQuantity, budget);
            computedActions == ActionsOf(steps, promotion.code)
            && valueMap.entries == ApplySteps(old(valueMap.entries), steps)
  {
    var remainingQtyToApply := applyToQuantity;
    computedActions := [];
    ghost var m0 := valueMap.entries;
    ghost var done: seq<Step<A>> := [];
    ghost var all := Allocate(promotion, targets, applyToQuantity, budget);

    for i := 0 to |targets|
      invariant all == done + Allocate(promotion, targets[i..], remainingQtyToApply, budget)
      invariant computedActions == ActionsOf(done, promotion.code)
      invariant valueMap.entries == ApplySteps(m0, done)
    {
      var item := targets[i];
      var appliedPromoValue := match valueMap.Get(item.id) case Some(v) => v case None => 0;
      var multiplier := Min(item.quantity, remainingQtyToApply);
      var amount := item.unitPrice * multiplier;
      var newRemainingQtyToApply := remainingQtyToApply - multiplier;
      assert appliedPromoValue == Lookup(valueMap.entries, item.id);

      if newRemainingQtyToApply < 0 || amount <= 0 {
        AllocateStop(promotion, targets, i, remainingQtyToApply, budget, done, all);
        break;
      }
      var budgetExceededAction := budget(promotion, amount);
      ghost var step := Step(item, multiplier, amount, newRemainingQtyToApply, budgetExceededAction);
      AllocateAdvance(promotion, targets, i, remainingQtyToApply, budget, done, all, step);
      remainingQtyToApply := newRemainingQtyToApply;
      ActionsOfAppend(done, step, promotion.code);
      ValueMapTurn(m0, done, step, valueMap.entries, appliedPromoValue);
      done := done + [step];

      if budgetExceededAction.Some? {
        computedActions := computedActions + [FromBudgetCheck(budgetExceededAction.value)];
        continue;
      }

      valueMap.Set(item.id, appliedPromoValue + amount);
      computedActions := computedActions + [AddItemAdjustment(item.id, amount, promotion.code)];
    }
    assert all == done;
  }

  /** Computes the buy-get actions, updating `valueMap` in place for every adjustment it emits. */
  method GetComputedActionsForBuyGet<A>(promotion: Promotion, itemsContext: Option<seq<Item>>,
                                        valueMap: PromoValueMap,
                                        matches: (seq<Rule>, Item) -> bool,
                                        budget: (Promotion, int) -> Option<A>)
    returns (r: Result<seq<ComputedAction<A>>, ErrorKind>)
    modifies valueMap
    ensures itemsContext.None? ==> r == Failure(InvalidData) && valueMap.entries == old(valueMap.entries)
    ensures itemsContext.Some? && !BuyConditionMet(promotion, itemsContext.value, matches) ==>
              r == Success([]) && valueMap.entries == old(valueMap.entries)
    ensures itemsContext.Some? ==>
              var steps := Plan(promotion, itemsContext, matches, budget).value;
              r == Success(ActionsOf(steps, promotion.code))
              && valueMap.entries == ApplySteps(old(valueMap.entries), steps)
  {
    if itemsContext.None? {
      return Failure(InvalidData);
    }
    var items := itemsContext.value;
    assert |ActionsOf<A>([], promotion.code)| == 0;
    if !RulesAreArrays(promotion) {
      return Success([]);
    }
    var am := promotion.applicationMethod.value;
    var buyRulesMinQuantity, applyToQuantity := am.buyRulesMinQuantity, am.applyToQuantity;
    var validQuantity := ValidQuantity(items, am.buyRules.value, matches);
    if !Truthy(buyRulesMinQuantity) || !Truthy(applyToQuantity) || buyRulesMinQuantity.value > validQuantity {
      return Success([]);
    }

    var targets := TargetItems(items, am.targetRules.value, matches);
    var computedActions := AllocateActions(promotion, targets, applyToQuantity.value, valueMap, budget);
    return Success(computedActions);
  }

  /** Comparator placing BUYGET promotions before all others. */
  function SortByBuyGetType(a: Promotion, b: Promotion): (r: int)
    ensures r == -1 <==> a.promotionType == BuyGet && b.promotionType != BuyGet
    ensures r == 1 <==> a.promotionType != BuyGet && b.promotionType == BuyGet
    ensures r == 0 <==> (a.promotionType == BuyGet <==> b.promotionType == BuyGet)
  {
    if a.promotionType == BuyGet && b.promotionType != BuyGet then -1
    else if a.promotionType != BuyGet && b.promotionType == BuyGet then 1
    else 0
  }
}
