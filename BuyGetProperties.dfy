/**
 * What the buy-get computer promises: which items it visits and in what order,
 * where the allocation loop stops, how many units it hands out, what every
 * emitted action holds, and how the caller's value map changes.
 */
module BuyGetProperties {
  import opened Wrappers
  import opened PromotionTypes
  import opened PriceOrder
  import opened BuyGet

  /** The units still to hand out when the visit of the `k`-th item starts. */
  function Before<A>(remaining: int, steps: seq<Step<A>>, k: nat): int
    requires k <= |steps|
  {
    if k == 0 then remaining else steps[k - 1].remainingAfter
  }

  function SumMultipliers<A>(steps: seq<Step<A>>): int
  {
    if steps == [] then 0 else steps[0].multiplier + SumMultipliers(steps[1..])
  }

  /** The ids whose value the steps record (those not replaced by a budget action). */
  function AdjustedIds<A>(steps: seq<Step<A>>): set<string>
  {
    if steps == [] then {}
    else
      var last := steps[|steps| - 1];
      AdjustedIds(steps[..|steps| - 1]) + (if last.substitute.None? then {last.item.id} else {})
  }

  /** The total amount the steps record for `id`. */
  function AdjustedTotal<A>(steps: seq<Step<A>>, id: string): int
  {
    if steps == [] then 0
    else
      var last := steps[|steps| - 1];
      AdjustedTotal(steps[..|steps| - 1], id) + (if last.substitute.None? && last.item.id == id then last.amount else 0)
  }

  /** A step taken with `before` units left: it takes `min(quantity, before)` units,
      leaves a non-negative remainder, is worth `unit_price * multiplier > 0`, and
      carries the budget check's verdict on that amount. */
  ghost predicate StepFollows<A>(promotion: Promotion, budget: (Promotion, int) -> Option<A>, before: int, step: Step<A>)
  {
    && step.multiplier == Min(step.item.quantity, before)
    && step.remainingAfter == before - step.multiplier
    && step.remainingAfter >= 0
    && step.amount == step.item.unitPrice * step.multiplier
    && step.amount > 0
    && step.substitute == budget(promotion, step.amount)
  }

  // ---------------------------------------------------------------------------
  // The allocation loop

  /** The loop visits a prefix of the target list, in its order, one step per item. */
  lemma {:induction false} AllocateFollowsTargets<A>(promotion: Promotion, targets: seq<Item>, remaining: int,
                                                     budget: (Promotion, int) -> Option<A>, steps: seq<Step<A>>)
    requires steps == Allocate(promotion, targets, remaining, budget)
    ensures |steps| <= |targets|
    ensures forall k :: 0 <= k < |steps| ==> steps[k].item == targets[k]
  {
    if steps != [] {
      var after := steps[0].remainingAfter;
      var rest := Allocate(promotion, targets[1..], after, budget);
      assert steps == [steps[0]] + rest;
      AllocateFollowsTargets(promotion, targets[1..], after, budget, rest);
      assert forall k :: 1 <= k < |steps| ==> steps[k] == rest[k - 1];
    }
  }

  /** Every step of the loop follows from the units left before it. */
  lemma {:induction false} AllocateStepArithmetic<A>(promotion: Promotion, targets: seq<Item>, remaining: int,
                                                     budget: (Promotion, int) -> Option<A>, steps: seq<Step<A>>)
    requires steps == Allocate(promotion, targets, remaining, budget)
    ensures forall k :: 0 <= k < |steps| ==> StepFollows(promotion, budget, Before(remaining, steps, k), steps[k])
  {
    if steps != [] {
      var after := steps[0].remainingAfter;
      var rest := Allocate(promotion, targets[1..], after, budget);
      assert steps == [steps[0]] + rest;
      assert StepFollows(promotion, budget, remaining, steps[0]);
      AllocateStepArithmetic(promotion, targets[1..], after, budget, rest);
      forall k | 1 <= k < |steps|
        ensures StepFollows(promotion, budget, Before(remaining, steps, k), steps[k])
      {
        assert steps[k] == rest[k - 1] && Before(remaining, steps, k) == Before(after, rest, k - 1);
      }
    }
  }

  /** The loop breaks exactly at the first item whose amount would not be positive:
      if it stops before the end of the list, the next item's amount is `<= 0`. */
  lemma {:induction false} AllocateStopsAtFirstNonPositive<A>(promotion: Promotion, targets: seq<Item>, remaining: int,
                                                              budget: (Promotion, int) -> Option<A>, steps: seq<Step<A>>)
    requires steps == Allocate(promotion, targets, remaining, budget)
    requires |steps| < |targets|
    ensures targets[|steps|].unitPrice * Min(targets[|steps|].quantity, Before(remaining, steps, |steps|)) <= 0
  {
    if steps != [] {
      var after := steps[0].remainingAfter;
      var rest := Allocate(promotion, targets[1..], after, budget);
      assert steps == [steps[0]] + rest;
      AllocateStopsAtFirstNonPositive(promotion, targets[1..], after, budget, rest);
      assert targets[|steps|] == targets[1..][|rest|];
      assert Before(remaining, steps, |steps|) == Before(after, rest, |rest|);
    }
  }

  /** The units handed out add up to the initial quantity minus what is left, so they
      never exceed a non-negative `apply_to_quantity`. */
  lemma {:induction false} AllocateMultiplierTotal<A>(promotion: Promotion, targets: seq<Item>, remaining: int,
                                                      budget: (Promotion, int) -> Option<A>, steps: seq<Step<A>>)
    requires steps == Allocate(promotion, targets, remaining, budget)
    ensures steps != [] ==> SumMultipliers(steps) + steps[|steps| - 1].remainingAfter == remaining
    ensures remaining >= 0 ==> SumMultipliers(steps) <= remaining
  {
    if steps != [] {
      var after := steps[0].remainingAfter;
      var rest := Allocate(promotion, targets[1..], after, budget);
      assert steps == [steps[0]] + rest;
      AllocateMultiplierTotal(promotion, targets[1..], after, budget, rest);
      if rest != [] {
        assert steps[|steps| - 1] == rest[|rest| - 1];
      }
      AllocateStepArithmetic(promotion, targets, remaining, budget, steps);
      assert StepFollows(promotion, budget, Before(remaining, steps, |steps| - 1), steps[|steps| - 1]);
    }
  }

  /** With non-negative quantities and a non-negative start, every visited item takes at
      least one unit, so the remaining quantity strictly falls and never goes below 0. */
  lemma AllocateRemainingDecreases<A>(promotion: Promotion, targets: seq<Item>, remaining: int,
                                      budget: (Promotion, int) -> Option<A>, steps: seq<Step<A>>)
    requires steps == Allocate(promotion, targets, remaining, budget)
    requires remaining >= 0
    requires forall t :: t in targets ==> t.quantity >= 0
    ensures forall k :: 0 <= k < |steps| ==>
              0 < steps[k].multiplier && 0 <= steps[k].remainingAfter < Before(remaining, steps, k)
  {
    AllocateFollowsTargets(promotion, targets, remaining, budget, steps);
    AllocateStepArithmetic(promotion, targets, remaining, budget, steps);
    forall k | 0 <= k < |steps|
      ensures 0 < steps[k].multiplier && 0 <= steps[k].remainingAfter < Before(remaining, steps, k)
    {
      var before := Before(remaining, steps, k);
      assert StepFollows(promotion, budget, before, steps[k]);
      assert before >= 0 by {
        if k > 0 {
          assert StepFollows(promotion, budget, Before(remaining, steps, k - 1), steps[k - 1]);
        }
      }
      assert steps[k].item.quantity >= 0 by {
        assert steps[k].item == targets[k];
      }
      PositiveProductFactor(steps[k].item.unitPrice, steps[k].multiplier);
    }
  }

  lemma PositiveProductFactor(x: int, y: int)
    requires y >= 0 && x * y > 0
    ensures y > 0
  {
  }

  /** Without the non-negative quantity the remaining quantity can grow: a negative
      quantity at a negative price is a positive amount that adds units back. */
  lemma NegativeQuantityRaisesRemaining<A>(promotion: Promotion, budget: (Promotion, int) -> Option<A>)
    ensures var steps := Allocate(promotion, [Item("return", -1, -10, map[])], 1, budget);
            |steps| == 1 && steps[0].amount == 10 && steps[0].remainingAfter == 2
  {
  }

  /** Once no units remain, the next item (with a non-negative quantity) ends the loop. */
  lemma AllocateStopsWhenExhausted<A>(promotion: Promotion, targets: seq<Item>,
                                      budget: (Promotion, int) -> Option<A>)
    requires targets != [] ==> targets[0].quantity >= 0
    ensures Allocate(promotion, targets, 0, budget) == []
  {
  }

  /** A first target with a price of zero or less ends the loop at once. */
  lemma NonPositivePriceStops<A>(promotion: Promotion, targets: seq<Item>, remaining: int,
                                 budget: (Promotion, int) -> Option<A>)
    requires targets != [] && targets[0].unitPrice <= 0 && targets[0].quantity >= 0
    requires remaining >= 0
    ensures Allocate(promotion, targets, remaining, budget) == []
  {
    var multiplier := Min(targets[0].quantity, remaining);
    assert multiplier >= 0;
    assert targets[0].unitPrice * multiplier <= 0;
  }

  // ---------------------------------------------------------------------------
  // The value map

  /** After the steps, the map holds the old keys and the adjusted ids; an adjusted id's
      value is its old value (0 when absent) plus every amount recorded for it; every
      other key keeps its value. */
  lemma {:induction false} ApplyStepsEffect<A>(m: map<string, int>, steps: seq<Step<A>>, r: map<string, int>)
    requires r == ApplySteps(m, steps)
    ensures r.Keys == m.Keys + AdjustedIds(steps)
    ensures forall id :: id !in AdjustedIds(steps) ==> AdjustedTotal(steps, id) == 0
    ensures forall id :: id in r ==> r[id] == Lookup(m, id) + AdjustedTotal(steps, id)
    ensures forall id :: id in m && id !in AdjustedIds(steps) ==> r[id] == m[id]
  {
    if steps != [] {
      var prefix := steps[..|steps| - 1];
      ApplyStepsEffect(m, prefix, ApplySteps(m, prefix));
    }
  }

  /** When every step is worth a positive amount, every adjusted id gains value. */
  lemma {:induction false} AdjustedTotalPositive<A>(steps: seq<Step<A>>, id: string)
    requires forall k :: 0 <= k < |steps| ==> steps[k].amount > 0
    ensures id in AdjustedIds(steps) ==> AdjustedTotal(steps, id) > 0
    ensures AdjustedTotal(steps, id) >= 0
  {
    if steps != [] {
      AdjustedTotalPositive(steps[..|steps| - 1], id);
    }
  }

  // ---------------------------------------------------------------------------
  // The whole computation

  /** The visited items are the dearest target items, in non-increasing price order;
      each is an item of the context that satisfies the target rules. */
  lemma BuyGetVisitsTargetsByPrice<A>(promotion: Promotion, items: seq<Item>,
                                      matches: (seq<Rule>, Item) -> bool, budget: (Promotion, int) -> Option<A>,
                                      steps: seq<Step<A>>)
    requires BuyConditionMet(promotion, items, matches)
    requires Plan(promotion, Some(items), matches, budget) == Success(steps)
    ensures var targetRules := promotion.applicationMethod.value.targetRules.value;
            var targets := TargetItems(items, targetRules, matches);
            && |steps| <= |targets|
            && (forall k :: 0 <= k < |steps| ==> steps[k].item == targets[k])
            && (forall k :: 0 <= k < |steps| ==> steps[k].item in items && matches(targetRules, steps[k].item))
            && (forall i, j :: 0 <= i < j < |steps| ==> steps[i].item.unitPrice >= steps[j].item.unitPrice)
  {
    var am := promotion.applicationMethod.value;
    var targets := TargetItems(items, am.targetRules.value, matches);
    AllocateFollowsTargets(promotion, targets, am.applyToQuantity.value, budget, steps);
  }

  /** One action per visited item: an ADD_ITEM_ADJUSTMENT of a positive amount for that
      item under the promotion's code, or the budget check's action in its place. */
  lemma BuyGetActionsPerItem<A>(promotion: Promotion, items: seq<Item>,
                                matches: (seq<Rule>, Item) -> bool, budget: (Promotion, int) -> Option<A>,
                                steps: seq<Step<A>>, actions: seq<ComputedAction<A>>)
    requires Plan(promotion, Some(items), matches, budget) == Success(steps)
    requires actions == ActionsOf(steps, promotion.code)
    ensures |actions| == |steps|
    ensures forall i :: 0 <= i < |actions| && actions[i].AddItemAdjustment? ==>
              && actions[i].itemId == steps[i].item.id
              && actions[i].amount == steps[i].amount > 0
              && actions[i].code == promotion.code
              && budget(promotion, steps[i].amount).None?
    ensures forall i :: 0 <= i < |actions| && actions[i].FromBudgetCheck? ==>
              budget(promotion, steps[i].amount) == Some(actions[i].action)
  {
    ActionsOfIndex(steps, promotion.code);
    if BuyConditionMet(promotion, items, matches) {
      var am := promotion.applicationMethod.value;
      var targets := TargetItems(items, am.targetRules.value, matches);
      AllocateStepArithmetic(promotion, targets, am.applyToQuantity.value, budget, steps);
      forall i | 0 <= i < |actions|
        ensures actions[i] == ActionOf(steps[i], promotion.code)
        ensures StepFollows(promotion, budget, Before(am.applyToQuantity.value, steps, i), steps[i])
      {
      }
    }
  }

  /** The discounted units handed out never exceed a positive `apply_to_quantity`. */
  lemma BuyGetUnitsBounded<A>(promotion: Promotion, items: seq<Item>, applyToQuantity: int,
                              matches: (seq<Rule>, Item) -> bool, budget: (Promotion, int) -> Option<A>,
                              steps: seq<Step<A>>)
    requires promotion.applicationMethod.Some?
    requires promotion.applicationMethod.value.applyToQuantity == Some(applyToQuantity)
    requires applyToQuantity > 0
    requires Plan(promotion, Some(items), matches, budget) == Success(steps)
    ensures SumMultipliers(steps) <= applyToQuantity
  {
    if BuyConditionMet(promotion, items, matches) {
      var am := promotion.applicationMethod.value;
      var targets := TargetItems(items, am.targetRules.value, matches);
      AllocateMultiplierTotal(promotion, targets, applyToQuantity, budget, steps);
    }
  }

  /** The caller's map changes only at the ids that got an adjustment, each gaining the
      positive total of its adjustments; all other keys are untouched. */
  lemma BuyGetValueMapEffect<A>(m: map<string, int>, promotion: Promotion, items: seq<Item>,
                                matches: (seq<Rule>, Item) -> bool, budget: (Promotion, int) -> Option<A>,
                                steps: seq<Step<A>>, r: map<string, int>)
    requires Plan(promotion, Some(items), matches, budget) == Success(steps)
    requires r == ApplySteps(m, steps)
    ensures r.Keys == m.Keys + AdjustedIds(steps)
    ensures forall id :: id in AdjustedIds(steps) ==> r[id] == Lookup(m, id) + AdjustedTotal(steps, id) > Lookup(m, id)
    ensures forall id :: id in m && id !in AdjustedIds(steps) ==> r[id] == m[id]
  {
    ApplyStepsEffect(m, steps, r);
    if BuyConditionMet(promotion, items, matches) {
      var am := promotion.applicationMethod.value;
      var targets := TargetItems(items, am.targetRules.value, matches);
      AllocateStepArithmetic(promotion, targets, am.applyToQuantity.value, budget, steps);
      forall k | 0 <= k < |steps|
        ensures steps[k].amount > 0
      {
        assert StepFollows(promotion, budget, Before(am.applyToQuantity.value, steps, k), steps[k]);
      }
    }
    forall id | id in AdjustedIds(steps)
      ensures AdjustedTotal(steps, id) > 0
    {
      AdjustedTotalPositive(steps, id);
    }
  }

  // ---------------------------------------------------------------------------
  // The buy condition

  /** With non-negative quantities, the quantity bought under the buy rules lies between
      0 and the total quantity of the cart. */
  lemma {:induction false} ValidQuantityBounds(items: seq<Item>, buyRules: seq<Rule>,
                                               matches: (seq<Rule>, Item) -> bool)
    requires forall t :: t in items ==> t.quantity >= 0
    ensures 0 <= ValidQuantity(items, buyRules, matches) <= SumQuantities(items)
  {
    if items != [] {
      ValidQuantityBounds(items[1..], buyRules, matches);
      var rest := MatchingItems(items[1..], buyRules, matches);
      if matches(buyRules, items[0]) {
        assert ([items[0]] + rest)[1..] == rest;
      } else {
        assert [] + rest == rest;
      }
    }
  }

  /** Each way the gate can return early: a rule list that is not an array, an unset or zero
      minimum or apply quantity, or a minimum above the bought quantity. The computation then
      emits no action and leaves the caller's map as it was. */
  lemma UnmetBuyConditionYieldsNothing<A>(promotion: Promotion, items: seq<Item>, m: map<string, int>,
                                          matches: (seq<Rule>, Item) -> bool, budget: (Promotion, int) -> Option<A>)
    requires
      || promotion.applicationMethod.None?
      || promotion.applicationMethod.value.buyRules.None?
      || promotion.applicationMethod.value.targetRules.None?
      || promotion.applicationMethod.value.buyRulesMinQuantity.None?
      || promotion.applicationMethod.value.buyRulesMinQuantity.value == 0
      || promotion.applicationMethod.value.applyToQuantity.None?
      || promotion.applicationMethod.value.applyToQuantity.value == 0
      || promotion.applicationMethod.value.buyRulesMinQuantity.value
         > ValidQuantity(items, promotion.applicationMethod.value.buyRules.value, matches)
    ensures Plan(promotion, Some(items), matches, budget).Success?
    ensures ActionsOf(Plan(promotion, Some(items), matches, budget).value, promotion.code) == []
    ensures ApplySteps(m, Plan(promotion, Some(items), matches, budget).value) == m
  {
    assert !BuyConditionMet(promotion, items, matches);
  }


  lemma ScenarioBuyConditionMet(promotion: Promotion, cheap: Item, dear: Item, matches: (seq<Rule>, Item) -> bool)
    requires promotion.applicationMethod == Some(ApplicationMethod(Some(2), Some(1), Some([]), Some([])))
    requires cheap.quantity == 1 && dear.quantity == 1
    requires matches([], cheap) && matches([], dear)
    ensures BuyConditionMet(promotion, [cheap, dear], matches)
    ensures MatchingItems([cheap, dear], [], matches) == [cheap, dear]
  {
    assert [cheap, dear][1..] == [dear] && [dear][1..] == [];
    assert MatchingItems([dear], [], matches) == [dear];
    assert SumQuantities([dear]) == 1;
  }

  lemma ScenarioTargets(cheap: Item, dear: Item, matches: (seq<Rule>, Item) -> bool)
    requires cheap.unitPrice == 50 && dear.unitPrice == 100
    requires MatchingItems([cheap, dear], [], matches) == [cheap, dear]
    ensures TargetItems([cheap, dear], [], matches) == [dear, cheap]
  {
    assert [cheap, dear][1..] == [dear] && [dear][1..] == [];
    assert SortByPriceDesc([dear]) == [dear];
    assert InsertByPrice(cheap, [dear]) == [dear] + InsertByPrice(cheap, []);
  }

  lemma ScenarioAllocation<A>(promotion: Promotion, cheap: Item, dear: Item, budget: (Promotion, int) -> Option<A>)
    requires cheap.quantity == 1 && cheap.unitPrice == 50 && dear.quantity == 1 && dear.unitPrice == 100
    requires budget(promotion, 100).None?
    ensures Allocate(promotion, [dear, cheap], 1, budget) == [Step(dear, 1, 100, 0, None)]
  {
    assert [dear, cheap][1..] == [cheap];
    assert Allocate(promotion, [cheap], 0, budget) == [];
  }

  lemma ScenarioPlan<A>(promotion: Promotion, cheap: Item, dear: Item,
                        matches: (seq<Rule>, Item) -> bool, budget: (Promotion, int) -> Option<A>)
    requires promotion.applicationMethod == Some(ApplicationMethod(Some(2), Some(1), Some([]), Some([])))
    requires cheap.quantity == 1 && cheap.unitPrice == 50 && dear.quantity == 1 && dear.unitPrice == 100
    requires matches([], cheap) && matches([], dear)
    requires budget(promotion, 100).None?
    ensures Plan(promotion, Some([cheap, dear]), matches, budget) == Success([Step(dear, 1, 100, 0, None)])
  {
    ScenarioBuyConditionMet(promotion, cheap, dear, matches);
    ScenarioTargets(cheap, dear, matches);
    ScenarioAllocation(promotion, cheap, dear, budget);
  }

  /** Buy two, get one: of two target items priced 100 and 50, only the dearer one is
      adjusted, by its full price, and the cheaper one gets nothing. */
  lemma ScenarioDearestTargetIsDiscounted<A>(matches: (seq<Rule>, Item) -> bool, budget: (Promotion, int) -> Option<A>)
    requires forall rules, item :: matches(rules, item)
    requires forall p, amount :: budget(p, amount).None?
    ensures var promotion := Promotion("B2G1", BuyGet, Some(ApplicationMethod(Some(2), Some(1), Some([]), Some([]))));
            var items := [Item("cheap", 1, 50, map[]), Item("dear", 1, 100, map[])];
            var steps := Plan(promotion, Some(items), matches, budget).value;
            ActionsOf(steps, promotion.code) == [AddItemAdjustment("dear", 100, "B2G1")]
  {
    var promotion := Promotion("B2G1", BuyGet, Some(ApplicationMethod(Some(2), Some(1), Some([]), Some([]))));
    var cheap, dear := Item("cheap", 1, 50, map[]), Item("dear", 1, 100, map[]);
    ScenarioPlan(promotion, cheap, dear, matches, budget);
    var actions := ActionsOf<A>([Step(dear, 1, 100, 0, None)], "B2G1");
    assert |actions| == 1 && actions[0] == AddItemAdjustment("dear", 100, "B2G1");
  }

  // ---------------------------------------------------------------------------
  // The promotion-type comparator

  lemma SortByBuyGetTypeAntisymmetric(a: Promotion, b: Promotion)
    ensures SortByBuyGetType(a, b) == -SortByBuyGetType(b, a)
  {
  }

  /** The comparator orders consistently: "not after" is transitive. */
  lemma SortByBuyGetTypeTransitive(a: Promotion, b: Promotion, c: Promotion)
    ensures SortByBuyGetType(a, b) <= 0 && SortByBuyGetType(b, c) <= 0 ==> SortByBuyGetType(a, c) <= 0
  {
  }
}
