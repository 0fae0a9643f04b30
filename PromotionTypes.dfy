/**
 * The data the buy-get action computer reads and produces: line items,
 * promotions with their application method, and computed actions.
 */
module PromotionTypes {
  import opened Wrappers

  /** One rule of a promotion: an attribute, an operator and the values it is compared with.
      Its meaning belongs to the rule matcher, which the model takes as a parameter. */
  datatype Rule = Rule(attribute: string, operator: string, values: seq<string>)

  /** One line item of the items context: its id, quantity, unit price and the
      further attributes the rule matcher may look at. */
  datatype Item = Item(id: string, quantity: int, unitPrice: int, attributes: map<string, string>)

  /** The promotion types the engine knows. */
  datatype PromotionType = Standard | BuyGet

  /** The application method of a promotion. A rule list that is `None` stands for a
      value that is not an array (missing or malformed configuration). */
  datatype ApplicationMethod = ApplicationMethod(
    buyRulesMinQuantity: Option<int>,
    applyToQuantity: Option<int>,
    buyRules: Option<seq<Rule>>,
    targetRules: Option<seq<Rule>>)

  datatype Promotion = Promotion(
    code: string,
    promotionType: PromotionType,
    applicationMethod: Option<ApplicationMethod>)

  /** The only error kind the buy-get computer raises. */
  datatype ErrorKind = InvalidData

  /** A computed action: an item adjustment built by the buy-get computer, or whatever
      action the budget check handed back instead (its shape is the budget check's own,
      hence the type parameter). */
  datatype ComputedAction<A> =
    | AddItemAdjustment(itemId: string, amount: int, code: string)
    | FromBudgetCheck(action: A)

  /** JavaScript truthiness of an optional number: `undefined` and `0` are both falsy. */
  predicate Truthy(n: Option<int>)
  {
    n.Some? && n.value != 0
  }

  function Min(a: int, b: int): int
  {
    if a <= b then a else b
  }
}
