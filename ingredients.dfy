/** The ingredient editor (src/IngredientInput.js): one ingredient row and the three edits its
    input fields emit. Every edit builds a new record from the old one; Dafny datatype values are
    immutable, so the incoming ingredient can never be changed by an edit. */
module Ingredients {
  import opened Wrappers

  /** One row of the recipe form: what it is, what one unit costs, how many units go in. */
  datatype Ingredient = Ingredient(name: string, cost: real, quantity: real)

  /** `parseFloat(text) || 0`: the parsed number, or 0 when parsing fails (NaN is falsy).
      A parsed 0 is falsy too, but it maps to the same 0. */
  function OrZero(parsed: Option<real>): real
  {
    match parsed
    case Some(v) => v
    case None => 0.0
  }

  /** The name field changed: the typed text becomes the name, nothing else moves. */
  function WithName(ing: Ingredient, text: string): (r: Ingredient)
    ensures r.name == text
    ensures r.cost == ing.cost && r.quantity == ing.quantity
  {
    ing.(name := text)
  }

  /** The cost field changed. `parsed` is what the browser's `parseFloat` made of the typed text:
      the number the text starts with, or None. Negative numbers are kept as they are. */
  function WithCost(ing: Ingredient, parsed: Option<real>): (r: Ingredient)
    ensures r.name == ing.name && r.quantity == ing.quantity
    ensures parsed.Some? ==> r.cost == parsed.value
    ensures parsed == None ==> r.cost == 0.0
  {
    ing.(cost := OrZero(parsed))
  }

  /** The quantity field changed; an unparsable quantity becomes 0 (not 1). */
  function WithQuantity(ing: Ingredient, parsed: Option<real>): (r: Ingredient)
    ensures r.name == ing.name && r.cost == ing.cost
    ensures parsed.Some? ==> r.quantity == parsed.value
    ensures parsed == None ==> r.quantity == 0.0
  {
    ing.(quantity := OrZero(parsed))
  }

  /** Edits of different fields do not interfere: applying them in either order gives the same row,
      and a second edit of the same field overrides the first. */
  lemma EditsCommute(ing: Ingredient, a: string, b: string, p: Option<real>, q: Option<real>)
    ensures WithCost(WithName(ing, a), p) == WithName(WithCost(ing, p), a)
    ensures WithQuantity(WithName(ing, a), q) == WithName(WithQuantity(ing, q), a)
    ensures WithQuantity(WithCost(ing, p), q) == WithCost(WithQuantity(ing, q), p)
    ensures WithName(WithName(ing, a), b) == WithName(ing, b)
    ensures WithCost(WithCost(ing, p), q) == WithCost(ing, q)
    ensures WithQuantity(WithQuantity(ing, p), q) == WithQuantity(ing, q)
  {
  }

  /** Retyping a field with text that parses back to the value already there leaves the row as it was. */
  lemma EditToSameValueIsIdentity(ing: Ingredient)
    ensures WithName(ing, ing.name) == ing
    ensures WithCost(ing, Some(ing.cost)) == ing
    ensures WithQuantity(ing, Some(ing.quantity)) == ing
  {
  }
}
