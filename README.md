# Cake recipe price calculator — Dafny model

This project models the logic of a small browser form for pricing cake recipes. The user
enters ingredient rows (name, unit cost, quantity). The form shows the total cost and a
selling price with a fixed 30% margin. "Create cake" saves a priced snapshot of the rows,
with an optional image, to a list of cakes kept in the browser's local storage.

Modules, one per concern of the source:

- `Wrappers` (`wrappers.dfy`): the `Option` type.
- `Ingredients` (`ingredients.dfy`): the ingredient record and the three edits the
  ingredient editor (`src/IngredientInput.js`) emits. Each is a pure function from the old
  record to a new one; records are immutable values, so no edit can change the record it
  was given.
- `Pricing` (`pricing.dfy`): `calculateTotalCost` (a left-to-right `reduce`) and
  `calculateSellingPrice` of `src/App.js`, over exact reals, with lemmas on the sum.
- `Numerals` (`numerals.dfy`): decimal rendering of the number in the default name
  `Cake N`, with its inverse and a round-trip lemma.
- `App` (`app.dfy`): the `Cake` record, the per-position `map` and `filter` the handlers
  use, and the class `Workspace`. The class holds the component's state (`ingredients`,
  `cakes`, `cakeName`, `image`) and the durable `cakes` entry (`stored`). Each handler is
  a method that performs one atomic step. `Valid()` is the state invariant: there is always
  at least one row, and `stored` holds the collection itself unless nothing was ever
  stored and the collection is empty.

Two points of the code that the model keeps as written:

- The cost and quantity inputs carry `min="0"` and `min="1"` (src/IngredientInput.js:31,
  src/IngredientInput.js:40), but the change handlers enforce neither. The model lets any
  real through; `NegativeCostGivesNegativeTotal` shows one consequence.
- The selling price is computed as `total + total * profitMargin` with `profitMargin = 0.30`
  (src/App.js:10, src/App.js:50). The model keeps that form and proves it equal to
  total × 1.3 over reals.

Default cake names are numbered from the current size of the collection, so they can
repeat after a deletion (`DefaultNameCanRepeat`). The model records this as it is.

## Model

| member | source | states |
|---|---|---|
| `Ingredients.WithName` | src/IngredientInput.js:4-6 | a name edit gives a record whose name is the typed text, with cost and quantity unchanged |
| `Ingredients.WithCost` | src/IngredientInput.js:8-10 | a cost edit keeps name and quantity; the cost is the parsed number, negative ones included, or 0 when the text does not parse |
| `Ingredients.WithQuantity` | src/IngredientInput.js:12-14 | a quantity edit keeps name and cost; the quantity is the parsed number, or 0 when the text does not parse |
| `Ingredients.EditsCommute` | src/IngredientInput.js:4-14 | edits of different fields commute, and a second edit of the same field overrides the first: each edit changes exactly one field |
| `Ingredients.EditToSameValueIsIdentity` | src/IngredientInput.js:4-14 | re-entering the value a field already holds gives back the same record |
| `Pricing.TotalCost` | src/App.js:41-45 | the total of no rows is 0 |
| `Pricing.TotalCostIsSum` | src/App.js:41-45 | the left-to-right reduce equals the sum of cost × quantity over the rows, taken first row first |
| `Pricing.TotalCostAppend` | src/App.js:41-45 | the total of two row lists joined is the sum of their totals |
| `Pricing.TotalCostReplace` | src/App.js:33-45 | replacing one row changes the total by the new row's cost × quantity minus the old row's |
| `Pricing.TotalCostCostShift` | src/App.js:41-45 | changing only one row's unit cost moves the total by the cost difference × that row's quantity |
| `Pricing.TotalCostNonNegative` | src/App.js:41-45 | rows with non-negative costs and quantities have a non-negative total |
| `Pricing.NegativeCostGivesNegativeTotal` | src/IngredientInput.js:9 | a single row with cost −2 and quantity 1 has total −2 and a negative selling price: a negative cost the editor lets through can make both negative |
| `Pricing.SellingPrice` | src/App.js:47-52 | the selling price is the total × 1.3; it is 0 exactly when the total is 0, and never below a non-negative total |
| `Pricing.FlourAndSugar` | src/App.js:41-52 | flour 2.00 × 3 and sugar 1.50 × 2 cost 9.00 and sell for 11.70 |
| `Numerals.NatToString` | src/App.js:71 | a count renders as a non-empty string of decimal digits that starts with 0 only for the count 0 |
| `Numerals.NatToStringRoundTrip` | src/App.js:71 | reading the rendered digits back gives the count that was rendered |
| `Numerals.NatToStringInjective` | src/App.js:71 | different counts render as different strings |
| `App.CakeName` | src/App.js:71 | a cake name is never empty: the typed name when there is one, else "Cake " followed by the count of saved cakes plus one |
| `App.NewCake` | src/App.js:70-76 | a new cake holds the rows and the image unchanged, and its stored total and selling price are those of its rows |
| `App.ReplaceAt` | src/App.js:33-38 | the index-wise map puts the new value at an in-range index and keeps every other position; an out-of-range index leaves the list as it is |
| `App.RemoveAt` | src/App.js:84-85 | the index-wise filter drops exactly the element at an in-range index and keeps the others in order; an out-of-range index leaves the list as it is |
| `App.Workspace.constructor` | src/App.js:6-18 | start-up: one blank row, no name, no image, and the collection read from the durable entry, or empty when there is none |
| `App.Workspace.SetCakeName` | src/App.js:103 | typing a cake name changes the pending name and nothing else |
| `App.Workspace.AddIngredient` | src/App.js:28-30 | one blank row {"", 0, 1} is appended, earlier rows are kept, the total is unchanged, nothing else changes |
| `App.Workspace.ChangeIngredient` | src/App.js:33-38 | the length is kept; an in-range index gets the new row, every other row is kept and the total moves by the line-cost difference; an out-of-range index changes nothing |
| `App.Workspace.ImageUpload` | src/App.js:55-66 | a picked file's data URL becomes the pending image; with no file nothing changes |
| `App.Workspace.CreateCake` | src/App.js:69-81 | exactly one cake is appended after the earlier ones, built from the name (or default), rows, prices and image read before the step; the collection is persisted; the form is reset to one blank row, no name, no image; consistently priced collections stay so |
| `App.Workspace.DeleteCake` | src/App.js:84-88 | exactly the cake at an in-range index is removed, the rest keep their order; an out-of-range index keeps the collection as it is; on every call the durable entry is written and then holds exactly the new collection, even when empty |
| `App.Reload` | src/App.js:13-25 | a workspace started again from the durable entry has the same cakes in the same order, field for field |
| `App.DefaultNameExample` | src/App.js:71 | with two cakes saved and no name typed, the new cake is called "Cake 3" |
| `App.DefaultNamesDistinct` | src/App.js:71 | default names made for collections of different sizes differ |
| `App.DefaultNameCanRepeat` | src/App.js:71-85 | after deleting "Cake 1" from ["Cake 1", "Cake 2"], the next default name is "Cake 2" again |
| `App.UnparsableQuantityIsNotBlankDefault` | src/IngredientInput.js:13 | an unparsable quantity becomes 0, not the 1 a blank row starts with |
| `App.CostEditShiftsTotal` | src/IngredientInput.js:8-10 | a cost edit in one row moves the working total by the parsed cost (or 0) minus the old cost, times that row's quantity |

## Left out

- Rendering (JSX, CSS, the Home and Back buttons that have no handler): no behaviour to state.
- `parseFloat`: not modelled. `WithCost` and `WithQuantity` take the parse outcome of the typed text as an `Option<real>`, with None for NaN.
- Floating point: costs, quantities and prices are exact reals. IEEE-754 rounding and the two-decimal display (`toFixed(2)`) are not modelled.
- `FileReader` and the asynchronous base64 encoding of the image: `ImageUpload` receives the finished data URL. A read that completes after "create" is not modelled, nor a failed read, whose completion handler stores a null result and so clears the pending image.
- `localStorage` and JSON: the durable entry is the field `stored`, which holds the collection itself. Serialising and parsing back are taken as the identity. Storage and parse failures are not modelled.
- React's effect scheduling and batched state updates: each handler is one atomic step over the state read when it started. The save effect is folded into `CreateCake` and `DeleteCake`, the two steps that change the collection. After start-up the effect writes back the value just loaded, so it is not modelled separately.
