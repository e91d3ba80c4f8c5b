/** The recipe workspace of src/App.js: the working ingredient rows, the pending cake name, the
    pending image and the collection of saved cakes, with the browser's durable 'cakes' entry.
    Each event handler is one atomic step over the state as it was when the handler started. */
module App {
  import opened Wrappers
  import opened Ingredients
  import opened Pricing
  import opened Numerals

  /** A saved recipe: a snapshot of the rows with the prices computed when it was created. */
  datatype Cake = Cake(
    name: string,
    ingredients: seq<Ingredient>,
    totalCost: real,
    sellingPrice: real,
    imageUrl: Option<string>)

  /** The row the form starts with and adds: no name, cost 0, quantity 1. */
  const BlankRow: Ingredient := Ingredient("", 0.0, 1.0)

  /** A cake whose stored prices are those of its own ingredient snapshot. */
  predicate Priced(c: Cake)
  {
    c.totalCost == TotalCost(c.ingredients) && c.sellingPrice == SellingPrice(c.ingredients)
  }

  predicate AllPriced(cakes: seq<Cake>)
  {
    forall k :: 0 <= k < |cakes| ==> Priced(cakes[k])
  }

  /** `cakeName || "Cake " + (count + 1)`: the typed name, or a numbered default when it is empty. */
  function CakeName(pending: string, count: nat): (name: string)
    ensures name != ""
    ensures pending != "" ==> name == pending
    ensures pending == "" ==> name == "Cake " + NatToString(count + 1)
  {
    if pending != "" then pending else "Cake " + NatToString(count + 1)
  }

  /** The cake that "create" builds from the form and the number of cakes already saved. */
  function NewCake(pending: string, count: nat, rows: seq<Ingredient>, image: Option<string>): (c: Cake)
    ensures Priced(c) && c.name != ""
    ensures c.name == CakeName(pending, count)
    ensures c.ingredients == rows && c.imageUrl == image
    ensures c.sellingPrice == c.totalCost * 1.3
  {
    Cake(CakeName(pending, count), rows, TotalCost(rows), SellingPrice(rows), image)
  }

  /** `s.map((e, i) => i === index ? x : e)`: position by position, the one at `index` becomes x.
      Any index outside the list, negative ones included, matches no position. */
  function ReplaceAt<T>(s: seq<T>, index: int, x: T): (r: seq<T>)
    ensures 0 <= index < |s| ==> r == s[index := x]
    ensures !(0 <= index < |s|) ==> r == s
    decreases |s|
  {
    if s == [] then []
    else [if index == 0 then x else s[0]] + ReplaceAt(s[1..], index - 1, x)
  }

  /** `s.filter((_, i) => i !== index)`: keep every position except `index`, in order. */
  function RemoveAt<T>(s: seq<T>, index: int): (r: seq<T>)
    ensures 0 <= index < |s| ==> r == s[..index] + s[index + 1..]
    ensures !(0 <= index < |s|) ==> r == s
    decreases |s|
  {
    if s == [] then []
    else (if index == 0 then [] else [s[0]]) + RemoveAt(s[1..], index - 1)
  }

  /** The component's state. `stored` is the durable 'cakes' entry, holding the collection
      itself (serialising and parsing it back is taken as the identity). */
  class Workspace {
    var ingredients: seq<Ingredient>
    var cakes: seq<Cake>
    var cakeName: string
    var image: Option<string>
    var stored: Option<seq<Cake>>

    /** There is always at least one row to edit, and the durable entry holds the collection
        itself, unless nothing was ever stored and the collection is empty. */
    ghost predicate Valid()
      reads this
    {
      |ingredients| >= 1 &&
      (stored == Some(cakes) || (stored == None && cakes == []))
    }

    /** Start-up: one blank row, no name, no image, and the collection read back from the
        durable entry, or empty when there is none. */
    constructor (storage: Option<seq<Cake>>)
      ensures Valid()
      ensures ingredients == [BlankRow] && cakeName == "" && image == None
      ensures cakes == (if storage.Some? then storage.value else [])
      ensures stored == storage
    {
      ingredients := [BlankRow];
      cakes := if storage.Some? then storage.value else [];
      cakeName := "";
      image := None;
      stored := storage;
    }

    /** Typing in the cake-name box. */
    method SetCakeName(text: string)
      requires Valid()
      modifies this
      ensures Valid()
      ensures cakeName == text
      ensures ingredients == old(ingredients) && cakes == old(cakes)
      ensures image == old(image) && stored == old(stored)
    {
      cakeName := text;
    }

    /** "Add ingredient": one more blank row at the end; the total does not move. */
    method AddIngredient()
      requires Valid()
      modifies this
      ensures Valid()
      ensures ingredients == old(ingredients) + [BlankRow]
      ensures TotalCost(ingredients) == TotalCost(old(ingredients))
      ensures cakes == old(cakes) && cakeName == old(cakeName)
      ensures image == old(image) && stored == old(stored)
    {
      ingredients := ingredients + [BlankRow];
      assert ingredients[..|ingredients| - 1] == old(ingredients);
    }

    /** An editor reported a new value for the row at `index`. */
    method ChangeIngredient(index: int, updated: Ingredient)
      requires Valid()
      modifies this
      ensures Valid()
      ensures ingredients == ReplaceAt(old(ingredients), index, updated)
      ensures |ingredients| == |old(ingredients)|
      ensures 0 <= index < |ingredients| ==> (
        ingredients[index] == updated &&
        (forall k :: 0 <= k < |ingredients| && k != index ==> ingredients[k] == old(ingredients)[k]) &&
        TotalCost(ingredients)
          == TotalCost(old(ingredients)) - LineCost(old(ingredients)[index]) + LineCost(updated))
      ensures !(0 <= index < |ingredients|) ==> ingredients == old(ingredients)
      ensures cakes == old(cakes) && cakeName == old(cakeName)
      ensures image == old(image) && stored == old(stored)
    {
      if 0 <= index < |ingredients| {
        TotalCostReplace(ingredients, index, updated);
      }
      ingredients := ReplaceAt(ingredients, index, updated);
    }

    /** A file was picked and read as a data URL (`file` is None when the picker was cleared,
        and then nothing happens). Reading the file is outside the model. */
    method ImageUpload(file: Option<string>)
      requires Valid()
      modifies this
      ensures Valid()
      ensures image == (if file.Some? then file else old(image))
      ensures ingredients == old(ingredients) && cakes == old(cakes)
      ensures cakeName == old(cakeName) && stored == old(stored)
    {
      if file.Some? {
        image := file;
      }
    }

    /** "Create cake": append a priced snapshot of the form to the collection, persist the
        collection, and clear the form. */
    method CreateCake()
      requires Valid()
      modifies this
      ensures Valid()
      ensures cakes == old(cakes) + [NewCake(old(cakeName), |old(cakes)|, old(ingredients), old(image))]
      ensures stored == Some(cakes)
      ensures ingredients == [BlankRow] && cakeName == "" && image == None
      ensures AllPriced(old(cakes)) ==> AllPriced(cakes)
    {
      var cake := NewCake(cakeName, |cakes|, ingredients, image);
      cakes := cakes + [cake];
      stored := Some(cakes);
      ingredients := [BlankRow];
      cakeName := "";
      image := None;
    }

    /** "Delete" on the cake at `index`: drop it, keep the others in order, and write the
        new collection to the durable entry even when it is now empty. */
    method DeleteCake(index: int)
      requires Valid()
      modifies this
      ensures Valid()
      ensures cakes == RemoveAt(old(cakes), index)
      ensures 0 <= index < |old(cakes)| ==> (
        |cakes| == |old(cakes)| - 1 &&
        (forall k :: 0 <= k < index ==> cakes[k] == old(cakes)[k]) &&
        (forall k :: index <= k < |cakes| ==> cakes[k] == old(cakes)[k + 1]))
      ensures !(0 <= index < |old(cakes)|) ==> cakes == old(cakes)
      ensures stored == Some(cakes)
      ensures AllPriced(old(cakes)) ==> AllPriced(cakes)
      ensures ingredients == old(ingredients) && cakeName == old(cakeName) && image == old(image)
    {
      cakes := RemoveAt(cakes, index);
      stored := Some(cakes);
    }
  }

  /** Reopening the page: a new workspace started from the durable entry has the same saved
      cakes, field for field and in the same order, and an empty form. */
  method Reload(w: Workspace) returns (w': Workspace)
    requires w.Valid()
    ensures w'.Valid()
    ensures w'.cakes == w.cakes && w'.stored == w.stored
    ensures w'.ingredients == [BlankRow] && w'.cakeName == "" && w'.image == None
  {
    w' := new Workspace(w.stored);
  }

  /** With two cakes saved and no name typed, the new cake is called "Cake 3". */
  lemma DefaultNameExample()
    ensures CakeName("", 2) == "Cake 3"
  {
  }

  /** Default names made for collections of different sizes differ. */
  lemma DefaultNamesDistinct(m: nat, n: nat)
    requires m != n
    ensures CakeName("", m) != CakeName("", n)
  {
    if CakeName("", m) == CakeName("", n) {
      assert NatToString(m + 1) == CakeName("", m)[5..];
      NatToStringInjective(m + 1, n + 1);
    }
  }

  /** Default names are not unique over time: the number comes from the current size, so after
      "Cake 1" is deleted from ["Cake 1", "Cake 2"], the next default name is "Cake 2" again. */
  lemma DefaultNameCanRepeat(first: Cake, second: Cake)
    requires second.name == CakeName("", 1)
    ensures |RemoveAt([first, second], 0)| == 1
    ensures CakeName("", |RemoveAt([first, second], 0)|) == RemoveAt([first, second], 0)[0].name
  {
  }

  /** An unparsable quantity gives 0, not the 1 a new blank row starts with. */
  lemma UnparsableQuantityIsNotBlankDefault(ing: Ingredient)
    ensures WithQuantity(ing, None).quantity == 0.0 != BlankRow.quantity
  {
  }

  /** A cost typed into the row at `index`, passed up through ChangeIngredient, moves the total
      by the parsed cost (0 when the text does not parse) minus the old cost, times the row's
      quantity. */
  lemma CostEditShiftsTotal(rows: seq<Ingredient>, index: int, parsed: Option<real>)
    requires 0 <= index < |rows|
    ensures TotalCost(rows[index := WithCost(rows[index], parsed)])
         == TotalCost(rows) + (OrZero(parsed) - rows[index].cost) * rows[index].quantity
  {
    assert WithCost(rows[index], parsed) == rows[index].(cost := OrZero(parsed));
    TotalCostCostShift(rows, index, OrZero(parsed));
  }
}
