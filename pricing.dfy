/** The two pure computations of src/App.js: the total cost of the working rows and the selling
    price with the fixed 30% margin. Amounts are exact reals; the browser's floating point and the
    two-decimal display are outside the model. */
module Pricing {
  import opened Ingredients

  /** The fixed profit margin (src/App.js:10). */
  const ProfitMargin: real := 0.30

  /** What one row contributes: unit cost times quantity. */
  function LineCost(ing: Ingredient): real
  {
    ing.cost * ing.quantity
  }

  /** `calculateTotalCost`: a left-to-right `reduce` over the rows, starting from 0. */
  function TotalCost(rows: seq<Ingredient>): (total: real)
    ensures rows == [] ==> total == 0.0
    decreases |rows|
  {
    if rows == [] then 0.0
    else TotalCost(rows[..|rows| - 1]) + LineCost(rows[|rows| - 1])
  }

  /** The same sum written the other way round, first row first: the reference definition of
      "the sum of cost times quantity over the rows". */
  function Sum(rows: seq<Ingredient>): real
    decreases |rows|
  {
    if rows == [] then 0.0 else LineCost(rows[0]) + Sum(rows[1..])
  }

  /** `calculateSellingPrice`: the total plus the margin on it, that is 130% of the total. */
  function SellingPrice(rows: seq<Ingredient>): (price: real)
    ensures price == TotalCost(rows) * 1.3
    ensures price == 0.0 <==> TotalCost(rows) == 0.0
    ensures TotalCost(rows) >= 0.0 ==> price >= TotalCost(rows)
  {
    var total := TotalCost(rows);
    total + total * ProfitMargin
  }

  /** The total of two lists run one after the other is the sum of their totals. */
  lemma {:induction false} TotalCostAppend(a: seq<Ingredient>, b: seq<Ingredient>)
    ensures TotalCost(a + b) == TotalCost(a) + TotalCost(b)
    decreases |b|
  {
    if b != [] {
      var init := b[..|b| - 1];
      TotalCostAppend(a, init);
      assert (a + b)[..|a + b| - 1] == a + init;
      assert (a + b)[|a + b| - 1] == b[|b| - 1];
    } else {
      assert a + b == a;
    }
  }

  /** The `reduce` computes exactly the sum of cost times quantity over the rows. */
  lemma {:induction false} TotalCostIsSum(rows: seq<Ingredient>)
    ensures TotalCost(rows) == Sum(rows)
    decreases |rows|
  {
    if rows != [] {
      TotalCostIsSum(rows[1..]);
      TotalCostAppend([rows[0]], rows[1..]);
      assert [rows[0]] + rows[1..] == rows;
      assert [rows[0]][..0] == [];
    }
  }

  /** Replacing one row moves the total by exactly the difference of the two line costs. */
  lemma TotalCostReplace(rows: seq<Ingredient>, i: int, x: Ingredient)
    requires 0 <= i < |rows|
    ensures TotalCost(rows[i := x]) == TotalCost(rows) - LineCost(rows[i]) + LineCost(x)
  {
    var pre, post := rows[..i], rows[i + 1..];
    assert rows == pre + [rows[i]] + post;
    assert rows[i := x] == pre + [x] + post;
    TotalCostAppend(pre + [rows[i]], post);
    TotalCostAppend(pre, [rows[i]]);
    TotalCostAppend(pre + [x], post);
    TotalCostAppend(pre, [x]);
    assert [x][..0] == [] && [rows[i]][..0] == [];
  }

  /** Changing only the unit cost of one row moves the total by the change in unit cost times
      that row's quantity. */
  lemma TotalCostCostShift(rows: seq<Ingredient>, i: int, cost: real)
    requires 0 <= i < |rows|
    ensures TotalCost(rows[i := rows[i].(cost := cost)])
         == TotalCost(rows) + (cost - rows[i].cost) * rows[i].quantity
  {
    TotalCostReplace(rows, i, rows[i].(cost := cost));
  }

  /** When every row has a non-negative cost and quantity, the total is non-negative. */
  lemma {:induction false} TotalCostNonNegative(rows: seq<Ingredient>)
    requires forall k :: 0 <= k < |rows| ==> rows[k].cost >= 0.0 && rows[k].quantity >= 0.0
    ensures TotalCost(rows) >= 0.0
    decreases |rows|
  {
    if rows != [] {
      TotalCostNonNegative(rows[..|rows| - 1]);
    }
  }

  /** The editor does not reject negative numbers, so one negative cost is enough to make the
      total, and with it the selling price, negative. */
  lemma NegativeCostGivesNegativeTotal(name: string)
    ensures TotalCost([Ingredient(name, -2.0, 1.0)]) == -2.0
    ensures SellingPrice([Ingredient(name, -2.0, 1.0)]) < 0.0
  {
  }

  /** Flour at 2.00 times 3 and sugar at 1.50 times 2 cost 9.00 and sell for 11.70. */
  lemma FlourAndSugar()
    ensures TotalCost([Ingredient("Flour", 2.0, 3.0), Ingredient("Sugar", 1.5, 2.0)]) == 9.0
    ensures SellingPrice([Ingredient("Flour", 2.0, 3.0), Ingredient("Sugar", 1.5, 2.0)]) == 11.7
  {
  }
}
