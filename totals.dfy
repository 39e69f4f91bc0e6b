/** `calculateTotals`: the billing amounts summed per expense category and overall. */
module Totals {
  import opened Numbers
  import opened Expenses

  /** The record `calculateTotals` returns: one sum per category, and `total`. */
  datatype Totals = Totals(
    meals: real,
    transportation: real,
    flight: real,
    employeeEngagement: real,
    accommodation: real,
    clientEntertainmentPotential: real,
    clientEntertainmentExisting: real,
    mileage: real,
    petrol: real,
    total: real)

  /** The nine expense types the form offers. */
  const Categories: seq<string> := [
    "meals", "transportation", "flight", "employeeEngagement", "accommodation",
    "clientEntertainmentPotential", "clientEntertainmentExisting", "mileage", "petrol"]

  /** A row's billing amount as the totals read it: `parseFloat(amountBilling) || 0`. */
  function BillingAmount(row: ExpenseRow): real {
    AmountOf(row.amountBilling)
  }

  /** The billing amounts of the rows of type `category`. */
  function CategorySum(rows: seq<ExpenseRow>, category: string): real {
    if rows == [] then 0.0
    else
      (if rows[0].expenseType == category then BillingAmount(rows[0]) else 0.0)
      + CategorySum(rows[1..], category)
  }

  /** The billing amounts of all rows, whatever their type. */
  function GrandSum(rows: seq<ExpenseRow>): real {
    if rows == [] then 0.0 else BillingAmount(rows[0]) + GrandSum(rows[1..])
  }

  /** The totals by their definition: each field is the sum over the rows it stands for. */
  function TotalsOf(rows: seq<ExpenseRow>): Totals {
    Totals(
      CategorySum(rows, "meals"),
      CategorySum(rows, "transportation"),
      CategorySum(rows, "flight"),
      CategorySum(rows, "employeeEngagement"),
      CategorySum(rows, "accommodation"),
      CategorySum(rows, "clientEntertainmentPotential"),
      CategorySum(rows, "clientEntertainmentExisting"),
      CategorySum(rows, "mileage"),
      CategorySum(rows, "petrol"),
      GrandSum(rows))
  }

  /** The nine category fields added up. */
  function CategoriesTotal(t: Totals): real {
    t.meals + t.transportation + t.flight + t.employeeEngagement + t.accommodation
    + t.clientEntertainmentPotential + t.clientEntertainmentExisting + t.mileage + t.petrol
  }

  /** One more row adds its amount to its own category, and to no other. */
  lemma {:induction false} CategorySumSnoc(rows: seq<ExpenseRow>, row: ExpenseRow, category: string)
    ensures CategorySum(rows + [row], category)
         == CategorySum(rows, category) + (if row.expenseType == category then BillingAmount(row) else 0.0)
  {
    if rows != [] {
      assert (rows + [row])[1..] == rows[1..] + [row];
      CategorySumSnoc(rows[1..], row, category);
    } else {
      assert [row][1..] == [];
    }
  }

  lemma {:induction false} GrandSumSnoc(rows: seq<ExpenseRow>, row: ExpenseRow)
    ensures GrandSum(rows + [row]) == GrandSum(rows) + BillingAmount(row)
  {
    if rows != [] {
      assert (rows + [row])[1..] == rows[1..] + [row];
      GrandSumSnoc(rows[1..], row);
    } else {
      assert [row][1..] == [];
    }
  }

  /** When every row has one of the nine types, `total` is the sum of the nine category totals. */
  lemma {:induction false} TotalIsSumOfCategories(rows: seq<ExpenseRow>)
    requires forall i :: 0 <= i < |rows| ==> rows[i].expenseType in Categories
    ensures TotalsOf(rows).total == CategoriesTotal(TotalsOf(rows))
  {
    if rows != [] {
      TotalIsSumOfCategories(rows[1..]);
      assert rows[0].expenseType in Categories;
    }
  }

  /** What an amount of type `expenseType` adds to the field of `category`. */
  function Share(expenseType: string, category: string, amount: real): real {
    if expenseType == category then amount else 0.0
  }

  /** The totals with `amount` added to the category field named by `expenseType`, if any. */
  function AddShare(t: Totals, expenseType: string, amount: real): Totals {
    Totals(
      t.meals + Share(expenseType, "meals", amount),
      t.transportation + Share(expenseType, "transportation", amount),
      t.flight + Share(expenseType, "flight", amount),
      t.employeeEngagement + Share(expenseType, "employeeEngagement", amount),
      t.accommodation + Share(expenseType, "accommodation", amount),
      t.clientEntertainmentPotential + Share(expenseType, "clientEntertainmentPotential", amount),
      t.clientEntertainmentExisting + Share(expenseType, "clientEntertainmentExisting", amount),
      t.mileage + Share(expenseType, "mileage", amount),
      t.petrol + Share(expenseType, "petrol", amount),
      t.total)
  }

  /** Totals after one more row: its amount goes to `total` and to the field of its type. */
  lemma TotalsOfSnoc(rows: seq<ExpenseRow>, row: ExpenseRow)
    ensures var t, a := TotalsOf(rows), BillingAmount(row);
      TotalsOf(rows + [row]) == AddShare(t, row.expenseType, a).(total := t.total + a)
  {
    CategorySumSnoc(rows, row, "meals");
    CategorySumSnoc(rows, row, "transportation");
    CategorySumSnoc(rows, row, "flight");
    CategorySumSnoc(rows, row, "employeeEngagement");
    CategorySumSnoc(rows, row, "accommodation");
    CategorySumSnoc(rows, row, "clientEntertainmentPotential");
    CategorySumSnoc(rows, row, "clientEntertainmentExisting");
    CategorySumSnoc(rows, row, "mileage");
    CategorySumSnoc(rows, row, "petrol");
    GrandSumSnoc(rows, row);
  }

  /** `TotalsOfSnoc` for the prefixes of one sequence of rows. */
  lemma TotalsOfPrefix(rows: seq<ExpenseRow>, i: nat)
    requires i < |rows|
    ensures var t, a := TotalsOf(rows[..i]), BillingAmount(rows[i]);
      TotalsOf(rows[..i + 1]) == AddShare(t, rows[i].expenseType, a).(total := t.total + a)
  {
    assert rows[..i + 1] == rows[..i] + [rows[i]];
    TotalsOfSnoc(rows[..i], rows[i]);
  }

  /** Rows of a type outside the nine count towards `total` only. */
  lemma UnknownTypeCountsInTotalOnly(rows: seq<ExpenseRow>, row: ExpenseRow)
    requires row.expenseType !in Categories
    ensures CategoriesTotal(TotalsOf(rows + [row])) == CategoriesTotal(TotalsOf(rows))
    ensures TotalsOf(rows + [row]).total == TotalsOf(rows).total + BillingAmount(row)
  {
    TotalsOfSnoc(rows, row);
  }

  /** The nine type names differ from each other (by length, and "flight" from "petrol" by its first letter). */
  lemma CategoryNamesDiffer()
    ensures |"meals"| == 5 && |"transportation"| == 14 && |"flight"| == 6 && |"employeeEngagement"| == 18
    ensures |"accommodation"| == 13 && |"clientEntertainmentPotential"| == 28
    ensures |"clientEntertainmentExisting"| == 27 && |"mileage"| == 7 && |"petrol"| == 6
    ensures "flight"[0] != "petrol"[0]
  {
  }

  /** The `if`/`else if` chain in `calculateTotals` that adds an amount to its category. */
  method AddToCategory(totals: Totals, expenseType: string, amount: real) returns (next: Totals)
    ensures next == AddShare(totals, expenseType, amount)
  {
    CategoryNamesDiffer();
    next := totals;
    if expenseType == "meals" {
      next := next.(meals := next.meals + amount);
    } else if expenseType == "transportation" {
      next := next.(transportation := next.transportation + amount);
    } else if expenseType == "flight" {
      next := next.(flight := next.flight + amount);
    } else if expenseType == "employeeEngagement" {
      next := next.(employeeEngagement := next.employeeEngagement + amount);
    } else if expenseType == "accommodation" {
      next := next.(accommodation := next.accommodation + amount);
    } else if expenseType == "clientEntertainmentPotential" {
      next := next.(clientEntertainmentPotential := next.clientEntertainmentPotential + amount);
    } else if expenseType == "clientEntertainmentExisting" {
      next := next.(clientEntertainmentExisting := next.clientEntertainmentExisting + amount);
    } else if expenseType == "mileage" {
      next := next.(mileage := next.mileage + amount);
    } else if expenseType == "petrol" {
      next := next.(petrol := next.petrol + amount);
    }
  }

  /**
   * `calculateTotals`: one pass over the rows; each row's amount goes to `total`, and to the
   * field of its type when that is one of the nine.
   */
  method CalculateTotals(expenses: seq<ExpenseRow>) returns (totals: Totals)
    ensures totals == TotalsOf(expenses)
  {
    totals := Totals(0.0, 0.0, 0.0, 0.0, 0.0, 0.0, 0.0, 0.0, 0.0, 0.0);
    var i := 0;
    while i < |expenses|
      invariant 0 <= i <= |expenses|
      invariant totals == TotalsOf(expenses[..i])
    {
      var exp := expenses[i];
      TotalsOfPrefix(expenses, i);
      var amount := BillingAmount(exp);
      totals := totals.(total := totals.total + amount);
      totals := AddToCategory(totals, exp.expenseType, amount);
      i := i + 1;
    }
    assert expenses[..i] == expenses;
  }
}
