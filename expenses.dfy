/** The expense-row list of the reimbursement form and the edits made to one row. */
module Expenses {
  import opened Numbers
  import opened IdLists

  /** One line item; amounts are the text of the number inputs, as the form keeps them. */
  datatype ExpenseRow = ExpenseRow(
    id: string,
    date: string,
    particulars: string,
    refNo: string,
    currency: string,
    amountSource: string,
    fxRate: string,
    amountBilling: string,
    billableToClient: bool,
    expenseType: string)

  function RowId(row: ExpenseRow): string {
    row.id
  }

  /** The row the form starts with and that "add row" appends. */
  function DefaultRow(id: string): ExpenseRow {
    ExpenseRow(id, "", "", "", "MYR", "", "1", "", false, "meals")
  }

  /** The initial row list: one default row with id "1". */
  function InitialRows(): seq<ExpenseRow> {
    [DefaultRow("1")]
  }

  /** `addExpenseRow`: the existing rows, then one default row with the fresh id. */
  function AddRow(rows: seq<ExpenseRow>, newId: string): (r: seq<ExpenseRow>)
    ensures |r| == |rows| + 1 && r[..|rows|] == rows
    ensures r[|rows|].id == newId && r[|rows|].currency == "MYR" && r[|rows|].fxRate == "1"
    ensures r[|rows|].expenseType == "meals" && !r[|rows|].billableToClient
    ensures r[|rows|].date == r[|rows|].particulars == r[|rows|].refNo == ""
    ensures r[|rows|].amountSource == r[|rows|].amountBilling == ""
  {
    rows + [DefaultRow(newId)]
  }

  /** `removeExpenseRow`. */
  function RemoveRow(rows: seq<ExpenseRow>, id: string): seq<ExpenseRow> {
    RemoveKeepingOne(rows, RowId, id)
  }

  /**
   * The edits the form makes through `updateExpense(id, field, value)`, one per editable
   * field, each carrying the new value.
   */
  datatype Edit =
    | Date(date: string)
    | Particulars(particulars: string)
    | RefNo(refNo: string)
    | Currency(currency: string)
    | AmountSource(amountSource: string)
    | FxRate(fxRate: string)
    | Billable(billable: bool)
    | ExpenseType(expenseType: string)

  /** The billing amount: source amount (unparsable or zero reads as 0) times FX rate
      (unparsable or zero reads as 1), written with `toFixed(2)`. */
  function Billing(amountSource: string, fxRate: string): string {
    ToFixed2(AmountOf(amountSource) * RateOf(fxRate))
  }

  /** The row `updateExpense` builds for a row whose id matches. */
  function ApplyEdit(row: ExpenseRow, e: Edit): (r: ExpenseRow)
    ensures r.id == row.id
    ensures r.date == (if e.Date? then e.date else row.date)
    ensures r.particulars == (if e.Particulars? then e.particulars else row.particulars)
    ensures r.refNo == (if e.RefNo? then e.refNo else row.refNo)
    ensures r.currency == (if e.Currency? then e.currency else row.currency)
    ensures r.amountSource == (if e.AmountSource? then e.amountSource else row.amountSource)
    ensures r.fxRate == (if e.FxRate? then e.fxRate else row.fxRate)
    ensures r.billableToClient == (if e.Billable? then e.billable else row.billableToClient)
    ensures r.expenseType == (if e.ExpenseType? then e.expenseType else row.expenseType)
    ensures r.amountBilling
         == if e.AmountSource? || e.FxRate? then Billing(r.amountSource, r.fxRate) else row.amountBilling
  {
    match e
    case Date(v) => row.(date := v)
    case Particulars(v) => row.(particulars := v)
    case RefNo(v) => row.(refNo := v)
    case Currency(v) => row.(currency := v)
    case AmountSource(v) => row.(amountSource := v, amountBilling := Billing(v, row.fxRate))
    case FxRate(v) => row.(fxRate := v, amountBilling := Billing(row.amountSource, v))
    case Billable(v) => row.(billableToClient := v)
    case ExpenseType(v) => row.(expenseType := v)
  }

  /** `updateExpense(id, field, value)` over the whole list. */
  function UpdateRows(rows: seq<ExpenseRow>, id: string, e: Edit): seq<ExpenseRow> {
    ReplaceWhere(rows, RowId, id, (row: ExpenseRow) => ApplyEdit(row, e))
  }

  /** Only rows with the id change, each by `ApplyEdit`; ids, length and order are kept. */
  lemma UpdateRowsSpec(rows: seq<ExpenseRow>, id: string, e: Edit)
    ensures var r := UpdateRows(rows, id, e);
      && |r| == |rows|
      && (forall i :: 0 <= i < |rows| && rows[i].id != id ==> r[i] == rows[i])
      && (forall i :: 0 <= i < |rows| && rows[i].id == id ==> r[i] == ApplyEdit(rows[i], e))
      && (forall i :: 0 <= i < |rows| ==> r[i].id == rows[i].id)
    ensures DistinctKeys(rows, RowId) ==> DistinctKeys(UpdateRows(rows, id, e), RowId)
  {
    ReplaceWhereKeys(rows, RowId, id, (row: ExpenseRow) => ApplyEdit(row, e));
  }

  /**
   * What the billing text is worth when read back with `parseFloat(..) || 0`: the product
   * rounded to hundredths, never more than half a hundredth away from it.
   */
  lemma BillingReadBack(amountSource: string, fxRate: string)
    ensures var x := AmountOf(amountSource) * RateOf(fxRate);
      && AmountOf(Billing(amountSource, fxRate)) == Fixed2Value(x)
      && Fixed2Value(x) - x <= 0.005 && x - Fixed2Value(x) <= 0.005
  {
    var x := AmountOf(amountSource) * RateOf(fxRate);
    ToFixed2RoundTrip(x);
    Fixed2Nearest(x);
  }

  /** The FX rate a row is converted with is never zero, and an empty rate reads as 1. */
  lemma RateNeverZero(fxRate: string)
    ensures RateOf(fxRate) != 0.0
    ensures ParseFloat(fxRate).None? ==> RateOf(fxRate) == 1.0
  {
  }

  /** With distinct ids and a fresh id, adding a row keeps ids distinct. */
  lemma AddRowKeepsIdsDistinct(rows: seq<ExpenseRow>, newId: string)
    requires DistinctKeys(rows, RowId)
    requires forall i :: 0 <= i < |rows| ==> rows[i].id != newId
    ensures DistinctKeys(AddRow(rows, newId), RowId)
  {
    DistinctKeysAppend(rows, RowId, DefaultRow(newId));
  }
}
