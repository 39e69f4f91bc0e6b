/** `handleSubmit` without its I/O: the checks that refuse a submission, and the payload. */
module Submission {
  import opened Wrappers
  import opened Numbers
  import opened Travel
  import opened Expenses
  import opened Attachments
  import opened Totals

  /** The form's single-valued fields. */
  datatype Header = Header(
    company: string,
    employeeName: string,
    employeeIdent: string,
    department: string,
    date: string,
    isBillableToClient: bool,
    clientName: string,
    purposeOfTravel: string,
    travelStartDate: TravelDate,
    travelEndDate: TravelDate,
    noOfDays: string,
    travelDestination: string,
    submittedBy: string)

  /** Every field empty, the billable flag off. */
  function InitialHeader(): Header {
    Header("", "", "", "", "", false, "", "", None, None, "", "", "")
  }

  /** Why a submission is refused, in the order the checks run. */
  datatype Refusal = MissingRequiredFields | InvalidAttachments

  /** Company, employee name, employee id, department and date are all filled in. */
  predicate RequiredFieldsFilled(h: Header) {
    h.company != "" && h.employeeName != "" && h.employeeIdent != "" && h.department != "" && h.date != ""
  }

  /** A slot that holds a file and shows no message. */
  predicate AttachmentReady(a: Attachment) {
    a.error == NoError && a.file.Some?
  }

  /** The two checks at the top of `handleSubmit`; `None` lets the submission go ahead. */
  function CheckSubmission(h: Header, atts: seq<Attachment>): (r: Option<Refusal>)
    ensures r == Some(MissingRequiredFields) <==> !RequiredFieldsFilled(h)
    ensures r == Some(InvalidAttachments)
        <==> RequiredFieldsFilled(h) && exists i :: 0 <= i < |atts| && !AttachmentReady(atts[i])
    ensures r.None? <==> RequiredFieldsFilled(h) && forall i :: 0 <= i < |atts| ==> AttachmentReady(atts[i])
  {
    if !RequiredFieldsFilled(h) then Some(MissingRequiredFields)
    else if exists i :: 0 <= i < |atts| && !AttachmentReady(atts[i]) then Some(InvalidAttachments)
    else None
  }

  /** Only the five required fields take part in the checks; `submittedBy`, for one, does not. */
  lemma CheckReadsRequiredFieldsOnly(h: Header, h': Header, atts: seq<Attachment>)
    requires h.company == h'.company && h.employeeName == h'.employeeName
    requires h.employeeIdent == h'.employeeIdent && h.department == h'.department && h.date == h'.date
    ensures CheckSubmission(h, atts) == CheckSubmission(h', atts)
  {
  }

  /** One expense as sent. */
  datatype ExpenseLine = ExpenseLine(
    date: string,
    particulars: string,
    refNo: string,
    currency: string,
    amountSource: real,
    fxRate: real,
    amountMYR: real,
    billableToClient: bool,
    expenseType: string)

  /** One attachment as sent; its base64 content is not part of this model. */
  datatype AttachmentLine = AttachmentLine(name: string, contentType: string)

  /** The JSON document posted to the webhook; `noOfDays` is `None` where JavaScript has `NaN`. */
  datatype Payload = Payload(
    company: string,
    employeeName: string,
    employeeIdent: string,
    department: string,
    date: string,
    billableToClient: string,
    clientName: string,
    purposeOfTravel: string,
    travelStartDate: TravelDate,
    travelEndDate: TravelDate,
    noOfDays: Option<nat>,
    travelDestination: string,
    expenses: seq<ExpenseLine>,
    totals: Totals,
    submittedBy: string,
    language: string,
    attachments: seq<AttachmentLine>)

  function ExpenseLineOf(row: ExpenseRow): ExpenseLine {
    ExpenseLine(
      row.date, row.particulars, row.refNo, row.currency,
      AmountOf(row.amountSource), RateOf(row.fxRate), AmountOf(row.amountBilling),
      row.billableToClient, row.expenseType)
  }

  function ExpenseLines(rows: seq<ExpenseRow>): seq<ExpenseLine> {
    seq(|rows|, i requires 0 <= i < |rows| => ExpenseLineOf(rows[i]))
  }

  /** The attachments mapped to their lines, the slots without a file dropped (`filter(Boolean)`). */
  function AttachmentLines(atts: seq<Attachment>): (r: seq<AttachmentLine>)
    ensures |r| <= |atts|
  {
    if atts == [] then []
    else
      (if atts[0].file.Some? then [AttachmentLine(atts[0].file.value.name, atts[0].file.value.mimeType)] else [])
      + AttachmentLines(atts[1..])
  }

  /** `noOfDays ? Number(noOfDays) : 0`. */
  function DaysField(noOfDays: string): Option<nat> {
    if noOfDays == "" then Some(0) else NumberOfDigits(noOfDays)
  }

  /** The payload built from the form's state, the totals and the selected language. */
  function BuildPayload(h: Header, rows: seq<ExpenseRow>, atts: seq<Attachment>, totals: Totals, language: string): Payload {
    Payload(
      h.company, h.employeeName, h.employeeIdent, h.department, h.date,
      if h.isBillableToClient then "yes" else "no",
      if h.isBillableToClient then h.clientName else "",
      h.purposeOfTravel, h.travelStartDate, h.travelEndDate,
      DaysField(h.noOfDays),
      h.travelDestination,
      ExpenseLines(rows),
      totals,
      h.submittedBy,
      language,
      AttachmentLines(atts))
  }

  /**
   * The payload rules: the billable flag as "yes"/"no", the client name only when billable, no
   * days as 0, one expense line per row in order with the amounts read as numbers (an
   * unreadable or zero rate sent as 1, never 0).
   */
  lemma PayloadRules(h: Header, rows: seq<ExpenseRow>, atts: seq<Attachment>, totals: Totals, language: string)
    ensures var p := BuildPayload(h, rows, atts, totals, language);
      && (p.billableToClient == "yes" <==> h.isBillableToClient)
      && (p.billableToClient == "no" <==> !h.isBillableToClient)
      && p.clientName == (if h.isBillableToClient then h.clientName else "")
      && (h.noOfDays == "" ==> p.noOfDays == Some(0))
      && |p.expenses| == |rows|
      && (forall i :: 0 <= i < |rows| ==>
            && p.expenses[i].date == rows[i].date
            && p.expenses[i].expenseType == rows[i].expenseType
            && p.expenses[i].amountSource == AmountOf(rows[i].amountSource)
            && p.expenses[i].amountMYR == AmountOf(rows[i].amountBilling)
            && p.expenses[i].fxRate == RateOf(rows[i].fxRate) != 0.0
            && (ParseFloat(rows[i].fxRate).None? ==> p.expenses[i].fxRate == 1.0))
      && p.totals == totals && p.language == language && p.submittedBy == h.submittedBy
  {
  }

  /** With every slot holding a file, there is one attachment line per slot, in order. */
  lemma {:induction false} AttachmentLinesOfReady(atts: seq<Attachment>)
    requires forall i :: 0 <= i < |atts| ==> atts[i].file.Some?
    ensures var r := AttachmentLines(atts);
      && |r| == |atts|
      && forall i :: 0 <= i < |atts| ==>
           r[i] == AttachmentLine(atts[i].file.value.name, atts[i].file.value.mimeType)
  {
    if atts != [] {
      AttachmentLinesOfReady(atts[1..]);
    }
  }

  /** The day count the payload carries when the header's count is the one the effect computed. */
  function SentDays(h: Header): nat {
    var s, e := h.travelStartDate, h.travelEndDate;
    if s.Some? && e.Some? && e.value >= s.value then e.value - s.value + 1 else 0
  }

  /**
   * A payload that passes the checks, built from a form kept consistent by its handlers,
   * carries the day count of the travel dates, one PDF of at most 10 MB per slot, and totals
   * whose `total` is the sum of the nine categories when every row has one of the nine types.
   */
  lemma CheckedPayload(h: Header, rows: seq<ExpenseRow>, atts: seq<Attachment>, language: string)
    requires h.noOfDays == DayCount(h.travelStartDate, h.travelEndDate)
    requires AllWellFormed(atts)
    requires CheckSubmission(h, atts).None?
    ensures var p := BuildPayload(h, rows, atts, TotalsOf(rows), language);
      && p.noOfDays == Some(SentDays(h))
      && |p.attachments| == |atts|
      && (forall i :: 0 <= i < |atts| ==> p.attachments[i].contentType == PdfType)
      && (forall i :: 0 <= i < |atts| ==> atts[i].file.Some? && atts[i].file.value.size <= MaxFileSize)
      && ((forall i :: 0 <= i < |rows| ==> rows[i].expenseType in Categories) ==> p.totals.total == CategoriesTotal(p.totals))
  {
    DayCountSpec(h.travelStartDate, h.travelEndDate);
    AttachmentLinesOfReady(atts);
    if forall i :: 0 <= i < |rows| ==> rows[i].expenseType in Categories {
      TotalIsSumOfCategories(rows);
    }
  }
}
