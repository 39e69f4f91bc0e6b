/**
 * The state of the `ReimbursementForm` component: its single-valued fields, the expense rows
 * and the attachment slots, and the handlers that replace them.
 */
module Form {
  import opened Wrappers
  import opened IdLists
  import opened Travel
  import opened Expenses
  import opened Attachments
  import opened Totals
  import opened Submission

  /** The header fields whose inputs store what was typed or selected, unchanged. */
  datatype TextField =
    | Company | EmployeeName | EmployeeIdent | Department | FormDate
    | ClientName | PurposeOfTravel | TravelDestination | SubmittedBy

  /** The header after one of those inputs changed. */
  function WithText(h: Header, field: TextField, value: string): Header {
    match field
    case Company => h.(company := value)
    case EmployeeName => h.(employeeName := value)
    case EmployeeIdent => h.(employeeIdent := value)
    case Department => h.(department := value)
    case FormDate => h.(date := value)
    case ClientName => h.(clientName := value)
    case PurposeOfTravel => h.(purposeOfTravel := value)
    case TravelDestination => h.(travelDestination := value)
    case SubmittedBy => h.(submittedBy := value)
  }

  /** What a submit ends in: refused by the checks, payload built but not delivered, or sent. */
  datatype SubmitOutcome = Refused(reason: Refusal) | Failed(payload: Payload) | Sent(payload: Payload)

  class FormState {
    var header: Header
    var expenses: seq<ExpenseRow>
    var attachments: seq<Attachment>

    /**
     * What the handlers keep true: the day count is the one the travel dates give, both lists
     * are non-empty with distinct ids, and every slot is well formed.
     */
    ghost predicate Valid()
      reads this
    {
      && header.noOfDays == DayCount(header.travelStartDate, header.travelEndDate)
      && |expenses| >= 1 && DistinctKeys(expenses, RowId)
      && |attachments| >= 1 && DistinctKeys(attachments, AttachmentId)
      && AllWellFormed(attachments)
    }

    /** The state the component mounts with and returns to after a successful submit. */
    predicate IsInitial()
      reads this
    {
      header == InitialHeader() && expenses == InitialRows() && attachments == InitialSlots()
    }

    constructor ()
      ensures IsInitial() && Valid()
    {
      header := InitialHeader();
      expenses := InitialRows();
      attachments := InitialSlots();
    }

    /** A text or select input of the header changed. */
    method SetText(field: TextField, value: string)
      modifies this
      ensures header == WithText(old(header), field, value)
      ensures expenses == old(expenses) && attachments == old(attachments)
      ensures old(Valid()) ==> Valid()
    {
      header := WithText(header, field, value);
    }

    /** The "billable to client" checkbox changed. */
    method SetBillable(billable: bool)
      modifies this
      ensures header == old(header).(isBillableToClient := billable)
      ensures expenses == old(expenses) && attachments == old(attachments)
      ensures old(Valid()) ==> Valid()
    {
      header := header.(isBillableToClient := billable);
    }

    /** The start date changed; the day-count effect then runs. */
    method SetTravelStartDate(d: TravelDate)
      modifies this
      ensures header == old(header).(travelStartDate := d, noOfDays := DayCount(d, old(header).travelEndDate))
      ensures expenses == old(expenses) && attachments == old(attachments)
      ensures old(Valid()) ==> Valid()
    {
      header := header.(travelStartDate := d);
      header := header.(noOfDays := DayCount(header.travelStartDate, header.travelEndDate));
    }

    /** The end date changed; the day-count effect then runs. */
    method SetTravelEndDate(d: TravelDate)
      modifies this
      ensures header == old(header).(travelEndDate := d, noOfDays := DayCount(old(header).travelStartDate, d))
      ensures expenses == old(expenses) && attachments == old(attachments)
      ensures old(Valid()) ==> Valid()
    {
      header := header.(travelEndDate := d);
      header := header.(noOfDays := DayCount(header.travelStartDate, header.travelEndDate));
    }

    /** `addExpenseRow`, with the id `Date.now()` would give passed in. */
    method AddExpenseRow(newId: string)
      modifies this
      ensures expenses == AddRow(old(expenses), newId)
      ensures header == old(header) && attachments == old(attachments)
      ensures old(Valid()) && (forall i :: 0 <= i < |old(expenses)| ==> old(expenses)[i].id != newId) ==> Valid()
    {
      if Valid() && forall i :: 0 <= i < |expenses| ==> expenses[i].id != newId {
        AddRowKeepsIdsDistinct(expenses, newId);
      }
      expenses := AddRow(expenses, newId);
    }

    /** `removeExpenseRow`. */
    method RemoveExpenseRow(id: string)
      modifies this
      ensures expenses == RemoveRow(old(expenses), id)
      ensures header == old(header) && attachments == old(attachments)
      ensures old(Valid()) ==> Valid()
    {
      if Valid() {
        RemoveKeepingOneSpec(expenses, RowId, id);
      }
      if |expenses| > 1 {
        expenses := WithoutId(expenses, RowId, id);
      }
    }

    /** `updateExpense(id, field, value)`. */
    method UpdateExpense(id: string, e: Edit)
      modifies this
      ensures expenses == UpdateRows(old(expenses), id, e)
      ensures header == old(header) && attachments == old(attachments)
      ensures old(Valid()) ==> Valid()
    {
      UpdateRowsSpec(expenses, id, e);
      expenses := UpdateRows(expenses, id, e);
    }

    /** `addAttachment`, with the id `Date.now()` would give passed in. */
    method AddAttachment(newId: string)
      modifies this
      ensures attachments == AddSlot(old(attachments), newId)
      ensures header == old(header) && expenses == old(expenses)
      ensures old(Valid()) && (forall i :: 0 <= i < |old(attachments)| ==> old(attachments)[i].id != newId) ==> Valid()
    {
      if Valid() && forall i :: 0 <= i < |attachments| ==> attachments[i].id != newId {
        AddSlotKeepsIdsDistinct(attachments, newId);
        SlotsStayWellFormed(attachments, newId, newId);
      }
      attachments := AddSlot(attachments, newId);
    }

    /** `removeAttachment`. */
    method RemoveAttachment(id: string)
      modifies this
      ensures attachments == RemoveSlot(old(attachments), id)
      ensures header == old(header) && expenses == old(expenses)
      ensures old(Valid()) ==> Valid()
    {
      if Valid() {
        RemoveKeepingOneSpec(attachments, AttachmentId, id);
        SlotsStayWellFormed(attachments, id, id);
      }
      if |attachments| > 1 {
        attachments := WithoutId(attachments, AttachmentId, id);
      }
    }

    /** `handleFileChange(id, file)`; `None` is no file chosen. */
    method HandleFileChange(id: string, file: Option<FileInfo>)
      modifies this
      ensures attachments == Attachments.HandleFileChange(old(attachments), id, file)
      ensures header == old(header) && expenses == old(expenses)
      ensures old(Valid()) ==> Valid()
    {
      HandleFileChangeSpec(attachments, id, file);
      attachments := Attachments.HandleFileChange(attachments, id, file);
    }

    /** The reset after a successful submit: every field back to its initial value. */
    method Reset()
      modifies this
      ensures IsInitial() && Valid()
    {
      header := InitialHeader();
      expenses := InitialRows();
      attachments := InitialSlots();
    }

    /**
     * `handleSubmit`. A refused submission changes nothing. Otherwise the payload is built from
     * the state, the totals and `language`; `delivered` says whether encoding the files and
     * posting the payload succeeded, and only then is the form reset.
     */
    method Submit(language: string, delivered: bool) returns (outcome: SubmitOutcome)
      modifies this
      ensures var refusal := CheckSubmission(old(header), old(attachments));
        refusal.Some? ==> outcome == Refused(refusal.value)
      ensures CheckSubmission(old(header), old(attachments)).None? ==>
        && !outcome.Refused?
        && outcome.payload == BuildPayload(old(header), old(expenses), old(attachments), TotalsOf(old(expenses)), language)
        && (outcome.Sent? <==> delivered)
      ensures outcome.Sent? ==> IsInitial()
      ensures !outcome.Sent? ==> header == old(header) && expenses == old(expenses) && attachments == old(attachments)
      ensures old(Valid()) ==> Valid()
    {
      var refusal := CheckSubmission(header, attachments);
      if refusal.Some? {
        return Refused(refusal.value);
      }
      var totals := CalculateTotals(expenses);
      var payload := BuildPayload(header, expenses, attachments, totals, language);
      if delivered {
        Reset();
        outcome := Sent(payload);
      } else {
        outcome := Failed(payload);
      }
    }
  }
}
