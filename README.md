# Reimbursement form: a Dafny model of its form state

The `ReimbursementForm` component is a browser form for expense reimbursement claims. A user
fills in employee and travel details, a list of expense rows and a list of PDF attachment slots.
Submitting packs the data into one JSON payload for a workflow webhook. This project models what
the component does with its state once rendering, the file reader and the network are removed:

- the initial state: empty header fields, one default expense row and one empty slot, each with id "1";
- the day count derived from the travel start and end dates;
- adding, removing and editing expense rows, including how the billing amount (source amount ×
  FX rate, rounded to hundredths) is recomputed;
- adding and removing attachment slots, and the size and type check on a chosen file;
- per-category and grand totals of the billing amounts;
- the submit checks, the payload, and the reset after a successful send.

Modules, one per part of the component:

| file | module | what it holds |
|---|---|---|
| wrappers.dfy | `Wrappers` | `Option` (null, an empty field, or `NaN`) |
| numbers.dfy | `Numbers` | `parseFloat`, `x \|\| d`, `toFixed(2)` and `String(n)`/`Number(s)` on digit strings, with their round trips |
| idlists.dfy | `IdLists` | `filter` by id with the one-element floor, `map` over the element with an id |
| expenses.dfy | `Expenses` | the expense row, the default row, the edits and the billing amount |
| attachments.dfy | `Attachments` | the attachment slot and the file check |
| totals.dfy | `Totals` | `calculateTotals` as a loop, proved against sums defined per category |
| travel.dfy | `Travel` | the day-count effect |
| submission.dfy | `Submission` | the header record, the submit checks and the payload |
| form.dfy | `Form` | the class `FormState` whose methods are the component's handlers |

Modelling choices:

- Amounts are exact `real`s. `Number.parseFloat` is written out as a prefix parser. It skips ASCII
  white space, reads an optional sign, then digits with an optional fraction, and ignores whatever
  follows; `None` is `NaN`. `toFixed(2)` is written out too. It rounds the magnitude to the nearest
  hundredth, a tie going up, and puts `-` in front of a negative argument. What `toFixed(2)`
  writes, `parseFloat` reads back exactly (`Numbers.ToFixed2RoundTrip`). So the totals add up the
  rounded billing amounts.
- Travel dates are integer day numbers, and `None` is the empty field. "No. of Days" stays a text
  field, as in the component: `String(n)` or "".
- Ids are strings, and the id that `Date.now()` would give is a parameter of the add handlers.
  `FormState.Valid()` includes "ids are distinct", so the add handlers promise `Valid()` only for
  an id that is not already in the list. Under that invariant the remove handlers can never empty
  a list.
- The size and type messages (translated strings) are the values `SizeError` and `TypeError`, and
  `NoError` is the empty message.
- `handleSubmit` becomes `FormState.Submit(language, delivered)`. `language` is the language
  provider's current language. `delivered` says whether encoding the files, finding the webhook
  URL and posting the payload all succeeded. The outcome is `Refused(reason)`, `Failed(payload)` or
  `Sent(payload)`, and only `Sent` resets the state.

## Model

| member | source | states |
|---|---|---|
| `Form.FormState.constructor` | components/reimbursement-form.tsx:76-109 | the component starts with empty header fields, billable off, one default row with id "1" and one empty slot with id "1", and that state satisfies the form invariant |
| `Form.FormState.SetText` | components/reimbursement-form.tsx:77-90 | a text or select input of the header stores its value in its own field only; rows, slots and the invariant are kept |
| `Form.FormState.SetBillable` | components/reimbursement-form.tsx:510 | the checkbox sets only the billable flag |
| `Form.FormState.SetTravelStartDate` | components/reimbursement-form.tsx:112-126 | a new start date is stored, then the day count is recomputed from both dates |
| `Form.FormState.SetTravelEndDate` | components/reimbursement-form.tsx:112-126 | a new end date is stored, then the day count is recomputed from both dates |
| `Form.FormState.AddExpenseRow` | components/reimbursement-form.tsx:128-144 | the row list becomes the old list plus one default row; nothing else changes; the invariant is kept when the new id is fresh |
| `Form.FormState.RemoveExpenseRow` | components/reimbursement-form.tsx:146-150 | the row list is filtered by id unless it has one row; the invariant, including non-emptiness, is kept |
| `Form.FormState.UpdateExpense` | components/reimbursement-form.tsx:152-170 | the row list is mapped with the edit on the rows with the id; nothing else changes; the invariant is kept |
| `Form.FormState.AddAttachment` | components/reimbursement-form.tsx:172-174 | the slot list gains one empty slot at the end; the invariant is kept when the new id is fresh |
| `Form.FormState.RemoveAttachment` | components/reimbursement-form.tsx:176-180 | the slot list is filtered by id unless it has one slot; the invariant is kept |
| `Form.FormState.HandleFileChange` | components/reimbursement-form.tsx:182-205 | the slot with the id gets the checked file; other slots, rows and header are untouched |
| `Form.FormState.Reset` | components/reimbursement-form.tsx:353-381 | every field returns to the initial one-row, one-slot state |
| `Form.FormState.Submit` | components/reimbursement-form.tsx:257-390 | a refused submit returns the reason and changes nothing; otherwise the payload is built from the state and the totals of its rows; the state is reset exactly when the payload was delivered |
| `Travel.DayCountSpec` | components/reimbursement-form.tsx:112-126 | the day count is non-empty exactly when both dates are set and end ≥ start, and then it reads as end − start + 1 ≥ 1 |
| `Expenses.AddRow` | components/reimbursement-form.tsx:128-144 | the old rows are kept as a prefix, followed by one row with the new id, currency "MYR", rate "1", type "meals", billable off and empty text fields |
| `Expenses.AddRowKeepsIdsDistinct` | components/reimbursement-form.tsx:128-144 | adding a row with a fresh id keeps ids distinct |
| `IdLists.WithoutId` | components/reimbursement-form.tsx:148 | the filtered list holds exactly the elements of the list whose id differs |
| `IdLists.WithoutDistinctId` | components/reimbursement-form.tsx:148 | with distinct ids, filtering out the id at index k deletes exactly element k and keeps the order of the rest |
| `IdLists.WithoutAbsentId` | components/reimbursement-form.tsx:178 | filtering out an id that no element has leaves the list as it was |
| `IdLists.RemoveKeepingOneSpec` | components/reimbursement-form.tsx:146-150 | on a list with distinct ids, removal leaves a length-1 list alone, deletes only the element with the id, keeps the order, keeps ids distinct and never empties the list |
| `IdLists.DistinctKeysAppend` | components/reimbursement-form.tsx:173 | appending an element with a fresh id keeps ids distinct |
| `IdLists.ReplaceWhereKeys` | components/reimbursement-form.tsx:154-168 | mapping with a function that keeps ids keeps every id in place, so distinct ids stay distinct |
| `Expenses.ApplyEdit` | components/reimbursement-form.tsx:155-166 | an edit sets only the named field of the row; the billing amount is recomputed from the updated source amount and rate exactly when the edit is to the source amount or the rate, and kept otherwise |
| `Expenses.UpdateRowsSpec` | components/reimbursement-form.tsx:152-170 | `updateExpense` keeps the length and every id, leaves the rows with other ids unchanged and applies the edit to the rows with the id |
| `Expenses.BillingReadBack` | components/reimbursement-form.tsx:160-162 | the billing text reads back as the product of source amount and rate rounded to hundredths, at most 0.005 away from it |
| `Expenses.RateNeverZero` | components/reimbursement-form.tsx:161 | the rate the conversion uses is never 0, and an unparsable rate counts as 1 |
| `Numbers.OrDefaultCases` | components/reimbursement-form.tsx:160-161 | `x \|\| d` gives `d` for `NaN` and for zero, and `x` for any other number |
| `Numbers.ParseUnsignedDefined` | components/reimbursement-form.tsx:160 | after the sign, `parseFloat` finds a number exactly when the text starts with a digit, or with `.` and a digit |
| `Numbers.CentsOf` | components/reimbursement-form.tsx:162 | rounding to hundredths picks the integer n with n ≤ 100·m + ½ < n + 1 |
| `Numbers.Fixed2Nearest` | components/reimbursement-form.tsx:162 | `toFixed(2)` stays within half a hundredth of its argument, ties going away from zero |
| `Numbers.ToFixed2RoundTrip` | components/reimbursement-form.tsx:162 | `parseFloat` of what `toFixed(2)` writes is the rounded value |
| `Numbers.NatToString` | components/reimbursement-form.tsx:119 | `String(n)` is a non-empty digit string without a leading zero |
| `Numbers.NatToStringValue` | components/reimbursement-form.tsx:119 | the digits of `String(n)` are worth n |
| `Numbers.NumberOfNatToString` | components/reimbursement-form.tsx:289 | `Number` of the `String(n)` the day-count effect writes gives back n |
| `Attachments.AddSlot` | components/reimbursement-form.tsx:172-174 | the old slots are kept as a prefix, followed by one slot with the new id, no file and no message |
| `Attachments.AddSlotKeepsIdsDistinct` | components/reimbursement-form.tsx:172-174 | adding a slot with a fresh id keeps ids distinct |
| `Attachments.ChooseFile` | components/reimbursement-form.tsx:185-200 | the size error appears exactly for a file over 10×1024×1024 bytes; the type error exactly for a smaller non-PDF; no message exactly for no file or an acceptable file; a file is kept only with no message |
| `Attachments.HandleFileChangeSpec` | components/reimbursement-form.tsx:182-205 | only slots with the id change, each to the checked file; ids and order are kept, and well-formed slots stay well formed |
| `Attachments.SlotsStayWellFormed` | components/reimbursement-form.tsx:172-180 | adding or removing slots leaves every slot well formed |
| `Totals.CategorySumSnoc` | components/reimbursement-form.tsx:226-234 | one more row adds its billing amount to the sum of its own type and to no other |
| `Totals.GrandSumSnoc` | components/reimbursement-form.tsx:224 | one more row adds its billing amount to the grand sum |
| `Totals.TotalsOfSnoc` | components/reimbursement-form.tsx:222-235 | the totals of the rows plus one row are the old totals with its amount in `total` and in the field of its type |
| `Totals.AddToCategory` | components/reimbursement-form.tsx:226-234 | the `if`/`else if` chain adds the amount to the category field named by the type, and to none when the type is not one of the nine |
| `Totals.CalculateTotals` | components/reimbursement-form.tsx:208-238 | the loop's result has, for each of the nine types, the sum of the parsed billing amounts of the rows of that type, and in `total` the sum over all rows |
| `Totals.TotalIsSumOfCategories` | components/reimbursement-form.tsx:222-235 | when every row has one of the nine types, `total` equals the sum of the nine category totals |
| `Totals.UnknownTypeCountsInTotalOnly` | components/reimbursement-form.tsx:224-234 | a row with any other type adds to `total` and leaves the nine categories' sum unchanged |
| `Submission.CheckSubmission` | components/reimbursement-form.tsx:260-272 | refused for missing fields exactly when company, employee name, employee id, department or date is empty; otherwise refused for attachments exactly when some slot has a message or no file; accepted otherwise |
| `Submission.CheckReadsRequiredFieldsOnly` | components/reimbursement-form.tsx:261 | the checks read no header field except the five required ones, so `submittedBy` is not checked |
| `Submission.PayloadRules` | components/reimbursement-form.tsx:278-316 | the billable flag is sent as "yes"/"no", the client name only when billable, empty days as 0, and one expense line per row in order with amounts parsed (rate defaulting to 1, never 0) |
| `Submission.AttachmentLinesOfReady` | components/reimbursement-form.tsx:319-331 | when every slot has a file, there is one attachment line per slot, in order, with its name and type |
| `Submission.CheckedPayload` | components/reimbursement-form.tsx:261-331 | for a consistent form that passes the checks, the payload carries the day count of the travel dates, one PDF of at most 10 MB per slot, and totals whose `total` is the sum of the categories when all types are known |

## Left out

- JSX rendering, the language dropdown, the totals display, `alert`, `window.scrollTo` and the `isSubmitting` spinner flag: UI only.
- `fileToBase64`: it wraps the browser FileReader, so attachment lines carry the file name and type and not the base64 content.
- The `fetch` POST, the check of the webhook URL variable and the response check: network and environment I/O. Whether all of it succeeded is the `delivered` parameter of `Submit`.
- `Promise.all` and async ordering: concurrency. React's batching of state updates and its stale closures are left out too. Each handler is one atomic step on the current state.
- IEEE-754 doubles: amounts are exact reals. `Numbers.ParseFloat` does not accept exponents (`1e3`), `Infinity` or non-ASCII white space. `Numbers.ToFixed2` does not switch to exponent notation at 10^21 and has no float representation error.
- `Numbers.NumberOfDigits`: it models `Number(s)` only on digit strings and gives `NaN` (`None`) for anything else. The day-count field only ever holds "" or a digit string (`FormState.Valid()`).
- Date strings: a travel date is a day number or empty. Parsing `YYYY-MM-DD` with `new Date` and invalid dates are not modelled. For UTC-midnight dates the millisecond difference divided by a day is already a whole number, and the model uses that number directly.
- `updateExpense` with the fields `id` or `amountBilling`, or with a value of the wrong type: the form never makes those calls (the billing input is read-only), so `Expenses.Edit` has one case per field the form edits, each with a value of that field's type.
- `Form.FormState.AddExpenseRow` and `Form.FormState.AddAttachment`: they promise the invariant only when the supplied id is fresh. The component relies on `Date.now()` for this, and two additions within one millisecond would repeat an id.
- app/page.tsx: it only wraps the form in the language provider.
