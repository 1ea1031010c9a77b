# Receipt bookkeeping model

This project models the bookkeeping logic of a receipt and invoice system. In
the original, that logic lives inside React components that keep receipts in
the browser's local storage. The model covers four components:

- **Payment ledger** (`components/PaymentTracker.tsx`). A payment amount is
  checked for being positive and within the remaining balance. The transaction
  is appended to the receipt's ledger and the paid amount accumulates. The
  status (Pending / Partial / Paid) and the paid date are derived again. The
  updated receipt is written back into the stored collection by id.
- **Receipt form** (`components/ReceiptForm.tsx`). It covers:
  - the grand-total rule;
  - `validateForm` with its error record and the e-mail pattern;
  - item edit, add and remove;
  - the numeric-input handlers with leading-zero stripping;
  - the receipt the form hands to its parent.
- **Listing page** (`app/receipts/page.tsx`). It covers loading, the status
  tabs and their counts, the search box, and delete.
- **Receipt actions** (`components/ReceiptActions.tsx`). It covers the
  save-as-upsert (replace the entry found by `findIndex`, or append) and the
  empty-address guard of the e-mail action.

Amounts are exact `real`s. A JavaScript number that may be missing or NaN is an
`Option<real>`, and `x || 0` is `Types.OrZero`. The stored collection is the
class `Storage.ReceiptStore`: its field `saved` is `None` while the storage
key is absent. Component state that handlers update step by step is a class:
`ReceiptForm.FormState`. Ids from `Date.now()`, dates from `new Date()`,
`parseFloat`, the `confirm` dialog and the e-mail endpoint are parameters of
the operations that use them.

Two source facts are stated as lemmas rather than hidden:

- **The paid amount is trusted as stored.** Equality with the sum of the
  payments (`PaymentTracker.LedgerConsistent`) is preserved by every payment
  add. It is not guaranteed for a receipt in general.
- **The status is derived only by a payment add.** The form sets it directly.
  The receipt the form emits has no payments, paid amount or paid date, so
  re-saving an edited receipt replaces the stored ledger with none.
  `Bookkeeping.ResaveDropsPaymentHistory` and `Bookkeeping.FormStatusNotDerived`
  state this behaviour of the code as written.

Modules, one file each:

| module | contents |
|---|---|
| `Types` | the records |
| `Seqs` | `Array.prototype.filter` and its laws |
| `Text` | `trim`, `toLowerCase`, `includes`, `\s` |
| `Storage` | the stored collection |
| `PaymentTracker` | the payment ledger |
| `ReceiptForm` | the receipt form |
| `ReceiptsPage` | the listing page |
| `ReceiptActions` | save and e-mail |
| `Bookkeeping` | properties that span components |

## Model

| member | source | states |
|---|---|---|
| PaymentTracker.PaymentsOf | components/PaymentTracker.tsx:29 | `payments \|\| []`: missing payments read as the empty list, otherwise the stored list. |
| PaymentTracker.PaidSoFar | components/PaymentTracker.tsx:30 | `paidAmount \|\| 0`: a missing paid amount reads as 0, otherwise the stored amount (not recomputed from the payments). |
| PaymentTracker.Remaining | components/PaymentTracker.tsx:31 | Remaining plus paid equals the grand total. Nothing remains exactly when the paid amount has reached the total. |
| PaymentTracker.DeriveStatus | components/PaymentTracker.tsx:56-62 | Paid iff paid ≥ total. Partial iff 0 < paid < total. Pending iff paid ≤ 0 and paid < total. |
| PaymentTracker.AddPayment | components/PaymentTracker.tsx:33-70 | A missing, NaN, zero or negative amount is refused as invalid. An amount above grandTotal − paidAmount (missing paid amount = 0) is refused, reporting the remaining balance. An amount equal to the remaining balance is accepted. On success: all non-ledger fields are kept, and exactly one transaction (id, amount, date, notes) is appended to the old payments. The paid amount grows by the amount and stays ≤ grandTotal. The status is Paid iff the total is reached, otherwise Partial (never Pending from a non-negative paid amount). The paid date is the payment date iff Paid, otherwise the old one. |
| PaymentTracker.AddPaymentKeepsLedgerConsistent | components/PaymentTracker.tsx:54-67 | If paidAmount equals the sum of the payment amounts before a successful add, it still does after. |
| PaymentTracker.TransactionsOfRecords | components/PaymentTracker.tsx:47-54 | A run of accepted requests records one transaction per request, in order, each with that request's id, amount, date and notes. |
| PaymentTracker.AddPaymentsLedger | components/PaymentTracker.tsx:47-67 | After any run of successful adds, the details are unchanged. The ledger is the old one followed by the new transactions in order, and the paid amount has grown by their sum. |
| PaymentTracker.AddPaymentsStatus | components/PaymentTracker.tsx:55-68 | After any non-empty run of successful adds, paid ≤ total and the status is the one derived from the two. When the total is reached exactly, the paid date is the last payment's. |
| PaymentTracker.AddPaymentsInvariant | components/PaymentTracker.tsx:47-70 | After any non-empty run of successful adds on a consistent receipt: the ledger is the old one followed by the new transactions in order; the paid amount is the old one plus their sum, ≤ total, and consistent; the status is the derived one; and reaching the total dates the receipt by the last payment. |
| PaymentTracker.SettlementByInstalments | components/PaymentTracker.tsx:55-68 | Payments on an unpaid receipt that add up to the total leave it Paid, with 0 remaining and the last payment's date. A positive sum below the total leaves it Partial. |
| PaymentTracker.ReplaceById | components/PaymentTracker.tsx:77-79 | Every stored entry with the id becomes the updated receipt. The length and every other entry are unchanged. |
| PaymentTracker.ReplaceByIdAbsent | components/PaymentTracker.tsx:77-79 | A receipt whose id is not stored is not inserted: the collection is unchanged. |
| PaymentTracker.HandleAddPayment | components/PaymentTracker.tsx:33-91 | Returns the `AddPayment` outcome. A refused amount leaves the store untouched. On success the store holds the loaded collection (empty when missing) with the receipt's entries replaced by the updated receipt. |
| Storage.ReceiptStore.Load | app/receipts/page.tsx:24-26 | A missing stored collection loads as the empty list; otherwise the stored list is returned. |
| Storage.ReceiptStore.Store | app/receipts/page.tsx:65 | The stored collection becomes exactly the list written. |
| ReceiptForm.GrandTotal | components/ReceiptForm.tsx:51-55 | With no discount and no tax the total is the subtotal (absent as 0). The total is negative exactly when the discount exceeds subtotal plus tax, because no sign check is made. |
| ReceiptForm.GrandTotalMayBeNegative | components/ReceiptForm.tsx:51-55 | The total rule has no sign check: subtotal 100 with discount 150 and no tax gives −50. |
| ReceiptForm.EmittedTotalFollowsRule | components/ReceiptForm.tsx:51-81 | Once the total effect has run, the emitted receipt's grandTotal is its subtotal − discount + tax, with absent or NaN parts counted as 0. |
| ReceiptForm.ChangeItemDescription | components/ReceiptForm.tsx:99-109 | Items with the id get the new description. Length, order, ids and all other items are kept. |
| ReceiptForm.AddItem | components/ReceiptForm.tsx:111-122 | The old items are kept as a prefix, and exactly one item (new id, empty description) is appended at the end. |
| ReceiptForm.RemoveItem | components/ReceiptForm.tsx:124-129 | Keeps, in order (a subsequence), exactly the items whose id differs from the given one. Each such item keeps its number of occurrences, and items with the id occur 0 times. |
| ReceiptForm.RemoveUndoesAdd | components/ReceiptForm.tsx:111-129 | Removing an item just added under a fresh id gives back the old list. |
| ReceiptForm.DropLeadingZeros | components/ReceiptForm.tsx:175 | `replace(/^0+/, '')` yields the suffix after the leading '0's. That suffix does not start with '0'. |
| ReceiptForm.StripLeadingZeros | components/ReceiptForm.tsx:174-176 | When the input has length > 1 and starts with '0' but not "0.", all leading zeros go: the result is "0" if nothing else remains, otherwise a non-'0'-initial suffix. Any other input is unchanged. The result is empty only for the empty input. |
| ReceiptForm.StripLeadingZerosIdempotent | components/ReceiptForm.tsx:174-176 | Stripping an already stripped input changes nothing. |
| ReceiptForm.MatchesEmailPattern | components/ReceiptForm.tsx:140 | A match has at least five characters and contains an '@' and a '.'. Its full meaning is `EmailPatternMeaning`. |
| ReceiptForm.EmailPatternMeaning | components/ReceiptForm.tsx:140 | `^[^\s@]+@[^\s@]+\.[^\s@]+$` accepts a string iff: it has no whitespace; it has exactly one '@', which is not first; and a '.' comes after the '@' with at least one character on each side. |
| ReceiptForm.EmailPatternSound | components/ReceiptForm.tsx:140 | A matching address has no whitespace, a single non-initial '@' and an interior '.' after it. |
| ReceiptForm.PatternPartsPlain | components/ReceiptForm.tsx:140 | In a match split at its '@' and its '.', every other character is neither whitespace nor '@'. |
| ReceiptForm.EmailPatternComplete | components/ReceiptForm.tsx:140 | An address with those properties matches the pattern. |
| ReceiptForm.ClientErrors | components/ReceiptForm.tsx:134-146 | Client name, client e-mail and project title each get their error message iff they fail their check; the e-mail is "required" when blank and "Invalid email format" when it does not match. No other key is set. |
| ReceiptForm.AddItemErrors | components/ReceiptForm.tsx:148-156 | The loop over the items adds `item-<index>-description` exactly for the items with a blank description, and leaves every other key as it was. |
| ReceiptForm.ItemsErrors | components/ReceiptForm.tsx:148-156 | An empty item list sets the "items" error and nothing else. A non-empty one sets exactly the blank-description errors. Every other key is unchanged. |
| ReceiptForm.SubtotalErrors | components/ReceiptForm.tsx:158-160 | The subtotal error is set iff the subtotal is missing or ≤ 0. Every other key is unchanged. |
| ReceiptForm.ReportsErrorsUnique | components/ReceiptForm.tsx:131-163 | Two records that both report the errors of the same form are equal. The key-and-message description pins down the record `validateForm` shows. |
| ReceiptForm.NewErrors | components/ReceiptForm.tsx:131-163 | The record satisfies `ReportsErrors` for the form, and it is empty iff the form is valid. |
| ReceiptForm.NoErrorsIffValid | components/ReceiptForm.tsx:163 | An error record that reports exactly the failed checks is empty iff every check passes. |
| ReceiptForm.EmitReceipt | components/ReceiptForm.tsx:64-85 | Nothing is emitted while the receipt number is empty. The emitted receipt keeps an edited receipt's id and createdAt when they are not empty, and otherwise gets the fresh id and the current time. It takes the form's receipt number, client name, e-mail, project title, notes, status and items, and its numbers with absent or NaN as 0. The issue date is the form's, or the current time when empty. It carries no payments, paid amount or paid date. |
| ReceiptForm.FormState.constructor | components/ReceiptForm.tsx:21-39 | A new form holds empty client fields, status Pending, one empty item, zero amounts, and no errors. |
| ReceiptForm.FormState.LoadInitial | components/ReceiptForm.tsx:44-48 | Editing loads the receipt's fields into the form. |
| ReceiptForm.FormState.RecomputeGrandTotal | components/ReceiptForm.tsx:51-61 | The grand total becomes subtotal − discount + tax, and nothing else changes. |
| ReceiptForm.ClearError | components/ReceiptForm.tsx:94-96 | Clearing keeps the same keys. The changed field's entry, if any, becomes "". Every other entry is unchanged. |
| ReceiptForm.FormState.HandleInputChange | components/ReceiptForm.tsx:88-97 | Only the named text field changes. Its error, when non-empty, is cleared to "". |
| ReceiptForm.FormState.HandleStatusChange | components/ReceiptForm.tsx:318-327 | The status select sets the status directly, with no reference to the payments. |
| ReceiptForm.FormState.HandleItemChange | components/ReceiptForm.tsx:99-109 | The item list becomes `ChangeItemDescription` of the old one, and nothing else changes. |
| ReceiptForm.FormState.AddItemTo | components/ReceiptForm.tsx:111-122 | The item list becomes `AddItem` of the old one, and nothing else changes. |
| ReceiptForm.FormState.RemoveItemFrom | components/ReceiptForm.tsx:124-129 | The item list becomes `RemoveItem` of the old one, and nothing else changes. |
| ReceiptForm.FormState.HandleNumericChange | components/ReceiptForm.tsx:166-183 | The field stores the parse of the zero-stripped input, with NaN stored as 0. Its error, when non-empty, is cleared. |
| ReceiptForm.FormState.HandleNumericFocus | components/ReceiptForm.tsx:185-195 | A number field holding 0 is emptied. Otherwise nothing changes. |
| ReceiptForm.FormState.HandleNumericBlur | components/ReceiptForm.tsx:197-206 | An input left "" or "0" stores 0. Otherwise nothing changes. |
| ReceiptForm.FormState.ValidateForm | components/ReceiptForm.tsx:131-164 | The form data is unchanged. The new error record is the one `ReportsErrors` describes for the data, which `ReportsErrorsUnique` shows to be unique. The result is true iff the form is valid iff that record is empty. |
| Text.TrimEmptyIffBlank | app/receipts/page.tsx:48-49 | `s.trim()` is empty exactly when every character of `s` is whitespace. |
| ReceiptsPage.FilterReceipts | app/receipts/page.tsx:36-59 | The listing is no longer than the loaded list. Each listed receipt is a loaded one that passes the status tab and, for a non-blank query, matches it. |
| ReceiptsPage.FilterReceiptsMeaning | app/receipts/page.tsx:36-59 | The listing is exactly the loaded receipts that pass both the status predicate and the search predicate, in stored order (a subsequence). Under "All" with a blank query it is the whole list. Under a status tab every entry has that status. With a non-blank query a receipt is listed iff its lowercased name, number or title contains the lowercased trimmed query. |
| ReceiptsPage.FilterOrderIrrelevant | app/receipts/page.tsx:38-58 | Applying the search before the status filter gives the same listing. |
| ReceiptsPage.CountWithStatus | app/receipts/page.tsx:158-178 | A tab count is at most the number of receipts. It is 0 exactly when no receipt has that status. |
| ReceiptsPage.StatusCountsAddUp | app/receipts/page.tsx:148-178 | The Pending, Partial and Paid tab counts add up to the "All" count. |
| ReceiptsPage.Delete | app/receipts/page.tsx:63 | Every receipt with the id is removed. The rest stay, in order and with their number of occurrences. An absent id changes nothing. |
| ReceiptsPage.LoadReceipts | app/receipts/page.tsx:21-34 | A missing collection loads as empty, and the listing starts as the whole list. |
| ReceiptsPage.HandleDelete | app/receipts/page.tsx:61-67 | Once confirmed, the list loses the id and is written to the store. Unconfirmed, nothing changes. |
| ReceiptActions.FindIndex | components/ReceiptActions.tsx:109-111 | Returns the first position holding the id, or −1 exactly when no entry has it. |
| ReceiptActions.FindIndexOf | components/ReceiptActions.tsx:109-111 | The scanning loop returns the `FindIndex` result. |
| ReceiptActions.Upserted | components/ReceiptActions.tsx:108-124 | If the id is stored, the first such entry is replaced and the length is unchanged. Otherwise the receipt is appended and the length grows by one. Every other entry is unchanged in its place, and the receipt is in the result. |
| ReceiptActions.UpsertIdempotent | components/ReceiptActions.tsx:109-120 | Saving the same receipt twice stores the same collection as saving it once. |
| ReceiptActions.UpsertKeepsIdsUnique | components/ReceiptActions.tsx:109-120 | Distinct ids before a save stay distinct after it. |
| ReceiptActions.HandleSaveReceipt | components/ReceiptActions.tsx:101-132 | The store holds the upsert of the loaded collection (empty when missing). The message is "updated" iff the id was already stored, "saved" otherwise. |
| ReceiptActions.HandleSendEmail | components/ReceiptActions.tsx:58-99 | An empty client e-mail is refused with "Client email is required", whatever the endpoint would answer. Delivery gives the success message naming the address. A rejection gives its error text, or "Failed to send email" when it has none. The result is a success iff an address is present and delivery succeeded. |
| Bookkeeping.WriteBackAgreesWithSave | components/PaymentTracker.tsx:77-79 | On a collection with distinct ids that holds the receipt, the payment write-back and the save upsert store the same collection. |
| Bookkeeping.ResaveDropsPaymentHistory | components/ReceiptForm.tsx:66-81 | Re-saving an edited receipt through the form replaces its stored entry (same id) with one that has no payments, a paid amount of 0, no paid date, and the form's status. |
| Bookkeeping.FormStatusNotDerived | components/ReceiptForm.tsx:318-327 | The form can emit a Paid receipt with nothing paid and a positive remaining balance. Its ledger is consistent, but the derived status would be Pending. |
| Bookkeeping.PaidReceiptNotDeletable | app/receipts/page.tsx:328-343 | After a successful payment on a receipt with a non-negative paid amount, the listing no longer offers Delete. |
| Bookkeeping.InstalmentScenario | components/PaymentTracker.tsx:47-70 | Subtotal 1000, discount 100 and tax 50 give 950. Paying 500 on D1 gives Partial with 450 remaining. Paying 450 on D2 then gives Paid, paid on D2, 0 remaining, two consistent payments. |
| Bookkeeping.OverpaymentScenario | components/PaymentTracker.tsx:40-43 | A payment of 250 on an unpaid Pending receipt of 200 is refused, reporting 200 remaining. |

## Left out

- PaymentTracker.AddPayment: "never Pending after a payment" is stated only when the stored paid amount is non-negative. The record does not rule out a negative stored paid amount, and then a small payment can leave it Pending.
- The UI hides the payment form for a Paid receipt. The model lets `AddPayment` run on any receipt and relies on the remaining-balance check alone.
- The Remove button is shown only while the form has more than one item. `RemoveItem` accepts any list.
- Floating-point arithmetic and `parseFloat` are not modelled. Amounts are exact reals, and a parse is a supplied function giving None for NaN.
- JSON parsing and serialisation are not modelled, and neither are storage write failures. A corrupt stored value, the page's catch that leaves the list empty, and the "Failed to save receipt" message are outside the model. Only "missing means empty" is modelled.
- `toLowerCase` maps only the ASCII letters. Unicode case mapping is not modelled.
- Ids from `Date.now()`, `new Date()` dates and `generateReceiptNumber` are parameters, not computed.
- The `confirm` and `alert` dialogs, the `setTimeout` that clears messages, the loading flags, and React's effect scheduling are left out. A confirmation is a boolean parameter.
- Rendering, print, PDF download (`lib/pdfGenerator.ts`), the e-mail endpoint and template, and login are outside the model. The e-mail endpoint's answer is a parameter of `HandleSendEmail`.
- ReceiptActions.HandleSendEmail: a thrown value that is not an `Error` (message "Failed to send email. Please check your email configuration.") is not modelled.
- Status values outside Pending, Partial and Paid cannot be represented. `StatusCountsAddUp` is therefore unconditional.
- The form's `Partial<Receipt>` may lack a text field or the item list. The model always has a string and a list, which is what the `|| ''` and `|| []` readings give.
- The dashboard's edit lookup and the receipt detail and preview pages are not part of this model.
