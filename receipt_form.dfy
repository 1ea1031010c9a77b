/** The receipt form of components/ReceiptForm.tsx: its working copy of the
    receipt, the grand-total rule, the item list edits, the numeric-input
    handlers, `validateForm` and the receipt it hands to its parent. */
module ReceiptForm {
  import opened Types
  import opened Text
  import opened Seqs

  /** The names of the form's inputs, which are also the keys of its error
      record; `ItemDescription(i)` is the key `item-<i>-description`. */
  datatype Field =
    | ClientName | ClientEmail | ProjectTitle | ReceiptNumber | IssueDate
    | PaymentStatusField | Notes | Items | ItemDescription(index: nat)
    | Subtotal | Discount | Tax

  predicate IsTextField(f: Field) {
    f == ClientName || f == ClientEmail || f == ProjectTitle
    || f == ReceiptNumber || f == IssueDate || f == Notes
  }

  predicate IsNumberField(f: Field) {
    f == Subtotal || f == Discount || f == Tax
  }

  /** The form's `Partial<Receipt>`. A text field read with `|| ''` is a string;
      a number field is None when it is missing, emptied on focus, or NaN. */
  datatype FormData = FormData(
    clientName: string,
    clientEmail: string,
    projectTitle: string,
    receiptNumber: string,
    issueDate: string,
    paymentStatus: PaymentStatus,
    items: seq<ReceiptItem>,
    subtotal: Option<real>,
    discount: Option<real>,
    tax: Option<real>,
    grandTotal: Option<real>,
    notes: string)

  /** The state a new form starts in; the receipt number and today's date are
      supplied by the caller. */
  function InitialForm(receiptNumber: string, today: string): FormData {
    FormData("", "", "", receiptNumber, today, Pending, [ReceiptItem("1", "")],
             Some(0.0), Some(0.0), Some(0.0), Some(0.0), "")
  }

  /** The form loaded from a receipt being edited. */
  function FromReceipt(r: Receipt): FormData {
    FormData(r.clientName, r.clientEmail, r.projectTitle, r.receiptNumber, r.issueDate,
             r.paymentStatus, r.items, Some(r.subtotal), Some(r.discount), Some(r.tax),
             Some(r.grandTotal), r.notes)
  }

  function WithText(d: FormData, f: Field, value: string): FormData
    requires IsTextField(f)
  {
    match f
    case ClientName => d.(clientName := value)
    case ClientEmail => d.(clientEmail := value)
    case ProjectTitle => d.(projectTitle := value)
    case ReceiptNumber => d.(receiptNumber := value)
    case IssueDate => d.(issueDate := value)
    case Notes => d.(notes := value)
  }

  function NumberOf(d: FormData, f: Field): Option<real>
    requires IsNumberField(f)
  {
    match f
    case Subtotal => d.subtotal
    case Discount => d.discount
    case Tax => d.tax
  }

  function WithNumber(d: FormData, f: Field, value: Option<real>): FormData
    requires IsNumberField(f)
  {
    match f
    case Subtotal => d.(subtotal := value)
    case Discount => d.(discount := value)
    case Tax => d.(tax := value)
  }

  // ---------------------------------------------------------------- totals

  /** The grand-total rule: subtotal less discount plus tax, with a missing,
      zero or NaN part counting as 0. */
  function GrandTotal(subtotal: Option<real>, discount: Option<real>, tax: Option<real>): (total: real)
    ensures discount.None? && tax.None? ==> total == OrZero(subtotal)
    ensures total < 0.0 <==> OrZero(discount) > OrZero(subtotal) + OrZero(tax)
  {
    OrZero(subtotal) - OrZero(discount) + OrZero(tax)
  }

  /** No sign check is made: a discount above the subtotal gives a negative total. */
  lemma GrandTotalMayBeNegative()
    ensures GrandTotal(Some(100.0), Some(150.0), None) == -50.0
  {
  }

  // ---------------------------------------------------------------- items

  /** `handleItemChange`: every item with the id gets the new description; the
      length, the order, the ids and every other description are kept. */
  function ChangeItemDescription(items: seq<ReceiptItem>, id: string, value: string): (r: seq<ReceiptItem>)
    ensures |r| == |items|
    ensures forall k :: 0 <= k < |items| ==> r[k].id == items[k].id
    ensures forall k :: 0 <= k < |items| && items[k].id == id ==> r[k].description == value
    ensures forall k :: 0 <= k < |items| && items[k].id != id ==> r[k] == items[k]
  {
    seq(|items|, k requires 0 <= k < |items| =>
      if items[k].id == id then items[k].(description := value) else items[k])
  }

  /** `addItem`: one item with an empty description is appended after the others. */
  function AddItem(items: seq<ReceiptItem>, newId: string): (r: seq<ReceiptItem>)
    ensures |r| == |items| + 1 && r[..|items|] == items
    ensures r[|items|].id == newId && r[|items|].description == ""
  {
    items + [ReceiptItem(newId, "")]
  }

  /** `removeItem`: exactly the items whose id differs from `id`, in their order. */
  function RemoveItem(items: seq<ReceiptItem>, id: string): (r: seq<ReceiptItem>)
    ensures forall k :: 0 <= k < |r| ==> r[k].id != id && r[k] in items
    ensures forall k :: 0 <= k < |items| && items[k].id != id ==> items[k] in r
    ensures IsSubseq(r, items)
    ensures forall v :: multiset(r)[v] == if v.id != id then multiset(items)[v] else 0
  {
    var keep := (it: ReceiptItem) => it.id != id;
    FilterIsSubseq(items, keep);
    assert forall v :: multiset(Filter(items, keep))[v] == if v.id != id then multiset(items)[v] else 0 by {
      forall v ensures multiset(Filter(items, keep))[v] == if v.id != id then multiset(items)[v] else 0 {
        FilterCount(items, keep, v);
      }
    }
    Filter(items, keep)
  }

  /** Removing an item just added with a fresh id gives back the old list. */
  lemma RemoveUndoesAdd(items: seq<ReceiptItem>, newId: string)
    requires forall k :: 0 <= k < |items| ==> items[k].id != newId
    ensures RemoveItem(AddItem(items, newId), newId) == items
  {
    var keep := (it: ReceiptItem) => it.id != newId;
    FilterAppend(items, ReceiptItem(newId, ""), keep);
    FilterKeepsAll(items, keep);
  }

  // ---------------------------------------------------------------- numeric input

  /** `replace(/^0+/, '')`: the leading '0' characters removed. */
  function DropLeadingZeros(s: string): (r: string)
    ensures |r| <= |s| && r == s[|s| - |r|..]
    ensures forall i :: 0 <= i < |s| - |r| ==> s[i] == '0'
    ensures r != [] ==> r[0] != '0'
    decreases |s|
  {
    if s != [] && s[0] == '0' then
      var r := DropLeadingZeros(s[1..]);
      assert s[1..][|s| - 1 - |r|..] == s[|s| - |r|..];
      assert forall i :: 1 <= i < |s| - |r| ==> s[i] == s[1..][i - 1];
      r
    else s
  }

  /** Whether `handleNumericChange` strips: longer than one character, starting
      with '0' but not with "0.". */
  predicate StripApplies(s: string) {
    |s| > 1 && s[0] == '0' && !("0." <= s)
  }

  /** The leading-zero rule of `handleNumericChange`. When it applies, all leading
      zeros go and "0" is left if nothing remains; any other input is kept; the
      result is empty only for the empty input. */
  function StripLeadingZeros(s: string): (r: string)
    ensures !StripApplies(s) ==> r == s
    ensures StripApplies(s) ==>
              || (r == "0" && forall i :: 0 <= i < |s| ==> s[i] == '0')
              || (r != "" && r[0] != '0' && |r| <= |s| && r == s[|s| - |r|..]
                  && forall i :: 0 <= i < |s| - |r| ==> s[i] == '0')
    ensures r == "" <==> s == ""
  {
    if StripApplies(s) then
      var t := DropLeadingZeros(s);
      if t == "" then "0" else t
    else s
  }

  /** Stripping twice strips nothing more. */
  lemma StripLeadingZerosIdempotent(s: string)
    ensures StripLeadingZeros(StripLeadingZeros(s)) == StripLeadingZeros(s)
  {
  }

  // ---------------------------------------------------------------- validation

  /** The strings of one or more characters of the class `[^\s@]`. */
  predicate IsPlainRun(s: string) {
    |s| > 0 && forall i :: 0 <= i < |s| ==> !IsWhitespace(s[i]) && s[i] != '@'
  }

  /** The strings `/^[^\s@]+@[^\s@]+\.[^\s@]+$/` accepts: a run, '@', a run, '.', a run. */
  predicate MatchesEmailPattern(s: string)
    ensures MatchesEmailPattern(s) ==> |s| >= 5 && '@' in s && '.' in s
  {
    exists i, j :: 0 < i < j < |s| && s[i] == '@' && s[j] == '.'
      && IsPlainRun(s[..i]) && IsPlainRun(s[i + 1..j]) && IsPlainRun(s[j + 1..])
  }

  /** A character of `s[lo..hi]` when that slice is a run of `[^\s@]`. */
  lemma PlainRunAt(s: string, lo: int, hi: int, k: int)
    requires 0 <= lo <= k < hi <= |s| && IsPlainRun(s[lo..hi])
    ensures !IsWhitespace(s[k]) && s[k] != '@'
  {
    assert s[lo..hi][k - lo] == s[k];
  }

  /** An address matches the pattern exactly when it has no whitespace, exactly
      one '@' and that not first, and a '.' in the part after the '@' with text
      on both sides of it. */
  lemma EmailPatternMeaning(s: string)
    ensures MatchesEmailPattern(s) <==>
              && (forall k :: 0 <= k < |s| ==> !IsWhitespace(s[k]))
              && exists i :: 0 < i < |s| && s[i] == '@'
                   && (forall k :: 0 <= k < |s| && s[k] == '@' ==> k == i)
                   && (exists j :: i + 1 < j < |s| - 1 && s[j] == '.')
  {
    if MatchesEmailPattern(s) {
      EmailPatternSound(s);
    }
    if && (forall k :: 0 <= k < |s| ==> !IsWhitespace(s[k]))
       && exists i :: 0 < i < |s| && s[i] == '@'
            && (forall k :: 0 <= k < |s| && s[k] == '@' ==> k == i)
            && (exists j :: i + 1 < j < |s| - 1 && s[j] == '.')
    {
      var i :| 0 < i < |s| && s[i] == '@'
        && (forall k :: 0 <= k < |s| && s[k] == '@' ==> k == i)
        && (exists j :: i + 1 < j < |s| - 1 && s[j] == '.');
      var j :| i + 1 < j < |s| - 1 && s[j] == '.';
      EmailPatternComplete(s, i, j);
    }
  }

  lemma EmailPatternSound(s: string)
    requires MatchesEmailPattern(s)
    ensures forall k :: 0 <= k < |s| ==> !IsWhitespace(s[k])
    ensures exists i :: 0 < i < |s| && s[i] == '@'
              && (forall k :: 0 <= k < |s| && s[k] == '@' ==> k == i)
              && (exists j :: i + 1 < j < |s| - 1 && s[j] == '.')
  {
    var i, j :| 0 < i < j < |s| && s[i] == '@' && s[j] == '.'
      && IsPlainRun(s[..i]) && IsPlainRun(s[i + 1..j]) && IsPlainRun(s[j + 1..]);
    PatternPartsPlain(s, i, j);
    assert i + 1 < j < |s| - 1;
  }

  /** Outside the '@' at `i` and the '.' at `j`, a match has only characters of
      the class `[^\s@]`. */
  lemma PatternPartsPlain(s: string, i: int, j: int)
    requires 0 < i < j < |s| && s[i] == '@' && s[j] == '.'
    requires IsPlainRun(s[..i]) && IsPlainRun(s[i + 1..j]) && IsPlainRun(s[j + 1..])
    ensures forall k :: 0 <= k < |s| ==> !IsWhitespace(s[k]) && (s[k] == '@' ==> k == i)
  {
    assert s[..i] == s[0..i];
    assert s[j + 1..] == s[j + 1..|s|];
    forall k | 0 <= k < |s|
      ensures !IsWhitespace(s[k]) && (s[k] == '@' ==> k == i)
    {
      if k < i {
        PlainRunAt(s, 0, i, k);
      } else if i < k < j {
        PlainRunAt(s, i + 1, j, k);
      } else if j < k {
        PlainRunAt(s, j + 1, |s|, k);
      }
    }
  }

  lemma EmailPatternComplete(s: string, i: int, j: int)
    requires forall k :: 0 <= k < |s| ==> !IsWhitespace(s[k])
    requires 0 < i < |s| && s[i] == '@' && forall k :: 0 <= k < |s| && s[k] == '@' ==> k == i
    requires i + 1 < j < |s| - 1 && s[j] == '.'
    ensures MatchesEmailPattern(s)
  {
    assert IsPlainRun(s[..i]);
    assert IsPlainRun(s[i + 1..j]);
    assert IsPlainRun(s[j + 1..]);
  }

  /** What `validateForm` accepts. */
  predicate FormValid(d: FormData) {
    && !IsBlank(d.clientName)
    && !IsBlank(d.clientEmail) && MatchesEmailPattern(d.clientEmail)
    && !IsBlank(d.projectTitle)
    && |d.items| > 0
    && (forall k :: 0 <= k < |d.items| ==> !IsBlank(d.items[k].description))
    && d.subtotal.Some? && d.subtotal.value > 0.0
  }

  /** `errors` is the record `validateForm` builds for `d`: one entry per failed
      check, under the failing field's key and with the source's message, and no
      other entries. */
  ghost predicate ReportsErrors(d: FormData, errors: map<Field, string>) {
    && (ClientName in errors <==> IsBlank(d.clientName))
    && (ClientName in errors ==> errors[ClientName] == "Client name is required")
    && (ClientEmail in errors <==> IsBlank(d.clientEmail) || !MatchesEmailPattern(d.clientEmail))
    && (ClientEmail in errors ==>
          errors[ClientEmail] ==
            (if IsBlank(d.clientEmail) then "Client email is required" else "Invalid email format"))
    && (ProjectTitle in errors <==> IsBlank(d.projectTitle))
    && (ProjectTitle in errors ==> errors[ProjectTitle] == "Project title is required")
    && (Items in errors <==> |d.items| == 0)
    && (Items in errors ==> errors[Items] == "At least one item is required")
    && (forall k: nat :: ItemDescription(k) in errors <==> k < |d.items| && IsBlank(d.items[k].description))
    && (forall k: nat :: ItemDescription(k) in errors ==> errors[ItemDescription(k)] == "Item description is required")
    && (Subtotal in errors <==> d.subtotal.None? || d.subtotal.value <= 0.0)
    && (Subtotal in errors ==> errors[Subtotal] == "Subtotal must be greater than 0")
    && (forall f :: f in errors ==>
          f.ClientName? || f.ClientEmail? || f.ProjectTitle? || f.Items? || f.ItemDescription? || f.Subtotal?)
  }

  /** The description above determines the record: two records that both report
      the errors of the same form are equal. */
  lemma ReportsErrorsUnique(d: FormData, e1: map<Field, string>, e2: map<Field, string>)
    requires ReportsErrors(d, e1) && ReportsErrors(d, e2)
    ensures e1 == e2
  {
    forall f: Field
      ensures (f in e1 <==> f in e2) && (f in e1 ==> e1[f] == e2[f])
    {
      if f.ItemDescription? {
        assert f == ItemDescription(f.index);
      }
    }
  }

  /** The `newErrors` record `validateForm` builds; it is empty exactly when the
      form is valid. */
  method NewErrors(d: FormData) returns (errors: map<Field, string>)
    ensures ReportsErrors(d, errors)
    ensures |errors| == 0 <==> FormValid(d)
  {
    errors := ClientErrors(d);
    errors := ItemsErrors(d.items, errors);
    errors := SubtotalErrors(d.subtotal, errors);
    NoErrorsIffValid(d, errors);
  }

  /** The first three checks of `validateForm`: client name, client email and
      project title. */
  method ClientErrors(d: FormData) returns (errors: map<Field, string>)
    ensures ClientName in errors <==> IsBlank(d.clientName)
    ensures ClientName in errors ==> errors[ClientName] == "Client name is required"
    ensures ClientEmail in errors <==> IsBlank(d.clientEmail) || !MatchesEmailPattern(d.clientEmail)
    ensures ClientEmail in errors ==>
              errors[ClientEmail] ==
                (if IsBlank(d.clientEmail) then "Client email is required" else "Invalid email format")
    ensures ProjectTitle in errors <==> IsBlank(d.projectTitle)
    ensures ProjectTitle in errors ==> errors[ProjectTitle] == "Project title is required"
    ensures forall f :: f in errors ==> f.ClientName? || f.ClientEmail? || f.ProjectTitle?
  {
    errors := map[];
    if IsBlank(d.clientName) {
      errors := errors[ClientName := "Client name is required"];
    }
    if IsBlank(d.clientEmail) {
      errors := errors[ClientEmail := "Client email is required"];
    } else if !MatchesEmailPattern(d.clientEmail) {
      errors := errors[ClientEmail := "Invalid email format"];
    }
    if IsBlank(d.projectTitle) {
      errors := errors[ProjectTitle := "Project title is required"];
    }
  }

  /** The item checks of `validateForm`: the "items" entry for an empty list,
      otherwise one entry per blank description; other entries are left alone. */
  method ItemsErrors(items: seq<ReceiptItem>, errors0: map<Field, string>) returns (errors: map<Field, string>)
    requires Items !in errors0 && forall k: nat :: ItemDescription(k) !in errors0
    ensures forall f: Field :: !f.ItemDescription? && !f.Items? ==> (f in errors <==> f in errors0)
    ensures forall f: Field :: !f.ItemDescription? && !f.Items? && f in errors ==> errors[f] == errors0[f]
    ensures Items in errors <==> |items| == 0
    ensures Items in errors ==> errors[Items] == "At least one item is required"
    ensures forall k: nat :: ItemDescription(k) in errors <==> k < |items| && IsBlank(items[k].description)
    ensures forall k: nat :: ItemDescription(k) in errors ==> errors[ItemDescription(k)] == "Item description is required"
  {
    if |items| == 0 {
      errors := errors0[Items := "At least one item is required"];
    } else {
      errors := AddItemErrors(items, errors0);
    }
  }

  /** The last check of `validateForm`: a missing or non-positive subtotal. */
  method SubtotalErrors(subtotal: Option<real>, errors0: map<Field, string>) returns (errors: map<Field, string>)
    requires Subtotal !in errors0
    ensures forall f: Field :: f != Subtotal ==> (f in errors <==> f in errors0)
    ensures forall f: Field :: f != Subtotal && f in errors ==> errors[f] == errors0[f]
    ensures Subtotal in errors <==> subtotal.None? || subtotal.value <= 0.0
    ensures Subtotal in errors ==> errors[Subtotal] == "Subtotal must be greater than 0"
  {
    errors := errors0;
    if subtotal.None? || subtotal.value <= 0.0 {
      errors := errors[Subtotal := "Subtotal must be greater than 0"];
    }
  }

  /** The `forEach` of `validateForm`: one entry per item whose description is
      blank, keyed by that item's index; the other entries are left alone. */
  method AddItemErrors(items: seq<ReceiptItem>, errors0: map<Field, string>) returns (errors: map<Field, string>)
    requires forall k: nat :: ItemDescription(k) !in errors0
    ensures forall f: Field :: !f.ItemDescription? ==> (f in errors <==> f in errors0)
    ensures forall f: Field :: !f.ItemDescription? && f in errors ==> errors[f] == errors0[f]
    ensures forall k: nat :: ItemDescription(k) in errors <==> k < |items| && IsBlank(items[k].description)
    ensures forall k: nat :: ItemDescription(k) in errors ==> errors[ItemDescription(k)] == "Item description is required"
  {
    errors := errors0;
    var index := 0;
    while index < |items|
      invariant 0 <= index <= |items|
      invariant forall f: Field :: !f.ItemDescription? ==> (f in errors <==> f in errors0)
      invariant forall f: Field :: !f.ItemDescription? && f in errors ==> errors[f] == errors0[f]
      invariant forall k: nat :: ItemDescription(k) in errors <==> k < index && IsBlank(items[k].description)
      invariant forall k: nat :: ItemDescription(k) in errors ==> errors[ItemDescription(k)] == "Item description is required"
    {
      if IsBlank(items[index].description) {
        errors := errors[ItemDescription(index) := "Item description is required"];
      }
      index := index + 1;
    }
  }

  /** The error-record characterisation of `NewErrors` makes the record empty
      exactly when the form is valid. */
  lemma NoErrorsIffValid(d: FormData, errors: map<Field, string>)
    requires ReportsErrors(d, errors)
    ensures |errors| == 0 <==> FormValid(d)
  {
    if FormValid(d) {
      forall f: Field ensures f !in errors {
        if f.ItemDescription? {
          assert f == ItemDescription(f.index);
        }
      }
      assert errors == map[];
    } else {
      ghost var failing := FailingField(d);
      assert failing in errors;
    }
  }

  /** A field whose check fails on a form that is not valid. */
  ghost function FailingField(d: FormData): (f: Field)
    requires !FormValid(d)
    ensures f.ClientName? ==> IsBlank(d.clientName)
    ensures f.ClientEmail? ==> IsBlank(d.clientEmail) || !MatchesEmailPattern(d.clientEmail)
    ensures f.ProjectTitle? ==> IsBlank(d.projectTitle)
    ensures f.Items? ==> |d.items| == 0
    ensures f.ItemDescription? ==> f.index < |d.items| && IsBlank(d.items[f.index].description)
    ensures f.Subtotal? ==> d.subtotal.None? || d.subtotal.value <= 0.0
    ensures f.ClientName? || f.ClientEmail? || f.ProjectTitle? || f.Items? || f.ItemDescription? || f.Subtotal?
  {
    if IsBlank(d.clientName) then ClientName
    else if IsBlank(d.clientEmail) || !MatchesEmailPattern(d.clientEmail) then ClientEmail
    else if IsBlank(d.projectTitle) then ProjectTitle
    else if |d.items| == 0 then Items
    else if d.subtotal.None? || d.subtotal.value <= 0.0 then Subtotal
    else
      var k :| 0 <= k < |d.items| && IsBlank(d.items[k].description);
      ItemDescription(k)
  }

  /** `errors[name]` cleared when its input changes: a non-empty message becomes
      the empty string (the key stays). */
  function ClearError(errors: map<Field, string>, f: Field): (cleared: map<Field, string>)
    ensures cleared.Keys == errors.Keys
    ensures f in cleared ==> cleared[f] == ""
    ensures forall g :: g in errors && g != f ==> cleared[g] == errors[g]
  {
    if f in errors && errors[f] != "" then errors[f := ""] else errors
  }

  // ---------------------------------------------------------------- emitted receipt

  /** The receipt passed to the parent whenever the form changes (nothing is
      passed while the receipt number is empty). An edited receipt keeps its id
      and creation time when they are not empty; `freshId` and `now` stand for
      `receipt-${Date.now()}` and the current time, which also fills an empty
      issue date. Every text field is the form's own, the status is whatever
      the form holds, and the receipt carries no payments, paid amount or paid
      date. */
  function EmitReceipt(d: FormData, initial: Option<Receipt>, freshId: string, now: string): (res: Option<Receipt>)
    ensures res.None? <==> d.receiptNumber == ""
    ensures res.Some? ==>
              var e := res.value;
              && e.payments.None? && e.paidAmount.None? && e.paidDate.None?
              && (initial.Some? && initial.value.id != "" ==> e.id == initial.value.id)
              && (initial.None? || initial.value.id == "" ==> e.id == freshId)
              && (initial.Some? && initial.value.createdAt != "" ==> e.createdAt == initial.value.createdAt)
              && (initial.None? || initial.value.createdAt == "" ==> e.createdAt == now)
              && e.receiptNumber == d.receiptNumber
              && e.clientName == d.clientName && e.clientEmail == d.clientEmail
              && e.projectTitle == d.projectTitle && e.notes == d.notes
              && (d.issueDate != "" ==> e.issueDate == d.issueDate)
              && (d.issueDate == "" ==> e.issueDate == now)
              && e.paymentStatus == d.paymentStatus
              && e.items == d.items
              && e.subtotal == OrZero(d.subtotal) && e.discount == OrZero(d.discount)
              && e.tax == OrZero(d.tax) && e.grandTotal == OrZero(d.grandTotal)
  {
    if d.receiptNumber == "" then None
    else
      var id := if initial.Some? && initial.value.id != "" then initial.value.id else freshId;
      var createdAt := if initial.Some? && initial.value.createdAt != "" then initial.value.createdAt else now;
      Some(Receipt(
        id, d.receiptNumber, d.clientName, d.clientEmail, d.projectTitle,
        if d.issueDate == "" then now else d.issueDate,
        d.paymentStatus, d.items,
        OrZero(d.subtotal), OrZero(d.discount), OrZero(d.tax), OrZero(d.grandTotal),
        d.notes, createdAt, None, None, None))
  }

  /** Once the total effect has run, the emitted receipt's grand total is its own
      subtotal less discount plus tax. */
  lemma EmittedTotalFollowsRule(d: FormData, initial: Option<Receipt>, freshId: string, now: string)
    requires d.grandTotal == Some(GrandTotal(d.subtotal, d.discount, d.tax))
    ensures EmitReceipt(d, initial, freshId, now).Some? ==>
              var e := EmitReceipt(d, initial, freshId, now).value;
              e.grandTotal == e.subtotal - e.discount + e.tax
  {
  }

  // ---------------------------------------------------------------- the component state

  /** The component's state: the working copy and the error record. Each handler
      replaces the state as its `setFormData` / `setErrors` calls do. */
  class FormState {
    var data: FormData
    var errors: map<Field, string>

    constructor (receiptNumber: string, today: string)
      ensures data == InitialForm(receiptNumber, today) && errors == map[]
    {
      data := InitialForm(receiptNumber, today);
      errors := map[];
    }

    /** The effect that loads a receipt being edited. */
    method LoadInitial(initial: Receipt)
      modifies this
      ensures data == FromReceipt(initial) && errors == old(errors)
    {
      data := FromReceipt(initial);
    }

    /** The effect that recomputes the grand total when subtotal, discount or tax change. */
    method RecomputeGrandTotal()
      modifies this
      ensures data == old(data).(grandTotal := Some(GrandTotal(old(data).subtotal, old(data).discount, old(data).tax)))
      ensures errors == old(errors)
    {
      var grandTotal := GrandTotal(data.subtotal, data.discount, data.tax);
      data := data.(grandTotal := Some(grandTotal));
    }

    /** `handleInputChange` for a text input. */
    method HandleInputChange(f: Field, value: string)
      requires IsTextField(f)
      modifies this
      ensures data == WithText(old(data), f, value)
      ensures errors == ClearError(old(errors), f)
    {
      data := WithText(data, f, value);
      errors := ClearError(errors, f);
    }

    /** `handleInputChange` for the status select: the status is set directly. */
    method HandleStatusChange(status: PaymentStatus)
      modifies this
      ensures data == old(data).(paymentStatus := status)
      ensures errors == ClearError(old(errors), PaymentStatusField)
    {
      data := data.(paymentStatus := status);
      errors := ClearError(errors, PaymentStatusField);
    }

    method HandleItemChange(id: string, value: string)
      modifies this
      ensures data == old(data).(items := ChangeItemDescription(old(data).items, id, value))
      ensures errors == old(errors)
    {
      data := data.(items := ChangeItemDescription(data.items, id, value));
    }

    /** `addItem`; `newId` stands for `item-${Date.now()}`. */
    method AddItemTo(newId: string)
      modifies this
      ensures data == old(data).(items := AddItem(old(data).items, newId))
      ensures errors == old(errors)
    {
      data := data.(items := AddItem(data.items, newId));
    }

    method RemoveItemFrom(id: string)
      modifies this
      ensures data == old(data).(items := RemoveItem(old(data).items, id))
      ensures errors == old(errors)
    {
      data := data.(items := RemoveItem(data.items, id));
    }

    /** `handleNumericChange`: the input is stripped of leading zeros and parsed
      (`parse` stands for `parseFloat`, None for NaN); NaN and 0 store 0. */
    method HandleNumericChange(f: Field, input: string, parse: string -> Option<real>)
      requires IsNumberField(f)
      modifies this
      ensures data == WithNumber(old(data), f, Some(OrZero(parse(StripLeadingZeros(input)))))
      ensures errors == ClearError(old(errors), f)
    {
      var inputValue := StripLeadingZeros(input);
      var value := OrZero(parse(inputValue));
      data := WithNumber(data, f, Some(value));
      errors := ClearError(errors, f);
    }

    /** `handleNumericFocus`: a field holding 0 is emptied. */
    method HandleNumericFocus(f: Field)
      requires IsNumberField(f)
      modifies this
      ensures data == if NumberOf(old(data), f) == Some(0.0) then WithNumber(old(data), f, None) else old(data)
      ensures errors == old(errors)
    {
      if NumberOf(data, f) == Some(0.0) {
        data := WithNumber(data, f, None);
      }
    }

    /** `handleNumericBlur`: an input left empty or "0" stores 0. */
    method HandleNumericBlur(f: Field, input: string)
      requires IsNumberField(f)
      modifies this
      ensures data == if input == "" || input == "0" then WithNumber(old(data), f, Some(0.0)) else old(data)
      ensures errors == old(errors)
    {
      if input == "" || input == "0" {
        data := WithNumber(data, f, Some(0.0));
      }
    }

    /** `validateForm`: the error record is replaced by the one the form's data
        calls for, and the form is accepted exactly when it holds no entry. */
    method ValidateForm() returns (ok: bool)
      modifies this
      ensures data == old(data)
      ensures ReportsErrors(data, errors)
      ensures ok <==> FormValid(data)
      ensures ok <==> errors == map[]
    {
      var newErrors := NewErrors(data);
      errors := newErrors;
      ok := |newErrors| == 0;
    }
  }
}
