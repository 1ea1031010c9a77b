/** The payment ledger of components/PaymentTracker.tsx: validating a payment
    amount against the remaining balance, appending the transaction, accumulating
    the paid amount, deriving the status and paid date, and writing the updated
    receipt back into the stored collection by id. */
module PaymentTracker {
  import opened Types
  import opened Storage

  /** `receipt.payments || []`. */
  function PaymentsOf(r: Receipt): (ps: seq<PaymentTransaction>)
    ensures r.payments.None? ==> ps == []
    ensures r.payments.Some? ==> ps == r.payments.value
  {
    r.payments.GetOr([])
  }

  /** `receipt.paidAmount || 0`: the paid amount as stored, never recomputed. */
  function PaidSoFar(r: Receipt): (paid: real)
    ensures r.paidAmount.None? ==> paid == 0.0
    ensures r.paidAmount.Some? ==> paid == r.paidAmount.value
  {
    OrZero(r.paidAmount)
  }

  /** `remainingAmount`: the grand total less what has been paid. */
  function Remaining(r: Receipt): (remaining: real)
    ensures remaining + PaidSoFar(r) == r.grandTotal
    ensures remaining <= 0.0 <==> PaidSoFar(r) >= r.grandTotal
  {
    r.grandTotal - PaidSoFar(r)
  }

  /** The sum of the amounts of a list of payments. */
  function SumAmounts(ps: seq<PaymentTransaction>): real
    decreases |ps|
  {
    if ps == [] then 0.0 else ps[0].amount + SumAmounts(ps[1..])
  }

  lemma {:induction false} SumAmountsAppend(ps: seq<PaymentTransaction>, p: PaymentTransaction)
    ensures SumAmounts(ps + [p]) == SumAmounts(ps) + p.amount
    decreases |ps|
  {
    if ps != [] {
      assert (ps + [p])[1..] == ps[1..] + [p];
      SumAmountsAppend(ps[1..], p);
    }
  }

  lemma {:induction false} SumAmountsConcat(ps: seq<PaymentTransaction>, qs: seq<PaymentTransaction>)
    ensures SumAmounts(ps + qs) == SumAmounts(ps) + SumAmounts(qs)
    decreases |ps|
  {
    if ps == [] {
      assert ps + qs == qs;
    } else {
      assert (ps + qs)[1..] == ps[1..] + qs;
      SumAmountsConcat(ps[1..], qs);
    }
  }

  /** The stored paid amount equals the sum of the recorded payments. The record
      does not enforce this (the paid amount is trusted as stored); a successful
      payment add preserves it. */
  predicate LedgerConsistent(r: Receipt) {
    PaidSoFar(r) == SumAmounts(PaymentsOf(r))
  }

  /** The status rule of a payment add: Paid once the total is reached, Partial
      once anything is paid, Pending otherwise. */
  function DeriveStatus(paid: real, total: real): (status: PaymentStatus)
    ensures status == Paid <==> paid >= total
    ensures status == Partial <==> 0.0 < paid < total
    ensures status == Pending <==> paid <= 0.0 && paid < total
  {
    if paid >= total then Paid else if paid > 0.0 then Partial else Pending
  }

  /** Why a payment was refused: an amount that is missing, not a number, zero or
      negative; or one above the remaining balance, which the message reports. */
  datatype PaymentError = InvalidAmount | ExceedsRemaining(remaining: real)

  /** Every field outside the ledger (payments, paidAmount, paidDate, paymentStatus)
      is the same in both receipts. */
  predicate SameDetails(a: Receipt, b: Receipt) {
    && a.id == b.id && a.receiptNumber == b.receiptNumber
    && a.clientName == b.clientName && a.clientEmail == b.clientEmail
    && a.projectTitle == b.projectTitle && a.issueDate == b.issueDate
    && a.items == b.items && a.subtotal == b.subtotal && a.discount == b.discount
    && a.tax == b.tax && a.grandTotal == b.grandTotal && a.notes == b.notes
    && a.createdAt == b.createdAt
  }

  /** The receipt computed by `handleAddPayment` for the parsed amount
      (None when `parseFloat` gives NaN); `paymentId` stands for the
      `payment-${Date.now()}` id. */
  function AddPayment(r: Receipt, amount: Option<real>, paymentId: string, date: string, notes: string)
    : (res: Result<Receipt, PaymentError>)
    ensures res == Err(InvalidAmount) <==> amount.None? || amount.value <= 0.0
    ensures res.Err? && res.error.ExceedsRemaining? <==>
              amount.Some? && amount.value > 0.0 && amount.value > Remaining(r)
    ensures res.Err? && res.error.ExceedsRemaining? ==> res.error.remaining == Remaining(r)
    ensures res.Ok? ==>
              var n := res.value;
              && SameDetails(r, n)
              && n.payments == Some(PaymentsOf(r) + [PaymentTransaction(paymentId, amount.value, date, notes)])
              && PaidSoFar(n) == PaidSoFar(r) + amount.value
              && PaidSoFar(n) <= n.grandTotal
              && (PaidSoFar(r) >= 0.0 ==> n.paymentStatus != Pending)
              && (n.paymentStatus == Paid <==> PaidSoFar(n) == n.grandTotal)
              && n.paymentStatus == DeriveStatus(PaidSoFar(n), n.grandTotal)
              && n.paidDate == (if n.paymentStatus == Paid then Some(date) else r.paidDate)
  {
    if amount.None? || amount.value <= 0.0 then
      Err(InvalidAmount)
    else if amount.value > Remaining(r) then
      Err(ExceedsRemaining(Remaining(r)))
    else
      var newPayment := PaymentTransaction(paymentId, amount.value, date, notes);
      var newPaidAmount := PaidSoFar(r) + amount.value;
      var newStatus :=
        if newPaidAmount >= r.grandTotal then Paid
        else if newPaidAmount > 0.0 then Partial
        else Pending;
      Ok(r.(payments := Some(PaymentsOf(r) + [newPayment]),
            paidAmount := Some(newPaidAmount),
            paidDate := if newPaidAmount >= r.grandTotal then Some(date) else r.paidDate,
            paymentStatus := newStatus))
  }

  /** A successful payment add keeps the paid amount equal to the sum of the
      recorded payments. */
  lemma AddPaymentKeepsLedgerConsistent(r: Receipt, amount: Option<real>, paymentId: string, date: string, notes: string)
    requires LedgerConsistent(r)
    ensures AddPayment(r, amount, paymentId, date, notes).Ok? ==>
              LedgerConsistent(AddPayment(r, amount, paymentId, date, notes).value)
  {
    if AddPayment(r, amount, paymentId, date, notes).Ok? {
      SumAmountsAppend(PaymentsOf(r), PaymentTransaction(paymentId, amount.value, date, notes));
    }
  }

  /** One press of "add payment" in a session. */
  datatype PaymentRequest = PaymentRequest(amount: Option<real>, id: string, date: string, notes: string)

  /** The transactions a list of accepted requests records (TransactionsOfRecords). */
  function TransactionsOf(reqs: seq<PaymentRequest>): (ts: seq<PaymentTransaction>)
    ensures |ts| == |reqs|
    decreases |reqs|
  {
    if reqs == [] then []
    else [PaymentTransaction(reqs[0].id, OrZero(reqs[0].amount), reqs[0].date, reqs[0].notes)]
         + TransactionsOf(reqs[1..])
  }

  /** One transaction per request, in order, each carrying that request's id,
      amount, date and notes. */
  lemma {:induction false} TransactionsOfRecords(reqs: seq<PaymentRequest>)
    ensures forall k :: 0 <= k < |reqs| ==>
              TransactionsOf(reqs)[k] == PaymentTransaction(reqs[k].id, OrZero(reqs[k].amount), reqs[k].date, reqs[k].notes)
    decreases |reqs|
  {
    if reqs != [] {
      TransactionsOfRecords(reqs[1..]);
    }
  }

  /** Successive payment adds, each against the receipt the previous one returned;
      the first refusal ends the session. */
  ghost function AddPayments(r: Receipt, reqs: seq<PaymentRequest>): Result<Receipt, PaymentError>
    decreases |reqs|
  {
    if reqs == [] then Ok(r)
    else
      match AddPayment(r, reqs[0].amount, reqs[0].id, reqs[0].date, reqs[0].notes)
      case Err(e) => Err(e)
      case Ok(next) => AddPayments(next, reqs[1..])
  }

  /** After any run of accepted payments the details are unchanged, the ledger
      is the old one followed by the new transactions in order, and the paid
      amount has grown by their sum. */
  lemma {:induction false} AddPaymentsLedger(r: Receipt, reqs: seq<PaymentRequest>)
    ensures AddPayments(r, reqs).Ok? ==>
              var n := AddPayments(r, reqs).value;
              && SameDetails(r, n)
              && PaymentsOf(n) == PaymentsOf(r) + TransactionsOf(reqs)
              && PaidSoFar(n) == PaidSoFar(r) + SumAmounts(TransactionsOf(reqs))
    decreases |reqs|
  {
    if reqs == [] {
      assert PaymentsOf(r) + [] == PaymentsOf(r);
    } else {
      var q := reqs[0];
      var first := AddPayment(r, q.amount, q.id, q.date, q.notes);
      if first.Ok? {
        var next := first.value;
        var t := PaymentTransaction(q.id, OrZero(q.amount), q.date, q.notes);
        AddPaymentsLedger(next, reqs[1..]);
        assert TransactionsOf(reqs) == [t] + TransactionsOf(reqs[1..]);
        assert PaymentsOf(r) + [t] + TransactionsOf(reqs[1..]) == PaymentsOf(r) + TransactionsOf(reqs);
        SumAmountsConcat([t], TransactionsOf(reqs[1..]));
      }
    }
  }

  /** After any non-empty run of accepted payments the paid amount is at most the
      total, the status is the one derived from the two, and when the total is
      reached the paid date is that of the last payment. */
  lemma {:induction false} AddPaymentsStatus(r: Receipt, reqs: seq<PaymentRequest>)
    requires reqs != []
    ensures AddPayments(r, reqs).Ok? ==>
              var n := AddPayments(r, reqs).value;
              && PaidSoFar(n) <= n.grandTotal
              && n.paymentStatus == DeriveStatus(PaidSoFar(n), n.grandTotal)
              && (PaidSoFar(n) == n.grandTotal ==> n.paidDate == Some(reqs[|reqs| - 1].date))
    decreases |reqs|
  {
    var q := reqs[0];
    var first := AddPayment(r, q.amount, q.id, q.date, q.notes);
    if first.Ok? && reqs[1..] != [] {
      AddPaymentsStatus(first.value, reqs[1..]);
      assert reqs[1..][|reqs[1..]| - 1] == reqs[|reqs| - 1];
    }
  }

  /** After any non-empty run of accepted payments on a consistent receipt: the
      ledger is the old one followed by the new transactions in order, it stays
      consistent, the paid amount is the old one plus their sum and never above
      the total, the status is the one derived from paid amount and total, and
      when the total is reached the paid date is that of the last payment. */
  lemma AddPaymentsInvariant(r: Receipt, reqs: seq<PaymentRequest>)
    requires LedgerConsistent(r)
    requires reqs != []
    ensures AddPayments(r, reqs).Ok? ==>
              var n := AddPayments(r, reqs).value;
              && SameDetails(r, n)
              && PaymentsOf(n) == PaymentsOf(r) + TransactionsOf(reqs)
              && LedgerConsistent(n)
              && PaidSoFar(n) == PaidSoFar(r) + SumAmounts(TransactionsOf(reqs))
              && PaidSoFar(n) <= n.grandTotal
              && n.paymentStatus == DeriveStatus(PaidSoFar(n), n.grandTotal)
              && (PaidSoFar(n) == n.grandTotal ==> n.paidDate == Some(reqs[|reqs| - 1].date))
  {
    AddPaymentsLedger(r, reqs);
    AddPaymentsStatus(r, reqs);
    SumAmountsConcat(PaymentsOf(r), TransactionsOf(reqs));
  }

  /** Payments on an unpaid receipt whose amounts add up exactly to the grand total
      leave it Paid with nothing remaining, dated by the last payment; while the sum
      is below the total (and positive) the receipt is Partial. */
  lemma SettlementByInstalments(r: Receipt, reqs: seq<PaymentRequest>)
    requires r.payments == None && r.paidAmount == None
    requires reqs != [] && AddPayments(r, reqs).Ok?
    ensures var n := AddPayments(r, reqs).value;
            && (SumAmounts(TransactionsOf(reqs)) == r.grandTotal ==>
                  n.paymentStatus == Paid && Remaining(n) == 0.0 && n.paidDate == Some(reqs[|reqs| - 1].date))
            && (0.0 < SumAmounts(TransactionsOf(reqs)) < r.grandTotal ==> n.paymentStatus == Partial)
  {
    assert LedgerConsistent(r);
    AddPaymentsInvariant(r, reqs);
  }

  /** `savedReceipts.map(r => r.id === receipt.id ? updatedReceipt : r)`:
      every stored receipt with the updated receipt's id is replaced by it; the
      length and every other entry stay as they were. */
  function ReplaceById(rs: seq<Receipt>, updated: Receipt): (out: seq<Receipt>)
    ensures |out| == |rs|
    ensures forall k :: 0 <= k < |rs| && rs[k].id == updated.id ==> out[k] == updated
    ensures forall k :: 0 <= k < |rs| && rs[k].id != updated.id ==> out[k] == rs[k]
  {
    seq(|rs|, k requires 0 <= k < |rs| => if rs[k].id == updated.id then updated else rs[k])
  }

  /** A receipt that is not in the store is not inserted by the write-back. */
  lemma ReplaceByIdAbsent(rs: seq<Receipt>, updated: Receipt)
    requires !HasId(rs, updated.id)
    ensures ReplaceById(rs, updated) == rs
  {
  }

  /** `handleAddPayment` with its write-back: the receipt shown (`receipt`) is
      updated, and on success the stored collection has every entry with its id
      replaced by the updated receipt. A refused amount changes nothing. */
  method HandleAddPayment(store: ReceiptStore, receipt: Receipt, amount: Option<real>,
                          paymentId: string, date: string, notes: string)
    returns (res: Result<Receipt, PaymentError>)
    modifies store
    ensures res == AddPayment(receipt, amount, paymentId, date, notes)
    ensures res.Err? ==> store.saved == old(store.saved)
    ensures res.Ok? ==> store.saved == Some(ReplaceById(old(store.Loaded()), res.value))
  {
    res := AddPayment(receipt, amount, paymentId, date, notes);
    if res.Err? {
      return;
    }
    var savedReceipts := store.Load();
    var updatedReceipts := ReplaceById(savedReceipts, res.value);
    store.Store(updatedReceipts);
  }
}
