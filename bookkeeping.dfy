/** Properties that span the components: how the payment write-back, the form,
    the save action and the listing act on the same stored receipts. */
module Bookkeeping {
  import opened Types
  import opened PaymentTracker
  import opened ReceiptForm
  import opened ReceiptsPage
  import opened ReceiptActions

  /** On a collection with distinct ids that holds the receipt, the payment
      write-back (replace every entry with the id) and the save action (replace
      the first entry with the id) store the same collection. */
  lemma WriteBackAgreesWithSave(rs: seq<Receipt>, r: Receipt)
    requires UniqueIds(rs)
    requires HasId(rs, r.id)
    ensures ReplaceById(rs, r) == Upserted(rs, r)
  {
    var i := FindIndex(rs, r.id);
    var a := ReplaceById(rs, r);
    var b := Upserted(rs, r);
    forall k | 0 <= k < |rs|
      ensures a[k] == b[k]
    {
      if k != i {
        assert rs[k].id != r.id by {
          if k < i { assert rs[k].id != rs[i].id; } else { assert rs[i].id != rs[k].id; }
        }
      }
    }
  }

  /** Re-saving an edited receipt through the form discards its payment history:
      the stored entry that carried the ledger is replaced by one with no
      payments, no paid amount and no paid date, whose status is whatever the
      form holds. */
  lemma ResaveDropsPaymentHistory(rs: seq<Receipt>, stored: Receipt, d: FormData, freshId: string, now: string)
    requires stored.id != "" && HasId(rs, stored.id)
    requires d.receiptNumber != ""
    ensures var e := EmitReceipt(d, Some(stored), freshId, now).value;
            var saved := Upserted(rs, e)[FindIndex(rs, stored.id)];
            && saved.id == stored.id
            && saved.payments.None? && saved.paidAmount.None? && saved.paidDate.None?
            && PaymentsOf(saved) == [] && PaidSoFar(saved) == 0.0
            && saved.paymentStatus == d.paymentStatus
  {
  }

  /** The status is only derived by a payment add: the form may emit a Paid
      receipt with nothing paid, whose status disagrees with the one its paid
      amount and total give, although its (empty) ledger is consistent. */
  lemma FormStatusNotDerived(d: FormData, initial: Option<Receipt>, freshId: string, now: string)
    requires d.receiptNumber != "" && d.paymentStatus == Paid
    requires OrZero(d.grandTotal) > 0.0
    ensures var e := EmitReceipt(d, initial, freshId, now).value;
            && LedgerConsistent(e)
            && e.paymentStatus == Paid
            && Remaining(e) == e.grandTotal > 0.0
            && DeriveStatus(PaidSoFar(e), e.grandTotal) == Pending
  {
  }

  /** A receipt that has taken a payment (from a non-negative paid amount) is no
      longer offered for deletion by the listing. */
  lemma PaidReceiptNotDeletable(r: Receipt, amount: Option<real>, paymentId: string, date: string, notes: string)
    requires PaidSoFar(r) >= 0.0
    ensures AddPayment(r, amount, paymentId, date, notes).Ok? ==>
              !DeleteOffered(AddPayment(r, amount, paymentId, date, notes).value)
  {
  }

  /** Subtotal 1000, discount 100 and tax 50 give a total of 950; paying 500 on
      D1 leaves the receipt Partial with 450 remaining, and paying 450 on D2
      makes it Paid on D2 with nothing remaining. */
  lemma InstalmentScenario(r: Receipt)
    requires r.grandTotal == GrandTotal(Some(1000.0), Some(100.0), Some(50.0))
    requires r.payments.None? && r.paidAmount.None?
    ensures r.grandTotal == 950.0
    ensures var first := AddPayment(r, Some(500.0), "p1", "D1", "");
            && first.Ok? && first.value.paymentStatus == Partial && Remaining(first.value) == 450.0
            && var second := AddPayment(first.value, Some(450.0), "p2", "D2", "");
               && second.Ok? && second.value.paymentStatus == Paid
               && second.value.paidDate == Some("D2") && Remaining(second.value) == 0.0
               && |PaymentsOf(second.value)| == 2 && LedgerConsistent(second.value)
  {
    var first := AddPayment(r, Some(500.0), "p1", "D1", "");
    AddPaymentKeepsLedgerConsistent(r, Some(500.0), "p1", "D1", "");
    AddPaymentKeepsLedgerConsistent(first.value, Some(450.0), "p2", "D2", "");
  }

  /** A payment of 250 against a Pending receipt of total 200 with nothing paid is
      refused with the remaining 200 reported, so the receipt stays Pending with
      no payments. */
  lemma OverpaymentScenario(r: Receipt)
    requires r.grandTotal == 200.0 && r.paymentStatus == Pending
    requires r.payments.None? && r.paidAmount.None?
    ensures AddPayment(r, Some(250.0), "p1", "D1", "") == Err(ExceedsRemaining(200.0))
  {
  }
}
