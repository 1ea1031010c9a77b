/** The receipt record and its parts, as lib/types.ts declares them.
    Amounts are exact reals; an optional field of the record is an Option. */
module Types {

  datatype Option<+T> = None | Some(value: T) {
    /** `x || d` for a value that is either present or missing. */
    function GetOr(default: T): T {
      match this
      case Some(v) => v
      case None => default
    }
  }

  datatype Result<+T, +E> = Ok(value: T) | Err(error: E)

  datatype PaymentStatus = Paid | Partial | Pending

  datatype ReceiptItem = ReceiptItem(id: string, description: string)

  datatype PaymentTransaction = PaymentTransaction(
    id: string,
    amount: real,
    paymentDate: string,
    notes: string)

  datatype Receipt = Receipt(
    id: string,
    receiptNumber: string,
    clientName: string,
    clientEmail: string,
    projectTitle: string,
    issueDate: string,
    paymentStatus: PaymentStatus,
    items: seq<ReceiptItem>,
    subtotal: real,
    discount: real,
    tax: real,
    grandTotal: real,
    notes: string,
    createdAt: string,
    payments: Option<seq<PaymentTransaction>>,
    paidAmount: Option<real>,
    paidDate: Option<string>)

  /** `n || 0` for a JavaScript number that may be missing or NaN (None);
      a present 0 also gives 0, so the two readings agree. */
  function OrZero(n: Option<real>): real {
    n.GetOr(0.0)
  }

  /** No two receipts of the collection share an id. */
  predicate UniqueIds(rs: seq<Receipt>) {
    forall i, j :: 0 <= i < j < |rs| ==> rs[i].id != rs[j].id
  }

  /** Some receipt of the collection carries the id. */
  predicate HasId(rs: seq<Receipt>, id: string) {
    exists k :: 0 <= k < |rs| && rs[k].id == id
  }
}
