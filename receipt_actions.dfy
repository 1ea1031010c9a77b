/** The save and e-mail actions of components/ReceiptActions.tsx: the upsert of
    the shown receipt into the stored collection, and the guard that refuses to
    e-mail a receipt without a client address. */
module ReceiptActions {
  import opened Types
  import opened Storage

  /** `Array.prototype.findIndex` by id: the first position holding the id, or
      -1 when none does. */
  function FindIndex(rs: seq<Receipt>, id: string): (i: int)
    ensures -1 <= i < |rs|
    ensures i >= 0 ==> rs[i].id == id && forall k :: 0 <= k < i ==> rs[k].id != id
    ensures i == -1 <==> !HasId(rs, id)
    decreases |rs|
  {
    if rs == [] then -1
    else if rs[0].id == id then 0
    else
      var j := FindIndex(rs[1..], id);
      if j < 0 then -1 else j + 1
  }

  /** The search loop of `handleSaveReceipt`, scanning from the front. */
  method FindIndexOf(rs: seq<Receipt>, id: string) returns (i: int)
    ensures -1 <= i < |rs|
    ensures i >= 0 ==> rs[i].id == id && forall k :: 0 <= k < i ==> rs[k].id != id
    ensures i == -1 ==> forall k :: 0 <= k < |rs| ==> rs[k].id != id
    ensures i == FindIndex(rs, id)
  {
    var n := 0;
    while n < |rs| && rs[n].id != id
      invariant 0 <= n <= |rs|
      invariant forall k :: 0 <= k < n ==> rs[k].id != id
    {
      n := n + 1;
    }
    i := if n < |rs| then n else -1;
  }

  /** The collection after saving `r`: the first entry with its id replaced, or
      `r` appended when no entry has its id. */
  function Upserted(rs: seq<Receipt>, r: Receipt): (out: seq<Receipt>)
    ensures HasId(rs, r.id) ==>
              && |out| == |rs|
              && out[FindIndex(rs, r.id)] == r
              && forall k :: 0 <= k < |rs| && k != FindIndex(rs, r.id) ==> out[k] == rs[k]
    ensures !HasId(rs, r.id) ==>
              && |out| == |rs| + 1
              && out[|rs|] == r
              && forall k :: 0 <= k < |rs| ==> out[k] == rs[k]
    ensures r in out
  {
    var existingIndex := FindIndex(rs, r.id);
    if existingIndex >= 0 then rs[existingIndex := r] else rs + [r]
  }

  /** Saving the same receipt twice leaves the store as saving it once. */
  lemma UpsertIdempotent(rs: seq<Receipt>, r: Receipt)
    ensures Upserted(Upserted(rs, r), r) == Upserted(rs, r)
  {
    var once := Upserted(rs, r);
    var i := if HasId(rs, r.id) then FindIndex(rs, r.id) else |rs|;
    assert HasId(once, r.id) by { assert once[i].id == r.id; }
    assert FindIndex(once, r.id) == i;
  }

  /** Saving keeps the ids of a collection pairwise distinct. */
  lemma UpsertKeepsIdsUnique(rs: seq<Receipt>, r: Receipt)
    requires UniqueIds(rs)
    ensures UniqueIds(Upserted(rs, r))
  {
    var out := Upserted(rs, r);
    if HasId(rs, r.id) {
      var i := FindIndex(rs, r.id);
      forall a, b | 0 <= a < b < |out| ensures out[a].id != out[b].id {
        if a != i && b != i {
          assert out[a] == rs[a] && out[b] == rs[b];
        } else if a == i {
          assert out[b] == rs[b] && rs[i].id == r.id;
        } else {
          assert out[a] == rs[a] && rs[i].id == r.id;
        }
      }
    } else {
      forall a, b | 0 <= a < b < |out| ensures out[a].id != out[b].id {
        if b == |rs| {
          assert out[a] == rs[a];
        } else {
          assert out[a] == rs[a] && out[b] == rs[b];
        }
      }
    }
  }

  /** `handleSaveReceipt`: the stored collection (empty when missing) is loaded,
      the receipt replaces the entry found by id or is pushed at the end, and the
      collection is written back; the message says which of the two happened. */
  method HandleSaveReceipt(store: ReceiptStore, receipt: Receipt) returns (m: Message)
    modifies store
    ensures store.saved == Some(Upserted(old(store.Loaded()), receipt))
    ensures HasId(old(store.Loaded()), receipt.id) ==> m == Success("Receipt updated successfully!")
    ensures !HasId(old(store.Loaded()), receipt.id) ==> m == Success("Receipt saved successfully!")
  {
    var existingReceipts := store.Load();
    var existingIndex := FindIndexOf(existingReceipts, receipt.id);
    if existingIndex >= 0 {
      existingReceipts := existingReceipts[existingIndex := receipt];
      m := Success("Receipt updated successfully!");
    } else {
      existingReceipts := existingReceipts + [receipt];
      m := Success("Receipt saved successfully!");
    }
    store.Store(existingReceipts);
  }

  /** What the POST to the e-mail endpoint came to: a success response, an error
      response with its `error` text (empty when it carried none), or an
      exception (network or JSON failure) with its message. */
  datatype Delivery = Delivered | Rejected(error: string) | Threw(message: string)

  /** The message the component shows. */
  datatype Message = Success(text: string) | Failure(text: string)

  /** `handleSendEmail`; `deliver` stands for the POST to /api/send-email. A
      receipt with an empty client e-mail is refused with "Client email is
      required", whatever the endpoint would answer. */
  function HandleSendEmail(r: Receipt, deliver: Receipt -> Delivery): (m: Message)
    ensures r.clientEmail == "" ==> m == Failure("Client email is required")
    ensures r.clientEmail != "" && deliver(r).Delivered? ==>
              m == Success("Email sent successfully to " + r.clientEmail + "!")
    ensures r.clientEmail != "" && deliver(r).Rejected? ==>
              m == Failure(if deliver(r).error != "" then deliver(r).error else "Failed to send email")
    ensures r.clientEmail != "" && deliver(r).Threw? ==> m == Failure(deliver(r).message)
    ensures m.Success? <==> r.clientEmail != "" && deliver(r).Delivered?
  {
    if r.clientEmail == "" then Failure("Client email is required")
    else
      match deliver(r)
      case Delivered => Success("Email sent successfully to " + r.clientEmail + "!")
      case Rejected(error) => Failure(if error != "" then error else "Failed to send email")
      case Threw(message) => Failure(message)
  }
}
