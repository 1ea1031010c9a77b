/** The listing page app/receipts/page.tsx: loading the stored receipts, the
    status tabs with their counts, the search box, and deletion. */
module ReceiptsPage {
  import opened Types
  import opened Text
  import opened Seqs
  import opened Storage

  /** The status tab selected: All, or one status. */
  datatype StatusFilter = All | Only(status: PaymentStatus)

  /** `receipt.paymentStatus === status`. */
  function HasStatus(status: PaymentStatus): Receipt -> bool {
    (r: Receipt) => r.paymentStatus == status
  }

  /** The search test for an already lowercased and trimmed query: it occurs in
      the lowercased client name, receipt number or project title. */
  predicate MatchesQuery(r: Receipt, query: string) {
    || Contains(Lower(r.clientName), query)
    || Contains(Lower(r.receiptNumber), query)
    || Contains(Lower(r.projectTitle), query)
  }

  function Matching(query: string): Receipt -> bool {
    (r: Receipt) => MatchesQuery(r, query)
  }

  /** The query the search uses: `searchQuery.toLowerCase().trim()`. */
  function NormalQuery(searchQuery: string): string {
    Trim(Lower(searchQuery))
  }

  /** The status predicate of the listing: every receipt passes under All. */
  predicate PassesStatus(r: Receipt, filter: StatusFilter) {
    filter.All? || r.paymentStatus == filter.status
  }

  /** The search predicate of the listing: every receipt passes a blank query. */
  predicate PassesSearch(r: Receipt, searchQuery: string) {
    IsBlank(searchQuery) || MatchesQuery(r, NormalQuery(searchQuery))
  }

  function Selected(filter: StatusFilter, searchQuery: string): Receipt -> bool {
    (r: Receipt) => PassesStatus(r, filter) && PassesSearch(r, searchQuery)
  }

  /** The filter effect: the status filter, then the search filter when the
      trimmed query is not empty. */
  function FilterReceipts(receipts: seq<Receipt>, filter: StatusFilter, searchQuery: string): (listed: seq<Receipt>)
    ensures |listed| <= |receipts|
    ensures forall k :: 0 <= k < |listed| ==>
              && listed[k] in receipts
              && PassesStatus(listed[k], filter)
              && (Trim(searchQuery) != "" ==> MatchesQuery(listed[k], NormalQuery(searchQuery)))
  {
    var filtered := receipts;
    var filtered := if filter.Only? then Filter(filtered, HasStatus(filter.status)) else filtered;
    if Trim(searchQuery) != "" then Filter(filtered, Matching(NormalQuery(searchQuery))) else filtered
  }

  /** The listing shows exactly the loaded receipts that pass both the status and
      the search predicate, in their stored order; under All with a blank query
      it shows them all; under a status tab only receipts of that status. */
  lemma FilterReceiptsMeaning(receipts: seq<Receipt>, filter: StatusFilter, searchQuery: string)
    ensures FilterReceipts(receipts, filter, searchQuery) == Filter(receipts, Selected(filter, searchQuery))
    ensures IsSubseq(FilterReceipts(receipts, filter, searchQuery), receipts)
    ensures filter.All? && IsBlank(searchQuery) ==> FilterReceipts(receipts, filter, searchQuery) == receipts
    ensures filter.Only? ==>
              forall k :: 0 <= k < |FilterReceipts(receipts, filter, searchQuery)| ==>
                FilterReceipts(receipts, filter, searchQuery)[k].paymentStatus == filter.status
    ensures !IsBlank(searchQuery) ==>
              forall r :: r in FilterReceipts(receipts, filter, searchQuery) <==>
                r in receipts && PassesStatus(r, filter) && MatchesQuery(r, NormalQuery(searchQuery))
  {
    TrimEmptyIffBlank(searchQuery);
    var sel := Selected(filter, searchQuery);
    var byStatus := (r: Receipt) => PassesStatus(r, filter);
    var bySearch := (r: Receipt) => PassesSearch(r, searchQuery);
    var statusStage := if filter.Only? then Filter(receipts, HasStatus(filter.status)) else receipts;
    if filter.Only? {
      FilterFilter(receipts, HasStatus(filter.status), HasStatus(filter.status), byStatus);
      FilterKeepsAll(Filter(receipts, HasStatus(filter.status)), HasStatus(filter.status));
    } else {
      FilterKeepsAll(receipts, byStatus);
    }
    assert statusStage == Filter(receipts, byStatus);
    if IsBlank(searchQuery) {
      FilterKeepsAll(statusStage, bySearch);
      FilterFilter(receipts, byStatus, bySearch, sel);
    } else {
      var q := Matching(NormalQuery(searchQuery));
      FilterFilter(receipts, byStatus, q, sel);
    }
    FilterIsSubseq(receipts, sel);
  }

  /** Applying the search before the status tab gives the same listing. */
  lemma FilterOrderIrrelevant(receipts: seq<Receipt>, status: PaymentStatus, searchQuery: string)
    requires !IsBlank(searchQuery)
    ensures FilterReceipts(receipts, Only(status), searchQuery)
            == Filter(Filter(receipts, Matching(NormalQuery(searchQuery))), HasStatus(status))
  {
    TrimEmptyIffBlank(searchQuery);
    FilterCommutes(receipts, HasStatus(status), Matching(NormalQuery(searchQuery)));
  }

  /** The count shown on a status tab. */
  function CountWithStatus(receipts: seq<Receipt>, status: PaymentStatus): (count: nat)
    ensures count <= |receipts|
    ensures count == 0 <==> forall k :: 0 <= k < |receipts| ==> receipts[k].paymentStatus != status
  {
    var selected := Filter(receipts, HasStatus(status));
    assert selected != [] ==> selected[0].paymentStatus == status && selected[0] in receipts;
    |selected|
  }

  /** The three status tabs together count every receipt the "All" tab counts. */
  lemma {:induction false} StatusCountsAddUp(receipts: seq<Receipt>)
    ensures CountWithStatus(receipts, Pending) + CountWithStatus(receipts, Partial)
            + CountWithStatus(receipts, Paid) == |receipts|
    decreases |receipts|
  {
    if receipts != [] {
      StatusCountsAddUp(receipts[1..]);
    }
  }

  /** The Delete button is enabled only for Pending receipts. */
  predicate DeleteOffered(r: Receipt) {
    r.paymentStatus == Pending
  }

  /** `receipts.filter(r => r.id !== id)`: every receipt with the id is gone, all
      others stay, in their order; an id not present changes nothing. */
  function Delete(receipts: seq<Receipt>, id: string): (updated: seq<Receipt>)
    ensures forall k :: 0 <= k < |updated| ==> updated[k].id != id && updated[k] in receipts
    ensures forall k :: 0 <= k < |receipts| && receipts[k].id != id ==> receipts[k] in updated
    ensures IsSubseq(updated, receipts)
    ensures !HasId(receipts, id) ==> updated == receipts
    ensures forall v :: multiset(updated)[v] == if v.id != id then multiset(receipts)[v] else 0
  {
    var keep := (r: Receipt) => r.id != id;
    FilterIsSubseq(receipts, keep);
    assert forall v :: multiset(Filter(receipts, keep))[v] == if v.id != id then multiset(receipts)[v] else 0 by {
      forall v ensures multiset(Filter(receipts, keep))[v] == if v.id != id then multiset(receipts)[v] else 0 {
        FilterCount(receipts, keep, v);
      }
    }
    if !HasId(receipts, id) then FilterKeepsAll(receipts, keep); Filter(receipts, keep)
    else Filter(receipts, keep)
  }

  /** The page load: a missing stored collection reads as the empty list, and the
      listing starts as the whole collection. */
  method LoadReceipts(store: ReceiptStore) returns (receipts: seq<Receipt>, filtered: seq<Receipt>)
    ensures store.saved.None? ==> receipts == []
    ensures store.saved.Some? ==> receipts == store.saved.value
    ensures filtered == receipts
  {
    receipts := store.Load();
    filtered := receipts;
  }

  /** `handleDelete`: once confirmed, the page's list loses the receipts with the
      id and is written to the store; unconfirmed, nothing changes. */
  method HandleDelete(store: ReceiptStore, receipts: seq<Receipt>, id: string, confirmed: bool)
    returns (updated: seq<Receipt>)
    modifies store
    ensures confirmed ==> updated == Delete(receipts, id) && store.saved == Some(updated)
    ensures !confirmed ==> updated == receipts && store.saved == old(store.saved)
  {
    if !confirmed {
      return receipts;
    }
    updated := Delete(receipts, id);
    store.Store(updated);
  }
}
