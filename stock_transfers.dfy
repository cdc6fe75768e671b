/** Transfers between warehouses (`StockTransfers.tsx`): the list filter, the
    creation of pending transfers, and their completion. */
module StockTransfers {
  import opened Wrappers
  import opened Seqs
  import opened Text
  import opened Domain
  import opened Store

  const Warehouses: seq<string> := ["Main Warehouse", "Secondary Warehouse", "Cold Storage"]

  // ---------------------------------------------------------------------------
  // Filtering

  /** The lowercased rice type, source or destination contains the lowercased term. */
  predicate MatchesSearch(t: StockTransfer, term: string)
  {
    || Contains(Lower(t.riceType), Lower(term))
    || Contains(Lower(t.from), Lower(term))
    || Contains(Lower(t.to), Lower(term))
  }

  predicate Selected(t: StockTransfer, term: string, statusFilter: Choice<TransferStatus>)
  {
    MatchesSearch(t, term) && statusFilter.Admits(t.status)
  }

  function SelectedBy(term: string, statusFilter: Choice<TransferStatus>): StockTransfer -> bool
  {
    t => Selected(t, term, statusFilter)
  }

  /** `filteredTransfers`: the selected transfers, in store order. */
  function FilteredTransfers(transfers: seq<StockTransfer>, term: string, statusFilter: Choice<TransferStatus>)
    : (r: seq<StockTransfer>)
    ensures IsSubsequence(r, transfers)
    ensures forall t :: t in r <==> t in transfers && Selected(t, term, statusFilter)
  {
    Filter(transfers, SelectedBy(term, statusFilter))
  }

  /** The pending and the completed lists together hold every transfer the search finds. */
  lemma StatusFiltersPartition(transfers: seq<StockTransfer>, term: string)
    ensures |FilteredTransfers(transfers, term, Only(TransferPending))|
          + |FilteredTransfers(transfers, term, Only(Completed))|
         == |FilteredTransfers(transfers, term, All)|
  {
    var all := Filter(transfers, SelectedBy(term, All));
    var p := SelectedBy(term, Only(TransferPending));
    var q := SelectedBy(term, Only(Completed));
    var isPending := (t: StockTransfer) => t.status == TransferPending;
    var isCompleted := (t: StockTransfer) => t.status != TransferPending;
    FilterFilter(transfers, SelectedBy(term, All), isPending, p);
    FilterFilter(transfers, SelectedBy(term, All), isCompleted, q);
    FilterComplementLengths(all, isPending, isCompleted);
  }

  // ---------------------------------------------------------------------------
  // Creating and completing

  /** The form's fields (`formData`). */
  datatype TransferFields = TransferFields(
    from: string, to: string, riceType: string, grade: string, bagSize: int, quantity: int,
    weightKg: int, reason: string)

  const DefaultFields := TransferFields("Main Warehouse", "Secondary Warehouse", "Basmati", "1121", 50, 0, 0, "")

  /** The "To" select offers every warehouse but the current "From". */
  function ToOptions(from: string): (r: seq<string>)
    ensures from !in r
    ensures forall w :: w in r <==> w in Warehouses && w != from
  {
    Filter(Warehouses, w => w != from)
  }

  /** `transferData`: the form, dated `today`, pending. */
  function NewTransfer(f: TransferFields, today: string): (t: StockTransfer)
    ensures t.status == TransferPending && t.date == today
    ensures t.from == f.from && t.to == f.to && t.riceType == f.riceType && t.grade == f.grade
    ensures t.bagSize == f.bagSize && t.quantity == f.quantity && t.weightKg == f.weightKg && t.reason == f.reason
  {
    StockTransfer("", f.from, f.to, f.riceType, f.grade, f.bagSize, f.quantity, f.weightKg, today,
                  TransferPending, f.reason)
  }

  /** Changing "From" leaves "To" alone, so the form can hold the same
      warehouse twice, and submitting stores that transfer as it is. */
  lemma SameWarehouseIsAccepted(today: string)
    ensures var f := DefaultFields.(from := DefaultFields.to);
            f.to !in ToOptions(f.from) && NewTransfer(f, today).from == NewTransfer(f, today).to
  {
  }

  /** `handleCompleteTransfer`'s partial record. */
  const CompletePatch := NoStockTransferChange.(status := Some(Completed))

  /** Completing changes the status to completed and nothing else. */
  lemma CompleteChangesOnlyStatus(t: StockTransfer)
    ensures MergeStockTransfer(t, CompletePatch) == t.(status := Completed)
  {
  }

  /** The operations this screen sends to the store: a new pending transfer,
      and the completion of a transfer. */
  predicate ScreenOp(op: Op)
  {
    || (op.StockTransferAdded? && op.transfer.status == TransferPending)
    || (op.StockTransferUpdated? && op.stockTransferPatch == CompletePatch)
  }

  /** Under this screen's operations a completed transfer stays completed,
      stored transfers keep their place and id, and neither the inventory nor
      any other collection changes. */
  lemma CompletedStaysCompleted(c: Collections, op: Op)
    requires ScreenOp(op)
    ensures var d := Apply(c, op);
      && |c.stockTransfers| <= |d.stockTransfers|
      && (forall i :: 0 <= i < |c.stockTransfers| ==>
            d.stockTransfers[i].id == c.stockTransfers[i].id
            && (c.stockTransfers[i].status == Completed ==> d.stockTransfers[i] == c.stockTransfers[i]))
      && d.(stockTransfers := c.stockTransfers) == c
  {
    var d := Apply(c, op);
    if op.StockTransferUpdated? {
      forall i | 0 <= i < |c.stockTransfers|
        ensures d.stockTransfers[i].id == c.stockTransfers[i].id
        ensures c.stockTransfers[i].status == Completed ==> d.stockTransfers[i] == c.stockTransfers[i]
      {
        CompleteChangesOnlyStatus(c.stockTransfers[i]);
      }
    }
  }

  /** A completed transfer is never offered for completion, and a pending one
      becomes completed. */
  lemma CompletionGoesOneWay(t: StockTransfer)
    ensures MergeStockTransfer(t, CompletePatch).status == Completed
    ensures t.status == Completed ==> MergeStockTransfer(t, CompletePatch) == t
  {
  }

  /** The quantity input: the weight is recomputed from the bag size. */
  function WithQuantity(f: TransferFields, q: int): (r: TransferFields)
    ensures r.quantity == q && r.weightKg == q * f.bagSize
    ensures r.(quantity := f.quantity, weightKg := f.weightKg) == f
  {
    f.(quantity := q, weightKg := q * f.bagSize)
  }

  class TransfersView {
    var searchTerm: string
    var statusFilter: Choice<TransferStatus>
    var form: TransferFields

    function Listed(transfers: seq<StockTransfer>): seq<StockTransfer>
      reads this
    {
      FilteredTransfers(transfers, searchTerm, statusFilter)
    }

    constructor ()
      ensures searchTerm == "" && statusFilter == All && form == DefaultFields
    {
      searchTerm := "";
      statusFilter := All;
      form := DefaultFields;
    }

    method SetSearchTerm(t: string)
      modifies this
      ensures searchTerm == t && statusFilter == old(statusFilter) && form == old(form)
    {
      searchTerm := t;
    }

    method SetStatusFilter(c: Choice<TransferStatus>)
      modifies this
      ensures statusFilter == c && searchTerm == old(searchTerm) && form == old(form)
    {
      statusFilter := c;
    }

    /** The "From" select; "To" is not adjusted. */
    method SetFrom(w: string)
      requires w in Warehouses
      modifies this
      ensures form == old(form).(from := w)
      ensures searchTerm == old(searchTerm) && statusFilter == old(statusFilter)
    {
      form := form.(from := w);
    }

    /** The "To" select, which offers only warehouses other than "From". */
    method SetTo(w: string)
      requires w in ToOptions(form.from)
      modifies this
      ensures form == old(form).(to := w) && form.to != form.from
      ensures searchTerm == old(searchTerm) && statusFilter == old(statusFilter)
    {
      form := form.(to := w);
    }

    method SetQuantity(q: int)
      modifies this
      ensures form == WithQuantity(old(form), q)
      ensures searchTerm == old(searchTerm) && statusFilter == old(statusFilter)
    {
      form := WithQuantity(form, q);
    }

    method SetWeight(w: int)
      modifies this
      ensures form == old(form).(weightKg := w)
      ensures searchTerm == old(searchTerm) && statusFilter == old(statusFilter)
    {
      form := form.(weightKg := w);
    }

    /** `handleSubmit`: the form is stored under `newId` as a pending transfer
        dated `today`, and the form resets. */
    method Submit(store: DataStore, newId: string, today: string)
      requires newId !in Ids(store.stockTransfers, StockTransferId)
      modifies this, store
      ensures store.Snapshot() == Apply(old(store.Snapshot()), StockTransferAdded(NewTransfer(old(form), today), newId))
      ensures store.inventory == old(store.inventory)
      ensures form == DefaultFields
      ensures searchTerm == old(searchTerm) && statusFilter == old(statusFilter)
    {
      store.AddStockTransfer(NewTransfer(form, today), newId);
      form := DefaultFields;
    }

    /** "Complete", shown for pending transfers only. */
    method Complete(store: DataStore, t: StockTransfer)
      requires t.status == TransferPending
      modifies store
      ensures store.Snapshot() == Apply(old(store.Snapshot()), StockTransferUpdated(t.id, CompletePatch))
      ensures store.inventory == old(store.inventory)
    {
      store.UpdateStockTransfer(t.id, CompletePatch);
    }
  }
}
