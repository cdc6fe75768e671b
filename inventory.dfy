/** The stock table (`Inventory.tsx`): search and warehouse filters, the
    low-stock colours and count, the value and weight totals, and the add/edit
    form. */
module Inventory {
  import opened Wrappers
  import opened Seqs
  import opened Text
  import opened Domain
  import opened Store

  // ---------------------------------------------------------------------------
  // Filtering

  /** The lowercased rice type or grade contains the lowercased term: an empty
      term matches every item, and a match needs a field as long as the term. */
  function MatchesSearch(item: InventoryItem, term: string): (r: bool)
    ensures term == [] ==> r
    ensures r ==> |term| <= |item.riceType| || |term| <= |item.grade|
  {
    Contains(Lower(item.riceType), Lower(term)) || Contains(Lower(item.grade), Lower(term))
  }

  /** The search does not depend on the case of the term. */
  lemma SearchIgnoresCase(item: InventoryItem, term: string)
    ensures MatchesSearch(item, Lower(term)) <==> MatchesSearch(item, term)
  {
    LowerIdempotent(term);
  }

  /** A term found as typed in the rice type or the grade matches. */
  lemma FoundAsTypedMatches(item: InventoryItem, term: string)
    requires Contains(item.riceType, term) || Contains(item.grade, term)
    ensures MatchesSearch(item, term)
  {
    if Contains(item.riceType, term) {
      ContainsLower(item.riceType, term);
    } else {
      ContainsLower(item.grade, term);
    }
  }

  predicate Selected(item: InventoryItem, term: string, warehouseFilter: Choice<string>)
  {
    MatchesSearch(item, term) && warehouseFilter.Admits(item.warehouse)
  }

  function SelectedBy(term: string, warehouseFilter: Choice<string>): InventoryItem -> bool
  {
    item => Selected(item, term, warehouseFilter)
  }

  /** `filteredInventory`: the selected items, in store order. */
  function FilteredInventory(items: seq<InventoryItem>, term: string, warehouseFilter: Choice<string>)
    : (r: seq<InventoryItem>)
    ensures IsSubsequence(r, items)
    ensures forall item :: item in r <==> item in items && Selected(item, term, warehouseFilter)
  {
    Filter(items, SelectedBy(term, warehouseFilter))
  }

  /** With no search and every warehouse, the whole stock is listed. */
  lemma NoFilterListsEverything(items: seq<InventoryItem>)
    ensures FilteredInventory(items, "", All) == items
  {
    forall i | 0 <= i < |items| ensures SelectedBy("", All)(items[i]) {
      assert Contains(Lower(items[i].riceType), "");
    }
    FilterKeepsAll(items, SelectedBy("", All));
  }

  /** Choosing one warehouse lists only items stored there. */
  lemma WarehouseFilterKeepsItsWarehouse(items: seq<InventoryItem>, term: string, w: string)
    ensures forall item :: item in FilteredInventory(items, term, Only(w)) ==> item.warehouse == w
  {
  }

  // ---------------------------------------------------------------------------
  // Low stock

  /** `getLowStockColor`. */
  function LowStockTone(quantity: int): (t: Tone)
    ensures t == Red <==> quantity < 20
    ensures t == Orange <==> 20 <= quantity < 50
    ensures t == Green <==> quantity >= 50
  {
    if quantity < 20 then Red else if quantity < 50 then Orange else Green
  }

  /** The "Low Stock" flag and the count's test: fewer than 50 bags. */
  predicate IsLowStock(item: InventoryItem)
  {
    item.quantity < 50
  }

  predicate NotGreen(item: InventoryItem)
  {
    LowStockTone(item.quantity) != Green
  }

  /** `lowStockItems`. */
  function LowStockCount(items: seq<InventoryItem>): (n: nat)
    ensures n <= |items|
  {
    |Filter(items, IsLowStock)|
  }

  /** The low-stock count is the number of rows not coloured green, and the
      number of rows carrying the "Low Stock" flag. */
  lemma LowStockCountIsNonGreenRows(items: seq<InventoryItem>)
    ensures LowStockCount(items) == |Filter(items, NotGreen)|
  {
    FilterCongruent(items, IsLowStock, NotGreen);
  }

  // ---------------------------------------------------------------------------
  // Totals

  function ValueOf(item: InventoryItem): int { item.weightKg * item.costPerKg }
  function WeightOf(item: InventoryItem): int { item.weightKg }

  /** `totalValue`: the sum of weight × cost per kg, never negative while no
      weight or cost is. */
  function TotalValue(items: seq<InventoryItem>): (r: int)
    ensures (forall i :: 0 <= i < |items| ==> items[i].weightKg >= 0 && items[i].costPerKg >= 0) ==> r >= 0
  {
    if forall i :: 0 <= i < |items| ==> items[i].weightKg >= 0 && items[i].costPerKg >= 0 then
      SumOfNonNegative(items, ValueOf);
      SumOf(items, ValueOf)
    else
      SumOf(items, ValueOf)
  }

  /** `totalWeight`: the sum of the weights, never negative while no weight is. */
  function TotalWeight(items: seq<InventoryItem>): (r: int)
    ensures (forall i :: 0 <= i < |items| ==> items[i].weightKg >= 0) ==> r >= 0
  {
    if forall i :: 0 <= i < |items| ==> items[i].weightKg >= 0 then
      SumOfNonNegative(items, WeightOf);
      SumOf(items, WeightOf)
    else
      SumOf(items, WeightOf)
  }

  /** An added item raises both totals by its own value and weight. */
  lemma TotalsOfAppend(items: seq<InventoryItem>, item: InventoryItem)
    ensures TotalValue(items + [item]) == TotalValue(items) + item.weightKg * item.costPerKg
    ensures TotalWeight(items + [item]) == TotalWeight(items) + item.weightKg
  {
    SumOfAppend(items, [item], ValueOf);
    SumOfAppend(items, [item], WeightOf);
  }

  /** A warehouse's share and the rest of the stock make up the whole value. */
  lemma ValueSplitsByWarehouse(items: seq<InventoryItem>, w: string)
    ensures TotalValue(Filter(items, (i: InventoryItem) => i.warehouse == w))
          + TotalValue(Filter(items, (i: InventoryItem) => i.warehouse != w)) == TotalValue(items)
  {
    SumOfSplit(items, (i: InventoryItem) => i.warehouse == w, (i: InventoryItem) => i.warehouse != w, ValueOf);
  }

  // ---------------------------------------------------------------------------
  // The add/edit form

  /** The form's seven fields (`formData`). */
  datatype ItemFields = ItemFields(
    riceType: string, grade: string, bagSize: int, quantity: int, weightKg: int,
    warehouse: string, costPerKg: int)

  const DefaultFields := ItemFields("Basmati", "1121", 50, 0, 0, "Main Warehouse", 0)

  /** `handleEdit` loads these fields of an item. */
  function FieldsOf(item: InventoryItem): ItemFields
  {
    ItemFields(item.riceType, item.grade, item.bagSize, item.quantity, item.weightKg,
               item.warehouse, item.costPerKg)
  }

  /** `itemData` for an add: the form, stamped with `today`. */
  function NewItem(f: ItemFields, today: string): (item: InventoryItem)
    ensures FieldsOf(item) == f && item.lastUpdated == today
  {
    InventoryItem("", f.riceType, f.grade, f.bagSize, f.quantity, f.weightKg, f.warehouse, f.costPerKg, today)
  }

  /** `itemData` for an edit, as a partial record: every field but the id. */
  function EditPatch(f: ItemFields, today: string): InventoryPatch
  {
    InventoryPatch(None, Some(f.riceType), Some(f.grade), Some(f.bagSize), Some(f.quantity),
                   Some(f.weightKg), Some(f.warehouse), Some(f.costPerKg), Some(today))
  }

  /** An edit stores exactly what an add would, under the item's own id. */
  lemma EditIsAddUnderSameId(item: InventoryItem, f: ItemFields, today: string)
    ensures MergeInventoryItem(item, EditPatch(f, today)) == NewItem(f, today).(id := item.id)
  {
  }

  /** Saving an edit without changes still re-stamps the date. */
  lemma UntouchedEditOnlyRestamps(item: InventoryItem, today: string)
    ensures MergeInventoryItem(item, EditPatch(FieldsOf(item), today)) == item.(lastUpdated := today)
  {
  }

  /** The quantity input: the weight is recomputed from the bag size. */
  function WithQuantity(f: ItemFields, q: int): (r: ItemFields)
    ensures r.quantity == q && r.weightKg == q * f.bagSize
    ensures r.(quantity := f.quantity, weightKg := f.weightKg) == f
  {
    f.(quantity := q, weightKg := q * f.bagSize)
  }

  class InventoryView {
    var searchTerm: string
    var warehouseFilter: Choice<string>
    var form: ItemFields
    var editing: Option<InventoryItem>

    /** The rows on screen. */
    function Listed(items: seq<InventoryItem>): seq<InventoryItem>
      reads this
    {
      FilteredInventory(items, searchTerm, warehouseFilter)
    }

    /** The three cards above the table (value, weight, low-stock count), computed
        over the rows on screen: with no search and all warehouses they cover the
        whole stock. */
    function Cards(items: seq<InventoryItem>): (c: (int, int, nat))
      reads this
      ensures c.2 <= |Listed(items)|
      ensures searchTerm == "" && warehouseFilter == All ==>
                c == (TotalValue(items), TotalWeight(items), LowStockCount(items))
    {
      NoFilterListsEverything(items);
      var rows := Listed(items);
      (TotalValue(rows), TotalWeight(rows), LowStockCount(rows))
    }

    constructor ()
      ensures searchTerm == "" && warehouseFilter == All
      ensures form == DefaultFields && editing == None
    {
      searchTerm := "";
      warehouseFilter := All;
      form := DefaultFields;
      editing := None;
    }

    method SetSearchTerm(t: string)
      modifies this
      ensures searchTerm == t && warehouseFilter == old(warehouseFilter)
      ensures form == old(form) && editing == old(editing)
    {
      searchTerm := t;
    }

    method SetWarehouseFilter(c: Choice<string>)
      modifies this
      ensures warehouseFilter == c && searchTerm == old(searchTerm)
      ensures form == old(form) && editing == old(editing)
    {
      warehouseFilter := c;
    }

    method Edit(item: InventoryItem)
      modifies this
      ensures form == FieldsOf(item) && editing == Some(item)
      ensures searchTerm == old(searchTerm) && warehouseFilter == old(warehouseFilter)
    {
      form := FieldsOf(item);
      editing := Some(item);
    }

    method ResetForm()
      modifies this
      ensures form == DefaultFields && editing == None
      ensures searchTerm == old(searchTerm) && warehouseFilter == old(warehouseFilter)
    {
      form := DefaultFields;
      editing := None;
    }

    method SetQuantity(q: int)
      modifies this
      ensures form == WithQuantity(old(form), q) && editing == old(editing)
      ensures searchTerm == old(searchTerm) && warehouseFilter == old(warehouseFilter)
    {
      form := WithQuantity(form, q);
    }

    method SetWeight(w: int)
      modifies this
      ensures form == old(form).(weightKg := w) && editing == old(editing)
      ensures searchTerm == old(searchTerm) && warehouseFilter == old(warehouseFilter)
    {
      form := form.(weightKg := w);
    }

    /** `handleSubmit`: the form stamped with `today` replaces the edited item's
        fields, or is added under `newId`; the form then resets. */
    method Submit(store: DataStore, newId: string, today: string)
      requires newId !in Ids(store.inventory, InventoryItemId)
      modifies this, store
      ensures old(editing).Some? ==>
        store.Snapshot() == Apply(old(store.Snapshot()), InventoryUpdated(old(editing).value.id, EditPatch(old(form), today)))
      ensures old(editing).None? ==>
        store.Snapshot() == Apply(old(store.Snapshot()), InventoryItemAdded(NewItem(old(form), today), newId))
      ensures form == DefaultFields && editing == None
      ensures searchTerm == old(searchTerm) && warehouseFilter == old(warehouseFilter)
    {
      if editing.Some? {
        store.UpdateInventory(editing.value.id, EditPatch(form, today));
      } else {
        store.AddInventoryItem(NewItem(form, today), newId);
      }
      form := DefaultFields;
      editing := None;
    }
  }
}
