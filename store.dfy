/** The in-memory store of `DataContext.tsx`: seven collections, an append with
    a fresh id per `add*`, and an id-keyed merge per `update*`. Nothing is ever
    deleted and transactions cannot be updated. */
module Store {
  import opened Wrappers
  import opened Seqs
  import opened Domain

  /** `xs.map(x => idOf(x) === id ? merge(x, patch) : x)`: every record carrying
      the id is merged (not only the first one), every other record stays. */
  function UpdateById<T, P>(xs: seq<T>, id: string, patch: P, idOf: T -> string, merge: (T, P) -> T): (r: seq<T>)
    ensures |r| == |xs|
    ensures forall i :: 0 <= i < |xs| ==> r[i] == (if idOf(xs[i]) == id then merge(xs[i], patch) else xs[i])
  {
    if xs == [] then []
    else [if idOf(xs[0]) == id then merge(xs[0], patch) else xs[0]] + UpdateById(xs[1..], id, patch, idOf, merge)
  }

  /** The ids of a collection, in order. */
  function Ids<T>(xs: seq<T>, idOf: T -> string): (r: seq<string>)
    ensures |r| == |xs|
    ensures forall i :: 0 <= i < |xs| ==> r[i] == idOf(xs[i])
  {
    if xs == [] then [] else [idOf(xs[0])] + Ids(xs[1..], idOf)
  }

  /** An update whose id no record carries leaves the collection as it was. */
  lemma UpdateAbsentIdIsNoOp<T, P>(xs: seq<T>, id: string, patch: P, idOf: T -> string, merge: (T, P) -> T)
    requires id !in Ids(xs, idOf)
    ensures UpdateById(xs, id, patch, idOf, merge) == xs
  {
    var r := UpdateById(xs, id, patch, idOf, merge);
    forall i | 0 <= i < |xs| ensures r[i] == xs[i] {
      assert Ids(xs, idOf)[i] == idOf(xs[i]);
    }
  }

  /** With an idempotent merge, running the same update twice is running it once. */
  lemma UpdateTwiceIsUpdateOnce<T, P>(xs: seq<T>, id: string, patch: P, idOf: T -> string, merge: (T, P) -> T)
    requires forall x :: merge(merge(x, patch), patch) == merge(x, patch)
    ensures UpdateById(UpdateById(xs, id, patch, idOf, merge), id, patch, idOf, merge)
         == UpdateById(xs, id, patch, idOf, merge)
  {
  }

  /** A merge that keeps ids keeps the collection's id list. */
  lemma UpdateKeepsIds<T, P>(xs: seq<T>, id: string, patch: P, idOf: T -> string, merge: (T, P) -> T)
    requires forall x :: idOf(merge(x, patch)) == idOf(x)
    ensures Ids(UpdateById(xs, id, patch, idOf, merge), idOf) == Ids(xs, idOf)
  {
  }

  /** Appending a record under an id not yet used keeps the ids distinct. */
  lemma AppendFreshKeepsDistinct<T>(xs: seq<T>, x: T, idOf: T -> string)
    requires Distinct(Ids(xs, idOf)) && idOf(x) !in Ids(xs, idOf)
    ensures Distinct(Ids(xs + [x], idOf))
  {
    var a, b := Ids(xs, idOf), Ids(xs + [x], idOf);
    assert b == a + [idOf(x)];
  }

  function SupplierId(s: Supplier): string { s.id }
  function PurchaseOrderId(o: PurchaseOrder): string { o.id }
  function CustomerId(c: Customer): string { c.id }
  function SalesOrderId(o: SalesOrder): string { o.id }
  function InventoryItemId(i: InventoryItem): string { i.id }
  function StockTransferId(t: StockTransfer): string { t.id }
  function TransactionId(t: Transaction): string { t.id }

  /** The seven collections of the store at one moment. */
  datatype Collections = Collections(
    suppliers: seq<Supplier>,
    purchaseOrders: seq<PurchaseOrder>,
    customers: seq<Customer>,
    salesOrders: seq<SalesOrder>,
    inventory: seq<InventoryItem>,
    stockTransfers: seq<StockTransfer>,
    transactions: seq<Transaction>)

  /** The store's operations. An add carries the record and the id `generateId`
      produced for it; an update carries the id to match and the partial record. */
  datatype Op =
    | SupplierAdded(supplier: Supplier, newId: string)
    | SupplierUpdated(id: string, supplierPatch: SupplierPatch)
    | CustomerAdded(customer: Customer, newId: string)
    | CustomerUpdated(id: string, customerPatch: CustomerPatch)
    | PurchaseOrderAdded(purchaseOrder: PurchaseOrder, newId: string)
    | PurchaseOrderUpdated(id: string, purchaseOrderPatch: PurchaseOrderPatch)
    | SalesOrderAdded(salesOrder: SalesOrder, newId: string)
    | SalesOrderUpdated(id: string, salesOrderPatch: SalesOrderPatch)
    | InventoryUpdated(id: string, inventoryPatch: InventoryPatch)
    | InventoryItemAdded(item: InventoryItem, newId: string)
    | StockTransferAdded(transfer: StockTransfer, newId: string)
    | StockTransferUpdated(id: string, stockTransferPatch: StockTransferPatch)
    | TransactionAdded(transaction: Transaction, newId: string)
  {
    predicate IsUpdate() {
      SupplierUpdated? || CustomerUpdated? || PurchaseOrderUpdated? || SalesOrderUpdated?
      || InventoryUpdated? || StockTransferUpdated?
    }

    /** The partial record of an update carries an `id` field. */
    predicate RewritesId() {
      match this
      case SupplierUpdated(_, p) => p.id.Some?
      case CustomerUpdated(_, p) => p.id.Some?
      case PurchaseOrderUpdated(_, p) => p.id.Some?
      case SalesOrderUpdated(_, p) => p.id.Some?
      case InventoryUpdated(_, p) => p.id.Some?
      case StockTransferUpdated(_, p) => p.id.Some?
      case _ => false
    }
  }

  /** The state after one operation, which touches its own collection only. */
  function Apply(c: Collections, op: Op): (d: Collections)
    ensures op.SupplierAdded? || op.SupplierUpdated? || d.suppliers == c.suppliers
    ensures op.CustomerAdded? || op.CustomerUpdated? || d.customers == c.customers
    ensures op.PurchaseOrderAdded? || op.PurchaseOrderUpdated? || d.purchaseOrders == c.purchaseOrders
    ensures op.SalesOrderAdded? || op.SalesOrderUpdated? || d.salesOrders == c.salesOrders
    ensures op.InventoryItemAdded? || op.InventoryUpdated? || d.inventory == c.inventory
    ensures op.StockTransferAdded? || op.StockTransferUpdated? || d.stockTransfers == c.stockTransfers
    ensures op.TransactionAdded? || d.transactions == c.transactions
  {
    match op
    case SupplierAdded(s, newId) => c.(suppliers := c.suppliers + [s.(id := newId)])
    case SupplierUpdated(id, p) =>
      c.(suppliers := UpdateById(c.suppliers, id, p, SupplierId, MergeSupplier))
    case CustomerAdded(x, newId) => c.(customers := c.customers + [x.(id := newId)])
    case CustomerUpdated(id, p) =>
      c.(customers := UpdateById(c.customers, id, p, CustomerId, MergeCustomer))
    case PurchaseOrderAdded(o, newId) => c.(purchaseOrders := c.purchaseOrders + [o.(id := newId)])
    case PurchaseOrderUpdated(id, p) =>
      c.(purchaseOrders := UpdateById(c.purchaseOrders, id, p, PurchaseOrderId, MergePurchaseOrder))
    case SalesOrderAdded(o, newId) => c.(salesOrders := c.salesOrders + [o.(id := newId)])
    case SalesOrderUpdated(id, p) =>
      c.(salesOrders := UpdateById(c.salesOrders, id, p, SalesOrderId, MergeSalesOrder))
    case InventoryUpdated(id, p) =>
      c.(inventory := UpdateById(c.inventory, id, p, InventoryItemId, MergeInventoryItem))
    case InventoryItemAdded(i, newId) => c.(inventory := c.inventory + [i.(id := newId)])
    case StockTransferAdded(t, newId) => c.(stockTransfers := c.stockTransfers + [t.(id := newId)])
    case StockTransferUpdated(id, p) =>
      c.(stockTransfers := UpdateById(c.stockTransfers, id, p, StockTransferId, MergeStockTransfer))
    case TransactionAdded(t, newId) => c.(transactions := c.transactions + [t.(id := newId)])
  }

  /** The state after a sequence of operations, first to last: no operation
      leaves the state alone, and one operation is `Apply`. */
  function ApplyAll(c: Collections, ops: seq<Op>): (d: Collections)
    ensures ops == [] ==> d == c
    ensures |ops| == 1 ==> d == Apply(c, ops[0])
    decreases |ops|
  {
    if ops == [] then c else ApplyAll(Apply(c, ops[0]), ops[1..])
  }

  /** Running two sequences of operations one after the other is running them
      joined. */
  lemma {:induction false} ApplyAllAppend(c: Collections, ops: seq<Op>, more: seq<Op>)
    ensures ApplyAll(c, ops + more) == ApplyAll(ApplyAll(c, ops), more)
    decreases |ops|
  {
    if ops == [] {
      assert ops + more == more;
    } else {
      assert (ops + more)[1..] == ops[1..] + more;
      ApplyAllAppend(Apply(c, ops[0]), ops[1..], more);
    }
  }

  /** The id an add operation brings is not yet used in its collection (the
      random `generateId` is assumed not to clash). Updates need nothing. */
  predicate FreshFor(c: Collections, op: Op)
  {
    match op
    case SupplierAdded(_, newId) => newId !in Ids(c.suppliers, SupplierId)
    case CustomerAdded(_, newId) => newId !in Ids(c.customers, CustomerId)
    case PurchaseOrderAdded(_, newId) => newId !in Ids(c.purchaseOrders, PurchaseOrderId)
    case SalesOrderAdded(_, newId) => newId !in Ids(c.salesOrders, SalesOrderId)
    case InventoryItemAdded(_, newId) => newId !in Ids(c.inventory, InventoryItemId)
    case StockTransferAdded(_, newId) => newId !in Ids(c.stockTransfers, StockTransferId)
    case TransactionAdded(_, newId) => newId !in Ids(c.transactions, TransactionId)
    case _ => true
  }

  /** Within each collection no two records share an id. */
  ghost predicate IdsDistinct(c: Collections)
  {
    && Distinct(Ids(c.suppliers, SupplierId))
    && Distinct(Ids(c.purchaseOrders, PurchaseOrderId))
    && Distinct(Ids(c.customers, CustomerId))
    && Distinct(Ids(c.salesOrders, SalesOrderId))
    && Distinct(Ids(c.inventory, InventoryItemId))
    && Distinct(Ids(c.stockTransfers, StockTransferId))
    && Distinct(Ids(c.transactions, TransactionId))
  }

  /** Every collection of `d` is at least as long as the same one of `c`, and
      `c`'s transactions are still the first transactions of `d`. */
  predicate Grown(c: Collections, d: Collections)
  {
    && |c.suppliers| <= |d.suppliers|
    && |c.purchaseOrders| <= |d.purchaseOrders|
    && |c.customers| <= |d.customers|
    && |c.salesOrders| <= |d.salesOrders|
    && |c.inventory| <= |d.inventory|
    && |c.stockTransfers| <= |d.stockTransfers|
    && c.transactions <= d.transactions
  }

  /** `useState` initial values: the demo suppliers, customers and inventory;
      the other four collections empty. */
  function Initial(): (c: Collections)
    ensures |c.suppliers| == 3 && |c.customers| == 3 && |c.inventory| == 4
    ensures c.purchaseOrders == [] && c.salesOrders == [] && c.stockTransfers == [] && c.transactions == []
  {
    Collections(DemoSuppliers, [], DemoCustomers, [], DemoInventory, [], [])
  }

  /** The demo tables use each id once. */
  lemma InitialIdsDistinct()
    ensures IdsDistinct(Initial())
  {
    DemoSupplierIds();
    DemoCustomerIds();
    DemoInventoryIds();
  }

  lemma DemoSupplierIds()
    ensures Ids(DemoSuppliers, SupplierId) == ["1", "2", "3"]
    ensures Distinct(Ids(DemoSuppliers, SupplierId))
  {
    FirstIdsDistinct(3);
  }

  lemma DemoCustomerIds()
    ensures Ids(DemoCustomers, CustomerId) == ["1", "2", "3"]
    ensures Distinct(Ids(DemoCustomers, CustomerId))
  {
    FirstIdsDistinct(3);
  }

  lemma DemoInventoryIds()
    ensures Ids(DemoInventory, InventoryItemId) == ["1", "2", "3", "4"]
    ensures Distinct(Ids(DemoInventory, InventoryItemId))
  {
    FirstIdsDistinct(4);
  }

  /** The demo ids "1", "2", … are distinct. */
  lemma FirstIdsDistinct(n: nat)
    requires n == 3 || n == 4
    ensures n == 3 ==> Distinct(["1", "2", "3"])
    ensures n == 4 ==> Distinct(["1", "2", "3", "4"])
  {
    assert "1" != "2" && "1" != "3" && "1" != "4" && "2" != "3" && "2" != "4" && "3" != "4" by {
      assert "1"[0] == '1' && "2"[0] == '2' && "3"[0] == '3' && "4"[0] == '4';
    }
  }

  /** Each add puts exactly one record at the end of its collection, the given
      record under the new id, and changes nothing before it. */
  lemma AddAppendsOne(c: Collections, op: Op)
    requires !op.IsUpdate()
    ensures var d := Apply(c, op);
      match op
      case SupplierAdded(s, newId) => d.suppliers[..|c.suppliers|] == c.suppliers && d.suppliers[|c.suppliers|..] == [s.(id := newId)]
      case CustomerAdded(x, newId) => d.customers[..|c.customers|] == c.customers && d.customers[|c.customers|..] == [x.(id := newId)]
      case PurchaseOrderAdded(o, newId) => d.purchaseOrders[..|c.purchaseOrders|] == c.purchaseOrders && d.purchaseOrders[|c.purchaseOrders|..] == [o.(id := newId)]
      case SalesOrderAdded(o, newId) => d.salesOrders[..|c.salesOrders|] == c.salesOrders && d.salesOrders[|c.salesOrders|..] == [o.(id := newId)]
      case InventoryItemAdded(i, newId) => d.inventory[..|c.inventory|] == c.inventory && d.inventory[|c.inventory|..] == [i.(id := newId)]
      case StockTransferAdded(t, newId) => d.stockTransfers[..|c.stockTransfers|] == c.stockTransfers && d.stockTransfers[|c.stockTransfers|..] == [t.(id := newId)]
      case TransactionAdded(t, newId) => d.transactions[..|c.transactions|] == c.transactions && d.transactions[|c.transactions|..] == [t.(id := newId)]
      case _ => false
  {
  }

  /** An update whose id no record of its collection carries changes nothing:
      no error, no insertion. */
  lemma UpdateOfAbsentIdIsNoOp(c: Collections, op: Op)
    requires op.IsUpdate()
    requires match op
      case SupplierUpdated(id, _) => id !in Ids(c.suppliers, SupplierId)
      case CustomerUpdated(id, _) => id !in Ids(c.customers, CustomerId)
      case PurchaseOrderUpdated(id, _) => id !in Ids(c.purchaseOrders, PurchaseOrderId)
      case SalesOrderUpdated(id, _) => id !in Ids(c.salesOrders, SalesOrderId)
      case InventoryUpdated(id, _) => id !in Ids(c.inventory, InventoryItemId)
      case StockTransferUpdated(id, _) => id !in Ids(c.stockTransfers, StockTransferId)
      case _ => false
    ensures Apply(c, op) == c
  {
    match op
    case SupplierUpdated(id, p) => UpdateAbsentIdIsNoOp(c.suppliers, id, p, SupplierId, MergeSupplier);
    case CustomerUpdated(id, p) => UpdateAbsentIdIsNoOp(c.customers, id, p, CustomerId, MergeCustomer);
    case PurchaseOrderUpdated(id, p) =>
      UpdateAbsentIdIsNoOp(c.purchaseOrders, id, p, PurchaseOrderId, MergePurchaseOrder);
    case SalesOrderUpdated(id, p) => UpdateAbsentIdIsNoOp(c.salesOrders, id, p, SalesOrderId, MergeSalesOrder);
    case InventoryUpdated(id, p) =>
      UpdateAbsentIdIsNoOp(c.inventory, id, p, InventoryItemId, MergeInventoryItem);
    case StockTransferUpdated(id, p) =>
      UpdateAbsentIdIsNoOp(c.stockTransfers, id, p, StockTransferId, MergeStockTransfer);
  }

  /** Every update is idempotent. */
  lemma UpdateTwice(c: Collections, op: Op)
    requires op.IsUpdate()
    ensures Apply(Apply(c, op), op) == Apply(c, op)
  {
    match op
    case SupplierUpdated(id, p) =>
      forall x ensures MergeSupplier(MergeSupplier(x, p), p) == MergeSupplier(x, p) {
        MergeIdempotentSupplier(x, p);
      }
      UpdateTwiceIsUpdateOnce(c.suppliers, id, p, SupplierId, MergeSupplier);
    case CustomerUpdated(id, p) =>
      UpdateTwiceIsUpdateOnce(c.customers, id, p, CustomerId, MergeCustomer);
    case PurchaseOrderUpdated(id, p) =>
      UpdateTwiceIsUpdateOnce(c.purchaseOrders, id, p, PurchaseOrderId, MergePurchaseOrder);
    case SalesOrderUpdated(id, p) =>
      UpdateTwiceIsUpdateOnce(c.salesOrders, id, p, SalesOrderId, MergeSalesOrder);
    case InventoryUpdated(id, p) =>
      UpdateTwiceIsUpdateOnce(c.inventory, id, p, InventoryItemId, MergeInventoryItem);
    case StockTransferUpdated(id, p) =>
      UpdateTwiceIsUpdateOnce(c.stockTransfers, id, p, StockTransferId, MergeStockTransfer);
  }

  lemma MergeIdempotentSupplier(x: Supplier, p: SupplierPatch)
    ensures MergeSupplier(MergeSupplier(x, p), p) == MergeSupplier(x, p)
  {
  }

  /** Ids stay distinct under adds with fresh ids and updates whose partial
      record carries no `id`. */
  lemma ApplyKeepsIdsDistinct(c: Collections, op: Op)
    requires IdsDistinct(c) && FreshFor(c, op) && !op.RewritesId()
    ensures IdsDistinct(Apply(c, op))
  {
    match op
    case SupplierAdded(s, newId) => AppendFreshKeepsDistinct(c.suppliers, s.(id := newId), SupplierId);
    case CustomerAdded(x, newId) => AppendFreshKeepsDistinct(c.customers, x.(id := newId), CustomerId);
    case PurchaseOrderAdded(o, newId) =>
      AppendFreshKeepsDistinct(c.purchaseOrders, o.(id := newId), PurchaseOrderId);
    case SalesOrderAdded(o, newId) => AppendFreshKeepsDistinct(c.salesOrders, o.(id := newId), SalesOrderId);
    case InventoryItemAdded(i, newId) => AppendFreshKeepsDistinct(c.inventory, i.(id := newId), InventoryItemId);
    case StockTransferAdded(t, newId) =>
      AppendFreshKeepsDistinct(c.stockTransfers, t.(id := newId), StockTransferId);
    case TransactionAdded(t, newId) => AppendFreshKeepsDistinct(c.transactions, t.(id := newId), TransactionId);
    case SupplierUpdated(id, p) => UpdateKeepsIds(c.suppliers, id, p, SupplierId, MergeSupplier);
    case CustomerUpdated(id, p) => UpdateKeepsIds(c.customers, id, p, CustomerId, MergeCustomer);
    case PurchaseOrderUpdated(id, p) =>
      UpdateKeepsIds(c.purchaseOrders, id, p, PurchaseOrderId, MergePurchaseOrder);
    case SalesOrderUpdated(id, p) => UpdateKeepsIds(c.salesOrders, id, p, SalesOrderId, MergeSalesOrder);
    case InventoryUpdated(id, p) => UpdateKeepsIds(c.inventory, id, p, InventoryItemId, MergeInventoryItem);
    case StockTransferUpdated(id, p) =>
      UpdateKeepsIds(c.stockTransfers, id, p, StockTransferId, MergeStockTransfer);
  }

  /** A partial record with an `id` can give two suppliers the same id. */
  lemma PatchedIdCanCollide()
    ensures var c := Initial();
            var p := NoSupplierChange.(id := Some("1"));
            IdsDistinct(c) && !IdsDistinct(Apply(c, SupplierUpdated("2", p)))
  {
    var c := Initial();
    var p := NoSupplierChange.(id := Some("1"));
    InitialIdsDistinct();
    var ids := Ids(Apply(c, SupplierUpdated("2", p)).suppliers, SupplierId);
    assert ids[0] == "1" && ids[1] == "1";
  }

  /** One operation never shortens a collection and never changes a stored transaction. */
  lemma ApplyGrows(c: Collections, op: Op)
    ensures Grown(c, Apply(c, op))
  {
  }

  /** No sequence of operations shortens a collection or changes a stored transaction. */
  lemma {:induction false} ApplyAllGrows(c: Collections, ops: seq<Op>)
    ensures Grown(c, ApplyAll(c, ops))
    decreases |ops|
  {
    if ops != [] {
      ApplyGrows(c, ops[0]);
      ApplyAllGrows(Apply(c, ops[0]), ops[1..]);
    }
  }

  /** The React state of the data provider. */
  class DataStore {
    var suppliers: seq<Supplier>
    var purchaseOrders: seq<PurchaseOrder>
    var customers: seq<Customer>
    var salesOrders: seq<SalesOrder>
    var inventory: seq<InventoryItem>
    var stockTransfers: seq<StockTransfer>
    var transactions: seq<Transaction>

    function Snapshot(): Collections
      reads this
    {
      Collections(suppliers, purchaseOrders, customers, salesOrders, inventory, stockTransfers, transactions)
    }

    constructor ()
      ensures Snapshot() == Initial()
    {
      suppliers := DemoSuppliers;
      purchaseOrders := [];
      customers := DemoCustomers;
      salesOrders := [];
      inventory := DemoInventory;
      stockTransfers := [];
      transactions := [];
    }

    method AddSupplier(supplier: Supplier, newId: string)
      requires newId !in Ids(suppliers, SupplierId)
      modifies this
      ensures Snapshot() == Apply(old(Snapshot()), SupplierAdded(supplier, newId))
    {
      suppliers := suppliers + [supplier.(id := newId)];
    }

    method UpdateSupplier(id: string, patch: SupplierPatch)
      modifies this
      ensures Snapshot() == Apply(old(Snapshot()), SupplierUpdated(id, patch))
    {
      suppliers := UpdateById(suppliers, id, patch, SupplierId, MergeSupplier);
    }

    method AddCustomer(customer: Customer, newId: string)
      requires newId !in Ids(customers, CustomerId)
      modifies this
      ensures Snapshot() == Apply(old(Snapshot()), CustomerAdded(customer, newId))
    {
      customers := customers + [customer.(id := newId)];
    }

    method UpdateCustomer(id: string, patch: CustomerPatch)
      modifies this
      ensures Snapshot() == Apply(old(Snapshot()), CustomerUpdated(id, patch))
    {
      customers := UpdateById(customers, id, patch, CustomerId, MergeCustomer);
    }

    method AddPurchaseOrder(order: PurchaseOrder, newId: string)
      requires newId !in Ids(purchaseOrders, PurchaseOrderId)
      modifies this
      ensures Snapshot() == Apply(old(Snapshot()), PurchaseOrderAdded(order, newId))
    {
      purchaseOrders := purchaseOrders + [order.(id := newId)];
    }

    method UpdatePurchaseOrder(id: string, patch: PurchaseOrderPatch)
      modifies this
      ensures Snapshot() == Apply(old(Snapshot()), PurchaseOrderUpdated(id, patch))
    {
      purchaseOrders := UpdateById(purchaseOrders, id, patch, PurchaseOrderId, MergePurchaseOrder);
    }

    method AddSalesOrder(order: SalesOrder, newId: string)
      requires newId !in Ids(salesOrders, SalesOrderId)
      modifies this
      ensures Snapshot() == Apply(old(Snapshot()), SalesOrderAdded(order, newId))
    {
      salesOrders := salesOrders + [order.(id := newId)];
    }

    method UpdateSalesOrder(id: string, patch: SalesOrderPatch)
      modifies this
      ensures Snapshot() == Apply(old(Snapshot()), SalesOrderUpdated(id, patch))
    {
      salesOrders := UpdateById(salesOrders, id, patch, SalesOrderId, MergeSalesOrder);
    }

    method UpdateInventory(id: string, patch: InventoryPatch)
      modifies this
      ensures Snapshot() == Apply(old(Snapshot()), InventoryUpdated(id, patch))
    {
      inventory := UpdateById(inventory, id, patch, InventoryItemId, MergeInventoryItem);
    }

    method AddInventoryItem(item: InventoryItem, newId: string)
      requires newId !in Ids(inventory, InventoryItemId)
      modifies this
      ensures Snapshot() == Apply(old(Snapshot()), InventoryItemAdded(item, newId))
    {
      inventory := inventory + [item.(id := newId)];
    }

    method AddStockTransfer(transfer: StockTransfer, newId: string)
      requires newId !in Ids(stockTransfers, StockTransferId)
      modifies this
      ensures Snapshot() == Apply(old(Snapshot()), StockTransferAdded(transfer, newId))
    {
      stockTransfers := stockTransfers + [transfer.(id := newId)];
    }

    method UpdateStockTransfer(id: string, patch: StockTransferPatch)
      modifies this
      ensures Snapshot() == Apply(old(Snapshot()), StockTransferUpdated(id, patch))
    {
      stockTransfers := UpdateById(stockTransfers, id, patch, StockTransferId, MergeStockTransfer);
    }

    method AddTransaction(transaction: Transaction, newId: string)
      requires newId !in Ids(transactions, TransactionId)
      modifies this
      ensures Snapshot() == Apply(old(Snapshot()), TransactionAdded(transaction, newId))
      ensures transactions == old(transactions) + [transaction.(id := newId)]
    {
      transactions := transactions + [transaction.(id := newId)];
    }
  }
}
