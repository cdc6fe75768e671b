/** The records the store keeps (the interfaces of `DataContext.tsx`), the
    partial records its `update*` operations take, and the demo seed tables. */
module Domain {
  import opened Wrappers

  datatype ActiveStatus = Active | Inactive
  datatype PurchaseStatus = Pending | Received | Cancelled
  datatype PaymentStatus = Unpaid | Partial | Paid   // 'pending' | 'partial' | 'paid'
  datatype SalesStatus = SalePending | Delivered | SaleCancelled
  datatype TransferStatus = TransferPending | Completed
  datatype TransactionKind = Income | Expense

  /** A supplier. `openingBalance` and `creditLimit` are declared as required
      numbers, but the quick-add form of the supplier list stores records
      without them, so they are optional here. */
  datatype Supplier = Supplier(
    id: string,
    name: string,
    contact: string,
    address: string,
    phone: string,
    email: string,
    balance: int,
    status: ActiveStatus,
    openingBalance: Option<int>,
    creditLimit: Option<int>,
    supplierCode: Option<string>,
    binVat: Option<string>,
    tin: Option<string>,
    paymentTerms: Option<string>,
    city: Option<string>,
    district: Option<string>,
    postalCode: Option<string>,
    notes: Option<string>)

  datatype PurchaseOrder = PurchaseOrder(
    id: string,
    supplierId: string,
    supplierName: string,
    date: string,
    riceType: string,
    grade: string,
    bagSize: int,
    quantity: int,
    weightKg: int,
    pricePerKg: int,
    totalAmount: int,
    status: PurchaseStatus,
    paymentStatus: PaymentStatus,
    paidAmount: int)

  datatype Customer = Customer(
    id: string,
    name: string,
    contact: string,
    address: string,
    phone: string,
    email: string,
    balance: int,
    creditLimit: int,
    status: ActiveStatus)

  datatype SalesOrder = SalesOrder(
    id: string,
    customerId: string,
    customerName: string,
    date: string,
    riceType: string,
    grade: string,
    bagSize: int,
    quantity: int,
    weightKg: int,
    pricePerKg: int,
    totalAmount: int,
    status: SalesStatus,
    paymentStatus: PaymentStatus,
    receivedAmount: int)

  datatype InventoryItem = InventoryItem(
    id: string,
    riceType: string,
    grade: string,
    bagSize: int,
    quantity: int,
    weightKg: int,
    warehouse: string,
    costPerKg: int,
    lastUpdated: string)

  datatype StockTransfer = StockTransfer(
    id: string,
    from: string,
    to: string,
    riceType: string,
    grade: string,
    bagSize: int,
    quantity: int,
    weightKg: int,
    date: string,
    status: TransferStatus,
    reason: string)

  /** A ledger entry; the source's `type` field is `kind` here. */
  datatype Transaction = Transaction(
    id: string,
    kind: TransactionKind,
    category: string,
    description: string,
    amount: int,
    date: string,
    reference: Option<string>)

  // Partial records: a present field replaces the stored one, an absent field
  // keeps it (`{ ...old, ...patch }`). Nothing protects `id`.

  datatype SupplierPatch = SupplierPatch(
    id: Option<string>,
    name: Option<string>,
    contact: Option<string>,
    address: Option<string>,
    phone: Option<string>,
    email: Option<string>,
    balance: Option<int>,
    status: Option<ActiveStatus>,
    openingBalance: Option<int>,
    creditLimit: Option<int>,
    supplierCode: Option<string>,
    binVat: Option<string>,
    tin: Option<string>,
    paymentTerms: Option<string>,
    city: Option<string>,
    district: Option<string>,
    postalCode: Option<string>,
    notes: Option<string>)

  datatype PurchaseOrderPatch = PurchaseOrderPatch(
    id: Option<string>,
    supplierId: Option<string>,
    supplierName: Option<string>,
    date: Option<string>,
    riceType: Option<string>,
    grade: Option<string>,
    bagSize: Option<int>,
    quantity: Option<int>,
    weightKg: Option<int>,
    pricePerKg: Option<int>,
    totalAmount: Option<int>,
    status: Option<PurchaseStatus>,
    paymentStatus: Option<PaymentStatus>,
    paidAmount: Option<int>)

  datatype CustomerPatch = CustomerPatch(
    id: Option<string>,
    name: Option<string>,
    contact: Option<string>,
    address: Option<string>,
    phone: Option<string>,
    email: Option<string>,
    balance: Option<int>,
    creditLimit: Option<int>,
    status: Option<ActiveStatus>)

  datatype SalesOrderPatch = SalesOrderPatch(
    id: Option<string>,
    customerId: Option<string>,
    customerName: Option<string>,
    date: Option<string>,
    riceType: Option<string>,
    grade: Option<string>,
    bagSize: Option<int>,
    quantity: Option<int>,
    weightKg: Option<int>,
    pricePerKg: Option<int>,
    totalAmount: Option<int>,
    status: Option<SalesStatus>,
    paymentStatus: Option<PaymentStatus>,
    receivedAmount: Option<int>)

  datatype InventoryPatch = InventoryPatch(
    id: Option<string>,
    riceType: Option<string>,
    grade: Option<string>,
    bagSize: Option<int>,
    quantity: Option<int>,
    weightKg: Option<int>,
    warehouse: Option<string>,
    costPerKg: Option<int>,
    lastUpdated: Option<string>)

  datatype StockTransferPatch = StockTransferPatch(
    id: Option<string>,
    from: Option<string>,
    to: Option<string>,
    riceType: Option<string>,
    grade: Option<string>,
    bagSize: Option<int>,
    quantity: Option<int>,
    weightKg: Option<int>,
    date: Option<string>,
    status: Option<TransferStatus>,
    reason: Option<string>)

  const NoSupplierChange := SupplierPatch(None, None, None, None, None, None, None, None, None,
                                          None, None, None, None, None, None, None, None, None)
  const NoPurchaseOrderChange := PurchaseOrderPatch(None, None, None, None, None, None, None,
                                                    None, None, None, None, None, None, None)
  const NoCustomerChange := CustomerPatch(None, None, None, None, None, None, None, None, None)
  const NoSalesOrderChange := SalesOrderPatch(None, None, None, None, None, None, None,
                                              None, None, None, None, None, None, None)
  const NoInventoryChange := InventoryPatch(None, None, None, None, None, None, None, None, None)
  const NoStockTransferChange := StockTransferPatch(None, None, None, None, None, None, None,
                                                    None, None, None, None)

  /** `{ ...s, ...p }` for a supplier: an empty patch changes nothing, and the
      key is not protected, so an `id` in the patch replaces the stored one. */
  function MergeSupplier(s: Supplier, p: SupplierPatch): (r: Supplier)
    ensures p == NoSupplierChange ==> r == s
    ensures r.id == (if p.id.Some? then p.id.value else s.id)
  {
    Supplier(p.id.GetOr(s.id), p.name.GetOr(s.name), p.contact.GetOr(s.contact),
             p.address.GetOr(s.address), p.phone.GetOr(s.phone), p.email.GetOr(s.email),
             p.balance.GetOr(s.balance), p.status.GetOr(s.status),
             p.openingBalance.OrElse(s.openingBalance), p.creditLimit.OrElse(s.creditLimit),
             p.supplierCode.OrElse(s.supplierCode), p.binVat.OrElse(s.binVat), p.tin.OrElse(s.tin),
             p.paymentTerms.OrElse(s.paymentTerms), p.city.OrElse(s.city),
             p.district.OrElse(s.district), p.postalCode.OrElse(s.postalCode),
             p.notes.OrElse(s.notes))
  }

  /** `{ ...o, ...p }` for a purchase order: an empty patch changes nothing, and the
      key is not protected, so an `id` in the patch replaces the stored one. */
  function MergePurchaseOrder(o: PurchaseOrder, p: PurchaseOrderPatch): (r: PurchaseOrder)
    ensures p == NoPurchaseOrderChange ==> r == o
    ensures r.id == (if p.id.Some? then p.id.value else o.id)
  {
    PurchaseOrder(p.id.GetOr(o.id), p.supplierId.GetOr(o.supplierId),
                  p.supplierName.GetOr(o.supplierName), p.date.GetOr(o.date),
                  p.riceType.GetOr(o.riceType), p.grade.GetOr(o.grade), p.bagSize.GetOr(o.bagSize),
                  p.quantity.GetOr(o.quantity), p.weightKg.GetOr(o.weightKg),
                  p.pricePerKg.GetOr(o.pricePerKg), p.totalAmount.GetOr(o.totalAmount),
                  p.status.GetOr(o.status), p.paymentStatus.GetOr(o.paymentStatus),
                  p.paidAmount.GetOr(o.paidAmount))
  }

  /** `{ ...c, ...p }` for a customer: an empty patch changes nothing, and the
      key is not protected, so an `id` in the patch replaces the stored one. */
  function MergeCustomer(c: Customer, p: CustomerPatch): (r: Customer)
    ensures p == NoCustomerChange ==> r == c
    ensures r.id == (if p.id.Some? then p.id.value else c.id)
  {
    Customer(p.id.GetOr(c.id), p.name.GetOr(c.name), p.contact.GetOr(c.contact),
             p.address.GetOr(c.address), p.phone.GetOr(c.phone), p.email.GetOr(c.email),
             p.balance.GetOr(c.balance), p.creditLimit.GetOr(c.creditLimit), p.status.GetOr(c.status))
  }

  /** `{ ...o, ...p }` for a sales order: an empty patch changes nothing, and the
      key is not protected, so an `id` in the patch replaces the stored one. */
  function MergeSalesOrder(o: SalesOrder, p: SalesOrderPatch): (r: SalesOrder)
    ensures p == NoSalesOrderChange ==> r == o
    ensures r.id == (if p.id.Some? then p.id.value else o.id)
  {
    SalesOrder(p.id.GetOr(o.id), p.customerId.GetOr(o.customerId),
               p.customerName.GetOr(o.customerName), p.date.GetOr(o.date),
               p.riceType.GetOr(o.riceType), p.grade.GetOr(o.grade), p.bagSize.GetOr(o.bagSize),
               p.quantity.GetOr(o.quantity), p.weightKg.GetOr(o.weightKg),
               p.pricePerKg.GetOr(o.pricePerKg), p.totalAmount.GetOr(o.totalAmount),
               p.status.GetOr(o.status), p.paymentStatus.GetOr(o.paymentStatus),
               p.receivedAmount.GetOr(o.receivedAmount))
  }

  /** `{ ...i, ...p }` for a stock item: an empty patch changes nothing, and the
      key is not protected, so an `id` in the patch replaces the stored one. */
  function MergeInventoryItem(i: InventoryItem, p: InventoryPatch): (r: InventoryItem)
    ensures p == NoInventoryChange ==> r == i
    ensures r.id == (if p.id.Some? then p.id.value else i.id)
  {
    InventoryItem(p.id.GetOr(i.id), p.riceType.GetOr(i.riceType), p.grade.GetOr(i.grade),
                  p.bagSize.GetOr(i.bagSize), p.quantity.GetOr(i.quantity),
                  p.weightKg.GetOr(i.weightKg), p.warehouse.GetOr(i.warehouse),
                  p.costPerKg.GetOr(i.costPerKg), p.lastUpdated.GetOr(i.lastUpdated))
  }

  /** `{ ...t, ...p }` for a transfer: an empty patch changes nothing, and the
      key is not protected, so an `id` in the patch replaces the stored one. */
  function MergeStockTransfer(t: StockTransfer, p: StockTransferPatch): (r: StockTransfer)
    ensures p == NoStockTransferChange ==> r == t
    ensures r.id == (if p.id.Some? then p.id.value else t.id)
  {
    StockTransfer(p.id.GetOr(t.id), p.from.GetOr(t.from), p.to.GetOr(t.to),
                  p.riceType.GetOr(t.riceType), p.grade.GetOr(t.grade), p.bagSize.GetOr(t.bagSize),
                  p.quantity.GetOr(t.quantity), p.weightKg.GetOr(t.weightKg),
                  p.date.GetOr(t.date), p.status.GetOr(t.status), p.reason.GetOr(t.reason))
  }

  // Laws of the merges.

  /** Merging the same patch twice is merging it once. */
  lemma MergeIdempotent(s: Supplier, ps: SupplierPatch, o: PurchaseOrder, po: PurchaseOrderPatch,
                        c: Customer, pc: CustomerPatch, so: SalesOrder, pso: SalesOrderPatch,
                        i: InventoryItem, pi: InventoryPatch, t: StockTransfer, pt: StockTransferPatch)
    ensures MergeSupplier(MergeSupplier(s, ps), ps) == MergeSupplier(s, ps)
    ensures MergePurchaseOrder(MergePurchaseOrder(o, po), po) == MergePurchaseOrder(o, po)
    ensures MergeCustomer(MergeCustomer(c, pc), pc) == MergeCustomer(c, pc)
    ensures MergeSalesOrder(MergeSalesOrder(so, pso), pso) == MergeSalesOrder(so, pso)
    ensures MergeInventoryItem(MergeInventoryItem(i, pi), pi) == MergeInventoryItem(i, pi)
    ensures MergeStockTransfer(MergeStockTransfer(t, pt), pt) == MergeStockTransfer(t, pt)
  {
  }

  // Demo seed tables.

  const DemoSuppliers: seq<Supplier> := [
    Supplier("1", "Narayanganj Rice Mills", "Md. Rahman", "Narayanganj, Dhaka", "+8801712345678",
             "rahman@nricemills.com", 125000, Active, Some(125000), Some(500000), None,
             Some("001234567-0101"), Some("1234567890"), Some("Net 15"), Some("Narayanganj"),
             Some("Dhaka"), Some("1400"), None),
    Supplier("2", "Chattogram Grains", "Abdul Karim", "Agrabad, Chattogram", "+8801812345678",
             "karim@ctggrains.com", 85000, Active, Some(85000), Some(350000), None,
             Some("009876543-0202"), Some("9876543210"), Some("Net 30"), Some("Chattogram"),
             Some("Chattogram"), Some("4000"), None),
    Supplier("3", "Sylhet Rice Traders", "Shahidul Islam", "Zindabazar, Sylhet", "+8801912345678",
             "shahidul@sylhetrice.com", 45000, Active, Some(45000), Some(250000), None,
             None, None, Some("Advance"), Some("Sylhet"), Some("Sylhet"), Some("3100"), None)
  ]

  const DemoCustomers: seq<Customer> := [
    Customer("1", "Delhi Wholesale Market", "Ramesh Gupta", "Azadpur, Delhi", "+91-9876543220",
             "ramesh@delhiwholesale.com", 75000, 200000, Active),
    Customer("2", "Mumbai Rice Distributors", "Prakash Patel", "Vashi, Mumbai", "+91-9876543221",
             "prakash@mumbairice.com", 125000, 300000, Active),
    Customer("3", "Bangalore Supermarkets", "Venkat Rao", "Whitefield, Bangalore", "+91-9876543222",
             "venkat@blrsuper.com", 50000, 150000, Active)
  ]

  const DemoInventory: seq<InventoryItem> := [
    InventoryItem("1", "Basmati", "1121", 50, 200, 10000, "Main Warehouse", 85, "2025-01-18"),
    InventoryItem("2", "Basmati", "Pusa", 25, 150, 3750, "Main Warehouse", 72, "2025-01-17"),
    InventoryItem("3", "Sona Masuri", "Premium", 50, 300, 15000, "Secondary Warehouse", 65, "2025-01-18"),
    InventoryItem("4", "IR64", "Standard", 50, 400, 20000, "Main Warehouse", 45, "2025-01-16")
  ]
}
