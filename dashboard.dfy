/** The dashboard (`Dashboard.tsx`): figures computed from the whole store,
    with no date range. */
module Dashboard {
  import opened Seqs
  import opened Domain
  import opened Store
  import Inventory
  import Finance
  import Reports

  /** `totalSales`: every sales order, cancelled ones included. */
  function TotalSales(data: Collections): (r: int)
    ensures r == SumOf(Filter(data.salesOrders, IsOpenSale), Reports.SaleAmount)
               + SumOf(Filter(data.salesOrders, IsCancelledSale), Reports.SaleAmount)
  {
    SumOfSplit(data.salesOrders, IsOpenSale, IsCancelledSale, Reports.SaleAmount);
    SumOf(data.salesOrders, Reports.SaleAmount)
  }

  /** `totalPurchases`: every purchase order, cancelled ones included. */
  function TotalPurchases(data: Collections): (r: int)
    ensures r == SumOf(Filter(data.purchaseOrders, IsOpenPurchase), Reports.PurchaseAmount)
               + SumOf(Filter(data.purchaseOrders, IsCancelledPurchase), Reports.PurchaseAmount)
  {
    SumOfSplit(data.purchaseOrders, IsOpenPurchase, IsCancelledPurchase, Reports.PurchaseAmount);
    SumOf(data.purchaseOrders, Reports.PurchaseAmount)
  }

  /** With a date range that holds every order, the reports screen shows the
      dashboard's sales and purchase totals. */
  lemma TotalsMatchAFullRange(data: Collections, from: string, to: string)
    requires forall i :: 0 <= i < |data.salesOrders| ==> Reports.InRange(data.salesOrders[i].date, from, to)
    requires forall i :: 0 <= i < |data.purchaseOrders| ==> Reports.InRange(data.purchaseOrders[i].date, from, to)
    ensures Reports.TotalSales(data.salesOrders, from, to) == TotalSales(data)
    ensures Reports.TotalPurchases(data.purchaseOrders, from, to) == TotalPurchases(data)
  {
    FilterKeepsAll(data.salesOrders, Reports.SaleInRange(from, to));
    FilterKeepsAll(data.purchaseOrders, Reports.PurchaseInRange(from, to));
  }

  function CustomerBalance(c: Customer): int { c.balance }
  function SupplierBalance(s: Supplier): int { s.balance }

  /** `pendingPayments`: the sum of customer balances, which the finance screen
      shows as its receivables; this figure has no card. */
  function PendingPayments(data: Collections): (r: int)
    ensures r == Finance.Receivables(data.customers)
  {
    SumOfCongruent(data.customers, CustomerBalance, Finance.CustomerBalance);
    SumOf(data.customers, CustomerBalance)
  }

  /** `pendingReceivables`, shown on the "Pending Receivables" card: the sum of
      supplier balances, which the finance screen shows as its payables, money
      owed to suppliers. */
  function PendingReceivables(data: Collections): (r: int)
    ensures r == Finance.Payables(data.suppliers)
  {
    SumOfCongruent(data.suppliers, SupplierBalance, Finance.SupplierBalance);
    SumOf(data.suppliers, SupplierBalance)
  }

  /** `lowStockItems`: the items under 50 bags, in store order. */
  function LowStockItems(items: seq<InventoryItem>): (r: seq<InventoryItem>)
    ensures IsSubsequence(r, items)
    ensures forall item :: item in r <==> item in items && item.quantity < 50
    ensures |r| == Inventory.LowStockCount(items)
  {
    Filter(items, Inventory.IsLowStock)
  }

  /** The reports screen's low-stock list is the first five of the dashboard's
      list reordered, and the two are empty together. */
  lemma LowStockListsAgree(items: seq<InventoryItem>)
    ensures forall item :: item in Reports.LowStockList(items) ==> item in LowStockItems(items)
    ensures Reports.LowStockList(items) == [] <==> LowStockItems(items) == []
  {
    var r := Reports.LowStockList(items);
    if LowStockItems(items) != [] {
      assert LowStockItems(items)[0] in items;
    }
  }

  /** `transactions.slice(-5).reverse()`: the last five, newest first. */
  function RecentTransactions(txs: seq<Transaction>): (r: seq<Transaction>)
    ensures |r| == if 5 < |txs| then 5 else |txs|
    ensures forall i :: 0 <= i < |r| ==> r[i] == txs[|txs| - 1 - i]
  {
    Finance.RecentTransactions(txs, 5)
  }

  /** The dashboard's recent activity is the head of the finance screen's list. */
  lemma RecentIsHeadOfFinanceList(txs: seq<Transaction>)
    ensures RecentTransactions(txs) == Finance.RecentTransactions(txs, 10)[..|RecentTransactions(txs)|]
  {
  }

  predicate IsActiveSupplier(s: Supplier) { s.status == Active }
  predicate IsInactiveSupplier(s: Supplier) { s.status == Inactive }
  predicate IsOpenPurchase(o: PurchaseOrder) { o.status != Cancelled }
  predicate IsCancelledPurchase(o: PurchaseOrder) { o.status == Cancelled }
  predicate IsOpenSale(o: SalesOrder) { o.status != SaleCancelled }
  predicate IsCancelledSale(o: SalesOrder) { o.status == SaleCancelled }

  /** "Active Suppliers": suppliers whose status is active. */
  function ActiveSuppliers(data: Collections): (n: nat)
    ensures n <= |data.suppliers|
  {
    |Filter(data.suppliers, IsActiveSupplier)|
  }

  /** "Active Purchase Orders": every order not cancelled, received ones included. */
  function ActivePurchaseOrders(data: Collections): (n: nat)
    ensures n <= |data.purchaseOrders|
  {
    |Filter(data.purchaseOrders, IsOpenPurchase)|
  }

  /** "Active Sales Orders": every sales order not cancelled. */
  function ActiveSalesOrders(data: Collections): (n: nat)
    ensures n <= |data.salesOrders|
  {
    |Filter(data.salesOrders, IsOpenSale)|
  }

  /** The active counts and the inactive or cancelled counts make up all
      suppliers and all orders. */
  lemma ActiveAndCancelledMakeAll(data: Collections)
    ensures ActiveSuppliers(data) + |Filter(data.suppliers, IsInactiveSupplier)| == |data.suppliers|
    ensures ActivePurchaseOrders(data) + |Filter(data.purchaseOrders, IsCancelledPurchase)| == |data.purchaseOrders|
    ensures ActiveSalesOrders(data) + |Filter(data.salesOrders, IsCancelledSale)| == |data.salesOrders|
  {
    FilterComplementLengths(data.suppliers, IsActiveSupplier, IsInactiveSupplier);
    FilterComplementLengths(data.purchaseOrders, IsOpenPurchase, IsCancelledPurchase);
    FilterComplementLengths(data.salesOrders, IsOpenSale, IsCancelledSale);
  }

  /** A new supplier adds one to the "Active Suppliers" card exactly when it is active. */
  lemma AddingASupplierCounts(data: Collections, s: Supplier)
    ensures ActiveSuppliers(data.(suppliers := data.suppliers + [s]))
         == ActiveSuppliers(data) + (if s.status == Active then 1 else 0)
  {
    FilterAppend(data.suppliers, [s], IsActiveSupplier);
  }

  /** Cancelling an order takes it off the active count. */
  lemma CancellingLowersTheCount(data: Collections, i: nat)
    requires i < |data.purchaseOrders| && data.purchaseOrders[i].status != Cancelled
    ensures var cancelled := data.(purchaseOrders := data.purchaseOrders[i := data.purchaseOrders[i].(status := Cancelled)]);
            ActivePurchaseOrders(cancelled) == ActivePurchaseOrders(data) - 1
  {
    var xs := data.purchaseOrders;
    var ys := xs[i := xs[i].(status := Cancelled)];
    assert xs == xs[..i] + [xs[i]] + xs[i + 1..];
    assert ys == xs[..i] + [ys[i]] + xs[i + 1..];
    FilterAppend(xs[..i] + [xs[i]], xs[i + 1..], IsOpenPurchase);
    FilterAppend(xs[..i], [xs[i]], IsOpenPurchase);
    FilterAppend(xs[..i] + [ys[i]], xs[i + 1..], IsOpenPurchase);
    FilterAppend(xs[..i], [ys[i]], IsOpenPurchase);
  }

  /** "Gross Profit Margin": 0 without sales, otherwise sales less purchases
      as a percentage of sales. */
  function GrossMargin(data: Collections): (m: real)
    ensures TotalSales(data) <= 0 ==> m == 0.0
    ensures TotalSales(data) > 0 ==> m * TotalSales(data) as real == (TotalSales(data) - TotalPurchases(data)) as real * 100.0
  {
    Reports.ProfitMargin(TotalSales(data), TotalPurchases(data))
  }

  /** `totalInventoryValue`: the inventory screen's total value, never negative
      while no weight or cost is. */
  function InventoryValue(data: Collections): (r: int)
    ensures (forall i :: 0 <= i < |data.inventory| ==> data.inventory[i].weightKg >= 0 && data.inventory[i].costPerKg >= 0)
            ==> r >= 0
  {
    Inventory.TotalValue(data.inventory)
  }
}
