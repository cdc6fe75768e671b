/** The navigation menu of `Sidebar.tsx`: a fixed list of entries, each shown
    when it needs no permission or when the signed-in user holds the permission,
    `'all'`, or the permission's `_read` variant. */
module Sidebar {
  import opened Wrappers
  import opened Seqs
  import opened Auth

  /** The menu's entries; each one's name, path and permission are functions of it. */
  datatype Page = Dashboard | Suppliers | PurchaseOrders | Inventory | StockTransfers | Customers
                | SalesOrders | Finance | Products | Brands | Categories | Logistics | Reports
                | UserManagement

  /** `navItems`, in menu order. */
  const NavItems: seq<Page> := [Dashboard, Suppliers, PurchaseOrders, Inventory, StockTransfers,
                                Customers, SalesOrders, Finance, Products, Brands, Categories,
                                Logistics, Reports, UserManagement]

  function Name(p: Page): string
  {
    match p
    case Dashboard => "Dashboard"
    case Suppliers => "Suppliers"
    case PurchaseOrders => "Purchase Orders"
    case Inventory => "Inventory"
    case StockTransfers => "Stock Transfers"
    case Customers => "Customers"
    case SalesOrders => "Sales Orders"
    case Finance => "Finance"
    case Products => "Products"
    case Brands => "Brands"
    case Categories => "Categories"
    case Logistics => "Logistics"
    case Reports => "Reports"
    case UserManagement => "User Management"
  }

  function Path(p: Page): string
  {
    match p
    case Dashboard => "/dashboard"
    case Suppliers => "/suppliers"
    case PurchaseOrders => "/purchase-orders"
    case Inventory => "/inventory"
    case StockTransfers => "/stock-transfers"
    case Customers => "/customers"
    case SalesOrders => "/sales-orders"
    case Finance => "/finance"
    case Products => "/products"
    case Brands => "/brands"
    case Categories => "/categories"
    case Logistics => "/logistics"
    case Reports => "/reports"
    case UserManagement => "/users"
  }

  /** The permission an entry asks for; Dashboard asks for none. */
  function Permission(p: Page): Option<string>
  {
    match p
    case Dashboard => None
    case Suppliers => Some("suppliers")
    case PurchaseOrders => Some("purchase_orders")
    case Inventory => Some("inventory")
    case StockTransfers => Some("stock_transfers")
    case Customers => Some("customers")
    case SalesOrders => Some("sales_orders")
    case Finance => Some("finance")
    case Products => Some("inventory")
    case Brands => Some("inventory")
    case Categories => Some("inventory")
    case Logistics => Some("logistics")
    case Reports => Some("reports")
    case UserManagement => Some("all")
  }

  /** The menu's rule for one entry: Dashboard is shown to everyone, every
      entry to an admin, and nothing else to a visitor who is not signed in. */
  function Shown(user: Option<User>, p: Page): (r: bool)
    ensures p == Dashboard ==> r
    ensures user.Some? && user.value.role == Admin ==> r
    ensures user.None? ==> (r <==> p == Dashboard)
  {
    Permission(p).None?
    || Permits(user, Permission(p).value)
    || Permits(user, "all")
    || Permits(user, Permission(p).value + "_read")
  }

  /** The callback given to `navItems.filter`. */
  function Keep(user: Option<User>): Page -> bool
  {
    p => Shown(user, p)
  }

  /** `filteredNavItems`: the entries the user may see, in menu order. */
  function VisibleItems(user: Option<User>): (r: seq<Page>)
    ensures IsSubsequence(r, NavItems)
    ensures forall p :: p in r <==> p in NavItems && Shown(user, p)
  {
    Filter(NavItems, Keep(user))
  }

  /** Every entry is listed once. */
  lemma EntriesListedOnce()
    ensures Distinct(NavItems)
  {
  }

  /** Dashboard needs no permission and is shown to everyone. */
  lemma DashboardAlwaysShown(user: Option<User>)
    ensures NavItems[0] == Dashboard && Dashboard in VisibleItems(user)
  {
    assert Shown(user, Dashboard);
  }

  /** Dashboard is the only entry that asks for no permission. */
  lemma OnlyDashboardIsOpen(p: Page)
    ensures Permission(p).None? <==> p == Dashboard
  {
  }

  /** Logged out, the menu is Dashboard alone. */
  lemma LoggedOutSeesDashboardOnly()
    ensures VisibleItems(None) == [Dashboard]
  {
    HiddenAfterDashboard();
    assert NavItems[0] == Dashboard && Keep(None)(Dashboard);
    assert [Dashboard] + [] == [Dashboard];
  }

  /** Logged out, every entry after Dashboard is filtered away. */
  lemma HiddenAfterDashboard()
    ensures Filter(NavItems[1..], Keep(None)) == []
  {
    var rest := NavItems[1..];
    assert Dashboard !in rest;
    forall i | 0 <= i < |rest| ensures !Keep(None)(rest[i]) {
      assert rest[i] in rest;
      OnlyDashboardIsOpen(rest[i]);
    }
    FilterKeepsNone(rest, Keep(None));
  }

  /** An admin sees all fourteen entries. */
  lemma AdminSeesEverything(u: User)
    requires u.role == Admin
    ensures VisibleItems(Some(u)) == NavItems
  {
    var keep := Keep(Some(u));
    AllShownToAdmin(u);
    FilterKeepsAll(NavItems, keep);
  }

  lemma AllShownToAdmin(u: User)
    requires u.role == Admin
    ensures forall p :: Shown(Some(u), p)
  {
    assert Permits(Some(u), "all");
  }

  /** A role holding `'inventory_read'` (procurement, sales) sees Inventory,
      Products, Brands and Categories, which all ask for `'inventory'`, but not
      Stock Transfers or Logistics. */
  lemma InventoryReadersSeeInventoryPages(u: User)
    requires u.role == Procurement || u.role == Sales
    ensures Inventory in VisibleItems(Some(u)) && Products in VisibleItems(Some(u))
    ensures Brands in VisibleItems(Some(u)) && Categories in VisibleItems(Some(u))
    ensures StockTransfers !in VisibleItems(Some(u)) && Logistics !in VisibleItems(Some(u))
  {
    ShownToInventoryReaders(u);
    HiddenFromInventoryReaders(u);
    var user := Some(u);
    ListedIffShown(user, Inventory);
    ListedIffShown(user, Products);
    ListedIffShown(user, Brands);
    ListedIffShown(user, Categories);
    ListedIffShown(user, StockTransfers);
    ListedIffShown(user, Logistics);
  }

  /** An entry is in the filtered menu exactly when the rule shows it. */
  lemma ListedIffShown(user: Option<User>, p: Page)
    ensures p in VisibleItems(user) <==> Shown(user, p)
  {
    assert p in NavItems;
  }

  lemma ShownToInventoryReaders(u: User)
    requires u.role == Procurement || u.role == Sales
    ensures Shown(Some(u), Inventory) && Shown(Some(u), Products)
    ensures Shown(Some(u), Brands) && Shown(Some(u), Categories)
  {
    assert "inventory" + "_read" == "inventory_read";
    assert Permits(Some(u), "inventory_read");
  }

  lemma HiddenFromInventoryReaders(u: User)
    requires u.role == Procurement || u.role == Sales
    ensures !Shown(Some(u), StockTransfers) && !Shown(Some(u), Logistics)
  {
    NonAdminIsExactMembership(u, "all");
    NonAdminIsExactMembership(u, "stock_transfers");
    NonAdminIsExactMembership(u, "stock_transfers_read");
    NonAdminIsExactMembership(u, "logistics");
    NonAdminIsExactMembership(u, "logistics_read");
    assert "stock_transfers" + "_read" == "stock_transfers_read";
    assert "logistics" + "_read" == "logistics_read";
  }

  /** The manager role sees User Management: `'all' + '_read'` is `'all_read'`. */
  lemma ManagerSeesUserManagement(u: User)
    requires u.role == Manager
    ensures Name(UserManagement) == "User Management" && UserManagement in VisibleItems(Some(u))
  {
    assert "all" + "_read" == "all_read";
    assert Permits(Some(u), "all_read");
    assert Shown(Some(u), UserManagement);
    assert NavItems[13] == UserManagement;
  }
}
