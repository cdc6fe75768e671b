# Rice trading back office — a verified model

The application is a single-page back office for a rice-trading business. It
keeps suppliers, customers, purchase orders, sales orders, stock, transfers
between warehouses and a ledger of income and expense transactions in one
in-memory store. Screens read and update that store:

- the supplier list and the three-step supplier wizard;
- the purchase-order list and the purchase-order form page;
- customers, inventory and stock transfers;
- finance, reports and the dashboard.

A sign-in context holds the current user. A fixed role table decides which
menu entries that user sees.

This project models that core in Dafny:

- **The store** (`store.dfy`) is a class with seven sequence fields. Every add
  and update method states its new state through a pure `Apply` over the
  collections. The lemmas about `Apply` cover:
  - appending one record;
  - an update of an absent id changing nothing;
  - running the same update twice being the same as running it once;
  - ids staying distinct;
  - collections never shrinking.
- **Records and partial records** (`domain.dfy`). A `Partial<T>` is a patch of
  `Option` fields, and `{ ...old, ...patch }` is a merge function.
- **Each screen** is one module:
  - its pure rules are functions: search and filters, sorting, paging, credit
    colours, payment status, CSV lines, step guards, range filters,
    group-by-and-rank, margins and averages;
  - its React state is a class, whose methods keep the form, the filters and
    the page.
- **Loops in the source become methods with invariants:**
  - the finance chart's per-day `forEach` is `Finance.GroupByDate`, and the
    whole chart is `Finance.DailySeries`;
  - the reports' `reduce` into an object is `Reports.GroupSum`.

  Each is proved against a specification function.
- **Shared helpers.** `seqs.dfy`, `text.dfy` and `paging.dfy` hold the
  JavaScript library behaviour the screens rely on:
  - `filter`, sums, a sort proved sorted and a permutation, `slice`, `reverse`
    and `find`;
  - `toLowerCase`, `includes`, `trim`, string comparison, `split`/`join` and
    `padStart`;
  - the page arithmetic.

Randomness and the clock are parameters:

- `generateId` is a fresh `newId` argument, required to be unused;
- `Math.random()` for supplier codes is the drawn number `n`;
- today's date is a `today` string.

## Model

| member | source | states |
|---|---|---|
| Domain.MergeIdempotent | src/contexts/DataContext.tsx:221-263 | merging the same partial record twice equals merging it once, for all six updatable record kinds |
| Domain.MergeSupplier | src/contexts/DataContext.tsx:221-223 | `{ ...old, ...patch }` for a supplier: an empty partial record changes nothing, and the id becomes the partial record's id when it carries one |
| Domain.MergeCustomer | src/contexts/DataContext.tsx:229-231 | `{ ...old, ...patch }` for a customer: an empty partial record changes nothing, and the id becomes the partial record's id when it carries one |
| Domain.MergePurchaseOrder | src/contexts/DataContext.tsx:237-239 | `{ ...old, ...patch }` for a purchase order: an empty partial record changes nothing, and the id becomes the partial record's id when it carries one |
| Domain.MergeSalesOrder | src/contexts/DataContext.tsx:245-247 | `{ ...old, ...patch }` for a sales order: an empty partial record changes nothing, and the id becomes the partial record's id when it carries one |
| Domain.MergeInventoryItem | src/contexts/DataContext.tsx:249-251 | `{ ...old, ...patch }` for a stock item: an empty partial record changes nothing, and the id becomes the partial record's id when it carries one |
| Domain.MergeStockTransfer | src/contexts/DataContext.tsx:261-263 | `{ ...old, ...patch }` for a transfer: an empty partial record changes nothing, and the id becomes the partial record's id when it carries one |
| Store.UpdateById | src/contexts/DataContext.tsx:221-223 | the mapped list has the same length, and exactly the records carrying the id are merged; the others stay as they were |
| Store.Ids | src/contexts/DataContext.tsx:3-104 | the id list of a collection, position by position |
| Store.UpdateAbsentIdIsNoOp | src/contexts/DataContext.tsx:221-223 | an update whose id no record carries leaves the list unchanged |
| Store.UpdateTwiceIsUpdateOnce | src/contexts/DataContext.tsx:221-223 | with an idempotent merge, applying the update twice equals applying it once |
| Store.UpdateKeepsIds | src/contexts/DataContext.tsx:221-223 | a merge that keeps ids keeps the id list of the collection |
| Store.AppendFreshKeepsDistinct | src/contexts/DataContext.tsx:217-219 | appending a record under an unused id keeps the ids distinct |
| Store.Initial | src/contexts/DataContext.tsx:207-213 | the initial state: three demo suppliers, three demo customers, four stock items, and empty orders, transfers and transactions |
| Store.InitialIdsDistinct | src/contexts/DataContext.tsx:138-204 | the demo tables never use an id twice |
| Store.AddAppendsOne | src/contexts/DataContext.tsx:217-266 | every add appends exactly one record, the given one under the new id, and leaves the other six collections alone |
| Store.Apply | src/contexts/DataContext.tsx:215-267 | each operation touches only its own collection: the other collections are left as they were |
| Store.ApplyAll | src/contexts/DataContext.tsx:215-267 | no operations leave the state as it was, and a single operation is one `Apply` |
| Store.ApplyAllAppend | src/contexts/DataContext.tsx:215-267 | running one list of operations and then another equals running the two lists joined |
| Store.UpdateOfAbsentIdIsNoOp | src/contexts/DataContext.tsx:221-262 | every update whose id is absent from its collection leaves the whole store unchanged |
| Store.UpdateTwice | src/contexts/DataContext.tsx:221-262 | every update operation is idempotent |
| Store.MergeIdempotentSupplier | src/contexts/DataContext.tsx:221-223 | merging a supplier patch twice equals merging it once |
| Store.ApplyKeepsIdsDistinct | src/contexts/DataContext.tsx:215-266 | adds under fresh ids, and updates whose partial record has no id, keep the ids of every collection distinct |
| Store.PatchedIdCanCollide | src/contexts/DataContext.tsx:221-223 | a partial record carrying an `id` can leave two suppliers with the same id |
| Store.ApplyGrows | src/contexts/DataContext.tsx:217-266 | no single operation shortens a collection or alters a stored transaction |
| Store.ApplyAllGrows | src/contexts/DataContext.tsx:217-266 | no sequence of operations shortens a collection or alters a stored transaction |
| Store.DataStore.constructor | src/contexts/DataContext.tsx:207-213 | the store starts at the demo state |
| Store.DataStore.AddSupplier | src/contexts/DataContext.tsx:217-219 | the new state is the old state with the supplier appended under the fresh id |
| Store.DataStore.UpdateSupplier | src/contexts/DataContext.tsx:221-223 | the new state is the old state with the matching suppliers merged |
| Store.DataStore.AddCustomer | src/contexts/DataContext.tsx:225-227 | the new state is the old state with the customer appended under the fresh id |
| Store.DataStore.UpdateCustomer | src/contexts/DataContext.tsx:229-231 | the new state is the old state with the matching customers merged |
| Store.DataStore.AddPurchaseOrder | src/contexts/DataContext.tsx:233-235 | the new state is the old state with the order appended under the fresh id |
| Store.DataStore.UpdatePurchaseOrder | src/contexts/DataContext.tsx:237-239 | the new state is the old state with the matching orders merged |
| Store.DataStore.AddSalesOrder | src/contexts/DataContext.tsx:241-243 | the new state is the old state with the sales order appended under the fresh id |
| Store.DataStore.UpdateSalesOrder | src/contexts/DataContext.tsx:245-247 | the new state is the old state with the matching sales orders merged |
| Store.DataStore.UpdateInventory | src/contexts/DataContext.tsx:249-251 | the new state is the old state with the matching stock items merged |
| Store.DataStore.AddInventoryItem | src/contexts/DataContext.tsx:253-255 | the new state is the old state with the item appended under the fresh id |
| Store.DataStore.AddStockTransfer | src/contexts/DataContext.tsx:257-259 | the new state is the old state with the transfer appended under the fresh id |
| Store.DataStore.UpdateStockTransfer | src/contexts/DataContext.tsx:261-263 | the new state is the old state with the matching transfers merged |
| Store.DataStore.AddTransaction | src/contexts/DataContext.tsx:265-267 | the new state is the old state with the transaction appended under the fresh id |
| Auth.LoggedOutHasNoPermission | src/contexts/AuthContext.tsx:54-58 | with nobody signed in, every permission is refused |
| Auth.Permits | src/contexts/AuthContext.tsx:54-58 | a permission is granted exactly when someone is signed in and is an admin (the only role holding `'all'`) or the role's list holds the permission |
| Auth.AllIsAWildcard | src/contexts/AuthContext.tsx:28-35 | only the admin role holds `'all'`, and an admin is granted every permission |
| Auth.NonAdminIsExactMembership | src/contexts/AuthContext.tsx:54-58 | for any role but admin, a permission is granted exactly when the role's list contains it, so `_read` entries grant nothing more |
| Auth.ExactLookupExamples | src/contexts/AuthContext.tsx:28-35 | warehouse staff get inventory but not finance; a manager's `'all_read'` grants neither `'finance'` nor `'all'` |
| Auth.FindUser | src/contexts/AuthContext.tsx:40-48 | a found user is in the demo table with that e-mail; nothing is found exactly when no demo user has it |
| Auth.KnownEmails | src/contexts/AuthContext.tsx:20-26 | exactly the five demo addresses sign in, each to its own user |
| Auth.NoSignInIsManager | src/contexts/AuthContext.tsx:20-35 | no sign-in reaches the manager role, because no demo user has it |
| Auth.AuthProvider.constructor | src/contexts/AuthContext.tsx:38 | the provider starts signed out |
| Auth.AuthProvider.Login | src/contexts/AuthContext.tsx:40-48 | sign-in succeeds exactly for a known e-mail, whatever the password; an unknown e-mail leaves the user as it was |
| Auth.AuthProvider.Logout | src/contexts/AuthContext.tsx:50-52 | after sign-out nobody is authenticated and no permission is granted |
| Sidebar.VisibleItems | src/components/layout/Sidebar.tsx:53-56 | the visible entries are, in menu order, exactly the entries that need no permission or whose permission, `'all'`, or `_read` variant the user holds |
| Sidebar.Shown | src/components/layout/Sidebar.tsx:53-56 | Dashboard passes for everyone, every entry passes for an admin, and for a signed-out visitor only Dashboard passes |
| Sidebar.ListedIffShown | src/components/layout/Sidebar.tsx:53-56 | an entry is in the filtered menu exactly when it passes the rule |
| Sidebar.DashboardAlwaysShown | src/components/layout/Sidebar.tsx:33-56 | Dashboard is shown to everyone |
| Sidebar.LoggedOutSeesDashboardOnly | src/components/layout/Sidebar.tsx:33-56 | a signed-out visitor sees Dashboard alone |
| Sidebar.AdminSeesEverything | src/components/layout/Sidebar.tsx:33-56 | an admin sees all fourteen entries, in order |
| Sidebar.AllShownToAdmin | src/components/layout/Sidebar.tsx:53-56 | every menu entry passes the filter for an admin |
| Sidebar.InventoryReadersSeeInventoryPages | src/components/layout/Sidebar.tsx:33-56 | procurement and sales see Inventory, Products, Brands and Categories through `inventory_read`, but not Stock Transfers or Logistics |
| Sidebar.ShownToInventoryReaders | src/components/layout/Sidebar.tsx:53-56 | for an `inventory_read` role the filter keeps the four entries that ask for `'inventory'` |
| Sidebar.HiddenFromInventoryReaders | src/components/layout/Sidebar.tsx:53-56 | for procurement and sales the filter drops Stock Transfers and Logistics |
| Sidebar.OnlyDashboardIsOpen | src/components/layout/Sidebar.tsx:33-48 | Dashboard is the only entry without a permission |
| Sidebar.EntriesListedOnce | src/components/layout/Sidebar.tsx:33-48 | the menu lists each entry once |
| Sidebar.ManagerSeesUserManagement | src/components/layout/Sidebar.tsx:47-56 | a manager sees User Management, because `'all' + '_read'` is `'all_read'` |
| Paging.TotalPages | src/components/procurement/Suppliers.tsx:79-83 | the page count is at least 1; it is the least count whose pages hold every item |
| Paging.PageOf | src/components/procurement/PurchaseOrders.tsx:72-76 | a page holds at most `pageSize` items, is empty past the end, and is the run of items starting at `(page-1)*pageSize` |
| Paging.ItemOnItsPage | src/components/procurement/PurchaseOrders.tsx:72-76 | every item appears on some page within the page count, at its position modulo the page size |
| Paging.PagesPastTheEndAreEmpty | src/components/procurement/PurchaseOrders.tsx:72-76 | a page past the page count shows nothing |
| Paging.PagesInRangeAreNonEmpty | src/components/procurement/PurchaseOrders.tsx:72-76 | for a non-empty list, every page from 1 to the page count shows something |
| Paging.ClampPage | src/components/procurement/Suppliers.tsx:85-88 | the chosen page is always in range; a page already in range is kept; out-of-range pages go to the nearest end |
| Paging.PrevPage | src/components/procurement/PurchaseOrders.tsx:621 | Prev never goes below page 1 and otherwise steps back one page |
| Paging.NextPage | src/components/procurement/PurchaseOrders.tsx:623 | Next never passes the page count and otherwise steps forward one page |
| Paging.PrevNextStayInRange | src/components/procurement/PurchaseOrders.tsx:621-623 | from a page in range, both buttons stay in range |
| Text.Lower | src/components/procurement/Suppliers.tsx:64-71 | `toLowerCase` keeps the length, lowers each character, and leaves no capital |
| Text.LowerIdempotent | src/components/procurement/Suppliers.tsx:64-71 | lower-casing twice equals lower-casing once |
| Text.Contains | src/components/procurement/Suppliers.tsx:66-71 | `includes` holds for the empty needle in every string, and a contained needle is never longer than the string |
| Text.ContainsIffOccurs | src/components/procurement/Suppliers.tsx:66-71 | `includes` holds exactly when the needle occurs at some position |
| Text.ContainsLower | src/components/procurement/Suppliers.tsx:66-71 | a needle found in a string is still found after both are lower-cased |
| Text.TrimEmptyIffBlank | src/components/procurement/SupplierFormPage.tsx:29-34 | `trim()` is empty exactly when the string is only whitespace |
| Text.Trim | src/components/procurement/SupplierFormPage.tsx:29-34 | `trim()` is never longer than the string |
| Text.TrimCutsOnlyWhitespace | src/components/procurement/SupplierFormPage.tsx:29-34 | `trim()` is a piece of the string with only whitespace cut away on each side, and has no whitespace at either of its own ends |
| Text.LexLeTotal | src/components/procurement/PurchaseOrders.tsx:55-70 | the string order used for sorting relates any two strings |
| Text.LexLe | src/components/procurement/PurchaseOrders.tsx:55-70 | in the string order a prefix, the string itself included, comes first |
| Text.LexLeTransitive | src/components/procurement/PurchaseOrders.tsx:55-70 | the string order is transitive |
| Text.SplitJoin | src/components/procurement/PurchaseOrders.tsx:163-186 | splitting a joined list gives the list back when no piece holds the separator |
| Text.SplitPiecesAvoidSeparator | src/components/procurement/PurchaseOrders.tsx:178 | no piece of a split holds the separator |
| Text.IntToString | src/components/procurement/PurchaseOrders.tsx:165-178 | a number written into a CSV cell holds no comma and no line break |
| Text.NatToString | src/components/procurement/SupplierFormPage.tsx:36-39 | `String(n)` gives decimal digits, with no leading zero, that denote `n` |
| Text.PadStart | src/components/procurement/SupplierFormPage.tsx:38 | `padStart` reaches the width with fill characters in front and keeps the string at the end |
| Seqs.Filter | src/components/procurement/Suppliers.tsx:75-77 | `filter` keeps, in order, exactly the elements that pass |
| Seqs.Sort | src/components/procurement/PurchaseOrders.tsx:55-70 | `sort` returns a sorted permutation of its input under a total preorder |
| Seqs.TopN | src/components/reports/Reports.tsx:83-85 | sorting and taking the first `n` gives a sorted part of the input of length `min(n, |xs|)`, and every element left out comes after all the ones kept |
| Seqs.LastN | src/components/finance/Finance.tsx:48 | `slice(-n)` keeps the last `min(n, |xs|)` elements, in order |
| Seqs.Find | src/contexts/AuthContext.tsx:41 | `find` returns the first element that passes, or nothing when none does |
| Suppliers.ActiveMatchesEveryone | src/components/procurement/Suppliers.tsx:62-73 | searching for "active" matches every supplier, because "inactive" contains it |
| Suppliers.MatchesSearch | src/components/procurement/Suppliers.tsx:62-73 | a blank term matches every supplier; any other term matches exactly when one of the six texts, lower-cased, contains the lower-cased term |
| Suppliers.LowerKeepsBlankness | src/components/procurement/Suppliers.tsx:63-64 | a term is blank exactly when its lower-case form is |
| Suppliers.SearchIgnoresCase | src/components/procurement/Suppliers.tsx:62-73 | a term and its lower-case form match the same suppliers |
| Suppliers.FilteredSuppliers | src/components/procurement/Suppliers.tsx:75-77 | the list keeps, in store order, exactly the suppliers that match the search |
| Suppliers.BlankSearchListsEveryone | src/components/procurement/Suppliers.tsx:75-77 | with a blank search box the whole list is shown |
| Suppliers.NewSupplier | src/components/procurement/Suppliers.tsx:23-34 | a quick add stores the six fields with a zero balance and no opening balance, credit limit or code |
| Suppliers.EditKeepsTheRest | src/components/procurement/Suppliers.tsx:23-34 | an edit replaces the six fields and keeps the id, the balance and every other field |
| Suppliers.UntouchedEditIsNoOp | src/components/procurement/Suppliers.tsx:49-60 | saving an edit without touching the fields leaves the supplier as it was |
| Suppliers.SuppliersView.constructor | src/components/procurement/Suppliers.tsx:9-21 | the view starts on page 1, with 9 per page, an empty search and an empty form |
| Suppliers.SuppliersView.ChangePage | src/components/procurement/Suppliers.tsx:85-88 | the requested page is clamped into range, so a non-empty list never shows an empty page; the search, page size, form and supplier being edited stay as they were |
| Suppliers.SuppliersView.SetSearchTerm | src/components/procurement/Suppliers.tsx:90-93 | a new search term goes back to page 1 |
| Suppliers.SuppliersView.SetPageSize | src/components/procurement/Suppliers.tsx:357-366 | a new page size (6, 9, 12 or 24) goes back to page 1 |
| Suppliers.SuppliersView.Edit | src/components/procurement/Suppliers.tsx:49-60 | the form holds the supplier's six fields and the supplier is being edited |
| Suppliers.SuppliersView.ResetForm | src/components/procurement/Suppliers.tsx:36-47 | the form is emptied and editing ends |
| Suppliers.SuppliersView.Submit | src/components/procurement/Suppliers.tsx:23-34 | an edit merges the six fields into the edited supplier; otherwise the new supplier is appended; the form is then reset |
| SupplierForm.EmptyFormIsStuck | src/components/procurement/SupplierFormPage.tsx:29-32 | the empty form cannot leave step 1 |
| SupplierForm.Filled | src/components/procurement/SupplierFormPage.tsx:29-34 | a field counts as filled exactly when it is not blank |
| SupplierForm.CanProceedStep1 | src/components/procurement/SupplierFormPage.tsx:29-32 | step 1 may be left exactly when name, contact and phone are all not blank |
| SupplierForm.CanProceedStep2 | src/components/procurement/SupplierFormPage.tsx:34 | step 2 may be left exactly when the address is not blank |
| SupplierForm.SupplierCode | src/components/procurement/SupplierFormPage.tsx:36-39 | the code is `SUP-` followed by four digits that denote the drawn number |
| SupplierForm.SupplierCodeInjective | src/components/procurement/SupplierFormPage.tsx:36-39 | different draws give different codes |
| SupplierForm.WizardSupplier | src/components/procurement/SupplierFormPage.tsx:41-49 | the saved supplier's balance is its opening balance, and it carries the generated code |
| SupplierForm.WizardKeepsEveryField | src/components/procurement/SupplierFormPage.tsx:41-49 | every field typed into the wizard can be read back from the saved supplier |
| SupplierForm.SupplierWizard.constructor | src/components/procurement/SupplierFormPage.tsx:9-27 | the wizard starts on step 1 with an empty form |
| SupplierForm.SupplierWizard.SetBasics | src/components/procurement/SupplierFormPage.tsx:76-112 | step 1's inputs change only their four fields |
| SupplierForm.SupplierWizard.SetAddress | src/components/procurement/SupplierFormPage.tsx:113-136 | step 2's inputs change only their four fields |
| SupplierForm.SupplierWizard.SetTerms | src/components/procurement/SupplierFormPage.tsx:137-203 | step 3's inputs change only their fields |
| SupplierForm.SupplierWizard.Next | src/components/procurement/SupplierFormPage.tsx:207-216 | Next advances one step exactly when the current step's guard holds, and otherwise stays |
| SupplierForm.SupplierWizard.Back | src/components/procurement/SupplierFormPage.tsx:204-206 | Back goes one step down and keeps the form |
| SupplierForm.SupplierWizard.Submit | src/components/procurement/SupplierFormPage.tsx:41-49 | saving appends the wizard's supplier with its code, and only a form that passed both guards gets there |
| Customers.Utilisation | src/components/sales/Customers.tsx:61-64 | utilisation is the balance as a percentage of the credit limit, and 0 for a zero limit |
| Customers.UtilisationMonotone | src/components/sales/Customers.tsx:61-64 | against a positive limit, utilisation grows with the balance |
| Customers.UtilisationIsUnclamped | src/components/sales/Customers.tsx:61-64 | over the limit is above 100%, a negative balance is below 0%, and at the limit it is exactly 100% |
| Customers.CreditTone | src/components/sales/Customers.tsx:66-70 | red from 90%, orange from 70% to below 90%, green below 70%, with both directions of each band |
| Customers.BarMatchesText | src/components/sales/Customers.tsx:263-266 | the bar's colour always equals the percentage's colour |
| Customers.ToneMonotone | src/components/sales/Customers.tsx:66-70 | a higher utilisation never has a calmer colour |
| Customers.BarWidth | src/components/sales/Customers.tsx:267 | the bar never exceeds 100% or the utilisation, and equals the utilisation up to 100% |
| Customers.OverLimitIsFullAndRed | src/components/sales/Customers.tsx:61-70 | a customer over the limit shows a full red bar |
| Customers.NewCustomer | src/components/sales/Customers.tsx:20-31 | an add stores the seven fields with a zero balance |
| Customers.EditKeepsBalance | src/components/sales/Customers.tsx:20-31 | an edit replaces the seven fields and keeps the id and the balance |
| Customers.UntouchedEditIsNoOp | src/components/sales/Customers.tsx:47-59 | saving an unchanged edit leaves the customer as it was |
| Customers.CustomersView.constructor | src/components/sales/Customers.tsx:10-18 | the view starts with an empty form and no edit |
| Customers.CustomersView.Edit | src/components/sales/Customers.tsx:47-59 | the form holds the customer's fields, and the customer is being edited |
| Customers.CustomersView.ResetForm | src/components/sales/Customers.tsx:33-45 | the form is emptied and editing ends |
| Customers.CustomersView.Submit | src/components/sales/Customers.tsx:20-31 | an edit merges the seven fields into the edited customer; otherwise the new customer is appended; the form is then reset |
| Inventory.FilteredInventory | src/components/inventory/Inventory.tsx:26-31 | the table keeps, in store order, exactly the items matching the search and the warehouse choice |
| Inventory.MatchesSearch | src/components/inventory/Inventory.tsx:27-28 | the empty search matches every item, and a matching term is no longer than the rice type or the grade |
| Inventory.SearchIgnoresCase | src/components/inventory/Inventory.tsx:27-28 | a term and its lower-case form match the same items |
| Inventory.FoundAsTypedMatches | src/components/inventory/Inventory.tsx:27-28 | a term found as typed in the rice type or the grade matches |
| Inventory.TotalValue | src/components/inventory/Inventory.tsx:82 | with no negative weight or cost, the value is not negative |
| Inventory.TotalWeight | src/components/inventory/Inventory.tsx:83 | with no negative weight, the total weight is not negative |
| Inventory.NoFilterListsEverything | src/components/inventory/Inventory.tsx:26-31 | with no search and all warehouses, every item is listed |
| Inventory.WarehouseFilterKeepsItsWarehouse | src/components/inventory/Inventory.tsx:26-31 | choosing one warehouse lists only items stored there |
| Inventory.LowStockTone | src/components/inventory/Inventory.tsx:76-80 | red below 20 bags, orange from 20 to below 50, green from 50, with both directions of each band |
| Inventory.LowStockCount | src/components/inventory/Inventory.tsx:84 | the low-stock count never exceeds the number of items |
| Inventory.LowStockCountIsNonGreenRows | src/components/inventory/Inventory.tsx:76-84 | the low-stock count is the number of rows not coloured green, and those are the rows flagged "Low Stock" |
| Inventory.TotalsOfAppend | src/components/inventory/Inventory.tsx:82-83 | an added item raises the value by weight × cost and the weight by its weight |
| Inventory.ValueSplitsByWarehouse | src/components/dashboard/Dashboard.tsx:17 | one warehouse's value plus the rest of the stock's value is the total value |
| Inventory.NewItem | src/components/inventory/Inventory.tsx:33-46 | an add stores the form's fields, stamped with today's date |
| Inventory.EditIsAddUnderSameId | src/components/inventory/Inventory.tsx:33-46 | an edit stores exactly what an add would, under the item's own id |
| Inventory.UntouchedEditOnlyRestamps | src/components/inventory/Inventory.tsx:62-74 | saving an unchanged edit changes only the date stamp |
| Inventory.WithQuantity | src/components/inventory/Inventory.tsx:221-228 | a new quantity sets the weight to quantity × bag size and changes nothing else |
| Inventory.InventoryView.constructor | src/components/inventory/Inventory.tsx:8-21 | the view starts with no search, all warehouses and the default form |
| Inventory.InventoryView.Cards | src/components/inventory/Inventory.tsx:81-84 | the value, weight and low-stock cards are computed over the rows on screen; the low-stock count is at most the rows shown, and with no search and all warehouses the cards cover the whole stock |
| Inventory.InventoryView.SetSearchTerm | src/components/inventory/Inventory.tsx:26-31 | the search changes and nothing else does |
| Inventory.InventoryView.SetWarehouseFilter | src/components/inventory/Inventory.tsx:26-31 | the warehouse choice changes and nothing else does |
| Inventory.InventoryView.Edit | src/components/inventory/Inventory.tsx:62-74 | the form holds the item's fields, and the item is being edited |
| Inventory.InventoryView.ResetForm | src/components/inventory/Inventory.tsx:48-60 | the form returns to its defaults and editing ends |
| Inventory.InventoryView.SetQuantity | src/components/inventory/Inventory.tsx:221-228 | the quantity input recomputes the weight |
| Inventory.InventoryView.SetWeight | src/components/inventory/Inventory.tsx:240 | the weight input changes only the weight |
| Inventory.InventoryView.Submit | src/components/inventory/Inventory.tsx:33-46 | an edit merges the stamped form into the item; otherwise the new item is appended; the form is then reset |
| StockTransfers.FilteredTransfers | src/components/inventory/StockTransfers.tsx:27-33 | the list keeps, in store order, exactly the transfers matching the search and the status choice |
| StockTransfers.StatusFiltersPartition | src/components/inventory/StockTransfers.tsx:27-33 | the pending and the completed lists together hold every transfer the search finds |
| StockTransfers.ToOptions | src/components/inventory/StockTransfers.tsx:144 | "To" offers exactly the warehouses other than "From" |
| StockTransfers.NewTransfer | src/components/inventory/StockTransfers.tsx:35-45 | a new transfer carries the form's fields, today's date and the pending status |
| StockTransfers.SameWarehouseIsAccepted | src/components/inventory/StockTransfers.tsx:125-133 | changing "From" does not adjust "To", so a transfer from a warehouse to itself can be saved |
| StockTransfers.CompleteChangesOnlyStatus | src/components/inventory/StockTransfers.tsx:61-63 | completing changes the status to completed and nothing else |
| StockTransfers.CompletedStaysCompleted | src/components/inventory/StockTransfers.tsx:35-63 | under this screen's operations, a completed transfer keeps its position and never changes again |
| StockTransfers.CompletionGoesOneWay | src/components/inventory/StockTransfers.tsx:61-63 | completing always yields completed, and completing a completed transfer changes nothing |
| StockTransfers.WithQuantity | src/components/inventory/StockTransfers.tsx:195-201 | a new quantity sets the weight to quantity × bag size and changes nothing else |
| StockTransfers.TransfersView.constructor | src/components/inventory/StockTransfers.tsx:9-22 | the view starts with no search, all statuses and the default form |
| StockTransfers.TransfersView.SetSearchTerm | src/components/inventory/StockTransfers.tsx:27-33 | the search changes and nothing else does |
| StockTransfers.TransfersView.SetStatusFilter | src/components/inventory/StockTransfers.tsx:27-33 | the status choice changes and nothing else does |
| StockTransfers.TransfersView.SetFrom | src/components/inventory/StockTransfers.tsx:125-133 | "From" changes and "To" is left as it was |
| StockTransfers.TransfersView.SetTo | src/components/inventory/StockTransfers.tsx:144 | "To" changes, and differs from "From" when it is set |
| StockTransfers.TransfersView.SetQuantity | src/components/inventory/StockTransfers.tsx:195-201 | the quantity input recomputes the weight |
| StockTransfers.TransfersView.SetWeight | src/components/inventory/StockTransfers.tsx:214 | the weight input changes only the weight |
| StockTransfers.TransfersView.Submit | src/components/inventory/StockTransfers.tsx:35-45 | the pending transfer is appended, the stock is not moved, and the form is reset |
| StockTransfers.TransfersView.Complete | src/components/inventory/StockTransfers.tsx:61-63 | the transfer is marked completed, and the stock is not moved |
| PurchaseOrderForm.FirstGrade | src/components/procurement/PurchaseOrderFormPage.tsx:104 | the grade chosen with a rice type is its first grade, or empty for a type without grades |
| PurchaseOrderForm.DefaultForm | src/components/procurement/PurchaseOrderFormPage.tsx:10-22 | the starting form is dated today, has a catalogue rice type with its first grade, is pending and unpaid with nothing paid, and cannot be saved yet |
| PurchaseOrderForm.GradesOf | src/components/procurement/PurchaseOrderFormPage.tsx:24-32 | a rice type has grades exactly when it is in the catalogue |
| PurchaseOrderForm.TotalAmount | src/components/procurement/PurchaseOrderFormPage.tsx:34 | weight × price is never negative for non-negative inputs, and is 0 when either is 0 |
| PurchaseOrderForm.CanSave | src/components/procurement/PurchaseOrderFormPage.tsx:192 | with Save enabled the total is positive |
| PurchaseOrderForm.PaymentStatusFor | src/components/procurement/PurchaseOrderFormPage.tsx:40 | paid exactly when paid ≥ total; partial exactly when 0 < paid < total; pending otherwise |
| PurchaseOrderForm.PaymentStatusMonotone | src/components/procurement/PurchaseOrderFormPage.tsx:40 | paying more never lowers the payment status |
| PurchaseOrderForm.ZeroTotalIsPaid | src/components/procurement/PurchaseOrderFormPage.tsx:40 | an order with a zero total counts as paid with nothing paid |
| PurchaseOrderForm.SaveableOrdersHavePositiveTotal | src/components/procurement/PurchaseOrderFormPage.tsx:192 | with Save enabled the total is positive, so an order saved with nothing paid is pending |
| PurchaseOrderForm.WithRiceType | src/components/procurement/PurchaseOrderFormPage.tsx:104 | changing the rice type sets a grade of that type and changes nothing else |
| PurchaseOrderForm.WithQuantity | src/components/procurement/PurchaseOrderFormPage.tsx:120-123 | a new quantity sets the weight to quantity × bag size and changes nothing else |
| PurchaseOrderForm.FindSupplier | src/components/procurement/PurchaseOrderFormPage.tsx:37 | a found supplier is in the list with that id; none is found exactly when no supplier has that id |
| PurchaseOrderForm.NewOrder | src/components/procurement/PurchaseOrderFormPage.tsx:36-48 | the order carries the form, the supplier's name, total = weight × price and the payment status derived from it |
| PurchaseOrderForm.Submission | src/components/procurement/PurchaseOrderFormPage.tsx:36-48 | nothing is saved exactly when the supplier is unknown; otherwise the new order names that supplier |
| PurchaseOrderForm.PurchaseOrderFormPage.constructor | src/components/procurement/PurchaseOrderFormPage.tsx:10-22 | the page starts with the default form |
| PurchaseOrderForm.PurchaseOrderFormPage.SetRiceType | src/components/procurement/PurchaseOrderFormPage.tsx:104 | the rice-type select resets the grade to the type's first grade |
| PurchaseOrderForm.PurchaseOrderFormPage.SetQuantity | src/components/procurement/PurchaseOrderFormPage.tsx:120-123 | the quantity input recomputes the weight |
| PurchaseOrderForm.PurchaseOrderFormPage.SetWeight | src/components/procurement/PurchaseOrderFormPage.tsx:127 | the weight input changes only the weight |
| PurchaseOrderForm.PurchaseOrderFormPage.Submit | src/components/procurement/PurchaseOrderFormPage.tsx:36-48 | Save is enabled only when the form passes CanSave (the disabled button of PurchaseOrderFormPage.tsx:190-192); saving reports success exactly for a known supplier, and then the order is appended with a positive total (pending when nothing is paid); otherwise the store is unchanged |
| PurchaseOrders.FilteredOrders | src/components/procurement/PurchaseOrders.tsx:44-53 | the three filters in a row keep, in store order, exactly the orders passing the search and both status choices |
| PurchaseOrders.MatchesSearch | src/components/procurement/PurchaseOrders.tsx:45-50 | the empty search matches every order, and a matching term is no longer than the supplier name or the rice type |
| PurchaseOrders.SearchIgnoresCase | src/components/procurement/PurchaseOrders.tsx:45-50 | a term and its lower-case form match the same orders |
| PurchaseOrders.FoundAsTypedMatches | src/components/procurement/PurchaseOrders.tsx:45-50 | a term found as typed in the supplier name or the rice type matches |
| PurchaseOrders.NoFilterListsEverything | src/components/procurement/PurchaseOrders.tsx:44-53 | with an empty search and both selects on "all", every order is listed |
| PurchaseOrders.MayPrecedeIsTotalPreorder | src/components/procurement/PurchaseOrders.tsx:55-70 | each sort choice's comparison is a total preorder |
| PurchaseOrders.SortedOrders | src/components/procurement/PurchaseOrders.tsx:55-70 | the sorted list is a permutation of the filtered list: newest date first, largest amount first, or supplier A to Z |
| PurchaseOrders.Due | src/components/procurement/PurchaseOrders.tsx:142-146 | the amount owed is never negative and is total − paid whenever that is positive |
| PurchaseOrders.OrderStats | src/components/procurement/PurchaseOrders.tsx:78-84 | payables are never negative, and the received and pending counts never exceed the number of orders |
| PurchaseOrders.StatsIgnoreOrder | src/components/procurement/PurchaseOrders.tsx:78-84 | the figures do not depend on the sort |
| PurchaseOrders.PayablesAtMostTotal | src/components/procurement/PurchaseOrders.tsx:78-84 | with no negative amounts, the payables never exceed the total value |
| PurchaseOrders.PaymentPatch | src/components/procurement/PurchaseOrders.tsx:148-155 | the payment's partial record carries no id; merged, it adds the amount to what was paid and sets the matching payment status, leaving the order consistent |
| PurchaseOrders.PayingTheDueSettles | src/components/procurement/PurchaseOrders.tsx:142-155 | paying the proposed amount settles the order |
| PurchaseOrders.FormOrder | src/components/procurement/PurchaseOrders.tsx:86-104 | the list's form saves total = weight × price, and the payment fields as typed |
| PurchaseOrders.EditReplacesAllButId | src/components/procurement/PurchaseOrders.tsx:86-104 | an edit replaces every field but the id with the form's |
| PurchaseOrders.ListAndPageDifferOnlyInStatus | src/components/procurement/PurchaseOrders.tsx:86-104 | the list's form and the order-form page save the same order except for the payment status |
| PurchaseOrders.FormOf | src/components/procurement/PurchaseOrders.tsx:124-140 | loading an order into the form and saving it gives the order back, with the total recomputed |
| PurchaseOrders.EditCanLeaveStatusStale | src/components/procurement/PurchaseOrders.tsx:86-140 | an edit that raises the price keeps a "paid" status that no longer matches the new total |
| PurchaseOrders.HeaderIsOneLine | src/components/procurement/PurchaseOrders.tsx:163-186 | the CSV header holds no line break |
| PurchaseOrders.CsvRow | src/components/procurement/PurchaseOrders.tsx:163-186 | each order gives eleven cells, one per header column |
| PurchaseOrders.CsvBody | src/components/procurement/PurchaseOrders.tsx:163-186 | one comma-joined line per order, in order |
| PurchaseOrders.CsvLines | src/components/procurement/PurchaseOrders.tsx:163-186 | the header line comes first, then one line per order |
| PurchaseOrders.Csv | src/components/procurement/PurchaseOrders.tsx:178 | with no line break in any text field, the exported text splits back into exactly the header line and one line per order |
| PurchaseOrders.CsvLinesAvoidNewline | src/components/procurement/PurchaseOrders.tsx:163-186 | no exported line holds a line break when no text field does |
| PurchaseOrders.RowAvoidsNewline | src/components/procurement/PurchaseOrders.tsx:163-186 | no cell holds a line break when no text field does |
| PurchaseOrders.CsvLineSplitsIntoCells | src/components/procurement/PurchaseOrders.tsx:163-186 | with no comma in a text field, a line splits back into its eleven cells |
| PurchaseOrders.CommaInNameBreaksTheLine | src/components/procurement/PurchaseOrders.tsx:163-186 | there is no quoting: a comma in the supplier's name breaks the line's cells |
| PurchaseOrders.PurchaseOrdersView.constructor | src/components/procurement/PurchaseOrders.tsx:9-32 | the list starts on page 1, 10 per page, newest first, with no filters and the default form |
| PurchaseOrders.PurchaseOrdersView.SetSearchTerm | src/components/procurement/PurchaseOrders.tsx:226 | typing a search keeps the current page; the other controls, the form, the order being edited and the payment dialog stay as they were |
| PurchaseOrders.PurchaseOrdersView.SetStatusFilter | src/components/procurement/PurchaseOrders.tsx:44-53 | the status choice changes; the page, the other controls, the form, the order being edited and the payment dialog stay as they were |
| PurchaseOrders.PurchaseOrdersView.SetPaymentFilter | src/components/procurement/PurchaseOrders.tsx:44-53 | the payment choice changes; the page, the other controls, the form, the order being edited and the payment dialog stay as they were |
| PurchaseOrders.PurchaseOrdersView.SetSortKey | src/components/procurement/PurchaseOrders.tsx:254 | a new sort order goes back to page 1; the search, filters, page size, form, order being edited and payment dialog stay as they were |
| PurchaseOrders.PurchaseOrdersView.SetPageSize | src/components/procurement/PurchaseOrders.tsx:615 | a new page size (10, 20 or 50) goes back to page 1; the search, filters, sort key, form, order being edited and payment dialog stay as they were |
| PurchaseOrders.PurchaseOrdersView.Prev | src/components/procurement/PurchaseOrders.tsx:621 | Prev steps back one page, never below 1; everything else on the screen stays as it was |
| PurchaseOrders.PurchaseOrdersView.Next | src/components/procurement/PurchaseOrders.tsx:623 | Next steps forward one page, never past the page count; everything else on the screen stays as it was |
| PurchaseOrders.PurchaseOrdersView.Edit | src/components/procurement/PurchaseOrders.tsx:124-140 | the form holds the order's fields, and the order is being edited; the list controls and the payment dialog stay as they were |
| PurchaseOrders.PurchaseOrdersView.ResetForm | src/components/procurement/PurchaseOrders.tsx:106-122 | the form returns to its defaults and editing ends; the list controls and the payment dialog stay as they were |
| PurchaseOrders.PurchaseOrdersView.SetRiceType | src/components/procurement/PurchaseOrders.tsx:328 | the rice-type select sets a grade of the new type; the order being edited, the list controls and the payment dialog stay as they were |
| PurchaseOrders.PurchaseOrdersView.SetQuantity | src/components/procurement/PurchaseOrders.tsx:369-376 | the quantity input recomputes the weight; the order being edited, the list controls and the payment dialog stay as they were |
| PurchaseOrders.SaveForm | src/components/procurement/PurchaseOrders.tsx:86-102 | reports whether the supplier was found; nothing changes for an unknown supplier, otherwise the edited order is overwritten with the form or the form is added under the new id |
| PurchaseOrders.PurchaseOrdersView.Submit | src/components/procurement/PurchaseOrders.tsx:86-104 | nothing for an unknown supplier (form and editing kept); otherwise the edited order is updated or a new order appended, and the form is reset through ResetForm; the list controls and the payment dialog stay as they were |
| PurchaseOrders.PurchaseOrdersView.OpenPaymentModal | src/components/procurement/PurchaseOrders.tsx:142-146 | the payment dialog opens on the order, proposing what is still owed; the form, the order being edited and the list controls stay as they were |
| PurchaseOrders.PurchaseOrdersView.SetPayAmount | src/components/procurement/PurchaseOrders.tsx:142-155 | the amount field changes; the dialog's order, the form, the order being edited and the list controls stay as they were |
| PurchaseOrders.PurchaseOrdersView.SubmitPayment | src/components/procurement/PurchaseOrders.tsx:148-155 | with a dialog open, the payment is merged into that order and the dialog closes; with none open, the store is unchanged; the form, the order being edited and the list controls stay as they were |
| PurchaseOrders.PurchaseOrdersView.MarkReceived | src/components/procurement/PurchaseOrders.tsx:157-161 | an order not yet received becomes received; otherwise nothing changes |
| PurchaseOrders.StalePageCanBeEmpty | src/components/procurement/PurchaseOrders.tsx:226 | a search typed on a later page can leave an empty page while matching orders exist |
| Finance.IncomeAndExpensesCoverAll | src/components/finance/Finance.tsx:23-25 | income plus expenses is the sum of all transaction amounts |
| Finance.TotalIncome | src/components/finance/Finance.tsx:23 | the income total is the sum over all transactions of each income's amount, an expense counting 0 |
| Finance.TotalExpenses | src/components/finance/Finance.tsx:24 | the expense total is the sum over all transactions of each expense's amount, an income counting 0 |
| Finance.NetProfit | src/components/finance/Finance.tsx:25 | the net is the sum of the amounts taken positive for income and negative for expense |
| Finance.Receivables | src/components/finance/Finance.tsx:27 | with no negative customer balance the receivables are not negative |
| Finance.Payables | src/components/finance/Finance.tsx:28 | with no negative supplier balance the payables are not negative |
| Finance.AddingMovesOneTotal | src/components/finance/Finance.tsx:23-34 | recording a transaction moves exactly one of the two totals by its amount, and the net by ± that amount |
| Finance.NewSupplierAddsItsBalance | src/components/finance/Finance.tsx:27-28 | a new supplier raises the payables by its balance |
| Finance.RecentTransactions | src/components/finance/Finance.tsx:48 | the list holds the last ten transactions, newest first |
| Finance.NewestFirst | src/components/finance/Finance.tsx:48 | the transaction just recorded heads the list |
| Finance.AmountOnAppend | src/components/finance/Finance.tsx:52-56 | a transaction adds its amount to its own date and kind, and to nothing else |
| Finance.AmountOnAbsentDate | src/components/finance/Finance.tsx:52-56 | a date with no transaction has zero totals |
| Finance.DateLeIsTotalPreorder | src/components/finance/Finance.tsx:57 | the date order of the chart's sort is a total preorder |
| Finance.DayTotalOfAppend | src/components/finance/Finance.tsx:52-56 | one more transaction updates only its own date's income or expense |
| Finance.HasDateAppend | src/components/finance/Finance.tsx:52-56 | after one more transaction, the dates present are the old ones plus its date |
| Finance.GroupByDate | src/components/finance/Finance.tsx:52-56 | the loop ends with the dictionary and key order of the fold `Finance.FoldDays`: an entry exactly for each date present, holding that date's income and expense, and each date listed once |
| Finance.ByDateStep | src/components/finance/Finance.tsx:53-56 | one callback keeps the dictionary right: a new date gets its own entry at the end of the key order, and only the transaction's date changes |
| Finance.FoldDaysByDate | src/components/finance/Finance.tsx:52-56 | the fold over any transactions keys each date present once, under that date's income and expense sums |
| Finance.ValuesInKeyOrder | src/components/finance/Finance.tsx:57 | the entries are listed in the order of the date list |
| Finance.DailySeries | src/components/finance/Finance.tsx:50-59 | the chart holds at most 14 days in strictly ascending date order, each with its true totals; every date left out is older than all the dates shown |
| Finance.DistinctEntries | src/components/finance/Finance.tsx:52-57 | the grouped entries have distinct dates and cover exactly the dates present |
| Finance.SortedEntries | src/components/finance/Finance.tsx:57 | sorting the distinct entries gives a strictly ascending series with the same entries |
| Finance.CutKeepsTheSeries | src/components/finance/Finance.tsx:58 | keeping the last 14 keeps the series ascending and correct, and leaves out only older dates |
| Finance.CutKeepsOrLeavesOlder | src/components/finance/Finance.tsx:58 | each date is kept, or is older than every date kept |
| Finance.WithKind | src/components/finance/Finance.tsx:281 | changing the type clears the category and changes nothing else |
| Finance.NewTransaction | src/components/finance/Finance.tsx:30-34 | the recorded transaction carries the form's fields as typed |
| Finance.FinanceView.constructor | src/components/finance/Finance.tsx:11-18 | the form starts as an expense dated today |
| Finance.FinanceView.SetKind | src/components/finance/Finance.tsx:279-286 | the type select clears the category |
| Finance.FinanceView.Submit | src/components/finance/Finance.tsx:30-46 | the transaction is appended, heads the recent list, and the form is reset |
| Reports.SalesInRange | src/components/reports/Reports.tsx:21-23 | keeps, in order, exactly the sales orders dated within the range |
| Reports.InRange | src/components/reports/Reports.tsx:21-29 | both ends of a range are included when the start does not come after the end, and a range whose start comes after its end includes nothing |
| Reports.TotalSales | src/components/reports/Reports.tsx:32 | the sales total is the sum over all sales orders of each in-range order's amount, an order outside the range counting 0 |
| Reports.TotalPurchases | src/components/reports/Reports.tsx:33 | the purchase total is the sum over all purchase orders of each in-range order's amount, an order outside the range counting 0 |
| Reports.PurchasesInRange | src/components/reports/Reports.tsx:24-26 | keeps, in order, exactly the purchase orders dated within the range |
| Reports.TransactionsInRange | src/components/reports/Reports.tsx:27-29 | keeps, in order, exactly the transactions dated within the range |
| Reports.FullRangeMatchesFinance | src/components/reports/Reports.tsx:27-35 | a range covering every date gives the same income and expenses as the finance screen |
| Reports.SalesSplitByRange | src/components/reports/Reports.tsx:32 | sales inside plus sales outside the range make up all sales |
| Reports.Average | src/components/reports/Reports.tsx:70 | the average is 0 with no orders, and otherwise the total divided by the count, rounded to the nearest whole |
| Reports.ProfitMargin | src/components/reports/Reports.tsx:225 | the margin is 0 with no income, and otherwise (income − expenses) as a percentage of income |
| Reports.KeySumIsFilteredSum | src/components/reports/Reports.tsx:38-57 | a group's sum is the sum over the elements carrying that key |
| Reports.Entries | src/components/reports/Reports.tsx:83-85 | the entries list each key with its sum, in key order |
| Reports.KeySumAbsent | src/components/reports/Reports.tsx:38-57 | a key no element carries sums to 0 |
| Reports.GroupSum | src/components/reports/Reports.tsx:38-57 | the loop ends with the fold `Reports.FoldGroups`: distinct keys, exactly the keys present, each holding the sum for its key, the groups adding up to the grand total |
| Reports.GroupedStep | src/components/reports/Reports.tsx:38-41 | one `reduce` callback keeps the grouping right, a new key entering at the end |
| Reports.FoldGroupsGrouped | src/components/reports/Reports.tsx:38-57 | the fold over any list groups it by key with per-key sums that add up to the grand total |
| Reports.RiceTypeKeysCanCollide | src/components/reports/Reports.tsx:48-52 | `type + " - " + grade` can merge two different type and grade pairs into one group |
| Reports.RiceTypeKey | src/components/reports/Reports.tsx:48-52 | the key starts with the rice type, ends with the grade, and has three characters between them |
| Reports.DistinctKeysAtMostLength | src/components/reports/Reports.tsx:75 | there are never more distinct keys than elements |
| Reports.KeyCountIsDistinctKeys | src/components/reports/Reports.tsx:75 | the number of groups is the number of distinct keys |
| Reports.AmountFirstIsTotalPreorder | src/components/reports/Reports.tsx:83-85 | largest-amount-first is a total preorder |
| Reports.TopEntries | src/components/reports/Reports.tsx:83-85 | the top list is sorted largest first, drawn from the entries, and at most n long |
| Reports.TopGroups | src/components/reports/Reports.tsx:83-85 | the top groups are real groups with their true sums and distinct keys, and no group left out is larger than one shown |
| Reports.TopEntriesAreGroups | src/components/reports/Reports.tsx:83-85 | every entry shown is a group with its true sum |
| Reports.TopKeepsLargest | src/components/reports/Reports.tsx:83-85 | a group left out is no larger than any group shown |
| Reports.TopKeysDistinct | src/components/reports/Reports.tsx:83-85 | no key appears twice in a top list |
| Reports.OrdersAreTotalPreorders | src/components/reports/Reports.tsx:186-256 | the three list orders are total preorders |
| Reports.LowStockList | src/components/reports/Reports.tsx:186-189 | at most five items under 50 bags, fewest first; an item left out has at least as many bags as every item shown; empty exactly when nothing is low |
| Reports.ReceivablesList | src/components/reports/Reports.tsx:234-237 | at most five customers who owe, largest balance first; a customer left out owes no more than any shown; empty exactly when nobody owes |
| Reports.PayablesList | src/components/reports/Reports.tsx:253-256 | at most five suppliers owed, largest balance first; a supplier left out is owed no more than any shown; empty exactly when none is owed |
| Reports.EntriesAreGroups | src/components/reports/Reports.tsx:54-57 | the entries are exactly the groups, with their sums |
| Reports.RankGroups | src/components/reports/Reports.tsx:38-52 | counts the distinct keys and ranks at most n groups, each true, largest first, none left out larger; all groups are listed when n covers them |
| Reports.TopAllListsAll | src/components/reports/Reports.tsx:136-138 | when n is at least the number of groups, every group is listed |
| Reports.ReportsView.constructor | src/components/reports/Reports.tsx:7-11 | the view opens on the sales tab with the given range |
| Reports.ReportsView.SetTab | src/components/reports/Reports.tsx:7 | the tab changes and the range is kept |
| Reports.ReportsView.SetFrom | src/components/reports/Reports.tsx:293 | the start date changes and nothing else does |
| Reports.ReportsView.SetTo | src/components/reports/Reports.tsx:300 | the end date changes and nothing else does |
| Reports.ReportsView.SalesReport | src/components/reports/Reports.tsx:32-100 | in-range sales total, count, rounded average, number of active customers, and the top five customers and rice types by sales |
| Reports.ReportsView.PurchaseReport | src/components/reports/Reports.tsx:33-138 | in-range purchase total, count, average, active suppliers, and every supplier group largest first |
| Reports.ReportsView.InventoryReport | src/components/reports/Reports.tsx:54-196 | item count, weight and value; one correct entry per warehouse, summing to the value; and the low-stock list |
| Reports.ReportsView.FinancialReport | src/components/reports/Reports.tsx:34-263 | in-range income, expenses, net and margin, with the receivables and payables lists |
| Dashboard.TotalsMatchAFullRange | src/components/dashboard/Dashboard.tsx:18-19 | the dashboard's sales and purchase totals equal the reports' totals over any range covering every order |
| Dashboard.TotalSales | src/components/dashboard/Dashboard.tsx:18 | the sales total counts every order: the open orders' total plus the cancelled orders' total |
| Dashboard.TotalPurchases | src/components/dashboard/Dashboard.tsx:19 | the purchase total counts every order: the open orders' total plus the cancelled orders' total |
| Dashboard.PendingPayments | src/components/dashboard/Dashboard.tsx:20 | the "Pending Payments" card is the finance screen's receivables, what customers owe |
| Dashboard.PendingReceivables | src/components/dashboard/Dashboard.tsx:21 | the "Pending Receivables" card is the finance screen's payables, what is owed to suppliers |
| Dashboard.InventoryValue | src/components/dashboard/Dashboard.tsx:17 | with no negative weight or cost, the stock value is not negative |
| Dashboard.LowStockItems | src/components/dashboard/Dashboard.tsx:23 | the list keeps, in order, exactly the items under 50 bags, as many as the inventory screen counts |
| Dashboard.LowStockListsAgree | src/components/dashboard/Dashboard.tsx:23 | the reports' low-stock list is drawn from the dashboard's, and both are empty together |
| Dashboard.RecentTransactions | src/components/dashboard/Dashboard.tsx:24 | the last five transactions, newest first |
| Dashboard.RecentIsHeadOfFinanceList | src/components/dashboard/Dashboard.tsx:24 | the dashboard's five are the first of the finance screen's ten |
| Dashboard.ActiveSuppliers | src/components/dashboard/Dashboard.tsx:45 | the active suppliers never outnumber the suppliers |
| Dashboard.ActivePurchaseOrders | src/components/dashboard/Dashboard.tsx:149 | orders not cancelled never outnumber the orders |
| Dashboard.ActiveSalesOrders | src/components/dashboard/Dashboard.tsx:155 | sales orders not cancelled never outnumber the sales orders |
| Dashboard.ActiveAndCancelledMakeAll | src/components/dashboard/Dashboard.tsx:45-155 | active plus inactive suppliers is all suppliers, and active plus cancelled orders is all orders, for purchases and sales alike |
| Dashboard.AddingASupplierCounts | src/components/dashboard/Dashboard.tsx:45 | adding a supplier raises the active count by one exactly when the new supplier is active |
| Dashboard.CancellingLowersTheCount | src/components/dashboard/Dashboard.tsx:149 | cancelling an active order lowers the active count by one |
| Dashboard.GrossMargin | src/components/dashboard/Dashboard.tsx:165 | the margin is 0 without sales, and otherwise (sales − purchases) as a percentage of sales |

## Left out

- Rendering, styling, icons, modals' visibility and routing are not modelled.
  `App.tsx`, `ErrorBoundary.tsx`, `Logistics.tsx` and the product, brand and
  category lists are not part of this model.
- The sales-order screen is not part of this model. The store's sales-order
  add and update are modelled; the screen that calls them is not.
- `generateId`, `Math.random()` and `new Date()` are parameters: a fresh id, a
  drawn number below 10000, and today's date as a string.
- Numbers are unbounded integers: money, weights and prices per kilogram are
  `int`. Utilisation and margins are `real`. Floating-point rounding,
  `toFixed` and `toLocaleString` formatting are not modelled.
- `|| 0` fallbacks and `NaN` from empty numeric inputs are not modelled.
  Numeric fields always hold a number.
- Text.Lower: lowers ASCII letters only, not full Unicode case mapping.
- Text.LexLe: `localeCompare` and the `<`/`>` on date strings are both
  modelled as code-point lexicographic order, with no locale collation.
- A partial record cannot unset a field: `{ ...old, patch }` with an explicit
  `undefined` value is not modelled.
- Seqs.Sort: stated sorted and a permutation of its input. The insertion sort
  keeps equal elements in their order, as `Array.prototype.sort` does, but no
  contract states it. The same gap holds for every list built on it:
  PurchaseOrders.SortedOrders, Seqs.TopN, Reports.TopEntries,
  Reports.TopGroups, Reports.RankGroups, Reports.LowStockList,
  Reports.ReceivablesList, Reports.PayablesList, and the sales, purchase and
  financial reports (Reports.ReportsView.SalesReport, PurchaseReport and
  FinancialReport). Ties among equal amounts or dates may appear in any
  order as far as the contracts say.
- Reports.GroupSum: keeps keys in first-seen order. JavaScript orders
  integer-like object keys numerically first; that is not modelled. The
  source groups into a plain `{}` object, so a key that names a member of
  `Object.prototype` behaves differently there: `"constructor"` starts from
  the inherited function and concatenates onto it, and `"__proto__"` is
  dropped. The model treats every key as an ordinary dictionary key.
- Reports.ReportsView.InventoryReport: states each warehouse entry and their
  total, not the order of the entries.
- Sign-in is synchronous here. The source's `async` login and its promise are
  not modelled.
- The ledger entry's `type` field is named `kind`.
- The menu's icons are not modelled. Each menu entry is a `Sidebar.Page`
  value, and its name, path and permission are functions of it.
- The recharts chart drawing and the CSV download (Blob, object URL, link
  click) are not modelled. The chart's data series and the CSV text are
  modelled.
- SupplierForm.SupplierWizard.Submit: requires step 3, because the save button
  exists only there.
- The reports' "Export Report" button has no handler. The dashboard's
  hard-coded change percentages are constants of the view.
- Dashboard.ActiveSuppliers, Dashboard.ActivePurchaseOrders and
  Dashboard.ActiveSalesOrders: their own contracts state only the bound. The
  exact counts are stated by Dashboard.ActiveAndCancelledMakeAll (active
  plus inactive suppliers, active plus cancelled orders), by
  Dashboard.AddingASupplierCounts for the suppliers, and by
  Dashboard.CancellingLowersTheCount for the orders.
- HTML constraint validation is not modelled. The browser refuses to submit
  a form whose `required` input is empty or whose number input breaks its
  `min` or `max`, such as a paid amount above the total. The Submit methods
  accept such input and store it as typed: Finance.FinanceView.Submit,
  Customers.CustomersView.Submit, Suppliers.SuppliersView.Submit,
  SupplierForm.SupplierWizard.Submit,
  PurchaseOrderForm.PurchaseOrderFormPage.Submit,
  PurchaseOrders.PurchaseOrdersView.Submit, Inventory.InventoryView.Submit and
  StockTransfers.TransfersView.Submit. The properties proved about them hold
  for every input, the refused ones included. The payment dialog of
  PurchaseOrders.tsx:473-512 is not inside a form, so the `min` and `max` of
  its amount input constrain nothing: PurchaseOrdersView.SubmitPayment records
  negative payments and over-payments as typed, as the page does.
- Text.Join: has no contract of its own. Its partner is Text.SplitJoin, the
  round trip with Text.Split.
