/** The purchase-order list (`PurchaseOrders.tsx`): search and status filters,
    three sort orders, pagination, summary figures, payments, receipt, the
    inline create/edit form and the CSV export. */
module PurchaseOrders {
  import opened Wrappers
  import opened Seqs
  import opened Text
  import opened Paging
  import opened Domain
  import opened Store
  import opened PurchaseOrderForm

  // ---------------------------------------------------------------------------
  // Filtering

  /** The search box: the lowercased supplier name or rice type contains the
      lowercased term. An empty term matches every order, and a match needs a
      field as long as the term. */
  function MatchesSearch(o: PurchaseOrder, term: string): (r: bool)
    ensures term == [] ==> r
    ensures r ==> |term| <= |o.supplierName| || |term| <= |o.riceType|
  {
    Contains(Lower(o.supplierName), Lower(term)) || Contains(Lower(o.riceType), Lower(term))
  }

  /** The search does not depend on the case of the term. */
  lemma SearchIgnoresCase(o: PurchaseOrder, term: string)
    ensures MatchesSearch(o, Lower(term)) <==> MatchesSearch(o, term)
  {
    LowerIdempotent(term);
  }

  /** A term found as typed in the supplier name or the rice type matches. */
  lemma FoundAsTypedMatches(o: PurchaseOrder, term: string)
    requires Contains(o.supplierName, term) || Contains(o.riceType, term)
    ensures MatchesSearch(o, term)
  {
    if Contains(o.supplierName, term) {
      ContainsLower(o.supplierName, term);
    } else {
      ContainsLower(o.riceType, term);
    }
  }

  /** An order passes the search box and both status selects. */
  predicate Selected(o: PurchaseOrder, term: string, statusFilter: Choice<PurchaseStatus>,
                     paymentFilter: Choice<PaymentStatus>)
  {
    MatchesSearch(o, term) && statusFilter.Admits(o.status) && paymentFilter.Admits(o.paymentStatus)
  }

  function SearchBy(term: string): PurchaseOrder -> bool
  {
    o => MatchesSearch(o, term)
  }

  function StatusBy(statusFilter: Choice<PurchaseStatus>): PurchaseOrder -> bool
  {
    (o: PurchaseOrder) => statusFilter.Admits(o.status)
  }

  function PaymentBy(paymentFilter: Choice<PaymentStatus>): PurchaseOrder -> bool
  {
    (o: PurchaseOrder) => paymentFilter.Admits(o.paymentStatus)
  }

  function SearchAndStatusBy(term: string, statusFilter: Choice<PurchaseStatus>): PurchaseOrder -> bool
  {
    o => MatchesSearch(o, term) && statusFilter.Admits(o.status)
  }

  function SelectedBy(term: string, statusFilter: Choice<PurchaseStatus>,
                      paymentFilter: Choice<PaymentStatus>): PurchaseOrder -> bool
  {
    o => Selected(o, term, statusFilter, paymentFilter)
  }

  /** `filteredOrders`: three filters in a row keep, in store order, exactly
      the orders one filter on all three conditions keeps. */
  function FilteredOrders(orders: seq<PurchaseOrder>, term: string, statusFilter: Choice<PurchaseStatus>,
                          paymentFilter: Choice<PaymentStatus>): (r: seq<PurchaseOrder>)
    ensures r == Filter(orders, SelectedBy(term, statusFilter, paymentFilter))
    ensures IsSubsequence(r, orders)
    ensures forall o :: o in r <==> o in orders && Selected(o, term, statusFilter, paymentFilter)
  {
    var bySearch := Filter(orders, SearchBy(term));
    var byStatus := Filter(bySearch, StatusBy(statusFilter));
    FilterFilter(orders, SearchBy(term), StatusBy(statusFilter), SearchAndStatusBy(term, statusFilter));
    FilterFilter(orders, SearchAndStatusBy(term, statusFilter), PaymentBy(paymentFilter),
                 SelectedBy(term, statusFilter, paymentFilter));
    Filter(byStatus, PaymentBy(paymentFilter))
  }

  /** With an empty search box and both selects on "all", every order is listed. */
  lemma NoFilterListsEverything(orders: seq<PurchaseOrder>)
    ensures FilteredOrders(orders, "", All, All) == orders
  {
    forall i | 0 <= i < |orders| ensures SelectedBy("", All, All)(orders[i]) {
      assert Contains(Lower(orders[i].supplierName), "");
    }
    FilterKeepsAll(orders, SelectedBy("", All, All));
  }

  // ---------------------------------------------------------------------------
  // Sorting

  datatype SortKey = DateDesc | AmountDesc | SupplierAsc

  /** "`a` may come before `b`" for each choice of the sort select. */
  function MayPrecede(key: SortKey): (PurchaseOrder, PurchaseOrder) -> bool
  {
    match key
    case DateDesc => (a: PurchaseOrder, b: PurchaseOrder) => LexLe(b.date, a.date)
    case AmountDesc => (a: PurchaseOrder, b: PurchaseOrder) => a.totalAmount >= b.totalAmount
    case SupplierAsc => (a: PurchaseOrder, b: PurchaseOrder) => LexLe(a.supplierName, b.supplierName)
  }

  lemma MayPrecedeIsTotalPreorder(key: SortKey)
    ensures TotalPreorder(MayPrecede(key))
  {
    var le := MayPrecede(key);
    forall a, b ensures le(a, b) || le(b, a) {
      LexLeTotal(a.date, b.date);
      LexLeTotal(a.supplierName, b.supplierName);
    }
    forall a, b, c | le(a, b) && le(b, c) ensures le(a, c) {
      if key == DateDesc {
        LexLeTransitive(c.date, b.date, a.date);
      } else if key == SupplierAsc {
        LexLeTransitive(a.supplierName, b.supplierName, c.supplierName);
      }
    }
  }

  /** `sortedOrders`: the filtered orders, rearranged into the chosen order. */
  function SortedOrders(filtered: seq<PurchaseOrder>, key: SortKey): (r: seq<PurchaseOrder>)
    ensures |r| == |filtered| && multiset(r) == multiset(filtered)
    ensures key == DateDesc ==> forall i, j :: 0 <= i < j < |r| ==> LexLe(r[j].date, r[i].date)
    ensures key == AmountDesc ==> forall i, j :: 0 <= i < j < |r| ==> r[i].totalAmount >= r[j].totalAmount
    ensures key == SupplierAsc ==> forall i, j :: 0 <= i < j < |r| ==> LexLe(r[i].supplierName, r[j].supplierName)
  {
    MayPrecedeIsTotalPreorder(key);
    var r := Sort(filtered, MayPrecede(key));
    assert SortedBy(r, MayPrecede(key));
    r
  }

  // ---------------------------------------------------------------------------
  // Summary figures

  /** What is still owed on an order: `max(total - paid, 0)`. */
  function Due(o: PurchaseOrder): (d: int)
    ensures d >= 0 && d >= o.totalAmount - o.paidAmount
    ensures d == 0 || d == o.totalAmount - o.paidAmount
  {
    if o.totalAmount - o.paidAmount > 0 then o.totalAmount - o.paidAmount else 0
  }

  datatype Stats = Stats(totalAmount: int, receivedCount: nat, pendingCount: nat, payables: int)

  function TotalOf(o: PurchaseOrder): int { o.totalAmount }
  predicate IsReceived(o: PurchaseOrder) { o.status == Received }
  predicate IsPending(o: PurchaseOrder) { o.status == Pending }

  /** `stats`: total value, received and pending counts, and what is owed. */
  function OrderStats(orders: seq<PurchaseOrder>): (s: Stats)
    ensures s.payables >= 0
    ensures s.receivedCount + s.pendingCount <= |orders|
  {
    SumOfNonNegative(orders, Due);
    FilterDisjointLengths(orders, IsReceived, IsPending);
    Stats(SumOf(orders, TotalOf), |Filter(orders, IsReceived)|, |Filter(orders, IsPending)|, SumOf(orders, Due))
  }

  /** Sorting does not change the figures. */
  lemma StatsIgnoreOrder(filtered: seq<PurchaseOrder>, key: SortKey)
    ensures OrderStats(SortedOrders(filtered, key)) == OrderStats(filtered)
  {
    var r := SortedOrders(filtered, key);
    SumOfPermutation(r, filtered, TotalOf);
    SumOfPermutation(r, filtered, Due);
    FilterLengthPermutation(r, filtered, IsReceived);
    FilterLengthPermutation(r, filtered, IsPending);
  }

  /** With no negative amounts, nothing more can be owed than the orders are worth. */
  lemma PayablesAtMostTotal(orders: seq<PurchaseOrder>)
    requires forall i :: 0 <= i < |orders| ==> orders[i].paidAmount >= 0 && orders[i].totalAmount >= 0
    ensures OrderStats(orders).payables <= OrderStats(orders).totalAmount
  {
    SumOfMonotone(orders, Due, TotalOf);
  }

  // ---------------------------------------------------------------------------
  // Payment, receipt, create and edit

  /** An order whose status agrees with what has been paid towards its total. */
  predicate PaymentConsistent(o: PurchaseOrder)
  {
    o.paymentStatus == PaymentStatusFor(o.paidAmount, o.totalAmount)
  }

  /** `submitPayment`'s partial record for paying `amount` on `paying`. It
      carries no id, changes the paid amount and the payment status and nothing
      else, and leaves the order it was computed from consistent. */
  function PaymentPatch(paying: PurchaseOrder, amount: int): (p: PurchaseOrderPatch)
    ensures p.id.None?
    ensures MergePurchaseOrder(paying, p)
         == paying.(paidAmount := paying.paidAmount + amount,
                    paymentStatus := PaymentStatusFor(paying.paidAmount + amount, paying.totalAmount))
    ensures PaymentConsistent(MergePurchaseOrder(paying, p))
  {
    var newPaid := paying.paidAmount + amount;
    NoPurchaseOrderChange.(paidAmount := Some(newPaid),
                           paymentStatus := Some(PaymentStatusFor(newPaid, paying.totalAmount)))
  }

  /** Paying the amount the payment dialog proposes settles the order. */
  lemma PayingTheDueSettles(o: PurchaseOrder)
    ensures PaymentStatusFor(o.paidAmount + Due(o), o.totalAmount) == Paid
  {
  }

  const MarkReceivedPatch := NoPurchaseOrderChange.(status := Some(Received))

  /** The order the list's form saves: the form fields, the supplier's name and
      the computed total; the payment status is taken from the form as it is. */
  function FormOrder(f: OrderForm, supplierName: string): (o: PurchaseOrder)
    ensures o.totalAmount == TotalAmount(f) && o.supplierName == supplierName
    ensures o.paymentStatus == f.paymentStatus && o.paidAmount == f.paidAmount
  {
    PurchaseOrder("", f.supplierId, supplierName, f.date, f.riceType, f.grade, f.bagSize, f.quantity,
                  f.weightKg, f.pricePerKg, TotalAmount(f), f.status, f.paymentStatus, f.paidAmount)
  }

  /** The same record as a partial record, for an edit. */
  function FormPatch(f: OrderForm, supplierName: string): PurchaseOrderPatch
  {
    PurchaseOrderPatch(None, Some(f.supplierId), Some(supplierName), Some(f.date), Some(f.riceType),
                       Some(f.grade), Some(f.bagSize), Some(f.quantity), Some(f.weightKg),
                       Some(f.pricePerKg), Some(TotalAmount(f)), Some(f.status), Some(f.paymentStatus),
                       Some(f.paidAmount))
  }

  /** Editing replaces every field but the id with the form's. */
  lemma EditReplacesAllButId(o: PurchaseOrder, f: OrderForm, supplierName: string)
    ensures MergePurchaseOrder(o, FormPatch(f, supplierName)) == FormOrder(f, supplierName).(id := o.id)
  {
  }

  /** The list's form and the order-form page save the same order, except that
      the page derives the payment status from the amounts. */
  lemma ListAndPageDifferOnlyInStatus(f: OrderForm, supplierName: string)
    ensures NewOrder(f, supplierName)
         == FormOrder(f, supplierName).(paymentStatus := PaymentStatusFor(f.paidAmount, TotalAmount(f)))
  {
  }

  /** `handleEdit` loads an order into the form. */
  function FormOf(o: PurchaseOrder): (f: OrderForm)
    ensures FormOrder(f, o.supplierName) == o.(id := "", totalAmount := f.weightKg * f.pricePerKg)
  {
    OrderForm(o.supplierId, o.date, o.riceType, o.grade, o.bagSize, o.quantity, o.weightKg,
              o.pricePerKg, o.status, o.paymentStatus, o.paidAmount)
  }

  /** An edit recomputes the total but keeps the stored payment status, so a
      settled order whose price is raised stays "paid" with money still owed. */
  lemma EditCanLeaveStatusStale(o: PurchaseOrder)
    requires o.weightKg == 100 && o.pricePerKg == 10 && o.totalAmount == 1000
    requires o.paidAmount == 1000 && o.paymentStatus == Paid
    ensures PaymentConsistent(o)
    ensures var e := MergePurchaseOrder(o, FormPatch(FormOf(o).(pricePerKg := 12), o.supplierName));
            e.paymentStatus == Paid && Due(e) == 200 && !PaymentConsistent(e)
  {
  }

  // ---------------------------------------------------------------------------
  // CSV export

  /** The header cells. */
  const CsvHeader: seq<string> :=
    ["Date", "Supplier", "Rice Type", "Grade", "Qty(bags)", "BagSize(kg)", "Weight(kg)", "Price/kg",
     "Total", "Status", "Payment"]

  /** The header cells joined by commas. */
  const CsvHeaderLine: string := Join(CsvHeader, ',')

  lemma HeaderIsOneLine()
    ensures '\n' !in CsvHeaderLine
  {
    forall j | 0 <= j < |CsvHeader| ensures '\n' !in CsvHeader[j] {
      HeaderCellIsOneLine(j);
    }
    JoinAvoids(CsvHeader, ',', '\n');
  }

  lemma HeaderCellIsOneLine(j: nat)
    requires j < |CsvHeader|
    ensures '\n' !in CsvHeader[j]
  {
    if j < 4 {
      assert '\n' !in CsvHeader[0] && '\n' !in CsvHeader[1] && '\n' !in CsvHeader[2] && '\n' !in CsvHeader[3];
    } else if j < 8 {
      assert '\n' !in CsvHeader[4] && '\n' !in CsvHeader[5] && '\n' !in CsvHeader[6] && '\n' !in CsvHeader[7];
    } else {
      assert '\n' !in CsvHeader[8] && '\n' !in CsvHeader[9] && '\n' !in CsvHeader[10];
    }
  }

  function StatusText(s: PurchaseStatus): string
  {
    match s
    case Pending => "pending"
    case Received => "received"
    case Cancelled => "cancelled"
  }

  function PaymentText(s: PaymentStatus): string
  {
    match s
    case Unpaid => "pending"
    case Partial => "partial"
    case Paid => "paid"
  }

  /** The cells of one order's line, in header order. */
  function CsvRow(o: PurchaseOrder): (r: seq<string>)
    ensures |r| == 11
  {
    [o.date, o.supplierName, o.riceType, o.grade, IntToString(o.quantity), IntToString(o.bagSize),
     IntToString(o.weightKg), IntToString(o.pricePerKg), IntToString(o.totalAmount),
     StatusText(o.status), PaymentText(o.paymentStatus)]
  }

  /** One line per order, cells joined by commas. */
  function CsvBody(orders: seq<PurchaseOrder>): (r: seq<string>)
    ensures |r| == |orders|
    ensures forall i :: 0 <= i < |orders| ==> r[i] == Join(CsvRow(orders[i]), ',')
  {
    if orders == [] then [] else
      var rest := CsvBody(orders[1..]);
      assert forall i :: 1 <= i < |orders| ==> rest[i - 1] == Join(CsvRow(orders[i]), ',');
      [Join(CsvRow(orders[0]), ',')] + rest
  }

  /** The header line, then the orders' lines. */
  function CsvLines(orders: seq<PurchaseOrder>): (r: seq<string>)
    ensures |r| == |orders| + 1 && r[0] == CsvHeaderLine
    ensures forall i :: 0 <= i < |orders| ==> r[i + 1] == Join(CsvRow(orders[i]), ',')
  {
    var body := CsvBody(orders);
    var r := [CsvHeaderLine] + body;
    assert forall i :: 0 <= i < |orders| ==> r[i + 1] == body[i];
    r
  }

  /** The exported text: the lines joined by newlines, with no quoting. With no
      line break in any text field, it splits back into exactly the header and
      one line per order. */
  function Csv(orders: seq<PurchaseOrder>): (r: string)
    ensures (forall i :: 0 <= i < |orders| ==> TextFieldsAvoid(orders[i], '\n')) ==> Split(r, '\n') == CsvLines(orders)
  {
    if forall i :: 0 <= i < |orders| ==> TextFieldsAvoid(orders[i], '\n') then
      CsvLinesAvoidNewline(orders);
      SplitJoin(CsvLines(orders), '\n');
      Join(CsvLines(orders), '\n')
    else
      Join(CsvLines(orders), '\n')
  }

  /** The text fields an exported line carries verbatim avoid `c`. */
  predicate TextFieldsAvoid(o: PurchaseOrder, c: char)
  {
    c !in o.date && c !in o.supplierName && c !in o.riceType && c !in o.grade
  }

  lemma CsvLinesAvoidNewline(orders: seq<PurchaseOrder>)
    requires forall i :: 0 <= i < |orders| ==> TextFieldsAvoid(orders[i], '\n')
    ensures forall k :: 0 <= k < |CsvLines(orders)| ==> '\n' !in CsvLines(orders)[k]
  {
    var lines := CsvLines(orders);
    forall k | 0 <= k < |lines| ensures '\n' !in lines[k] {
      if k == 0 {
        HeaderIsOneLine();
      } else {
        RowAvoidsNewline(orders[k - 1]);
        JoinAvoids(CsvRow(orders[k - 1]), ',', '\n');
      }
    }
  }

  /** No cell of a line holds a line break when the text fields do not. */
  lemma RowAvoidsNewline(o: PurchaseOrder)
    requires TextFieldsAvoid(o, '\n')
    ensures forall j :: 0 <= j < |CsvRow(o)| ==> '\n' !in CsvRow(o)[j]
  {
    var row := CsvRow(o);
    assert '\n' !in row[9] by { assert row[9] == StatusText(o.status); }
    assert '\n' !in row[10] by { assert row[10] == PaymentText(o.paymentStatus); }
  }

  /** With no comma in any text field, a line splits back into its eleven cells. */
  lemma CsvLineSplitsIntoCells(o: PurchaseOrder)
    requires TextFieldsAvoid(o, ',')
    ensures Split(Join(CsvRow(o), ','), ',') == CsvRow(o)
  {
    SplitJoin(CsvRow(o), ',');
  }

  /** There is no quoting: a comma in the supplier's name splits its cell, so
      the line no longer reads back as the order's cells. */
  lemma CommaInNameBreaksTheLine(o: PurchaseOrder)
    requires ',' in o.supplierName
    ensures Split(Join(CsvRow(o), ','), ',') != CsvRow(o)
  {
    var cells := Split(Join(CsvRow(o), ','), ',');
    SplitPiecesAvoidSeparator(Join(CsvRow(o), ','), ',');
    assert CsvRow(o)[1] == o.supplierName;
  }

  /** The store half of `handleSubmit`: nothing for an unknown supplier;
      otherwise the edited order is overwritten with the form, or the form is
      added as a new order under `newId`. Reports whether the supplier was found. */
  method SaveForm(store: DataStore, f: OrderForm, editing: Option<PurchaseOrder>, newId: string)
    returns (found: bool)
    requires newId !in Ids(store.purchaseOrders, PurchaseOrderId)
    modifies store
    ensures var s := FindSupplier(old(store.suppliers), f.supplierId);
      && (found <==> s.Some?)
      && (s.None? ==> store.Snapshot() == old(store.Snapshot()))
      && (s.Some? && editing.Some? ==>
            store.Snapshot() == Apply(old(store.Snapshot()), PurchaseOrderUpdated(editing.value.id, FormPatch(f, s.value.name))))
      && (s.Some? && editing.None? ==>
            store.Snapshot() == Apply(old(store.Snapshot()), PurchaseOrderAdded(FormOrder(f, s.value.name), newId)))
  {
    var s := FindSupplier(store.suppliers, f.supplierId);
    found := s.Some?;
    if s.None? {
      return;
    }
    match editing {
      case Some(o) => store.UpdatePurchaseOrder(o.id, FormPatch(f, s.value.name));
      case None => store.AddPurchaseOrder(FormOrder(f, s.value.name), newId);
    }
  }

  // ---------------------------------------------------------------------------
  // The screen's state

  class PurchaseOrdersView {
    var searchTerm: string
    var statusFilter: Choice<PurchaseStatus>
    var paymentFilter: Choice<PaymentStatus>
    var sortKey: SortKey
    var currentPage: int
    var pageSize: nat
    var form: OrderForm
    var editingOrder: Option<PurchaseOrder>
    var payingOrder: Option<PurchaseOrder>
    var payAmount: int

    predicate Valid()
      reads this
    {
      currentPage >= 1 && pageSize >= 1
    }

    /** The list's controls: search, both filters, sort key, page and page size. */
    function Controls(): (string, Choice<PurchaseStatus>, Choice<PaymentStatus>, SortKey, int, nat)
      reads this
    {
      (searchTerm, statusFilter, paymentFilter, sortKey, currentPage, pageSize)
    }

    /** The payment dialog: the order it is open for and the amount typed. */
    function Dialog(): (Option<PurchaseOrder>, int)
      reads this
    {
      (payingOrder, payAmount)
    }

    /** The orders as listed, over all pages. */
    function Listed(orders: seq<PurchaseOrder>): seq<PurchaseOrder>
      reads this
    {
      SortedOrders(FilteredOrders(orders, searchTerm, statusFilter, paymentFilter), sortKey)
    }

    function PageCount(orders: seq<PurchaseOrder>): nat
      reads this
      requires Valid()
    {
      TotalPages(|Listed(orders)|, pageSize)
    }

    /** `paginatedOrders`. */
    function Shown(orders: seq<PurchaseOrder>): seq<PurchaseOrder>
      reads this
      requires Valid()
    {
      PageOf(Listed(orders), currentPage, pageSize)
    }

    /** The exported text lists the sorted orders of every page. */
    function ExportCsv(orders: seq<PurchaseOrder>): string
      reads this
    {
      Csv(Listed(orders))
    }

    constructor (today: string)
      ensures Valid() && currentPage == 1 && pageSize == 10 && sortKey == DateDesc
      ensures searchTerm == "" && statusFilter == All && paymentFilter == All
      ensures form == DefaultForm(today) && editingOrder == None && payingOrder == None && payAmount == 0
    {
      searchTerm := "";
      statusFilter := All;
      paymentFilter := All;
      sortKey := DateDesc;
      currentPage := 1;
      pageSize := 10;
      form := DefaultForm(today);
      editingOrder := None;
      payingOrder := None;
      payAmount := 0;
    }

    /** Typing in the search box does not move back to page 1. */
    method SetSearchTerm(t: string)
      modifies this
      ensures searchTerm == t
      ensures currentPage == old(currentPage) && pageSize == old(pageSize) && sortKey == old(sortKey)
      ensures statusFilter == old(statusFilter) && paymentFilter == old(paymentFilter)
      ensures form == old(form) && editingOrder == old(editingOrder) && Dialog() == old(Dialog())
    {
      searchTerm := t;
    }

    method SetStatusFilter(c: Choice<PurchaseStatus>)
      modifies this
      ensures statusFilter == c && currentPage == old(currentPage) && searchTerm == old(searchTerm)
      ensures paymentFilter == old(paymentFilter) && sortKey == old(sortKey) && pageSize == old(pageSize)
      ensures form == old(form) && editingOrder == old(editingOrder) && Dialog() == old(Dialog())
    {
      statusFilter := c;
    }

    method SetPaymentFilter(c: Choice<PaymentStatus>)
      modifies this
      ensures paymentFilter == c && currentPage == old(currentPage) && searchTerm == old(searchTerm)
      ensures statusFilter == old(statusFilter) && sortKey == old(sortKey) && pageSize == old(pageSize)
      ensures form == old(form) && editingOrder == old(editingOrder) && Dialog() == old(Dialog())
    {
      paymentFilter := c;
    }

    /** Choosing a sort order returns to page 1. */
    method SetSortKey(k: SortKey)
      requires Valid()
      modifies this
      ensures Valid() && sortKey == k && currentPage == 1
      ensures searchTerm == old(searchTerm) && statusFilter == old(statusFilter)
      ensures paymentFilter == old(paymentFilter) && pageSize == old(pageSize)
      ensures form == old(form) && editingOrder == old(editingOrder) && Dialog() == old(Dialog())
    {
      sortKey := k;
      currentPage := 1;
    }

    /** Choosing a page size (10, 20 or 50) returns to page 1. */
    method SetPageSize(n: nat)
      requires n == 10 || n == 20 || n == 50
      modifies this
      ensures Valid() && pageSize == n && currentPage == 1
      ensures searchTerm == old(searchTerm) && statusFilter == old(statusFilter)
      ensures paymentFilter == old(paymentFilter) && sortKey == old(sortKey)
      ensures form == old(form) && editingOrder == old(editingOrder) && Dialog() == old(Dialog())
    {
      pageSize := n;
      currentPage := 1;
    }

    method Prev()
      requires Valid()
      modifies this
      ensures Valid() && currentPage == Paging.PrevPage(old(currentPage)) && pageSize == old(pageSize)
      ensures searchTerm == old(searchTerm) && statusFilter == old(statusFilter)
      ensures paymentFilter == old(paymentFilter) && sortKey == old(sortKey)
      ensures form == old(form) && editingOrder == old(editingOrder) && Dialog() == old(Dialog())
    {
      currentPage := Paging.PrevPage(currentPage);
    }

    method Next(orders: seq<PurchaseOrder>)
      requires Valid()
      modifies this
      ensures Valid() && pageSize == old(pageSize)
      ensures currentPage == Paging.NextPage(old(currentPage), old(PageCount(orders)))
      ensures old(currentPage) <= old(PageCount(orders)) ==> currentPage <= PageCount(orders)
      ensures searchTerm == old(searchTerm) && statusFilter == old(statusFilter)
      ensures paymentFilter == old(paymentFilter) && sortKey == old(sortKey)
      ensures form == old(form) && editingOrder == old(editingOrder) && Dialog() == old(Dialog())
    {
      currentPage := Paging.NextPage(currentPage, PageCount(orders));
    }

    method Edit(o: PurchaseOrder)
      modifies this
      ensures form == FormOf(o) && editingOrder == Some(o)
      ensures Controls() == old(Controls()) && Dialog() == old(Dialog()) && Valid() == old(Valid())
    {
      form := FormOf(o);
      editingOrder := Some(o);
    }

    method ResetForm(today: string)
      modifies this
      ensures form == DefaultForm(today) && editingOrder == None
      ensures Controls() == old(Controls()) && Dialog() == old(Dialog()) && Valid() == old(Valid())
    {
      form := DefaultForm(today);
      editingOrder := None;
    }

    /** The rice-type select offers only catalogue types. */
    method SetRiceType(t: string)
      requires t in RiceTypes
      modifies this
      ensures form == WithRiceType(old(form), t) && form.grade in GradesOf(t)
      ensures editingOrder == old(editingOrder)
      ensures Controls() == old(Controls()) && Dialog() == old(Dialog()) && Valid() == old(Valid())
    {
      form := WithRiceType(form, t);
    }

    method SetQuantity(q: int)
      modifies this
      ensures form == WithQuantity(old(form), q)
      ensures editingOrder == old(editingOrder)
      ensures Controls() == old(Controls()) && Dialog() == old(Dialog()) && Valid() == old(Valid())
    {
      form := WithQuantity(form, q);
    }

    /** `handleSubmit`: nothing for an unknown supplier; otherwise the order is
        added under `newId` or the edited order is overwritten, and the form resets. */
    method Submit(store: DataStore, newId: string, today: string)
      requires newId !in Ids(store.purchaseOrders, PurchaseOrderId)
      modifies this, store
      ensures var s := FindSupplier(old(store.suppliers), old(form).supplierId);
        && (s.None? ==> store.Snapshot() == old(store.Snapshot()) && form == old(form) && editingOrder == old(editingOrder))
        && (s.Some? && old(editingOrder).Some? ==>
              store.Snapshot() == Apply(old(store.Snapshot()),
                                        PurchaseOrderUpdated(old(editingOrder).value.id, FormPatch(old(form), s.value.name))))
        && (s.Some? && old(editingOrder).None? ==>
              store.Snapshot() == Apply(old(store.Snapshot()), PurchaseOrderAdded(FormOrder(old(form), s.value.name), newId)))
        && (s.Some? ==> form == DefaultForm(today) && editingOrder == None)
      ensures Controls() == old(Controls()) && Dialog() == old(Dialog()) && Valid() == old(Valid())
    {
      var found := SaveForm(store, form, editingOrder, newId);
      if found {
        ResetForm(today);
      }
    }

    /** `openPaymentModal`: the amount starts at what is still owed. */
    method OpenPaymentModal(o: PurchaseOrder)
      modifies this
      ensures payingOrder == Some(o) && payAmount == Due(o)
      ensures form == old(form) && editingOrder == old(editingOrder)
      ensures Controls() == old(Controls()) && Valid() == old(Valid())
    {
      payingOrder := Some(o);
      payAmount := Due(o);
    }

    method SetPayAmount(a: int)
      modifies this
      ensures payAmount == a && payingOrder == old(payingOrder)
      ensures form == old(form) && editingOrder == old(editingOrder)
      ensures Controls() == old(Controls()) && Valid() == old(Valid())
    {
      payAmount := a;
    }

    /** `submitPayment`: records the payment on the order the dialog was opened
        for, then closes the dialog; without an open dialog, nothing happens. */
    method SubmitPayment(store: DataStore)
      modifies this, store
      ensures old(payingOrder).None? ==> store.Snapshot() == old(store.Snapshot()) && payAmount == old(payAmount)
      ensures old(payingOrder).Some? ==>
        store.Snapshot() == Apply(old(store.Snapshot()),
                                  PurchaseOrderUpdated(old(payingOrder).value.id, PaymentPatch(old(payingOrder).value, old(payAmount))))
        && payAmount == 0
      ensures payingOrder == None && form == old(form) && editingOrder == old(editingOrder)
      ensures Controls() == old(Controls()) && Valid() == old(Valid())
    {
      if payingOrder.None? {
        return;
      }
      store.UpdatePurchaseOrder(payingOrder.value.id, PaymentPatch(payingOrder.value, payAmount));
      payingOrder := None;
      payAmount := 0;
    }

    /** `markReceived`: an order not yet received becomes received; otherwise nothing. */
    method MarkReceived(store: DataStore, o: PurchaseOrder)
      modifies store
      ensures o.status == Received ==> store.Snapshot() == old(store.Snapshot())
      ensures o.status != Received ==>
        store.Snapshot() == Apply(old(store.Snapshot()), PurchaseOrderUpdated(o.id, MarkReceivedPatch))
    {
      if o.status != Received {
        store.UpdatePurchaseOrder(o.id, MarkReceivedPatch);
      }
    }
  }

  /** A search typed on a later page is not sent back to page 1, so the page
      shown can be empty although orders match. */
  lemma StalePageCanBeEmpty(o: PurchaseOrder)
    requires o.supplierName == "x" && o.riceType == "x"
    ensures var listed := SortedOrders(FilteredOrders([o], "x", All, All), DateDesc);
            |listed| == 1 && PageOf(listed, 2, 10) == []
  {
    assert Lower("x") == "x";
    assert Contains("x", "x");
  }
}
