/** The supplier list (`Suppliers.tsx`): a search over six fields, pagination
    with a clamped page number, and the quick add/edit form. */
module Suppliers {
  import opened Wrappers
  import opened Seqs
  import opened Text
  import opened Paging
  import opened Domain
  import opened Store

  // ---------------------------------------------------------------------------
  // Search

  function ActiveText(s: ActiveStatus): string
  {
    match s
    case Active => "active"
    case Inactive => "inactive"
  }

  /** The six texts the search looks in. */
  function SearchFields(s: Supplier): seq<string>
  {
    [s.name, s.contact, s.address, s.phone, s.email, ActiveText(s.status)]
  }

  /** `doesSupplierMatchSearch`: a blank term matches everyone; otherwise one of
      the six fields, lowercased, contains the lowercased term (untrimmed). */
  function MatchesSearch(s: Supplier, term: string): (r: bool)
    ensures IsBlank(term) ==> r
    ensures !IsBlank(term) ==> (r <==> exists f :: f in SearchFields(s) && Contains(Lower(f), Lower(term)))
  {
    TrimEmptyIffBlank(term);
    FieldHit(s, Lower(term));
    Trim(term) == [] ||
    var needle := Lower(term);
    || Contains(Lower(s.name), needle)
    || Contains(Lower(s.contact), needle)
    || Contains(Lower(s.address), needle)
    || Contains(Lower(s.phone), needle)
    || Contains(Lower(s.email), needle)
    || Contains(Lower(ActiveText(s.status)), needle)
  }

  lemma FieldHit(s: Supplier, needle: string)
    ensures (|| Contains(Lower(s.name), needle)
             || Contains(Lower(s.contact), needle)
             || Contains(Lower(s.address), needle)
             || Contains(Lower(s.phone), needle)
             || Contains(Lower(s.email), needle)
             || Contains(Lower(ActiveText(s.status)), needle))
            <==> exists f :: f in SearchFields(s) && Contains(Lower(f), needle)
  {
    var fields := SearchFields(s);
    if exists f :: f in fields && Contains(Lower(f), needle) {
      var f :| f in fields && Contains(Lower(f), needle);
      assert f == s.name || f == s.contact || f == s.address || f == s.phone || f == s.email
          || f == ActiveText(s.status);
    }
    assert fields[0] == s.name && fields[1] == s.contact && fields[2] == s.address;
    assert fields[3] == s.phone && fields[4] == s.email && fields[5] == ActiveText(s.status);
  }

  /** Searching for "active" finds every supplier: "inactive" contains it too. */
  lemma ActiveMatchesEveryone(s: Supplier)
    ensures MatchesSearch(s, "active")
  {
    StatusTextContainsActive(s.status);
  }

  /** Both status texts, lower-cased, contain the lower-cased "active". */
  lemma StatusTextContainsActive(st: ActiveStatus)
    ensures Contains(Lower(ActiveText(st)), Lower("active"))
  {
    LowerOfLowercase("active");
    if st == Active {
      assert IsPrefix("active", "active");
    } else {
      LowerOfLowercase("inactive");
      assert OccursAt("inactive", "active", 2);
      ContainsIffOccurs("inactive", "active");
    }
  }

  /** Lower-casing only touches letters, so a term and its lower-case form are
      equally blank. */
  lemma LowerKeepsBlankness(term: string)
    ensures IsBlank(Lower(term)) <==> IsBlank(term)
  {
    forall i | 0 <= i < |term| ensures IsWhitespace(Lower(term)[i]) <==> IsWhitespace(term[i]) {
      LowerCharKeepsWhitespace(term[i]);
    }
  }

  /** The search does not depend on the case of the term. */
  lemma SearchIgnoresCase(s: Supplier, term: string)
    ensures MatchesSearch(s, Lower(term)) <==> MatchesSearch(s, term)
  {
    LowerKeepsBlankness(term);
    TrimEmptyIffBlank(term);
    TrimEmptyIffBlank(Lower(term));
    LowerIdempotent(term);
  }

  function SearchBy(term: string): Supplier -> bool
  {
    s => MatchesSearch(s, term)
  }

  /** `filteredSuppliers`: the matching suppliers, in store order. */
  function FilteredSuppliers(suppliers: seq<Supplier>, term: string): (r: seq<Supplier>)
    ensures IsSubsequence(r, suppliers)
    ensures forall s :: s in r <==> s in suppliers && MatchesSearch(s, term)
  {
    Filter(suppliers, SearchBy(term))
  }

  /** With a blank search box the whole list is shown. */
  lemma BlankSearchListsEveryone(suppliers: seq<Supplier>, term: string)
    requires IsBlank(term)
    ensures FilteredSuppliers(suppliers, term) == suppliers
  {
    forall i | 0 <= i < |suppliers| ensures SearchBy(term)(suppliers[i]) {
      assert MatchesSearch(suppliers[i], term);
    }
    FilterKeepsAll(suppliers, SearchBy(term));
  }

  // ---------------------------------------------------------------------------
  // The quick add/edit form

  /** The six fields of the list's form (`formData`). */
  datatype SupplierFields = SupplierFields(
    name: string, contact: string, address: string, phone: string, email: string, status: ActiveStatus)

  const EmptyFields := SupplierFields("", "", "", "", "", Active)

  /** `handleEdit` loads these fields of a supplier. */
  function FieldsOf(s: Supplier): SupplierFields
  {
    SupplierFields(s.name, s.contact, s.address, s.phone, s.email, s.status)
  }

  /** The record a quick add stores (before the store gives it an id): the form
      with a zero balance and none of the optional details. */
  function NewSupplier(f: SupplierFields): (s: Supplier)
    ensures FieldsOf(s) == f && s.balance == 0
    ensures s.openingBalance.None? && s.creditLimit.None? && s.supplierCode.None?
  {
    Supplier("", f.name, f.contact, f.address, f.phone, f.email, 0, f.status,
             None, None, None, None, None, None, None, None, None, None)
  }

  /** The partial record an edit passes: the six fields and nothing else. */
  function EditPatch(f: SupplierFields): SupplierPatch
  {
    NoSupplierChange.(name := Some(f.name), contact := Some(f.contact), address := Some(f.address),
                      phone := Some(f.phone), email := Some(f.email), status := Some(f.status))
  }

  /** An edit replaces the six fields and keeps the id, the balance and every
      detail the wizard recorded. */
  lemma EditKeepsTheRest(s: Supplier, f: SupplierFields)
    ensures FieldsOf(MergeSupplier(s, EditPatch(f))) == f
    ensures MergeSupplier(s, EditPatch(f)) == s.(name := f.name, contact := f.contact, address := f.address,
                                                 phone := f.phone, email := f.email, status := f.status)
  {
  }

  /** Saving an edit without changing the fields leaves the supplier as it was. */
  lemma UntouchedEditIsNoOp(s: Supplier)
    ensures MergeSupplier(s, EditPatch(FieldsOf(s))) == s
  {
  }

  // ---------------------------------------------------------------------------
  // The screen's state

  class SuppliersView {
    var searchTerm: string
    var currentPage: int
    var pageSize: nat
    var form: SupplierFields
    var editing: Option<Supplier>

    predicate Valid()
      reads this
    {
      currentPage >= 1 && pageSize >= 1
    }

    function Listed(suppliers: seq<Supplier>): seq<Supplier>
      reads this
    {
      FilteredSuppliers(suppliers, searchTerm)
    }

    function PageCount(suppliers: seq<Supplier>): nat
      reads this
      requires Valid()
    {
      TotalPages(|Listed(suppliers)|, pageSize)
    }

    /** `paginatedSuppliers`. */
    function Shown(suppliers: seq<Supplier>): seq<Supplier>
      reads this
      requires Valid()
    {
      PageOf(Listed(suppliers), currentPage, pageSize)
    }

    constructor ()
      ensures Valid() && searchTerm == "" && currentPage == 1 && pageSize == 9
      ensures form == EmptyFields && editing == None
    {
      searchTerm := "";
      currentPage := 1;
      pageSize := 9;
      form := EmptyFields;
      editing := None;
    }

    /** `handleChangePage`: any requested page is brought into range, so a
        non-empty result always shows something. */
    method ChangePage(suppliers: seq<Supplier>, requested: int)
      requires Valid()
      modifies this
      ensures Valid() && pageSize == old(pageSize) && searchTerm == old(searchTerm)
      ensures currentPage == ClampPage(requested, PageCount(suppliers))
      ensures Listed(suppliers) != [] ==> Shown(suppliers) != []
      ensures form == old(form) && editing == old(editing)
    {
      currentPage := ClampPage(requested, PageCount(suppliers));
      if Listed(suppliers) != [] {
        PagesInRangeAreNonEmpty(Listed(suppliers), pageSize, currentPage);
      }
    }

    /** `handleSearchChange`: a new term goes back to page 1. */
    method SetSearchTerm(t: string)
      requires Valid()
      modifies this
      ensures Valid() && searchTerm == t && currentPage == 1 && pageSize == old(pageSize)
      ensures form == old(form) && editing == old(editing)
    {
      searchTerm := t;
      currentPage := 1;
    }

    /** The page-size select (6, 9, 12 or 24) goes back to page 1. */
    method SetPageSize(n: nat)
      requires n == 6 || n == 9 || n == 12 || n == 24
      modifies this
      ensures Valid() && pageSize == n && currentPage == 1 && searchTerm == old(searchTerm)
      ensures form == old(form) && editing == old(editing)
    {
      pageSize := n;
      currentPage := 1;
    }

    method Edit(s: Supplier)
      modifies this
      ensures form == FieldsOf(s) && editing == Some(s)
      ensures searchTerm == old(searchTerm) && currentPage == old(currentPage) && pageSize == old(pageSize)
    {
      form := FieldsOf(s);
      editing := Some(s);
    }

    method ResetForm()
      modifies this
      ensures form == EmptyFields && editing == None
      ensures searchTerm == old(searchTerm) && currentPage == old(currentPage) && pageSize == old(pageSize)
    {
      form := EmptyFields;
      editing := None;
    }

    /** `handleSubmit`: updates the supplier being edited with the six fields,
        or adds a new one under `newId`; the form then resets. */
    method Submit(store: DataStore, newId: string)
      requires newId !in Ids(store.suppliers, SupplierId)
      modifies this, store
      ensures old(editing).Some? ==>
        store.Snapshot() == Apply(old(store.Snapshot()), SupplierUpdated(old(editing).value.id, EditPatch(old(form))))
      ensures old(editing).None? ==>
        store.Snapshot() == Apply(old(store.Snapshot()), SupplierAdded(NewSupplier(old(form)), newId))
      ensures form == EmptyFields && editing == None
      ensures searchTerm == old(searchTerm) && currentPage == old(currentPage) && pageSize == old(pageSize)
    {
      if editing.Some? {
        store.UpdateSupplier(editing.value.id, EditPatch(form));
      } else {
        store.AddSupplier(NewSupplier(form), newId);
      }
      form := EmptyFields;
      editing := None;
    }
  }
}
