/** The three-step supplier wizard (`SupplierFormPage.tsx`): step guards on
    the basic and address fields, the generated supplier code, and the record
    it saves. */
module SupplierForm {
  import opened Wrappers
  import opened Text
  import opened Domain
  import opened Store

  /** The wizard's fields (`formData`). */
  datatype WizardForm = WizardForm(
    name: string,
    contact: string,
    phone: string,
    email: string,
    address: string,
    city: string,
    district: string,
    postalCode: string,
    binVat: string,
    tin: string,
    paymentTerms: string,
    openingBalance: int,
    creditLimit: int,
    notes: string,
    status: ActiveStatus)

  const EmptyWizardForm := WizardForm("", "", "", "", "", "", "", "", "", "", "Net 30", 0, 0, "", Active)

  // ---------------------------------------------------------------------------
  // Step guards

  /** A field counts as filled when its trimmed text is non-empty (a truthy
      string), that is, when it is not blank. */
  function Filled(s: string): (r: bool)
    ensures r <==> !IsBlank(s)
  {
    TrimEmptyIffBlank(s);
    |Trim(s)| > 0
  }

  /** `canProceedStep1`: name, contact and phone are all filled. */
  function CanProceedStep1(f: WizardForm): (r: bool)
    ensures r <==> !IsBlank(f.name) && !IsBlank(f.contact) && !IsBlank(f.phone)
  {
    Filled(f.name) && Filled(f.contact) && Filled(f.phone)
  }

  /** `canProceedStep2`: the address is filled. */
  function CanProceedStep2(f: WizardForm): (r: bool)
    ensures r <==> !IsBlank(f.address)
  {
    Filled(f.address)
  }

  /** The empty form cannot leave step 1. */
  lemma EmptyFormIsStuck()
    ensures !CanProceedStep1(EmptyWizardForm)
  {
    assert Trim("") == [];
  }

  // ---------------------------------------------------------------------------
  // Supplier code

  /** `generateSupplierCode` for the drawn number `n` (0 to 9999): `SUP-` and
      the number padded with zeros to four digits. */
  function SupplierCode(n: nat): (code: string)
    requires n < 10000
    ensures |code| == 8 && code[..4] == "SUP-"
    ensures AllDigits(code[4..]) && DigitsValue(code[4..]) == n
  {
    var digits := NatToString(n);
    assert Pow10(4) == 10000;
    NatToStringLength(n, 4);
    var padded := PadStart(digits, 4, '0');
    assert padded == padded[..4 - |digits|] + digits;
    DigitsValueLeadingZeros(padded[..4 - |digits|], digits);
    var code := "SUP-" + padded;
    assert code[4..] == padded;
    code
  }

  /** Different draws give different codes. */
  lemma SupplierCodeInjective(a: nat, b: nat)
    requires a < 10000 && b < 10000
    ensures SupplierCode(a) == SupplierCode(b) <==> a == b
  {
  }

  // ---------------------------------------------------------------------------
  // The saved record

  /** What `handleSubmit` adds (before the store gives it an id): every field of
      the form, the code, and a balance equal to the opening balance. */
  function WizardSupplier(f: WizardForm, code: string): (s: Supplier)
    ensures s.balance == f.openingBalance && s.openingBalance == Some(f.openingBalance)
    ensures s.supplierCode == Some(code)
  {
    Supplier("", f.name, f.contact, f.address, f.phone, f.email, f.openingBalance, f.status,
             Some(f.openingBalance), Some(f.creditLimit), Some(code), Some(f.binVat), Some(f.tin),
             Some(f.paymentTerms), Some(f.city), Some(f.district), Some(f.postalCode), Some(f.notes))
  }

  /** The details the wizard records, read back from a supplier. */
  predicate HasWizardDetails(s: Supplier)
  {
    s.openingBalance.Some? && s.creditLimit.Some? && s.binVat.Some? && s.tin.Some?
    && s.paymentTerms.Some? && s.city.Some? && s.district.Some? && s.postalCode.Some? && s.notes.Some?
  }

  function WizardFormOf(s: Supplier): WizardForm
    requires HasWizardDetails(s)
  {
    WizardForm(s.name, s.contact, s.phone, s.email, s.address, s.city.value, s.district.value,
               s.postalCode.value, s.binVat.value, s.tin.value, s.paymentTerms.value,
               s.openingBalance.value, s.creditLimit.value, s.notes.value, s.status)
  }

  /** Nothing typed into the wizard is lost: the form can be read back from
      the saved record. */
  lemma WizardKeepsEveryField(f: WizardForm, code: string)
    ensures HasWizardDetails(WizardSupplier(f, code))
    ensures WizardFormOf(WizardSupplier(f, code)) == f
  {
  }

  // ---------------------------------------------------------------------------
  // The wizard's state

  class SupplierWizard {
    var form: WizardForm
    var step: int

    /** The step is 1, 2 or 3, and a step past the first is reached only through
        the guards of the steps before it (each step's fields are editable only
        on that step). */
    predicate Valid()
      reads this
    {
      1 <= step <= 3
      && (step >= 2 ==> CanProceedStep1(form))
      && (step == 3 ==> CanProceedStep2(form))
    }

    constructor ()
      ensures Valid() && step == 1 && form == EmptyWizardForm
    {
      form := EmptyWizardForm;
      step := 1;
    }

    /** The inputs of step 1. */
    method SetBasics(name: string, contact: string, phone: string, email: string)
      requires Valid() && step == 1
      modifies this
      ensures Valid() && step == 1
      ensures form == old(form).(name := name, contact := contact, phone := phone, email := email)
    {
      form := form.(name := name, contact := contact, phone := phone, email := email);
    }

    /** The inputs of step 2. */
    method SetAddress(address: string, city: string, district: string, postalCode: string)
      requires Valid() && step == 2
      modifies this
      ensures Valid() && step == 2
      ensures form == old(form).(address := address, city := city, district := district, postalCode := postalCode)
    {
      form := form.(address := address, city := city, district := district, postalCode := postalCode);
    }

    /** The inputs of step 3. */
    method SetTerms(binVat: string, tin: string, paymentTerms: string, status: ActiveStatus,
                    openingBalance: int, creditLimit: int, notes: string)
      requires Valid() && step == 3
      modifies this
      ensures Valid() && step == 3
      ensures form == old(form).(binVat := binVat, tin := tin, paymentTerms := paymentTerms, status := status,
                                 openingBalance := openingBalance, creditLimit := creditLimit, notes := notes)
    {
      form := form.(binVat := binVat, tin := tin, paymentTerms := paymentTerms, status := status,
                    openingBalance := openingBalance, creditLimit := creditLimit, notes := notes);
    }

    /** "Next" exists below step 3 and is disabled while the step's guard fails. */
    method Next()
      requires Valid() && step < 3
      modifies this
      ensures Valid() && form == old(form)
      ensures old(step) == 1 ==> step == (if CanProceedStep1(form) then 2 else 1)
      ensures old(step) == 2 ==> step == (if CanProceedStep2(form) then 3 else 2)
    {
      var basicsDone, addressDone := CanProceedStep1(form), CanProceedStep2(form);
      if (step == 1 && basicsDone) || (step == 2 && addressDone) {
        step := step + 1;
      }
    }

    /** "Back" exists above step 1. */
    method Back()
      requires Valid() && step > 1
      modifies this
      ensures Valid() && form == old(form) && step == old(step) - 1
    {
      step := step - 1;
    }

    /** "Save Supplier", shown on step 3 only, adds the supplier under `newId`
        with the code for the drawn number `n`. `handleSubmit` itself checks no
        guard; the saved names are non-blank because step 3 is only reached
        through both guards. */
    method Submit(store: DataStore, newId: string, n: nat)
      requires Valid() && step == 3 && n < 10000
      requires newId !in Ids(store.suppliers, SupplierId)
      modifies store
      ensures store.Snapshot() == Apply(old(store.Snapshot()), SupplierAdded(WizardSupplier(form, SupplierCode(n)), newId))
      ensures CanProceedStep1(form) && CanProceedStep2(form)
    {
      store.AddSupplier(WizardSupplier(form, SupplierCode(n)), newId);
    }
  }
}
