/** The customer cards (`Customers.tsx`): credit utilisation, its colour bands
    and bar, and the add/edit form. */
module Customers {
  import opened Wrappers
  import opened Domain
  import opened Store

  // ---------------------------------------------------------------------------
  // Credit utilisation

  /** `getCreditUtilization`: the balance as a percentage of the credit limit,
      0 when there is no limit; nothing clamps it. */
  function Utilisation(balance: int, creditLimit: int): (u: real)
    ensures creditLimit == 0 ==> u == 0.0
    ensures creditLimit != 0 ==> u * (creditLimit as real) == (balance as real) * 100.0
  {
    if creditLimit == 0 then 0.0 else (balance as real / creditLimit as real) * 100.0
  }

  /** Against a positive limit, utilisation grows with the balance. */
  lemma UtilisationMonotone(b1: int, b2: int, creditLimit: int)
    requires creditLimit > 0 && b1 <= b2
    ensures Utilisation(b1, creditLimit) <= Utilisation(b2, creditLimit)
  {
    var l := creditLimit as real;
    assert b1 as real / l <= b2 as real / l;
  }

  /** A balance over the limit gives more than 100%, a negative balance less
      than 0%, and a balance at the limit exactly 100%. */
  lemma UtilisationIsUnclamped(balance: int, creditLimit: int)
    requires creditLimit > 0
    ensures balance > creditLimit ==> Utilisation(balance, creditLimit) > 100.0
    ensures balance < 0 ==> Utilisation(balance, creditLimit) < 0.0
    ensures balance == creditLimit ==> Utilisation(balance, creditLimit) == 100.0
  {
    PercentOf(Utilisation(balance, creditLimit), balance as real, creditLimit as real);
  }

  /** Reading `u` off `u × l == b × 100` for a positive `l`. */
  lemma PercentOf(u: real, b: real, l: real)
    requires l > 0.0 && u * l == b * 100.0
    ensures b > l ==> u > 100.0
    ensures b < 0.0 ==> u < 0.0
    ensures b == l ==> u == 100.0
  {
    assert (u - 100.0) * l == (b - l) * 100.0;
    SignOfProduct(u - 100.0, l);
    SignOfProduct(u, l);
  }

  /** A positive factor keeps the sign. */
  lemma SignOfProduct(x: real, l: real)
    requires l > 0.0
    ensures x > 0.0 <==> x * l > 0.0
    ensures x < 0.0 <==> x * l < 0.0
  {
    if x > 0.0 {
      assert x * l > 0.0;
    } else if x < 0.0 {
      assert (-x) * l > 0.0;
    } else {
      assert x * l == 0.0;
    }
  }

  /** `getCreditColor`. */
  function CreditTone(u: real): (t: Tone)
    ensures t == Red <==> u >= 90.0
    ensures t == Orange <==> 70.0 <= u < 90.0
    ensures t == Green <==> u < 70.0
  {
    if u >= 90.0 then Red else if u >= 70.0 then Orange else Green
  }

  /** The bar's colour, written out separately in the card. */
  function BarTone(u: real): Tone
  {
    if u >= 90.0 then Red else if u >= 70.0 then Orange else Green
  }

  /** The bar and the percentage always have the same colour. */
  lemma BarMatchesText(u: real)
    ensures BarTone(u) == CreditTone(u)
  {
  }

  /** A higher utilisation never has a calmer colour. */
  lemma ToneMonotone(u: real, v: real)
    requires u <= v
    ensures CreditTone(u) == Red ==> CreditTone(v) == Red
    ensures CreditTone(u) == Orange ==> CreditTone(v) != Green
  {
  }

  /** `Math.min(utilisation, 100)`: the bar never overflows its track, and is
      exact up to 100%. */
  function BarWidth(u: real): (w: real)
    ensures w <= 100.0 && w <= u
    ensures u <= 100.0 ==> w == u
    ensures u > 100.0 ==> w == 100.0
  {
    if u < 100.0 then u else 100.0
  }

  /** A customer over their limit shows a full red bar. */
  lemma OverLimitIsFullAndRed(c: Customer)
    requires c.creditLimit > 0 && c.balance > c.creditLimit
    ensures BarWidth(Utilisation(c.balance, c.creditLimit)) == 100.0
    ensures CreditTone(Utilisation(c.balance, c.creditLimit)) == Red
  {
    UtilisationIsUnclamped(c.balance, c.creditLimit);
  }

  // ---------------------------------------------------------------------------
  // The add/edit form

  /** The seven fields of the form (`formData`). */
  datatype CustomerFields = CustomerFields(
    name: string, contact: string, address: string, phone: string, email: string,
    creditLimit: int, status: ActiveStatus)

  const EmptyFields := CustomerFields("", "", "", "", "", 0, Active)

  /** `handleEdit` loads these fields of a customer. */
  function FieldsOf(c: Customer): CustomerFields
  {
    CustomerFields(c.name, c.contact, c.address, c.phone, c.email, c.creditLimit, c.status)
  }

  /** The record an add stores (before the store gives it an id): the form and a zero balance. */
  function NewCustomer(f: CustomerFields): (c: Customer)
    ensures FieldsOf(c) == f && c.balance == 0
  {
    Customer("", f.name, f.contact, f.address, f.phone, f.email, 0, f.creditLimit, f.status)
  }

  /** The partial record an edit passes: the seven fields and nothing else. */
  function EditPatch(f: CustomerFields): CustomerPatch
  {
    NoCustomerChange.(name := Some(f.name), contact := Some(f.contact), address := Some(f.address),
                      phone := Some(f.phone), email := Some(f.email), creditLimit := Some(f.creditLimit),
                      status := Some(f.status))
  }

  /** An edit replaces the seven fields and keeps the id and the balance. */
  lemma EditKeepsBalance(c: Customer, f: CustomerFields)
    ensures FieldsOf(MergeCustomer(c, EditPatch(f))) == f
    ensures MergeCustomer(c, EditPatch(f)).id == c.id
    ensures MergeCustomer(c, EditPatch(f)).balance == c.balance
  {
  }

  /** Saving an edit without changing the fields leaves the customer as it was. */
  lemma UntouchedEditIsNoOp(c: Customer)
    ensures MergeCustomer(c, EditPatch(FieldsOf(c))) == c
  {
  }

  class CustomersView {
    var form: CustomerFields
    var editing: Option<Customer>

    constructor ()
      ensures form == EmptyFields && editing == None
    {
      form := EmptyFields;
      editing := None;
    }

    method Edit(c: Customer)
      modifies this
      ensures form == FieldsOf(c) && editing == Some(c)
    {
      form := FieldsOf(c);
      editing := Some(c);
    }

    method ResetForm()
      modifies this
      ensures form == EmptyFields && editing == None
    {
      form := EmptyFields;
      editing := None;
    }

    /** `handleSubmit`: updates the customer being edited with the seven fields,
        or adds a new one under `newId`; the form then resets. */
    method Submit(store: DataStore, newId: string)
      requires newId !in Ids(store.customers, CustomerId)
      modifies this, store
      ensures old(editing).Some? ==>
        store.Snapshot() == Apply(old(store.Snapshot()), CustomerUpdated(old(editing).value.id, EditPatch(old(form))))
      ensures old(editing).None? ==>
        store.Snapshot() == Apply(old(store.Snapshot()), CustomerAdded(NewCustomer(old(form)), newId))
      ensures form == EmptyFields && editing == None
    {
      if editing.Some? {
        store.UpdateCustomer(editing.value.id, EditPatch(form));
      } else {
        store.AddCustomer(NewCustomer(form), newId);
      }
      form := EmptyFields;
      editing := None;
    }
  }
}
