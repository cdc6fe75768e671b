/** The purchase-order form shared by the order list and the full-page order
    form (`PurchaseOrderFormPage.tsx`): its fields, the rice catalogue, the
    amount and payment-status rules, and the page's own state and submit. */
module PurchaseOrderForm {
  import opened Wrappers
  import opened Seqs
  import opened Domain
  import opened Store

  /** The editable fields of an order (`formData`). */
  datatype OrderForm = OrderForm(
    supplierId: string,
    date: string,
    riceType: string,
    grade: string,
    bagSize: int,
    quantity: int,
    weightKg: int,
    pricePerKg: int,
    status: PurchaseStatus,
    paymentStatus: PaymentStatus,
    paidAmount: int)

  /** The initial and reset value of the form, dated `today`: a catalogue rice
      type with its first grade, and nothing yet that could be saved. */
  function DefaultForm(today: string): (r: OrderForm)
    ensures r.date == today && r.riceType in RiceTypes && r.grade == FirstGrade(r.riceType)
    ensures r.status == Pending && r.paymentStatus == Unpaid && r.paidAmount == 0
    ensures !CanSave(r)
  {
    OrderForm("", today, "Basmati", "1121", 50, 0, 0, 0, Pending, Unpaid, 0)
  }

  const RiceTypes: seq<string> := ["Basmati", "Sona Masuri", "IR64", "Ponni", "Jeera", "Other"]

  /** The grades offered for a rice type: at least one for each type of the
      catalogue, none for a type outside it. */
  function GradesOf(riceType: string): (r: seq<string>)
    ensures |r| >= 1 <==> riceType in RiceTypes
  {
    match riceType
    case "Basmati" => ["1121", "Pusa", "Traditional"]
    case "Sona Masuri" => ["Premium", "Standard"]
    case "IR64" => ["Standard", "Parboiled"]
    case "Ponni" => ["Raw", "Parboiled"]
    case "Jeera" => ["Premium"]
    case "Other" => ["Grade A", "Grade B"]
    case _ => []
  }

  /** `grades[t]?.[0] || ''`. */
  function FirstGrade(riceType: string): (g: string)
    ensures GradesOf(riceType) != [] ==> g == GradesOf(riceType)[0] && g in GradesOf(riceType)
    ensures GradesOf(riceType) == [] ==> g == ""
  {
    var gs := GradesOf(riceType);
    if gs == [] then "" else gs[0]
  }

  /** `weightKg * pricePerKg`: never negative for non-negative weight and
      price, and 0 when either is 0. */
  function TotalAmount(f: OrderForm): (r: int)
    ensures f.weightKg >= 0 && f.pricePerKg >= 0 ==> r >= 0
    ensures f.weightKg == 0 || f.pricePerKg == 0 ==> r == 0
  {
    f.weightKg * f.pricePerKg
  }

  /** `paid >= total ? 'paid' : (paid > 0 ? 'partial' : 'pending')`. */
  function PaymentStatusFor(paid: int, total: int): (s: PaymentStatus)
    ensures s == Paid <==> paid >= total
    ensures s == Partial <==> total > paid > 0
    ensures s == Unpaid <==> paid < total && paid <= 0
  {
    if paid >= total then Paid else if paid > 0 then Partial else Unpaid
  }

  /** Paying more never gives a lower status. */
  lemma PaymentStatusMonotone(paid: int, more: int, total: int)
    requires paid <= more
    ensures PaymentStatusFor(paid, total) == Paid ==> PaymentStatusFor(more, total) == Paid
    ensures PaymentStatusFor(paid, total) == Partial ==> PaymentStatusFor(more, total) != Unpaid
  {
  }

  /** An order whose total is 0 counts as paid with nothing paid. */
  lemma ZeroTotalIsPaid()
    ensures PaymentStatusFor(0, 0) == Paid
  {
  }

  /** "Save Order" is enabled: supplier and date chosen, every quantity
      positive, so the total is positive as well. */
  function CanSave(f: OrderForm): (r: bool)
    ensures r ==> TotalAmount(f) > 0
  {
    if f.supplierId != "" && f.date != "" && f.quantity > 0 && f.bagSize > 0 && f.weightKg > 0 && f.pricePerKg > 0 then
      assert f.weightKg * f.pricePerKg >= f.weightKg * 1;
      true
    else
      false
  }

  /** With Save enabled the total is positive, so an order saved with nothing
      paid is pending, never paid. */
  lemma SaveableOrdersHavePositiveTotal(f: OrderForm)
    requires CanSave(f)
    ensures TotalAmount(f) > 0
    ensures f.paidAmount <= 0 ==> PaymentStatusFor(f.paidAmount, TotalAmount(f)) == Unpaid
  {
    assert f.weightKg * f.pricePerKg >= f.weightKg * 1;
  }

  /** The rice-type select: the grade follows the new type. */
  function WithRiceType(f: OrderForm, t: string): (r: OrderForm)
    ensures r.riceType == t
    ensures t in RiceTypes ==> r.grade in GradesOf(t)
    ensures t !in RiceTypes ==> r.grade == ""
    ensures r.(riceType := f.riceType, grade := f.grade) == f
  {
    f.(riceType := t, grade := FirstGrade(t))
  }

  /** The quantity input: the weight is recomputed from the bag size. */
  function WithQuantity(f: OrderForm, q: int): (r: OrderForm)
    ensures r.quantity == q && r.weightKg == q * f.bagSize
    ensures r.(quantity := f.quantity, weightKg := f.weightKg) == f
  {
    f.(quantity := q, weightKg := q * f.bagSize)
  }

  /** `suppliers.find(s => s.id === supplierId)`. */
  function FindSupplier(suppliers: seq<Supplier>, id: string): (r: Option<Supplier>)
    ensures r.Some? ==> r.value in suppliers && r.value.id == id
    ensures r.None? <==> id !in Ids(suppliers, SupplierId)
  {
    var r := Find(suppliers, (s: Supplier) => s.id == id);
    assert r.None? ==> forall i :: 0 <= i < |suppliers| ==> Ids(suppliers, SupplierId)[i] != id;
    r
  }

  /** The order the page adds: the form, the matched supplier's name, the
      computed total and the payment status derived from it. */
  function NewOrder(f: OrderForm, supplierName: string): (o: PurchaseOrder)
    ensures o.totalAmount == TotalAmount(f)
    ensures o.paymentStatus == PaymentStatusFor(f.paidAmount, o.totalAmount)
    ensures o.supplierName == supplierName && o.supplierId == f.supplierId && o.paidAmount == f.paidAmount
    ensures o.date == f.date && o.riceType == f.riceType && o.grade == f.grade && o.status == f.status
    ensures o.bagSize == f.bagSize && o.quantity == f.quantity && o.weightKg == f.weightKg && o.pricePerKg == f.pricePerKg
  {
    PurchaseOrder("", f.supplierId, supplierName, f.date, f.riceType, f.grade, f.bagSize, f.quantity,
                  f.weightKg, f.pricePerKg, TotalAmount(f),
                  f.status, PaymentStatusFor(f.paidAmount, TotalAmount(f)), f.paidAmount)
  }

  /** What `handleSubmit` adds, if anything: nothing for an unknown supplier. */
  function Submission(suppliers: seq<Supplier>, f: OrderForm): (r: Option<PurchaseOrder>)
    ensures r.None? <==> f.supplierId !in Ids(suppliers, SupplierId)
    ensures r.Some? ==> exists s :: s in suppliers && s.id == f.supplierId && r.value == NewOrder(f, s.name)
  {
    var s := FindSupplier(suppliers, f.supplierId);
    if s.None? then None else Some(NewOrder(f, s.value.name))
  }

  /** The state of the order-form page. */
  class PurchaseOrderFormPage {
    var form: OrderForm

    constructor (today: string)
      ensures form == DefaultForm(today)
    {
      form := DefaultForm(today);
    }

    method SetRiceType(t: string)
      modifies this
      ensures form == WithRiceType(old(form), t)
    {
      form := WithRiceType(form, t);
    }

    method SetQuantity(q: int)
      modifies this
      ensures form == WithQuantity(old(form), q)
    {
      form := WithQuantity(form, q);
    }

    method SetWeight(w: int)
      modifies this
      ensures form == old(form).(weightKg := w)
    {
      form := form.(weightKg := w);
    }

    /** Adds the order under `newId` when the supplier exists, and reports whether
        it did. Save is disabled until the form passes `CanSave`, so the order
        saved has a positive total and, with nothing paid, is pending. */
    method Submit(store: DataStore, newId: string) returns (saved: bool)
      requires CanSave(form)
      requires newId !in Ids(store.purchaseOrders, PurchaseOrderId)
      modifies store
      ensures var r := Submission(old(store.suppliers), form);
        && (saved <==> r.Some?)
        && store.Snapshot() == (if r.Some? then Apply(old(store.Snapshot()), PurchaseOrderAdded(r.value, newId))
                                else old(store.Snapshot()))
        && (r.Some? ==> r.value.totalAmount > 0)
        && (r.Some? && form.paidAmount <= 0 ==> r.value.paymentStatus == Unpaid)
    {
      SaveableOrdersHavePositiveTotal(form);
      var r := Submission(store.suppliers, form);
      if r.Some? {
        store.AddPurchaseOrder(r.value, newId);
        saved := true;
      } else {
        saved := false;
      }
    }
  }
}
