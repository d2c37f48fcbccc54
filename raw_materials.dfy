/** The raw-materials screen: purchases from suppliers on credit. */
module RawMaterials {
  import opened Wrappers
  import opened Ledger
  import opened Search
  import opened Dates
  import opened Payments

  /** The purchase form's fields, with the numbers as `Number.parseFloat` read them.
      The form has no purchase-date field. */
  datatype PurchaseForm = PurchaseForm(
    supplierId: string, materialId: string,
    quantity: Option<real>, unitPrice: Option<real>, amountPaid: Option<real>,
    dueDate: string, notes: string)

  /** The row `handleSubmit` inserts; `None` numbers are NaN, a `None` due date is null. */
  datatype PurchaseInsert = PurchaseInsert(
    supplierId: string, materialId: string,
    quantity: Option<real>, unitPrice: Option<real>,
    totalAmount: Option<real>, amountPaid: real, remainingAmount: Option<real>,
    purchaseDate: string, dueDate: Option<string>, notes: string)

  /** The row `handleSubmit` inserts for a submitted form on day `today`. */
  function NewPurchase(form: PurchaseForm, today: Date): (r: PurchaseInsert)
    ensures r.supplierId == form.supplierId && r.materialId == form.materialId && r.notes == form.notes
    ensures r.quantity == form.quantity && r.unitPrice == form.unitPrice
    ensures r.totalAmount.Some? <==> form.quantity.Some? && form.unitPrice.Some?
    ensures r.totalAmount.Some? ==> r.totalAmount.value == form.quantity.value * form.unitPrice.value
    ensures form.amountPaid.None? ==> r.amountPaid == 0.0
    ensures form.amountPaid.Some? ==> r.amountPaid == form.amountPaid.value
    ensures r.remainingAmount.Some? <==> r.totalAmount.Some?
    ensures r.remainingAmount.Some? ==> r.amountPaid + r.remainingAmount.value == r.totalAmount.value
    ensures r.purchaseDate == Iso(today)
    ensures form.dueDate == "" ==> r.dueDate == None
    ensures form.dueDate != "" ==> r.dueDate == Some(form.dueDate)
  {
    var c := ChargeOf(form.quantity, form.unitPrice, form.amountPaid);
    PurchaseInsert(
      form.supplierId, form.materialId, form.quantity, form.unitPrice,
      c.total, c.paid, c.remaining,
      Iso(today), if form.dueDate == "" then None else Some(form.dueDate), form.notes)
  }

  /** A purchase row as the screen holds it after fetching, with supplier and material names joined in. */
  datatype Purchase = Purchase(
    supplierName: string, materialName: string,
    quantity: real, unitPrice: real,
    totalAmount: real, amountPaid: real, remainingAmount: real,
    purchaseDate: string, dueDate: Option<string>, notes: string)

  predicate Balanced(p: Purchase) {
    p.remainingAmount == p.totalAmount - p.amountPaid
  }

  function SupplierNameOf(p: Purchase): string { p.supplierName }
  function MaterialNameOf(p: Purchase): string { p.materialName }
  function TotalOf(p: Purchase): real { p.totalAmount }
  function PurchaseDateOf(p: Purchase): string { p.purchaseDate }

  /** `filteredPurchases`: by supplier name or material name. */
  function FilteredPurchases(purchases: seq<Purchase>, term: string): (r: seq<Purchase>)
    ensures IsSubsequence(r, purchases)
    ensures forall i :: 0 <= i < |r| ==> r[i] in purchases && Matches(SupplierNameOf, MaterialNameOf, term)(r[i])
    ensures forall i :: 0 <= i < |purchases| && Matches(SupplierNameOf, MaterialNameOf, term)(purchases[i]) ==> purchases[i] in r
  {
    SearchRows(purchases, SupplierNameOf, MaterialNameOf, term)
  }

  /** The due-date cell: `due_date ? <date> : "-"`. */
  function DueDateLabel(due: Option<string>): (shown: string)
    ensures due.None? ==> shown == "-"
    ensures due.Some? && due.value == "" ==> shown == "-"
    ensures due.Some? && due.value != "" ==> shown == due.value
  {
    if due.None? || due.value == "" then "-" else due.value
  }

  /** A purchase entered without a due date shows "-"; one entered with a due date shows it. */
  lemma DueDateShownAsEntered(form: PurchaseForm, today: Date)
    ensures DueDateLabel(NewPurchase(form, today).dueDate) == if form.dueDate == "" then "-" else form.dueDate
  {
  }

  /** On a balanced row, the remaining cell is red exactly when less than the total was paid. */
  lemma RedIffUnderpaid(p: Purchase)
    requires Balanced(p)
    ensures RemainingIsRed(p.remainingAmount) <==> p.amountPaid < p.totalAmount
  {
  }
}
