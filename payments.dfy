/** The charge both credit forms derive before inserting a row: the B2B sale
    form and the raw-material purchase form read quantity, unit price and
    amount paid, and store total, paid and remaining. */
module Payments {
  import opened Wrappers

  /** `Number.parseFloat` result: `None` is NaN. Arithmetic on NaN gives NaN. */
  function Times(a: Option<real>, b: Option<real>): Option<real> {
    if a.Some? && b.Some? then Some(a.value * b.value) else None
  }

  function Minus(a: Option<real>, b: real): Option<real> {
    if a.Some? then Some(a.value - b) else None
  }

  datatype Charge = Charge(total: Option<real>, paid: real, remaining: Option<real>)

  /** `totalAmount = quantity * unitPrice`, `amountPaid = parseFloat(paid) || 0`,
      `remainingAmount = totalAmount - amountPaid`. */
  function ChargeOf(quantity: Option<real>, unitPrice: Option<real>, amountPaid: Option<real>): (c: Charge)
    ensures c.total.Some? <==> quantity.Some? && unitPrice.Some?
    ensures c.total.Some? ==> c.total.value == quantity.value * unitPrice.value
    ensures amountPaid.None? ==> c.paid == 0.0
    ensures amountPaid.Some? ==> c.paid == amountPaid.value
    ensures c.remaining.Some? <==> c.total.Some?
    ensures c.remaining.Some? ==> c.paid + c.remaining.value == c.total.value
  {
    var total := Times(quantity, unitPrice);
    var paid := amountPaid.GetOr(0.0);
    Charge(total, paid, Minus(total, paid))
  }

  /** The remaining-amount cell is red exactly when something is still owed. */
  predicate RemainingIsRed(remaining: real) {
    remaining > 0.0
  }
}
