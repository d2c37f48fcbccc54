/** The columns the dashboard and the finances screen select from the five
    tables. A result set is `None` when the query returned no data (`data`
    is null); the screens then count it as 0. */
module Tables {
  import opened Wrappers
  import opened Ledger

  datatype B2BRow = B2BRow(totalAmount: real, amountPaid: real, remainingAmount: real, saleDate: string)
  datatype B2CRow = B2CRow(totalAmount: real, saleDate: string)
  datatype PurchaseRow = PurchaseRow(totalAmount: real, remainingAmount: real, purchaseDate: string)
  datatype TruckExpenseRow = TruckExpenseRow(amount: real, expenseDate: string)
  datatype MaintenanceRow = MaintenanceRow(cost: real, maintenanceDate: string)

  datatype Tables = Tables(
    b2bSales: Option<seq<B2BRow>>,
    b2cSales: Option<seq<B2CRow>>,
    purchases: Option<seq<PurchaseRow>>,
    truckExpenses: Option<seq<TruckExpenseRow>>,
    maintenance: Option<seq<MaintenanceRow>>)

  function B2BTotalOf(r: B2BRow): real { r.totalAmount }
  function B2BPaidOf(r: B2BRow): real { r.amountPaid }
  function B2BRemainingOf(r: B2BRow): real { r.remainingAmount }
  function B2BDateOf(r: B2BRow): string { r.saleDate }
  function B2CTotalOf(r: B2CRow): real { r.totalAmount }
  function B2CDateOf(r: B2CRow): string { r.saleDate }
  function PurchaseTotalOf(r: PurchaseRow): real { r.totalAmount }
  function PurchaseDateOf(r: PurchaseRow): string { r.purchaseDate }
  function TruckAmountOf(r: TruckExpenseRow): real { r.amount }
  function TruckDateOf(r: TruckExpenseRow): string { r.expenseDate }
  function MaintenanceCostOf(r: MaintenanceRow): real { r.cost }
  function MaintenanceDateOf(r: MaintenanceRow): string { r.maintenanceDate }

  /** A B2B row as inserted from a readable form: what is owed is the total less what was paid. */
  predicate Balanced(r: B2BRow) {
    r.remainingAmount == r.totalAmount - r.amountPaid
  }

  /** Every returned row of every table has a date that reads as a valid date. */
  predicate AllWellDated(t: Tables) {
    && (t.b2bSales.Some? ==> WellDated(t.b2bSales.value, B2BDateOf))
    && (t.b2cSales.Some? ==> WellDated(t.b2cSales.value, B2CDateOf))
    && (t.purchases.Some? ==> WellDated(t.purchases.value, PurchaseDateOf))
    && (t.truckExpenses.Some? ==> WellDated(t.truckExpenses.value, TruckDateOf))
    && (t.maintenance.Some? ==> WellDated(t.maintenance.value, MaintenanceDateOf))
  }
}
