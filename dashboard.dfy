/** The dashboard: all-time revenue, expenses, profit and pending payments,
    today's sales, and the fixed count of active trucks. */
module Dashboard {
  import opened Wrappers
  import opened Ledger
  import opened Dates
  import opened Tables
  import opened Finances

  /** The dashboard always shows five active trucks. */
  const TrucksActive: nat := 5

  /** The rows of a result set dated `day`, or none when the set is missing (`|| []`). */
  function TodaysB2B(t: Tables, day: string): (rows: seq<B2BRow>)
    ensures forall i :: 0 <= i < |rows| ==> t.b2bSales.Some? && rows[i] in t.b2bSales.value && rows[i].saleDate == day
    ensures t.b2bSales.Some? ==> forall r :: r in t.b2bSales.value && r.saleDate == day ==> r in rows
  {
    match t.b2bSales
    case None => []
    case Some(rs) => Filter(rs, DatedOn(B2BDateOf, day))
  }

  function TodaysB2C(t: Tables, day: string): (rows: seq<B2CRow>)
    ensures forall i :: 0 <= i < |rows| ==> t.b2cSales.Some? && rows[i] in t.b2cSales.value && rows[i].saleDate == day
    ensures t.b2cSales.Some? ==> forall r :: r in t.b2cSales.value && r.saleDate == day ==> r in rows
  {
    match t.b2cSales
    case None => []
    case Some(rs) => Filter(rs, DatedOn(B2CDateOf, day))
  }

  /** `Number(sale.total_amount || sale.amount_paid)` on a B2B row: a zero
      total falls back to what was paid. */
  function B2BShownAmount(r: B2BRow): real {
    if r.totalAmount != 0.0 then r.totalAmount else r.amountPaid
  }

  /** The same expression on a B2C row, whose query does not select
      `amount_paid`: a zero total falls back to `Number(undefined)`, NaN (`None`). */
  function B2CShownAmountAsWritten(r: B2CRow): Option<real> {
    if r.totalAmount != 0.0 then Some(r.totalAmount) else None
  }

  /** A sum in which one NaN term makes the whole sum NaN. */
  function SumOpt<T>(rows: seq<T>, amount: T -> Option<real>): (s: Option<real>)
    ensures s.Some? <==> forall i :: 0 <= i < |rows| ==> amount(rows[i]).Some?
  {
    if rows == [] then Some(0.0)
    else
      var rest := SumOpt(rows[1..], amount);
      if amount(rows[0]).Some? && rest.Some? then Some(amount(rows[0]).value + rest.value) else None
  }

  /** "Today's Sales" as the dashboard computes it. */
  function TodaysSalesAsWritten(t: Tables, today: Date): Option<real> {
    var b2c := SumOpt(TodaysB2C(t, Iso(today)), B2CShownAmountAsWritten);
    if b2c.Some? then Some(Sum(TodaysB2B(t, Iso(today)), B2BShownAmount) + b2c.value) else None
  }

  /** "Today's Sales" with every B2C sale counted at its total. */
  function TodaysSales(t: Tables, today: Date): real {
    Sum(TodaysB2B(t, Iso(today)), B2BShownAmount) + Sum(TodaysB2C(t, Iso(today)), B2CTotalOf)
  }

  /** The card shows NaN exactly when a B2C sale dated today has a zero total. */
  lemma NaNIffFreeSaleToday(t: Tables, today: Date)
    ensures TodaysSalesAsWritten(t, today).None? <==>
      t.b2cSales.Some? && exists r :: r in t.b2cSales.value && r.saleDate == Iso(today) && r.totalAmount == 0.0
  {
    var rows := TodaysB2C(t, Iso(today));
    if TodaysSalesAsWritten(t, today).None? {
      var i :| 0 <= i < |rows| && B2CShownAmountAsWritten(rows[i]).None?;
      assert rows[i] in t.b2cSales.value;
    }
    if t.b2cSales.Some? && exists r :: r in t.b2cSales.value && r.saleDate == Iso(today) && r.totalAmount == 0.0 {
      var r :| r in t.b2cSales.value && r.saleDate == Iso(today) && r.totalAmount == 0.0;
      assert r in rows;
      var i :| 0 <= i < |rows| && rows[i] == r;
      assert B2CShownAmountAsWritten(rows[i]).None?;
    }
  }

  lemma {:induction false} SumOptIsSumOfTotals(rows: seq<B2CRow>)
    requires SumOpt(rows, B2CShownAmountAsWritten).Some?
    ensures SumOpt(rows, B2CShownAmountAsWritten).value == Sum(rows, B2CTotalOf)
  {
    if rows != [] {
      assert B2CShownAmountAsWritten(rows[0]).Some?;
      SumOptIsSumOfTotals(rows[1..]);
    }
  }

  /** Whenever the dashboard shows a number, it is the corrected figure. */
  lemma CorrectedAgreesWhenDefined(t: Tables, today: Date)
    requires TodaysSalesAsWritten(t, today).Some?
    ensures TodaysSalesAsWritten(t, today).value == TodaysSales(t, today)
  {
    SumOptIsSumOfTotals(TodaysB2C(t, Iso(today)));
  }

  /** On 15 May 2024, one B2C sale that day with a zero total turns the card
      into NaN, while the corrected figure is 0. */
  lemma ZeroTotalSaleShowsNaN()
    ensures var t := Tables(None, Some([B2CRow(0.0, Iso(Date(2024, 5, 15)))]), None, None, None);
      && TodaysSalesAsWritten(t, Date(2024, 5, 15)).None?
      && TodaysSales(t, Date(2024, 5, 15)) == 0.0
  {
    var t := Tables(None, Some([B2CRow(0.0, Iso(Date(2024, 5, 15)))]), None, None, None);
    NaNIffFreeSaleToday(t, Date(2024, 5, 15));
    assert TodaysB2C(t, Iso(Date(2024, 5, 15))) == [B2CRow(0.0, Iso(Date(2024, 5, 15)))];
  }

  /** When every B2B sale of the day has a nonzero total, today's sales are
      the totals of the sales dated today. */
  lemma TodaysSalesAreTotals(t: Tables, today: Date)
    requires t.b2bSales.Some? ==> forall r :: r in t.b2bSales.value && r.saleDate == Iso(today) ==> r.totalAmount != 0.0
    ensures TodaysSales(t, today) == Sum(TodaysB2B(t, Iso(today)), B2BTotalOf) + Sum(TodaysB2C(t, Iso(today)), B2CTotalOf)
  {
    SumCongruent(TodaysB2B(t, Iso(today)), B2BShownAmount, B2BTotalOf);
  }

  datatype DashboardStats = DashboardStats(
    totalRevenue: real, totalExpenses: real, profit: real,
    pendingPayments: real, todaysSales: real, trucksActive: nat)

  /** The six dashboard cards: the all-time figures are those of the finances
      screen, and the trucks card is the constant 5. */
  function DashboardStatsOf(t: Tables, today: Date): (s: DashboardStats)
    ensures s.totalRevenue == FinancialDataOf(t).totalRevenue
    ensures s.totalExpenses == FinancialDataOf(t).totalExpenses
    ensures s.profit == FinancialDataOf(t).profit
    ensures s.pendingPayments == FinancialDataOf(t).pendingReceivables
    ensures s.profit == s.totalRevenue - s.totalExpenses
    ensures s.todaysSales == TodaysSales(t, today)
    ensures s.trucksActive == 5
  {
    var b2bRevenue := SumOrZero(t.b2bSales, B2BPaidOf);
    var b2cRevenue := SumOrZero(t.b2cSales, B2CTotalOf);
    var totalRevenue := b2bRevenue + b2cRevenue;
    var purchaseExpenses := SumOrZero(t.purchases, PurchaseTotalOf);
    var truckCosts := SumOrZero(t.truckExpenses, TruckAmountOf);
    var maintenanceCosts := SumOrZero(t.maintenance, MaintenanceCostOf);
    var totalExpenses := purchaseExpenses + truckCosts + maintenanceCosts;
    DashboardStats(
      totalRevenue, totalExpenses, totalRevenue - totalExpenses,
      SumOrZero(t.b2bSales, B2BRemainingOf), TodaysSales(t, today), TrucksActive)
  }

  /** On balanced B2B rows, revenue plus pending payments covers every B2B
      invoice and every B2C sale. */
  lemma RevenuePlusPendingIsInvoiced(t: Tables, today: Date)
    requires t.b2bSales.Some? ==> forall r :: r in t.b2bSales.value ==> Balanced(r)
    ensures DashboardStatsOf(t, today).totalRevenue + DashboardStatsOf(t, today).pendingPayments
         == SumOrZero(t.b2bSales, B2BTotalOf) + SumOrZero(t.b2cSales, B2CTotalOf)
  {
    TotalB2BSalesIsInvoiced(t);
  }
}
