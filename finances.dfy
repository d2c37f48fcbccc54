/** The finances screen: revenue, expenses, profit and receivables over all
    five tables, the expense breakdown and the last six months. */
module Finances {
  import opened Wrappers
  import opened Text
  import opened Ledger
  import opened Dates
  import opened Tables

  // -------------------------------------------------------------- the totals

  datatype FinancialData = FinancialData(
    totalRevenue: real, totalExpenses: real, profit: real,
    b2bRevenue: real, b2cRevenue: real,
    rawMaterialExpenses: real, truckExpenses: real, maintenanceExpenses: real,
    pendingReceivables: real)

  /** The figures `fetchFinancialData` computes: revenue is what B2B customers
      paid plus B2C sales, expenses are purchases, truck expenses and
      maintenance, and a table without data counts as 0. */
  function FinancialDataOf(t: Tables): (d: FinancialData)
    ensures d.b2bRevenue == SumOrZero(t.b2bSales, B2BPaidOf)
    ensures d.b2cRevenue == SumOrZero(t.b2cSales, B2CTotalOf)
    ensures d.rawMaterialExpenses == SumOrZero(t.purchases, PurchaseTotalOf)
    ensures d.truckExpenses == SumOrZero(t.truckExpenses, TruckAmountOf)
    ensures d.maintenanceExpenses == SumOrZero(t.maintenance, MaintenanceCostOf)
    ensures d.pendingReceivables == SumOrZero(t.b2bSales, B2BRemainingOf)
    ensures d.totalRevenue == d.b2bRevenue + d.b2cRevenue
    ensures d.totalExpenses == d.rawMaterialExpenses + d.truckExpenses + d.maintenanceExpenses
    ensures d.profit == d.totalRevenue - d.totalExpenses
  {
    var b2b := SumOrZero(t.b2bSales, B2BPaidOf);
    var b2c := SumOrZero(t.b2cSales, B2CTotalOf);
    var raw := SumOrZero(t.purchases, PurchaseTotalOf);
    var trucks := SumOrZero(t.truckExpenses, TruckAmountOf);
    var upkeep := SumOrZero(t.maintenance, MaintenanceCostOf);
    FinancialData(
      b2b + b2c, raw + trucks + upkeep, (b2b + b2c) - (raw + trucks + upkeep),
      b2b, b2c, raw, trucks, upkeep, SumOrZero(t.b2bSales, B2BRemainingOf))
  }

  /** "Total B2B Sales" in the summary is B2B revenue plus receivables; on
      balanced rows that is the total invoiced to B2B customers. */
  lemma TotalB2BSalesIsInvoiced(t: Tables)
    requires t.b2bSales.Some? ==> forall r :: r in t.b2bSales.value ==> Balanced(r)
    ensures FinancialDataOf(t).b2bRevenue + FinancialDataOf(t).pendingReceivables == SumOrZero(t.b2bSales, B2BTotalOf)
  {
    if t.b2bSales.Some? {
      SumOfColumns(t.b2bSales.value, B2BPaidOf, B2BRemainingOf, B2BTotalOf);
    }
  }

  /** The profit-margin line: `None` is "No revenue yet". */
  function ProfitMargin(d: FinancialData): Option<real> {
    Percent(d.profit, d.totalRevenue)
  }

  /** With revenue and no negative expenses, the margin is at most 100%, and
      it is negative exactly when there is a loss. */
  lemma MarginIsBounded(t: Tables)
    requires FinancialDataOf(t).totalRevenue > 0.0
    requires FinancialDataOf(t).totalExpenses >= 0.0
    ensures ProfitMargin(FinancialDataOf(t)).Some?
    ensures ProfitMargin(FinancialDataOf(t)).value <= 100.0
    ensures ProfitMargin(FinancialDataOf(t)).value < 0.0 <==> FinancialDataOf(t).profit < 0.0
  {
    var d := FinancialDataOf(t);
    PercentOfPart(d.profit, d.totalRevenue);
  }

  /** The B2B and B2C shares of revenue; `None` is "0%". With revenue, they add up to 100%. */
  lemma RevenueSharesAddUp(t: Tables)
    requires FinancialDataOf(t).totalRevenue > 0.0
    ensures var d := FinancialDataOf(t);
      Percent(d.b2bRevenue, d.totalRevenue).value + Percent(d.b2cRevenue, d.totalRevenue).value == 100.0
  {
    var d := FinancialDataOf(t);
    PercentsOfTwoPartsAddUp(d.b2bRevenue, d.b2cRevenue, d.totalRevenue);
  }

  // ----------------------------------------------------------- the breakdown

  datatype ExpenseShare = ExpenseShare(category: string, amount: real, percentage: real)

  /** `totalExpenses > 0 ? (amount / totalExpenses) * 100 : 0`. */
  function ShareOf(amount: real, total: real): real {
    Percent(amount, total).GetOr(0.0)
  }

  /** The three rows of the expense breakdown. */
  function ExpenseBreakdown(d: FinancialData): (b: seq<ExpenseShare>)
    ensures |b| == 3
    ensures b[0].category == "Raw Materials" && b[0].amount == d.rawMaterialExpenses
    ensures b[1].category == "Fleet Operations" && b[1].amount == d.truckExpenses
    ensures b[2].category == "Maintenance" && b[2].amount == d.maintenanceExpenses
  {
    [ ExpenseShare("Raw Materials", d.rawMaterialExpenses, ShareOf(d.rawMaterialExpenses, d.totalExpenses)),
      ExpenseShare("Fleet Operations", d.truckExpenses, ShareOf(d.truckExpenses, d.totalExpenses)),
      ExpenseShare("Maintenance", d.maintenanceExpenses, ShareOf(d.maintenanceExpenses, d.totalExpenses)) ]
  }

  /** The breakdown's amounts add up to the total expenses; with expenses the
      percentages add up to 100, and without them all three are 0. */
  lemma BreakdownAddsUp(t: Tables)
    ensures var d := FinancialDataOf(t);
      var b := ExpenseBreakdown(d);
      && b[0].amount + b[1].amount + b[2].amount == d.totalExpenses
      && (d.totalExpenses > 0.0 ==> b[0].percentage + b[1].percentage + b[2].percentage == 100.0)
      && (d.totalExpenses <= 0.0 ==> b[0].percentage == 0.0 && b[1].percentage == 0.0 && b[2].percentage == 0.0)
  {
    var d := FinancialDataOf(t);
    if d.totalExpenses > 0.0 {
      PercentsOfPartsAddUp(d.rawMaterialExpenses, d.truckExpenses, d.maintenanceExpenses, d.totalExpenses);
    }
  }

  // ------------------------------------------------------- the six months

  datatype MonthlyData = MonthlyData(month: YearMonth, revenue: real, expenses: real, profit: real)

  /** `rows?.filter((r) => r.date >= monthStart && r.date <= monthEnd).reduce(...) || 0`. */
  function RangeSum<T(==)>(rows: Option<seq<T>>, dateOf: T -> string, amount: T -> real, lo: Date, hi: Date): real {
    match rows
    case None => 0.0
    case Some(rs) => Sum(Filter(rs, DatedBetween(dateOf, lo, hi)), amount)
  }

  /** The figures of one month, from its first to its last day as ISO strings. */
  function MonthData(t: Tables, ym: YearMonth): MonthlyData {
    var lo, hi := MonthStart(ym), MonthEnd(ym);
    var revenue := RangeSum(t.b2bSales, B2BDateOf, B2BPaidOf, lo, hi) + RangeSum(t.b2cSales, B2CDateOf, B2CTotalOf, lo, hi);
    var expenses := RangeSum(t.purchases, PurchaseDateOf, PurchaseTotalOf, lo, hi)
      + RangeSum(t.truckExpenses, TruckDateOf, TruckAmountOf, lo, hi)
      + RangeSum(t.maintenance, MaintenanceDateOf, MaintenanceCostOf, lo, hi);
    MonthlyData(ym, revenue, expenses, revenue - expenses)
  }

  /** The loop `for (let i = 5; i >= 0; i--)` that pushes one entry per month:
      six entries, oldest first, ending with today's month, each month the
      one after the previous, each entry that month's figures. */
  method MonthlyStats(t: Tables, today: Date) returns (stats: seq<MonthlyData>)
    ensures |stats| == 6
    ensures forall k :: 0 <= k < 6 ==> stats[k] == MonthData(t, MonthsBefore(YearMonth(today.year, today.month), 5 - k))
    ensures forall k :: 0 <= k < 6 ==> 1 <= stats[k].month.month <= 12
    ensures forall k :: 0 <= k < 6 ==>
      stats[k].month.year * 12 + stats[k].month.month == today.year * 12 + today.month - (5 - k)
    ensures 1 <= today.month <= 12 ==> stats[5].month == YearMonth(today.year, today.month)
    ensures forall k :: 0 <= k < 6 ==> stats[k].profit == stats[k].revenue - stats[k].expenses
  {
    var ym := YearMonth(today.year, today.month);
    stats := [];
    var i := 5;
    while i >= 0
      invariant -1 <= i <= 5
      invariant |stats| == 5 - i
      invariant forall k :: 0 <= k < |stats| ==> stats[k] == MonthData(t, MonthsBefore(ym, 5 - k))
    {
      var date := MonthsBefore(ym, i);
      var monthStart, monthEnd := MonthStart(date), MonthEnd(date);
      var monthB2BRevenue := RangeSum(t.b2bSales, B2BDateOf, B2BPaidOf, monthStart, monthEnd);
      var monthB2CRevenue := RangeSum(t.b2cSales, B2CDateOf, B2CTotalOf, monthStart, monthEnd);
      var monthRawMaterialExpenses := RangeSum(t.purchases, PurchaseDateOf, PurchaseTotalOf, monthStart, monthEnd);
      var monthTruckExpenses := RangeSum(t.truckExpenses, TruckDateOf, TruckAmountOf, monthStart, monthEnd);
      var monthMaintenanceExpenses := RangeSum(t.maintenance, MaintenanceDateOf, MaintenanceCostOf, monthStart, monthEnd);
      var monthRevenue := monthB2BRevenue + monthB2CRevenue;
      var monthExpenses := monthRawMaterialExpenses + monthTruckExpenses + monthMaintenanceExpenses;
      stats := stats + [MonthlyData(date, monthRevenue, monthExpenses, monthRevenue - monthExpenses)];
      i := i - 1;
    }
    if 1 <= today.month <= 12 {
      assert stats[5].month == MonthsBefore(ym, 0);
    }
  }

  /** `rows?.filter(same month and year as ym).reduce(...) || 0`. */
  function MonthSum<T(==)>(rows: Option<seq<T>>, dateOf: T -> string, amount: T -> real, ym: YearMonth): real {
    match rows
    case None => 0.0
    case Some(rs) => Sum(Filter(rs, DatedIn(dateOf, ym)), amount)
  }

  lemma RangeSumIsMonthSum<T>(rows: Option<seq<T>>, dateOf: T -> string, amount: T -> real, ym: YearMonth)
    requires ValidMonth(ym)
    requires rows.Some? ==> WellDated(rows.value, dateOf)
    ensures RangeSum(rows, dateOf, amount, MonthStart(ym), MonthEnd(ym)) == MonthSum(rows, dateOf, amount, ym)
  {
    if rows.Some? {
      MonthFilterIsRange(rows.value, dateOf, ym);
    }
  }

  /** On well-dated tables, the string range from the 1st to the last day
      buckets each row into its calendar month. */
  lemma MonthDataIsCalendarMonth(t: Tables, ym: YearMonth)
    requires ValidMonth(ym)
    requires AllWellDated(t)
    ensures MonthData(t, ym).revenue
         == MonthSum(t.b2bSales, B2BDateOf, B2BPaidOf, ym) + MonthSum(t.b2cSales, B2CDateOf, B2CTotalOf, ym)
    ensures MonthData(t, ym).expenses
         == MonthSum(t.purchases, PurchaseDateOf, PurchaseTotalOf, ym)
          + MonthSum(t.truckExpenses, TruckDateOf, TruckAmountOf, ym)
          + MonthSum(t.maintenance, MaintenanceDateOf, MaintenanceCostOf, ym)
  {
    RangeSumIsMonthSum(t.b2bSales, B2BDateOf, B2BPaidOf, ym);
    RangeSumIsMonthSum(t.b2cSales, B2CDateOf, B2CTotalOf, ym);
    RangeSumIsMonthSum(t.purchases, PurchaseDateOf, PurchaseTotalOf, ym);
    RangeSumIsMonthSum(t.truckExpenses, TruckDateOf, TruckAmountOf, ym);
    RangeSumIsMonthSum(t.maintenance, MaintenanceDateOf, MaintenanceCostOf, ym);
  }

  /** The month row's margin; `None` is "0%". */
  function MonthMargin(m: MonthlyData): Option<real> {
    Percent(m.profit, m.revenue)
  }

  // ------------------------------------------------------------- the period

  /** The SQL fragment `fetchFinancialData` builds for the selected period
      ("" for "all" and for any unknown period). */
  function DateFilter(period: string, today: Date): (clause: string)
    ensures PeriodStartDate(period, today).None? ==> clause == ""
    ensures PeriodStartDate(period, today).Some? ==>
      clause == "and sale_date >= '" + Iso(PeriodStartDate(period, today).value) + "'"
  {
    if period == "month" then "and sale_date >= '" + Iso(Date(today.year, today.month, 1)) + "'"
    else if period == "quarter" then "and sale_date >= '" + Iso(Date(today.year, QuarterStartMonth(today.month), 1)) + "'"
    else if period == "year" then "and sale_date >= '" + Iso(Date(today.year, 1, 1)) + "'"
    else ""
  }

  /** The figures as the screen computes them: no query uses the date filter,
      so the selected period is ignored. */
  function FinancialDataAsWritten(t: Tables, period: string, today: Date): FinancialData {
    FinancialDataOf(t)
  }

  /** The rows of one result set dated on or after `start`. */
  function Restrict<T(==)>(rows: Option<seq<T>>, dateOf: T -> string, start: string): Option<seq<T>> {
    match rows
    case None => None
    case Some(rs) => Some(Filter(rs, DatedFrom(dateOf, start)))
  }

  function RestrictTables(t: Tables, start: string): Tables {
    Tables(
      Restrict(t.b2bSales, B2BDateOf, start),
      Restrict(t.b2cSales, B2CDateOf, start),
      Restrict(t.purchases, PurchaseDateOf, start),
      Restrict(t.truckExpenses, TruckDateOf, start),
      Restrict(t.maintenance, MaintenanceDateOf, start))
  }

  /** The figures with the period applied to every table on its own date column. */
  function FinancialDataFor(t: Tables, period: string, today: Date): FinancialData {
    match PeriodStartDate(period, today)
    case None => FinancialDataOf(t)
    case Some(d) => FinancialDataOf(RestrictTables(t, Iso(d)))
  }

  /** The selected period makes no difference to the figures as written. */
  lemma PeriodIsIgnored(t: Tables, period: string, today: Date)
    ensures FinancialDataAsWritten(t, period, today) == FinancialDataAsWritten(t, "all", today)
  {
  }

  /** On 15 May 2024 with "This Month" selected, a B2C sale of 100 made on
      1 January 2023 is still counted as revenue by the screen; the period
      figures do not count it. */
  lemma OldSaleCountedInThisMonth()
    ensures var t := Tables(None, Some([B2CRow(100.0, Iso(Date(2023, 1, 1)))]), None, None, None);
      var today := Date(2024, 5, 15);
      && FinancialDataAsWritten(t, "month", today).totalRevenue == 100.0
      && FinancialDataFor(t, "month", today).totalRevenue == 0.0
  {
    var row := B2CRow(100.0, Iso(Date(2023, 1, 1)));
    assert ValidDate(Date(2024, 5, 1)) && ValidDate(Date(2023, 1, 1));
    assert !DateLe(Date(2024, 5, 1), Date(2023, 1, 1));
    IsoOrder(Date(2024, 5, 1), Date(2023, 1, 1));
    assert !LexLe(Iso(Date(2024, 5, 1)), B2CDateOf(row));
    assert !DatedFrom(B2CDateOf, Iso(Date(2024, 5, 1)))(row);
    assert Filter([row], DatedFrom(B2CDateOf, Iso(Date(2024, 5, 1)))) == [];
  }

  /** "all" (and any unknown period) leaves the figures as they are. */
  lemma AllTimeIsUnfiltered(t: Tables, today: Date)
    ensures FinancialDataFor(t, "all", today) == FinancialDataOf(t)
  {
  }

  /** For "month", "quarter" and "year" on well-dated tables, every result
      set keeps exactly its rows dated on or after the period's first day. */
  lemma PeriodKeepsItsRows(t: Tables, period: string, today: Date)
    requires ValidDate(today)
    requires AllWellDated(t)
    requires period == "month" || period == "quarter" || period == "year"
    ensures var d := PeriodStartDate(period, today).value;
      var r := RestrictTables(t, Iso(d));
      && (t.b2bSales.Some? ==> KeptFromStart(t.b2bSales.value, r.b2bSales.value, B2BDateOf, d))
      && (t.b2cSales.Some? ==> KeptFromStart(t.b2cSales.value, r.b2cSales.value, B2CDateOf, d))
      && (t.purchases.Some? ==> KeptFromStart(t.purchases.value, r.purchases.value, PurchaseDateOf, d))
      && (t.truckExpenses.Some? ==> KeptFromStart(t.truckExpenses.value, r.truckExpenses.value, TruckDateOf, d))
      && (t.maintenance.Some? ==> KeptFromStart(t.maintenance.value, r.maintenance.value, MaintenanceDateOf, d))
  {
    var d := PeriodStartDate(period, today).value;
    PeriodStartBeforeToday(period, today);
    if t.b2bSales.Some? { FromFilterIsOnOrAfter(t.b2bSales.value, B2BDateOf, d); }
    if t.b2cSales.Some? { FromFilterIsOnOrAfter(t.b2cSales.value, B2CDateOf, d); }
    if t.purchases.Some? { FromFilterIsOnOrAfter(t.purchases.value, PurchaseDateOf, d); }
    if t.truckExpenses.Some? { FromFilterIsOnOrAfter(t.truckExpenses.value, TruckDateOf, d); }
    if t.maintenance.Some? { FromFilterIsOnOrAfter(t.maintenance.value, MaintenanceDateOf, d); }
  }

  /** With no negative amounts, the period's revenue and expenses are at most the all-time ones. */
  lemma PeriodFiguresWithinAllTime(t: Tables, period: string, today: Date)
    requires t.b2bSales.Some? ==> forall r :: r in t.b2bSales.value ==> r.amountPaid >= 0.0
    requires t.b2cSales.Some? ==> forall r :: r in t.b2cSales.value ==> r.totalAmount >= 0.0
    requires t.purchases.Some? ==> forall r :: r in t.purchases.value ==> r.totalAmount >= 0.0
    requires t.truckExpenses.Some? ==> forall r :: r in t.truckExpenses.value ==> r.amount >= 0.0
    requires t.maintenance.Some? ==> forall r :: r in t.maintenance.value ==> r.cost >= 0.0
    ensures FinancialDataFor(t, period, today).totalRevenue <= FinancialDataOf(t).totalRevenue
    ensures FinancialDataFor(t, period, today).totalExpenses <= FinancialDataOf(t).totalExpenses
  {
    if PeriodStartDate(period, today).Some? {
      var s := Iso(PeriodStartDate(period, today).value);
      if t.b2bSales.Some? { FilterSumsLess(t.b2bSales.value, B2BPaidOf, DatedFrom(B2BDateOf, s)); }
      if t.b2cSales.Some? { FilterSumsLess(t.b2cSales.value, B2CTotalOf, DatedFrom(B2CDateOf, s)); }
      if t.purchases.Some? { FilterSumsLess(t.purchases.value, PurchaseTotalOf, DatedFrom(PurchaseDateOf, s)); }
      if t.truckExpenses.Some? { FilterSumsLess(t.truckExpenses.value, TruckAmountOf, DatedFrom(TruckDateOf, s)); }
      if t.maintenance.Some? { FilterSumsLess(t.maintenance.value, MaintenanceCostOf, DatedFrom(MaintenanceDateOf, s)); }
    }
  }
}
