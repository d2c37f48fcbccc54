/** The trucks screen: the fleet's expenses (diesel, driver salary, repair),
    the expense cards and one summary card per truck. */
module Trucks {
  import opened Wrappers
  import opened Text
  import opened Ledger
  import opened Search
  import opened Dates

  /** The three expense types the form offers. */
  const ExpenseTypes: seq<string> := ["diesel", "salary", "repair"]

  /** The expense form; the amount as `Number.parseFloat` reads it (`None` is NaN). */
  datatype ExpenseForm = ExpenseForm(
    truckId: string, expenseType: string, amount: Option<real>, description: string, expenseDate: string)

  /** The form as it is opened and reset: type "diesel", today's ISO date, the rest empty. */
  function BlankForm(today: Date): (f: ExpenseForm)
    ensures f.truckId == "" && f.description == "" && f.amount.None?
    ensures f.expenseType == "diesel" && f.expenseType in ExpenseTypes
    ensures f.expenseDate == Iso(today)
  {
    ExpenseForm("", "diesel", None, "", Iso(today))
  }

  /** The row `handleSubmit` inserts: every field as entered, the amount parsed. */
  datatype ExpenseInsert = ExpenseInsert(
    truckId: string, expenseDate: string, expenseType: string, amount: Option<real>, description: string)

  function NewExpense(form: ExpenseForm): (r: ExpenseInsert)
    ensures r.truckId == form.truckId && r.expenseDate == form.expenseDate
    ensures r.expenseType == form.expenseType && r.amount == form.amount && r.description == form.description
  {
    ExpenseInsert(form.truckId, form.expenseDate, form.expenseType, form.amount, form.description)
  }

  datatype Truck = Truck(truckNumber: string, capacity: real, driverName: string)

  /** An expense as the screen holds it, with the truck number joined in. */
  datatype Expense = Expense(
    truckNumber: string, expenseDate: string, expenseType: string, amount: real, description: string)

  function TruckNumberOf(e: Expense): string { e.truckNumber }
  function DescriptionOf(e: Expense): string { e.description }
  function ExpenseTypeOf(e: Expense): string { e.expenseType }
  function AmountOf(e: Expense): real { e.amount }
  function ExpenseDateOf(e: Expense): string { e.expenseDate }

  /** `filteredExpenses`: by truck number or description. */
  function FilteredExpenses(expenses: seq<Expense>, term: string): (r: seq<Expense>)
    ensures IsSubsequence(r, expenses)
    ensures forall i :: 0 <= i < |r| ==> r[i] in expenses && Matches(TruckNumberOf, DescriptionOf, term)(r[i])
    ensures forall i :: 0 <= i < |expenses| && Matches(TruckNumberOf, DescriptionOf, term)(expenses[i]) ==> expenses[i] in r
  {
    SearchRows(expenses, TruckNumberOf, DescriptionOf, term)
  }

  /** "Total Expenses". */
  function TotalExpenses(expenses: seq<Expense>): real {
    Sum(expenses, AmountOf)
  }

  /** "This Month": the expenses whose date has today's month and year. */
  function ThisMonthExpenses(expenses: seq<Expense>, today: Date): real {
    Sum(Filter(expenses, DatedIn(ExpenseDateOf, YearMonth(today.year, today.month))), AmountOf)
  }

  /** The "Diesel", "Driver Salary" and repair figures: the expenses of one type. */
  function TypeTotal(expenses: seq<Expense>, expenseType: string): real {
    Sum(Group(expenses, ExpenseTypeOf, expenseType), AmountOf)
  }

  /** When every expense has one of the three types the form offers, the
      diesel, salary and repair figures add up to "Total Expenses". */
  lemma TypeTotalsCoverAll(expenses: seq<Expense>)
    requires forall e :: e in expenses ==> e.expenseType in ExpenseTypes
    ensures TypeTotal(expenses, "diesel") + TypeTotal(expenses, "salary") + TypeTotal(expenses, "repair")
         == TotalExpenses(expenses)
  {
    var keys := ExpenseTypes;
    assert keys[1..] == ["salary", "repair"] && keys[1..][1..] == ["repair"] && keys[1..][1..][1..] == [];
    GroupsPartition(keys, expenses, ExpenseTypeOf, AmountOf);
    assert SumOfGroups(keys[1..][1..][1..], expenses, ExpenseTypeOf, AmountOf) == 0.0;
    assert SumOfGroups(keys[1..][1..], expenses, ExpenseTypeOf, AmountOf) == TypeTotal(expenses, "repair");
    assert SumOfGroups(keys[1..], expenses, ExpenseTypeOf, AmountOf)
        == TypeTotal(expenses, "salary") + TypeTotal(expenses, "repair");
  }

  /** On well-dated rows, "this month" is the sum over the expenses dated
      from the 1st to the last day of today's month. */
  lemma ThisMonthIsMonthRange(expenses: seq<Expense>, today: Date)
    requires ValidDate(today)
    requires WellDated(expenses, ExpenseDateOf)
    ensures var ym := YearMonth(today.year, today.month);
      ThisMonthExpenses(expenses, today)
        == Sum(Filter(expenses, DatedBetween(ExpenseDateOf, MonthStart(ym), MonthEnd(ym))), AmountOf)
  {
    MonthFilterIsRange(expenses, ExpenseDateOf, YearMonth(today.year, today.month));
  }

  function NumberOfTruck(t: Truck): string { t.truckNumber }

  function TruckNumbers(trucks: seq<Truck>): seq<string> {
    KeysOf(trucks, NumberOfTruck)
  }

  /** `truckStats`: per truck, in the order of `trucks`, the total cost, the
      number of expenses and the date of the latest one (or "Never"). */
  function TruckStats(trucks: seq<Truck>, expenses: seq<Expense>): (stats: seq<KeyStat<string>>)
    ensures |stats| == |trucks|
    ensures forall i :: 0 <= i < |trucks| ==> stats[i].key == trucks[i].truckNumber
  {
    StatsByKey(TruckNumbers(trucks), expenses, TruckNumberOf, AmountOf, ExpenseDateOf)
  }

  /** With distinct truck numbers and every expense on a listed truck, the
      truck cards' costs add up to "Total Expenses" and their counts to the
      number of expenses. */
  lemma TruckStatsPartition(trucks: seq<Truck>, expenses: seq<Expense>)
    requires Distinct(TruckNumbers(trucks))
    requires forall e :: e in expenses ==> e.truckNumber in TruckNumbers(trucks)
    ensures Sum(TruckStats(trucks, expenses), StatTotal) == TotalExpenses(expenses)
    ensures CountTotal(TruckStats(trucks, expenses)) == |expenses|
  {
    StatsByKeyPartition(TruckNumbers(trucks), expenses, TruckNumberOf, AmountOf, ExpenseDateOf);
  }

  /** On expenses fetched newest first, a truck's "Last Expense" is on or
      after every expense of that truck; a truck without expenses shows
      "Never", a cost of 0 and no expenses. */
  lemma LastExpenseIsLatest(trucks: seq<Truck>, expenses: seq<Expense>, i: int)
    requires 0 <= i < |trucks|
    ensures var s := TruckStats(trucks, expenses)[i];
      && (NewestFirst(expenses, ExpenseDateOf) && s.last != "Never" ==>
            forall e :: e in expenses && e.truckNumber == trucks[i].truckNumber ==> LexLe(e.expenseDate, s.last))
      && ((forall j :: 0 <= j < |expenses| ==> expenses[j].truckNumber != trucks[i].truckNumber) ==>
            s.last == "Never" && s.total == 0.0 && s.count == 0)
  {
    StatLastIsLatest(TruckNumbers(trucks), expenses, TruckNumberOf, AmountOf, ExpenseDateOf, i);
  }
}
