/** The B2B sales screen: credit sales to distributors and retailers, the
    parties they are made to, and the revenue/pending/this-month cards. */
module B2BSales {
  import opened Wrappers
  import opened Ledger
  import opened Search
  import opened Dates
  import opened Payments

  datatype Status = Paid | Partial | Pending

  function StatusName(s: Status): string {
    match s
    case Paid => "paid"
    case Partial => "partial"
    case Pending => "pending"
  }

  /** `remainingAmount === 0 ? "paid" : amountPaid > 0 ? "partial" : "pending"`.
      A NaN remainder (`None`) is not 0. */
  function StatusOf(remaining: Option<real>, paid: real): Status {
    if remaining == Some(0.0) then Paid
    else if paid > 0.0 then Partial
    else Pending
  }

  /** The sale form's fields, with the numbers as `Number.parseFloat` read them. */
  datatype SaleForm = SaleForm(
    partyId: string, productId: string,
    quantity: Option<real>, unitPrice: Option<real>, amountPaid: Option<real>,
    dueDate: string)

  /** The row `handleSaleSubmit` inserts; `None` numbers are NaN, a `None` due date is null. */
  datatype SaleInsert = SaleInsert(
    partyId: string, productId: string,
    quantity: Option<real>, unitPrice: Option<real>,
    totalAmount: Option<real>, amountPaid: real, remainingAmount: Option<real>,
    saleDate: string, dueDate: Option<string>, status: string)

  /** The row `handleSaleSubmit` inserts for a submitted form on day `today`. */
  function NewSale(form: SaleForm, today: Date): (r: SaleInsert)
    ensures r.partyId == form.partyId && r.productId == form.productId
    ensures r.quantity == form.quantity && r.unitPrice == form.unitPrice
    ensures r.totalAmount.Some? <==> form.quantity.Some? && form.unitPrice.Some?
    ensures r.totalAmount.Some? ==> r.totalAmount.value == form.quantity.value * form.unitPrice.value
    ensures form.amountPaid.None? ==> r.amountPaid == 0.0
    ensures form.amountPaid.Some? ==> r.amountPaid == form.amountPaid.value
    ensures r.remainingAmount.Some? <==> r.totalAmount.Some?
    ensures r.remainingAmount.Some? ==> r.amountPaid + r.remainingAmount.value == r.totalAmount.value
    ensures r.saleDate == Iso(today)
    ensures form.dueDate == "" ==> r.dueDate == None
    ensures form.dueDate != "" ==> r.dueDate == Some(form.dueDate)
    ensures r.status == "paid" || r.status == "partial" || r.status == "pending"
    ensures r.status == "paid" <==> r.remainingAmount == Some(0.0)
    ensures r.status == "partial" <==> r.remainingAmount != Some(0.0) && r.amountPaid > 0.0
  {
    var c := ChargeOf(form.quantity, form.unitPrice, form.amountPaid);
    SaleInsert(
      form.partyId, form.productId, form.quantity, form.unitPrice,
      c.total, c.paid, c.remaining,
      Iso(today), if form.dueDate == "" then None else Some(form.dueDate),
      StatusName(StatusOf(c.remaining, c.paid)))
  }

  /** On a readable form the status follows the balance: "paid" exactly when
      the amount paid equals the total (a zero-total sale with nothing paid is
      "paid"), otherwise "partial" exactly when something was paid (an
      overpayment is "partial"), otherwise "pending". */
  lemma StatusFollowsBalance(form: SaleForm, today: Date)
    requires form.quantity.Some? && form.unitPrice.Some?
    ensures var r := NewSale(form, today);
      var total := form.quantity.value * form.unitPrice.value;
      && (r.status == "paid" <==> r.amountPaid == total)
      && (r.status == "partial" <==> r.amountPaid != total && r.amountPaid > 0.0)
      && (r.status == "pending" <==> r.amountPaid != total && r.amountPaid <= 0.0)
  {
  }

  /** A quantity or unit price that does not parse makes the total NaN, and
      then the sale is never "paid". */
  lemma UnreadableTotalIsNeverPaid(form: SaleForm, today: Date)
    requires form.quantity.None? || form.unitPrice.None?
    ensures NewSale(form, today).totalAmount.None?
    ensures NewSale(form, today).status == (if NewSale(form, today).amountPaid > 0.0 then "partial" else "pending")
  {
  }

  datatype PartyForm = PartyForm(
    name: string, contactPerson: string, phone: string, address: string, creditLimit: Option<real>)

  datatype Party = Party(
    name: string, contactPerson: string, phone: string, address: string, creditLimit: real)

  /** The row `handlePartySubmit` inserts: `parseFloat(credit_limit) || 0`. */
  function NewParty(form: PartyForm): (p: Party)
    ensures p.name == form.name && p.contactPerson == form.contactPerson
    ensures p.phone == form.phone && p.address == form.address
    ensures form.creditLimit.None? ==> p.creditLimit == 0.0
    ensures form.creditLimit.Some? ==> p.creditLimit == form.creditLimit.value
  {
    Party(form.name, form.contactPerson, form.phone, form.address, form.creditLimit.GetOr(0.0))
  }

  /** A sale row as the screen holds it after fetching, with party and product names joined in. */
  datatype Sale = Sale(
    partyName: string, productName: string,
    quantity: real, unitPrice: real,
    totalAmount: real, amountPaid: real, remainingAmount: real,
    saleDate: string, dueDate: Option<string>, status: string)

  /** What every stored sale satisfies when it was inserted from a readable form. */
  predicate Balanced(s: Sale) {
    s.remainingAmount == s.totalAmount - s.amountPaid
  }

  function PartyNameOf(s: Sale): string { s.partyName }
  function ProductNameOf(s: Sale): string { s.productName }
  function TotalOf(s: Sale): real { s.totalAmount }
  function AmountPaidOf(s: Sale): real { s.amountPaid }
  function RemainingOf(s: Sale): real { s.remainingAmount }
  function SaleDateOf(s: Sale): string { s.saleDate }

  function PartyNameOfParty(p: Party): string { p.name }
  function ContactOf(p: Party): string { p.contactPerson }

  /** `filteredSales`: by party name or product name. */
  function FilteredSales(sales: seq<Sale>, term: string): (r: seq<Sale>)
    ensures IsSubsequence(r, sales)
    ensures forall i :: 0 <= i < |r| ==> r[i] in sales && Matches(PartyNameOf, ProductNameOf, term)(r[i])
    ensures forall i :: 0 <= i < |sales| && Matches(PartyNameOf, ProductNameOf, term)(sales[i]) ==> sales[i] in r
  {
    SearchRows(sales, PartyNameOf, ProductNameOf, term)
  }

  /** `filteredParties`: by business name or contact person. */
  function FilteredParties(parties: seq<Party>, term: string): (r: seq<Party>)
    ensures IsSubsequence(r, parties)
    ensures forall i :: 0 <= i < |r| ==> r[i] in parties && Matches(PartyNameOfParty, ContactOf, term)(r[i])
    ensures forall i :: 0 <= i < |parties| && Matches(PartyNameOfParty, ContactOf, term)(parties[i]) ==> parties[i] in r
  {
    SearchRows(parties, PartyNameOfParty, ContactOf, term)
  }

  /** "Total Revenue": what has been paid. */
  function TotalRevenue(sales: seq<Sale>): real {
    Sum(sales, AmountPaidOf)
  }

  /** "Pending Amount": what is still owed. */
  function PendingAmount(sales: seq<Sale>): real {
    Sum(sales, RemainingOf)
  }

  /** "This Month": totals of the sales whose date has today's month and year. */
  function ThisMonthSales(sales: seq<Sale>, today: Date): real {
    Sum(Filter(sales, DatedIn(SaleDateOf, YearMonth(today.year, today.month))), TotalOf)
  }

  /** On balanced rows, revenue and pending amount together are the total sold. */
  lemma RevenuePlusPendingIsTotal(sales: seq<Sale>)
    requires forall s :: s in sales ==> Balanced(s)
    ensures TotalRevenue(sales) + PendingAmount(sales) == Sum(sales, TotalOf)
  {
    SumOfColumns(sales, AmountPaidOf, RemainingOf, TotalOf);
  }

  /** On well-dated rows, "this month" is the sum over the sales dated from the
      1st to the last day of today's month. */
  lemma ThisMonthIsMonthRange(sales: seq<Sale>, today: Date)
    requires ValidDate(today)
    requires WellDated(sales, SaleDateOf)
    ensures var ym := YearMonth(today.year, today.month);
      ThisMonthSales(sales, today) == Sum(Filter(sales, DatedBetween(SaleDateOf, MonthStart(ym), MonthEnd(ym))), TotalOf)
  {
    MonthFilterIsRange(sales, SaleDateOf, YearMonth(today.year, today.month));
  }

  /** On a balanced row, the cell is red exactly when less than the total was paid. */
  lemma RedIffUnderpaid(s: Sale)
    requires Balanced(s)
    ensures RemainingIsRed(s.remainingAmount) <==> s.amountPaid < s.totalAmount
  {
  }
}
