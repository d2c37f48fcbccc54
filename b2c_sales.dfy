/** The B2C sales screen: cash sales to walk-in and named customers, their
    revenue cards, the per-product breakdown and the five most recent sales. */
module B2CSales {
  import opened Wrappers
  import opened Text
  import opened Ledger
  import opened Search
  import opened Dates
  import opened Payments

  // ------------------------------------------------------------- the form

  /** The sale form; the numbers as `Number.parseFloat` reads them (`None` is NaN). */
  datatype SaleForm = SaleForm(
    productId: string, quantity: Option<real>, unitPrice: Option<real>,
    customerName: string, saleDate: string)

  /** The form as it is opened and as it is reset after a sale: empty fields,
      and the sale date set to today's ISO date. */
  function BlankForm(today: Date): (f: SaleForm)
    ensures f.productId == "" && f.customerName == ""
    ensures f.quantity.None? && f.unitPrice.None?
    ensures f.saleDate == Iso(today)
    ensures ValidDate(today) ==> ParseIso(f.saleDate) == Some(today)
  {
    ParseIsoOfIsoIfValid(today);
    SaleForm("", None, None, "", Iso(today))
  }

  lemma ParseIsoOfIsoIfValid(d: Date)
    ensures ValidDate(d) ==> ParseIso(Iso(d)) == Some(d)
  {
    if ValidDate(d) {
      ParseIsoOfIso(d);
    }
  }

  /** The row `handleSubmit` inserts: `None` numbers are NaN, a `None` customer is null. */
  datatype SaleInsert = SaleInsert(
    productId: string, quantity: Option<real>, unitPrice: Option<real>,
    totalAmount: Option<real>, saleDate: string, customerName: Option<string>)

  /** The row `handleSubmit` inserts: the total is quantity times unit price,
      the date is the one on the form, and a blank customer name is stored as null. */
  function NewSale(form: SaleForm): (r: SaleInsert)
    ensures r.productId == form.productId && r.saleDate == form.saleDate
    ensures r.quantity == form.quantity && r.unitPrice == form.unitPrice
    ensures r.totalAmount.Some? <==> form.quantity.Some? && form.unitPrice.Some?
    ensures r.totalAmount.Some? ==> r.totalAmount.value == form.quantity.value * form.unitPrice.value
    ensures form.customerName == "" ==> r.customerName.None?
    ensures form.customerName != "" ==> r.customerName == Some(form.customerName)
  {
    SaleInsert(
      form.productId, form.quantity, form.unitPrice, Times(form.quantity, form.unitPrice),
      form.saleDate, if form.customerName == "" then None else Some(form.customerName))
  }

  /** The "Total Amount" preview under the form: `(quantity || 0) * (unit price || 0)`. */
  function PreviewTotal(form: SaleForm): real {
    form.quantity.GetOr(0.0) * form.unitPrice.GetOr(0.0)
  }

  /** The preview shows the total that will be stored whenever both numbers
      are readable; when one is not, the preview shows 0 while the stored
      total would be NaN. */
  lemma PreviewMatchesStoredTotal(form: SaleForm)
    ensures form.quantity.Some? && form.unitPrice.Some? ==> NewSale(form).totalAmount == Some(PreviewTotal(form))
    ensures form.quantity.None? || form.unitPrice.None? ==> PreviewTotal(form) == 0.0 && NewSale(form).totalAmount.None?
  {
  }

  // ------------------------------------------------------- the fetched rows

  /** A sale as the backend returns it, with the product joined in (`None`
      when the product is gone) and the customer name null when it was blank. */
  datatype SaleRecord = SaleRecord(
    productName: Option<string>, quantity: real, unitPrice: real, totalAmount: real,
    saleDate: string, customerName: Option<string>)

  /** A sale as the screen holds it. */
  datatype Sale = Sale(
    productName: string, quantity: real, unitPrice: real, totalAmount: real,
    saleDate: string, customerName: string)

  /** `customer_name || "Walk-in Customer"`. */
  function CustomerLabel(name: Option<string>): (shown: string)
    ensures name.None? ==> shown == "Walk-in Customer"
    ensures name.Some? && name.value == "" ==> shown == "Walk-in Customer"
    ensures name.Some? && name.value != "" ==> shown == name.value
    ensures shown != ""
  {
    if name.None? || name.value == "" then "Walk-in Customer" else name.value
  }

  /** The transformation of one fetched row: `products?.name || ""` and the customer label. */
  function ViewOf(rec: SaleRecord): Sale {
    Sale(rec.productName.GetOr(""), rec.quantity, rec.unitPrice, rec.totalAmount,
         rec.saleDate, CustomerLabel(rec.customerName))
  }

  /** `salesData?.map(...)`: one shown sale per fetched row, in the same order,
      with the same amounts and dates. */
  function TransformSales(records: seq<SaleRecord>): (sales: seq<Sale>)
    ensures |sales| == |records|
    ensures forall i :: 0 <= i < |records| ==>
      sales[i].totalAmount == records[i].totalAmount && sales[i].quantity == records[i].quantity
      && sales[i].saleDate == records[i].saleDate
  {
    if records == [] then [] else [ViewOf(records[0])] + TransformSales(records[1..])
  }

  /** No shown sale has a blank customer. */
  lemma {:induction false} ShownCustomersAreNeverBlank(records: seq<SaleRecord>, i: int)
    requires 0 <= i < |records|
    ensures TransformSales(records)[i].customerName != ""
  {
    TransformedRow(records, i);
  }

  /** A customer name entered on the form is shown as entered; a blank one is
      shown as "Walk-in Customer". */
  lemma CustomerShownAsEntered(form: SaleForm, rec: SaleRecord)
    requires rec.customerName == NewSale(form).customerName
    ensures ViewOf(rec).customerName == if form.customerName == "" then "Walk-in Customer" else form.customerName
  {
  }

  function ProductNameOf(s: Sale): string { s.productName }
  function CustomerNameOf(s: Sale): string { s.customerName }
  function TotalOf(s: Sale): real { s.totalAmount }
  function QuantityOf(s: Sale): real { s.quantity }
  function SaleDateOf(s: Sale): string { s.saleDate }

  /** `filteredSales`: by product name or customer name. */
  function FilteredSales(sales: seq<Sale>, term: string): (r: seq<Sale>)
    ensures IsSubsequence(r, sales)
    ensures forall i :: 0 <= i < |r| ==> r[i] in sales && Matches(ProductNameOf, CustomerNameOf, term)(r[i])
    ensures forall i :: 0 <= i < |sales| && Matches(ProductNameOf, CustomerNameOf, term)(sales[i]) ==> sales[i] in r
  {
    SearchRows(sales, ProductNameOf, CustomerNameOf, term)
  }

  /** Because the label is substituted before filtering, searching for
      "Walk-in" finds every sale shown with the walk-in label. */
  lemma WalkInSalesAreSearchable(sales: seq<Sale>, x: Sale)
    requires x in sales
    requires x.customerName == CustomerLabel(None)
    ensures x in FilteredSales(sales, "Walk-in")
  {
    WalkInLabelMatches(None);
    ExactTextIsShown(sales, ProductNameOf, CustomerNameOf, "Walk-in", x);
  }

  lemma WalkInLabelMatches(name: Option<string>)
    requires name.None?
    ensures Includes(CustomerLabel(name), "Walk-in")
  {
    assert "Walk-in" <= CustomerLabel(name);
  }

  lemma {:induction false} TransformedRow(records: seq<SaleRecord>, i: int)
    requires 0 <= i < |records|
    ensures TransformSales(records)[i] == ViewOf(records[i])
  {
    if i > 0 {
      TransformedRow(records[1..], i - 1);
      assert records[1..][i - 1] == records[i];
      assert TransformSales(records)[i] == TransformSales(records[1..])[i - 1];
    }
  }

  // ------------------------------------------------------------ the cards

  /** "Total Revenue". */
  function TotalRevenue(sales: seq<Sale>): real {
    Sum(sales, TotalOf)
  }

  /** "Today's Sales": the sales whose date string is today's ISO date. */
  function TodaysSales(sales: seq<Sale>, today: Date): real {
    Sum(Filter(sales, DatedOn(SaleDateOf, Iso(today))), TotalOf)
  }

  /** "This Month": the sales whose date has today's month and year. */
  function ThisMonthSales(sales: seq<Sale>, today: Date): real {
    Sum(Filter(sales, DatedIn(SaleDateOf, YearMonth(today.year, today.month))), TotalOf)
  }

  /** "Units Sold". */
  function TotalQuantitySold(sales: seq<Sale>): real {
    Sum(sales, QuantityOf)
  }

  /** Today's sales are part of this month's, and this month's are part of
      the total; with no negative amounts the three cards never decrease
      from today to month to total. */
  lemma CardsNest(sales: seq<Sale>, today: Date)
    requires ValidDate(today)
    ensures var ym := YearMonth(today.year, today.month);
      ThisMonthSales(sales, today) == TodaysSales(sales, today)
        + Sum(Filter(Filter(sales, DatedIn(SaleDateOf, ym)), Not(DatedOn(SaleDateOf, Iso(today)))), TotalOf)
    ensures (forall s :: s in sales ==> s.totalAmount >= 0.0) ==>
      TodaysSales(sales, today) <= ThisMonthSales(sales, today) <= TotalRevenue(sales)
  {
    var ym := YearMonth(today.year, today.month);
    ParseIsoOfIso(today);
    NarrowerFilterSumsLess(sales, TotalOf, DatedIn(SaleDateOf, ym), DatedOn(SaleDateOf, Iso(today)));
    if forall s :: s in sales ==> s.totalAmount >= 0.0 {
      FilterSumsLess(sales, TotalOf, DatedIn(SaleDateOf, ym));
    }
  }

  // ---------------------------------------------------- per-product figures

  datatype Product = Product(name: string)

  /** One card of the product-wise analysis. */
  datatype ProductStat = ProductStat(name: string, totalSold: real, revenue: real, salesCount: nat)

  function NameOf(p: Product): string { p.name }

  function Names(products: seq<Product>): seq<string> {
    KeysOf(products, NameOf)
  }

  /** `products.map(...)`: per product, the units sold, the revenue and the
      number of sales whose product name is the product's name. */
  function ProductSales(products: seq<Product>, sales: seq<Sale>): (stats: seq<ProductStat>)
    ensures |stats| == |products|
    ensures forall i :: 0 <= i < |products| ==> stats[i].name == products[i].name
  {
    if products == [] then []
    else
      var g := Group(sales, ProductNameOf, products[0].name);
      [ProductStat(products[0].name, Sum(g, QuantityOf), Sum(g, TotalOf), |g|)] + ProductSales(products[1..], sales)
  }

  function StatRevenue(p: ProductStat): real { p.revenue }
  function StatSold(p: ProductStat): real { p.totalSold }

  function StatCount(stats: seq<ProductStat>): nat {
    if stats == [] then 0 else stats[0].salesCount + StatCount(stats[1..])
  }

  /** The card of the `i`-th product holds the units, the revenue and the
      number of the sales whose product name is that product's name. */
  lemma {:induction false} ProductStatOf(products: seq<Product>, sales: seq<Sale>, i: int)
    requires 0 <= i < |products|
    ensures var g := Group(sales, ProductNameOf, products[i].name);
      ProductSales(products, sales)[i] == ProductStat(products[i].name, Sum(g, QuantityOf), Sum(g, TotalOf), |g|)
  {
    if i > 0 {
      ProductStatOf(products[1..], sales, i - 1);
      assert products[1..][i - 1] == products[i];
      assert ProductSales(products, sales)[i] == ProductSales(products[1..], sales)[i - 1];
    }
  }

  lemma {:induction false} ProductSalesAreGroups(products: seq<Product>, sales: seq<Sale>)
    ensures Sum(ProductSales(products, sales), StatRevenue) == SumOfGroups(Names(products), sales, ProductNameOf, TotalOf)
    ensures Sum(ProductSales(products, sales), StatSold) == SumOfGroups(Names(products), sales, ProductNameOf, QuantityOf)
    ensures StatCount(ProductSales(products, sales)) == CountOfGroups(Names(products), sales, ProductNameOf)
  {
    if products != [] {
      ProductSalesAreGroups(products[1..], sales);
      assert Names(products)[1..] == Names(products[1..]);
      assert ProductSales(products, sales)[1..] == ProductSales(products[1..], sales);
    }
  }

  /** When the product names are distinct and every sale names a listed
      product, the product cards split the sales: their revenues add up to
      "Total Revenue", their units to "Units Sold" and their counts to the
      number of sales. */
  lemma ProductSalesPartition(products: seq<Product>, sales: seq<Sale>)
    requires Distinct(Names(products))
    requires forall s :: s in sales ==> s.productName in Names(products)
    ensures Sum(ProductSales(products, sales), StatRevenue) == TotalRevenue(sales)
    ensures Sum(ProductSales(products, sales), StatSold) == TotalQuantitySold(sales)
    ensures StatCount(ProductSales(products, sales)) == |sales|
  {
    ProductSalesAreGroups(products, sales);
    GroupsPartition(Names(products), sales, ProductNameOf, TotalOf);
    GroupsPartition(Names(products), sales, ProductNameOf, QuantityOf);
  }

  // ------------------------------------------------------------ recent sales

  /** `sales.slice(0, 5)`: the first five sales (the newest, as fetched), or all of them when fewer. */
  function RecentSales(sales: seq<Sale>): (r: seq<Sale>)
    ensures |r| == if |sales| < 5 then |sales| else 5
    ensures r <= sales
  {
    if |sales| < 5 then sales else sales[..5]
  }

  /** A recent sale is at least as new as every sale left off the list. */
  lemma RecentAreNewest(sales: seq<Sale>, i: int, j: int)
    requires NewestFirst(sales, SaleDateOf)
    requires 0 <= i < |RecentSales(sales)| && |RecentSales(sales)| <= j < |sales|
    ensures LexLe(sales[j].saleDate, RecentSales(sales)[i].saleDate)
  {
  }
}
