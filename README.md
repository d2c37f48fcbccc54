# Business-management bookkeeping, modelled in Dafny

This project models the bookkeeping logic of the client pages of a small
manufacturing business's management app. The app has these pages:

- B2B credit sales to parties;
- B2C counter sales;
- raw-material purchases;
- truck expenses;
- machine maintenance;
- partner withdrawals;
- the finances overview;
- the dashboard.

The model covers what each page computes from the rows it fetches and from the forms it submits:
- the row a form inserts (totals, amount paid, what remains, status, dates, defaults);
- the search box;
- the summary cards (revenue, pending amounts, this month's figures, today's sales);
- per-product, per-truck, per-machine and per-partner summaries;
- the period filter of the partner page;
- the expense breakdown and percentages of the finances page;
- the six-month table the finances page builds in a loop.

Conventions:
- **Money** is `real`.
- **Unparseable numbers:** a form number read with `Number.parseFloat` is an `Option<real>`, where `None` stands for NaN. Arithmetic on `None` gives `None`, and `x || 0` is `GetOr(0.0)`.
- **Dates** in rows are ISO `YYYY-MM-DD` strings, as the database returns them. `Dates.Iso` and `Dates.ParseIso` convert between strings and calendar dates and are proved mutually inverse. String comparison (`>=`, `<=`) is `Text.LexLe`. `Dates.IsoOrder` proves that string order on ISO dates is calendar order.
- **The current date** is a parameter `today`. `new Date().toISOString().split("T")[0]` is `Iso(today)`.
- **Fetched tables:**
  - Query results are sequences of rows with the joined names already filled in.
  - The all-table screens (dashboard, finances) see each result set as `Option<seq<_>>`. `None` means the query returned no data, and `|| 0` counts it as 0.

Modules:

| module | what it holds |
|---|---|
| `Wrappers` | `Option` |
| `Text` | lower-casing, `includes`, string order, `replace` of the first occurrence |
| `Dates` | calendar dates, the ISO form, month arithmetic, period start dates |
| `Ledger` | `reduce` sums, `filter`, grouping by key, per-key summaries, date tests, percentages |
| `Search` | the two-field search box every page has |
| `Payments` | total / paid / remaining for a credit form |
| `Tables` | the columns the dashboard and the finances page select |
| `B2BSales`, `B2CSales`, `RawMaterials`, `Trucks`, `Machinery`, `Partners`, `Finances`, `Dashboard` | one module per page |

Two places in the pages work by updating variables step by step:
- the partner page's `startDate` chain, modelled by the method `Partners.PeriodStart`;
- the finances page's six-month loop, modelled by the method `Finances.MonthlyStats`.

Both are methods proved against specification functions. Everything else is expressions over the fetched rows, and is modelled as functions and lemmas.

## Model

| member | source | states |
|---|---|---|
| `Payments.ChargeOf` | app/b2b-sales/page.tsx:144-148 | total is quantity times unit price, NaN when either does not parse; amount paid falls back to 0; paid plus remaining is the total |
| `B2BSales.NewSale` | app/b2b-sales/page.tsx:144-163 | the inserted sale carries the form's ids and numbers, total and remaining as above, today's ISO date, a null due date for an empty one, and status "paid" exactly when the remainder is 0, "partial" exactly when it is not and something was paid |
| `B2BSales.StatusFollowsBalance` | app/b2b-sales/page.tsx:150 | on a readable form, "paid" iff paid equals the total, "partial" iff not and paid > 0, "pending" otherwise |
| `B2BSales.UnreadableTotalIsNeverPaid` | app/b2b-sales/page.tsx:144-150 | an unparseable quantity or price gives a NaN total and never the status "paid" |
| `B2BSales.NewParty` | app/b2b-sales/page.tsx:201 | the party row copies the form; an unreadable credit limit is 0 |
| `B2BSales.FilteredSales` | app/b2b-sales/page.tsx:230-234 | the shown sales are a subsequence of the sales and hold exactly those whose party or product name contains the term, ignoring case |
| `B2BSales.FilteredParties` | app/b2b-sales/page.tsx:236-240 | the same for parties, by name or contact person |
| `B2BSales.RevenuePlusPendingIsTotal` | app/b2b-sales/page.tsx:243-244 | on balanced rows, total revenue plus pending amount equals the sum of sale totals |
| `B2BSales.ThisMonthIsMonthRange` | app/b2b-sales/page.tsx:245-251 | on well-dated rows, the sales in today's month and year are those dated from its first to its last day |
| `B2BSales.RedIffUnderpaid` | app/b2b-sales/page.tsx:527 | on a balanced row, the remaining cell is red iff less than the total was paid |
| `RawMaterials.NewPurchase` | app/raw-materials/page.tsx:131-148 | the inserted purchase: total, paid and remaining as for B2B sales, today's ISO date, a null due date for an empty one |
| `RawMaterials.FilteredPurchases` | app/raw-materials/page.tsx:179-183 | exactly the purchases whose supplier or material name contains the term, in order |
| `RawMaterials.DueDateLabel` | app/raw-materials/page.tsx:352 | a missing or empty due date is shown as "-", any other as entered |
| `RawMaterials.DueDateShownAsEntered` | app/raw-materials/page.tsx:146-147 | after insertion, the due-date cell shows "-" iff the form's due date was empty |
| `RawMaterials.RedIffUnderpaid` | app/raw-materials/page.tsx:349 | on a balanced row, the remaining cell is red iff less than the total was paid |
| `B2CSales.BlankForm` | app/b2c-sales/page.tsx:51-57 | the empty form is dated today, and that date reads back as today |
| `B2CSales.NewSale` | app/b2c-sales/page.tsx:106-120 | total is quantity times price (NaN if either does not parse); an empty customer name is stored as null |
| `B2CSales.PreviewMatchesStoredTotal` | app/b2c-sales/page.tsx:285-289 | the preview equals the stored total on a readable form, and shows 0 where the stored total is NaN |
| `B2CSales.CustomerLabel` | app/b2c-sales/page.tsx:89 | a null or empty customer is shown as "Walk-in Customer", any other name as stored; the label is never empty |
| `B2CSales.TransformSales` | app/b2c-sales/page.tsx:82-90 | one shown sale per record, with the record's numbers and date |
| `B2CSales.ShownCustomersAreNeverBlank` | app/b2c-sales/page.tsx:89 | no shown sale has an empty customer |
| `B2CSales.CustomerShownAsEntered` | app/b2c-sales/page.tsx:119 | a stored sale is shown with the name typed, or "Walk-in Customer" if none was typed |
| `B2CSales.FilteredSales` | app/b2c-sales/page.tsx:148-152 | exactly the sales whose product or customer contains the term, in order |
| `B2CSales.WalkInSalesAreSearchable` | app/b2c-sales/page.tsx:89 | searching "Walk-in" finds every sale made without a customer name |
| `B2CSales.CardsNest` | app/b2c-sales/page.tsx:155-166 | month revenue is today's plus the rest of the month; with no negative totals, today ≤ month ≤ total |
| `B2CSales.ProductSales` | app/b2c-sales/page.tsx:171-182 | one summary per product, in product order, named after it |
| `B2CSales.ProductStatOf` | app/b2c-sales/page.tsx:171-182 | the i-th card holds the i-th product's name, and the units sold, revenue and number of exactly the sales whose product name is that name |
| `B2CSales.ProductSalesAreGroups` | app/b2c-sales/page.tsx:171-182 | summed over the cards, revenue, units and counts equal the sums over each product's group of sales |
| `B2CSales.ProductSalesPartition` | app/b2c-sales/page.tsx:155-182 | with distinct product names covering every sale, the summaries add up to total revenue, total quantity and the number of sales |
| `B2CSales.RecentSales` | app/b2c-sales/page.tsx:381 | the first min(5, n) sales |
| `B2CSales.RecentAreNewest` | app/b2c-sales/page.tsx:381 | with sales newest first, no sale left out is newer than a shown one |
| `Trucks.BlankForm` | app/trucks/page.tsx:51-57 | the empty form is a "diesel" expense dated today |
| `Trucks.NewExpense` | app/trucks/page.tsx:108-114 | the inserted expense copies the form |
| `Trucks.FilteredExpenses` | app/trucks/page.tsx:142-146 | exactly the expenses whose truck number or description contains the term |
| `Trucks.TypeTotalsCoverAll` | app/trucks/page.tsx:158-168 | when every expense is diesel, salary or repair, the three type totals add up to the total |
| `Trucks.ThisMonthIsMonthRange` | app/trucks/page.tsx:150-156 | this month's expenses are those dated from the month's first to its last day |
| `Trucks.TruckStats` | app/trucks/page.tsx:171-182 | one summary per truck, keyed by its number |
| `Trucks.TruckStatsPartition` | app/trucks/page.tsx:171-182 | with distinct truck numbers covering every expense, the summaries add up to the total and the count |
| `Trucks.LastExpenseIsLatest` | app/trucks/page.tsx:174 | on newest-first rows, "last expense" is no earlier than any of the truck's expenses; a truck without expenses shows "Never", 0 and 0 |
| `Machinery.BlankForm` | app/machinery/page.tsx:50-56 | the empty form is a "routine" record dated today |
| `Machinery.NewMaintenance` | app/machinery/page.tsx:107-113 | the inserted record copies the form |
| `Machinery.FilteredMaintenance` | app/machinery/page.tsx:141-145 | exactly the records whose machine name or description contains the term |
| `Machinery.ThisMonthWithinTotal` | app/machinery/page.tsx:148-155 | with no negative costs, this month's cost is at most the total |
| `Machinery.MachineStats` | app/machinery/page.tsx:157-168 | one summary per machine, keyed by its name |
| `Machinery.MachineStatsPartition` | app/machinery/page.tsx:157-168 | with distinct names covering every record, the summaries add up to the total and the count |
| `Machinery.LastMaintenanceIsLatest` | app/machinery/page.tsx:160 | "last maintenance" is no earlier than any of the machine's records, "Never" without records |
| `Machinery.TypeLabel` | app/machinery/page.tsx:336 | `replace("_", " ")` changes only the first underscore: same length, unchanged without one |
| `Machinery.OnlyFirstUnderscoreReplaced` | app/machinery/page.tsx:336 | the first underscore becomes a space and any later one is shown as is ("ball_mill_2" reads "ball mill_2") |
| `Partners.PeriodStart` | app/partners/page.tsx:67-79 | "all" sets no start; "month", "quarter" and "year" start on the first day of the month, quarter or year; any other period starts at "" |
| `Partners.Fetched` | app/partners/page.tsx:64-80 | without a start every withdrawal is fetched, with one those dated on or after it |
| `Partners.PeriodKeepsFromItsStart` | app/partners/page.tsx:67-79 | for a known period the start is no later than today, and the fetched rows are exactly those dated on or after it in calendar order |
| `Partners.UnknownPeriodKeepsAll` | app/partners/page.tsx:69-79 | a start of "" keeps every withdrawal |
| `Partners.BlankForm` | app/partners/page.tsx:51-56 | the empty form is the owner's, dated today |
| `Partners.NewWithdrawal` | app/partners/page.tsx:101-106 | the inserted withdrawal copies the form |
| `Partners.FilteredWithdrawals` | app/partners/page.tsx:133-137 | exactly the withdrawals whose partner or description contains the term |
| `Partners.PartnerSummaries` | app/partners/page.tsx:140-159 | two cards, the owner's then the brother's |
| `Partners.FoundTotalsAreThePartners` | app/partners/page.tsx:163-164 | the owner and brother totals found on the cards are the sums of their withdrawals |
| `Partners.PartnersSplitTheTotals` | app/partners/page.tsx:140-170 | when every withdrawal is the owner's or the brother's, the two cards add up to the total, the count and this month's total |
| `Partners.TwoGroups` | app/partners/page.tsx:140-142 | the owner's and the brother's rows together are all rows |
| `Partners.ThisMonthIsCalendarMonth` | app/partners/page.tsx:166-170 | with no withdrawal after today, `>= month start` selects exactly the calendar month |
| `Partners.SharesAddUp` | app/partners/page.tsx:293 | with something withdrawn, the owner's and brother's shares add up to 100% |
| `Finances.FinancialDataOf` | app/finances/page.tsx:99-121 | revenue is B2B paid plus B2C totals; expenses are purchases, truck expenses and maintenance; profit is their difference; receivables are B2B remainders; a missing table counts 0 |
| `Finances.TotalB2BSalesIsInvoiced` | app/finances/page.tsx:457 | on balanced rows, "Total B2B Sales" equals the sum of B2B totals |
| `Finances.MarginIsBounded` | app/finances/page.tsx:269-271 | with revenue and no negative expenses, the margin is at most 100% and negative iff there is a loss |
| `Finances.RevenueSharesAddUp` | app/finances/page.tsx:307-309 | with revenue, the B2B and B2C shares add up to 100% |
| `Finances.ExpenseBreakdown` | app/finances/page.tsx:124-140 | three categories in order, each with its table's sum |
| `Finances.BreakdownAddsUp` | app/finances/page.tsx:124-140 | the amounts add up to the total expenses; with expenses the percentages add up to 100, without they are all 0 |
| `Finances.MonthlyStats` | app/finances/page.tsx:145-185 | six entries, oldest first, the k-th for the month 5-k before today's, ending with today's month, each holding that month's range sums with profit = revenue − expenses |
| `Finances.MonthDataIsCalendarMonth` | app/finances/page.tsx:147-176 | on well-dated tables, a month's range sums equal the sums over rows in that calendar month |
| `Finances.DateFilter` | app/finances/page.tsx:63-77 | "" for "all" and unknown periods, otherwise a `sale_date >=` clause with the period's first day |
| `Finances.PeriodIsIgnored` | app/finances/page.tsx:63-96 | as written, the figures do not depend on the selected period |
| `Finances.OldSaleCountedInThisMonth` | app/finances/page.tsx:63-101 | a 2023 sale is counted under "This Month" in May 2024 as written, and not in the corrected figures |
| `Finances.AllTimeIsUnfiltered` | app/finances/page.tsx:63-77 | "All Time" leaves the corrected figures unfiltered |
| `Finances.PeriodKeepsItsRows` | app/finances/page.tsx:63-77 | for a known period, each table keeps exactly its rows dated on or after the period start |
| `Finances.PeriodFiguresWithinAllTime` | app/finances/page.tsx:99-107 | with no negative amounts, a period's revenue and expenses are at most the all-time ones |
| `Dashboard.DashboardStatsOf` | app/dashboard/page.tsx:58-81 | revenue, expenses, profit and pending payments agree with the finances page; profit is revenue minus expenses; today's sales are the corrected figure; five trucks are active |
| `Dashboard.RevenuePlusPendingIsInvoiced` | app/dashboard/page.tsx:58-67 | on balanced B2B rows, revenue plus pending payments equals all B2B totals plus all B2C totals |
| `Dashboard.SumOpt` | app/dashboard/page.tsx:69-72 | a sum is a number iff every term is |
| `Dashboard.NaNIffFreeSaleToday` | app/dashboard/page.tsx:69-72 | as written, "Today's Sales" is NaN iff a B2C sale dated today has a zero total |
| `Dashboard.ZeroTotalSaleShowsNaN` | app/dashboard/page.tsx:69-72 | one zero-total B2C sale today makes the card NaN; the corrected figure is 0 |
| `Dashboard.CorrectedAgreesWhenDefined` | app/dashboard/page.tsx:69-72 | whenever the card shows a number, it is the corrected figure |
| `Dashboard.TodaysSalesAreTotals` | app/dashboard/page.tsx:69-72 | when every B2B sale of the day has a nonzero total, today's sales are the totals of the sales dated today |
| `Search.SearchRows` | app/b2b-sales/page.tsx:230-234 | the search result is a subsequence holding exactly the matching rows, each as many times as it occurs |
| `Search.EmptyTermKeepsAll` | app/trucks/page.tsx:142-146 | an empty search shows every row in order |
| `Search.SearchIgnoresCase` | app/machinery/page.tsx:141-145 | terms that differ only in case show the same rows |
| `Search.ExactTextIsShown` | app/partners/page.tsx:133-137 | a row whose field contains the term as typed is always shown |
| `Text.IncludesIffOccurs` | app/b2b-sales/page.tsx:232-233 | `includes` holds iff the needle occurs at some position |
| `Text.LexLeTotal` | app/partners/page.tsx:79 | string comparison is total |
| `Text.ReplaceFirstSpec` | app/machinery/page.tsx:336 | `replace` changes exactly the first occurrence, or nothing when there is none |
| `Dates.ParseIsoOfIso` | app/b2c-sales/page.tsx:57 | a date written in ISO form reads back as the same date |
| `Dates.IsoOfParseIso` | app/b2c-sales/page.tsx:57 | a string that reads as a date is that date's ISO form |
| `Dates.IsoOrder` | app/partners/page.tsx:79 | ISO strings compare as their dates do |
| `Dates.MonthRangeIsMonth` | app/finances/page.tsx:148-149 | a date is between the month's first and last day iff it lies in that month |
| `Dates.MonthsBefore` | app/finances/page.tsx:147 | `new Date(y, m - i, 1)` is i months before, with the month normalised to 1..12 |
| `Dates.MonthsBeforeInjective` | app/finances/page.tsx:146-147 | the six months of the loop are distinct |
| `Dates.QuarterStartMonth` | app/partners/page.tsx:74 | the quarter's first month is 1, 4, 7 or 10, no later than the month and less than three months before it |
| `Dates.PeriodStartBeforeToday` | app/partners/page.tsx:71-77 | each period's start is a valid date no later than today |
| `Ledger.GroupsPartition` | app/trucks/page.tsx:172 | groups over distinct keys that cover every row partition the rows' sum and count |
| `Ledger.StatsByKeyPartition` | app/trucks/page.tsx:171-182 | per-key summaries add up to the total and the number of rows |
| `Ledger.StatLastIsLatest` | app/machinery/page.tsx:160 | on newest-first rows, a key's "last" date is its latest, or "Never" with zero totals |
| `Ledger.FilterSumsLess` | app/machinery/page.tsx:149-155 | with no negative amounts, a filtered sum is at most the whole sum |
| `Ledger.MonthFilterIsRange` | app/finances/page.tsx:148-176 | the month-and-year test and the first-to-last-day string range keep the same rows |
| `Ledger.FromFilterIsOnOrAfter` | app/partners/page.tsx:79 | a `>= start` string filter keeps exactly the rows dated on or after the start |
| `Ledger.Percent` | app/finances/page.tsx:269-271 | a percentage exists iff the whole is positive, and then times the whole it is 100 times the part |
| `Ledger.PercentOfPart` | app/finances/page.tsx:269-271 | a part no larger than a positive whole is at most 100% of it, and the percentage is negative iff the part is |
| `Ledger.PercentsOfPartsAddUp` | app/finances/page.tsx:352 | the percentages of parts that make up a positive whole add up to 100 |
| `Ledger.Average` | app/partners/page.tsx:359-361 | an average exists iff the count is positive, and then times the count it is the total |

## Left out

- Time zones: `new Date().toISOString()` and `new Date(y, m, d).toISOString()` give the UTC calendar date. In a time zone ahead of UTC, the first of a month is therefore written as the last day of the month before. The model takes every such date to be the local calendar date. `new Date("YYYY-MM-DD")` read with `getMonth` is likewise taken as the calendar month written.
- Display formatting (`toLocaleString`, `toLocaleDateString`, `toFixed(1)`, the month labels of the six-month table) is not modelled. `Finances.MonthlyStats` keeps the month as a year–month pair rather than its label.
- String order (`Text.LexLe`) compares Unicode characters. JavaScript compares UTF-16 code units, which order differently only for characters outside the Basic Multilingual Plane. The compared strings here are ISO dates, which are ASCII.
- Case folding is ASCII only. JavaScript's `toLowerCase` also folds other alphabets.
- The backend is not part of this model:
  - Supabase queries, their ordering, joins and error handling.
  - Database defaults.
  - The `withdrawal_date >= ""` query is taken to compare as strings do.
  - Fetched rows carry the joined names already filled in. A missing join (`?.name || ""`) is just an empty name.
  - Fetched numeric columns are real numbers. `Number(null)` and a NaN stored by an unreadable form are not modelled once a row is read back.
- Toasts, dialogs, loading spinners, navigation and authentication are UI state with no bookkeeping content.
- The JavaScript number is taken to be an exact real: no floating-point rounding.
- `Dashboard.DashboardStatsOf`: the "Today's Sales" card uses the corrected `Dashboard.TodaysSales`, not the NaN-prone expression as written; the as-written form is `Dashboard.TodaysSalesAsWritten`.
- `Finances.FinancialDataOf` is the as-written all-time figure. The period-corrected figures are `Finances.FinancialDataFor`, whose restriction uses each table's own date column.

## Findings

| source | as written | input that shows it | evidently intended | confidence | as-written member | corrected member |
|---|---|---|---|---|---|---|
| app/finances/page.tsx:63-96 | the period selector builds a `sale_date >=` filter, but no query applies it, so every figure is all-time whatever period is selected | "This Month" on 15 May 2024 with one B2C sale of 100 dated 1 January 2023: revenue shows 100 | the figures cover only rows dated on or after the period's first day (revenue 0 here) | not executed | `Finances.FinancialDataAsWritten` (`Finances.PeriodIsIgnored`, `Finances.OldSaleCountedInThisMonth`) | `Finances.FinancialDataFor` (`Finances.AllTimeIsUnfiltered`, `Finances.PeriodKeepsItsRows`, `Finances.PeriodFiguresWithinAllTime`) |
| app/dashboard/page.tsx:69-72 | B2C rows are fetched without `amount_paid`, so a B2C sale dated today with a zero total adds `Number(0 \|\| undefined)`, NaN, and "Today's Sales" shows NaN | one B2C sale today with total 0 | today's sales sum to the totals of the day's sales (0 here) | not executed | `Dashboard.TodaysSalesAsWritten` (`Dashboard.NaNIffFreeSaleToday`, `Dashboard.ZeroTotalSaleShowsNaN`) | `Dashboard.TodaysSales` (`Dashboard.CorrectedAgreesWhenDefined`, `Dashboard.TodaysSalesAreTotals`) |
