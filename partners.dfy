/** The partners screen: the two partners' withdrawals, fetched for a chosen
    period, with a summary card per partner and the share of each. */
module Partners {
  import opened Wrappers
  import opened Text
  import opened Ledger
  import opened Search
  import opened Dates

  /** The two partners, in the order their cards are shown. */
  const PartnerNames: seq<string> := ["owner", "brother"]

  // ------------------------------------------------------------- the period

  /** The lower bound `fetchData` puts on the withdrawal date for the selected
      period: none for "all"; for any other period the ISO date the if-chain
      leaves in `startDate`, which stays "" when the period is not one of
      "month", "quarter" and "year". */
  method PeriodStart(period: string, today: Date) returns (start: Option<string>)
    ensures period == "all" ==> start.None?
    ensures period != "all" && PeriodStartDate(period, today).Some? ==>
      start == Some(Iso(PeriodStartDate(period, today).value))
    ensures period != "all" && PeriodStartDate(period, today).None? ==> start == Some("")
  {
    start := None;
    if period != "all" {
      var startDate := "";
      if period == "month" {
        startDate := Iso(Date(today.year, today.month, 1));
      } else if period == "quarter" {
        startDate := Iso(Date(today.year, QuarterStartMonth(today.month), 1));
      } else if period == "year" {
        startDate := Iso(Date(today.year, 1, 1));
      }
      start := Some(startDate);
    }
  }

  datatype Withdrawal = Withdrawal(partnerName: string, amount: real, withdrawalDate: string, description: string)

  function PartnerNameOf(w: Withdrawal): string { w.partnerName }
  function DescriptionOf(w: Withdrawal): string { w.description }
  function AmountOf(w: Withdrawal): real { w.amount }
  function WithdrawalDateOf(w: Withdrawal): string { w.withdrawalDate }

  /** The rows the query returns: all of them, or those dated on or after the start (`gte`). */
  function Fetched(withdrawals: seq<Withdrawal>, start: Option<string>): (r: seq<Withdrawal>)
    ensures start.None? ==> r == withdrawals
    ensures start.Some? ==> r == Filter(withdrawals, DatedFrom(WithdrawalDateOf, start.value))
  {
    match start
    case None => withdrawals
    case Some(s) => Filter(withdrawals, DatedFrom(WithdrawalDateOf, s))
  }

  /** For "month", "quarter" and "year", the fetched rows are exactly the
      well-dated withdrawals on or after the first day of that period, and
      that day is on or before today. */
  lemma PeriodKeepsFromItsStart(withdrawals: seq<Withdrawal>, period: string, today: Date, start: Option<string>)
    requires ValidDate(today)
    requires WellDated(withdrawals, WithdrawalDateOf)
    requires period == "month" || period == "quarter" || period == "year"
    requires start == Some(Iso(PeriodStartDate(period, today).value))
    ensures var d := PeriodStartDate(period, today).value;
      && DateLe(d, today)
      && KeptFromStart(withdrawals, Fetched(withdrawals, start), WithdrawalDateOf, d)
  {
    PeriodStartBeforeToday(period, today);
    FromFilterIsOnOrAfter(withdrawals, WithdrawalDateOf, PeriodStartDate(period, today).value);
  }

  /** A period other than "all", "month", "quarter" and "year" leaves the
      bound at "", and every date is `>= ""`: all withdrawals are fetched. */
  lemma UnknownPeriodKeepsAll(withdrawals: seq<Withdrawal>)
    ensures Fetched(withdrawals, Some("")) == withdrawals
  {
    forall w | w in withdrawals ensures DatedFrom(WithdrawalDateOf, "")(w) {
      assert LexLe("", WithdrawalDateOf(w));
      assert DatedFrom(WithdrawalDateOf, "")(w) == LexLe("", WithdrawalDateOf(w));
    }
    FilterKeepsAll(withdrawals, DatedFrom(WithdrawalDateOf, ""));
  }

  // ------------------------------------------------------------- the form

  /** The withdrawal form; the amount as `Number.parseFloat` reads it (`None` is NaN). */
  datatype WithdrawalForm = WithdrawalForm(
    partnerName: string, amount: Option<real>, description: string, withdrawalDate: string)

  /** The form as it is opened and reset: partner "owner", today's ISO date, the rest empty. */
  function BlankForm(today: Date): (f: WithdrawalForm)
    ensures f.partnerName == "owner" && f.partnerName in PartnerNames
    ensures f.amount.None? && f.description == ""
    ensures f.withdrawalDate == Iso(today)
  {
    WithdrawalForm("owner", None, "", Iso(today))
  }

  datatype WithdrawalInsert = WithdrawalInsert(
    partnerName: string, amount: Option<real>, withdrawalDate: string, description: string)

  /** The row `handleSubmit` inserts: every field as entered, the amount parsed. */
  function NewWithdrawal(form: WithdrawalForm): (r: WithdrawalInsert)
    ensures r.partnerName == form.partnerName && r.amount == form.amount
    ensures r.withdrawalDate == form.withdrawalDate && r.description == form.description
  {
    WithdrawalInsert(form.partnerName, form.amount, form.withdrawalDate, form.description)
  }

  // ------------------------------------------------------------ the figures

  /** `filteredWithdrawals`: by partner name or description. */
  function FilteredWithdrawals(withdrawals: seq<Withdrawal>, term: string): (r: seq<Withdrawal>)
    ensures IsSubsequence(r, withdrawals)
    ensures forall i :: 0 <= i < |r| ==> r[i] in withdrawals && Matches(PartnerNameOf, DescriptionOf, term)(r[i])
    ensures forall i :: 0 <= i < |withdrawals| && Matches(PartnerNameOf, DescriptionOf, term)(withdrawals[i]) ==> withdrawals[i] in r
  {
    SearchRows(withdrawals, PartnerNameOf, DescriptionOf, term)
  }

  /** The ISO date of the first day of today's month: `thisMonthStart`. */
  function ThisMonthStart(today: Date): string {
    Iso(MonthStart(YearMonth(today.year, today.month)))
  }

  /** One partner's card. */
  datatype PartnerSummary = PartnerSummary(
    partnerName: string, totalWithdrawals: real, withdrawalCount: nat,
    lastWithdrawal: string, thisMonthWithdrawals: real)

  /** The card of one partner: the total, count and latest date of that
      partner's withdrawals, and the total of those dated on or after
      `thisMonthStart`. */
  function SummaryOf(withdrawals: seq<Withdrawal>, name: string, today: Date): PartnerSummary {
    var mine := Group(withdrawals, PartnerNameOf, name);
    PartnerSummary(
      name, Sum(mine, AmountOf), |mine|, FirstDateOrNever(mine, WithdrawalDateOf),
      Sum(Filter(mine, DatedFrom(WithdrawalDateOf, ThisMonthStart(today))), AmountOf))
  }

  /** `["owner", "brother"].map(...)`. */
  function PartnerSummaries(withdrawals: seq<Withdrawal>, today: Date): (cards: seq<PartnerSummary>)
    ensures |cards| == 2
    ensures cards[0].partnerName == "owner" && cards[1].partnerName == "brother"
  {
    [SummaryOf(withdrawals, "owner", today), SummaryOf(withdrawals, "brother", today)]
  }

  /** `cards.find((p) => p.partner_name === name)?.totalWithdrawals || 0`. */
  function FindTotal(cards: seq<PartnerSummary>, name: string): real {
    if cards == [] then 0.0
    else if cards[0].partnerName == name then cards[0].totalWithdrawals
    else FindTotal(cards[1..], name)
  }

  /** "Total Withdrawals". */
  function TotalWithdrawals(withdrawals: seq<Withdrawal>): real {
    Sum(withdrawals, AmountOf)
  }

  /** The owner's and the brother's totals as the cards find them. */
  function OwnerTotal(withdrawals: seq<Withdrawal>, today: Date): real {
    FindTotal(PartnerSummaries(withdrawals, today), "owner")
  }

  function BrotherTotal(withdrawals: seq<Withdrawal>, today: Date): real {
    FindTotal(PartnerSummaries(withdrawals, today), "brother")
  }

  /** "This Month": the withdrawals dated on or after `thisMonthStart`. */
  function ThisMonthTotal(withdrawals: seq<Withdrawal>, today: Date): real {
    Sum(Filter(withdrawals, DatedFrom(WithdrawalDateOf, ThisMonthStart(today))), AmountOf)
  }

  /** The `find` always succeeds: each partner's total is the sum of that partner's withdrawals. */
  lemma FoundTotalsAreThePartners(withdrawals: seq<Withdrawal>, today: Date)
    ensures OwnerTotal(withdrawals, today) == Sum(Group(withdrawals, PartnerNameOf, "owner"), AmountOf)
    ensures BrotherTotal(withdrawals, today) == Sum(Group(withdrawals, PartnerNameOf, "brother"), AmountOf)
  {
    var cards := PartnerSummaries(withdrawals, today);
    assert cards[0].partnerName != "brother";
    assert cards[1..][0] == cards[1] && cards[1].partnerName == "brother";
    assert FindTotal(cards, "brother") == FindTotal(cards[1..], "brother");
  }

  /** When every withdrawal is the owner's or the brother's, the two partner
      totals add up to "Total Withdrawals", the two counts to the number of
      withdrawals, and the two this-month figures to "This Month". */
  lemma PartnersSplitTheTotals(withdrawals: seq<Withdrawal>, today: Date)
    requires forall w :: w in withdrawals ==> w.partnerName in PartnerNames
    ensures OwnerTotal(withdrawals, today) + BrotherTotal(withdrawals, today) == TotalWithdrawals(withdrawals)
    ensures var cards := PartnerSummaries(withdrawals, today);
      cards[0].withdrawalCount + cards[1].withdrawalCount == |withdrawals|
    ensures var cards := PartnerSummaries(withdrawals, today);
      cards[0].thisMonthWithdrawals + cards[1].thisMonthWithdrawals == ThisMonthTotal(withdrawals, today)
  {
    FoundTotalsAreThePartners(withdrawals, today);
    TwoGroups(withdrawals, AmountOf);
    var recent := Filter(withdrawals, DatedFrom(WithdrawalDateOf, ThisMonthStart(today)));
    forall w | w in recent ensures w.partnerName in PartnerNames {
      var i :| 0 <= i < |recent| && recent[i] == w;
    }
    TwoGroups(recent, AmountOf);
    FilterCommutes(withdrawals, KeyIs(PartnerNameOf, "owner"), DatedFrom(WithdrawalDateOf, ThisMonthStart(today)));
    FilterCommutes(withdrawals, KeyIs(PartnerNameOf, "brother"), DatedFrom(WithdrawalDateOf, ThisMonthStart(today)));
  }

  lemma TwoGroups(rows: seq<Withdrawal>, amount: Withdrawal -> real)
    requires forall w :: w in rows ==> w.partnerName in PartnerNames
    ensures Sum(Group(rows, PartnerNameOf, "owner"), amount) + Sum(Group(rows, PartnerNameOf, "brother"), amount)
         == Sum(rows, amount)
    ensures |Group(rows, PartnerNameOf, "owner")| + |Group(rows, PartnerNameOf, "brother")| == |rows|
  {
    var keys := PartnerNames;
    assert keys[1..] == ["brother"] && keys[1..][1..] == [];
    GroupsPartition(keys, rows, PartnerNameOf, amount);
    assert SumOfGroups(keys[1..], rows, PartnerNameOf, amount) == Sum(Group(rows, PartnerNameOf, "brother"), amount);
    assert CountOfGroups(keys[1..], rows, PartnerNameOf) == |Group(rows, PartnerNameOf, "brother")|;
  }

  /** On well-dated withdrawals none of which is dated after today, "on or
      after the 1st of this month" is the calendar month of today. */
  lemma ThisMonthIsCalendarMonth(withdrawals: seq<Withdrawal>, today: Date)
    requires ValidDate(today)
    requires WellDated(withdrawals, WithdrawalDateOf)
    requires forall i :: 0 <= i < |withdrawals| ==> DateLe(ParseIso(withdrawals[i].withdrawalDate).value, today)
    ensures ThisMonthTotal(withdrawals, today)
         == Sum(Filter(withdrawals, DatedIn(WithdrawalDateOf, YearMonth(today.year, today.month))), AmountOf)
  {
    var ym := YearMonth(today.year, today.month);
    forall w | w in withdrawals
      ensures DatedFrom(WithdrawalDateOf, ThisMonthStart(today))(w) == DatedIn(WithdrawalDateOf, ym)(w)
    {
      var i :| 0 <= i < |withdrawals| && withdrawals[i] == w;
      OnOrAfterIsDateLe(w.withdrawalDate, MonthStart(ym));
    }
    FilterCongruent(withdrawals, DatedFrom(WithdrawalDateOf, ThisMonthStart(today)), DatedIn(WithdrawalDateOf, ym));
  }

  // ------------------------------------------------------------- the shares

  /** "x% of total" under a partner's figure; `None` is "0% of total". */
  function ShareOfTotal(partTotal: real, total: real): Option<real> {
    Percent(partTotal, total)
  }

  /** When every withdrawal is the owner's or the brother's and something was
      withdrawn, the two shares add up to 100%; when nothing was withdrawn
      both cards show "0% of total". */
  lemma SharesAddUp(withdrawals: seq<Withdrawal>, today: Date)
    requires forall w :: w in withdrawals ==> w.partnerName in PartnerNames
    ensures var total := TotalWithdrawals(withdrawals);
      var owner := ShareOfTotal(OwnerTotal(withdrawals, today), total);
      var brother := ShareOfTotal(BrotherTotal(withdrawals, today), total);
      && (total > 0.0 ==> owner.Some? && brother.Some? && owner.value + brother.value == 100.0)
      && (total <= 0.0 ==> owner.None? && brother.None?)
  {
    PartnersSplitTheTotals(withdrawals, today);
    var total := TotalWithdrawals(withdrawals);
    if total > 0.0 {
      PercentsOfTwoPartsAddUp(OwnerTotal(withdrawals, today), BrotherTotal(withdrawals, today), total);
    }
  }

  /** "Average per withdrawal" on a card; `None` when the partner has none. */
  function AveragePerWithdrawal(card: PartnerSummary): Option<real> {
    Average(card.totalWithdrawals, card.withdrawalCount)
  }
}
