/** The list bookkeeping every screen repeats on its fetched rows:
    `filter`, `reduce` to a sum, grouping by a key, "first row or Never",
    and the percentage and average shown beside a total. */
module Ledger {
  import opened Wrappers
  import opened Text
  import opened Dates

  /** `rows.reduce((sum, r) => sum + amount(r), 0)`. Amounts are exact reals,
      so the direction of the fold does not change the sum. */
  function Sum<T>(rows: seq<T>, amount: T -> real): real {
    if rows == [] then 0.0 else amount(rows[0]) + Sum(rows[1..], amount)
  }

  /** `rows?.reduce(...) || 0`: a result set the backend did not return adds nothing. */
  function SumOrZero<T>(rows: Option<seq<T>>, amount: T -> real): (s: real)
    ensures rows.None? ==> s == 0.0
    ensures rows.Some? ==> s == Sum(rows.value, amount)
  {
    match rows
    case None => 0.0
    case Some(rs) => Sum(rs, amount)
  }

  /** `rows.filter(keep)`. */
  function Filter<T(==)>(rows: seq<T>, keep: T -> bool): (r: seq<T>)
    ensures |r| <= |rows|
    ensures forall i :: 0 <= i < |r| ==> r[i] in rows && keep(r[i])
    ensures forall i :: 0 <= i < |rows| && keep(rows[i]) ==> rows[i] in r
  {
    if rows == [] then []
    else if keep(rows[0]) then [rows[0]] + Filter(rows[1..], keep)
    else Filter(rows[1..], keep)
  }

  function Not<T>(keep: T -> bool): T -> bool {
    (x: T) => !keep(x)
  }

  /** `xs` is `ys` with some elements deleted, the rest in their original order. */
  predicate IsSubsequence<T(==)>(xs: seq<T>, ys: seq<T>)
    decreases |ys|
  {
    xs == [] ||
    (ys != [] &&
     ((xs[0] == ys[0] && IsSubsequence(xs[1..], ys[1..])) || IsSubsequence(xs, ys[1..])))
  }

  /** A filter keeps the order of the rows it keeps. */
  lemma {:induction false} FilterIsSubsequence<T>(rows: seq<T>, keep: T -> bool)
    ensures IsSubsequence(Filter(rows, keep), rows)
  {
    if rows != [] {
      FilterIsSubsequence(rows[1..], keep);
      if keep(rows[0]) {
        assert Filter(rows, keep)[1..] == Filter(rows[1..], keep);
      }
    }
  }

  /** What a filter keeps and what it drops are, together, exactly the rows:
      nothing is duplicated and nothing lost. */
  lemma {:induction false} FilterSplitsRows<T>(rows: seq<T>, keep: T -> bool)
    ensures multiset(Filter(rows, keep)) + multiset(Filter(rows, Not(keep))) == multiset(rows)
  {
    if rows != [] {
      FilterSplitsRows(rows[1..], keep);
      assert rows == [rows[0]] + rows[1..];
    }
  }

  /** A filter keeps every copy of a row it keeps and no copy of a row it drops. */
  lemma {:induction false} FilterCounts<T>(rows: seq<T>, keep: T -> bool)
    ensures forall x :: multiset(Filter(rows, keep))[x] == if keep(x) then multiset(rows)[x] else 0
  {
    if rows != [] {
      FilterCounts(rows[1..], keep);
      assert rows == [rows[0]] + rows[1..];
    }
  }

  lemma {:induction false} FilterKeepsAll<T>(rows: seq<T>, keep: T -> bool)
    requires forall x :: x in rows ==> keep(x)
    ensures Filter(rows, keep) == rows
  {
    if rows != [] {
      FilterKeepsAll(rows[1..], keep);
      assert rows == [rows[0]] + rows[1..];
    }
  }

  /** Two tests that agree on every row filter the rows alike. */
  lemma {:induction false} FilterCongruent<T>(rows: seq<T>, p: T -> bool, q: T -> bool)
    requires forall x :: x in rows ==> p(x) == q(x)
    ensures Filter(rows, p) == Filter(rows, q)
  {
    if rows != [] {
      FilterCongruent(rows[1..], p, q);
    }
  }

  /** Two filters may be applied in either order. */
  lemma {:induction false} FilterCommutes<T>(rows: seq<T>, p: T -> bool, q: T -> bool)
    ensures Filter(Filter(rows, p), q) == Filter(Filter(rows, q), p)
  {
    if rows != [] {
      FilterCommutes(rows[1..], p, q);
    }
  }

  /** Filtering first by a weaker test changes nothing. */
  lemma {:induction false} FilterOfFilter<T>(rows: seq<T>, p: T -> bool, q: T -> bool)
    requires forall x :: x in rows && q(x) ==> p(x)
    ensures Filter(Filter(rows, p), q) == Filter(rows, q)
  {
    if rows != [] {
      FilterOfFilter(rows[1..], p, q);
    }
  }

  lemma {:induction false} SumOfConcat<T>(a: seq<T>, b: seq<T>, amount: T -> real)
    ensures Sum(a + b, amount) == Sum(a, amount) + Sum(b, amount)
  {
    if a == [] {
      assert a + b == b;
    } else {
      assert (a + b)[1..] == a[1..] + b;
      SumOfConcat(a[1..], b, amount);
    }
  }

  /** The rows a filter keeps and the rows it drops add up to the whole. */
  lemma {:induction false} SumSplit<T>(rows: seq<T>, amount: T -> real, keep: T -> bool)
    ensures Sum(rows, amount) == Sum(Filter(rows, keep), amount) + Sum(Filter(rows, Not(keep)), amount)
  {
    if rows != [] {
      SumSplit(rows[1..], amount, keep);
      if keep(rows[0]) {
        assert Filter(rows, keep)[1..] == Filter(rows[1..], keep);
      } else {
        assert Filter(rows, Not(keep))[1..] == Filter(rows[1..], Not(keep));
      }
    }
  }

  /** Summing two columns separately is summing their row-wise total. */
  lemma {:induction false} SumOfColumns<T>(rows: seq<T>, f: T -> real, g: T -> real, h: T -> real)
    requires forall x :: x in rows ==> f(x) + g(x) == h(x)
    ensures Sum(rows, f) + Sum(rows, g) == Sum(rows, h)
  {
    if rows != [] {
      SumOfColumns(rows[1..], f, g, h);
    }
  }

  /** A sum over rows that all carry the same amount in two columns is the same sum. */
  lemma {:induction false} SumCongruent<T>(rows: seq<T>, f: T -> real, g: T -> real)
    requires forall x :: x in rows ==> f(x) == g(x)
    ensures Sum(rows, f) == Sum(rows, g)
  {
    if rows != [] {
      SumCongruent(rows[1..], f, g);
    }
  }

  // ---------------------------------------------------------------- grouping

  function KeyIs<T, K(==)>(keyOf: T -> K, k: K): T -> bool {
    (r: T) => keyOf(r) == k
  }

  /** `rows.filter((r) => keyOf(r) === k)`: the rows of one truck, machine, product or partner. */
  function Group<T(==), K(==)>(rows: seq<T>, keyOf: T -> K, k: K): (g: seq<T>)
    ensures forall i :: 0 <= i < |g| ==> g[i] in rows && keyOf(g[i]) == k
    ensures forall i :: 0 <= i < |rows| && keyOf(rows[i]) == k ==> rows[i] in g
  {
    Filter(rows, KeyIs(keyOf, k))
  }

  predicate Distinct<K(==)>(keys: seq<K>) {
    forall i, j :: 0 <= i < j < |keys| ==> keys[i] != keys[j]
  }

  /** The group totals of `keys`, added up in key order. */
  function SumOfGroups<T(==), K(==)>(keys: seq<K>, rows: seq<T>, keyOf: T -> K, amount: T -> real): real {
    if keys == [] then 0.0
    else Sum(Group(rows, keyOf, keys[0]), amount) + SumOfGroups(keys[1..], rows, keyOf, amount)
  }

  /** The group sizes of `keys`, added up. */
  function CountOfGroups<T(==), K(==)>(keys: seq<K>, rows: seq<T>, keyOf: T -> K): nat {
    if keys == [] then 0
    else |Group(rows, keyOf, keys[0])| + CountOfGroups(keys[1..], rows, keyOf)
  }

  /** Dropping the rows of a key that is not listed does not change the groups of the listed keys. */
  lemma {:induction false} GroupsIgnoreOtherKey<T, K>(
    keys: seq<K>, rows: seq<T>, keyOf: T -> K, amount: T -> real, k0: K)
    requires k0 !in keys
    ensures SumOfGroups(keys, Filter(rows, Not(KeyIs(keyOf, k0))), keyOf, amount)
         == SumOfGroups(keys, rows, keyOf, amount)
    ensures CountOfGroups(keys, Filter(rows, Not(KeyIs(keyOf, k0))), keyOf)
         == CountOfGroups(keys, rows, keyOf)
  {
    if keys != [] {
      FilterOfFilter(rows, Not(KeyIs(keyOf, k0)), KeyIs(keyOf, keys[0]));
      GroupsIgnoreOtherKey(keys[1..], rows, keyOf, amount, k0);
    }
  }

  /** When every row's key is one of `keys` and no key is listed twice, the
      groups partition the rows: their totals add up to the grand total and
      their sizes to the number of rows. */
  lemma {:induction false} GroupsPartition<T, K>(
    keys: seq<K>, rows: seq<T>, keyOf: T -> K, amount: T -> real)
    requires Distinct(keys)
    requires forall r :: r in rows ==> keyOf(r) in keys
    ensures SumOfGroups(keys, rows, keyOf, amount) == Sum(rows, amount)
    ensures CountOfGroups(keys, rows, keyOf) == |rows|
  {
    if keys == [] {
      assert forall i :: 0 <= i < |rows| ==> rows[i] in rows;
    } else {
      var k0 := keys[0];
      var rest := Filter(rows, Not(KeyIs(keyOf, k0)));
      SumSplit(rows, amount, KeyIs(keyOf, k0));
      FilterSplitsRows(rows, KeyIs(keyOf, k0));
      assert |multiset(rows)| == |Group(rows, keyOf, k0)| + |rest|;
      forall r | r in rest ensures keyOf(r) in keys[1..] {
        assert keyOf(r) in keys && keyOf(r) != k0;
      }
      assert k0 !in keys[1..] by {
        forall j | 0 <= j < |keys[1..]| ensures keys[1..][j] != k0 {
          assert keys[1..][j] == keys[j + 1];
        }
      }
      GroupsPartition(keys[1..], rest, keyOf, amount);
      GroupsIgnoreOtherKey(keys[1..], rows, keyOf, amount, k0);
    }
  }

  // ------------------------------------------------------ first row or Never

  /** `rows[0]?.date || "Never"`: the date of the first row, or "Never" when
      there is no row or its date is empty. */
  function FirstDateOrNever<T>(rows: seq<T>, dateOf: T -> string): (s: string)
    ensures rows == [] ==> s == "Never"
    ensures rows != [] && dateOf(rows[0]) != "" ==> s == dateOf(rows[0])
    ensures s == "Never" || (rows != [] && s == dateOf(rows[0]))
  {
    if rows == [] || dateOf(rows[0]) == "" then "Never" else dateOf(rows[0])
  }

  /** Rows ordered newest first, as every screen asks the backend for. */
  predicate NewestFirst<T>(rows: seq<T>, dateOf: T -> string) {
    forall i, j :: 0 <= i < j < |rows| ==> LexLe(dateOf(rows[j]), dateOf(rows[i]))
  }

  lemma {:induction false} FilterKeepsNewestFirst<T>(rows: seq<T>, dateOf: T -> string, keep: T -> bool)
    requires NewestFirst(rows, dateOf)
    ensures NewestFirst(Filter(rows, keep), dateOf)
  {
    if rows != [] {
      assert NewestFirst(rows[1..], dateOf) by {
        forall i, j | 0 <= i < j < |rows[1..]|
          ensures LexLe(dateOf(rows[1..][j]), dateOf(rows[1..][i]))
        {
          assert rows[1..][j] == rows[j + 1] && rows[1..][i] == rows[i + 1];
        }
      }
      FilterKeepsNewestFirst(rows[1..], dateOf, keep);
      if keep(rows[0]) {
        var r := Filter(rows, keep);
        forall i, j | 0 <= i < j < |r| ensures LexLe(dateOf(r[j]), dateOf(r[i])) {
          if i > 0 {
            assert r[i] == Filter(rows[1..], keep)[i - 1] && r[j] == Filter(rows[1..], keep)[j - 1];
          } else {
            assert r[j] in rows[1..];
            var k :| 0 <= k < |rows[1..]| && rows[1..][k] == r[j];
            assert rows[k + 1] == r[j];
          }
        }
      }
    }
  }

  /** On rows fetched newest first, the first date of a group is the latest
      date in that group: "last expense", "last maintenance", "last withdrawal". */
  lemma FirstOfGroupIsLatest<T, K>(rows: seq<T>, keyOf: T -> K, k: K, dateOf: T -> string, x: T)
    requires NewestFirst(rows, dateOf)
    requires x in rows && keyOf(x) == k
    requires FirstDateOrNever(Group(rows, keyOf, k), dateOf) != "Never"
    ensures LexLe(dateOf(x), FirstDateOrNever(Group(rows, keyOf, k), dateOf))
  {
    var g := Group(rows, keyOf, k);
    FilterKeepsNewestFirst(rows, dateOf, KeyIs(keyOf, k));
    assert x in g;
    var j :| 0 <= j < |g| && g[j] == x;
    if j == 0 {
      LexLeReflexive(dateOf(x));
    }
  }

  /** Amounts that are never negative add up to a sum that is not negative. */
  lemma {:induction false} SumNonNegative<T>(rows: seq<T>, amount: T -> real)
    requires forall x :: x in rows ==> amount(x) >= 0.0
    ensures Sum(rows, amount) >= 0.0
  {
    if rows != [] {
      assert rows[0] in rows;
      SumNonNegative(rows[1..], amount);
    }
  }

  /** With amounts that are never negative, the rows a filter keeps sum to at most the whole. */
  lemma FilterSumsLess<T>(rows: seq<T>, amount: T -> real, keep: T -> bool)
    requires forall x :: x in rows ==> amount(x) >= 0.0
    ensures Sum(Filter(rows, keep), amount) <= Sum(rows, amount)
  {
    SumSplit(rows, amount, keep);
    var rest := Filter(rows, Not(keep));
    forall x | x in rest ensures amount(x) >= 0.0 {
      var i :| 0 <= i < |rest| && rest[i] == x;
    }
    SumNonNegative(rest, amount);
  }

  /** When every row `q` keeps is also kept by `p`, the `q` rows' sum is part
      of the `p` rows' sum, and with amounts that are never negative it is at most that sum. */
  lemma NarrowerFilterSumsLess<T>(rows: seq<T>, amount: T -> real, p: T -> bool, q: T -> bool)
    requires forall x :: x in rows && q(x) ==> p(x)
    ensures Sum(Filter(rows, p), amount) == Sum(Filter(rows, q), amount) + Sum(Filter(Filter(rows, p), Not(q)), amount)
    ensures (forall x :: x in rows ==> amount(x) >= 0.0) ==> Sum(Filter(rows, q), amount) <= Sum(Filter(rows, p), amount)
  {
    SumSplit(Filter(rows, p), amount, q);
    FilterOfFilter(rows, p, q);
    if forall x :: x in rows ==> amount(x) >= 0.0 {
      var rest := Filter(Filter(rows, p), Not(q));
      forall x | x in rest ensures amount(x) >= 0.0 {
        var i :| 0 <= i < |rest| && rest[i] == x;
      }
      SumNonNegative(rest, amount);
    }
  }

  // ------------------------------------------------------ per-key summaries

  /** `items.map((x) => keyOf(x))`: the key of every item, in order. */
  function KeysOf<T, K>(items: seq<T>, keyOf: T -> K): (keys: seq<K>)
    ensures |keys| == |items|
    ensures forall i :: 0 <= i < |items| ==> keys[i] == keyOf(items[i])
  {
    if items == [] then [] else [keyOf(items[0])] + KeysOf(items[1..], keyOf)
  }

  /** One summary card of `keys.map(...)`: the rows of the key, their total,
      their number and the date of the first of them (or "Never"). */
  datatype KeyStat<K> = KeyStat(key: K, total: real, count: nat, last: string)

  /** `keys.map((k) => { rows of k; total; rows[0]?.date || "Never"; count })`. */
  function StatsByKey<T(==), K(==)>(keys: seq<K>, rows: seq<T>, keyOf: T -> K, amount: T -> real, dateOf: T -> string)
    : (stats: seq<KeyStat<K>>)
    ensures |stats| == |keys|
    ensures forall i :: 0 <= i < |keys| ==> stats[i].key == keys[i]
  {
    if keys == [] then []
    else
      var g := Group(rows, keyOf, keys[0]);
      [KeyStat(keys[0], Sum(g, amount), |g|, FirstDateOrNever(g, dateOf))]
        + StatsByKey(keys[1..], rows, keyOf, amount, dateOf)
  }

  function StatTotal<K>(s: KeyStat<K>): real { s.total }

  function CountTotal<K>(stats: seq<KeyStat<K>>): nat {
    if stats == [] then 0 else stats[0].count + CountTotal(stats[1..])
  }

  /** The card of the `i`-th key summarises the group of that key. */
  lemma {:induction false} StatOfKey<T, K>(
    keys: seq<K>, rows: seq<T>, keyOf: T -> K, amount: T -> real, dateOf: T -> string, i: int)
    requires 0 <= i < |keys|
    ensures var g := Group(rows, keyOf, keys[i]);
      StatsByKey(keys, rows, keyOf, amount, dateOf)[i] == KeyStat(keys[i], Sum(g, amount), |g|, FirstDateOrNever(g, dateOf))
  {
    var stats := StatsByKey(keys, rows, keyOf, amount, dateOf);
    if i > 0 {
      StatOfKey(keys[1..], rows, keyOf, amount, dateOf, i - 1);
      assert keys[1..][i - 1] == keys[i];
      assert stats[i] == StatsByKey(keys[1..], rows, keyOf, amount, dateOf)[i - 1];
    }
  }

  lemma {:induction false} StatsAreGroups<T, K>(
    keys: seq<K>, rows: seq<T>, keyOf: T -> K, amount: T -> real, dateOf: T -> string)
    ensures Sum(StatsByKey(keys, rows, keyOf, amount, dateOf), StatTotal) == SumOfGroups(keys, rows, keyOf, amount)
    ensures CountTotal(StatsByKey(keys, rows, keyOf, amount, dateOf)) == CountOfGroups(keys, rows, keyOf)
  {
    if keys != [] {
      StatsAreGroups(keys[1..], rows, keyOf, amount, dateOf);
      assert StatsByKey(keys, rows, keyOf, amount, dateOf)[1..] == StatsByKey(keys[1..], rows, keyOf, amount, dateOf);
    }
  }

  /** When no key is listed twice and every row has a listed key, the cards
      split the rows: their totals add up to the grand total and their counts
      to the number of rows. */
  lemma StatsByKeyPartition<T, K>(
    keys: seq<K>, rows: seq<T>, keyOf: T -> K, amount: T -> real, dateOf: T -> string)
    requires Distinct(keys)
    requires forall r :: r in rows ==> keyOf(r) in keys
    ensures Sum(StatsByKey(keys, rows, keyOf, amount, dateOf), StatTotal) == Sum(rows, amount)
    ensures CountTotal(StatsByKey(keys, rows, keyOf, amount, dateOf)) == |rows|
  {
    StatsAreGroups(keys, rows, keyOf, amount, dateOf);
    GroupsPartition(keys, rows, keyOf, amount);
  }

  /** On rows fetched newest first, a card's date is the latest date among
      the rows of its key; a key without rows shows "Never", 0 and a count of 0. */
  lemma StatLastIsLatest<T, K>(
    keys: seq<K>, rows: seq<T>, keyOf: T -> K, amount: T -> real, dateOf: T -> string, i: int)
    requires 0 <= i < |keys|
    ensures var s := StatsByKey(keys, rows, keyOf, amount, dateOf)[i];
      && (NewestFirst(rows, dateOf) && s.last != "Never" ==>
            forall x :: x in rows && keyOf(x) == keys[i] ==> LexLe(dateOf(x), s.last))
      && ((forall j :: 0 <= j < |rows| ==> keyOf(rows[j]) != keys[i]) ==>
            s.last == "Never" && s.total == 0.0 && s.count == 0)
  {
    StatOfKey(keys, rows, keyOf, amount, dateOf, i);
    var g := Group(rows, keyOf, keys[i]);
    var s := StatsByKey(keys, rows, keyOf, amount, dateOf)[i];
    if NewestFirst(rows, dateOf) && s.last != "Never" {
      forall x | x in rows && keyOf(x) == keys[i] ensures LexLe(dateOf(x), s.last) {
        FirstOfGroupIsLatest(rows, keyOf, keys[i], dateOf, x);
      }
    }
  }

  // ------------------------------------------------------------ date tests

  /** `new Date(dateOf(r))` has the month and year of `ym`. */
  function DatedIn<T>(dateOf: T -> string, ym: YearMonth): T -> bool {
    (r: T) => InMonth(dateOf(r), ym)
  }

  /** `lo <= dateOf(r) && dateOf(r) <= hi` on ISO strings. */
  function DatedBetween<T>(dateOf: T -> string, lo: Date, hi: Date): T -> bool {
    (r: T) => InRange(dateOf(r), lo, hi)
  }

  /** `dateOf(r) === day`. */
  function DatedOn<T>(dateOf: T -> string, day: string): T -> bool {
    (r: T) => dateOf(r) == day
  }

  /** `dateOf(r) >= start` on strings. */
  function DatedFrom<T>(dateOf: T -> string, start: string): T -> bool {
    (r: T) => LexLe(start, dateOf(r))
  }

  /** Every row's date reads as a valid date, as a database date column guarantees. */
  predicate WellDated<T>(rows: seq<T>, dateOf: T -> string) {
    forall i :: 0 <= i < |rows| ==> ParseIso(dateOf(rows[i])).Some?
  }

  /** `kept` holds exactly the rows of `rows` dated on or after `start`. */
  predicate KeptFromStart<T(==)>(rows: seq<T>, kept: seq<T>, dateOf: T -> string, start: Date)
    requires WellDated(rows, dateOf)
  {
    forall i :: 0 <= i < |rows| ==> (rows[i] in kept <==> DateLe(start, ParseIso(dateOf(rows[i])).value))
  }

  /** On well-dated rows, "date `>=` the ISO form of `start`" keeps exactly
      the rows dated on or after `start`. */
  lemma FromFilterIsOnOrAfter<T>(rows: seq<T>, dateOf: T -> string, start: Date)
    requires ValidDate(start)
    requires WellDated(rows, dateOf)
    ensures KeptFromStart(rows, Filter(rows, DatedFrom(dateOf, Iso(start))), dateOf, start)
  {
    forall i | 0 <= i < |rows|
      ensures rows[i] in Filter(rows, DatedFrom(dateOf, Iso(start))) <==> DateLe(start, ParseIso(dateOf(rows[i])).value)
    {
      OnOrAfterIsDateLe(dateOf(rows[i]), start);
    }
  }

  /** On well-dated rows, "same month and year as `ym`" keeps exactly the rows
      from the 1st to the last day of that month, compared as strings. */
  lemma MonthFilterIsRange<T>(rows: seq<T>, dateOf: T -> string, ym: YearMonth)
    requires ValidMonth(ym)
    requires WellDated(rows, dateOf)
    ensures Filter(rows, DatedIn(dateOf, ym)) == Filter(rows, DatedBetween(dateOf, MonthStart(ym), MonthEnd(ym)))
  {
    forall x | x in rows
      ensures DatedIn(dateOf, ym)(x) == DatedBetween(dateOf, MonthStart(ym), MonthEnd(ym))(x)
    {
      MonthRangeIsMonth(dateOf(x), ym);
    }
    FilterCongruent(rows, DatedIn(dateOf, ym), DatedBetween(dateOf, MonthStart(ym), MonthEnd(ym)));
  }

  // ----------------------------------------------- percentage and average

  /** `whole > 0 ? (part / whole) * 100 : <fallback>`; `None` is the fallback text. */
  function Percent(part: real, whole: real): (p: Option<real>)
    ensures p.Some? <==> whole > 0.0
    ensures p.Some? ==> p.value * whole == part * 100.0
  {
    if whole > 0.0 then Some(part / whole * 100.0) else None
  }

  /** `count > 0 ? total / count : "0"`; `None` is the fallback text. */
  function Average(total: real, count: nat): (a: Option<real>)
    ensures a.Some? <==> count > 0
    ensures a.Some? ==> a.value * count as real == total
  {
    if count > 0 then Some(total / count as real) else None
  }

  /** Multiplying by a positive number keeps the order. */
  lemma ScaledOrder(x: real, y: real, w: real)
    requires w > 0.0
    ensures x * w <= y * w <==> x <= y
    ensures x * w < y * w <==> x < y
  {
    assert x * w - y * w == (x - y) * w;
  }

  /** A part no larger than the whole is at most 100% of it, and the
      percentage has the sign of the part. */
  lemma PercentOfPart(part: real, whole: real)
    requires whole > 0.0
    ensures part <= whole ==> Percent(part, whole).value <= 100.0
    ensures Percent(part, whole).value < 0.0 <==> part < 0.0
  {
    var p := Percent(part, whole).value;
    assert p * whole == part * 100.0;
    ScaledOrder(p, 100.0, whole);
    ScaledOrder(p, 0.0, whole);
  }

  lemma CancelPositive(x: real, y: real, w: real)
    requires w > 0.0 && x * w == y * w
    ensures x == y
  {
    assert (x - y) * w == 0.0;
  }

  /** The percentages of three parts of a positive whole add up to 100. */
  lemma PercentsOfPartsAddUp(a: real, b: real, c: real, whole: real)
    requires whole > 0.0 && a + b + c == whole
    ensures Percent(a, whole).value + Percent(b, whole).value + Percent(c, whole).value == 100.0
  {
    var pa, pb, pc := Percent(a, whole).value, Percent(b, whole).value, Percent(c, whole).value;
    assert (pa + pb + pc) * whole == pa * whole + pb * whole + pc * whole;
    assert pa * whole + pb * whole + pc * whole == (a + b + c) * 100.0;
    CancelPositive(pa + pb + pc, 100.0, whole);
  }

  /** The percentages of two parts of a positive whole add up to 100. */
  lemma PercentsOfTwoPartsAddUp(a: real, b: real, whole: real)
    requires whole > 0.0 && a + b == whole
    ensures Percent(a, whole).value + Percent(b, whole).value == 100.0
  {
    PercentsOfPartsAddUp(a, b, 0.0, whole);
  }
}
