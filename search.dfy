/** The search box every table has: a row stays when the lower-cased search
    term occurs in the lower-cased text of either of two of its fields. */
module Search {
  import opened Text
  import opened Ledger

  /** The row test of `rows.filter((r) => a(r).toLowerCase().includes(term.toLowerCase())
      || b(r).toLowerCase().includes(term.toLowerCase()))`. */
  function Matches<T>(fieldA: T -> string, fieldB: T -> string, term: string): T -> bool {
    (r: T) => Includes(Lower(fieldA(r)), Lower(term)) || Includes(Lower(fieldB(r)), Lower(term))
  }

  /** The rows the search box shows: a subsequence of the rows, holding exactly
      the rows that match, each as many times as it occurs. */
  function SearchRows<T(==)>(rows: seq<T>, fieldA: T -> string, fieldB: T -> string, term: string): (r: seq<T>)
    ensures IsSubsequence(r, rows)
    ensures forall i :: 0 <= i < |r| ==> r[i] in rows && Matches(fieldA, fieldB, term)(r[i])
    ensures forall i :: 0 <= i < |rows| && Matches(fieldA, fieldB, term)(rows[i]) ==> rows[i] in r
    ensures multiset(r) <= multiset(rows)
    ensures forall i :: 0 <= i < |rows| ==>
      multiset(r)[rows[i]] == if Matches(fieldA, fieldB, term)(rows[i]) then multiset(rows)[rows[i]] else 0
  {
    FilterIsSubsequence(rows, Matches(fieldA, fieldB, term));
    FilterCounts(rows, Matches(fieldA, fieldB, term));
    Filter(rows, Matches(fieldA, fieldB, term))
  }

  /** An empty search box shows every row, in order. */
  lemma EmptyTermKeepsAll<T>(rows: seq<T>, fieldA: T -> string, fieldB: T -> string)
    ensures SearchRows(rows, fieldA, fieldB, "") == rows
  {
    forall x | x in rows ensures Matches(fieldA, fieldB, "")(x) {
      EmptyIsIncluded(Lower(fieldA(x)));
    }
    FilterKeepsAll(rows, Matches(fieldA, fieldB, ""));
  }

  /** Two terms that differ only in case show the same rows. */
  lemma SearchIgnoresCase<T>(rows: seq<T>, fieldA: T -> string, fieldB: T -> string, t1: string, t2: string)
    requires Lower(t1) == Lower(t2)
    ensures SearchRows(rows, fieldA, fieldB, t1) == SearchRows(rows, fieldA, fieldB, t2)
  {
    FilterCongruent(rows, Matches(fieldA, fieldB, t1), Matches(fieldA, fieldB, t2));
  }

  /** A row whose field contains the term exactly as typed is always shown. */
  lemma ExactTextIsShown<T>(rows: seq<T>, fieldA: T -> string, fieldB: T -> string, term: string, x: T)
    requires x in rows
    requires Includes(fieldA(x), term) || Includes(fieldB(x), term)
    ensures x in SearchRows(rows, fieldA, fieldB, term)
  {
    if Includes(fieldA(x), term) {
      ExactOccurrenceIsFound(fieldA(x), term);
    } else {
      ExactOccurrenceIsFound(fieldB(x), term);
    }
    var i :| 0 <= i < |rows| && rows[i] == x;
  }
}
