/** The three string operations the screens rely on: `toLowerCase`,
    `includes` and the `<=`/`>=` comparison of two strings. */
module Text {

  /** `toLowerCase` on one character (ASCII letters only). */
  function LowerChar(c: char): char {
    if 'A' <= c <= 'Z' then (c as int + 32) as char else c
  }

  /** `s.toLowerCase()`. */
  function Lower(s: string): string {
    seq(|s|, i requires 0 <= i < |s| => LowerChar(s[i]))
  }

  /** Lower-casing twice is lower-casing once, so a term that is already
      lower-case is searched for unchanged. */
  lemma LowerIsIdempotent(s: string)
    ensures Lower(Lower(s)) == Lower(s)
  {
  }

  /** Lower-casing commutes with slicing, because it works character by character. */
  lemma LowerOfSlice(s: string, i: int, j: int)
    requires 0 <= i <= j <= |s|
    ensures Lower(s[i..j]) == Lower(s)[i..j]
  {
  }

  /** `needle` occurs in `hay` starting at index `i`. */
  predicate OccursAt(hay: string, needle: string, i: int) {
    0 <= i <= |hay| - |needle| && hay[i..i + |needle|] == needle
  }

  /** `hay.includes(needle)`: scan the start positions left to right. */
  function Includes(hay: string, needle: string): bool
    decreases |hay|
  {
    needle <= hay || (hay != [] && Includes(hay[1..], needle))
  }

  /** `Includes` answers exactly whether there is a position where the needle occurs. */
  lemma {:induction false} IncludesIffOccurs(hay: string, needle: string)
    ensures Includes(hay, needle) <==> exists i :: OccursAt(hay, needle, i)
    decreases |hay|
  {
    if needle <= hay {
      assert OccursAt(hay, needle, 0);
    } else if Includes(hay, needle) {
      IncludesIffOccurs(hay[1..], needle);
      var i :| OccursAt(hay[1..], needle, i);
      assert hay[1..][i..i + |needle|] == hay[i + 1..i + 1 + |needle|];
      assert OccursAt(hay, needle, i + 1);
    }
    forall i | OccursAt(hay, needle, i) ensures Includes(hay, needle) {
      if i == 0 {
        assert needle <= hay;
      } else {
        assert hay[1..][i - 1..i - 1 + |needle|] == hay[i..i + |needle|];
        assert OccursAt(hay[1..], needle, i - 1);
        IncludesIffOccurs(hay[1..], needle);
      }
    }
  }

  /** The empty search term occurs in every string. */
  lemma EmptyIsIncluded(hay: string)
    ensures Includes(hay, "")
  {
    assert "" <= hay;
  }

  /** Searching lower-cased text for a lower-cased term never misses an exact
      (case-sensitive) occurrence: the search is insensitive to case, not blind to it. */
  lemma ExactOccurrenceIsFound(hay: string, needle: string)
    requires Includes(hay, needle)
    ensures Includes(Lower(hay), Lower(needle))
  {
    IncludesIffOccurs(hay, needle);
    var i :| OccursAt(hay, needle, i);
    LowerOfSlice(hay, i, i + |needle|);
    assert OccursAt(Lower(hay), Lower(needle), i);
    IncludesIffOccurs(Lower(hay), Lower(needle));
  }

  /** JavaScript's `a <= b` on strings: character by character, a proper
      prefix being smaller. `a >= b` is `LexLe(b, a)`. */
  function LexLe(a: string, b: string): bool {
    if a == [] then true
    else if b == [] then false
    else if a[0] != b[0] then a[0] < b[0]
    else LexLe(a[1..], b[1..])
  }

  lemma {:induction false} LexLeReflexive(a: string)
    ensures LexLe(a, a)
  {
    if a != [] {
      LexLeReflexive(a[1..]);
    }
  }

  lemma {:induction false} LexLeTotal(a: string, b: string)
    ensures LexLe(a, b) || LexLe(b, a)
  {
    if a != [] && b != [] && a[0] == b[0] {
      LexLeTotal(a[1..], b[1..]);
    }
  }

  lemma {:induction false} LexLeAntisymmetric(a: string, b: string)
    requires LexLe(a, b) && LexLe(b, a)
    ensures a == b
  {
    if a != [] && b != [] {
      LexLeAntisymmetric(a[1..], b[1..]);
      assert a == [a[0]] + a[1..];
      assert b == [b[0]] + b[1..];
    }
  }

  /** Comparing two strings that start with equally long parts: the first
      parts decide unless they are equal, and then the rest decides. */
  lemma {:induction false} LexLeConcat(a1: string, a2: string, b1: string, b2: string)
    requires |a1| == |b1|
    ensures LexLe(a1 + a2, b1 + b2) == if a1 == b1 then LexLe(a2, b2) else LexLe(a1, b1)
  {
    if a1 != [] {
      assert (a1 + a2)[0] == a1[0] && (b1 + b2)[0] == b1[0];
      assert (a1 + a2)[1..] == a1[1..] + a2;
      assert (b1 + b2)[1..] == b1[1..] + b2;
      LexLeConcat(a1[1..], a2, b1[1..], b2);
      if a1[0] == b1[0] && a1[1..] == b1[1..] {
        assert a1 == [a1[0]] + a1[1..] && b1 == [b1[0]] + b1[1..];
      }
    } else {
      assert a1 + a2 == a2 && b1 + b2 == b2;
    }
  }

  /** `s.replace(from, to)` with a one-character string pattern: only the
      first occurrence is replaced. */
  function ReplaceFirst(s: string, from: char, to: char): (r: string)
    ensures |r| == |s|
  {
    if s == [] then []
    else if s[0] == from then [to] + s[1..]
    else [s[0]] + ReplaceFirst(s[1..], from, to)
  }

  /** `r` is `s` with its first `from`, at index `k`, replaced by `to`:
      the same length, `to` at `k`, and every other character kept. */
  predicate FirstReplacedAt(s: string, from: char, to: char, r: string, k: int) {
    && 0 <= k < |s| && s[k] == from
    && (forall j :: 0 <= j < k ==> s[j] != from)
    && |r| == |s| && r[k] == to
    && (forall j :: 0 <= j < |s| && j != k ==> r[j] == s[j])
  }

  /** A string without the character comes back unchanged; otherwise exactly
      its first occurrence is replaced and everything else is kept. */
  lemma {:induction false} ReplaceFirstSpec(s: string, from: char, to: char)
    ensures from !in s ==> ReplaceFirst(s, from, to) == s
    ensures from in s ==> exists k :: FirstReplacedAt(s, from, to, ReplaceFirst(s, from, to), k)
  {
    if s == [] {
    } else if s[0] == from {
      assert FirstReplacedAt(s, from, to, ReplaceFirst(s, from, to), 0);
    } else {
      var tail := s[1..];
      var r := ReplaceFirst(s, from, to);
      ReplaceFirstSpec(tail, from, to);
      assert r == [s[0]] + ReplaceFirst(tail, from, to);
      if from in tail {
        var k :| FirstReplacedAt(tail, from, to, ReplaceFirst(tail, from, to), k);
        assert forall j :: 1 <= j < |s| ==> s[j] == tail[j - 1] && r[j] == ReplaceFirst(tail, from, to)[j - 1];
        assert FirstReplacedAt(s, from, to, r, k + 1);
      } else {
        assert s == [s[0]] + tail;
      }
    }
  }
}
