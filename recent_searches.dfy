/**
 * The recent-searches list kept at the application root: newest first, at most
 * five entries, re-adding a city moves it to the front instead of duplicating it.
 * Entries are compared with exact string equality, so "Paris" and "paris" are
 * two different entries.
 */
module RecentSearches {

  /** The number of entries the list keeps. */
  const Capacity: nat := 5

  /** No entry occurs twice. */
  predicate Distinct(s: seq<string>) {
    forall i, j :: 0 <= i < j < |s| ==> s[i] != s[j]
  }

  /** `a` is obtained from `b` by deleting entries: the same entries, in the same relative order. */
  predicate IsSubsequence(a: seq<string>, b: seq<string>)
    decreases |b|
  {
    if a == [] then true
    else if b == [] then false
    else if a[0] == b[0] then IsSubsequence(a[1..], b[1..])
    else IsSubsequence(a, b[1..])
  }

  /** `prev.filter(s => s !== city)`: every entry of `prev` except those equal to `city`. */
  function Without(prev: seq<string>, city: string): (r: seq<string>)
    ensures |r| <= |prev|
    ensures forall x :: x in r <==> x in prev && x != city
  {
    if prev == [] then []
    else (if prev[0] == city then [] else [prev[0]]) + Without(prev[1..], city)
  }

  /** Filtering keeps every other entry as many times as it occurred, and no copy of the city. */
  lemma {:induction false} WithoutCounts(prev: seq<string>, city: string)
    ensures multiset(Without(prev, city)) == multiset(prev)[city := 0]
  {
    if prev != [] {
      WithoutCounts(prev[1..], city);
      assert prev == [prev[0]] + prev[1..];
    }
  }

  /** `s.slice(0, n)`: the first `n` entries, or all of them when there are fewer. */
  function Take(s: seq<string>, n: nat): (r: seq<string>)
    ensures |r| == if |s| <= n then |s| else n
    ensures r == s[..|r|]
  {
    if |s| <= n then s else s[..n]
  }

  /**
   * The list after a successful search for `city`:
   * `[city, ...prev.filter(s => s !== city)].slice(0, 5)`.
   */
  function Record(prev: seq<string>, city: string): (r: seq<string>)
    ensures 1 <= |r| <= Capacity
    ensures r[0] == city && city !in r[1..]
    ensures forall x :: x in r ==> x == city || x in prev
    ensures |r| == if |Without(prev, city)| < Capacity then |Without(prev, city)| + 1 else Capacity
    ensures r[1..] == Without(prev, city)[..|r| - 1]
  {
    var r := Take([city] + Without(prev, city), Capacity);
    assert r[1..] == Without(prev, city)[..|r| - 1];
    assert forall x :: x in r[1..] ==> x in Without(prev, city);
    r
  }

  /** Filtering keeps the other entries in their relative order. */
  lemma {:induction false} WithoutIsSubsequence(prev: seq<string>, city: string)
    ensures IsSubsequence(Without(prev, city), prev)
  {
    if prev != [] {
      WithoutIsSubsequence(prev[1..], city);
      if prev[0] != city {
        assert Without(prev, city) == [prev[0]] + Without(prev[1..], city);
      } else {
        assert Without(prev, city) == Without(prev[1..], city);
        SubsequenceOfTail(Without(prev, city), prev);
      }
    }
  }

  /** A subsequence of the tail of `b` is a subsequence of `b`. */
  lemma {:induction false} SubsequenceOfTail(a: seq<string>, b: seq<string>)
    requires b != [] && IsSubsequence(a, b[1..])
    ensures IsSubsequence(a, b)
    decreases |b|, 1
  {
    if a != [] && a[0] == b[0] {
      // IsSubsequence(a, b[1..]) gives a[1..] as a subsequence of a later part of b[1..]
      SubsequenceDropHead(a, b[1..]);
    }
  }

  /** Dropping the first entry of a nonempty subsequence keeps it a subsequence. */
  lemma {:induction false} SubsequenceDropHead(a: seq<string>, b: seq<string>)
    requires a != [] && IsSubsequence(a, b)
    ensures IsSubsequence(a[1..], b)
    decreases |b|, 2
  {
    if a[0] == b[0] {
      if b[1..] != [] {
        SubsequenceOfTail(a[1..], b);
      } else {
        assert a[1..] == [];
      }
    } else {
      SubsequenceDropHead(a, b[1..]);
      SubsequenceOfTail(a[1..], b);
    }
  }

  /** A prefix of a subsequence is a subsequence. */
  lemma {:induction false} PrefixOfSubsequence(a: seq<string>, b: seq<string>, n: nat)
    requires n <= |a| && IsSubsequence(a, b)
    ensures IsSubsequence(a[..n], b)
    decreases |b|
  {
    if n > 0 {
      if a[0] == b[0] {
        PrefixOfSubsequence(a[1..], b[1..], n - 1);
        assert a[..n][1..] == a[1..][..n - 1];
      } else {
        PrefixOfSubsequence(a, b[1..], n);
      }
    }
  }

  /** The entries after the new city are earlier entries, in their earlier relative order. */
  lemma RecordKeepsOrder(prev: seq<string>, city: string)
    ensures IsSubsequence(Record(prev, city)[1..], prev)
  {
    var r := Record(prev, city);
    WithoutIsSubsequence(prev, city);
    assert r[1..] == Without(prev, city)[..|r| - 1];
    PrefixOfSubsequence(Without(prev, city), prev, |r| - 1);
  }

  /** When at most four entries differ from the new city, none of them is dropped. */
  lemma RecordKeepsAllWhenRoom(prev: seq<string>, city: string)
    requires |Without(prev, city)| < Capacity
    ensures Record(prev, city) == [city] + Without(prev, city)
    ensures forall x :: x in prev ==> x in Record(prev, city)
  {
  }

  /** Filtering a list without duplicates gives a list without duplicates. */
  lemma {:induction false} WithoutKeepsDistinct(prev: seq<string>, city: string)
    requires Distinct(prev)
    ensures Distinct(Without(prev, city))
  {
    if prev != [] {
      WithoutKeepsDistinct(prev[1..], city);
      var rest := Without(prev[1..], city);
      if prev[0] != city {
        assert prev[0] !in prev[1..];
        assert prev[0] !in rest;
        assert Without(prev, city) == [prev[0]] + rest;
      }
    }
  }

  /** Recording into a list without duplicates gives a list without duplicates. */
  lemma RecordKeepsDistinct(prev: seq<string>, city: string)
    requires Distinct(prev)
    ensures Distinct(Record(prev, city))
  {
    WithoutKeepsDistinct(prev, city);
    var r := Record(prev, city);
    assert r[1..] == Without(prev, city)[..|r| - 1];
  }

  /** Filtering out a city that is not in the list changes nothing. */
  lemma {:induction false} WithoutAbsent(prev: seq<string>, city: string)
    requires city !in prev
    ensures Without(prev, city) == prev
  {
    if prev != [] {
      WithoutAbsent(prev[1..], city);
      assert prev == [prev[0]] + prev[1..];
    }
  }

  /** Searching the same city twice in a row leaves the list as after the first search. */
  lemma RecordIdempotent(prev: seq<string>, city: string)
    ensures Record(Record(prev, city), city) == Record(prev, city)
  {
    var r := Record(prev, city);
    WithoutAbsent(r[1..], city);
    assert Without(r, city) == Without(r[1..], city) by {
      assert r == [r[0]] + r[1..];
    }
    assert [city] + Without(r, city) == r;
  }

  /** Equality is exact: a city differing only in case is a separate entry. */
  lemma RecordIsCaseSensitive()
    ensures Record(["paris"], "Paris") == ["Paris", "paris"]
  {
  }
}
