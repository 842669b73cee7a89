/** Failure-carrying results shared by every component. */
module Outcomes {
  datatype Option<+T> = None | Some(value: T)

  datatype Result<+T, +E> = Ok(value: T) | Err(error: E)

  /** The integer widths the program relies on. */
  const U32_MAX: nat := 0xFFFF_FFFF
  const U64_MAX: nat := 0xFFFF_FFFF_FFFF_FFFF
  const I64_MAX: nat := 0x7FFF_FFFF_FFFF_FFFF
  const I64_MIN: int := -0x8000_0000_0000_0000

  predicate FitsI64(value: int) {
    I64_MIN <= value <= I64_MAX
  }

  /** `saturating_add` at an unsigned width whose largest value is `limit`. */
  function SaturatingAdd(a: nat, b: nat, limit: nat): (r: nat)
    requires a <= limit
    ensures r <= limit
    ensures r < limit ==> r == a + b
    ensures a <= r
  {
    if a + b <= limit then a + b else limit
  }
}

/**
 * Sorting by a rank. Every sort in the program orders by an identifier or by a
 * (revision, identifier) pair, so a rank is a pair compared lexicographically.
 */
module Ordering {
  type Rank = (int, int)

  predicate Before(a: Rank, b: Rank) {
    a.0 < b.0 || (a.0 == b.0 && a.1 < b.1)
  }

  predicate Distinct<T(==)>(s: seq<T>) {
    forall i, j :: 0 <= i < j < |s| ==> s[i] != s[j]
  }

  ghost predicate SortedBy<T>(s: seq<T>, rank: T -> Rank) {
    forall i, j :: 0 <= i < j < |s| ==> !Before(rank(s[j]), rank(s[i]))
  }

  ghost predicate StrictlySortedBy<T>(s: seq<T>, rank: T -> Rank) {
    forall i, j :: 0 <= i < j < |s| ==> Before(rank(s[i]), rank(s[j]))
  }

  function Insert<T>(x: T, s: seq<T>, rank: T -> Rank): seq<T> {
    if s == [] || Before(rank(x), rank(s[0])) then [x] + s else [s[0]] + Insert(x, s[1..], rank)
  }

  /** A stable insertion sort: the meaning of the program's `sort_by` calls. */
  function Sort<T>(s: seq<T>, rank: T -> Rank): seq<T> {
    if s == [] then [] else Insert(s[|s| - 1], Sort(s[..|s| - 1], rank), rank)
  }

  lemma {:induction false} InsertMembers<T>(x: T, s: seq<T>, rank: T -> Rank)
    ensures multiset(Insert(x, s, rank)) == multiset{x} + multiset(s)
  {
    if s != [] && !Before(rank(x), rank(s[0])) {
      assert s == [s[0]] + s[1..];
      InsertMembers(x, s[1..], rank);
    }
  }

  lemma {:induction false} InsertSorted<T>(x: T, s: seq<T>, rank: T -> Rank)
    requires SortedBy(s, rank)
    ensures SortedBy(Insert(x, s, rank), rank)
  {
    if s != [] && !Before(rank(x), rank(s[0])) {
      var rest := Insert(x, s[1..], rank);
      InsertSorted(x, s[1..], rank);
      InsertMembers(x, s[1..], rank);
      forall i | 0 <= i < |rest|
        ensures !Before(rank(rest[i]), rank(s[0]))
      {
        assert rest[i] in multiset(rest);
        assert rest[i] == x || rest[i] in s[1..];
      }
    }
  }

  lemma {:induction false} SortCorrect<T>(s: seq<T>, rank: T -> Rank)
    ensures SortedBy(Sort(s, rank), rank)
    ensures multiset(Sort(s, rank)) == multiset(s)
  {
    if s != [] {
      var prefix, last := s[..|s| - 1], s[|s| - 1];
      assert s == prefix + [last];
      SortCorrect(prefix, rank);
      InsertSorted(last, Sort(prefix, rank), rank);
      InsertMembers(last, Sort(prefix, rank), rank);
    }
  }

  lemma SortMembers<T>(s: seq<T>, rank: T -> Rank)
    ensures |Sort(s, rank)| == |s|
    ensures forall x :: x in Sort(s, rank) <==> x in s
  {
    var r := Sort(s, rank);
    SortCorrect(s, rank);
    assert |multiset(r)| == |multiset(s)|;
    assert forall x :: x in r <==> x in multiset(r);
    assert forall x :: x in s <==> x in multiset(s);
  }

  lemma {:induction false} InsertLast<T>(x: T, s: seq<T>, rank: T -> Rank)
    requires forall i :: 0 <= i < |s| ==> !Before(rank(x), rank(s[i]))
    ensures Insert(x, s, rank) == s + [x]
  {
    if s != [] {
      InsertLast(x, s[1..], rank);
    }
  }

  /** The sort is stable, so a sorted list is left as it is. */
  lemma {:induction false} SortOfSorted<T>(s: seq<T>, rank: T -> Rank)
    requires SortedBy(s, rank)
    ensures Sort(s, rank) == s
  {
    if s != [] {
      SortOfSorted(s[..|s| - 1], rank);
      InsertLast(s[|s| - 1], s[..|s| - 1], rank);
    }
  }

  lemma TwoOccurrences<T>(s: seq<T>, i: nat, j: nat)
    requires i < j < |s| && s[i] == s[j]
    ensures multiset(s)[s[i]] >= 2
  {
    assert s == s[..j] + [s[j]] + s[j + 1..];
    assert s[..j][i] == s[i];
    assert s[i] in multiset(s[..j]);
    assert multiset(s) == multiset(s[..j]) + multiset{s[j]} + multiset(s[j + 1..]);
  }

  lemma {:induction false} AtMostOnce<T>(s: seq<T>, x: T)
    requires forall i, j :: 0 <= i < j < |s| ==> s[i] != s[j]
    ensures multiset(s)[x] <= 1
  {
    if s != [] {
      var last := s[|s| - 1];
      assert s == s[..|s| - 1] + [last];
      AtMostOnce(s[..|s| - 1], x);
      assert last !in multiset(s[..|s| - 1]);
    }
  }

  lemma DifferentRanks<T>(s: seq<T>, x: T, y: T, rank: T -> Rank)
    requires forall i, j :: 0 <= i < j < |s| ==> rank(s[i]) != rank(s[j])
    requires x in s && y in s && x != y
    ensures rank(x) != rank(y)
  {
    var p :| 0 <= p < |s| && s[p] == x;
    var q :| 0 <= q < |s| && s[q] == y;
    assert p < q || q < p;
  }

  /** Sorting keeps elements with distinct ranks apart. */
  lemma SortedApart<T>(s: seq<T>, r: seq<T>, i: nat, j: nat, rank: T -> Rank)
    requires forall i, j :: 0 <= i < j < |s| ==> rank(s[i]) != rank(s[j])
    requires multiset(r) == multiset(s) && i < j < |r|
    ensures rank(r[i]) != rank(r[j])
  {
    assert r[i] in multiset(r) && r[j] in multiset(r);
    assert r[i] in multiset(s) && r[j] in multiset(s);
    if r[i] == r[j] {
      TwoOccurrences(r, i, j);
      AtMostOnce(s, r[i]);
      assert false;
    } else {
      DifferentRanks(s, r[i], r[j], rank);
    }
  }

  /** Distinct ranks make a sorted list strictly sorted. */
  lemma SortStrict<T>(s: seq<T>, rank: T -> Rank)
    requires forall i, j :: 0 <= i < j < |s| ==> rank(s[i]) != rank(s[j])
    ensures StrictlySortedBy(Sort(s, rank), rank)
  {
    var r := Sort(s, rank);
    SortCorrect(s, rank);
    hide Sort;
    forall i, j | 0 <= i < j < |r|
      ensures rank(r[i]) != rank(r[j])
    {
      SortedApart(s, r, i, j, rank);
    }
  }

  /** A strictly sorted list is determined by its elements. */
  lemma {:induction false} StrictUnique<T>(a: seq<T>, b: seq<T>, rank: T -> Rank)
    requires StrictlySortedBy(a, rank) && StrictlySortedBy(b, rank)
    requires forall x :: x in a <==> x in b
    ensures a == b
  {
    assert a != [] ==> a[0] in b;
    assert b != [] ==> b[0] in a;
    if a != [] {
      var i :| 0 <= i < |b| && b[i] == a[0];
      var j :| 0 <= j < |a| && a[j] == b[0];
      assert a[0] == b[0];
      forall x
        ensures x in a[1..] <==> x in b[1..]
      {
        if x in a[1..] {
          var k :| 1 <= k < |a| && a[k] == x;
          assert Before(rank(a[0]), rank(x));
          assert x in b;
        }
        if x in b[1..] {
          var k :| 1 <= k < |b| && b[k] == x;
          assert Before(rank(b[0]), rank(x));
          assert x in a;
        }
      }
      StrictUnique(a[1..], b[1..], rank);
      assert a == [a[0]] + a[1..] && b == [b[0]] + b[1..];
    }
  }

  /** The least identifier of a set: `pop_first` on a `BTreeSet`. */
  ghost predicate IsLeast(m: nat, s: set<nat>) {
    m in s && forall x :: x in s ==> m <= x
  }

  function Least(s: set<nat>): (m: nat)
    requires s != {}
    ensures IsLeast(m, s)
  {
    LeastExists(s);
    var m :| m in s && forall x :: x in s ==> m <= x;
    m
  }

  lemma {:induction false} LeastExists(s: set<nat>)
    requires s != {}
    ensures exists m :: IsLeast(m, s)
  {
    var y :| y in s;
    if s == {y} {
      assert IsLeast(y, s);
    } else {
      LeastExists(s - {y});
      var m :| IsLeast(m, s - {y});
      var low := if m <= y then m else y;
      forall x | x in s
        ensures low <= x
      {
        assert x == y || x in s - {y};
      }
      assert IsLeast(low, s);
    }
  }

  /** The elements of a set in ascending order: iteration over a `BTreeSet`. */
  function Ascending(s: set<nat>): seq<nat> {
    if s == {} then [] else [Least(s)] + Ascending(s - {Least(s)})
  }

  lemma {:induction false} AscendingFacts(s: set<nat>)
    ensures forall x :: x in Ascending(s) <==> x in s
    ensures forall i, j :: 0 <= i < j < |Ascending(s)| ==> Ascending(s)[i] < Ascending(s)[j]
    ensures |Ascending(s)| == |s|
  {
    if s != {} {
      var low := Least(s);
      var rest := Ascending(s - {low});
      AscendingFacts(s - {low});
      hide Ascending;
      LeastInFront(s, low, rest);
      assert Ascending(s) == [low] + rest by {
        AscendingUnfolds(s);
      }
    }
  }

  lemma AscendingUnfolds(s: set<nat>)
    requires s != {}
    ensures Ascending(s) == [Least(s)] + Ascending(s - {Least(s)})
  {}

  lemma LeastInFront(s: set<nat>, low: nat, rest: seq<nat>)
    requires IsLeast(low, s) && |rest| == |s - {low}|
    requires forall x :: x in rest <==> x in s - {low}
    requires forall i, j :: 0 <= i < j < |rest| ==> rest[i] < rest[j]
    ensures forall x :: x in [low] + rest <==> x in s
    ensures forall i, j :: 0 <= i < j < |[low] + rest| ==> ([low] + rest)[i] < ([low] + rest)[j]
    ensures |[low] + rest| == |s|
  {
    forall i | 0 <= i < |rest|
      ensures low < rest[i]
    {
      assert rest[i] in s - {low};
    }
  }
}
