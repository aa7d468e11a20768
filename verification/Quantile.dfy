/** The 95th percentile of a list of errors, as the source takes it from a sorted copy. */
module Quantile {

  predicate Ascending(s: seq<real>) {
    forall i, j :: 0 <= i < j < |s| ==> s[i] <= s[j]
  }

  function Insert(s: seq<real>, x: real): (r: seq<real>)
    ensures |r| == |s| + 1
  {
    if |s| == 0 || x >= s[|s| - 1] then s + [x]
    else Insert(s[..|s| - 1], x) + [s[|s| - 1]]
  }

  function Sorted(s: seq<real>): (r: seq<real>)
    ensures |r| == |s|
  {
    if |s| == 0 then [] else Insert(Sorted(s[..|s| - 1]), s[|s| - 1])
  }

  lemma {:induction false} InsertAscending(s: seq<real>, x: real)
    requires Ascending(s)
    ensures Ascending(Insert(s, x))
    ensures forall i :: 0 <= i <= |s| ==> Insert(s, x)[i] == x || (|s| > 0 && Insert(s, x)[i] <= s[|s| - 1])
  {
    if |s| > 0 && x < s[|s| - 1] {
      InsertAscending(s[..|s| - 1], x);
    }
  }

  lemma {:induction false} SortedAscending(s: seq<real>)
    ensures Ascending(Sorted(s))
  {
    if |s| > 0 {
      SortedAscending(s[..|s| - 1]);
      InsertAscending(Sorted(s[..|s| - 1]), s[|s| - 1]);
    }
  }

  function One(b: bool): nat {
    if b then 1 else 0
  }

  function CountUpTo(s: seq<real>, limit: real): (n: nat)
    ensures n <= |s|
  {
    if |s| == 0 then 0 else CountUpTo(s[..|s| - 1], limit) + One(s[|s| - 1] <= limit)
  }

  lemma {:induction false} InsertCounts(s: seq<real>, x: real, limit: real)
    ensures CountUpTo(Insert(s, x), limit) == CountUpTo(s, limit) + One(x <= limit)
  {
    if |s| == 0 || x >= s[|s| - 1] {
      assert (s + [x])[..|s|] == s;
    } else {
      var front, last := s[..|s| - 1], s[|s| - 1];
      InsertCounts(front, x, limit);
      assert (Insert(front, x) + [last])[..|s|] == Insert(front, x);
    }
  }

  lemma {:induction false} SortedCounts(s: seq<real>, limit: real)
    ensures CountUpTo(Sorted(s), limit) == CountUpTo(s, limit)
  {
    if |s| > 0 {
      SortedCounts(s[..|s| - 1], limit);
      InsertCounts(Sorted(s[..|s| - 1]), s[|s| - 1], limit);
    }
  }

  lemma {:induction false} AscendingCountsAtLeast(s: seq<real>, limit: real, k: nat)
    requires Ascending(s) && k < |s|
    ensures s[k] <= limit <==> CountUpTo(s, limit) > k
  {
    var n := |s| - 1;
    if k < n {
      AscendingCountsAtLeast(s[..n], limit, k);
    } else if s[n] <= limit && n > 0 {
      AscendingCountsAtLeast(s[..n], limit, n - 1);
    }
  }

  /** Ceiling of 95 percent. */
  function Rank(n: nat): (k: nat)
    ensures n > 0 ==> 0 < k <= n
    ensures 20 * k >= 19 * n && (k > 0 ==> 20 * (k - 1) < 19 * n)
  {
    (19 * n + 19) / 20
  }

  function MaxReal(a: real, b: real): real {
    if a >= b then a else b
  }

  function Bound(values: seq<real>, floor: real): real
    requires |values| > 0
  {
    MaxReal(floor, Sorted(values)[Rank(|values|) - 1])
  }

  /** The bound is the least number at or above the floor that at least 95 percent of the values do not exceed. */
  lemma BoundIsLeast(values: seq<real>, floor: real, candidate: real)
    requires |values| > 0
    ensures candidate >= Bound(values, floor)
       <==> candidate >= floor && CountUpTo(values, candidate) >= Rank(|values|)
  {
    SortedAscending(values);
    AscendingCountsAtLeast(Sorted(values), candidate, Rank(|values|) - 1);
    SortedCounts(values, candidate);
  }

  predicate AllUpTo(s: seq<real>, limit: real) {
    forall i :: 0 <= i < |s| ==> s[i] <= limit
  }

  lemma {:induction false} CountAll(s: seq<real>, limit: real)
    requires AllUpTo(s, limit)
    ensures CountUpTo(s, limit) == |s|
  {
    if |s| > 0 {
      CountAll(s[..|s| - 1], limit);
    }
  }

  lemma BoundStaysBelow(values: seq<real>, floor: real, limit: real)
    requires |values| > 0 && AllUpTo(values, limit) && floor <= limit
    ensures floor <= Bound(values, floor) <= limit
  {
    CountAll(values, limit);
    BoundIsLeast(values, floor, limit);
  }
}
