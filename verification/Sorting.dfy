/** Sorted copies of integer lists: the order statistics the source takes from its library sort. */
module Sorting {

  ghost predicate IsSorted(s: seq<int>) {
    forall i, j :: 0 <= i < j < |s| ==> s[i] <= s[j]
  }

  function Insert(s: seq<int>, x: int): (r: seq<int>)
    ensures |r| == |s| + 1
  {
    if |s| == 0 then [x]
    else if x <= s[0] then [x] + s
    else [s[0]] + Insert(s[1..], x)
  }

  /** The same elements in ascending order. */
  function Sorted(s: seq<int>): (r: seq<int>)
    ensures |r| == |s|
  {
    if |s| == 0 then [] else Insert(Sorted(s[..|s| - 1]), s[|s| - 1])
  }

  lemma {:induction false} InsertElements(s: seq<int>, x: int)
    ensures multiset(Insert(s, x)) == multiset(s) + multiset{x}
  {
    if |s| > 0 && x > s[0] {
      InsertElements(s[1..], x);
      assert s == [s[0]] + s[1..];
    }
  }

  lemma LastElement(s: seq<int>)
    requires |s| > 0
    ensures multiset(s) == multiset(s[..|s| - 1]) + multiset{s[|s| - 1]}
  {
    assert s == s[..|s| - 1] + [s[|s| - 1]];
  }

  /** Sorting permutes. */
  lemma {:induction false} SortedElements(s: seq<int>)
    ensures multiset(Sorted(s)) == multiset(s)
  {
    if |s| > 0 {
      SortedElements(s[..|s| - 1]);
      InsertElements(Sorted(s[..|s| - 1]), s[|s| - 1]);
      LastElement(s);
    }
  }

  lemma SortedMembers(s: seq<int>)
    ensures forall x :: x in Sorted(s) <==> x in s
  {
    SortedElements(s);
    forall x ensures x in Sorted(s) <==> x in s {
      assert x in Sorted(s) <==> x in multiset(Sorted(s));
      assert x in s <==> x in multiset(s);
    }
  }

  lemma SortedMember(s: seq<int>, i: nat)
    requires i < |s|
    ensures Sorted(s)[i] in s
  {
    SortedElements(s);
    assert Sorted(s)[i] in multiset(Sorted(s));
  }

  lemma {:induction false} InsertIsSorted(s: seq<int>, x: int, low: int)
    requires IsSorted(s) && low <= x && forall i :: 0 <= i < |s| ==> low <= s[i]
    ensures IsSorted(Insert(s, x)) && forall i :: 0 <= i <= |s| ==> low <= Insert(s, x)[i]
  {
    if |s| > 0 && x > s[0] {
      InsertIsSorted(s[1..], x, s[0]);
    }
  }

  /** Sorting orders. */
  lemma {:induction false} SortedIsSorted(s: seq<int>)
    ensures IsSorted(Sorted(s))
  {
    if |s| > 0 {
      var n := |s| - 1;
      SortedIsSorted(s[..n]);
      var front := Sorted(s[..n]);
      InsertIsSorted(front, s[n], if n == 0 || s[n] <= front[0] then s[n] else front[0]);
    }
  }

  ghost predicate Below(s: seq<int>, t: seq<int>) {
    |s| == |t| && forall i :: 0 <= i < |s| ==> s[i] <= t[i]
  }

  lemma InsertHead(s: seq<int>)
    requires |s| > 0 && IsSorted(s)
    ensures Insert(s[1..], s[0]) == s
  {
    assert s == [s[0]] + s[1..];
  }

  lemma BelowCons(x: int, s: seq<int>, y: int, t: seq<int>)
    requires x <= y && Below(s, t)
    ensures Below([x] + s, [y] + t)
  {
  }

  lemma {:induction false} InsertMonotone(s: seq<int>, t: seq<int>, x: int, y: int)
    requires IsSorted(s) && IsSorted(t) && Below(s, t) && x <= y
    ensures Below(Insert(s, x), Insert(t, y))
    decreases |s|
  {
    if |s| > 0 {
      assert Below(s[1..], t[1..]);
      if x <= s[0] && y > t[0] {
        InsertMonotone(s[1..], t[1..], s[0], y);
        InsertHead(s);
        BelowCons(x, s, t[0], Insert(t[1..], y));
      } else if x > s[0] && y <= t[0] {
        InsertMonotone(s[1..], t[1..], x, t[0]);
        InsertHead(t);
        BelowCons(s[0], Insert(s[1..], x), y, t);
      } else if x > s[0] && y > t[0] {
        InsertMonotone(s[1..], t[1..], x, y);
        BelowCons(s[0], Insert(s[1..], x), t[0], Insert(t[1..], y));
      } else {
        BelowCons(x, s, y, t);
      }
    }
  }

  /** Raising elements raises every order statistic. */
  lemma {:induction false} SortedMonotone(s: seq<int>, t: seq<int>)
    requires Below(s, t)
    ensures Below(Sorted(s), Sorted(t))
    decreases |s|
  {
    if |s| > 0 {
      var n := |s| - 1;
      SortedMonotone(s[..n], t[..n]);
      SortedIsSorted(s[..n]);
      SortedIsSorted(t[..n]);
      InsertMonotone(Sorted(s[..n]), Sorted(t[..n]), s[n], t[n]);
    }
  }
}
