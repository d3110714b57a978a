/** `statistics.median` over exact reals, and why it absorbs a minority of spikes. */
module Medians {

  function Insert(x: real, s: seq<real>): (r: seq<real>)
    ensures |r| == |s| + 1
  {
    if s == [] || x <= s[0] then [x] + s else [s[0]] + Insert(x, s[1..])
  }

  function Sort(s: seq<real>): (r: seq<real>)
    ensures |r| == |s|
  {
    if s == [] then [] else Insert(s[0], Sort(s[1..]))
  }

  /** 0.0 for no data, the middle element, or the mean of the two middle elements. */
  function Median(s: seq<real>): real {
    var q := Sort(s);
    var n := |s|;
    if n == 0 then 0.0
    else if n % 2 == 1 then q[n / 2]
    else (q[n / 2 - 1] + q[n / 2]) / 2.0
  }

  ghost predicate Ascending(s: seq<real>) {
    forall i, j :: 0 <= i < j < |s| ==> s[i] <= s[j]
  }

  /** How many values lie strictly above the level c. */
  function CountAbove(s: seq<real>, c: real): nat {
    if s == [] then 0 else (if s[0] > c then 1 else 0) + CountAbove(s[1..], c)
  }

  lemma {:induction false} InsertPermutes(x: real, s: seq<real>)
    ensures multiset(Insert(x, s)) == multiset(s) + multiset{x}
  {
    if s != [] && x > s[0] {
      InsertPermutes(x, s[1..]);
      assert s == [s[0]] + s[1..];
    }
  }

  lemma {:induction false} InsertKeepsOrder(x: real, s: seq<real>)
    requires Ascending(s)
    ensures Ascending(Insert(x, s))
  {
    if s != [] && x > s[0] {
      var t := Insert(x, s[1..]);
      InsertKeepsOrder(x, s[1..]);
      InsertPermutes(x, s[1..]);
      forall k | 0 <= k < |t| ensures s[0] <= t[k] {
        assert t[k] in multiset(t);
        assert t[k] in s[1..] || t[k] == x;
      }
    }
  }

  lemma {:induction false} InsertCounts(x: real, s: seq<real>, c: real)
    ensures CountAbove(Insert(x, s), c) == CountAbove(s, c) + if x > c then 1 else 0
  {
    var r := Insert(x, s);
    if s == [] || x <= s[0] {
      assert r[1..] == s;
    } else {
      InsertCounts(x, s[1..], c);
      assert r[1..] == Insert(x, s[1..]);
    }
  }

  /** The sort used by the median is a sorted permutation, and keeps every count. */
  lemma {:induction false} SortIsSortedPermutation(s: seq<real>, c: real)
    ensures Ascending(Sort(s))
    ensures multiset(Sort(s)) == multiset(s)
    ensures CountAbove(Sort(s), c) == CountAbove(s, c)
  {
    if s != [] {
      SortIsSortedPermutation(s[1..], c);
      InsertPermutes(s[0], Sort(s[1..]));
      InsertKeepsOrder(s[0], Sort(s[1..]));
      InsertCounts(s[0], Sort(s[1..]), c);
      assert s == [s[0]] + s[1..];
    }
  }

  /** In an ascending sequence the values above c are exactly the last CountAbove ones. */
  lemma {:induction false} AboveIsSuffix(q: seq<real>, c: real)
    requires Ascending(q)
    ensures CountAbove(q, c) <= |q|
    ensures forall i :: 0 <= i < |q| ==> (q[i] > c <==> i >= |q| - CountAbove(q, c))
  {
    if q != [] {
      if q[0] > c {
        forall i | 0 <= i < |q| ensures q[i] > c {}
        AllAbove(q, c);
      } else {
        AboveIsSuffix(q[1..], c);
        assert forall i :: 1 <= i < |q| ==> q[i] == q[1..][i - 1];
      }
    }
  }

  /** A strict minority of values above c cannot lift the median above c;
      a strict majority always does. */
  lemma {:induction false} MinorityCannotLiftMedian(s: seq<real>, c: real)
    ensures s != [] && 2 * CountAbove(s, c) < |s| ==> Median(s) <= c
    ensures 2 * CountAbove(s, c) > |s| ==> Median(s) > c
  {
    SortIsSortedPermutation(s, c);
    AboveIsSuffix(Sort(s), c);
  }

  lemma {:induction false} NoneAbove(s: seq<real>, c: real)
    requires forall k :: 0 <= k < |s| ==> s[k] <= c
    ensures CountAbove(s, c) == 0
  {
    if s != [] {
      assert forall k :: 0 <= k < |s[1..]| ==> s[1..][k] == s[k + 1];
      NoneAbove(s[1..], c);
    }
  }

  /** Values all at or below c >= 0 have a median at or below c (0.0 stands for "no data"). */
  lemma MedianBounded(s: seq<real>, c: real)
    requires forall k :: 0 <= k < |s| ==> s[k] <= c
    requires c >= 0.0
    ensures Median(s) <= c
  {
    NoneAbove(s, c);
    MinorityCannotLiftMedian(s, c);
  }

  /** Values all strictly above c have a median strictly above c, if there are any. */
  lemma {:induction false} MedianAbove(s: seq<real>, c: real)
    requires s != [] && forall k :: 0 <= k < |s| ==> s[k] > c
    ensures Median(s) > c
  {
    AllAbove(s, c);
    MinorityCannotLiftMedian(s, c);
  }

  lemma {:induction false} AllAbove(s: seq<real>, c: real)
    requires forall k :: 0 <= k < |s| ==> s[k] > c
    ensures CountAbove(s, c) == |s|
  {
    if s != [] {
      assert forall k :: 0 <= k < |s[1..]| ==> s[1..][k] == s[k + 1];
      AllAbove(s[1..], c);
    }
  }

  lemma {:induction false} FirstIsLeast(q: seq<real>, x: real)
    requires Ascending(q) && x in multiset(q)
    ensures q != [] && q[0] <= x
  {
    assert x in q;
    var i :| 0 <= i < |q| && q[i] == x;
  }

  lemma FirstOfRest(q: seq<real>)
    requires q != []
    ensures multiset(q) == multiset{q[0]} + multiset(q[1..]) && q[0] in multiset(q)
    ensures Ascending(q) ==> Ascending(q[1..])
  {
    assert q == [q[0]] + q[1..];
  }

  /** Two non-empty sequences of the same values with the same first one have the same rest. */
  lemma SameRest(p: seq<real>, q: seq<real>)
    requires p != [] && q != [] && p[0] == q[0] && multiset(p) == multiset(q)
    ensures multiset(p[1..]) == multiset(q[1..])
  {
    FirstOfRest(p);
    FirstOfRest(q);
    var a, b := multiset(p[1..]), multiset(q[1..]);
    forall y ensures a[y] == b[y] {
      assert (multiset{p[0]} + a)[y] == (multiset{q[0]} + b)[y];
    }
  }

  lemma SameFirst(p: seq<real>, q: seq<real>)
    requires Ascending(p) && Ascending(q) && multiset(p) == multiset(q) && p != []
    ensures q != [] && p[0] == q[0] && Ascending(p[1..]) && Ascending(q[1..])
  {
    FirstOfRest(p);
    FirstIsLeast(q, p[0]);
    FirstOfRest(q);
    FirstIsLeast(p, q[0]);
  }

  /** There is only one way to put values in ascending order. */
  lemma {:induction false} OrderIsUnique(p: seq<real>, q: seq<real>)
    requires Ascending(p) && Ascending(q) && multiset(p) == multiset(q)
    ensures p == q
  {
    hide Ascending;
    if p == [] {
      assert |multiset(q)| == 0;
    } else {
      SameFirst(p, q);
      SameRest(p, q);
      OrderIsUnique(p[1..], q[1..]);
      assert p == [p[0]] + p[1..] && q == [q[0]] + q[1..];
    }
  }

  /** The median is the middle of the values in ascending order, however they are given: the middle
      one, the mean of the two middle ones, or 0.0 for none. */
  lemma {:induction false} MedianOfAnyOrdering(s: seq<real>, q: seq<real>)
    requires Ascending(q) && multiset(q) == multiset(s)
    ensures |q| == |s|
    ensures |q| == 0 ==> Median(s) == 0.0
    ensures |q| % 2 == 1 ==> Median(s) == q[|q| / 2]
    ensures |q| % 2 == 0 && |q| > 0 ==> 2.0 * Median(s) == q[|q| / 2 - 1] + q[|q| / 2]
  {
    SortIsSortedPermutation(s, 0.0);
    OrderIsUnique(q, Sort(s));
  }

  /** Values all strictly below c > 0 have a median strictly below c. */
  lemma MedianBelow(s: seq<real>, c: real)
    requires forall k :: 0 <= k < |s| ==> s[k] < c
    requires c > 0.0
    ensures Median(s) < c
  {
    if s != [] {
      var q := Sort(s);
      SortIsSortedPermutation(s, c);
      forall k | 0 <= k < |q| ensures q[k] < c {
        assert q[k] in multiset(q);
        assert q[k] in multiset(s);
      }
    }
  }
}
