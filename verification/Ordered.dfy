/** Finite sets of integers in order. */
module Ordered {

  ghost predicate Increasing(s: seq<int>) { forall i, j :: 0 <= i < j < |s| ==> s[i] < s[j] }

  lemma {:induction false} LeastExists(s: set<int>)
    requires s != {}
    ensures exists m :: m in s && forall x :: x in s ==> m <= x
    decreases |s|
  {
    assert (forall y :: y !in s) ==> s == {};
    var y :| y in s;
    if s - {y} == {} {
      assert s == {y};
    } else {
      LeastExists(s - {y});
      var m :| m in s - {y} && forall x :: x in s - {y} ==> m <= x;
      var least := if m <= y then m else y;
      assert least in s && forall x :: x in s ==> least <= x by {
        forall x | x in s ensures least <= x { if x != y { assert x in s - {y}; } }
      }
    }
  }

  function Least(s: set<int>): (m: int)
    requires s != {}
    ensures m in s && forall x :: x in s ==> m <= x
  {
    LeastExists(s);
    var m :| m in s && forall x :: x in s ==> m <= x;
    m
  }

  /** The elements of a set, smallest first. */
  function Ascending(s: set<int>): (r: seq<int>)
    ensures |r| == |s|
    decreases |s|
  {
    if s == {} then [] else [Least(s)] + Ascending(s - {Least(s)})
  }

  /** Every element once, in order. */
  lemma {:induction false} AscendingFacts(s: set<int>)
    ensures Increasing(Ascending(s)) && (set x | x in Ascending(s)) == s
    decreases |s|
  {
    if s != {} {
      var m := Least(s);
      var rest := Ascending(s - {m});
      AscendingFacts(s - {m});
      var elements := set x | x in rest;
      forall x | x in rest ensures m < x { assert x in elements && x in s && x != m; }
      Prepend(m, rest);
    }
  }

  lemma Prepend(m: int, rest: seq<int>)
    requires Increasing(rest) && forall x :: x in rest ==> m < x
    ensures Increasing([m] + rest)
    ensures (set x | x in [m] + rest) == {m} + set x | x in rest
  {
    var all := [m] + rest;
    forall i, j | 0 <= i < j < |all| ensures all[i] < all[j] {
      assert all[j] == rest[j - 1] && rest[j - 1] in rest;
      if i > 0 { assert all[i] == rest[i - 1]; }
    }
    assert forall x :: x in all <==> x == m || x in rest;
  }

  lemma {:induction false} IncreasingUnique(a: seq<int>, b: seq<int>)
    requires Increasing(a) && Increasing(b) && forall x :: x in a <==> x in b
    ensures a == b
    decreases |a|
  {
    if a == [] || b == [] {
      SameEmptiness(a, b);
      SameEmptiness(b, a);
    } else {
      assert a[0] in b && b[0] in a;
      assert a[0] == b[0];
      TailElements(a, b);
      IncreasingUnique(a[1..], b[1..]);
      assert a == [a[0]] + a[1..] && b == [b[0]] + b[1..];
    }
  }

  lemma {:induction false} SameEmptiness(a: seq<int>, b: seq<int>)
    requires forall x :: x in a ==> x in b
    ensures b == [] ==> a == []
  {
    if a != [] {
      var x := a[0];
      assert x in a;
      assert x in b;
    }
  }

  lemma TailElements(a: seq<int>, b: seq<int>)
    requires Increasing(a) && Increasing(b) && a != [] && b != [] && a[0] == b[0] && forall x :: x in a <==> x in b
    ensures forall x :: x in a[1..] <==> x in b[1..]
  {
    assert forall x :: x in a[1..] <==> x in a && x != a[0];
    assert forall x :: x in b[1..] <==> x in b && x != b[0];
  }

  /** The elements of a set, largest first. */
  function Descending(s: set<int>): seq<int> { Reversed(Ascending(s)) }

  function Reversed(s: seq<int>): (r: seq<int>)
    ensures |r| == |s| && forall i :: 0 <= i < |s| ==> r[i] == s[|s| - 1 - i]
  {
    if s == [] then [] else [s[|s| - 1]] + Reversed(s[..|s| - 1])
  }

  ghost predicate Decreasing(s: seq<int>) { forall i, j :: 0 <= i < j < |s| ==> s[i] > s[j] }

  lemma DescendingFacts(s: set<int>)
    ensures |Descending(s)| == |s| && Decreasing(Descending(s)) && (forall x :: x in Descending(s) <==> x in s)
  {
    hide Ascending;
    AscendingFacts(s);
    var a, d := Ascending(s), Descending(s);
    forall x ensures x in d <==> x in a {
      if x in a { var i :| 0 <= i < |a| && a[i] == x; assert d[|a| - 1 - i] == x; }
    }
    assert forall x :: x in a <==> x in (set x | x in a);
  }

  lemma DecreasingUnique(a: seq<int>, b: seq<int>)
    requires Decreasing(a) && Decreasing(b) && forall x :: x in a <==> x in b
    ensures a == b
  {
    var ra, rb := Reversed(a), Reversed(b);
    ReversedElements(a);
    ReversedElements(b);
    IncreasingUnique(ra, rb);
    assert forall i :: 0 <= i < |a| ==> a[i] == ra[|a| - 1 - i];
    assert forall i :: 0 <= i < |b| ==> b[i] == rb[|b| - 1 - i];
  }

  lemma ReversedElements(a: seq<int>)
    requires Decreasing(a)
    ensures Increasing(Reversed(a)) && forall x :: x in Reversed(a) <==> x in a
  {
    var r := Reversed(a);
    forall x ensures x in r <==> x in a {
      if x in a { var i :| 0 <= i < |a| && a[i] == x; assert r[|a| - 1 - i] == x; }
    }
  }

  lemma LastIsMax(s: set<int>)
    requires s != {}
    ensures Ascending(s)[|s| - 1] in s && forall x :: x in s ==> x <= Ascending(s)[|s| - 1]
  {
    hide Ascending;
    var a := Ascending(s);
    AscendingFacts(s);
    assert a[|s| - 1] in set x | x in a;
    forall x | x in s ensures x <= a[|s| - 1] {
      assert x in set x | x in a;
      var i :| 0 <= i < |a| && a[i] == x;
    }
  }

  /** Distinct elements are as many as their set. */
  lemma {:induction false} IncreasingSize(r: seq<int>)
    requires Increasing(r)
    ensures |set x | x in r| == |r|
  {
    if r != [] {
      var front, last := r[..|r| - 1], r[|r| - 1];
      IncreasingSize(front);
      assert forall x :: x in r <==> x in front || x == last;
      assert (set x | x in r) == (set x | x in front) + {last};
    }
  }
}
