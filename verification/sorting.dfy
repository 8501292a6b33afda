/** In-place insertion sort over an arbitrary comparison, which need not be an order. */
module Sorting {

  ghost predicate AsymmetricOn<T>(s: seq<T>, less: (T, T) -> bool) {
    forall x, y :: x in s && y in s && less(x, y) ==> !less(y, x)
  }

  ghost predicate StrictWeakOrderOn<T>(s: seq<T>, less: (T, T) -> bool) {
    && (forall x :: x in s ==> !less(x, x))
    && (forall x, y, z :: x in s && y in s && z in s && less(x, y) && less(y, z) ==> less(x, z))
    && (forall x, y, z :: x in s && y in s && z in s && !less(x, y) && !less(y, z) ==> !less(x, z))
  }

  /** No element is less than the one just before it. */
  ghost predicate AdjacentOrdered<T>(s: seq<T>, less: (T, T) -> bool) {
    forall i :: 0 < i < |s| ==> !less(s[i], s[i - 1])
  }

  /** `x` sifted down from the end of `s` while it is less than its left neighbour. */
  function Insert<T>(s: seq<T>, x: T, less: (T, T) -> bool): (r: seq<T>)
    ensures |r| == |s| + 1
  {
    if s == [] || !less(x, s[|s| - 1]) then s + [x]
    else Insert(s[..|s| - 1], x, less) + [s[|s| - 1]]
  }

  function Sorted<T>(s: seq<T>, less: (T, T) -> bool): (r: seq<T>)
    ensures |r| == |s|
  {
    if s == [] then []
    else Insert(Sorted(s[..|s| - 1], less), s[|s| - 1], less)
  }

  /** What remains to be inserted after `j` swaps: the goal of the inner loop. */
  ghost function Pending<T>(s: seq<T>, j: nat, i: nat, x: T, less: (T, T) -> bool): seq<T>
    requires j <= i < |s|
  {
    Insert(s[..j], x, less) + s[j + 1..i + 1]
  }

  lemma SwapKeepsPending<T(!new)>(s: seq<T>, j: nat, i: nat, x: T, less: (T, T) -> bool)
    requires 0 < j <= i < |s| && less(x, s[j - 1])
    ensures Pending(s[j - 1 := x][j := s[j - 1]], j - 1, i, x, less) == Pending(s, j, i, x, less)
  {
    var t := s[j - 1 := x][j := s[j - 1]];
    assert s[..j][..j - 1] == t[..j - 1];
    assert t[j..i + 1] == [s[j - 1]] + s[j + 1..i + 1];
  }

  /** The inner loop: moves `a[i]` left past every neighbour it is less than. */
  method SiftDown<T(!new)>(a: array<T>, i: nat, less: (T, T) -> bool)
    requires i < a.Length
    modifies a
    ensures a[..i + 1] == Insert(old(a[..i]), old(a[i]), less)
    ensures a[i + 1..] == old(a[i + 1..])
  {
    ghost var x, goal := a[i], Pending(a[..], i, i, a[i], less);
    assert a[..][..i] == a[..i] && a[..][i + 1..i + 1] == [];
    var j := i;
    while j > 0 && less(a[j], a[j - 1])
      invariant 0 <= j <= i
      invariant a[j] == x
      invariant forall k :: i < k < a.Length ==> a[k] == old(a[k])
      invariant Pending(a[..], j, i, x, less) == goal
    {
      SwapKeepsPending(a[..], j, i, x, less);
      ghost var before := a[..];
      a[j], a[j - 1] := a[j - 1], a[j];
      assert a[..] == before[j - 1 := x][j := before[j - 1]];
      j := j - 1;
    }
    ghost var s := a[..];
    assert s[..i + 1] == s[..j] + [x] + s[j + 1..i + 1];
  }

  lemma SortedStep<T>(s: seq<T>, i: nat, less: (T, T) -> bool)
    requires i < |s|
    ensures Sorted(s[..i + 1], less) == Insert(Sorted(s[..i], less), s[i], less)
  {
    assert s[..i + 1][..i] == s[..i];
  }

  lemma SortedNothing<T>(less: (T, T) -> bool)
    ensures Sorted([], less) == []
  {
  }

  /** Go's insertion sort: `Less(j, j-1)` guards `Swap(j, j-1)`. */
  method InsertionSort<T(!new)>(a: array<T>, less: (T, T) -> bool)
    modifies a
    ensures a[..] == Sorted(old(a[..]), less)
  {
    hide Sorted, Insert;
    ghost var was := a[..];
    SortedNothing(less);
    assert was[..0] == a[..0] == [];
    var i := 0;
    while i < a.Length
      invariant 0 <= i <= a.Length
      invariant a[..i] == Sorted(was[..i], less)
      invariant a[i..] == was[i..]
    {
      SortedStep(was, i, less);
      assert a[i] == a[i..][0] == was[i..][0] == was[i];
      assert a[i + 1..] == a[i..][1..] == was[i..][1..] == was[i + 1..];
      SiftDown(a, i, less);
      i := i + 1;
    }
    assert a[..a.Length] == a[..] && was[..a.Length] == was;
  }

  /** The inserted element goes behind the last element it is not less than, and no further. */
  lemma {:induction false} InsertPosition<T(!new)>(s: seq<T>, x: T, less: (T, T) -> bool) returns (p: nat)
    ensures p <= |s| && Insert(s, x, less) == s[..p] + [x] + s[p..]
    ensures p > 0 ==> !less(x, s[p - 1])
    ensures forall k :: p <= k < |s| ==> less(x, s[k])
  {
    p := |s|;
    if s != [] && less(x, s[|s| - 1]) {
      var front, last := s[..|s| - 1], s[|s| - 1];
      p := InsertPosition(front, x, less);
      SplitBeforeLast(s, p);
      assert Insert(s, x, less) == (front[..p] + [x] + front[p..]) + [last];
    }
  }

  lemma SplitBeforeLast<T(!new)>(s: seq<T>, p: nat)
    requires p < |s|
    ensures s[..|s| - 1][..p] == s[..p] && s[p..] == s[..|s| - 1][p..] + [s[|s| - 1]]
  {
  }

  lemma {:induction false} InsertPermutes<T(!new)>(s: seq<T>, x: T, less: (T, T) -> bool)
    ensures multiset(Insert(s, x, less)) == multiset(s) + multiset{x}
  {
    if s != [] {
      assert s == s[..|s| - 1] + [s[|s| - 1]];
      InsertPermutes(s[..|s| - 1], x, less);
    }
  }

  /** Whatever the comparison does, sorting only reorders. */
  lemma {:induction false} SortedPermutes<T(!new)>(s: seq<T>, less: (T, T) -> bool)
    ensures multiset(Sorted(s, less)) == multiset(s)
  {
    if s != [] {
      assert s == s[..|s| - 1] + [s[|s| - 1]];
      SortedPermutes(s[..|s| - 1], less);
      InsertPermutes(Sorted(s[..|s| - 1], less), s[|s| - 1], less);
    }
  }

  lemma SameElements<T(!new)>(r: seq<T>, s: seq<T>)
    requires multiset(r) == multiset(s)
    ensures forall x :: x in r <==> x in s
  {
    forall x ensures x in r <==> x in s {
      assert x in r <==> x in multiset(r);
      assert x in s <==> x in multiset(s);
    }
  }

  lemma {:induction false} InsertKeepsAdjacentOrder<T(!new)>(s: seq<T>, x: T, less: (T, T) -> bool)
    requires AdjacentOrdered(s, less)
    requires forall y :: y in s && less(x, y) ==> !less(y, x)
    ensures AdjacentOrdered(Insert(s, x, less), less)
    ensures var r := Insert(s, x, less); r[|r| - 1] == x || (s != [] && r[|r| - 1] == s[|s| - 1])
  {
    if s != [] && less(x, s[|s| - 1]) {
      InsertKeepsAdjacentOrder(s[..|s| - 1], x, less);
    }
  }

  /** Asymmetry alone, without transitivity, makes the result adjacent-ordered. */
  lemma {:induction false} SortedIsAdjacentOrdered<T(!new)>(s: seq<T>, less: (T, T) -> bool)
    requires AsymmetricOn(s, less)
    ensures AdjacentOrdered(Sorted(s, less), less)
  {
    if s != [] {
      var front := s[..|s| - 1];
      SortedIsAdjacentOrdered(front, less);
      SortedPermutes(front, less);
      SameElements(Sorted(front, less), front);
      InsertKeepsAdjacentOrder(Sorted(front, less), s[|s| - 1], less);
    }
  }

  /** Over a strict weak order adjacent order is full order: nothing is beaten by a later element. */
  lemma {:induction false} AdjacentOrderIsFullOrder<T(!new)>(s: seq<T>, less: (T, T) -> bool, i: nat, j: nat)
    requires StrictWeakOrderOn(s, less) && AdjacentOrdered(s, less)
    requires i <= j < |s|
    ensures !less(s[j], s[i])
    decreases j - i
  {
    if i < j {
      AdjacentOrderIsFullOrder(s, less, i, j - 1);
      assert s[i] in s && s[j - 1] in s && s[j] in s;
    }
  }

  /** Over a strict weak order the first element of the result is beaten by no one. */
  lemma SortedFirstIsUnbeaten<T(!new)>(s: seq<T>, less: (T, T) -> bool, y: T)
    requires s != [] && y in s
    requires StrictWeakOrderOn(s, less)
    ensures !less(y, Sorted(s, less)[0])
  {
    var r := Sorted(s, less);
    SortedPermutes(s, less);
    SameElements(r, s);
    SortedIsAdjacentOrdered(s, less);
    var k :| 0 <= k < |r| && r[k] == y;
    AdjacentOrderIsFullOrder(r, less, 0, k);
  }

  /** Some occurrence of `x` stands before some occurrence of `y`. */
  ghost predicate Before<T>(s: seq<T>, x: T, y: T) {
    exists i, j :: 0 <= i < j < |s| && s[i] == x && s[j] == y
  }

  lemma {:induction false} InsertKeepsBefore<T(!new)>(s: seq<T>, z: T, less: (T, T) -> bool, x: T, y: T)
    requires Before(s, x, y)
    ensures Before(Insert(s, z, less), x, y)
  {
    var i, j :| 0 <= i < j < |s| && s[i] == x && s[j] == y;
    var r := Insert(s, z, less);
    if !less(z, s[|s| - 1]) {
      assert r[i] == x && r[j] == y;
    } else {
      var front := s[..|s| - 1];
      if j < |front| {
        assert front[i] == x && front[j] == y;
        InsertKeepsBefore(front, z, less, x, y);
        var i', j' :| 0 <= i' < j' < |front| + 1 && Insert(front, z, less)[i'] == x && Insert(front, z, less)[j'] == y;
        assert r[i'] == x && r[j'] == y;
      } else {
        InsertKeeps(front, z, less, x);
        var i' :| 0 <= i' < |front| + 1 && Insert(front, z, less)[i'] == x;
        assert r[i'] == x && r[|r| - 1] == y;
      }
    }
  }

  lemma InsertKeeps<T(!new)>(s: seq<T>, z: T, less: (T, T) -> bool, x: T)
    requires x in s
    ensures x in Insert(s, z, less)
  {
    InsertPermutes(s, z, less);
    assert x in multiset(Insert(s, z, less));
  }

  /** Elements that are sorted later never turn round the order of those sorted before. */
  lemma {:induction false} SortingMoreKeepsBefore<T(!new)>(s: seq<T>, more: seq<T>, less: (T, T) -> bool, x: T, y: T)
    requires Before(Sorted(s, less), x, y)
    ensures Before(Sorted(s + more, less), x, y)
  {
    if more == [] {
      assert s + more == s;
    } else {
      var front := more[..|more| - 1];
      assert (s + more)[..|s| + |more| - 1] == s + front;
      SortingMoreKeepsBefore(s, front, less, x, y);
      InsertKeepsBefore(Sorted(s + front, less), more[|more| - 1], less, x, y);
    }
  }
}
