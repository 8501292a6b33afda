/** Comparison of two records of a replica set, which sorts both instance lists in place. */
module SetComparison {
  import opened Topology
  import opened Snapshots
  import opened Sorting

  /** Byte-wise order of strings. */
  predicate StringLess(a: string, b: string) {
    if b == [] then false
    else if a == [] then true
    else a[0] < b[0] || (a[0] == b[0] && StringLess(a[1..], b[1..]))
  }

  /** One string is less exactly if it is a proper prefix of the other, or has the lesser
      character where they first differ. */
  lemma {:induction false} StringLessMeans(a: string, b: string)
    ensures StringLess(a, b) <==>
              exists k ::
                && 0 <= k <= |a| && k < |b| && a[..k] == b[..k]
                && (k < |a| ==> a[k] < b[k])
  {
    if a == [] || b == [] || a[0] != b[0] {
      if StringLess(a, b) {
        assert a[..0] == b[..0];
      }
    } else {
      StringLessMeans(a[1..], b[1..]);
      if StringLess(a, b) {
        var k :| 0 <= k <= |a[1..]| && k < |b[1..]| && a[1..][..k] == b[1..][..k]
                 && (k < |a[1..]| ==> a[1..][k] < b[1..][k]);
        PrefixOfTail(a, k);
        PrefixOfTail(b, k);
        assert a[..k + 1] == b[..k + 1];
      }
      if k :| 0 <= k <= |a| && k < |b| && a[..k] == b[..k] && (k < |a| ==> a[k] < b[k]) {
        if k > 0 {
          PrefixOfTail(a, k - 1);
          PrefixOfTail(b, k - 1);
          assert a[1..][..k - 1] == a[..k][1..] && b[1..][..k - 1] == b[..k][1..];
        }
      }
    }
  }

  lemma PrefixOfTail(a: string, k: nat)
    requires k < |a|
    ensures a[..k + 1] == [a[0]] + a[1..][..k]
  {
  }

  lemma {:induction false} StringLessIsTotal(a: string, b: string)
    ensures a == b <==> !StringLess(a, b) && !StringLess(b, a)
  {
    if a != [] && b != [] {
      StringLessIsTotal(a[1..], b[1..]);
      assert a == [a[0]] + a[1..] && b == [b[0]] + b[1..];
    }
  }

  lemma {:induction false} StringLessIsTransitive(a: string, b: string, c: string)
    ensures StringLess(a, b) && StringLess(b, c) ==> StringLess(a, c)
  {
    if a != [] && b != [] && c != [] {
      StringLessIsTransitive(a[1..], b[1..], c[1..]);
    }
  }

  predicate UuidLess(a: Instance, b: Instance) {
    StringLess(a.uuid, b.uuid)
  }

  predicate SameInstance(a: Instance, b: Instance) {
    && a.uuid == b.uuid
    && a.uri == b.uri
    && a.fingerprint == b.fingerprint
    && a.id == b.id
    && a.readonly == b.readonly
    && a.storage.replication == b.storage.replication
    && a.storage.health == b.storage.health
  }

  /** The compared fields of an instance besides its UUID. */
  datatype Digest = Digest(
    uri: Uri,
    fingerprint: int,
    id: nat,
    readonly: bool,
    replication: ReplicationStatus,
    health: int)

  function DigestOf(i: Instance): Digest {
    Digest(i.uri, i.fingerprint, i.id, i.readonly, i.storage.replication, i.storage.health)
  }

  /** The list as a map from UUIDs to compared fields, given as the set of its pairs. */
  ghost function Graph(s: seq<Instance>): set<(InstanceUuid, Digest)> {
    set i | i in s :: (i.uuid, DigestOf(i))
  }

  /** The records agree on their header and, as maps, on every instance. */
  ghost predicate SameSets(a: ReplicaSet, b: ReplicaSet) {
    && a.uuid == b.uuid
    && a.masterUuid == b.masterUuid
    && Graph(a.instances) == Graph(b.instances)
  }

  /** That is: they have the same header and equally many instances, and each instance of the
      one agrees with an instance of the other on everything that is compared. */
  lemma SameSetsMeans(a: ReplicaSet, b: ReplicaSet)
    requires DistinctUuids(a.instances) && DistinctUuids(b.instances)
    ensures SameSets(a, b) <==>
              && a.uuid == b.uuid && a.masterUuid == b.masterUuid && |a.instances| == |b.instances|
              && forall i :: i in a.instances ==> exists j ::
                   && j in b.instances
                   && i.uuid == j.uuid && i.uri == j.uri && i.id == j.id && i.readonly == j.readonly
                   && i.fingerprint == j.fingerprint
                   && i.storage.replication == j.storage.replication && i.storage.health == j.storage.health
  {
    DifferentLengthsDiffer(a.instances, b.instances);
    if SameSets(a, b) {
      forall i | i in a.instances ensures exists j :: j in b.instances && SameInstance(i, j) {
        assert (i.uuid, DigestOf(i)) in Graph(b.instances);
      }
    } else if a.uuid == b.uuid && a.masterUuid == b.masterUuid && |a.instances| == |b.instances| {
      if forall i :: i in a.instances ==> exists j :: j in b.instances && SameInstance(i, j) {
        AgreeingListsHaveSameGraph(a.instances, b.instances);
      }
    }
  }

  lemma {:induction false} GraphSize(s: seq<Instance>)
    requires DistinctUuids(s)
    ensures |Graph(s)| == |s|
  {
    if s != [] {
      var front, last := s[..|s| - 1], s[|s| - 1];
      GraphSize(front);
      assert s == front + [last];
      assert (last.uuid, DigestOf(last)) !in Graph(front);
      assert Graph(s) == Graph(front) + {(last.uuid, DigestOf(last))};
    }
  }

  lemma AgreeingListsHaveSameGraph(a: seq<Instance>, b: seq<Instance>)
    requires DistinctUuids(a) && DistinctUuids(b) && |a| == |b|
    requires forall i :: i in a ==> exists j :: j in b && SameInstance(i, j)
    ensures Graph(a) == Graph(b)
  {
    forall i | i in a ensures (i.uuid, DigestOf(i)) in Graph(b) {
      var j :| j in b && SameInstance(i, j);
    }
    GraphSize(a);
    GraphSize(b);
    SubsetOfSameSize(Graph(a), Graph(b));
  }

  lemma SubsetOfSameSize<T>(a: set<T>, b: set<T>)
    requires a <= b && |a| == |b|
    ensures a == b
  {
    assert |b| == |b - a| + |a| by { assert b == (b - a) + a; }
    assert b - a == {};
  }

  ghost predicate StrictlySorted(s: seq<Instance>) {
    forall i, j :: 0 <= i < j < |s| ==> StringLess(s[i].uuid, s[j].uuid)
  }

  ghost predicate SameElementwise(a: seq<Instance>, b: seq<Instance>) {
    |a| == |b| && forall i :: 0 <= i < |a| ==> SameInstance(a[i], b[i])
  }

  lemma UuidLessIsAnOrder(s: seq<Instance>)
    ensures StrictWeakOrderOn(s, UuidLess)
  {
    forall x, y, z | x in s && y in s && z in s
      ensures !UuidLess(x, x)
      ensures UuidLess(x, y) && UuidLess(y, z) ==> UuidLess(x, z)
      ensures !UuidLess(x, y) && !UuidLess(y, z) ==> !UuidLess(x, z)
    {
      StringLessIsTotal(x.uuid, x.uuid);
      StringLessIsTotal(x.uuid, y.uuid);
      StringLessIsTotal(y.uuid, z.uuid);
      StringLessIsTransitive(x.uuid, y.uuid, z.uuid);
      StringLessIsTransitive(x.uuid, z.uuid, y.uuid);
      StringLessIsTransitive(y.uuid, x.uuid, z.uuid);
    }
  }

  /** Distinctness survives reordering. */
  lemma ReorderedIsDistinct(s: seq<Instance>, r: seq<Instance>)
    requires DistinctUuids(s) && multiset(r) == multiset(s)
    ensures DistinctUuids(r)
  {
    forall i, j | 0 <= i < j < |r| ensures r[i].uuid != r[j].uuid {
      SameElements(r, s);
      assert r[i] in s && r[j] in s;
      if r[i] == r[j] {
        assert r == r[..i] + [r[i]] + r[i + 1..j] + [r[j]] + r[j + 1..];
        assert multiset(r)[r[i]] >= 2;
        DistinctOccursOnce(s, r[i]);
      }
    }
  }

  lemma {:induction false} DistinctOccursOnce(s: seq<Instance>, x: Instance)
    requires DistinctUuids(s)
    ensures multiset(s)[x] <= 1
  {
    if s != [] {
      var front, last := s[..|s| - 1], s[|s| - 1];
      assert s == front + [last];
      DistinctOccursOnce(front, x);
      if x == last {
        assert x !in front;
      }
    }
  }

  lemma SortingIsStrict(s: seq<Instance>)
    requires DistinctUuids(s)
    ensures StrictlySorted(Sorted(s, UuidLess)) && multiset(Sorted(s, UuidLess)) == multiset(s)
  {
    var r := Sorted(s, UuidLess);
    UuidLessIsAnOrder(s);
    SortedIsAdjacentOrdered(s, UuidLess);
    SortedPermutes(s, UuidLess);
    ReorderedIsDistinct(s, r);
    UuidLessIsAnOrder(r);
    forall i, j | 0 <= i < j < |r| ensures StringLess(r[i].uuid, r[j].uuid) {
      AdjacentOrderIsFullOrder(r, UuidLess, i, j);
      StringLessIsTotal(r[i].uuid, r[j].uuid);
    }
  }

  lemma GraphIgnoresOrder(r: seq<Instance>, s: seq<Instance>)
    requires multiset(r) == multiset(s)
    ensures Graph(r) == Graph(s)
  {
    SameElements(r, s);
  }

  lemma SameElementwiseHasSameGraph(a: seq<Instance>, b: seq<Instance>)
    requires SameElementwise(a, b)
    ensures Graph(a) == Graph(b)
  {
    GraphIsWithin(a, b);
    GraphIsWithin(b, a);
  }

  lemma GraphIsWithin(a: seq<Instance>, b: seq<Instance>)
    requires SameElementwise(a, b)
    ensures Graph(a) <= Graph(b)
  {
    forall i | i in a ensures (i.uuid, DigestOf(i)) in Graph(b) {
      var k :| 0 <= k < |a| && a[k] == i;
      assert SameInstance(a[k], b[k]) && b[k] in b;
    }
  }

  /** In a strictly sorted list the last entry has the greatest UUID, so lists with one
      graph end alike. */
  lemma SameGraphEndsAlike(a: seq<Instance>, b: seq<Instance>)
    requires StrictlySorted(a) && StrictlySorted(b) && a != [] && Graph(a) == Graph(b)
    ensures b != [] && SameInstance(a[|a| - 1], b[|b| - 1])
    ensures Graph(a[..|a| - 1]) == Graph(b[..|b| - 1])
  {
    var x := a[|a| - 1];
    assert (x.uuid, DigestOf(x)) in Graph(b);
    var j :| 0 <= j < |b| && b[j].uuid == x.uuid && DigestOf(b[j]) == DigestOf(x);
    var y := b[|b| - 1];
    assert (y.uuid, DigestOf(y)) in Graph(a);
    var i :| 0 <= i < |a| && a[i].uuid == y.uuid && DigestOf(a[i]) == DigestOf(y);
    StringLessIsTotal(x.uuid, x.uuid);
    StringLessIsTransitive(x.uuid, y.uuid, x.uuid);
    assert j == |b| - 1;
    GraphWithoutLast(a);
    GraphWithoutLast(b);
  }

  lemma GraphWithoutLast(s: seq<Instance>)
    requires StrictlySorted(s) && s != []
    ensures Graph(s[..|s| - 1]) == Graph(s) - {(s[|s| - 1].uuid, DigestOf(s[|s| - 1]))}
  {
    var front, last := s[..|s| - 1], s[|s| - 1];
    assert s == front + [last];
    StringLessIsTotal(last.uuid, last.uuid);
    forall p ensures p in Graph(front) <==> p in Graph(s) && p != (last.uuid, DigestOf(last)) {
      if p in Graph(front) {
        var k :| 0 <= k < |front| && (front[k].uuid, DigestOf(front[k])) == p;
        assert s[k] == front[k] && s[k] in s;
      }
    }
  }

  lemma NonEmptyHasPairs(s: seq<Instance>)
    ensures Graph(s) == {} <==> s == []
  {
    if s != [] {
      assert (s[0].uuid, DigestOf(s[0])) in Graph(s);
    }
  }

  lemma {:induction false} SameGraphIsSameElementwise(a: seq<Instance>, b: seq<Instance>)
    requires StrictlySorted(a) && StrictlySorted(b) && Graph(a) == Graph(b)
    ensures SameElementwise(a, b)
  {
    NonEmptyHasPairs(b);
    if a != [] {
      SameGraphEndsAlike(a, b);
      SameGraphIsSameElementwise(a[..|a| - 1], b[..|b| - 1]);
    }
  }

  method CompareElementwise(a: array<Instance>, b: array<Instance>) returns (same: bool)
    requires a.Length == b.Length
    ensures same <==> SameElementwise(a[..], b[..])
  {
    for i := 0 to a.Length
      invariant forall j :: 0 <= j < i ==> SameInstance(a[j], b[j])
    {
      if !SameInstance(a[i], b[i]) {
        assert !SameInstance(a[..][i], b[..][i]);
        return false;
      }
    }
    return true;
  }

  /** The records differ at most in their instances, of which they have equally many. */
  predicate Comparable(a: ReplicaSet, b: ReplicaSet) {
    a.uuid == b.uuid && a.masterUuid == b.masterUuid && |a.instances| == |b.instances|
  }

  /** The comparison is decided by the two records as maps; both lists, or the one
      they share, keep their instances. */
  method SameAs(rs: SetRecord, another: SetRecord) returns (same: bool)
    modifies rs.instances, another.instances
    ensures old(DistinctUuids(rs.instances[..]) && DistinctUuids(another.instances[..])) ==>
              (same <==> SameSets(old(rs.View()), old(another.View())))
    ensures multiset(rs.instances[..]) == multiset(old(rs.instances[..]))
    ensures multiset(another.instances[..]) == multiset(old(another.instances[..]))
    ensures rs.instances != another.instances ==>
              if old(Comparable(rs.View(), another.View())) then
                && rs.instances[..] == Sorted(old(rs.instances[..]), UuidLess)
                && another.instances[..] == Sorted(old(another.instances[..]), UuidLess)
              else
                && rs.instances[..] == old(rs.instances[..])
                && another.instances[..] == old(another.instances[..])
  {
    hide Graph, Sorted, SameElementwise, DistinctUuids;
    ghost var before, anotherBefore := rs.instances[..], another.instances[..];
    if rs.uuid != another.uuid {
      return false;
    }
    if rs.masterUuid != another.masterUuid || rs.instances.Length != another.instances.Length {
      if DistinctUuids(before) && DistinctUuids(anotherBefore) {
        DifferentLengthsDiffer(before, anotherBefore);
      }
      return false;
    }
    InsertionSort(rs.instances, UuidLess);
    ghost var between := another.instances[..];
    InsertionSort(another.instances, UuidLess);
    SortedPermutes(before, UuidLess);
    SortedPermutes(between, UuidLess);
    if rs.instances == another.instances {
      ComparedToItself(rs.instances[..]);
    } else if DistinctUuids(before) && DistinctUuids(anotherBefore) {
      SortedListsDecide(before, anotherBefore);
    }
    same := CompareElementwise(rs.instances, another.instances);
  }

  lemma ComparedToItself(s: seq<Instance>)
    ensures SameElementwise(s, s)
  {
  }

  lemma SortedListsDecide(a: seq<Instance>, b: seq<Instance>)
    requires DistinctUuids(a) && DistinctUuids(b)
    ensures SameElementwise(Sorted(a, UuidLess), Sorted(b, UuidLess)) <==> Graph(a) == Graph(b)
    ensures |Sorted(a, UuidLess)| == |a| && |Sorted(b, UuidLess)| == |b|
  {
    var x, y := Sorted(a, UuidLess), Sorted(b, UuidLess);
    SortingIsStrict(a);
    SortingIsStrict(b);
    GraphIgnoresOrder(x, a);
    GraphIgnoresOrder(y, b);
    if Graph(a) == Graph(b) {
      SameGraphIsSameElementwise(x, y);
    } else if SameElementwise(x, y) {
      SameElementwiseHasSameGraph(x, y);
    }
  }

  lemma DifferentLengthsDiffer(a: seq<Instance>, b: seq<Instance>)
    requires DistinctUuids(a) && DistinctUuids(b)
    ensures |a| != |b| ==> Graph(a) != Graph(b)
  {
    SortedListsDecide(a, b);
  }

  /** Being the same is an equivalence, and blind to the order of either list. */
  lemma SameSetsIsAnEquivalence(a: ReplicaSet, b: ReplicaSet, c: ReplicaSet, reordered: seq<Instance>)
    requires multiset(reordered) == multiset(a.instances)
    ensures SameSets(a, a)
    ensures SameSets(a, b) ==> SameSets(b, a)
    ensures SameSets(a, b) && SameSets(b, c) ==> SameSets(a, c)
    ensures SameSets(a, b) <==> SameSets(a.(instances := reordered), b)
    ensures SameSets(b, a) <==> SameSets(b, a.(instances := reordered))
  {
    GraphIgnoresOrder(reordered, a.instances);
  }
}
