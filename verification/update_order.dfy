/** The order in which cluster members receive the new configuration. */
module UpdateOrder {
  import opened Topology
  import opened Sorting

  /** The criteria below the validity of the last check: unreachable-master alert, then idle. */
  predicate Ahead(left: Instance, right: Instance) {
    if left.HasAlert(UnreachableMaster) && !right.HasAlert(UnreachableMaster) then true
    else if right.HasAlert(UnreachableMaster) && !left.HasAlert(UnreachableMaster) then false
    else left.Idle() < right.Idle()
  }

  /** `left` is updated before `right`. An invalid left and a valid right fall through to
      the lower criteria: there is no branch for them. */
  predicate FailoverLess(left: Instance, right: Instance) {
    if left.lastCheckValid && !right.lastCheckValid then true
    else Ahead(left, right)
  }

  /** Some instance whose last check failed is ahead of one whose last check succeeded: it
      alone reports its master unreachable, or both or neither do and it is the less idle. */
  ghost predicate InvalidAheadOfValid(s: seq<Instance>) {
    exists l, r ::
      && l in s && r in s && !l.lastCheckValid && r.lastCheckValid
      && if UnreachableMaster in l.storage.alerts then
           UnreachableMaster in r.storage.alerts ==> l.Idle() < r.Idle()
         else
           UnreachableMaster !in r.storage.alerts && l.Idle() < r.Idle()
  }

  /** Valid instances come first; among instances of one validity those that report their
      master unreachable; and among these, and the others, the less idle. */
  ghost predicate InUpdateOrder(s: seq<Instance>) {
    forall i, j :: 0 <= i < j < |s| ==>
      && (s[j].lastCheckValid ==> s[i].lastCheckValid)
      && (s[i].lastCheckValid == s[j].lastCheckValid ==>
            && (UnreachableMaster in s[j].storage.alerts ==> UnreachableMaster in s[i].storage.alerts)
            && ((UnreachableMaster in s[i].storage.alerts <==> UnreachableMaster in s[j].storage.alerts) ==>
                  s[i].Idle() <= s[j].Idle()))
  }

  lemma InvalidAhead(s: seq<Instance>) returns (l: Instance, r: Instance)
    requires InvalidAheadOfValid(s)
    ensures l in s && r in s && !l.lastCheckValid && r.lastCheckValid && Ahead(l, r)
  {
    l, r :|
      && l in s && r in s && !l.lastCheckValid && r.lastCheckValid
      && if UnreachableMaster in l.storage.alerts then
           UnreachableMaster in r.storage.alerts ==> l.Idle() < r.Idle()
         else
           UnreachableMaster !in r.storage.alerts && l.Idle() < r.Idle();
  }

  /** The comparison orders a list exactly when no failed instance is ahead of a valid one. */
  lemma FailoverLessIsAnOrderIff(s: seq<Instance>)
    ensures StrictWeakOrderOn(s, FailoverLess) <==> !InvalidAheadOfValid(s)
    ensures AsymmetricOn(s, FailoverLess) <==> !InvalidAheadOfValid(s)
  {
    if InvalidAheadOfValid(s) {
      var l, r := InvalidAhead(s);
      assert FailoverLess(l, r) && FailoverLess(r, l) && !FailoverLess(l, l);
    } else {
      forall x, y, z | x in s && y in s && z in s
        ensures FailoverLess(x, y) && FailoverLess(y, z) ==> FailoverLess(x, z)
        ensures !FailoverLess(x, y) && !FailoverLess(y, z) ==> !FailoverLess(x, z)
      {
      }
    }
  }

  /** Lists of uniform validity are ordered. */
  lemma UniformValidityIsOrdered(s: seq<Instance>)
    requires forall x, y :: x in s && y in s ==> x.lastCheckValid == y.lastCheckValid
    ensures StrictWeakOrderOn(s, FailoverLess)
  {
    FailoverLessIsAnOrderIff(s);
  }

  /** No instance whose last check failed stands before one whose last check succeeded. */
  ghost predicate ValidLead(s: seq<Instance>) {
    forall i, j :: 0 <= i < j < |s| && s[j].lastCheckValid ==> s[i].lastCheckValid
  }

  lemma OrderedIsInUpdateOrder(s: seq<Instance>)
    requires !InvalidAheadOfValid(s)
    ensures InUpdateOrder(Sorted(s, FailoverLess))
    ensures ValidLead(Sorted(s, FailoverLess))
  {
    var r := Sorted(s, FailoverLess);
    FailoverLessIsAnOrderIff(s);
    SortedIsAdjacentOrdered(s, FailoverLess);
    SortedPermutes(s, FailoverLess);
    SameElements(r, s);
    forall i, j | 0 <= i < j < |r| ensures !FailoverLess(r[j], r[i]) {
      AdjacentOrderIsFullOrder(r, FailoverLess, i, j);
    }
  }

  lemma SortedPair(valid: Instance, failed: Instance)
    requires FailoverLess(failed, valid)
    ensures Sorted([valid, failed], FailoverLess) == [failed, valid]
  {
    var s := [valid, failed];
    assert s[..1] == [valid] && [valid][..0] == [];
    assert Sorted([valid], FailoverLess) == Insert([], valid, FailoverLess) == [valid];
    assert Sorted(s, FailoverLess) == Insert([valid], failed, FailoverLess);
    assert Insert([valid], failed, FailoverLess) == Insert([], failed, FailoverLess) + [valid];
  }

  lemma TakenOut(s: seq<Instance>, x: Instance) returns (rest: seq<Instance>)
    requires x in s
    ensures multiset(s) == multiset([x] + rest)
  {
    var i :| 0 <= i < |s| && s[i] == x;
    rest := s[..i] + s[i + 1..];
    assert s == s[..i] + ([x] + s[i + 1..]);
    assert multiset(s) == multiset(s[..i]) + (multiset{x} + multiset(s[i + 1..]));
  }

  /** Two different elements of a list can be brought to its front. */
  lemma BroughtForward(s: seq<Instance>, x: Instance, y: Instance) returns (rest: seq<Instance>)
    requires x in s && y in s && x != y
    ensures multiset([x, y] + rest) == multiset(s)
  {
    var t := TakenOut(s, x);
    assert y in t by {
      assert y in multiset([x] + t);
      assert y in [x] + t;
    }
    rest := TakenOut(t, y);
    assert [x, y] + rest == [x] + ([y] + rest);
    assert multiset([x] + ([y] + rest)) == multiset{x} + multiset([y] + rest);
  }

  /** A failed instance ahead of a valid one is told first in some order of the list. */
  lemma SomeOrderPutsInvalidFirst(s: seq<Instance>, failed: Instance, valid: Instance) returns (p: seq<Instance>)
    requires failed in s && valid in s && !failed.lastCheckValid && valid.lastCheckValid && Ahead(failed, valid)
    ensures multiset(p) == multiset(s) && !ValidLead(Sorted(p, FailoverLess))
  {
    var rest := BroughtForward(s, valid, failed);
    p := [valid, failed] + rest;
    SortedPair(valid, failed);
    assert Before([failed, valid], failed, valid) by {
      assert [failed, valid][0] == failed && [failed, valid][1] == valid;
    }
    SortingMoreKeepsBefore([valid, failed], rest, FailoverLess, failed, valid);
    var i, j :| 0 <= i < j < |p| && Sorted(p, FailoverLess)[i] == failed && Sorted(p, FailoverLess)[j] == valid;
  }

  /** Valid instances are told first, in whatever order discovery delivered them, exactly
      when no failed instance is ahead of a valid one. */
  lemma ValidComeFirstIff(s: seq<Instance>)
    ensures (forall p :: multiset(p) == multiset(s) ==> ValidLead(Sorted(p, FailoverLess)))
            <==> !InvalidAheadOfValid(s)
  {
    if !InvalidAheadOfValid(s) {
      forall p | multiset(p) == multiset(s) ensures ValidLead(Sorted(p, FailoverLess)) {
        SameElements(p, s);
        OrderedIsInUpdateOrder(p);
      }
    } else {
      var l, r := InvalidAhead(s);
      var p := SomeOrderPutsInvalidFirst(s, l, r);
    }
  }

  /** The master that died has no upstream, so its idle is 0 and it goes ahead of a valid
      follower. */
  lemma InvalidCanComeFirst() returns (s: seq<Instance>)
    ensures |s| == 2 && DistinctUuids(s) && s[0].lastCheckValid && !s[1].lastCheckValid
    ensures Sorted(s, FailoverLess) == [s[1], s[0]]
  {
    var follower := ZERO_INSTANCE.(uuid := "follower", lastCheckValid := true,
                                   upstream := Some(Upstream(UpstreamDisconnected, 1.0)));
    var master := ZERO_INSTANCE.(uuid := "master");
    s := [follower, master];
    assert |"follower"| != |"master"|;
    SortedPair(follower, master);
  }

  /** The addresses of all instances but `c`, in order. */
  function AddressesExcept(s: seq<Instance>, c: InstanceUuid): seq<Uri> {
    if s == [] then []
    else AddressesExcept(s[..|s| - 1], c) + if s[|s| - 1].uuid == c then [] else [s[|s| - 1].uri]
  }

  lemma AddressesStep(s: seq<Instance>, k: nat, c: InstanceUuid)
    requires k < |s|
    ensures AddressesExcept(s[..k + 1], c) == AddressesExcept(s[..k], c) + if s[k].uuid == c then [] else [s[k].uri]
  {
    assert s[..k + 1][..k] == s[..k];
  }

  lemma {:induction false} InsertKeepsAddresses(s: seq<Instance>, x: Instance, c: InstanceUuid)
    ensures multiset(AddressesExcept(Insert(s, x, FailoverLess), c))
         == multiset(AddressesExcept(s, c)) + if x.uuid == c then multiset{} else multiset{x.uri}
  {
    if s == [] || !FailoverLess(x, s[|s| - 1]) {
      assert (s + [x])[..|s|] == s;
    } else {
      var front, last := s[..|s| - 1], s[|s| - 1];
      InsertKeepsAddresses(front, x, c);
      assert (Insert(front, x, FailoverLess) + [last])[..|s|] == Insert(front, x, FailoverLess);
    }
  }

  /** Sorting neither drops nor repeats an address, orderly comparison or not. */
  lemma {:induction false} SortedKeepsAddresses(s: seq<Instance>, c: InstanceUuid)
    ensures multiset(AddressesExcept(Sorted(s, FailoverLess), c)) == multiset(AddressesExcept(s, c))
  {
    if s != [] {
      SortedKeepsAddresses(s[..|s| - 1], c);
      InsertKeepsAddresses(Sorted(s[..|s| - 1], FailoverLess), s[|s| - 1], c);
    }
  }

  function Addresses(s: seq<Instance>): (r: seq<Uri>)
    ensures |r| == |s|
    ensures forall k :: 0 <= k < |s| ==> r[k] == s[k].uri
  {
    seq(|s|, k requires 0 <= k < |s| => s[k].uri)
  }

  /** With unique UUIDs the skipped address is exactly the one of `c`. */
  lemma {:induction false} OneAddressIsSkipped(s: seq<Instance>, k: nat)
    requires k < |s|
    requires DistinctUuids(s)
    ensures multiset(Addresses(s)) == multiset(AddressesExcept(s, s[k].uuid)) + multiset{s[k].uri}
  {
    var front := s[..|s| - 1];
    assert Addresses(s) == Addresses(front) + [s[|s| - 1].uri];
    if k == |front| {
      NoAddressIsSkipped(front, s[k].uuid);
    } else {
      OneAddressIsSkipped(front, k);
    }
  }

  lemma {:induction false} NoAddressIsSkipped(s: seq<Instance>, c: InstanceUuid)
    requires forall i :: 0 <= i < |s| ==> s[i].uuid != c
    ensures AddressesExcept(s, c) == Addresses(s)
  {
    if s != [] {
      NoAddressIsSkipped(s[..|s| - 1], c);
    }
  }
}
