/** Snapshots of the topology. The instances of a set live in a mutable array, as they do
    behind a Go slice, so snapshots that share an array share its updates. */
module Snapshots {
  import opened Topology

  datatype SetRecord = SetRecord(
    uuid: SetUuid,
    masterUuid: InstanceUuid,
    masterUri: Uri,
    instances: array<Instance>)
  {
    ghost function View(): ReplicaSet
      reads instances
    {
      ReplicaSet(uuid, masterUuid, masterUri, instances[..])
    }
  }

  type Priorities = map<InstanceUuid, int>

  datatype Snapshot = Snapshot(created: int, routers: seq<Uri>, sets: seq<SetRecord>, priorities: Priorities)

  type Arrays = set<array<Instance>>

  ghost function ArraysOf(sets: seq<SetRecord>): Arrays {
    set k | 0 <= k < |sets| :: sets[k].instances
  }

  lemma ArraysOfHas(sets: seq<SetRecord>, k: nat)
    requires k < |sets|
    ensures sets[k].instances in ArraysOf(sets)
  {
  }

  lemma ArraysOfAppend(sets: seq<SetRecord>, rs: SetRecord)
    ensures ArraysOf(sets + [rs]) == ArraysOf(sets) + {rs.instances}
  {
    var all := sets + [rs];
    assert all[|sets|] == rs;
    forall a ensures a in ArraysOf(all) <==> a in ArraysOf(sets) || a == rs.instances {
      if a in ArraysOf(sets) {
        var k :| 0 <= k < |sets| && sets[k].instances == a;
        assert all[k] == sets[k];
      }
    }
  }

  ghost function Views(sets: seq<SetRecord>): (r: seq<ReplicaSet>)
    reads ArraysOf(sets)
    ensures |r| == |sets|
    ensures forall k :: 0 <= k < |sets| ==> sets[k].instances in ArraysOf(sets) && r[k] == sets[k].View()
  {
    if sets == [] then []
    else
      assert sets[|sets| - 1].instances in ArraysOf(sets);
      assert ArraysOf(sets[..|sets| - 1]) <= ArraysOf(sets);
      Views(sets[..|sets| - 1]) + [sets[|sets| - 1].View()]
  }

  /** No two records share an array. */
  ghost predicate Apart(sets: seq<SetRecord>) {
    forall i, j :: 0 <= i < j < |sets| ==> sets[i].instances != sets[j].instances
  }

  /** The records hold these values. */
  ghost predicate Hold(sets: seq<SetRecord>, values: seq<ReplicaSet>)
    reads ArraysOf(sets)
  {
    Views(sets) == values
  }

  function PriorityOf(p: Priorities, uuid: InstanceUuid): int {
    if uuid in p then p[uuid] else 0
  }

  method CopySet(rs: SetRecord) returns (r: SetRecord)
    ensures fresh(r.instances)
    ensures r.View() == rs.View()
  {
    var n := rs.instances.Length;
    var instances := new Instance[n];
    for k := 0 to n
      invariant instances[..k] == rs.instances[..k]
    {
      instances[k] := rs.instances[k];
    }
    assert instances[..n] == instances[..] && rs.instances[..n] == rs.instances[..];
    r := SetRecord(rs.uuid, rs.masterUuid, rs.masterUri, instances);
  }

  /** A deep copy: equal content, no shared array. */
  method Copy(s: Snapshot) returns (r: Snapshot)
    ensures fresh(ArraysOf(r.sets)) && Apart(r.sets)
    ensures r == Snapshot(s.created, s.routers, r.sets, s.priorities)
    ensures Views(r.sets) == Views(s.sets)
  {
    var sets: seq<SetRecord> := [];
    for k := 0 to |s.sets|
      invariant |sets| == k && Apart(sets)
      invariant forall j :: 0 <= j < k ==> fresh(sets[j].instances) && sets[j].View() == s.sets[j].View()
    {
      var rs := CopySet(s.sets[k]);
      sets := sets + [rs];
    }
    r := Snapshot(s.created, s.routers, sets, s.priorities);
    assert Views(r.sets) == Views(s.sets);
  }

  /** The first record of a set and its position; None when the set is unknown. */
  method FindSet(s: Snapshot, uuid: SetUuid) returns (r: Option<SetRecord>, k: nat)
    ensures k <= |s.sets| && forall j :: 0 <= j < k ==> s.sets[j].uuid != uuid
    ensures r.None? <==> k == |s.sets|
    ensures r.Some? ==> r.value == s.sets[k] && r.value.uuid == uuid && r.value.instances in ArraysOf(s.sets)
  {
    k := 0;
    while k < |s.sets|
      invariant k <= |s.sets| && forall j :: 0 <= j < k ==> s.sets[j].uuid != uuid
    {
      if s.sets[k].uuid == uuid {
        return Some(s.sets[k]), k;
      }
      k := k + 1;
    }
    return None, k;
  }

  /** The first instance with the master's UUID gets the master's address, which its
      replication data does not carry. */
  function WithMasterUri(s: seq<Instance>, masterUuid: InstanceUuid, masterUri: Uri): (r: seq<Instance>)
    ensures |r| == |s|
  {
    if s == [] then []
    else if s[0].uuid == masterUuid then [s[0].(uri := masterUri)] + s[1..]
    else [s[0]] + WithMasterUri(s[1..], masterUuid, masterUri)
  }

  lemma {:induction false} WithMasterUriAt(s: seq<Instance>, k: nat, masterUuid: InstanceUuid, masterUri: Uri)
    requires k < |s| && s[k].uuid == masterUuid && NoneHas(s[..k], masterUuid)
    ensures WithMasterUri(s, masterUuid, masterUri) == s[k := s[k].(uri := masterUri)]
  {
    if k > 0 {
      assert s[0] == s[..k][0];
      assert s[1..][..k - 1] == s[..k][1..];
      WithMasterUriAt(s[1..], k - 1, masterUuid, masterUri);
      assert s == [s[0]] + s[1..];
    }
  }

  lemma {:induction false} WithoutMaster(s: seq<Instance>, masterUuid: InstanceUuid, masterUri: Uri)
    requires NoneHas(s, masterUuid)
    ensures WithMasterUri(s, masterUuid, masterUri) == s
  {
    if s != [] {
      WithoutMaster(s[1..], masterUuid, masterUri);
    }
  }

  method ParsedTopology(parsed: seq<Instance>, masterUuid: InstanceUuid, masterUri: Uri) returns (a: array<Instance>)
    ensures fresh(a)
    ensures a[..] == WithMasterUri(parsed, masterUuid, masterUri)
  {
    hide WithMasterUri;
    a := new Instance[|parsed|](k requires 0 <= k < |parsed| => parsed[k]);
    for k := 0 to a.Length
      invariant a[..] == parsed
      invariant NoneHas(parsed[..k], masterUuid)
    {
      if a[k].uuid == masterUuid {
        WithMasterUriAt(parsed, k, masterUuid, masterUri);
        a[k] := a[k].(uri := masterUri);
        return;
      }
    }
    assert parsed[..a.Length] == parsed;
    WithoutMaster(parsed, masterUuid, masterUri);
  }

  function WithPriority(i: Instance, p: Priorities): Instance {
    i.(priority := PriorityOf(p, i.uuid))
  }

  /** Rewrites the priorities of one set in place. */
  method PrioritizeSet(a: array<Instance>, p: Priorities)
    modifies a
    ensures forall k :: 0 <= k < a.Length ==> a[k] == WithPriority(old(a[k]), p)
  {
    for k := 0 to a.Length
      invariant forall j :: 0 <= j < k ==> a[j] == WithPriority(old(a[j]), p)
      invariant forall j :: k <= j < a.Length ==> a[j] == old(a[j])
    {
      if a[k].uuid in p {
        a[k] := a[k].(priority := p[a[k].uuid]);
      } else {
        a[k] := a[k].(priority := 0);
      }
    }
  }

  /** Puts priorities in force: every instance gets its entry, or 0 without one, and
      nothing else of it changes. */
  method UpdatePriorities(s: Snapshot, p: Priorities) returns (r: Snapshot)
    modifies ArraysOf(s.sets)
    ensures r == s.(priorities := p)
    ensures forall a :: a in ArraysOf(s.sets) ==>
              forall k :: 0 <= k < a.Length ==> a[k] == WithPriority(old(a[k]), p)
  {
    for i := 0 to |s.sets|
      invariant forall a :: a in ArraysOf(s.sets) ==>
                  forall k :: 0 <= k < a.Length ==>
                    a[k] == WithPriority(old(a[k]), p) || (a !in ArraysOf(s.sets[..i]) && a[k] == old(a[k]))
    {
      var a := s.sets[i].instances;
      assert a in ArraysOf(s.sets);
      PrioritizeSet(a, p);
      assert ArraysOf(s.sets[..i + 1]) == ArraysOf(s.sets[..i]) + {a};
    }
    assert s.sets[..|s.sets|] == s.sets;
    r := s.(priorities := p);
  }
}
