/** The discovered cluster topology: instances, replica sets and the selections
    the failover engine makes from a replica set. */
module Topology {

  datatype Option<+T> = None | Some(value: T)

  type InstanceUuid = string
  type SetUuid = string
  type Uri = string

  /** What a storage reports about its own replication. */
  datatype ReplicationStatus =
    | ReplicationFollow
    | ReplicationMaster
    | ReplicationDisconnected
    | ReplicationOther(text: string)

  datatype UpstreamStatus =
    | UpstreamAuth
    | UpstreamConnecting
    | UpstreamDisconnected
    | UpstreamFollow
    | UpstreamRunning
    | UpstreamStopped
    | UpstreamOrphan
    | UpstreamSync
    | UpstreamOther(text: string)

  datatype DownstreamStatus = DownstreamFollow | DownstreamStopped | DownstreamOther(text: string)

  datatype AlertType = UnreachableMaster | UnreachableReplica | OtherAlert(text: string)

  datatype Upstream = Upstream(status: UpstreamStatus, idle: real)

  datatype StorageInfo = StorageInfo(health: int, replication: ReplicationStatus, alerts: seq<AlertType>)

  datatype Instance = Instance(
    id: nat,
    uuid: InstanceUuid,
    uri: Uri,
    readonly: bool,
    lastCheckValid: bool,
    lsnBehindMaster: int,
    upstream: Option<Upstream>,
    downstream: Option<DownstreamStatus>,
    storage: StorageInfo,
    fingerprint: int,
    priority: int)
  {
    function Idle(): real {
      match upstream
      case None => 0.0
      case Some(u) => u.idle
    }

    predicate HasAlert(t: AlertType) {
      t in storage.alerts
    }

    /** A follower the electors may consider: polled successfully and with a
        replication link that is neither broken nor cut. */
    predicate Alive() {
      && lastCheckValid
      && (match upstream
          case Some(u) => u.status != UpstreamDisconnected && u.status != UpstreamStopped
          case None => downstream.Some? && downstream.value != DownstreamStopped)
    }
  }

  /** The value Go gives to a record that was never found. */
  const ZERO_INSTANCE :=
    Instance(0, "", "", false, false, 0, None, None, StorageInfo(0, ReplicationOther(""), []), 0, 0)

  /** The elements of `s` that pass `keep`, in their order in `s`. */
  function Select<T>(s: seq<T>, keep: T -> bool): (r: seq<T>)
    ensures |r| <= |s|
  {
    if s == [] then []
    else
      var r := Select(s[..|s| - 1], keep);
      if keep(s[|s| - 1]) then r + [s[|s| - 1]] else r
  }

  lemma FrontAndLast<T(!new)>(s: seq<T>)
    requires s != []
    ensures forall x :: x in s <==> x in s[..|s| - 1] || x == s[|s| - 1]
  {
    assert s == s[..|s| - 1] + [s[|s| - 1]];
  }

  lemma {:induction false} SelectMembers<T(!new)>(s: seq<T>, keep: T -> bool)
    ensures forall x :: x in Select(s, keep) <==> x in s && keep(x)
  {
    if s != [] {
      SelectMembers(s[..|s| - 1], keep);
      FrontAndLast(s);
    }
  }

  /** The selection is a subsequence: `at` gives, in order, the positions of what is kept. */
  lemma {:induction false} SelectIsSubsequence<T(!new)>(s: seq<T>, keep: T -> bool) returns (at: seq<nat>)
    ensures |at| == |Select(s, keep)|
    ensures forall k :: 0 <= k < |at| ==> at[k] < |s| && Select(s, keep)[k] == s[at[k]]
    ensures forall j, k :: 0 <= j < k < |at| ==> at[j] < at[k]
    ensures forall i :: 0 <= i < |s| ==> (keep(s[i]) <==> i in at)
  {
    at := [];
    if s != [] {
      var front := s[..|s| - 1];
      at := SelectIsSubsequence(front, keep);
      if keep(s[|s| - 1]) {
        at := at + [|s| - 1];
      }
    }
  }

  lemma SelectStep<T>(s: seq<T>, k: nat, keep: T -> bool)
    requires k < |s|
    ensures Select(s[..k + 1], keep) == Select(s[..k], keep) + if keep(s[k]) then [s[k]] else []
  {
    assert s[..k + 1][..k] == s[..k];
  }

  ghost predicate DistinctUuids(s: seq<Instance>) {
    forall i, j :: 0 <= i < j < |s| ==> s[i].uuid != s[j].uuid
  }

  lemma {:induction false} SelectKeepsDistinct(s: seq<Instance>, keep: Instance -> bool)
    requires DistinctUuids(s)
    ensures DistinctUuids(Select(s, keep))
  {
    if s != [] {
      var front := s[..|s| - 1];
      SelectKeepsDistinct(front, keep);
      SelectMembers(front, keep);
      forall i | 0 <= i < |Select(front, keep)| ensures Select(front, keep)[i].uuid != s[|s| - 1].uuid {
        assert Select(front, keep)[i] in Select(front, keep);
        var j :| 0 <= j < |front| && front[j] == Select(front, keep)[i];
      }
    }
  }

  datatype ReplicaSet = ReplicaSet(
    uuid: SetUuid,
    masterUuid: InstanceUuid,
    masterUri: Uri,
    instances: seq<Instance>)
  {
    function FollowerTest(): Instance -> bool {
      (i: Instance) => i.uuid != masterUuid
    }

    function AliveFollowerTest(): Instance -> bool {
      (i: Instance) => i.uuid != masterUuid && i.Alive()
    }

    /** Every instance except the master, in order. */
    function AllFollowers(): (r: seq<Instance>)
      ensures forall i :: i in r <==> i in instances && i.uuid != masterUuid
    {
      SelectMembers(instances, FollowerTest());
      Select(instances, FollowerTest())
    }

    function AllAliveFollowers(): (r: seq<Instance>)
      ensures forall i :: i in r <==> i in instances && i.uuid != masterUuid && i.Alive()
    {
      SelectMembers(instances, AliveFollowerTest());
      Select(instances, AliveFollowerTest())
    }

    ghost predicate UniqueUuids() {
      DistinctUuids(instances)
    }

    /** `m` is the record that stands for the master: the first with its UUID. */
    ghost predicate IsMaster(m: Instance) {
      exists k ::
        && 0 <= k < |instances|
        && instances[k] == m
        && m.uuid == masterUuid
        && forall j :: 0 <= j < k ==> instances[j].uuid != masterUuid
    }

    ghost predicate HasMaster() {
      exists k :: 0 <= k < |instances| && instances[k].uuid == masterUuid
    }

    method Master() returns (m: Option<Instance>)
      ensures m.Some? <==> HasMaster()
      ensures m.Some? ==> IsMaster(m.value)
    {
      for k := 0 to |instances|
        invariant forall j :: 0 <= j < k ==> instances[j].uuid != masterUuid
      {
        if instances[k].uuid == masterUuid {
          return Some(instances[k]);
        }
      }
      return None;
    }

    method Followers() returns (followers: seq<Instance>)
      ensures followers == AllFollowers()
    {
      followers := [];
      for k := 0 to |instances|
        invariant followers == Select(instances[..k], FollowerTest())
      {
        assert instances[..k + 1][..k] == instances[..k];
        if instances[k].uuid != masterUuid {
          followers := followers + [instances[k]];
        }
      }
      assert instances[..|instances|] == instances;
    }

    method AliveFollowers() returns (followers: seq<Instance>)
      ensures followers == AllAliveFollowers()
    {
      followers := [];
      for k := 0 to |instances|
        invariant followers == Select(instances[..k], AliveFollowerTest())
      {
        assert instances[..k + 1][..k] == instances[..k];
        var inst := instances[k];
        if inst.uuid == masterUuid {
          continue;
        }
        if !inst.lastCheckValid {
          continue;
        }
        if inst.upstream == None && inst.downstream == None {
          continue;
        }
        if inst.upstream.Some? {
          if inst.upstream.value.status != UpstreamDisconnected && inst.upstream.value.status != UpstreamStopped {
            followers := followers + [inst];
          }
        } else if inst.downstream.value != DownstreamStopped {
          followers := followers + [inst];
        }
      }
      assert instances[..|instances|] == instances;
    }
  }

  /** The record that stands for the master is determined by the set. */
  lemma MasterIsUnique(rs: ReplicaSet, m: Instance, m': Instance)
    requires rs.IsMaster(m) && rs.IsMaster(m')
    ensures m == m'
  {
    var k :| 0 <= k < |rs.instances| && rs.instances[k] == m && m.uuid == rs.masterUuid
             && forall j :: 0 <= j < k ==> rs.instances[j].uuid != rs.masterUuid;
    var k' :| 0 <= k' < |rs.instances| && rs.instances[k'] == m' && m'.uuid == rs.masterUuid
              && forall j :: 0 <= j < k' ==> rs.instances[j].uuid != rs.masterUuid;
    assert k == k';
  }

  /** A follower takes part when its last poll succeeded and its upstream, or without one its
      downstream, is not cut or stopped. */
  lemma AliveFollowersInRawTerms(rs: ReplicaSet, i: Instance)
    ensures i in rs.AllAliveFollowers() <==>
              && i in rs.instances && i.uuid != rs.masterUuid && i.lastCheckValid
              && (i.upstream.Some? ==> i.upstream.value.status !in {UpstreamDisconnected, UpstreamStopped})
              && (i.upstream.None? ==> i.downstream.Some? && i.downstream.value != DownstreamStopped)
  {
  }

  /** What one read of the cluster's current snapshot shows. */
  datatype ClusterView = ClusterView(routers: seq<Uri>, sets: seq<ReplicaSet>)
  {
    /** The instances of all sets, in order. */
    function Instances(): seq<Instance> {
      InstancesOf(sets)
    }

    /** The first instance with the UUID; the zero record when there is none. */
    function Lookup(uuid: InstanceUuid): (i: Instance)
      ensures i == ZERO_INSTANCE || (i in Instances() && i.uuid == uuid)
    {
      FirstWithUuid(Instances(), uuid)
    }
  }

  function InstancesOf(sets: seq<ReplicaSet>): seq<Instance> {
    if sets == [] then [] else InstancesOf(sets[..|sets| - 1]) + sets[|sets| - 1].instances
  }

  function FirstWithUuid(s: seq<Instance>, uuid: InstanceUuid): (i: Instance)
    ensures i == ZERO_INSTANCE || (i in s && i.uuid == uuid)
  {
    if s == [] then ZERO_INSTANCE
    else if s[0].uuid == uuid then s[0]
    else FirstWithUuid(s[1..], uuid)
  }

  lemma {:induction false} InstancesOfSplits(sets: seq<ReplicaSet>, k: nat)
    requires k < |sets|
    ensures InstancesOf(sets) == InstancesOf(sets[..k]) + sets[k].instances + InstancesOf(sets[k + 1..])
  {
    if k == |sets| - 1 {
      assert InstancesOf(sets[k + 1..]) == [];
    } else {
      var front, last := sets[..|sets| - 1], sets[|sets| - 1];
      InstancesOfSplits(front, k);
      assert front[..k] == sets[..k];
      assert sets[k + 1..][..|sets| - k - 2] == front[k + 1..];
      assert sets[k + 1..][|sets| - k - 2] == last;
    }
  }

  lemma {:induction false} FirstWithUuidAt(s: seq<Instance>, k: nat, uuid: InstanceUuid)
    requires k <= |s| && forall j :: 0 <= j < k ==> s[j].uuid != uuid
    requires k < |s| ==> s[k].uuid == uuid
    ensures FirstWithUuid(s, uuid) == if k < |s| then s[k] else ZERO_INSTANCE
  {
    if k > 0 {
      FirstWithUuidAt(s[1..], k - 1, uuid);
    }
  }

  ghost predicate NoneHas(s: seq<Instance>, uuid: InstanceUuid) {
    forall i :: 0 <= i < |s| ==> s[i].uuid != uuid
  }

  lemma FirstWithUuidIsAt(sets: seq<ReplicaSet>, k: nat, j: nat, uuid: InstanceUuid)
    requires k < |sets| && j < |sets[k].instances| && sets[k].instances[j].uuid == uuid
    requires NoneHas(InstancesOf(sets[..k]), uuid) && NoneHas(sets[k].instances[..j], uuid)
    ensures FirstWithUuid(InstancesOf(sets), uuid) == sets[k].instances[j]
  {
    InstancesOfSplits(sets, k);
    FirstWithUuidAt(InstancesOf(sets), |InstancesOf(sets[..k])| + j, uuid);
  }
}
