/** Classification of a discovered replica set into one recovery state. */
module Analysis {
  import opened Topology
  import opened Quorum

  datatype State =
    | NoProblem
    | DeadMaster
    | DeadMasterAndFollowers
    | DeadMasterAndSomeFollowers
    | DeadMasterWithoutFollowers
    | DeadFollowers
    | AllMasterFollowersNotReplicating
    | NetworkProblems
    | MasterMasterReplication
    | InconsistentVShardConfiguration

  datatype ReplicationAnalysis = ReplicationAnalysis(
    rs: ReplicaSet,
    countReplicas: int,
    countWorking: int,
    countReplicating: int,
    countInconsistent: int,
    state: State,
    deadFollowers: seq<InstanceUuid>)

  /** A working follower that confirms replication, as a replica or as another master. */
  predicate Replicating(f: Instance) {
    f.lastCheckValid && (f.storage.replication == ReplicationFollow || f.storage.replication == ReplicationMaster)
  }

  predicate Working(f: Instance) {
    f.lastCheckValid
  }

  /** A working follower that does not confirm replication. */
  predicate Silent(f: Instance) {
    f.lastCheckValid && !Replicating(f)
  }

  predicate CoMaster(f: Instance) {
    f.lastCheckValid && f.storage.replication == ReplicationMaster
  }

  predicate Inconsistent(master: Instance, f: Instance) {
    f.lastCheckValid && f.fingerprint != master.fingerprint
  }

  function Count(s: seq<Instance>, p: Instance -> bool): (n: nat)
    ensures n <= |s|
  {
    if s == [] then 0
    else Count(s[..|s| - 1], p) + if p(s[|s| - 1]) then 1 else 0
  }

  lemma {:induction false} CountMeans(s: seq<Instance>, p: Instance -> bool)
    ensures Count(s, p) == 0 <==> forall x :: x in s ==> !p(x)
    ensures Count(s, p) == |s| <==> forall x :: x in s ==> p(x)
  {
    if s != [] {
      var front := s[..|s| - 1];
      CountMeans(front, p);
      FrontAndLast(s);
      assert Count(s, p) == Count(front, p) + if p(s[|s| - 1]) then 1 else 0;
    }
  }

  lemma CountStep(s: seq<Instance>, k: nat, p: Instance -> bool)
    requires k < |s|
    ensures Count(s[..k + 1], p) == Count(s[..k], p) + if p(s[k]) then 1 else 0
  {
    assert s[..k + 1][..k] == s[..k];
  }

  /** What each state says about the master record and the followers. */
  ghost predicate Describes(state: State, master: Instance, followers: seq<Instance>) {
    var someReplicates := exists f ::
      && f in followers && f.lastCheckValid
      && (f.storage.replication == ReplicationFollow || f.storage.replication == ReplicationMaster);
    var someWorks := exists f :: f in followers && f.lastCheckValid;
    var allWork := forall f :: f in followers ==> f.lastCheckValid;
    var allReplicate := forall f :: f in followers ==>
      && f.lastCheckValid
      && (f.storage.replication == ReplicationFollow || f.storage.replication == ReplicationMaster);
    var someInconsistent := exists f ::
      f in followers && f.lastCheckValid && f.fingerprint != master.fingerprint;
    var someCoMaster := exists f ::
      f in followers && f.lastCheckValid && f.storage.replication == ReplicationMaster;
    match state
    case DeadMasterWithoutFollowers => !master.lastCheckValid && followers == []
    case DeadMaster => !master.lastCheckValid && followers != [] && allWork && !someReplicates
    case DeadMasterAndSomeFollowers => !master.lastCheckValid && someWorks && !allWork && !someReplicates
    case DeadMasterAndFollowers => !master.lastCheckValid && followers != [] && !someWorks
    case NetworkProblems => !master.lastCheckValid && someReplicates
    case AllMasterFollowersNotReplicating => master.lastCheckValid && followers != [] && !someReplicates
    case MasterMasterReplication =>
      master.lastCheckValid && someReplicates && someInconsistent && someCoMaster
    case InconsistentVShardConfiguration =>
      master.lastCheckValid && someReplicates && someInconsistent && !someCoMaster
    case DeadFollowers =>
      master.lastCheckValid && someReplicates && !someInconsistent && !allReplicate
    case NoProblem =>
      master.lastCheckValid && !someInconsistent && allReplicate
  }

  /** The states are exclusive and exhaustive. */
  lemma ExactlyOneState(master: Instance, followers: seq<Instance>) returns (state: State)
    ensures Describes(state, master, followers)
    ensures forall other :: Describes(other, master, followers) ==> other == state
  {
    if !master.lastCheckValid {
      if followers == [] {
        state := DeadMasterWithoutFollowers;
      } else if exists f :: f in followers && Replicating(f) {
        state := NetworkProblems;
      } else if forall f :: f in followers ==> f.lastCheckValid {
        assert followers[0] in followers;
        state := DeadMaster;
      } else if exists f :: f in followers && f.lastCheckValid {
        state := DeadMasterAndSomeFollowers;
      } else {
        state := DeadMasterAndFollowers;
      }
    } else if followers != [] && !exists f :: f in followers && Replicating(f) {
      assert followers[0] in followers;
      state := AllMasterFollowersNotReplicating;
    } else if exists f :: f in followers && Inconsistent(master, f) {
      state := if exists f :: f in followers && CoMaster(f) then MasterMasterReplication
               else InconsistentVShardConfiguration;
    } else {
      state := if forall f :: f in followers ==> Replicating(f) then NoProblem else DeadFollowers;
      assert followers != [] ==> followers[0] in followers;
    }
  }

  function InconsistencyTest(master: Instance): Instance -> bool {
    (f: Instance) => Inconsistent(master, f)
  }

  function Uuids(s: seq<Instance>): (r: seq<InstanceUuid>)
    ensures |r| == |s|
    ensures forall k :: 0 <= k < |s| ==> r[k] == s[k].uuid
  {
    seq(|s|, k requires 0 <= k < |s| => s[k].uuid)
  }

  /** The verdict `a` is what the followers and the master record of its set amount to. */
  ghost predicate Faithful(a: ReplicationAnalysis) {
    var followers := a.rs.AllFollowers();
    && a.countReplicas == |followers|
    && a.countWorking == Count(followers, Working)
    && a.countReplicating == Count(followers, Replicating)
    && a.deadFollowers == Uuids(Select(followers, Silent))
    && exists master ::
         && a.rs.IsMaster(master)
         && a.countInconsistent == Count(followers, InconsistencyTest(master))
         && Describes(a.state, master, followers)
  }

  /** Working followers either replicate or are reported dead. */
  lemma {:induction false} WorkingSplits(s: seq<Instance>)
    ensures Count(s, Working) == Count(s, Replicating) + |Select(s, Silent)|
  {
    if s != [] {
      WorkingSplits(s[..|s| - 1]);
    }
  }

  lemma FaithfulCounts(a: ReplicationAnalysis)
    requires Faithful(a)
    ensures 0 <= a.countReplicating <= a.countWorking <= a.countReplicas
    ensures |a.deadFollowers| == a.countWorking - a.countReplicating
  {
    WorkingSplits(a.rs.AllFollowers());
  }

  /** Reported dead are exactly the followers that were polled but neither follow nor lead. */
  lemma DeadFollowersAreSilent(a: ReplicationAnalysis, u: InstanceUuid)
    requires Faithful(a)
    ensures u in a.deadFollowers <==>
              exists f ::
                && f in a.rs.instances && f.uuid != a.rs.masterUuid && f.uuid == u
                && f.lastCheckValid && f.storage.replication !in {ReplicationFollow, ReplicationMaster}
  {
    var silent := Select(a.rs.AllFollowers(), Silent);
    SelectMembers(a.rs.AllFollowers(), Silent);
    if u in a.deadFollowers {
      var k :| 0 <= k < |silent| && a.deadFollowers[k] == u;
      assert silent[k] in silent;
    }
    if f :| f in a.rs.instances && f.uuid != a.rs.masterUuid && f.uuid == u
            && f.lastCheckValid && f.storage.replication !in {ReplicationFollow, ReplicationMaster} {
      var k :| 0 <= k < |silent| && silent[k] == f;
      assert a.deadFollowers[k] == u;
    }
  }

  /** Each counter is the number of followers it is about. */
  lemma {:induction false} CountIsSelected(s: seq<Instance>, p: Instance -> bool)
    ensures Count(s, p) == |Select(s, p)|
  {
    if s != [] {
      CountIsSelected(s[..|s| - 1], p);
    }
  }

  /** The decision chain over the counters. */
  function Decide(isMasterDead: bool, countReplicas: int, countWorking: int, countReplicating: int,
                  countInconsistent: int, masterMaster: bool): State
  {
    if isMasterDead && countWorking == countReplicas && countReplicating == 0 then
      if countReplicas == 0 then DeadMasterWithoutFollowers else DeadMaster
    else if isMasterDead && countWorking <= countReplicas && countReplicating == 0 then
      if countWorking == 0 then DeadMasterAndFollowers else DeadMasterAndSomeFollowers
    else if isMasterDead && countReplicating != 0 then NetworkProblems
    else if !isMasterDead && countReplicas > 0 && countReplicating == 0 then AllMasterFollowersNotReplicating
    else if countInconsistent > 0 then
      if masterMaster then MasterMasterReplication else InconsistentVShardConfiguration
    else if !isMasterDead && countReplicas > 0 && countReplicating < countReplicas then DeadFollowers
    else NoProblem
  }

  /** Over the true counters the chain yields the state that describes the set. */
  lemma DecisionDescribes(master: Instance, followers: seq<Instance>, masterMaster: bool)
    requires masterMaster <==> Count(followers, CoMaster) > 0
    ensures Describes(
              Decide(!master.lastCheckValid, |followers|, Count(followers, Working), Count(followers, Replicating),
                     Count(followers, InconsistencyTest(master)), masterMaster),
              master, followers)
  {
    CountMeans(followers, Working);
    CountMeans(followers, Replicating);
    CountMeans(followers, InconsistencyTest(master));
    CountMeans(followers, CoMaster);
    assert followers != [] ==> followers[0] in followers;
  }

  lemma NothingCounted(master: Instance)
    ensures Count([], Working) == Count([], Replicating) == Count([], CoMaster) == 0
    ensures Count([], InconsistencyTest(master)) == 0 && Uuids(Select([], Silent)) == []
  {
  }

  /** The counting loop over the followers. */
  method Tally(master: Instance, followers: seq<Instance>)
    returns (countReplicas: int, countWorking: int, countReplicating: int, countInconsistent: int,
             masterMaster: bool, deadFollowers: seq<InstanceUuid>)
    ensures countReplicas == |followers|
    ensures countWorking == Count(followers, Working)
    ensures countReplicating == Count(followers, Replicating)
    ensures countInconsistent == Count(followers, InconsistencyTest(master))
    ensures masterMaster <==> Count(followers, CoMaster) > 0
    ensures deadFollowers == Uuids(Select(followers, Silent))
  {
    hide Count, Select;
    countReplicas, countWorking, countReplicating, countInconsistent := 0, 0, 0, 0;
    masterMaster := false;
    deadFollowers := [];
    NothingCounted(master);
    for k := 0 to |followers|
      invariant countReplicas == k
      invariant countWorking == Count(followers[..k], Working)
      invariant countReplicating == Count(followers[..k], Replicating)
      invariant countInconsistent == Count(followers[..k], InconsistencyTest(master))
      invariant masterMaster <==> Count(followers[..k], CoMaster) > 0
      invariant deadFollowers == Uuids(Select(followers[..k], Silent))
    {
      var r := followers[k];
      CountStep(followers, k, Working);
      CountStep(followers, k, Replicating);
      CountStep(followers, k, InconsistencyTest(master));
      CountStep(followers, k, CoMaster);
      SelectStep(followers, k, Silent);
      countReplicas := countReplicas + 1;
      if r.lastCheckValid {
        countWorking := countWorking + 1;
        match r.storage.replication {
          case ReplicationFollow =>
            countReplicating := countReplicating + 1;
          case ReplicationMaster =>
            countReplicating := countReplicating + 1;
            masterMaster := true;
          case _ =>
            deadFollowers := deadFollowers + [r.uuid];
        }
        if r.fingerprint != master.fingerprint {
          countInconsistent := countInconsistent + 1;
        }
      }
    }
    assert followers[..|followers|] == followers;
  }

  /** Nothing is reported when the master is missing from the snapshot. */
  method Analyze(rs: ReplicaSet) returns (analysis: Option<ReplicationAnalysis>)
    ensures analysis.Some? <==> rs.HasMaster()
    ensures analysis.Some? ==> analysis.value.rs == rs && Faithful(analysis.value)
  {
    var found := rs.Master();
    if found == None {
      return None;
    }
    var master := found.value;
    var followers := rs.Followers();
    var countReplicas, countWorking, countReplicating, countInconsistent, masterMaster, deadFollowers :=
      Tally(master, followers);
    DecisionDescribes(master, followers, masterMaster);
    var state := Decide(!master.lastCheckValid, countReplicas, countWorking, countReplicating,
                        countInconsistent, masterMaster);
    return Some(ReplicationAnalysis(rs, countReplicas, countWorking, countReplicating, countInconsistent,
                                    state, deadFollowers));
  }
}
