/** What the recoveries achieve, from the analysis to the state of the fleet. */
module Outcomes {
  import opened Topology
  import opened Quorum
  import opened Analysis
  import opened Nodes
  import opened Fleets
  import opened Protocol
  import opened Registry
  import opened UpdateOrder
  import opened ElectionLaws
  import opened Failovers
  import Sorting

  /** A promotion is pushed only for a set with a dead master, at least one working
      follower and none that reports replication, and only of an alive, admitted
      follower whose current record is fit for promotion; and whatever becomes of the
      requests, no write access appears but the candidate's. */
  lemma PushedPromotionIsJustified(a: ReplicationAnalysis, mode: Mode, opts: Options, env: Environment,
                                   es: seq<Event>, nodes: NodeMap)
    returns (elected: Instance)
    requires Faithful(a) && (a.state == DeadMaster || a.state == DeadMasterAndSomeFollowers)
    requires PromotionPushed(es, a, mode, opts, env) && PossibleLog(nodes, es)
    ensures exists master :: a.rs.IsMaster(master) && !master.lastCheckValid
    ensures a.countWorking >= 1 && forall f :: f in a.rs.AllFollowers() ==> !Replicating(f)
    ensures elected in a.rs.instances && elected.uuid != a.rs.masterUuid && elected.Alive() && Admitted(elected, opts)
    ensures es != [] && es[0].query == Script(a.rs.uuid, elected.uuid)
    ensures var record := env.atLookup.Lookup(elected.uuid);
            && record in env.atLookup.Instances() && record.uuid == elected.uuid
            && record.lsnBehindMaster >= 0
            && record.upstream.Some?
            && record.upstream.value.status in {UpstreamFollow, UpstreamRunning}
            && es[0].target == record.uri
    ensures WritableMembers(Replay(nodes, es), a.rs.uuid) <= WritableMembers(nodes, a.rs.uuid) + {elected.uuid}
    ensures forall rs :: rs != a.rs.uuid ==> WritableMembers(Replay(nodes, es), rs) == WritableMembers(nodes, rs)
  {
    hide PossibleLog, Replay, WritableMembers, Faithful, ElectionOutcome, Eligible;
    var e :| ElectionOutcome(mode, a.rs, opts, e) && Promotable(e, env) && IsPromotionOf(es, a.rs.uuid, e, env);
    elected := ElectedIsEligible(mode, a.rs, opts, e.uuid);
    PromotionPremises(a, opts, elected);
    WritersStayWithin(nodes, es, Script(a.rs.uuid, elected.uuid));
  }

  /** A promotion its candidate confirms contacts every known router and every other known
      instance exactly once each, whichever requests fail. */
  lemma EveryoneIsContactedOnce(es: seq<Event>, q: Script, own: Uri, routers: seq<Uri>, view: ClusterView)
    requires PromotionSegment(es, q, own, routers, MemberAddresses(view, q.newMaster)) && es[0].acked
    ensures multiset(Targets(es))
         == multiset{own} + multiset(routers) + multiset(AddressesExcept(view.Instances(), q.newMaster))
  {
    hide AddressesExcept, Sorting.Sorted, ClusterView.Instances;
    var members := MemberAddresses(view, q.newMaster);
    SortedKeepsAddresses(view.Instances(), q.newMaster);
    assert Targets(es) == [own] + (routers + members) by {
      assert Targets(es) == [es[0].target] + Targets(es[1..]);
    }
    assert multiset([own] + (routers + members)) == multiset{own} + multiset(routers) + multiset(members);
  }

  /** When the candidate is still a member at its address, that is every instance once. */
  lemma EveryInstanceIsContactedOnce(es: seq<Event>, q: Script, routers: seq<Uri>, view: ClusterView, k: nat)
    requires k < |view.Instances()| && view.Instances()[k].uuid == q.newMaster
    requires DistinctUuids(view.Instances())
    requires PromotionSegment(es, q, view.Instances()[k].uri, routers, MemberAddresses(view, q.newMaster))
    requires es[0].acked
    ensures multiset(Targets(es)) == multiset(routers) + multiset(Addresses(view.Instances()))
  {
    EveryoneIsContactedOnce(es, q, view.Instances()[k].uri, routers, view);
    OneAddressIsSkipped(view.Instances(), k);
  }

  /** The discovered set `rs` describes the storages of `nodes`: each instance is found at its
      address, and one that could be polled reports the checksum `crc` of its set's
      configuration. Others keep an older checksum. */
  ghost predicate Mirrors(rs: ReplicaSet, nodes: NodeMap, crc: Replicas -> int) {
    forall i :: i in rs.instances ==>
      && i.uri in nodes
      && nodes[i.uri].Storage?
      && nodes[i.uri].uuid == i.uuid
      && rs.uuid in nodes[i.uri].cfg
      && (i.lastCheckValid ==> i.fingerprint == crc(nodes[i.uri].cfg[rs.uuid]))
  }

  /** The leader flags itself alone as the master. */
  ghost predicate LeaderFlagsItself(replicas: Replicas, leader: InstanceUuid) {
    forall u :: u in replicas ==> (replicas[u].master <==> u == leader)
  }

  /** What a co-master recovery starts from: a polled leader that flags itself alone, and
      followers whose configurations differ from its own at most in master flags. */
  ghost predicate FlagsDiffer(rs: ReplicaSet, nodes: NodeMap, crc: Replicas -> int, leader: Instance) {
    && Mirrors(rs, nodes, crc)
    && rs.UniqueUuids()
    && rs.IsMaster(leader)
    && leader.lastCheckValid
    && LeaderFlagsItself(nodes[leader.uri].cfg[rs.uuid], rs.masterUuid)
    && forall f :: f in rs.AllFollowers() ==>
         SameButFlags(nodes[f.uri].cfg[rs.uuid], nodes[leader.uri].cfg[rs.uuid])
  }

  lemma FlaggingGivesLeaderConfig(mine: Replicas, leaders: Replicas, leader: InstanceUuid)
    requires SameButFlags(mine, leaders) && LeaderFlagsItself(leaders, leader)
    ensures Flagging(mine, leader) == leaders
  {
    forall u | u in mine ensures Flagging(mine, leader)[u] == leaders[u] {
    }
  }

  /** After a co-master recovery, whatever became of its requests, a follower's configuration
      has the leader's checksum exactly when it did before or its node was reached; and the
      leader's node is untouched. */
  lemma RecoveredFollower(rs: ReplicaSet, nodes: NodeMap, crc: Replicas -> int, leader: Instance,
                          es: seq<Event>, f: Instance)
    requires FlagsDiffer(rs, nodes, crc, leader) && f in rs.AllFollowers()
    requires DemotionPushed(es, rs, leader) && PossibleLog(nodes, es)
    ensures var after := Replay(nodes, es);
            && after[leader.uri] == nodes[leader.uri]
            && rs.uuid in after[f.uri].cfg
            && (crc(after[f.uri].cfg[rs.uuid]) == leader.fingerprint <==>
                  crc(nodes[f.uri].cfg[rs.uuid]) == leader.fingerprint || Reached(es, f.uri))
  {
    hide Replay, PossibleLog, Reached, Run, Flagging, SameButFlags, LeaderFlagsItself;
    var q := Script(rs.uuid, rs.masterUuid);
    OnlyInconsistentAreTargeted(rs, nodes, crc, leader, es, leader);
    EveryNodeHasOutcome(nodes, es, q, leader.uri);
    EveryNodeHasOutcome(nodes, es, q, f.uri);
    if Reached(es, f.uri) {
      FlaggingGivesLeaderConfig(nodes[f.uri].cfg[rs.uuid], nodes[leader.uri].cfg[rs.uuid], rs.masterUuid);
      ReachedNodeIsFlagged(nodes, es, q, f.uri);
    }
  }

  lemma DemotedBy(es: seq<Event>, rs: ReplicaSet, leader: Instance, k: nat) returns (f: Instance)
    requires k < |es| && DemotionPushed(es, rs, leader)
    ensures f in InconsistentFollowers(rs, leader) && Demotes(es[k], rs, f)
  {
    hide InconsistentFollowers, Demotes;
    assert IsDemotion(es[k], rs, leader);
    f :| f in InconsistentFollowers(rs, leader) && Demotes(es[k], rs, f);
  }

  /** A member that agrees with the leader, such as the leader itself, is not targeted. */
  lemma OnlyInconsistentAreTargeted(rs: ReplicaSet, nodes: NodeMap, crc: Replicas -> int, leader: Instance,
                                    es: seq<Event>, i: Instance)
    requires Mirrors(rs, nodes, crc) && rs.UniqueUuids() && i in rs.instances
    requires i.fingerprint == leader.fingerprint && DemotionPushed(es, rs, leader)
    ensures !Reached(es, i.uri)
    ensures forall k :: 0 <= k < |es| ==> es[k].query == Script(rs.uuid, rs.masterUuid)
  {
    hide InconsistentFollowers, DemotionPushed;
    forall k | 0 <= k < |es|
      ensures es[k].target != i.uri && es[k].query == Script(rs.uuid, rs.masterUuid)
    {
      var f := DemotedBy(es, rs, leader, k);
      InconsistentFollower(rs, leader, f);
      assert f in rs.instances;
    }
  }

  /** A reached node holds its old configuration with the flags of the script. */
  lemma ReachedNodeIsFlagged(nodes: NodeMap, es: seq<Event>, q: Script, u: Uri)
    requires forall k :: 0 <= k < |es| ==> es[k].query == q
    requires PossibleLog(nodes, es) && u in nodes && q.rs in nodes[u].cfg && Reached(es, u)
    ensures q.rs in Replay(nodes, es)[u].cfg
    ensures Replay(nodes, es)[u].cfg[q.rs] == Flagging(nodes[u].cfg[q.rs], q.newMaster)
  {
    hide Replay, PossibleLog, Run, Flagging, Reached;
    EveryNodeHasOutcome(nodes, es, q, u);
    var now := Replay(nodes, es)[u];
    SettledIsFlagged(now, q);
    FlaggingForgetsFlags(nodes[u].cfg[q.rs], now.cfg[q.rs], q.newMaster);
  }

  /** A later discovery of the same set under the same leader. */
  ghost predicate Rediscovers(later: ReplicaSet, rs: ReplicaSet) {
    && later.uuid == rs.uuid
    && later.masterUuid == rs.masterUuid
    && forall i' :: i' in later.instances ==> exists i :: i in rs.instances && i.uuid == i'.uuid && i.uri == i'.uri
  }

  /** Every follower whose checksum differs from the leader's was told, and confirmed. */
  ghost predicate AllConfirmed(es: seq<Event>, rs: ReplicaSet, leader: Instance) {
    forall f :: f in InconsistentFollowers(rs, leader) ==>
      exists k :: 0 <= k < |es| && es[k].target == f.uri && es[k].acked
  }

  /** So it is when none of them is blocked, the hooks pass and all requests succeed. */
  lemma UnhinderedMeansAllConfirmed(es: seq<Event>, tries: seq<Attempt>, rs: ReplicaSet, leader: Instance,
                                    kept: seq<Entry>, start: int, env: Environment)
    requires forall f :: f in InconsistentFollowers(rs, leader) ==>
               && Handled(es, tries, rs, f, kept, start, env)
               && !Blocked(kept, f.uuid, start)
               && env.coMasterHooksPass(f.uuid)
    requires forall k :: 0 <= k < |es| ==> es[k].acked
    ensures AllConfirmed(es, rs, leader)
  {
    hide InconsistentFollowers, Blocked;
    forall f | f in InconsistentFollowers(rs, leader)
      ensures exists k :: 0 <= k < |es| && es[k].target == f.uri && es[k].acked
    {
      assert Told(es, rs, f);
    }
  }

  /** The follower still shows the leader's checksum from an older poll, although its
      configuration has changed since. */
  ghost predicate HidesDifference(f: Instance, rs: ReplicaSet, nodes: NodeMap, crc: Replicas -> int, leader: Instance) {
    && f in rs.AllFollowers()
    && f.fingerprint == leader.fingerprint
    && f.uri in nodes && rs.uuid in nodes[f.uri].cfg
    && crc(nodes[f.uri].cfg[rs.uuid]) != leader.fingerprint
  }

  /** After a confirmed co-master recovery a polled instance reports the leader's checksum
      unless its record had hidden a difference. */
  lemma LaterFingerprint(rs: ReplicaSet, nodes: NodeMap, crc: Replicas -> int, leader: Instance,
                         es: seq<Event>, later: ReplicaSet, i': Instance)
    returns (i: Instance)
    requires FlagsDiffer(rs, nodes, crc, leader)
    requires DemotionPushed(es, rs, leader) && PossibleLog(nodes, es) && AllConfirmed(es, rs, leader)
    requires Rediscovers(later, rs) && Mirrors(later, Replay(nodes, es), crc)
    requires i' in later.instances && i'.lastCheckValid
    ensures i in rs.instances && i.uuid == i'.uuid
    ensures i'.fingerprint == leader.fingerprint <==> !HidesDifference(i, rs, nodes, crc, leader)
  {
    hide Replay, PossibleLog, Reached, SameButFlags, LeaderFlagsItself, DemotionPushed;
    i :| i in rs.instances && i.uuid == i'.uuid && i.uri == i'.uri;
    if i.uuid == rs.masterUuid {
      assert i == leader;
      OnlyInconsistentAreTargeted(rs, nodes, crc, leader, es, leader);
      EveryNodeHasOutcome(nodes, es, Script(rs.uuid, rs.masterUuid), leader.uri);
    } else {
      RecoveredFollower(rs, nodes, crc, leader, es, i);
      if i.fingerprint != leader.fingerprint {
        InconsistentFollower(rs, leader, i);
        var k :| 0 <= k < |es| && es[k].target == i.uri && es[k].acked;
        AcknowledgedIsReached(nodes, es, k);
      } else {
        OnlyInconsistentAreTargeted(rs, nodes, crc, leader, es, i);
      }
    }
  }

  /** Co-master recovery converges: if the follower configurations differ from the leader's
      only in master flags, the leader flags itself alone, and every follower that shows
      another checksum was told and confirmed, then no later analysis of the set finds
      co-masters or inconsistent configurations, unless a record had hidden a difference. */
  lemma CoMasterRecoveryConverges(rs: ReplicaSet, nodes: NodeMap, crc: Replicas -> int, leader: Instance,
                                  es: seq<Event>, later: ReplicationAnalysis)
    requires FlagsDiffer(rs, nodes, crc, leader)
    requires DemotionPushed(es, rs, leader) && PossibleLog(nodes, es) && AllConfirmed(es, rs, leader)
    requires Faithful(later) && Rediscovers(later.rs, rs) && Mirrors(later.rs, Replay(nodes, es), crc)
    requires forall f :: !HidesDifference(f, rs, nodes, crc, leader)
    ensures later.state != MasterMasterReplication && later.state != InconsistentVShardConfiguration
    ensures Replay(nodes, es)[leader.uri] == nodes[leader.uri]
  {
    hide FlagsDiffer, Replay, PossibleLog, Mirrors, DemotionPushed, AllConfirmed, Rediscovers, HidesDifference;
    LeaderIsUntouched(rs, nodes, crc, leader, es);
    var master :| later.rs.IsMaster(master) && Describes(later.state, master, later.rs.AllFollowers());
    if master.lastCheckValid {
      var i := LaterFingerprint(rs, nodes, crc, leader, es, later.rs, master);
      forall f' | f' in later.rs.AllFollowers() ensures !Inconsistent(master, f') {
        if f'.lastCheckValid {
          var j := LaterFingerprint(rs, nodes, crc, leader, es, later.rs, f');
        }
      }
    }
  }

  lemma LeaderIsUntouched(rs: ReplicaSet, nodes: NodeMap, crc: Replicas -> int, leader: Instance, es: seq<Event>)
    requires FlagsDiffer(rs, nodes, crc, leader)
    requires DemotionPushed(es, rs, leader) && PossibleLog(nodes, es)
    ensures Replay(nodes, es)[leader.uri] == nodes[leader.uri]
  {
    hide Replay, PossibleLog, SameButFlags, LeaderFlagsItself, DemotionPushed;
    OnlyInconsistentAreTargeted(rs, nodes, crc, leader, es, leader);
    EveryNodeHasOutcome(nodes, es, Script(rs.uuid, rs.masterUuid), leader.uri);
  }

  /** Among analyses that can poll the leader and see some replication, those two states are
      found exactly when a follower that is polled now had hidden a difference. */
  lemma CoMastersReturnIff(rs: ReplicaSet, nodes: NodeMap, crc: Replicas -> int, leader: Instance,
                           es: seq<Event>, later: ReplicationAnalysis, master: Instance)
    requires FlagsDiffer(rs, nodes, crc, leader)
    requires DemotionPushed(es, rs, leader) && PossibleLog(nodes, es) && AllConfirmed(es, rs, leader)
    requires Faithful(later) && Rediscovers(later.rs, rs) && Mirrors(later.rs, Replay(nodes, es), crc)
    requires later.rs.IsMaster(master) && master.lastCheckValid
    requires exists r :: r in later.rs.AllFollowers() && Replicating(r)
    ensures later.state == MasterMasterReplication || later.state == InconsistentVShardConfiguration <==>
            exists f, f' ::
              && f' in later.rs.AllFollowers() && f'.lastCheckValid
              && HidesDifference(f, rs, nodes, crc, leader) && f.uuid == f'.uuid
  {
    hide FlagsDiffer, Replay, PossibleLog, Mirrors, DemotionPushed, AllConfirmed, Rediscovers;
    var m :| later.rs.IsMaster(m) && Describes(later.state, m, later.rs.AllFollowers());
    MasterIsUnique(later.rs, m, master);
    LeadersChecksumStays(rs, nodes, crc, leader, es, later.rs, master);
    forall f' | f' in later.rs.AllFollowers() && f'.lastCheckValid
      ensures Inconsistent(master, f') <==>
              exists f :: HidesDifference(f, rs, nodes, crc, leader) && f.uuid == f'.uuid
    {
      var j := LaterFingerprint(rs, nodes, crc, leader, es, later.rs, f');
      if f :| HidesDifference(f, rs, nodes, crc, leader) && f.uuid == f'.uuid {
        SameRecord(rs, nodes, crc, leader, f, j);
      }
    }
  }

  lemma SameRecord(rs: ReplicaSet, nodes: NodeMap, crc: Replicas -> int, leader: Instance, f: Instance, j: Instance)
    requires FlagsDiffer(rs, nodes, crc, leader) && HidesDifference(f, rs, nodes, crc, leader)
    requires j in rs.instances && j.uuid == f.uuid
    ensures j == f
  {
    hide SameButFlags, LeaderFlagsItself;
  }

  lemma LeadersChecksumStays(rs: ReplicaSet, nodes: NodeMap, crc: Replicas -> int, leader: Instance,
                             es: seq<Event>, later: ReplicaSet, master: Instance)
    requires FlagsDiffer(rs, nodes, crc, leader)
    requires DemotionPushed(es, rs, leader) && PossibleLog(nodes, es) && AllConfirmed(es, rs, leader)
    requires Rediscovers(later, rs) && Mirrors(later, Replay(nodes, es), crc)
    requires later.IsMaster(master) && master.lastCheckValid
    ensures master.fingerprint == leader.fingerprint
  {
    hide Replay, PossibleLog, SameButFlags, LeaderFlagsItself, DemotionPushed, AllConfirmed, Mirrors;
    var i := LaterFingerprint(rs, nodes, crc, leader, es, later, master);
  }
}
