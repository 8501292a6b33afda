/** What the two electors have in common, and what a successful election says about the set. */
module ElectionLaws {
  import opened Topology
  import opened Quorum
  import opened Analysis

  /** Idles are below the search bound and UUIDs are present: what discovery delivers. */
  ghost predicate WellReported(s: seq<Instance>) {
    forall i :: i in s ==> i.Idle() < MAX_IDLE && i.uuid != ""
  }

  /** With a present master and well-reported followers both electors refuse on the same
      inputs, and with the same answer. */
  lemma ElectorsRefuseTogether(rs: ReplicaSet, opts: Options, idle: Election, smart: Election)
    requires rs.HasMaster() && UpstreamsKnown(rs, opts) && WellReported(Eligible(rs, opts))
    requires IdleOutcome(rs, opts, idle) && SmartOutcome(rs, opts, smart)
    ensures idle.Elected? <==> smart.Elected?
    ensures !idle.Elected? ==> idle == smart == NoAliveFollowers
  {
    var eligible := Eligible(rs, opts);
    if eligible != [] {
      assert eligible[0] in eligible;
      assert SomeIdleBelow(eligible, MAX_IDLE);
    }
  }

  /** The idle elector's answer is the first eligible follower of least idle. */
  lemma IdleElectsFirstLeastIdle(rs: ReplicaSet, opts: Options, e: Election)
    requires WellReported(Eligible(rs, opts)) && IdleOutcome(rs, opts, e)
    ensures e.Elected? <==> Eligible(rs, opts) != []
    ensures e.Elected? ==>
              exists k: nat :: FirstLeastIdle(Eligible(rs, opts), k) && Eligible(rs, opts)[k].uuid == e.uuid
  {
    var eligible := Eligible(rs, opts);
    if eligible != [] {
      assert eligible[0] in eligible;
      assert SomeIdleBelow(eligible, MAX_IDLE);
    }
  }

  /** Electing in a set whose master is dead means the analysis found one of three states. */
  lemma ElectionImpliesState(a: ReplicationAnalysis, opts: Options, master: Instance, elected: Instance)
    requires Faithful(a) && a.rs.IsMaster(master) && !master.lastCheckValid
    requires elected in Eligible(a.rs, opts)
    ensures a.state == DeadMaster || a.state == DeadMasterAndSomeFollowers || a.state == NetworkProblems
  {
    var m :| a.rs.IsMaster(m) && Describes(a.state, m, a.rs.AllFollowers());
    MasterIsUnique(a.rs, m, master);
    assert elected in a.rs.AllFollowers();
  }

  /** What the analysis and the election together guarantee before a promotion is pushed. */
  lemma PromotionPremises(a: ReplicationAnalysis, opts: Options, elected: Instance)
    requires Faithful(a)
    requires a.state == DeadMaster || a.state == DeadMasterAndSomeFollowers
    requires elected in Eligible(a.rs, opts)
    ensures exists master :: a.rs.IsMaster(master) && !master.lastCheckValid
    ensures a.countWorking >= 1 && a.countReplicating == 0
    ensures forall f :: f in a.rs.AllFollowers() ==> !Replicating(f)
    ensures elected in a.rs.instances && elected.uuid != a.rs.masterUuid && elected.Alive()
    ensures elected.priority >= 0
    ensures opts.lagLimit != 0 ==> elected.lsnBehindMaster <= opts.lagLimit
    ensures opts.idleLimit != 0.0 ==> elected.Idle() <= opts.idleLimit
  {
    var followers := a.rs.AllFollowers();
    CountMeans(followers, Working);
    CountMeans(followers, Replicating);
    assert elected in followers && Working(elected);
  }
}
