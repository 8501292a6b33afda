/** Master election: the admission filter and the two electors. */
module Quorum {
  import opened Topology
  import Sorting

  /** Limits on the followers that may be promoted; 0 switches a limit off. */
  datatype Options = Options(lagLimit: int, idleLimit: real)

  datatype Mode = ModeIdle | ModeSmart

  datatype Election =
    | Elected(uuid: InstanceUuid)
    | NoAliveFollowers
    | NoCandidateFound
    | MasterNotFound

  function Doubled(x: real, times: nat): real {
    if times == 0 then x else 2.0 * Doubled(x, times - 1)
  }

  /** The largest finite double. */
  const MAX_IDLE := Doubled(9007199254740991.0, 971)

  const IDLE_DIFF_DELTA := 0.5

  predicate Admitted(i: Instance, opts: Options) {
    && i.priority >= 0
    && (opts.lagLimit != 0 ==> i.lsnBehindMaster <= opts.lagLimit)
    && (opts.idleLimit != 0.0 ==> i.Idle() <= opts.idleLimit)
  }

  function AdmissionTest(opts: Options): Instance -> bool {
    (i: Instance) => Admitted(i, opts)
  }

  /** The followers that take part in an election, in the order of the set. */
  function Eligible(rs: ReplicaSet, opts: Options): (r: seq<Instance>)
    ensures forall i :: i in r <==>
              i in rs.instances && i.uuid != rs.masterUuid && i.Alive() && Admitted(i, opts)
  {
    SelectMembers(rs.AllAliveFollowers(), AdmissionTest(opts));
    Select(rs.AllAliveFollowers(), AdmissionTest(opts))
  }

  method Filter(instances: seq<Instance>, opts: Options) returns (filtered: seq<Instance>)
    ensures filtered == Select(instances, AdmissionTest(opts))
    ensures forall i :: i in filtered <==>
              && i in instances
              && i.priority >= 0
              && (opts.lagLimit != 0 ==> i.lsnBehindMaster <= opts.lagLimit)
              && (opts.idleLimit != 0.0 ==> i.Idle() <= opts.idleLimit)
  {
    SelectMembers(instances, AdmissionTest(opts));
    filtered := [];
    for k := 0 to |instances|
      invariant filtered == Select(instances[..k], AdmissionTest(opts))
    {
      assert instances[..k + 1][..k] == instances[..k];
      var inst := instances[k];
      if inst.priority < 0 {
        continue;
      }
      if opts.lagLimit != 0 {
        if inst.lsnBehindMaster > opts.lagLimit {
          continue;
        }
      }
      if opts.idleLimit != 0.0 {
        if inst.Idle() > opts.idleLimit {
          continue;
        }
      }
      filtered := filtered + [inst];
    }
    assert instances[..|instances|] == instances;
  }

  /** `s[k]` is the first among those with the least idle. */
  ghost predicate FirstLeastIdle(s: seq<Instance>, k: nat) {
    && k < |s|
    && (forall j :: 0 <= j < |s| ==> s[k].Idle() <= s[j].Idle())
    && (forall j :: 0 <= j < k ==> s[k].Idle() < s[j].Idle())
  }

  /** Some follower is less idle than `bound`, the value the search starts from. */
  ghost predicate SomeIdleBelow(s: seq<Instance>, bound: real) {
    exists k :: 0 <= k < |s| && s[k].Idle() < bound
  }

  /** What scanning `s` for the least idle yields: "" when nothing is below `bound`. */
  ghost predicate LeastIdleUuid(s: seq<Instance>, bound: real, uuid: InstanceUuid) {
    if SomeIdleBelow(s, bound) then exists k: nat :: FirstLeastIdle(s, k) && s[k].uuid == uuid
    else uuid == ""
  }

  method ScanForLeastIdle(followers: seq<Instance>, bound: real) returns (minUuid: InstanceUuid)
    ensures LeastIdleUuid(followers, bound, minUuid)
  {
    var minIdle := bound;
    minUuid := "";
    ghost var best: nat := 0;
    for k := 0 to |followers|
      invariant minIdle <= bound
      invariant forall j :: 0 <= j < k ==> minIdle <= followers[j].Idle()
      invariant minIdle == bound ==> minUuid == ""
      invariant minIdle < bound ==>
                  && best < k
                  && minIdle == followers[best].Idle()
                  && minUuid == followers[best].uuid
                  && forall j :: 0 <= j < best ==> minIdle < followers[j].Idle()
    {
      if followers[k].Idle() < minIdle {
        minIdle := followers[k].Idle();
        minUuid := followers[k].uuid;
        best := k;
      }
    }
    if minIdle < bound {
      assert FirstLeastIdle(followers, best);
      assert followers[best].Idle() < bound;
    }
  }

  /** `e` is the outcome of the idle elector. */
  ghost predicate IdleOutcome(rs: ReplicaSet, opts: Options, e: Election) {
    var eligible := Eligible(rs, opts);
    match e
    case NoAliveFollowers => eligible == []
    case MasterNotFound => false
    case NoCandidateFound => eligible != [] && LeastIdleUuid(eligible, MAX_IDLE, "")
    case Elected(uuid) => eligible != [] && uuid != "" && LeastIdleUuid(eligible, MAX_IDLE, uuid)
  }

  method ChooseMasterByIdle(rs: ReplicaSet, opts: Options) returns (e: Election)
    ensures IdleOutcome(rs, opts, e)
  {
    var alive := rs.AliveFollowers();
    var followers := Filter(alive, opts);
    if |followers| == 0 {
      return NoAliveFollowers;
    }
    var minUuid := ScanForLeastIdle(followers, MAX_IDLE);
    if minUuid == "" {
      return NoCandidateFound;
    }
    return Elected(minUuid);
  }

  lemma LeastIdleIsUnique(s: seq<Instance>, bound: real, uuid: InstanceUuid, other: InstanceUuid)
    requires LeastIdleUuid(s, bound, uuid) && LeastIdleUuid(s, bound, other)
    ensures other == uuid
  {
    if SomeIdleBelow(s, bound) {
      var k: nat :| FirstLeastIdle(s, k) && s[k].uuid == uuid;
      var k': nat :| FirstLeastIdle(s, k') && s[k'].uuid == other;
      assert k == k';
    }
  }

  predicate InDelta(d1: real, d2: real, delta: real) {
    var diff := d1 - d2;
    diff >= -delta && diff <= delta
  }

  predicate Follows(i: Instance) {
    i.upstream.Some? && i.upstream.value.status == UpstreamFollow
  }

  /** `left` is preferred to `right` as the successor of `master`. The source takes the
      upstreams for granted; `UpstreamsKnown` provides them wherever followers are compared. */
  predicate SmartLess(master: Instance, left: Instance, right: Instance) {
    var confHash := master.fingerprint;
    if left.fingerprint == confHash && right.fingerprint != confHash then true
    else if left.fingerprint != confHash && right.fingerprint == confHash then false
    else if Follows(left) && !Follows(right) then true
    else if !Follows(left) && Follows(right) then false
    else if left.lsnBehindMaster != right.lsnBehindMaster then
      if left.lsnBehindMaster > 0 && right.lsnBehindMaster < 0 then true
      else if left.lsnBehindMaster < 0 && right.lsnBehindMaster > 0 then false
      else left.lsnBehindMaster < right.lsnBehindMaster
    else if left.priority != right.priority && InDelta(left.Idle(), right.Idle(), IDLE_DIFF_DELTA) then
      left.priority > right.priority
    else left.Idle() < right.Idle()
  }

  function SmartOrder(master: Instance): (Instance, Instance) -> bool {
    (left: Instance, right: Instance) => SmartLess(master, left, right)
  }

  /** Every follower that is compared has an upstream; a lone one is not compared. */
  predicate UpstreamsKnown(rs: ReplicaSet, opts: Options) {
    |Eligible(rs, opts)| > 1 ==> forall i :: i in Eligible(rs, opts) ==> i.upstream.Some?
  }

  function Winner(master: Instance, followers: seq<Instance>): Instance
    requires followers != []
  {
    Sorting.Sorted(followers, SmartOrder(master))[0]
  }

  /** `e` is the outcome of the smart elector. */
  ghost predicate SmartOutcome(rs: ReplicaSet, opts: Options, e: Election)
    requires UpstreamsKnown(rs, opts)
  {
    var eligible := Eligible(rs, opts);
    match e
    case NoAliveFollowers => eligible == []
    case MasterNotFound => eligible != [] && !rs.HasMaster()
    case NoCandidateFound => false
    case Elected(uuid) =>
      && eligible != []
      && exists master :: rs.IsMaster(master) && uuid == Winner(master, eligible).uuid
  }

  method ChooseMasterSmart(rs: ReplicaSet, opts: Options) returns (e: Election)
    requires UpstreamsKnown(rs, opts)
    ensures SmartOutcome(rs, opts, e)
  {
    var alive := rs.AliveFollowers();
    var eligible := Filter(alive, opts);
    if |eligible| == 0 {
      return NoAliveFollowers;
    }
    var master := rs.Master();
    if master == None {
      return MasterNotFound;
    }
    var instances := new Instance[|eligible|](k requires 0 <= k < |eligible| => eligible[k]);
    assert instances[..] == eligible;
    Sorting.InsertionSort(instances, SmartOrder(master.value));
    assert instances[0] == instances[..][0];
    return Elected(instances[0].uuid);
  }

  /** `e` is the outcome of the configured elector. */
  ghost predicate ElectionOutcome(mode: Mode, rs: ReplicaSet, opts: Options, e: Election) {
    match mode
    case ModeIdle => IdleOutcome(rs, opts, e)
    case ModeSmart => UpstreamsKnown(rs, opts) && SmartOutcome(rs, opts, e)
  }

  method ChooseMaster(mode: Mode, rs: ReplicaSet, opts: Options) returns (e: Election)
    requires mode == ModeSmart ==> UpstreamsKnown(rs, opts)
    ensures ElectionOutcome(mode, rs, opts, e)
  {
    match mode
    case ModeIdle =>
      e := ChooseMasterByIdle(rs, opts);
    case ModeSmart =>
      e := ChooseMasterSmart(rs, opts);
  }

  /** Whichever elector is configured, it elects an eligible follower. */
  lemma ElectedIsEligible(mode: Mode, rs: ReplicaSet, opts: Options, uuid: InstanceUuid) returns (elected: Instance)
    requires ElectionOutcome(mode, rs, opts, Elected(uuid))
    ensures elected in Eligible(rs, opts) && elected.uuid == uuid
  {
    var eligible := Eligible(rs, opts);
    match mode
    case ModeIdle =>
      var k: nat :| FirstLeastIdle(eligible, k) && eligible[k].uuid == uuid;
      elected := eligible[k];
    case ModeSmart =>
      var master :| rs.IsMaster(master) && uuid == Winner(master, eligible).uuid;
      WinnerIsEligible(master, eligible);
      elected := Winner(master, eligible);
  }

  /** An election finds no one alive exactly when no member but the master was polled
      successfully, has a link that is not cut or stopped, and meets the limits. */
  lemma NoOneIsAliveIff(mode: Mode, rs: ReplicaSet, opts: Options, e: Election)
    requires ElectionOutcome(mode, rs, opts, e)
    ensures e == NoAliveFollowers <==>
              !exists i ::
                && i in rs.instances && i.uuid != rs.masterUuid && i.lastCheckValid
                && (if i.upstream.Some? then i.upstream.value.status !in {UpstreamDisconnected, UpstreamStopped}
                    else i.downstream.Some? && i.downstream.value != DownstreamStopped)
                && i.priority >= 0
                && (opts.lagLimit != 0 ==> i.lsnBehindMaster <= opts.lagLimit)
                && (opts.idleLimit != 0.0 && i.upstream.Some? ==> i.upstream.value.idle <= opts.idleLimit)
                && (opts.idleLimit != 0.0 && i.upstream.None? ==> 0.0 <= opts.idleLimit)
  {
    var eligible := Eligible(rs, opts);
    if eligible != [] {
      assert eligible[0] in eligible;
    }
  }

  lemma {:induction false} DoublingGrows(x: real, times: nat)
    requires x >= 0.0
    ensures Doubled(x, times) >= x
  {
    if times > 0 {
      DoublingGrows(x, times - 1);
    }
  }

  /** No idle that occurs reaches the bound of the search: it lies above 285 million years. */
  lemma IdlesStayBelowTheBound(i: Instance)
    requires i.Idle() < 9007199254740991.0
    ensures i.Idle() < MAX_IDLE
  {
    DoublingGrows(9007199254740991.0, 971);
  }

  /** The outcome of an election is determined by the set and the limits. */
  lemma ElectionIsDetermined(mode: Mode, rs: ReplicaSet, opts: Options, e: Election, other: Election)
    requires ElectionOutcome(mode, rs, opts, e) && ElectionOutcome(mode, rs, opts, other)
    ensures e == other
  {
    match mode
    case ModeIdle =>
      if Eligible(rs, opts) != [] {
        var uuid := if e.Elected? then e.uuid else "";
        var uuid' := if other.Elected? then other.uuid else "";
        LeastIdleIsUnique(Eligible(rs, opts), MAX_IDLE, uuid, uuid');
      }
    case ModeSmart =>
      if e.Elected? && other.Elected? {
        var master :| rs.IsMaster(master) && e.uuid == Winner(master, Eligible(rs, opts)).uuid;
        var master' :| rs.IsMaster(master') && other.uuid == Winner(master', Eligible(rs, opts)).uuid;
        MasterIsUnique(rs, master, master');
      }
  }

  lemma WinnerIsEligible(master: Instance, followers: seq<Instance>)
    requires followers != []
    ensures Winner(master, followers) in followers
  {
    Sorting.SortedPermutes(followers, SmartOrder(master));
    Sorting.SameElements(Sorting.Sorted(followers, SmartOrder(master)), followers);
  }
}
