/** The failover loop: it takes any stream of analyses and drives recoveries. */
module Failovers {
  import opened Topology
  import opened Quorum
  import opened Analysis
  import opened Nodes
  import opened Fleets
  import opened Protocol
  import opened Registry
  import opened Accounts
  import opened UpdateOrder
  import Sorting

  /** What surrounds the handling of one analysis: whether the cluster is read-only or under
      recovery already when the analysis arrives, the verdicts of the synchronous
      pre-failover hooks and what each read of the current snapshot shows. Other
      activities may replace the snapshot between two reads. */
  datatype Environment = Environment(
    readOnly: bool,
    recoveryActive: bool,
    hooksPass: bool,
    coMasterHooksPass: InstanceUuid -> bool,
    atLookup: ClusterView,
    atRouters: ClusterView,
    atMembers: ClusterView)

  datatype Input =
    | Stop
    | CleanupTick
    | Arrived(analysis: ReplicationAnalysis, env: Environment)

  /** The verdict on promoting a record; a record without upstream is dereferenced in vain. */
  datatype Verdict = Promote | Refuse | Crash

  function ShouldPromoteFollower(inst: Instance): (v: Verdict)
    ensures v == Crash <==> inst.lsnBehindMaster >= 0 && inst.upstream.None?
    ensures v == Promote <==>
              && inst.lsnBehindMaster >= 0
              && inst.upstream.Some?
              && (inst.upstream.value.status == UpstreamFollow || inst.upstream.value.status == UpstreamRunning)
  {
    if inst.lsnBehindMaster < 0 then Refuse
    else match inst.upstream
      case None => Crash
      case Some(u) => if u.status != UpstreamFollow && u.status != UpstreamRunning then Refuse else Promote
  }

  /** Analyses that arrive while the cluster is read-only or under recovery are skipped. */
  predicate ShouldBeAnalysisChecked(env: Environment) {
    if env.readOnly then false
    else if env.recoveryActive then false
    else true
  }

  function InconsistentFollowers(rs: ReplicaSet, master: Instance): seq<Instance> {
    Select(rs.AllFollowers(), DiffersFrom(master))
  }

  function DiffersFrom(master: Instance): Instance -> bool {
    (f: Instance) => f.fingerprint != master.fingerprint
  }

  /** The election names a candidate whose current record is fit for promotion. */
  ghost predicate Promotable(e: Election, env: Environment) {
    e.Elected? && VerdictOn(e.uuid, env) == Promote
  }

  /** The requests `es` are the promotion that the election `e` calls for. */
  ghost predicate IsPromotionOf(es: seq<Event>, rs: SetUuid, e: Election, env: Environment)
    requires e.Elected?
  {
    PromotionSegment(es, Script(rs, e.uuid), env.atLookup.Lookup(e.uuid).uri,
                     env.atRouters.routers, MemberAddresses(env.atMembers, e.uuid))
  }

  /** The requests `es` are a promotion that the analysis, the election and the candidate's
      current record call for. */
  ghost predicate PromotionPushed(es: seq<Event>, analysis: ReplicationAnalysis, mode: Mode, opts: Options,
                                  env: Environment)
  {
    exists e ::
      && ElectionOutcome(mode, analysis.rs, opts, e)
      && Promotable(e, env)
      && IsPromotionOf(es, analysis.rs.uuid, e, env)
  }

  function VerdictOn(uuid: InstanceUuid, env: Environment): Verdict {
    ShouldPromoteFollower(env.atLookup.Lookup(uuid))
  }

  /** Hooks, election or the candidate's current record speak against a promotion. */
  ghost predicate PromotionWithheld(analysis: ReplicationAnalysis, mode: Mode, opts: Options, env: Environment) {
    || !env.hooksPass
    || exists e :: ElectionOutcome(mode, analysis.rs, opts, e) && (e.Elected? ==> VerdictOn(e.uuid, env) == Refuse)
  }

  /** The elected candidate's current record lacks the upstream that is looked at. */
  ghost predicate PromotionCrashes(analysis: ReplicationAnalysis, mode: Mode, opts: Options, env: Environment) {
    && env.hooksPass
    && exists e :: ElectionOutcome(mode, analysis.rs, opts, e) && e.Elected? && VerdictOn(e.uuid, env) == Crash
  }

  function IdentOf(i: Instance): Ident {
    Ident(i.uuid, i.uri)
  }

  /** The members to be told about the promotion of `c`, in the order they are told. */
  function MemberAddresses(view: ClusterView, c: InstanceUuid): seq<Uri> {
    AddressesExcept(Sorting.Sorted(view.Instances(), FailoverLess), c)
  }

  lemma MemberAddressesMeans(view: ClusterView, c: InstanceUuid)
    ensures MemberAddresses(view, c) == AddressesExcept(Sorting.Sorted(view.Instances(), FailoverLess), c)
  {
  }

  /** The members are told in update order, unless a failed instance is ahead of a valid one. */
  lemma MembersAreToldInOrder(view: ClusterView, c: InstanceUuid) returns (told: seq<Instance>)
    requires !InvalidAheadOfValid(view.Instances())
    ensures multiset(told) == multiset(view.Instances()) && InUpdateOrder(told)
    ensures MemberAddresses(view, c) == AddressesExcept(told, c)
  {
    hide InUpdateOrder, AddressesExcept, Sorting.Sorted, ClusterView.Instances, InvalidAheadOfValid;
    told := Sorting.Sorted(view.Instances(), FailoverLess);
    Sorting.SortedPermutes(view.Instances(), FailoverLess);
    OrderedIsInUpdateOrder(view.Instances());
  }

  lemma NoAddresses(c: InstanceUuid)
    ensures AddressesExcept([], c) == []
  {
  }

  /** A request that names the leader to the follower `f`. */
  ghost predicate Demotes(e: Event, rs: ReplicaSet, f: Instance) {
    e.purpose == Demote(f.uuid) && e.target == f.uri && e.query == Script(rs.uuid, rs.masterUuid)
  }

  /** The request names the leader to a follower whose configuration differs. */
  ghost predicate IsDemotion(e: Event, rs: ReplicaSet, master: Instance) {
    exists f :: f in InconsistentFollowers(rs, master) && Demotes(e, rs, f)
  }

  ghost predicate DemotionPushed(es: seq<Event>, rs: ReplicaSet, master: Instance) {
    forall k :: 0 <= k < |es| ==> IsDemotion(es[k], rs, master)
  }

  ghost predicate Tried(tries: seq<Attempt>, key: string) {
    exists k :: 0 <= k < |tries| && tries[k].key == key
  }

  ghost predicate Told(es: seq<Event>, rs: ReplicaSet, f: Instance) {
    exists k :: 0 <= k < |es| && Demotes(es[k], rs, f)
  }

  /** A follower whose configuration differs is recovered unless it was blocked, and told
      exactly if it is recovered and the hooks let that pass. */
  ghost predicate Handled(es: seq<Event>, tries: seq<Attempt>, rs: ReplicaSet, f: Instance,
                          kept: seq<Entry>, start: int, env: Environment)
  {
    && (Tried(tries, f.uuid) || Blocked(kept, f.uuid, start))
    && (Told(es, rs, f) <==> Tried(tries, f.uuid) && env.coMasterHooksPass(f.uuid))
  }

  /** The record found for the candidate gives the address of the candidate's own node. */
  ghost predicate Truthful(view: ClusterView, nodes: NodeMap) {
    forall uuid :: view.Lookup(uuid).uuid == uuid && view.Lookup(uuid).uri in nodes ==>
      IsOwnNode(nodes, view.Lookup(uuid).uri, uuid)
  }

  ghost function KeptOf(recoveries: seq<Recovery>): (r: seq<Entry>)
    reads recoveries
    ensures |r| == |recoveries|
    ensures forall k :: 0 <= k < |r| ==> r[k] == recoveries[k].AsEntry()
  {
    if recoveries == [] then []
    else KeptOf(recoveries[..|recoveries| - 1]) + [recoveries[|recoveries| - 1].AsEntry()]
  }

  lemma PromotionIsJudged(analysis: ReplicationAnalysis, mode: Mode, opts: Options, env: Environment,
                          e: Election, es: seq<Event>, crashed: bool)
    requires ElectionOutcome(mode, analysis.rs, opts, e)
    requires env.hooksPass
    requires es != [] ==> Promotable(e, env) && IsPromotionOf(es, analysis.rs.uuid, e, env)
    requires es == [] ==> !Promotable(e, env)
    requires crashed <==> e.Elected? && VerdictOn(e.uuid, env) == Crash
    ensures es != [] ==> PromotionPushed(es, analysis, mode, opts, env)
    ensures es != [] ==> es[0].query.newMaster == e.uuid && es[0].target == env.atLookup.Lookup(e.uuid).uri
    ensures es != [] ==> env.atLookup.Lookup(e.uuid).uuid == e.uuid
    ensures es == [] && !crashed ==> PromotionWithheld(analysis, mode, opts, env)
    ensures crashed ==> es == [] && PromotionCrashes(analysis, mode, opts, env)
  {
  }

  lemma HooksWithhold(analysis: ReplicationAnalysis, mode: Mode, opts: Options, env: Environment)
    requires !env.hooksPass
    ensures PromotionWithheld(analysis, mode, opts, env)
  {
  }

  lemma PromotionAccounts(es: seq<Event>, a: Attempt, number: nat, ttls: Ttls, rs: SetUuid, e: Election,
                          env: Environment)
    requires es != [] ==> e.Elected? && IsPromotionOf(es, rs, e, env)
    requires forall k :: 0 <= k < |es| ==> es[k].attempt == number && a.armed <= es[k].sent
    requires a.key == rs && a.ttl == ttls.ofSet
    ensures Accounted(es, number, [a], ttls)
  {
    hide MemberAddresses, ClusterView.Lookup;
    OneAttemptAccounts(es, a, number, ttls);
  }

  /** With truthful records a promotion is offered to the candidate's own node. */
  lemma PromotionGoesHome(es: seq<Event>, analysis: ReplicationAnalysis, mode: Mode, opts: Options, env: Environment,
                          nodes: NodeMap)
    requires PromotionPushed(es, analysis, mode, opts, env) && Truthful(env.atLookup, nodes)
    ensures LeadsGoHome(nodes, es)
  {
    hide MemberAddresses, ElectionOutcome;
  }

  lemma DemotionsGoHome(es: seq<Event>, rs: ReplicaSet, leader: Instance, nodes: NodeMap)
    requires DemotionPushed(es, rs, leader)
    ensures LeadsGoHome(nodes, es)
  {
    hide InconsistentFollowers;
  }

  lemma HomeJoins(nodes: NodeMap, log: seq<Event>, es: seq<Event>)
    requires LeadsGoHome(nodes, log) && LeadsGoHome(nodes, es)
    ensures LeadsGoHome(nodes, log + es)
  {
    hide IsOwnNode;
  }

  /** One turn of the loop: the clock and the registry before and after it, what was sent,
      which attempts were made, whom a co-master recovery took for the leader, and whether
      the process crashed. */
  datatype Turn = Turn(
    start: int,
    end: int,
    before: seq<Entry>,
    after: seq<Entry>,
    es: seq<Event>,
    tries: seq<Attempt>,
    leader: Instance,
    crashed: bool)

  /** The turns lead from one clock reading and registry to another, each starting where the
      one before it ended. */
  ghost predicate Chained(turns: seq<Turn>, before: seq<Entry>, start: int, after: seq<Entry>, end: int) {
    if turns == [] then before == after && start == end
    else
      var t := turns[|turns| - 1];
      && Chained(turns[..|turns| - 1], before, start, t.before, t.start)
      && t.start <= t.end == end && t.after == after
  }

  function EventsOf(turns: seq<Turn>): seq<Event> {
    if turns == [] then [] else EventsOf(turns[..|turns| - 1]) + turns[|turns| - 1].es
  }

  function AttemptsOf(turns: seq<Turn>): seq<Attempt> {
    if turns == [] then [] else AttemptsOf(turns[..|turns| - 1]) + turns[|turns| - 1].tries
  }

  lemma NoTurns(kept: seq<Entry>, now: int)
    ensures Chained([], kept, now, kept, now) && EventsOf([]) == [] && AttemptsOf([]) == []
  {
  }

  lemma TurnFollows(turns: seq<Turn>, t: Turn, before: seq<Entry>, start: int)
    requires Chained(turns, before, start, t.before, t.start) && t.start <= t.end
    ensures Chained(turns + [t], before, start, t.after, t.end)
    ensures EventsOf(turns + [t]) == EventsOf(turns) + t.es
    ensures AttemptsOf(turns + [t]) == AttemptsOf(turns) + t.tries
  {
    assert (turns + [t])[..|turns|] == turns;
  }

  class Failover {
    const fleet: Fleet
    const clock: Clock
    const mode: Mode
    const opts: Options
    const ttls: Ttls
    var recoveries: seq<Recovery>
    ghost var attempts: seq<Attempt>

    /** Every request belongs to a recovery attempt, attempts are spaced, the registry answers
        as a log that never forgets would, and nobody heard of a promotion its candidate had
        not confirmed. */
    ghost predicate Valid()
      reads this, fleet, clock, recoveries
    {
      && fleet.Valid()
      && Disciplined(fleet.log)
      && Spaced(attempts)
      && Accounted(fleet.log, 0, attempts, ttls)
      && Answers(KeptOf(recoveries), attempts, clock.now)
    }

    constructor (fleet: Fleet, clock: Clock, mode: Mode, opts: Options, ttls: Ttls)
      requires fleet.Valid() && fleet.log == []
      ensures Valid() && recoveries == [] && attempts == []
      ensures this.fleet == fleet && this.clock == clock && this.mode == mode && this.opts == opts
      ensures this.ttls == ttls
    {
      this.fleet := fleet;
      this.clock := clock;
      this.mode := mode;
      this.opts := opts;
      this.ttls := ttls;
      this.recoveries := [];
      this.attempts := [];
    }

    method HasBlockedRecovery(key: string) returns (blocked: bool)
      modifies clock
      ensures old(clock.now) <= clock.now
      ensures blocked ==> Blocked(old(KeptOf(recoveries)), key, old(clock.now))
      ensures !blocked ==> !Blocked(old(KeptOf(recoveries)), key, clock.now)
    {
      ghost var start, kept := clock.now, KeptOf(recoveries);
      for k := 0 to |recoveries|
        invariant start <= clock.now
        invariant forall j :: 0 <= j < k ==> !Blocks(kept[j], key, clock.now)
      {
        var b := recoveries[k];
        if b.ScopeKey() == key {
          ghost var before := clock.now;
          var expired := b.Expired(clock);
          UnixIsMonotone(start, clock.now);
          UnixIsMonotone(before, clock.now);
          if !expired {
            assert Blocks(kept[k], key, start);
            return true;
          }
        }
      }
      return false;
    }

    method RegistryRecovery(r: Recovery, ghost a: Attempt, ghost start: int)
      requires r.AsEntry() == a.AsEntry()
      requires Spaced(attempts) && Answers(KeptOf(recoveries), attempts, start)
      requires Permitted(a, KeptOf(recoveries), start, clock.now)
      modifies this`recoveries, this`attempts
      ensures recoveries == old(recoveries) + [r] && attempts == old(attempts) + [a]
      ensures Spaced(attempts) && Answers(KeptOf(recoveries), attempts, start)
    {
      RegisteringKeepsLaws(KeptOf(recoveries), attempts, start, clock.now, a);
      recoveries := recoveries + [r];
      attempts := attempts + [a];
      assert recoveries[..|recoveries| - 1] == old(recoveries);
    }

    /** Drops expired recoveries. */
    method Cleanup()
      requires Valid()
      modifies this`recoveries, clock
      ensures Valid()
      ensures old(clock.now) <= clock.now
      ensures CleanedUp(old(KeptOf(recoveries)), KeptOf(recoveries), old(clock.now), clock.now)
    {
      hide Fleet.Valid, Disciplined, Spaced, Answers, Accounted, CleanedUp, KeptOf;
      if |recoveries| == 0 {
        NothingToClean(clock.now, clock.now);
        return;
      }
      ghost var start, before := clock.now, KeptOf(recoveries);
      var registered := recoveries;
      var alive: seq<Recovery> := [];
      for k := 0 to |registered|
        invariant start <= clock.now
        invariant |alive| <= k
        invariant forall j :: 0 <= j < |alive| ==> alive[j] in registered && alive[j].expiration >= Unix(start)
        invariant forall j :: 0 <= j < k && registered[j] !in alive ==> before[j].expiration < Unix(clock.now)
      {
        ghost var t := clock.now;
        var expired := registered[k].Expired(clock);
        UnixIsMonotone(t, clock.now);
        UnixIsMonotone(start, clock.now);
        if !expired {
          alive := alive + [registered[k]];
        }
      }
      CleanupKeepsAlive(registered, alive, start, clock.now);
      CleanupIsInvisible(before, KeptOf(alive), attempts, start, clock.now);
      recoveries := alive;
    }

    lemma NothingToClean(start: int, now: int)
      ensures CleanedUp(KeptOf([]), KeptOf([]), start, now)
    {
    }

    lemma CleanupKeepsAlive(registered: seq<Recovery>, alive: seq<Recovery>, start: int, now: int)
      requires |alive| <= |registered|
      requires forall j :: 0 <= j < |alive| ==> alive[j] in registered && alive[j].expiration >= Unix(start)
      requires forall j :: 0 <= j < |registered| && registered[j] !in alive ==>
                 KeptOf(registered)[j].expiration < Unix(now)
      ensures CleanedUp(KeptOf(registered), KeptOf(alive), start, now)
    {
      hide KeptOf;
      var before, after := KeptOf(registered), KeptOf(alive);
      forall j | 0 <= j < |before| && registered[j] in alive ensures before[j] in after {
        var i :| 0 <= i < |alive| && alive[i] == registered[j];
        assert after[i] == before[j];
      }
      forall j | 0 <= j < |after| ensures after[j] in before {
        var i :| 0 <= i < |registered| && registered[i] == alive[j];
        assert before[i] == after[j];
      }
    }

    /** Tells every router, tolerating failures. */
    method PushToRouters(q: Script, routers: seq<Uri>, ghost number: nat) returns (ghost es: seq<Event>)
      requires fleet.Valid()
      modifies fleet
      ensures fleet.Valid() && fleet.log == old(fleet.log) + es
      ensures Targets(es) == routers
      ensures forall k :: 0 <= k < |es| ==> es[k].purpose == Spread && es[k].query == q
      ensures forall k :: 0 <= k < |es| ==> es[k].attempt == number && es[k].sent == clock.now
    {
      hide *;
      es := [];
      for i := 0 to |routers|
        invariant fleet.Valid() && fleet.log == old(fleet.log) + es
        invariant Targets(es) == routers[..i]
        invariant forall k :: 0 <= k < |es| ==> es[k].purpose == Spread && es[k].query == q
        invariant forall k :: 0 <= k < |es| ==> es[k].attempt == number && es[k].sent == clock.now
      {
        var ok;
        ghost var e;
        ok, e := fleet.Exec(Spread, routers[i], q, number, clock.now);
        es := es + [e];
      }
    }

    /** Tells every instance but the candidate, in the given order, tolerating failures. */
    method PushToMembers(q: Script, instances: array<Instance>, ghost number: nat) returns (ghost es: seq<Event>)
      requires fleet.Valid()
      modifies fleet
      ensures fleet.Valid() && fleet.log == old(fleet.log) + es
      ensures Targets(es) == AddressesExcept(old(instances[..]), q.newMaster)
      ensures forall k :: 0 <= k < |es| ==> es[k].purpose == Spread && es[k].query == q
      ensures forall k :: 0 <= k < |es| ==> es[k].attempt == number && es[k].sent == clock.now
    {
      hide *;
      ghost var all := instances[..];
      assert all[..0] == [] && Targets([]) == AddressesExcept(all[..0], q.newMaster) by { NoAddresses(q.newMaster); }
      es := [];
      for i := 0 to instances.Length
        invariant instances[..] == all
        invariant fleet.Valid() && fleet.log == old(fleet.log) + es
        invariant Targets(es) == AddressesExcept(all[..i], q.newMaster)
        invariant forall k :: 0 <= k < |es| ==> es[k].purpose == Spread && es[k].query == q
        invariant forall k :: 0 <= k < |es| ==> es[k].attempt == number && es[k].sent == clock.now
      {
        AddressesStep(all, i, q.newMaster);
        var inst := instances[i];
        assert inst == all[i];
        if inst.uuid == q.newMaster {
          continue;
        }
        var ok;
        ghost var e;
        ok, e := fleet.Exec(Spread, inst.uri, q, number, clock.now);
        es := es + [e];
      }
      assert all[..instances.Length] == all;
    }

    /** Everything a promotion sends: the candidate first, the rest only if it confirms. */
    method PushPromotion(q: Script, candidate: Instance, env: Environment, ghost number: nat)
      returns (ok: bool, ghost es: seq<Event>)
      requires fleet.Valid() && Disciplined(fleet.log)
      modifies fleet
      ensures fleet.Valid() && Disciplined(fleet.log) && fleet.log == old(fleet.log) + es
      ensures PromotionSegment(es, q, candidate.uri, env.atRouters.routers, MemberAddresses(env.atMembers, q.newMaster))
      ensures es != [] && ok == es[0].acked
      ensures forall k :: 0 <= k < |es| ==> es[k].attempt == number && es[k].sent == clock.now
    {
      hide *;
      ghost var lead;
      ok, lead := fleet.Exec(Lead, candidate.uri, q, number, clock.now);
      es := [lead];
      if ok {
        ghost var toRouters := PushToRouters(q, env.atRouters.routers, number);
        var members := env.atMembers.Instances();
        var instances := new Instance[|members|](k requires 0 <= k < |members| => members[k]);
        assert instances[..] == members;
        Sorting.InsertionSort(instances, FailoverLess);
        ghost var toMembers := PushToMembers(q, instances, number);
        MemberAddressesMeans(env.atMembers, q.newMaster);
        SegmentComposes(lead, q, candidate.uri, toRouters, toMembers);
        es := [lead] + (toRouters + toMembers);
      } else {
        SegmentComposes(lead, q, candidate.uri, [], []);
      }
      assert fleet.log == old(fleet.log) + es;
      SegmentKeepsDiscipline(old(fleet.log), es, q, candidate.uri, env.atRouters.routers,
                             MemberAddresses(env.atMembers, q.newMaster));
    }

    /** Elects a candidate, checks its current record and pushes the promotion. */
    method ElectAndPush(analysis: ReplicationAnalysis, env: Environment, ghost number: nat)
      returns (successor: Ident, ok: bool, crashed: bool, ghost e: Election, ghost es: seq<Event>)
      requires fleet.Valid() && Disciplined(fleet.log)
      requires mode == ModeSmart ==> UpstreamsKnown(analysis.rs, opts)
      modifies fleet
      ensures fleet.Valid() && Disciplined(fleet.log) && fleet.log == old(fleet.log) + es
      ensures ElectionOutcome(mode, analysis.rs, opts, e)
      ensures successor == if e.Elected? then IdentOf(env.atLookup.Lookup(e.uuid)) else Ident("", "")
      ensures es != [] <==> Promotable(e, env)
      ensures es != [] ==> IsPromotionOf(es, analysis.rs.uuid, e, env)
      ensures ok <==> es != [] && es[0].acked
      ensures forall k :: 0 <= k < |es| ==> es[k].attempt == number && es[k].sent == clock.now
      ensures crashed <==> e.Elected? && VerdictOn(e.uuid, env) == Crash
    {
      hide Fleet.Valid, Disciplined, PromotionSegment, ElectionOutcome, UpstreamsKnown, ClusterView.Lookup,
        MemberAddresses;
      successor, ok, crashed, es := Ident("", ""), false, false, [];
      var elected := ChooseMaster(mode, analysis.rs, opts);
      e := elected;
      if elected.Elected? {
        var candidate := env.atLookup.Lookup(elected.uuid);
        successor := IdentOf(candidate);
        match ShouldPromoteFollower(candidate)
        case Refuse =>
        case Crash => crashed := true;
        case Promote =>
          ok, es := PushPromotion(Script(analysis.rs.uuid, elected.uuid), candidate, env, number);
      }
    }

    /** A new recovery that expires after `ttl`. */
    method Arm(scope: Scope, failed: Ident, analysis: ReplicationAnalysis, ttl: int)
      returns (recv: Recovery, ghost armed: int)
      modifies clock
      ensures fresh(recv) && !recv.isSuccessful && recv.successor == Ident("", "")
      ensures recv.scope == scope && recv.failed == failed
      ensures recv.rs == analysis.rs.uuid && recv.state == analysis.state
      ensures old(clock.now) <= armed == clock.now
      ensures recv.expiration == Unix(armed + ttl)
      ensures Unix(old(clock.now)) <= recv.startTimestamp <= Unix(clock.now)
    {
      ghost var start := clock.now;
      recv := new Recovery(scope, failed, analysis, clock);
      ghost var created := clock.now;
      armed := recv.ExpireAfter(ttl, clock);
      UnixIsMonotone(start, created);
      UnixIsMonotone(created, clock.now);
    }

    /** What handling one analysis did about a set whose master is dead: unless its key was
        blocked, one attempt is registered, and a promotion is pushed unless the hooks, the
        election or the candidate's record speak against it. */
    ghost predicate PromotionHandled(analysis: ReplicationAnalysis, env: Environment, crashed: bool,
                                     es: seq<Event>, tries: seq<Attempt>, kept: seq<Entry>, start: int)
    {
      && (tries == [] ==>
            && es == []
            && if crashed then PromotionCrashes(analysis, mode, opts, env)
               else Blocked(kept, analysis.rs.uuid, start))
      && (tries != [] ==>
            && !crashed && |tries| == 1 && tries[0].key == analysis.rs.uuid && tries[0].ttl == ttls.ofSet
            && if es != [] then env.hooksPass && PromotionPushed(es, analysis, mode, opts, env)
               else PromotionWithheld(analysis, mode, opts, env))
    }

    /** What it did about a set with co-masters: each inconsistent follower was handled. */
    ghost predicate DemotionHandled(analysis: ReplicationAnalysis, env: Environment, leader: Instance,
                                    es: seq<Event>, tries: seq<Attempt>, kept: seq<Entry>, start: int)
    {
      && (leader == ZERO_INSTANCE || analysis.rs.IsMaster(leader))
      && DemotionPushed(es, analysis.rs, leader)
      && (forall k :: 0 <= k < |tries| ==> tries[k].ttl == ttls.ofInstance)
      && forall f :: f in InconsistentFollowers(analysis.rs, leader) ==>
           Handled(es, tries, analysis.rs, f, kept, start, env)
    }

    /** Promotes a follower of a set whose master is dead. */
    method PromoteFollowerToMaster(analysis: ReplicationAnalysis, env: Environment)
      returns (recvs: seq<Recovery>, crashed: bool, ghost tries: seq<Attempt>, ghost es: seq<Event>)
      requires fleet.Valid() && Disciplined(fleet.log)
      requires mode == ModeSmart ==> UpstreamsKnown(analysis.rs, opts)
      modifies fleet, clock
      ensures fleet.Valid() && Disciplined(fleet.log) && fleet.log == old(fleet.log) + es
      ensures old(clock.now) <= clock.now
      ensures PromotionHandled(analysis, env, crashed, es, tries, old(KeptOf(recoveries)), old(clock.now))
      ensures |recvs| == |tries| <= 1 && DistinctKeys(tries)
      ensures crashed ==> recvs == [] && es == []
      ensures recvs != [] ==>
                && fresh(recvs[0])
                && recvs[0].AsEntry() == tries[0].AsEntry()
                && Permitted(tries[0], old(KeptOf(recoveries)), old(clock.now), clock.now)
                && recvs[0].state == analysis.state
                && recvs[0].scope == ScopeSet && recvs[0].rs == analysis.rs.uuid
                && (analysis.rs.HasMaster() ==> exists m :: analysis.rs.IsMaster(m) && recvs[0].failed == IdentOf(m))
                && (!analysis.rs.HasMaster() ==> recvs[0].failed == Ident("", ""))
                && (recvs[0].isSuccessful <==> es != [] && es[0].acked)
                && (es != [] ==> recvs[0].successor == Ident(es[0].query.newMaster, es[0].target))
                && recvs[0].startTimestamp <= recvs[0].endTimestamp
      ensures Accounted(es, |attempts|, tries, ttls)
      ensures forall k :: 0 <= k < |es| ==> old(clock.now) <= es[k].sent <= clock.now
    {
      hide Fleet.Valid, Disciplined, KeptOf, Blocked, ElectionOutcome, UpstreamsKnown, Unix, ShouldPromoteFollower,
        PromotionPushed, PromotionWithheld, PromotionCrashes, Accounted, VerdictOn;
      NothingAccounts(|attempts|, [], ttls);
      recvs, crashed, tries, es := [], false, [], [];
      var blocked := HasBlockedRecovery(analysis.rs.uuid);
      ghost var started := clock.now;
      if blocked {
        return;
      }
      var master := analysis.rs.Master();
      var failed := if master.Some? then master.value else ZERO_INSTANCE;
      ghost var armed;
      var recv;
      recv, armed := Arm(ScopeSet, IdentOf(failed), analysis, ttls.ofSet);
      ghost var e := NoAliveFollowers;
      if env.hooksPass {
        recv.successor, recv.isSuccessful, crashed, e, es := ElectAndPush(analysis, env, |attempts|);
        PromotionIsJudged(analysis, mode, opts, env, e, es, crashed);
        if crashed {
          return;
        }
      } else {
        HooksWithhold(analysis, mode, opts, env);
      }
      var end := clock.Read();
      recv.endTimestamp := Unix(end);
      UnixIsMonotone(armed, end);
      recvs, tries := [recv], [Attempt(analysis.rs.uuid, started, armed, ttls.ofSet)];
      PromotionAccounts(es, tries[0], |attempts|, ttls, analysis.rs.uuid, e, env);
    }

    /** Makes one co-master a follower, unless it was recovered recently or a hook objects. */
    method DemoteCoMaster(inst: Instance, q: Script, analysis: ReplicationAnalysis, hooksPass: bool, ghost number: nat)
      returns (recvs: seq<Recovery>, ghost tries: seq<Attempt>, ghost es: seq<Event>)
      requires fleet.Valid() && Disciplined(fleet.log)
      requires q == Script(analysis.rs.uuid, analysis.rs.masterUuid)
      modifies fleet, clock
      ensures fleet.Valid() && Disciplined(fleet.log) && fleet.log == old(fleet.log) + es
      ensures old(clock.now) <= clock.now
      ensures recvs == [] ==> es == [] && Blocked(old(KeptOf(recoveries)), inst.uuid, old(clock.now))
      ensures |recvs| == |tries| <= 1
      ensures recvs != [] ==>
                && fresh(recvs[0])
                && recvs[0].AsEntry() == tries[0].AsEntry()
                && tries[0].key == inst.uuid
                && tries[0].ttl == ttls.ofInstance
                && Permitted(tries[0], old(KeptOf(recoveries)), old(clock.now), clock.now)
                && (recvs[0].isSuccessful <==> es != [] && es[0].acked)
                && (es == [] <==> !hooksPass)
                && recvs[0].failed == recvs[0].successor == IdentOf(inst)
                && recvs[0].startTimestamp <= recvs[0].endTimestamp
      ensures |es| <= 1
      ensures es != [] ==> Demotes(es[0], analysis.rs, inst) && old(clock.now) <= es[0].sent <= clock.now
      ensures Accounted(es, number, tries, ttls)
    {
      hide Fleet.Valid, KeptOf, Blocked, Unix;
      recvs, tries, es := [], [], [];
      var blocked := HasBlockedRecovery(inst.uuid);
      ghost var started := clock.now;
      if blocked {
        return;
      }
      var ident := IdentOf(inst);
      ghost var armed;
      var recv;
      recv, armed := Arm(ScopeInstance, ident, analysis, ttls.ofInstance);
      recv.successor := ident;
      if hooksPass {
        ghost var e;
        recv.isSuccessful, e := fleet.Exec(Demote(inst.uuid), inst.uri, q, number, clock.now);
        es := [e];
        DemotionKeepsDiscipline(old(fleet.log), e);
      }
      var end := clock.Read();
      recv.endTimestamp := Unix(end);
      UnixIsMonotone(armed, end);
      recvs, tries := [recv], [Attempt(inst.uuid, started, armed, ttls.ofInstance)];
      OneAttemptAccounts(es, tries[0], number, ttls);
    }

    /** Makes followers of all the co-masters of a set except its leader. */
    method ApplyFollowerRoleToCoMasters(analysis: ReplicationAnalysis, env: Environment)
      returns (recvs: seq<Recovery>, ghost tries: seq<Attempt>, ghost es: seq<Event>, ghost leader: Instance)
      requires fleet.Valid() && Disciplined(fleet.log) && analysis.rs.UniqueUuids()
      modifies fleet, clock
      ensures fleet.Valid() && Disciplined(fleet.log) && fleet.log == old(fleet.log) + es
      ensures old(clock.now) <= clock.now
      ensures DemotionHandled(analysis, env, leader, es, tries, old(KeptOf(recoveries)), old(clock.now))
      ensures |recvs| == |tries|
      ensures forall k :: 0 <= k < |recvs| ==> fresh(recvs[k]) && recvs[k].AsEntry() == tries[k].AsEntry()
      ensures forall k :: 0 <= k < |tries| ==> Permitted(tries[k], old(KeptOf(recoveries)), old(clock.now), clock.now)
      ensures DistinctKeys(tries)
      ensures Accounted(es, |attempts|, tries, ttls)
      ensures forall k :: 0 <= k < |es| ==> old(clock.now) <= es[k].sent <= clock.now
    {
      hide Fleet.Valid, Disciplined, Blocked, KeptOf, Progress, BatchLaws, DistinctUuids, Select, DistinctKeys,
        Permitted, InconsistentFollowers, Accounted, Demotes, ReplicaSet.AllFollowers, Handled, DemotionPushed;
      ghost var start, kept := clock.now, KeptOf(recoveries);
      var q := Script(analysis.rs.uuid, analysis.rs.masterUuid);
      var master := analysis.rs.Master();
      var own := if master.Some? then master.value else ZERO_INSTANCE;
      leader := own;
      var followers := analysis.rs.Followers();
      recvs, tries, es := [], [], [];
      FollowersAreDistinct(analysis.rs);
      NothingDoneYet(analysis.rs, leader, kept, start, env, clock.now, ttls.ofInstance);
      NothingAccounts(|attempts|, [], ttls);
      for k := 0 to |followers|
        invariant fleet.Valid() && Disciplined(fleet.log) && fleet.log == old(fleet.log) + es
        invariant start <= clock.now && KeptOf(recoveries) == kept
        invariant Progress(es, tries, analysis.rs, leader, k, kept, start, env)
        invariant BatchLaws(tries, followers, k, kept, start, clock.now, ttls.ofInstance)
        invariant |recvs| == |tries|
        invariant forall j :: 0 <= j < |recvs| ==> fresh(recvs[j]) && recvs[j].AsEntry() == tries[j].AsEntry()
        invariant Accounted(es, |attempts|, tries, ttls)
        invariant forall j :: 0 <= j < |es| ==> start <= es[j].sent <= clock.now
      {
        var inst := followers[k];
        ghost var at := clock.now;
        var recv;
        ghost var attempt, e := [], [];
        if inst.fingerprint == own.fingerprint {
          recv := [];
          NothingAccounts(|attempts| + |tries|, [], ttls);
        } else {
          recv, attempt, e := DemoteCoMaster(inst, q, analysis, env.coMasterHooksPass(inst.uuid), |attempts| + |tries|);
        }
        ProgressGrows(es, e, tries, attempt, analysis.rs, leader, k, kept, start, at, clock.now, env, |attempts|, ttls);
        BatchGrows(tries, attempt, followers, k, kept, start, at, clock.now, ttls.ofInstance);
        AccountsJoin(es, |attempts|, tries, e, attempt, ttls);
        recvs, tries, es := recvs + recv, tries + attempt, es + e;
      }
      ProgressIsComplete(es, tries, analysis.rs, leader, kept, start, env);
      BatchIsComplete(tries, followers, kept, start, clock.now, ttls.ofInstance);
    }

    /** Registers the recoveries that one analysis led to. */
    method RegisterAll(recvs: seq<Recovery>, ghost tries: seq<Attempt>, ghost start: int)
      requires |recvs| == |tries|
      requires forall k :: 0 <= k < |recvs| ==> recvs[k].AsEntry() == tries[k].AsEntry()
      requires forall k :: 0 <= k < |tries| ==> Permitted(tries[k], KeptOf(recoveries), start, clock.now)
      requires DistinctKeys(tries)
      requires start <= clock.now && Spaced(attempts) && Answers(KeptOf(recoveries), attempts, start)
      modifies this`recoveries, this`attempts
      ensures recoveries == old(recoveries) + recvs && attempts == old(attempts) + tries
      ensures KeptOf(recoveries) == old(KeptOf(recoveries)) + EntriesOf(tries)
      ensures Spaced(attempts) && Answers(KeptOf(recoveries), attempts, clock.now)
    {
      hide Spaced, Answers, Permitted, KeptOf;
      ghost var before := KeptOf(recoveries);
      for k := 0 to |recvs|
        invariant recoveries == old(recoveries) + recvs[..k] && attempts == old(attempts) + tries[..k]
        invariant KeptOf(recoveries) == before + EntriesOf(tries)[..k]
        invariant Spaced(attempts) && Answers(KeptOf(recoveries), attempts, start)
        invariant forall j :: k <= j < |tries| ==> Permitted(tries[j], KeptOf(recoveries), start, clock.now)
      {
        ghost var kept := KeptOf(recoveries);
        RegistryRecovery(recvs[k], tries[k], start);
        assert KeptOf(recoveries) == kept + [tries[k].AsEntry()];
        forall j | k < j < |tries| ensures Permitted(tries[j], KeptOf(recoveries), start, clock.now) {
          RegisteringOthersPermits(kept, tries[k], tries[j], start, clock.now);
        }
      }
      AnswersLater(KeptOf(recoveries), attempts, start, clock.now);
    }

    /** Handles one analysis. A crash ends the process before anything is registered. */
    method CheckAndRecover(analysis: ReplicationAnalysis, env: Environment)
      returns (crashed: bool, ghost es: seq<Event>, ghost tries: seq<Attempt>, ghost leader: Instance)
      requires Valid() && analysis.rs.UniqueUuids()
      requires mode == ModeSmart ==> UpstreamsKnown(analysis.rs, opts)
      modifies this`recoveries, this`attempts, fleet, clock
      ensures Valid()
      ensures old(clock.now) <= clock.now
      ensures fleet.log == old(fleet.log) + es
      ensures fleet.nodes == Replay(old(fleet.nodes), es) && PossibleLog(old(fleet.nodes), es)
      ensures attempts == old(attempts) + tries && old(recoveries) <= recoveries
      ensures KeptOf(recoveries) == old(KeptOf(recoveries)) + EntriesOf(tries)
      ensures crashed ==> es == [] && tries == []
      ensures forall k :: 0 <= k < |tries| ==>
                Permitted(tries[k], old(KeptOf(recoveries)), old(clock.now), clock.now)
      ensures Accounted(es, |old(attempts)|, tries, ttls)
      ensures forall k :: 0 <= k < |es| ==> old(clock.now) <= es[k].sent <= clock.now
      ensures match analysis.state
              case DeadMaster | DeadMasterAndSomeFollowers =>
                PromotionHandled(analysis, env, crashed, es, tries, old(KeptOf(recoveries)), old(clock.now))
              case MasterMasterReplication =>
                !crashed && DemotionHandled(analysis, env, leader, es, tries, old(KeptOf(recoveries)), old(clock.now))
              case _ => !crashed && es == [] && tries == []
    {
      hide Fleet.Valid, Disciplined, Spaced, Answers, KeptOf, Permitted, UpstreamsKnown, Blocked,
        Replay, PossibleLog, Accounted, DemotionHandled, PromotionHandled;
      fleet.NodesReplay();
      crashed, es, tries, leader := false, [], [], ZERO_INSTANCE;
      ghost var start, kept := clock.now, KeptOf(recoveries);
      var recvs := [];
      NothingAccounts(|attempts|, [], ttls);
      match analysis.state {
        case DeadMaster | DeadMasterAndSomeFollowers =>
          recvs, crashed, tries, es := PromoteFollowerToMaster(analysis, env);
        case MasterMasterReplication =>
          recvs, tries, es, leader := ApplyFollowerRoleToCoMasters(analysis, env);
        case _ =>
      }
      assert KeptOf(recoveries) == kept;
      AccountsJoin(old(fleet.log), 0, attempts, es, tries, ttls);
      RegisterAll(recvs, tries, start);
      fleet.SinceReplays(old(fleet.log), es);
    }

    /** Every candidate's record read while handling the input gives its own address. */
    ghost predicate TruthfulInput(input: Input)
      reads fleet
    {
      input.Arrived? ==> Truthful(input.env.atLookup, fleet.initial)
    }

    lemma HandlingGoesHome(analysis: ReplicationAnalysis, env: Environment, crashed: bool, leader: Instance,
                           es: seq<Event>, tries: seq<Attempt>, kept: seq<Entry>, start: int, nodes: NodeMap)
      requires Truthful(env.atLookup, nodes)
      requires match analysis.state
               case DeadMaster | DeadMasterAndSomeFollowers =>
                 PromotionHandled(analysis, env, crashed, es, tries, kept, start)
               case MasterMasterReplication =>
                 DemotionHandled(analysis, env, leader, es, tries, kept, start)
               case _ => es == []
      ensures LeadsGoHome(nodes, es)
    {
      hide PromotionPushed, DemotionPushed, Truthful, IsOwnNode;
      if es != [] {
        match analysis.state
        case DeadMaster | DeadMasterAndSomeFollowers =>
          PromotionGoesHome(es, analysis, mode, opts, env, nodes);
        case _ =>
          DemotionsGoHome(es, analysis.rs, leader, nodes);
      }
    }

    /** What the turn made of its input: a tick drops expired recoveries and nothing else; an
        analysis is handled as its state demands, and what it led to is registered. */
    ghost predicate Handles(input: Input, t: Turn) {
      match input
      case Stop => false
      case CleanupTick =>
        !t.crashed && t.es == [] && t.tries == [] && CleanedUp(t.before, t.after, t.start, t.end)
      case Arrived(analysis, env) =>
        && t.after == t.before + EntriesOf(t.tries)
        && (forall k :: 0 <= k < |t.tries| ==> Permitted(t.tries[k], t.before, t.start, t.end))
        && (forall k :: 0 <= k < |t.es| ==> t.start <= t.es[k].sent <= t.end)
        && if env.readOnly || env.recoveryActive then !t.crashed && t.es == [] && t.tries == []
           else match analysis.state
           case DeadMaster | DeadMasterAndSomeFollowers =>
             PromotionHandled(analysis, env, t.crashed, t.es, t.tries, t.before, t.start)
           case MasterMasterReplication =>
             !t.crashed && DemotionHandled(analysis, env, t.leader, t.es, t.tries, t.before, t.start)
           case _ => !t.crashed && t.es == [] && t.tries == []
    }

    /** One turn of the loop: a tick or an analysis. */
    method Take(input: Input) returns (crashed: bool, ghost t: Turn)
      requires Valid() && Acceptable(input) && !input.Stop?
      modifies this`recoveries, this`attempts, fleet, clock
      ensures Valid()
      ensures Handles(input, t) && crashed == t.crashed
      ensures t.before == old(KeptOf(recoveries)) && t.after == KeptOf(recoveries)
      ensures t.start == old(clock.now) <= t.end == clock.now
      ensures fleet.log == old(fleet.log) + t.es && attempts == old(attempts) + t.tries
      ensures TruthfulInput(input) ==>
                LeadsGoHome(fleet.initial, old(fleet.log)) ==> LeadsGoHome(fleet.initial, fleet.log)
    {
      hide Valid, LeadsGoHome, Truthful, PromotionHandled, DemotionHandled, KeptOf, CleanedUp, Permitted, Accounted,
        Replay, PossibleLog;
      ghost var log, kept, start := fleet.log, KeptOf(recoveries), clock.now;
      match input
      case CleanupTick =>
        Cleanup();
        crashed := false;
        t := Turn(start, clock.now, kept, KeptOf(recoveries), [], [], ZERO_INSTANCE, false);
      case Arrived(analysis, env) =>
        if !ShouldBeAnalysisChecked(env) {
          crashed := false;
          t := Turn(start, clock.now, kept, kept, [], [], ZERO_INSTANCE, false);
          return;
        }
        ghost var es, tries, leader;
        crashed, es, tries, leader := CheckAndRecover(analysis, env);
        t := Turn(start, clock.now, kept, KeptOf(recoveries), es, tries, leader, crashed);
        if Truthful(env.atLookup, fleet.initial) && LeadsGoHome(fleet.initial, log) {
          HandlingGoesHome(analysis, env, crashed, leader, es, tries, kept, start, fleet.initial);
          HomeJoins(fleet.initial, log, es);
        }
    }

    /** The inputs are taken in order, each in its turn, up to the first stop or crash. */
    ghost predicate TakesTurns(inputs: seq<Input>, turns: seq<Turn>, crashed: bool) {
      && |turns| <= |inputs|
      && (forall k :: 0 <= k < |turns| ==> Handles(inputs[k], turns[k]))
      && (forall k :: 0 <= k < |turns| - 1 ==> !turns[k].crashed)
      && (crashed <==> turns != [] && turns[|turns| - 1].crashed)
      && (|turns| < |inputs| ==> crashed || inputs[|turns|].Stop?)
    }

    /** The select loop over an arbitrary stream of ticks and analyses: stale, repeated,
        reordered, or none at all. */
    method Serve(inputs: seq<Input>) returns (crashed: bool, ghost turns: seq<Turn>)
      requires Valid() && forall k :: 0 <= k < |inputs| ==> Acceptable(inputs[k])
      modifies this`recoveries, this`attempts, fleet, clock
      ensures Valid()
      ensures TakesTurns(inputs, turns, crashed)
      ensures Chained(turns, old(KeptOf(recoveries)), old(clock.now), KeptOf(recoveries), clock.now)
      ensures fleet.log == old(fleet.log) + EventsOf(turns)
      ensures attempts == old(attempts) + AttemptsOf(turns)
      ensures (forall k :: 0 <= k < |inputs| ==> TruthfulInput(inputs[k])) ==>
                LeadsGoHome(fleet.initial, old(fleet.log)) ==> LeadsGoHome(fleet.initial, fleet.log)
    {
      hide Valid, LeadsGoHome, Truthful, PromotionHandled, DemotionHandled, KeptOf, Chained, EventsOf, AttemptsOf,
        Handles, CleanedUp, Permitted;
      crashed, turns := false, [];
      NoTurns(KeptOf(recoveries), clock.now);
      for k := 0 to |inputs|
        invariant Valid()
        invariant |turns| == k && !crashed
        invariant forall j :: 0 <= j < k ==> Handles(inputs[j], turns[j]) && !turns[j].crashed
        invariant Chained(turns, old(KeptOf(recoveries)), old(clock.now), KeptOf(recoveries), clock.now)
        invariant fleet.log == old(fleet.log) + EventsOf(turns)
        invariant attempts == old(attempts) + AttemptsOf(turns)
        invariant (forall j :: 0 <= j < k ==> TruthfulInput(inputs[j])) ==>
                    LeadsGoHome(fleet.initial, old(fleet.log)) ==> LeadsGoHome(fleet.initial, fleet.log)
      {
        if inputs[k].Stop? {
          return;
        }
        ghost var t;
        crashed, t := Take(inputs[k]);
        TurnFollows(turns, t, old(KeptOf(recoveries)), old(clock.now));
        turns := turns + [t];
        if crashed {
          return;
        }
      }
    }
    /** In every run, at every step: the network is coherent if it was initially, and every
        master flag is accounted for. */
    lemma EveryRunIsSafe(step: nat, u: Uri, rs: SetUuid, r: InstanceUuid)
      requires Valid() && step <= |fleet.log| && CoherentFleet(fleet.initial) && u in fleet.initial
      ensures CoherentFleet(Replay(fleet.initial, fleet.log[..step]))
      ensures Flagged(Replay(fleet.initial, fleet.log[..step])[u], rs, r) ==>
                || Flagged(fleet.initial[u], rs, r)
                || Offered(fleet.log, step, Script(rs, r), u)
                || Confirmed(fleet.log, step, Script(rs, r))
                || NamedLeader(fleet.log, step, Script(rs, r))
      ensures LeadsGoHome(fleet.initial, fleet.log) ==>
                !IsOwnNode(fleet.initial, u, r) ==>
                Flagged(Replay(fleet.initial, fleet.log[..step])[u], rs, r) ==>
                || Flagged(fleet.initial[u], rs, r)
                || Confirmed(fleet.log, step, Script(rs, r))
                || NamedLeader(fleet.log, step, Script(rs, r))
    {
      hide *;
      EveryStepIsCoherent(fleet.initial, fleet.log[..step]);
      if Flagged(Replay(fleet.initial, fleet.log[..step])[u], rs, r) {
        ValidIsLawful();
        FlagsAreInitialOrConfirmed(fleet.initial, fleet.log, step, u, rs, r);
        if LeadsGoHome(fleet.initial, fleet.log) && !IsOwnNode(fleet.initial, u, r) {
          FlagsElsewhereAreConfirmed(fleet.initial, fleet.log, step, u, rs, r);
        }
      }
    }

    /** In every run, of two promotions of one set, or two demotions of one instance, the
        later was attempted and sent strictly more than the TTL after the earlier was armed. */
    lemma EveryRunIsSpaced(i: nat, j: nat)
      requires Valid() && i < j < |fleet.log|
      requires fleet.log[i].Key() == fleet.log[j].Key() && fleet.log[j].purpose != Spread
      ensures fleet.log[i].attempt < fleet.log[j].attempt < |attempts|
      ensures var earlier, later := attempts[fleet.log[i].attempt], attempts[fleet.log[j].attempt];
              && earlier.armed <= fleet.log[i].sent
              && earlier.armed + TtlOf(fleet.log[i], ttls) < later.started <= later.armed <= fleet.log[j].sent
    {
      ValidIsLawful();
      RecoveriesAreSpaced(fleet.log, attempts, ttls, i, j);
    }

    /** From now on a key is blocked exactly until the second of the deadline of some attempt
        on it is over, whatever was cleaned up. */
    lemma KeyIsBlockedWhile(key: string, t: int)
      requires Valid() && t >= clock.now
      ensures Blocked(KeptOf(recoveries), key, t) <==>
                exists k :: 0 <= k < |attempts| && attempts[k].key == key && t < EndOfBlocking(attempts[k])
    {
      ValidIsLawful();
      BlockedWhile(KeptOf(recoveries), attempts, clock.now, key, t);
    }

    lemma ValidIsLawful()
      requires Valid()
      ensures Disciplined(fleet.log) && Accounted(fleet.log, 0, attempts, ttls)
      ensures Spaced(attempts) && Answers(KeptOf(recoveries), attempts, clock.now)
    {
    }

    /** Analysed sets list each instance once, and the smart elector knows every upstream. */
    ghost predicate Acceptable(input: Input) {
      input.Arrived? ==>
        && input.analysis.rs.UniqueUuids()
        && (mode == ModeSmart ==> UpstreamsKnown(input.analysis.rs, opts))
    }
  }

  /** What was done about the first `k` followers. */
  ghost predicate Progress(es: seq<Event>, tries: seq<Attempt>, rs: ReplicaSet, leader: Instance, k: nat,
                           kept: seq<Entry>, start: int, env: Environment)
    requires k <= |rs.AllFollowers()|
  {
    && DemotionPushed(es, rs, leader)
    && forall i :: 0 <= i < k && rs.AllFollowers()[i].fingerprint != leader.fingerprint ==>
         Handled(es, tries, rs, rs.AllFollowers()[i], kept, start, env)
  }

  /** The attempts made for the first `k` followers. */
  ghost predicate BatchLaws(tries: seq<Attempt>, followers: seq<Instance>, k: nat, kept: seq<Entry>,
                            start: int, now: int, ttl: int)
    requires k <= |followers|
  {
    && (forall j :: 0 <= j < |tries| ==>
          && Permitted(tries[j], kept, start, now)
          && tries[j].ttl == ttl
          && exists i :: 0 <= i < k && followers[i].uuid == tries[j].key)
    && DistinctKeys(tries)
  }

  lemma FollowersAreDistinct(rs: ReplicaSet)
    requires rs.UniqueUuids()
    ensures DistinctUuids(rs.AllFollowers())
  {
    SelectKeepsDistinct(rs.instances, rs.FollowerTest());
  }

  lemma NothingDoneYet(rs: ReplicaSet, leader: Instance, kept: seq<Entry>, start: int, env: Environment,
                       now: int, ttl: int)
    ensures Progress([], [], rs, leader, 0, kept, start, env)
    ensures BatchLaws([], rs.AllFollowers(), 0, kept, start, now, ttl)
  {
  }

  lemma TriedGrows(tries: seq<Attempt>, more: seq<Attempt>, key: string)
    ensures Tried(tries + more, key) <==> Tried(tries, key) || Tried(more, key)
  {
    var all := tries + more;
    if Tried(tries, key) {
      var k :| 0 <= k < |tries| && tries[k].key == key;
      assert all[k].key == key;
    }
    if Tried(more, key) {
      var k :| 0 <= k < |more| && more[k].key == key;
      assert all[|tries| + k].key == key;
    }
  }

  lemma ToldGrows(es: seq<Event>, more: seq<Event>, rs: ReplicaSet, f: Instance)
    ensures Told(es + more, rs, f) <==> Told(es, rs, f) || Told(more, rs, f)
  {
    hide Demotes;
    var all := es + more;
    if Told(es, rs, f) {
      var k :| 0 <= k < |es| && Demotes(es[k], rs, f);
      assert Demotes(all[k], rs, f);
    }
    if Told(more, rs, f) {
      var k :| 0 <= k < |more| && Demotes(more[k], rs, f);
      assert Demotes(all[|es| + k], rs, f);
    }
  }

  /** Who was told was tried. */
  lemma ToldIsTried(es: seq<Event>, base: nat, tries: seq<Attempt>, ttls: Ttls, rs: ReplicaSet, f: Instance)
    requires Accounted(es, base, tries, ttls) && Told(es, rs, f)
    ensures Tried(tries, f.uuid)
  {
    var k :| 0 <= k < |es| && Demotes(es[k], rs, f);
    assert BelongsTo(es[k], tries[es[k].attempt - base], ttls);
  }

  /** The step taken for the follower `f`: nothing if it agrees with the leader or is blocked;
      otherwise an attempt, and a request if the hooks pass. */
  ghost predicate StepFor(f: Instance, e: seq<Event>, more: seq<Attempt>, rs: ReplicaSet, leader: Instance,
                          kept: seq<Entry>, at: int, env: Environment)
  {
    if f.fingerprint == leader.fingerprint then e == [] && more == []
    else if more == [] then e == [] && Blocked(kept, f.uuid, at)
    else
      && |more| == 1 && more[0].key == f.uuid
      && if env.coMasterHooksPass(f.uuid) then |e| == 1 && Demotes(e[0], rs, f) else e == []
  }

  lemma StepHandles(f: Instance, e: seq<Event>, more: seq<Attempt>, rs: ReplicaSet, leader: Instance,
                    kept: seq<Entry>, start: int, at: int, env: Environment)
    requires StepFor(f, e, more, rs, leader, kept, at, env) && start <= at
    ensures f.fingerprint != leader.fingerprint ==> Handled(e, more, rs, f, kept, start, env)
    ensures forall g: Instance :: g.uuid != f.uuid ==> !Tried(more, g.uuid) && !Told(e, rs, g)
  {
    if f.fingerprint != leader.fingerprint {
      if more == [] {
        BlockedEarlier(kept, f.uuid, start, at);
      } else {
        assert more[0].key == f.uuid;
      }
      if e != [] {
        assert Demotes(e[0], rs, f);
      }
    }
  }

  lemma HandledStays(es: seq<Event>, e: seq<Event>, tries: seq<Attempt>, more: seq<Attempt>, rs: ReplicaSet,
                     f: Instance, kept: seq<Entry>, start: int, env: Environment)
    requires (Handled(es, tries, rs, f, kept, start, env) && !Tried(more, f.uuid) && !Told(e, rs, f))
          || (Handled(e, more, rs, f, kept, start, env) && !Tried(tries, f.uuid) && !Told(es, rs, f))
    ensures Handled(es + e, tries + more, rs, f, kept, start, env)
  {
    hide Tried, Told, Blocked;
    TriedGrows(tries, more, f.uuid);
    ToldGrows(es, e, rs, f);
  }

  lemma ProgressGrows(es: seq<Event>, e: seq<Event>, tries: seq<Attempt>, more: seq<Attempt>, rs: ReplicaSet,
                      leader: Instance, k: nat, kept: seq<Entry>, start: int, at: int, now: int, env: Environment,
                      base: nat, ttls: Ttls)
    requires k < |rs.AllFollowers()| && start <= at <= now && DistinctUuids(rs.AllFollowers())
    requires Progress(es, tries, rs, leader, k, kept, start, env)
    requires BatchLaws(tries, rs.AllFollowers(), k, kept, start, at, ttls.ofInstance)
    requires Accounted(es, base, tries, ttls)
    requires StepFor(rs.AllFollowers()[k], e, more, rs, leader, kept, at, env)
    ensures Progress(es + e, tries + more, rs, leader, k + 1, kept, start, env)
  {
    hide Blocked, ReplicaSet.AllFollowers, Handled, Accounted, Permitted, Demotes, Tried, Told;
    var followers := rs.AllFollowers();
    var f := followers[k];
    StepHandles(f, e, more, rs, leader, kept, start, at, env);
    NotTriedYet(tries, followers, k, kept, start, at, ttls.ofInstance);
    if Told(es, rs, f) {
      ToldIsTried(es, base, tries, ttls, rs, f);
    }
    forall i | 0 <= i < k + 1 && followers[i].fingerprint != leader.fingerprint
      ensures Handled(es + e, tries + more, rs, followers[i], kept, start, env)
    {
      HandledStays(es, e, tries, more, rs, followers[i], kept, start, env);
    }
    InconsistentFollower(rs, leader, f);
  }

  lemma NotTriedYet(tries: seq<Attempt>, followers: seq<Instance>, k: nat, kept: seq<Entry>,
                    start: int, now: int, ttl: int)
    requires k < |followers| && DistinctUuids(followers)
    requires BatchLaws(tries, followers, k, kept, start, now, ttl)
    ensures !Tried(tries, followers[k].uuid)
  {
  }

  lemma ProgressIsComplete(es: seq<Event>, tries: seq<Attempt>, rs: ReplicaSet, leader: Instance,
                           kept: seq<Entry>, start: int, env: Environment)
    requires Progress(es, tries, rs, leader, |rs.AllFollowers()|, kept, start, env)
    ensures DemotionPushed(es, rs, leader)
    ensures forall f :: f in InconsistentFollowers(rs, leader) ==> Handled(es, tries, rs, f, kept, start, env)
  {
    hide Handled, ReplicaSet.AllFollowers, DemotionPushed;
    forall f | f in InconsistentFollowers(rs, leader) ensures Handled(es, tries, rs, f, kept, start, env) {
      InconsistentFollower(rs, leader, f);
    }
  }

  lemma BatchGrows(tries: seq<Attempt>, more: seq<Attempt>, followers: seq<Instance>, k: nat,
                   kept: seq<Entry>, start: int, at: int, now: int, ttl: int)
    requires k < |followers| && start <= at <= now && DistinctUuids(followers)
    requires BatchLaws(tries, followers, k, kept, start, at, ttl)
    requires |more| <= 1
    requires more != [] ==>
               more[0].key == followers[k].uuid && more[0].ttl == ttl && Permitted(more[0], kept, at, now)
    ensures BatchLaws(tries + more, followers, k + 1, kept, start, now, ttl)
  {
    hide Blocked;
    if more == [] {
      assert tries + more == tries;
    }
  }

  lemma BatchIsComplete(tries: seq<Attempt>, followers: seq<Instance>, kept: seq<Entry>, start: int, now: int, ttl: int)
    requires BatchLaws(tries, followers, |followers|, kept, start, now, ttl)
    ensures forall k :: 0 <= k < |tries| ==> Permitted(tries[k], kept, start, now) && tries[k].ttl == ttl
    ensures DistinctKeys(tries)
  {
  }

  lemma InconsistentFollower(rs: ReplicaSet, leader: Instance, f: Instance)
    ensures f in InconsistentFollowers(rs, leader) <==> f in rs.AllFollowers() && f.fingerprint != leader.fingerprint
  {
    SelectMembers(rs.AllFollowers(), DiffersFrom(leader));
  }
}
