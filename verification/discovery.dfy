/** Overlapping discoveries: each copies the committed snapshot, works without a lock, and
    commits under a guard, interleaved in any way with updates of the priorities. Instances
    live in arrays that may be shared; the machine of `Worlds` is what comes out of it. */
module Discovery {
  import opened Topology
  import opened Snapshots
  import opened SetComparison
  import opened Worlds
  import Sorting

  /** Polls one instance and writes the outcome in place: a failed poll only marks it
      invalid; a successful one marks it valid and takes over what it reports. */
  method DiscoverInstance(a: array<Instance>, k: nat, reply: Option<InstanceInfo>)
    requires k < a.Length
    modifies a
    ensures var was, now := old(a[k]), a[k];
            && (now.id, now.uuid, now.uri, now.priority) == (was.id, was.uuid, was.uri, was.priority)
            && now.lsnBehindMaster == was.lsnBehindMaster
            && now.upstream == was.upstream && now.downstream == was.downstream
            && (reply.None? ==> now == was.(lastCheckValid := false))
            && (reply.Some? ==>
                  && now.lastCheckValid && now.readonly == reply.value.readonly
                  && now.storage == reply.value.storage && now.fingerprint == reply.value.fingerprint)
    ensures a[..] == old(a[..])[k := Polled(old(a[k]), reply)]
  {
    match reply
    case None =>
      a[k] := a[k].(lastCheckValid := false);
    case Some(info) =>
      a[k] := a[k].(readonly := info.readonly);
      a[k] := a[k].(storage := info.storage);
      a[k] := a[k].(fingerprint := info.fingerprint);
      a[k] := a[k].(lastCheckValid := true);
  }

  /** The answer says whether the found set agrees, as a map, with the committed one. */
  ghost predicate TellsWhetherSame(sets: seq<ReplicaSet>, found: ReplicaSet, asBefore: bool) {
    match FirstSet(sets, found.uuid)
    case None => !asBefore
    case Some(k) =>
      DistinctUuids(sets[k].instances) && DistinctUuids(found.instances) ==> (asBefore <==> SameSets(sets[k], found))
  }

  /** Compares one of the found records with the one of the same UUID in a snapshot. */
  method CompareRecords(s: Snapshot, found: seq<SetRecord>, i: nat,
                        ghost values: seq<ReplicaSet>, ghost foundValues: seq<ReplicaSet>)
    returns (asBefore: bool)
    requires i < |found| && Hold(found, foundValues) && Apart(found)
    requires Hold(s.sets, values) && Apart(s.sets) && ArraysOf(s.sets) !! ArraysOf(found)
    modifies ArraysOf(s.sets), found[i].instances
    ensures Hold(s.sets, CommittedCompared(values, foundValues[i]))
    ensures Hold(found, foundValues[i := FoundCompared(values, foundValues[i])])
    ensures TellsWhetherSame(values, foundValues[i], asBefore)
  {
    hide SameSets, DistinctUuids, ArraysOf, FirstSet;
    var rs := found[i];
    asBefore := false;
    assert rs.instances in ArraysOf(found) && rs.View() == foundValues[i];
    var committed, k := FindSet(s, rs.uuid);
    FirstSetIsAt(values, k, rs.uuid);
    if committed.Some? {
      assert committed.value.View() == values[k];
      asBefore := SameAs(committed.value, rs);
      ghost var now := if Comparable(values[k], foundValues[i]) then InUuidOrder(values[k]) else values[k];
      OneChanged(s.sets, values, k, now);
    }
    OneChanged(found, foundValues, i, FoundCompared(values, foundValues[i]));
  }

  lemma ComparingKeepsName(values: seq<ReplicaSet>, found: ReplicaSet)
    ensures FoundCompared(values, found).uuid == found.uuid
  {
  }

  /** A running discovery: its copy of the snapshot, the sets found so far, and the time
      the new snapshot was put together. */
  class Task {
    var base: Snapshot
    var found: seq<SetRecord>
    var created: Option<int>
    ghost var arrays: Arrays

    constructor (base: Snapshot)
      ensures this.base == base && found == [] && created == None && arrays == ArraysOf(base.sets)
    {
      this.base := base;
      this.found := [];
      this.created := None;
      this.arrays := ArraysOf(base.sets);
    }

    ghost predicate Owns()
      reads this
    {
      ArraysOf(base.sets) <= arrays && ArraysOf(found) <= arrays
    }

    /** The discovery has come as far as `r`. A record of its copy that was fallen back to shares
        its array with what was found; all other records are as they were copied. */
    ghost predicate Shows(r: Run)
      reads this, arrays
    {
      && Owns()
      && r.Running?
      && base.routers == r.routers && created == r.created
      && Hold(found, r.found) && Apart(found)
      && Apart(base.sets) && |base.sets| == |r.base|
      && (forall k :: 0 <= k < |r.base| ==> base.sets[k].uuid == r.base[k].uuid)
      && (forall k :: 0 <= k < |r.base| && !HasSet(r.found, r.base[k].uuid) ==>
            && base.sets[k].instances in arrays
            && base.sets[k].View() == r.base[k]
            && base.sets[k].instances !in ArraysOf(found))
    }

    /** The set's replication could be read: a new topology, the master's address corrected. */
    method FoundTopology(uuid: SetUuid, masterUuid: InstanceUuid, masterUri: Uri, parsed: seq<Instance>, ghost r: Run)
      requires Shows(r) && !HasSet(r.found, uuid)
      modifies this`found, this`arrays
      ensures Shows(r.(found := r.found + [NewSet(uuid, masterUuid, masterUri, parsed)]))
      ensures old(arrays) <= arrays && fresh(arrays - old(arrays))
    {
      hide WithMasterUri, Views, ArraysOf;
      var instances := ParsedTopology(parsed, masterUuid, masterUri);
      var rs := SetRecord(uuid, masterUuid, masterUri, instances);
      ghost var was := found;
      assert Views(found) == r.found;
      found := found + [rs];
      arrays := arrays + {instances};
      FoundMore(was, rs, r);
      ArraysOfAppend(was, rs);
    }

    /** It could not: the topology is taken, array and all, from this task's own copy. */
    method FallBack(uuid: SetUuid, masterUuid: InstanceUuid, masterUri: Uri, ghost r: Run)
      requires Shows(r) && !HasSet(r.found, uuid)
      modifies this`found
      ensures match FirstSet(r.base, uuid)
              case None => found == old(found) && Shows(r)
              case Some(k) =>
                Shows(r.(found := r.found + [r.base[k].(masterUuid := masterUuid, masterUri := masterUri)]))
    {
      hide Views, ArraysOf, HasSet;
      var previous, k := FindSet(base, uuid);
      FirstSetIsAt(r.base, k, uuid);
      if previous.Some? {
        var rs := SetRecord(uuid, masterUuid, masterUri, previous.value.instances);
        ghost var was := found;
        FirstOfItsKind(r, k, uuid);
        found := found + [rs];
        FoundMore(was, rs, r);
        ArraysOfAppend(was, rs);
      }
    }

    /** Polls one instance of a found set. */
    method PollInstance(i: nat, k: nat, reply: Option<InstanceInfo>, ghost r: Run)
      requires Shows(r) && i < |found| && k < found[i].instances.Length
      modifies found[i].instances
      ensures i < |r.found| && k < |r.found[i].instances|
      ensures Shows(r.(found := r.found[i := PollOf(r.found[i], k, reply)]))
    {
      hide HasSet, ArraysOf;
      var a := found[i].instances;
      assert a in ArraysOf(found);
      assert r.found[i] == found[i].View();
      DiscoverInstance(a, k, reply);
      assert a[..] == r.found[i].instances[k := Polled(r.found[i].instances[k], reply)];
      SameSetsFound(r.found, i, PollOf(r.found[i], k, reply));
      OneChanged(found, r.found, i, PollOf(r.found[i], k, reply));
    }

    /** Puts the new snapshot together. */
    method Assemble(at: int, ghost r: Run)
      requires Shows(r)
      modifies this`created
      ensures Shows(r.(created := Some(at)))
    {
      created := Some(at);
    }

    /** The set is among those found. */
    predicate HasFound(uuid: SetUuid)
      reads this
    {
      exists k :: 0 <= k < |found| && found[k].uuid == uuid
    }

    lemma HasFoundMeans(uuid: SetUuid, r: Run)
      requires Shows(r)
      ensures HasFound(uuid) <==> HasSet(r.found, uuid)
    {
      assert forall k :: 0 <= k < |found| ==> Views(found)[k] == found[k].View();
      if HasFound(uuid) {
        var k :| 0 <= k < |found| && found[k].uuid == uuid;
        assert r.found[k].uuid == uuid;
      }
      if HasSet(r.found, uuid) {
        var k :| 0 <= k < |r.found| && r.found[k].uuid == uuid;
        assert found[k].uuid == uuid;
      }
    }

    lemma InRange(i: nat, r: Run)
      requires Shows(r)
      ensures r.Running? && |found| == |r.found|
      ensures i < |found| ==>
                && found[i].instances in arrays && found[i].instances.Length == |r.found[i].instances|
                && found[i].View() == r.found[i]
    {
      if i < |found| {
        ArraysOfHas(found, i);
      }
    }

    /** Performs an action that stays within this discovery; one that is not possible is skipped. */
    method Perform(action: Action, ghost r: Run)
      requires Shows(r)
      modifies this, arrays
      ensures Shows(Progressed(r, action))
      ensures old(arrays) <= arrays && fresh(arrays - old(arrays)) && base == old(base)
    {
      hide Shows, HasFound, HasSet, FirstSet, NewSet, PollOf;
      match action
      case Found(uuid, masterUuid, masterUri, parsed) =>
        HasFoundMeans(uuid, r);
        if !HasFound(uuid) {
          FoundTopology(uuid, masterUuid, masterUri, parsed, r);
        }
      case FellBack(uuid, masterUuid, masterUri) =>
        HasFoundMeans(uuid, r);
        if !HasFound(uuid) {
          FallBack(uuid, masterUuid, masterUri, r);
        }
      case PolledOne(i, k, reply) =>
        InRange(i, r);
        if i < |found| && k < found[i].instances.Length {
          PollInstance(i, k, reply, r);
          PollsDoNotMatter(r.(found := r.found[i := PollOf(r.found[i], k, reply)]), Progressed(r, action));
        }
      case Assembled(at) =>
        Assemble(at, r);
      case _ =>
    }

    lemma PollsDoNotMatter(r: Run, other: Run)
      requires Shows(r) && other.Running? && other == r.(polls := other.polls)
      ensures Shows(other)
    {
    }

    /** Compares a found set with the one of the same UUID in a snapshot. */
    method CompareWith(s: Snapshot, ghost values: seq<ReplicaSet>, i: nat, ghost r: Run) returns (asBefore: bool)
      requires Shows(r) && i < |found| && i < |r.found|
      requires Hold(s.sets, values) && Apart(s.sets) && ArraysOf(s.sets) !! arrays
      modifies ArraysOf(s.sets), found[i].instances
      ensures Hold(s.sets, CommittedCompared(values, r.found[i]))
      ensures Shows(r.(found := r.found[i := FoundCompared(values, r.found[i])]))
      ensures TellsWhetherSame(values, r.found[i], asBefore)
    {
      hide TellsWhetherSame, ArraysOf, HasSet, CommittedCompared, Views;
      ArraysOfHas(found, i);
      asBefore := CompareRecords(s, found, i, values, r.found);
      ComparingKeepsName(values, r.found[i]);
      SameSetsFound(r.found, i, FoundCompared(values, r.found[i]));
    }

    lemma ShowsTheRun(r: Run)
      requires Shows(r)
      ensures r.Running? && created == r.created && base.routers == r.routers && Hold(found, r.found) && Apart(found)
    {
    }

    lemma ShowsMeansOwns(r: Run)
      requires Shows(r)
      ensures Owns() && r.Running?
    {
    }
  }

  /** A discovery over a fresh copy of the snapshot. */
  method NewTask(s: Snapshot, ghost values: seq<ReplicaSet>) returns (t: Task)
    requires Hold(s.sets, values)
    ensures fresh(t) && fresh(t.arrays)
    ensures t.Shows(Running(s.routers, values, [], None, map[]))
  {
    hide ArraysOf, Views, Apart;
    var base := Copy(s);
    t := new Task(base);
    NewTaskShows(t, Running(s.routers, values, [], None, map[]));
  }

  lemma NewTaskShows(t: Task, r: Run)
    requires t.found == [] && t.created == None && t.arrays == ArraysOf(t.base.sets)
    requires r.Running? && r.found == [] && r.created == None && r.routers == t.base.routers
    requires Views(t.base.sets) == r.base && Apart(t.base.sets)
    ensures t.Shows(r)
  {
    assert ArraysOf([]) == {} && Views([]) == [];
    forall k | 0 <= k < |r.base| ensures t.base.sets[k].View() == r.base[k] && t.base.sets[k].instances in t.arrays {
      ArraysOfHas(t.base.sets, k);
    }
  }

  /** Puts priorities in force for all sets of a snapshot. */
  method Prioritize(s: Snapshot, p: Priorities, ghost values: seq<ReplicaSet>) returns (r: Snapshot)
    requires Hold(s.sets, values)
    modifies ArraysOf(s.sets)
    ensures r == s.(priorities := p) && Hold(r.sets, AllPrioritized(values, p))
  {
    hide WithPriority, Prioritized;
    r := UpdatePriorities(s, p);
    forall k | 0 <= k < |s.sets| ensures Views(s.sets)[k] == AllPrioritized(values, p)[k] {
      UpdatedIsPrioritized(s.sets[k].View(), values[k], p);
    }
  }

  class Cluster {
    var snapshot: Snapshot
    var tasks: set<Task>
    ghost var started: seq<Task>
    ghost var world: World
    ghost var repr: set<object>

    /** The committed snapshot and the running discoveries are what `world` says, and no
        running discovery shares an array with the committed snapshot or with another. */
    ghost predicate Valid()
      reads this, repr
    {
      && this in repr && tasks <= repr && ArraysOf(snapshot.sets) <= repr
      && (forall t :: t in tasks ==> t.arrays <= repr)
      && Separate(ArraysOf(snapshot.sets), tasks)
      && Commits(snapshot, world)
      && |started| == |world.runs|
      && (forall i, j :: 0 <= i < j < |started| ==> started[i] != started[j])
      && (forall t :: t in tasks ==> t in started)
      && forall i :: 0 <= i < |started| ==>
           if world.runs[i].Running? then started[i] in tasks && started[i].Shows(world.runs[i])
           else started[i] !in tasks
    }

    static ghost predicate Separate(committed: Arrays, tasks: set<Task>)
      reads tasks
    {
      && (forall t :: t in tasks ==> t.Owns() && t.arrays !! committed)
      && (forall t, u :: t in tasks && u in tasks && t != u ==> t.arrays !! u.arrays)
    }

    /** The snapshot is the committed one of the world. */
    static ghost predicate Commits(s: Snapshot, w: World)
      reads ArraysOf(s.sets)
    {
      && s.created == w.created && s.routers == w.routers && s.priorities == w.priorities
      && Hold(s.sets, w.sets) && Apart(s.sets)
    }

    static lemma SeparateGrows(committed: Arrays, tasks: set<Task>, t: Task)
      requires Separate(committed, tasks)
      requires t.Owns() && t.arrays !! committed && forall u :: u in tasks ==> u.arrays !! t.arrays
      ensures Separate(committed, tasks + {t})
    {
    }

    constructor (created: int, routers: seq<Uri>, priorities: Priorities)
      ensures Valid() && fresh(repr) && started == []
      ensures world == World(created, routers, [], priorities, map[], [])
    {
      snapshot := Snapshot(created, routers, [], priorities);
      tasks := {};
      started := [];
      world := World(created, routers, [], priorities, map[], []);
      repr := {this};
      new;
      assert ArraysOf([]) == {} && Views([]) == [];
    }

    method SetPriorities(p: Priorities)
      requires Valid()
      modifies this`snapshot, this`world, ArraysOf(snapshot.sets)
      ensures Valid() && world == Next(old(world), PrioritiesSet(p))
    {
      hide Task.Shows, Apart, ArraysOf, AllPrioritized, Views, Hold;
      snapshot := Prioritize(snapshot, p, world.sets);
      world := Next(world, PrioritiesSet(p));
    }

    /** Copies the committed snapshot. */
    method Begin() returns (t: Task)
      requires Valid()
      modifies this`tasks, this`started, this`world, this`repr
      ensures Valid() && fresh(repr - old(repr))
      ensures tasks == old(tasks) + {t} && started == old(started) + [t]
      ensures world == Next(old(world), Begun)
    {
      hide Task.Shows, Separate, Apart, ArraysOf, Views, Hold;
      t := NewTask(snapshot, world.sets);
      t.ShowsMeansOwns(Running(snapshot.routers, world.sets, [], None, map[]));
      SeparateGrows(ArraysOf(snapshot.sets), tasks, t);
      tasks := tasks + {t};
      started := started + [t];
      world := Next(world, Begun);
      repr := repr + {t} + t.arrays;
    }

    /** A step of the discovery with the number `n` that stays within that discovery. */
    method Progress(t: Task, ghost n: nat, action: Action)
      requires Valid() && n < |started| && started[n] == t && t in tasks
      requires !action.Logged? && !action.Committed?
      modifies t, t.arrays, this`world, this`repr
      ensures Valid() && fresh(repr - old(repr))
      ensures world == Next(old(world), Goes(n, action))
    {
      hide Task.Shows, Progressed, Next, Hold, Apart, ArraysOf;
      ghost var r := world.runs[n];
      NextProgresses(world, n, action);
      t.Perform(action, r);
      t.ShowsMeansOwns(Progressed(r, action));
      world := Next(world, Goes(n, action));
      repr := repr + t.arrays;
    }

    /** Compares a found set with the committed one of the same UUID, without the lock: the
        one step of a discovery that touches the committed snapshot before the commit. It
        counts as one step; `Races` says what overlapping comparisons of one set would do. */
    method LogDiscovered(t: Task, ghost n: nat, i: nat) returns (asBefore: bool)
      requires Valid() && n < |started| && started[n] == t && t in tasks && i < |t.found|
      modifies ArraysOf(snapshot.sets), t.found[i].instances, this`world
      ensures Valid() && world == Next(old(world), Goes(n, Logged(i)))
      ensures i < |old(world).runs[n].found|
      ensures TellsWhetherSame(old(world).sets, old(world).runs[n].found[i], asBefore)
    {
      hide Task.Shows, Views, ArraysOf, Apart, CommittedCompared, FoundCompared, TellsWhetherSame;
      ghost var r := world.runs[n];
      t.InRange(i, r);
      asBefore := t.CompareWith(snapshot, world.sets, i, r);
      t.ShowsMeansOwns(r.(found := r.found[i := FoundCompared(world.sets, r.found[i])]));
      world := Next(world, Goes(n, Logged(i)));
    }

    /** Ends the discovery: its snapshot replaces the committed one unless that is newer,
        under the priorities in force now rather than those it started from. */
    method Commit(t: Task, ghost n: nat)
      requires Valid() && n < |started| && started[n] == t && t in tasks && t.created.Some?
      modifies this`snapshot, this`tasks, this`world, ArraysOf(t.found)
      ensures Valid() && world == Next(old(world), Goes(n, Committed)) && tasks == old(tasks) - {t}
    {
      hide Task.Shows, Views, ArraysOf, AllPrioritized;
      t.ShowsTheRun(world.runs[n]);
      SeparateShrinks(ArraysOf(snapshot.sets), tasks, t);
      if snapshot.created <= t.created.value {
        var ns := Snapshot(t.created.value, t.base.routers, t.found, map[]);
        snapshot := Prioritize(ns, snapshot.priorities, world.runs[n].found);
      }
      tasks := tasks - {t};
      world := Next(world, Goes(n, Committed));
    }

    static lemma SeparateShrinks(committed: Arrays, tasks: set<Task>, t: Task)
      requires Separate(committed, tasks) && t in tasks
      ensures Separate(committed, tasks - {t}) && Separate(ArraysOf(t.found), tasks - {t})
    {
      assert t.Owns();
    }

    lemma ValidMeans()
      requires Valid()
      ensures this in repr && tasks <= repr && ArraysOf(snapshot.sets) <= repr
      ensures forall t :: t in tasks ==> t.arrays <= repr && ArraysOf(t.found) <= t.arrays
      ensures |started| == |world.runs|
      ensures forall i :: 0 <= i < |started| ==> (world.runs[i].Running? <==> started[i] in tasks)
      ensures forall i :: 0 <= i < |started| && started[i] in tasks ==> started[i].Shows(world.runs[i])
      ensures View() == ClusterView(world.routers, world.sets) && snapshot.created == world.created
      ensures snapshot.priorities == world.priorities
    {
    }

    /** The failover engine's view of the committed snapshot at this moment. */
    ghost function View(): ClusterView
      reads this, ArraysOf(snapshot.sets)
    {
      ClusterView(snapshot.routers, Views(snapshot.sets))
    }

    method Instances() returns (r: seq<Instance>)
      ensures r == View().Instances()
    {
      r := [];
      ghost var views := Views(snapshot.sets);
      for k := 0 to |snapshot.sets|
        invariant r == InstancesOf(views[..k])
      {
        assert views[..k + 1][..k] == views[..k];
        r := r + snapshot.sets[k].instances[..];
      }
      assert views[..|views|] == views;
    }

    method FindInstance(uuid: InstanceUuid) returns (r: Instance)
      ensures r == View().Lookup(uuid)
    {
      hide Views, FirstWithUuid;
      ghost var views := Views(snapshot.sets);
      for i := 0 to |snapshot.sets|
        invariant NoneHas(InstancesOf(views[..i]), uuid)
      {
        var a := snapshot.sets[i].instances;
        assert views[..i + 1][..i] == views[..i];
        for j := 0 to a.Length
          invariant NoneHas(a[..j], uuid)
        {
          if a[j].uuid == uuid {
            FirstWithUuidIsAt(views, i, j, uuid);
            return a[j];
          }
        }
        assert a[..a.Length] == views[i].instances;
      }
      assert views[..|views|] == views;
      FirstWithUuidAt(InstancesOf(views), |InstancesOf(views)|, uuid);
      return ZERO_INSTANCE;
    }
  }

  /** Performs a step of a running discovery; a step that is not possible is skipped. */
  method Advance(c: Cluster, t: Task, n: nat, action: Action)
    requires c.Valid() && n < |c.started| && c.started[n] == t && t in c.tasks
    modifies c.repr
    ensures c.Valid() && fresh(c.repr - old(c.repr)) && c.started == old(c.started)
    ensures c.world == Next(old(c.world), Goes(n, action))
  {
    hide Cluster.Valid, Progressed, Compared, Commit, TellsWhetherSame, Task.Shows;
    c.ValidMeans();
    ghost var r := c.world.runs[n];
    match action
    case Logged(i) =>
      t.InRange(i, r);
      if i < |t.found| {
        ArraysOfHas(t.found, i);
        var asBefore := c.LogDiscovered(t, n, i);
      }
    case Committed =>
      t.ShowsTheRun(r);
      if t.created.Some? {
        c.Commit(t, n);
      } else {
        NothingToCommit(c.world, n);
      }
    case _ =>
      c.Progress(t, n, action);
  }

  lemma NextProgresses(w: World, n: nat, action: Action)
    requires !action.Logged? && !action.Committed?
    requires n < |w.runs| && w.runs[n].Running?
    ensures Next(w, Goes(n, action)) == w.(runs := w.runs[n := Progressed(w.runs[n], action)])
  {
  }

  lemma NothingToCommit(w: World, n: nat)
    requires n < |w.runs| && w.runs[n].Running? && w.runs[n].created == None
    ensures Next(w, Goes(n, Committed)) == w
  {
  }

  /** Any interleaving of any number of discoveries with updates of the priorities amounts to
      the machine over values: no array is shared in a way that shows. */
  method Interleave(c: Cluster, running: seq<Task>, steps: seq<Step>)
    requires c.Valid() && c.started == running
    modifies c.repr
    ensures c.Valid() && c.world == After(old(c.world), steps)
  {
    hide Cluster.Valid, Acted, AllPrioritized, Views;
    var started := running;
    for k := 0 to |steps|
      invariant c.Valid() && fresh(c.repr - old(c.repr)) && c.started == started
      invariant c.world == After(old(c.world), steps[..k])
    {
      AfterStep(old(c.world), steps, k);
      c.ValidMeans();
      match steps[k]
      case Begun =>
        var t := c.Begin();
        started := started + [t];
      case PrioritiesSet(p) =>
        c.SetPriorities(p);
      case Goes(n, action) =>
        if n < |started| && started[n] in c.tasks {
          Advance(c, started[n], n, action);
        }
    }
    assert steps[..|steps|] == steps;
  }

  lemma {:induction false} OneChanged(sets: seq<SetRecord>, values: seq<ReplicaSet>, i: nat, now: ReplicaSet)
    requires i < |sets| == |values| && sets[i].View() == now
    requires forall k :: 0 <= k < |sets| && k != i ==> sets[k].View() == values[k]
    ensures Views(sets) == values[i := now]
  {
    forall k | 0 <= k < |sets| ensures Views(sets)[k] == values[i := now][k] {
    }
  }

  lemma SameSetsFound(found: seq<ReplicaSet>, i: nat, now: ReplicaSet)
    requires i < |found| && now.uuid == found[i].uuid
    ensures forall uuid :: HasSet(found[i := now], uuid) <==> HasSet(found, uuid)
  {
    var after := found[i := now];
    forall uuid ensures HasSet(after, uuid) <==> HasSet(found, uuid) {
      if HasSet(found, uuid) {
        var k :| 0 <= k < |found| && found[k].uuid == uuid;
        assert after[k].uuid == uuid;
      }
    }
  }

  /** The first record of a set that was not found yet is not among those found. */
  lemma FirstOfItsKind(r: Run, k: nat, uuid: SetUuid)
    requires r.Running? && k < |r.base| && r.base[k].uuid == uuid && !HasSet(r.found, uuid)
    ensures !HasSet(r.found, r.base[k].uuid)
  {
  }

  lemma FoundMore(was: seq<SetRecord>, rs: SetRecord, r: Run)
    requires r.Running? && Views(was) == r.found && !HasSet(r.found, rs.uuid)
    ensures Views(was + [rs]) == r.found + [rs.View()]
    ensures forall uuid :: HasSet(r.found + [rs.View()], uuid) <==> HasSet(r.found, uuid) || uuid == rs.uuid
  {
    var sets, all := was + [rs], r.found + [rs.View()];
    forall k | 0 <= k < |sets| ensures Views(sets)[k] == all[k] {
      assert k < |was| ==> sets[k] == was[k] && Views(was)[k] == was[k].View();
    }
    forall uuid ensures HasSet(all, uuid) <==> HasSet(r.found, uuid) || uuid == rs.uuid {
      if HasSet(r.found, uuid) {
        var k :| 0 <= k < |r.found| && r.found[k].uuid == uuid;
        assert all[k].uuid == uuid;
      }
      assert all[|r.found|].uuid == rs.uuid;
    }
  }

  lemma UpdatedIsPrioritized(after: ReplicaSet, before: ReplicaSet, p: Priorities)
    requires after.(instances := before.instances) == before && |after.instances| == |before.instances|
    requires forall k :: 0 <= k < |before.instances| ==> after.instances[k] == WithPriority(before.instances[k], p)
    ensures after == Prioritized(before, p)
  {
    assert after.instances == Prioritized(before, p).instances;
  }
}
