/** Overlapping discoveries as a machine over values: what each step does to the committed
    snapshot and to the discoveries that run, without any sharing. */
module Worlds {
  import opened Topology
  import opened Snapshots
  import opened SetComparison
  import Sorting

  /** What a successful poll of an instance reports. */
  datatype InstanceInfo = InstanceInfo(readonly: bool, fingerprint: int, storage: StorageInfo)

  function Polled(i: Instance, reply: Option<InstanceInfo>): Instance {
    match reply
    case None => i.(lastCheckValid := false)
    case Some(info) =>
      i.(readonly := info.readonly, storage := info.storage, fingerprint := info.fingerprint, lastCheckValid := true)
  }

  /** What a discovery does in one step. */
  datatype Action =
    | Found(uuid: SetUuid, masterUuid: InstanceUuid, masterUri: Uri, parsed: seq<Instance>)
    | FellBack(uuid: SetUuid, masterUuid: InstanceUuid, masterUri: Uri)
    | PolledOne(i: nat, k: nat, reply: Option<InstanceInfo>)
    | Assembled(at: int)
    | Logged(i: nat)
    | Committed

  /** A new discovery begins, the priorities are updated, or a discovery, named by its number,
      goes on. */
  datatype Step = Begun | PrioritiesSet(p: Priorities) | Goes(task: nat, action: Action)

  /** The outcome of the last poll of an instance of a set. */
  type Polls = map<(SetUuid, InstanceUuid), bool>

  /** A discovery: what it copied, what it found so far, when it was put together, and how
      its polls went. */
  datatype Run =
    | Ended
    | Running(routers: seq<Uri>, base: seq<ReplicaSet>, found: seq<ReplicaSet>, created: Option<int>, polls: Polls)

  /** The committed snapshot, the polls it rests on, and all discoveries ever begun. */
  datatype World = World(
    created: int,
    routers: seq<Uri>,
    sets: seq<ReplicaSet>,
    priorities: Priorities,
    polls: Polls,
    runs: seq<Run>)

  /** The position of the first record of a set. */
  function FirstSet(sets: seq<ReplicaSet>, uuid: SetUuid): (r: Option<nat>)
    ensures r.Some? ==> r.value < |sets|
  {
    if sets == [] then None
    else if sets[0].uuid == uuid then Some(0)
    else match FirstSet(sets[1..], uuid)
      case None => None
      case Some(k) => Some(k + 1)
  }

  lemma {:induction false} FirstSetIsAt(sets: seq<ReplicaSet>, k: nat, uuid: SetUuid)
    requires k <= |sets| && forall j :: 0 <= j < k ==> sets[j].uuid != uuid
    requires k < |sets| ==> sets[k].uuid == uuid
    ensures FirstSet(sets, uuid) == if k < |sets| then Some(k) else None
  {
    if k > 0 {
      FirstSetIsAt(sets[1..], k - 1, uuid);
    }
  }

  ghost predicate HasSet(sets: seq<ReplicaSet>, uuid: SetUuid) {
    exists k :: 0 <= k < |sets| && sets[k].uuid == uuid
  }

  function Prioritized(rs: ReplicaSet, p: Priorities): ReplicaSet {
    rs.(instances := seq(|rs.instances|, k requires 0 <= k < |rs.instances| => WithPriority(rs.instances[k], p)))
  }

  function AllPrioritized(sets: seq<ReplicaSet>, p: Priorities): seq<ReplicaSet> {
    seq(|sets|, k requires 0 <= k < |sets| => Prioritized(sets[k], p))
  }

  function InUuidOrder(rs: ReplicaSet): ReplicaSet {
    rs.(instances := Sorting.Sorted(rs.instances, UuidLess))
  }

  function PollOf(rs: ReplicaSet, k: nat, reply: Option<InstanceInfo>): ReplicaSet
    requires k < |rs.instances|
  {
    rs.(instances := rs.instances[k := Polled(rs.instances[k], reply)])
  }

  function NewSet(uuid: SetUuid, masterUuid: InstanceUuid, masterUri: Uri, parsed: seq<Instance>): ReplicaSet {
    ReplicaSet(uuid, masterUuid, masterUri, WithMasterUri(parsed, masterUuid, masterUri))
  }

  /** The found set is compared with a committed one of the same master and size. */
  predicate IsCompared(sets: seq<ReplicaSet>, found: ReplicaSet) {
    match FirstSet(sets, found.uuid)
    case None => false
    case Some(k) => Comparable(sets[k], found)
  }

  /** Comparing the found set with the committed one puts both in the order of their UUIDs. */
  function CommittedCompared(sets: seq<ReplicaSet>, found: ReplicaSet): seq<ReplicaSet> {
    match FirstSet(sets, found.uuid)
    case None => sets
    case Some(k) => if Comparable(sets[k], found) then sets[k := InUuidOrder(sets[k])] else sets
  }

  function FoundCompared(sets: seq<ReplicaSet>, found: ReplicaSet): ReplicaSet {
    if IsCompared(sets, found) then InUuidOrder(found) else found
  }

  function Compared(w: World, n: nat, i: nat): World
    requires n < |w.runs| && w.runs[n].Running? && i < |w.runs[n].found|
  {
    var r := w.runs[n];
    w.(sets := CommittedCompared(w.sets, r.found[i]),
       runs := w.runs[n := r.(found := r.found[i := FoundCompared(w.sets, r.found[i])])])
  }

  /** The new snapshot replaces the committed one unless that is newer. */
  function Commit(w: World, n: nat): World
    requires n < |w.runs| && w.runs[n].Running?
  {
    var r := w.runs[n];
    match r.created
    case None => w
    case Some(at) =>
      if w.created <= at then
        World(at, r.routers, AllPrioritized(r.found, w.priorities), w.priorities, r.polls, w.runs[n := Ended])
      else w.(runs := w.runs[n := Ended])
  }

  /** What an action of a running discovery does to its findings; a set is found once. */
  ghost function Progressed(r: Run, action: Action): Run
    requires r.Running?
  {
    match action
    case Found(uuid, masterUuid, masterUri, parsed) =>
      if HasSet(r.found, uuid) then r else r.(found := r.found + [NewSet(uuid, masterUuid, masterUri, parsed)])
    case FellBack(uuid, masterUuid, masterUri) =>
      if HasSet(r.found, uuid) || FirstSet(r.base, uuid).None? then r
      else
        var previous := r.base[FirstSet(r.base, uuid).value];
        r.(found := r.found + [previous.(masterUuid := masterUuid, masterUri := masterUri)])
    case PolledOne(i, k, reply) =>
      if i < |r.found| && k < |r.found[i].instances| then
        r.(found := r.found[i := PollOf(r.found[i], k, reply)],
           polls := r.polls[(r.found[i].uuid, r.found[i].instances[k].uuid) := reply.Some?])
      else r
    case Assembled(at) => r.(created := Some(at))
    case _ => r
  }

  ghost function Acted(w: World, n: nat, action: Action): World
    requires n < |w.runs| && w.runs[n].Running?
  {
    match action
    case Logged(i) => if i < |w.runs[n].found| then Compared(w, n, i) else w
    case Committed => Commit(w, n)
    case _ => w.(runs := w.runs[n := Progressed(w.runs[n], action)])
  }

  ghost function Next(w: World, step: Step): World {
    match step
    case Begun => w.(runs := w.runs + [Running(w.routers, w.sets, [], None, map[])])
    case PrioritiesSet(p) => w.(priorities := p, sets := AllPrioritized(w.sets, p))
    case Goes(n, action) => if n < |w.runs| && w.runs[n].Running? then Acted(w, n, action) else w
  }

  ghost function After(w: World, steps: seq<Step>): World {
    if steps == [] then w else Next(After(w, steps[..|steps| - 1]), steps[|steps| - 1])
  }

  lemma AfterStep(w: World, steps: seq<Step>, k: nat)
    requires k < |steps|
    ensures After(w, steps[..k + 1]) == Next(After(w, steps[..k]), steps[k])
  {
    assert steps[..k + 1][..k] == steps[..k];
  }

  /** What the steps of one discovery do to another: nothing. */
  lemma RunsDoNotInterfere(w: World, step: Step, n: nat)
    requires n < |w.runs| && (step.Goes? ==> step.task != n)
    ensures n < |Next(w, step).runs| && Next(w, step).runs[n] == w.runs[n]
  {
  }

  /** A discovery that was put together no earlier than the committed snapshot replaces it: the
      same routers it started from, and what it found under the priorities in force. */
  lemma CommitReplacesIff(w: World, n: nat, at: int)
    requires n < |w.runs| && w.runs[n].Running? && w.runs[n].created == Some(at)
    ensures var r, next := w.runs[n], Next(w, Goes(n, Committed));
            if at < w.created then next == w.(runs := next.runs)
            else
              && next.created == at && next.routers == r.routers && next.priorities == w.priorities
              && |next.sets| == |r.found|
              && forall j :: 0 <= j < |r.found| ==>
                   && next.sets[j].(instances := r.found[j].instances) == r.found[j]
                   && |next.sets[j].instances| == |r.found[j].instances|
                   && forall k :: 0 <= k < |r.found[j].instances| ==>
                        next.sets[j].instances[k].(priority := r.found[j].instances[k].priority)
                          == r.found[j].instances[k]
  {
  }

  /** A set whose replication cannot be read right after the beginning is taken from the
      snapshot that was committed then, with the master the router names now. */
  lemma FallBackTakesTheCommittedSet(w: World, k: nat, masterUuid: InstanceUuid, masterUri: Uri)
    requires k < |w.sets| && forall j :: 0 <= j < k ==> w.sets[j].uuid != w.sets[k].uuid
    ensures var n, step := |w.runs|, Goes(|w.runs|, FellBack(w.sets[k].uuid, masterUuid, masterUri));
            var run := Next(Next(w, Begun), step).runs[n];
            run.Running? && run.found == [ReplicaSet(w.sets[k].uuid, masterUuid, masterUri, w.sets[k].instances)]
  {
    FirstSetIsAt(w.sets, k, w.sets[k].uuid);
  }

  /** The creation time of the committed snapshot never decreases. */
  lemma {:induction false} CreatedNeverDecreases(w: World, steps: seq<Step>)
    ensures w.created <= After(w, steps).created
  {
    if steps != [] {
      CreatedNeverDecreases(w, steps[..|steps| - 1]);
    }
  }

  /** Every committed instance has its entry in the priorities in force, or 0. */
  ghost predicate PrioritiesHold(w: World) {
    forall j :: 0 <= j < |w.sets| ==> forall i :: i in w.sets[j].instances ==>
      i.priority == if i.uuid in w.priorities then w.priorities[i.uuid] else 0
  }

  function LastPriorities(steps: seq<Step>, initial: Priorities): Priorities {
    if steps == [] then initial
    else if steps[|steps| - 1].PrioritiesSet? then steps[|steps| - 1].p
    else LastPriorities(steps[..|steps| - 1], initial)
  }

  /** The priorities in force are the last ones set, for every committed instance. */
  lemma {:induction false} PrioritiesAreTheLastSet(w: World, steps: seq<Step>)
    requires PrioritiesHold(w)
    ensures After(w, steps).priorities == LastPriorities(steps, w.priorities)
    ensures PrioritiesHold(After(w, steps))
  {
    if steps != [] {
      var before := After(w, steps[..|steps| - 1]);
      PrioritiesAreTheLastSet(w, steps[..|steps| - 1]);
      PrioritiesStay(before, steps[|steps| - 1]);
    }
  }

  lemma PrioritizedHas(rs: ReplicaSet, p: Priorities)
    ensures forall i :: i in Prioritized(rs, p).instances ==> i.priority == if i.uuid in p then p[i.uuid] else 0
  {
  }

  lemma OrderedHasSame(rs: ReplicaSet)
    ensures multiset(InUuidOrder(rs).instances) == multiset(rs.instances)
    ensures forall i :: i in InUuidOrder(rs).instances <==> i in rs.instances
  {
    Sorting.SortedPermutes(rs.instances, UuidLess);
    Sorting.SameElements(InUuidOrder(rs).instances, rs.instances);
  }

  lemma PrioritiesStay(w: World, step: Step)
    requires PrioritiesHold(w)
    ensures PrioritiesHold(Next(w, step))
  {
    hide InUuidOrder, Prioritized, Progressed;
    var next := Next(w, step);
    forall j | 0 <= j < |next.sets|
      ensures forall i :: i in next.sets[j].instances ==>
                i.priority == if i.uuid in next.priorities then next.priorities[i.uuid] else 0
    {
      if j < |w.sets| {
        OrderedHasSame(w.sets[j]);
        PrioritizedHas(w.sets[j], next.priorities);
      }
      if step.Goes? && step.task < |w.runs| && w.runs[step.task].Running? && j < |w.runs[step.task].found| {
        PrioritizedHas(w.runs[step.task].found[j], next.priorities);
      }
    }
  }

  /** Until its commit a discovery changes the committed sets in the order of instances only. */
  ghost predicate SameUpToOrder(before: seq<ReplicaSet>, after: seq<ReplicaSet>) {
    && |before| == |after|
    && forall k :: 0 <= k < |before| ==>
         && before[k].(instances := after[k].instances) == after[k]
         && multiset(before[k].instances) == multiset(after[k].instances)
  }

  lemma OnlyCommitsChangeSets(w: World, step: Step)
    requires !step.PrioritiesSet? && (step.Goes? ==> step.action != Committed)
    ensures SameUpToOrder(w.sets, Next(w, step).sets)
  {
    hide InUuidOrder, Progressed;
    forall k | 0 <= k < |w.sets|
      ensures multiset(InUuidOrder(w.sets[k]).instances) == multiset(w.sets[k].instances)
      ensures w.sets[k].(instances := InUuidOrder(w.sets[k]).instances) == InUuidOrder(w.sets[k])
    {
      OrderedHasSame(w.sets[k]);
      OrderKeepsHeader(w.sets[k]);
    }
  }

  lemma OrderKeepsHeader(rs: ReplicaSet)
    ensures InUuidOrder(rs) == rs.(instances := InUuidOrder(rs).instances)
  {
  }

  /** An instance that was polled is valid exactly if its last poll succeeded. */
  ghost predicate SetShowsPolls(rs: ReplicaSet, polls: Polls) {
    DistinctUuids(rs.instances) ==>
      forall i :: i in rs.instances && (rs.uuid, i.uuid) in polls ==> (i.lastCheckValid <==> polls[(rs.uuid, i.uuid)])
  }

  ghost predicate ShowPolls(sets: seq<ReplicaSet>, polls: Polls) {
    && (forall j :: 0 <= j < |sets| ==> SetShowsPolls(sets[j], polls))
    && (forall j, k :: 0 <= j < k < |sets| ==> sets[j].uuid != sets[k].uuid)
  }

  /** Polls are remembered for sets that were found only. */
  ghost predicate RunShowsPolls(r: Run) {
    r.Running? ==>
      && ShowPolls(r.found, r.polls)
      && forall key :: key in r.polls ==> HasSet(r.found, key.0)
  }

  ghost predicate PollsHold(w: World) {
    ShowPolls(w.sets, w.polls) && forall n :: 0 <= n < |w.runs| ==> RunShowsPolls(w.runs[n])
  }

  lemma PollShows(rs: ReplicaSet, k: nat, reply: Option<InstanceInfo>, polls: Polls)
    requires k < |rs.instances| && SetShowsPolls(rs, polls)
    ensures SetShowsPolls(PollOf(rs, k, reply), polls[(rs.uuid, rs.instances[k].uuid) := reply.Some?])
  {
    var after := PollOf(rs, k, reply);
    if DistinctUuids(after.instances) {
      assert forall j :: 0 <= j < |rs.instances| ==> after.instances[j].uuid == rs.instances[j].uuid;
      assert forall j :: 0 <= j < |rs.instances| ==> rs.instances[j] in rs.instances;
    }
  }

  lemma ReorderShows(rs: ReplicaSet, polls: Polls)
    requires SetShowsPolls(rs, polls)
    ensures SetShowsPolls(InUuidOrder(rs), polls)
  {
    OrderedHasSame(rs);
    if DistinctUuids(InUuidOrder(rs).instances) {
      ReorderedIsDistinct(InUuidOrder(rs).instances, rs.instances);
    }
  }

  lemma PrioritizedShows(rs: ReplicaSet, p: Priorities, polls: Polls)
    requires SetShowsPolls(rs, polls)
    ensures SetShowsPolls(Prioritized(rs, p), polls)
  {
    var after := Prioritized(rs, p);
    assert forall j :: 0 <= j < |rs.instances| ==>
      after.instances[j] == WithPriority(rs.instances[j], p) && rs.instances[j] in rs.instances;
  }

  lemma AllPrioritizedShow(sets: seq<ReplicaSet>, p: Priorities, polls: Polls)
    requires ShowPolls(sets, polls)
    ensures ShowPolls(AllPrioritized(sets, p), polls)
  {
    hide SetShowsPolls;
    forall j | 0 <= j < |sets| ensures SetShowsPolls(AllPrioritized(sets, p)[j], polls) {
      PrioritizedShows(sets[j], p, polls);
    }
  }

  lemma OtherSetStillShows(rs: ReplicaSet, polls: Polls, key: (SetUuid, InstanceUuid), outcome: bool)
    requires SetShowsPolls(rs, polls) && rs.uuid != key.0
    ensures SetShowsPolls(rs, polls[key := outcome])
  {
  }

  /** A set that is found has no polls yet. */
  lemma NewSetShows(r: Run, rs: ReplicaSet)
    requires r.Running? && RunShowsPolls(r) && !HasSet(r.found, rs.uuid)
    ensures RunShowsPolls(r.(found := r.found + [rs]))
  {
    hide DistinctUuids;
    var after := r.found + [rs];
    assert SetShowsPolls(rs, r.polls);
    forall key | key in r.polls ensures HasSet(after, key.0) {
      var k :| 0 <= k < |r.found| && r.found[k].uuid == key.0;
      assert after[k] == r.found[k];
    }
  }

  lemma ProgressShows(r: Run, action: Action)
    requires r.Running? && RunShowsPolls(r)
    ensures RunShowsPolls(Progressed(r, action))
  {
    hide SetShowsPolls, PollOf, NewSet, FirstSet;
    match action
    case Found(uuid, masterUuid, masterUri, parsed) =>
      if !HasSet(r.found, uuid) {
        NewSetIsNamed(uuid, masterUuid, masterUri, parsed);
        NewSetShows(r, NewSet(uuid, masterUuid, masterUri, parsed));
      }
    case FellBack(uuid, masterUuid, masterUri) =>
      if !HasSet(r.found, uuid) && FirstSet(r.base, uuid).Some? {
        FirstSetIsNamed(r.base, uuid);
        NewSetShows(r, r.base[FirstSet(r.base, uuid).value].(masterUuid := masterUuid, masterUri := masterUri));
      }
    case PolledOne(i, k, reply) =>
      if i < |r.found| && k < |r.found[i].instances| {
        PollingShows(r, action);
      }
    case _ =>
  }

  lemma NewSetIsNamed(uuid: SetUuid, masterUuid: InstanceUuid, masterUri: Uri, parsed: seq<Instance>)
    ensures NewSet(uuid, masterUuid, masterUri, parsed).uuid == uuid
  {
  }

  lemma {:induction false} FirstSetIsNamed(sets: seq<ReplicaSet>, uuid: SetUuid)
    ensures match FirstSet(sets, uuid)
            case None => forall k :: 0 <= k < |sets| ==> sets[k].uuid != uuid
            case Some(k) => sets[k].uuid == uuid && forall j :: 0 <= j < k ==> sets[j].uuid != uuid
  {
    if sets != [] && sets[0].uuid != uuid {
      FirstSetIsNamed(sets[1..], uuid);
    }
  }

  lemma PollingShows(r: Run, poll: Action)
    requires r.Running? && RunShowsPolls(r) && poll.PolledOne?
    requires poll.i < |r.found| && poll.k < |r.found[poll.i].instances|
    ensures RunShowsPolls(Progressed(r, poll))
  {
    hide SetShowsPolls;
    var i := poll.i;
    var key := (r.found[i].uuid, r.found[i].instances[poll.k].uuid);
    var after := Progressed(r, poll);
    PollShows(r.found[i], poll.k, poll.reply, r.polls);
    forall j | 0 <= j < |after.found| && j != i ensures SetShowsPolls(after.found[j], after.polls) {
      assert r.found[j].uuid != r.found[i].uuid;
      OtherSetStillShows(r.found[j], r.polls, key, poll.reply.Some?);
    }
    forall other | other in after.polls ensures HasSet(after.found, other.0) {
      if other != key {
        var k :| 0 <= k < |r.found| && r.found[k].uuid == other.0;
        assert after.found[k].uuid == other.0;
      } else {
        assert after.found[i].uuid == other.0;
      }
    }
  }

  lemma ReorderOneShows(sets: seq<ReplicaSet>, k: nat, polls: Polls)
    requires k < |sets| && ShowPolls(sets, polls)
    ensures ShowPolls(sets[k := InUuidOrder(sets[k])], polls)
    ensures forall uuid :: HasSet(sets, uuid) ==> HasSet(sets[k := InUuidOrder(sets[k])], uuid)
  {
    hide SetShowsPolls;
    var after := sets[k := InUuidOrder(sets[k])];
    ReorderShows(sets[k], polls);
    forall uuid | HasSet(sets, uuid) ensures HasSet(after, uuid) {
      var j :| 0 <= j < |sets| && sets[j].uuid == uuid;
      assert after[j].uuid == uuid;
    }
  }

  lemma ActionKeepsPolls(w: World, n: nat, action: Action)
    requires PollsHold(w) && n < |w.runs| && w.runs[n].Running?
    ensures PollsHold(Acted(w, n, action))
  {
    hide ShowPolls, Progressed, InUuidOrder, HasSet;
    var r := w.runs[n];
    assert RunShowsPolls(r);
    match action
    case Logged(i) =>
      if i < |r.found| {
        assert r.found[i := r.found[i]] == r.found;
        ReorderOneShows(r.found, i, r.polls);
        if FirstSet(w.sets, r.found[i].uuid).Some? {
          ReorderOneShows(w.sets, FirstSet(w.sets, r.found[i].uuid).value, w.polls);
        }
      }
    case Committed =>
      AllPrioritizedShow(r.found, w.priorities, r.polls);
    case _ =>
      ProgressShows(r, action);
  }

  lemma StepKeepsPolls(w: World, step: Step)
    requires PollsHold(w)
    ensures PollsHold(Next(w, step))
  {
    hide ShowPolls, Acted;
    match step
    case Begun =>
      NothingShows();
    case PrioritiesSet(p) =>
      AllPrioritizedShow(w.sets, p, w.polls);
    case Goes(n, action) =>
      if n < |w.runs| && w.runs[n].Running? {
        ActionKeepsPolls(w, n, action);
      }
  }

  lemma NothingShows()
    ensures ShowPolls([], map[])
  {
  }

  /** After any interleaving a committed instance that was polled by the discovery that
      committed it is valid exactly if the last of these polls succeeded. */
  lemma {:induction false} ValidityIsTheLastPoll(w: World, steps: seq<Step>)
    requires PollsHold(w)
    ensures PollsHold(After(w, steps))
  {
    if steps != [] {
      ValidityIsTheLastPoll(w, steps[..|steps| - 1]);
      StepKeepsPolls(After(w, steps[..|steps| - 1]), steps[|steps| - 1]);
    }
  }
}
