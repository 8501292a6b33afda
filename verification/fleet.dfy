/** The fleet of nodes behind their addresses, and query execution with retries. */
module Fleets {
  import opened Topology
  import opened Nodes

  /** Why a script is sent: to the elected candidate itself, to everyone else once the
      candidate has confirmed, or to a co-master that has to step down. */
  datatype Purpose = Lead | Spread | Demote(follower: InstanceUuid)

  datatype ErrorCode = NoConnection | Timeout | OtherError(code: nat)

  /** How one attempt ends; a failed request may have been executed all the same. */
  datatype Fate =
    | CannotConnect
    | ContextDone
    | Answered
    | Failed(executed: bool, code: ErrorCode)

  /** What the network has in store for the two attempts of a request. */
  datatype Fates = Fates(first: Fate, second: Fate)
  {
    /** A second attempt follows exactly a first one that failed on its connection or in time. */
    predicate Retried() {
      first.Failed? && (first.code == NoConnection || first.code == Timeout)
    }

    /** The last attempt that is made is answered. */
    predicate Answers() {
      first.Answered? || (Retried() && second.Answered?)
    }

    /** Some attempt that is made gets the script executed, as far as it can run at all. */
    predicate Executes() {
      || first.Answered? || (first.Failed? && first.executed)
      || (Retried() && (second.Answered? || (second.Failed? && second.executed)))
    }
  }

  /** One execution request: whether the script took effect at the target and whether
      the caller was told so; what the network did to it; the number of the recovery attempt
      it belongs to, counted from the start of the run; and when it was sent. */
  datatype Event = Event(
    purpose: Purpose,
    target: Uri,
    query: Script,
    applied: bool,
    acked: bool,
    fates: Fates,
    attempt: nat,
    sent: int)
  {
    /** What is recovered: the set, or the one instance that has to step down. */
    function Key(): string {
      if purpose.Demote? then purpose.follower else query.rs
    }
  }

  type NodeMap = map<Uri, Node>

  function Deliver(nodes: NodeMap, e: Event): NodeMap {
    if e.applied && e.target in nodes then nodes[e.target := Push(nodes[e.target], e.query)] else nodes
  }

  function Replay(nodes: NodeMap, log: seq<Event>): (r: NodeMap)
    ensures r.Keys == nodes.Keys
  {
    if log == [] then nodes else Deliver(Replay(nodes, log[..|log| - 1]), log[|log| - 1])
  }

  /** The script can run where the request is sent. */
  ghost predicate CanRun(nodes: NodeMap, target: Uri, query: Script) {
    target in nodes && query.rs in nodes[target].cfg
  }

  /** What the network makes of a request: the script took effect exactly if some attempt
      executed it on a node that can run it, and is confirmed exactly if the last attempt
      was answered there. */
  ghost predicate Possible(nodes: NodeMap, e: Event) {
    && (e.acked <==> CanRun(nodes, e.target, e.query) && e.fates.Answers())
    && (e.applied <==> CanRun(nodes, e.target, e.query) && e.fates.Executes())
  }

  ghost predicate PossibleLog(nodes: NodeMap, log: seq<Event>) {
    forall k :: 0 <= k < |log| ==> Possible(Replay(nodes, log[..k]), log[k])
  }

  const MAX_RETRIES := 2

  predicate IsRetryable(code: ErrorCode) {
    code == NoConnection || code == Timeout
  }

  /** The retry loop over one connection: the node ends up either untouched or as after
      exactly one run of the script, and always the latter when success is reported; which
      of these is decided by what the network does to the attempts. */
  method ExecWithRetries(node: Node, query: Script, fates: Fates) returns (now: Node, ok: bool)
    ensures ok <==>
              && query.rs in node.cfg
              && (fates.first.Answered? ||
                  (fates.first.Failed? && fates.first.code in {NoConnection, Timeout} && fates.second.Answered?))
    ensures ok <==> query.rs in node.cfg && fates.Answers()
    ensures now == if query.rs in node.cfg && fates.Executes() then Push(node, query) else node
  {
    now, ok := node, false;
    LastPushWins(node, query, query);
    PushEffect(node, query);
    ghost var applied := false;
    for i := 0 to MAX_RETRIES
      invariant !ok
      invariant now == if applied then Push(node, query) else node
      invariant applied ==> query.rs in node.cfg
      invariant i == 0 ==> !applied
      invariant i > 0 ==> fates.Retried()
      invariant i == 1 ==> (applied <==> query.rs in node.cfg && fates.first.executed)
      invariant i == 2 ==> fates.second.Failed?
      invariant i == 2 ==> (applied <==> query.rs in node.cfg && (fates.first.executed || fates.second.executed))
    {
      var fate := if i == 0 then fates.first else fates.second;
      if fate == CannotConnect || fate == ContextDone {
        return;
      }
      var result := Run(now, query);
      if fate == Answered {
        if result.Some? {
          now, ok := result.value, true;
        }
        return;
      }
      if fate.executed && result.Some? {
        now := result.value;
        applied := true;
      }
      if IsRetryable(fate.code) {
        continue;
      }
      return;
    }
  }

  lemma ReplayStep(nodes: NodeMap, log: seq<Event>, e: Event)
    ensures Replay(nodes, log + [e]) == Deliver(Replay(nodes, log), e)
    ensures PossibleLog(nodes, log) && Possible(Replay(nodes, log), e) ==> PossibleLog(nodes, log + [e])
  {
    var all := log + [e];
    assert all[..|log|] == log;
    assert forall k :: 0 <= k <= |log| ==> all[..k] == log[..k];
  }

  lemma PossibleStep(nodes: NodeMap, front: seq<Event>, e: Event)
    requires PossibleLog(nodes, front + [e])
    ensures PossibleLog(nodes, front)
    ensures Possible(Replay(nodes, front), e)
  {
    var es := front + [e];
    assert forall k :: 0 <= k <= |front| ==> es[..k] == front[..k];
    assert es[..|front|] == front && es[|front|] == e;
    forall k | 0 <= k < |front| ensures Possible(Replay(nodes, front[..k]), front[k]) {
      assert Possible(Replay(nodes, es[..k]), es[k]);
    }
  }

  /** What happened after a point of the log starts from the nodes of that point. */
  lemma {:induction false} SuffixReplays(nodes: NodeMap, log: seq<Event>, es: seq<Event>)
    requires PossibleLog(nodes, log + es)
    ensures Replay(nodes, log + es) == Replay(Replay(nodes, log), es)
    ensures PossibleLog(Replay(nodes, log), es)
  {
    if es == [] {
      assert log + es == log;
    } else {
      hide Replay, Possible, PossibleLog, Deliver;
      var front, e := es[..|es| - 1], es[|es| - 1];
      assert es == front + [e] && log + es == (log + front) + [e];
      PossibleStep(nodes, log + front, e);
      SuffixReplays(nodes, log, front);
      ReplayStep(nodes, log + front, e);
      ReplayStep(Replay(nodes, log), front, e);
    }
  }

  lemma StoringDelivers(nodes: NodeMap, e: Event, now: Node)
    requires e.target in nodes
    requires now == if e.applied then Push(nodes[e.target], e.query) else nodes[e.target]
    ensures nodes[e.target := now] == Deliver(nodes, e)
  {
  }

  class Fleet {
    var nodes: NodeMap
    var sent: nat
    const network: nat -> Fates
    ghost const initial: NodeMap
    ghost var log: seq<Event>

    /** The nodes are what the logged events made of the initial ones, and each event went
        as the network had in store for it. */
    ghost predicate Valid()
      reads this
    {
      && nodes == Replay(initial, log)
      && PossibleLog(initial, log)
      && sent == |log|
      && forall k :: 0 <= k < |log| ==> log[k].fates == network(k)
    }

    constructor (nodes: NodeMap, network: nat -> Fates)
      ensures Valid()
      ensures this.nodes == initial == nodes && this.network == network && log == []
    {
      this.nodes := nodes;
      this.sent := 0;
      this.network := network;
      initial := nodes;
      log := [];
    }

    /** Sends the script to an address and records what became of it. An address without a
        node cannot be connected to. */
    method Exec(ghost purpose: Purpose, target: Uri, query: Script, ghost attempt: nat, ghost at: int)
      returns (ok: bool, ghost e: Event)
      requires Valid()
      modifies this
      ensures Valid()
      ensures log == old(log) + [e] && nodes == Deliver(old(nodes), e)
      ensures e == Event(purpose, target, query, e.applied, ok, network(|old(log)|), attempt, at)
      ensures Possible(old(nodes), e)
    {
      ghost var before, oldLog := nodes, log;
      var fates := network(sent);
      sent := sent + 1;
      ok := false;
      e := Event(purpose, target, query, target in nodes && query.rs in nodes[target].cfg && fates.Executes(),
                 target in nodes && query.rs in nodes[target].cfg && fates.Answers(), fates, attempt, at);
      if target in nodes {
        var now;
        now, ok := ExecWithRetries(nodes[target], query, fates);
        StoringDelivers(nodes, e, now);
        nodes := nodes[target := now];
      }
      ReplayStep(initial, oldLog, e);
      log := oldLog + [e];
    }

    lemma NodesReplay()
      requires Valid()
      ensures nodes == Replay(initial, log)
    {
    }

    lemma SinceReplays(before: seq<Event>, es: seq<Event>)
      requires Valid() && log == before + es
      ensures nodes == Replay(Replay(initial, before), es) && PossibleLog(Replay(initial, before), es)
    {
      SuffixReplays(initial, before, es);
    }
  }
}
