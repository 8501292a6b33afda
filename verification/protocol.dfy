/** Safety of the configuration push over whole runs, whatever becomes of each request. */
module Protocol {
  import opened Topology
  import opened Nodes
  import opened Fleets

  /** The whole network stays coherent through any sequence of pushes. */
  ghost predicate CoherentFleet(nodes: NodeMap) {
    forall u :: u in nodes ==> Coherent(nodes[u])
  }

  lemma {:induction false} EveryStepIsCoherent(nodes: NodeMap, log: seq<Event>)
    requires CoherentFleet(nodes)
    ensures CoherentFleet(Replay(nodes, log))
  {
    if log != [] {
      EveryStepIsCoherent(nodes, log[..|log| - 1]);
      var e := log[|log| - 1];
      var before := Replay(nodes, log[..|log| - 1]);
      if e.target in before {
        PushIsCoherent(before[e.target], e.query);
      }
    }
  }

  /** A master flag that was not there initially was put there by a push that named it. */
  lemma {:induction false} NewFlagHasAuthor(nodes: NodeMap, log: seq<Event>, u: Uri, rs: SetUuid, r: InstanceUuid)
    returns (k: nat)
    requires u in nodes && Flagged(Replay(nodes, log)[u], rs, r)
    ensures !Flagged(nodes[u], rs, r) ==>
              k < |log| && log[k].applied && log[k].target == u && log[k].query == Script(rs, r)
  {
    k := 0;
    if log != [] {
      var front := log[..|log| - 1];
      if Flagged(Replay(nodes, front)[u], rs, r) {
        k := NewFlagHasAuthor(nodes, front, u, rs, r);
      } else {
        k := |log| - 1;
      }
    }
  }

  /** Before request `k` the candidate of `q` confirmed its promotion. */
  ghost predicate Confirmed(log: seq<Event>, k: nat, q: Script)
    requires k <= |log|
  {
    exists j :: 0 <= j < k && log[j].purpose == Lead && log[j].query == q && log[j].acked
  }

  /** Before request `k` the script `q` was sent to `u` as the candidate's own address. */
  ghost predicate Offered(log: seq<Event>, k: nat, q: Script, u: Uri)
    requires k <= |log|
  {
    exists j :: 0 <= j < k && log[j].purpose == Lead && log[j].query == q && log[j].target == u
  }

  /** Before request `k` a co-master recovery named the master of `q` the leader of its set. */
  ghost predicate NamedLeader(log: seq<Event>, k: nat, q: Script)
    requires k <= |log|
  {
    exists j :: 0 <= j < k && log[j].purpose.Demote? && log[j].query == q
  }

  /** Nobody but the candidate hears of a promotion before the candidate confirmed it. */
  ghost predicate Disciplined(log: seq<Event>) {
    forall k :: 0 <= k < |log| && log[k].purpose == Spread ==> Confirmed(log, k, log[k].query)
  }

  lemma ConfirmedStays(log: seq<Event>, k: nat, step: nat, q: Script)
    requires k <= step <= |log| && Confirmed(log, k, q)
    ensures Confirmed(log, step, q)
  {
  }

  lemma AuthorIsAccountable(log: seq<Event>, k: nat, step: nat, u: Uri, q: Script)
    requires Disciplined(log) && k < step <= |log| && log[k].target == u && log[k].query == q
    ensures Offered(log, step, q, u) || Confirmed(log, step, q) || NamedLeader(log, step, q)
  {
    match log[k].purpose {
      case Lead => assert Offered(log, step, q, u);
      case Spread => ConfirmedStays(log, k, step, q);
      case Demote(_) => assert NamedLeader(log, step, q);
    }
  }

  /** At every step of every disciplined run: whoever is flagged master on a node was so
      initially, or the flag is on the address it was offered the promotion at, or it
      confirmed its promotion before, or a co-master recovery named it the leader. */
  lemma FlagsAreInitialOrConfirmed(nodes: NodeMap, log: seq<Event>, step: nat, u: Uri, rs: SetUuid, r: InstanceUuid)
    requires Disciplined(log) && step <= |log|
    requires u in nodes && Flagged(Replay(nodes, log[..step])[u], rs, r)
    ensures
      || Flagged(nodes[u], rs, r)
      || Offered(log, step, Script(rs, r), u)
      || Confirmed(log, step, Script(rs, r))
      || NamedLeader(log, step, Script(rs, r))
  {
    hide *;
    var run := log[..step];
    var k := NewFlagHasAuthor(nodes, run, u, rs, r);
    if !Flagged(nodes[u], rs, r) {
      assert run[k] == log[k];
      AuthorIsAccountable(log, k, step, u, Script(rs, r));
    }
  }

  /** The node at `u` is the storage of the instance `r` itself. */
  ghost predicate IsOwnNode(nodes: NodeMap, u: Uri, r: InstanceUuid) {
    u in nodes && nodes[u].Storage? && nodes[u].uuid == r
  }

  /** Promotions were offered at addresses where, if anything, the candidate itself lives. */
  ghost predicate LeadsGoHome(nodes: NodeMap, log: seq<Event>) {
    forall k :: 0 <= k < |log| && log[k].purpose == Lead && log[k].target in nodes ==>
      IsOwnNode(nodes, log[k].target, log[k].query.newMaster)
  }

  /** After the whole log `u` flags `r`, which is not the instance at `u`, although it did
      not so before and nobody confirmed or named `r`. */
  ghost predicate FlagsStranger(nodes: NodeMap, log: seq<Event>, u: Uri, rs: SetUuid, r: InstanceUuid)
    requires u in nodes
  {
    && !IsOwnNode(nodes, u, r)
    && Flagged(Replay(nodes, log)[u], rs, r)
    && !Flagged(nodes[u], rs, r)
    && !Confirmed(log, |log|, Script(rs, r))
    && !NamedLeader(log, |log|, Script(rs, r))
  }

  /** Then a master flagged on a node other than itself was flagged initially, or confirmed
      its promotion before, or was named the leader by a co-master recovery. */
  lemma FlagsElsewhereAreConfirmed(nodes: NodeMap, log: seq<Event>, step: nat, u: Uri, rs: SetUuid, r: InstanceUuid)
    requires Disciplined(log) && LeadsGoHome(nodes, log) && step <= |log|
    requires u in nodes && Flagged(Replay(nodes, log[..step])[u], rs, r) && !IsOwnNode(nodes, u, r)
    ensures
      || Flagged(nodes[u], rs, r)
      || Confirmed(log, step, Script(rs, r))
      || NamedLeader(log, step, Script(rs, r))
  {
    FlagsAreInitialOrConfirmed(nodes, log, step, u, rs, r);
  }

  /** Without truthful addresses that fails: a promotion that is offered, executed and not
      confirmed leaves a stranger flagged exactly when its address was not the candidate's. */
  lemma OfferFlagsStrangerIff(nodes: NodeMap, e: Event)
    requires e.purpose == Lead && e.applied && !e.acked && Possible(nodes, e)
    requires e.query.newMaster in nodes[e.target].cfg[e.query.rs]
    requires !Flagged(nodes[e.target], e.query.rs, e.query.newMaster)
    ensures FlagsStranger(nodes, [e], e.target, e.query.rs, e.query.newMaster) <==> !LeadsGoHome(nodes, [e])
  {
    ReplayStep(nodes, [], e);
    assert [] + [e] == [e] && [e][0] == e;
    PushEffect(nodes[e.target], e.query);
  }

  /** What a confirmation is worth: the candidate's own node runs with the new
      configuration, names itself the only master and accepts writes. */
  lemma ConfirmedCandidateIsWritable(nodes: NodeMap, e: Event)
    requires Possible(nodes, e) && e.acked
    requires nodes[e.target].Storage? && nodes[e.target].rs == e.query.rs && nodes[e.target].uuid == e.query.newMaster
    requires Coherent(nodes[e.target])
    ensures var n := Deliver(nodes, e)[e.target];
            && !n.readOnly
            && forall r :: Flagged(n, e.query.rs, r) <==> r == e.query.newMaster
  {
    PushEffect(nodes[e.target], e.query);
  }

  /** A node that confirms, router or storage, names nobody but the candidate from then on. */
  lemma ConfirmedNodeNamesCandidate(nodes: NodeMap, e: Event, r: InstanceUuid)
    requires Possible(nodes, e) && e.acked
    ensures e.target in nodes && e.query.rs in nodes[e.target].cfg
    ensures Flagged(Deliver(nodes, e)[e.target], e.query.rs, r) <==>
              r in nodes[e.target].cfg[e.query.rs] && r == e.query.newMaster
  {
    PushEffect(nodes[e.target], e.query);
  }

  function Targets(log: seq<Event>): (r: seq<Uri>)
    ensures |r| == |log|
    ensures forall k :: 0 <= k < |log| ==> r[k] == log[k].target
  {
    seq(|log|, k requires 0 <= k < |log| => log[k].target)
  }

  /** The requests of one promotion: the candidate first; if it confirms, every router and
      then every other member, whatever becomes of each request. */
  ghost predicate PromotionSegment(es: seq<Event>, q: Script, own: Uri, routers: seq<Uri>, members: seq<Uri>) {
    && es != []
    && es[0].purpose == Lead
    && es[0].target == own
    && (forall k :: 0 <= k < |es| ==> es[k].query == q)
    && (forall k :: 0 < k < |es| ==> es[k].purpose == Spread)
    && (if es[0].acked then Targets(es[1..]) == routers + members else |es| == 1)
  }

  lemma SegmentComposes(lead: Event, q: Script, own: Uri, toRouters: seq<Event>, toMembers: seq<Event>)
    requires lead.purpose == Lead && lead.target == own && lead.query == q
    requires forall k :: 0 <= k < |toRouters| ==> toRouters[k].purpose == Spread && toRouters[k].query == q
    requires forall k :: 0 <= k < |toMembers| ==> toMembers[k].purpose == Spread && toMembers[k].query == q
    ensures lead.acked ==>
              PromotionSegment([lead] + (toRouters + toMembers), q, own, Targets(toRouters), Targets(toMembers))
    ensures !lead.acked ==> forall routers, members :: PromotionSegment([lead], q, own, routers, members)
  {
    var es := [lead] + (toRouters + toMembers);
    assert es[1..] == toRouters + toMembers;
    assert Targets(es[1..]) == Targets(toRouters) + Targets(toMembers);
  }

  lemma SegmentKeepsDiscipline(log: seq<Event>, es: seq<Event>, q: Script, own: Uri, routers: seq<Uri>,
                               members: seq<Uri>)
    requires Disciplined(log) && PromotionSegment(es, q, own, routers, members)
    ensures Disciplined(log + es)
  {
    var all := log + es;
    forall k | 0 <= k < |all| && all[k].purpose == Spread ensures Confirmed(all, k, all[k].query) {
      if k < |log| {
        assert Confirmed(log, k, log[k].query);
        var j :| 0 <= j < k && log[j].purpose == Lead && log[j].query == log[k].query && log[j].acked;
        assert all[j] == log[j];
      } else {
        assert all[k] == es[k - |log|] && all[|log|] == es[0];
      }
    }
  }

  lemma DemotionKeepsDiscipline(log: seq<Event>, e: Event)
    requires Disciplined(log) && e.purpose.Demote?
    ensures Disciplined(log + [e])
  {
    var all := log + [e];
    forall k | 0 <= k < |all| && all[k].purpose == Spread ensures Confirmed(all, k, all[k].query) {
      assert Confirmed(log, k, log[k].query);
      var j :| 0 <= j < k && log[j].purpose == Lead && log[j].query == log[k].query && log[j].acked;
      assert all[j] == log[j];
    }
  }

  /** Requests that all carry one script change nothing beyond its set, at any step. */
  lemma {:induction false} OtherSetsUntouched(nodes: NodeMap, es: seq<Event>, q: Script, u: Uri)
    requires forall k :: 0 <= k < |es| ==> es[k].query == q
    requires u in nodes
    ensures SameBeyond(nodes[u], Replay(nodes, es)[u], q.rs)
  {
    if es != [] {
      var front := es[..|es| - 1];
      OtherSetsUntouched(nodes, front, q, u);
      PushStaysInItsSet(Replay(nodes, front)[u], q);
    }
  }

  /** The members of a set that accept writes. */
  ghost function WritableMembers(nodes: NodeMap, rs: SetUuid): set<InstanceUuid> {
    set u | u in nodes && nodes[u].Storage? && nodes[u].rs == rs && !nodes[u].readOnly :: nodes[u].uuid
  }

  ghost predicate Reached(es: seq<Event>, u: Uri) {
    exists k :: 0 <= k < |es| && es[k].applied && es[k].target == u
  }

  lemma ReachedStep(front: seq<Event>, e: Event, u: Uri)
    ensures Reached(front + [e], u) <==> Reached(front, u) || (e.applied && e.target == u)
  {
    var es := front + [e];
    if Reached(front, u) {
      var k :| 0 <= k < |front| && front[k].applied && front[k].target == u;
      assert es[k] == front[k];
    }
    if e.applied && e.target == u {
      assert es[|front|] == e;
    }
  }

  /** A node that was reached is settled for good, a node that was not is as before, and
      nothing beyond the set of the script changes. */
  ghost predicate Outcome(n: Node, after: Node, reached: bool, q: Script) {
    && SameBeyond(n, after, q.rs)
    && (reached ==> Settled(after, q))
    && (!reached ==> after == n)
  }

  lemma {:induction false} EveryNodeHasOutcome(nodes: NodeMap, es: seq<Event>, q: Script, u: Uri)
    requires forall k :: 0 <= k < |es| ==> es[k].query == q
    requires PossibleLog(nodes, es) && u in nodes
    ensures Outcome(nodes[u], Replay(nodes, es)[u], Reached(es, u), q)
  {
    if es != [] {
      var front, e := es[..|es| - 1], es[|es| - 1];
      assert es == front + [e];
      PossibleStep(nodes, front, e);
      ReachedStep(front, e, u);
      EveryNodeHasOutcome(nodes, front, q, u);
      PushSettles(Replay(nodes, front)[u], q);
      PushStaysInItsSet(Replay(nodes, front)[u], q);
    }
  }

  /** At every step the writable members are among the old ones and the new master, and
      those of the other sets are the same. */
  lemma WritersStayWithin(nodes: NodeMap, es: seq<Event>, q: Script)
    requires forall k :: 0 <= k < |es| ==> es[k].query == q
    requires PossibleLog(nodes, es)
    ensures WritableMembers(Replay(nodes, es), q.rs) <= WritableMembers(nodes, q.rs) + {q.newMaster}
    ensures forall rs :: rs != q.rs ==> WritableMembers(Replay(nodes, es), rs) == WritableMembers(nodes, rs)
  {
    var after := Replay(nodes, es);
    forall u | u in nodes ensures Outcome(nodes[u], after[u], Reached(es, u), q) {
      EveryNodeHasOutcome(nodes, es, q, u);
    }
    forall m | m in WritableMembers(after, q.rs) ensures m in WritableMembers(nodes, q.rs) + {q.newMaster} {
      var u :| u in after && after[u].Storage? && after[u].rs == q.rs && !after[u].readOnly && after[u].uuid == m;
      assert Outcome(nodes[u], after[u], Reached(es, u), q);
    }
    forall rs | rs != q.rs ensures WritableMembers(after, rs) == WritableMembers(nodes, rs) {
      OtherWritersSame(nodes, after, q, rs);
    }
  }

  lemma OtherWritersSame(nodes: NodeMap, after: NodeMap, q: Script, rs: SetUuid)
    requires nodes.Keys == after.Keys && rs != q.rs
    requires forall u :: u in nodes ==> SameBeyond(nodes[u], after[u], q.rs)
    ensures WritableMembers(after, rs) == WritableMembers(nodes, rs)
  {
    forall m ensures m in WritableMembers(after, rs) <==> m in WritableMembers(nodes, rs) {
      if m in WritableMembers(after, rs) {
        var u :| u in after && after[u].Storage? && after[u].rs == rs && !after[u].readOnly && after[u].uuid == m;
        assert SameBeyond(nodes[u], after[u], q.rs);
      }
      if m in WritableMembers(nodes, rs) {
        var u :| u in nodes && nodes[u].Storage? && nodes[u].rs == rs && !nodes[u].readOnly && nodes[u].uuid == m;
        assert SameBeyond(nodes[u], after[u], q.rs);
      }
    }
  }

  /** Every member that could rival the new master for writes took the new configuration. */
  ghost predicate RivalsReached(nodes: NodeMap, es: seq<Event>, q: Script) {
    forall u ::
      u in nodes && nodes[u].Storage? && nodes[u].rs == q.rs && !nodes[u].readOnly && nodes[u].uuid != q.newMaster ==>
        Reached(es, u)
  }

  /** After a confirmed promotion the new master is the only writable member exactly when
      every formerly writable rival was reached. */
  lemma SingleWriterIff(nodes: NodeMap, es: seq<Event>, q: Script, own: Uri)
    requires forall k :: 0 <= k < |es| ==> es[k].query == q
    requires PossibleLog(nodes, es) && es != [] && es[0].target == own && es[0].acked
    requires own in nodes && nodes[own].Storage? && nodes[own].rs == q.rs && nodes[own].uuid == q.newMaster
    ensures WritableMembers(Replay(nodes, es), q.rs) == {q.newMaster} <==> RivalsReached(nodes, es, q)
  {
    var after := Replay(nodes, es);
    NewMasterIsWritable(nodes, es, q, own);
    if RivalsReached(nodes, es, q) {
      forall m | m in WritableMembers(after, q.rs) ensures m == q.newMaster {
        var u :| u in after && after[u].Storage? && after[u].rs == q.rs && !after[u].readOnly && after[u].uuid == m;
        EveryNodeHasOutcome(nodes, es, q, u);
      }
    } else {
      var u :| u in nodes && nodes[u].Storage? && nodes[u].rs == q.rs && !nodes[u].readOnly
               && nodes[u].uuid != q.newMaster && !Reached(es, u);
      EveryNodeHasOutcome(nodes, es, q, u);
      assert nodes[u].uuid in WritableMembers(after, q.rs);
    }
  }

  lemma NewMasterIsWritable(nodes: NodeMap, es: seq<Event>, q: Script, own: Uri)
    requires forall k :: 0 <= k < |es| ==> es[k].query == q
    requires PossibleLog(nodes, es) && es != [] && es[0].target == own && es[0].acked
    requires own in nodes && nodes[own].Storage? && nodes[own].rs == q.rs && nodes[own].uuid == q.newMaster
    ensures q.newMaster in WritableMembers(Replay(nodes, es), q.rs)
  {
    AcknowledgedIsReached(nodes, es, 0);
    EveryNodeHasOutcome(nodes, es, q, own);
  }

  lemma AcknowledgedIsReached(nodes: NodeMap, es: seq<Event>, i: nat)
    requires PossibleLog(nodes, es) && i < |es| && es[i].acked
    ensures Reached(es, es[i].target)
  {
    assert Possible(Replay(nodes, es[..i]), es[i]);
  }

  lemma MemberIsReached(nodes: NodeMap, es: seq<Event>, q: Script, own: Uri, routers: seq<Uri>,
                        members: seq<Uri>, u: Uri)
    requires PromotionSegment(es, q, own, routers, members) && PossibleLog(nodes, es)
    requires forall k :: 0 <= k < |es| ==> es[k].acked
    requires u in members
    ensures Reached(es, u)
  {
    var k :| 0 <= k < |members| && members[k] == u;
    var rest := es[1..];
    assert Targets(rest) == routers + members;
    assert rest[|routers| + k].target == u;
    assert rest[|routers| + k] == es[|routers| + k + 1];
    AcknowledgedIsReached(nodes, es, |routers| + k + 1);
  }

  /** In particular when every member of the set has a known address and all requests succeed. */
  lemma AllConfirmedMeansSingleWriter(nodes: NodeMap, es: seq<Event>, q: Script, own: Uri, routers: seq<Uri>,
                                      members: seq<Uri>)
    requires PromotionSegment(es, q, own, routers, members) && PossibleLog(nodes, es)
    requires forall k :: 0 <= k < |es| ==> es[k].acked
    requires own in nodes && nodes[own].Storage? && nodes[own].rs == q.rs && nodes[own].uuid == q.newMaster
    requires forall u :: u in nodes && nodes[u].Storage? && nodes[u].rs == q.rs && u != own ==> u in members
    ensures WritableMembers(Replay(nodes, es), q.rs) == {q.newMaster}
  {
    forall u | u in nodes && nodes[u].Storage? && nodes[u].rs == q.rs && nodes[u].uuid != q.newMaster
      ensures Reached(es, u)
    {
      MemberIsReached(nodes, es, q, own, routers, members, u);
    }
    SingleWriterIff(nodes, es, q, own);
  }
}
