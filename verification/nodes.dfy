/** The cluster nodes and the recovery script that is executed on them. */
module Nodes {
  import opened Topology

  datatype ReplicaCfg = ReplicaCfg(uri: Uri, master: bool)

  type Replicas = map<InstanceUuid, ReplicaCfg>

  /** The sharding section of a vshard configuration. */
  type Sharding = map<SetUuid, Replicas>

  datatype Node =
    | Router(cfg: Sharding)
    | Storage(uuid: InstanceUuid, rs: SetUuid, cfg: Sharding, readOnly: bool)

  /** The recovery script with its two placeholders filled in. */
  datatype Script = Script(rs: SetUuid, newMaster: InstanceUuid)

  function Flagging(replicas: Replicas, newMaster: InstanceUuid): Replicas {
    map u | u in replicas :: replicas[u].(master := u == newMaster)
  }

  /** Runs the script on a node; None when it raises an error because the set is not in
      the configuration, before anything was changed. */
  function Run(n: Node, q: Script): Option<Node> {
    if q.rs !in n.cfg then None
    else
      var cfg := n.cfg[q.rs := Flagging(n.cfg[q.rs], q.newMaster)];
      match n
      case Router(_) => Some(Router(cfg))
      case Storage(uuid, rs, _, readOnly) =>
        Some(Storage(uuid, rs, cfg, if rs == q.rs then uuid != q.newMaster else readOnly))
  }

  function Push(n: Node, q: Script): Node {
    match Run(n, q)
    case Some(m) => m
    case None => n
  }

  predicate Flagged(n: Node, rs: SetUuid, r: InstanceUuid) {
    rs in n.cfg && r in n.cfg[rs] && n.cfg[rs][r].master
  }

  /** At most one master per set, and a storage is writable exactly when its own
      configuration makes it the master of its set. */
  ghost predicate Coherent(n: Node) {
    && (forall rs, a, b :: Flagged(n, rs, a) && Flagged(n, rs, b) ==> a == b)
    && (n.Storage? ==>
          && n.rs in n.cfg
          && n.uuid in n.cfg[n.rs]
          && (!n.readOnly <==> Flagged(n, n.rs, n.uuid)))
  }

  /** The nodes agree on everything but the flags of one set. */
  ghost predicate SameBeyond(n: Node, m: Node, rs: SetUuid) {
    && n.cfg.Keys == m.cfg.Keys
    && (forall other :: other in n.cfg && other != rs ==> n.cfg[other] == m.cfg[other])
    && (rs in n.cfg ==> SameButFlags(n.cfg[rs], m.cfg[rs]))
    && (n.Router? <==> m.Router?)
    && (n.Storage? ==> n.uuid == m.uuid && n.rs == m.rs && (n.rs != rs ==> n.readOnly == m.readOnly))
  }

  lemma PushIsCoherent(n: Node, q: Script)
    requires Coherent(n)
    ensures Coherent(Push(n, q))
  {
    var m := Push(n, q);
    forall rs, a, b | Flagged(m, rs, a) && Flagged(m, rs, b) ensures a == b {
      assert rs != q.rs ==> Flagged(n, rs, a) && Flagged(n, rs, b);
    }
  }

  lemma PushStaysInItsSet(n: Node, q: Script)
    ensures SameBeyond(n, Push(n, q), q.rs)
  {
  }

  /** The script fails exactly on nodes whose configuration lacks the set, and changes
      nothing there. On all others, routers and storages alike, it leaves the new master as
      the only possible master of the set and, on a member of the set, write access to the
      new master alone. */
  lemma PushEffect(n: Node, q: Script)
    ensures Run(n, q).Some? <==> q.rs in n.cfg
    ensures q.rs !in n.cfg ==> Push(n, q) == n
    ensures q.rs in n.cfg ==>
              forall u :: Flagged(Push(n, q), q.rs, u) <==> u in n.cfg[q.rs] && u == q.newMaster
    ensures n.Storage? && n.rs == q.rs && q.rs in n.cfg ==> (Push(n, q).readOnly <==> n.uuid != q.newMaster)
  {
  }

  lemma PushIsIdempotent(n: Node, q: Script)
    ensures Push(Push(n, q), q) == Push(n, q)
  {
    LastPushWins(n, q, q);
  }

  /** Of two pushes to one set only the last is visible. */
  lemma LastPushWins(n: Node, p: Script, q: Script)
    requires p.rs == q.rs
    ensures Push(Push(n, p), q) == Push(n, q)
    ensures Run(Push(n, p), q).Some? <==> Run(n, q).Some?
  {
    if q.rs in n.cfg {
      var once := Flagging(n.cfg[q.rs], p.newMaster);
      assert Flagging(once, q.newMaster) == Flagging(n.cfg[q.rs], q.newMaster);
      assert n.cfg[q.rs := once][q.rs := Flagging(once, q.newMaster)]
          == n.cfg[q.rs := Flagging(n.cfg[q.rs], q.newMaster)];
    }
  }

  /** Pushes to different sets commute. */
  lemma PushesCommute(n: Node, p: Script, q: Script)
    requires p.rs != q.rs
    ensures Push(Push(n, p), q) == Push(Push(n, q), p)
    ensures Run(Push(n, p), q).Some? <==> Run(n, q).Some?
  {
    if p.rs in n.cfg && q.rs in n.cfg {
      var fp, fq := Flagging(n.cfg[p.rs], p.newMaster), Flagging(n.cfg[q.rs], q.newMaster);
      assert n.cfg[p.rs := fp][q.rs := fq] == n.cfg[q.rs := fq][p.rs := fp];
    }
  }

  /** A node on which `q` has been applied and nothing of the set has changed since. */
  ghost predicate Settled(n: Node, q: Script) {
    Run(n, q) == Some(n)
  }

  lemma PushSettles(n: Node, q: Script)
    ensures Run(n, q).Some? <==> Settled(Push(n, q), q)
  {
    PushIsIdempotent(n, q);
    LastPushWins(n, q, q);
  }

  lemma SettledIsFlagged(n: Node, q: Script)
    requires Settled(n, q)
    ensures q.rs in n.cfg && n.cfg[q.rs] == Flagging(n.cfg[q.rs], q.newMaster)
  {
  }

  /** The configurations differ at most in their master flags. */
  ghost predicate SameButFlags(a: Replicas, b: Replicas) {
    a.Keys == b.Keys && forall u :: u in a ==> a[u].uri == b[u].uri
  }

  lemma FlaggingForgetsFlags(a: Replicas, b: Replicas, newMaster: InstanceUuid)
    requires SameButFlags(a, b)
    ensures Flagging(a, newMaster) == Flagging(b, newMaster)
  {
    forall u | u in a ensures Flagging(a, newMaster)[u] == Flagging(b, newMaster)[u] {
    }
  }
}
