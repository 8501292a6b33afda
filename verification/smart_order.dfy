/** When the smart comparison is an order, and what election guarantees when it is not. */
module SmartOrdering {
  import opened Topology
  import opened Quorum
  import opened Sorting

  /** The two leading criteria: configuration equal to the master's, then upstream follow. */
  function Tier(master: Instance, f: Instance): nat {
    (if f.fingerprint == master.fingerprint then 0 else 2)
    + (if Follows(f) then 0 else 1)
  }

  /** The criteria that decide between followers of one tier and one LSN lag. */
  predicate RankLess(l: Instance, r: Instance) {
    if l.priority != r.priority && InDelta(l.Idle(), r.Idle(), IDLE_DIFF_DELTA) then l.priority > r.priority
    else l.Idle() < r.Idle()
  }

  predicate LagLess(a: int, b: int) {
    if a > 0 && b < 0 then true else if a < 0 && b > 0 then false else a < b
  }

  lemma SmartLessIsLexicographic(master: Instance, l: Instance, r: Instance)
    ensures SmartLess(master, l, r) <==>
              || Tier(master, l) < Tier(master, r)
              || (Tier(master, l) == Tier(master, r) &&
                  if l.lsnBehindMaster != r.lsnBehindMaster then LagLess(l.lsnBehindMaster, r.lsnBehindMaster)
                  else RankLess(l, r))
  {
  }

  lemma SmartLessIsAsymmetric(master: Instance, s: seq<Instance>)
    ensures AsymmetricOn(s, SmartOrder(master))
    ensures forall f :: f in s ==> !SmartOrder(master)(f, f)
  {
    forall l, r | l in s && r in s && SmartLess(master, l, r) ensures !SmartLess(master, r, l) {
      SmartLessIsLexicographic(master, l, r);
      SmartLessIsLexicographic(master, r, l);
    }
  }

  /** Adjacent order already makes the tiers monotone, although the comparison need not be transitive. */
  lemma {:induction false} TiersAscend(master: Instance, s: seq<Instance>, k: nat)
    requires AdjacentOrdered(s, SmartOrder(master)) && k < |s|
    ensures Tier(master, s[0]) <= Tier(master, s[k])
  {
    if k > 0 {
      TiersAscend(master, s, k - 1);
      assert !SmartOrder(master)(s[k], s[k - 1]);
      SmartLessIsLexicographic(master, s[k], s[k - 1]);
    }
  }

  /** Sorting leaves the list adjacent-ordered, and the elected follower is best in
      (configuration, upstream follow) among all the followers. */
  lemma WinnerLeadsItsTier(master: Instance, s: seq<Instance>)
    requires s != []
    ensures AdjacentOrdered(Sorted(s, SmartOrder(master)), SmartOrder(master))
    ensures Winner(master, s) in s
    ensures forall f :: f in s ==> Tier(master, Winner(master, s)) <= Tier(master, f)
  {
    var less := SmartOrder(master);
    var r := Sorted(s, less);
    SmartLessIsAsymmetric(master, s);
    SortedIsAdjacentOrdered(s, less);
    SortedPermutes(s, less);
    SameElements(r, s);
    forall f | f in s ensures Tier(master, r[0]) <= Tier(master, f) {
      var k: nat :| k < |r| && r[k] == f;
      TiersAscend(master, r, k);
    }
  }

  /** That is: it has the master's configuration if any follower does; and it follows if any
      follower does that is no further from the master's configuration. */
  lemma WinnerInRawTerms(master: Instance, s: seq<Instance>, f: Instance)
    requires f in s
    ensures f.fingerprint == master.fingerprint ==> Winner(master, s).fingerprint == master.fingerprint
    ensures f.upstream.Some? && f.upstream.value.status == UpstreamFollow &&
            (Winner(master, s).fingerprint == master.fingerprint ==> f.fingerprint == master.fingerprint) ==>
              Winner(master, s).upstream.Some? && Winner(master, s).upstream.value.status == UpstreamFollow
  {
    WinnerLeadsItsTier(master, s);
  }

  /** Three followers of one tier whose lags are negative, zero and positive. */
  ghost predicate SignCycle(master: Instance, n: Instance, z: Instance, p: Instance) {
    && Tier(master, n) == Tier(master, z) == Tier(master, p)
    && n.lsnBehindMaster < 0
    && z.lsnBehindMaster == 0
    && p.lsnBehindMaster > 0
  }

  /** Three followers of one tier and one lag, of rising priority, each at most the
      delta more idle than the one before, and the last more than the delta above the first. */
  ghost predicate RisingChain(master: Instance, x: Instance, y: Instance, z: Instance) {
    && Tier(master, x) == Tier(master, y) == Tier(master, z)
    && x.lsnBehindMaster == y.lsnBehindMaster == z.lsnBehindMaster
    && x.priority < y.priority < z.priority
    && x.Idle() <= y.Idle() <= x.Idle() + 0.5
    && y.Idle() <= z.Idle() <= y.Idle() + 0.5
    && z.Idle() > x.Idle() + 0.5
  }

  ghost predicate NoCycles(master: Instance, s: seq<Instance>) {
    && (forall n, z, p :: n in s && z in s && p in s ==> !SignCycle(master, n, z, p))
    && (forall x, y, z :: x in s && y in s && z in s ==> !RisingChain(master, x, y, z))
  }

  lemma SignCycleIsACycle(master: Instance, n: Instance, z: Instance, p: Instance)
    requires SignCycle(master, n, z, p)
    ensures SmartLess(master, n, z) && SmartLess(master, z, p) && SmartLess(master, p, n)
  {
  }

  lemma RisingChainIsACycle(master: Instance, x: Instance, y: Instance, z: Instance)
    requires RisingChain(master, x, y, z)
    ensures SmartLess(master, z, y) && SmartLess(master, y, x) && SmartLess(master, x, z)
  {
  }

  lemma LagTransitive(a: int, b: int, c: int)
    requires !(a < 0 && ((b == 0 && c > 0) || (b > 0 && c == 0)))
    requires !(b < 0 && ((a == 0 && c > 0) || (a > 0 && c == 0)))
    requires !(c < 0 && ((a == 0 && b > 0) || (a > 0 && b == 0)))
    ensures LagLess(a, b) && LagLess(b, c) ==> LagLess(a, c)
  {
  }

  /** Without a rising chain among the three, ranking by priority and idle is transitive. */
  lemma RankTransitive(x: Instance, y: Instance, z: Instance)
    requires !(x.priority > y.priority > z.priority && z.Idle() <= y.Idle() <= x.Idle()
               && InDelta(y.Idle(), z.Idle(), IDLE_DIFF_DELTA) && InDelta(x.Idle(), y.Idle(), IDLE_DIFF_DELTA)
               && x.Idle() > z.Idle() + IDLE_DIFF_DELTA)
    requires !(y.priority > z.priority > x.priority && x.Idle() <= z.Idle() <= y.Idle()
               && InDelta(z.Idle(), x.Idle(), IDLE_DIFF_DELTA) && InDelta(y.Idle(), z.Idle(), IDLE_DIFF_DELTA)
               && y.Idle() > x.Idle() + IDLE_DIFF_DELTA)
    requires !(z.priority > x.priority > y.priority && y.Idle() <= x.Idle() <= z.Idle()
               && InDelta(x.Idle(), y.Idle(), IDLE_DIFF_DELTA) && InDelta(z.Idle(), x.Idle(), IDLE_DIFF_DELTA)
               && z.Idle() > y.Idle() + IDLE_DIFF_DELTA)
    ensures RankLess(x, y) && RankLess(y, z) ==> RankLess(x, z)
  {
  }

  lemma SmartTransitive(master: Instance, s: seq<Instance>, x: Instance, y: Instance, z: Instance)
    requires x in s && y in s && z in s && NoCycles(master, s)
    ensures SmartLess(master, x, y) && SmartLess(master, y, z) ==> SmartLess(master, x, z)
  {
    SmartLessIsLexicographic(master, x, y);
    SmartLessIsLexicographic(master, y, z);
    SmartLessIsLexicographic(master, x, z);
    if Tier(master, x) == Tier(master, y) == Tier(master, z) {
      assert !SignCycle(master, x, y, z) && !SignCycle(master, x, z, y) && !SignCycle(master, y, x, z)
             && !SignCycle(master, y, z, x) && !SignCycle(master, z, x, y) && !SignCycle(master, z, y, x);
      LagTransitive(x.lsnBehindMaster, y.lsnBehindMaster, z.lsnBehindMaster);
      if x.lsnBehindMaster == y.lsnBehindMaster == z.lsnBehindMaster {
        assert !RisingChain(master, z, y, x) && !RisingChain(master, x, z, y) && !RisingChain(master, y, x, z);
        RankTransitive(x, y, z);
      }
    }
  }

  /** Followers that neither beats the other agree on everything that is compared. */
  lemma TiesAreEqual(master: Instance, l: Instance, r: Instance)
    ensures !SmartLess(master, l, r) && !SmartLess(master, r, l) <==>
              && Tier(master, l) == Tier(master, r)
              && l.lsnBehindMaster == r.lsnBehindMaster
              && l.priority == r.priority
              && l.Idle() == r.Idle()
  {
    SmartLessIsLexicographic(master, l, r);
    SmartLessIsLexicographic(master, r, l);
  }

  lemma TiesAreInterchangeable(master: Instance, a: Instance, b: Instance, c: Instance)
    requires !SmartLess(master, a, b) && !SmartLess(master, b, a)
    ensures SmartLess(master, a, c) <==> SmartLess(master, b, c)
    ensures SmartLess(master, c, a) <==> SmartLess(master, c, b)
  {
    TiesAreEqual(master, a, b);
    SmartLessIsLexicographic(master, a, c);
    SmartLessIsLexicographic(master, b, c);
    SmartLessIsLexicographic(master, c, a);
    SmartLessIsLexicographic(master, c, b);
  }

  lemma SmartNegativelyTransitive(master: Instance, s: seq<Instance>, x: Instance, y: Instance, z: Instance)
    requires x in s && y in s && z in s && NoCycles(master, s)
    ensures SmartLess(master, x, z) ==> SmartLess(master, x, y) || SmartLess(master, y, z)
  {
    if SmartLess(master, y, x) {
      SmartTransitive(master, s, y, x, z);
    } else if !SmartLess(master, x, y) {
      TiesAreInterchangeable(master, x, y, z);
    }
  }

  lemma NoCyclesIsAnOrder(master: Instance, s: seq<Instance>)
    requires NoCycles(master, s)
    ensures StrictWeakOrderOn(s, SmartOrder(master))
  {
    var less := SmartOrder(master);
    SmartLessIsAsymmetric(master, s);
    forall x, y, z | x in s && y in s && z in s
      ensures less(x, y) && less(y, z) ==> less(x, z)
      ensures !less(x, y) && !less(y, z) ==> !less(x, z)
    {
      SmartTransitive(master, s, x, y, z);
      SmartNegativelyTransitive(master, s, x, y, z);
    }
  }

  /** The smart comparison orders a list exactly when the list holds neither kind of cycle. */
  lemma SmartLessIsAnOrderIff(master: Instance, s: seq<Instance>)
    ensures StrictWeakOrderOn(s, SmartOrder(master)) <==> NoCycles(master, s)
  {
    var less := SmartOrder(master);
    if NoCycles(master, s) {
      NoCyclesIsAnOrder(master, s);
    } else if n, z, p :| n in s && z in s && p in s && SignCycle(master, n, z, p) {
      SignCycleIsACycle(master, n, z, p);
      SmartLessIsAsymmetric(master, s);
      assert less(n, z) && less(z, p) && !less(n, p);
    } else {
      var x, y, z :| x in s && y in s && z in s && RisingChain(master, x, y, z);
      RisingChainIsACycle(master, x, y, z);
      SmartLessIsAsymmetric(master, s);
      assert less(z, y) && less(y, x) && !less(z, x);
    }
  }

  ghost predicate SameGroup(master: Instance, f: Instance, g: Instance) {
    Tier(master, f) == Tier(master, g) && f.lsnBehindMaster == g.lsnBehindMaster
  }

  /** Everyone level with `f` has its priority, or all those level with it are about equally idle. */
  ghost predicate GroupIsUniform(master: Instance, s: seq<Instance>, f: Instance) {
    || (forall g :: g in s && SameGroup(master, f, g) ==> g.priority == f.priority)
    || (forall g, h :: g in s && h in s && SameGroup(master, f, g) && SameGroup(master, f, h) ==>
          -0.5 <= g.Idle() - h.Idle() <= 0.5)
  }

  /** In particular it orders a list in which no tier mixes the three lag signs and
      every group of one tier and lag is uniform. */
  lemma UniformListsAreOrdered(master: Instance, s: seq<Instance>)
    requires forall n, z, p :: n in s && z in s && p in s ==> !SignCycle(master, n, z, p)
    requires forall f :: f in s ==> GroupIsUniform(master, s, f)
    ensures StrictWeakOrderOn(s, SmartOrder(master))
  {
    forall x, y, z | x in s && y in s && z in s ensures !RisingChain(master, x, y, z) {
      assert GroupIsUniform(master, s, x) && SameGroup(master, x, x);
    }
    SmartLessIsAnOrderIff(master, s);
  }

  /** Nobody in the list beats `u`. */
  ghost predicate Unbeaten(master: Instance, s: seq<Instance>, u: Instance) {
    forall g :: g in s ==> !SmartLess(master, g, u)
  }

  ghost predicate Ties(master: Instance, a: Instance, b: Instance) {
    !SmartLess(master, a, b) && !SmartLess(master, b, a)
  }

  /** Inserting never moves anything in front of an element that ties with an unbeaten one. */
  lemma {:induction false} InsertKeepsTheBest(master: Instance, s: seq<Instance>, x: Instance, u: Instance)
    requires s != [] && Ties(master, s[0], u) && !SmartLess(master, x, u)
    ensures Insert(s, x, SmartOrder(master))[0] == s[0]
  {
    TiesAreInterchangeable(master, s[0], u, x);
    if SmartOrder(master)(x, s[|s| - 1]) && |s| > 1 {
      InsertKeepsTheBest(master, s[..|s| - 1], x, u);
    }
  }

  /** An unbeaten newcomer ends up in front, or right behind followers it ties with. */
  lemma {:induction false} UnbeatenIsSiftedUp(master: Instance, s: seq<Instance>, x: Instance)
    returns (t: Option<Instance>)
    requires Unbeaten(master, s, x)
    ensures t.None? ==> Insert(s, x, SmartOrder(master))[0] == x
    ensures t.Some? ==> s != [] && Insert(s, x, SmartOrder(master))[0] == s[0]
    ensures t.Some? ==> t.value in s && Ties(master, t.value, x)
  {
    if s == [] {
      t := None;
    } else if SmartLess(master, x, s[|s| - 1]) {
      t := UnbeatenIsSiftedUp(master, s[..|s| - 1], x);
    } else {
      t := Some(s[|s| - 1]);
    }
  }

  /** The sort puts in front a follower that ties with any unbeaten one, however
      intransitive the comparison is on the rest of the list. */
  lemma {:induction false} WinnerTiesWithUnbeaten(master: Instance, s: seq<Instance>, u: Instance)
    requires u in s && Unbeaten(master, s, u)
    ensures Ties(master, Winner(master, s), u)
  {
    var less := SmartOrder(master);
    var front, x := s[..|s| - 1], s[|s| - 1];
    var r := Sorted(front, less);
    FrontAndLast(s);
    SortedPermutes(front, less);
    SameElements(r, front);
    if u in front {
      WinnerTiesWithUnbeaten(master, front, u);
      InsertKeepsTheBest(master, r, x, u);
    } else {
      var t := UnbeatenIsSiftedUp(master, r, x);
      SmartLessIsAsymmetric(master, s);
      if t.Some? {
        forall g | g in front ensures !SmartLess(master, g, t.value) {
          TiesAreInterchangeable(master, t.value, x, g);
        }
        WinnerTiesWithUnbeaten(master, front, t.value);
        TiesAreInterchangeable(master, t.value, x, r[0]);
      }
    }
  }

  /** The elected follower is beaten by no one whenever the list holds such a follower. */
  lemma WinnerIsUnbeatenIfAnyIs(master: Instance, s: seq<Instance>)
    requires s != []
    ensures Unbeaten(master, s, Winner(master, s)) <==> exists u :: u in s && Unbeaten(master, s, u)
  {
    WinnerIsEligible(master, s);
    if u :| u in s && Unbeaten(master, s, u) {
      WinnerTiesWithUnbeaten(master, s, u);
      forall g | g in s ensures !SmartLess(master, g, Winner(master, s)) {
        TiesAreInterchangeable(master, Winner(master, s), u, g);
      }
    }
  }

  ghost predicate Leads(master: Instance, s: seq<Instance>, f: Instance) {
    forall g :: g in s ==> Tier(master, f) <= Tier(master, g)
  }

  /** Of the best tier, of the best lag in it, and the least idle among those. */
  ghost predicate Foremost(master: Instance, s: seq<Instance>, x: Instance) {
    && x in s
    && Leads(master, s, x)
    && forall g :: g in s && Tier(master, g) == Tier(master, x) ==>
         && !LagLess(g.lsnBehindMaster, x.lsnBehindMaster)
         && (g.lsnBehindMaster == x.lsnBehindMaster ==> x.Idle() <= g.Idle())
  }

  predicate Near(x: Instance, g: Instance) {
    g.Idle() <= x.Idle() + 0.5
  }

  predicate PrefersByPriority(l: Instance, r: Instance) {
    l.priority > r.priority || (l.priority == r.priority && l.Idle() < r.Idle())
  }

  /** The first by priority, then idle, of those level with `x` and near it. */
  ghost predicate PreferredNear(master: Instance, s: seq<Instance>, x: Instance, y: Instance) {
    && y in s && SameGroup(master, x, y) && Near(x, y)
    && forall g :: g in s && SameGroup(master, x, g) && Near(x, g) ==> !PrefersByPriority(g, y)
  }

  /** The best tier holds a negative, a zero and a positive lag. */
  ghost predicate MixesSigns(master: Instance, s: seq<Instance>) {
    exists n, z, p :: n in s && z in s && p in s && Leads(master, s, n) && SignCycle(master, n, z, p)
  }

  /** A rising chain goes from a foremost follower through the one preferred near it. */
  ghost predicate ChainsFromTheFront(master: Instance, s: seq<Instance>) {
    exists x, y, z ::
      Foremost(master, s, x) && PreferredNear(master, s, x, y) && z in s && RisingChain(master, x, y, z)
  }

  lemma MixedSignsBeatEveryone(master: Instance, s: seq<Instance>, n: Instance, z: Instance, p: Instance, u: Instance)
    requires n in s && z in s && p in s && u in s
    requires SignCycle(master, n, z, p) && Tier(master, n) <= Tier(master, u)
    ensures !Unbeaten(master, s, u)
  {
    if u.lsnBehindMaster < 0 {
      assert SmartLess(master, p, u);
    } else if u.lsnBehindMaster == 0 {
      assert SmartLess(master, n, u);
    } else {
      assert SmartLess(master, z, u);
    }
  }

  lemma ChainBeatsEveryone(master: Instance, s: seq<Instance>, x: Instance, y: Instance, z: Instance, u: Instance)
    requires Foremost(master, s, x) && PreferredNear(master, s, x, y) && z in s && u in s
    requires RisingChain(master, x, y, z)
    ensures !Unbeaten(master, s, u)
  {
    SmartLessIsLexicographic(master, x, u);
    SmartLessIsLexicographic(master, y, u);
    SmartLessIsLexicographic(master, z, u);
  }

  lemma PreferredIsUnbeaten(master: Instance, s: seq<Instance>, x: Instance, y: Instance)
    requires Foremost(master, s, x) && PreferredNear(master, s, x, y)
    requires forall z :: z in s ==> !RisingChain(master, x, y, z)
    ensures y in s && Unbeaten(master, s, y)
  {
    forall g | g in s ensures !SmartLess(master, g, y) {
      SmartLessIsLexicographic(master, g, y);
      assert !PrefersByPriority(x, y);
      if SameGroup(master, x, g) {
        assert !RisingChain(master, x, y, g);
      }
    }
  }

  /** A non-empty list has a first element by any strict weak order. */
  lemma FirstExists(s: seq<Instance>, less: (Instance, Instance) -> bool) returns (first: Instance)
    requires s != [] && StrictWeakOrderOn(s, less)
    ensures first in s && forall g :: g in s ==> !less(g, first)
  {
    SortedPermutes(s, less);
    SameElements(Sorted(s, less), s);
    first := Sorted(s, less)[0];
    forall g | g in s ensures !less(g, first) {
      SortedFirstIsUnbeaten(s, less, g);
    }
  }

  function LevelWith(master: Instance, w: Instance): Instance -> bool {
    (f: Instance) => Tier(master, f) == Tier(master, w)
  }

  function ByLag(): (Instance, Instance) -> bool {
    (l: Instance, r: Instance) => LagLess(l.lsnBehindMaster, r.lsnBehindMaster)
  }

  function ByIdle(): (Instance, Instance) -> bool {
    (l: Instance, r: Instance) => l.Idle() < r.Idle()
  }

  lemma LagsAreOrdered(s: seq<Instance>)
    requires forall a, b, c :: a in s && b in s && c in s ==>
               !(a.lsnBehindMaster < 0 && b.lsnBehindMaster == 0 && c.lsnBehindMaster > 0)
    ensures StrictWeakOrderOn(s, ByLag())
  {
    forall x, y, z | x in s && y in s && z in s
      ensures ByLag()(x, y) && ByLag()(y, z) ==> ByLag()(x, z)
      ensures !ByLag()(x, y) && !ByLag()(y, z) ==> !ByLag()(x, z)
    {
      LagTransitive(x.lsnBehindMaster, y.lsnBehindMaster, z.lsnBehindMaster);
      LagTransitive(z.lsnBehindMaster, y.lsnBehindMaster, x.lsnBehindMaster);
    }
  }

  function SameLag(lag: int): Instance -> bool {
    (f: Instance) => f.lsnBehindMaster == lag
  }

  /** Among `leaders` some follower has the best lag and the least idle with that lag. */
  lemma FirstByLagAndIdle(leaders: seq<Instance>) returns (x: Instance)
    requires leaders != [] && StrictWeakOrderOn(leaders, ByLag())
    ensures x in leaders
    ensures forall g :: g in leaders ==>
              && !LagLess(g.lsnBehindMaster, x.lsnBehindMaster)
              && (g.lsnBehindMaster == x.lsnBehindMaster ==> x.Idle() <= g.Idle())
  {
    var l := FirstExists(leaders, ByLag());
    var group := Select(leaders, SameLag(l.lsnBehindMaster));
    SelectMembers(leaders, SameLag(l.lsnBehindMaster));
    assert l in group;
    x := FirstExists(group, ByIdle());
    forall g | g in leaders
      ensures !LagLess(g.lsnBehindMaster, x.lsnBehindMaster)
      ensures g.lsnBehindMaster == x.lsnBehindMaster ==> x.Idle() <= g.Idle()
    {
      assert !ByLag()(g, l);
      if g.lsnBehindMaster == x.lsnBehindMaster {
        assert g in group && !ByIdle()(g, x);
      }
    }
  }

  lemma ForemostExists(master: Instance, s: seq<Instance>) returns (x: Instance)
    requires s != [] && !MixesSigns(master, s)
    ensures Foremost(master, s, x)
  {
    hide StrictWeakOrderOn, Sorted, AdjacentOrdered, Select;
    var w := Winner(master, s);
    WinnerLeadsItsTier(master, s);
    var leaders := Select(s, LevelWith(master, w));
    SelectMembers(s, LevelWith(master, w));
    assert w in leaders;
    forall a, b, c | a in leaders && b in leaders && c in leaders
      ensures !(a.lsnBehindMaster < 0 && b.lsnBehindMaster == 0 && c.lsnBehindMaster > 0)
    {
      assert Leads(master, s, a) && !SignCycle(master, a, b, c);
    }
    LagsAreOrdered(leaders);
    x := FirstByLagAndIdle(leaders);
  }

  lemma BestTierLeads(master: Instance, s: seq<Instance>, f: Instance, g: Instance)
    requires Leads(master, s, f) && g in s
    ensures Tier(master, f) <= Tier(master, g)
  {
  }

  lemma ForemostIsMember(master: Instance, s: seq<Instance>, x: Instance)
    requires Foremost(master, s, x)
    ensures x in s
  {
  }

  lemma PreferredExists(master: Instance, s: seq<Instance>, x: Instance) returns (y: Instance)
    requires x in s
    ensures PreferredNear(master, s, x, y)
  {
    var near := (f: Instance) => SameGroup(master, x, f) && Near(x, f);
    SelectMembers(s, near);
    assert x in Select(s, near);
    y := FirstExists(Select(s, near), PrefersByPriority);
  }

  /** Some follower is beaten by no one exactly when the best tier does not mix the three
      lag signs and no rising chain starts from its front. */
  lemma SomeoneIsUnbeatenIff(master: Instance, s: seq<Instance>)
    requires s != []
    ensures (exists u :: u in s && Unbeaten(master, s, u)) <==> !MixesSigns(master, s) && !ChainsFromTheFront(master, s)
  {
    hide Foremost, PreferredNear, RisingChain, SignCycle, Leads, Unbeaten, Tier;
    if n, z, p :| n in s && z in s && p in s && Leads(master, s, n) && SignCycle(master, n, z, p) {
      forall u | u in s ensures !Unbeaten(master, s, u) {
        BestTierLeads(master, s, n, u);
        MixedSignsBeatEveryone(master, s, n, z, p, u);
      }
    } else if x, y, z :| Foremost(master, s, x) && PreferredNear(master, s, x, y) && z in s
                         && RisingChain(master, x, y, z) {
      forall u | u in s ensures !Unbeaten(master, s, u) {
        ChainBeatsEveryone(master, s, x, y, z, u);
      }
    } else {
      var x := ForemostExists(master, s);
      ForemostIsMember(master, s, x);
      var y := PreferredExists(master, s, x);
      PreferredIsUnbeaten(master, s, x, y);
    }
  }

  /** The elected follower is beaten by no one under exactly that condition. */
  lemma WinnerIsUnbeatenIff(master: Instance, s: seq<Instance>)
    requires s != []
    ensures Unbeaten(master, s, Winner(master, s)) <==> !MixesSigns(master, s) && !ChainsFromTheFront(master, s)
  {
    WinnerIsUnbeatenIfAnyIs(master, s);
    SomeoneIsUnbeatenIff(master, s);
  }

  /** In particular nobody beats it when its own tier holds no circle. */
  lemma WinnerIsUnbeaten(master: Instance, s: seq<Instance>, tier: seq<Instance>)
    requires s != []
    requires forall f :: f in tier <==> f in s && Tier(master, f) == Tier(master, Winner(master, s))
    requires NoCycles(master, tier)
    ensures Unbeaten(master, s, Winner(master, s))
  {
    hide Tier, SignCycle, RisingChain, Unbeaten, Sorted, AdjacentOrdered;
    WinnerLeadsItsTier(master, s);
    if n, z, p :| n in s && z in s && p in s && Leads(master, s, n) && SignCycle(master, n, z, p) {
      CirclesStayInTheTier(master, n, z, p);
    }
    if x, y, z :| Foremost(master, s, x) && PreferredNear(master, s, x, y) && z in s && RisingChain(master, x, y, z) {
      CirclesStayInTheTier(master, x, y, z);
    }
    WinnerIsUnbeatenIff(master, s);
  }

  lemma CirclesStayInTheTier(master: Instance, x: Instance, y: Instance, z: Instance)
    requires SignCycle(master, x, y, z) || RisingChain(master, x, y, z)
    ensures Tier(master, x) == Tier(master, y) == Tier(master, z)
  {
  }

  /** Where the elected follower's tier mixes the lag signs, another follower beats it. */
  lemma MixedSignsLeaveNoBest(master: Instance, s: seq<Instance>, n: Instance, z: Instance, p: Instance)
    requires n in s && z in s && p in s && SignCycle(master, n, z, p)
    requires Tier(master, n) == Tier(master, Winner(master, s))
    ensures exists f :: f in s && SmartLess(master, f, Winner(master, s))
  {
    WinnerIsEligible(master, s);
    MixedSignsBeatEveryone(master, s, n, z, p, Winner(master, s));
  }

  /** Within a tier of non-negative lags adjacent order already makes the lags ascend. */
  lemma {:induction false} LagsAscend(master: Instance, s: seq<Instance>, k: nat)
    requires AdjacentOrdered(s, SmartOrder(master)) && k < |s|
    requires forall g :: g in s && Tier(master, g) == Tier(master, s[0]) ==> g.lsnBehindMaster >= 0
    ensures Tier(master, s[k]) == Tier(master, s[0]) ==> s[0].lsnBehindMaster <= s[k].lsnBehindMaster
  {
    if k > 0 {
      LagsAscend(master, s, k - 1);
      TiersAscend(master, s, k - 1);
      assert !SmartOrder(master)(s[k], s[k - 1]);
      SmartLessIsLexicographic(master, s[k], s[k - 1]);
      assert s[k] in s && s[k - 1] in s;
    }
  }

  /** On every list: where no lag of its tier is negative, the elected follower is the
      least lagging of the tier. */
  lemma WinnerHasLeastLag(master: Instance, s: seq<Instance>, f: Instance)
    requires s != [] && f in s && Tier(master, f) == Tier(master, Winner(master, s))
    requires forall g :: g in s && Tier(master, g) == Tier(master, f) ==> g.lsnBehindMaster >= 0
    ensures Winner(master, s).lsnBehindMaster <= f.lsnBehindMaster
  {
    var r := Sorted(s, SmartOrder(master));
    WinnerLeadsItsTier(master, s);
    SortedPermutes(s, SmartOrder(master));
    SameElements(r, s);
    var k: nat :| k < |r| && r[k] == f;
    LagsAscend(master, r, k);
  }
}
