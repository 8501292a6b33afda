/** Why comparing a set without the lock is safe only one swap at a time: two swaps of one
    array, step by step, in any interleaving. */
module Races {
  import opened Topology
  import opened SetComparison

  /** Exchanges the elements at two positions through a temporary copy. */
  datatype Swap = Swap(i: nat, j: nat)

  /** How far a swap has come: the first element saved, then overwritten, then put back. */
  datatype Stage =
    | NotBegun
    | Saved(x: Instance)
    | Overwritten(x: Instance)
    | Done

  datatype Memory = Memory(s: seq<Instance>, first: Stage, second: Stage)

  predicate Fits(w: Swap, n: nat) {
    w.i < n && w.j < n && w.i != w.j
  }

  function NextContent(s: seq<Instance>, w: Swap, at: Stage): (r: seq<Instance>)
    requires Fits(w, |s|)
    ensures |r| == |s|
  {
    match at
    case Saved(_) => s[w.i := s[w.j]]
    case Overwritten(x) => s[w.j := x]
    case _ => s
  }

  function NextStage(s: seq<Instance>, w: Swap, at: Stage): Stage
    requires Fits(w, |s|)
  {
    match at
    case NotBegun => Saved(s[w.i])
    case Saved(x) => Overwritten(x)
    case _ => Done
  }

  /** One step of the first or the second swap. */
  function Step(m: Memory, v: Swap, w: Swap, first: bool): (r: Memory)
    requires Fits(v, |m.s|) && Fits(w, |m.s|)
    ensures |r.s| == |m.s|
  {
    if first then Memory(NextContent(m.s, v, m.first), NextStage(m.s, v, m.first), m.second)
    else Memory(NextContent(m.s, w, m.second), m.first, NextStage(m.s, w, m.second))
  }

  /** The memory after a schedule, which says for each step whose it is. */
  function Run(m: Memory, v: Swap, w: Swap, schedule: seq<bool>): (r: Memory)
    requires Fits(v, |m.s|) && Fits(w, |m.s|)
    ensures |r.s| == |m.s|
    decreases |schedule|
  {
    if schedule == [] then m else Run(Step(m, v, w, schedule[0]), v, w, schedule[1..])
  }

  function Start(s: seq<Instance>): Memory {
    Memory(s, NotBegun, NotBegun)
  }

  ghost predicate ShareNoPosition(v: Swap, w: Swap) {
    v.i != w.i && v.i != w.j && v.j != w.i && v.j != w.j
  }

  /** A schedule that lets both swaps finish leaves every instance in the array. */
  ghost predicate KeepsInstances(s: seq<Instance>, v: Swap, w: Swap, schedule: seq<bool>)
    requires Fits(v, |s|) && Fits(w, |s|)
  {
    var end := Run(Start(s), v, w, schedule);
    end.first.Done? && end.second.Done? ==> multiset(end.s) == multiset(s)
  }

  /** What a swap at some stage has made of its two positions. */
  ghost predicate Reflects(s: seq<Instance>, now: seq<Instance>, w: Swap, at: Stage)
    requires Fits(w, |s|) && |now| == |s|
  {
    match at
    case NotBegun => now[w.i] == s[w.i] && now[w.j] == s[w.j]
    case Saved(x) => x == s[w.i] && now[w.i] == s[w.i] && now[w.j] == s[w.j]
    case Overwritten(x) => x == s[w.i] && now[w.i] == s[w.j] && now[w.j] == s[w.j]
    case Done => now[w.i] == s[w.j] && now[w.j] == s[w.i]
  }

  ghost predicate Consistent(s: seq<Instance>, m: Memory, v: Swap, w: Swap)
    requires Fits(v, |s|) && Fits(w, |s|)
  {
    && |m.s| == |s|
    && Reflects(s, m.s, v, m.first)
    && Reflects(s, m.s, w, m.second)
    && forall k :: 0 <= k < |s| && k !in {v.i, v.j, w.i, w.j} ==> m.s[k] == s[k]
  }

  lemma {:induction false} RunStaysConsistent(s: seq<Instance>, m: Memory, v: Swap, w: Swap, schedule: seq<bool>)
    requires Fits(v, |s|) && Fits(w, |s|) && ShareNoPosition(v, w) && Consistent(s, m, v, w)
    ensures Consistent(s, Run(m, v, w, schedule), v, w)
    decreases |schedule|
  {
    if schedule != [] {
      RunStaysConsistent(s, Step(m, v, w, schedule[0]), v, w, schedule[1..]);
    }
  }

  function Swapped(s: seq<Instance>, w: Swap): (r: seq<Instance>)
    requires Fits(w, |s|)
    ensures |r| == |s|
  {
    s[w.i := s[w.j]][w.j := s[w.i]]
  }

  /** The two last steps of a swap that saved `x`. */
  function After(s: seq<Instance>, w: Swap, x: Instance): (r: seq<Instance>)
    requires Fits(w, |s|)
    ensures |r| == |s|
  {
    s[w.i := s[w.j]][w.j := x]
  }

  lemma SwappingReorders(s: seq<Instance>, w: Swap)
    requires Fits(w, |s|)
    ensures multiset(Swapped(s, w)) == multiset(s)
  {
  }

  lemma DisjointSwapsKeep(s: seq<Instance>, v: Swap, w: Swap, schedule: seq<bool>)
    requires Fits(v, |s|) && Fits(w, |s|) && ShareNoPosition(v, w)
    ensures KeepsInstances(s, v, w, schedule)
  {
    hide Run, Swapped;
    RunStaysConsistent(s, Start(s), v, w, schedule);
    var end := Run(Start(s), v, w, schedule);
    if end.first.Done? && end.second.Done? {
      SwappingReorders(s, v);
      SwappingReorders(Swapped(s, v), w);
      BothSwapsShow(s, end.s, v, w);
    }
  }

  lemma BothSwapsShow(s: seq<Instance>, now: seq<Instance>, v: Swap, w: Swap)
    requires Fits(v, |s|) && Fits(w, |s|) && ShareNoPosition(v, w)
    requires Consistent(s, Memory(now, Done, Done), v, w)
    ensures |now| == |s| && now == Swapped(Swapped(s, v), w)
  {
    var both := Swapped(Swapped(s, v), w);
    forall k | 0 <= k < |s| ensures now[k] == both[k] {
      if k !in {v.i, v.j, w.i, w.j} {
        assert now[k] == s[k];
      }
    }
  }

  lemma RunStep(m: Memory, v: Swap, w: Swap, schedule: seq<bool>, rest: seq<bool>)
    requires Fits(v, |m.s|) && Fits(w, |m.s|)
    requires schedule != [] && schedule[1..] == rest
    ensures Run(m, v, w, schedule) == Run(Step(m, v, w, schedule[0]), v, w, rest)
  {
  }

  lemma RunSix(m: Memory, v: Swap, w: Swap, a: bool, b: bool, c: bool, d: bool, e: bool, f: bool)
    requires Fits(v, |m.s|) && Fits(w, |m.s|)
    ensures Run(m, v, w, [a, b, c, d, e, f])
         == Step(Step(Step(Step(Step(Step(m, v, w, a), v, w, b), v, w, c), v, w, d), v, w, e), v, w, f)
  {
    hide Step, Run;
    var m1 := Step(m, v, w, a);
    var m2 := Step(m1, v, w, b);
    var m3 := Step(m2, v, w, c);
    var m4 := Step(m3, v, w, d);
    var m5 := Step(m4, v, w, e);
    RunStep(m, v, w, [a, b, c, d, e, f], [b, c, d, e, f]);
    RunStep(m1, v, w, [b, c, d, e, f], [c, d, e, f]);
    RunStep(m2, v, w, [c, d, e, f], [d, e, f]);
    RunStep(m3, v, w, [d, e, f], [e, f]);
    RunStep(m4, v, w, [e, f], [f]);
    RunLast(m5, v, w, f);
  }

  lemma RunLast(m: Memory, v: Swap, w: Swap, f: bool)
    requires Fits(v, |m.s|) && Fits(w, |m.s|)
    ensures Run(m, v, w, [f]) == Step(m, v, w, f)
  {
    assert [f][1..] == [];
  }

  lemma SecondInsideFirst(s: seq<Instance>, v: Swap, w: Swap)
    requires Fits(v, |s|) && Fits(w, |s|)
    ensures Run(Start(s), v, w, [true, false, false, false, true, true])
         == Memory(After(Swapped(s, w), v, s[v.i]), Done, Done)
  {
    RunSix(Start(s), v, w, true, false, false, false, true, true);
  }

  lemma FirstInsideSecond(s: seq<Instance>, v: Swap, w: Swap)
    requires Fits(v, |s|) && Fits(w, |s|)
    ensures Run(Start(s), v, w, [false, true, true, true, false, false])
         == Memory(After(Swapped(s, v), w, s[w.i]), Done, Done)
  {
    RunSix(Start(s), v, w, false, true, true, true, false, false);
  }

  lemma SecondBeforePuttingBack(s: seq<Instance>, v: Swap, w: Swap)
    requires Fits(v, |s|) && Fits(w, |s|)
    ensures Run(Start(s), v, w, [true, true, false, false, false, true])
         == Memory(Swapped(s[v.i := s[v.j]], w)[v.j := s[v.i]], Done, Done)
  {
    RunSix(Start(s), v, w, true, true, false, false, false, true);
  }

  lemma TwiceIsNotAReordering(s: seq<Instance>, r: seq<Instance>, a: nat, b: nat)
    requires DistinctUuids(s) && a < b < |r| && r[a] == r[b]
    ensures multiset(r) != multiset(s)
  {
    if multiset(r) == multiset(s) {
      ReorderedIsDistinct(s, r);
    }
  }

  /** Two swaps that share a position can lose an instance: one saves an element, the other
      moves that element elsewhere, and then the first puts its copy back. */
  lemma SharedPositionLoses(s: seq<Instance>, v: Swap, w: Swap) returns (schedule: seq<bool>)
    requires DistinctUuids(s) && Fits(v, |s|) && Fits(w, |s|) && !ShareNoPosition(v, w)
    ensures !KeepsInstances(s, v, w, schedule)
  {
    hide DistinctUuids, Run, Swapped, After;
    if v.i == w.i || v.i == w.j {
      schedule := [true, false, false, false, true, true];
      SecondInsideFirst(s, v, w);
    } else if w.i == v.j {
      schedule := [false, true, true, true, false, false];
      FirstInsideSecond(s, v, w);
    } else {
      schedule := [true, true, false, false, false, true];
      SecondBeforePuttingBack(s, v, w);
    }
    var end := Run(Start(s), v, w, schedule);
    var a, b := SomethingIsTwice(s, v, w, end.s);
    TwiceIsNotAReordering(s, end.s, a, b);
  }

  lemma SomethingIsTwice(s: seq<Instance>, v: Swap, w: Swap, r: seq<Instance>) returns (a: nat, b: nat)
    requires Fits(v, |s|) && Fits(w, |s|) && |r| == |s| && !ShareNoPosition(v, w)
    requires r == if v.i == w.i || v.i == w.j then After(Swapped(s, w), v, s[v.i])
                  else if w.i == v.j then After(Swapped(s, v), w, s[w.i])
                  else Swapped(s[v.i := s[v.j]], w)[v.j := s[v.i]]
    ensures a < b < |r| && r[a] == r[b]
  {
    var x, y;
    if v.i == w.i || v.i == w.j {
      var other := if v.i == w.i then w.j else w.i;
      x, y := if other == v.j then v.i else other, v.j;
    } else if w.i == v.j {
      x, y := v.i, w.j;
      if v.i == w.j {
        x, y := w.i, w.j;
      }
    } else {
      x, y := v.i, w.i;
    }
    a, b := if x < y then x else y, if x < y then y else x;
  }

  /** Two swaps of an array of different instances keep all of them in every interleaving
      exactly when they share no position. */
  lemma SwapsKeepInstancesIff(s: seq<Instance>, v: Swap, w: Swap)
    requires DistinctUuids(s) && Fits(v, |s|) && Fits(w, |s|)
    ensures (forall schedule :: KeepsInstances(s, v, w, schedule)) <==> ShareNoPosition(v, w)
  {
    if ShareNoPosition(v, w) {
      forall schedule ensures KeepsInstances(s, v, w, schedule) {
        DisjointSwapsKeep(s, v, w, schedule);
      }
    } else {
      var schedule := SharedPositionLoses(s, v, w);
    }
  }

  /** What a copy sees that is taken during a lone swap: all instances, unless one is
      overwritten and not yet put back. */
  lemma CopyDuringSwapIff(s: seq<Instance>, now: seq<Instance>, w: Swap, at: Stage)
    requires DistinctUuids(s) && Fits(w, |s|) && |now| == |s|
    requires Reflects(s, now, w, at) && forall k :: 0 <= k < |s| && k != w.i && k != w.j ==> now[k] == s[k]
    ensures multiset(now) == multiset(s) <==> !at.Overwritten?
  {
    match at
    case Overwritten(_) =>
      TwiceIsNotAReordering(s, now, if w.i < w.j then w.i else w.j, if w.i < w.j then w.j else w.i);
    case Done =>
      SwappingReorders(s, w);
      assert now == Swapped(s, w);
    case _ =>
      assert now == s;
  }
}
