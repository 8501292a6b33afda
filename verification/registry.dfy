/** The registry of recent recoveries, which blocks repeated recoveries of one key. */
module Registry {
  import opened Topology
  import opened Analysis

  /** Times are nanoseconds; timestamps are whole seconds. */
  const SECOND := 1_000_000_000

  function Unix(time: int): int {
    time / SECOND
  }

  /** The wall clock, which other activities may advance between any two readings. */
  class Clock {
    var now: int

    constructor (start: int)
      ensures now == start
    {
      now := start;
    }

    method Read() returns (t: int)
      modifies this
      ensures old(now) <= t == now
    {
      var elapsed: int :| elapsed >= 0;
      now := now + elapsed;
      t := now;
    }
  }

  datatype Scope = ScopeInstance | ScopeSet

  datatype Ident = Ident(uuid: InstanceUuid, uri: Uri)

  class Recovery {
    const state: State
    const scope: Scope
    const rs: SetUuid
    const failed: Ident
    var successor: Ident
    var isSuccessful: bool
    var startTimestamp: int
    var endTimestamp: int
    var expiration: int

    constructor (scope: Scope, failed: Ident, analysis: ReplicationAnalysis, clock: Clock)
      modifies clock
      ensures this.scope == scope && this.failed == failed
      ensures rs == analysis.rs.uuid && state == analysis.state
      ensures !isSuccessful && successor == Ident("", "")
      ensures old(clock.now) <= clock.now && startTimestamp == Unix(clock.now)
    {
      this.scope := scope;
      this.failed := failed;
      this.rs := analysis.rs.uuid;
      this.state := analysis.state;
      this.successor := Ident("", "");
      this.isSuccessful := false;
      this.endTimestamp := 0;
      this.expiration := 0;
      var t := clock.Read();
      this.startTimestamp := Unix(t);
    }

    method ExpireAfter(ttl: int, clock: Clock) returns (ghost armed: int)
      modifies this`expiration, clock
      ensures old(clock.now) <= armed == clock.now
      ensures expiration == Unix(armed + ttl)
    {
      var t := clock.Read();
      expiration := Unix(t + ttl);
      armed := t;
    }

    function ScopeKey(): string {
      match scope
      case ScopeInstance => failed.uuid
      case ScopeSet => rs
    }

    method Expired(clock: Clock) returns (expired: bool)
      modifies clock
      ensures old(clock.now) <= clock.now
      ensures expired <==> expiration < Unix(clock.now)
    {
      var t := clock.Read();
      expired := expiration < Unix(t);
    }

    function AsEntry(): Entry
      reads this
    {
      Entry(ScopeKey(), expiration)
    }
  }

  datatype Entry = Entry(key: string, expiration: int)

  /** `e` still blocks `key` at time `t`. */
  predicate Blocks(e: Entry, key: string, t: int) {
    e.key == key && !(e.expiration < Unix(t))
  }

  ghost predicate Blocked(entries: seq<Entry>, key: string, t: int) {
    exists k :: 0 <= k < |entries| && Blocks(entries[k], key, t)
  }

  /** A recovery attempt as it happened: when the registry let it start, when its expiry
      was computed, and for how long it was meant to block. */
  datatype Attempt = Attempt(key: string, started: int, armed: int, ttl: int)
  {
    function AsEntry(): Entry {
      Entry(key, Unix(armed + ttl))
    }
  }

  function EntriesOf(attempts: seq<Attempt>): (r: seq<Entry>)
    ensures |r| == |attempts|
    ensures forall k :: 0 <= k < |r| ==> r[k] == attempts[k].AsEntry()
  {
    seq(|attempts|, k requires 0 <= k < |attempts| => attempts[k].AsEntry())
  }

  /** Despite truncation to whole seconds an attempt blocks at least for its TTL and at
      most one second longer: until the second of its deadline is over. */
  lemma BlockingPeriod(a: Attempt, t: int)
    ensures Blocks(a.AsEntry(), a.key, t) <==> t < ((a.armed + a.ttl) / 1_000_000_000 + 1) * 1_000_000_000
    ensures t <= a.armed + a.ttl ==> Blocks(a.AsEntry(), a.key, t)
    ensures t >= a.armed + a.ttl + 1_000_000_000 ==> !Blocks(a.AsEntry(), a.key, t)
  {
    UnixIsMonotone(a.armed + a.ttl, t);
    UnixIsMonotone(t, a.armed + a.ttl);
    UnixIsMonotone(a.armed + a.ttl + SECOND, t);
  }

  lemma UnixIsMonotone(a: int, b: int)
    ensures a <= b ==> Unix(a) <= Unix(b)
  {
  }

  /** Attempts on one key start strictly more than the TTL apart, counted even from the
      moment the expiry of the earlier one was computed. */
  ghost predicate Spaced(log: seq<Attempt>) {
    && (forall i :: 0 <= i < |log| ==> log[i].started <= log[i].armed)
    && forall i, j :: 0 <= i < j < |log| && log[i].key == log[j].key ==> log[j].started > log[i].armed + log[i].ttl
  }

  /** From `now` on, the kept entries answer every question as the full log would. */
  ghost predicate Answers(kept: seq<Entry>, log: seq<Attempt>, now: int) {
    forall key, t :: t >= now ==> (Blocked(kept, key, t) <==> Blocked(EntriesOf(log), key, t))
  }

  /** The attempt started when nothing blocked its key, between the two clock readings. */
  ghost predicate Permitted(a: Attempt, kept: seq<Entry>, start: int, now: int) {
    start <= a.started <= a.armed <= now && !Blocked(kept, a.key, a.started)
  }

  /** A started attempt that the kept entries did not block keeps the spacing, and
      registering it keeps the answers. */
  lemma RegisteringKeepsLaws(kept: seq<Entry>, log: seq<Attempt>, now: int, later: int, a: Attempt)
    requires Spaced(log) && Answers(kept, log, now)
    requires Permitted(a, kept, now, later)
    ensures Spaced(log + [a])
    ensures Answers(kept + [a.AsEntry()], log + [a], now)
  {
    NotBlockedIsSpaced(log, a);
    forall key, t | t >= now
      ensures Blocked(kept + [a.AsEntry()], key, t) <==> Blocked(EntriesOf(log + [a]), key, t)
    {
      assert EntriesOf(log + [a]) == EntriesOf(log) + [a.AsEntry()];
      BlockedByLast(kept, a.AsEntry(), key, t);
      BlockedByLast(EntriesOf(log), a.AsEntry(), key, t);
    }
  }

  lemma NotBlockedIsSpaced(log: seq<Attempt>, a: Attempt)
    requires Spaced(log) && !Blocked(EntriesOf(log), a.key, a.started) && a.started <= a.armed
    ensures Spaced(log + [a])
  {
    forall i | 0 <= i < |log| && log[i].key == a.key ensures a.started > log[i].armed + log[i].ttl {
      assert !Blocks(EntriesOf(log)[i], a.key, a.started);
      BlockingPeriod(log[i], a.started);
    }
  }

  lemma BlockedByLast(entries: seq<Entry>, e: Entry, key: string, t: int)
    ensures Blocked(entries + [e], key, t) <==> Blocked(entries, key, t) || Blocks(e, key, t)
  {
    var all := entries + [e];
    if Blocked(entries, key, t) {
      var k :| 0 <= k < |entries| && Blocks(entries[k], key, t);
      assert all[k] == entries[k];
    }
    if Blocks(e, key, t) {
      assert all[|entries|] == e;
    }
  }

  lemma AnswersLater(kept: seq<Entry>, log: seq<Attempt>, start: int, now: int)
    requires start <= now && Answers(kept, log, start)
    ensures Answers(kept, log, now)
  {
  }

  /** The end of the second in which the deadline of the attempt falls, in nanoseconds. */
  function EndOfBlocking(a: Attempt): int {
    ((a.armed + a.ttl) / 1_000_000_000 + 1) * 1_000_000_000
  }

  /** While entries answer as the full log would, a key is blocked exactly until the second
      of the deadline of some attempt on it is over. */
  lemma BlockedWhile(kept: seq<Entry>, log: seq<Attempt>, now: int, key: string, t: int)
    requires Answers(kept, log, now) && t >= now
    ensures Blocked(kept, key, t) <==>
              exists k :: 0 <= k < |log| && log[k].key == key && t < EndOfBlocking(log[k])
  {
    forall k | 0 <= k < |log| && log[k].key == key
      ensures Blocks(EntriesOf(log)[k], key, t) <==> t < EndOfBlocking(log[k])
    {
      BlockingPeriod(log[k], t);
    }
    if Blocked(EntriesOf(log), key, t) {
      var k :| 0 <= k < |EntriesOf(log)| && Blocks(EntriesOf(log)[k], key, t);
      assert log[k].key == key;
    }
  }

  /** What blocks at some time blocked at every earlier time. */
  lemma BlockedEarlier(entries: seq<Entry>, key: string, t0: int, t: int)
    requires t0 <= t && Blocked(entries, key, t)
    ensures Blocked(entries, key, t0)
  {
    var k :| 0 <= k < |entries| && Blocks(entries[k], key, t);
    UnixIsMonotone(t0, t);
    assert Blocks(entries[k], key, t0);
  }

  lemma RegisteringOthersPermits(kept: seq<Entry>, other: Attempt, a: Attempt, start: int, now: int)
    requires Permitted(a, kept, start, now) && other.key != a.key
    ensures Permitted(a, kept + [other.AsEntry()], start, now)
  {
    BlockedByLast(kept, other.AsEntry(), a.key, a.started);
  }

  ghost predicate DistinctKeys(tries: seq<Attempt>) {
    forall i, j :: 0 <= i < j < |tries| ==> tries[i].key != tries[j].key
  }

  /** What an expiry cleanup between `start` and `now` does: it keeps only registered
      entries that had not expired when it began, and drops only expired ones. */
  ghost predicate CleanedUp(before: seq<Entry>, after: seq<Entry>, start: int, now: int) {
    && |after| <= |before|
    && (forall k :: 0 <= k < |after| ==> after[k] in before && after[k].expiration >= Unix(start))
    && (forall k :: 0 <= k < |before| && before[k] !in after ==> before[k].expiration < Unix(now))
  }

  /** Expiry cleanup is invisible to every later question. */
  lemma CleanupIsInvisible(before: seq<Entry>, after: seq<Entry>, log: seq<Attempt>, start: int, now: int)
    requires Answers(before, log, start) && start <= now && CleanedUp(before, after, start, now)
    ensures Answers(after, log, now)
  {
    forall key, t | t >= now ensures Blocked(after, key, t) <==> Blocked(EntriesOf(log), key, t) {
      if Blocked(before, key, t) {
        var k :| 0 <= k < |before| && Blocks(before[k], key, t);
        UnixIsMonotone(now, t);
        var j :| 0 <= j < |after| && after[j] == before[k];
      }
      if Blocked(after, key, t) {
        var k :| 0 <= k < |after| && Blocks(after[k], key, t);
        var j :| 0 <= j < |before| && before[j] == after[k];
      }
    }
  }
}
