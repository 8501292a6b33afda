/** Which recovery attempt each request of a run belongs to, and when attempts follow each other. */
module Accounts {
  import opened Topology
  import opened Fleets
  import opened Registry

  /** For how long a recovery blocks the next one of its set or of its instance. */
  datatype Ttls = Ttls(ofSet: int, ofInstance: int)

  function TtlOf(e: Event, ttls: Ttls): int {
    if e.purpose.Demote? then ttls.ofInstance else ttls.ofSet
  }

  /** The request is part of the attempt: same key, configured TTL, sent once it was armed. */
  ghost predicate BelongsTo(e: Event, a: Attempt, ttls: Ttls) {
    a.key == e.Key() && a.ttl == TtlOf(e, ttls) && a.armed <= e.sent
  }

  /** Every request belongs to one of the attempts `tries`, the first of which has the number
      `base`; and each attempt offers at most one promotion, or demotes at most one instance. */
  ghost predicate Accounted(es: seq<Event>, base: nat, tries: seq<Attempt>, ttls: Ttls) {
    && (forall k :: 0 <= k < |es| ==>
          && base <= es[k].attempt < base + |tries|
          && BelongsTo(es[k], tries[es[k].attempt - base], ttls))
    && (forall i, j :: 0 <= i < j < |es| && es[j].purpose != Spread ==> es[i].attempt < es[j].attempt)
  }

  lemma AccountsJoin(es: seq<Event>, base: nat, tries: seq<Attempt>,
                     more: seq<Event>, moreTries: seq<Attempt>, ttls: Ttls)
    requires Accounted(es, base, tries, ttls)
    requires Accounted(more, base + |tries|, moreTries, ttls)
    ensures Accounted(es + more, base, tries + moreTries, ttls)
  {
    hide BelongsTo;
    var all, both := es + more, tries + moreTries;
    forall k | 0 <= k < |all|
      ensures base <= all[k].attempt < base + |both| && BelongsTo(all[k], both[all[k].attempt - base], ttls)
    {
      if k < |es| {
        assert all[k] == es[k] && both[all[k].attempt - base] == tries[es[k].attempt - base];
      } else {
        assert all[k] == more[k - |es|];
        assert both[all[k].attempt - base] == moreTries[more[k - |es|].attempt - base - |tries|];
      }
    }
    forall i, j | 0 <= i < j < |all| && all[j].purpose != Spread ensures all[i].attempt < all[j].attempt {
      if j < |es| {
        assert all[i] == es[i] && all[j] == es[j];
      } else {
        assert all[j] == more[j - |es|];
        assert if i < |es| then all[i] == es[i] else all[i] == more[i - |es|];
      }
    }
  }

  lemma OneAttemptAccounts(es: seq<Event>, a: Attempt, number: nat, ttls: Ttls)
    requires forall k :: 0 <= k < |es| ==> es[k].attempt == number && BelongsTo(es[k], a, ttls)
    requires forall k :: 0 < k < |es| ==> es[k].purpose == Spread
    ensures Accounted(es, number, [a], ttls)
  {
  }

  lemma NothingAccounts(base: nat, tries: seq<Attempt>, ttls: Ttls)
    ensures Accounted([], base, tries, ttls)
  {
  }

  /** When two promotions of one set, or two demotions of one instance, were sent in a run,
      they belong to different attempts, and the later attempt started strictly more than
      the configured TTL after the earlier one was armed; so the later request was sent
      that long after, too. */
  lemma RecoveriesAreSpaced(log: seq<Event>, attempts: seq<Attempt>, ttls: Ttls, i: nat, j: nat)
    requires Accounted(log, 0, attempts, ttls) && Spaced(attempts)
    requires i < j < |log| && log[i].Key() == log[j].Key() && log[j].purpose != Spread
    ensures log[i].attempt < log[j].attempt < |attempts|
    ensures var earlier, later := attempts[log[i].attempt], attempts[log[j].attempt];
            && earlier.armed <= log[i].sent
            && earlier.armed + TtlOf(log[i], ttls) < later.started <= later.armed <= log[j].sent
  {
    assert BelongsTo(log[i], attempts[log[i].attempt - 0], ttls);
    assert BelongsTo(log[j], attempts[log[j].attempt - 0], ttls);
  }
}
