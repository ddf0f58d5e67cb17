// After an ingest run: one sweep for each provider that saved something, with one cutoff for
// all of them, on the live tables.
module PostRunSweep {
  import opened Wrappers
  import opened Lease
  import opened Catalogue
  import opened DatabaseServer
  import opened Ordering
  import opened Workers
  import Pipeline

  type Jobs = map<nat, Job>

  // The open jobs of these sources that no run has seen since the cutoff.
  function Stale(jobs: Jobs, sources: set<string>, cutoff: Time): set<nat> {
    set j | j in jobs && jobs[j].key.source in sources && Unseen(jobs[j], jobs[j].key.source, cutoff)
  }

  // Exactly the stale jobs of these sources have been closed, and nothing else has changed.
  ghost predicate Swept(before: Jobs, after: Jobs, sources: set<string>, cutoff: Time) {
    && after.Keys == before.Keys
    && forall j :: j in before ==>
                     if j in Stale(before, sources, cutoff)
                     then after[j].closedAt.Some? && after[j] == before[j].(closedAt := after[j].closedAt)
                     else after[j] == before[j]
  }

  lemma OneMoreSource(before: Jobs, mid: Jobs, after: Jobs, sources: set<string>, p: string, cutoff: Time, now: Time)
    requires Swept(before, mid, sources, cutoff) && p !in sources && after.Keys == mid.Keys
    requires forall j :: j in mid ==>
                           after[j] == if Unseen(mid[j], p, cutoff) then mid[j].(closedAt := Some(now)) else mid[j]
    ensures Swept(before, after, sources + {p}, cutoff)
    ensures (set j | j in mid && Unseen(mid[j], p, cutoff)) == Stale(before, {p}, cutoff)
    ensures |Stale(before, sources + {p}, cutoff)| == |Stale(before, sources, cutoff)| + |Stale(before, {p}, cutoff)|
  {
    forall j | j in before
      ensures Unseen(mid[j], p, cutoff) <==> j in Stale(before, {p}, cutoff)
      ensures j in Stale(before, sources + {p}, cutoff) <==>
                j in Stale(before, sources, cutoff) || j in Stale(before, {p}, cutoff)
    {
      assert mid[j].key == before[j].key;
    }
    assert Stale(before, sources + {p}, cutoff) == Stale(before, sources, cutoff) + Stale(before, {p}, cutoff);
    assert Stale(before, sources, cutoff) !! Stale(before, {p}, cutoff);
  }

  // Which jobs are closed by a sweep, read off the tables.
  lemma StaleIsClosed(before: Jobs, after: Jobs, sources: set<string>, cutoff: Time)
    requires Swept(before, after, sources, cutoff)
    ensures Stale(before, sources, cutoff) ==
            set j | j in before && before[j].closedAt.None? && after[j].closedAt.Some?
    ensures forall j :: j in Stale(before, sources, cutoff) <==>
                        j in before && before[j].closedAt.None? && before[j].key.source in sources
                        && before[j].lastSeenAt < cutoff
  {
  }

  method Reachable() returns (ok: bool) {
    ok := *;
  }

  // The clock moves between the statements; a failing one ends the worker.
  method SweepProviders(db: Database, providers: seq<string>, cutoff: Time)
    returns (finished: bool, closed: nat, ghost swept: set<string>)
    requires Ascending(providers)
    modifies db`jobs, db`now
    ensures Swept(old(db.jobs), db.jobs, swept, cutoff) && closed == |Stale(old(db.jobs), swept, cutoff)|
    ensures swept <= (set p | p in providers) && (finished ==> swept == (set p | p in providers))
  {
    closed, swept := 0, {};
    for i := 0 to |providers|
      invariant Swept(old(db.jobs), db.jobs, swept, cutoff) && closed == |Stale(old(db.jobs), swept, cutoff)|
      invariant swept == set p | p in providers[..i]
    {
      var p := providers[i];
      NotYetSwept(providers, i);
      var micros: nat :| micros >= 0;
      db.Tick(micros);
      var ok := Reachable();
      if !ok {
        return false, closed, swept;
      }
      ghost var mid := db.jobs;
      var n := db.CloseUnseenJobs(p, cutoff);
      OneMoreSource(old(db.jobs), mid, db.jobs, swept, p, cutoff, db.now);
      closed := closed + n;
      swept := swept + {p};
      assert providers[..i + 1] == providers[..i] + [p];
    }
    finished := true;
    assert providers[..|providers|] == providers;
  }

  lemma NotYetSwept(providers: seq<string>, i: nat)
    requires Ascending(providers) && i < |providers|
    ensures providers[i] !in providers[..i]
  {
    BeforeIsIrreflexive(providers[i]);
  }

  lemma {:induction false} BeforeIsIrreflexive(a: string)
    ensures !Before(a, a)
  {
    if a != "" {
      BeforeIsIrreflexive(a[1..]);
    }
  }

  // A whole ingest worker over its boards, once the run itself has ended: no provider is swept
  // unless one of its saves succeeded, and of the others' jobs none is touched.
  method SweepAfterRun(db: Database, registry: set<string>, boards: seq<Pipeline.Board>)
    returns (finished: bool, closed: nat, ghost swept: set<string>)
    modifies db`jobs, db`now
    ensures forall p :: p in swept ==> p in registry && Pipeline.SavedSome(registry, boards, Pipeline.All(|boards|),
              {p})
    ensures finished ==> forall p :: Pipeline.SavedSome(registry, boards, Pipeline.All(|boards|), {p}) ==> p in swept
    ensures Swept(old(db.jobs), db.jobs, swept, old(db.now) - 48 * 3600 * 1_000_000)
    ensures forall j :: j in old(db.jobs) && old(db.jobs)[j].closedAt.None? ==>
              var job := old(db.jobs)[j];
              (db.jobs[j].closedAt.Some? <==>
               job.key.source in swept && job.lastSeenAt < old(db.now) - 48 * 3600 * 1_000_000)
    ensures closed == |set j | j in old(db.jobs) && old(db.jobs)[j].closedAt.None? && db.jobs[j].closedAt.Some?|
  {
    var providers, cancelled := Pipeline.RunAndSelect(registry, boards);
    if cancelled {
      StaleIsClosed(db.jobs, db.jobs, {}, 0);
      return false, 0, {};
    }
    finished, closed, swept := SweepProviders(db, providers, db.now - STALE_AFTER);
    StaleIsClosed(old(db.jobs), db.jobs, swept, old(db.now) - STALE_AFTER);
  }
}
