// The life of a job: upserts reopen it, the per-provider sweep and the liveness worker
// close it. The guarantees are about whole histories.
module Lifecycle {
  import opened Wrappers
  import opened Lease
  import opened Catalogue
  import opened Workers

  ghost function LastUpsert(log: seq<Upsert>, id: nat): Option<Time> {
    if log == [] then None
    else if log[|log| - 1].id == id then Some(log[|log| - 1].at)
    else LastUpsert(log[..|log| - 1], id)
  }

  // The number of Expired verdicts since the last Live one; Uncertain verdicts do not count.
  ghost function Trailing(verdicts: seq<Verdict>): nat {
    if verdicts == [] then 0
    else
      match verdicts[|verdicts| - 1]
      case Expired => Trailing(verdicts[..|verdicts| - 1]) + 1
      case Alive => 0
      case Uncertain => Trailing(verdicts[..|verdicts| - 1])
  }

  // ---------- What the history says about the rows ----------

  ghost predicate SeenOk(db: Db, log: seq<Upsert>) {
    && (forall j :: j in db.jobs ==> LastUpsert(log, j) == Some(db.jobs[j].lastSeenAt))
    && (forall j :: j in db.jobs ==> db.jobs[j].lastSeenAt <= db.now)
    && (forall i :: 0 <= i < |log| ==> log[i].id in db.jobs && log[i].at <= db.jobs[log[i].id].lastSeenAt)
  }

  ghost predicate StrikesOk(w: World) {
    && (forall j :: j in w.db.jobs ==> w.db.jobs[j].strikes == Trailing(History(w.log, j)))
    && (forall j :: j in w.log.verdicts ==> j in w.db.jobs)
  }

  // The unprobed part of the snapshot is still current: only this pass writes strikes.
  ghost predicate SnapshotOk(c: Config, w: World) {
    w.probing.Some? ==>
      forall j :: j in w.probing.value ==>
        j in w.db.jobs && w.db.jobs[j].strikes == w.probing.value[j] && w.db.jobs[j].key.source !in c.providers
  }

  ghost predicate LivesOk(c: Config, w: World) {
    && (forall j :: j in w.db.jobs ==> j < w.db.nextJob)
    && SeenOk(w.db, w.log.upserts)
    && StrikesOk(w)
    && SnapshotOk(c, w)
  }

  // ---------- What an upsert does to the lives ----------

  predicate SameLife(a: Job, b: Job) {
    a.key == b.key && a.closedAt == b.closedAt && a.strikes == b.strikes && a.lastSeenAt == b.lastSeenAt
  }

  ghost predicate SameLives(a: Db, b: Db) {
    a.jobs.Keys == b.jobs.Keys && forall j :: j in a.jobs ==> SameLife(a.jobs[j], b.jobs[j])
  }

  // The jobs in `ids` were seen: refreshed and open, with their strikes kept; new ones
  // start with none. Every other job is as it was.
  ghost predicate Refreshed(a: Db, b: Db, ids: seq<nat>) {
    && b.now == a.now && a.nextJob <= b.nextJob
    && (forall j :: j in ids ==> j in b.jobs && b.jobs[j].lastSeenAt == b.now && b.jobs[j].closedAt.None?)
    && (forall j :: j in a.jobs ==> j in b.jobs && b.jobs[j].key == a.jobs[j].key)
    && (forall j :: j in a.jobs ==> b.jobs[j].strikes == a.jobs[j].strikes)
    && (forall j :: j in a.jobs && j !in ids ==> SameLife(a.jobs[j], b.jobs[j]))
    && (forall j :: j in b.jobs && j !in a.jobs ==> j in ids && b.jobs[j].strikes == 0)
    && (forall j :: j in b.jobs ==> j < b.nextJob)
  }

  lemma UpsertRefreshes(db: Db, p: Posting)
    requires forall j :: j in db.jobs ==> j < db.nextJob
    ensures UpsertJob(db, p).Ok? ==> Refreshed(db, UpsertJob(db, p).value.db, [UpsertJob(db, p).value.id])
  {
  }

  lemma EnqueueLeavesJobs(db: Db, job: nat, target: int)
    ensures EnqueueJob(db, job, target) == db.(outbox := EnqueueJob(db, job, target).outbox,
                                               nextEntry := EnqueueJob(db, job, target).nextEntry)
  {
  }

  lemma SaveRefreshes(db: Db, p: Posting, target: int)
    requires forall j :: j in db.jobs ==> j < db.nextJob
    ensures Save(db, p, target).Ok? ==>
              var saved := Save(db, p, target).value;
              Refreshed(db, saved.db, [saved.id])
  {
    UpsertRefreshes(db, p);
    if UpsertJob(db, p).Ok? {
      EnqueueLeavesJobs(UpsertJob(db, p).value.db, UpsertJob(db, p).value.id, target);
    }
  }

  lemma RefreshedTwice(a: Db, b: Db, c: Db, id: nat, ids: seq<nat>)
    requires Refreshed(a, b, [id]) && Refreshed(b, c, ids)
    ensures Refreshed(a, c, [id] + ids)
  {
  }

  lemma {:induction false} SaveAllRefreshes(db: Db, postings: seq<Posting>, target: int)
    requires forall j :: j in db.jobs ==> j < db.nextJob
    ensures SaveAll(db, postings, target).Ok? ==>
              var saved := SaveAll(db, postings, target).value;
              Refreshed(db, saved.db, saved.ids)
    decreases |postings|
  {
    if postings != [] && SaveAll(db, postings, target).Ok? {
      var first := Save(db, postings[0], target).value;
      var rest := SaveAll(first.db, postings[1..], target).value;
      SaveRefreshes(db, postings[0], target);
      SaveAllRefreshes(first.db, postings[1..], target);
      RefreshedTwice(db, first.db, rest.db, first.id, rest.ids);
    }
  }

  // The log after a batch of upserts: old entries first, then one per id, stamped now.
  lemma {:induction false} UpsertsShape(log: seq<Upsert>, ids: seq<nat>, now: Time)
    ensures var r := Upserts(log, ids, now);
            && log <= r && |r| == |log| + |ids|
            && forall i :: |log| <= i < |r| ==> r[i] == Upsert(ids[i - |log|], now)
    decreases |ids|
  {
    if ids != [] {
      UpsertsShape(log + [Upsert(ids[0], now)], ids[1..], now);
    }
  }

  lemma {:induction false} UpsertsLast(log: seq<Upsert>, ids: seq<nat>, now: Time, j: nat)
    ensures LastUpsert(Upserts(log, ids, now), j) == if j in ids then Some(now) else LastUpsert(log, j)
    decreases |ids|
  {
    if ids != [] {
      var longer := log + [Upsert(ids[0], now)];
      assert longer[..|longer| - 1] == log;
      UpsertsLast(longer, ids[1..], now, j);
    }
  }

  lemma RefreshKeepsSeen(a: Db, b: Db, log: seq<Upsert>, ids: seq<nat>)
    requires SeenOk(a, log) && Refreshed(a, b, ids)
    ensures SeenOk(b, Upserts(log, ids, a.now))
  {
    forall j | j in b.jobs
      ensures LastUpsert(Upserts(log, ids, a.now), j) == Some(b.jobs[j].lastSeenAt)
    {
      UpsertsLast(log, ids, a.now, j);
    }
    UpsertsShape(log, ids, a.now);
  }

  lemma RefreshKeepsStrikes(w: World, after: World, ids: seq<nat>)
    requires StrikesOk(w) && Refreshed(w.db, after.db, ids) && after.log.verdicts == w.log.verdicts
    ensures StrikesOk(after)
  {
    forall j | j in after.db.jobs ensures after.db.jobs[j].strikes == Trailing(History(after.log, j)) {
      if j !in w.db.jobs {
        assert History(after.log, j) == [];
      }
    }
  }

  lemma RefreshKeepsLives(c: Config, w: World, after: World, ids: seq<nat>)
    requires LivesOk(c, w) && Refreshed(w.db, after.db, ids)
    requires after.probing == w.probing && after.log.verdicts == w.log.verdicts
    requires after.log.upserts == Upserts(w.log.upserts, ids, w.db.now)
    ensures LivesOk(c, after)
  {
    RefreshKeepsSeen(w.db, after.db, w.log.upserts, ids);
    RefreshKeepsStrikes(w, after, ids);
  }

  lemma SameLivesKeepsLives(c: Config, w: World, after: World)
    requires LivesOk(c, w) && SameLives(w.db, after.db)
    requires w.db.now <= after.db.now && after.db.nextJob == w.db.nextJob
    requires after.probing == w.probing && after.log.verdicts == w.log.verdicts && after.log.upserts == w.log.upserts
    ensures LivesOk(c, after)
  {
    assert forall j :: j in after.db.jobs ==> SameLife(w.db.jobs[j], after.db.jobs[j]);
  }

  // ---------- The two closers ----------

  // The counter follows the verdicts, and no other job moves.
  ghost predicate Counted(w: World, after: World, id: nat, verdict: Verdict) {
    && id in after.db.jobs && after.db.jobs[id].strikes == Trailing(History(after.log, id))
    && History(after.log, id) == History(w.log, id) + [verdict]
    && (forall j :: j in w.db.jobs && j != id ==> j in after.db.jobs && after.db.jobs[j] == w.db.jobs[j])
    && (forall j :: j != id ==> History(after.log, j) == History(w.log, j))
  }

  lemma ProbeIsLogged(c: Config, w: World, id: nat, verdict: Verdict, j: nat)
    requires LifeEnabled(c, w, Probe(id, verdict))
    ensures var t := LifeStep(c, w, Probe(id, verdict));
            History(t.log, j) == if j == id then History(w.log, j) + [verdict] else History(w.log, j)
  {
  }

  lemma ProbeLeavesTheOthers(c: Config, w: World, id: nat, verdict: Verdict, j: nat)
    requires LifeEnabled(c, w, Probe(id, verdict)) && j in w.db.jobs
    ensures var t := LifeStep(c, w, Probe(id, verdict));
            j in t.db.jobs && t.db.jobs[j].key == w.db.jobs[j].key && (j != id ==> t.db.jobs[j] == w.db.jobs[j])
  {
    match verdict
    case Expired =>
    case Alive =>
    case Uncertain =>
  }

  lemma StrikesFollow(c: Config, w: World, id: nat, verdict: Verdict)
    requires LifeEnabled(c, w, Probe(id, verdict)) && id in w.db.jobs && w.db.jobs[id].strikes == w.probing.value[id]
    ensures var t := LifeStep(c, w, Probe(id, verdict));
            id in t.db.jobs && t.db.jobs[id].strikes ==
                               match verdict
                               case Expired => w.db.jobs[id].strikes + 1
                               case Alive => 0
                               case Uncertain => w.db.jobs[id].strikes
  {
  }

  lemma TrailingOneMore(verdicts: seq<Verdict>, verdict: Verdict)
    ensures Trailing(verdicts + [verdict]) ==
            match verdict
            case Expired => Trailing(verdicts) + 1
            case Alive => 0
            case Uncertain => Trailing(verdicts)
  {
    var longer := verdicts + [verdict];
    assert longer[..|longer| - 1] == verdicts;
  }

  lemma VerdictCountsStrikes(c: Config, w: World, id: nat, verdict: Verdict)
    requires LivesOk(c, w) && LifeEnabled(c, w, Probe(id, verdict))
    ensures Counted(w, LifeStep(c, w, Probe(id, verdict)), id, verdict)
  {
    var t := LifeStep(c, w, Probe(id, verdict));
    StrikesFollow(c, w, id, verdict);
    TrailingOneMore(History(w.log, id), verdict);
    forall j ensures History(t.log, j) == if j == id then History(w.log, j) + [verdict] else History(w.log, j) {
      ProbeIsLogged(c, w, id, verdict, j);
    }
    forall j | j in w.db.jobs && j != id ensures j in t.db.jobs && t.db.jobs[j] == w.db.jobs[j] {
      ProbeLeavesTheOthers(c, w, id, verdict, j);
    }
  }

  lemma ProbeKeepsSeen(c: Config, w: World, id: nat, verdict: Verdict)
    requires LivesOk(c, w) && LifeEnabled(c, w, Probe(id, verdict))
    ensures var after := LifeStep(c, w, Probe(id, verdict));
            SeenOk(after.db, after.log.upserts)
  {
    var after := LifeStep(c, w, Probe(id, verdict));
    assert forall j :: j in w.db.jobs ==> after.db.jobs[j].lastSeenAt == w.db.jobs[j].lastSeenAt;
  }

  lemma ProbeKeepsStrikes(c: Config, w: World, id: nat, verdict: Verdict)
    requires LivesOk(c, w) && LifeEnabled(c, w, Probe(id, verdict))
    ensures StrikesOk(LifeStep(c, w, Probe(id, verdict)))
  {
    VerdictCountsStrikes(c, w, id, verdict);
  }

  lemma ProbeKeepsSnapshot(c: Config, w: World, id: nat, verdict: Verdict)
    requires LivesOk(c, w) && LifeEnabled(c, w, Probe(id, verdict))
    ensures SnapshotOk(c, LifeStep(c, w, Probe(id, verdict)))
  {
    var after := LifeStep(c, w, Probe(id, verdict));
    VerdictCountsStrikes(c, w, id, verdict);
    assert forall j :: j in after.probing.value ==> j != id && after.db.jobs[j] == w.db.jobs[j];
  }

  lemma ProbeKeepsLives(c: Config, w: World, id: nat, verdict: Verdict)
    requires LivesOk(c, w) && LifeEnabled(c, w, Probe(id, verdict))
    ensures LivesOk(c, LifeStep(c, w, Probe(id, verdict)))
  {
    ProbeKeepsSeen(c, w, id, verdict);
    ProbeKeepsStrikes(c, w, id, verdict);
    ProbeKeepsSnapshot(c, w, id, verdict);
    assert LifeStep(c, w, Probe(id, verdict)).db.nextJob == w.db.nextJob;
  }

  lemma LifeStepKeepsLives(c: Config, w: World, e: LifeEvent)
    requires LivesOk(c, w) && LifeEnabled(c, w, e)
    ensures LivesOk(c, LifeStep(c, w, e))
  {
    match e
    case Sweep(_, _) =>
    case BeginProbes =>
    case Probe(id, verdict) => ProbeKeepsLives(c, w, id, verdict);
    case EndProbes =>
  }

  // ---------- Steps and runs ----------

  // The ids a step upserts.
  function Touched(c: Config, w: World, e: Event): seq<nat> {
    match e
    case Ingest(p) => (match Save(w.db, p, c.version) case Ok(saved) => [saved.id] case Err(_) => [])
    case Telegram(Extract(key, postings)) =>
      (match CompletePost(w.db, key, postings, c.version) case Ok(saved) => saved.ids case Err(_) => [])
    case _ => []
  }

  lemma UpsertingStep(c: Config, w: World, e: Event)
    requires LivesOk(c, w)
    requires e.Ingest? || (e.Telegram? && e.post.Extract?)
    ensures var after := Step(c, w, e);
            && Refreshed(w.db, after.db, Touched(c, w, e))
            && after.log.upserts == Upserts(w.log.upserts, Touched(c, w, e), w.db.now)
            && after.probing == w.probing && after.log.verdicts == w.log.verdicts
  {
    match e
    case Ingest(p) => SaveRefreshes(w.db, p, c.version);
    case Telegram(post) => SaveAllRefreshes(w.db, post.postings, c.version);
  }

  lemma OtherStepKeepsLives(c: Config, w: World, e: Event)
    requires e.Tick? || e.EnqueueAll? || e.Enrich? || (e.Telegram? && !e.post.Extract?)
    ensures var after := Step(c, w, e);
            && SameLives(w.db, after.db)
            && w.db.now <= after.db.now && after.db.nextJob == w.db.nextJob
            && after.probing == w.probing && after.log.verdicts == w.log.verdicts && after.log.upserts == w.log.upserts
  {
    match e
    case Tick(_) =>
    case EnqueueAll =>
    case Enrich(work) => EnrichKeepsLives(c, w, work);
    case Telegram(_) =>
  }

  lemma EnrichKeepsLives(c: Config, w: World, e: EnrichEvent)
    ensures SameLives(w.db, EnrichStep(c, w, e).db)
  {
    match e
    case ClaimBatch(_, _, _) =>
    case Complete(_, _, _) =>
    case FailClaim(_, _) =>
    case Abandon(_) =>
  }

  lemma StepKeepsLives(c: Config, w: World, e: Event)
    requires LivesOk(c, w) && Enabled(c, w, e)
    ensures LivesOk(c, Step(c, w, e))
  {
    if e.Ingest? || (e.Telegram? && e.post.Extract?) {
      UpsertingStep(c, w, e);
      RefreshKeepsLives(c, w, Step(c, w, e), Touched(c, w, e));
    } else if e.Lifecycle? {
      LifeStepKeepsLives(c, w, e.life);
    } else {
      OtherStepKeepsLives(c, w, e);
      SameLivesKeepsLives(c, w, Step(c, w, e));
    }
  }

  lemma {:induction false} RunKeepsLives(c: Config, w: World, events: seq<Event>)
    requires LivesOk(c, w) && Runs(c, w, events)
    ensures LivesOk(c, After(c, w, events))
    decreases |events|
  {
    if events != [] {
      StepKeepsLives(c, w, events[0]);
      RunKeepsLives(c, Step(c, w, events[0]), events[1..]);
    }
  }

  // ---------- Guarantees ----------

  // last_seen_at is the time of the job's last upsert.
  lemma LastSeenIsTheLastUpsert(c: Config, now: Time, events: seq<Event>, j: nat)
    requires Runs(c, Genesis(now), events)
    requires j in After(c, Genesis(now), events).db.jobs
    ensures var w := After(c, Genesis(now), events);
            LastUpsert(w.log.upserts, j) == Some(w.db.jobs[j].lastSeenAt)
  {
    RunKeepsLives(c, Genesis(now), events);
  }

  // The sweep of a source closes exactly that source's open jobs with no upsert since the
  // cutoff.
  lemma SweepClosesExactlyTheUnseen(c: Config, w: World, source: string, cutoff: Time, j: nat)
    requires LivesOk(c, w) && j in w.db.jobs
    ensures var after := Step(c, w, Lifecycle(Sweep(source, cutoff)));
            var unseen := forall i :: 0 <= i < |w.log.upserts| && w.log.upserts[i].id == j ==>
                      w.log.upserts[i].at < cutoff;
            after.db.jobs[j].closedAt ==
              if w.db.jobs[j].closedAt.None? && w.db.jobs[j].key.source == source && unseen then Some(w.db.now)
              else w.db.jobs[j].closedAt
  {
    LastUpsertIsLogged(w.log.upserts, j);
  }

  lemma {:induction false} LastUpsertIsLogged(log: seq<Upsert>, j: nat)
    ensures LastUpsert(log, j).Some? ==> exists i :: 0 <= i < |log| && log[i] == Upsert(j, LastUpsert(log, j).value)
  {
    if log != [] && log[|log| - 1].id != j {
      LastUpsertIsLogged(log[..|log| - 1], j);
      if LastUpsert(log, j).Some? {
        var i :| 0 <= i < |log| - 1 && log[..|log| - 1][i] == Upsert(j, LastUpsert(log, j).value);
        assert log[i] == Upsert(j, LastUpsert(log, j).value);
      }
    } else if log != [] {
      assert log[|log| - 1] == Upsert(j, LastUpsert(log, j).value);
    }
  }

  lemma {:induction false} RunOnlyAppendsUpserts(c: Config, w: World, events: seq<Event>)
    requires LivesOk(c, w) && Runs(c, w, events)
    ensures var after := After(c, w, events);
            && w.log.upserts <= after.log.upserts
            && w.db.now <= after.db.now
            && forall i :: |w.log.upserts| <= i < |after.log.upserts| ==> after.log.upserts[i].at >= w.db.now
    decreases |events|
  {
    if events != [] {
      var next := Step(c, w, events[0]);
      StepKeepsLives(c, w, events[0]);
      StepOnlyAppendsUpserts(c, w, events[0]);
      RunOnlyAppendsUpserts(c, next, events[1..]);
      var later := After(c, w, events).log.upserts;
      assert forall i :: |w.log.upserts| <= i < |next.log.upserts| ==> later[i] == next.log.upserts[i];
    }
  }

  lemma StepOnlyAppendsUpserts(c: Config, w: World, e: Event)
    requires LivesOk(c, w) && Enabled(c, w, e)
    ensures var next := Step(c, w, e);
            && w.log.upserts <= next.log.upserts
            && w.db.now <= next.db.now
            && forall i :: |w.log.upserts| <= i < |next.log.upserts| ==> next.log.upserts[i].at == w.db.now
  {
    if e.Ingest? || (e.Telegram? && e.post.Extract?) {
      UpsertingStep(c, w, e);
      UpsertsShape(w.log.upserts, Touched(c, w, e), w.db.now);
    } else if !e.Lifecycle? {
      OtherStepKeepsLives(c, w, e);
    }
  }

  ghost predicate SweepSpares(c: Config, w: World, source: string, cutoff: Time, j: nat) {
    var after := Step(c, w, Lifecycle(Sweep(source, cutoff)));
    j in w.db.jobs && j in after.db.jobs && after.db.jobs[j] == w.db.jobs[j]
  }

  // An ingest run no longer than the grace window never closes a job it saved: not with the
  // cutoff taken when it ends, however long its sweeps then take and whatever else happens.
  lemma RunNeverClosesWhatItSaved(c: Config, start: World, run: seq<Event>, sweeps: seq<Event>, source: string, j: nat,
                                  i: nat)
    requires LivesOk(c, start) && Runs(c, start, run) && Runs(c, After(c, start, run), sweeps)
    requires After(c, start, run).db.now - start.db.now <= 48 * 3600 * 1_000_000
    requires |start.log.upserts| <= i < |After(c, start, run).log.upserts|
    requires After(c, start, run).log.upserts[i].id == j
    ensures SweepSpares(c, After(c, After(c, start, run), sweeps), source,
              After(c, start, run).db.now - 48 * 3600 * 1_000_000, j)
  {
    var end := After(c, start, run);
    RunKeepsLives(c, start, run);
    RunOnlyAppendsUpserts(c, start, run);
    UpsertStaysLogged(c, end, sweeps, i);
    SeenSince(c, After(c, end, sweeps), source, end.db.now - STALE_AFTER, i);
  }

  lemma UpsertStaysLogged(c: Config, w: World, events: seq<Event>, i: nat)
    requires LivesOk(c, w) && Runs(c, w, events) && i < |w.log.upserts|
    ensures LivesOk(c, After(c, w, events))
    ensures i < |After(c, w, events).log.upserts| && After(c, w, events).log.upserts[i] == w.log.upserts[i]
  {
    RunKeepsLives(c, w, events);
    RunOnlyAppendsUpserts(c, w, events);
  }

  lemma SeenSince(c: Config, w: World, source: string, cutoff: Time, i: nat)
    requires LivesOk(c, w) && i < |w.log.upserts| && w.log.upserts[i].at >= cutoff
    ensures SweepSpares(c, w, source, cutoff, w.log.upserts[i].id)
  {
  }

  lemma LifeStepCloses(c: Config, w: World, e: LifeEvent, j: nat)
    requires SnapshotOk(c, w) && LifeEnabled(c, w, e) && j in w.db.jobs
    ensures w.db.jobs[j].closedAt.Some? ==> LifeStep(c, w, e).db.jobs[j].closedAt.Some?
    ensures w.db.jobs[j].closedAt.None? && LifeStep(c, w, e).db.jobs[j].closedAt.Some? ==>
              var source := w.db.jobs[j].key.source;
              if source in c.providers then e.Sweep? && e.source == source else e == Probe(j, Expired)
  {
    match e
    case Sweep(_, _) =>
    case Probe(_, verdict) =>
      match verdict {
        case Expired =>
        case Alive =>
        case Uncertain =>
      }
    case BeginProbes =>
    case EndProbes =>
  }

  // A job is closed only by the sweep of its own provider or, for a source no provider
  // owns, by a probe: the two closers never share a source.
  lemma ClosersNeverShareASource(c: Config, w: World, e: Event, j: nat)
    requires LivesOk(c, w) && Enabled(c, w, e)
    requires j in w.db.jobs && w.db.jobs[j].closedAt.None?
    requires j in Step(c, w, e).db.jobs && Step(c, w, e).db.jobs[j].closedAt.Some?
    ensures var source := w.db.jobs[j].key.source;
            if source in c.providers then e.Lifecycle? && e.life.Sweep?
                && e.life.source == source else e == Lifecycle(Probe(j, Expired))
  {
    if e.Lifecycle? {
      LifeStepCloses(c, w, e.life, j);
    } else {
      OnlyAnUpsertReopens(c, w, e, j);
    }
  }

  // Outside the two closers, an upsert opens its jobs and nothing else changes.
  lemma OnlyAnUpsertReopens(c: Config, w: World, e: Event, j: nat)
    requires LivesOk(c, w) && !e.Lifecycle? && j in w.db.jobs
    ensures j in Step(c, w, e).db.jobs
    ensures Step(c, w, e).db.jobs[j].closedAt == if j in Touched(c, w, e) then None else w.db.jobs[j].closedAt
  {
    if e.Ingest? || (e.Telegram? && e.post.Extract?) {
      UpsertingStep(c, w, e);
    } else {
      OtherStepKeepsLives(c, w, e);
      assert SameLife(w.db.jobs[j], Step(c, w, e).db.jobs[j]);
    }
  }

  // The strike counter is the trailing count of Expired verdicts, whatever ingest does in
  // between.
  lemma StrikesAreTheTrailingExpired(c: Config, now: Time, events: seq<Event>, j: nat)
    requires Runs(c, Genesis(now), events)
    requires j in After(c, Genesis(now), events).db.jobs
    ensures var w := After(c, Genesis(now), events);
            w.db.jobs[j].strikes == Trailing(History(w.log, j))
  {
    RunKeepsLives(c, Genesis(now), events);
  }

  // A probe closes a job exactly when, counting this verdict, the trailing count is at
  // least two.
  lemma ProbeClosesAtTwoStrikes(c: Config, w: World, id: nat, verdict: Verdict)
    requires LivesOk(c, w) && LifeEnabled(c, w, Probe(id, verdict))
    ensures var after := LifeStep(c, w, Probe(id, verdict));
            after.db.jobs[id].closedAt ==
              if verdict == Expired && Trailing(History(w.log, id) + [verdict]) >= 2 then Some(w.db.now)
              else w.db.jobs[id].closedAt
  {
    VerdictCountsStrikes(c, w, id, verdict);
  }

  // ---------- A reopened job keeps its strikes ----------

  predicate Probes(e: Event, j: nat) {
    e.Lifecycle? && e.life.Probe? && e.life.id == j
  }

  // Any step but a probe of the job leaves its key and its verdicts, and does not close it
  // unless its source has a sweep.
  lemma StepLeavesUnprobed(c: Config, w: World, e: Event, j: nat)
    requires LivesOk(c, w) && Enabled(c, w, e) && j in w.db.jobs && !Probes(e, j)
    ensures LeftUnprobed(c, w, Step(c, w, e), j)
  {
    if e.Ingest? || (e.Telegram? && e.post.Extract?) {
      UpsertingStep(c, w, e);
    } else if e.Lifecycle? {
      LifeStepCloses(c, w, e.life, j);
      LifeStepLeavesKeys(c, w, e.life, j);
    } else {
      OtherStepKeepsLives(c, w, e);
      assert SameLife(w.db.jobs[j], Step(c, w, e).db.jobs[j]);
    }
  }

  ghost predicate LeftUnprobed(c: Config, w: World, t: World, j: nat)
    requires j in w.db.jobs
  {
    && j in t.db.jobs && t.db.jobs[j].key == w.db.jobs[j].key
    && History(t.log, j) == History(w.log, j)
    && (w.db.jobs[j].closedAt.None? && w.db.jobs[j].key.source !in c.providers ==> t.db.jobs[j].closedAt.None?)
  }

  lemma LifeStepLeavesKeys(c: Config, w: World, e: LifeEvent, j: nat)
    requires j in w.db.jobs && !(e.Probe? && e.id == j)
    ensures LifeStep(c, w, e).db.jobs[j].key == w.db.jobs[j].key
    ensures History(LifeStep(c, w, e).log, j) == History(w.log, j)
  {
    match e
    case Sweep(_, _) =>
    case BeginProbes =>
    case Probe(_, _) =>
    case EndProbes =>
  }

  lemma {:induction false} RunLeavesUnprobed(c: Config, w: World, events: seq<Event>, j: nat)
    requires LivesOk(c, w) && Runs(c, w, events) && j in w.db.jobs
    requires forall k :: 0 <= k < |events| ==> !Probes(events[k], j)
    ensures LeftUnprobed(c, w, After(c, w, events), j)
    decreases |events|
  {
    if events != [] {
      StepLeavesUnprobed(c, w, events[0], j);
      StepKeepsLives(c, w, events[0]);
      RunLeavesUnprobed(c, Step(c, w, events[0]), events[1..], j);
    }
  }

  // After an upsert has opened a job, the next Expired verdict on it closes it again if and
  // only if it already had a strike when it was upserted, whatever happens in between.
  lemma ReopenedClosesAtOneStrike(c: Config, w: World, e: Event, events: seq<Event>, j: nat)
    requires LivesOk(c, w) && Enabled(c, w, e) && j in Touched(c, w, e)
    requires Runs(c, Step(c, w, e), events) && forall k :: 0 <= k < |events| ==> !Probes(events[k], j)
    requires LifeEnabled(c, After(c, Step(c, w, e), events), Probe(j, Expired))
    ensures var t := After(c, Step(c, w, e), events);
            && LivesOk(c, t) && t.db.jobs[j].closedAt.None?
            && (LifeStep(c, t, Probe(j, Expired)).db.jobs[j].closedAt.Some? <==> Trailing(History(w.log, j)) >= 1)
  {
    var reopened := Step(c, w, e);
    var t := After(c, reopened, events);
    UpsertOpens(c, w, e, j);
    StepKeepsLives(c, w, e);
    RunLeavesUnprobed(c, reopened, events, j);
    RunKeepsLives(c, reopened, events);
    OneStrikeIsEnough(c, t, j);
  }

  lemma UpsertOpens(c: Config, w: World, e: Event, j: nat)
    requires LivesOk(c, w) && j in Touched(c, w, e)
    ensures j in Step(c, w, e).db.jobs && Step(c, w, e).db.jobs[j].closedAt.None?
    ensures History(Step(c, w, e).log, j) == History(w.log, j)
  {
    UpsertingStep(c, w, e);
  }

  lemma OneStrikeIsEnough(c: Config, t: World, j: nat)
    requires LivesOk(c, t) && LifeEnabled(c, t, Probe(j, Expired))
    requires t.db.jobs[j].closedAt.None?
    ensures LifeStep(c, t, Probe(j, Expired)).db.jobs[j].closedAt.Some? <==> Trailing(History(t.log, j)) >= 1
  {
    ProbeClosesAtTwoStrikes(c, t, j, Expired);
    var longer := History(t.log, j) + [Expired];
    assert longer[..|longer| - 1] == History(t.log, j);
  }

  lemma Then(c: Config, w: World, e: Event, rest: seq<Event>)
    requires Enabled(c, w, e) && Runs(c, Step(c, w, e), rest)
    ensures Runs(c, w, [e] + rest) && After(c, w, [e] + rest) == After(c, Step(c, w, e), rest)
  {
    assert ([e] + rest)[1..] == rest;
  }

  // One liveness pass that finds the job's page expired.
  function ExpiredPass(j: nat): seq<Event> {
    [Lifecycle(BeginProbes)] + ([Lifecycle(Probe(j, Expired))] + ([Lifecycle(EndProbes)] + []))
  }

  function Struck(job: Job, now: Time): Job {
    job.(strikes := job.strikes + 1, closedAt := if job.strikes + 1 >= 2 then Some(now) else job.closedAt)
  }

  ghost predicate Candidate(c: Config, w: World, j: nat) {
    && c.providers != {} && w.probing.None?
    && j in w.db.jobs && w.db.jobs[j].closedAt.None? && w.db.jobs[j].key.source !in c.providers
  }

  lemma ExpiredPassRuns(c: Config, w: World, j: nat)
    requires Candidate(c, w, j)
    ensures Runs(c, w, ExpiredPass(j))
    ensures var t := After(c, w, ExpiredPass(j));
            t.probing.None? && t.db == w.db.(jobs := w.db.jobs[j := Struck(w.db.jobs[j], w.db.now)])
  {
    var w1 := Step(c, w, Lifecycle(BeginProbes));
    var w2 := Step(c, w1, Lifecycle(Probe(j, Expired)));
    assert w1 == w.(probing := Some(Candidates(w.db, c.providers)));
    Then(c, w2, Lifecycle(EndProbes), []);
    Then(c, w1, Lifecycle(Probe(j, Expired)), [Lifecycle(EndProbes)] + []);
    Then(c, w, Lifecycle(BeginProbes), [Lifecycle(Probe(j, Expired))] + ([Lifecycle(EndProbes)] + []));
  }

  lemma OneExpiredPass(c: Config, w: World, j: nat)
    requires LivesOk(c, w) && Candidate(c, w, j)
    ensures Runs(c, w, ExpiredPass(j))
    ensures var t := After(c, w, ExpiredPass(j));
            && LivesOk(c, t) && t.probing.None?
            && t.db == w.db.(jobs := w.db.jobs[j := Struck(w.db.jobs[j], w.db.now)])
  {
    ExpiredPassRuns(c, w, j);
    RunKeepsLives(c, w, ExpiredPass(j));
  }

  lemma {:induction false} RunsJoin(c: Config, w: World, a: seq<Event>, b: seq<Event>)
    requires Runs(c, w, a) && Runs(c, After(c, w, a), b)
    ensures Runs(c, w, a + b) && After(c, w, a + b) == After(c, After(c, w, a), b)
    decreases |a|
  {
    if a == [] {
      assert a + b == b;
    } else {
      RunsJoin(c, Step(c, w, a[0]), a[1..], b);
      assert (a + b)[0] == a[0] && (a + b)[1..] == a[1..] + b;
    }
  }

  // The first upsert of a posting, from empty tables, and a later one that finds its row.
  lemma FirstIngest(c: Config, now: Time, p: Posting)
    ensures Runs(c, Genesis(now), [Ingest(p)])
    ensures var t := After(c, Genesis(now), [Ingest(p)]);
            && LivesOk(c, t) && t.probing.None? && t.db.byKey == map[p.key := 1]
            && 1 in t.db.jobs && t.db.jobs[1].key == p.key && t.db.jobs[1].closedAt.None? && t.db.jobs[1].strikes == 0
  {
    assert [Ingest(p)][1..] == [];
    RunKeepsLives(c, Genesis(now), [Ingest(p)]);
  }

  lemma NextIngest(c: Config, w: World, p: Posting)
    requires LivesOk(c, w) && w.db.byKey == map[p.key := 1] && 1 in w.db.jobs && w.db.jobs[1].key == p.key
    ensures Runs(c, w, [Ingest(p)])
    ensures var t := After(c, w, [Ingest(p)]);
            && LivesOk(c, t) && t.probing == w.probing && t.db.byKey == w.db.byKey
            && 1 in t.db.jobs && t.db.jobs[1].key == p.key && t.db.jobs[1].closedAt.None?
            && t.db.jobs[1].strikes == w.db.jobs[1].strikes
  {
    assert [Ingest(p)][1..] == [];
    RunKeepsLives(c, w, [Ingest(p)]);
  }

  // At one input: two Expired verdicts close a job, an ingest reopens it, and a single further
  // Expired verdict closes it again.
  lemma OneMoreVerdictCloses(c: Config, now: Time, p: Posting)
    requires c.providers != {} && p.key.source !in c.providers
    ensures var closed := [Ingest(p)] + ExpiredPass(1) + ExpiredPass(1);
            var reopened := closed + [Ingest(p)];
            && Runs(c, Genesis(now), reopened + ExpiredPass(1))
            && 1 in After(c, Genesis(now), closed).db.jobs && After(c, Genesis(now), closed).db.jobs[1].closedAt.Some?
            && 1 in After(c, Genesis(now), reopened).db.jobs
            && After(c, Genesis(now), reopened).db.jobs[1].closedAt.None?
            && 1 in After(c, Genesis(now), reopened + ExpiredPass(1)).db.jobs
            && After(c, Genesis(now), reopened + ExpiredPass(1)).db.jobs[1].closedAt.Some?
  {
    var g := Genesis(now);
    FirstIngest(c, now, p);
    var w1 := After(c, g, [Ingest(p)]);
    OneExpiredPass(c, w1, 1);
    RunsJoin(c, g, [Ingest(p)], ExpiredPass(1));
    var w2 := After(c, w1, ExpiredPass(1));
    OneExpiredPass(c, w2, 1);
    RunsJoin(c, g, [Ingest(p)] + ExpiredPass(1), ExpiredPass(1));
    var closed := [Ingest(p)] + ExpiredPass(1) + ExpiredPass(1);
    var w3 := After(c, w2, ExpiredPass(1));
    NextIngest(c, w3, p);
    RunsJoin(c, g, closed, [Ingest(p)]);
    var w4 := After(c, w3, [Ingest(p)]);
    OneExpiredPass(c, w4, 1);
    RunsJoin(c, g, closed + [Ingest(p)], ExpiredPass(1));
  }
}
