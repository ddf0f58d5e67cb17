// The transactional outbox is exact: with one schema version in use, the queued jobs are
// precisely the jobs not yet enriched to it, whatever the workers do and in whatever order.
module Outbox {
  import opened Lease
  import opened Catalogue
  import opened Workers

  ghost function Queued(db: Db): set<nat> {
    set o | o in db.outbox :: db.outbox[o].jobId
  }

  ghost function Pending(db: Db, version: int): set<nat> {
    set j | j in db.jobs && Needs(db.jobs[j], version)
  }

  ghost predicate Exact(db: Db, version: int) {
    Queued(db) == Pending(db, version)
  }

  ghost predicate IdsBounded(db: Db, version: int) {
    && (forall j :: j in db.jobs ==> j < db.nextJob)
    && (forall o :: o in db.outbox ==> o < db.nextEntry && db.outbox[o].target == version)
  }

  // UNIQUE (job_id, target_version), for one version.
  ghost predicate OnePerJob(db: Db) {
    forall o, p :: o in db.outbox && p in db.outbox && db.outbox[o].jobId == db.outbox[p].jobId ==> o == p
  }

  // Nothing is queued that is already done. Jobs older than the outbox may still be
  // missing from it.
  ghost predicate Sound(db: Db, version: int) {
    && IdsBounded(db, version)
    && OnePerJob(db)
    && Queued(db) <= Pending(db, version)
  }

  ghost predicate Done(db: Db, job: nat, version: int) {
    job in db.jobs && !Needs(db.jobs[job], version)
  }

  // A claim taken earlier: its row is still there, or its job is done.
  ghost predicate ClaimSound(db: Db, version: int, claim: Claimed) {
    && claim.target == version
    && claim.jobId in db.jobs
    && claim.outboxId < db.nextEntry
    && (if claim.outboxId in db.outbox then db.outbox[claim.outboxId].jobId == claim.jobId
        else Done(db, claim.jobId, version))
  }

  ghost predicate SoundWorld(c: Config, w: World) {
    && Sound(w.db, c.version)
    && (forall claim :: claim in w.held ==> ClaimSound(w.db, c.version, claim))
  }

  // Jobs never leave the table or become undone, a row id is never reused, and a row
  // disappears only when its job is done.
  ghost predicate Evolves(a: Db, b: Db, version: int) {
    && a.nextEntry <= b.nextEntry
    && (forall j :: j in a.jobs ==> j in b.jobs)
    && (forall j :: Done(a, j, version) ==> Done(b, j, version))
    && (forall o :: o in b.outbox && o < a.nextEntry ==> o in a.outbox && a.outbox[o].jobId == b.outbox[o].jobId)
    && (forall o :: o in a.outbox && o !in b.outbox ==> Done(b, a.outbox[o].jobId, version))
  }

  ghost predicate Kept(a: Db, b: Db, version: int) {
    && Sound(b, version)
    && Evolves(a, b, version)
    && (Exact(a, version) ==> Exact(b, version))
  }

  lemma KeptTwice(a: Db, b: Db, c: Db, version: int)
    requires IdsBounded(a, version) && Kept(a, b, version) && Kept(b, c, version)
    ensures Kept(a, c, version)
  {
    EvolvesTwice(a, b, c, version);
  }

  lemma EvolvesTwice(a: Db, b: Db, c: Db, version: int)
    requires IdsBounded(a, version) && Evolves(a, b, version) && Evolves(b, c, version)
    ensures Evolves(a, c, version)
  {
    forall o | o in a.outbox && o !in c.outbox
      ensures Done(c, a.outbox[o].jobId, version)
    {
      if o in b.outbox {
        assert b.outbox[o].jobId == a.outbox[o].jobId;
      }
    }
  }

  // ---------- Statements ----------

  lemma SaveIsKept(db: Db, p: Posting, version: int)
    requires Sound(db, version)
    requires Save(db, p, version).Ok?
    ensures var saved := Save(db, p, version).value;
            && Kept(db, saved.db, version) && saved.id in saved.db.jobs
            && Queued(saved.db) == Queued(db) + ({saved.id} * Pending(saved.db, version))
  {
    var up := UpsertJob(db, p).value;
    UpsertIsSound(db, p, version);
    EnqueueJobIsKept(up.db, up.id, version);
    EvolvesTwice(db, up.db, Save(db, p, version).value.db, version);
  }

  lemma UpsertIsSound(db: Db, p: Posting, version: int)
    requires Sound(db, version)
    requires UpsertJob(db, p).Ok?
    ensures var up := UpsertJob(db, p).value;
            && Sound(up.db, version) && Evolves(db, up.db, version)
            && up.id in up.db.jobs
            && Queued(up.db) == Queued(db)
            && Pending(db, version) <= Pending(up.db, version) <= Pending(db, version) + {up.id}
  {
  }

  lemma EnqueueJobIsKept(db: Db, job: nat, version: int)
    requires Sound(db, version)
    ensures Kept(db, EnqueueJob(db, job, version), version)
    ensures Queued(EnqueueJob(db, job, version)) == Queued(db) + ({job} * Pending(db, version))
    ensures Pending(EnqueueJob(db, job, version), version) == Pending(db, version)
  {
    var b := EnqueueJob(db, job, version);
    if b != db {
      assert b.outbox.Keys == db.outbox.Keys + {db.nextEntry};
      assert forall o :: o in db.outbox ==> b.outbox[o] == db.outbox[o];
      assert b.outbox[db.nextEntry].jobId == job;
      assert Queued(b) == Queued(db) + {job};
    } else if job in Pending(db, version) {
      var o :| o in db.outbox && db.outbox[o].jobId == job;
      assert job in Queued(db);
    }
  }

  lemma {:induction false} EnqueuePendingQueuesTheRest(db: Db, from: nat, version: int)
    requires Sound(db, version)
    ensures Kept(db, EnqueuePending(db, from, version), version)
    ensures EnqueuePending(db, from, version).jobs == db.jobs
    ensures Queued(EnqueuePending(db, from, version)) == Queued(db) + PendingFrom(db, from, version)
    decreases db.nextJob - from
  {
    if from < db.nextJob {
      var b := EnqueueJob(db, from, version);
      EnqueueJobIsKept(db, from, version);
      EnqueuePendingQueuesTheRest(b, from + 1, version);
      KeptTwice(db, b, EnqueuePending(b, from + 1, version), version);
      PendingFromSplits(db, from, version);
    }
  }

  lemma PendingFromSplits(db: Db, from: nat, version: int)
    ensures PendingFrom(db, from, version) == ({from} * Pending(db, version)) + PendingFrom(db, from + 1, version)
  {
  }

  ghost function PendingFrom(db: Db, from: nat, version: int): set<nat> {
    set j | j in Pending(db, version) && j >= from
  }

  lemma ClaimIsKept(db: Db, picked: set<nat>, version: int)
    requires Sound(db, version)
    requires picked <= db.outbox.Keys
    ensures Kept(db, ClaimEntries(db, picked), version)
  {
    var b := ClaimEntries(db, picked);
    assert b.outbox.Keys == db.outbox.Keys;
    assert forall o :: o in db.outbox ==>
              b.outbox[o].jobId == db.outbox[o].jobId && b.outbox[o].target == db.outbox[o].target;
    SameReferencesSameQueue(db, b);
  }

  lemma FreshClaimsAreSound(db: Db, picked: set<nat>, claim: Claimed, version: int)
    requires Sound(db, version)
    requires claim in Tokens(db, picked)
    ensures ClaimSound(ClaimEntries(db, picked), version, claim)
  {
    assert claim.jobId in Queued(db);
  }

  lemma SameReferencesSameQueue(a: Db, b: Db)
    requires a.outbox.Keys == b.outbox.Keys
    requires forall o :: o in a.outbox ==> b.outbox[o].jobId == a.outbox[o].jobId
    ensures Queued(a) == Queued(b)
  {
    assert forall o :: o in a.outbox <==> o in b.outbox;
  }

  lemma CompleteIsKept(db: Db, claim: Claimed, payload: string, at: Time, version: int)
    requires Sound(db, version)
    requires ClaimSound(db, version, claim)
    ensures Kept(db, CompleteEntry(db, claim.outboxId, claim.jobId, claim.target, payload, at), version)
  {
    var b := CompleteEntry(db, claim.outboxId, claim.jobId, claim.target, payload, at);
    assert Pending(b, version) == Pending(db, version) - {claim.jobId};
    if claim.outboxId in db.outbox {
      DeletingDequeues(db, b, claim.outboxId);
    } else {
      assert b.outbox == db.outbox;
      assert claim.jobId !in Queued(db);
    }
  }

  lemma DeletingDequeues(a: Db, b: Db, id: nat)
    requires OnePerJob(a) && id in a.outbox && b.outbox == a.outbox - {id}
    ensures Queued(b) == Queued(a) - {a.outbox[id].jobId}
    ensures OnePerJob(b)
  {
    forall j | j in Queued(a) - {a.outbox[id].jobId}
      ensures j in Queued(b)
    {
      var o :| o in a.outbox && a.outbox[o].jobId == j;
      assert o in b.outbox;
    }
  }

  lemma FailIsKept(db: Db, id: nat, maxAttempts: int, error: string, version: int)
    requires Sound(db, version)
    ensures RecordEnrichmentFailure(db, id, maxAttempts, error).Ok? ==>
              var b := RecordEnrichmentFailure(db, id, maxAttempts, error).value;
              Kept(db, b, version) && Queued(b) == Queued(db) && Pending(b, version) == Pending(db, version)
  {
    if id in db.outbox {
      var b := RecordEnrichmentFailure(db, id, maxAttempts, error).value;
      assert b.outbox.Keys == db.outbox.Keys;
      assert forall o :: o in db.outbox ==>
                b.outbox[o].jobId == db.outbox[o].jobId && b.outbox[o].target == db.outbox[o].target;
      SameReferencesSameQueue(db, b);
    }
  }

  // Anything that leaves the outbox, the keys and the enrichment stamps alone.
  ghost predicate SameWork(a: Db, b: Db) {
    && a.outbox == b.outbox && a.nextEntry == b.nextEntry && a.nextJob == b.nextJob
    && a.jobs.Keys == b.jobs.Keys
    && (forall j :: j in a.jobs ==> b.jobs[j].enrichedAt == a.jobs[j].enrichedAt)
    && forall j :: j in a.jobs ==> b.jobs[j].version == a.jobs[j].version
  }

  lemma SameWorkIsKept(a: Db, b: Db, version: int)
    requires Sound(a, version) && SameWork(a, b)
    ensures Kept(a, b, version)
  {
    assert Queued(a) == Queued(b);
    assert Pending(a, version) == Pending(b, version);
  }

  lemma {:induction false} SaveAllIsKept(db: Db, postings: seq<Posting>, version: int)
    requires Sound(db, version)
    ensures SaveAll(db, postings, version).Ok? ==> Kept(db, SaveAll(db, postings, version).value.db, version)
    decreases |postings|
  {
    if postings != [] && Save(db, postings[0], version).Ok? {
      var first := Save(db, postings[0], version).value;
      SaveIsKept(db, postings[0], version);
      SaveAllIsKept(first.db, postings[1..], version);
      if SaveAll(db, postings, version).Ok? {
        KeptTwice(db, first.db, SaveAll(db, postings, version).value.db, version);
      }
    }
  }

  // ---------- Steps and runs ----------

  lemma EnrichStepKeepsDb(c: Config, w: World, e: EnrichEvent)
    requires SoundWorld(c, w) && EnrichEnabled(c, w, e)
    ensures Kept(w.db, EnrichStep(c, w, e).db, c.version)
  {
    match e
    case ClaimBatch(_, _, picked) => ClaimIsKept(w.db, picked, c.version);
    case Complete(claim, payload, at) => CompleteIsKept(w.db, claim, payload, at, c.version);
    case FailClaim(claim, error) =>
      SameWorkIsKept(w.db, w.db, c.version);
      FailIsKept(w.db, claim.outboxId, c.maxAttempts, error, c.version);
    case Abandon(_) => SameWorkIsKept(w.db, w.db, c.version);
  }

  lemma PostStepKeepsDb(c: Config, w: World, e: PostEvent)
    requires Sound(w.db, c.version)
    ensures Kept(w.db, PostStep(c, w, e).db, c.version)
  {
    SameWorkIsKept(w.db, w.db, c.version);
    if e.Extract? {
      SaveAllIsKept(w.db, e.postings, c.version);
      if CompletePost(w.db, e.key, e.postings, c.version).Ok? {
        var mid := SaveAll(w.db, e.postings, c.version).value.db;
        SameWorkIsKept(mid, MarkPostExtracted(mid, e.key), c.version);
        KeptTwice(w.db, mid, MarkPostExtracted(mid, e.key), c.version);
      }
    } else {
      SameWorkIsKept(w.db, PostStep(c, w, e).db, c.version);
    }
  }

  lemma LifeStepKeepsDb(c: Config, w: World, e: LifeEvent)
    requires Sound(w.db, c.version)
    ensures Kept(w.db, LifeStep(c, w, e).db, c.version)
  {
    if e.Probe? && w.probing.Some? && e.id in w.probing.value {
      VerdictIsSameWork(w.db, e.id, w.probing.value[e.id], e.verdict);
    }
    SameWorkIsKept(w.db, LifeStep(c, w, e).db, c.version);
  }

  lemma VerdictIsSameWork(db: Db, id: nat, snapshot: nat, verdict: Verdict)
    ensures SameWork(db, ApplyVerdict(db, id, snapshot, verdict))
  {
  }

  lemma StepKeepsDb(c: Config, w: World, e: Event)
    requires SoundWorld(c, w) && Enabled(c, w, e)
    ensures Kept(w.db, Step(c, w, e).db, c.version)
  {
    match e
    case Tick(_) => SameWorkIsKept(w.db, Step(c, w, e).db, c.version);
    case Ingest(p) =>
      SameWorkIsKept(w.db, w.db, c.version);
      if Save(w.db, p, c.version).Ok? { SaveIsKept(w.db, p, c.version); }
    case EnqueueAll => EnqueuePendingQueuesTheRest(w.db, 0, c.version);
    case Enrich(work) => EnrichStepKeepsDb(c, w, work);
    case Telegram(post) => PostStepKeepsDb(c, w, post);
    case Lifecycle(life) => LifeStepKeepsDb(c, w, life);
  }

  lemma ClaimSoundLater(a: Db, b: Db, version: int, claim: Claimed)
    requires ClaimSound(a, version, claim) && Evolves(a, b, version)
    ensures ClaimSound(b, version, claim)
  {
  }

  lemma StepKeepsSound(c: Config, w: World, e: Event)
    requires SoundWorld(c, w) && Enabled(c, w, e)
    ensures SoundWorld(c, Step(c, w, e))
    ensures Exact(w.db, c.version) ==> Exact(Step(c, w, e).db, c.version)
  {
    StepKeepsDb(c, w, e);
    var after := Step(c, w, e);
    forall claim | claim in after.held
      ensures ClaimSound(after.db, c.version, claim)
    {
      if claim in w.held {
        ClaimSoundLater(w.db, after.db, c.version, claim);
      } else {
        NewClaimsAreTokens(c, w, e, claim);
        FreshClaimsAreSound(w.db, e.work.picked, claim, c.version);
      }
    }
  }

  lemma NewClaimsAreTokens(c: Config, w: World, e: Event, claim: Claimed)
    requires claim in Step(c, w, e).held && claim !in w.held
    ensures e.Enrich? && e.work.ClaimBatch? && claim in Tokens(w.db, e.work.picked)
  {
  }

  lemma {:induction false} RunKeepsSound(c: Config, w: World, events: seq<Event>)
    requires SoundWorld(c, w) && Runs(c, w, events)
    ensures SoundWorld(c, After(c, w, events))
    ensures Exact(w.db, c.version) ==> Exact(After(c, w, events).db, c.version)
    decreases |events|
  {
    if events != [] {
      StepKeepsSound(c, w, events[0]);
      RunKeepsSound(c, Step(c, w, events[0]), events[1..]);
    }
  }

  // A job has a queue row exactly when it is not enriched, or to an older version; and only one.
  ghost predicate QueuedExactly(db: Db, version: int) {
    && (forall j :: (exists o :: o in db.outbox && db.outbox[o].jobId == j) <==>
                    j in db.jobs && (db.jobs[j].enrichedAt.None? || db.jobs[j].version < version))
    && forall o, p :: o in db.outbox && p in db.outbox && db.outbox[o].jobId == db.outbox[p].jobId ==> o == p
  }

  lemma ExactlyByRow(db: Db, version: int)
    requires Sound(db, version) && Exact(db, version)
    ensures QueuedExactly(db, version)
  {
    forall j
      ensures (exists o :: o in db.outbox && db.outbox[o].jobId == j) <==>
                j in db.jobs && (db.jobs[j].enrichedAt.None? || db.jobs[j].version < version)
    {
      assert j in Queued(db) <==> j in Pending(db, version);
    }
  }

  // One bulk enqueue makes the outbox exact, and every later step keeps it exact.
  lemma OutboxExactAfterBulkEnqueue(c: Config, w: World, events: seq<Event>)
    requires SoundWorld(c, w) && Runs(c, Step(c, w, EnqueueAll), events)
    ensures QueuedExactly(After(c, Step(c, w, EnqueueAll), events).db, c.version)
  {
    StepKeepsSound(c, w, EnqueueAll);
    EnqueuePendingQueuesTheRest(w.db, 0, c.version);
    assert Exact(Step(c, w, EnqueueAll).db, c.version);
    RunKeepsSound(c, Step(c, w, EnqueueAll), events);
    ExactlyByRow(After(c, Step(c, w, EnqueueAll), events).db, c.version);
  }

  // Starting from empty tables, no bulk enqueue is needed.
  lemma OutboxExactFromEmpty(c: Config, now: Time, events: seq<Event>)
    requires Runs(c, Genesis(now), events)
    ensures QueuedExactly(After(c, Genesis(now), events).db, c.version)
  {
    assert Queued(Genesis(now).db) == {};
    assert Pending(Genesis(now).db, c.version) == {};
    RunKeepsSound(c, Genesis(now), events);
    ExactlyByRow(After(c, Genesis(now), events).db, c.version);
  }
}
