// The outbox while several schema versions are about: rows and claims of older versions are still
// worked off after an upgrade. A write-back stores its own row's version, so a late one sets a job
// back. This says over every run which jobs of the version in use that leaves out of the queue.
module Upgrades {
  import opened Wrappers
  import opened Lease
  import opened Catalogue
  import opened Workers
  import opened Lifecycle

  // ---------- Rows and claims of any version ----------

  predicate SameWork(a: Entry, b: Entry) {
    a.jobId == b.jobId && a.target == b.target
  }

  // Identity columns, the foreign key, and UNIQUE (job_id, target_version).
  ghost predicate Orderly(db: Db) {
    && (forall j :: j in db.jobs ==> j < db.nextJob)
    && (forall o :: o in db.outbox ==> o < db.nextEntry && db.outbox[o].jobId in db.jobs)
    && (forall o, p :: o in db.outbox && p in db.outbox && SameWork(db.outbox[o], db.outbox[p]) ==> o == p)
  }

  // A claim taken earlier: if its row is still there, it is the one claimed.
  ghost predicate ClaimOrderly(db: Db, claim: Claimed) {
    && claim.jobId in db.jobs && claim.outboxId < db.nextEntry
    && (claim.outboxId in db.outbox ==>
          db.outbox[claim.outboxId].jobId == claim.jobId && db.outbox[claim.outboxId].target == claim.target)
  }

  ghost predicate OrderlyWorld(w: World) {
    Orderly(w.db) && forall claim :: claim in w.held ==> ClaimOrderly(w.db, claim)
  }

  // Pending for the version, with no row for it.
  predicate LeftOut(db: Db, j: nat, version: int) {
    && j in db.jobs && (db.jobs[j].enrichedAt.None? || db.jobs[j].version < version)
    && forall o :: o in db.outbox ==> db.outbox[o].jobId != j || db.outbox[o].target != version
  }

  // Rows keep what they are about, ids are not used again, and jobs stay.
  ghost predicate Follows(a: Db, b: Db) {
    && a.nextEntry <= b.nextEntry && a.jobs.Keys <= b.jobs.Keys
    && forall o :: o in b.outbox && o < a.nextEntry ==>
                     o in a.outbox && b.outbox[o].jobId == a.outbox[o].jobId && b.outbox[o].target == a.outbox[o].target
  }

  lemma ClaimStaysOrderly(a: Db, b: Db, claim: Claimed)
    requires ClaimOrderly(a, claim) && Follows(a, b)
    ensures ClaimOrderly(b, claim)
  {
  }

  // ---------- Enqueueing and saving ----------

  // What an insert of one job's row does, if it is needed.
  lemma EnqueueQueues(db: Db, job: nat, version: int, j: nat)
    requires Orderly(db)
    ensures var b := EnqueueJob(db, job, version);
            && Orderly(b) && Follows(db, b) && b.jobs == db.jobs
            && (LeftOut(b, j, version) <==> LeftOut(db, j, version) && j != job)
  {
    var b := EnqueueJob(db, job, version);
    if b != db {
      assert b.outbox[db.nextEntry].jobId == job && b.outbox[db.nextEntry].target == version;
      assert forall o :: o in db.outbox ==> b.outbox[o] == db.outbox[o];
    }
  }

  lemma FollowsTwice(a: Db, b: Db, c: Db)
    requires Follows(a, b) && Follows(b, c)
    ensures Follows(a, c)
  {
  }

  lemma {:induction false} EnqueuePendingQueues(db: Db, from: nat, version: int, j: nat)
    requires Orderly(db)
    ensures var b := EnqueuePending(db, from, version);
            && Orderly(b) && Follows(db, b) && b.jobs == db.jobs
            && (LeftOut(b, j, version) <==> LeftOut(db, j, version) && j < from)
    decreases db.nextJob - from
  {
    if from < db.nextJob {
      var next := EnqueueJob(db, from, version);
      EnqueueQueues(db, from, version, j);
      EnqueuePendingQueues(next, from + 1, version, j);
      FollowsTwice(db, next, EnqueuePending(next, from + 1, version));
    }
  }

  lemma UpsertLeavesTheQueue(db: Db, p: Posting, version: int, j: nat)
    requires Orderly(db) && UpsertJob(db, p).Ok?
    ensures var up := UpsertJob(db, p).value;
            && Orderly(up.db) && Follows(db, up.db) && up.id in up.db.jobs
            && (j != up.id ==> (LeftOut(up.db, j, version) <==> LeftOut(db, j, version)))
  {
  }

  lemma SaveQueues(db: Db, p: Posting, version: int, j: nat)
    requires Orderly(db) && Save(db, p, version).Ok?
    ensures var saved := Save(db, p, version).value;
            && Orderly(saved.db) && Follows(db, saved.db)
            && (LeftOut(saved.db, j, version) <==> LeftOut(db, j, version) && j != saved.id)
  {
    var up := UpsertJob(db, p).value;
    UpsertLeavesTheQueue(db, p, version, j);
    EnqueueQueues(up.db, up.id, version, j);
    FollowsTwice(db, up.db, EnqueueJob(up.db, up.id, version));
  }

  lemma {:induction false} SaveAllQueues(db: Db, postings: seq<Posting>, version: int, j: nat)
    requires Orderly(db) && SaveAll(db, postings, version).Ok?
    ensures var saved := SaveAll(db, postings, version).value;
            && Orderly(saved.db) && Follows(db, saved.db)
            && (LeftOut(saved.db, j, version) <==> LeftOut(db, j, version) && j !in saved.ids)
    decreases |postings|
  {
    if postings != [] {
      var first := Save(db, postings[0], version).value;
      var rest := SaveAll(first.db, postings[1..], version).value;
      SaveQueues(db, postings[0], version, j);
      SaveAllQueues(first.db, postings[1..], version, j);
      FollowsTwice(db, first.db, rest.db);
      assert SaveAll(db, postings, version).value.ids == [first.id] + rest.ids;
    }
  }

  // ---------- One step ----------

  predicate WritesBack(e: Event, j: nat) {
    e.Enrich? && e.work.Complete? && e.work.claim.jobId == j
  }

  // A bulk enqueue, an upsert of the job, or a write-back to it that is not older.
  predicate Repairs(c: Config, w: World, e: Event, j: nat) {
    e.EnqueueAll? || j in Touched(c, w, e) || (WritesBack(e, j) && e.work.claim.target >= c.version)
  }

  // An older write-back to a job that has no row for the version in use.
  predicate SetsBack(c: Config, w: World, e: Event, j: nat) {
    && WritesBack(e, j) && e.work.claim.target < c.version
    && forall o :: o in w.db.outbox ==> w.db.outbox[o].jobId != j || w.db.outbox[o].target != c.version
  }

  // What a step does to the queue, seen from one job.
  ghost predicate Accounted(c: Config, w: World, e: Event, j: nat) {
    var t := Step(c, w, e);
    && Orderly(t.db) && Follows(w.db, t.db)
    && (LeftOut(t.db, j, c.version) <==>
        SetsBack(c, w, e, j) || (LeftOut(w.db, j, c.version) && !Repairs(c, w, e, j)))
  }

  // Tables with the same rows, but for stamps and columns the queue does not look at.
  ghost predicate SameQueue(a: Db, b: Db) {
    && a.nextEntry == b.nextEntry && a.nextJob == b.nextJob && a.jobs.Keys == b.jobs.Keys
    && a.outbox.Keys == b.outbox.Keys
    && (forall o :: o in a.outbox ==>
                      b.outbox[o].jobId == a.outbox[o].jobId && b.outbox[o].target == a.outbox[o].target)
    && (forall j :: j in a.jobs ==>
                      b.jobs[j].enrichedAt == a.jobs[j].enrichedAt && b.jobs[j].version == a.jobs[j].version)
  }

  lemma SameQueueIsOrderly(a: Db, b: Db)
    requires Orderly(a) && SameQueue(a, b)
    ensures Orderly(b) && Follows(a, b)
  {
    assert forall o :: o in b.outbox ==> o in a.outbox;
  }

  lemma SameQueueLeavesOut(a: Db, b: Db, j: nat, version: int)
    requires SameQueue(a, b)
    ensures LeftOut(b, j, version) <==> LeftOut(a, j, version)
  {
    assert forall o :: o in b.outbox <==> o in a.outbox;
  }

  // Neither enqueues, upserts nor writes back.
  predicate Quiet(e: Event) {
    match e
    case Tick(_) => true
    case Ingest(_) => false
    case EnqueueAll => false
    case Enrich(work) => !work.Complete?
    case Telegram(post) => !post.Extract?
    case Lifecycle(_) => true
  }

  lemma EnrichIsQuiet(c: Config, w: World, e: EnrichEvent)
    requires !e.Complete?
    ensures SameQueue(w.db, EnrichStep(c, w, e).db)
  {
    match e
    case ClaimBatch(_, _, _) =>
    case FailClaim(_, _) =>
    case Abandon(_) =>
  }

  lemma LifeIsQuiet(c: Config, w: World, e: LifeEvent)
    ensures SameQueue(w.db, LifeStep(c, w, e).db)
  {
    match e
    case Sweep(_, _) =>
    case BeginProbes =>
    case Probe(_, verdict) =>
      match verdict {
        case Expired =>
        case Alive =>
        case Uncertain =>
      }
    case EndProbes =>
  }

  lemma QuietStepsKeepTheQueue(c: Config, w: World, e: Event)
    requires Quiet(e)
    ensures SameQueue(w.db, Step(c, w, e).db)
  {
    match e
    case Tick(_) =>
    case Enrich(work) => EnrichIsQuiet(c, w, work);
    case Telegram(_) =>
    case Lifecycle(life) => LifeIsQuiet(c, w, life);
  }

  lemma QuietStepAccounted(c: Config, w: World, e: Event, j: nat)
    requires Orderly(w.db) && Quiet(e)
    ensures Accounted(c, w, e, j)
  {
    QuietStepsKeepTheQueue(c, w, e);
    SameQueueIsOrderly(w.db, Step(c, w, e).db);
    SameQueueLeavesOut(w.db, Step(c, w, e).db, j, c.version);
  }

  lemma WriteBackIsOrderly(db: Db, claim: Claimed, payload: string, at: Time)
    requires Orderly(db) && ClaimOrderly(db, claim)
    ensures var b := CompleteEntry(db, claim.outboxId, claim.jobId, claim.target, payload, at);
            Orderly(b) && Follows(db, b)
  {
  }

  lemma WriteBackLeavesOut(db: Db, claim: Claimed, payload: string, at: Time, j: nat, version: int)
    requires Orderly(db) && ClaimOrderly(db, claim)
    ensures LeftOut(CompleteEntry(db, claim.outboxId, claim.jobId, claim.target, payload, at), j, version) <==>
            if claim.jobId != j then LeftOut(db, j, version)
            else claim.target < version
                 && forall o :: o in db.outbox ==> db.outbox[o].jobId != j || db.outbox[o].target != version
  {
    var b := CompleteEntry(db, claim.outboxId, claim.jobId, claim.target, payload, at);
    assert b.outbox == db.outbox - {claim.outboxId};
    if claim.jobId != j {
      assert forall o :: o in db.outbox && db.outbox[o].jobId == j ==> o in b.outbox;
    } else if claim.target < version {
      assert forall o :: o in db.outbox && db.outbox[o].target == version ==> o in b.outbox;
    } else {
      assert !LeftOut(b, j, version);
    }
  }

  lemma WriteBackAccounted(c: Config, w: World, claim: Claimed, payload: string, at: Time, j: nat)
    requires Orderly(w.db) && ClaimOrderly(w.db, claim)
    ensures Accounted(c, w, Enrich(Complete(claim, payload, at)), j)
  {
    WriteBackIsOrderly(w.db, claim, payload, at);
    WriteBackLeavesOut(w.db, claim, payload, at, j, c.version);
  }

  lemma StepAccounted(c: Config, w: World, e: Event, j: nat)
    requires OrderlyWorld(w) && Enabled(c, w, e)
    ensures Accounted(c, w, e, j)
  {
    if Quiet(e) {
      QuietStepAccounted(c, w, e, j);
    } else {
      match e
      case EnqueueAll => EnqueuePendingQueues(w.db, 0, c.version, j);
      case Ingest(p) => IngestAccounted(c, w, p, j);
      case Enrich(work) => WriteBackAccounted(c, w, work.claim, work.payload, work.at, j);
      case Telegram(post) => ExtractAccounted(c, w, post.key, post.postings, j);
    }
  }

  lemma IngestAccounted(c: Config, w: World, p: Posting, j: nat)
    requires Orderly(w.db)
    ensures Accounted(c, w, Ingest(p), j)
  {
    if Save(w.db, p, c.version).Ok? {
      SaveQueues(w.db, p, c.version, j);
    }
  }

  lemma ExtractAccounted(c: Config, w: World, key: PostKey, postings: seq<Posting>, j: nat)
    requires Orderly(w.db)
    ensures Accounted(c, w, Telegram(Extract(key, postings)), j)
  {
    if SaveAll(w.db, postings, c.version).Ok? {
      var saved := SaveAll(w.db, postings, c.version).value.db;
      SaveAllQueues(w.db, postings, c.version, j);
      SameQueueIsOrderly(saved, MarkPostExtracted(saved, key));
      SameQueueLeavesOut(saved, MarkPostExtracted(saved, key), j, c.version);
    }
  }

  lemma NewClaimsAreOrderly(c: Config, w: World, e: Event, claim: Claimed)
    requires OrderlyWorld(w) && Enabled(c, w, e) && claim in Step(c, w, e).held && claim !in w.held
    ensures ClaimOrderly(Step(c, w, e).db, claim)
  {
  }

  lemma StepKeepsOrderly(c: Config, w: World, e: Event)
    requires OrderlyWorld(w) && Enabled(c, w, e)
    ensures OrderlyWorld(Step(c, w, e))
  {
    var t := Step(c, w, e);
    StepAccounted(c, w, e, 0);
    forall claim | claim in t.held ensures ClaimOrderly(t.db, claim) {
      if claim in w.held {
        ClaimStaysOrderly(w.db, t.db, claim);
      } else {
        NewClaimsAreOrderly(c, w, e, claim);
      }
    }
  }

  // ---------- Runs ----------

  // No step of the run repairs the job.
  ghost predicate Unrepaired(c: Config, w: World, events: seq<Event>, j: nat)
    decreases |events|
  {
    events == [] || (!Repairs(c, w, events[0], j) && Unrepaired(c, Step(c, w, events[0]), events[1..], j))
  }

  // Some step of the run sets the job back, and none after it repairs it.
  ghost predicate SetBackForGood(c: Config, w: World, events: seq<Event>, j: nat)
    decreases |events|
  {
    events != []
    && var rest, t := events[1..], Step(c, w, events[0]);
       SetBackForGood(c, t, rest, j) || (SetsBack(c, w, events[0], j) && Unrepaired(c, t, rest, j))
  }

  // Over every run, whatever versions rows and claims have: a job is left out of the queue exactly
  // when an older write-back set it back, or it was left out from the start, and nothing has
  // repaired it since.
  lemma {:induction false} LeftOutExactly(c: Config, w: World, events: seq<Event>, j: nat)
    requires OrderlyWorld(w) && Runs(c, w, events)
    ensures OrderlyWorld(After(c, w, events))
    ensures LeftOut(After(c, w, events).db, j, c.version) <==>
            SetBackForGood(c, w, events, j) || (LeftOut(w.db, j, c.version) && Unrepaired(c, w, events, j))
    decreases |events|
  {
    if events != [] {
      StepAccounted(c, w, events[0], j);
      StepKeepsOrderly(c, w, events[0]);
      LeftOutExactly(c, Step(c, w, events[0]), events[1..], j);
    }
  }

  // So from a bulk enqueue on, a job is left out exactly when an older write-back set it back.
  lemma LeftOutAfterBulkEnqueue(c: Config, w: World, events: seq<Event>, j: nat)
    requires OrderlyWorld(w) && Runs(c, Step(c, w, EnqueueAll), events)
    ensures LeftOut(After(c, Step(c, w, EnqueueAll), events).db, j, c.version) <==>
            SetBackForGood(c, Step(c, w, EnqueueAll), events, j)
  {
    StepAccounted(c, w, EnqueueAll, j);
    StepKeepsOrderly(c, w, EnqueueAll);
    LeftOutExactly(c, Step(c, w, EnqueueAll), events, j);
  }

  // No row and no claim of an older version is about.
  ghost predicate NoneOlder(c: Config, w: World) {
    && (forall o :: o in w.db.outbox ==> w.db.outbox[o].target >= c.version)
    && (forall claim :: claim in w.held ==> claim.target >= c.version)
  }

  lemma {:induction false} EnqueuePendingAddsNoneOlder(db: Db, from: nat, version: int)
    requires forall o :: o in db.outbox ==> db.outbox[o].target >= version
    ensures forall o :: o in EnqueuePending(db, from, version).outbox ==>
                        EnqueuePending(db, from, version).outbox[o].target >= version
    decreases db.nextJob - from
  {
    if from < db.nextJob {
      EnqueuePendingAddsNoneOlder(EnqueueJob(db, from, version), from + 1, version);
    }
  }

  lemma {:induction false} SaveAllAddsNoneOlder(db: Db, postings: seq<Posting>, version: int)
    requires forall o :: o in db.outbox ==> db.outbox[o].target >= version
    ensures SaveAll(db, postings, version).Ok? ==>
              forall o :: o in SaveAll(db, postings, version).value.db.outbox ==>
                          SaveAll(db, postings, version).value.db.outbox[o].target >= version
    decreases |postings|
  {
    if postings != [] && Save(db, postings[0], version).Ok? {
      SaveAllAddsNoneOlder(Save(db, postings[0], version).value.db, postings[1..], version);
    }
  }

  lemma StepKeepsNoneOlder(c: Config, w: World, e: Event)
    requires NoneOlder(c, w) && Enabled(c, w, e)
    ensures NoneOlder(c, Step(c, w, e))
  {
    match e
    case Tick(_) =>
    case Ingest(_) =>
    case EnqueueAll => EnqueuePendingAddsNoneOlder(w.db, 0, c.version);
    case Enrich(work) => EnrichKeepsNoneOlder(c, w, work);
    case Telegram(post) =>
      if post.Extract? {
        SaveAllAddsNoneOlder(w.db, post.postings, c.version);
      }
    case Lifecycle(_) =>
  }

  lemma EnrichAddsNoRow(c: Config, w: World, e: EnrichEvent)
    ensures forall o :: o in EnrichStep(c, w, e).db.outbox ==>
                        o in w.db.outbox && EnrichStep(c, w, e).db.outbox[o].target == w.db.outbox[o].target
  {
    if !e.Complete? {
      EnrichIsQuiet(c, w, e);
    }
  }

  lemma ClaimsAreOfRows(c: Config, w: World, e: EnrichEvent, claim: Claimed)
    requires EnrichEnabled(c, w, e) && claim in EnrichStep(c, w, e).held && claim !in w.held
    ensures claim.outboxId in w.db.outbox && claim.target == w.db.outbox[claim.outboxId].target
  {
    match e
    case ClaimBatch(_, _, picked) => assert claim in Tokens(w.db, picked);
    case Complete(_, _, _) =>
    case FailClaim(_, _) =>
    case Abandon(_) =>
  }

  lemma EnrichKeepsNoneOlder(c: Config, w: World, e: EnrichEvent)
    requires NoneOlder(c, w) && EnrichEnabled(c, w, e)
    ensures NoneOlder(c, EnrichStep(c, w, e))
  {
    var t := EnrichStep(c, w, e);
    EnrichAddsNoRow(c, w, e);
    forall claim | claim in t.held ensures claim.target >= c.version {
      if claim !in w.held {
        ClaimsAreOfRows(c, w, e, claim);
      }
    }
  }

  // Once the older rows and claims are worked off, nothing is set back any more.
  lemma {:induction false} NothingOlderSetsBack(c: Config, w: World, events: seq<Event>, j: nat)
    requires NoneOlder(c, w) && Runs(c, w, events)
    ensures !SetBackForGood(c, w, events, j)
    decreases |events|
  {
    if events != [] {
      StepKeepsNoneOlder(c, w, events[0]);
      NothingOlderSetsBack(c, Step(c, w, events[0]), events[1..], j);
    }
  }

  // ---------- At one input ----------

  // There is one job, and these are the rows about it, with their targets and claim times.
  ghost predicate OneJob(w: World, rows: map<nat, (int, Option<Time>)>, version: Option<int>, held: multiset<Claimed>) {
    && w.db.jobs.Keys == {1} && w.db.nextJob == 2 && w.held == held && w.db.outbox.Keys == rows.Keys
    && (forall o :: o in rows ==>
          o < w.db.nextEntry && w.db.outbox[o] == Entry(1, rows[o].0, Stamp(0, rows[o].1, None, "")))
    && w.db.jobs[1].enrichedAt.Some? == version.Some?
    && (version.Some? ==> w.db.jobs[1].version == version.value)
  }

  lemma FirstIngest(c: Config, now: Time, p: Posting)
    ensures var w := Step(c, Genesis(now), Ingest(p));
            OneJob(w, map[1 := (c.version, None)], None, multiset{}) && w.db.now == now && w.db.nextEntry == 2
  {
  }

  // The one unclaimed row is the oldest claimable one.
  lemma OnlyTheNewRow(c: Config, w: World, rows: map<nat, (int, Option<Time>)>, version: Option<int>,
                      held: multiset<Claimed>, o: nat)
    requires OneJob(w, rows, version, held) && o in rows && rows[o].1.None?
    requires forall q :: q in rows && q != o ==> rows[q].1 == Some(w.db.now)
    ensures Enabled(c, w, Enrich(ClaimBatch(1, {}, {o}))) && Tokens(w.db, {o}) == {Claimed(o, 1, rows[o].0)}
  {
    assert ClaimableEntries(w.db, c.leaseSeconds) == {o};
    assert ClaimableEntries(w.db, c.leaseSeconds) - {} == {o};
    assert Tokens(w.db, {o}) == {Claimed(o, 1, rows[o].0)};
  }

  lemma ClaimingTheNewRow(c: Config, w: World, rows: map<nat, (int, Option<Time>)>, version: Option<int>,
                          held: multiset<Claimed>, o: nat)
    requires OneJob(w, rows, version, held) && o in rows && rows[o].1.None?
    requires forall q :: q in rows && q != o ==> rows[q].1 == Some(w.db.now)
    ensures var e := Enrich(ClaimBatch(1, {}, {o}));
            && Enabled(c, w, e) && Step(c, w, e).db.now == w.db.now && Step(c, w, e).db.nextEntry == w.db.nextEntry
            && OneJob(Step(c, w, e), rows[o := (rows[o].0, Some(w.db.now))], version,
                 held + multiset{Claimed(o, 1, rows[o].0)})
  {
    OnlyTheNewRow(c, w, rows, version, held, o);
    assert ClaimEntries(w.db, {o}).outbox[o] == Entry(1, rows[o].0, Stamp(0, Some(w.db.now), None, ""));
  }

  lemma EnqueueingAnew(c: Config, w: World, rows: map<nat, (int, Option<Time>)>, held: multiset<Claimed>)
    requires OneJob(w, rows, None, held) && w.db.nextEntry == 2 && forall o :: o in rows ==> rows[o].0 != c.version
    ensures var t := Step(c, w, EnqueueAll);
            OneJob(t, rows[2 := (c.version, None)], None, held) && t.db.now == w.db.now && t.db.nextEntry == 3
  {
    var once := EnqueueJob(w.db, 0, c.version);
    assert once == w.db;
    var twice := EnqueueJob(once, 1, c.version);
    assert EnqueuePending(w.db, 0, c.version) == EnqueuePending(once, 1, c.version);
    assert EnqueuePending(once, 1, c.version) == EnqueuePending(twice, 2, c.version) == twice;
  }

  lemma WritingBack(c: Config, w: World, rows: map<nat, (int, Option<Time>)>, version: Option<int>,
                    held: multiset<Claimed>, o: nat, at: Time)
    requires OneJob(w, rows, version, held) && o in rows && Claimed(o, 1, rows[o].0) in held
    ensures var e := Enrich(Complete(Claimed(o, 1, rows[o].0), "{}", at));
            && Enabled(c, w, e)
            && OneJob(Step(c, w, e), rows - {o}, Some(rows[o].0), held - multiset{Claimed(o, 1, rows[o].0)})
  {
  }

  // A job is saved and claimed.
  function SavedAndClaimed(p: Posting): seq<Event> {
    [Ingest(p)] + [Enrich(ClaimBatch(1, {}, {1}))]
  }

  // It is enqueued anew and claimed by a second worker.
  const CLAIMED_ANEW: seq<Event> := [EnqueueAll] + [Enrich(ClaimBatch(1, {}, {2}))]

  // Both write back, the second one first.
  function WrittenBackTwice(second: Claimed, first: Claimed, at: Time): seq<Event> {
    [Enrich(Complete(second, "{}", at))] + [Enrich(Complete(first, "{}", at))]
  }

  lemma TwoSteps(c: Config, w: World, first: Event, second: Event)
    requires Enabled(c, w, first) && Enabled(c, Step(c, w, first), second)
    ensures Runs(c, w, [first] + [second]) && After(c, w, [first] + [second]) == Step(c, Step(c, w, first), second)
  {
    Then(c, Step(c, w, first), second, []);
    Then(c, w, first, [second]);
  }

  lemma BeforeTheUpgrade(c: Config, now: Time, p: Posting)
    ensures var events := SavedAndClaimed(p);
            && Runs(c, Genesis(now), events)
            && var w := After(c, Genesis(now), events);
               OneJob(w, map[1 := (c.version, Some(now))], None, multiset{Claimed(1, 1, c.version)})
               && w.db.now == now && w.db.nextEntry == 2
  {
    var w := Step(c, Genesis(now), Ingest(p));
    var claim := Enrich(ClaimBatch(1, {}, {1}));
    FirstIngest(c, now, p);
    ClaimingTheNewRow(c, w, map[1 := (c.version, None)], None, multiset{}, 1);
    TwoSteps(c, Genesis(now), Ingest(p), claim);
    assert map[1 := (c.version, None)][1 := (c.version, Some(now))] == map[1 := (c.version, Some(now))];
  }

  lemma ClaimingTheSecondRow(c: Config, w: World, v: int)
    requires OneJob(w, map[1 := (v, Some(w.db.now))][2 := (c.version, None)], None, multiset{Claimed(1, 1, v)})
    ensures var e := Enrich(ClaimBatch(1, {}, {2}));
            && Enabled(c, w, e) && Step(c, w, e).db.now == w.db.now
            && OneJob(Step(c, w, e), map[1 := (v, Some(w.db.now)), 2 := (c.version, Some(w.db.now))], None,
                 multiset{Claimed(1, 1, v), Claimed(2, 1, c.version)})
  {
    var rows := map[1 := (v, Some(w.db.now))];
    ClaimingTheNewRow(c, w, rows[2 := (c.version, None)], None, multiset{Claimed(1, 1, v)}, 2);
    assert rows[2 := (c.version, None)][2 := (c.version, Some(w.db.now))]
        == map[1 := (v, Some(w.db.now)), 2 := (c.version, Some(w.db.now))];
  }

  lemma ClaimedAnew(c: Config, w: World, v: int)
    requires OneJob(w, map[1 := (v, Some(w.db.now))], None, multiset{Claimed(1, 1, v)})
    requires w.db.nextEntry == 2 && v < c.version
    ensures Runs(c, w, CLAIMED_ANEW)
    ensures var t := After(c, w, CLAIMED_ANEW);
            && t.db.now == w.db.now
            && OneJob(t, map[1 := (v, Some(t.db.now)), 2 := (c.version, Some(t.db.now))], None,
                 multiset{Claimed(1, 1, v), Claimed(2, 1, c.version)})
  {
    EnqueueingAnew(c, w, map[1 := (v, Some(w.db.now))], multiset{Claimed(1, 1, v)});
    ClaimingTheSecondRow(c, Step(c, w, EnqueueAll), v);
    TwoSteps(c, w, EnqueueAll, Enrich(ClaimBatch(1, {}, {2})));
  }

  lemma NewerWritesBack(c: Config, w: World, v: int)
    requires OneJob(w, map[1 := (v, Some(w.db.now)), 2 := (c.version, Some(w.db.now))], None,
               multiset{Claimed(1, 1, v), Claimed(2, 1, c.version)})
    ensures var e := Enrich(Complete(Claimed(2, 1, c.version), "{}", w.db.now));
            && Enabled(c, w, e)
            && OneJob(Step(c, w, e), map[1 := (v, Some(w.db.now))], Some(c.version), multiset{Claimed(1, 1, v)})
  {
    var first, second := Claimed(1, 1, v), Claimed(2, 1, c.version);
    var rows := map[1 := (v, Some(w.db.now)), 2 := (c.version, Some(w.db.now))];
    WritingBack(c, w, rows, None, multiset{first, second}, 2, w.db.now);
    assert multiset{first, second} - multiset{second} == multiset{first};
    assert rows - {2} == map[1 := (v, Some(w.db.now))];
  }

  lemma OlderWritesBack(c: Config, w: World, v: int, at: Time)
    requires OneJob(w, map[1 := (v, Some(at))], Some(c.version), multiset{Claimed(1, 1, v)})
    ensures var e := Enrich(Complete(Claimed(1, 1, v), "{}", at));
            Enabled(c, w, e) && OneJob(Step(c, w, e), map[], Some(v), multiset{})
  {
    var rows := map[1 := (v, Some(at))];
    WritingBack(c, w, rows, Some(c.version), multiset{Claimed(1, 1, v)}, 1, at);
    assert multiset{Claimed(1, 1, v)} - multiset{Claimed(1, 1, v)} == multiset{};
    assert rows - {1} == map[];
  }

  lemma WritingBackTwice(c: Config, w: World, v: int)
    requires OneJob(w, map[1 := (v, Some(w.db.now)), 2 := (c.version, Some(w.db.now))], None,
               multiset{Claimed(1, 1, v), Claimed(2, 1, c.version)})
    ensures var events := WrittenBackTwice(Claimed(2, 1, c.version), Claimed(1, 1, v), w.db.now);
            Runs(c, w, events) && OneJob(After(c, w, events), map[], Some(v), multiset{})
  {
    var newer := Enrich(Complete(Claimed(2, 1, c.version), "{}", w.db.now));
    NewerWritesBack(c, w, v);
    OlderWritesBack(c, Step(c, w, newer), v, w.db.now);
    TwoSteps(c, w, newer, Enrich(Complete(Claimed(1, 1, v), "{}", w.db.now)));
  }

  // A worker claims a job, the schema is upgraded, the job is enriched to the new version, and then
  // the first worker finishes: the job is back at the old version and in no queue.
  lemma UpgradeSetBack(prior: Config, now: Time, p: Posting)
    ensures var v := prior.version;
            var next := prior.(version := v + 1);
            var before := SavedAndClaimed(p);
            var after := CLAIMED_ANEW + WrittenBackTwice(Claimed(2, 1, v + 1), Claimed(1, 1, v), now);
            && Runs(prior, Genesis(now), before) && Runs(next, After(prior, Genesis(now), before), after)
            && var db := After(next, After(prior, Genesis(now), before), after).db;
               LeftOut(db, 1, v + 1) && db.jobs[1].version == v && db.outbox == map[]
  {
    var next := prior.(version := prior.version + 1);
    BeforeTheUpgrade(prior, now, p);
    var w := After(prior, Genesis(now), SavedAndClaimed(p));
    ClaimedAnew(next, w, prior.version);
    WritingBackTwice(next, After(next, w, CLAIMED_ANEW), prior.version);
    RunsJoin(next, w, CLAIMED_ANEW,
      WrittenBackTwice(Claimed(2, 1, next.version), Claimed(1, 1, prior.version), now));
  }
}
