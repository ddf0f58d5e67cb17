// The tables the workers share and the SQL statements they run on them. Every statement
// is one atomic function from table state to table state; `now` is the database clock.
module Catalogue {
  import opened Wrappers
  import opened Lease

  // ---------- Rows ----------

  // The unique dedup key of jobs: UNIQUE (source, external_id).
  datatype Key = Key(source: string, externalId: string)

  // The columns an ingest upsert overwrites.
  datatype Facts = Facts(
    url: string,
    title: string,
    company: string,
    companySlug: string,
    location: string,
    remote: bool,
    description: string,
    postedAt: Option<Time>,
    countries: seq<string>,
    regions: seq<string>,
    workMode: string,
    skills: seq<string>
  )

  datatype Posting = Posting(key: Key, publicSlug: string, facts: Facts)

  datatype Job = Job(
    key: Key,
    publicSlug: string,
    facts: Facts,
    enrichment: string,
    enrichedAt: Option<Time>,
    version: int,
    lastSeenAt: Time,
    closedAt: Option<Time>,
    strikes: nat
  )

  datatype Entry = Entry(jobId: nat, target: int, stamp: Stamp)

  datatype PostKey = PostKey(channel: string, msgId: int)

  datatype Post = Post(text: string, postedAt: Time, extractedAt: Option<Time>, stamp: Stamp)

  // byKey is the unique index on jobs (source, external_id). The two counters are the
  // identity sequences of jobs and enrichment_outbox.
  datatype Db = Db(
    now: Time,
    jobs: map<nat, Job>,
    byKey: map<Key, nat>,
    companies: map<string, string>,
    outbox: map<nat, Entry>,
    posts: map<PostKey, Post>,
    nextJob: nat,
    nextEntry: nat
  )

  datatype DbError = UniqueViolation | NoRows

  // ---------- jobs ----------

  datatype Saved = Saved(db: Db, id: nat)

  predicate SlugTaken(db: Db, slug: string) {
    exists j :: j in db.jobs && db.jobs[j].publicSlug == slug
  }

  function UpsertCompany(db: Db, f: Facts): map<string, string> {
    if f.companySlug != "" then db.companies[f.companySlug := f.company] else db.companies
  }

  // INSERT ... ON CONFLICT (source, external_id) DO UPDATE. A re-ingest leaves public_slug,
  // the enrichment columns and the strike counter alone, refreshes last_seen_at and reopens.
  function UpsertJob(db: Db, p: Posting): Result<Saved, DbError> {
    var companies := UpsertCompany(db, p.facts);
    if p.key in db.byKey && db.byKey[p.key] in db.jobs then
      var id := db.byKey[p.key];
      var job := db.jobs[id].(facts := p.facts, lastSeenAt := db.now, closedAt := None);
      Ok(Saved(db.(companies := companies, jobs := db.jobs[id := job]), id))
    else if SlugTaken(db, p.publicSlug) then
      Err(UniqueViolation)
    else
      var id := db.nextJob;
      var job := Job(p.key, p.publicSlug, p.facts, "{}", None, 0, db.now, None, 0);
      Ok(Saved(db.(companies := companies,
                   jobs := db.jobs[id := job],
                   byKey := db.byKey[p.key := id],
                   nextJob := id + 1), id))
  }

  function SetJobEnrichment(db: Db, id: nat, payload: string, at: Time, version: int): Db {
    if id in db.jobs then
      db.(jobs := db.jobs[id := db.jobs[id].(enrichment := payload, enrichedAt := Some(at), version := version)])
    else
      db
  }

  predicate Unseen(job: Job, source: string, cutoff: Time) {
    job.closedAt.None? && job.key.source == source && job.lastSeenAt < cutoff
  }

  function CloseUnseenJobs(db: Db, source: string, cutoff: Time): (r: Db)
    ensures r == db.(jobs := r.jobs) && r.jobs.Keys == db.jobs.Keys
  {
    db.(jobs := map j | j in db.jobs ::
      if Unseen(db.jobs[j], source, cutoff) then db.jobs[j].(closedAt := Some(db.now)) else db.jobs[j])
  }

  function MarkLivenessExpired(db: Db, id: nat, threshold: int): Db {
    if id in db.jobs then
      var strikes := db.jobs[id].strikes + 1;
      var closedAt := if strikes >= threshold then Some(db.now) else db.jobs[id].closedAt;
      db.(jobs := db.jobs[id := db.jobs[id].(strikes := strikes, closedAt := closedAt)])
    else
      db
  }

  function ResetLivenessStrikes(db: Db, id: nat): Db {
    if id in db.jobs && db.jobs[id].strikes != 0 then
      db.(jobs := db.jobs[id := db.jobs[id].(strikes := 0)])
    else
      db
  }

  // ---------- enrichment_outbox ----------

  predicate Needs(job: Job, target: int) {
    job.enrichedAt.None? || job.version < target
  }

  predicate HasEntry(db: Db, job: nat, target: int) {
    exists o :: o in db.outbox && db.outbox[o].jobId == job && db.outbox[o].target == target
  }

  function EnqueueJob(db: Db, job: nat, target: int): Db {
    if job in db.jobs && Needs(db.jobs[job], target) && !HasEntry(db, job, target) then
      db.(outbox := db.outbox[db.nextEntry := Entry(job, target, FRESH)], nextEntry := db.nextEntry + 1)
    else
      db
  }

  // INSERT ... SELECT over the whole jobs table; jobs from `from` on are still to be visited.
  function EnqueuePending(db: Db, from: nat, target: int): (r: Db)
    ensures r == db.(outbox := r.outbox, nextEntry := r.nextEntry)
    decreases db.nextJob - from
  {
    if from >= db.nextJob then db else EnqueuePending(EnqueueJob(db, from, target), from + 1, target)
  }

  function ClaimableEntries(db: Db, leaseSeconds: nat): set<nat> {
    set o | o in db.outbox && Claimable(db.outbox[o].stamp, db.now, leaseSeconds)
  }

  // Which rows a claim may take: the oldest claimable rows no other transaction has locked
  // (FOR UPDATE SKIP LOCKED ... ORDER BY id LIMIT batch).
  predicate OldestEntries(db: Db, leaseSeconds: nat, batch: nat, locked: set<nat>, picked: set<nat>) {
    var free := ClaimableEntries(db, leaseSeconds) - locked;
    && picked <= free
    && |picked| <= batch
    && (|picked| < batch ==> picked == free)
    && (forall p, q :: p in picked && q in free - picked ==> p < q)
  }

  function ClaimEntries(db: Db, picked: set<nat>): Db {
    db.(outbox := map o | o in db.outbox ::
      if o in picked then db.outbox[o].(stamp := Claim(db.outbox[o].stamp, db.now)) else db.outbox[o])
  }

  function RecordEnrichmentFailure(db: Db, id: nat, maxAttempts: int, error: string): Result<Db, DbError> {
    if id in db.outbox then
      Ok(db.(outbox := db.outbox[id := db.outbox[id].(stamp := Fail(db.outbox[id].stamp, db.now, maxAttempts, error))]))
    else
      Err(NoRows)
  }

  function DeleteEntry(db: Db, id: nat): Db {
    db.(outbox := db.outbox - {id})
  }

  // ---------- telegram_posts ----------

  function InsertPost(db: Db, key: PostKey, text: string, postedAt: Time, extractedAt: Option<Time>): Db {
    if key in db.posts then db else db.(posts := db.posts[key := Post(text, postedAt, extractedAt, FRESH)])
  }

  function ClaimablePosts(db: Db, leaseSeconds: nat): set<PostKey> {
    set k | k in db.posts && db.posts[k].extractedAt.None? && Claimable(db.posts[k].stamp, db.now, leaseSeconds)
  }

  // ORDER BY posted_at: ties may go either way.
  predicate OldestPosts(db: Db, leaseSeconds: nat, batch: nat, locked: set<PostKey>, picked: set<PostKey>) {
    var free := ClaimablePosts(db, leaseSeconds) - locked;
    && picked <= free
    && |picked| <= batch
    && (|picked| < batch ==> picked == free)
    && (forall p, q :: p in picked && q in free - picked ==> db.posts[p].postedAt <= db.posts[q].postedAt)
  }

  function ClaimPosts(db: Db, picked: set<PostKey>): Db {
    db.(posts := map k | k in db.posts ::
      if k in picked then db.posts[k].(stamp := Claim(db.posts[k].stamp, db.now)) else db.posts[k])
  }

  function MarkPostExtracted(db: Db, key: PostKey): Db {
    if key in db.posts then db.(posts := db.posts[key := db.posts[key].(extractedAt := Some(db.now))]) else db
  }

  function RecordPostFailure(db: Db, key: PostKey, maxAttempts: int, error: string): Result<Db, DbError> {
    if key in db.posts then
      Ok(db.(posts := db.posts[key := db.posts[key].(stamp := Fail(db.posts[key].stamp, db.now, maxAttempts, error))]))
    else
      Err(NoRows)
  }

  // ---------- Transactions ----------

  // Ingest write: the upsert and the gated enqueue commit together or not at all.
  function Save(db: Db, p: Posting, target: int): (r: Result<Saved, DbError>)
    ensures r.Ok? ==> r.value.db.now == db.now && r.value.db.posts == db.posts
  {
    match UpsertJob(db, p)
    case Err(e) => Err(e)
    case Ok(saved) => Ok(Saved(EnqueueJob(saved.db, saved.id, target), saved.id))
  }

  // Enrichment write-back: the payload and the removal of the outbox row commit together.
  function CompleteEntry(db: Db, outboxId: nat, job: nat, target: int, payload: string, at: Time): (r: Db)
    ensures r == db.(jobs := r.jobs, outbox := r.outbox) && r.jobs.Keys == db.jobs.Keys
  {
    DeleteEntry(SetJobEnrichment(db, job, payload, at, target), outboxId)
  }

  datatype SavedAll = SavedAll(db: Db, ids: seq<nat>)

  function SaveAll(db: Db, postings: seq<Posting>, target: int): (r: Result<SavedAll, DbError>)
    ensures r.Ok? ==> r.value.db.now == db.now && r.value.db.posts == db.posts && |r.value.ids| == |postings|
    decreases |postings|
  {
    if postings == [] then Ok(SavedAll(db, []))
    else
      match Save(db, postings[0], target)
      case Err(e) => Err(e)
      case Ok(first) =>
        match SaveAll(first.db, postings[1..], target)
        case Err(e) => Err(e)
        case Ok(rest) => Ok(SavedAll(rest.db, [first.id] + rest.ids))
  }

  // Telegram write: every extracted job and the extracted mark commit together.
  function CompletePost(db: Db, key: PostKey, postings: seq<Posting>, target: int): Result<SavedAll, DbError> {
    match SaveAll(db, postings, target)
    case Err(e) => Err(e)
    case Ok(saved) => Ok(saved.(db := MarkPostExtracted(saved.db, key)))
  }
}
