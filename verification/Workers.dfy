// All the workers that share the database, as one state machine: ingest, the enrichment
// workers, the Telegram crawler and extractors, the post-run sweep and the liveness
// worker. Any number of each may run, and a worker may report on a claim long after its
// lease expired. Every step is one statement or one transaction.
module Workers {
  import opened Wrappers
  import opened Lease
  import opened Catalogue

  const STALE_AFTER: Time := 48 * 3600 * SECOND
  const CLOSE_THRESHOLD := 2

  // One deployment: the enrichment schema version in use, the lease lengths and retry caps
  // of the two queues, and the registered ATS providers.
  datatype Config = Config(
    version: int,
    leaseSeconds: nat,
    maxAttempts: int,
    postLeaseSeconds: nat,
    postMaxAttempts: int,
    providers: set<string>
  )

  datatype Claimed = Claimed(outboxId: nat, jobId: nat, target: int)

  datatype Verdict = Expired | Alive | Uncertain

  datatype Upsert = Upsert(id: nat, at: Time)

  // What has happened so far; no worker reads it.
  datatype Log = Log(
    claims: map<nat, seq<Time>>,
    postClaims: map<PostKey, seq<Time>>,
    upserts: seq<Upsert>,
    verdicts: map<nat, seq<Verdict>>
  )

  // held and heldPosts are the claims some worker still has to report on; probing is the
  // part of the running liveness pass's snapshot (job -> strikes read) not yet probed.
  datatype World = World(
    db: Db,
    held: multiset<Claimed>,
    heldPosts: multiset<PostKey>,
    probing: Option<map<nat, nat>>,
    log: Log
  )

  function Genesis(now: Time): World {
    World(Db(now, map[], map[], map[], map[], map[], 1, 1), multiset{}, multiset{}, None, Log(map[], map[], [], map[]))
  }

  // An enrichment worker: claim a batch, then report on each claim or die silently.
  datatype EnrichEvent =
    | ClaimBatch(batch: nat, locked: set<nat>, picked: set<nat>)
    | Complete(claim: Claimed, payload: string, at: Time)
    | FailClaim(claim: Claimed, error: string)
    | Abandon(claim: Claimed)

  // The Telegram crawler and the extraction workers.
  datatype PostEvent =
    | Crawl(key: PostKey, text: string, postedAt: Time, extractedAt: Option<Time>)
    | ClaimPosts(batch: nat, locked: set<PostKey>, picked: set<PostKey>)
    | Extract(key: PostKey, postings: seq<Posting>)
    | FailPost(key: PostKey, error: string)
    | AbandonPost(key: PostKey)

  // The two closers: the post-ingest sweep, with a cutoff taken when its run ended, and the
  // liveness worker, which refuses to run when no provider is registered.
  datatype LifeEvent =
    | Sweep(source: string, cutoff: Time)
    | BeginProbes
    | Probe(id: nat, verdict: Verdict)
    | EndProbes

  datatype Event =
    | Tick(micros: nat)
    | Ingest(posting: Posting)
    | EnqueueAll
    | Enrich(work: EnrichEvent)
    | Telegram(post: PostEvent)
    | Lifecycle(life: LifeEvent)

  predicate Enabled(c: Config, w: World, e: Event) {
    match e
    case Enrich(work) => EnrichEnabled(c, w, work)
    case Telegram(post) => PostEnabled(c, w, post)
    case Lifecycle(life) => LifeEnabled(c, w, life)
    case _ => true
  }

  predicate EnrichEnabled(c: Config, w: World, e: EnrichEvent) {
    match e
    case ClaimBatch(batch, locked, picked) => OldestEntries(w.db, c.leaseSeconds, batch, locked, picked)
    case Complete(claim, _, _) => claim in w.held
    case FailClaim(claim, _) => claim in w.held
    case Abandon(claim) => claim in w.held
  }

  predicate PostEnabled(c: Config, w: World, e: PostEvent) {
    match e
    case Crawl(_, _, _, _) => true
    case ClaimPosts(batch, locked, picked) => OldestPosts(w.db, c.postLeaseSeconds, batch, locked, picked)
    case Extract(key, _) => key in w.heldPosts
    case FailPost(key, _) => key in w.heldPosts
    case AbandonPost(key) => key in w.heldPosts
  }

  predicate LifeEnabled(c: Config, w: World, e: LifeEvent) {
    match e
    case Sweep(source, cutoff) => source in c.providers && cutoff <= w.db.now - STALE_AFTER
    case BeginProbes => w.probing.None? && c.providers != {}
    case Probe(id, _) => w.probing.Some? && id in w.probing.value
    case EndProbes => w.probing.Some?
  }

  function Tokens(db: Db, picked: set<nat>): set<Claimed> {
    set o | o in picked && o in db.outbox :: Claimed(o, db.outbox[o].jobId, db.outbox[o].target)
  }

  function Times<K(==)>(log: map<K, seq<Time>>, k: K): seq<Time> {
    if k in log then log[k] else []
  }

  function LogClaims<K(==)>(log: map<K, seq<Time>>, picked: set<K>, now: Time): map<K, seq<Time>> {
    map k | k in log.Keys + picked :: if k in picked then Times(log, k) + [now] else log[k]
  }

  function History(log: Log, id: nat): seq<Verdict> {
    if id in log.verdicts then log.verdicts[id] else []
  }

  function Upserts(log: seq<Upsert>, ids: seq<nat>, now: Time): seq<Upsert>
    decreases |ids|
  {
    if ids == [] then log else Upserts(log + [Upsert(ids[0], now)], ids[1..], now)
  }

  function LogUpserts(log: Log, ids: seq<nat>, now: Time): Log {
    log.(upserts := Upserts(log.upserts, ids, now))
  }

  // The liveness worker's candidate query: open jobs of no registered provider.
  function Candidates(db: Db, providers: set<string>): map<nat, nat> {
    map j | j in db.jobs && db.jobs[j].closedAt.None? && db.jobs[j].key.source !in providers :: db.jobs[j].strikes
  }

  // A Live verdict clears strikes only when the snapshot showed some; Uncertain does nothing.
  function ApplyVerdict(db: Db, id: nat, snapshot: nat, verdict: Verdict): (r: Db)
    ensures r == db.(jobs := r.jobs) && r.jobs.Keys == db.jobs.Keys
  {
    match verdict
    case Expired => MarkLivenessExpired(db, id, CLOSE_THRESHOLD)
    case Alive => if snapshot != 0 then ResetLivenessStrikes(db, id) else db
    case Uncertain => db
  }

  function Step(c: Config, w: World, e: Event): World {
    match e
    case Tick(micros) => w.(db := w.db.(now := w.db.now + micros))
    case Ingest(p) => IngestStep(c, w, p)
    case EnqueueAll => w.(db := EnqueuePending(w.db, 0, c.version))
    case Enrich(work) => EnrichStep(c, w, work)
    case Telegram(post) => PostStep(c, w, post)
    case Lifecycle(life) => LifeStep(c, w, life)
  }

  function IngestStep(c: Config, w: World, p: Posting): World {
    match Save(w.db, p, c.version)
    case Ok(saved) => w.(db := saved.db, log := LogUpserts(w.log, [saved.id], w.db.now))
    case Err(_) => w
  }

  function EnrichStep(c: Config, w: World, e: EnrichEvent): (r: World)
    ensures r.db == w.db.(jobs := r.db.jobs, outbox := r.db.outbox) && r.db.jobs.Keys == w.db.jobs.Keys
    ensures r == w.(db := r.db, held := r.held, log := w.log.(claims := r.log.claims))
  {
    match e
    case ClaimBatch(_, _, picked) =>
      w.(db := ClaimEntries(w.db, picked),
         held := w.held + multiset(Tokens(w.db, picked)),
         log := w.log.(claims := LogClaims(w.log.claims, picked, w.db.now)))
    case Complete(claim, payload, at) =>
      w.(db := CompleteEntry(w.db, claim.outboxId, claim.jobId, claim.target, payload, at),
         held := w.held - multiset{claim})
    case FailClaim(claim, error) =>
      var held := w.held - multiset{claim};
      (match RecordEnrichmentFailure(w.db, claim.outboxId, c.maxAttempts, error)
       case Ok(db) => w.(db := db, held := held)
       case Err(_) => w.(held := held))
    case Abandon(claim) => w.(held := w.held - multiset{claim})
  }

  function PostStep(c: Config, w: World, e: PostEvent): (r: World)
    ensures r == w.(db := r.db, heldPosts := r.heldPosts, log := w.log.(postClaims := r.log.postClaims,
            upserts := r.log.upserts))
    ensures !e.Extract? ==> r.db == w.db.(posts := r.db.posts) && r.log.upserts == w.log.upserts
  {
    match e
    case Crawl(key, text, postedAt, extractedAt) => w.(db := InsertPost(w.db, key, text, postedAt, extractedAt))
    case ClaimPosts(_, _, picked) =>
      w.(db := Catalogue.ClaimPosts(w.db, picked),
         heldPosts := w.heldPosts + multiset(picked),
         log := w.log.(postClaims := LogClaims(w.log.postClaims, picked, w.db.now)))
    case Extract(key, postings) =>
      var heldPosts := w.heldPosts - multiset{key};
      (match CompletePost(w.db, key, postings, c.version)
       case Ok(saved) => w.(db := saved.db, heldPosts := heldPosts, log := LogUpserts(w.log, saved.ids, w.db.now))
       case Err(_) => w.(heldPosts := heldPosts))
    case FailPost(key, error) =>
      var heldPosts := w.heldPosts - multiset{key};
      (match RecordPostFailure(w.db, key, c.postMaxAttempts, error)
       case Ok(db) => w.(db := db, heldPosts := heldPosts)
       case Err(_) => w.(heldPosts := heldPosts))
    case AbandonPost(key) => w.(heldPosts := w.heldPosts - multiset{key})
  }

  function LifeStep(c: Config, w: World, e: LifeEvent): (r: World)
    ensures r.db == w.db.(jobs := r.db.jobs) && r.db.jobs.Keys == w.db.jobs.Keys
    ensures r == w.(db := r.db, probing := r.probing, log := w.log.(verdicts := r.log.verdicts))
  {
    match e
    case Sweep(source, cutoff) => w.(db := CloseUnseenJobs(w.db, source, cutoff))
    case BeginProbes => w.(probing := Some(Candidates(w.db, c.providers)))
    case Probe(id, verdict) =>
      if w.probing.Some? && id in w.probing.value then
        w.(db := ApplyVerdict(w.db, id, w.probing.value[id], verdict),
           probing := Some(w.probing.value - {id}),
           log := w.log.(verdicts := w.log.verdicts[id := History(w.log, id) + [verdict]]))
      else w
    case EndProbes => w.(probing := None)
  }

  ghost predicate Runs(c: Config, w: World, events: seq<Event>)
    decreases |events|
  {
    events == [] || (Enabled(c, w, events[0]) && Runs(c, Step(c, w, events[0]), events[1..]))
  }

  function After(c: Config, w: World, events: seq<Event>): World
    decreases |events|
  {
    if events == [] then w else After(c, Step(c, w, events[0]), events[1..])
  }
}
