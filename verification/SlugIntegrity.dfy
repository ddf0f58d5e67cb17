// What the backfills and the index start from, kept by every step of the workers: the unique
// public slug, the identity column of jobs, rows that stay, and a companies table without an
// empty slug.
module SlugIntegrity {
  import opened Catalogue
  import opened Provenance
  import opened Workers

  type Jobs = map<nat, Job>

  // UNIQUE (public_slug).
  ghost predicate SlugsUnique(table: Jobs) {
    forall i, j :: i in table && j in table && table[i].publicSlug == table[j].publicSlug ==> i == j
  }

  // Identity columns start at 1.
  ghost predicate Identified(db: Db) {
    0 < db.nextJob && forall j :: j in db.jobs ==> 0 < j < db.nextJob
  }

  ghost predicate SameSlugs(a: Db, b: Db) {
    a.nextJob == b.nextJob && a.jobs.Keys == b.jobs.Keys && forall j :: j in a.jobs ==>
              b.jobs[j].publicSlug == a.jobs[j].publicSlug
  }

  lemma SaveKeepsSlugs(db: Db, p: Posting, target: int)
    requires SlugsUnique(db.jobs) && Identified(db)
    ensures Save(db, p, target).Ok? ==> SlugsUnique(Save(db, p, target).value.db.jobs) && Identified(Save(db, p,
            target).value.db)
  {
  }

  lemma {:induction false} SaveAllKeepsSlugs(db: Db, postings: seq<Posting>, target: int)
    requires SlugsUnique(db.jobs) && Identified(db)
    ensures SaveAll(db, postings, target).Ok? ==>
              && SlugsUnique(SaveAll(db, postings, target).value.db.jobs)
              && Identified(SaveAll(db, postings, target).value.db)
    decreases |postings|
  {
    if postings != [] && Save(db, postings[0], target).Ok? {
      SaveKeepsSlugs(db, postings[0], target);
      SaveAllKeepsSlugs(Save(db, postings[0], target).value.db, postings[1..], target);
    }
  }

  lemma EnrichKeepsSlugs(c: Config, w: World, e: EnrichEvent)
    ensures SameSlugs(w.db, EnrichStep(c, w, e).db)
  {
    match e
    case ClaimBatch(_, _, _) =>
    case Complete(_, _, _) =>
    case FailClaim(_, _) =>
    case Abandon(_) =>
  }

  lemma LifeKeepsSlugs(c: Config, w: World, e: LifeEvent)
    ensures SameSlugs(w.db, LifeStep(c, w, e).db)
  {
    match e
    case Sweep(_, _) =>
    case BeginProbes =>
    case Probe(_, verdict) =>
      match verdict {
        case Expired =>
        case Alive =>
        case Uncertain =>
      }
    case EndProbes =>
  }

  lemma StepKeepsSlugs(c: Config, w: World, e: Event)
    requires SlugsUnique(w.db.jobs) && Identified(w.db)
    ensures SlugsUnique(Step(c, w, e).db.jobs) && Identified(Step(c, w, e).db)
  {
    match e
    case Tick(_) =>
    case Ingest(p) => SaveKeepsSlugs(w.db, p, c.version);
    case EnqueueAll =>
    case Enrich(work) => EnrichKeepsSlugs(c, w, work);
    case Telegram(post) =>
      if post.Extract? {
        SaveAllKeepsSlugs(w.db, post.postings, c.version);
      }
    case Lifecycle(life) => LifeKeepsSlugs(c, w, life);
  }

  lemma {:induction false} RunKeepsSlugs(c: Config, w: World, events: seq<Event>)
    requires SlugsUnique(w.db.jobs) && Identified(w.db) && Runs(c, w, events)
    ensures SlugsUnique(After(c, w, events).db.jobs) && Identified(After(c, w, events).db)
    decreases |events|
  {
    if events != [] {
      StepKeepsSlugs(c, w, events[0]);
      RunKeepsSlugs(c, Step(c, w, events[0]), events[1..]);
    }
  }

  // Whatever the workers do, public slugs stay unique and no job has id 0.
  lemma SlugsAreAlwaysUnique(c: Config, now: int, events: seq<Event>)
    requires Runs(c, Genesis(now), events)
    ensures SlugsUnique(After(c, Genesis(now), events).db.jobs) && 0 !in After(c, Genesis(now), events).db.jobs
  {
    RunKeepsSlugs(c, Genesis(now), events);
  }

  // No worker ever adds a company with an empty slug.
  lemma NoEmptyCompany(c: Config, now: int, events: seq<Event>)
    requires Runs(c, Genesis(now), events)
    ensures "" !in After(c, Genesis(now), events).db.companies
  {
    CompaniesAreThoseUpserted(c, now, events, "");
  }

  lemma SaveKeepsRows(db: Db, p: Posting, target: int)
    ensures Save(db, p, target).Ok? ==> db.jobs.Keys <= Save(db, p, target).value.db.jobs.Keys
  {
  }

  lemma {:induction false} SaveAllKeepsRows(db: Db, postings: seq<Posting>, target: int)
    ensures SaveAll(db, postings, target).Ok? ==> db.jobs.Keys <= SaveAll(db, postings, target).value.db.jobs.Keys
    decreases |postings|
  {
    if postings != [] && Save(db, postings[0], target).Ok? {
      SaveKeepsRows(db, postings[0], target);
      SaveAllKeepsRows(Save(db, postings[0], target).value.db, postings[1..], target);
    }
  }

  // No worker ever deletes a job.
  lemma {:induction false} NoJobIsDeleted(c: Config, w: World, events: seq<Event>)
    requires Runs(c, w, events)
    ensures w.db.jobs.Keys <= After(c, w, events).db.jobs.Keys
    decreases |events|
  {
    if events != [] {
      var e := events[0];
      if e.Ingest? {
        SaveKeepsRows(w.db, e.posting, c.version);
      } else if e.Telegram? && e.post.Extract? {
        SaveAllKeepsRows(w.db, e.post.postings, c.version);
      }
      NoJobIsDeleted(c, Step(c, w, e), events[1..]);
    }
  }
}
