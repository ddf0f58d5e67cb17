// Where the contents of the tables come from, over every run from empty tables: job rows and
// companies from the postings upserted, enrichments from the write-backs, posts from the crawls
// and extractions.
module Provenance {
  import opened Wrappers
  import opened Lease
  import opened Catalogue
  import opened Workers
  import opened Outbox
  import opened Sequences

  // ---------- The postings upserted ----------

  // The postings a step upserts, in order.
  function Upserted(c: Config, w: World, e: Event): seq<Posting> {
    match e
    case Ingest(p) => if Save(w.db, p, c.version).Ok? then [p] else []
    case Telegram(Extract(key, postings)) =>
      if CompletePost(w.db, key, postings, c.version).Ok? then postings else []
    case _ => []
  }

  function UpsertsOf(c: Config, w: World, events: seq<Event>): seq<Posting>
    decreases |events|
  {
    if events == [] then [] else Upserted(c, w, events[0]) + UpsertsOf(c, Step(c, w, events[0]), events[1..])
  }

  function LastFor(postings: seq<Posting>, key: Key): Option<Posting> {
    if postings == [] then None
    else if LastFor(postings[1..], key).Some? then LastFor(postings[1..], key)
    else if postings[0].key == key then Some(postings[0])
    else None
  }

  function FirstFor(postings: seq<Posting>, key: Key): Option<Posting> {
    if postings == [] then None
    else if postings[0].key == key then Some(postings[0])
    else FirstFor(postings[1..], key)
  }

  // The name a company slug came with last; the empty slug is no company.
  function NameFor(postings: seq<Posting>, slug: string): Option<string> {
    if postings == [] then None
    else if NameFor(postings[1..], slug).Some? then NameFor(postings[1..], slug)
    else if slug != "" && postings[0].facts.companySlug == slug then Some(postings[0].facts.company)
    else None
  }

  lemma {:induction false} LastOfBoth(a: seq<Posting>, b: seq<Posting>, key: Key)
    ensures LastFor(a + b, key) == if LastFor(b, key).Some? then LastFor(b, key) else LastFor(a, key)
  {
    if a == [] {
      Nothing(b);
    } else {
      ConcatTail(a, b);
      LastOfBoth(a[1..], b, key);
    }
  }

  lemma {:induction false} FirstOfBoth(a: seq<Posting>, b: seq<Posting>, key: Key)
    ensures FirstFor(a + b, key) == if FirstFor(a, key).Some? then FirstFor(a, key) else FirstFor(b, key)
  {
    if a == [] {
      Nothing(b);
    } else {
      ConcatTail(a, b);
      FirstOfBoth(a[1..], b, key);
    }
  }

  lemma {:induction false} NameOfBoth(a: seq<Posting>, b: seq<Posting>, slug: string)
    ensures NameFor(a + b, slug) == if NameFor(b, slug).Some? then NameFor(b, slug) else NameFor(a, slug)
  {
    if a == [] {
      Nothing(b);
    } else {
      ConcatTail(a, b);
      NameOfBoth(a[1..], b, slug);
    }
  }

  lemma LastOfOne(p: Posting, key: Key)
    ensures LastFor([p], key) == FirstFor([p], key) == if p.key == key then Some(p) else None
  {
    assert [p][1..] == [] && LastFor([], key).None?;
  }

  lemma OneMorePosting(ups: seq<Posting>, p: Posting, key: Key)
    ensures LastFor(ups + [p], key) == if p.key == key then Some(p) else LastFor(ups, key)
    ensures FirstFor(ups + [p], key) ==
              if FirstFor(ups, key).Some? then FirstFor(ups, key) else if p.key == key then Some(p) else None
  {
    LastOfOne(p, key);
    LastOfBoth(ups, [p], key);
    FirstOfBoth(ups, [p], key);
  }

  lemma OneMoreName(ups: seq<Posting>, p: Posting, slug: string)
    ensures NameFor(ups + [p], slug) ==
              if slug != "" && p.facts.companySlug == slug then Some(p.facts.company) else NameFor(ups, slug)
  {
    assert [p][1..] == [] && NameFor([], slug).None?;
    NameOfBoth(ups, [p], slug);
  }

  // ---------- What the tables say about them ----------

  ghost predicate RowTold(ups: seq<Posting>, db: Db, j: nat)
    requires j in db.jobs
  {
    var job := db.jobs[j];
    && j < db.nextJob && job.key in db.byKey && db.byKey[job.key] == j
    && LastFor(ups, job.key).Some? && job.facts == LastFor(ups, job.key).value.facts
    && FirstFor(ups, job.key).Some? && job.publicSlug == FirstFor(ups, job.key).value.publicSlug
  }

  ghost predicate RowsTold(ups: seq<Posting>, db: Db) {
    && (forall j :: j in db.jobs ==> RowTold(ups, db, j))
    && (forall k :: k in db.byKey ==> db.byKey[k] in db.jobs && db.jobs[db.byKey[k]].key == k)
    && (forall k :: LastFor(ups, k).Some? || FirstFor(ups, k).Some? ==> k in db.byKey)
  }

  ghost predicate CompaniesTold(ups: seq<Posting>, db: Db) {
    forall slug :: (slug in db.companies <==> NameFor(ups, slug).Some?)
                   && (slug in db.companies ==> db.companies[slug] == NameFor(ups, slug).value)
  }

  ghost predicate Told(ups: seq<Posting>, db: Db) {
    RowsTold(ups, db) && CompaniesTold(ups, db)
  }

  lemma UpsertTellsRow(db: Db, ups: seq<Posting>, p: Posting, j: nat)
    requires RowsTold(ups, db) && UpsertJob(db, p).Ok? && j in UpsertJob(db, p).value.db.jobs
    ensures RowTold(ups + [p], UpsertJob(db, p).value.db, j)
  {
    var b := UpsertJob(db, p).value.db;
    OneMorePosting(ups, p, b.jobs[j].key);
    if j in db.jobs {
      assert RowTold(ups, db, j);
    }
  }

  lemma UpsertTellsKeys(db: Db, ups: seq<Posting>, p: Posting)
    requires RowsTold(ups, db) && UpsertJob(db, p).Ok?
    ensures var b := UpsertJob(db, p).value.db;
            && (forall k :: k in b.byKey ==> b.byKey[k] in b.jobs && b.jobs[b.byKey[k]].key == k)
            && b.byKey.Keys == db.byKey.Keys + {p.key}
  {
    forall j | j in db.jobs ensures j < db.nextJob {
      assert RowTold(ups, db, j);
    }
  }

  lemma UpsertTellsRows(db: Db, ups: seq<Posting>, p: Posting)
    requires RowsTold(ups, db) && UpsertJob(db, p).Ok?
    ensures RowsTold(ups + [p], UpsertJob(db, p).value.db)
  {
    var b := UpsertJob(db, p).value.db;
    forall j | j in b.jobs ensures RowTold(ups + [p], b, j) {
      UpsertTellsRow(db, ups, p, j);
    }
    UpsertTellsKeys(db, ups, p);
    forall k | LastFor(ups + [p], k).Some? || FirstFor(ups + [p], k).Some? ensures k in b.byKey {
      OneMorePosting(ups, p, k);
    }
  }

  lemma UpsertTellsCompanies(db: Db, ups: seq<Posting>, p: Posting)
    requires CompaniesTold(ups, db) && UpsertJob(db, p).Ok?
    ensures CompaniesTold(ups + [p], UpsertJob(db, p).value.db)
  {
    var b := UpsertJob(db, p).value.db;
    forall slug
      ensures (slug in b.companies <==> NameFor(ups + [p], slug).Some?)
              && (slug in b.companies ==> b.companies[slug] == NameFor(ups + [p], slug).value)
    {
      OneMoreName(ups, p, slug);
    }
  }

  // Steps that leave rows, index and companies alone, but for columns no posting has.
  ghost predicate SameRows(a: Db, b: Db) {
    && a.jobs.Keys == b.jobs.Keys && a.byKey == b.byKey && a.nextJob == b.nextJob && a.companies == b.companies
    && forall j :: j in a.jobs ==> SamePosting(a.jobs[j], b.jobs[j])
  }

  predicate SamePosting(a: Job, b: Job) {
    b.key == a.key && b.publicSlug == a.publicSlug && b.facts == a.facts
  }

  lemma SameRowsTold(ups: seq<Posting>, a: Db, b: Db)
    requires Told(ups, a) && SameRows(a, b)
    ensures Told(ups, b)
  {
    forall j | j in b.jobs ensures RowTold(ups, b, j) {
      assert RowTold(ups, a, j);
    }
  }

  lemma EnqueueLeavesRows(db: Db, id: nat, target: int)
    ensures SameRows(db, EnqueueJob(db, id, target))
  {
  }

  lemma SaveTells(db: Db, ups: seq<Posting>, p: Posting, target: int)
    requires Told(ups, db) && Save(db, p, target).Ok?
    ensures Told(ups + [p], Save(db, p, target).value.db)
  {
    var up := UpsertJob(db, p).value;
    UpsertTellsRows(db, ups, p);
    UpsertTellsCompanies(db, ups, p);
    EnqueueLeavesRows(up.db, up.id, target);
    SameRowsTold(ups + [p], up.db, EnqueueJob(up.db, up.id, target));
  }

  lemma {:induction false} SaveAllTells(db: Db, ups: seq<Posting>, postings: seq<Posting>, target: int)
    requires Told(ups, db) && SaveAll(db, postings, target).Ok?
    ensures Told(ups + postings, SaveAll(db, postings, target).value.db)
    decreases |postings|
  {
    if postings == [] {
      Nothing(ups);
    } else {
      SaveTells(db, ups, postings[0], target);
      SaveAllTells(Save(db, postings[0], target).value.db, ups + [postings[0]], postings[1..], target);
      HeadAndTail(postings);
      Regroup(ups, [postings[0]], postings[1..]);
    }
  }

  lemma QuietStepKeepsRows(c: Config, w: World, e: Event)
    requires !e.Ingest? && !(e.Telegram? && e.post.Extract?)
    ensures SameRows(w.db, Step(c, w, e).db)
  {
    match e
    case Tick(_) =>
    case EnqueueAll =>
    case Enrich(work) => EnrichLeavesFacts(c, w, work);
    case Telegram(_) =>
    case Lifecycle(life) => LifeLeavesFacts(c, w, life);
  }

  lemma EnrichLeavesFacts(c: Config, w: World, e: EnrichEvent)
    ensures forall j :: j in w.db.jobs ==> SamePosting(w.db.jobs[j], EnrichStep(c, w, e).db.jobs[j])
  {
    match e
    case ClaimBatch(_, _, _) =>
    case Complete(_, _, _) =>
    case FailClaim(_, _) =>
    case Abandon(_) =>
  }

  lemma LifeLeavesFacts(c: Config, w: World, e: LifeEvent)
    ensures forall j :: j in w.db.jobs ==> SamePosting(w.db.jobs[j], LifeStep(c, w, e).db.jobs[j])
  {
    match e
    case Sweep(_, _) =>
    case BeginProbes =>
    case Probe(_, verdict) =>
      match verdict {
        case Expired =>
        case Alive =>
        case Uncertain =>
      }
    case EndProbes =>
  }

  lemma StepTells(c: Config, w: World, ups: seq<Posting>, e: Event)
    requires Told(ups, w.db)
    ensures Told(ups + Upserted(c, w, e), Step(c, w, e).db)
  {
    Nothing(ups);
    if e.Ingest? {
      if Save(w.db, e.posting, c.version).Ok? {
        SaveTells(w.db, ups, e.posting, c.version);
      }
    } else if e.Telegram? && e.post.Extract? {
      ExtractTells(c, w, ups, e.post.key, e.post.postings);
    } else {
      QuietStepKeepsRows(c, w, e);
      SameRowsTold(ups, w.db, Step(c, w, e).db);
    }
  }

  lemma CompletePostTells(db: Db, ups: seq<Posting>, key: PostKey, postings: seq<Posting>, target: int)
    requires Told(ups, db) && CompletePost(db, key, postings, target).Ok?
    ensures Told(ups + postings, CompletePost(db, key, postings, target).value.db)
  {
    var saved := SaveAll(db, postings, target).value.db;
    SaveAllTells(db, ups, postings, target);
    assert SameRows(saved, MarkPostExtracted(saved, key));
    SameRowsTold(ups + postings, saved, MarkPostExtracted(saved, key));
  }

  lemma ExtractTells(c: Config, w: World, ups: seq<Posting>, key: PostKey, postings: seq<Posting>)
    requires Told(ups, w.db)
    ensures var e := Telegram(Extract(key, postings));
            Told(ups + Upserted(c, w, e), Step(c, w, e).db)
  {
    var e := Telegram(Extract(key, postings));
    if CompletePost(w.db, key, postings, c.version).Ok? {
      CompletePostTells(w.db, ups, key, postings, c.version);
      assert Upserted(c, w, e) == postings;
    } else {
      assert Upserted(c, w, e) == [] && Step(c, w, e).db == w.db;
      Nothing(ups);
    }
  }

  lemma {:induction false} RunTells(c: Config, w: World, ups: seq<Posting>, events: seq<Event>)
    requires Told(ups, w.db)
    ensures Told(ups + UpsertsOf(c, w, events), After(c, w, events).db)
    decreases |events|
  {
    if events == [] {
      Nothing(ups);
    } else {
      var more := Upserted(c, w, events[0]);
      StepTells(c, w, ups, events[0]);
      RunTells(c, Step(c, w, events[0]), ups + more, events[1..]);
      Regroup(ups, more, UpsertsOf(c, Step(c, w, events[0]), events[1..]));
    }
  }

  lemma TablesTell(c: Config, now: Time, events: seq<Event>)
    ensures Told(UpsertsOf(c, Genesis(now), events), After(c, Genesis(now), events).db)
  {
    RunTells(c, Genesis(now), [], events);
    Nothing(UpsertsOf(c, Genesis(now), events));
  }

  // ---------- Guarantees about rows and companies ----------

  // The first and the last posting of a key.
  predicate IsFirst(ups: seq<Posting>, i: int, key: Key) {
    0 <= i < |ups| && ups[i].key == key && forall k :: 0 <= k < i ==> ups[k].key != key
  }

  predicate IsLast(ups: seq<Posting>, i: int, key: Key) {
    0 <= i < |ups| && ups[i].key == key && forall k :: i < k < |ups| ==> ups[k].key != key
  }

  predicate NamesLast(ups: seq<Posting>, i: int, slug: string) {
    && 0 <= i < |ups| && ups[i].facts.companySlug == slug
    && forall k :: i < k < |ups| ==> ups[k].facts.companySlug != slug
  }

  lemma {:induction false} LastForIsLast(ups: seq<Posting>, key: Key) returns (i: int)
    ensures LastFor(ups, key).Some? ==> IsLast(ups, i, key) && LastFor(ups, key).value == ups[i]
    ensures LastFor(ups, key).None? ==> forall k :: 0 <= k < |ups| ==> ups[k].key != key
  {
    i := -1;
    if ups != [] {
      var later := LastForIsLast(ups[1..], key);
      i := if LastFor(ups[1..], key).Some? then later + 1 else 0;
      assert forall k :: 0 < k < |ups| ==> ups[k] == ups[1..][k - 1];
    }
  }

  lemma {:induction false} FirstForIsFirst(ups: seq<Posting>, key: Key) returns (i: int)
    ensures FirstFor(ups, key).Some? ==> IsFirst(ups, i, key) && FirstFor(ups, key).value == ups[i]
    ensures FirstFor(ups, key).None? ==> forall k :: 0 <= k < |ups| ==> ups[k].key != key
  {
    i := -1;
    if ups != [] {
      var later := FirstForIsFirst(ups[1..], key);
      i := if ups[0].key == key then 0 else later + 1;
      assert forall k :: 0 < k < |ups| ==> ups[k] == ups[1..][k - 1];
    }
  }

  lemma {:induction false} NameForIsLast(ups: seq<Posting>, slug: string) returns (i: int)
    ensures NameFor(ups, slug).Some? ==>
              slug != "" && NamesLast(ups, i, slug) && NameFor(ups, slug).value == ups[i].facts.company
    ensures NameFor(ups, slug).None? ==> slug == "" || forall k :: 0 <= k < |ups| ==> ups[k].facts.companySlug != slug
  {
    i := -1;
    if ups != [] {
      var later := NameForIsLast(ups[1..], slug);
      i := if NameFor(ups[1..], slug).Some? then later + 1 else 0;
      assert forall k :: 0 < k < |ups| ==> ups[k] == ups[1..][k - 1];
    }
  }

  // The row has the public slug of its key's first posting and the other columns of its last.
  ghost predicate RowOfPostings(ups: seq<Posting>, job: Job) {
    && (exists i :: IsLast(ups, i, job.key) && job.facts == ups[i].facts)
    && (exists i :: IsFirst(ups, i, job.key) && job.publicSlug == ups[i].publicSlug)
  }

  ghost predicate HasRow(jobs: map<nat, Job>, key: Key) {
    exists j :: j in jobs && jobs[j].key == key
  }

  ghost predicate IsUpserted(ups: seq<Posting>, key: Key) {
    exists i :: 0 <= i < |ups| && ups[i].key == key
  }

  ghost predicate KeysUnique(jobs: map<nat, Job>) {
    forall j, l :: j in jobs && l in jobs && jobs[j].key == jobs[l].key ==> j == l
  }

  lemma RowIsLastUpsert(ups: seq<Posting>, db: Db, j: nat)
    requires Told(ups, db) && j in db.jobs
    ensures RowOfPostings(ups, db.jobs[j])
  {
    assert RowTold(ups, db, j);
    var last := LastForIsLast(ups, db.jobs[j].key);
    var first := FirstForIsFirst(ups, db.jobs[j].key);
    assert IsLast(ups, last, db.jobs[j].key) && IsFirst(ups, first, db.jobs[j].key);
  }

  lemma KeyHasOneRow(ups: seq<Posting>, db: Db, key: Key)
    requires Told(ups, db)
    ensures IsUpserted(ups, key) <==> HasRow(db.jobs, key)
    ensures KeysUnique(db.jobs)
  {
    var last := LastForIsLast(ups, key);
    if LastFor(ups, key).Some? {
      assert db.byKey[key] in db.jobs;
    }
    if j :| j in db.jobs && db.jobs[j].key == key {
      assert RowTold(ups, db, j);
    }
    forall j, l | j in db.jobs && l in db.jobs && db.jobs[j].key == db.jobs[l].key ensures j == l {
      assert RowTold(ups, db, j) && RowTold(ups, db, l);
    }
  }

  // Over every run: a job has the public slug its first upsert came with, and the other columns
  // of a posting as its last upsert had them.
  lemma RowsAreTheLastUpserts(c: Config, now: Time, events: seq<Event>, j: nat)
    requires j in After(c, Genesis(now), events).db.jobs
    ensures RowOfPostings(UpsertsOf(c, Genesis(now), events), After(c, Genesis(now), events).db.jobs[j])
  {
    TablesTell(c, now, events);
    RowIsLastUpsert(UpsertsOf(c, Genesis(now), events), After(c, Genesis(now), events).db, j);
  }

  // Over every run: exactly the keys of the postings upserted have a row, and no two rows have one
  // key.
  lemma EveryUpsertHasItsRow(c: Config, now: Time, events: seq<Event>, key: Key)
    ensures var ups, jobs := UpsertsOf(c, Genesis(now), events), After(c, Genesis(now), events).db.jobs;
            (IsUpserted(ups, key) <==> HasRow(jobs, key)) && KeysUnique(jobs)
  {
    TablesTell(c, now, events);
    KeyHasOneRow(UpsertsOf(c, Genesis(now), events), After(c, Genesis(now), events).db, key);
  }

  // Over every run: the companies are exactly the non-empty company slugs of the postings
  // upserted, by ingest or from Telegram, each under the name it last came with.
  lemma CompaniesAreThoseUpserted(c: Config, now: Time, events: seq<Event>, slug: string)
    ensures var ups, companies := UpsertsOf(c, Genesis(now), events), After(c, Genesis(now), events).db.companies;
            && (slug in companies <==> slug != "" && exists i :: 0 <= i < |ups| && ups[i].facts.companySlug == slug)
            && (slug in companies ==> exists i :: NamesLast(ups, i, slug) && companies[slug] == ups[i].facts.company)
  {
    TablesTell(c, now, events);
    var i := NameForIsLast(UpsertsOf(c, Genesis(now), events), slug);
  }

  lemma SaveRefusedExactly(ups: seq<Posting>, db: Db, p: Posting, target: int)
    requires Told(ups, db)
    ensures Save(db, p, target).Err? <==>
              (forall j :: j in db.jobs ==> db.jobs[j].key != p.key)
              && exists j :: j in db.jobs && db.jobs[j].publicSlug == p.publicSlug
  {
    if j :| j in db.jobs && db.jobs[j].key == p.key {
      assert RowTold(ups, db, j);
    }
  }

  // Over every run: a posting is refused exactly when no job has its key and some job has its
  // public slug; otherwise it is upserted.
  lemma RefusedExactly(c: Config, now: Time, events: seq<Event>, p: Posting)
    ensures var w := After(c, Genesis(now), events);
            && (Upserted(c, w, Ingest(p)) == [] <==>
                (forall j :: j in w.db.jobs ==> w.db.jobs[j].key != p.key)
                && exists j :: j in w.db.jobs && w.db.jobs[j].publicSlug == p.publicSlug)
            && (Upserted(c, w, Ingest(p)) != [] ==> Upserted(c, w, Ingest(p)) == [p])
  {
    TablesTell(c, now, events);
    SaveRefusedExactly(UpsertsOf(c, Genesis(now), events), After(c, Genesis(now), events).db, p, c.version);
  }

  // ---------- Enrichments ----------

  predicate WritesTo(e: Event, j: nat) {
    e.Enrich? && e.work.Complete? && e.work.claim.jobId == j
  }

  // The position of the last write-back to a job, or -1.
  function LastWriteTo(events: seq<Event>, j: nat): (i: int)
    ensures -1 <= i < |events| && (i >= 0 ==> WritesTo(events[i], j))
    ensures forall k :: i < k < |events| ==> !WritesTo(events[k], j)
  {
    if events == [] then -1
    else if WritesTo(events[|events| - 1], j) then |events| - 1
    else
      var i := LastWriteTo(events[..|events| - 1], j);
      assert forall k :: 0 <= k < |events| - 1 ==> events[k] == events[..|events| - 1][k];
      i
  }

  // A row that was never written back has its defaults.
  ghost predicate StoredAs(job: Job, events: seq<Event>, i: int) {
    if 0 <= i < |events| && events[i].Enrich? && events[i].work.Complete? then
      && job.enrichment == events[i].work.payload && job.enrichedAt == Some(events[i].work.at)
      && job.version == events[i].work.claim.target
    else job.enrichment == "{}" && job.enrichedAt.None? && job.version == 0
  }

  ghost predicate Stored(db: Db, events: seq<Event>, version: int) {
    && (forall j :: j in db.jobs ==> j < db.nextJob && StoredAs(db.jobs[j], events, LastWriteTo(events, j)))
    && (forall j :: j in db.jobs && db.jobs[j].enrichedAt.Some? ==> db.jobs[j].version == version)
    && (forall j: nat :: j !in db.jobs ==> LastWriteTo(events, j) == -1)
  }

  lemma LastWriteOfMore(events: seq<Event>, e: Event, j: nat)
    ensures LastWriteTo(events + [e], j) == if WritesTo(e, j) then |events| else LastWriteTo(events, j)
  {
    var more := events + [e];
    assert more[..|more| - 1] == events;
  }

  predicate SameEnrichment(a: Job, b: Job) {
    b.enrichment == a.enrichment && b.enrichedAt == a.enrichedAt && b.version == a.version
  }

  // Steps other than a write-back: rows keep their enrichment, new ones have none.
  ghost predicate SameEnrichments(a: Db, b: Db) {
    && a.jobs.Keys <= b.jobs.Keys && (forall j :: j in b.jobs ==> j < b.nextJob)
    && (forall j :: j in a.jobs ==> SameEnrichment(a.jobs[j], b.jobs[j]))
    && forall j :: j in b.jobs && j !in a.jobs ==>
                     b.jobs[j].enrichment == "{}" && b.jobs[j].enrichedAt.None? && b.jobs[j].version == 0
  }

  lemma SaveKeepsEnrichments(db: Db, p: Posting, target: int)
    requires (forall j :: j in db.jobs ==> j < db.nextJob) && Save(db, p, target).Ok?
    ensures SameEnrichments(db, Save(db, p, target).value.db)
  {
  }

  lemma {:induction false} SaveAllKeepsEnrichments(db: Db, postings: seq<Posting>, target: int)
    requires (forall j :: j in db.jobs ==> j < db.nextJob) && SaveAll(db, postings, target).Ok?
    ensures SameEnrichments(db, SaveAll(db, postings, target).value.db)
    decreases |postings|
  {
    if postings != [] {
      SaveKeepsEnrichments(db, postings[0], target);
      SaveAllKeepsEnrichments(Save(db, postings[0], target).value.db, postings[1..], target);
    }
  }

  lemma OtherStepKeepsEnrichments(c: Config, w: World, e: Event)
    requires (forall j :: j in w.db.jobs ==> j < w.db.nextJob) && !(e.Enrich? && e.work.Complete?)
    ensures SameEnrichments(w.db, Step(c, w, e).db)
  {
    match e
    case Tick(_) =>
    case Ingest(p) => if Save(w.db, p, c.version).Ok? { SaveKeepsEnrichments(w.db, p, c.version); }
    case EnqueueAll =>
    case Enrich(work) =>
      match work {
        case ClaimBatch(_, _, _) =>
        case FailClaim(_, _) =>
        case Abandon(_) =>
      }
    case Telegram(post) =>
      if post.Extract? && SaveAll(w.db, post.postings, c.version).Ok? {
        SaveAllKeepsEnrichments(w.db, post.postings, c.version);
      }
    case Lifecycle(life) => LifeKeepsEnrichments(c, w, life);
  }

  lemma LifeKeepsEnrichments(c: Config, w: World, e: LifeEvent)
    ensures forall j :: j in w.db.jobs ==> SameEnrichment(w.db.jobs[j], LifeStep(c, w, e).db.jobs[j])
  {
    match e
    case Sweep(_, _) =>
    case BeginProbes =>
    case Probe(_, verdict) =>
      match verdict {
        case Expired =>
        case Alive =>
        case Uncertain =>
      }
    case EndProbes =>
  }

  lemma StoredStays(a: Db, b: Db, seen: seq<Event>, e: Event, version: int)
    requires Stored(a, seen, version) && SameEnrichments(a, b) && !(e.Enrich? && e.work.Complete?)
    ensures Stored(b, seen + [e], version)
  {
    forall j | j in b.jobs ensures StoredAs(b.jobs[j], seen + [e], LastWriteTo(seen + [e], j)) {
      LastWriteOfMore(seen, e, j);
    }
    forall j: nat | j !in b.jobs ensures LastWriteTo(seen + [e], j) == -1 {
      LastWriteOfMore(seen, e, j);
    }
  }

  // A write-back stores its payload, time and version on its job, and touches no other.
  lemma WriteBackStores(c: Config, w: World, seen: seq<Event>, e: Event)
    requires Stored(w.db, seen, c.version) && e.Enrich? && e.work.Complete?
    requires e.work.claim.jobId in w.db.jobs && e.work.claim.target == c.version
    ensures Stored(Step(c, w, e).db, seen + [e], c.version)
  {
    var b := Step(c, w, e).db;
    forall j | j in b.jobs ensures StoredAs(b.jobs[j], seen + [e], LastWriteTo(seen + [e], j)) {
      LastWriteOfMore(seen, e, j);
    }
    forall j: nat | j !in b.jobs ensures LastWriteTo(seen + [e], j) == -1 {
      LastWriteOfMore(seen, e, j);
    }
  }

  lemma StepStores(c: Config, w: World, seen: seq<Event>, e: Event)
    requires SoundWorld(c, w) && Enabled(c, w, e) && Stored(w.db, seen, c.version)
    ensures Stored(Step(c, w, e).db, seen + [e], c.version)
  {
    if e.Enrich? && e.work.Complete? {
      WriteBackStores(c, w, seen, e);
    } else {
      OtherStepKeepsEnrichments(c, w, e);
      StoredStays(w.db, Step(c, w, e).db, seen, e, c.version);
    }
  }

  lemma {:induction false} RunStores(c: Config, w: World, seen: seq<Event>, events: seq<Event>)
    requires SoundWorld(c, w) && Runs(c, w, events) && Stored(w.db, seen, c.version)
    ensures Stored(After(c, w, events).db, seen + events, c.version)
    decreases |events|
  {
    if events == [] {
      Nothing(seen);
    } else {
      StepStores(c, w, seen, events[0]);
      StepKeepsSound(c, w, events[0]);
      RunStores(c, Step(c, w, events[0]), seen + [events[0]], events[1..]);
      HeadAndTail(events);
      Regroup(seen, [events[0]], events[1..]);
    }
  }

  // Over every run: what a job stores as its enrichment, with its time and version, is what its
  // last write-back brought; a job never written back is empty and at version 0.
  lemma EnrichmentIsTheLastWriteBack(c: Config, now: Time, events: seq<Event>, j: nat)
    requires Runs(c, Genesis(now), events) && j in After(c, Genesis(now), events).db.jobs
    ensures var job, i := After(c, Genesis(now), events).db.jobs[j], LastWriteTo(events, j);
            if i >= 0 then
              && job.enrichment == events[i].work.payload && job.enrichedAt == Some(events[i].work.at)
              && job.version == events[i].work.claim.target
            else job.enrichment == "{}" && job.enrichedAt.None? && job.version == 0
  {
    EnrichmentsAreStored(c, now, events);
  }

  lemma EnrichmentsAreStored(c: Config, now: Time, events: seq<Event>)
    requires Runs(c, Genesis(now), events)
    ensures Stored(After(c, Genesis(now), events).db, events, c.version)
  {
    assert Queued(Genesis(now).db) == {};
    RunStores(c, Genesis(now), [], events);
    Nothing(events);
  }

  // Over every run: the queued jobs are precisely those never written back.
  lemma QueuedUntilWrittenBack(c: Config, now: Time, events: seq<Event>, j: nat)
    requires Runs(c, Genesis(now), events)
    ensures var db := After(c, Genesis(now), events).db;
            (exists o :: o in db.outbox && db.outbox[o].jobId == j) <==>
            j in db.jobs && forall i :: 0 <= i < |events| ==> !WritesTo(events[i], j)
  {
    var db := After(c, Genesis(now), events).db;
    EnrichmentsAreStored(c, now, events);
    OutboxExactFromEmpty(c, now, events);
    assert LastWriteTo(events, j) >= 0 ==> WritesTo(events[LastWriteTo(events, j)], j);
    if j in db.jobs {
      assert StoredAs(db.jobs[j], events, LastWriteTo(events, j));
    }
  }

  // ---------- Telegram posts ----------

  predicate Crawls(e: Event, k: PostKey) {
    e.Telegram? && e.post.Crawl? && e.post.key == k
  }

  // The position of the first crawl of a post, or -1.
  function FirstCrawl(events: seq<Event>, k: PostKey): (i: int)
    ensures -1 <= i < |events| && (i >= 0 ==> Crawls(events[i], k))
    ensures forall l :: 0 <= l < (if i < 0 then |events| else i) ==> !Crawls(events[l], k)
  {
    if events == [] then -1
    else
      var last := |events| - 1;
      var i := FirstCrawl(events[..last], k);
      assert forall l :: 0 <= l < last ==> events[l] == events[..last][l];
      if i >= 0 then i else if Crawls(events[last], k) then last else -1
  }

  datatype Marking = Marking(key: PostKey, at: Time)

  // The extractions that succeeded, and when.
  function Marked(c: Config, w: World, e: Event): seq<Marking> {
    match e
    case Telegram(Extract(key, postings)) =>
      if CompletePost(w.db, key, postings, c.version).Ok? then [Marking(key, w.db.now)] else []
    case _ => []
  }

  function MarksOf(c: Config, w: World, events: seq<Event>): seq<Marking>
    decreases |events|
  {
    if events == [] then [] else Marked(c, w, events[0]) + MarksOf(c, Step(c, w, events[0]), events[1..])
  }

  function LastMark(marks: seq<Marking>, k: PostKey): Option<Time> {
    if marks == [] then None
    else if marks[|marks| - 1].key == k then Some(marks[|marks| - 1].at)
    else LastMark(marks[..|marks| - 1], k)
  }

  // The post as it was crawled first, and marked as extracted last.
  ghost predicate PostTold(seen: seq<Event>, marks: seq<Marking>, posts: map<PostKey, Post>, k: PostKey) {
    var i := FirstCrawl(seen, k);
    && (k in posts <==> i >= 0)
    && (k !in posts ==> LastMark(marks, k).None?)
    && (k in posts && i >= 0 ==>
          && posts[k].text == seen[i].post.text && posts[k].postedAt == seen[i].post.postedAt
          && posts[k].extractedAt ==
             if LastMark(marks, k).Some? then LastMark(marks, k) else seen[i].post.extractedAt)
  }

  ghost predicate PostsTold(seen: seq<Event>, marks: seq<Marking>, w: World) {
    && (forall k :: PostTold(seen, marks, w.db.posts, k))
    && (forall k :: k in w.heldPosts ==> k in w.db.posts)
  }

  lemma FirstCrawlOfMore(seen: seq<Event>, e: Event, k: PostKey)
    ensures FirstCrawl(seen + [e], k) ==
              if FirstCrawl(seen, k) >= 0 then FirstCrawl(seen, k) else if Crawls(e, k) then |seen| else -1
  {
    var more := seen + [e];
    assert more[..|more| - 1] == seen;
  }

  lemma LastMarkOfMore(marks: seq<Marking>, m: Marking, k: PostKey)
    ensures LastMark(marks + [m], k) == if m.key == k then Some(m.at) else LastMark(marks, k)
  {
    var more := marks + [m];
    assert more[..|more| - 1] == marks;
  }

  predicate SamePost(a: Post, b: Post) {
    b.text == a.text && b.postedAt == a.postedAt && b.extractedAt == a.extractedAt
  }

  ghost predicate OnlyStampsMove(w: World, t: World) {
    && t.db.posts.Keys == w.db.posts.Keys
    && (forall k :: k in w.db.posts ==> SamePost(w.db.posts[k], t.db.posts[k]))
    && (forall k :: k in t.heldPosts ==> k in w.heldPosts || k in w.db.posts)
  }

  lemma QueueStepLeavesPosts(c: Config, w: World, e: PostEvent)
    requires PostEnabled(c, w, e) && !e.Crawl? && !e.Extract?
    ensures OnlyStampsMove(w, PostStep(c, w, e))
  {
    match e
    case ClaimPosts(_, _, _) =>
    case FailPost(_, _) =>
    case AbandonPost(_) =>
  }

  // Steps that neither crawl nor extract.
  lemma OtherStepLeavesPosts(c: Config, w: World, e: Event)
    requires Enabled(c, w, e) && !(e.Telegram? && (e.post.Crawl? || e.post.Extract?))
    ensures OnlyStampsMove(w, Step(c, w, e))
  {
    match e
    case Tick(_) =>
    case Ingest(_) =>
    case EnqueueAll =>
    case Enrich(_) =>
    case Lifecycle(_) =>
    case Telegram(post) => QueueStepLeavesPosts(c, w, post);
  }

  lemma OtherStepTellsPosts(c: Config, w: World, seen: seq<Event>, marks: seq<Marking>, e: Event)
    requires PostsTold(seen, marks, w) && Enabled(c, w, e) && !(e.Telegram? && (e.post.Crawl? || e.post.Extract?))
    ensures PostsTold(seen + [e], marks, Step(c, w, e))
  {
    OtherStepLeavesPosts(c, w, e);
    forall k ensures PostTold(seen + [e], marks, Step(c, w, e).db.posts, k) {
      assert PostTold(seen, marks, w.db.posts, k);
      FirstCrawlOfMore(seen, e, k);
    }
  }

  lemma CrawlTellsPosts(c: Config, w: World, seen: seq<Event>, marks: seq<Marking>, e: Event)
    requires PostsTold(seen, marks, w) && e.Telegram? && e.post.Crawl?
    ensures PostsTold(seen + [e], marks, Step(c, w, e))
  {
    forall k ensures PostTold(seen + [e], marks, Step(c, w, e).db.posts, k) {
      assert PostTold(seen, marks, w.db.posts, k);
      FirstCrawlOfMore(seen, e, k);
    }
  }

  lemma ExtractTellsPosts(c: Config, w: World, seen: seq<Event>, marks: seq<Marking>, e: Event)
    requires PostsTold(seen, marks, w) && Enabled(c, w, e) && e.Telegram? && e.post.Extract?
    ensures PostsTold(seen + [e], marks + Marked(c, w, e), Step(c, w, e))
  {
    var t, key := Step(c, w, e), e.post.key;
    assert key in w.db.posts;
    var completed := CompletePost(w.db, key, e.post.postings, c.version).Ok?;
    assert t.db.posts == if completed then w.db.posts[key := w.db.posts[key].(extractedAt := Some(w.db.now))]
                         else w.db.posts;
    forall k ensures PostTold(seen + [e], marks + Marked(c, w, e), t.db.posts, k) {
      assert PostTold(seen, marks, w.db.posts, k);
      FirstCrawlOfMore(seen, e, k);
      if completed {
        LastMarkOfMore(marks, Marking(key, w.db.now), k);
      } else {
        Nothing(marks);
      }
    }
  }

  lemma StepTellsPosts(c: Config, w: World, seen: seq<Event>, marks: seq<Marking>, e: Event)
    requires PostsTold(seen, marks, w) && Enabled(c, w, e)
    ensures PostsTold(seen + [e], marks + Marked(c, w, e), Step(c, w, e))
  {
    Nothing(marks);
    if e.Telegram? && e.post.Extract? {
      ExtractTellsPosts(c, w, seen, marks, e);
    } else if e.Telegram? && e.post.Crawl? {
      CrawlTellsPosts(c, w, seen, marks, e);
    } else {
      OtherStepTellsPosts(c, w, seen, marks, e);
    }
  }

  lemma {:induction false} RunTellsPosts(c: Config, w: World, seen: seq<Event>, marks: seq<Marking>,
                                         events: seq<Event>)
    requires PostsTold(seen, marks, w) && Runs(c, w, events)
    ensures PostsTold(seen + events, marks + MarksOf(c, w, events), After(c, w, events))
    decreases |events|
  {
    if events == [] {
      Nothing(seen);
      Nothing(marks);
    } else {
      var more := Marked(c, w, events[0]);
      StepTellsPosts(c, w, seen, marks, events[0]);
      RunTellsPosts(c, Step(c, w, events[0]), seen + [events[0]], marks + more, events[1..]);
      HeadAndTail(events);
      Regroup(seen, [events[0]], events[1..]);
      Regroup(marks, more, MarksOf(c, Step(c, w, events[0]), events[1..]));
    }
  }

  // Over every run: a stored post has the text and time it was crawled with first; it was extracted
  // when its last successful extraction says so, or else as it was crawled.
  lemma PostsAreTheFirstCrawls(c: Config, now: Time, events: seq<Event>, k: PostKey)
    requires Runs(c, Genesis(now), events)
    ensures PostTold(events, MarksOf(c, Genesis(now), events), After(c, Genesis(now), events).db.posts, k)
  {
    RunTellsPosts(c, Genesis(now), [], [], events);
    Nothing(events);
    Nothing(MarksOf(c, Genesis(now), events));
  }
}
