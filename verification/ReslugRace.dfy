// Reslugging beside the other workers. The reslug worker pages through the jobs, and handles a
// row some time after reading it; meanwhile upserts may change its title or company. With
// distinct short codes no write fails and slugs stay unique. Whether a handled row is up to date
// is decided by the last upsert since it was read.
module ReslugRace {
  import opened Wrappers
  import opened Catalogue
  import opened Workers
  import opened Provenance
  import opened SlugIntegrity
  import opened Slugs
  import opened KeysetScan
  import opened Sequences

  // The short code of a dedup key, and the keys that may occur.
  datatype Codes = Codes(of: Key -> ShortCode, keys: iset<Key>)

  ghost predicate Distinguishing(codes: Codes) {
    forall k, l :: k in codes.keys && l in codes.keys && codes.of(k) == codes.of(l) ==> k == l
  }

  // The columns of a row that the worker reads. `upserted` is history: the last upsert of the
  // row since then.
  datatype Reading = Reading(
    id: nat,
    key: Key,
    title: string,
    company: string,
    publicSlug: string,
    companySlug: string,
    upserted: Option<Posting>
  )

  // History: what a row was handled with, whether that wrote anything, and the last upsert of
  // the row after that.
  datatype Handling = Handling(reading: Reading, wrote: bool, upserted: Option<Posting>)

  // The worker's cursor and the rows of its page still to be handled, beside everybody else.
  datatype State = State(world: World, afterId: nat, todo: seq<Reading>, handled: map<nat, Handling>)

  // A step of another worker, the start of a run, the next page, or the next row of the page.
  datatype Move = Work(e: Event) | Begin | ReadPage(batch: nat, page: seq<nat>) | HandleRow

  // Every ingested posting comes with the slugs normalizeJob builds.
  ghost predicate Built(codes: Codes, p: Posting) {
    && p.key in codes.keys && p.publicSlug == JobSlugOf(p.facts.title, p.facts.company, codes.of(p.key))
    && p.facts.companySlug == SlugOf(p.facts.company)
  }

  ghost predicate AllBuilt(codes: Codes, postings: seq<Posting>) {
    forall i :: 0 <= i < |postings| ==> Built(codes, postings[i])
  }

  ghost predicate BuiltMove(codes: Codes, m: Move) {
    match m
    case Work(Ingest(p)) => Built(codes, p)
    case Work(Telegram(Extract(_, postings))) => AllBuilt(codes, postings)
    case _ => true
  }

  // ---------- The reslug worker ----------

  function NewSlug(codes: Codes, r: Reading): string {
    JobSlugOf(r.title, r.company, codes.of(r.key))
  }

  // The recomputed slugs are the ones read: nothing to write.
  predicate Skips(codes: Codes, r: Reading) {
    NewSlug(codes, r) == r.publicSlug && SlugOf(r.company) == r.companySlug
  }

  // UPDATE jobs SET public_slug, company_slug WHERE id: the unique key refuses a slug of another
  // row.
  predicate Refused(codes: Codes, db: Db, r: Reading) {
    r.id in db.jobs && exists other ::
      other in db.jobs && other != r.id && db.jobs[other].publicSlug == NewSlug(codes, r)
  }

  function Written(codes: Codes, db: Db, r: Reading): Db {
    if r.id in db.jobs then
      var job := db.jobs[r.id];
      db.(jobs := db.jobs[r.id := job.(publicSlug := NewSlug(codes, r),
                                       facts := job.facts.(companySlug := SlugOf(r.company)))])
    else db
  }

  function Read(db: Db, id: nat): Reading
    requires id in db.jobs
  {
    var job := db.jobs[id];
    Reading(id, job.key, job.facts.title, job.facts.company, job.publicSlug, job.facts.companySlug, None)
  }

  function ReadAll(db: Db, page: seq<nat>): seq<Reading>
    requires forall id :: id in page ==> id in db.jobs
  {
    seq(|page|, i requires 0 <= i < |page| => Read(db, page[i]))
  }

  // A refused write ends the run with an error.
  function Handled(codes: Codes, s: State): State
    requires s.todo != []
  {
    var r := s.todo[0];
    var rest := s.todo[1..];
    if Skips(codes, r) then s.(todo := rest, handled := s.handled[r.id := Handling(r, false, None)])
    else if Refused(codes, s.world.db, r) then s.(todo := [])
    else s.(world := s.world.(db := Written(codes, s.world.db, r)), todo := rest,
            handled := s.handled[r.id := Handling(r, true, None)])
  }

  // ---------- The others ----------

  function Latest(before: Option<Posting>, postings: seq<Posting>, key: Key): Option<Posting> {
    if LastFor(postings, key).Some? then LastFor(postings, key) else before
  }

  function NoteReading(r: Reading, postings: seq<Posting>): Reading {
    r.(upserted := Latest(r.upserted, postings, r.key))
  }

  function NoteHandling(h: Handling, postings: seq<Posting>): Handling {
    h.(upserted := Latest(h.upserted, postings, h.reading.key))
  }

  function Worked(c: Config, s: State, e: Event): State {
    var postings := Upserted(c, s.world, e);
    s.(world := Step(c, s.world, e),
       todo := seq(|s.todo|, i requires 0 <= i < |s.todo| => NoteReading(s.todo[i], postings)),
       handled := map id | id in s.handled :: NoteHandling(s.handled[id], postings))
  }

  ghost predicate CanMove(c: Config, s: State, m: Move) {
    match m
    case Work(e) => Enabled(c, s.world, e)
    case Begin => true
    case ReadPage(batch, page) => s.todo == [] && IsPage(s.world.db.jobs.Keys, s.afterId, batch, page)
    case HandleRow => s.todo != []
  }

  ghost function Moved(c: Config, codes: Codes, s: State, m: Move): State
    requires CanMove(c, s, m)
  {
    match m
    case Work(e) => Worked(c, s, e)
    case Begin => s.(afterId := 0, todo := [])
    case ReadPage(_, page) =>
      s.(todo := ReadAll(s.world.db, page), afterId := if page == [] then s.afterId else page[|page| - 1])
    case HandleRow => Handled(codes, s)
  }

  ghost predicate Moves(c: Config, codes: Codes, s: State, moves: seq<Move>)
    decreases |moves|
  {
    || moves == []
    || (CanMove(c, s, moves[0]) && BuiltMove(codes, moves[0])
        && Moves(c, codes, Moved(c, codes, s, moves[0]), moves[1..]))
  }

  ghost function After(c: Config, codes: Codes, s: State, moves: seq<Move>): State
    requires Moves(c, codes, s, moves)
    decreases |moves|
  {
    if moves == [] then s else After(c, codes, Moved(c, codes, s, moves[0]), moves[1..])
  }

  // ---------- What every step keeps ----------

  // The index on the dedup key is right, and every slug ends in its row's code.
  ghost predicate RowOk(codes: Codes, db: Db, j: nat)
    requires j in db.jobs
  {
    var job := db.jobs[j];
    && j < db.nextJob && job.key in codes.keys && EndsIn(job.publicSlug, codes.of(job.key))
    && job.key in db.byKey && db.byKey[job.key] == j
  }

  // The index has nothing but the rows' keys.
  ghost predicate Indexed(db: Db) {
    forall k :: k in db.byKey ==> db.byKey[k] in db.jobs && db.jobs[db.byKey[k]].key == k
  }

  ghost predicate Coded(codes: Codes, db: Db) {
    Indexed(db) && forall j :: j in db.jobs ==> RowOk(codes, db, j)
  }

  // What a step does to a row: keys and public slugs stay, and the last upsert of the row, if any,
  // overwrites its other columns.
  predicate Carries(a: Job, b: Job, last: Option<Posting>) {
    && b.key == a.key && b.publicSlug == a.publicSlug
    && match last
       case None => b.facts == a.facts
       case Some(p) => b.facts == p.facts && p.facts.companySlug == SlugOf(p.facts.company)
  }

  lemma CodedIsUnique(codes: Codes, db: Db)
    requires Distinguishing(codes) && Coded(codes, db)
    ensures SlugsUnique(db.jobs)
  {
    forall i, j | i in db.jobs && j in db.jobs && i != j
      ensures db.jobs[i].publicSlug != db.jobs[j].publicSlug
    {
      assert RowOk(codes, db, i) && RowOk(codes, db, j);
      CodesTellSlugsApart(db.jobs[i].publicSlug, db.jobs[j].publicSlug, codes.of(db.jobs[i].key),
                codes.of(db.jobs[j].key));
    }
  }

  // No other row has a slug that ends in this key's code.
  lemma NobodyElseHasIt(codes: Codes, db: Db, key: Key, slug: string, other: nat)
    requires Distinguishing(codes) && Coded(codes, db) && key in codes.keys && EndsIn(slug, codes.of(key))
    requires other in db.jobs && db.jobs[other].key != key
    ensures db.jobs[other].publicSlug != slug
  {
    assert RowOk(codes, db, other);
    CodesTellSlugsApart(db.jobs[other].publicSlug, slug, codes.of(db.jobs[other].key), codes.of(key));
  }

  lemma WriteIsAccepted(codes: Codes, db: Db, r: Reading)
    requires Distinguishing(codes) && Coded(codes, db) && r.id in db.jobs && r.key == db.jobs[r.id].key
    ensures !Refused(codes, db, r)
  {
    assert RowOk(codes, db, r.id);
    JobSlugEndsInItsCode(r.title, r.company, codes.of(r.key));
    forall other | other in db.jobs && other != r.id
      ensures db.jobs[other].publicSlug != NewSlug(codes, r)
    {
      assert RowOk(codes, db, other);
      NobodyElseHasIt(codes, db, r.key, NewSlug(codes, r), other);
    }
  }

  lemma WriteKeepsCoded(codes: Codes, db: Db, r: Reading)
    requires Coded(codes, db) && r.id in db.jobs && r.key == db.jobs[r.id].key
    ensures Coded(codes, Written(codes, db, r))
  {
    var after := Written(codes, db, r);
    JobSlugEndsInItsCode(r.title, r.company, codes.of(r.key));
    forall j | j in after.jobs ensures RowOk(codes, after, j) {
      assert RowOk(codes, db, j);
    }
  }

  // A posting with its own slug is never refused either.
  lemma SaveIsAccepted(codes: Codes, db: Db, p: Posting, target: int)
    requires Distinguishing(codes) && Coded(codes, db) && Built(codes, p)
    ensures Save(db, p, target).Ok? && Coded(codes, Save(db, p, target).value.db)
  {
    JobSlugEndsInItsCode(p.facts.title, p.facts.company, codes.of(p.key));
    if !(p.key in db.byKey && db.byKey[p.key] in db.jobs) {
      forall other | other in db.jobs ensures db.jobs[other].publicSlug != p.publicSlug {
        assert RowOk(codes, db, other);
        NobodyElseHasIt(codes, db, p.key, p.publicSlug, other);
      }
    }
    UpsertKeepsCoded(codes, db, p);
    EnqueueKeepsCoded(codes, UpsertJob(db, p).value.db, UpsertJob(db, p).value.id, target);
  }

  lemma UpsertKeepsCoded(codes: Codes, db: Db, p: Posting)
    requires Coded(codes, db) && p.key in codes.keys && EndsIn(p.publicSlug, codes.of(p.key)) && UpsertJob(db, p).Ok?
    ensures Coded(codes, UpsertJob(db, p).value.db)
  {
    var up := UpsertJob(db, p).value;
    forall j | j in up.db.jobs ensures RowOk(codes, up.db, j) {
      if j == up.id {
        UpsertedRowIsOk(codes, db, p);
      } else {
        OtherRowsStayOk(codes, db, p, j);
      }
    }
  }

  lemma UpsertedRowIsOk(codes: Codes, db: Db, p: Posting)
    requires Coded(codes, db) && p.key in codes.keys && EndsIn(p.publicSlug, codes.of(p.key)) && UpsertJob(db, p).Ok?
    ensures var up := UpsertJob(db, p).value;
            up.id in up.db.jobs && RowOk(codes, up.db, up.id)
  {
    if p.key in db.byKey && db.byKey[p.key] in db.jobs {
      assert RowOk(codes, db, db.byKey[p.key]);
    }
  }

  lemma OtherRowsStayOk(codes: Codes, db: Db, p: Posting, j: nat)
    requires Coded(codes, db) && UpsertJob(db, p).Ok?
    requires j in UpsertJob(db, p).value.db.jobs && j != UpsertJob(db, p).value.id
    ensures RowOk(codes, UpsertJob(db, p).value.db, j)
  {
    assert RowOk(codes, db, j);
  }

  lemma EnqueueKeepsCoded(codes: Codes, db: Db, id: nat, target: int)
    requires Coded(codes, db)
    ensures Coded(codes, EnqueueJob(db, id, target))
  {
    EnqueueLeavesRows(db, id, target);
    SameRowsSameCodes(codes, db, EnqueueJob(db, id, target));
  }

  lemma {:induction false} SaveAllIsAccepted(codes: Codes, db: Db, postings: seq<Posting>, target: int)
    requires Distinguishing(codes) && Coded(codes, db) && AllBuilt(codes, postings)
    ensures SaveAll(db, postings, target).Ok? && Coded(codes, SaveAll(db, postings, target).value.db)
    decreases |postings|
  {
    if postings != [] {
      SaveIsAccepted(codes, db, postings[0], target);
      SaveAllIsAccepted(codes, Save(db, postings[0], target).value.db, postings[1..], target);
    }
  }

  lemma SameRowsSameCodes(codes: Codes, a: Db, b: Db)
    requires Coded(codes, a) && SameRows(a, b)
    ensures Coded(codes, b)
  {
    forall j | j in b.jobs ensures RowOk(codes, b, j) {
      assert RowOk(codes, a, j);
    }
  }

  // ---------- What upserts do to a row ----------

  lemma SaveCarries(codes: Codes, db: Db, p: Posting, target: int, j: nat)
    requires Coded(codes, db) && Built(codes, p) && Save(db, p, target).Ok? && j in db.jobs
    ensures j in Save(db, p, target).value.db.jobs
    ensures Carries(db.jobs[j], Save(db, p, target).value.db.jobs[j], LastFor([p], db.jobs[j].key))
  {
    assert RowOk(codes, db, j);
    LastOfOne(p, db.jobs[j].key);
    if p.key in db.byKey && db.byKey[p.key] in db.jobs {
      assert RowOk(codes, db, db.byKey[p.key]);
    }
  }

  lemma CarriesTwice(a: Job, b: Job, c: Job, p: Posting, rest: seq<Posting>)
    requires Carries(a, b, LastFor([p], a.key)) && Carries(b, c, LastFor(rest, a.key))
    ensures Carries(a, c, LastFor([p] + rest, a.key))
  {
    LastOfBoth([p], rest, a.key);
  }

  // The tables after the first posting of a batch, from which the rest is saved.
  lemma FirstOfBatch(codes: Codes, db: Db, postings: seq<Posting>, target: int, j: nat) returns (first: Db)
    requires Distinguishing(codes) && Coded(codes, db) && AllBuilt(codes, postings) && j in db.jobs
    requires postings != [] && SaveAll(db, postings, target).Ok?
    ensures Coded(codes, first) && AllBuilt(codes, postings[1..])
    ensures j in first.jobs && Carries(db.jobs[j], first.jobs[j], LastFor([postings[0]], db.jobs[j].key))
    ensures var rest := SaveAll(first, postings[1..], target);
            rest.Ok? && rest.value.db == SaveAll(db, postings, target).value.db
  {
    SaveIsAccepted(codes, db, postings[0], target);
    SaveCarries(codes, db, postings[0], target, j);
    first := Save(db, postings[0], target).value.db;
  }

  lemma {:induction false} SaveAllCarries(codes: Codes, db: Db, postings: seq<Posting>, target: int, j: nat, end: Db)
    requires Distinguishing(codes) && Coded(codes, db) && AllBuilt(codes, postings) && j in db.jobs
    requires SaveAll(db, postings, target).Ok? && SaveAll(db, postings, target).value.db == end
    ensures j in end.jobs && Carries(db.jobs[j], end.jobs[j], LastFor(postings, db.jobs[j].key))
    decreases |postings|
  {
    if postings != [] {
      var first := FirstOfBatch(codes, db, postings, target, j);
      SaveAllCarries(codes, first, postings[1..], target, j, end);
      CarriesTwice(db.jobs[j], first.jobs[j], end.jobs[j], postings[0], postings[1..]);
      HeadAndTail(postings);
    }
  }

  lemma StepCarries(c: Config, codes: Codes, w: World, e: Event, j: nat)
    requires Distinguishing(codes) && Coded(codes, w.db) && BuiltMove(codes, Work(e)) && j in w.db.jobs
    ensures j in Step(c, w, e).db.jobs
    ensures Carries(w.db.jobs[j], Step(c, w, e).db.jobs[j], LastFor(Upserted(c, w, e), w.db.jobs[j].key))
  {
    if e.Ingest? {
      SaveIsAccepted(codes, w.db, e.posting, c.version);
      SaveCarries(codes, w.db, e.posting, c.version, j);
    } else if e.Telegram? && e.post.Extract? {
      SaveAllIsAccepted(codes, w.db, e.post.postings, c.version);
      SaveAllCarries(codes, w.db, e.post.postings, c.version, j, SaveAll(w.db, e.post.postings, c.version).value.db);
    } else {
      QuietStepKeepsRows(c, w, e);
    }
  }

  lemma StepKeepsCoded(c: Config, codes: Codes, w: World, e: Event)
    requires Distinguishing(codes) && Coded(codes, w.db) && BuiltMove(codes, Work(e))
    ensures Coded(codes, Step(c, w, e).db)
  {
    if e.Ingest? {
      SaveIsAccepted(codes, w.db, e.posting, c.version);
    } else if e.Telegram? && e.post.Extract? {
      SaveAllIsAccepted(codes, w.db, e.post.postings, c.version);
      var saved := SaveAll(w.db, e.post.postings, c.version).value.db;
      SameRowsSameCodes(codes, saved, MarkPostExtracted(saved, e.post.key));
    } else {
      QuietStepKeepsRows(c, w, e);
      SameRowsSameCodes(codes, w.db, Step(c, w, e).db);
    }
  }

  // ---------- What the worker knows of a row ----------

  // A row read and not yet handled: only upserts have touched it.
  predicate PendingOk(codes: Codes, db: Db, r: Reading) {
    && r.id in db.jobs
    && var job := db.jobs[r.id];
       && job.key == r.key && job.publicSlug == r.publicSlug
       && (match r.upserted
           case None =>
             && job.facts.title == r.title && job.facts.company == r.company
             && job.facts.companySlug == r.companySlug
           case Some(p) => job.facts == p.facts && p.facts.companySlug == SlugOf(p.facts.company))
  }

  // The last upsert since the row was read, if any.
  function Last(h: Handling): Option<Posting> {
    if h.upserted.Some? then h.upserted else h.reading.upserted
  }

  function CompanyOf(h: Handling): string {
    if Last(h).Some? then Last(h).value.facts.company else h.reading.company
  }

  function TitleOf(h: Handling): string {
    if Last(h).Some? then Last(h).value.facts.title else h.reading.title
  }

  // A handled row: its public slug is the one of the title and company read, and the other
  // columns are those of the last upsert, but for a company slug written over an earlier one.
  predicate HandledOk(codes: Codes, db: Db, id: nat, h: Handling) {
    && id in db.jobs && h.reading.id == id
    && var job := db.jobs[id];
       && job.key == h.reading.key && job.publicSlug == NewSlug(codes, h.reading)
       && job.facts.title == TitleOf(h) && job.facts.company == CompanyOf(h)
       && job.facts.companySlug == SlugOf(if h.wrote && h.upserted.None? then h.reading.company else CompanyOf(h))
  }

  ghost predicate Sound(codes: Codes, s: State) {
    && Coded(codes, s.world.db)
    && (forall i, k :: 0 <= i < k < |s.todo| ==> s.todo[i].id != s.todo[k].id)
    && (forall i :: 0 <= i < |s.todo| ==> PendingOk(codes, s.world.db, s.todo[i]))
    && (forall id :: id in s.handled ==> HandledOk(codes, s.world.db, id, s.handled[id]))
  }

  lemma PendingStays(codes: Codes, a: Db, b: Db, r: Reading, postings: seq<Posting>)
    requires PendingOk(codes, a, r) && r.id in b.jobs
    requires Carries(a.jobs[r.id], b.jobs[r.id], LastFor(postings, r.key))
    ensures PendingOk(codes, b, NoteReading(r, postings))
  {
  }

  lemma HandledStays(codes: Codes, a: Db, b: Db, id: nat, h: Handling, postings: seq<Posting>)
    requires HandledOk(codes, a, id, h) && id in b.jobs
    requires Carries(a.jobs[id], b.jobs[id], LastFor(postings, h.reading.key))
    ensures HandledOk(codes, b, id, NoteHandling(h, postings))
  {
  }

  lemma WorkKeepsSound(c: Config, codes: Codes, s: State, e: Event)
    requires Distinguishing(codes) && Sound(codes, s) && BuiltMove(codes, Work(e))
    ensures Sound(codes, Worked(c, s, e))
  {
    var t, postings := Worked(c, s, e), Upserted(c, s.world, e);
    StepKeepsCoded(c, codes, s.world, e);
    forall i | 0 <= i < |t.todo| ensures PendingOk(codes, t.world.db, t.todo[i]) {
      StepCarries(c, codes, s.world, e, s.todo[i].id);
      PendingStays(codes, s.world.db, t.world.db, s.todo[i], postings);
    }
    forall id | id in t.handled ensures HandledOk(codes, t.world.db, id, t.handled[id]) {
      assert HandledOk(codes, s.world.db, id, s.handled[id]);
      StepCarries(c, codes, s.world, e, id);
      HandledStays(codes, s.world.db, t.world.db, id, s.handled[id], postings);
    }
  }

  lemma ReadKeepsSound(c: Config, codes: Codes, s: State, batch: nat, page: seq<nat>)
    requires Sound(codes, s) && CanMove(c, s, ReadPage(batch, page))
    ensures Sound(codes, Moved(c, codes, s, ReadPage(batch, page)))
  {
    var t := Moved(c, codes, s, ReadPage(batch, page));
    forall i | 0 <= i < |t.todo| ensures PendingOk(codes, t.world.db, t.todo[i]) {
      assert page[i] in page;
    }
  }

  // A row that needs no write was handled by whoever wrote its slugs.
  lemma SkippingIsRight(codes: Codes, db: Db, r: Reading)
    requires PendingOk(codes, db, r) && Skips(codes, r)
    ensures HandledOk(codes, db, r.id, Handling(r, false, None))
  {
  }

  lemma WritingIsRight(codes: Codes, db: Db, r: Reading)
    requires PendingOk(codes, db, r)
    ensures HandledOk(codes, Written(codes, db, r), r.id, Handling(r, true, None))
  {
  }

  // The other rows are left alone.
  lemma WriteLeavesPending(codes: Codes, db: Db, r: Reading, other: Reading)
    requires PendingOk(codes, db, other) && other.id != r.id
    ensures PendingOk(codes, Written(codes, db, r), other)
  {
  }

  lemma WriteLeavesHandled(codes: Codes, db: Db, r: Reading, id: nat, h: Handling)
    requires HandledOk(codes, db, id, h) && id != r.id
    ensures HandledOk(codes, Written(codes, db, r), id, h)
  {
  }

  lemma SkipKeepsSound(codes: Codes, s: State)
    requires Sound(codes, s) && s.todo != [] && Skips(codes, s.todo[0])
    ensures Sound(codes, Handled(codes, s))
  {
    SkippingIsRight(codes, s.world.db, s.todo[0]);
  }

  lemma WriteKeepsSound(codes: Codes, s: State)
    requires Sound(codes, s) && s.todo != [] && !Skips(codes, s.todo[0]) && !Refused(codes, s.world.db, s.todo[0])
    ensures Sound(codes, Handled(codes, s))
  {
    var r, t := s.todo[0], Handled(codes, s);
    assert PendingOk(codes, s.world.db, r);
    WriteKeepsCoded(codes, s.world.db, r);
    WritingIsRight(codes, s.world.db, r);
    forall i | 0 <= i < |t.todo| ensures PendingOk(codes, t.world.db, t.todo[i]) {
      WriteLeavesPending(codes, s.world.db, r, s.todo[i + 1]);
    }
    forall id | id in t.handled ensures HandledOk(codes, t.world.db, id, t.handled[id]) {
      if id != r.id {
        WriteLeavesHandled(codes, s.world.db, r, id, s.handled[id]);
      }
    }
  }

  lemma HandleKeepsSound(codes: Codes, s: State)
    requires Distinguishing(codes) && Sound(codes, s) && s.todo != []
    ensures Sound(codes, Handled(codes, s)) && !Refused(codes, s.world.db, s.todo[0])
  {
    assert PendingOk(codes, s.world.db, s.todo[0]);
    WriteIsAccepted(codes, s.world.db, s.todo[0]);
    if Skips(codes, s.todo[0]) {
      SkipKeepsSound(codes, s);
    } else {
      WriteKeepsSound(codes, s);
    }
  }

  // A write of the move failed on the unique slug.
  ghost predicate Fails(c: Config, codes: Codes, s: State, m: Move) {
    match m
    case Work(Ingest(p)) => Save(s.world.db, p, c.version).Err?
    case Work(Telegram(Extract(key, postings))) => CompletePost(s.world.db, key, postings, c.version).Err?
    case HandleRow => s.todo != [] && !Skips(codes, s.todo[0]) && Refused(codes, s.world.db, s.todo[0])
    case _ => false
  }

  lemma MoveKeepsSound(c: Config, codes: Codes, s: State, m: Move)
    requires Distinguishing(codes) && Sound(codes, s) && CanMove(c, s, m) && BuiltMove(codes, m)
    ensures Sound(codes, Moved(c, codes, s, m)) && !Fails(c, codes, s, m)
  {
    match m
    case Begin =>
    case ReadPage(batch, page) => ReadKeepsSound(c, codes, s, batch, page);
    case HandleRow => HandleKeepsSound(codes, s);
    case Work(e) =>
      WorkKeepsSound(c, codes, s, e);
      if e.Ingest? {
        SaveIsAccepted(codes, s.world.db, e.posting, c.version);
      } else if e.Telegram? && e.post.Extract? {
        SaveAllIsAccepted(codes, s.world.db, e.post.postings, c.version);
      }
  }

  lemma {:induction false} RunKeepsSound(c: Config, codes: Codes, s: State, moves: seq<Move>)
    requires Distinguishing(codes) && Sound(codes, s) && Moves(c, codes, s, moves)
    ensures Sound(codes, After(c, codes, s, moves))
    decreases |moves|
  {
    if moves != [] {
      MoveKeepsSound(c, codes, s, moves[0]);
      RunKeepsSound(c, codes, Moved(c, codes, s, moves[0]), moves[1..]);
    }
  }

  // ---------- Guarantees ----------

  // A reslug worker that has not read anything yet, beside tables whose slugs end in their rows'
  // codes, however they were built.
  function Starting(w: World): State {
    State(w, 0, [], map[])
  }

  // However reslugging interleaves with the other workers, every write is accepted, and slugs
  // are unique after each of them.
  lemma EveryWriteIsAccepted(c: Config, codes: Codes, w: World, moves: seq<Move>, next: Move)
    requires Distinguishing(codes) && Coded(codes, w.db) && Moves(c, codes, Starting(w), moves)
    requires CanMove(c, After(c, codes, Starting(w), moves), next) && BuiltMove(codes, next)
    ensures var s := After(c, codes, Starting(w), moves);
            SlugsUnique(s.world.db.jobs) && !Fails(c, codes, s, next)
  {
    var s := After(c, codes, Starting(w), moves);
    RunKeepsSound(c, codes, Starting(w), moves);
    CodedIsUnique(codes, s.world.db);
    MoveKeepsSound(c, codes, s, next);
  }

  // A row's slugs are those of its present title and company.
  predicate UpToDate(codes: Codes, j: Job) {
    && j.publicSlug == JobSlugOf(j.facts.title, j.facts.company, codes.of(j.key))
    && j.facts.companySlug == SlugOf(j.facts.company)
  }

  // No upsert since the row was read, or one that gives the same public slug; and the company
  // slug is that upsert's own, because it came after the write or nothing was written, or the same.
  predicate StillRight(codes: Codes, h: Handling) {
    match Last(h)
    case None => true
    case Some(p) =>
      && JobSlugOf(p.facts.title, p.facts.company, codes.of(h.reading.key)) == NewSlug(codes, h.reading)
      && (h.upserted.Some? || !h.wrote || SlugOf(p.facts.company) == SlugOf(h.reading.company))
  }

  // Over every run: once a row has been handled, its public slug is that of the title and company
  // read, until it is handled again; and it is up to date if and only if the last upsert since it
  // was read says so.
  lemma HandledIsUpToDateExactly(c: Config, codes: Codes, w: World, moves: seq<Move>, id: nat)
    requires Distinguishing(codes) && Coded(codes, w.db) && Moves(c, codes, Starting(w), moves)
    requires id in After(c, codes, Starting(w), moves).handled
    ensures var s := After(c, codes, Starting(w), moves);
            && id in s.world.db.jobs && s.world.db.jobs[id].publicSlug == NewSlug(codes, s.handled[id].reading)
            && (UpToDate(codes, s.world.db.jobs[id]) <==> StillRight(codes, s.handled[id]))
  {
    RunKeepsSound(c, codes, Starting(w), moves);
    var s := After(c, codes, Starting(w), moves);
    assert HandledOk(codes, s.world.db, id, s.handled[id]);
  }

  // So the next page that shows a handled row leaves it alone if and only if the same holds: a
  // second run rewrites nothing exactly where it does.
  lemma NextPageSkipsExactly(c: Config, codes: Codes, w: World, moves: seq<Move>, batch: nat, page: seq<nat>, k: nat)
    requires Distinguishing(codes) && Coded(codes, w.db) && Moves(c, codes, Starting(w), moves)
    requires CanMove(c, After(c, codes, Starting(w), moves), ReadPage(batch, page))
    requires k < |page| && page[k] in After(c, codes, Starting(w), moves).handled
    ensures var s := After(c, codes, Starting(w), moves);
            var t := Moved(c, codes, s, ReadPage(batch, page));
            |t.todo| == |page| && (Skips(codes, t.todo[k]) <==> StillRight(codes, s.handled[page[k]]))
  {
    var s := After(c, codes, Starting(w), moves);
    assert page[k] in page;
    HandledIsUpToDateExactly(c, codes, w, moves, page[k]);
    assert ReadAll(s.world.db, page)[k] == Read(s.world.db, page[k]);
  }

  // ---------- At one input ----------

  lemma Then(c: Config, codes: Codes, s: State, m: Move, rest: seq<Move>)
    requires CanMove(c, s, m) && BuiltMove(codes, m) && Moves(c, codes, Moved(c, codes, s, m), rest)
    ensures Moves(c, codes, s, [m] + rest)
    ensures After(c, codes, s, [m] + rest) == After(c, codes, Moved(c, codes, s, m), rest)
  {
    assert ([m] + rest)[1..] == rest;
  }

  function Named(codes: Codes, key: Key, title: string): Posting {
    Posting(key, JobSlugOf(title, "", codes.of(key)),
            Facts("", title, "", "", "", false, "", None, [], [], "", []))
  }

  // The job is saved, renamed, read, renamed again, and then its slugs are written.
  function RenamingRun(codes: Codes, key: Key): seq<Move> {
    [Work(Ingest(Named(codes, key, "a")))] + ([Work(Ingest(Named(codes, key, "b")))] + ([ReadPage(1, [1])]
      + ([Work(Ingest(Named(codes, key, "c")))] + ([HandleRow] + []))))
  }

  lemma NamedIsBuilt(codes: Codes, key: Key, title: string)
    requires key in codes.keys
    ensures Built(codes, Named(codes, key, title))
  {
    SlugOfNothing();
  }

  lemma SlugOfNothing()
    ensures SlugOf("") == ""
  {
    FixedPointsAreTheSlugs("");
  }

  lemma LettersDiffer(x: string, y: string, code: ShortCode)
    requires |x| == 1 && |y| == 1 && SlugChar(x[0]) && SlugChar(y[0]) && x != y
    ensures JobSlugOf(x, "", code) != JobSlugOf(y, "", code)
  {
    FixedPointsAreTheSlugs(x);
    FixedPointsAreTheSlugs(y);
    SlugOfNothing();
    assert Segments(x, "", code) == [x, code] && Segments(y, "", code) == [y, code];
    assert [x, code][1..] == [code] && [y, code][1..] == [code];
    assert JobSlugOf(x, "", code)[0] == x[0] && JobSlugOf(y, "", code)[0] == y[0];
  }

  // The only job there is, as a state of the run shows it.
  ghost predicate OnlyJob(s: State, key: Key, title: string, publicSlug: string) {
    && s.world.db.jobs.Keys == {1} && s.world.db.byKey == map[key := 1]
    && s.world.db.jobs[1].key == key && s.world.db.jobs[1].publicSlug == publicSlug
    && s.world.db.jobs[1].facts.title == title && s.world.db.jobs[1].facts.company == ""
    && s.world.db.jobs[1].facts.companySlug == ""
  }

  lemma FirstIngest(c: Config, codes: Codes, now: int, key: Key)
    ensures var s := Moved(c, codes, Starting(Genesis(now)), Work(Ingest(Named(codes, key, "a"))));
            OnlyJob(s, key, "a", JobSlugOf("a", "", codes.of(key))) && s.todo == [] && s.afterId == 0
  {
  }

  lemma Renaming(c: Config, codes: Codes, s: State, key: Key, title: string, before: string, slug: string)
    requires OnlyJob(s, key, before, slug)
    ensures var t := Moved(c, codes, s, Work(Ingest(Named(codes, key, title))));
            OnlyJob(t, key, title, slug) && |t.todo| == |s.todo| && t.afterId == s.afterId
    ensures var t := Moved(c, codes, s, Work(Ingest(Named(codes, key, title))));
            forall i :: 0 <= i < |s.todo| ==> t.todo[i] == s.todo[i].(upserted := t.todo[i].upserted)
  {
  }

  lemma ReadingIt(c: Config, codes: Codes, s: State, key: Key, title: string, slug: string)
    requires OnlyJob(s, key, title, slug) && s.todo == [] && s.afterId == 0
    ensures CanMove(c, s, ReadPage(1, [1]))
    ensures var t := Moved(c, codes, s, ReadPage(1, [1]));
            OnlyJob(t, key, title, slug) && t.todo == [Reading(1, key, title, "", slug, "", None)]
  {
  }

  lemma WritingIt(c: Config, codes: Codes, s: State, key: Key, now: string, read: string, slug: string)
    requires OnlyJob(s, key, now, slug) && |s.todo| == 1
    requires s.todo[0] == Reading(1, key, read, "", slug, "", s.todo[0].upserted)
    requires JobSlugOf(read, "", codes.of(key)) != slug
    ensures var t := Moved(c, codes, s, HandleRow);
            && OnlyJob(t, key, now, JobSlugOf(read, "", codes.of(key)))
            && 1 in t.handled && t.handled[1].wrote
  {
    SlugOfNothing();
  }

  // From a row that shows "b" under the slug of "a": it is read, renamed to "c" and written.
  lemma WrittenTooLate(c: Config, codes: Codes, s: State, key: Key)
    requires key in codes.keys && OnlyJob(s, key, "b", JobSlugOf("a", "", codes.of(key)))
    requires s.todo == [] && s.afterId == 0
    ensures var rest := [ReadPage(1, [1])] + ([Work(Ingest(Named(codes, key, "c")))] + ([HandleRow] + []));
            && Moves(c, codes, s, rest)
            && OnlyJob(After(c, codes, s, rest), key, "c", JobSlugOf("b", "", codes.of(key)))
            && 1 in After(c, codes, s, rest).handled && After(c, codes, s, rest).handled[1].wrote
  {
    var slug, d := JobSlugOf("a", "", codes.of(key)), Named(codes, key, "c");
    NamedIsBuilt(codes, key, "c");
    LettersDiffer("b", "a", codes.of(key));
    ReadingIt(c, codes, s, key, "b", slug);
    var s1 := Moved(c, codes, s, ReadPage(1, [1]));
    Renaming(c, codes, s1, key, "c", "b", slug);
    var s2 := Moved(c, codes, s1, Work(Ingest(d)));
    WritingIt(c, codes, s2, key, "c", "b", slug);
    Then(c, codes, s2, HandleRow, []);
    Then(c, codes, s1, Work(Ingest(d)), [HandleRow] + []);
    Then(c, codes, s, ReadPage(1, [1]), [Work(Ingest(d))] + ([HandleRow] + []));
  }

  // A job saved as "a" and renamed to "b" is read, renamed to "c" and then written: it ends with
  // the slug of "b", and a second run would write it again.
  lemma RenamedMeanwhile(c: Config, codes: Codes, now: int, key: Key)
    requires key in codes.keys
    ensures Coded(codes, Genesis(now).db) && Moves(c, codes, Starting(Genesis(now)), RenamingRun(codes, key))
    ensures var s := After(c, codes, Starting(Genesis(now)), RenamingRun(codes, key));
            && OnlyJob(s, key, "c", JobSlugOf("b", "", codes.of(key))) && !UpToDate(codes, s.world.db.jobs[1])
            && 1 in s.handled && s.handled[1].wrote
  {
    var a, b := Named(codes, key, "a"), Named(codes, key, "b");
    NamedIsBuilt(codes, key, "a");
    NamedIsBuilt(codes, key, "b");
    LettersDiffer("b", "c", codes.of(key));
    var s0 := Starting(Genesis(now));
    var s1 := Moved(c, codes, s0, Work(Ingest(a)));
    FirstIngest(c, codes, now, key);
    Renaming(c, codes, s1, key, "b", "a", a.publicSlug);
    var rest := [ReadPage(1, [1])] + ([Work(Ingest(Named(codes, key, "c")))] + ([HandleRow] + []));
    WrittenTooLate(c, codes, Moved(c, codes, s1, Work(Ingest(b))), key);
    Then(c, codes, s1, Work(Ingest(b)), rest);
    Then(c, codes, s0, Work(Ingest(a)), [Work(Ingest(b))] + rest);
  }

  lemma SkippingIt(c: Config, codes: Codes, s: State, key: Key, title: string)
    requires OnlyJob(s, key, title, JobSlugOf(title, "", codes.of(key)))
    requires s.todo == [Reading(1, key, title, "", JobSlugOf(title, "", codes.of(key)), "", None)]
    ensures var t := Moved(c, codes, s, HandleRow);
            && OnlyJob(t, key, title, JobSlugOf(title, "", codes.of(key)))
            && 1 in t.handled && !t.handled[1].wrote
  {
    SlugOfNothing();
  }

  // A job saved as "a" is read, found up to date and skipped, and then renamed to "b".
  function SkippingRun(codes: Codes, key: Key): seq<Move> {
    [Work(Ingest(Named(codes, key, "a")))] + ([ReadPage(1, [1])] + ([HandleRow]
      + ([Work(Ingest(Named(codes, key, "b")))] + [])))
  }

  lemma RenamedAfterwards(c: Config, codes: Codes, now: int, key: Key)
    requires key in codes.keys
    ensures Moves(c, codes, Starting(Genesis(now)), SkippingRun(codes, key))
    ensures var s := After(c, codes, Starting(Genesis(now)), SkippingRun(codes, key));
            && 1 in s.world.db.jobs && 1 in s.handled && !s.handled[1].wrote
            && !UpToDate(codes, s.world.db.jobs[1])
  {
    var a, b := Named(codes, key, "a"), Named(codes, key, "b");
    NamedIsBuilt(codes, key, "a");
    NamedIsBuilt(codes, key, "b");
    LettersDiffer("a", "b", codes.of(key));
    var s0 := Starting(Genesis(now));
    var s1 := Moved(c, codes, s0, Work(Ingest(a)));
    FirstIngest(c, codes, now, key);
    ReadingIt(c, codes, s1, key, "a", a.publicSlug);
    var s2 := Moved(c, codes, s1, ReadPage(1, [1]));
    SkippingIt(c, codes, s2, key, "a");
    var s3 := Moved(c, codes, s2, HandleRow);
    Renaming(c, codes, s3, key, "b", "a", a.publicSlug);
    RenamingKeepsHandled(c, codes, s3, b);
    Then(c, codes, s3, Work(Ingest(b)), []);
    Then(c, codes, s2, HandleRow, [Work(Ingest(b))] + []);
    Then(c, codes, s1, ReadPage(1, [1]), [HandleRow] + ([Work(Ingest(b))] + []));
    Then(c, codes, s0, Work(Ingest(a)), [ReadPage(1, [1])] + ([HandleRow] + ([Work(Ingest(b))] + [])));
  }

  lemma RenamingKeepsHandled(c: Config, codes: Codes, s: State, p: Posting)
    ensures var t := Moved(c, codes, s, Work(Ingest(p)));
            && t.handled.Keys == s.handled.Keys
            && forall id :: id in s.handled ==> t.handled[id].wrote == s.handled[id].wrote
  {
  }
}
