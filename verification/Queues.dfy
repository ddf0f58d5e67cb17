// Lease, retry and dead-letter guarantees of both work queues, over every run of any
// number of workers, including workers that report after their lease expired.
module Queues {
  import opened Lease
  import opened Catalogue
  import opened Workers
  import opened Outbox

  ghost predicate EntryOk(c: Config, w: World, o: nat)
    requires o in w.db.outbox
  {
    var row := w.db.outbox[o];
    Consistent(row.stamp, Times(w.log.claims, o), w.held[Claimed(o, row.jobId, row.target)], w.db.now,
        c.leaseSeconds, c.maxAttempts)
  }

  ghost predicate PostOk(c: Config, w: World, k: PostKey)
    requires k in w.db.posts
  {
    Consistent(w.db.posts[k].stamp, Times(w.log.postClaims, k), w.heldPosts[k], w.db.now, c.postLeaseSeconds,
        c.postMaxAttempts)
  }

  ghost predicate LogOk(times: seq<Time>, now: Time, leaseSeconds: nat) {
    && Spaced(times, leaseSeconds)
    && forall i :: 0 <= i < |times| ==> times[i] <= now
  }

  ghost predicate EntriesOk(c: Config, w: World) {
    && (forall o :: o in w.db.outbox ==> EntryOk(c, w, o))
    && (forall o :: o in w.log.claims ==> o < w.db.nextEntry && LogOk(w.log.claims[o], w.db.now, c.leaseSeconds))
  }

  ghost predicate PostsOk(c: Config, w: World) {
    && (forall k :: k in w.db.posts ==> PostOk(c, w, k))
    && (forall k :: k in w.log.postClaims ==> k in w.db.posts)
    && (forall k :: k in w.heldPosts ==> k in w.db.posts)
  }

  // ---------- New rows are fresh ----------

  ghost predicate OnlyAddsFresh(a: Db, b: Db) {
    && a.now == b.now
    && a.nextEntry <= b.nextEntry
    && (forall o :: o in b.outbox && o < a.nextEntry ==> o in a.outbox && b.outbox[o] == a.outbox[o])
    && (forall o :: o in b.outbox && o >= a.nextEntry ==> b.outbox[o].stamp == FRESH)
  }

  lemma {:induction false} EnqueuePendingAddsFresh(db: Db, from: nat, target: int)
    requires forall o :: o in db.outbox ==> o < db.nextEntry
    ensures OnlyAddsFresh(db, EnqueuePending(db, from, target))
    decreases db.nextJob - from
  {
    if from < db.nextJob {
      EnqueuePendingAddsFresh(EnqueueJob(db, from, target), from + 1, target);
    }
  }

  lemma {:induction false} SaveAllAddsFresh(db: Db, postings: seq<Posting>, target: int)
    requires forall o :: o in db.outbox ==> o < db.nextEntry
    ensures SaveAll(db, postings, target).Ok? ==>
              var b := SaveAll(db, postings, target).value.db;
              OnlyAddsFresh(db, b)
    decreases |postings|
  {
    if postings != [] && Save(db, postings[0], target).Ok? {
      SaveAddsFresh(db, postings[0], target);
      SaveAllAddsFresh(Save(db, postings[0], target).value.db, postings[1..], target);
    }
  }

  lemma SaveAddsFresh(db: Db, p: Posting, target: int)
    requires forall o :: o in db.outbox ==> o < db.nextEntry
    ensures Save(db, p, target).Ok? ==>
              var b := Save(db, p, target).value.db;
              OnlyAddsFresh(db, b) && (forall o :: o in b.outbox ==> o < b.nextEntry)
  {
  }

  // ---------- The enrichment queue ----------

  lemma LaterIsConsistent(s: Stamp, claims: seq<Time>, open: nat, fewer: nat, now: Time, later: Time,
                          leaseSeconds: nat, maxAttempts: int)
    requires Consistent(s, claims, open, now, leaseSeconds, maxAttempts)
    requires now <= later && fewer <= open
    ensures Consistent(s, claims, fewer, later, leaseSeconds, maxAttempts)
  {
  }

  lemma FreshIsConsistent(now: Time, leaseSeconds: nat, maxAttempts: int)
    requires maxAttempts >= 1
    ensures Consistent(FRESH, [], 0, now, leaseSeconds, maxAttempts)
  {
  }

  lemma ClaimKeepsEntry(c: Config, w: World, batch: nat, locked: set<nat>, picked: set<nat>, o: nat)
    requires o in w.db.outbox && EntryOk(c, w, o)
    requires o in picked ==> Claimable(w.db.outbox[o].stamp, w.db.now, c.leaseSeconds)
    ensures EntryOk(c, EnrichStep(c, w, ClaimBatch(batch, locked, picked)), o)
  {
    var after := EnrichStep(c, w, ClaimBatch(batch, locked, picked));
    var row := w.db.outbox[o];
    var token := Claimed(o, row.jobId, row.target);
    var more := multiset(Tokens(w.db, picked));
    if o in picked {
      assert token in Tokens(w.db, picked);
      assert more[token] == 1;
      ClaimKeepsConsistent(row.stamp, Times(w.log.claims, o), w.held[token], w.db.now, c.leaseSeconds, c.maxAttempts);
      assert Times(after.log.claims, o) == Times(w.log.claims, o) + [w.db.now];
    } else {
      assert more[token] == 0;
      assert Times(after.log.claims, o) == Times(w.log.claims, o);
    }
  }

  lemma FailKeepsEntry(c: Config, w: World, claim: Claimed, error: string, o: nat)
    requires claim in w.held && o in w.db.outbox && EntryOk(c, w, o)
    requires ClaimSound(w.db, c.version, claim) && w.db.outbox[o].target == c.version
    ensures var after := EnrichStep(c, w, FailClaim(claim, error));
            o in after.db.outbox && EntryOk(c, after, o)
  {
    var row := w.db.outbox[o];
    var token := Claimed(o, row.jobId, row.target);
    if o == claim.outboxId {
      assert token == claim;
      FailKeepsConsistent(row.stamp, Times(w.log.claims, o), w.held[token], w.db.now, c.leaseSeconds, c.maxAttempts,
                error);
    }
  }

  lemma InsertsKeepEntry(c: Config, w: World, after: World, o: nat)
    requires SoundWorld(c, w) && EntriesOk(c, w) && c.maxAttempts >= 1
    requires OnlyAddsFresh(w.db, after.db)
    requires after.log.claims == w.log.claims && after.held == w.held
    requires o in after.db.outbox
    ensures EntryOk(c, after, o)
  {
    if o < w.db.nextEntry {
      assert EntryOk(c, w, o);
    } else {
      var token := Claimed(o, after.db.outbox[o].jobId, after.db.outbox[o].target);
      assert token !in w.held by {
        assert forall claim :: claim in w.held ==> claim.outboxId < w.db.nextEntry;
      }
      FreshIsConsistent(after.db.now, c.leaseSeconds, c.maxAttempts);
    }
  }

  // Rows the step does not stamp: the clock may move and claims may be reported.
  lemma UntouchedKeepsEntry(c: Config, w: World, after: World, o: nat)
    requires EntriesOk(c, w) && o in w.db.outbox && o in after.db.outbox
    requires after.db.outbox[o] == w.db.outbox[o] && after.log.claims == w.log.claims
    requires after.held[Claimed(o, w.db.outbox[o].jobId, w.db.outbox[o].target)] <= w.held[Claimed(o,
             w.db.outbox[o].jobId, w.db.outbox[o].target)]
    requires w.db.now <= after.db.now
    ensures EntryOk(c, after, o)
  {
    var row := w.db.outbox[o];
    var token := Claimed(o, row.jobId, row.target);
    assert EntryOk(c, w, o);
    LaterIsConsistent(row.stamp, Times(w.log.claims, o), w.held[token], after.held[token], w.db.now, after.db.now,
        c.leaseSeconds, c.maxAttempts);
  }

  lemma EnrichStepKeepsEntry(c: Config, w: World, e: EnrichEvent, o: nat)
    requires SoundWorld(c, w) && EntriesOk(c, w) && EnrichEnabled(c, w, e)
    requires o in EnrichStep(c, w, e).db.outbox
    ensures EntryOk(c, EnrichStep(c, w, e), o)
  {
    assert o in w.db.outbox && EntryOk(c, w, o);
    match e
    case ClaimBatch(batch, locked, picked) => ClaimKeepsEntry(c, w, batch, locked, picked, o);
    case FailClaim(claim, error) => FailKeepsEntry(c, w, claim, error, o);
    case Complete(_, _, _) => UntouchedKeepsEntry(c, w, EnrichStep(c, w, e), o);
    case Abandon(_) => UntouchedKeepsEntry(c, w, EnrichStep(c, w, e), o);
  }

  // Steps that may add outbox rows but stamp none.
  predicate MayInsert(e: Event) {
    e.Ingest? || e.EnqueueAll? || e.Telegram?
  }

  lemma InsertingSteps(c: Config, w: World, e: Event)
    requires SoundWorld(c, w) && MayInsert(e)
    ensures OnlyAddsFresh(w.db, Step(c, w, e).db)
    ensures Step(c, w, e).log.claims == w.log.claims && Step(c, w, e).held == w.held
  {
    match e
    case EnqueueAll => EnqueuePendingAddsFresh(w.db, 0, c.version);
    case Telegram(post) => if post.Extract? { SaveAllAddsFresh(w.db, post.postings, c.version); }
    case Ingest(p) => SaveAddsFresh(w.db, p, c.version);
  }

  lemma StepKeepsEntry(c: Config, w: World, e: Event, o: nat)
    requires SoundWorld(c, w) && EntriesOk(c, w) && Enabled(c, w, e) && c.maxAttempts >= 1
    requires o in Step(c, w, e).db.outbox
    ensures EntryOk(c, Step(c, w, e), o)
  {
    if MayInsert(e) {
      InsertingSteps(c, w, e);
      InsertsKeepEntry(c, w, Step(c, w, e), o);
    } else {
      match e
      case Enrich(work) => EnrichStepKeepsEntry(c, w, work, o);
      case _ => UntouchedKeepsEntry(c, w, Step(c, w, e), o);
    }
  }

  // ---------- The Telegram queue ----------

  lemma ClaimKeepsPost(c: Config, w: World, batch: nat, locked: set<PostKey>, picked: set<PostKey>, k: PostKey)
    requires k in w.db.posts && PostOk(c, w, k)
    requires k in picked ==> Claimable(w.db.posts[k].stamp, w.db.now, c.postLeaseSeconds)
    ensures PostOk(c, PostStep(c, w, PostEvent.ClaimPosts(batch, locked, picked)), k)
  {
    var after := PostStep(c, w, PostEvent.ClaimPosts(batch, locked, picked));
    if k in picked {
      ClaimKeepsConsistent(w.db.posts[k].stamp, Times(w.log.postClaims, k), w.heldPosts[k], w.db.now,
          c.postLeaseSeconds, c.postMaxAttempts);
      assert Times(after.log.postClaims, k) == Times(w.log.postClaims, k) + [w.db.now];
    } else {
      assert Times(after.log.postClaims, k) == Times(w.log.postClaims, k);
    }
  }

  lemma FailKeepsPost(c: Config, w: World, key: PostKey, error: string, k: PostKey)
    requires key in w.heldPosts && k in w.db.posts && PostOk(c, w, k)
    ensures PostOk(c, PostStep(c, w, FailPost(key, error)), k)
  {
    if k == key {
      FailKeepsConsistent(w.db.posts[k].stamp, Times(w.log.postClaims, k), w.heldPosts[k], w.db.now,
          c.postLeaseSeconds, c.postMaxAttempts, error);
    }
  }

  lemma UntouchedKeepsPost(c: Config, w: World, after: World, k: PostKey)
    requires PostsOk(c, w) && k in w.db.posts && k in after.db.posts
    requires after.db.posts[k].stamp == w.db.posts[k].stamp && after.log.postClaims == w.log.postClaims
    requires after.heldPosts[k] <= w.heldPosts[k] && w.db.now <= after.db.now
    ensures PostOk(c, after, k)
  {
    assert PostOk(c, w, k);
    LaterIsConsistent(w.db.posts[k].stamp, Times(w.log.postClaims, k), w.heldPosts[k], after.heldPosts[k],
        w.db.now, after.db.now, c.postLeaseSeconds, c.postMaxAttempts);
  }

  // Stored posts stay stored and stay extracted.
  lemma PostStepKeepsRows(c: Config, w: World, e: PostEvent)
    ensures var after := PostStep(c, w, e);
            && after.db.now == w.db.now
            && (forall k :: k in w.db.posts ==> k in after.db.posts)
            && (forall k :: k in w.db.posts && w.db.posts[k].extractedAt.Some? ==> after.db.posts[k].extractedAt.Some?)
            && (!e.ClaimPosts? && !e.FailPost? ==> forall k :: k in w.db.posts ==>
                      after.db.posts[k].stamp == w.db.posts[k].stamp)
            && (forall k :: k in after.db.posts && k !in w.db.posts ==> e.Crawl? && after.db.posts[k].stamp == FRESH)
  {
    match e
    case Crawl(_, _, _, _) =>
    case ClaimPosts(_, _, _) =>
    case Extract(_, _) =>
    case FailPost(_, _) =>
    case AbandonPost(_) =>
  }

  lemma NewPostIsOk(c: Config, w: World, e: PostEvent, k: PostKey)
    requires PostsOk(c, w) && c.postMaxAttempts >= 1
    requires k in PostStep(c, w, e).db.posts && k !in w.db.posts
    ensures PostOk(c, PostStep(c, w, e), k)
  {
    PostStepKeepsRows(c, w, e);
    FreshIsConsistent(PostStep(c, w, e).db.now, c.postLeaseSeconds, c.postMaxAttempts);
  }

  lemma PostStepKeepsPost(c: Config, w: World, e: PostEvent, k: PostKey)
    requires PostsOk(c, w) && PostEnabled(c, w, e) && c.postMaxAttempts >= 1
    requires k in PostStep(c, w, e).db.posts
    ensures PostOk(c, PostStep(c, w, e), k)
  {
    var after := PostStep(c, w, e);
    if k !in w.db.posts {
      NewPostIsOk(c, w, e, k);
    } else {
      PostStepKeepsRows(c, w, e);
      assert PostOk(c, w, k);
      match e
      case ClaimPosts(batch, locked, picked) => ClaimKeepsPost(c, w, batch, locked, picked, k);
      case FailPost(key, error) => FailKeepsPost(c, w, key, error, k);
      case Crawl(_, _, _, _) => UntouchedKeepsPost(c, w, after, k);
      case Extract(_, _) => UntouchedKeepsPost(c, w, after, k);
      case AbandonPost(_) => UntouchedKeepsPost(c, w, after, k);
    }
  }

  lemma OtherStepsLeavePosts(c: Config, w: World, e: Event)
    requires !e.Telegram?
    ensures var after := Step(c, w, e);
            && after.db.posts == w.db.posts && after.heldPosts == w.heldPosts
            && after.log.postClaims == w.log.postClaims && w.db.now <= after.db.now
  {
    match e
    case Tick(_) =>
    case Ingest(_) =>
    case EnqueueAll =>
    case Enrich(_) =>
    case Lifecycle(_) =>
  }

  lemma StepKeepsPost(c: Config, w: World, e: Event, k: PostKey)
    requires PostsOk(c, w) && Enabled(c, w, e) && c.postMaxAttempts >= 1
    requires k in Step(c, w, e).db.posts
    ensures PostOk(c, Step(c, w, e), k)
  {
    if e.Telegram? {
      PostStepKeepsPost(c, w, e.post, k);
    } else {
      OtherStepsLeavePosts(c, w, e);
      UntouchedKeepsPost(c, w, Step(c, w, e), k);
    }
  }

  lemma StepKeepsPostKeys(c: Config, w: World, e: Event, k: PostKey)
    requires PostsOk(c, w) && Enabled(c, w, e)
    requires k in Step(c, w, e).log.postClaims || k in Step(c, w, e).heldPosts
    ensures k in Step(c, w, e).db.posts
  {
    if e.Telegram? {
      PostStepKeepsRows(c, w, e.post);
      PostKeysAreStored(c, w, e.post, k);
    } else {
      OtherStepsLeavePosts(c, w, e);
    }
  }

  lemma PostKeysAreStored(c: Config, w: World, e: PostEvent, k: PostKey)
    requires PostsOk(c, w) && PostEnabled(c, w, e)
    requires k in PostStep(c, w, e).log.postClaims || k in PostStep(c, w, e).heldPosts
    ensures k in w.db.posts
  {
    match e
    case Crawl(_, _, _, _) =>
    case ClaimPosts(_, _, _) =>
    case Extract(_, _) =>
    case FailPost(_, _) =>
    case AbandonPost(_) =>
  }

  // ---------- Runs ----------

  ghost predicate Healthy(c: Config, w: World) {
    SoundWorld(c, w) && EntriesOk(c, w) && PostsOk(c, w)
  }

  lemma StepKeepsLog(c: Config, w: World, e: Event, o: nat)
    requires SoundWorld(c, w) && EntriesOk(c, w) && Enabled(c, w, e) && c.maxAttempts >= 1
    requires o in Step(c, w, e).log.claims
    ensures var after := Step(c, w, e);
            o < after.db.nextEntry && LogOk(after.log.claims[o], after.db.now, c.leaseSeconds)
  {
    var after := Step(c, w, e);
    StepKeepsDb(c, w, e);
    if o in after.db.outbox {
      StepKeepsEntry(c, w, e, o);
      assert Times(after.log.claims, o) == after.log.claims[o];
    } else if e.Enrich? {
      GoneRowsAreNotClaimed(c, w, e.work, o);
    } else {
      OnlyEnrichersClaim(c, w, e);
    }
  }

  lemma OnlyEnrichersClaim(c: Config, w: World, e: Event)
    requires SoundWorld(c, w) && !e.Enrich?
    ensures Step(c, w, e).log.claims == w.log.claims && w.db.now <= Step(c, w, e).db.now
  {
    if MayInsert(e) {
      InsertingSteps(c, w, e);
    }
  }

  lemma GoneRowsAreNotClaimed(c: Config, w: World, e: EnrichEvent, o: nat)
    requires EnrichEnabled(c, w, e)
    requires o !in EnrichStep(c, w, e).db.outbox
    ensures Times(EnrichStep(c, w, e).log.claims, o) == Times(w.log.claims, o)
    ensures o in EnrichStep(c, w, e).log.claims ==> o in w.log.claims
  {
  }

  lemma StepKeepsHealthy(c: Config, w: World, e: Event)
    requires Healthy(c, w) && Enabled(c, w, e) && c.maxAttempts >= 1 && c.postMaxAttempts >= 1
    ensures Healthy(c, Step(c, w, e))
  {
    var after := Step(c, w, e);
    StepKeepsSound(c, w, e);
    forall o | o in after.db.outbox ensures EntryOk(c, after, o) { StepKeepsEntry(c, w, e, o); }
    forall o | o in after.log.claims
      ensures o < after.db.nextEntry && LogOk(after.log.claims[o], after.db.now, c.leaseSeconds)
    {
      StepKeepsLog(c, w, e, o);
    }
    forall k | k in after.db.posts ensures PostOk(c, after, k) { StepKeepsPost(c, w, e, k); }
    forall k | k in after.log.postClaims || k in after.heldPosts ensures k in after.db.posts { StepKeepsPostKeys(c,
        w, e, k); }
  }

  lemma {:induction false} RunKeepsHealthy(c: Config, w: World, events: seq<Event>)
    requires Healthy(c, w) && Runs(c, w, events) && c.maxAttempts >= 1 && c.postMaxAttempts >= 1
    ensures Healthy(c, After(c, w, events))
    decreases |events|
  {
    if events != [] {
      StepKeepsHealthy(c, w, events[0]);
      RunKeepsHealthy(c, Step(c, w, events[0]), events[1..]);
    }
  }

  // Any two claims of one outbox row are more than one lease apart.
  lemma ClaimsAreALeaseApart(c: Config, now: Time, events: seq<Event>, o: nat, i: nat, j: nat)
    requires Runs(c, Genesis(now), events) && c.maxAttempts >= 1 && c.postMaxAttempts >= 1
    requires i < j < |Times(After(c, Genesis(now), events).log.claims, o)|
    ensures var claims := Times(After(c, Genesis(now), events).log.claims, o);
            claims[j] > claims[i] + c.leaseSeconds * 1_000_000
  {
    RunKeepsHealthy(c, Genesis(now), events);
  }

  // A row is dead-lettered exactly when its attempts reached the cap, and it never has
  // more attempts than claims.
  lemma DeadLetteredExactlyAtTheCap(c: Config, now: Time, events: seq<Event>, o: nat)
    requires Runs(c, Genesis(now), events) && c.maxAttempts >= 1 && c.postMaxAttempts >= 1
    requires o in After(c, Genesis(now), events).db.outbox
    ensures var w := After(c, Genesis(now), events);
            var stamp := w.db.outbox[o].stamp;
            && (stamp.failedAt.Some? <==> stamp.attempts >= c.maxAttempts)
            && stamp.attempts <= |Times(w.log.claims, o)|
  {
    RunKeepsHealthy(c, Genesis(now), events);
    assert EntryOk(c, After(c, Genesis(now), events), o);
  }

  // The same guarantees for a Telegram post.
  lemma PostsFollowTheSameProtocol(c: Config, now: Time, events: seq<Event>, k: PostKey)
    requires Runs(c, Genesis(now), events) && c.maxAttempts >= 1 && c.postMaxAttempts >= 1
    requires k in After(c, Genesis(now), events).db.posts
    ensures var w := After(c, Genesis(now), events);
            var stamp := w.db.posts[k].stamp;
            var claims := Times(w.log.postClaims, k);
            && (forall i, j :: 0 <= i < j < |claims| ==> claims[j] > claims[i] + c.postLeaseSeconds * 1_000_000)
            && (stamp.failedAt.Some? <==> stamp.attempts >= c.postMaxAttempts)
            && stamp.attempts <= |claims|
  {
    RunKeepsHealthy(c, Genesis(now), events);
    assert PostOk(c, After(c, Genesis(now), events), k);
  }

  // ---------- Exactly what may be claimed ----------

  lemma ClaimableByHistory(s: Stamp, claims: seq<Time>, open: nat, now: Time, leaseSeconds: nat, maxAttempts: int)
    requires Consistent(s, claims, open, now, leaseSeconds, maxAttempts)
    ensures Claimable(s, now, leaseSeconds) <==>
              s.attempts < maxAttempts && forall i :: 0 <= i < |claims| ==> claims[i] + leaseSeconds * 1_000_000 < now
  {
    if claims != [] {
      var last := |claims| - 1;
      assert forall i :: 0 <= i < last ==> claims[last] > claims[i] + leaseSeconds * SECOND;
    }
  }

  // Over every run: an outbox row may be claimed if and only if it has attempts left and every
  // claim it ever had is older than the lease. So the work of a dead worker comes back.
  lemma ClaimableExactly(c: Config, now: Time, events: seq<Event>, o: nat)
    requires Runs(c, Genesis(now), events) && c.maxAttempts >= 1 && c.postMaxAttempts >= 1
    requires o in After(c, Genesis(now), events).db.outbox
    ensures var w := After(c, Genesis(now), events);
            var claims := Times(w.log.claims, o);
            o in ClaimableEntries(w.db, c.leaseSeconds) <==>
              && w.db.outbox[o].stamp.attempts < c.maxAttempts
              && forall i :: 0 <= i < |claims| ==> claims[i] + c.leaseSeconds * 1_000_000 < w.db.now
  {
    var w := After(c, Genesis(now), events);
    RunKeepsHealthy(c, Genesis(now), events);
    assert EntryOk(c, w, o);
    var row := w.db.outbox[o];
    ClaimableByHistory(row.stamp, Times(w.log.claims, o), w.held[Claimed(o, row.jobId, row.target)], w.db.now,
        c.leaseSeconds, c.maxAttempts);
  }

  // The same for a post, which must not be extracted either.
  lemma ClaimablePostExactly(c: Config, now: Time, events: seq<Event>, k: PostKey)
    requires Runs(c, Genesis(now), events) && c.maxAttempts >= 1 && c.postMaxAttempts >= 1
    requires k in After(c, Genesis(now), events).db.posts
    ensures var w := After(c, Genesis(now), events);
            var claims := Times(w.log.postClaims, k);
            k in ClaimablePosts(w.db, c.postLeaseSeconds) <==>
              && w.db.posts[k].extractedAt.None? && w.db.posts[k].stamp.attempts < c.postMaxAttempts
              && forall i :: 0 <= i < |claims| ==> claims[i] + c.postLeaseSeconds * 1_000_000 < w.db.now
  {
    var w := After(c, Genesis(now), events);
    RunKeepsHealthy(c, Genesis(now), events);
    assert PostOk(c, w, k);
    ClaimableByHistory(w.db.posts[k].stamp, Times(w.log.postClaims, k), w.heldPosts[k], w.db.now, c.postLeaseSeconds,
        c.postMaxAttempts);
  }

  // ---------- Once out, never claimed again ----------

  // Dead-lettered, or completed and deleted.
  ghost predicate Retired(c: Config, w: World, o: nat) {
    && o < w.db.nextEntry
    && (o in w.db.outbox ==> w.db.outbox[o].stamp.failedAt.Some? && w.db.outbox[o].stamp.attempts >= c.maxAttempts)
  }

  lemma RetiredStays(c: Config, w: World, e: Event, o: nat)
    requires SoundWorld(c, w) && Enabled(c, w, e) && Retired(c, w, o)
    ensures Retired(c, Step(c, w, e), o)
    ensures Times(Step(c, w, e).log.claims, o) == Times(w.log.claims, o)
  {
    StepKeepsDb(c, w, e);
    match e
    case Enrich(work) => RetiredStaysForEnrichers(c, w, work, o);
    case _ =>
      OnlyEnrichersClaim(c, w, e);
      if MayInsert(e) { InsertingSteps(c, w, e); }
  }

  lemma RetiredStaysForEnrichers(c: Config, w: World, e: EnrichEvent, o: nat)
    requires EnrichEnabled(c, w, e) && Retired(c, w, o)
    ensures Retired(c, EnrichStep(c, w, e), o)
    ensures Times(EnrichStep(c, w, e).log.claims, o) == Times(w.log.claims, o)
  {
    match e
    case ClaimBatch(_, _, picked) => assert o !in picked;
    case Complete(_, _, _) =>
    case FailClaim(_, _) =>
    case Abandon(_) =>
  }

  lemma {:induction false} RetiredIsNeverClaimedAgain(c: Config, w: World, events: seq<Event>, o: nat)
    requires SoundWorld(c, w) && Runs(c, w, events) && Retired(c, w, o)
    ensures Times(After(c, w, events).log.claims, o) == Times(w.log.claims, o)
    ensures Retired(c, After(c, w, events), o)
    decreases |events|
  {
    if events != [] {
      StepKeepsSound(c, w, events[0]);
      RetiredStays(c, w, events[0], o);
      RetiredIsNeverClaimedAgain(c, Step(c, w, events[0]), events[1..], o);
    }
  }

  // A post is out of the queue once it is extracted or dead-lettered.
  ghost predicate RetiredPost(c: Config, w: World, k: PostKey) {
    && k in w.db.posts
    && (w.db.posts[k].extractedAt.Some?
        || (w.db.posts[k].stamp.failedAt.Some? && w.db.posts[k].stamp.attempts >= c.postMaxAttempts))
  }

  lemma RetiredPostStays(c: Config, w: World, e: Event, k: PostKey)
    requires Enabled(c, w, e) && RetiredPost(c, w, k)
    ensures RetiredPost(c, Step(c, w, e), k)
    ensures Times(Step(c, w, e).log.postClaims, k) == Times(w.log.postClaims, k)
  {
    if e.Telegram? {
      PostStepKeepsRows(c, w, e.post);
      RetiredPostStaysForExtractors(c, w, e.post, k);
    } else {
      OtherStepsLeavePosts(c, w, e);
    }
  }

  lemma RetiredPostStaysForExtractors(c: Config, w: World, e: PostEvent, k: PostKey)
    requires PostEnabled(c, w, e) && RetiredPost(c, w, k)
    ensures RetiredPost(c, PostStep(c, w, e), k)
    ensures Times(PostStep(c, w, e).log.postClaims, k) == Times(w.log.postClaims, k)
  {
    match e
    case ClaimPosts(_, _, picked) => assert k !in picked;
    case Crawl(_, _, _, _) =>
    case Extract(_, _) =>
    case FailPost(_, _) =>
    case AbandonPost(_) =>
  }

  lemma {:induction false} RetiredPostIsNeverClaimedAgain(c: Config, w: World, events: seq<Event>, k: PostKey)
    requires Runs(c, w, events) && RetiredPost(c, w, k)
    ensures Times(After(c, w, events).log.postClaims, k) == Times(w.log.postClaims, k)
    ensures RetiredPost(c, After(c, w, events), k)
    decreases |events|
  {
    if events != [] {
      RetiredPostStays(c, w, events[0], k);
      RetiredPostIsNeverClaimedAgain(c, Step(c, w, events[0]), events[1..], k);
    }
  }
}
