// The database as the workers see it: tables updated in place by one method per statement
// or transaction. Each method is the statement function of module Catalogue, applied to
// the live tables.
module DatabaseServer {
  import opened Wrappers
  import opened Lease
  import opened Catalogue
  import opened Ordering
  import opened Workers

  class Database {
    var now: Time
    var jobs: map<nat, Job>
    var byKey: map<Key, nat>
    var companies: map<string, string>
    var outbox: map<nat, Entry>
    var posts: map<PostKey, Post>
    var nextJob: nat
    var nextEntry: nat

    constructor (tables: Db)
      ensures Tables() == tables
    {
      now, jobs, byKey, companies := tables.now, tables.jobs, tables.byKey, tables.companies;
      outbox, posts, nextJob, nextEntry := tables.outbox, tables.posts, tables.nextJob, tables.nextEntry;
    }

    function Tables(): Db
      reads this
    {
      Db(now, jobs, byKey, companies, outbox, posts, nextJob, nextEntry)
    }

    method Restore(tables: Db)
      modifies this
      ensures Tables() == tables
    {
      now, jobs, byKey, companies := tables.now, tables.jobs, tables.byKey, tables.companies;
      outbox, posts, nextJob, nextEntry := tables.outbox, tables.posts, tables.nextJob, tables.nextEntry;
    }

    method Tick(micros: nat)
      modifies this`now
      ensures now == old(now) + micros
    {
      now := now + micros;
    }

    // ---------- jobs ----------

    method UpsertJob(p: Posting) returns (r: Result<nat, DbError>)
      modifies this
      ensures match Catalogue.UpsertJob(old(Tables()), p)
              case Ok(saved) => Tables() == saved.db && r == Ok(saved.id)
              case Err(e) => Tables() == old(Tables()) && r == Err(e)
    {
      if p.key in byKey && byKey[p.key] in jobs {
        var id := byKey[p.key];
        companies := Catalogue.UpsertCompany(Tables(), p.facts);
        jobs := jobs[id := jobs[id].(facts := p.facts, lastSeenAt := now, closedAt := None)];
        return Ok(id);
      }
      if SlugTaken(Tables(), p.publicSlug) {
        return Err(UniqueViolation);
      }
      companies := Catalogue.UpsertCompany(Tables(), p.facts);
      jobs := jobs[nextJob := Job(p.key, p.publicSlug, p.facts, "{}", None, 0, now, None, 0)];
      byKey := byKey[p.key := nextJob];
      r := Ok(nextJob);
      nextJob := nextJob + 1;
    }

    method SetJobEnrichment(id: nat, payload: string, at: Time, version: int)
      modifies this`jobs
      ensures Tables() == Catalogue.SetJobEnrichment(old(Tables()), id, payload, at, version)
    {
      if id in jobs {
        jobs := jobs[id := jobs[id].(enrichment := payload, enrichedAt := Some(at), version := version)];
      }
    }

    method CloseUnseenJobs(source: string, cutoff: Time) returns (closed: nat)
      modifies this`jobs
      ensures Tables() == Catalogue.CloseUnseenJobs(old(Tables()), source, cutoff)
      ensures closed == |set j | j in old(jobs) && Unseen(old(jobs)[j], source, cutoff)|
    {
      var unseen := set j | j in jobs && Unseen(jobs[j], source, cutoff);
      closed := |unseen|;
      var todo := unseen;
      ghost var was := jobs;
      while todo != {}
        invariant todo <= unseen && jobs.Keys == was.Keys
        invariant forall j :: j in jobs ==>
                  jobs[j] == if j in unseen - todo then was[j].(closedAt := Some(now)) else was[j]
        decreases todo
      {
        var j :| j in todo;
        jobs := jobs[j := jobs[j].(closedAt := Some(now))];
        todo := todo - {j};
      }
      ghost var closing := Catalogue.CloseUnseenJobs(old(Tables()), source, cutoff).jobs;
      forall j | j in was ensures jobs[j] == closing[j] {
        assert j in unseen - todo <==> Unseen(was[j], source, cutoff);
      }
      assert jobs == closing;
    }

    // Returns the row as it is afterwards.
    method MarkLivenessExpired(id: nat, threshold: int) returns (r: Result<Job, DbError>)
      modifies this`jobs
      ensures Tables() == Catalogue.MarkLivenessExpired(old(Tables()), id, threshold)
      ensures r == if id in jobs then Ok(jobs[id]) else Err(NoRows)
    {
      if id !in jobs {
        return Err(NoRows);
      }
      var strikes := jobs[id].strikes + 1;
      var closedAt := if strikes >= threshold then Some(now) else jobs[id].closedAt;
      jobs := jobs[id := jobs[id].(strikes := strikes, closedAt := closedAt)];
      return Ok(jobs[id]);
    }

    method ResetLivenessStrikes(id: nat)
      modifies this`jobs
      ensures Tables() == Catalogue.ResetLivenessStrikes(old(Tables()), id)
    {
      if id in jobs && jobs[id].strikes != 0 {
        jobs := jobs[id := jobs[id].(strikes := 0)];
      }
    }

    // ---------- enrichment_outbox ----------

    method EnqueueJobEnrichment(job: nat, target: int)
      modifies this`outbox, this`nextEntry
      ensures Tables() == EnqueueJob(old(Tables()), job, target)
    {
      if job in jobs && Needs(jobs[job], target) && !HasEntry(Tables(), job, target) {
        outbox := outbox[nextEntry := Entry(job, target, FRESH)];
        nextEntry := nextEntry + 1;
      }
    }

    // Returns the number of rows inserted.
    method EnqueuePendingJobs(target: int) returns (inserted: nat)
      requires forall o :: o in outbox ==> o < nextEntry
      modifies this`outbox, this`nextEntry
      ensures Tables() == EnqueuePending(old(Tables()), 0, target)
      ensures |outbox| == |old(outbox)| + inserted
    {
      inserted := 0;
      var job := 0;
      while job < nextJob
        invariant EnqueuePending(Tables(), job, target) == EnqueuePending(old(Tables()), 0, target)
        invariant |outbox| == |old(outbox)| + inserted
        invariant forall o :: o in outbox ==> o < nextEntry
        invariant 0 <= job
        invariant nextJob == old(nextJob)
        decreases nextJob - job
      {
        var rows := nextEntry;
        EnqueueJobEnrichment(job, target);
        inserted := inserted + (nextEntry - rows);
        job := job + 1;
      }
    }

    // `locked` are the rows other transactions hold at this moment. RETURNING promises no
    // order, so the claimed rows come back as a set.
    method ClaimEnrichmentBatch(leaseSeconds: nat, batch: nat, locked: set<nat>)
      returns (rows: set<Claimed>, ghost picked: set<nat>)
      modifies this`outbox
      ensures OldestEntries(old(Tables()), leaseSeconds, batch, locked, picked)
      ensures Tables() == ClaimEntries(old(Tables()), picked)
      ensures rows == Tokens(old(Tables()), picked)
    {
      var ids := SelectOldest(ClaimableEntries(Tables(), leaseSeconds) - locked, batch);
      picked := ids;
      rows := Tokens(Tables(), ids);
      outbox := ClaimEntries(Tables(), ids).outbox;
    }

    method RecordEnrichmentFailure(id: nat, maxAttempts: int, error: string) returns (r: Result<bool, DbError>)
      modifies this`outbox
      ensures match Catalogue.RecordEnrichmentFailure(old(Tables()), id, maxAttempts, error)
              case Ok(db) => Tables() == db && r == Ok(db.outbox[id].stamp.failedAt.Some?)
              case Err(e) => Tables() == old(Tables()) && r == Err(e)
    {
      if id !in outbox {
        return Err(NoRows);
      }
      outbox := outbox[id := outbox[id].(stamp := Fail(outbox[id].stamp, now, maxAttempts, error))];
      return Ok(outbox[id].stamp.failedAt.Some?);
    }

    method DeleteEnrichmentEntry(id: nat)
      modifies this`outbox
      ensures Tables() == DeleteEntry(old(Tables()), id)
    {
      outbox := outbox - {id};
    }

    // ---------- telegram_posts ----------

    // Returns whether the post was new.
    method InsertTelegramPost(key: PostKey, text: string, postedAt: Time, extractedAt: Option<Time>)
      returns (inserted: bool)
      modifies this`posts
      ensures Tables() == InsertPost(old(Tables()), key, text, postedAt, extractedAt)
      ensures inserted <==> key !in old(posts)
    {
      inserted := key !in posts;
      if inserted {
        posts := posts[key := Post(text, postedAt, extractedAt, FRESH)];
      }
    }

    method ClaimTelegramPosts(leaseSeconds: nat, batch: nat, locked: set<PostKey>) returns (picked: set<PostKey>)
      modifies this`posts
      ensures OldestPosts(old(Tables()), leaseSeconds, batch, locked, picked)
      ensures Tables() == Catalogue.ClaimPosts(old(Tables()), picked)
    {
      picked := SelectOldestPosts(posts, ClaimablePosts(Tables(), leaseSeconds) - locked, batch);
      posts := Catalogue.ClaimPosts(Tables(), picked).posts;
    }

    method MarkTelegramPostExtracted(key: PostKey)
      modifies this`posts
      ensures Tables() == MarkPostExtracted(old(Tables()), key)
    {
      if key in posts {
        posts := posts[key := posts[key].(extractedAt := Some(now))];
      }
    }

    method RecordTelegramPostFailure(key: PostKey, maxAttempts: int, error: string) returns (r: Result<bool, DbError>)
      modifies this`posts
      ensures match RecordPostFailure(old(Tables()), key, maxAttempts, error)
              case Ok(db) => Tables() == db && r == Ok(db.posts[key].stamp.failedAt.Some?)
              case Err(e) => Tables() == old(Tables()) && r == Err(e)
    {
      if key !in posts {
        return Err(NoRows);
      }
      posts := posts[key := posts[key].(stamp := Fail(posts[key].stamp, now, maxAttempts, error))];
      return Ok(posts[key].stamp.failedAt.Some?);
    }

    // ---------- Transactions ----------

    // Ingest: a failed upsert rolls back, so a job is never written without its queue row.
    method Save(p: Posting, target: int) returns (r: Result<nat, DbError>)
      modifies this
      ensures match Catalogue.Save(old(Tables()), p, target)
              case Ok(saved) => Tables() == saved.db && r == Ok(saved.id)
              case Err(e) => Tables() == old(Tables()) && r == Err(e)
    {
      r := UpsertJob(p);
      if r.Ok? {
        EnqueueJobEnrichment(r.value, target);
      }
    }

    // Enrichment write-back; `commits` is whether the transaction commits.
    method Complete(claim: Claimed, payload: string, at: Time, commits: bool) returns (ok: bool)
      modifies this
      ensures ok == commits
      ensures Tables() == if commits then CompleteEntry(old(Tables()), claim.outboxId, claim.jobId, claim.target,
              payload, at)
                          else old(Tables())
    {
      var begin := Tables();
      SetJobEnrichment(claim.jobId, payload, at, claim.target);
      DeleteEnrichmentEntry(claim.outboxId);
      ok := commits;
      if !commits {
        Restore(begin);
      }
    }

    // Telegram write: all the extracted jobs and the extracted mark, or nothing.
    method CompletePost(key: PostKey, postings: seq<Posting>, target: int) returns (r: Result<seq<nat>, DbError>)
      modifies this
      ensures match Catalogue.CompletePost(old(Tables()), key, postings, target)
              case Ok(saved) => Tables() == saved.db && r == Ok(saved.ids)
              case Err(e) => Tables() == old(Tables()) && r == Err(e)
    {
      var begin := Tables();
      var ids: seq<nat> := [];
      var i := 0;
      assert postings[0..] == postings;
      assert SaveAll(begin, postings, target) == Prepended([], SaveAll(begin, postings, target)) by {
        PrependedNothing(SaveAll(begin, postings, target));
      }
      while i < |postings|
        invariant 0 <= i <= |postings|
        invariant SaveAll(begin, postings, target) == Prepended(ids, SaveAll(Tables(), postings[i..], target))
      {
        var one := Save(postings[i], target);
        assert postings[i..][1..] == postings[i + 1..];
        if one.Err? {
          Restore(begin);
          return Err(one.error);
        }
        assert forall more: seq<nat> :: ids + ([one.value] + more) == (ids + [one.value]) + more;
        ids := ids + [one.value];
        i := i + 1;
      }
      MarkTelegramPostExtracted(key);
      assert ids + [] == ids;
      r := Ok(ids);
    }
  }

  // The outcome of a write that already saved the jobs `done`.
  function Prepended(done: seq<nat>, rest: Result<SavedAll, DbError>): Result<SavedAll, DbError> {
    match rest
    case Ok(saved) => Ok(saved.(ids := done + saved.ids))
    case Err(e) => Err(e)
  }

  lemma PrependedNothing(r: Result<SavedAll, DbError>)
    ensures Prepended([], r) == r
  {
    assert r.Ok? ==> [] + r.value.ids == r.value.ids;
  }

  // ORDER BY id LIMIT batch.
  method SelectOldest(free: set<nat>, batch: nat) returns (picked: set<nat>)
    ensures picked <= free && |picked| <= batch
    ensures |picked| < batch ==> picked == free
    ensures forall p, q :: p in picked && q in free - picked ==> p < q
  {
    var rest := free;
    ghost var last: int := -1;
    picked := {};
    while |picked| < batch && rest != {}
      invariant picked + rest == free && |picked| <= batch
      invariant forall p :: p in picked ==> p <= last
      invariant forall q :: q in rest ==> last < q
      decreases rest
    {
      var id := Minimum(rest);
      picked := picked + {id};
      rest := rest - {id};
      last := id;
    }
    assert forall q :: q in free && q !in picked ==> last < q;
  }

  // ORDER BY posted_at LIMIT batch.
  method SelectOldestPosts(posts: map<PostKey, Post>, free: set<PostKey>, batch: nat) returns (picked: set<PostKey>)
    requires free <= posts.Keys
    ensures picked <= free && |picked| <= batch
    ensures |picked| < batch ==> picked == free
    ensures forall p, q :: p in picked && q in free - picked ==> posts[p].postedAt <= posts[q].postedAt
  {
    var rest := free;
    picked := {};
    while |picked| < batch && rest != {}
      invariant picked + rest == free && picked !! rest && |picked| <= batch
      invariant forall p, q :: p in picked && q in rest ==> posts[p].postedAt <= posts[q].postedAt
      decreases rest
    {
      ghost var oldest := OldestPost(posts, rest);
      var key :| key in rest && forall other :: other in rest ==> posts[key].postedAt <= posts[other].postedAt;
      picked := picked + {key};
      rest := rest - {key};
    }
  }

  lemma OldestPost(posts: map<PostKey, Post>, s: set<PostKey>) returns (oldest: PostKey)
    requires s != {} && s <= posts.Keys
    ensures oldest in s && forall other :: other in s ==> posts[oldest].postedAt <= posts[other].postedAt
  {
    var x :| x in s;
    oldest := x;
    if s != {x} {
      var older := OldestPost(posts, s - {x});
      oldest := if posts[older].postedAt < posts[x].postedAt then older else x;
      assert s == s - {x} + {x};
    }
  }
}
