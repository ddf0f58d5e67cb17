// The Telegram extraction worker: one claimed batch, each post completed or failed. Links,
// the language model and the store may answer in any way.
module ExtractRunner {
  import opened Wrappers
  import opened Lease
  import opened Catalogue
  import opened DatabaseServer

  datatype Options = Options(target: int, batchSize: nat, leaseSeconds: nat, maxAttempts: int)

  // What following a post's links gives: matched links that all failed, jobs, or nothing.
  datatype LinkResult = LinksFailed | LinkJobs(jobs: seq<Posting>)

  // What the outside makes of a post: its links, and the model's extraction, None when the call
  // fails or its payload is invalid.
  datatype Reading = Reading(links: LinkResult, extraction: Option<seq<Posting>>)

  // The jobs a post is worth: those of its links, or else the model's. An error when the links
  // failed, whatever the model would say, or when the model is needed and fails.
  function Wanted(r: Reading): Result<seq<Posting>, string> {
    match r.links
    case LinksFailed => Err("links")
    case LinkJobs(jobs) =>
      if jobs != [] then Ok(jobs) else (match r.extraction case Some(more) => Ok(more) case None => Err("extract"))
  }

  // ---------- What happens to a post's row ----------

  ghost predicate Extracted(before: Post, after: Post, at: Time) {
    after == before.(extractedAt := Some(at))
  }

  // One attempt more, dead-lettered exactly at the cap, with the error.
  ghost predicate FailedOnce(before: Post, after: Post, cap: int, error: string, at: Time) {
    var attempts := before.stamp.attempts + 1;
    var failedAt := if attempts >= cap then Some(at) else None;
    after == before.(stamp := Stamp(attempts, before.stamp.claimedAt, failedAt, error))
  }

  // Pending, live and under no lease.
  predicate Unleased(posts: map<PostKey, Post>, now: Time, opt: Options, k: PostKey) {
    && k in posts && posts[k].extractedAt.None? && posts[k].stamp.failedAt.None?
    && (posts[k].stamp.claimedAt.None? || posts[k].stamp.claimedAt.value + opt.leaseSeconds * 1_000_000 < now)
  }

  // The posts picked are unleased, no later than those not picked, which there are only when the
  // batch is full.
  ghost predicate OldestUnleased(posts: map<PostKey, Post>, now: Time, opt: Options, picked: set<PostKey>) {
    && (forall k :: k in picked ==> Unleased(posts, now, opt, k)) && |picked| <= opt.batchSize
    && (forall k, l :: k in picked && Unleased(posts, now, opt, l) && l !in picked ==>
                         posts[k].postedAt <= posts[l].postedAt)
    && (|picked| < opt.batchSize ==> forall l :: Unleased(posts, now, opt, l) ==> l in picked)
  }

  function Leased(posts: map<PostKey, Post>, picked: set<PostKey>, now: Time): map<PostKey, Post> {
    map k | k in posts ::
      if k in picked then posts[k].(stamp := posts[k].stamp.(claimedAt := Some(now))) else posts[k]
  }

  lemma ClaimablePostsAreUnleased(db: Db, opt: Options, k: PostKey)
    ensures k in ClaimablePosts(db, opt.leaseSeconds) <==> Unleased(db.posts, db.now, opt, k)
  {
  }

  lemma OldestAreUnleased(db: Db, opt: Options, picked: set<PostKey>)
    requires OldestPosts(db, opt.leaseSeconds, opt.batchSize, {}, picked)
    ensures OldestUnleased(db.posts, db.now, opt, picked)
  {
    var all := ClaimablePosts(db, opt.leaseSeconds);
    var free := all - {};
    forall k ensures k in free <==> Unleased(db.posts, db.now, opt, k) {
      ClaimablePostsAreUnleased(db, opt, k);
      assert k in free <==> k in all;
    }
    forall k, l | k in picked && Unleased(db.posts, db.now, opt, l) && l !in picked
      ensures db.posts[k].postedAt <= db.posts[l].postedAt
    {
      assert l in free - picked;
    }
  }

  lemma ClaimingLeases(db: Db, picked: set<PostKey>)
    ensures Catalogue.ClaimPosts(db, picked) == db.(posts := Leased(db.posts, picked, db.now))
  {
  }

  ghost predicate SamePosts(a: map<PostKey, Post>, b: map<PostKey, Post>, but: set<PostKey>) {
    a.Keys == b.Keys && forall k :: k in a && k !in but ==> b[k] == a[k]
  }

  // The vacancies of some posts together.
  ghost function Vacancies(posts: set<PostKey>, reading: PostKey -> Reading): nat {
    if posts == {} then 0
    else
      var k :| k in posts;
      Worth(reading(k)) + Vacancies(posts - {k}, reading)
  }

  function Worth(r: Reading): nat {
    match Wanted(r)
    case Ok(jobs) => |jobs|
    case Err(_) => 0
  }

  lemma {:induction false} VacanciesSplit(posts: set<PostKey>, reading: PostKey -> Reading, k: PostKey)
    requires k in posts
    ensures Vacancies(posts, reading) == Worth(reading(k)) + Vacancies(posts - {k}, reading)
    decreases |posts|
  {
    var p :| p in posts && Vacancies(posts, reading) == Worth(reading(p)) + Vacancies(posts - {p}, reading);
    if p != k {
      VacanciesSplit(posts - {p}, reading, k);
      VacanciesSplit(posts - {k}, reading, p);
      assert posts - {p} - {k} == posts - {k} - {p};
    }
  }

  method Reachable() returns (ok: bool) {
    ok := *;
  }

  class Run {
    const db: Database
    const opt: Options
    const reading: PostKey -> Reading
    var processed: nat
    var jobs: nat
    var failed: nat

    constructor (db: Database, opt: Options, reading: PostKey -> Reading)
      ensures this.db == db && this.opt == opt && this.reading == reading && processed == jobs == failed == 0
    {
      this.db, this.opt, this.reading := db, opt, reading;
      processed, jobs, failed := 0, 0, 0;
    }

    // Counted as failed whether or not the store could record it.
    method Fail(key: PostKey, error: string) returns (ok: bool)
      requires key in db.posts
      modifies this`failed, db
      ensures failed == old(failed) + 1
      ensures SamePosts(old(db.posts), db.posts, {key})
      ensures if ok then FailedOnce(old(db.posts[key]), db.posts[key], opt.maxAttempts, error, old(db.now))
                else db.Tables() == old(db.Tables())
      ensures db.Tables() == old(db.Tables()).(posts := db.posts)
    {
      failed := failed + 1;
      ok := Reachable();
      if ok {
        var dead := db.RecordTelegramPostFailure(key, opt.maxAttempts, error);
      }
    }

    // All the post's jobs and the extracted mark, or nothing.
    method Complete(key: PostKey, postings: seq<Posting>) returns (ok: bool)
      requires key in db.posts
      modifies this`processed, this`jobs, db
      ensures SamePosts(old(db.posts), db.posts, {key})
      ensures ok ==> processed == old(processed) + 1 && jobs == old(jobs) + |postings|
      ensures ok ==> Extracted(old(db.posts[key]), db.posts[key], old(db.now)) && db.now == old(db.now)
      ensures ok ==> Transacted(old(db.Tables()), db.Tables(), key, postings, opt.target)
      ensures !ok ==> processed == old(processed) && jobs == old(jobs) && db.Tables() == old(db.Tables())
    {
      ok := Reachable();
      if !ok {
        return;
      }
      var saved := db.CompletePost(key, postings, opt.target);
      ok := saved.Ok?;
      if ok {
        processed := processed + 1;
        jobs := jobs + |postings|;
      }
    }

    // The post's jobs and its mark are written, and counted.
    ghost predicate Completed(key: PostKey, postings: seq<Posting>, before: Db, hadProcessed: nat, hadJobs: nat)
      reads this, db
    {
      && key in before.posts && key in db.posts && Transacted(before, db.Tables(), key, postings, opt.target)
      && Extracted(before.posts[key], db.posts[key], before.now)
      && processed == hadProcessed + 1 && jobs == hadJobs + |postings|
    }

    // The failure is recorded on the post, and counted.
    ghost predicate Failed(key: PostKey, error: string, before: Db, hadFailed: nat)
      reads this, db
    {
      && key in before.posts && key in db.posts && db.Tables() == before.(posts := db.posts)
      && FailedOnce(before.posts[key], db.posts[key], opt.maxAttempts, error, before.now)
      && failed == hadFailed + 1
    }

    // Links first; the model only when no link gave a job. A post that cannot be read is
    // failed, and only a store error stops the run.
    method Process(key: PostKey) returns (ok: bool)
      requires key in db.posts
      modifies this, db
      ensures SamePosts(old(db.posts), db.posts, {key})
      ensures ok && reading(key).links.LinksFailed? ==> Failed(key, "links", old(db.Tables()), old(failed))
      ensures ok && reading(key).links.LinkJobs? && reading(key).links.jobs != [] ==>
                Completed(key, reading(key).links.jobs, old(db.Tables()), old(processed), old(jobs))
      ensures ok && reading(key).links == LinkJobs([]) ==>
                match reading(key).extraction
                case Some(more) => Completed(key, more, old(db.Tables()), old(processed), old(jobs))
                case None => Failed(key, "extract", old(db.Tables()), old(failed))
      ensures ok && Wanted(reading(key)).Ok? ==>
                Completed(key, Wanted(reading(key)).value, old(db.Tables()), old(processed), old(jobs))
                && failed == old(failed)
      ensures ok && Wanted(reading(key)).Err? ==>
                Failed(key, Wanted(reading(key)).error, old(db.Tables()), old(failed))
                && processed == old(processed) && jobs == old(jobs)
      ensures !ok ==> db.Tables() == old(db.Tables()) && processed == old(processed) && jobs == old(jobs)
      ensures !ok ==> failed == old(failed) + if Wanted(reading(key)).Err? then 1 else 0
      ensures db.now == old(db.now)
    {
      var links := reading(key).links;
      if links.LinksFailed? {
        ok := Fail(key, "links");
        return;
      }
      if |links.jobs| > 0 {
        ok := Complete(key, links.jobs);
        return;
      }
      var extraction := reading(key).extraction;
      if extraction.None? {
        ok := Fail(key, "extract");
        return;
      }
      ok := Complete(key, extraction.value);
    }

    // What holds when the posts in `todo` are still to be read.
    ghost predicate Underway(leased: map<PostKey, Post>, picked: set<PostKey>, todo: set<PostKey>)
      reads this, db
    {
      && Handled(leased, db.posts, picked, todo, reading, opt.maxAttempts, db.now)
      && processed == |Readable(picked - todo, reading)| && processed + failed + |todo| == |picked|
      && jobs == Vacancies(Readable(picked - todo, reading), reading)
    }

    method ProcessNext(key: PostKey, ghost leased: map<PostKey, Post>, ghost picked: set<PostKey>,
                       ghost todo: set<PostKey>) returns (ok: bool)
      requires Underway(leased, picked, todo) && key in todo
      modifies this, db
      ensures db.now == old(db.now)
      ensures ok ==> Underway(leased, picked, todo - {key})
      ensures !ok ==> Handled(leased, db.posts, picked, todo, reading, opt.maxAttempts, db.now)
    {
      ghost var before := db.posts;
      ok := Process(key);
      if ok {
        OneMoreHandled(leased, before, db.posts, picked, todo, key, reading, opt.maxAttempts, db.now);
        OneMoreReadable(picked, todo, key, reading);
      }
    }

    method WorkThrough(picked: set<PostKey>) returns (finished: bool, ghost todo: set<PostKey>)
      requires processed == failed == jobs == 0 && picked <= db.posts.Keys
      modifies this, db
      ensures Handled(old(db.posts), db.posts, picked, todo, reading, opt.maxAttempts, db.now)
      ensures finished ==> todo == {} && Underway(old(db.posts), picked, {})
      ensures db.now == old(db.now)
    {
      var rest := picked;
      assert Readable(picked - rest, reading) == {};
      while rest != {}
        invariant Underway(old(db.posts), picked, rest) && db.now == old(db.now)
        decreases rest
      {
        var key :| key in rest;
        var ok := ProcessNext(key, old(db.posts), picked, rest);
        if !ok {
          return false, rest;
        }
        rest := rest - {key};
      }
      finished, todo := true, rest;
    }

    // The oldest claimable posts, a full batch if there are that many, are leased. A finished run
    // extracts exactly the claimed posts that can be read and fails the others once; its tallies
    // are the numbers of those and of the vacancies written; no other post moves. An interrupted
    // run did so for some of them.
    method RunOnce() returns (finished: bool, ghost claimed: set<PostKey>, ghost todo: set<PostKey>)
      requires processed == failed == jobs == 0
      modifies this, db
      ensures OldestUnleased(old(db.posts), old(db.now), opt, claimed)
      ensures Handled(Leased(old(db.posts), claimed, old(db.now)), db.posts, claimed, todo, reading,
                opt.maxAttempts, old(db.now))
      ensures finished ==>
                && todo == {} && processed == |Readable(claimed, reading)| && processed + failed == |claimed|
                && jobs == Vacancies(Readable(claimed, reading), reading)
    {
      var picked := db.ClaimTelegramPosts(opt.leaseSeconds, opt.batchSize, {});
      claimed := picked;
      OldestAreUnleased(old(db.Tables()), opt, picked);
      ClaimingLeases(old(db.Tables()), picked);
      finished, todo := WorkThrough(picked);
      assert claimed - {} == claimed;
    }
  }

  // The transaction of a completed post.
  ghost predicate Transacted(a: Db, b: Db, key: PostKey, postings: seq<Posting>, target: int) {
    match Catalogue.CompletePost(a, key, postings, target)
    case Ok(saved) => b == saved.db
    case Err(_) => false
  }

  function Readable(posts: set<PostKey>, reading: PostKey -> Reading): set<PostKey> {
    set k | k in posts && Wanted(reading(k)).Ok?
  }

  // Of the posts picked, those in `todo` are as they were leased, the others are extracted if
  // they can be read and have failed once if not; no other post moved.
  ghost predicate Handled(leased: map<PostKey, Post>, now: map<PostKey, Post>, picked: set<PostKey>,
                          todo: set<PostKey>, reading: PostKey -> Reading, cap: int, at: Time) {
    && todo <= picked <= leased.Keys
    && SamePosts(leased, now, picked - todo)
    && forall k :: k in picked - todo ==>
                     match Wanted(reading(k))
                     case Ok(_) => Extracted(leased[k], now[k], at)
                     case Err(error) => FailedOnce(leased[k], now[k], cap, error, at)
  }

  lemma OneMoreHandled(leased: map<PostKey, Post>, before: map<PostKey, Post>, after: map<PostKey, Post>,
                       picked: set<PostKey>, todo: set<PostKey>, key: PostKey, reading: PostKey -> Reading, cap: int,
                       at: Time)
    requires Handled(leased, before, picked, todo, reading, cap, at) && key in todo && SamePosts(before, after, {key})
    requires match Wanted(reading(key))
             case Ok(_) => Extracted(before[key], after[key], at)
             case Err(error) => FailedOnce(before[key], after[key], cap, error, at)
    ensures Handled(leased, after, picked, todo - {key}, reading, cap, at)
  {
    assert before[key] == leased[key];
    assert SamePosts(leased, after, picked - (todo - {key}));
  }

  lemma OneMoreReadable(picked: set<PostKey>, todo: set<PostKey>, key: PostKey, reading: PostKey -> Reading)
    requires key in todo && todo <= picked
    ensures var now, later := Readable(picked - todo, reading), Readable(picked - (todo - {key}), reading);
            && |later| == |now| + (if Wanted(reading(key)).Ok? then 1 else 0)
            && Vacancies(later, reading) == Vacancies(now, reading) + Worth(reading(key))
  {
    var now, later := Readable(picked - todo, reading), Readable(picked - (todo - {key}), reading);
    if Wanted(reading(key)).Ok? {
      assert later == now + {key} && later - {key} == now;
      VacanciesSplit(later, reading, key);
    } else {
      assert later == now;
    }
  }
}
