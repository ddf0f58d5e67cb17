// The enrichment worker's drain loop: enqueue what is pending, then claim and process
// batches until nothing is claimable. It runs alone here; leases may expire while it runs.
module EnrichRunner {
  import opened Wrappers
  import opened Lease
  import opened Catalogue
  import opened Workers
  import opened Outbox
  import opened DatabaseServer

  datatype Options = Options(target: int, batchSize: nat, leaseSeconds: nat, maxAttempts: int)

  // ---------- The termination measure ----------

  // Attempts a live row may still fail, at least one; a dead-lettered row has none left.
  ghost function Weight(row: Entry, cap: int): nat {
    if row.stamp.failedAt.Some? then 0
    else if row.stamp.attempts < cap then cap - row.stamp.attempts
    else 1
  }

  ghost function Budget(rows: map<nat, Entry>, cap: int): nat
    decreases |rows|
  {
    if rows == map[] then 0
    else
      var o :| o in rows;
      Weight(rows[o], cap) + Budget(rows - {o}, cap)
  }

  lemma {:induction false} BudgetSplits(rows: map<nat, Entry>, cap: int, o: nat)
    requires o in rows
    ensures Budget(rows, cap) == Weight(rows[o], cap) + Budget(rows - {o}, cap)
    decreases |rows|
  {
    var p :| p in rows && Budget(rows, cap) == Weight(rows[p], cap) + Budget(rows - {p}, cap);
    if p != o {
      BudgetSplits(rows - {p}, cap, o);
      BudgetSplits(rows - {o}, cap, p);
      assert rows - {p} - {o} == rows - {o} - {p};
    }
  }

  lemma BudgetOfUpdate(rows: map<nat, Entry>, cap: int, o: nat, row: Entry)
    requires o in rows
    ensures Budget(rows[o := row], cap) == Budget(rows, cap) - Weight(rows[o], cap) + Weight(row, cap)
  {
    BudgetSplits(rows, cap, o);
    BudgetSplits(rows[o := row], cap, o);
    assert rows[o := row] - {o} == rows - {o};
  }

  lemma {:induction false} BudgetIgnoresClaims(a: map<nat, Entry>, b: map<nat, Entry>, cap: int)
    requires a.Keys == b.Keys && forall o :: o in a ==> Weight(a[o], cap) == Weight(b[o], cap)
    ensures Budget(a, cap) == Budget(b, cap)
    decreases |a|
  {
    if a != map[] {
      var o :| o in a;
      BudgetSplits(a, cap, o);
      BudgetSplits(b, cap, o);
      BudgetIgnoresClaims(a - {o}, b - {o}, cap);
    } else {
      assert b == map[];
    }
  }

  ghost function Dead(rows: map<nat, Entry>): set<nat> {
    set o | o in rows && rows[o].stamp.failedAt.Some?
  }

  // ---------- One entry handled ----------

  // What handling one entry did to the tables: counted as enriched, dead-lettered or
  // merely failed, with `lost` set when the failure could not even be recorded. Either the
  // budget shrank or a record was lost, and no other row moved.
  ghost predicate Settled(a: Db, b: Db, opt: Options, id: nat, enriched: int, dead: int, lost: int) {
    && Kept(a, b, opt.target)
    && (forall o :: o != id ==> (o in b.outbox <==> o in a.outbox) && (o in b.outbox ==> b.outbox[o] == a.outbox[o]))
    && |b.outbox| + enriched == |a.outbox|
    && |Dead(b.outbox)| == |Dead(a.outbox)| + dead
    && Budget(b.outbox, opt.maxAttempts) < Budget(a.outbox, opt.maxAttempts) + lost
  }

  // A leased entry that is still a live row.
  ghost predicate Workable(db: Db, opt: Options, entry: Claimed) {
    && ClaimSound(db, opt.target, entry)
    && entry.outboxId in db.outbox && db.outbox[entry.outboxId].stamp.failedAt.None?
  }

  // A batch still to be worked through: distinct live rows.
  ghost predicate Batch(db: Db, opt: Options, todo: set<Claimed>) {
    && (forall entry :: entry in todo ==> Workable(db, opt, entry))
    && (forall e, f :: e in todo && f in todo && e.outboxId == f.outboxId ==> e == f)
  }

  // What handling n entries did: the tallies account for every row, and the budget paid
  // for every entry.
  ghost predicate Advanced(a: Db, b: Db, opt: Options, n: int, enriched: int, dead: int, lost: int) {
    && Kept(a, b, opt.target)
    && |b.outbox| + enriched == |a.outbox|
    && |Dead(b.outbox)| == |Dead(a.outbox)| + dead
    && Budget(b.outbox, opt.maxAttempts) + n <= Budget(a.outbox, opt.maxAttempts) + lost
  }

  lemma OneMoreSettled(a: Db, b: Db, c: Db, opt: Options, id: nat, n: int, enriched: int, dead: int, lost: int,
                       e: int, d: int, l: int)
    requires IdsBounded(a, opt.target)
    requires Advanced(a, b, opt, n, enriched, dead, lost) && Settled(b, c, opt, id, e, d, l)
    ensures Advanced(a, c, opt, n + 1, enriched + e, dead + d, lost + l)
  {
    KeptTwice(a, b, c, opt.target);
  }

  lemma OneMoreRound(a: Db, b: Db, c: Db, opt: Options, n: int, enriched: int, dead: int, lost: int, more: int, e: int,
                     d: int, l: int)
    requires IdsBounded(a, opt.target)
    requires Advanced(a, b, opt, n, enriched, dead, lost) && Advanced(b, c, opt, more, e, d, l)
    ensures Advanced(a, c, opt, n + more, enriched + e, dead + d, lost + l)
  {
    KeptTwice(a, b, c, opt.target);
  }

  lemma RestOfBatch(a: Db, b: Db, opt: Options, todo: set<Claimed>, entry: Claimed, e: int, d: int, l: int)
    requires Batch(a, opt, todo) && entry in todo && Settled(a, b, opt, entry.outboxId, e, d, l)
    ensures Batch(b, opt, todo - {entry})
  {
    forall other | other in todo - {entry}
      ensures Workable(b, opt, other)
    {
      ClaimSoundLater(a, b, opt.target, other);
    }
  }

  lemma ClockIsFree(a: Db, now: Time, opt: Options, todo: set<Claimed>)
    requires Sound(a, opt.target)
    ensures Kept(a, a.(now := now), opt.target)
    ensures Batch(a, opt, todo) ==> Batch(a.(now := now), opt, todo)
  {
    SameWorkIsKept(a, a.(now := now), opt.target);
    if Batch(a, opt, todo) {
      forall entry | entry in todo
        ensures Workable(a.(now := now), opt, entry)
      {
        ClaimSoundLater(a, a.(now := now), opt.target, entry);
      }
    }
  }

  lemma ClaimingIsFree(a: Db, picked: set<nat>, opt: Options)
    requires Sound(a, opt.target) && picked <= a.outbox.Keys
    ensures Advanced(a, ClaimEntries(a, picked), opt, 0, 0, 0, 0)
  {
    var b := ClaimEntries(a, picked);
    ClaimIsKept(a, picked, opt.target);
    assert b.outbox.Keys == a.outbox.Keys;
    BudgetIgnoresClaims(a.outbox, b.outbox, opt.maxAttempts);
    assert Dead(b.outbox) == Dead(a.outbox);
  }

  lemma ClaimedRowsAreABatch(a: Db, picked: set<nat>, opt: Options)
    requires Sound(a, opt.target) && picked <= ClaimableEntries(a, opt.leaseSeconds)
    ensures Batch(ClaimEntries(a, picked), opt, Tokens(a, picked))
  {
    forall entry | entry in Tokens(a, picked)
      ensures Workable(ClaimEntries(a, picked), opt, entry)
    {
      FreshClaimsAreSound(a, picked, entry, opt.target);
      assert entry.outboxId in ClaimableEntries(a, opt.leaseSeconds);
    }
  }

  lemma LosingSettles(a: Db, opt: Options, id: nat)
    requires Sound(a, opt.target)
    ensures Settled(a, a, opt, id, 0, 0, 1)
  {
    SameWorkIsKept(a, a, opt.target);
  }

  lemma FailingSettles(a: Db, opt: Options, id: nat, error: string)
    requires Sound(a, opt.target) && id in a.outbox && a.outbox[id].stamp.failedAt.None?
    ensures var b := Catalogue.RecordEnrichmentFailure(a, id, opt.maxAttempts, error).value;
            Settled(a, b, opt, id, 0, if b.outbox[id].stamp.failedAt.Some? then 1 else 0, 0)
  {
    var b := Catalogue.RecordEnrichmentFailure(a, id, opt.maxAttempts, error).value;
    FailIsKept(a, id, opt.maxAttempts, error, opt.target);
    BudgetOfUpdate(a.outbox, opt.maxAttempts, id, b.outbox[id]);
    DeadAfterUpdate(a.outbox, id, b.outbox[id]);
    assert b.outbox == a.outbox[id := b.outbox[id]];
    assert b.outbox.Keys == a.outbox.Keys;
  }

  lemma CompletingSettles(a: Db, opt: Options, entry: Claimed, payload: string, at: Time)
    requires Sound(a, opt.target) && ClaimSound(a, opt.target, entry)
    requires entry.outboxId in a.outbox && a.outbox[entry.outboxId].stamp.failedAt.None?
    ensures Settled(a, CompleteEntry(a, entry.outboxId, entry.jobId, entry.target, payload, at), opt,
            entry.outboxId, 1, 0, 0)
  {
    var b := CompleteEntry(a, entry.outboxId, entry.jobId, entry.target, payload, at);
    CompleteIsKept(a, entry, payload, at, opt.target);
    BudgetSplits(a.outbox, opt.maxAttempts, entry.outboxId);
    assert b.outbox == a.outbox - {entry.outboxId};
    assert b.outbox.Keys == a.outbox.Keys - {entry.outboxId};
    assert Dead(b.outbox) == Dead(a.outbox);
  }

  // ---------- The run ----------

  // Any outcome of something outside the program: the model, the network, a commit.
  method Outcome() returns (ok: bool) {
    ok := *;
  }

  // What the world makes of one entry: whether its job loads, the provider's two answers (None
  // when a call fails or its payload is invalid), and whether the write-back commits.
  datatype Attempt = Attempt(loaded: bool, first: Option<string>, second: Option<string>, commits: bool)

  // One attempt more on the row, dead-lettered at the cap, with the error; nothing else.
  predicate Recorded(a: Db, b: Db, opt: Options, id: nat, error: string) {
    id in a.outbox
    && var stamp := a.outbox[id].stamp;
       var failedAt := if stamp.attempts + 1 >= opt.maxAttempts then Some(a.now) else None;
       b == a.(outbox := a.outbox[id := a.outbox[id].(stamp := Stamp(stamp.attempts + 1, stamp.claimedAt, failedAt,
          error))])
  }

  // The payload, its time and its version on the job, and the queue row gone; nothing else.
  predicate WrittenBack(a: Db, b: Db, entry: Claimed, payload: string) {
    entry.jobId in a.jobs
    && var job := a.jobs[entry.jobId].(enrichment := payload, enrichedAt := Some(a.now), version := entry.target);
       b == a.(jobs := a.jobs[entry.jobId := job], outbox := a.outbox - {entry.outboxId})
  }

  lemma FailureIsRecorded(a: Db, opt: Options, id: nat, error: string)
    requires id in a.outbox
    ensures var r := Catalogue.RecordEnrichmentFailure(a, id, opt.maxAttempts, error);
            r.Ok? && Recorded(a, r.value, opt, id, error)
  {
  }

  lemma CompletionIsWrittenBack(a: Db, entry: Claimed, payload: string)
    requires entry.jobId in a.jobs
    ensures WrittenBack(a, CompleteEntry(a, entry.outboxId, entry.jobId, entry.target, payload, a.now), entry, payload)
  {
  }

  predicate Unleased(a: Db, opt: Options, o: nat) {
    && o in a.outbox && a.outbox[o].stamp.failedAt.None?
    && (a.outbox[o].stamp.claimedAt.None?
        || a.outbox[o].stamp.claimedAt.value + opt.leaseSeconds * 1_000_000 < a.now)
  }

  // The rows picked are live and under no lease, and older than those not picked, which there are
  // only when the batch is full; each gets its claim time and nothing else moves.
  ghost predicate LeasedOldest(a: Db, b: Db, opt: Options, picked: set<nat>) {
    && (forall o :: o in picked ==> Unleased(a, opt, o)) && |picked| <= opt.batchSize
    && (forall o: nat, q: nat :: o in picked && Unleased(a, opt, q) && q !in picked ==> o < q)
    && (|picked| < opt.batchSize ==> forall q: nat :: Unleased(a, opt, q) ==> q in picked)
    && b == a.(outbox := b.outbox) && b.outbox.Keys == a.outbox.Keys
    && (forall o :: o in a.outbox && o !in picked ==> b.outbox[o] == a.outbox[o])
    && (forall o :: o in picked ==>
          b.outbox[o] == a.outbox[o].(stamp := a.outbox[o].stamp.(claimedAt := Some(a.now))))
  }

  ghost predicate BatchLeased(a: Db, b: Db, opt: Options, batch: set<Claimed>) {
    exists picked :: LeasedOldest(a, b, opt, picked) && batch == Tokens(a, picked)
  }

  lemma OldestAreLeased(a: Db, opt: Options, picked: set<nat>)
    requires OldestEntries(a, opt.leaseSeconds, opt.batchSize, {}, picked)
    ensures LeasedOldest(a, ClaimEntries(a, picked), opt, picked)
  {
    var free := ClaimableEntries(a, opt.leaseSeconds) - {};
    assert forall o: nat :: o in free <==> Unleased(a, opt, o);
    forall o: nat, q: nat | o in picked && Unleased(a, opt, q) && q !in picked ensures o < q {
      assert q in free - picked;
    }
  }

  // How a run ends: the bulk enqueue failed, a claim failed, or nothing was claimable.
  datatype Ending = EnqueueFailed | ClaimFailed | Drained

  class Run {
    const db: Database
    const opt: Options
    var enriched: nat
    var failed: nat
    var deadLettered: nat
    // How many more failure records the database will lose.
    var outages: nat

    constructor (db: Database, opt: Options, outages: nat)
      ensures this.db == db && this.opt == opt && this.outages == outages
      ensures enriched == failed == deadLettered == 0
    {
      this.db, this.opt, this.outages := db, opt, outages;
      enriched, failed, deadLettered := 0, 0, 0;
    }

    ghost function Fuel(): nat
      reads this, db
    {
      Budget(db.outbox, opt.maxAttempts) + outages
    }

    function Handled(): nat
      reads this
    {
      enriched + failed + deadLettered
    }

    // The attempt is on the row, unless the database lost the record.
    method Fail(entry: Claimed, error: string)
      requires Sound(db.Tables(), opt.target) && Workable(db.Tables(), opt, entry)
      modifies this, db
      ensures enriched == old(enriched) && (outages == old(outages) || outages + 1 == old(outages))
      ensures outages == old(outages) ==> Recorded(old(db.Tables()), db.Tables(), opt, entry.outboxId, error)
      ensures outages < old(outages) ==> db.Tables() == old(db.Tables())
      ensures Settled(old(db.Tables()), db.Tables(), opt, entry.outboxId, enriched - old(enriched),
              deadLettered - old(deadLettered), old(outages) - outages)
      ensures Handled() == old(Handled()) + 1
    {
      var recorded := Outcome();
      if outages > 0 && !recorded {
        LosingSettles(db.Tables(), opt, entry.outboxId);
        outages := outages - 1;
        failed := failed + 1;
        return;
      }
      FailingSettles(db.Tables(), opt, entry.outboxId, error);
      FailureIsRecorded(db.Tables(), opt, entry.outboxId, error);
      var dead := db.RecordEnrichmentFailure(entry.outboxId, opt.maxAttempts, error);
      if dead.Ok? && dead.value {
        deadLettered := deadLettered + 1;
      } else {
        failed := failed + 1;
      }
    }

    // Two tries at a valid payload.
    method AskProvider(attempt: Attempt) returns (payload: Option<string>)
      ensures payload == if attempt.first.Some? then attempt.first else attempt.second
    {
      payload := attempt.first;
      if payload.None? {
        payload := attempt.second;
      }
    }

    // The write-back transaction; a failed commit leaves no trace.
    method WriteBack(entry: Claimed, payload: string, commits: bool) returns (ok: bool)
      requires Sound(db.Tables(), opt.target) && Workable(db.Tables(), opt, entry)
      modifies db
      ensures ok == commits
      ensures ok ==> WrittenBack(old(db.Tables()), db.Tables(), entry, payload)
                     && Settled(old(db.Tables()), db.Tables(), opt, entry.outboxId, 1, 0, 0)
      ensures !ok ==> db.Tables() == old(db.Tables())
    {
      CompletingSettles(db.Tables(), opt, entry, payload, db.now);
      CompletionIsWrittenBack(db.Tables(), entry, payload);
      ok := db.Complete(entry, payload, db.now, commits);
    }

    // Load the job, ask for a payload, write it back; any failure on the way is recorded
    // against the entry and never stops the run.
    method Process(entry: Claimed, attempt: Attempt)
      requires Sound(db.Tables(), opt.target) && Workable(db.Tables(), opt, entry)
      modifies this, db
      ensures Settled(old(db.Tables()), db.Tables(), opt, entry.outboxId, enriched - old(enriched),
              deadLettered - old(deadLettered), old(outages) - outages)
      ensures Handled() == old(Handled()) + 1
      ensures enriched == old(enriched) + 1 <==>
                attempt.loaded && (attempt.first.Some? || attempt.second.Some?) && attempt.commits
      ensures enriched == old(enriched) + 1 ==>
                && outages == old(outages)
                && WrittenBack(old(db.Tables()), db.Tables(), entry,
                     if attempt.first.Some? then attempt.first.value else attempt.second.value)
      ensures enriched == old(enriched) + 1 || enriched == old(enriched)
      ensures enriched == old(enriched) ==>
                if outages < old(outages) then db.Tables() == old(db.Tables())
                else Recorded(old(db.Tables()), db.Tables(), opt, entry.outboxId,
                       if !attempt.loaded then "load job"
                       else if attempt.first.None? && attempt.second.None? then "enrich"
                       else "write back")
    {
      if !attempt.loaded {
        Fail(entry, "load job");
        return;
      }
      var payload := AskProvider(attempt);
      if payload.None? {
        Fail(entry, "enrich");
        return;
      }
      var written := WriteBack(entry, payload.value, attempt.commits);
      if !written {
        Fail(entry, "write back");
        return;
      }
      enriched := enriched + 1;
    }

    // Time may pass at any point, even more than a lease.
    method Wait(ghost todo: set<Claimed>)
      requires Sound(db.Tables(), opt.target) && Batch(db.Tables(), opt, todo)
      modifies db
      ensures Kept(old(db.Tables()), db.Tables(), opt.target)
      ensures db.outbox == old(db.outbox)
      ensures Batch(db.Tables(), opt, todo)
    {
      var micros: nat := *;
      ClockIsFree(db.Tables(), db.now + micros, opt, todo);
      db.Tick(micros);
    }

    // Lease the oldest claimable rows to this run, a full batch if there are that many.
    method ClaimSome() returns (batch: set<Claimed>)
      requires Sound(db.Tables(), opt.target)
      modifies db
      ensures BatchLeased(old(db.Tables()), db.Tables(), opt, batch)
      ensures Advanced(old(db.Tables()), db.Tables(), opt, 0, 0, 0, 0)
      ensures Batch(db.Tables(), opt, batch)
      ensures batch == {} && opt.batchSize > 0 ==> ClaimableEntries(db.Tables(), opt.leaseSeconds) == {}
    {
      ghost var was := db.Tables();
      ghost var picked: set<nat>;
      batch, picked := db.ClaimEnrichmentBatch(opt.leaseSeconds, opt.batchSize, {});
      OldestAreLeased(was, opt, picked);
      ClaimingIsFree(was, picked, opt);
      ClaimedRowsAreABatch(was, picked, opt);
      if batch == {} {
        NothingPicked(was, opt.leaseSeconds, picked);
      }
    }

    method Work(batch: set<Claimed>)
      requires Sound(db.Tables(), opt.target) && Batch(db.Tables(), opt, batch)
      modifies this, db
      ensures Advanced(old(db.Tables()), db.Tables(), opt, |batch|, enriched - old(enriched),
              deadLettered - old(deadLettered), old(outages) - outages)
      ensures Handled() == old(Handled()) + |batch|
    {
      var todo := batch;
      ghost var start, e, d, l := db.Tables(), enriched, deadLettered, outages;
      SameWorkIsKept(start, start, opt.target);
      while todo != {}
        invariant todo <= batch && Batch(db.Tables(), opt, todo)
        invariant Advanced(start, db.Tables(), opt, |batch| - |todo|, enriched - e, deadLettered - d, l - outages)
        invariant Handled() + |todo| == old(Handled()) + |batch|
        decreases todo
      {
        var entry :| entry in todo;
        WorkOn(entry, todo, start, |batch| - |todo|, e, d, l);
        todo := todo - {entry};
      }
    }

    // One more entry of the batch, given what the run did since `start`.
    method WorkOn(entry: Claimed, ghost todo: set<Claimed>, ghost start: Db, ghost n: int, ghost e: int,
                  ghost d: int, ghost l: int)
      requires Batch(db.Tables(), opt, todo) && entry in todo && IdsBounded(start, opt.target)
      requires Advanced(start, db.Tables(), opt, n, enriched - e, deadLettered - d, l - outages)
      modifies this, db
      ensures Advanced(start, db.Tables(), opt, n + 1, enriched - e, deadLettered - d, l - outages)
      ensures Batch(db.Tables(), opt, todo - {entry})
      ensures Handled() == old(Handled()) + 1
    {
      ghost var was, e1, d1, l1 := db.Tables(), enriched, deadLettered, outages;
      ProcessOneOf(entry, todo);
      OneMoreSettled(start, was, db.Tables(), opt, entry.outboxId, n, e1 - e, d1 - d, l - l1, enriched - e1,
          deadLettered - d1, l1 - outages);
    }

    method ProcessOneOf(entry: Claimed, ghost todo: set<Claimed>)
      requires Sound(db.Tables(), opt.target) && Batch(db.Tables(), opt, todo) && entry in todo
      modifies this, db
      ensures Settled(old(db.Tables()), db.Tables(), opt, entry.outboxId, enriched - old(enriched),
              deadLettered - old(deadLettered), old(outages) - outages)
      ensures Handled() == old(Handled()) + 1
      ensures Batch(db.Tables(), opt, todo - {entry})
    {
      var attempt: Attempt := *;
      Process(entry, attempt);
      RestOfBatch(old(db.Tables()), db.Tables(), opt, todo, entry, enriched - old(enriched),
          deadLettered - old(deadLettered), old(outages) - outages);
      ghost var mid := db.Tables();
      Wait(todo - {entry});
      KeptTwice(old(db.Tables()), mid, db.Tables(), opt.target);
    }

    // Enqueue, then drain until nothing is claimable; an error of either statement ends the run
    // early, with the tallies so far.
    method Drain() returns (ending: Ending, enqueued: nat, claimed: nat)
      requires Sound(db.Tables(), opt.target) && Handled() == 0
      modifies this, db
      ensures claimed == Handled()
      ensures |db.outbox| + enriched == |old(db.outbox)| + enqueued
      ensures |Dead(db.outbox)| == |Dead(old(db.outbox))| + deadLettered
      ensures ending.EnqueueFailed? ==> db.Tables() == old(db.Tables()) && claimed == 0
      ensures !ending.EnqueueFailed? ==> Exact(db.Tables(), opt.target)
      ensures !ending.EnqueueFailed? ==>
                claimed <= Budget(EnqueuePending(old(db.Tables()), 0, opt.target).outbox, opt.maxAttempts) +
                          old(outages)
      ensures ending.Drained? && opt.batchSize > 0 ==> ClaimableEntries(db.Tables(), opt.leaseSeconds) == {}
    {
      var reachable := Outcome();
      if !reachable {
        return EnqueueFailed, 0, 0;
      }
      enqueued := Enqueue();
      ending, claimed := DrainLoop();
    }

    method Enqueue() returns (enqueued: nat)
      requires Sound(db.Tables(), opt.target)
      modifies db
      ensures db.Tables() == EnqueuePending(old(db.Tables()), 0, opt.target)
      ensures Sound(db.Tables(), opt.target) && Exact(db.Tables(), opt.target)
      ensures |db.outbox| == |old(db.outbox)| + enqueued
      ensures Dead(db.outbox) == Dead(old(db.outbox))
    {
      EnqueuePendingQueuesTheRest(db.Tables(), 0, opt.target);
      EnqueueKeepsDead(db.Tables(), 0, opt.target);
      enqueued := db.EnqueuePendingJobs(opt.target);
    }

    method DrainLoop() returns (ending: Ending, claimed: nat)
      requires Sound(db.Tables(), opt.target)
      modifies this, db
      ensures Advanced(old(db.Tables()), db.Tables(), opt, claimed, enriched - old(enriched),
              deadLettered - old(deadLettered), old(outages) - outages)
      ensures Handled() == old(Handled()) + claimed
      ensures !ending.EnqueueFailed?
      ensures ending.Drained? && opt.batchSize > 0 ==> ClaimableEntries(db.Tables(), opt.leaseSeconds) == {}
    {
      claimed := 0;
      SameWorkIsKept(db.Tables(), db.Tables(), opt.target);
      while true
        invariant Advanced(old(db.Tables()), db.Tables(), opt, claimed, enriched - old(enriched),
                  deadLettered - old(deadLettered), old(outages) - outages)
        invariant Handled() == old(Handled()) + claimed
        decreases Fuel()
      {
        ghost var start := db.Tables();
        var reachable := Outcome();
        if !reachable {
          return ClaimFailed, claimed;
        }
        ghost var e, d, l := enriched, deadLettered, outages;
        var batch := Round();
        OneMoreRound(old(db.Tables()), start, db.Tables(), opt, claimed, e - old(enriched), d - old(deadLettered),
            old(outages) - l, batch, enriched - e, deadLettered - d, l - outages);
        if batch == 0 {
          return Drained, claimed;
        }
        claimed := claimed + batch;
      }
    }

    // One batch leased and worked through.
    method Round() returns (batch: nat)
      requires Sound(db.Tables(), opt.target)
      modifies this, db
      ensures Advanced(old(db.Tables()), db.Tables(), opt, batch, enriched - old(enriched),
              deadLettered - old(deadLettered), old(outages) - outages)
      ensures Handled() == old(Handled()) + batch
      ensures batch == 0 && opt.batchSize > 0 ==> ClaimableEntries(db.Tables(), opt.leaseSeconds) == {}
    {
      var entries := ClaimSome();
      batch := |entries|;
      if entries != {} {
        ghost var leased := db.Tables();
        Work(entries);
        KeptTwice(old(db.Tables()), leased, db.Tables(), opt.target);
      }
    }
  }

  lemma NothingPicked(db: Db, leaseSeconds: nat, picked: set<nat>)
    requires Tokens(db, picked) == {} && picked <= db.outbox.Keys
    ensures picked == {}
  {
    assert forall o :: o in picked ==> Claimed(o, db.outbox[o].jobId, db.outbox[o].target) in Tokens(db, picked);
  }

  lemma {:induction false} EnqueueKeepsDead(db: Db, from: nat, target: int)
    requires forall o :: o in db.outbox ==> o < db.nextEntry
    ensures Dead(EnqueuePending(db, from, target).outbox) == Dead(db.outbox)
    decreases db.nextJob - from
  {
    if from < db.nextJob {
      var next := EnqueueJob(db, from, target);
      assert Dead(next.outbox) == Dead(db.outbox);
      EnqueueKeepsDead(next, from + 1, target);
    }
  }

  lemma DeadAfterUpdate(rows: map<nat, Entry>, o: nat, row: Entry)
    requires o in rows && rows[o].stamp.failedAt.None?
    ensures |Dead(rows[o := row])| == |Dead(rows)| + (if row.stamp.failedAt.Some? then 1 else 0)
  {
    if row.stamp.failedAt.Some? {
      assert Dead(rows[o := row]) == Dead(rows) + {o};
    } else {
      assert Dead(rows[o := row]) == Dead(rows);
    }
  }
}
