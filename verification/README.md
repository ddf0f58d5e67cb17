# freehire: a verified model of the aggregator's hard parts

freehire crawls job postings, keeps them in Postgres, enriches them with a language model,
serves a faceted search and signs users in. This project models the parts of it where
correctness is not visible from one function, and proves what they are for. Run
`dafny verify dfyconfig.toml` to check it.

## What is modelled

**The shared tables and their workers.** `Catalogue.dfy` has the tables and every SQL
statement as a function; `Database.dfy` has the live tables, with one method per statement or
transaction proved to be that function. `Workers.dfy` lets any number of ingest runs,
enrichment workers, Telegram extractors, sweeps and liveness passes interleave statement by
statement, including workers that report long after their lease expired. Over every run:
`Outbox.dfy` proves the queue holds exactly the jobs not yet enriched to the version in use;
`Queues.dfy` the lease, retry and dead-letter protocol of both queues; `Lifecycle.dfy` when jobs
are closed and reopened, and what the strike counter means; `SlugIntegrity.dfy` that public slugs
stay unique; `Provenance.dfy` what the tables hold: whose title, company and enrichment each row has.
`Upgrades.dfy` is the queue while several schema versions are about. `EnrichRunner.dfy` proves that
the drain loop ends although leases expire under it, and that its tallies conserve rows. `Crawl.dfy`
and `ExtractRunner.dfy` are the Telegram crawl and extraction, `PostRunSweep.dfy` the sweep after an
ingest run, `Liveness.dfy` the liveness pass with its eight goroutines. `ReslugRace.dfy` lets the
reslug worker read and write among all of them.

**Search, end to end.** `Numbers.dfy` is how JavaScript prints and reads numbers (sections 6.1.6.1.20
and 7.1.4.1 of ECMA-262). `FacetParams.dfy` and `FilterStore.dfy` are the browser's filters, their
URL form and the store that mirrors one in the other. `SearchFilter.dfy` writes filter fragments
and says what the search engine reads in them. `JobIndex.dfy` is the document the index stores of
a job. `SearchHandler.dfy` compiles a query and proves that the jobs found are those whose own
columns the user's filters want, for every order in which Go yields a map, and exactly when that holds.

**Concurrency.** `FanOut.dfy` (the bounded detail fetch) and `Pipeline.dfy` (the ingest run, its
mutex and its sweep selection) are refined to sequential specifications under every schedule.
`OAuth.dfy` is account resolution under racing transactions, unique keys and blocking inserts.

**Scanners and printers.** `Devalue.dfy` (memoised payload resolution against plain
unfolding, and the unfolding against the payload, path by path), `JsonRepair.dfy` (control characters
in model output; section 7 of RFC 8259), `TextToHtml.dfy` (with a parser that inverts it),
`SkillTag.dfy`, `Slug.dfy`, `Decimal.dfy`.

**Derived data.** `KeysetScan.dfy` (keyset paging beside concurrent writers, and the search index
rebuilt that way), `Backfills.dfy` (slugs, companies, locations), `Pagination.dfy`.

`Text.dfy`, `Sequences.dfy`, `Ordering.dfy`, `Counting.dfy`, `Wrappers.dfy` and `Lease.dfy` are shared.

Programs that loop over mutable state are methods proved against specification functions; the
goroutine pools and the account race are state machines whose scheduler may take any enabled
step. Time is counted in microseconds and only moves forward; every clock is the database's.
Network answers, model answers, map orders, row locks and lost writes are arbitrary.

## What the proofs brought out

- A re-ingest reopens a job but keeps its strikes (`internal/db/jobs.sql.go:554-592`), so a single
  further Expired verdict closes it again: exactly when it had a strike at the time
  (`Lifecycle.ReopenedClosesAtOneStrike`; `Lifecycle.OneMoreVerdictCloses` is one such run).
- A write-back stores the version of its own queue row (`internal/db/jobs.sql.go:450-457`). After a
  schema upgrade a late worker can set a job back to the old version with no row to bring it up again;
  `Upgrades.UpgradeSetBack` is such a run, and `Upgrades.LeftOutExactly` says over every run which jobs
  that leaves out until the next bulk enqueue.
- A blank facet value (`?skills=`) and a minimum salary that is no whole number of 64 bits (12.5,
  1e20, Infinity) survive in the URL and in the browser, but the server drops them.
  `SearchHandler.FaithfulExactlyWhenExpressible` shows that these are the only ways in which the
  search departs from the filters.
- The index is promised to hold only open jobs (`cmd/reindex/main.go:89-91`). A rebuild never
  removes the document of a row that no longer exists; `KeysetScan.ReindexLeavesTheOpenJobs` says
  the promise holds if and only if there was none. No statement deletes a job and only a rebuild
  writes documents, so only a deletion by hand can leave one (`SlugIntegrity.NoJobIsDeleted`,
  `KeysetScan.RebuildsAddNoStrangers`).
- Orphan deletion keeps a company with an empty slug while some job has no company; no
  worker ever creates one (`Backfills.Reslug`, `SlugIntegrity.NoEmptyCompany`).
- The repair leaves a raw control character right after a backslash alone. That loses nothing:
  strict and lenient readers both refuse it, so `JsonRepair.StrictReadsTheRepaired` needs no
  condition.
- External ids are namespaced so that two boards of a platform cannot collide
  (`internal/pipeline/pipeline.go:173-180`). They can, but only when a board's name
  and the other board's id both have a colon, as in `acme` with `eu:1` and `acme:eu` with `1`;
  `Pipeline.ColonsCanCollide` is this pair and `Pipeline.BoardsCollideExactly` the exact condition.
- `fetchDetails` with no workers blocks for ever as soon as there is a posting
  (`FanOut.NeedsAWorker`).
- A sign-in that loses a race for its email to a different identity is refused rather than linked.
  `OAuth.RefusedExactlyWhenUnknown` says when that can happen, and `OAuth.TryingAgainSucceeds` that
  it cannot happen twice.
- A verified email of white space only passes the check before it is trimmed, and keys the account
  with the empty email (`OAuth.SpaceMakesAnEmptyEmail`); `OAuth.CreatedAccountsHaveAnEmail` has the
  exact condition, and `OAuth.BlankEmailsShareAnAccount` what it leads to: everybody who comes with
  such an email is linked to one account.
- A second reslug run is promised to rewrite nothing, the slugs being a function of immutable
  fields (`cmd/reslug/main.go:1-6`, `53-57`). But an upsert changes title and company, and leaves the
  public slug alone. No write fails for it (`ReslugRace.EveryWriteIsAccepted`); a row renamed after
  it was read is left out of date, written (`ReslugRace.RenamedMeanwhile`) or skipped
  (`ReslugRace.RenamedAfterwards`). `ReslugRace.HandledIsUpToDateExactly` says over every run when a
  handled row is up to date, and `ReslugRace.NextPageSkipsExactly` that a second run leaves it alone
  exactly then.

## Model

| member | source | states |
|---|---|---|
| Lease.ClaimKeepsConsistent | internal/db/enrichment.sql.go:14-30 | claiming a claimable row keeps its stamp consistent with its claim history: any two claims are more than one lease apart, claimed_at is the last one |
| Lease.FailKeepsConsistent | internal/db/enrichment.sql.go:95-105 | recording a failure against an open claim keeps attempts no larger than the claims made and failed_at set exactly at the retry cap |
| Queues.RunKeepsHealthy | internal/db/enrichment.sql.go:14-30 | over every run of any number of workers, stale ones included, every outbox row and every post row stays consistent with its claim history |
| Queues.ClaimsAreALeaseApart | internal/db/enrichment.sql.go:14-30 | any two claims of one outbox row are more than one lease apart, over every run |
| Queues.DeadLetteredExactlyAtTheCap | internal/db/enrichment.sql.go:95-105 | a row is dead-lettered if and only if its attempts reached the cap, and has no more attempts than claims |
| Queues.PostsFollowTheSameProtocol | internal/db/telegram_posts.sql.go:14-31 | the same three guarantees for every Telegram post |
| Queues.RetiredIsNeverClaimedAgain | internal/db/enrichment.sql.go:14-30 | an outbox row that is dead-lettered or gone gets no further claim in any continuation |
| Queues.RetiredPostIsNeverClaimedAgain | internal/db/telegram_posts.sql.go:14-31 | a post that is dead-lettered or extracted gets no further claim in any continuation |
| Queues.ClaimableExactly | internal/db/enrichment.sql.go:14-30 | over every run: a row may be claimed if and only if it has attempts left and every claim it ever had is older than the lease, so the work of a dead worker comes back |
| Queues.ClaimablePostExactly | internal/db/telegram_posts.sql.go:14-31 | the same for a post, which must not be extracted either |
| Outbox.EnqueueJobIsKept | internal/db/jobs.sql.go:55-62 | the gated insert queues the job exactly when it is pending and not yet queued, and disturbs nothing else |
| Outbox.EnqueuePendingQueuesTheRest | internal/db/enrichment.sql.go:76-82 | the bulk insert queues exactly the pending jobs that lacked a row |
| Outbox.SaveIsKept | cmd/ingest/store.go:28-65 | saving a posting keeps the queue exact, and queues precisely the saved job, if it is not enriched yet |
| Outbox.CompleteIsKept | cmd/enrich/store.go:66-86 | the write-back transaction keeps the queue exact, even from a worker whose row another worker already completed |
| Outbox.FailIsKept | internal/db/enrichment.sql.go:95-105 | recording a failure leaves the queued jobs and the pending jobs as they are |
| Outbox.StepKeepsSound | internal/db/jobs.sql.go:450-457 | no step of any worker queues a finished job, and every step keeps an exact queue exact |
| Outbox.RunKeepsSound | cmd/enrich/store.go:66-86 | the same over every run |
| Outbox.OutboxExactAfterBulkEnqueue | internal/db/enrichment.sql.go:76-82 | after one bulk enqueue a job has a queue row if and only if it is not enriched to the version in use, whatever the workers then do |
| Outbox.OutboxExactFromEmpty | cmd/ingest/store.go:28-65 | from an empty catalogue the queue is exact at every moment |
| Upgrades.LeftOutExactly | internal/db/jobs.sql.go:450-457 | over every run, with rows and claims of any versions about: a pending job lacks a row exactly when a write-back of an older version set it back, or it lacked one from the start, and no bulk enqueue, upsert or newer write-back came after |
| Upgrades.LeftOutAfterBulkEnqueue | internal/db/enrichment.sql.go:76-82 | so from a bulk enqueue on exactly when an older write-back set it back for good |
| Upgrades.NothingOlderSetsBack | cmd/enrich/store.go:66-86 | which ends with the older rows and claims: once there are none, no job is set back |
| Upgrades.UpgradeSetBack | internal/db/jobs.sql.go:450-457 | one such run from empty tables: claimed, upgraded, enriched to the new version, then the first worker finishes; the job is back at the old version and in no queue |
| SlugIntegrity.SlugsAreAlwaysUnique | internal/db/jobs.sql.go:554-592 | the invariant the backfills start from: the unique key and the identity column hold over every run |
| SlugIntegrity.NoEmptyCompany | internal/db/jobs.sql.go:554-592 | over every run the companies table has no empty slug |
| Provenance.RowsAreTheLastUpserts | internal/db/jobs.sql.go:554-592 | over every run: a job has the public slug of the first posting upserted under its key and the other columns of the last one |
| Provenance.EveryUpsertHasItsRow | internal/db/jobs.sql.go:554-592 | over every run: a key has a row if and only if a posting with it was upserted, and no key has two |
| Provenance.CompaniesAreThoseUpserted | internal/db/jobs.sql.go:554-562 | over every run: the companies are exactly the non-empty company slugs of the postings upserted, by ingest or from Telegram, each under the name it last came with |
| Provenance.RefusedExactly | internal/db/jobs.sql.go:554-592 | a posting is refused if and only if no job has its key and another one has its public slug; otherwise it is upserted |
| Provenance.EnrichmentIsTheLastWriteBack | internal/db/jobs.sql.go:450-457 | over every run: the enrichment stored for a job, its time and its version are those of its last write-back, or {}, none and 0 if it had none |
| Provenance.QueuedUntilWrittenBack | cmd/enrich/store.go:66-86 | over every run from empty tables: a job has a queue row if and only if it was never written back |
| Provenance.PostsAreTheFirstCrawls | internal/db/telegram_posts.sql.go:76-95 | over every run: a post has the text and time it was crawled with first, and was extracted when its last successful extraction says so, or else as it was crawled |
| Lifecycle.LastSeenIsTheLastUpsert | internal/db/jobs.sql.go:554-592 | over every history last_seen_at is the time of the last upsert of the job |
| Lifecycle.SweepClosesExactlyTheUnseen | internal/db/jobs.sql.go:15-22 | a sweep closes exactly the open jobs of its source that had no upsert since the cutoff |
| Lifecycle.RunNeverClosesWhatItSaved | cmd/ingest/main.go:75-92 | a run no longer than 48 hours never closes a job it saved, with the cutoff taken at its end, however long its sweeps then take and whatever else happens meanwhile |
| Lifecycle.ClosersNeverShareASource | cmd/liveness/main.go:51-62 | a job is closed only by the sweep of its own registered provider or, for any other source, by an Expired probe |
| Lifecycle.OnlyAnUpsertReopens | internal/db/jobs.sql.go:554-592 | outside the two closers, an upsert opens its jobs and no other step changes whether a job is open |
| Lifecycle.StrikesAreTheTrailingExpired | internal/db/jobs.sql.go:356-394 | over every history the strike counter is the number of Expired verdicts since the last Live one, upserts in between or not |
| Lifecycle.ProbeClosesAtTwoStrikes | cmd/liveness/main.go:89-116 | a probe closes a job exactly when, this verdict included, that count is at least two |
| Lifecycle.VerdictCountsStrikes | internal/db/jobs.sql.go:356-394 | what the two strike statements do to a probed row: its counter becomes the trailing count with this verdict, and no other row moves |
| Lifecycle.ReopenedClosesAtOneStrike | internal/db/jobs.sql.go:554-592 | after an upsert opened a job, its next Expired verdict closes it if and only if it had a strike when it was upserted, whatever happens in between |
| Lifecycle.OneMoreVerdictCloses | cmd/liveness/main.go:89-116 | one such run from empty tables: Expired, Expired, an ingest, Expired |
| Lifecycle.RunKeepsLives | internal/db/jobs.sql.go:404-409 | the invariant behind these: rows agree with the upsert and verdict history, and the unprobed part of a liveness snapshot stays current |
| DatabaseServer.Database.UpsertJob | internal/db/jobs.sql.go:554-592 | inserts or refreshes the job, and with it its company, or fails and changes nothing when the public slug is taken; the Provenance rows say of this statement what the tables then hold |
| DatabaseServer.Database.SetJobEnrichment | internal/db/jobs.sql.go:450-457 | writes payload, time and version of that job only; Provenance.EnrichmentIsTheLastWriteBack is about this statement |
| DatabaseServer.Database.CloseUnseenJobs | internal/db/jobs.sql.go:15-22 | closes and counts exactly the unseen open jobs of the source |
| PostRunSweep.SweepProviders | cmd/ingest/main.go:75-92 | one cutoff for all providers: a finished loop closed and counted exactly the stale open jobs of the given sources; an interrupted one those of some of them |
| PostRunSweep.SweepAfterRun | cmd/ingest/main.go:66-92 | only providers with a successful save are swept, all of them when nothing fails, and no other job is touched |
| Liveness.ClosesWithAStrike | internal/db/jobs.sql.go:356-366 | an Expired verdict closes a candidate exactly when the snapshot showed a strike, whatever the other workers did since |
| Liveness.OthersLeaveThePass | cmd/liveness/main.go:51-62 | no step of another worker disturbs the candidates not yet probed, their strikes or their openness |
| Liveness.OneMoreProbed | cmd/liveness/main.go:89-116 | recording a verdict, or clearing the strikes, keeps what the pass knows: one verdict for each candidate done |
| Liveness.Pass.Run | cmd/liveness/main.go:44-117 | beside the other workers: every candidate of the snapshot is probed once, at no moment of the schedule more than eight at a time, and gets exactly one verdict more, but for those whose verdict had to be written and whose write failed; closed and struck count the Expired ones with and without an earlier strike; without providers nothing happens |
| DatabaseServer.Database.EnqueueJobEnrichment | internal/db/jobs.sql.go:55-62 | inserts the queue row under its version gate, once |
| DatabaseServer.Database.EnqueuePendingJobs | internal/db/enrichment.sql.go:76-82 | the bulk insert, with the number of rows it added |
| DatabaseServer.Database.ClaimEnrichmentBatch | internal/db/enrichment.sql.go:14-30 | leases the oldest claimable unlocked rows, at most a batch, and returns them |
| DatabaseServer.Database.RecordEnrichmentFailure | internal/db/enrichment.sql.go:95-105 | counts the attempt and reports whether the row is now dead-lettered; a missing row is an error |
| DatabaseServer.Database.DeleteEnrichmentEntry | internal/db/enrichment.sql.go:66-69 | removes that row only |
| DatabaseServer.Database.ClaimTelegramPosts | internal/db/telegram_posts.sql.go:14-31 | leases posts no claimable unlocked post is older than, at most a batch |
| DatabaseServer.Database.MarkTelegramPostExtracted | internal/db/telegram_posts.sql.go:110-114 | marks that post only |
| DatabaseServer.Database.RecordTelegramPostFailure | internal/db/telegram_posts.sql.go:128-138 | the failure statement of the post queue |
| DatabaseServer.Database.Save | cmd/ingest/store.go:28-65 | upsert and enqueue together, or nothing; the Provenance and Outbox rows are about this transaction |
| DatabaseServer.Database.Complete | cmd/enrich/store.go:66-86 | payload and removal of the queue row together, or nothing when the commit fails; Provenance.EnrichmentIsTheLastWriteBack is about this transaction |
| DatabaseServer.Database.CompletePost | cmd/tg-extract/store.go:71-119 | all jobs of a post and its extracted mark together, or nothing; the Provenance and ExtractRunner rows are about this transaction |
| EnrichRunner.Run.Process | internal/enrich/runner.go:97-128 | enriched exactly when the job loads, one of two answers is valid and the commit goes through; then the first valid answer is the job's enrichment and the row is gone, with every other column and row as it was; otherwise the first failing step is recorded against the entry, or its record is lost; exactly one tally grows |
| EnrichRunner.Run.ClaimSome | internal/db/enrichment.sql.go:14-30 | leases the oldest rows that are live and under no lease, a full batch of them or all, and no others |
| EnrichRunner.Run.Fail | internal/enrich/runner.go:152-161 | a recorded failure is tallied as dead-lettered exactly when the row is; a lost one as failed |
| EnrichRunner.Run.DrainLoop | internal/enrich/runner.go:67-82 | the loop ends although leases may expire meanwhile; claims equal the tallies, and a finished loop leaves nothing claimable |
| EnrichRunner.Run.Drain | internal/enrich/runner.go:60-83 | rows before plus enqueued equal rows after plus enriched; new dead rows equal the dead-letter tally; a failed enqueue ends the run with nothing done; otherwise the claims are bounded by the retry budget plus the lost failure records and the queue is exact afterwards |
| EnrichRunner.FailingSettles | internal/db/enrichment.sql.go:95-105 | a recorded failure strictly shrinks the sum of remaining attempts |
| EnrichRunner.CompletingSettles | cmd/enrich/store.go:66-86 | a completion strictly shrinks it too, and removes exactly one row |
| EnrichRunner.ClaimingIsFree | internal/db/enrichment.sql.go:14-30 | claiming leaves that sum and every count alone |
| ExtractRunner.Run.Fail | cmd/tg-extract/store.go:180-188 | one attempt more and dead-lettered exactly at the cap, or nothing when the store is unreachable; counted as failed either way |
| ExtractRunner.Run.Complete | cmd/tg-extract/store.go:71-178 | the jobs and the extracted mark, counted, or nothing at all |
| ExtractRunner.Run.Process | internal/telegram/extract.go:99-137 | links first, the model only when they gave no job; the post ends extracted now with exactly those jobs, or with one attempt more and that error; only a store error stops the run |
| ExtractRunner.Run.RunOnce | internal/telegram/extract.go:91-139 | a full batch of the oldest claimable posts is leased; a finished run extracted exactly those that can be read and failed the others once, and its three tallies are their numbers and that of the vacancies written; every other post is untouched; an interrupted run did so for some of them |
| Crawl.Run.StorePost | internal/db/telegram_posts.sql.go:76-95 | a new post is stored once, pending or done; a stored one is left as it is and not counted |
| Crawl.Run.CrawlAll | internal/telegram/crawl.go:45-88 | every post of a channel that did not fail is in the table once, with its text and time, fresh, and done exactly if it is no vacancy; stored and filtered count the new pending and the new done posts; crawling again what is stored changes nothing |
| FacetParams.KeysNeverClash | web/src/lib/filters.svelte.ts:53-71 | a query key belongs to at most one parameter, although work_mode looks like a match-all marker |
| FacetParams.ReadFacet | web/src/lib/filters.svelte.ts:57-67 | a facet's three keys read back exactly its own state from the whole query |
| FacetParams.ReadOthers | web/src/lib/filters.svelte.ts:55-72 | the other parameters read back too, and those the form never writes are absent |
| FacetParams.RoundTrip | web/src/lib/filters.svelte.ts:53-91 | reading the query of a filter state gives its canonical form |
| FacetParams.CanonicalHasTheSameUrl | web/src/lib/filters.svelte.ts:53-91 | the canonical form has the same query and is its own canonical form |
| Filters.FiltersToParams | web/src/lib/filters.svelte.ts:53-72 | the loop writes, facet by facet, the query form used in all the lemmas |
| Filters.FiltersFromParams | web/src/lib/filters.svelte.ts:75-91 | the loop reads the filter state used in all the lemmas: an excluded list wins over an included one, a missing or unreadable parameter is off |
| Numbers.PrintedIsRead | web/src/lib/filters.svelte.ts:69-87 | every number is read back from the text it is printed as, in each of its four forms |
| Numbers.AtoiReadsPrinted | internal/handler/search.go:182-188 | the server reads a printed number if and only if it is a whole number of 64 bits, and then reads its value |
| Numbers.LargeIsLost | internal/handler/search.go:182-188 | whole numbers of twenty digits or more are read back by the browser and never by the server |
| Numbers.FormOfPrinted | web/src/lib/filters.svelte.ts:69-70 | an exponent is printed exactly from 1e21 on and below 1e-6, and otherwise a point exactly where there is a fraction |
| Numbers.FractionsAreTheWorth | web/src/lib/filters.svelte.ts:86-87 | a number is worth its digits, shifted by its point |
| Filters.FilterStore.constructor | web/src/lib/filters.svelte.ts:109-111 | starts from what the initial query says |
| Filters.FilterStore.SetQuery | web/src/lib/filters.svelte.ts:121-124 | the mutation, mirrored into the URL |
| Filters.FilterStore.SetVisa | web/src/lib/filters.svelte.ts:126-129 | the mutation, mirrored into the URL |
| Filters.FilterStore.SetSalaryMin | web/src/lib/filters.svelte.ts:131-134 | the mutation, mirrored into the URL |
| Filters.FilterStore.SetSort | web/src/lib/filters.svelte.ts:136-139 | the mutation, mirrored into the URL |
| Filters.FilterStore.SetMatchAll | web/src/lib/filters.svelte.ts:142-144 | the mutation, mirrored into the URL |
| Filters.FilterStore.Toggle | web/src/lib/filters.svelte.ts:147-151 | adds an absent value, removes every copy of a present one |
| Filters.FilterStore.Add | web/src/lib/filters.svelte.ts:154-159 | appends the trimmed token, and does nothing, not even to the URL, for a blank or a duplicate |
| Filters.FilterStore.Remove | web/src/lib/filters.svelte.ts:161-164 | removes every copy of the value |
| Filters.FilterStore.ClearFacet | web/src/lib/filters.svelte.ts:167-169 | empties the facet |
| Filters.FilterStore.SetExclude | web/src/lib/filters.svelte.ts:172-174 | the mutation, mirrored into the URL |
| Filters.FilterStore.Clear | web/src/lib/filters.svelte.ts:176-179 | empties every filter |
| Filters.FilterStore.SyncFromUrl | web/src/lib/filters.svelte.ts:184-188 | re-reads the filters only when the URL is not theirs |
| Filters.SyncIsANoOp | web/src/lib/filters.svelte.ts:104-203 | after any sequence of mutations and navigations, following the URL again changes nothing |
| Filters.ReloadRestoresTheFilters | web/src/lib/filters.svelte.ts:184-203 | after a mutation the URL restores the canonical filters, whose URL is the same |
| Filters.ToggleUndoes | web/src/lib/filters.svelte.ts:147-151 | toggling an absent value twice restores the facet; toggling a present one removes it and nothing else |
| Filters.FacetMutationsAreMeant | web/src/lib/filters.svelte.ts:142-174 | a facet mutation does what it says to that facet, to nothing else, and the URL follows; adding a blank or a present token changes nothing |
| Filters.DroppingIsPiecewise | web/src/lib/filters.svelte.ts:147-164 | removing a value takes every copy of it and keeps the others in order |
| SearchFilter.Quote | internal/search/filter.go:59-71 | the loop escapes every quote and backslash |
| SearchFilter.Filter | internal/search/filter.go:44-55 | drops empty groups and answers no filter when none is left |
| SearchFilter.UnquotedEscaped | internal/search/filter.go:59-71 | reading an escaped value up to its closing quote gives the value back, whatever characters it has |
| SearchFilter.EqIsRead | internal/search/filter.go:15-17 | the engine reads an equality fragment as that attribute and that value; no value can add logic of its own |
| SearchFilter.NeqIsRead | internal/search/filter.go:21-23 | the same for an inequality |
| SearchFilter.EqBoolIsRead | internal/search/filter.go:27-29 | the same for a boolean |
| SearchFilter.GteIsRead | internal/search/filter.go:32-34 | the same for a lower bound |
| SearchFilter.LteIsRead | internal/search/filter.go:37-39 | the same for an upper bound |
| SearchHandler.QueryValues | internal/handler/search.go:168-177 | the non-empty values of a repeated parameter, in order |
| SearchHandler.AndFacet | internal/handler/search.go:129-147 | one facet narrows the filter to the documents its included, match-all and excluded values ask for; a parameter is a name without spaces, as all of them are |
| SearchHandler.BuildSearchFilter | internal/handler/search.go:126-165 | for every order of the facet map the filter selects exactly the documents the query asks for: the document of a job exactly when the job's own columns, its row's and its enrichment's, suit each of the seventeen facets, the visa flag and the three bounds |
| SearchHandler.QueryMeansTheFilters | web/src/lib/filters.svelte.ts:53-72 | on every document the query of a filter state asks for what the filters mean, once blank values and a salary that is no whole number of 64 bits are dropped |
| SearchHandler.DocumentsAreTheirJobs | internal/handler/search.go:37-58 | a query asks for a job's document if and only if the columns of the job and of its enrichment suit the query, each facet by its name |
| SearchHandler.DocumentsAreWanted | internal/search/document.go:21-32 | the filters mean a job's document if and only if they want the job's columns |
| JobIndex.MergeSets | internal/jobview/jobview.go:107-127 | the lower-cased values of both lists, strictly ascending |
| JobIndex.FromRow | internal/jobview/jobview.go:61-105 | countries, regions and skills are the union of row and enrichment, the work mode is the enrichment's if it has one, and the enrichment served has none of them |
| SearchHandler.Search | internal/handler/search.go:126-165 | browser filters to selected jobs, end to end: a job's document is selected if and only if the job's own columns are what the filters want, blank values and a salary that is no whole number of 64 bits dropped, for every order of the facet map |
| SearchHandler.FaithfulExactlyWhenExpressible | internal/handler/search.go:168-188 | the search finds what the filters mean on every document if and only if no facet value is blank and the salary, if any, is a whole number of 64 bits |
| SearchHandler.LargeSalaryIsLost | internal/handler/search.go:182-188 | one such input: salary_min=100000000000000000000 is a filter in the browser and none on the server |
| Devalue.Hydration.Hydrate | internal/sources/huntflow.go:137-191 | the memoised resolution of a node equals its plain unfolding, and decodes only nodes never decoded before |
| Devalue.UnflattenPayload | internal/sources/huntflow.go:132-193 | for every payload without a reference cycle: an error exactly when a node that is not JSON is reachable; otherwise following any path of keys and indices into the value gives what the same path of references reaches in the payload, its literal scalar at the end; and no node is decoded twice |
| Devalue.UnfoldingMirrors | internal/sources/huntflow.go:132-193 | the path-by-path correspondence: objects have the node's keys, arrays its length, wrappers are what they wrap, and every other node stands for itself |
| Devalue.UnfoldingFails | internal/sources/huntflow.go:137-193 | resolving a node fails if and only if references lead from it to a node that is not JSON |
| Devalue.UnfoldIgnoresRank | internal/sources/huntflow.go:132-193 | the unfolding does not depend on the ranking that witnesses the absence of cycles |
| Devalue.EndsExactly | internal/sources/huntflow.go:137-192 | counting nested calls, resolving a node ends if and only if no reference cycle is ahead of it, and then never nests deeper than there are nodes |
| Devalue.FindVacancy | internal/sources/huntflow.go:207-228 | finds a map with body and position if and only if the value holds one at some depth, for every map order; the outermost wins |
| Devalue.UnfoldingHolds | internal/sources/huntflow.go:132-205 | the unfolding of a node holds a vacancy if and only if some node reachable from it by references is one, or holds one literally |
| Devalue.DetailVacancy | internal/sources/huntflow.go:77-84 | end to end: a vacancy comes out of an acyclic payload if and only if some path of references from its first node reaches one with body and position, and it is what that path of the payload holds |
| FanOut.SomeStepIsEnabled | internal/sources/source.go:124-140 | with a worker, until the caller is released some goroutine or the spawning loop can go on |
| FanOut.EverySchedule | internal/sources/source.go:124-148 | every schedule keeps the fetches in flight within the bound, ends within five steps a posting and one more, stops only when all is done, and then has the order-preserving filter-map |
| FanOut.NeedsAWorker | internal/sources/source.go:124-140 | some schedule finishes if and only if there is a worker or nothing to fetch |
| FanOut.FetchDetails | internal/sources/source.go:124-148 | under any scheduling the result is the order-preserving filter-map of the postings |
| FanOut.FilterMapIsInOrder | internal/sources/source.go:141-148 | the filter-map is the fetched jobs at strictly ascending positions, which are exactly those whose fetch gave one |
| Pipeline.IngestBoard | internal/pipeline/pipeline.go:138-171 | an unknown provider or a failed fetch counts one failure; otherwise every posting counts as ingested or skipped |
| Pipeline.BoardsCollideExactly | internal/pipeline/pipeline.go:173-180 | two postings share an external id if and only if they are one posting of one board, or one board name is the other, a colon and more, and the other id starts with that more and a colon |
| Pipeline.WithoutColonsNoCollision | internal/pipeline/pipeline.go:173-180 | so they never share one as long as the board names, or the ids, have no colon |
| Pipeline.StepKeepsExclusive | internal/pipeline/pipeline.go:120-126 | only the holder of the mutex is between reading and writing its provider's entry, so what it read is current |
| Pipeline.EverySchedule | internal/pipeline/pipeline.go:93-132 | every schedule works on at most eight boards at once, ends, cannot deadlock, and always has the sequential sums of the boards recorded so far |
| Pipeline.Run | internal/pipeline/pipeline.go:93-132 | the statistics are the sequential sums of the boards recorded, which are all boards unless the run was cancelled |
| Pipeline.TallyIsTheShare | internal/pipeline/pipeline.go:120-126 | a provider's entry is the sum over its own boards, and exists exactly when one of them was recorded |
| Pipeline.EveryPostingIsCounted | internal/pipeline/pipeline.go:138-171 | for any set of providers ingested plus skipped equals the postings fetched, failed equals the boards that gave none, and something was ingested exactly when a save succeeded |
| Pipeline.StatsAreExact | internal/pipeline/pipeline.go:55-63 | the same for one provider's entry in the map; only a registered provider can have ingested anything |
| Pipeline.Total | internal/pipeline/pipeline.go:71-79 | folding the map in any order gives the sums over all recorded boards |
| Pipeline.SweepableProviders | cmd/ingest/main.go:97-117 | ascending, and exactly the providers that ingested something |
| Pipeline.RunAndSelect | cmd/ingest/main.go:66-92 | the providers swept after a run are exactly those of which some save succeeded, all registered; a cancelled run sweeps none |
| JsonRepair.RepairJsonControlChars | internal/telegram/llm.go:74-105 | the two-flag loop computes the repaired text |
| JsonRepair.RepairPreservesMeaning | internal/telegram/llm.go:74-105 | from every reader state, strict decoding of the repaired text equals lenient decoding of the original, failures included |
| JsonRepair.StrictReadsTheRepaired | internal/telegram/llm.go:74-105 | the same for whole documents, with no condition on the input |
| JsonRepair.RepairKeepsTheStateEverywhere | internal/telegram/llm.go:74-105 | at every input position the output so far leaves a scanner in the same state |
| JsonRepair.CleanTextsAreKept | internal/telegram/llm.go:74-105 | a text is left alone if and only if it has no raw control character inside a string, other than right after a backslash |
| JsonRepair.RepairIsIdempotent | internal/telegram/llm.go:74-105 | repairing twice is repairing once |
| JsonRepair.ValidPayloadIsKept | internal/telegram/llm.go:68-73 | a document the strict decoder accepts is not touched |
| TextToHtml.TextToHtml | internal/telegram/html.go:13-31 | the nested loops render the kept lines grouped by paragraph |
| TextToHtml.ParsingRecoversTheLines | internal/telegram/html.go:13-31 | parsing the output, tags and entities, recovers the trimmed non-empty lines of each non-empty paragraph |
| TextToHtml.NoLineIsLost | internal/telegram/html.go:15-23 | together these are all trimmed non-empty lines of the text, in order |
| TextToHtml.LinesJoinBack | internal/telegram/html.go:18-20 | the lines joined by newlines are the text, and none holds a newline |
| TextToHtml.ParagraphsJoinBack | internal/telegram/html.go:15-17 | the paragraphs joined by blank lines are the text |
| TextToHtml.ParagraphsAreWhole | internal/telegram/html.go:15-17 | no paragraph holds a blank line, and each is cut at the first chance |
| TextToHtml.KeptPieceByPiece | internal/telegram/html.go:18-24 | a line is kept trimmed unless it is blank, a paragraph is kept unless all its lines are blank |
| TextToHtml.RenderedHasOnlyTags | internal/telegram/html.go:26-28 | every < in the output starts <p>, <br> or </p> |
| SkillTag.ContainsTerm | internal/skilltag/skilltag.go:63-76 | true if and only if the text can be cut around the term, overlapping occurrences included, with no letter, digit or dot right before and no letter or digit right after |
| Text.WordsStandAlone | internal/skilltag/skilltag.go:35-37 | a token is listed if and only if it occurs with no word character on either side |
| SkillTag.Parse | internal/skilltag/skilltag.go:42-57 | strictly ascending, and exactly the canonical names of the phrases and words that stand alone |
| SkillTag.NormalizeIsIdempotent | internal/skilltag/skilltag.go:30-32 | stripping tags, lower-casing and trimming twice is doing it once |
| SkillTag.NormalTextsAreTheFixedPoints | internal/skilltag/skilltag.go:30-32 | the normal texts, without tag, capital or outer space, are exactly what normalising gives and leaves alone |
| SkillTag.FirstTagIsStripped | internal/skilltag/skilltag.go:25-31 | each tag, up to the next >, becomes one space |
| SkillTag.UntaggedTextIsLowered | internal/skilltag/skilltag.go:30-32 | the rest of the text is kept, lower-cased, but for outer space |
| Text.TrimTakesWhiteSpace | internal/skilltag/skilltag.go:30-32 | trimming takes away the Unicode white space around a text and nothing else |
| Ordering.BeforeIsLexicographic | internal/skilltag/skilltag.go:104-116 | the order of the tags is lexicographic |
| Slugs.Slug | internal/normalize/slug.go:23-38 | for every name: its ASCII letters and digits, lower-cased and in order, with one hyphen between two of them exactly when something else stood between them, and none at the ends |
| Slugs.SlugIsSpelled | internal/normalize/slug.go:23-38 | the same of the joined words, which is what the other lemmas are about |
| Slugs.PositionsAreExact | internal/normalize/slug.go:29-30 | the positions spelled are all those of an ASCII letter or digit, ascending |
| Slugs.SlugKeepsTheLetters | internal/normalize/slug.go:29-30 | without its hyphens a slug is the letters and digits of the name, lower-cased |
| Slugs.SlugIsNormal | internal/normalize/slug.go:11-22 | a slug is lower-case letters and digits in groups separated by single hyphens |
| Slugs.FixedPointsAreTheSlugs | internal/normalize/slug.go:23-38 | a text is its own slug if and only if it is in that form; slugging is idempotent |
| Slugs.JobSlug | internal/normalize/job_slug.go:23-33 | title slug, company slug and short code in that order, each of the first two followed by a hyphen unless it is empty |
| Slugs.JobSlugEndsInItsCode | internal/normalize/job_slug.go:14-33 | never empty, in slug form, and always ending in the eight-character code |
| Slugs.CodesTellSlugsApart | internal/normalize/job_slug.go:14-33 | slugs ending in different codes differ |
| KeysetScan.ListJobsByIdAfter | internal/db/jobs.sql.go:295-301 | the first batch of ids after the cursor, in order |
| KeysetScan.PageExtends | cmd/reindex/main.go:55-69 | one more page extends a scan that may run beside inserts, updates and deletes |
| KeysetScan.ShortPageEnds | cmd/reindex/main.go:66-85 | a page shorter than the batch ends the scan with nothing left behind |
| KeysetScan.SplitJobs | cmd/reindex/main.go:92-107 | documents of the open jobs, ids of the closed ones; fails exactly when an open job cannot be converted |
| KeysetScan.BatchIsSequential | cmd/reindex/main.go:71-80 | indexing a page and then deleting does what its jobs one by one would |
| KeysetScan.ReindexAll | cmd/reindex/main.go:49-87 | visits every row present throughout exactly once, in id order, whatever changes between pages, and applies exactly those visits to the index |
| KeysetScan.PresentJobsAreReflected | cmd/reindex/main.go:45-49 | a job present throughout ends up in the index as one of the pages saw it |
| KeysetScan.ReindexLeavesTheOpenJobs | cmd/reindex/main.go:49-87 | on an unchanging table the index ends as exactly the open jobs documents if and only if it held no document of a vanished job |
| KeysetScan.RebuildsAddNoStrangers | cmd/reindex/main.go:49-87 | while rows only join the table, a rebuild leaves no document but those of its rows in an index that had no other |
| SlugIntegrity.NoJobIsDeleted | internal/db/jobs.sql.go:554-592 | over every run no job row leaves the table |
| Backfills.BackfillAll | cmd/backfill-geo/main.go:48-94 | every row is scanned once; it ends with the countries and regions parsed from its location, and the work mode too if it had none, every other column as it was; the updates counted are the rows that differed |
| Backfills.BackfillTwice | cmd/backfill-geo/main.go:13-17 | a second run rewrites nothing |
| Backfills.UpdateJobSlugs | internal/db/jobs.sql.go:533-538 | refused exactly when another row has the slug |
| Backfills.CodedSlugsAreUnique | cmd/reslug/main.go:53-57 | stored slugs that end in distinct codes are unique |
| Backfills.ResluggingIsAccepted | cmd/reslug/main.go:53-57 | with distinct codes no recomputed slug belongs to another row, rewritten or not |
| Backfills.ReslugAll | cmd/reslug/main.go:57-95 | slugs stay unique after every update; a completed run has scanned every row and given it the slugs of its title and company, every other column as it was, and counted those that differed; with distinct codes and coded slugs it completes |
| Backfills.ReslugTwice | cmd/reslug/main.go:1-6 | a second run updates nothing |
| Backfills.SyncCompaniesFromJobs | internal/db/companies.sql.go:108-117 | adds one row per non-empty slug of the jobs, named after a job that has it |
| Backfills.Reslug | cmd/reslug/main.go:22-51 | afterwards the companies are exactly the non-empty slugs of the company names, unless a company with an empty slug was already there and some name has an empty slug |
| ReslugRace.EveryWriteIsAccepted | cmd/reslug/main.go:53-57 | beside upserts that change titles and companies after a page was read, no slug write and no ingest is refused and slugs stay unique after every step |
| ReslugRace.RunKeepsSound | cmd/reslug/main.go:57-95 | the invariant behind these: rows of the page have only been touched by upserts since they were read, and a handled row has the public slug of the title and company read and the other columns of its last upsert |
| ReslugRace.HandledIsUpToDateExactly | cmd/reslug/main.go:72-87 | over every run: a handled row keeps the public slug of the title and company read until it is handled again, and is up to date if and only if its last upsert since the read, if any, gives the same job slug and, where it came before a write, the same company slug |
| ReslugRace.NextPageSkipsExactly | cmd/reslug/main.go:72-78 | the next page that shows a handled row leaves it alone if and only if that holds |
| ReslugRace.RenamedMeanwhile | cmd/reslug/main.go:1-6 | one run from empty tables: a job renamed between the read and the write of its row ends out of date |
| ReslugRace.RenamedAfterwards | cmd/reslug/main.go:76-78 | another: a row read as up to date and skipped, then renamed |
| OAuth.RunIsSound | internal/handler/oauth.go:92-165 | over every interleaving of callbacks, sign-ups and aborts rows are only added and the invariants below hold |
| OAuth.OneIdentityOneUser | internal/handler/oauth.go:92-127 | callbacks for one identity that succeed sign in the same user |
| OAuth.OwnersAndEmailsAreStable | migrations/0010_user_identities.sql:7-15 | an identity never changes owner and lower-cased emails stay unique |
| OAuth.OnlyVerifiedEmailsLinkOrCreate | internal/handler/oauth.go:111-116 | every identity was linked, and every account made here was created, by a callback that signed in with that verified email |
| OAuth.FailureLeavesNothing | internal/handler/oauth.go:131-165 | a callback that failed at any point left no row |
| OAuth.WhyRefused | internal/handler/oauth.go:100-127 | a step that does not fail refuses a callback if and only if nobody owns the identity and it is the lookup of a callback without a verified email, or the retry of one that lost its email |
| OAuth.RefusedExactlyWhenUnknown | internal/handler/oauth.go:92-127 | a sign-in can be refused, short of a failing statement, if and only if nobody owns the identity and no account has its verified email when it begins |
| OAuth.TryingAgainSucceeds | internal/handler/oauth.go:111-127 | a refused sign-in with a verified email cannot be refused when it is tried again |
| OAuth.RunStaysWelcome | internal/handler/oauth.go:92-127 | the invariant behind these: a callback that will find its owner or its account stays so over every run |
| OAuth.NormalizedIsEmptyExactly | internal/handler/oauth.go:113-116 | a provider email keys an account with the empty email if and only if it is blank |
| OAuth.CreatedAccountsHaveAnEmail | internal/handler/oauth.go:111-116 | over every run an account made here has an email if and only if the provider email was not blank |
| OAuth.LinkedByItsEmail | internal/handler/oauth.go:111-127 | over every run: an identity was linked by a callback whose provider had verified a non-empty email, and its account has that email, trimmed and in lower case |
| OAuth.SpaceMakesAnEmptyEmail | internal/handler/oauth.go:111-116 | one such run: a verified email of one space |
| OAuth.SameEmailSameAccount | internal/handler/oauth.go:131-165 | two identities belong to one account if and only if they were linked with the same email, up to case and surrounding space |
| OAuth.BlankEmailsShareAnAccount | internal/handler/oauth.go:111-116 | so identities whose verified emails are blank all share one account |
| OAuth.SomeoneCanGoOn | internal/handler/oauth.go:131-165 | no deadlock: while a callback is unfinished some transaction can go on |
| OAuth.EveryStepEndsSooner | internal/handler/oauth.go:92-165 | every step of a callback brings it closer to its end |
| OAuth.Server.LinkOrCreateUser | internal/handler/oauth.go:131-165 | the transaction, waiting included, ends committed and signed in, or rolled back by a unique violation |
| OAuth.Server.ResolveOAuthUser | internal/handler/oauth.go:92-127 | one call among any number of others returns the owner of the identity; it refuses only an identity nobody owned when it began, without a verified email or with one that no account had when it began and another has now |
| Pagination.ListPostings | internal/sources/smartrecruiters.go:62-83 | terminates with a prefix of the listing, and with all of it, once and in order, when no answer understates the total; a short result has such an answer |
| Pagination.Collect | web/src/routes/sitemap.xml/+server.ts:25-45 | the entries of a prefix of the listing; with truthful hasMore it is capped if and only if something was left out |

## Left out

- Outbox.OutboxExactAfterBulkEnqueue: one target version is in use; Upgrades.LeftOutExactly is the statement without that.
- Outbox.RunKeepsSound: jobs are never deleted, so the cascade that would remove their queue rows is not modelled.
- EnrichRunner.Run.Drain: no other worker and no other enqueuer runs meanwhile, and the database loses at most a given number of failure records; with unboundedly many lost the loop need not end.
- EnrichRunner.Run.Process: payloads are opaque texts; validation is part of the provider's answer; a commit whose outcome the client never learns is not modelled.
- ExtractRunner.Run.RunOnce: no other extractor runs meanwhile (Queues covers several), and the claimed posts are worked through in any order rather than oldest first.
- Lifecycle.StrikesAreTheTrailingExpired: liveness passes do not overlap; a verdict whose write failed is no verdict (Liveness).
- Liveness.Pass.Run: fetching and classifying a page are an arbitrary function of the job, and so is whether its write succeeds.
- PostRunSweep.SweepAfterRun: nobody else writes between the sweeps; Lifecycle.RunNeverClosesWhatItSaved covers those who do.
- Crawl.Run.CrawlAll: no other crawler writes meanwhile; fetching, the prefilter and link matching are arbitrary; the stored links are not modelled.
- Outbox.EnqueuePendingQueuesTheRest: the bulk insert is one step, also beside concurrent completions.
- Lifecycle.RunNeverClosesWhatItSaved: the application clock that takes the cutoff and the database clock are one.
- DatabaseServer.Database.UpsertJob: `created_at`, `updated_at` and gaps in identity sequences are not modelled, and which unique key a violation names is not told apart.
- Filters.FiltersFromParams: percent-encoding of the URL is taken to be lossless.
- Filters.SyncIsANoOp: `page.url` is taken to follow `replaceState`.
- Numbers.PrintedIsRead: a number is the decimal it is printed as; numerals with more digits than a double holds, or beyond its range, are not rounded, 0 and -0 are one, and NaN is no amount (the salary slider gives none).
- SearchHandler.BuildSearchFilter: text outside Unicode scalar values and the engine's own normalisation (case, typo tolerance) are not modelled; sort, limits and the free text are passed through and not modelled.
- JobIndex.FromRow: the enrichment arrives decoded, so a payload that is not valid JSON, which fails the row, is KeysetScan's unconvertible job; only the attributes a filter can name are modelled, and letter case is ASCII.
- Devalue.UnflattenPayload: a payload with a reference cycle is outside the statement; converting a float too large for an int is left as truncation.
- Devalue.EndsExactly: a node that is not JSON ends the original with an error, so one that happens to be met before the cycle ends it too.
- FanOut.FetchDetails: the fetch is a function of the posting; panics are not modelled.
- Pipeline.Run: each board's fetch and saves are given outcomes; `normalizeJob` only copies fields and calls Slug, JobSlug and Parse.
- JsonRepair.StrictReadsTheRepaired: decoding is lexical (structural characters and string literals); pairing surrogate escapes and parsing the token sequence are functions of the tokens and so cannot tell the texts apart.
- SkillTag.NormalizeIsIdempotent: letter case is ASCII.
- OAuth.SameEmailSameAccount: letter case is ASCII, in the handler and in the unique index.
- Slugs.Slug: names are ASCII, as transliteration leaves them; `unidecode` is not part of this model.
- Slugs.JobSlug: the short code is any eight lower-case letters or digits; SHA-256 and base 32 are not part of this model, and distinctness of codes is a hypothesis where it matters.
- Backfills.ReslugAll: nobody else writes meanwhile (ReslugRace is about those who do); the short codes come as a map over the keys in the table.
- Backfills.BackfillAll: nobody else writes meanwhile; the location parser comes as a map over the locations in the table.
- KeysetScan.ReindexAll: ids stay below some bound, without which a scan beside endless inserts need not end; search-engine failures, which only stop the run, are not modelled.
- OAuth.Server.ResolveOAuthUser: a commit whose outcome the client never learns is not modelled; waiting on a lock is fair to the other transactions.
- Pagination.ListPostings: a server that answers for ever is outside the statement.
- The ATS adapters' field mapping, HTTP, HTML and XML decoding, configuration and logging: plumbing.
- Ranking, embeddings, JWT and password hashing: opaque.
- Enrichment sanitising, page-parameter clamping, user-job timestamps, company listings: true but easy.
- Location and skill dictionaries: data.
