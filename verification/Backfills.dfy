// The one-off workers that recompute columns of every job: slugs, with the companies
// catalogue re-keyed afterwards, and location-derived columns.
module Backfills {
  import opened Wrappers
  import opened Catalogue
  import opened KeysetScan
  import opened Slugs
  import opened SlugIntegrity

  // ---------- Rewriting a table page by page ----------

  // The rows up to `done` are as the goal wants them, the others as they were.
  ghost predicate RewrittenTo(start: Jobs, table: Jobs, goal: Jobs, done: nat) {
    table.Keys == start.Keys == goal.Keys && forall id :: id in start ==>
              table[id] == if id <= done then goal[id] else start[id]
  }

  function Differing(start: Jobs, goal: Jobs, done: nat): set<nat> {
    set id | id in start && id in goal && id <= done && goal[id] != start[id]
  }

  function AllDiffering(start: Jobs, goal: Jobs): set<nat> {
    set id | id in start && id in goal && goal[id] != start[id]
  }

  // The row before position k of the page, or the last one of the page before.
  function Cursor(page: seq<nat>, k: nat, after: nat): nat
    requires k <= |page|
  {
    if k == 0 then after else page[k - 1]
  }

  lemma PageIsContiguous(present: set<nat>, after: nat, batch: nat, page: seq<nat>, k: nat)
    requires IsPage(present, after, batch, page) && k < |page|
    ensures Cursor(page, k, after) < page[k]
    ensures forall id :: id in present && Cursor(page, k, after) < id ==> page[k] <= id
  {
    assert page[k] in page;
    forall id | id in present && Cursor(page, k, after) < id
      ensures page[k] <= id
    {
      assert k > 0 ==> page[k - 1] in page;
      if id in page {
        var i :| 0 <= i < |page| && page[i] == id;
      }
    }
  }

  lemma RowRewritten(start: Jobs, table: Jobs, goal: Jobs, done: nat, id: nat)
    requires RewrittenTo(start, table, goal, done) && id in start && done < id
    requires forall other :: other in start && done < other ==> id <= other
    ensures RewrittenTo(start, table[id := goal[id]], goal, id)
  {
  }

  lemma RowCounted(start: Jobs, goal: Jobs, done: nat, id: nat)
    requires id in start && id in goal && done < id
    requires forall other :: other in start && done < other ==> id <= other
    ensures |Differing(start, goal, id)| == |Differing(start, goal, done)| + if goal[id] != start[id] then 1 else 0
  {
    assert Differing(start, goal, id) == Differing(start, goal, done) + if goal[id] != start[id] then {id} else {};
  }

  function UpTo(start: Jobs, done: nat): set<nat> {
    set id | id in start && id <= done
  }

  lemma RowScanned(start: Jobs, done: nat, id: nat)
    requires id in start && done < id
    requires forall other :: other in start && done < other ==> id <= other
    ensures |UpTo(start, id)| == |UpTo(start, done)| + 1
  {
    assert UpTo(start, id) == UpTo(start, done) + {id};
  }

  // The rows up to `done` are scanned and rewritten, and that many of them changed.
  ghost predicate Progress(start: Jobs, table: Jobs, goal: Jobs, done: nat, scanned: nat, updated: nat) {
    RewrittenTo(start, table, goal, done) && scanned == |UpTo(start, done)| && updated == |Differing(start, goal, done)|
  }

  // Rewriting the next row of a page, or finding it need not be.
  lemma PageRow(start: Jobs, table: Jobs, goal: Jobs, after: nat, batch: nat, page: seq<nat>, k: nat, scanned: nat,
                updated: nat)
    requires IsPage(start.Keys, after, batch, page) && k < |page|
    requires Progress(start, table, goal, Cursor(page, k, after), scanned, updated)
    ensures page[k] in table && page[k] in start && page[k] in goal && table[page[k]] == start[page[k]]
    ensures Progress(start, table[page[k] := goal[page[k]]], goal, Cursor(page, k + 1, after), scanned + 1,
                     updated + if goal[page[k]] != table[page[k]] then 1 else 0)
  {
    PageIsContiguous(start.Keys, after, batch, page, k);
    assert page[k] in page;
    RowRewritten(start, table, goal, Cursor(page, k, after), page[k]);
    RowCounted(start, goal, Cursor(page, k, after), page[k]);
    RowScanned(start, Cursor(page, k, after), page[k]);
  }

  // What a page did for the scan: the cursor moved on, and a short page was the last.
  lemma PageDone(start: Jobs, table: Jobs, goal: Jobs, after: nat, batch: nat, page: seq<nat>, scanned: nat,
                 updated: nat, limit: nat)
    requires IsPage(start.Keys, after, batch, page) && page != [] && forall id :: id in start.Keys ==> id <= limit
    requires Progress(start, table, goal, Cursor(page, |page|, after), scanned, updated)
    ensures after < page[|page| - 1] <= limit && Progress(start, table, goal, page[|page| - 1], scanned, updated)
    ensures |page| < batch ==> forall id :: id in start ==> id <= page[|page| - 1]
  {
    assert page[|page| - 1] in page;
    if |page| < batch {
      forall id | id in start ensures id <= page[|page| - 1] {
        LastPageEndsTheTable(start.Keys, after, batch, page, id);
      }
    }
  }

  lemma EmptyPage(start: Jobs, after: nat, batch: nat, page: seq<nat>)
    requires IsPage(start.Keys, after, batch, page) && page == [] && batch >= 1
    ensures forall id :: id in start ==> id <= after
  {
    forall id | id in start ensures id <= after {
      LastPageEndsTheTable(start.Keys, after, batch, page, id);
    }
  }

  lemma Begins(start: Jobs, goal: Jobs)
    requires goal.Keys == start.Keys && 0 !in start
    ensures Progress(start, start, goal, 0, 0, 0)
  {
    assert Differing(start, goal, 0) == {} && UpTo(start, 0) == {};
  }

  lemma AllRewritten(start: Jobs, table: Jobs, goal: Jobs, done: nat)
    requires RewrittenTo(start, table, goal, done) && forall id :: id in start ==> id <= done
    ensures table == goal && Differing(start, goal, done) == AllDiffering(start, goal)
    ensures UpTo(start, done) == start.Keys
  {
  }

  // Every number in the set is at most this.
  ghost function Bound(ids: set<nat>): (b: nat)
    ensures forall id :: id in ids ==> id <= b
  {
    if ids == {} then 0
    else
      var id :| id in ids;
      var rest := Bound(ids - {id});
      assert forall other :: other in ids ==> other == id || other in ids - {id};
      if id > rest then id else rest
  }

  lemma ChangedRows(start: Jobs, table: Jobs)
    requires table.Keys == start.Keys
    ensures AllDiffering(start, table) == set id | id in start && table[id] != start[id]
  {
  }

  lemma NothingDiffers(start: Jobs, goal: Jobs)
    requires goal == start
    ensures AllDiffering(start, goal) == {}
  {
  }

  // ---------- Locations ----------

  datatype Geo = Geo(countries: seq<string>, regions: seq<string>, workMode: string)

  // What the parser makes of every location in the table.
  predicate Parses(parse: map<string, Geo>, table: Jobs) {
    forall id :: id in table ==> table[id].facts.location in parse
  }

  // A work mode already set is kept: it may be the adapter's own.
  function Geocoded(parse: map<string, Geo>, j: Job): Job
    requires j.facts.location in parse
  {
    var geo := parse[j.facts.location];
    j.(facts := j.facts.(countries := geo.countries, regions := geo.regions,
                         workMode := if j.facts.workMode == "" then geo.workMode else j.facts.workMode))
  }

  function GeocodedAll(parse: map<string, Geo>, table: Jobs): Jobs
    requires Parses(parse, table)
  {
    map id | id in table :: Geocoded(parse, table[id])
  }

  method BackfillJob(table: Jobs, parse: map<string, Geo>, id: nat) returns (r: Jobs, changed: bool)
    requires id in table && table[id].facts.location in parse
    ensures r == table[id := Geocoded(parse, table[id])] && (changed <==> Geocoded(parse, table[id]) != table[id])
  {
    var j := table[id];
    var geo := parse[j.facts.location];
    var workMode := j.facts.workMode;
    if workMode == "" {
      workMode := geo.workMode;
    }
    if geo.countries == j.facts.countries && geo.regions == j.facts.regions && workMode == j.facts.workMode {
      assert Geocoded(parse, j) == j && table[id := j] == table;
      return table, false;
    }
    r := table[id := j.(facts := j.facts.(countries := geo.countries, regions := geo.regions, workMode := workMode))];
    changed := true;
  }

  method BackfillRow(ghost start: Jobs, before: Jobs, parse: map<string, Geo>, after: nat, ghost batch: nat,
                     page: seq<nat>, k: nat, seen: nat, count: nat)
    returns (table: Jobs, scanned: nat, updated: nat)
    requires Parses(parse, start) && IsPage(start.Keys, after, batch, page) && k < |page|
    requires Progress(start, before, GeocodedAll(parse, start), Cursor(page, k, after), seen, count)
    ensures Progress(start, table, GeocodedAll(parse, start), Cursor(page, k + 1, after), scanned, updated)
  {
    PageRow(start, before, GeocodedAll(parse, start), after, batch, page, k, seen, count);
    scanned := seen + 1;
    var changed;
    table, changed := BackfillJob(before, parse, page[k]);
    updated := if changed then count + 1 else count;
  }

  // One page, given how many rows the pages before it changed.
  method BackfillPage(ghost start: Jobs, before: Jobs, parse: map<string, Geo>, after: nat, ghost batch: nat,
                      page: seq<nat>, seen: nat, count: nat)
    returns (table: Jobs, scanned: nat, updated: nat)
    requires Parses(parse, start) && IsPage(start.Keys, after, batch, page)
    requires Progress(start, before, GeocodedAll(parse, start), after, seen, count)
    ensures Progress(start, table, GeocodedAll(parse, start), Cursor(page, |page|, after), scanned, updated)
  {
    table, scanned, updated := before, seen, count;
    for k := 0 to |page|
      invariant Progress(start, table, GeocodedAll(parse, start), Cursor(page, k, after), scanned, updated)
    {
      table, scanned, updated := BackfillRow(start, table, parse, after, batch, page, k, scanned, updated);
    }
  }

  method BackfillPages(start: Jobs, parse: map<string, Geo>, batch: nat)
    returns (table: Jobs, scanned: nat, updated: nat, ghost done: nat)
    requires batch >= 1 && 0 !in start && Parses(parse, start)
    ensures Progress(start, table, GeocodedAll(parse, start), done, scanned, updated) && forall id :: id in start ==>
              id <= done
  {
    var afterId: nat := 0;
    table, scanned, updated, done := start, 0, 0, 0;
    ghost var limit := Bound(start.Keys);
    Begins(start, GeocodedAll(parse, start));
    while true
      invariant Progress(start, table, GeocodedAll(parse, start), afterId, scanned, updated)
      invariant afterId <= limit
      decreases limit - afterId
    {
      assert table.Keys == start.Keys;
      var page := ListJobsByIdAfter(table.Keys, afterId, batch);
      done := afterId;
      if |page| == 0 {
        EmptyPage(start, afterId, batch, page);
        return;
      }
      table, scanned, updated := BackfillPage(start, table, parse, afterId, batch, page, scanned, updated);
      PageDone(start, table, GeocodedAll(parse, start), afterId, batch, page, scanned, updated, limit);
      afterId := page[|page| - 1];
      done := afterId;
      if |page| < batch {
        return;
      }
    }
  }

  // Countries and regions are the location's, the work mode too where the job had none; nothing
  // else changed.
  predicate IsGeocoded(geo: Geo, before: Job, after: Job) {
    && after.facts.countries == geo.countries && after.facts.regions == geo.regions
    && (before.facts.workMode != "" ==> after.facts.workMode == before.facts.workMode)
    && (before.facts.workMode == "" ==> after.facts.workMode == geo.workMode)
    && after == before.(facts := before.facts.(countries := after.facts.countries, regions := after.facts.regions,
                                               workMode := after.facts.workMode))
  }

  method BackfillAll(start: Jobs, parse: map<string, Geo>, batch: nat) returns (table: Jobs, scanned: nat, updated: nat)
    requires batch >= 1 && 0 !in start && Parses(parse, start)
    ensures table == GeocodedAll(parse, start)
    ensures forall id :: id in start ==> IsGeocoded(parse[start[id].facts.location], start[id], table[id])
    ensures scanned == |start| && updated == |set id | id in start && table[id] != start[id]|
  {
    ghost var done;
    table, scanned, updated, done := BackfillPages(start, parse, batch);
    AllRewritten(start, table, GeocodedAll(parse, start), done);
    ChangedRows(start, table);
  }

  lemma GeocodingIsIdempotent(parse: map<string, Geo>, table: Jobs)
    requires Parses(parse, table)
    ensures Parses(parse, GeocodedAll(parse, table))
    ensures GeocodedAll(parse, GeocodedAll(parse, table)) == GeocodedAll(parse, table)
  {
  }

  // Running the geography backfill again rewrites nothing.
  method BackfillTwice(start: Jobs, parse: map<string, Geo>, batch: nat)
    returns (first: Jobs, second: Jobs, updated: nat)
    requires batch >= 1 && 0 !in start && Parses(parse, start)
    ensures first == GeocodedAll(parse, start) && second == first && updated == 0
  {
    var scanned, changed;
    first, scanned, changed := BackfillAll(start, parse, batch);
    GeocodingIsIdempotent(parse, start);
    second, scanned, updated := BackfillAll(first, parse, batch);
    NothingDiffers(first, GeocodedAll(parse, first));
  }

  // ---------- Slugs ----------

  // The short codes of the keys in the table.
  predicate HaveCodes(table: Jobs, code: map<Key, ShortCode>) {
    forall id :: id in table ==> table[id].key in code
  }

  // Every stored slug ends in its row's short code, as JobSlug has always built them.
  ghost predicate Coded(table: Jobs, code: map<Key, ShortCode>)
    requires HaveCodes(table, code)
  {
    forall id :: id in table ==> EndsIn(table[id].publicSlug, code[table[id].key])
  }

  ghost predicate CodesDistinct(table: Jobs, code: map<Key, ShortCode>)
    requires HaveCodes(table, code)
  {
    forall i, j :: i in table && j in table && code[table[i].key] == code[table[j].key] ==> i == j
  }

  lemma CodedSlugsAreUnique(table: Jobs, code: map<Key, ShortCode>)
    requires HaveCodes(table, code) && Coded(table, code) && CodesDistinct(table, code)
    ensures SlugsUnique(table)
  {
    forall i, j | i in table && j in table && i != j
      ensures table[i].publicSlug != table[j].publicSlug
    {
      CodesTellSlugsApart(table[i].publicSlug, table[j].publicSlug, code[table[i].key], code[table[j].key]);
    }
  }

  function Reslugged(code: map<Key, ShortCode>, j: Job): Job
    requires j.key in code
  {
    j.(publicSlug := JobSlugOf(j.facts.title, j.facts.company, code[j.key]),
       facts := j.facts.(companySlug := SlugOf(j.facts.company)))
  }

  function ResluggedAll(code: map<Key, ShortCode>, table: Jobs): Jobs
    requires HaveCodes(table, code)
  {
    map id | id in table :: Reslugged(code, table[id])
  }

  // UPDATE jobs SET public_slug, company_slug: refused if another row has the slug.
  method UpdateJobSlugs(table: Jobs, id: nat, publicSlug: string, companySlug: string)
    returns (r: Result<Jobs, DbError>)
    requires id in table && SlugsUnique(table)
    ensures r.Err? <==> exists other :: other in table && other != id && table[other].publicSlug == publicSlug
    ensures r.Ok? ==> SlugsUnique(r.value) &&
                      r.value == table[id := table[id].(publicSlug := publicSlug,
                          facts := table[id].facts.(companySlug := companySlug))]
  {
    if exists other :: other in table && other != id && table[other].publicSlug == publicSlug {
      return Err(UniqueViolation);
    }
    r := Ok(table[id := table[id].(publicSlug := publicSlug, facts := table[id].facts.(companySlug := companySlug))]);
  }

  lemma ResluggingIsAccepted(table: Jobs, code: map<Key, ShortCode>, id: nat)
    requires id in table && HaveCodes(table, code) && Coded(table, code) && CodesDistinct(table, code)
    ensures forall other :: other in table && other != id ==>
              table[other].publicSlug != Reslugged(code, table[id]).publicSlug
  {
    var j := table[id];
    var slug := JobSlugOf(j.facts.title, j.facts.company, code[j.key]);
    JobSlugEndsInItsCode(j.facts.title, j.facts.company, code[j.key]);
    forall other | other in table && other != id
      ensures table[other].publicSlug != slug
    {
      assert code[table[other].key] != code[j.key];
      CodesTellSlugsApart(table[other].publicSlug, slug, code[table[other].key], code[j.key]);
    }
  }

  lemma RewrittenStaysCoded(table: Jobs, code: map<Key, ShortCode>, id: nat)
    requires id in table && HaveCodes(table, code) && Coded(table, code)
    ensures HaveCodes(table[id := Reslugged(code, table[id])], code)
    ensures Coded(table[id := Reslugged(code, table[id])], code)
  {
    JobSlugEndsInItsCode(table[id].facts.title, table[id].facts.company, code[table[id].key]);
  }

  // Rewriting slugs leaves the keys, and so the codes, alone.
  ghost predicate SameKeys(a: Jobs, b: Jobs) {
    a.Keys == b.Keys && forall id :: id in a ==> b[id].key == a[id].key
  }

  lemma CodesStayDistinct(start: Jobs, table: Jobs, code: map<Key, ShortCode>)
    requires HaveCodes(start, code) && CodesDistinct(start, code) && SameKeys(start, table)
    ensures HaveCodes(table, code) && CodesDistinct(table, code)
  {
    forall i, j | i in table && j in table && code[table[i].key] == code[table[j].key]
      ensures i == j
    {
      assert code[start[i].key] == code[start[j].key];
    }
  }

  lemma ProgressKeepsKeys(start: Jobs, table: Jobs, code: map<Key, ShortCode>, done: nat)
    requires HaveCodes(start, code) && RewrittenTo(start, table, ResluggedAll(code, start), done)
    ensures SameKeys(start, table) && HaveCodes(table, code)
  {
  }

  // `safe`: the codes are distinct and every stored slug ends in its own.
  ghost predicate Safe(start: Jobs, table: Jobs, code: map<Key, ShortCode>) {
    HaveCodes(start, code) && HaveCodes(table, code) && CodesDistinct(start, code) && Coded(table, code)
  }

  method ReslugJob(before: Jobs, code: map<Key, ShortCode>, ghost safe: bool, id: nat)
    returns (ok: bool, table: Jobs, changed: bool)
    requires id in before && HaveCodes(before, code) && SlugsUnique(before)
    requires safe ==> Coded(before, code) && CodesDistinct(before, code)
    ensures SlugsUnique(table) && HaveCodes(table, code)
    ensures if ok then table == before[id := Reslugged(code, before[id])] else table == before
    ensures changed <==> ok && Reslugged(code, before[id]) != before[id]
    ensures safe ==> ok && Coded(table, code)
  {
    var j := before[id];
    var publicSlug := JobSlug(j.facts.title, j.facts.company, code[j.key]);
    var companySlug := Slug(j.facts.company);
    if safe {
      ResluggingIsAccepted(before, code, id);
      RewrittenStaysCoded(before, code, id);
    }
    if publicSlug == j.publicSlug && companySlug == j.facts.companySlug {
      assert Reslugged(code, j) == j && before[id := j] == before;
      return true, before, false;
    }
    var r := UpdateJobSlugs(before, id, publicSlug, companySlug);
    match r
    case Err(_) => return false, before, false;
    case Ok(updated) => return true, updated, true;
  }

  method ReslugRow(ghost start: Jobs, before: Jobs, code: map<Key, ShortCode>, ghost safe: bool,
                   after: nat, ghost batch: nat, page: seq<nat>, k: nat, seen: nat, count: nat)
    returns (ok: bool, table: Jobs, scanned: nat, updated: nat)
    requires HaveCodes(start, code) && IsPage(start.Keys, after, batch, page) && k < |page|
    requires Progress(start, before, ResluggedAll(code, start), Cursor(page, k, after), seen, count)
    requires SlugsUnique(before) && (safe ==> Safe(start, before, code))
    ensures ok ==> Progress(start, table, ResluggedAll(code, start), Cursor(page, k + 1, after), scanned, updated)
    ensures SlugsUnique(table) && (safe ==> ok && Safe(start, table, code))
  {
    PageRow(start, before, ResluggedAll(code, start), after, batch, page, k, seen, count);
    ProgressKeepsKeys(start, before, code, Cursor(page, k, after));
    scanned := seen + 1;
    if safe {
      CodesStayDistinct(start, before, code);
    }
    var changed;
    ok, table, changed := ReslugJob(before, code, safe, page[k]);
    updated := if changed then count + 1 else count;
  }

  method ReslugPage(ghost start: Jobs, before: Jobs, code: map<Key, ShortCode>, ghost safe: bool,
                    after: nat, ghost batch: nat, page: seq<nat>, seen: nat, count: nat)
    returns (ok: bool, table: Jobs, scanned: nat, updated: nat)
    requires HaveCodes(start, code) && IsPage(start.Keys, after, batch, page)
    requires Progress(start, before, ResluggedAll(code, start), after, seen, count)
    requires SlugsUnique(before) && (safe ==> Safe(start, before, code))
    ensures ok ==> Progress(start, table, ResluggedAll(code, start), Cursor(page, |page|, after), scanned, updated)
    ensures SlugsUnique(table) && (safe ==> ok && Safe(start, table, code))
  {
    ok, table, scanned, updated := true, before, seen, count;
    var k := 0;
    while k < |page| && ok
      invariant k <= |page|
      invariant ok ==> Progress(start, table, ResluggedAll(code, start), Cursor(page, k, after), scanned, updated)
      invariant SlugsUnique(table) && (safe ==> ok && Safe(start, table, code))
      decreases |page| - k
    {
      ok, table, scanned, updated := ReslugRow(start, table, code, safe, after, batch, page, k, scanned, updated);
      k := k + 1;
    }
  }

  method ReslugPages(start: Jobs, code: map<Key, ShortCode>, ghost safe: bool, batch: nat)
    returns (ok: bool, table: Jobs, scanned: nat, updated: nat, ghost done: nat)
    requires batch >= 1 && 0 !in start && HaveCodes(start, code)
    requires SlugsUnique(start) && (safe ==> Safe(start, start, code))
    ensures ok ==> Progress(start, table, ResluggedAll(code, start), done, scanned, updated) && forall id ::
              id in start ==> id <= done
    ensures SlugsUnique(table) && (safe ==> ok && Safe(start, table, code))
  {
    var afterId: nat := 0;
    ok, table, scanned, updated, done := true, start, 0, 0, 0;
    ghost var limit := Bound(start.Keys);
    Begins(start, ResluggedAll(code, start));
    while true
      invariant Progress(start, table, ResluggedAll(code, start), afterId, scanned, updated)
      invariant SlugsUnique(table) && (safe ==> Safe(start, table, code))
      invariant afterId <= limit
      decreases limit - afterId
    {
      assert table.Keys == start.Keys;
      var page := ListJobsByIdAfter(table.Keys, afterId, batch);
      done := afterId;
      if |page| == 0 {
        EmptyPage(start, afterId, batch, page);
        return true, table, scanned, updated, done;
      }
      ok, table, scanned, updated := ReslugPage(start, table, code, safe, afterId, batch, page, scanned, updated);
      if !ok {
        return;
      }
      PageDone(start, table, ResluggedAll(code, start), afterId, batch, page, scanned, updated, limit);
      afterId := page[|page| - 1];
      done := afterId;
      if |page| < batch {
        return;
      }
    }
  }

  // The public slug is title, company and code, as far as they have letters or digits, and the
  // company slug the company's; nothing else changed.
  predicate IsReslugged(code: ShortCode, before: Job, after: Job) {
    && after.publicSlug == Before(SlugOf(before.facts.title)) + Before(SlugOf(before.facts.company)) + code
    && after.facts.companySlug == SlugOf(before.facts.company)
    && after == before.(publicSlug := after.publicSlug,
                        facts := before.facts.(companySlug := after.facts.companySlug))
  }

  predicate EachReslugged(code: map<Key, ShortCode>, start: Jobs, table: Jobs)
    requires HaveCodes(start, code)
  {
    table.Keys == start.Keys && forall id :: id in start ==> IsReslugged(code[start[id].key], start[id], table[id])
  }

  lemma AllReslugged(code: map<Key, ShortCode>, start: Jobs)
    requires HaveCodes(start, code)
    ensures EachReslugged(code, start, ResluggedAll(code, start))
  {
    forall id | id in start
      ensures IsReslugged(code[start[id].key], start[id], ResluggedAll(code, start)[id])
    {
      JobSlugIsInOrder(start[id].facts.title, start[id].facts.company, code[start[id].key]);
    }
  }

  // Recomputes every slug. public_slug is unique after every update, and no update is refused
  // when the rows have distinct short codes and their stored slugs end in them.
  method ReslugAll(start: Jobs, code: map<Key, ShortCode>, batch: nat)
    returns (ok: bool, table: Jobs, scanned: nat, updated: nat)
    requires batch >= 1 && 0 !in start && HaveCodes(start, code) && SlugsUnique(start)
    ensures SlugsUnique(table)
    ensures ok ==> table == ResluggedAll(code, start)
    ensures ok ==> EachReslugged(code, start, table)
    ensures ok ==> scanned == |start| && updated == |set id | id in start && table[id] != start[id]|
    ensures Coded(start, code) && CodesDistinct(start, code) ==> ok && Safe(start, table, code)
  {
    ghost var safe := Coded(start, code) && CodesDistinct(start, code);
    ghost var done;
    ok, table, scanned, updated, done := ReslugPages(start, code, safe, batch);
    if ok {
      AllRewritten(start, table, ResluggedAll(code, start), done);
      AllReslugged(code, start);
      ChangedRows(start, table);
    }
  }

  lemma ResluggingIsIdempotent(code: map<Key, ShortCode>, table: Jobs)
    requires HaveCodes(table, code)
    ensures HaveCodes(ResluggedAll(code, table), code)
    ensures ResluggedAll(code, ResluggedAll(code, table)) == ResluggedAll(code, table)
  {
  }

  // The keys are untouched, so the codes stay distinct, and the new slugs end in them.
  lemma ResluggedIsSafe(start: Jobs, code: map<Key, ShortCode>)
    requires HaveCodes(start, code) && CodesDistinct(start, code)
    ensures var jobs := ResluggedAll(code, start);
            HaveCodes(jobs, code) && Coded(jobs, code) && CodesDistinct(jobs, code) && SlugsUnique(jobs)
  {
    var jobs := ResluggedAll(code, start);
    forall id | id in jobs ensures EndsIn(jobs[id].publicSlug, code[jobs[id].key]) {
      JobSlugEndsInItsCode(start[id].facts.title, start[id].facts.company, code[start[id].key]);
    }
    assert SameKeys(start, jobs);
    CodesStayDistinct(start, jobs, code);
    CodedSlugsAreUnique(jobs, code);
  }

  // A second run updates nothing.
  method ReslugTwice(start: Jobs, code: map<Key, ShortCode>, batch: nat)
    returns (first: Jobs, second: Jobs, updated: nat)
    requires batch >= 1 && 0 !in start && HaveCodes(start, code) && Coded(start, code) && CodesDistinct(start, code)
    ensures first == ResluggedAll(code, start) && second == first && updated == 0
  {
    CodedSlugsAreUnique(start, code);
    var ok, scanned, count;
    ok, first, scanned, count := ReslugAll(start, code, batch);
    ResluggedIsSafe(start, code);
    ResluggingIsIdempotent(code, start);
    ok, second, scanned, updated := ReslugAll(first, code, batch);
    NothingDiffers(first, ResluggedAll(code, first));
  }

  // ---------- Companies ----------

  function CompanySlugs(jobs: Jobs): set<string> {
    set id | id in jobs && jobs[id].facts.companySlug != "" :: jobs[id].facts.companySlug
  }

  predicate NamedAfter(jobs: Jobs, slug: string, name: string) {
    exists id :: id in jobs && jobs[id].facts.companySlug == slug && jobs[id].facts.company == name
  }

  // One row per non-empty slug, with the name of some job that has it.
  method SyncCompaniesFromJobs(jobs: Jobs, before: map<string, string>) returns (companies: map<string, string>)
    ensures companies.Keys == before.Keys + CompanySlugs(jobs)
    ensures forall slug :: slug in CompanySlugs(jobs) ==> NamedAfter(jobs, slug, companies[slug])
    ensures forall slug :: slug in before && slug !in CompanySlugs(jobs) ==> companies[slug] == before[slug]
  {
    companies := before;
    var remaining := CompanySlugs(jobs);
    while remaining != {}
      invariant remaining <= CompanySlugs(jobs)
      invariant companies.Keys == before.Keys + (CompanySlugs(jobs) - remaining)
      invariant forall slug :: slug in CompanySlugs(jobs) && slug !in remaining ==>
                NamedAfter(jobs, slug, companies[slug])
      invariant forall slug :: slug in before && slug !in CompanySlugs(jobs) ==> companies[slug] == before[slug]
    {
      var slug :| slug in remaining;
      var id :| id in jobs && jobs[id].facts.companySlug == slug;
      companies := companies[slug := jobs[id].facts.company];
      remaining := remaining - {slug};
    }
  }

  function DeleteOrphanCompanies(jobs: Jobs, companies: map<string, string>): map<string, string> {
    map slug | slug in companies && (exists id :: id in jobs && jobs[id].facts.companySlug == slug) :: companies[slug]
  }

  predicate Nameless(jobs: Jobs) {
    exists id :: id in jobs && jobs[id].facts.companySlug == ""
  }

  lemma SurvivingCompanies(jobs: Jobs, before: map<string, string>, companies: map<string, string>)
    requires companies.Keys == set slug | slug in before.Keys + CompanySlugs(jobs) && exists id ::
              id in jobs && jobs[id].facts.companySlug == slug
    ensures companies.Keys == CompanySlugs(jobs) <==> !("" in before && Nameless(jobs))
    ensures forall slug :: slug in CompanySlugs(jobs) ==> slug in companies
  {
    assert "" !in CompanySlugs(jobs);
    assert forall slug :: slug in companies.Keys <==>
              slug in CompanySlugs(jobs) || (slug == "" && "" in before && Nameless(jobs));
  }

  // The company slugs the jobs will have, and whether some job will have none: a company whose
  // name has no letter or digit left.
  function NewCompanySlugs(start: Jobs): set<string> {
    set id | id in start && SlugOf(start[id].facts.company) != "" :: SlugOf(start[id].facts.company)
  }

  predicate SomeSlugless(start: Jobs) {
    exists id :: id in start && SlugOf(start[id].facts.company) == ""
  }

  lemma ResluggedCompanies(start: Jobs, code: map<Key, ShortCode>)
    requires HaveCodes(start, code)
    ensures CompanySlugs(ResluggedAll(code, start)) == NewCompanySlugs(start)
    ensures Nameless(ResluggedAll(code, start)) <==> SomeSlugless(start)
  {
    var jobs := ResluggedAll(code, start);
    assert forall id :: id in start ==> jobs[id].facts.companySlug == SlugOf(start[id].facts.company);
    if SomeSlugless(start) {
      var id :| id in start && SlugOf(start[id].facts.company) == "";
      assert jobs[id].facts.companySlug == "";
    }
  }

  // Slugs, then companies. The catalogue ends up with exactly the non-empty company slugs of
  // the jobs, each named after one of them, unless it already had a company with an empty
  // slug that some job without a company keeps alive.
  method Reslug(start: Jobs, before: map<string, string>, code: map<Key, ShortCode>, batch: nat)
    returns (ok: bool, jobs: Jobs, companies: map<string, string>, scanned: nat, updated: nat)
    requires batch >= 1 && 0 !in start && HaveCodes(start, code) && SlugsUnique(start)
    ensures SlugsUnique(jobs)
    ensures Coded(start, code) && CodesDistinct(start, code) ==> ok
    ensures ok ==> jobs == ResluggedAll(code, start)
    ensures ok ==> EachReslugged(code, start, jobs)
    ensures ok ==> scanned == |start| && updated == |set id | id in start && jobs[id] != start[id]|
    ensures ok ==> (companies.Keys == NewCompanySlugs(start) <==> !("" in before && SomeSlugless(start)))
    ensures ok ==> forall slug :: slug in NewCompanySlugs(start) ==>
              slug in companies && NamedAfter(jobs, slug, companies[slug])
  {
    ok, jobs, scanned, updated := ReslugAll(start, code, batch);
    companies := before;
    if ok {
      companies := SyncCompaniesFromJobs(jobs, companies);
      companies := DeleteOrphanCompanies(jobs, companies);
      SurvivingCompanies(jobs, before, companies);
      ResluggedCompanies(start, code);
    }
  }
}
