// Paging through a table by its primary key while others insert and update rows, and the
// index rebuilt that way. Identity columns start at 1.
module KeysetScan {
  import opened Wrappers
  import opened Ordering
  import opened Sequences
  import opened Catalogue

  predicate Increasing(ids: seq<nat>) {
    forall i, j :: 0 <= i < j < |ids| ==> ids[i] < ids[j]
  }

  // WHERE id > after ORDER BY id LIMIT batch.
  ghost predicate IsPage(present: set<nat>, after: nat, batch: nat, page: seq<nat>) {
    && Increasing(page) && |page| <= batch
    && (forall id :: id in page ==> id in present && id > after)
    && (forall id :: id in present && id > after && id !in page ==> |page| == batch > 0 && page[batch - 1] < id)
  }

  method ListJobsByIdAfter(present: set<nat>, after: nat, batch: nat) returns (page: seq<nat>)
    requires batch >= 1
    ensures IsPage(present, after, batch, page)
  {
    page := [];
    var rest := set id | id in present && id > after;
    while rest != {} && |page| < batch
      invariant rest <= present && |page| <= batch && Increasing(page)
      invariant forall id :: id in page ==> id in present && id > after
      invariant forall id :: id in present && id > after ==> id in page || id in rest
      invariant forall id :: id in rest ==> id > after && (page != [] ==> page[|page| - 1] < id)
      decreases rest
    {
      var id := Minimum(rest);
      page := page + [id];
      rest := rest - {id};
    }
  }

  // ---------- The scan ----------

  datatype Visit<T> = Visit(id: nat, row: T)

  function Rows<T>(table: map<nat, T>, page: seq<nat>): (r: seq<Visit<T>>)
    requires forall id :: id in page ==> id in table
    ensures |r| == |page| && forall i :: 0 <= i < |page| ==> r[i] == Visit(page[i], table[page[i]])
  {
    seq(|page|, i requires 0 <= i < |page| => Visit(page[i], table[page[i]]))
  }

  ghost predicate InOrder<T>(visited: seq<Visit<T>>) {
    forall i, j :: 0 <= i < j < |visited| ==> visited[i].id < visited[j].id
  }

  ghost predicate Visited<T>(visited: seq<Visit<T>>, id: nat) {
    exists i :: 0 <= i < |visited| && visited[i].id == id
  }

  // tables(n) is the table as the statement that reads page n sees it.
  ghost predicate PresentThroughout<T>(tables: nat -> map<nat, T>, pages: nat, id: nat) {
    forall n: nat :: n < pages ==> id in tables(n)
  }

  ghost predicate ReadFrom<T(!new)>(tables: nat -> map<nat, T>, pages: nat, v: Visit<T>) {
    exists n: nat :: n < pages && v.id in tables(n) && tables(n)[v.id] == v.row
  }

  ghost predicate ScannedTo<T(!new)>(tables: nat -> map<nat, T>, pages: nat, visited: seq<Visit<T>>, after: nat) {
    && InOrder(visited)
    && (forall i :: 0 <= i < |visited| ==> visited[i].id <= after && ReadFrom(tables, pages, visited[i]))
    && (forall id: nat :: 0 < id <= after && PresentThroughout(tables, pages, id) ==> Visited(visited, id))
  }

  // Every row present throughout was visited, no row twice, in id order, each as some page
  // saw it.
  ghost predicate Scanned<T(!new)>(tables: nat -> map<nat, T>, pages: nat, visited: seq<Visit<T>>) {
    && InOrder(visited)
    && (forall i :: 0 <= i < |visited| ==> ReadFrom(tables, pages, visited[i]))
    && (forall id: nat :: 0 < id && PresentThroughout(tables, pages, id) ==> Visited(visited, id))
  }

  // A page skips nothing up to its last row.
  lemma PageHas(present: set<nat>, after: nat, batch: nat, page: seq<nat>, id: nat)
    requires IsPage(present, after, batch, page) && page != []
    requires id in present && after < id <= page[|page| - 1]
    ensures id in page
  {
  }

  lemma PageExtends<T(!new)>(tables: nat -> map<nat, T>, pages: nat, visited: seq<Visit<T>>, after: nat, batch: nat,
                      page: seq<nat>)
    requires ScannedTo(tables, pages, visited, after) && IsPage(tables(pages).Keys, after, batch, page) && page != []
    ensures ScannedTo(tables, pages + 1, visited + Rows(tables(pages), page), page[|page| - 1])
  {
    var rows := Rows(tables(pages), page);
    var all := visited + rows;
    var last := page[|page| - 1];
    assert last in page;
    forall i | 0 <= i < |all|
      ensures all[i].id <= last && ReadFrom(tables, pages + 1, all[i])
    {
      if i < |visited| {
        assert ReadFrom(tables, pages, visited[i]) && all[i] == visited[i];
      } else {
        assert all[i] == rows[i - |visited|] && page[i - |visited|] in page;
        assert all[i].id in tables(pages) && tables(pages)[all[i].id] == all[i].row;
      }
    }
    forall id: nat | 0 < id <= last && PresentThroughout(tables, pages + 1, id)
      ensures Visited(all, id)
    {
      if id <= after {
        assert PresentThroughout(tables, pages, id);
        var i :| 0 <= i < |visited| && visited[i].id == id;
        assert all[i] == visited[i] && all[i].id == id;
      } else {
        assert id in tables(pages);
        PageHas(tables(pages).Keys, after, batch, page, id);
        var i :| 0 <= i < |page| && page[i] == id;
        assert all[|visited| + i] == rows[i] && all[|visited| + i].id == id;
      }
    }
    forall i, j | 0 <= i < j < |all|
      ensures all[i].id < all[j].id
    {
      if j >= |visited| {
        assert all[j].id == page[j - |visited|] && page[j - |visited|] in page;
      }
    }
  }

  lemma LastPageEndsTheTable(present: set<nat>, from: nat, batch: nat, page: seq<nat>, id: nat)
    requires IsPage(present, from, batch, page) && |page| < batch && id in present
    ensures id <= if page == [] then from else page[|page| - 1]
  {
    if id in page {
      var i :| 0 <= i < |page| && page[i] == id;
    } else if page != [] {
      assert page[|page| - 1] in page;
    }
  }

  // A short page is the last one: nothing lies after what was visited.
  lemma ShortPageEnds<T(!new)>(tables: nat -> map<nat, T>, pages: nat, visited: seq<Visit<T>>, after: nat, from: nat,
                        batch: nat, page: seq<nat>)
    requires pages > 0 && ScannedTo(tables, pages, visited, after)
    requires IsPage(tables(pages - 1).Keys, from, batch, page) && |page| < batch
    requires after == if page == [] then from else page[|page| - 1]
    ensures Scanned(tables, pages, visited)
  {
    forall id: nat | 0 < id && PresentThroughout(tables, pages, id)
      ensures Visited(visited, id)
    {
      LastPageEndsTheTable(tables(pages - 1).Keys, from, batch, page, id);
      assert id in tables(pages - 1);
    }
  }

  lemma NothingMore<T(!new)>(tables: nat -> map<nat, T>, pages: nat, visited: seq<Visit<T>>, after: nat)
    requires ScannedTo(tables, pages, visited, after)
    ensures ScannedTo(tables, pages + 1, visited, after)
  {
    forall i | 0 <= i < |visited| ensures ReadFrom(tables, pages + 1, visited[i]) {
      assert ReadFrom(tables, pages, visited[i]);
    }
    forall id: nat | 0 < id <= after && PresentThroughout(tables, pages + 1, id) ensures Visited(visited, id) {
      assert PresentThroughout(tables, pages, id);
    }
  }

  // ---------- Rebuilding the index ----------

  // IndexJobs: a whole-document upsert by id. DeleteJobs: documents leave the index.
  function IndexJobs<D>(index: map<nat, D>, docs: seq<Visit<D>>): map<nat, D>
    decreases |docs|
  {
    if docs == [] then index else IndexJobs(index[docs[0].id := docs[0].row], docs[1..])
  }

  function DeleteJobs<D>(index: map<nat, D>, ids: seq<nat>): map<nat, D> {
    index - (set id | id in ids)
  }

  function Docs<D>(jobs: seq<Visit<Job>>, toDoc: Job -> Option<D>): seq<Visit<D>> {
    if jobs == [] then []
    else
      (if jobs[0].row.closedAt.None? && toDoc(jobs[0].row).Some? then [Visit(jobs[0].id, toDoc(jobs[0].row).value)]
                else [])
      + Docs(jobs[1..], toDoc)
  }

  function Closed(jobs: seq<Visit<Job>>): seq<nat> {
    if jobs == [] then [] else (if jobs[0].row.closedAt.Some? then [jobs[0].id] else []) + Closed(jobs[1..])
  }

  predicate Convertible<D(==)>(jobs: seq<Visit<Job>>, toDoc: Job -> Option<D>) {
    forall i :: 0 <= i < |jobs| && jobs[i].row.closedAt.None? ==> toDoc(jobs[i].row).Some?
  }

  // Open jobs become documents and closed jobs deletions; a job that cannot be turned into a
  // document ends the run.
  method SplitJobs<D(==)>(jobs: seq<Visit<Job>>, toDoc: Job -> Option<D>)
    returns (ok: bool, docs: seq<Visit<D>>, deleted: seq<nat>)
    ensures ok <==> Convertible(jobs, toDoc)
    ensures ok ==> docs == Docs(jobs, toDoc) && deleted == Closed(jobs)
  {
    docs, deleted := [], [];
    for i := 0 to |jobs|
      invariant docs + Docs(jobs[i..], toDoc) == Docs(jobs, toDoc)
      invariant deleted + Closed(jobs[i..]) == Closed(jobs)
      invariant Convertible(jobs[..i], toDoc)
    {
      var j := jobs[i];
      ghost var rest := jobs[i + 1..];
      Rest(jobs, i);
      assert jobs[..i + 1] == jobs[..i] + [j];
      Nothing(Docs(rest, toDoc));
      Nothing(Closed(rest));
      if j.row.closedAt.Some? {
        Regroup(deleted, [j.id], Closed(rest));
        deleted := deleted + [j.id];
        continue;
      }
      var doc := toDoc(j.row);
      if doc.None? {
        return false, docs, deleted;
      }
      Regroup(docs, [Visit(j.id, doc.value)], Docs(rest, toDoc));
      docs := docs + [Visit(j.id, doc.value)];
    }
    assert jobs[..|jobs|] == jobs;
    Nothing(docs);
    Nothing(deleted);
    ok := true;
  }

  // What visiting one job does to the index.
  function Apply<D>(index: map<nat, D>, v: Visit<Job>, toDoc: Job -> Option<D>): map<nat, D> {
    if v.row.closedAt.Some? then index - {v.id}
    else (match toDoc(v.row) case Some(d) => index[v.id := d] case None => index)
  }

  function ApplyAll<D>(index: map<nat, D>, visited: seq<Visit<Job>>, toDoc: Job -> Option<D>): map<nat, D>
    decreases |visited|
  {
    if visited == [] then index else ApplyAll(Apply(index, visited[0], toDoc), visited[1..], toDoc)
  }

  lemma {:induction false} ApplyAllConcat<D>(index: map<nat, D>, a: seq<Visit<Job>>, b: seq<Visit<Job>>,
                                             toDoc: Job -> Option<D>)
    ensures ApplyAll(index, a + b, toDoc) == ApplyAll(ApplyAll(index, a, toDoc), b, toDoc)
    decreases |a|
  {
    if a == [] {
      assert a + b == b;
    } else {
      assert (a + b)[1..] == a[1..] + b;
      ApplyAllConcat(Apply(index, a[0], toDoc), a[1..], b, toDoc);
    }
  }

  lemma {:induction false} IndexingSkips<D>(index: map<nat, D>, docs: seq<Visit<D>>, id: nat)
    requires forall i :: 0 <= i < |docs| ==> docs[i].id != id
    ensures IndexJobs(index - {id}, docs) == IndexJobs(index, docs) - {id}
    decreases |docs|
  {
    if docs != [] {
      assert (index - {id})[docs[0].id := docs[0].row] == index[docs[0].id := docs[0].row] - {id};
      IndexingSkips(index[docs[0].id := docs[0].row], docs[1..], id);
    }
  }

  lemma {:induction false} DocsComeFromJobs<D>(jobs: seq<Visit<Job>>, toDoc: Job -> Option<D>, bound: nat)
    requires forall i :: 0 <= i < |jobs| ==> jobs[i].id > bound
    ensures forall i :: 0 <= i < |Docs(jobs, toDoc)| ==> Docs(jobs, toDoc)[i].id > bound
  {
    if jobs != [] {
      DocsComeFromJobs(jobs[1..], toDoc, bound);
    }
  }

  lemma DeletionFirst<D>(index: map<nat, D>, id: nat, docs: seq<Visit<D>>, closed: seq<nat>)
    requires forall i :: 0 <= i < |docs| ==> docs[i].id != id
    ensures DeleteJobs(IndexJobs(index, docs), [id] + closed) == DeleteJobs(IndexJobs(index - {id}, docs), closed)
  {
    IndexingSkips(index, docs, id);
  }

  lemma DocumentFirst<D>(index: map<nat, D>, first: Visit<D>, docs: seq<Visit<D>>)
    ensures IndexJobs(index, [first] + docs) == IndexJobs(index[first.id := first.row], docs)
  {
    Cons(first, docs);
  }

  // A page's documents at once and then its deletions do what its jobs one by one would.
  lemma {:induction false} BatchIsSequential<D>(index: map<nat, D>, jobs: seq<Visit<Job>>, toDoc: Job -> Option<D>)
    requires InOrder(jobs) && Convertible(jobs, toDoc)
    ensures DeleteJobs(IndexJobs(index, Docs(jobs, toDoc)), Closed(jobs)) == ApplyAll(index, jobs, toDoc)
    decreases |jobs|
  {
    if jobs != [] {
      var first, rest := jobs[0], jobs[1..];
      var docs, closed := Docs(rest, toDoc), Closed(rest);
      BatchIsSequential(Apply(index, first, toDoc), rest, toDoc);
      if first.row.closedAt.Some? {
        DocsComeFromJobs(rest, toDoc, first.id);
        DeletionFirst(index, first.id, docs, closed);
        Nothing(docs);
      } else {
        var doc := Visit(first.id, toDoc(first.row).value);
        DocumentFirst(index, doc, docs);
        Nothing(closed);
      }
    }
  }

  method ReindexPage<D(==)>(jobs: seq<Visit<Job>>, toDoc: Job -> Option<D>, before: map<nat, D>)
    returns (ok: bool, index: map<nat, D>, indexed: nat, deleted: nat)
    requires InOrder(jobs)
    ensures ok <==> Convertible(jobs, toDoc)
    ensures index == if ok then ApplyAll(before, jobs, toDoc) else before
    ensures ok ==> indexed + deleted == |jobs| && deleted == |Closed(jobs)|
  {
    index, indexed, deleted := before, 0, 0;
    var docs, closed;
    ok, docs, closed := SplitJobs(jobs, toDoc);
    if ok {
      BatchIsSequential(before, jobs, toDoc);
      SplitCounts(jobs, toDoc);
      index := IndexJobs(index, docs);
      index := DeleteJobs(index, closed);
      indexed, deleted := |docs|, |closed|;
    }
  }

  lemma OnePageMore<D>(tables: nat -> map<nat, Job>, n: nat, visited: seq<Visit<Job>>, after: nat, batch: nat,
                       page: seq<nat>, toDoc: Job -> Option<D>, before: map<nat, D>)
    requires ScannedTo(tables, n, visited, after) && IsPage(tables(n).Keys, after, batch, page) && page != []
    requires Convertible(visited, toDoc) && Convertible(Rows(tables(n), page), toDoc)
    ensures var jobs := Rows(tables(n), page);
            && ScannedTo(tables, n + 1, visited + jobs, page[|page| - 1]) && Convertible(visited + jobs, toDoc)
            && ApplyAll(before, visited + jobs, toDoc) == ApplyAll(ApplyAll(before, visited, toDoc), jobs, toDoc)
            && |Closed(visited + jobs)| == |Closed(visited)| + |Closed(jobs)|
    ensures page[|page| - 1] in tables(n) && after < page[|page| - 1]
  {
    var jobs := Rows(tables(n), page);
    PageExtends(tables, n, visited, after, batch, page);
    ApplyAllConcat(before, visited, jobs, toDoc);
    ClosedAddUp(visited, jobs);
    assert page[|page| - 1] in page;
  }

  // Pages through the jobs as they change, pushing each page to the index.
  method ReindexAll<D(==)>(tables: nat -> map<nat, Job>, batch: nat, toDoc: Job -> Option<D>, before: map<nat, D>,
                      ghost limit: nat)
    returns (ok: bool, index: map<nat, D>, indexed: nat, deleted: nat, ghost visited: seq<Visit<Job>>, ghost pages: nat)
    requires batch >= 1 && forall n: nat, id: nat :: id in tables(n) ==> id < limit
    ensures index == ApplyAll(before, visited, toDoc)
    ensures ok ==> pages > 0 && Scanned(tables, pages, visited)
    ensures ok ==> Convertible(visited, toDoc) && indexed + deleted == |visited| && deleted == |Closed(visited)|
    ensures !ok ==> exists n: nat, id: nat ::
              id in tables(n) && tables(n)[id].closedAt.None? && toDoc(tables(n)[id]).None?
  {
    var afterId: nat := 0;
    var n := 0;
    index, indexed, deleted, visited := before, 0, 0, [];
    while true
      invariant ScannedTo(tables, n, visited, afterId) && Convertible(visited, toDoc)
      invariant index == ApplyAll(before, visited, toDoc)
      invariant indexed + deleted == |visited| && deleted == |Closed(visited)|
      invariant afterId <= limit
      decreases limit - afterId
    {
      var table := tables(n);
      ghost var from := afterId;
      var page := ListJobsByIdAfter(table.Keys, afterId, batch);
      pages := n + 1;
      if |page| == 0 {
        NothingMore(tables, n, visited, afterId);
        ShortPageEnds(tables, pages, visited, afterId, from, batch, page);
        return true, index, indexed, deleted, visited, pages;
      }
      var jobs := Rows(table, page);
      var converted, pushed, put, gone := ReindexPage(jobs, toDoc, index);
      if !converted {
        var i :| 0 <= i < |jobs| && jobs[i].row.closedAt.None? && toDoc(jobs[i].row).None?;
        assert jobs[i].id in tables(n);
        return false, index, indexed, deleted, visited, pages;
      }
      OnePageMore(tables, n, visited, afterId, batch, page, toDoc, before);
      afterId := page[|page| - 1];
      index, indexed, deleted := pushed, indexed + put, deleted + gone;
      visited := visited + jobs;
      n := n + 1;
      if |page| < batch {
        ShortPageEnds(tables, pages, visited, afterId, from, batch, page);
        return true, index, indexed, deleted, visited, pages;
      }
    }
    assert false;
  }

  lemma {:induction false} ClosedConcat(a: seq<Visit<Job>>, b: seq<Visit<Job>>)
    ensures Closed(a + b) == Closed(a) + Closed(b)
  {
    if a == [] {
      Nothing(b);
      Nothing(Closed(b));
    } else {
      ClosedConcat(a[1..], b);
      ConcatTail(a, b);
      Regroup(if a[0].row.closedAt.Some? then [a[0].id] else [], Closed(a[1..]), Closed(b));
    }
  }

  lemma ClosedAddUp(a: seq<Visit<Job>>, b: seq<Visit<Job>>)
    ensures |Closed(a + b)| == |Closed(a)| + |Closed(b)|
  {
    ClosedConcat(a, b);
  }

  // Every closed row visited is listed, once.
  lemma {:induction false} ClosedAreListed(jobs: seq<Visit<Job>>)
    requires InOrder(jobs)
    ensures forall id :: id in Closed(jobs) <==>
                         exists i :: 0 <= i < |jobs| && jobs[i].id == id && jobs[i].row.closedAt.Some?
    ensures Increasing(Closed(jobs))
  {
    if jobs != [] {
      var first, rest := jobs[0], jobs[1..];
      ClosedAreListed(rest);
      forall id
        ensures id in Closed(jobs) <==> exists i :: 0 <= i < |jobs| && jobs[i].id == id && jobs[i].row.closedAt.Some?
      {
        if i :| 0 <= i < |rest| && rest[i].id == id && rest[i].row.closedAt.Some? {
          assert jobs[i + 1] == rest[i];
        }
        if i :| 0 < i < |jobs| && jobs[i].id == id && jobs[i].row.closedAt.Some? {
          assert rest[i - 1] == jobs[i];
        }
      }
      forall k | 0 <= k < |Closed(rest)| ensures first.id < Closed(rest)[k] {
        assert Closed(rest)[k] in Closed(rest);
        var i :| 0 <= i < |rest| && rest[i].id == Closed(rest)[k] && rest[i].row.closedAt.Some?;
        assert jobs[i + 1] == rest[i];
      }
    }
  }

  lemma {:induction false} SplitCounts<D>(jobs: seq<Visit<Job>>, toDoc: Job -> Option<D>)
    requires Convertible(jobs, toDoc)
    ensures |Docs(jobs, toDoc)| + |Closed(jobs)| == |jobs|
  {
    if jobs != [] {
      SplitCounts(jobs[1..], toDoc);
    }
  }

  // ---------- What the index holds afterwards ----------

  ghost predicate Untouched<D>(before: map<nat, D>, after: map<nat, D>, id: nat) {
    (id in after <==> id in before) && (id in before && id in after ==> after[id] == before[id])
  }

  // The index agrees with a row: a closed job has no document, an open one its own.
  ghost predicate Reflects<D>(index: map<nat, D>, id: nat, row: Job, toDoc: Job -> Option<D>) {
    if row.closedAt.Some? then id !in index else id in index && Some(index[id]) == toDoc(row)
  }

  lemma ApplyPoint<D>(index: map<nat, D>, v: Visit<Job>, toDoc: Job -> Option<D>, id: nat)
    requires v.row.closedAt.None? ==> toDoc(v.row).Some?
    ensures Reflects(Apply(index, v, toDoc), v.id, v.row, toDoc)
    ensures id != v.id ==> Untouched(index, Apply(index, v, toDoc), id)
  {
  }

  lemma {:induction false} UnvisitedIsUntouched<D>(index: map<nat, D>, visited: seq<Visit<Job>>,
                                                   toDoc: Job -> Option<D>, id: nat)
    requires Convertible(visited, toDoc) && !Visited(visited, id)
    ensures Untouched(index, ApplyAll(index, visited, toDoc), id)
    decreases |visited|
  {
    if visited != [] {
      assert visited[0].id != id;
      forall i | 0 <= i < |visited[1..]| ensures visited[1..][i].id != id {
        assert visited[1..][i] == visited[i + 1];
      }
      ApplyPoint(index, visited[0], toDoc, id);
      UnvisitedIsUntouched(Apply(index, visited[0], toDoc), visited[1..], toDoc, id);
    }
  }

  lemma {:induction false} VisitedIsReflected<D>(index: map<nat, D>, visited: seq<Visit<Job>>,
                                                 toDoc: Job -> Option<D>, i: nat)
    requires Convertible(visited, toDoc) && InOrder(visited) && i < |visited|
    ensures Reflects(ApplyAll(index, visited, toDoc), visited[i].id, visited[i].row, toDoc)
    decreases |visited|
  {
    var rest := visited[1..];
    var next := Apply(index, visited[0], toDoc);
    if i > 0 {
      VisitedIsReflected(next, rest, toDoc, i - 1);
    } else {
      ApplyPoint(index, visited[0], toDoc, visited[0].id);
      UnvisitedIsUntouched(next, rest, toDoc, visited[0].id);
    }
  }

  // A job present throughout the run ends up in the index as one of the pages saw it, however
  // the table changed meanwhile.
  lemma PresentJobsAreReflected<D>(tables: nat -> map<nat, Job>, pages: nat, visited: seq<Visit<Job>>,
                                   before: map<nat, D>, toDoc: Job -> Option<D>, id: nat)
    requires Scanned(tables, pages, visited) && Convertible(visited, toDoc)
    requires id > 0 && PresentThroughout(tables, pages, id)
    ensures exists n: nat :: n < pages && id in tables(n) && Reflects(ApplyAll(before, visited, toDoc), id,
            tables(n)[id], toDoc)
  {
    var i :| 0 <= i < |visited| && visited[i].id == id;
    assert ReadFrom(tables, pages, visited[i]);
    VisitedIsReflected(before, visited, toDoc, i);
  }

  function OpenDocs<D>(table: map<nat, Job>, toDoc: Job -> Option<D>): map<nat, D> {
    map id | id in table && table[id].closedAt.None? && toDoc(table[id]).Some? :: toDoc(table[id]).value
  }

  // On a table nobody changes, the index ends up holding exactly the open jobs' documents if
  // and only if every document in it belonged to some job.
  lemma ReindexLeavesTheOpenJobs<D>(tables: nat -> map<nat, Job>, table: map<nat, Job>, pages: nat,
                                    visited: seq<Visit<Job>>,
                                    before: map<nat, D>, toDoc: Job -> Option<D>)
    requires pages > 0 && (forall n: nat :: tables(n) == table) && 0 !in table
    requires Scanned(tables, pages, visited) && Convertible(visited, toDoc)
    ensures ApplyAll(before, visited, toDoc) == OpenDocs(table, toDoc) <==> before.Keys <= table.Keys
  {
    var after := ApplyAll(before, visited, toDoc);
    forall id | id in table
      ensures Reflects(after, id, table[id], toDoc) && (table[id].closedAt.None? ==> toDoc(table[id]).Some?)
    {
      assert PresentThroughout(tables, pages, id);
      var i :| 0 <= i < |visited| && visited[i].id == id;
      assert ReadFrom(tables, pages, visited[i]);
      VisitedIsReflected(before, visited, toDoc, i);
    }
    forall id: nat | id !in table
      ensures Untouched(before, after, id)
    {
      forall i | 0 <= i < |visited| ensures visited[i].id != id {
        assert ReadFrom(tables, pages, visited[i]);
      }
      UnvisitedIsUntouched(before, visited, toDoc, id);
    }
    StaleDocumentsDecide(table, before, after, toDoc);
  }

  lemma StaleDocumentsDecide<D>(table: map<nat, Job>, before: map<nat, D>, after: map<nat, D>, toDoc: Job -> Option<D>)
    requires forall id :: id in table ==>
              Reflects(after, id, table[id], toDoc) && (table[id].closedAt.None? ==> toDoc(table[id]).Some?)
    requires forall id: nat :: id !in table ==> Untouched(before, after, id)
    ensures after == OpenDocs(table, toDoc) <==> before.Keys <= table.Keys
  {
    var open := OpenDocs(table, toDoc);
    if before.Keys <= table.Keys {
      forall id ensures (id in after <==> id in open) && (id in open ==> after[id] == open[id]) {
        if id in table {
          assert Reflects(after, id, table[id], toDoc);
        } else {
          assert Untouched(before, after, id);
        }
      }
      assert after == open;
    } else {
      var id :| id in before && id !in table;
      assert Untouched(before, after, id);
      assert id in after && id !in open;
    }
  }

  lemma {:induction false} DocumentsAreVisited<D>(index: map<nat, D>, visited: seq<Visit<Job>>, toDoc: Job -> Option<D>,
                                                  id: nat)
    requires id in ApplyAll(index, visited, toDoc)
    ensures id in index || Visited(visited, id)
    decreases |visited|
  {
    if visited != [] {
      var next := Apply(index, visited[0], toDoc);
      DocumentsAreVisited(next, visited[1..], toDoc, id);
      if id !in index {
        if id != visited[0].id {
          assert id !in next;
          var i :| 0 <= i < |visited[1..]| && visited[1..][i].id == id;
          assert visited[i + 1].id == id;
        } else {
          assert visited[0].id == id;
        }
      }
    }
  }

  // While rows only ever join the table, a rebuild puts no document in the index but those of
  // its rows: an index without strangers stays without.
  lemma RebuildsAddNoStrangers<D>(tables: nat -> map<nat, Job>, pages: nat, visited: seq<Visit<Job>>,
                                  before: map<nat, D>, toDoc: Job -> Option<D>, later: map<nat, Job>)
    requires Scanned(tables, pages, visited) && before.Keys <= later.Keys
    requires forall n: nat :: n < pages ==> tables(n).Keys <= later.Keys
    ensures ApplyAll(before, visited, toDoc).Keys <= later.Keys
  {
    forall id | id in ApplyAll(before, visited, toDoc) ensures id in later {
      DocumentsAreVisited(before, visited, toDoc, id);
      if id !in before {
        var i :| 0 <= i < |visited| && visited[i].id == id;
        assert ReadFrom(tables, pages, visited[i]);
      }
    }
  }
}
