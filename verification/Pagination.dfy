// Paging through a remote listing by offset, advancing by what each answer really held, so
// that the server may cap its pages at any size.
module Pagination {
  import opened Wrappers

  const PAGE := 500

  datatype FetchError = Unavailable

  // ---------- A board's postings ----------

  datatype Page<T> = Page(totalFound: int, content: seq<T>)

  // Answers are non-empty chunks of what remains; a request may fail, and any total may be
  // reported.
  ghost predicate ServesChunks<T>(all: seq<T>, fetch: nat -> Option<Page<T>>) {
    forall offset: nat :: fetch(offset).Some? ==>
                            if offset < |all| then fetch(offset).value.content != []
                                && fetch(offset).value.content <= all[offset..]
                            else fetch(offset).value.content == []
  }

  ghost predicate NeverUnderstates<T>(all: seq<T>, fetch: nat -> Option<Page<T>>) {
    forall offset: nat :: fetch(offset).Some? ==> fetch(offset).value.totalFound >= |all|
  }

  // All the postings once, in order, whatever the page sizes. A total that is too low can
  // only cut the list short.
  method ListPostings<T>(ghost all: seq<T>, fetch: nat -> Option<Page<T>>) returns (r: Result<seq<T>, FetchError>)
    requires ServesChunks(all, fetch)
    ensures r.Err? ==> exists offset: nat :: fetch(offset).None?
    ensures r.Ok? ==> r.value <= all
    ensures r.Ok? && NeverUnderstates(all, fetch) ==> r.value == all
    ensures r.Ok? && r.value != all ==> exists offset: nat ::
              fetch(offset).Some? && fetch(offset).value.totalFound <= |r.value|
  {
    var postings: seq<T> := [];
    var offset: nat := 0;
    while true
      invariant offset == |postings| <= |all| && postings == all[..offset]
      decreases |all| - offset
    {
      var page := fetch(offset);
      if page.None? {
        return Err(Unavailable);
      }
      if |page.value.content| == 0 {
        break;
      }
      assert all[..offset + |page.value.content|] == all[..offset] + page.value.content;
      ghost var from := offset;
      postings := postings + page.value.content;
      offset := offset + |page.value.content|;
      if offset >= page.value.totalFound {
        assert fetch(from).value.totalFound <= |postings|;
        break;
      }
    }
    r := Ok(postings);
  }

  // ---------- The sitemap ----------

  datatype Slice<T> = Slice(items: seq<T>, hasMore: bool)

  ghost predicate ServesSlices<T>(all: seq<T>, fetchPage: (nat, nat) -> Slice<T>) {
    forall limit: nat, offset: nat ::
      var items := fetchPage(limit, offset).items;
      if offset < |all| && limit > 0 then items != [] && items <= all[offset..] else items == []
  }

  ghost predicate HasMoreIsTrue<T>(all: seq<T>, fetchPage: (nat, nat) -> Slice<T>) {
    forall limit: nat, offset: nat ::
      fetchPage(limit, offset).hasMore <==> offset + |fetchPage(limit, offset).items| < |all|
  }

  function Entries<T, E>(items: seq<T>, toEntry: T -> E): (r: seq<E>)
    ensures |r| == |items| && forall i :: 0 <= i < |r| ==> r[i] == toEntry(items[i])
  {
    seq(|items|, i requires 0 <= i < |items| => toEntry(items[i]))
  }

  // The entries of a prefix of the listing, with no gap and no repetition. When the server
  // says truthfully whether more follows, the prefix is everything, or it is flagged as
  // capped and reaches the cap.
  method Collect<T, E>(ghost all: seq<T>, cap: nat, fetchPage: (nat, nat) -> Slice<T>, toEntry: T -> E)
    returns (entries: seq<E>, capped: bool)
    requires ServesSlices(all, fetchPage)
    ensures |entries| <= |all| && entries == Entries(all[..|entries|], toEntry)
    ensures capped ==> |entries| >= cap
    ensures cap > 0 && HasMoreIsTrue(all, fetchPage) ==> (capped <==> |entries| < |all|)
  {
    entries, capped := [], false;
    var offset: nat := 0;
    while offset < cap
      invariant offset == |entries| <= |all| && entries == Entries(all[..offset], toEntry)
      invariant HasMoreIsTrue(all, fetchPage) && 0 < offset ==> offset < |all|
      invariant !capped && (offset > 0 ==> offset < cap)
      decreases |all| - offset
    {
      var slice := fetchPage(PAGE, offset);
      if |slice.items| == 0 {
        break;
      }
      EntriesConcat(all, offset, slice.items, toEntry);
      entries := entries + Entries(slice.items, toEntry);
      offset := offset + |slice.items|;
      if !slice.hasMore {
        break;
      }
      if offset >= cap {
        capped := true;
        break;
      }
    }
  }

  lemma EntriesConcat<T, E>(all: seq<T>, offset: nat, items: seq<T>, toEntry: T -> E)
    requires offset <= |all| && items <= all[offset..]
    ensures Entries(all[..offset + |items|], toEntry) == Entries(all[..offset], toEntry) + Entries(items, toEntry)
  {
    assert all[..offset + |items|] == all[..offset] + items;
  }
}
