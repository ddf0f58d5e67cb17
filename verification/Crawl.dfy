// The Telegram crawl: every channel once, every post stored once, non-vacancies recorded as
// done. Fetching and storing may fail; a channel that fails does not stop the others.
module Crawl {
  import opened Wrappers
  import opened Lease
  import opened Catalogue
  import opened DatabaseServer

  datatype RawPost = RawPost(msgId: int, text: string, links: seq<string>, postedAt: Time)

  // A configured channel and what fetching it gives.
  datatype Channel = Channel(name: string, fetched: Option<seq<RawPost>>)

  type Posts = map<PostKey, Post>

  predicate StoredAs(p: RawPost, vacancy: bool, at: Time, post: Post) {
    post == Post(p.text, p.postedAt, if vacancy then None else Some(at), FRESH)
  }

  ghost predicate CameFrom(channels: seq<Channel>, vacancy: RawPost -> bool, at: Time, key: PostKey, post: Post) {
    exists i, m :: FetchedAt(channels, i, m, key) &&
              var p := channels[i].fetched.value[m]; StoredAs(p, vacancy(p), at, post)
  }

  predicate FetchedAt(channels: seq<Channel>, i: int, m: int, key: PostKey) {
    && 0 <= i < |channels| && channels[i].fetched.Some? && 0 <= m < |channels[i].fetched.value|
    && key == PostKey(channels[i].name, channels[i].fetched.value[m].msgId)
  }

  // Old posts are untouched, whatever their state; every new one was fetched.
  ghost predicate Grown(before: Posts, after: Posts, channels: seq<Channel>, vacancy: RawPost -> bool, at: Time) {
    && (forall k :: k in before ==> k in after && after[k] == before[k])
    && (forall k :: k in after && k !in before ==> CameFrom(channels, vacancy, at, k, after[k]))
  }

  function Queued(before: Posts, after: Posts): set<PostKey> {
    set k | k in after && k !in before && after[k].extractedAt.None?
  }

  function Recorded(before: Posts, after: Posts): set<PostKey> {
    set k | k in after && k !in before && after[k].extractedAt.Some?
  }

  predicate AllStored(posts: Posts, c: Channel) {
    c.fetched.Some? && forall m :: 0 <= m < |c.fetched.value| ==> PostKey(c.name, c.fetched.value[m].msgId) in posts
  }

  lemma OnePostMore(before: Posts, mid: Posts, channels: seq<Channel>, vacancy: RawPost -> bool, at: Time, i: nat,
                    m: nat, key: PostKey, post: Post)
    requires Grown(before, mid, channels, vacancy, at) && FetchedAt(channels, i, m, key) && key !in mid
    requires StoredAs(channels[i].fetched.value[m], vacancy(channels[i].fetched.value[m]), at, post)
    ensures Grown(before, mid[key := post], channels, vacancy, at)
  {
    var after := mid[key := post];
    assert CameFrom(channels, vacancy, at, key, post);
    forall k | k in after && k !in before ensures CameFrom(channels, vacancy, at, k, after[k]) {
      if k != key {
        assert after[k] == mid[k];
      }
    }
  }

  lemma OnePostCounted(before: Posts, mid: Posts, key: PostKey, post: Post)
    requires key !in mid && before.Keys <= mid.Keys
    ensures |Queued(before, mid[key := post])| == |Queued(before, mid)| + (if post.extractedAt.None? then 1 else 0)
    ensures |Recorded(before, mid[key := post])| == |Recorded(before, mid)| + (if post.extractedAt.None? then 0 else 1)
  {
    OnePostSorted(before, mid, key, post);
    assert key !in Queued(before, mid) && key !in Recorded(before, mid);
  }

  lemma OnePostSorted(before: Posts, mid: Posts, key: PostKey, post: Post)
    requires key !in mid && before.Keys <= mid.Keys
    ensures Queued(before, mid[key := post]) == Queued(before, mid) + (if post.extractedAt.None? then {key} else {})
    ensures Recorded(before, mid[key := post]) == Recorded(before, mid) + (if post.extractedAt.None? then {} else {key})
  {
    assert key !in before;
  }

  predicate StoredUpTo(posts: Posts, c: Channel, m: nat)
    requires c.fetched.Some? && m <= |c.fetched.value|
  {
    forall n :: 0 <= n < m ==> PostKey(c.name, c.fetched.value[n].msgId) in posts
  }

  lemma OneMoreStored(a: Posts, b: Posts, c: Channel, m: nat)
    requires c.fetched.Some? && m < |c.fetched.value| && StoredUpTo(a, c, m) && forall k :: k in a ==> k in b
    requires PostKey(c.name, c.fetched.value[m].msgId) in b
    ensures StoredUpTo(b, c, m + 1)
  {
  }

  // The posts of the first n channels are in the table, but for those counted as failed.
  predicate Covered(posts: Posts, channels: seq<Channel>, n: nat, bad: set<nat>)
    requires n <= |channels|
  {
    forall i :: 0 <= i < n && i !in bad ==> AllStored(posts, channels[i])
  }

  lemma StillCovered(a: Posts, b: Posts, channels: seq<Channel>, n: nat, bad: set<nat>)
    requires n <= |channels| && Covered(a, channels, n, bad) && forall k :: k in a ==> k in b
    ensures Covered(b, channels, n, bad)
  {
    forall i | 0 <= i < n && i !in bad ensures AllStored(b, channels[i]) {
      assert AllStored(a, channels[i]);
    }
  }

  method Happens() returns (ok: bool) {
    ok := *;
  }

  class Run {
    const db: Database
    const vacancy: RawPost -> bool // the text looks like a vacancy, or a link leads to one
    var stored: nat
    var filtered: nat
    var failed: nat

    constructor (db: Database, vacancy: RawPost -> bool)
      ensures this.db == db && this.vacancy == vacancy && stored == filtered == failed == 0
    {
      this.db, this.vacancy := db, vacancy;
      stored, filtered, failed := 0, 0, 0;
    }

    ghost predicate Counted(before: Posts, channels: seq<Channel>)
      reads this, db
    {
      && Grown(before, db.posts, channels, vacancy, db.now)
      && stored == |Queued(before, db.posts)| && filtered == |Recorded(before, db.posts)|
    }

    // Store one post; a post stored earlier is left alone and not counted.
    method StorePost(channels: seq<Channel>, i: nat, m: nat, ghost before: Posts) returns (ok: bool)
      requires i < |channels| && channels[i].fetched.Some? && m < |channels[i].fetched.value|
      requires Counted(before, channels)
      modifies this`stored, this`filtered, db`posts
      ensures Counted(before, channels) && forall k :: k in old(db.posts) ==> k in db.posts
      ensures ok ==> PostKey(channels[i].name, channels[i].fetched.value[m].msgId) in db.posts
    {
      var p := channels[i].fetched.value[m];
      var isVacancy := vacancy(p);
      ok := Happens();
      if !ok {
        return;
      }
      var key := PostKey(channels[i].name, p.msgId);
      var at := if isVacancy then None else Some(db.now);
      if key !in db.posts {
        OnePostMore(before, db.posts, channels, vacancy, db.now, i, m, key, Post(p.text, p.postedAt, at, FRESH));
        OnePostCounted(before, db.posts, key, Post(p.text, p.postedAt, at, FRESH));
      }
      var inserted := db.InsertTelegramPost(key, p.text, p.postedAt, at);
      if inserted {
        if isVacancy {
          stored := stored + 1;
        } else {
          filtered := filtered + 1;
        }
      }
    }

    // A channel's posts in order, up to the first that cannot be stored.
    method CrawlChannel(channels: seq<Channel>, i: nat, ghost before: Posts) returns (ok: bool)
      requires i < |channels| && Counted(before, channels)
      modifies this`stored, this`filtered, db`posts
      ensures Counted(before, channels) && forall k :: k in old(db.posts) ==> k in db.posts
      ensures ok ==> AllStored(db.posts, channels[i])
      ensures channels[i].fetched.None? ==> !ok
    {
      if channels[i].fetched.None? {
        return false;
      }
      for m := 0 to |channels[i].fetched.value|
        invariant Counted(before, channels) && forall k :: k in old(db.posts) ==> k in db.posts
        invariant StoredUpTo(db.posts, channels[i], m)
      {
        ghost var mid := db.posts;
        var done := StorePost(channels, i, m, before);
        if !done {
          return false;
        }
        OneMoreStored(mid, db.posts, channels[i], m);
      }
      ok := true;
    }

    // Every post of a channel that did not fail is in the table, once; a channel that could not be
    // fetched has failed. New vacancies are pending,
    // other new posts done, and both are counted; posts stored earlier are left as they were, so
    // crawling again what is already stored changes nothing. Cancelling ends the run early.
    method CrawlAll(channels: seq<Channel>) returns (finished: bool, ghost bad: set<nat>)
      requires stored == filtered == failed == 0
      modifies this, db`posts
      ensures Grown(old(db.posts), db.posts, channels, vacancy, db.now)
      ensures stored == |Queued(old(db.posts), db.posts)| && filtered == |Recorded(old(db.posts), db.posts)|
      ensures failed == |bad| && forall i :: i in bad ==> i < |channels|
      ensures finished ==> Covered(db.posts, channels, |channels|, bad)
      ensures (forall i :: 0 <= i < |channels| && channels[i].fetched.Some? ==>
                AllStored(old(db.posts), channels[i])) ==>
                db.posts == old(db.posts) && stored == filtered == 0
    {
      ghost var before := db.posts;
      assert Queued(before, before) == {} && Recorded(before, before) == {};
      finished, bad := CrawlEach(channels, before);
      if forall i :: 0 <= i < |channels| && channels[i].fetched.Some? ==> AllStored(before, channels[i]) {
        NothingNew(before, db.posts, channels, vacancy, db.now);
      }
    }

    method CrawlEach(channels: seq<Channel>, ghost before: Posts) returns (finished: bool, ghost bad: set<nat>)
      requires Counted(before, channels) && failed == 0
      modifies this, db`posts
      ensures Counted(before, channels) && failed == |bad| && forall i :: i in bad ==> i < |channels|
      ensures finished ==> Covered(db.posts, channels, |channels|, bad)
    {
      bad := {};
      for i := 0 to |channels|
        invariant Counted(before, channels) && Isolated(channels, i, bad)
      {
        var cancelled := Happens();
        if i > 0 && cancelled {
          return false, bad;
        }
        bad := CrawlNext(channels, i, before, bad);
      }
      finished := true;
    }

    // The first n channels are covered, but for the failed ones, which are counted.
    ghost predicate Isolated(channels: seq<Channel>, n: nat, bad: set<nat>)
      reads this, db
      requires n <= |channels|
    {
      failed == |bad| && (forall j :: j in bad ==> j < n) && Covered(db.posts, channels, n, bad)
    }

    method CrawlNext(channels: seq<Channel>, i: nat, ghost before: Posts, ghost bad: set<nat>)
              returns (ghost bad': set<nat>)
      requires i < |channels| && Counted(before, channels) && Isolated(channels, i, bad)
      modifies this, db`posts
      ensures Counted(before, channels) && Isolated(channels, i + 1, bad')
    {
      ghost var mid := db.posts;
      var ok := CrawlChannel(channels, i, before);
      StillCovered(mid, db.posts, channels, i, bad);
      bad' := bad;
      if !ok {
        failed := failed + 1;
        bad' := bad + {i};
      }
    }
  }

  lemma NothingNew(before: Posts, after: Posts, channels: seq<Channel>, vacancy: RawPost -> bool, at: Time)
    requires Grown(before, after, channels, vacancy, at)
    requires forall i :: 0 <= i < |channels| && channels[i].fetched.Some? ==> AllStored(before, channels[i])
    ensures after == before && Queued(before, after) == {} && Recorded(before, after) == {}
  {
    assert forall k :: k in after ==> k in before;
  }
}
