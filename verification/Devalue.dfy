// Nuxt payloads: an array of nodes whose objects and arrays refer to each other by index.
// The adapter resolves them with a cache shared by all nodes; the specification simply
// unfolds every reference.
module Devalue {
  import opened Wrappers

  datatype Json =
    | Null
    | Boolean(b: bool)
    | Number(n: real)
    | String(s: string)
    | Array(items: seq<Json>)
    | Object(fields: map<string, Json>)

  // A node is None when its text is not valid JSON.
  type Payload = seq<Option<Json>>

  datatype DecodeError = NotJson

  type Outcome = Result<Json, DecodeError>

  // A float converted to an int: the whole number next to it on the side of zero.
  function Truncated(n: real): (t: int)
    ensures n >= 0.0 ==> t as real <= n < (t + 1) as real
    ensures n < 0.0 ==> (t - 1) as real < n <= t as real
  {
    if n >= 0.0 then n.Floor else -((-n).Floor)
  }

  predicate InRange(raw: Payload, i: int) {
    0 <= i < |raw|
  }

  // An array headed by a string is a type token that wraps its second element.
  predicate Wrapper(items: seq<Json>) {
    |items| > 0 && items[0].String?
  }

  // The indices a node refers to.
  function Refs(node: Json): set<int> {
    match node
    case Object(fields) => set k | k in fields && fields[k].Number? :: Truncated(fields[k].n)
    case Array(items) =>
      if Wrapper(items) then (if |items| > 1 && items[1].Number? then {Truncated(items[1].n)} else {})
      else set k | 0 <= k < |items| && items[k].Number? :: Truncated(items[k].n)
    case _ => {}
  }

  // The nodes ranked include every node they refer to, with a smaller rank: the part of the
  // reference graph they span has no cycle.
  predicate Ranked(raw: Payload, rank: map<int, nat>) {
    forall i :: i in rank ==> InRange(raw, i) &&
                              (raw[i].Some? ==>
                                 forall r :: r in Refs(raw[i].value) && InRange(raw, r) ==>
                                           r in rank && rank[r] < rank[i])
  }

  ghost predicate Acyclic(raw: Payload, root: int) {
    exists rank :: Ranked(raw, rank) && (InRange(raw, root) ==> root in rank)
  }

  // ---------- Plain unfolding ----------

  predicate Below(raw: Payload, rank: map<int, nat>, ref: Json, limit: nat) {
    ref.Number? && InRange(raw, Truncated(ref.n)) ==> Truncated(ref.n) in rank && rank[Truncated(ref.n)] < limit
  }

  function Unfold(raw: Payload, rank: map<int, nat>, i: int): Outcome
    requires Ranked(raw, rank) && (InRange(raw, i) ==> i in rank)
    decreases if InRange(raw, i) then rank[i] + 1 else 0, 0
  {
    if !InRange(raw, i) then Ok(Null)
    else
      match raw[i]
      case None => Err(NotJson)
      case Some(Object(fields)) =>
        assert forall k :: k in fields && fields[k].Number? ==> Truncated(fields[k].n) in Refs(raw[i].value);
        UnfoldFields(raw, rank, fields, rank[i])
      case Some(Array(items)) =>
        if Wrapper(items) then
          if |items| > 1 then
            assert Below(raw, rank, items[1], rank[i]);
            UnfoldRef(raw, rank, items[1], rank[i])
          else Ok(Null)
        else
          assert forall k :: 0 <= k < |items| && items[k].Number? ==> Truncated(items[k].n) in Refs(raw[i].value);
          UnfoldItems(raw, rank, items, rank[i])
      case Some(scalar) => Ok(scalar)
  }

  // A number refers to a node; anything else stands for itself.
  function UnfoldRef(raw: Payload, rank: map<int, nat>, ref: Json, limit: nat): Outcome
    requires Ranked(raw, rank) && Below(raw, rank, ref, limit)
    decreases limit, 1
  {
    if ref.Number? then Unfold(raw, rank, Truncated(ref.n)) else Ok(ref)
  }

  function UnfoldFields(raw: Payload, rank: map<int, nat>, fields: map<string, Json>, limit: nat): Outcome
    requires Ranked(raw, rank) && forall k :: k in fields ==> Below(raw, rank, fields[k], limit)
    decreases limit, 2
  {
    if exists k :: k in fields && UnfoldRef(raw, rank, fields[k], limit).Err? then Err(NotJson)
    else Ok(Object(map k | k in fields :: UnfoldRef(raw, rank, fields[k], limit).value))
  }

  function UnfoldItems(raw: Payload, rank: map<int, nat>, items: seq<Json>, limit: nat): Outcome
    requires Ranked(raw, rank) && forall k :: 0 <= k < |items| ==> Below(raw, rank, items[k], limit)
    decreases limit, 2
  {
    if exists k :: 0 <= k < |items| && UnfoldRef(raw, rank, items[k], limit).Err? then Err(NotJson)
    else Ok(Array(seq(|items|, k requires 0 <= k < |items| => UnfoldRef(raw, rank, items[k], limit).value)))
  }

  // ---------- Memoised hydration ----------

  // From one snapshot of the cache to a later one: results stay, and every node decoded in
  // between is ranked under the limit, had not been decoded before and, unless an error
  // ended the run, is cached.
  ghost predicate Advanced(rank: map<int, nat>, limit: nat, ok: bool, done: seq<bool>, decoded: seq<nat>,
                           done': seq<bool>, decoded': seq<nat>) {
    && |done| == |decoded| == |done'| == |decoded'|
    && forall j :: 0 <= j < |done| ==>
                     (done[j] ==> done'[j]) && (done'[j] && !done[j] ==> j in rank && rank[j] < limit) &&
                     (decoded'[j] == decoded[j] ||
                      (j in rank && rank[j] < limit && decoded[j] == 0 && decoded'[j] == 1 && (ok ==> done'[j])))
  }

  // No node under the limit that still lacks a result has been decoded.
  ghost predicate Untouched(rank: map<int, nat>, limit: nat, done: seq<bool>, decoded: seq<nat>) {
    |done| == |decoded| && forall j :: 0 <= j < |done| && j in rank && rank[j] < limit && !done[j] ==> decoded[j] == 0
  }

  lemma AlsoDecoded(rank: map<int, nat>, i: int, ok: bool, done: seq<bool>, decoded: seq<nat>, entered: seq<nat>,
                    done': seq<bool>, decoded': seq<nat>)
    requires 0 <= i < |done| == |decoded| == |done'| && i in rank && decoded[i] == 0 && entered == decoded[i := 1]
    requires Advanced(rank, rank[i], ok, done, entered, done'[i := done[i]], decoded')
    requires ok ==> done'[i]
    requires !ok ==> done'[i] == done[i]
    ensures Advanced(rank, rank[i] + 1, ok, done, decoded, done', decoded')
  {
    forall j | 0 <= j < |done|
      ensures (done[j] ==> done'[j]) && (done'[j] && !done[j] ==> j in rank && rank[j] < rank[i] + 1)
      ensures decoded'[j] == decoded[j] ||
              (j in rank && rank[j] < rank[i] + 1 && decoded[j] == 0 && decoded'[j] == 1 && (ok ==> done'[j]))
    {
      assert j != i ==> done'[i := done[i]][j] == done'[j] && entered[j] == decoded[j];
    }
  }

  class Hydration {
    const raw: Payload
    ghost const rank: map<int, nat>
    const memo: array<Json>
    const done: array<bool>
    ghost var decoded: seq<nat> // how often each node's text has been decoded

    ghost predicate Valid()
      reads this, memo, done
    {
      && Ranked(raw, rank)
      && memo.Length == done.Length == |decoded| == |raw|
      && forall j :: 0 <= j < |raw| && done[j] ==> j in rank && decoded[j] == 1 && Unfold(raw, rank, j) == Ok(memo[j])
    }

    constructor (raw: Payload, ghost rank: map<int, nat>)
      requires Ranked(raw, rank)
      ensures Valid() && this.raw == raw && this.rank == rank && fresh(memo) && fresh(done)
      ensures forall j :: 0 <= j < |raw| ==> !done[j] && decoded[j] == 0
    {
      this.raw, this.rank := raw, rank;
      memo := new Json[|raw|](_ => Null);
      done := new bool[|raw|](_ => false);
      decoded := seq(|raw|, _ => 0);
    }

    method Hydrate(i: int) returns (r: Outcome)
      requires Valid() && (InRange(raw, i) ==> i in rank && Untouched(rank, rank[i] + 1, done[..], decoded))
      modifies this`decoded, memo, done
      ensures Valid() && r == Unfold(raw, rank, i)
      ensures Advanced(rank, if InRange(raw, i) then rank[i] + 1 else 0, r.Ok?, old(done[..]), old(decoded),
              done[..], decoded)
      decreases if InRange(raw, i) then rank[i] + 1 else 0, 0
    {
      if i < 0 || i >= |raw| {
        return Ok(Null);
      }
      if done[i] {
        return Ok(memo[i]);
      }
      decoded := decoded[i := decoded[i] + 1];
      ghost var entered := decoded;
      r := HydrateNode(i);
      ghost var resolved := done[..];
      if r.Ok? {
        memo[i], done[i] := r.value, true;
      }
      assert done[..][i := false] == resolved;
      AlsoDecoded(rank, i, r.Ok?, old(done[..]), old(decoded), entered, done[..], decoded);
    }

    // Resolve what a node that is not cached refers to.
    method HydrateNode(i: int) returns (r: Outcome)
      requires Valid() && InRange(raw, i) && i in rank && Untouched(rank, rank[i], done[..], decoded)
      modifies this`decoded, memo, done
      ensures Valid() && r == Unfold(raw, rank, i)
      ensures Advanced(rank, rank[i], r.Ok?, old(done[..]), old(decoded), done[..], decoded)
      ensures done[i] == old(done[i])
      decreases rank[i], 3
    {
      if raw[i].None? {
        return Err(NotJson);
      }
      match raw[i].value
      case Object(fields) =>
        assert forall k :: k in fields && fields[k].Number? ==> Truncated(fields[k].n) in Refs(raw[i].value);
        r := HydrateFields(fields, rank[i]);
      case Array(items) =>
        if Wrapper(items) {
          if |items| > 1 {
            assert Below(raw, rank, items[1], rank[i]);
            r := HydrateRef(items[1], rank[i]);
          } else {
            r := Ok(Null);
          }
        } else {
          assert forall k :: 0 <= k < |items| && items[k].Number? ==> Truncated(items[k].n) in Refs(raw[i].value);
          r := HydrateItems(items, rank[i]);
        }
      case _ =>
        r := Ok(raw[i].value);
    }

    method HydrateRef(ref: Json, ghost limit: nat) returns (r: Outcome)
      requires Valid() && Below(raw, rank, ref, limit) && Untouched(rank, limit, done[..], decoded)
      modifies this`decoded, memo, done
      ensures Valid() && r == UnfoldRef(raw, rank, ref, limit)
      ensures Advanced(rank, limit, r.Ok?, old(done[..]), old(decoded), done[..], decoded)
      ensures r.Ok? ==> Untouched(rank, limit, done[..], decoded)
      decreases limit, 1
    {
      if ref.Number? {
        r := Hydrate(Truncated(ref.n));
      } else {
        r := Ok(ref);
      }
    }

    // The fields come in any order.
    method HydrateFields(fields: map<string, Json>, ghost limit: nat) returns (r: Outcome)
      requires Valid() && (forall k :: k in fields ==> Below(raw, rank, fields[k], limit)) && Untouched(rank,
               limit, done[..], decoded)
      modifies this`decoded, memo, done
      ensures Valid() && r == UnfoldFields(raw, rank, fields, limit)
      ensures Advanced(rank, limit, r.Ok?, old(done[..]), old(decoded), done[..], decoded)
      decreases limit, 2
    {
      var obj: map<string, Json> := map[];
      var remaining := fields.Keys;
      while remaining != {}
        invariant Valid() && remaining <= fields.Keys && obj.Keys == fields.Keys - remaining
        invariant forall k :: k in obj ==> UnfoldRef(raw, rank, fields[k], limit) == Ok(obj[k])
        invariant Untouched(rank, limit, done[..], decoded)
        invariant Advanced(rank, limit, true, old(done[..]), old(decoded), done[..], decoded)
      {
        var k :| k in remaining;
        var v := HydrateRef(fields[k], limit);
        if v.Err? {
          return Err(NotJson);
        }
        obj := obj[k := v.value];
        remaining := remaining - {k};
      }
      assert obj == map k | k in fields :: UnfoldRef(raw, rank, fields[k], limit).value;
      r := Ok(Object(obj));
    }

    method HydrateItems(items: seq<Json>, ghost limit: nat) returns (r: Outcome)
      requires Valid() && (forall k :: 0 <= k < |items| ==> Below(raw, rank, items[k], limit)) && Untouched(rank,
               limit, done[..], decoded)
      modifies this`decoded, memo, done
      ensures Valid() && r == UnfoldItems(raw, rank, items, limit)
      ensures Advanced(rank, limit, r.Ok?, old(done[..]), old(decoded), done[..], decoded)
      decreases limit, 2
    {
      var arr: seq<Json> := [];
      for i := 0 to |items|
        invariant Valid() && |arr| == i
        invariant forall k :: 0 <= k < i ==> UnfoldRef(raw, rank, items[k], limit) == Ok(arr[k])
        invariant Untouched(rank, limit, done[..], decoded)
        invariant Advanced(rank, limit, true, old(done[..]), old(decoded), done[..], decoded)
      {
        var v := HydrateRef(items[i], limit);
        if v.Err? {
          return Err(NotJson);
        }
        arr := arr + [v.value];
      }
      assert arr == seq(|items|, k requires 0 <= k < |items| => UnfoldRef(raw, rank, items[k], limit).value);
      r := Ok(Array(arr));
    }
  }

  // Ranks only witness that the references have no cycle: the unfolding does not depend on
  // them.
  lemma {:induction false} UnfoldIgnoresRank(raw: Payload, rank: map<int, nat>, other: map<int, nat>, i: int)
    requires Ranked(raw, rank) && (InRange(raw, i) ==> i in rank)
    requires Ranked(raw, other) && (InRange(raw, i) ==> i in other)
    ensures Unfold(raw, rank, i) == Unfold(raw, other, i)
    decreases if InRange(raw, i) then rank[i] + 1 else 0, 0
  {
    if InRange(raw, i) && raw[i].Some? {
      match raw[i].value
      case Object(fields) =>
        assert forall k :: k in fields && fields[k].Number? ==> Truncated(fields[k].n) in Refs(raw[i].value);
        forall k | k in fields
          ensures UnfoldRef(raw, rank, fields[k], rank[i]) == UnfoldRef(raw, other, fields[k], other[i])
        {
          RefIgnoresRank(raw, rank, rank[i], other, other[i], fields[k]);
        }
        SameFields(raw, rank, rank[i], other, other[i], fields);
      case Array(items) =>
        assert !Wrapper(items) ==> forall k :: 0 <= k < |items| && items[k].Number? ==>
                  Truncated(items[k].n) in Refs(raw[i].value);
        forall k | 0 <= k < |items| && (!Wrapper(items) || k == 1)
          ensures UnfoldRef(raw, rank, items[k], rank[i]) == UnfoldRef(raw, other, items[k], other[i])
        {
          RefIgnoresRank(raw, rank, rank[i], other, other[i], items[k]);
        }
        if !Wrapper(items) {
          SameItems(raw, rank, rank[i], other, other[i], items);
        }
      case _ =>
    }
  }

  lemma SameItems(raw: Payload, rank: map<int, nat>, limit: nat, other: map<int, nat>, bound: nat, items: seq<Json>)
    requires Ranked(raw, rank) && forall k :: 0 <= k < |items| ==> Below(raw, rank, items[k], limit)
    requires Ranked(raw, other) && forall k :: 0 <= k < |items| ==> Below(raw, other, items[k], bound)
    requires forall k :: 0 <= k < |items| ==>
              UnfoldRef(raw, rank, items[k], limit) == UnfoldRef(raw, other, items[k], bound)
    ensures UnfoldItems(raw, rank, items, limit) == UnfoldItems(raw, other, items, bound)
  {
    var a, b := UnfoldItems(raw, rank, items, limit), UnfoldItems(raw, other, items, bound);
    if a.Ok? && b.Ok? {
      assert a.value.items == b.value.items;
    }
  }

  lemma SameFields(raw: Payload, rank: map<int, nat>, limit: nat, other: map<int, nat>, bound: nat,
                   fields: map<string, Json>)
    requires Ranked(raw, rank) && forall k :: k in fields ==> Below(raw, rank, fields[k], limit)
    requires Ranked(raw, other) && forall k :: k in fields ==> Below(raw, other, fields[k], bound)
    requires forall k :: k in fields ==>
              UnfoldRef(raw, rank, fields[k], limit) == UnfoldRef(raw, other, fields[k], bound)
    ensures UnfoldFields(raw, rank, fields, limit) == UnfoldFields(raw, other, fields, bound)
  {
    var a, b := UnfoldFields(raw, rank, fields, limit), UnfoldFields(raw, other, fields, bound);
    if a.Ok? && b.Ok? {
      assert a.value.fields == b.value.fields;
    }
  }

  lemma {:induction false} RefIgnoresRank(raw: Payload, rank: map<int, nat>, limit: nat, other: map<int, nat>,
                                          bound: nat, ref: Json)
    requires Ranked(raw, rank) && Below(raw, rank, ref, limit)
    requires Ranked(raw, other) && Below(raw, other, ref, bound)
    ensures UnfoldRef(raw, rank, ref, limit) == UnfoldRef(raw, other, ref, bound)
    decreases limit, 1
  {
    if ref.Number? {
      UnfoldIgnoresRank(raw, rank, other, Truncated(ref.n));
    }
  }

  // ---------- Following paths ----------

  // A path into a value: the keys of maps and the positions in arrays to take.
  datatype Hop = Key(name: string) | Position(k: nat)

  function Child(v: Json, hop: Hop): Option<Json> {
    match hop
    case Key(name) => if v.Object? && name in v.fields then Some(v.fields[name]) else None
    case Position(k) => if v.Array? && k < |v.items| then Some(v.items[k]) else None
  }

  function Follow(v: Json, path: seq<Hop>): Option<Json> {
    if path == [] then Some(v)
    else
      match Child(v, path[0])
      case None => None
      case Some(child) => Follow(child, path[1..])
  }

  // The same in the payload itself, from a field or element on, with nothing resolved beforehand:
  // a number leads to the node of that index, or to null when there is none, a type token to its
  // second element, and anything else is taken as it stands. At most `steps` nodes are visited.
  function Walk(raw: Payload, ref: Json, path: seq<Hop>, steps: nat): Option<Json>
    decreases steps, 0
  {
    if !ref.Number? then Follow(ref, path)
    else
      var i := Truncated(ref.n);
      if i < 0 || i >= |raw| then Follow(Null, path)
      else if raw[i].None? || steps == 0 then None
      else
        var node := raw[i].value;
        if node.Array? && node.items != [] && node.items[0].String? then
          if |node.items| == 1 then Follow(Null, path) else Walk(raw, node.items[1], path, steps - 1)
        else Onward(raw, node, path, steps - 1)
  }

  function Onward(raw: Payload, node: Json, path: seq<Hop>, steps: nat): Option<Json>
    decreases steps, 1
  {
    if path == [] then Some(node)
    else
      match Child(node, path[0])
      case None => None
      case Some(child) => Walk(raw, child, path[1..], steps)
  }

  // The same scalar, maps with the same keys, or arrays of the same length.
  predicate Alike(a: Json, b: Json) {
    match a
    case Object(fields) => b.Object? && b.fields.Keys == fields.Keys
    case Array(items) => b.Array? && |b.items| == |items|
    case _ => a == b
  }

  predicate BothAlike(a: Option<Json>, b: Option<Json>) {
    a.Some? == b.Some? && (a.Some? ==> Alike(a.value, b.value))
  }

  // Whatever path is followed into the value, it leads somewhere exactly when it does in the
  // payload, and to the same.
  ghost predicate Mirrors(raw: Payload, ref: Json, steps: nat, v: Json) {
    forall path :: BothAlike(Follow(v, path), Walk(raw, ref, path, steps))
  }

  lemma {:induction false} RefMirrors(raw: Payload, rank: map<int, nat>, ref: Json, limit: nat, path: seq<Hop>,
                                      depth: nat)
    requires Ranked(raw, rank) && Below(raw, rank, ref, limit) && UnfoldRef(raw, rank, ref, limit).Ok?
    requires ref.Number? ==> Finishes(raw, Truncated(ref.n), depth)
    ensures BothAlike(Follow(UnfoldRef(raw, rank, ref, limit).value, path), Walk(raw, ref, path, depth))
    decreases depth, 2
  {
    if ref.Number? {
      NodeMirrors(raw, rank, ref, path, depth);
    }
  }

  // The node a number refers to.
  lemma {:induction false} NodeMirrors(raw: Payload, rank: map<int, nat>, ref: Json, path: seq<Hop>, depth: nat)
    requires Ranked(raw, rank) && ref.Number? && (InRange(raw, Truncated(ref.n)) ==> Truncated(ref.n) in rank)
    requires Finishes(raw, Truncated(ref.n), depth) && Unfold(raw, rank, Truncated(ref.n)).Ok?
    ensures BothAlike(Follow(Unfold(raw, rank, Truncated(ref.n)).value, path), Walk(raw, ref, path, depth))
    decreases depth, 1
  {
    var i := Truncated(ref.n);
    if InRange(raw, i) {
      match raw[i].value
      case Object(fields) => ObjectMirrors(raw, rank, i, path, depth);
      case Array(items) =>
        if !Wrapper(items) {
          ArrayMirrors(raw, rank, i, path, depth);
        } else if |items| > 1 {
          assert Below(raw, rank, items[1], rank[i]);
          RefMirrors(raw, rank, items[1], rank[i], path, depth - 1);
        }
      case _ =>
    }
  }

  lemma {:induction false} ObjectMirrors(raw: Payload, rank: map<int, nat>, i: int, path: seq<Hop>, depth: nat)
    requires Ranked(raw, rank) && InRange(raw, i) && i in rank && raw[i].Some? && raw[i].value.Object?
    requires Finishes(raw, i, depth) && Unfold(raw, rank, i).Ok?
    ensures depth > 0
    ensures BothAlike(Follow(Unfold(raw, rank, i).value, path), Onward(raw, raw[i].value, path, depth - 1))
    decreases depth, 0
  {
    var fields, v := raw[i].value.fields, Unfold(raw, rank, i).value;
    assert forall k :: k in fields && fields[k].Number? ==> Truncated(fields[k].n) in Refs(raw[i].value);
    assert v.Object? && v.fields.Keys == fields.Keys;
    if path != [] && path[0].Key? && path[0].name in fields {
      var child := fields[path[0].name];
      assert v.fields[path[0].name] == UnfoldRef(raw, rank, child, rank[i]).value;
      RefMirrors(raw, rank, child, rank[i], path[1..], depth - 1);
    }
  }

  lemma {:induction false} ArrayMirrors(raw: Payload, rank: map<int, nat>, i: int, path: seq<Hop>, depth: nat)
    requires Ranked(raw, rank) && InRange(raw, i) && i in rank && raw[i].Some? && raw[i].value.Array?
    requires !Wrapper(raw[i].value.items) && Finishes(raw, i, depth) && Unfold(raw, rank, i).Ok?
    ensures depth > 0
    ensures BothAlike(Follow(Unfold(raw, rank, i).value, path), Onward(raw, raw[i].value, path, depth - 1))
    decreases depth, 0
  {
    var items, v := raw[i].value.items, Unfold(raw, rank, i).value;
    assert forall k :: 0 <= k < |items| && items[k].Number? ==> Truncated(items[k].n) in Refs(raw[i].value);
    assert v.Array? && |v.items| == |items|;
    if path != [] && path[0].Position? && path[0].k < |items| {
      var child := items[path[0].k];
      assert v.items[path[0].k] == UnfoldRef(raw, rank, child, rank[i]).value;
      RefMirrors(raw, rank, child, rank[i], path[1..], depth - 1);
    }
  }

  // Some node that node i leads to is not JSON.
  ghost predicate LeadsToBadText(raw: Payload, i: int) {
    || (InRange(raw, i) && raw[i].None?)
    || exists j, r :: Reachable(raw, i, j) && r in Refs(raw[j].value) && InRange(raw, r) && raw[r].None?
  }

  lemma FirstBadReference(raw: Payload, i: int)
    requires InRange(raw, i) && raw[i].Some?
    ensures LeadsToBadText(raw, i) <==> exists r :: r in Refs(raw[i].value) && LeadsToBadText(raw, r)
  {
    if LeadsToBadText(raw, i) {
      var j, r :| Reachable(raw, i, j) && r in Refs(raw[j].value) && InRange(raw, r) && raw[r].None?;
      var path :| Leads(raw, path, i, j);
      if |path| == 1 {
        assert LeadsToBadText(raw, r);
      } else {
        assert Leads(raw, path[1..], path[1], j);
        assert path[0 + 1] in Refs(raw[path[0]].value) && LeadsToBadText(raw, path[1]);
      }
    }
    if r :| r in Refs(raw[i].value) && LeadsToBadText(raw, r) {
      BadReferenceIsAhead(raw, i, r);
    }
  }

  lemma BadReferenceIsAhead(raw: Payload, i: int, r: int)
    requires InRange(raw, i) && raw[i].Some? && r in Refs(raw[i].value) && LeadsToBadText(raw, r)
    ensures LeadsToBadText(raw, i)
  {
    if InRange(raw, r) && raw[r].None? {
      assert Leads(raw, [i], i, i);
    } else {
      var j, bad :| Reachable(raw, r, j) && bad in Refs(raw[j].value) && InRange(raw, bad) && raw[bad].None?;
      var path :| Leads(raw, path, r, j);
      LongerPath(raw, i, path);
      assert Leads(raw, [i] + path, i, j);
    }
  }

  // The unfolding fails exactly when a node that is not JSON is reachable.
  lemma {:induction false} UnfoldingFails(raw: Payload, rank: map<int, nat>, i: int)
    requires Ranked(raw, rank) && (InRange(raw, i) ==> i in rank)
    ensures Unfold(raw, rank, i).Err? <==> LeadsToBadText(raw, i)
    decreases if InRange(raw, i) then rank[i] else 0
  {
    if InRange(raw, i) && raw[i].Some? {
      var node := raw[i].value;
      FirstBadReference(raw, i);
      forall r | r in Refs(node) && InRange(raw, r) ensures Unfold(raw, rank, r).Err? <==> LeadsToBadText(raw, r) {
        UnfoldingFails(raw, rank, r);
      }
      if node.Object? {
        ObjectFails(raw, rank, i);
      } else if node.Array? {
        if Wrapper(node.items) {
          TokenFails(raw, rank, i);
        } else {
          ArrayFails(raw, rank, i);
        }
      }
    }
  }

  // A node fails exactly when a node it refers to does.
  ghost predicate FailsWithAReference(raw: Payload, rank: map<int, nat>, i: int)
    requires Ranked(raw, rank) && InRange(raw, i) && i in rank && raw[i].Some?
  {
    Unfold(raw, rank, i).Err? <==>
    exists r :: r in Refs(raw[i].value) && InRange(raw, r) && Unfold(raw, rank, r).Err?
  }

  lemma ObjectFails(raw: Payload, rank: map<int, nat>, i: int)
    requires Ranked(raw, rank) && InRange(raw, i) && i in rank && raw[i].Some? && raw[i].value.Object?
    ensures FailsWithAReference(raw, rank, i)
  {
    var fields := raw[i].value.fields;
    assert forall k :: k in fields && fields[k].Number? ==> Truncated(fields[k].n) in Refs(raw[i].value);
    if r :| r in Refs(raw[i].value) && InRange(raw, r) && Unfold(raw, rank, r).Err? {
      var k :| k in fields && fields[k].Number? && Truncated(fields[k].n) == r;
      assert UnfoldRef(raw, rank, fields[k], rank[i]).Err?;
    }
    assert Unfold(raw, rank, i) == UnfoldFields(raw, rank, fields, rank[i]);
    if UnfoldFields(raw, rank, fields, rank[i]).Err? {
      var k :| k in fields && UnfoldRef(raw, rank, fields[k], rank[i]).Err?;
      assert Unfold(raw, rank, Truncated(fields[k].n)).Err?;
    }
  }

  lemma ArrayFails(raw: Payload, rank: map<int, nat>, i: int)
    requires Ranked(raw, rank) && InRange(raw, i) && i in rank && raw[i].Some? && raw[i].value.Array?
    requires !Wrapper(raw[i].value.items)
    ensures FailsWithAReference(raw, rank, i)
  {
    var items := raw[i].value.items;
    assert forall k :: 0 <= k < |items| && items[k].Number? ==> Truncated(items[k].n) in Refs(raw[i].value);
    if r :| r in Refs(raw[i].value) && InRange(raw, r) && Unfold(raw, rank, r).Err? {
      var k :| 0 <= k < |items| && items[k].Number? && Truncated(items[k].n) == r;
      assert UnfoldRef(raw, rank, items[k], rank[i]).Err?;
    }
    assert Unfold(raw, rank, i) == UnfoldItems(raw, rank, items, rank[i]);
    if UnfoldItems(raw, rank, items, rank[i]).Err? {
      var k :| 0 <= k < |items| && UnfoldRef(raw, rank, items[k], rank[i]).Err?;
      assert Unfold(raw, rank, Truncated(items[k].n)).Err?;
    }
  }

  lemma TokenFails(raw: Payload, rank: map<int, nat>, i: int)
    requires Ranked(raw, rank) && InRange(raw, i) && i in rank && raw[i].Some? && raw[i].value.Array?
    requires Wrapper(raw[i].value.items)
    ensures FailsWithAReference(raw, rank, i)
  {
    var items := raw[i].value.items;
    if |items| > 1 {
      assert Below(raw, rank, items[1], rank[i]);
      assert Refs(raw[i].value) == if items[1].Number? then {Truncated(items[1].n)} else {};
      assert Unfold(raw, rank, i) == UnfoldRef(raw, rank, items[1], rank[i]);
      assert items[1].Number? ==> Unfold(raw, rank, i) == Unfold(raw, rank, Truncated(items[1].n));
    } else {
      assert Refs(raw[i].value) == {};
    }
  }

  const FIRST := Number(0.0)

  lemma UnfoldingMirrors(raw: Payload, rank: map<int, nat>, v: Json)
    requires Ranked(raw, rank) && (InRange(raw, 0) ==> 0 in rank) && Unfold(raw, rank, 0) == Ok(v)
    ensures Mirrors(raw, FIRST, |raw|, v)
  {
    EndsExactly(raw, 0);
    forall path ensures BothAlike(Follow(v, path), Walk(raw, FIRST, path, |raw|)) {
      NodeMirrors(raw, rank, FIRST, path, |raw|);
    }
  }

  // Resolving an acyclic payload from its first node fails exactly when some node it leads to is
  // not JSON. Otherwise every path of keys and positions leads to the same in the value as in the
  // payload: the same scalar, the same keys, the same length. That is the plain unfolding, and no
  // node is decoded twice, however many references share it.
  method UnflattenPayload(raw: Payload) returns (r: Outcome, ghost decoded: seq<nat>)
    requires Acyclic(raw, 0)
    ensures r.Err? <==> LeadsToBadText(raw, 0)
    ensures r.Ok? ==> Mirrors(raw, FIRST, |raw|, r.value)
    ensures forall rank :: Ranked(raw, rank) && (InRange(raw, 0) ==> 0 in rank) ==> r == Unfold(raw, rank, 0)
    ensures |decoded| == |raw| && forall j :: 0 <= j < |raw| ==> decoded[j] <= 1
  {
    ghost var rank :| Ranked(raw, rank) && (InRange(raw, 0) ==> 0 in rank);
    var h := new Hydration(raw, rank);
    r := h.Hydrate(0);
    decoded := h.decoded;
    forall other | Ranked(raw, other) && (InRange(raw, 0) ==> 0 in other)
      ensures r == Unfold(raw, other, 0)
    {
      UnfoldIgnoresRank(raw, rank, other, 0);
    }
    UnfoldingFails(raw, rank, 0);
    if r.Ok? {
      UnfoldingMirrors(raw, rank, r.value);
    }
  }

  // ---------- Finding the vacancy ----------

  ghost predicate Within(part: Json, whole: Json)
    decreases whole
  {
    || part == whole
    || (whole.Object? && exists k :: k in whole.fields && Within(part, whole.fields[k]))
    || (whole.Array? && exists k :: 0 <= k < |whole.items| && Within(part, whole.items[k]))
  }

  predicate IsVacancy(node: Json) {
    node.Object? && "body" in node.fields && "position" in node.fields
  }

  // A vacancy is found exactly when the value holds one, at any depth and whatever order the
  // fields come in; the outermost one wins.
  method FindVacancy(node: Json) returns (r: Option<Json>)
    ensures r.Some? ==> IsVacancy(r.value) && Within(r.value, node)
    ensures r.None? ==> forall part :: Within(part, node) ==> !IsVacancy(part)
    ensures IsVacancy(node) ==> r == Some(node)
    decreases node
  {
    match node
    case Object(fields) =>
      if "body" in fields && "position" in fields {
        return Some(node);
      }
      var remaining := fields.Keys;
      while remaining != {}
        invariant remaining <= fields.Keys
        invariant forall k, part :: k in fields.Keys && k !in remaining && Within(part, fields[k]) ==> !IsVacancy(part)
      {
        var k :| k in remaining;
        r := FindVacancy(fields[k]);
        if r.Some? {
          return;
        }
        remaining := remaining - {k};
      }
      return None;
    case Array(items) =>
      for i := 0 to |items|
        invariant forall k, part :: 0 <= k < i && Within(part, items[k]) ==> !IsVacancy(part)
      {
        r := FindVacancy(items[i]);
        if r.Some? {
          return;
        }
      }
      return None;
    case _ =>
      return None;
  }

  // ---------- From the payload to the vacancy ----------

  ghost predicate Holds(value: Json) {
    exists part :: Within(part, value) && IsVacancy(part)
  }

  // A map with both keys, or a literal child that holds one; numbers are references.
  ghost predicate Own(node: Json) {
    match node
    case Object(fields) => IsVacancy(node) || exists k :: k in fields && !fields[k].Number? && Holds(fields[k])
    case Array(items) =>
      if Wrapper(items) then |items| > 1 && !items[1].Number? && Holds(items[1])
      else exists k :: 0 <= k < |items| && !items[k].Number? && Holds(items[k])
    case _ => false
  }

  // A chain of references from its first node to its last.
  ghost predicate Path(raw: Payload, path: seq<int>) {
    && path != [] && (forall k :: 0 <= k < |path| ==> InRange(raw, path[k]) && raw[path[k]].Some?)
    && forall k :: 0 <= k < |path| - 1 ==> path[k + 1] in Refs(raw[path[k]].value)
  }

  ghost predicate Leads(raw: Payload, path: seq<int>, i: int, j: int) {
    Path(raw, path) && path[0] == i && path[|path| - 1] == j
  }

  ghost predicate Reachable(raw: Payload, i: int, j: int) {
    exists path :: Leads(raw, path, i, j)
  }

  // Some node reachable from i is a vacancy, or holds one literally.
  ghost predicate LeadsToAVacancy(raw: Payload, i: int) {
    exists j :: Reachable(raw, i, j) && InRange(raw, j) && raw[j].Some? && Own(raw[j].value)
  }

  lemma FirstReference(raw: Payload, i: int)
    requires InRange(raw, i) && raw[i].Some?
    ensures LeadsToAVacancy(raw, i) <==>
              Own(raw[i].value) || exists r :: r in Refs(raw[i].value) && LeadsToAVacancy(raw, r)
  {
    if LeadsToAVacancy(raw, i) && !Own(raw[i].value) {
      var j :| Reachable(raw, i, j) && InRange(raw, j) && raw[j].Some? && Own(raw[j].value);
      var path :| Leads(raw, path, i, j);
      assert |path| > 1;
      assert Leads(raw, path[1..], path[1], j);
      assert path[1] in Refs(raw[path[0]].value);
    }
    if Own(raw[i].value) {
      assert Leads(raw, [i], i, i);
    }
    if r :| r in Refs(raw[i].value) && LeadsToAVacancy(raw, r) {
      var j :| Reachable(raw, r, j) && InRange(raw, j) && raw[j].Some? && Own(raw[j].value);
      var path :| Leads(raw, path, r, j);
      LongerPath(raw, i, path);
      assert Leads(raw, [i] + path, i, j);
    }
  }

  lemma LongerPath(raw: Payload, i: int, path: seq<int>)
    requires InRange(raw, i) && raw[i].Some? && Path(raw, path) && path[0] in Refs(raw[i].value)
    ensures Path(raw, [i] + path)
  {
    var longer := [i] + path;
    forall k | 0 <= k < |longer| ensures InRange(raw, longer[k]) && raw[longer[k]].Some? {
      assert k > 0 ==> longer[k] == path[k - 1];
    }
    forall k | 0 <= k < |longer| - 1 ensures longer[k + 1] in Refs(raw[longer[k]].value) {
      assert longer[k + 1] == path[k] && (k > 0 ==> longer[k] == path[k - 1]);
    }
  }

  lemma NowhereToGo(raw: Payload, i: int)
    requires !InRange(raw, i)
    ensures !LeadsToAVacancy(raw, i)
  {
  }

  lemma HoldsObject(fields: map<string, Json>)
    ensures Holds(Object(fields)) <==> IsVacancy(Object(fields)) || exists k :: k in fields && Holds(fields[k])
  {
    var whole := Object(fields);
    if part :| Within(part, whole) && IsVacancy(part) && part != whole {
      var k :| k in fields && Within(part, fields[k]);
      assert Holds(fields[k]);
    }
    if IsVacancy(whole) {
      assert Within(whole, whole);
    }
    if k :| k in fields && Holds(fields[k]) {
      var part :| Within(part, fields[k]) && IsVacancy(part);
      assert Within(part, whole);
    }
  }

  lemma HoldsArray(items: seq<Json>)
    ensures Holds(Array(items)) <==> exists k :: 0 <= k < |items| && Holds(items[k])
  {
    var whole := Array(items);
    if part :| Within(part, whole) && IsVacancy(part) {
      var k :| 0 <= k < |items| && Within(part, items[k]);
      assert Holds(items[k]);
    }
    if k :| 0 <= k < |items| && Holds(items[k]) {
      var part :| Within(part, items[k]) && IsVacancy(part);
      assert Within(part, whole);
    }
  }

  // What a field or element of a node holds: itself, or what its node leads to.
  ghost predicate RefLeads(raw: Payload, ref: Json) {
    if ref.Number? then LeadsToAVacancy(raw, Truncated(ref.n)) else Holds(ref)
  }

  lemma OwnOrReferred(raw: Payload, node: Json)
    ensures node.Object? ==>
              (Own(node) || (exists r :: r in Refs(node) && LeadsToAVacancy(raw, r)) <==>
               IsVacancy(node) || exists k :: k in node.fields && RefLeads(raw, node.fields[k]))
    ensures node.Array? && !Wrapper(node.items) ==>
              (Own(node) || (exists r :: r in Refs(node) && LeadsToAVacancy(raw, r)) <==>
               exists k :: 0 <= k < |node.items| && RefLeads(raw, node.items[k]))
    ensures node.Array? && Wrapper(node.items) ==>
              (Own(node) || (exists r :: r in Refs(node) && LeadsToAVacancy(raw, r)) <==>
               |node.items| > 1 && RefLeads(raw, node.items[1]))
  {
    match node
    case Object(fields) =>
      forall k | k in fields && fields[k].Number? ensures Truncated(fields[k].n) in Refs(node) {
      }
    case Array(items) =>
      if !Wrapper(items) {
        forall k | 0 <= k < |items| && items[k].Number? ensures Truncated(items[k].n) in Refs(node) {
        }
      }
    case _ =>
  }

  // The unfolding of a node holds a vacancy if and only if the node leads to one.
  lemma {:induction false} UnfoldingHolds(raw: Payload, rank: map<int, nat>, i: int)
    requires Ranked(raw, rank) && (InRange(raw, i) ==> i in rank)
    ensures Unfold(raw, rank, i).Ok? ==> (Holds(Unfold(raw, rank, i).value) <==> LeadsToAVacancy(raw, i))
    decreases if InRange(raw, i) then rank[i] + 1 else 0, 0
  {
    if !InRange(raw, i) {
      NowhereToGo(raw, i);
    } else if Unfold(raw, rank, i).Ok? {
      FirstReference(raw, i);
      OwnOrReferred(raw, raw[i].value);
      match raw[i].value
      case Object(fields) =>
        assert forall k :: k in fields && fields[k].Number? ==> Truncated(fields[k].n) in Refs(raw[i].value);
        FieldsHold(raw, rank, fields, rank[i]);
      case Array(items) =>
        if Wrapper(items) {
          if |items| > 1 {
            assert Below(raw, rank, items[1], rank[i]);
            RefHolds(raw, rank, items[1], rank[i]);
          }
        } else {
          assert forall k :: 0 <= k < |items| && items[k].Number? ==> Truncated(items[k].n) in Refs(raw[i].value);
          ItemsHold(raw, rank, items, rank[i]);
        }
      case _ =>
    }
  }

  lemma {:induction false} RefHolds(raw: Payload, rank: map<int, nat>, ref: Json, limit: nat)
    requires Ranked(raw, rank) && Below(raw, rank, ref, limit) && UnfoldRef(raw, rank, ref, limit).Ok?
    ensures Holds(UnfoldRef(raw, rank, ref, limit).value) <==> RefLeads(raw, ref)
    decreases limit, 1
  {
    if ref.Number? {
      UnfoldingHolds(raw, rank, Truncated(ref.n));
    }
  }

  lemma {:induction false} FieldsHold(raw: Payload, rank: map<int, nat>, fields: map<string, Json>, limit: nat)
    requires Ranked(raw, rank) && forall k :: k in fields ==> Below(raw, rank, fields[k], limit)
    requires UnfoldFields(raw, rank, fields, limit).Ok?
    ensures Holds(UnfoldFields(raw, rank, fields, limit).value) <==>
              IsVacancy(Object(fields)) || exists k :: k in fields && RefLeads(raw, fields[k])
    decreases limit, 2
  {
    var unfolded := UnfoldFields(raw, rank, fields, limit).value.fields;
    HoldsObject(unfolded);
    forall k | k in fields ensures Holds(unfolded[k]) <==> RefLeads(raw, fields[k]) {
      RefHolds(raw, rank, fields[k], limit);
    }
  }

  lemma {:induction false} ItemsHold(raw: Payload, rank: map<int, nat>, items: seq<Json>, limit: nat)
    requires Ranked(raw, rank) && forall k :: 0 <= k < |items| ==> Below(raw, rank, items[k], limit)
    requires UnfoldItems(raw, rank, items, limit).Ok?
    ensures Holds(UnfoldItems(raw, rank, items, limit).value) <==>
              exists k :: 0 <= k < |items| && RefLeads(raw, items[k])
    decreases limit, 2
  {
    var unfolded := UnfoldItems(raw, rank, items, limit).value.items;
    HoldsArray(unfolded);
    forall k | 0 <= k < |items| ensures Holds(unfolded[k]) <==> RefLeads(raw, items[k]) {
      RefHolds(raw, rank, items[k], limit);
    }
  }

  lemma {:induction false} FollowJoins(v: Json, path: seq<Hop>, more: seq<Hop>)
    requires Follow(v, path).Some?
    ensures Follow(v, path + more) == Follow(Follow(v, path).value, more)
    decreases |path|
  {
    if path == [] {
      assert [] + more == more;
    } else {
      assert (path + more)[1..] == path[1..] + more;
      FollowJoins(Child(v, path[0]).value, path[1..], more);
    }
  }

  // A part of a value lies at the end of some path.
  lemma {:induction false} WithinIsFollowed(part: Json, whole: Json) returns (path: seq<Hop>)
    requires Within(part, whole)
    ensures Follow(whole, path) == Some(part)
    decreases whole
  {
    path := [];
    if part != whole {
      if whole.Object? {
        var k :| k in whole.fields && Within(part, whole.fields[k]);
        var rest := WithinIsFollowed(part, whole.fields[k]);
        path := [Key(k)] + rest;
      } else {
        var k :| 0 <= k < |whole.items| && Within(part, whole.items[k]);
        var rest := WithinIsFollowed(part, whole.items[k]);
        path := [Position(k)] + rest;
      }
    }
  }

  // A value found at a path from the first node, and all that is under it.
  ghost predicate LiesAt(raw: Payload, at: seq<Hop>, v: Json) {
    forall path :: BothAlike(Follow(v, path), Walk(raw, FIRST, at + path, |raw|))
  }

  lemma PartLiesSomewhere(raw: Payload, whole: Json, part: Json) returns (at: seq<Hop>)
    requires Mirrors(raw, FIRST, |raw|, whole) && Within(part, whole)
    ensures LiesAt(raw, at, part)
  {
    at := WithinIsFollowed(part, whole);
    forall path ensures BothAlike(Follow(part, path), Walk(raw, FIRST, at + path, |raw|)) {
      FollowJoins(whole, at, path);
    }
  }

  lemma {:induction false} FollowedIsWithin(v: Json, path: seq<Hop>)
    requires Follow(v, path).Some?
    ensures Within(Follow(v, path).value, v)
    decreases |path|
  {
    if path != [] {
      FollowedIsWithin(Child(v, path[0]).value, path[1..]);
    }
  }

  predicate HasBoth(v: Option<Json>) {
    v.Some? && v.value.Object? && {"body", "position"} <= v.value.fields.Keys
  }

  lemma VacancyAtAPath(raw: Payload, v: Json)
    requires Mirrors(raw, FIRST, |raw|, v)
    ensures Holds(v) <==> exists path :: HasBoth(Walk(raw, FIRST, path, |raw|))
  {
    if part :| Within(part, v) && IsVacancy(part) {
      var path := WithinIsFollowed(part, v);
      assert HasBoth(Walk(raw, FIRST, path, |raw|));
    }
    if path :| HasBoth(Walk(raw, FIRST, path, |raw|)) {
      assert BothAlike(Follow(v, path), Walk(raw, FIRST, path, |raw|));
      FollowedIsWithin(v, path);
      assert IsVacancy(Follow(v, path).value);
    }
  }

  // From the payload of a detail page to its vacancy: an error exactly when a node the first one
  // leads to is not JSON; otherwise one is found if and only if some path leads to a map with both
  // keys, in a node or held literally by one, and its contents are what the payload has there.
  method DetailVacancy(raw: Payload) returns (r: Result<Option<Json>, DecodeError>)
    requires Acyclic(raw, 0)
    ensures r.Ok? ==> (r.value.Some? <==> LeadsToAVacancy(raw, 0))
    ensures r.Ok? ==> (r.value.Some? <==> exists path :: HasBoth(Walk(raw, FIRST, path, |raw|)))
    ensures r.Ok? && r.value.Some? ==> HasBoth(r.value) && exists at :: LiesAt(raw, at, r.value.value)
    ensures r.Err? <==> LeadsToBadText(raw, 0)
  {
    ghost var rank :| Ranked(raw, rank) && (InRange(raw, 0) ==> 0 in rank);
    var root, _ := UnflattenPayload(raw);
    if root.Err? {
      return Err(root.error);
    }
    UnfoldingHolds(raw, rank, 0);
    VacancyAtAPath(raw, root.value);
    var found := FindVacancy(root.value);
    assert found.None? ==> !Holds(root.value);
    assert found.Some? ==> Holds(root.value);
    if found.Some? {
      ghost var at := PartLiesSomewhere(raw, root.value, found.value);
    }
    r := Ok(found);
  }

  // ---------- When the resolution ends ----------

  // Hydrating node i returns within that many nested calls, whatever the order of its references.
  // The cache is of no help before a node is finished.
  ghost predicate Finishes(raw: Payload, i: int, depth: nat)
    decreases depth
  {
    || !InRange(raw, i) || raw[i].None?
    || (depth > 0 && forall r :: r in Refs(raw[i].value) ==> Finishes(raw, r, depth - 1))
  }

  ghost predicate Ends(raw: Payload, i: int) {
    exists depth: nat :: Finishes(raw, i, depth)
  }

  // Following references from node i meets some node twice.
  ghost predicate CycleAhead(raw: Payload, i: int) {
    exists path, a, b :: Path(raw, path) && path[0] == i && Repeats(path, a, b)
  }

  predicate Repeats(path: seq<int>, a: int, b: int) {
    0 <= a < b < |path| && path[a] == path[b]
  }

  lemma {:induction false} FinishesLonger(raw: Payload, i: int, depth: nat, more: nat)
    requires Finishes(raw, i, depth) && depth <= more
    ensures Finishes(raw, i, more)
    decreases depth
  {
    if InRange(raw, i) && raw[i].Some? {
      forall r | r in Refs(raw[i].value) ensures Finishes(raw, r, more - 1) {
        FinishesLonger(raw, r, depth - 1, more - 1);
      }
    }
  }

  lemma {:induction false} RankedFinishes(raw: Payload, rank: map<int, nat>, i: int)
    requires Ranked(raw, rank) && i in rank
    ensures Finishes(raw, i, rank[i] + 1)
    decreases rank[i]
  {
    if raw[i].Some? {
      forall r | r in Refs(raw[i].value) ensures Finishes(raw, r, rank[i]) {
        if InRange(raw, r) {
          RankedFinishes(raw, rank, r);
          FinishesLonger(raw, r, rank[r] + 1, rank[i]);
        }
      }
    }
  }

  ghost function LeastDepth(raw: Payload, i: int, depth: nat): (d: nat)
    requires Finishes(raw, i, depth)
    ensures d <= depth && Finishes(raw, i, d) && (d > 0 ==> !Finishes(raw, i, d - 1))
    decreases depth
  {
    if depth > 0 && Finishes(raw, i, depth - 1) then LeastDepth(raw, i, depth - 1) else depth
  }

  lemma ReferencesAreShallower(raw: Payload, i: int, r: int, depth: nat)
    requires InRange(raw, i) && raw[i].Some? && Finishes(raw, i, depth) && r in Refs(raw[i].value)
    ensures Finishes(raw, r, depth) && LeastDepth(raw, r, depth) < LeastDepth(raw, i, depth)
  {
    var d, e := LeastDepth(raw, i, depth), LeastDepth(raw, i, depth) - 1;
    assert Finishes(raw, r, e);
    FinishesLonger(raw, r, e, depth);
    if LeastDepth(raw, r, depth) >= d {
      FinishesLonger(raw, r, e, LeastDepth(raw, r, depth) - 1);
    }
  }

  lemma FinishingIsRanked(raw: Payload, i: int, depth: nat)
    requires Finishes(raw, i, depth)
    ensures Acyclic(raw, i)
  {
    var rank := map j | 0 <= j < |raw| && Finishes(raw, j, depth) :: LeastDepth(raw, j, depth);
    forall j | j in rank && raw[j].Some?
      ensures forall r :: r in Refs(raw[j].value) && InRange(raw, r) ==> r in rank && rank[r] < rank[j]
    {
      forall r | r in Refs(raw[j].value) && InRange(raw, r) ensures r in rank && rank[r] < rank[j] {
        ReferencesAreShallower(raw, j, r, depth);
      }
    }
    assert Ranked(raw, rank);
  }

  // Ranks fall along a path, so it repeats nothing.
  lemma {:induction false} RanksFall(raw: Payload, rank: map<int, nat>, path: seq<int>, a: nat, b: nat)
    requires Ranked(raw, rank) && Path(raw, path) && path[0] in rank && a <= b < |path|
    ensures path[a] in rank && path[b] in rank && rank[path[b]] + (b - a) <= rank[path[a]]
    decreases b
  {
    if b > 0 {
      RanksFall(raw, rank, path, if a < b then a else a - 1, b - 1);
      assert path[b - 1 + 1] in Refs(raw[path[b - 1]].value);
    }
  }

  // A resolution that is not finished at some depth has followed a path of that length.
  lemma {:induction false} DeepPath(raw: Payload, i: int, depth: nat) returns (path: seq<int>)
    requires !Finishes(raw, i, depth)
    ensures Path(raw, path) && path[0] == i && |path| == depth + 1
    decreases depth
  {
    if depth == 0 {
      path := [i];
    } else {
      var r :| r in Refs(raw[i].value) && !Finishes(raw, r, depth - 1);
      var rest := DeepPath(raw, r, depth - 1);
      LongerPath(raw, i, rest);
      path := [i] + rest;
    }
  }

  lemma {:induction false} AsManyAsListed(path: seq<int>)
    requires forall a, b :: !Repeats(path, a, b)
    ensures |set x | x in path| == |path|
  {
    if path != [] {
      var rest, last := path[..|path| - 1], path[|path| - 1];
      forall a, b ensures !Repeats(rest, a, b) {
        assert !Repeats(path, a, b);
      }
      AsManyAsListed(rest);
      forall a | 0 <= a < |rest| ensures rest[a] != last {
        assert !Repeats(path, a, |path| - 1);
      }
      assert (set x | x in path) == (set x | x in rest) + {last};
    }
  }

  lemma {:induction false} AtMostBelow(s: set<int>, n: nat)
    requires forall x :: x in s ==> 0 <= x < n
    ensures |s| <= n
  {
    if n == 0 {
      assert forall x :: x in s ==> 0 <= x < n;
      assert forall x: int :: x !in s;
      assert s == {};
    } else {
      AtMostBelow(s - {n - 1}, n - 1);
      assert s <= (s - {n - 1}) + {n - 1};
      if n - 1 in s {
        assert s == (s - {n - 1}) + {n - 1};
      } else {
        assert s == s - {n - 1};
      }
    }
  }

  lemma LongPathsRepeat(raw: Payload, path: seq<int>)
    requires Path(raw, path) && |path| > |raw|
    ensures exists a, b :: Repeats(path, a, b)
  {
    if forall a, b :: !Repeats(path, a, b) {
      AsManyAsListed(path);
      AtMostBelow(set x | x in path, |raw|);
    }
  }

  // The resolution of a node ends if and only if no cycle is ahead of it, which is what ranking
  // the nodes means; and then it never nests deeper than there are nodes.
  lemma EndsExactly(raw: Payload, i: int)
    ensures Ends(raw, i) <==> Acyclic(raw, i)
    ensures Acyclic(raw, i) <==> !CycleAhead(raw, i)
    ensures Acyclic(raw, i) ==> Finishes(raw, i, |raw|)
  {
    if Finishes(raw, i, |raw|) {
      FinishingIsRanked(raw, i, |raw|);
      NoCycleIsRanked(raw, i);
    } else {
      var path := DeepPath(raw, i, |raw|);
      LongPathsRepeat(raw, path);
      var a, b :| Repeats(path, a, b);
      assert CycleAhead(raw, i);
      if Acyclic(raw, i) {
        NoCycleIsRanked(raw, i);
      }
      if Ends(raw, i) {
        var depth: nat :| Finishes(raw, i, depth);
        FinishingIsRanked(raw, i, depth);
      }
    }
  }

  lemma NoCycleIsRanked(raw: Payload, i: int)
    requires Acyclic(raw, i)
    ensures !CycleAhead(raw, i)
  {
    var rank :| Ranked(raw, rank) && (InRange(raw, i) ==> i in rank);
    forall path, a, b | Path(raw, path) && path[0] == i
      ensures !Repeats(path, a, b)
    {
      if Repeats(path, a, b) {
        RanksFall(raw, rank, path, a, b);
      }
    }
  }
}
