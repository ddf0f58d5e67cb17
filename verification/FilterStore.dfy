// The reactive filter store: every mutation updates the filters and mirrors them into the
// URL; browser navigation changes the URL and asks the store to follow.
module Filters {
  import opened Wrappers
  import opened FacetParams
  import opened Numbers
  import opened Text
  import opened Sequences

  // ---------- Serialising ----------

  lemma {:induction false} SetAppends(p: Params, key: string, value: string)
    requires GetAll(p, key) == []
    ensures Set(p, key, value) == p + [Param(key, value)]
  {
    if p != [] {
      SetAppends(p[1..], key, value);
      assert [p[0]] + (p[1..] + [Param(key, value)]) == p + [Param(key, value)];
    }
  }

  lemma {:induction false} FacetsPartConcat(a: seq<string>, b: seq<string>, f: JobFilters)
    ensures FacetsPart(a + b, f) == FacetsPart(a, f) + FacetsPart(b, f)
  {
    if a == [] {
      Nothing(b);
      Nothing(FacetsPart(b, f));
    } else {
      FacetsPartConcat(a[1..], b, f);
      ConcatTail(a, b);
      Regroup(FacetPart(a[0], StateOf(f, a[0])), FacetsPart(a[1..], f), FacetsPart(b, f));
    }
  }

  lemma FacetsPartExtends(names: seq<string>, f: JobFilters, i: nat)
    requires i < |names|
    ensures FacetsPart(names[..i + 1], f) == FacetsPart(names[..i], f) + FacetPart(names[i], StateOf(f, names[i]))
  {
    assert names[..i + 1] == names[..i] + [names[i]];
    FacetsPartConcat(names[..i], [names[i]], f);
    assert [names[i]][1..] == [];
    Nothing(FacetPart(names[i], StateOf(f, names[i])));
  }

  // The part of the query written before facet i.
  function Written(f: JobFilters, i: nat): Params
    requires i <= |FACETS|
  {
    Single(f.q != "", "q", f.q) + FacetsPart(FACETS[..i], f)
  }

  lemma OneFacetMore(f: JobFilters, i: nat)
    requires i < |FACETS|
    ensures Written(f, i + 1) == Written(f, i) + FacetPart(FACETS[i], StateOf(f, FACETS[i]))
  {
    FacetsPartExtends(FACETS, f, i);
    Regroup(Single(f.q != "", "q", f.q), FacetsPart(FACETS[..i], f), FacetPart(FACETS[i], StateOf(f, FACETS[i])));
  }

  // A key no earlier facet owns has not been written yet.
  lemma NotWrittenYet(f: JobFilters, i: nat, key: string, owner: string)
    requires i <= |FACETS| && Known(owner) && KeyOf(key, owner) && owner !in FACETS[..i] && key != "q"
    ensures GetAll(Written(f, i), key) == []
  {
    NamesArePlain();
    FacetsAreDistinct();
    forall name | name in FACETS[..i] ensures Known(name) {
      assert name in FACETS;
    }
    OwnedByOne(key, owner);
    GetAllFacetsPart(FACETS[..i], f, key, owner);
    GetAllConcat(Single(f.q != "", "q", f.q), FacetsPart(FACETS[..i], f), key);
  }

  method AppendValues(p: Params, key: string, values: seq<string>) returns (r: Params)
    ensures r == p + Repeat(key, values)
  {
    r := p;
    for i := 0 to |values|
      invariant r + Repeat(key, values[i..]) == p + Repeat(key, values)
    {
      assert values[i..][1..] == values[i + 1..];
      assert Repeat(key, values[i..]) == [Param(key, values[i])] + Repeat(key, values[i + 1..]);
      assert r + ([Param(key, values[i])] + Repeat(key, values[i + 1..])) == r + [Param(key,
             values[i])] + Repeat(key, values[i + 1..]);
      r := r + [Param(key, values[i])];
    }
    assert r + Repeat(key, values[|values|..]) == r;
  }

  method WriteFacet(p: Params, f: JobFilters, i: nat) returns (r: Params)
    requires i < |FACETS| && p == Written(f, i)
    ensures r == Written(f, i + 1)
  {
    var param := FACETS[i];
    var st := StateOf(f, param);
    OneFacetMore(f, i);
    if st.values == [] {
      assert FacetPart(param, st) == [];
      return p;
    }
    r := AppendValues(p, ValueKey(param, st), st.values);
    if st.matchAll && !st.exclude && |st.values| > 1 {
      ModeNotWrittenYet(f, i);
      SetAppends(r, param + "_mode", "and");
      r := Set(r, param + "_mode", "and");
    }
  }

  lemma ModeNotWrittenYet(f: JobFilters, i: nat)
    requires i < |FACETS|
    ensures var param := FACETS[i];
            var st := StateOf(f, param);
            GetAll(Written(f, i) + Repeat(ValueKey(param, st), st.values), param + "_mode") == []
  {
    var param := FACETS[i];
    var st := StateOf(f, param);
    FacetsAreDistinct();
    NamesArePlain();
    SuffixesDiffer(param, param);
    assert param + "_mode" != "q" by { assert |param + "_mode"| > 1; }
    assert param !in FACETS[..i];
    NotWrittenYet(f, i, param + "_mode", param);
    GetAllConcat(Written(f, i), Repeat(ValueKey(param, st), st.values), param + "_mode");
    GetAllRepeat(ValueKey(param, st), st.values, param + "_mode");
  }

  method SetOnce(p: Params, present: bool, key: string, value: string) returns (r: Params)
    requires GetAll(p, key) == []
    ensures r == p + Single(present, key, value)
  {
    r := p;
    if present {
      SetAppends(p, key, value);
      r := Set(p, key, value);
    }
  }

  lemma TailNotWrittenYet(f: JobFilters, tail: Params, key: string)
    requires key in ["visa_sponsorship", "salary_min", "sort"]
    requires GetAll(tail, key) == []
    ensures GetAll(Written(f, |FACETS|) + tail, key) == []
    ensures Written(f, |FACETS|) + [] == Written(f, |FACETS|)
  {
    NamesArePlain();
    assert FACETS[..|FACETS|] == FACETS;
    NotWrittenYet(f, |FACETS|, key, key);
    GetAllConcat(Written(f, |FACETS|), tail, key);
  }

  function Visa(f: JobFilters): Params {
    Single(f.visa, "visa_sponsorship", "true")
  }

  function Salary(f: JobFilters): Params {
    Single(f.salaryMin.Some?, "salary_min", if f.salaryMin.Some? then Printed(f.salaryMin.value) else "")
  }

  lemma TailKeysAreFresh(f: JobFilters)
    ensures var facets := Written(f, |FACETS|);
            && GetAll(facets, "visa_sponsorship") == []
            && GetAll(facets + Visa(f), "salary_min") == []
            && GetAll(facets + Visa(f) + Salary(f), "sort") == []
  {
    var facets := Written(f, |FACETS|);
    TailNotWrittenYet(f, [], "visa_sponsorship");
    TailNotWrittenYet(f, Visa(f), "salary_min");
    GetAllConcat(Visa(f), Salary(f), "sort");
    TailNotWrittenYet(f, Visa(f) + Salary(f), "sort");
    Regroup(facets, Visa(f), Salary(f));
  }

  method WriteTail(facets: Params, f: JobFilters) returns (p: Params)
    requires facets == Written(f, |FACETS|)
    ensures p == facets + TailPart(f)
  {
    TailKeysAreFresh(f);
    p := SetOnce(facets, f.visa, "visa_sponsorship", "true");
    p := SetOnce(p, f.salaryMin.Some?, "salary_min", if f.salaryMin.Some? then Printed(f.salaryMin.value) else "");
    p := SetOnce(p, f.sort != PostedAt, "sort", "created_at");
    Regroup(facets, Visa(f), Salary(f));
    Regroup(facets, Visa(f) + Salary(f), Single(f.sort == CreatedAt, "sort", "created_at"));
  }

  method FiltersToParams(f: JobFilters) returns (p: Params)
    ensures p == ToParams(f)
  {
    p := [];
    if f.q != "" {
      p := Set(p, "q", f.q);
    }
    for i := 0 to |FACETS|
      invariant p == Written(f, i)
    {
      p := WriteFacet(p, f, i);
    }
    assert FACETS[..|FACETS|] == FACETS;
    p := WriteTail(p, f);
  }

  // ---------- Parsing ----------

  // The facets when those among `read` have been read from the query.
  function Parsed(p: Params, names: seq<string>, read: seq<string>): map<string, FacetState> {
    map param | param in names :: if param in read then FacetFrom(p, param) else EMPTY_FACET
  }

  lemma ParseOneMore(p: Params, names: seq<string>, i: nat)
    requires i < |names|
    ensures Parsed(p, names, names[..i])[names[i] := FacetFrom(p, names[i])] == Parsed(p, names, names[..i + 1])
    ensures FacetFrom(p, names[i]) == EMPTY_FACET ==> Parsed(p, names, names[..i]) == Parsed(p, names, names[..i + 1])
  {
    assert names[..i + 1] == names[..i] + [names[i]];
  }

  method ReadFacets(p: Params, names: seq<string>) returns (facets: map<string, FacetState>)
    ensures facets == Parsed(p, names, names)
  {
    facets := map param | param in names :: EMPTY_FACET;
    for i := 0 to |names|
      invariant facets == Parsed(p, names, names[..i])
    {
      var excluded := GetAll(p, names[i] + "_exclude");
      var included := GetAll(p, names[i]);
      var matchAll := Get(p, names[i] + "_mode") == Some("and");
      ParseOneMore(p, names, i);
      if |excluded| > 0 {
        facets := facets[names[i] := FacetState(excluded, true, matchAll)];
      } else if |included| > 0 {
        facets := facets[names[i] := FacetState(included, false, matchAll)];
      }
    }
    assert names[..|names|] == names;
  }

  // What a query says of a facet: excluded values win over included ones, and match-all stands for
  // itself.
  predicate ReadAs(p: Params, param: string, st: FacetState) {
    var included, excluded := GetAll(p, param), GetAll(p, param + "_exclude");
    var mode := GetAll(p, param + "_mode");
    && st.values == (if excluded != [] then excluded else included)
    && (st.exclude <==> excluded != [])
    && (st.matchAll <==> st.values != [] && mode != [] && mode[0] == "and")
  }

  // Of the other parameters the first value counts.
  predicate ReadScalars(p: Params, f: JobFilters) {
    var q, visa := GetAll(p, "q"), GetAll(p, "visa_sponsorship");
    var sort, salary := GetAll(p, "sort"), GetAll(p, "salary_min");
    && f.q == (if q == [] then "" else q[0])
    && (f.visa <==> visa != [] && visa[0] == "true")
    && (f.sort.CreatedAt? <==> sort != [] && sort[0] == "created_at")
    && f.salaryMin == if salary == [] || salary[0] == "" then None else ToNumber(salary[0])
  }

  lemma EveryFacetIsRead(p: Params)
    ensures forall param :: param in FACETS ==> ReadAs(p, param, StateOf(FromParams(p), param))
  {
    forall param | param in FACETS ensures ReadAs(p, param, StateOf(FromParams(p), param)) {
      assert StateOf(FromParams(p), param) == FacetFrom(p, param);
    }
  }

  lemma ScalarsAreRead(p: Params)
    ensures ReadScalars(p, FromParams(p))
  {
  }

  method FiltersFromParams(p: Params) returns (f: JobFilters)
    ensures f == FromParams(p)
    ensures forall param :: param in FACETS ==> ReadAs(p, param, StateOf(f, param))
    ensures ReadScalars(p, f)
  {
    EveryFacetIsRead(p);
    ScalarsAreRead(p);
    var facets := ReadFacets(p, FACETS);
    assert facets == FacetsFrom(p);
    var q, visa, salary, sort := Get(p, "q"), Get(p, "visa_sponsorship"), Get(p, "salary_min"), Get(p, "sort");
    f := JobFilters(
      if q.Some? then q.value else "",
      facets,
      visa == Some("true"),
      if salary.Some? && salary.value != "" then ToNumber(salary.value) else None,
      if sort == Some("created_at") then CreatedAt else PostedAt
    );
  }

  // ---------- Sessions ----------

  datatype Mutation =
    | SetQuery(q: string)
    | SetVisa(on: bool)
    | SetSalaryMin(n: Option<Amount>)
    | SetSort(sort: Sort)
    | SetMatchAll(param: string, on: bool)
    | Toggle(param: string, v: string)
    | Add(param: string, raw: string)
    | Remove(param: string, v: string)
    | ClearFacet(param: string)
    | SetExclude(param: string, on: bool)
    | Clear

  // The store's filters and the address bar's query.
  datatype Session = Session(value: JobFilters, url: Params)

  function Dropping(values: seq<string>, v: string): seq<string> {
    if values == [] then []
    else (if values[0] == v then [] else [values[0]]) + Dropping(values[1..], v)
  }

  function WithFacet(f: JobFilters, param: string, st: FacetState): JobFilters {
    f.(facets := f.facets[param := st])
  }

  function Cleared(f: JobFilters): JobFilters {
    f.(q := "", facets := map param | param in FACETS ::
              EMPTY_FACET, visa := false, salaryMin := None, sort := PostedAt)
  }

  function Mutate(f: JobFilters, m: Mutation): JobFilters {
    match m
    case SetQuery(q) => f.(q := q)
    case SetVisa(on) => f.(visa := on)
    case SetSalaryMin(n) => f.(salaryMin := n)
    case SetSort(sort) => f.(sort := sort)
    case SetMatchAll(param, on) => WithFacet(f, param, StateOf(f, param).(matchAll := on))
    case Toggle(param, v) =>
      var st := StateOf(f, param);
      WithFacet(f, param, st.(values := if v in st.values then Dropping(st.values, v) else st.values + [v]))
    case Add(param, raw) =>
      var st := StateOf(f, param);
      WithFacet(f, param, st.(values := st.values + [TrimBy(raw, JS_SPACE)]))
    case Remove(param, v) =>
      var st := StateOf(f, param);
      WithFacet(f, param, st.(values := Dropping(st.values, v)))
    case ClearFacet(param) => WithFacet(f, param, EMPTY_FACET)
    case SetExclude(param, on) => WithFacet(f, param, StateOf(f, param).(exclude := on))
    case Clear => Cleared(f)
  }

  // Adding a blank or duplicate token changes nothing and does not touch the URL.
  predicate Ignored(f: JobFilters, m: Mutation) {
    m.Add? && (TrimBy(m.raw, JS_SPACE) == "" || TrimBy(m.raw, JS_SPACE) in StateOf(f, m.param).values)
  }

  function Mirrored(value: JobFilters): Session {
    Session(value, ToParams(value))
  }

  function Act(s: Session, m: Mutation): Session {
    if Ignored(s.value, m) then s
    else Mirrored(Mutate(s.value, m))
  }

  function Sync(s: Session): Session {
    if s.url == ToParams(s.value) then s else s.(value := FromParams(s.url))
  }

  // The user mutates the filters, or goes back, forward or to a pasted address, which the
  // store then follows.
  datatype Event = Do(m: Mutation) | Navigate(url: Params)

  function Handle(s: Session, e: Event): Session {
    match e
    case Do(m) => Act(s, m)
    case Navigate(url) => Sync(s.(url := url))
  }

  function HandleAll(s: Session, events: seq<Event>): Session
    decreases |events|
  {
    if events == [] then s else HandleAll(Handle(s, events[0]), events[1..])
  }

  // The URL mirrors the filters, or the filters were read from it.
  predicate Settled(s: Session) {
    s.url == ToParams(s.value) || s.value == FromParams(s.url)
  }

  class FilterStore {
    var value: JobFilters
    var url: Params

    constructor (initial: Params)
      ensures Current() == Session(FromParams(initial), initial)
    {
      var parsed := FiltersFromParams(initial);
      value, url := parsed, initial;
    }

    function Current(): Session
      reads this
    {
      Session(value, url)
    }

    method Commit()
      modifies this`url
      ensures url == ToParams(value)
    {
      url := FiltersToParams(value);
    }

    method Replace(f: JobFilters)
      modifies this
      ensures Current() == Mirrored(f)
    {
      value := f;
      Commit();
    }

    method SetQuery(q: string)
      modifies this
      ensures Current() == Act(old(Current()), Mutation.SetQuery(q))
    {
      value := value.(q := q);
      Commit();
    }

    method SetVisa(on: bool)
      modifies this
      ensures Current() == Act(old(Current()), Mutation.SetVisa(on))
    {
      value := value.(visa := on);
      Commit();
    }

    method SetSalaryMin(n: Option<Amount>)
      modifies this
      ensures Current() == Act(old(Current()), Mutation.SetSalaryMin(n))
    {
      value := value.(salaryMin := n);
      Commit();
    }

    method SetSort(sort: Sort)
      modifies this
      ensures Current() == Act(old(Current()), Mutation.SetSort(sort))
    {
      value := value.(sort := sort);
      Commit();
    }

    method SetFacet(param: string, st: FacetState)
      modifies this
      ensures Current() == Mirrored(WithFacet(old(value), param, st))
    {
      value := value.(facets := value.facets[param := st]);
      Commit();
    }

    method SetMatchAll(param: string, on: bool)
      modifies this
      ensures Current() == Act(old(Current()), Mutation.SetMatchAll(param, on))
    {
      SetFacet(param, StateOf(value, param).(matchAll := on));
    }

    method Toggle(param: string, v: string)
      modifies this
      ensures Current() == Act(old(Current()), Mutation.Toggle(param, v))
    {
      var st := StateOf(value, param);
      SetFacet(param, st.(values := if v in st.values then Dropping(st.values, v) else st.values + [v]));
    }

    method Add(param: string, raw: string)
      modifies this
      ensures Current() == Act(old(Current()), Mutation.Add(param, raw))
    {
      var v := TrimBy(raw, JS_SPACE);
      var st := StateOf(value, param);
      if v == "" || v in st.values {
        return;
      }
      SetFacet(param, st.(values := st.values + [v]));
    }

    method Remove(param: string, v: string)
      modifies this
      ensures Current() == Act(old(Current()), Mutation.Remove(param, v))
    {
      var st := StateOf(value, param);
      SetFacet(param, st.(values := Dropping(st.values, v)));
    }

    method ClearFacet(param: string)
      modifies this
      ensures Current() == Act(old(Current()), Mutation.ClearFacet(param))
    {
      SetFacet(param, EMPTY_FACET);
    }

    method SetExclude(param: string, on: bool)
      modifies this
      ensures Current() == Act(old(Current()), Mutation.SetExclude(param, on))
    {
      SetFacet(param, StateOf(value, param).(exclude := on));
    }

    method Clear()
      modifies this
      ensures Current() == Act(old(Current()), Mutation.Clear)
    {
      Replace(Cleared(value));
    }

    method SyncFromUrl()
      modifies this`value
      ensures Current() == Sync(old(Current()))
      ensures url == ToParams(old(value)) ==> value == old(value)
      ensures url != ToParams(old(value)) ==> value == FromParams(url)
    {
      var mirrored := FiltersToParams(value);
      if url == mirrored {
        return;
      }
      value := FiltersFromParams(url);
    }
  }

  // ---------- Guarantees ----------

  // One facet has this state, the others and the rest of the filters are as they were.
  predicate Refaceted(before: JobFilters, after: JobFilters, param: string, st: FacetState) {
    && StateOf(after, param) == st
    && (forall other :: other in before.facets && other != param ==> StateOf(after, other) == StateOf(before, other))
    && after.facets.Keys == before.facets.Keys + {param}
    && after == before.(facets := after.facets)
  }

  // What the mutations of one facet make of its state.
  function Meant(st: FacetState, m: Mutation): FacetState {
    match m
    case SetMatchAll(_, on) => FacetState(st.values, st.exclude, on)
    case SetExclude(_, on) => FacetState(st.values, on, st.matchAll)
    case ClearFacet(_) => FacetState([], false, false)
    case Toggle(_, v) => st.(values := if v in st.values then Dropping(st.values, v) else st.values + [v])
    case Remove(_, v) => st.(values := Dropping(st.values, v))
    case Add(_, raw) => st.(values := st.values + [TrimBy(raw, JS_SPACE)])
    case _ => st
  }

  // A facet mutation changes that facet only, and the URL with it; adding a blank or a value that
  // is there changes nothing.
  lemma FacetMutationsAreMeant(s: Session, m: Mutation)
    requires m.SetMatchAll? || m.Toggle? || m.Add? || m.Remove? || m.ClearFacet? || m.SetExclude?
    ensures var t, st := Act(s, m), StateOf(s.value, m.param);
            if m.Add? && (TrimBy(m.raw, JS_SPACE) == "" || TrimBy(m.raw, JS_SPACE) in st.values) then t == s
            else Refaceted(s.value, t.value, m.param, Meant(st, m)) && t.url == ToParams(t.value)
  {
  }

  lemma OtherMutationsAreMeant(f: JobFilters, m: Mutation)
    ensures m.SetQuery? ==> Mutate(f, m) == f.(q := m.q)
    ensures m.SetVisa? ==> Mutate(f, m) == f.(visa := m.on)
    ensures m.SetSalaryMin? ==> Mutate(f, m) == f.(salaryMin := m.n)
    ensures m.SetSort? ==> Mutate(f, m) == f.(sort := m.sort)
    ensures m.Clear? ==>
              var g := Mutate(f, m);
              g.q == "" && !g.visa && g.salaryMin.None? && g.sort.PostedAt? && forall param ::
                StateOf(g, param) == FacetState([], false, false)
  {
  }

  lemma {:induction false} HandleAllSettles(s: Session, events: seq<Event>)
    requires Settled(s)
    ensures Settled(HandleAll(s, events))
    decreases |events|
  {
    if events != [] {
      HandleAllSettles(Handle(s, events[0]), events[1..]);
    }
  }

  // After any sequence of mutations and navigations, from any starting URL, following the
  // URL again changes nothing.
  lemma SyncIsANoOp(initial: Params, events: seq<Event>)
    ensures var s := HandleAll(Session(FromParams(initial), initial), events);
            Sync(s) == s
  {
    HandleAllSettles(Session(FromParams(initial), initial), events);
  }

  // Reloading the page after a mutation restores the canonical form of the filters, and
  // that form has the same URL, so a second reload changes nothing.
  lemma ReloadRestoresTheFilters(s: Session, m: Mutation)
    requires !Ignored(s.value, m)
    ensures var after := Act(s, m);
            && FromParams(after.url) == Canonical(after.value)
            && ToParams(FromParams(after.url)) == after.url
  {
    RoundTrip(Mutate(s.value, m));
    CanonicalHasTheSameUrl(Mutate(s.value, m));
  }

  lemma {:induction false} DroppingRemoves(values: seq<string>, v: string)
    ensures v !in Dropping(values, v)
    ensures v !in values ==> Dropping(values, v) == values
    ensures Dropping(values + [v], v) == Dropping(values, v)
    ensures forall u :: u != v ==> (u in Dropping(values, v) <==> u in values)
  {
    if values != [] {
      DroppingRemoves(values[1..], v);
      assert values == [values[0]] + values[1..];
      assert (values + [v])[1..] == values[1..] + [v];
    } else {
      assert (values + [v])[1..] == [];
    }
  }

  // Values are dropped one by one, the others stay in order.
  lemma {:induction false} DroppingIsPiecewise(a: seq<string>, b: seq<string>, v: string, u: string)
    ensures Dropping(a + b, v) == Dropping(a, v) + Dropping(b, v)
    ensures Dropping([u], v) == if u == v then [] else [u]
  {
    assert [u][1..] == [];
    if a == [] {
      Nothing(b);
      Nothing(Dropping(b, v));
    } else {
      DroppingIsPiecewise(a[1..], b, v, u);
      ConcatTail(a, b);
      Regroup(if a[0] == v then [] else [a[0]], Dropping(a[1..], v), Dropping(b, v));
    }
  }

  // Toggling an absent value twice restores the facet; toggling a present one removes every
  // copy of it and nothing else.
  lemma ToggleUndoes(f: JobFilters, param: string, v: string)
    ensures v !in StateOf(f, param).values ==>
              StateOf(Mutate(Mutate(f, Toggle(param, v)), Toggle(param, v)), param) == StateOf(f, param)
    ensures v in StateOf(f, param).values ==>
              var values := StateOf(Mutate(f, Toggle(param, v)), param).values;
              v !in values && forall u :: u != v ==> (u in values <==> u in StateOf(f, param).values)
  {
    DroppingRemoves(StateOf(f, param).values, v);
    assert v in StateOf(f, param).values + [v];
  }
}
