// The job-search filters and their URL query form: one parameter per facet, its exclude
// variant and its match-all marker, plus the free text, visa, salary and sort parameters.
module FacetParams {
  import opened Wrappers
  import opened Numbers
  import opened Sequences

  const FACETS: seq<string> := [
    "regions", "work_mode", "category", "seniority", "skills", "domains", "company_type", "countries",
    "relocation", "employment_type", "english_level", "posting_language", "salary_currency", "source"
  ]

  datatype FacetState = FacetState(values: seq<string>, exclude: bool, matchAll: bool)

  const EMPTY_FACET := FacetState([], false, false)

  datatype Sort = PostedAt | CreatedAt

  datatype JobFilters = JobFilters(
    q: string,
    facets: map<string, FacetState>,
    visa: bool,
    salaryMin: Option<Amount>,
    sort: Sort
  )

  // ---------- Query parameters ----------

  datatype Param = Param(key: string, value: string)

  type Params = seq<Param>

  function GetAll(p: Params, key: string): seq<string> {
    if p == [] then []
    else (if p[0].key == key then [p[0].value] else []) + GetAll(p[1..], key)
  }

  function Get(p: Params, key: string): Option<string> {
    var all := GetAll(p, key);
    if all == [] then None else Some(all[0])
  }

  // Replace the first parameter of that name and drop the others, or append.
  function Set(p: Params, key: string, value: string): Params {
    if p == [] then [Param(key, value)]
    else if p[0].key == key then [Param(key, value)] + Without(p[1..], key)
    else [p[0]] + Set(p[1..], key, value)
  }

  function Without(p: Params, key: string): Params {
    if p == [] then []
    else (if p[0].key == key then [] else [p[0]]) + Without(p[1..], key)
  }

  // ---------- Filters to parameters ----------

  function StateOf(f: JobFilters, param: string): FacetState {
    if param in f.facets then f.facets[param] else EMPTY_FACET
  }

  function Repeat(key: string, values: seq<string>): Params {
    if values == [] then [] else [Param(key, values[0])] + Repeat(key, values[1..])
  }

  function Single(present: bool, key: string, value: string): Params {
    if present then [Param(key, value)] else []
  }

  function ValueKey(param: string, st: FacetState): string {
    if st.exclude then param + "_exclude" else param
  }

  function AndMode(st: FacetState): bool {
    st.matchAll && !st.exclude && |st.values| > 1
  }

  function FacetPart(param: string, st: FacetState): Params {
    Repeat(ValueKey(param, st), st.values) + Single(AndMode(st), param + "_mode", "and")
  }

  function FacetsPart(names: seq<string>, f: JobFilters): Params {
    if names == [] then [] else FacetPart(names[0], StateOf(f, names[0])) + FacetsPart(names[1..], f)
  }

  function TailPart(f: JobFilters): Params {
    Single(f.visa, "visa_sponsorship", "true")
    + Single(f.salaryMin.Some?, "salary_min", if f.salaryMin.Some? then Printed(f.salaryMin.value) else "")
    + Single(f.sort == CreatedAt, "sort", "created_at")
  }

  function ToParams(f: JobFilters): Params {
    Single(f.q != "", "q", f.q) + FacetsPart(FACETS, f) + TailPart(f)
  }

  // ---------- Parameters to filters ----------

  function FacetFrom(p: Params, param: string): FacetState {
    var excluded := GetAll(p, param + "_exclude");
    var included := GetAll(p, param);
    var matchAll := Get(p, param + "_mode") == Some("and");
    if excluded != [] then FacetState(excluded, true, matchAll)
    else if included != [] then FacetState(included, false, matchAll)
    else EMPTY_FACET
  }

  function FacetsFrom(p: Params): map<string, FacetState> {
    map param | param in FACETS :: FacetFrom(p, param)
  }

  function FromParams(p: Params): JobFilters {
    var salary := Get(p, "salary_min");
    JobFilters(
      if Get(p, "q").Some? then Get(p, "q").value else "",
      FacetsFrom(p),
      Get(p, "visa_sponsorship") == Some("true"),
      if salary.Some? && salary.value != "" then ToNumber(salary.value) else None,
      if Get(p, "sort") == Some("created_at") then CreatedAt else PostedAt
    )
  }

  // ---------- The canonical form ----------

  // Match-all means nothing for an excluded facet or fewer than two values, and exclusion
  // means nothing without values.
  function CanonicalFacet(st: FacetState): FacetState {
    if st.values == [] then EMPTY_FACET else st.(matchAll := AndMode(st))
  }

  function Canonical(f: JobFilters): JobFilters {
    f.(facets := CanonicalFacets(f))
  }

  function CanonicalFacets(f: JobFilters): map<string, FacetState> {
    map param | param in FACETS :: CanonicalFacet(StateOf(f, param))
  }

  // ---------- Keys never clash ----------

  const OTHER_KEYS: seq<string> := [
    "q", "visa_sponsorship", "salary_min", "sort", "salary_max", "experience_years_min",
    "company_slug", "company_size", "salary_period"
  ]

  // No name ends in "_exclude", and only work_mode ends in "_mode".
  predicate Plain(name: string) {
    |name| >= 3 && name[|name| - 1] == 'e' ==>
              name[|name| - 3] != 'u' && (name[|name| - 3] == 'o' ==> name == "work_mode")
  }

  predicate Known(name: string) {
    name in FACETS || name in OTHER_KEYS
  }

  lemma NamesArePlain()
    ensures forall name :: Known(name) ==> Plain(name)
    ensures forall name :: name in FACETS ==> name !in OTHER_KEYS
    ensures !Known("work")
  {
  }

  predicate KeyOf(key: string, param: string) {
    key == param || key == param + "_exclude" || key == param + "_mode"
  }

  lemma SuffixesDiffer(a: string, b: string)
    ensures a + "_exclude" != b + "_mode"
    ensures a + "_exclude" == b + "_exclude" ==> a == b
    ensures a + "_mode" == b + "_mode" ==> a == b
    ensures a + "_exclude" != a && a + "_mode" != a
    ensures !Plain(a + "_exclude")
    ensures Plain(a + "_mode") ==> a == "work"
  {
    var ax, am, bx, bm := a + "_exclude", a + "_mode", b + "_exclude", b + "_mode";
    assert ax[|ax| - 3] == 'u' && ax[|ax| - 1] == 'e';
    assert am[|am| - 3] == 'o' && am[|am| - 1] == 'e';
    assert bm[|bm| - 3] == 'o';
    assert ax[..|ax| - 8] == a && bx[..|bx| - 8] == b;
    assert am[..|am| - 5] == a && bm[..|bm| - 5] == b;
    if am == "work_mode" {
      assert am[..4] == "work_mode"[..4];
    }
  }

  // A query key belongs to at most one parameter, although "work_mode" itself looks like a
  // match-all marker.
  lemma KeysNeverClash(key: string, a: string, b: string)
    requires Known(a) && Known(b) && KeyOf(key, a) && KeyOf(key, b)
    ensures a == b
  {
    NamesArePlain();
    SuffixesDiffer(a, b);
    SuffixesDiffer(b, a);
  }

  // ---------- Reading back what was written ----------

  lemma {:induction false} GetAllConcat(a: Params, b: Params, key: string)
    ensures GetAll(a + b, key) == GetAll(a, key) + GetAll(b, key)
  {
    if a == [] {
      Nothing(b);
      Nothing(GetAll(b, key));
    } else {
      GetAllConcat(a[1..], b, key);
      ConcatTail(a, b);
      Regroup(if a[0].key == key then [a[0].value] else [], GetAll(a[1..], key), GetAll(b, key));
    }
  }

  lemma {:induction false} GetAllRepeat(k: string, values: seq<string>, key: string)
    ensures GetAll(Repeat(k, values), key) == if k == key then values else []
  {
    if values != [] {
      GetAllRepeat(k, values[1..], key);
      assert Repeat(k, values)[1..] == Repeat(k, values[1..]);
      assert [values[0]] + values[1..] == values;
    }
  }

  lemma GetAllFacetPart(param: string, st: FacetState, key: string)
    ensures GetAll(FacetPart(param, st), key) ==
              (if ValueKey(param, st) == key then st.values else [])
              + (if AndMode(st) && param + "_mode" == key then ["and"] else [])
  {
    GetAllConcat(Repeat(ValueKey(param, st), st.values), Single(AndMode(st), param + "_mode", "and"), key);
    GetAllRepeat(ValueKey(param, st), st.values, key);
  }

  lemma OtherFacetPart(param: string, st: FacetState, key: string)
    requires !KeyOf(key, param)
    ensures GetAll(FacetPart(param, st), key) == []
  {
    GetAllFacetPart(param, st, key);
  }

  lemma OwnedByOne(key: string, owner: string)
    requires Known(owner) && KeyOf(key, owner)
    ensures forall name :: Known(name) && name != owner ==> !KeyOf(key, name)
  {
    forall name | Known(name) && KeyOf(key, name) ensures name == owner {
      KeysNeverClash(key, name, owner);
    }
  }

  // Only the facet that owns a key contributes to it.
  lemma {:induction false} GetAllFacetsPart(names: seq<string>, f: JobFilters, key: string, owner: string)
    requires Distinct(names) && forall name :: name in names && name != owner ==> !KeyOf(key, name)
    ensures GetAll(FacetsPart(names, f), key) ==
              if owner in names then GetAll(FacetPart(owner, StateOf(f, owner)), key) else []
  {
    if names != [] {
      var rest := names[1..];
      HeadAndTail(names);
      GetAllConcat(FacetPart(names[0], StateOf(f, names[0])), FacetsPart(rest, f), key);
      GetAllFacetsPart(rest, f, key, owner);
      if names[0] != owner {
        OtherFacetPart(names[0], StateOf(f, names[0]), key);
        Nothing(GetAll(FacetsPart(rest, f), key));
      } else {
        assert owner !in rest;
        Nothing(GetAll(FacetPart(owner, StateOf(f, owner)), key));
      }
    }
  }

  lemma TailHasOtherKeys(f: JobFilters, key: string)
    ensures GetAll(TailPart(f), key) ==
              (if f.visa && key == "visa_sponsorship" then ["true"] else [])
              + (if f.salaryMin.Some? && key == "salary_min" then [Printed(f.salaryMin.value)] else [])
              + (if f.sort == CreatedAt && key == "sort" then ["created_at"] else [])
  {
    var visa := Single(f.visa, "visa_sponsorship", "true");
    var salary := Single(f.salaryMin.Some?, "salary_min", if f.salaryMin.Some? then Printed(f.salaryMin.value) else "");
    var sort := Single(f.sort == CreatedAt, "sort", "created_at");
    GetAllConcat(visa + salary, sort, key);
    GetAllConcat(visa, salary, key);
  }

  // What a key reads from the query form of the filters.
  lemma ReadBack(f: JobFilters, key: string, owner: string)
    requires Known(owner) && KeyOf(key, owner)
    ensures GetAll(ToParams(f), key) ==
              (if f.q != "" && key == "q" then [f.q] else [])
              + (if owner in FACETS then GetAll(FacetPart(owner, StateOf(f, owner)), key) else [])
              + GetAll(TailPart(f), key)
  {
    NamesArePlain();
    FacetsAreDistinct();
    OwnedByOne(key, owner);
    GetAllFacetsPart(FACETS, f, key, owner);
    ReadBackParts(f, key);
  }

  lemma FacetsAreDistinct()
    ensures Distinct(FACETS)
  {
  }

  lemma ReadBackParts(f: JobFilters, key: string)
    ensures GetAll(ToParams(f), key) ==
              (if f.q != "" && key == "q" then [f.q] else []) + GetAll(FacetsPart(FACETS, f), key) +
                        GetAll(TailPart(f), key)
  {
    var q := Single(f.q != "", "q", f.q);
    var facets := FacetsPart(FACETS, f);
    GetAllConcat(q + facets, TailPart(f), key);
    GetAllConcat(q, facets, key);
  }

  // A facet's own keys read back its state, and no other facet, nor any other parameter,
  // adds to them.
  lemma ReadFacet(f: JobFilters, param: string)
    requires param in FACETS
    ensures var st := StateOf(f, param);
            && GetAll(ToParams(f), param) == (if st.exclude then [] else st.values)
            && GetAll(ToParams(f), param + "_exclude") == (if st.exclude then st.values else [])
            && GetAll(ToParams(f), param + "_mode") ==
               (if st.matchAll && !st.exclude && |st.values| > 1 then ["and"] else [])
  {
    var st := StateOf(f, param);
    NamesArePlain();
    SuffixesDiffer(param, param);
    ReadFacetKey(f, param, param);
    ReadFacetKey(f, param, param + "_exclude");
    ReadFacetKey(f, param, param + "_mode");
    GetAllFacetPart(param, st, param);
    GetAllFacetPart(param, st, param + "_exclude");
    GetAllFacetPart(param, st, param + "_mode");
  }

  lemma ReadFacetKey(f: JobFilters, param: string, key: string)
    requires param in FACETS && KeyOf(key, param)
    ensures GetAll(ToParams(f), key) == GetAll(FacetPart(param, StateOf(f, param)), key)
  {
    NamesArePlain();
    ReadBack(f, key, param);
    TailHasOtherKeys(f, key);
    if key in ["q", "visa_sponsorship", "salary_min", "sort"] {
      KeysNeverClash(key, key, param);
    }
  }

  // The other parameters read back too, and the ones the form never writes are absent.
  lemma ReadOthers(f: JobFilters, key: string)
    requires key in OTHER_KEYS
    ensures GetAll(ToParams(f), key) ==
              if f.q != "" && key == "q" then [f.q]
              else if f.visa && key == "visa_sponsorship" then ["true"]
              else if f.salaryMin.Some? && key == "salary_min" then [Printed(f.salaryMin.value)]
              else if f.sort == CreatedAt && key == "sort" then ["created_at"]
              else []
  {
    NamesArePlain();
    ReadBack(f, key, key);
    TailHasOtherKeys(f, key);
  }

  // The markers of the parameters outside the form are absent as well.
  lemma ReadOtherMarkers(f: JobFilters, param: string, key: string)
    requires param in OTHER_KEYS && (key == param + "_exclude" || key == param + "_mode")
    ensures GetAll(ToParams(f), key) == []
  {
    NamesArePlain();
    SuffixesDiffer(param, param);
    ReadBack(f, key, param);
    TailHasOtherKeys(f, key);
    if key in ["q", "visa_sponsorship", "salary_min", "sort"] {
      KeysNeverClash(key, key, param);
    }
  }

  // ---------- Round trip ----------

  lemma RoundTripOthers(f: JobFilters)
    ensures var g := FromParams(ToParams(f));
            g.q == f.q && g.visa == f.visa && g.salaryMin == f.salaryMin && g.sort == f.sort
  {
    var p := ToParams(f);
    assert Get(p, "q") == if f.q != "" then Some(f.q) else None by { ReadOthers(f, "q"); }
    assert Get(p, "visa_sponsorship") == if f.visa then Some("true") else None by { ReadOthers(f, "visa_sponsorship"); }
    assert Get(p, "sort") == if f.sort == CreatedAt then Some("created_at") else None by { ReadOthers(f, "sort"); }
    ReadSalary(f);
    if f.salaryMin.Some? {
      PrintedIsRead(f.salaryMin.value);
    }
  }

  lemma ReadSalary(f: JobFilters)
    ensures Get(ToParams(f), "salary_min") == if f.salaryMin.Some? then Some(Printed(f.salaryMin.value)) else None
  {
    ReadOthers(f, "salary_min");
  }

  lemma RoundTripFacet(f: JobFilters, param: string)
    requires param in FACETS
    ensures FacetFrom(ToParams(f), param) == CanonicalFacet(StateOf(f, param))
  {
    ReadFacet(f, param);
  }

  // Reading the URL of a filter state back gives its canonical form.
  lemma RoundTrip(f: JobFilters)
    ensures FromParams(ToParams(f)) == Canonical(f)
  {
    RoundTripOthers(f);
    RoundTripFacets(f);
  }

  lemma RoundTripFacets(f: JobFilters)
    ensures FacetsFrom(ToParams(f)) == CanonicalFacets(f)
  {
    forall param | param in FACETS
      ensures FacetFrom(ToParams(f), param) == CanonicalFacet(StateOf(f, param))
    {
      RoundTripFacet(f, param);
    }
  }

  lemma {:induction false} SameStatesSameParts(names: seq<string>, f: JobFilters, g: JobFilters)
    requires forall name :: name in names ==> FacetPart(name, StateOf(f, name)) == FacetPart(name, StateOf(g, name))
    ensures FacetsPart(names, f) == FacetsPart(names, g)
  {
    if names != [] {
      SameStatesSameParts(names[1..], f, g);
    }
  }

  lemma CanonicalFacetHasTheSamePart(param: string, st: FacetState)
    ensures FacetPart(param, CanonicalFacet(st)) == FacetPart(param, st)
    ensures CanonicalFacet(CanonicalFacet(st)) == CanonicalFacet(st)
  {
  }

  // The canonical form has the same URL, and is its own canonical form.
  lemma CanonicalHasTheSameUrl(f: JobFilters)
    ensures ToParams(Canonical(f)) == ToParams(f)
    ensures Canonical(Canonical(f)) == Canonical(f)
  {
    forall name | name in FACETS
      ensures FacetPart(name, StateOf(f, name)) == FacetPart(name, StateOf(Canonical(f), name))
      ensures CanonicalFacet(CanonicalFacet(StateOf(f, name))) == CanonicalFacet(StateOf(f, name))
    {
      CanonicalFacetHasTheSamePart(name, StateOf(f, name));
    }
    SameStatesSameParts(FACETS, f, Canonical(f));
    assert Canonical(Canonical(f)).facets == Canonical(f).facets;
  }
}
