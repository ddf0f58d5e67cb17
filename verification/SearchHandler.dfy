// The search endpoint: facet query parameters compiled to a Meilisearch filter, and what
// that filter selects in terms of the filters the user set in the browser.
module SearchHandler {
  import opened Wrappers
  import opened Decimal
  import opened Numbers
  import opened Sequences
  import opened Text
  import opened Catalogue
  import opened JobIndex
  import opened SearchFilter
  import opened FacetParams
  import opened Filters

  const SEARCH_FACETS: seq<string> := [
    "source", "company_slug", "regions", "work_mode", "employment_type", "seniority", "category", "domains",
    "countries", "company_type", "company_size", "salary_currency", "salary_period", "skills", "relocation",
    "english_level", "posting_language"
  ]

  const TOP_LEVEL: seq<string> := ["source", "company_slug", "regions", "work_mode", "countries", "skills"]

  // Resolved facets are filtered by their bare name, the others under "enrichment".
  function Attribute(param: string): string {
    if param in TOP_LEVEL then param else Dotted(param)
  }

  const VISA := Dotted("visa_sponsorship")
  const SALARY_MIN := Dotted("salary_min")
  const SALARY_MAX := Dotted("salary_max")
  const EXPERIENCE_MIN := Dotted("experience_years_min")

  // ---------- Reading the query ----------

  function Query(p: Params, key: string): string {
    if Get(p, key).Some? then Get(p, key).value else ""
  }

  function NonBlank(values: seq<string>): seq<string> {
    if values == [] then []
    else (if values[0] == "" then [] else [values[0]]) + NonBlank(values[1..])
  }

  method QueryValues(p: Params, key: string) returns (r: seq<string>)
    ensures r == NonBlank(GetAll(p, key))
  {
    var multi := GetAll(p, key);
    r := [];
    for i := 0 to |multi|
      invariant r + NonBlank(multi[i..]) == NonBlank(multi)
    {
      var v := multi[i];
      ghost var rest := NonBlank(multi[i + 1..]);
      Rest(multi, i);
      Regroup(r, [v], rest);
      Nothing(rest);
      if v != "" {
        r := r + [v];
      }
    }
    Nothing(r);
  }

  function QueryInt(p: Params, key: string): Option<int> {
    Atoi(Query(p, key))
  }

  // ---------- What a query asks for ----------

  predicate HasAll(doc: Document, attr: string, values: seq<string>) {
    forall i :: 0 <= i < |values| ==> Has(doc, attr, values[i])
  }

  predicate HasAny(doc: Document, attr: string, values: seq<string>) {
    exists i :: 0 <= i < |values| && Has(doc, attr, values[i])
  }

  predicate HasNone(doc: Document, attr: string, values: seq<string>) {
    forall i :: 0 <= i < |values| ==> !Has(doc, attr, values[i])
  }

  predicate AsksFacet(p: Params, param: string, doc: Document) {
    var attr, values := Attribute(param), NonBlank(GetAll(p, param));
    && (if Query(p, param + "_mode") == "and" then HasAll(doc, attr, values)
        else values == [] || HasAny(doc, attr, values))
    && HasNone(doc, attr, NonBlank(GetAll(p, param + "_exclude")))
  }

  predicate AsksVisa(p: Params, doc: Document) {
    var raw := Query(p, "visa_sponsorship");
    raw != "" ==> Meets(doc, Flag(VISA, raw == "true"))
  }

  predicate AsksAtLeast(p: Params, key: string, attr: string, doc: Document) {
    var n := QueryInt(p, key);
    n.Some? ==> Meets(doc, AtLeast(attr, n.value))
  }

  predicate AsksAtMost(p: Params, key: string, attr: string, doc: Document) {
    var n := QueryInt(p, key);
    n.Some? ==> Meets(doc, AtMost(attr, n.value))
  }

  predicate AsksRest(p: Params, doc: Document) {
    && AsksVisa(p, doc)
    && AsksAtLeast(p, "salary_min", SALARY_MIN, doc)
    && AsksAtMost(p, "salary_max", SALARY_MAX, doc)
    && AsksAtLeast(p, "experience_years_min", EXPERIENCE_MIN, doc)
  }

  predicate Asks(p: Params, doc: Document) {
    (forall param :: param in SEARCH_FACETS ==> AsksFacet(p, param, doc)) && AsksRest(p, doc)
  }

  // ---------- What a job has to show for it ----------

  // The lower-case values of both lists.
  function Union(a: seq<string>, b: seq<string>): set<string> {
    (set x | x in a :: Lower(x)) + (set x | x in b :: Lower(x))
  }

  predicate IsFacet(attr: Attr) {
    !attr.VisaSponsorship? && !attr.SalaryMin? && !attr.SalaryMax? && !attr.ExperienceYearsMin?
  }

  // The query parameter of a facet.
  function NameOf(facet: Attr): string {
    match facet
    case Source => "source"
    case CompanySlug => "company_slug"
    case Regions => "regions"
    case WorkMode => "work_mode"
    case EmploymentType => "employment_type"
    case Seniority => "seniority"
    case Category => "category"
    case Domains => "domains"
    case Countries => "countries"
    case CompanyType => "company_type"
    case CompanySize => "company_size"
    case SalaryCurrency => "salary_currency"
    case SalaryPeriod => "salary_period"
    case Skills => "skills"
    case Relocation => "relocation"
    case EnglishLevel => "english_level"
    case PostingLanguage => "posting_language"
    case _ => ""
  }

  // The values of a job that a facet is about, in the columns of its row and of its enrichment.
  function ColumnOf(job: Job, e: Enrichment, facet: Attr): set<string> {
    match facet
    case Source => {job.key.source}
    case CompanySlug => {job.facts.companySlug}
    case Regions => Union(job.facts.regions, e.regions)
    case WorkMode => if e.workMode != "" then {e.workMode} else One(job.facts.workMode)
    case EmploymentType => One(e.employmentType)
    case Seniority => One(e.seniority)
    case Category => One(e.category)
    case Domains => All(e.domains)
    case Countries => Union(job.facts.countries, e.countries)
    case CompanyType => One(e.companyType)
    case CompanySize => One(e.companySize)
    case SalaryCurrency => One(e.salaryCurrency)
    case SalaryPeriod => One(e.salaryPeriod)
    case Skills => Union(job.facts.skills, e.skills)
    case Relocation => One(e.relocation)
    case EnglishLevel => One(e.englishLevel)
    case PostingLanguage => One(e.postingLanguage)
    case _ => {}
  }

  // What one facet of a query asks of a set of values.
  ghost predicate Suits(p: Params, param: string, has: set<string>) {
    var values := NonBlank(GetAll(p, param));
    && (if Query(p, param + "_mode") == "and" then forall v :: v in values ==> v in has
        else values == [] || exists v :: v in values && v in has)
    && forall v :: v in NonBlank(GetAll(p, param + "_exclude")) ==> v !in has
  }

  predicate ReachesBound(p: Params, key: string, has: Option<int>) {
    QueryInt(p, key).Some? ==> has.Some? && has.value >= QueryInt(p, key).value
  }

  predicate KeepsBound(p: Params, key: string, has: Option<int>) {
    QueryInt(p, key).Some? ==> has.Some? && has.value <= QueryInt(p, key).value
  }

  predicate HasFlag(p: Params, key: string, has: Option<bool>) {
    Query(p, key) != "" ==> has == Some(Query(p, key) == "true")
  }

  predicate SuitsRest(p: Params, e: Enrichment) {
    && HasFlag(p, "visa_sponsorship", e.visaSponsorship)
    && ReachesBound(p, "salary_min", e.salaryMin)
    && KeepsBound(p, "salary_max", e.salaryMax)
    && ReachesBound(p, "experience_years_min", e.experienceYearsMin)
  }

  // A job is asked for when its columns suit each of the seventeen facets and the other
  // parameters.
  ghost predicate AskedFor(p: Params, job: Job, e: Enrichment) {
    (forall facet :: IsFacet(facet) ==> Suits(p, NameOf(facet), ColumnOf(job, e, facet))) && SuitsRest(p, e)
  }

  lemma FacetIsSearched(facet: Attr)
    requires IsFacet(facet)
    ensures NameOf(facet) in SEARCH_FACETS
  {
    match facet
    case Source => assert SEARCH_FACETS[0] == "source";
    case CompanySlug => assert SEARCH_FACETS[1] == "company_slug";
    case Regions => assert SEARCH_FACETS[2] == "regions";
    case WorkMode => assert SEARCH_FACETS[3] == "work_mode";
    case EmploymentType => assert SEARCH_FACETS[4] == "employment_type";
    case Seniority => assert SEARCH_FACETS[5] == "seniority";
    case Category => assert SEARCH_FACETS[6] == "category";
    case Domains => assert SEARCH_FACETS[7] == "domains";
    case Countries => assert SEARCH_FACETS[8] == "countries";
    case CompanyType => assert SEARCH_FACETS[9] == "company_type";
    case CompanySize => assert SEARCH_FACETS[10] == "company_size";
    case SalaryCurrency => assert SEARCH_FACETS[11] == "salary_currency";
    case SalaryPeriod => assert SEARCH_FACETS[12] == "salary_period";
    case Skills => assert SEARCH_FACETS[13] == "skills";
    case Relocation => assert SEARCH_FACETS[14] == "relocation";
    case EnglishLevel => assert SEARCH_FACETS[15] == "english_level";
    case PostingLanguage => assert SEARCH_FACETS[16] == "posting_language";
  }

  lemma AttributeOfFacet(facet: Attr)
    requires IsFacet(facet)
    ensures Attribute(NameOf(facet)) == PathOf(facet)
  {
    match facet
    case Source => assert TOP_LEVEL[0] == "source";
    case CompanySlug => assert TOP_LEVEL[1] == "company_slug";
    case Regions => assert TOP_LEVEL[2] == "regions";
    case WorkMode => assert TOP_LEVEL[3] == "work_mode";
    case Countries => assert TOP_LEVEL[4] == "countries";
    case Skills => assert TOP_LEVEL[5] == "skills";
    case _ =>
  }

  lemma FacetOfName(param: string) returns (facet: Attr)
    requires param in SEARCH_FACETS
    ensures IsFacet(facet) && param == NameOf(facet)
  {
    var i :| 0 <= i < |SEARCH_FACETS| && SEARCH_FACETS[i] == param;
    facet := [
      Source, CompanySlug, Regions, WorkMode, EmploymentType, Seniority, Category, Domains, Countries, CompanyType,
      CompanySize, SalaryCurrency, SalaryPeriod, Skills, Relocation, EnglishLevel, PostingLanguage
    ][i];
  }

  // The view of a job shows the columns of its row and of its enrichment.
  lemma ViewShowsTheColumns(job: Job, e: Enrichment, view: View, facet: Attr)
    requires IsViewOf(view, job, e) && IsFacet(facet)
    ensures Texts(view, facet) == ColumnOf(job, e, facet)
  {
  }

  // The facet of a query asks of a job's document what it asks of the job's columns.
  lemma FacetOfDocument(p: Params, job: Job, e: Enrichment, view: View, facet: Attr)
    requires IsViewOf(view, job, e) && IsFacet(facet)
    ensures AsksFacet(p, NameOf(facet), DocumentOf(view)) <==> Suits(p, NameOf(facet), ColumnOf(job, e, facet))
  {
    var doc, param := DocumentOf(view), NameOf(facet);
    AttributeOfFacet(facet);
    ViewShowsTheColumns(job, e, view, facet);
    forall v ensures Has(doc, Attribute(param), v) <==> v in ColumnOf(job, e, facet) {
      DocumentHas(view, facet, v);
    }
    HasByValue(doc, Attribute(param), NonBlank(GetAll(p, param)));
    HasByValue(doc, Attribute(param), NonBlank(GetAll(p, param + "_exclude")));
  }

  lemma EveryFacet(p: Params, doc: Document)
    ensures (forall param :: param in SEARCH_FACETS ==> AsksFacet(p, param, doc)) <==>
            forall facet :: IsFacet(facet) ==> AsksFacet(p, NameOf(facet), doc)
  {
    forall facet | IsFacet(facet) ensures NameOf(facet) in SEARCH_FACETS {
      FacetIsSearched(facet);
    }
    forall param | param in SEARCH_FACETS ensures exists facet :: IsFacet(facet) && NameOf(facet) == param {
      var facet := FacetOfName(param);
    }
  }

  lemma BoundOfDocument(p: Params, key: string, attr: Attr, view: View)
    ensures AsksAtLeast(p, key, PathOf(attr), DocumentOf(view)) <==>
              ReachesBound(p, key, Bound(view.enrichment, attr))
    ensures AsksAtMost(p, key, PathOf(attr), DocumentOf(view)) <==>
              KeepsBound(p, key, Bound(view.enrichment, attr))
  {
    if QueryInt(p, key).Some? {
      DocumentNumber(view, attr, QueryInt(p, key).value);
    }
  }

  lemma VisaOfDocument(p: Params, view: View)
    ensures AsksVisa(p, DocumentOf(view)) <==> HasFlag(p, "visa_sponsorship", view.enrichment.visaSponsorship)
  {
    assert PathOf(VisaSponsorship) == VISA;
    DocumentFlag(view, VisaSponsorship, Query(p, "visa_sponsorship") == "true");
  }

  lemma SalaryOfDocument(p: Params, view: View)
    ensures AsksAtLeast(p, "salary_min", SALARY_MIN, DocumentOf(view)) <==>
              ReachesBound(p, "salary_min", view.enrichment.salaryMin)
    ensures AsksAtMost(p, "salary_max", SALARY_MAX, DocumentOf(view)) <==>
              KeepsBound(p, "salary_max", view.enrichment.salaryMax)
  {
    assert PathOf(SalaryMin) == SALARY_MIN && PathOf(SalaryMax) == SALARY_MAX;
    BoundOfDocument(p, "salary_min", SalaryMin, view);
    BoundOfDocument(p, "salary_max", SalaryMax, view);
  }

  lemma ExperienceOfDocument(p: Params, view: View)
    ensures AsksAtLeast(p, "experience_years_min", EXPERIENCE_MIN, DocumentOf(view)) <==>
              ReachesBound(p, "experience_years_min", view.enrichment.experienceYearsMin)
  {
    assert PathOf(ExperienceYearsMin) == EXPERIENCE_MIN;
    BoundOfDocument(p, "experience_years_min", ExperienceYearsMin, view);
  }

  lemma RestOfDocument(p: Params, view: View)
    ensures AsksRest(p, DocumentOf(view)) <==> SuitsRest(p, view.enrichment)
  {
    VisaOfDocument(p, view);
    SalaryOfDocument(p, view);
    ExperienceOfDocument(p, view);
  }

  lemma ViewKeepsTheRest(p: Params, job: Job, e: Enrichment, view: View)
    requires IsViewOf(view, job, e)
    ensures SuitsRest(p, view.enrichment) <==> SuitsRest(p, e)
  {
  }

  // A query asks for the document of a job exactly when it asks for the job's columns.
  lemma DocumentsAreTheirJobs(p: Params, job: Job, e: Enrichment, view: View)
    requires IsViewOf(view, job, e)
    ensures Asks(p, DocumentOf(view)) <==> AskedFor(p, job, e)
  {
    EveryFacet(p, DocumentOf(view));
    forall facet | IsFacet(facet)
      ensures AsksFacet(p, NameOf(facet), DocumentOf(view)) <==> Suits(p, NameOf(facet), ColumnOf(job, e, facet))
    {
      FacetOfDocument(p, job, e, view, facet);
    }
    RestOfDocument(p, view);
    ViewKeepsTheRest(p, job, e, view);
  }

  // ---------- Building the filter ----------

  lemma ParametersAreWords()
    ensures forall param :: param in SEARCH_FACETS ==> NoSpace(param)
  {
  }

  lemma AttributesAreWords()
    ensures forall param :: param in SEARCH_FACETS ==> NoSpace(Attribute(param))
  {
    ParametersAreWords();
    assert NoSpace("enrichment.");
  }

  predicate Groupwise(groups: Groups) {
    forall i :: 0 <= i < |groups| ==> groups[i] != []
  }

  lemma AllMatchAppend(doc: Document, groups: Groups, group: seq<string>)
    ensures AllMatch(doc, groups + [group]) <==> AllMatch(doc, groups) && AnyHolds(doc, group)
  {
    var all := groups + [group];
    assert all[|groups|] == group;
    assert forall i :: 0 <= i < |groups| ==> all[i] == groups[i];
  }

  lemma OneFragment(doc: Document, fragment: string)
    ensures AnyHolds(doc, [fragment]) <==> Holds(doc, fragment)
  {
    assert [fragment][0] == fragment;
  }

  method And(groups: Groups, fragment: string) returns (r: Groups)
    requires Groupwise(groups)
    ensures Groupwise(r) && r == groups + [[fragment]]
    ensures forall doc :: AllMatch(doc, r) <==> AllMatch(doc, groups) && Holds(doc, fragment)
  {
    r := groups + [[fragment]];
    forall doc
      ensures AllMatch(doc, r) <==> AllMatch(doc, groups) && Holds(doc, fragment)
    {
      AllMatchAppend(doc, groups, [fragment]);
      OneFragment(doc, fragment);
    }
  }

  lemma OneValueMore(attr: string, values: seq<string>, i: nat)
    requires i < |values|
    ensures forall doc :: HasAll(doc, attr, values[..i + 1]) <==>
              HasAll(doc, attr, values[..i]) && Has(doc, attr, values[i])
    ensures forall doc :: HasNone(doc, attr, values[..i + 1]) <==> HasNone(doc, attr, values[..i]) && !Has(doc,
            attr, values[i])
  {
    assert values[..i + 1] == values[..i] + [values[i]];
    forall doc: Document
      ensures HasAll(doc, attr, values[..i + 1]) <==> HasAll(doc, attr, values[..i]) && Has(doc, attr, values[i])
      ensures HasNone(doc, attr, values[..i + 1]) <==> HasNone(doc, attr, values[..i]) && !Has(doc, attr, values[i])
    {
      HasByValue(doc, attr, values[..i]);
      HasByValue(doc, attr, values[..i + 1]);
    }
  }

  method AndEachEq(groups: Groups, attr: string, values: seq<string>) returns (r: Groups)
    requires Groupwise(groups) && NoSpace(attr)
    ensures Groupwise(r)
    ensures forall doc :: AllMatch(doc, r) <==> AllMatch(doc, groups) && HasAll(doc, attr, values)
  {
    r := groups;
    for i := 0 to |values|
      invariant Groupwise(r)
      invariant forall doc :: AllMatch(doc, r) <==> AllMatch(doc, groups) && HasAll(doc, attr, values[..i])
    {
      OneValueMore(attr, values, i);
      EqIsRead(attr, values[i]);
      r := And(r, Eq(attr, values[i]));
    }
    assert values[..|values|] == values;
  }

  method AndEachNeq(groups: Groups, attr: string, values: seq<string>) returns (r: Groups)
    requires Groupwise(groups) && NoSpace(attr)
    ensures Groupwise(r)
    ensures forall doc :: AllMatch(doc, r) <==> AllMatch(doc, groups) && HasNone(doc, attr, values)
  {
    r := groups;
    for i := 0 to |values|
      invariant Groupwise(r)
      invariant forall doc :: AllMatch(doc, r) <==> AllMatch(doc, groups) && HasNone(doc, attr, values[..i])
    {
      OneValueMore(attr, values, i);
      NeqIsRead(attr, values[i]);
      r := And(r, Neq(attr, values[i]));
    }
    assert values[..|values|] == values;
  }

  method AnyEq(attr: string, values: seq<string>) returns (group: seq<string>)
    requires NoSpace(attr)
    ensures |group| == |values|
    ensures forall doc :: AnyHolds(doc, group) <==> HasAny(doc, attr, values)
  {
    group := [];
    for i := 0 to |values|
      invariant |group| == i
      invariant forall k :: 0 <= k < i ==> group[k] == Eq(attr, values[k])
    {
      group := group + [Eq(attr, values[i])];
    }
    forall k | 0 <= k < |values|
      ensures Read(group[k]) == Some(Is(attr, values[k]))
    {
      EqIsRead(attr, values[k]);
    }
  }

  // What one facet adds to the filter.
  method AndFacet(groups: Groups, p: Params, param: string) returns (r: Groups)
    requires Groupwise(groups) && NoSpace(Attribute(param))
    ensures Groupwise(r)
    ensures forall doc :: AllMatch(doc, r) <==> AllMatch(doc, groups) && AsksFacet(p, param, doc)
  {
    var attr := Attribute(param);
    r := groups;
    var values := QueryValues(p, param);
    if |values| > 0 {
      if Query(p, param + "_mode") == "and" {
        r := AndEachEq(r, attr, values);
      } else {
        var group := AnyEq(attr, values);
        forall doc
          ensures AllMatch(doc, r + [group]) <==> AllMatch(doc, r) && HasAny(doc, attr, values)
        {
          AllMatchAppend(doc, r, group);
        }
        r := r + [group];
      }
    }
    var excluded := QueryValues(p, param + "_exclude");
    r := AndEachNeq(r, attr, excluded);
  }

  method AndInt(groups: Groups, p: Params, key: string, attr: string, atLeast: bool) returns (r: Groups)
    requires Groupwise(groups) && NoSpace(attr)
    ensures Groupwise(r)
    ensures forall doc :: AllMatch(doc, r) <==>
                            AllMatch(doc, groups) && if atLeast then AsksAtLeast(p, key, attr,
                                doc) else AsksAtMost(p, key, attr, doc)
  {
    r := groups;
    var n := QueryInt(p, key);
    if n.Some? {
      GteIsRead(attr, n.value);
      LteIsRead(attr, n.value);
      r := And(r, if atLeast then Gte(attr, n.value) else Lte(attr, n.value));
    }
  }

  method AndRest(groups: Groups, p: Params) returns (r: Groups)
    requires Groupwise(groups)
    ensures Groupwise(r)
    ensures forall doc :: AllMatch(doc, r) <==> AllMatch(doc, groups) && AsksRest(p, doc)
  {
    r := groups;
    var raw := Query(p, "visa_sponsorship");
    if raw != "" {
      EqBoolIsRead(VISA, raw == "true");
      r := And(r, EqBool(VISA, raw == "true"));
    }
    r := AndInt(r, p, "salary_min", SALARY_MIN, true);
    r := AndInt(r, p, "salary_max", SALARY_MAX, false);
    r := AndInt(r, p, "experience_years_min", EXPERIENCE_MIN, true);
  }

  // The facets come in any order, as a Go map yields them.
  method AndFacets(groups: Groups, p: Params, params: seq<string>) returns (r: Groups)
    requires Groupwise(groups) && forall param :: param in params ==> NoSpace(Attribute(param))
    ensures Groupwise(r)
    ensures forall doc :: AllMatch(doc, r) <==>
                            AllMatch(doc, groups) && forall param :: param in params ==> AsksFacet(p, param, doc)
  {
    r := groups;
    var remaining := set param | param in params;
    while remaining != {}
      invariant Groupwise(r) && forall param :: param in remaining ==> param in params
      invariant forall doc :: AllMatch(doc, r) <==>
                                AllMatch(doc, groups)
                                && forall param :: param in params ==> param in remaining || AsksFacet(p, param, doc)
    {
      var param :| param in remaining;
      r := AndFacet(r, p, param);
      remaining := remaining - {param};
    }
  }

  lemma SelectsTheJobs(p: Params, filter: Option<Groups>)
    requires forall doc :: Matches(doc, filter) <==> Asks(p, doc)
    ensures forall job, e, view :: IsViewOf(view, job, e) ==>
              (Matches(DocumentOf(view), filter) <==> AskedFor(p, job, e))
  {
    forall job, e, view | IsViewOf(view, job, e)
      ensures Matches(DocumentOf(view), filter) <==> AskedFor(p, job, e)
    {
      DocumentsAreTheirJobs(p, job, e, view);
    }
  }

  // Whatever the order, the filter selects exactly the documents the query asks for. Of the
  // documents of jobs, these are the ones of the jobs whose columns it asks for.
  method BuildSearchFilter(p: Params) returns (filter: Option<Groups>)
    ensures forall doc :: Matches(doc, filter) <==> Asks(p, doc)
    ensures forall job, e, view :: IsViewOf(view, job, e) ==>
              (Matches(DocumentOf(view), filter) <==> AskedFor(p, job, e))
  {
    AttributesAreWords();
    var groups := AndFacets([], p, SEARCH_FACETS);
    groups := AndRest(groups, p);
    NothingToDrop(groups);
    filter := Filter(groups);
    SelectsTheJobs(p, filter);
  }

  // ---------- What the user asked for ----------

  predicate FacetMeans(st: FacetState, attr: string, doc: Document) {
    if st.exclude then HasNone(doc, attr, st.values)
    else if st.matchAll then HasAll(doc, attr, st.values)
    else st.values == [] || HasAny(doc, attr, st.values)
  }

  predicate SalaryMeans(salary: Option<Amount>, doc: Document) {
    match salary
    case None => true
    case Some(a) => SALARY_MIN in doc.numbers && Reaches(doc.numbers[SALARY_MIN], a)
  }

  predicate Means(f: JobFilters, doc: Document) {
    && (forall param :: param in FACETS ==> FacetMeans(StateOf(f, param), Attribute(param), doc))
    && (f.visa ==> Meets(doc, Flag(VISA, true)))
    && SalaryMeans(f.salaryMin, doc)
  }

  // What the query form of the filters can carry: no blank facet values, and no salary but a
  // whole one of 64 bits.
  function Effective(f: JobFilters): JobFilters {
    f.(facets := map param | param in FACETS :: var st := StateOf(f, param); st.(values := NonBlank(st.values)),
       salaryMin := EffectiveSalary(f.salaryMin))
  }

  function EffectiveSalary(salary: Option<Amount>): Option<Amount> {
    if salary.Some? && !Sendable(salary.value) then None else salary
  }

  predicate Expressible(f: JobFilters) {
    && (forall param :: param in FACETS ==> "" !in StateOf(f, param).values)
    && (f.salaryMin.Some? ==> Sendable(f.salaryMin.value))
  }

  lemma {:induction false} NonBlankKeeps(values: seq<string>)
    ensures |NonBlank(values)| <= |values|
    ensures "" !in NonBlank(values)
    ensures forall v :: v in NonBlank(values) <==> v in values && v != ""
    ensures "" !in values ==> NonBlank(values) == values
  {
    if values != [] {
      NonBlankKeeps(values[1..]);
      assert values == [values[0]] + values[1..];
    }
  }

  lemma HasByValue(doc: Document, attr: string, values: seq<string>)
    ensures HasAll(doc, attr, values) <==> forall v :: v in values ==> Has(doc, attr, v)
    ensures HasAny(doc, attr, values) <==> exists v :: v in values && Has(doc, attr, v)
    ensures HasNone(doc, attr, values) <==> forall v :: v in values ==> !Has(doc, attr, v)
  {
  }

  // Match-all is only written for two values or more, where it makes a difference.
  lemma IncludedMeans(st: FacetState, attr: string, doc: Document)
    requires !st.exclude
    ensures var kept := NonBlank(st.values);
            (if AndMode(st) then HasAll(doc, attr, kept) else kept == [] || HasAny(doc, attr, kept)) <==>
            FacetMeans(st.(values := kept), attr, doc)
  {
    NonBlankKeeps(st.values);
    var kept := NonBlank(st.values);
    if |kept| == 1 {
      assert HasAll(doc, attr, kept) <==> Has(doc, attr, kept[0]);
      assert HasAny(doc, attr, kept) <==> Has(doc, attr, kept[0]);
    }
  }

  lemma FacetQuery(f: JobFilters, param: string)
    requires param in FACETS
    ensures var st, p := StateOf(f, param), ToParams(f);
            && NonBlank(GetAll(p, param)) == (if st.exclude then [] else NonBlank(st.values))
            && NonBlank(GetAll(p, param + "_exclude")) == (if st.exclude then NonBlank(st.values) else [])
            && (Query(p, param + "_mode") == "and" <==> AndMode(st))
  {
    ReadFacet(f, param);
  }

  // One facet, through the URL and the compiler.
  lemma FacetIsKept(f: JobFilters, param: string, doc: Document)
    requires param in FACETS
    ensures AsksFacet(ToParams(f), param, doc) <==>
              var st := StateOf(f, param);
              FacetMeans(st.(values := NonBlank(st.values)), Attribute(param), doc)
  {
    var st, attr := StateOf(f, param), Attribute(param);
    FacetQuery(f, param);
    if !st.exclude {
      IncludedMeans(st, attr, doc);
      assert HasNone(doc, attr, []);
    } else {
      assert HasAll(doc, attr, []);
    }
  }

  lemma SearchFacetsSplit(param: string)
    ensures param in SEARCH_FACETS <==> param in FACETS || param in ["company_slug", "company_size", "salary_period"]
  {
  }

  // The facets the browser does not offer ask for nothing.
  lemma OtherFacetIsSilent(f: JobFilters, param: string, doc: Document)
    requires param in ["company_slug", "company_size", "salary_period"]
    ensures AsksFacet(ToParams(f), param, doc)
  {
    ReadOthers(f, param);
    ReadOtherMarkers(f, param, param + "_exclude");
    ReadOtherMarkers(f, param, param + "_mode");
  }

  lemma RestIsKept(f: JobFilters, doc: Document)
    ensures AsksRest(ToParams(f), doc) <==>
              (f.visa ==> Meets(doc, Flag(VISA, true))) && SalaryMeans(Effective(f).salaryMin, doc)
  {
    VisaIsKept(f, doc);
    SalaryIsKept(f, doc);
    OtherBoundsAreSilent(f, doc);
  }

  lemma VisaIsKept(f: JobFilters, doc: Document)
    ensures AsksVisa(ToParams(f), doc) <==> (f.visa ==> Meets(doc, Flag(VISA, true)))
  {
    ReadOthers(f, "visa_sponsorship");
  }

  lemma OtherBoundsAreSilent(f: JobFilters, doc: Document)
    ensures AsksAtMost(ToParams(f), "salary_max", SALARY_MAX, doc)
    ensures AsksAtLeast(ToParams(f), "experience_years_min", EXPERIENCE_MIN, doc)
  {
    ReadOthers(f, "salary_max");
    ReadOthers(f, "experience_years_min");
  }

  // Only a whole amount of 64 bits reaches the server as a number.
  lemma SalaryQuery(f: JobFilters)
    ensures QueryInt(ToParams(f), "salary_min") ==
              if f.salaryMin.Some? && Sendable(f.salaryMin.value) then Some(IntegerOf(f.salaryMin.value)) else None
  {
    ReadOthers(f, "salary_min");
    if f.salaryMin.Some? {
      AtoiReadsPrinted(f.salaryMin.value);
    } else {
      assert Atoi("").None?;
    }
  }

  lemma SalaryIsKept(f: JobFilters, doc: Document)
    ensures AsksAtLeast(ToParams(f), "salary_min", SALARY_MIN, doc) <==> SalaryMeans(Effective(f).salaryMin, doc)
  {
    SalaryQuery(f);
    if Effective(f).salaryMin.Some? {
      ReachingIsAtLeast(f.salaryMin.value);
    }
  }

  // The query form of the filters asks for exactly what they mean, once what a query cannot
  // carry is dropped.
  lemma QueryMeansTheFilters(f: JobFilters, doc: Document)
    ensures Asks(ToParams(f), doc) <==> Means(Effective(f), doc)
  {
    forall param
      ensures param in SEARCH_FACETS ==>
                (AsksFacet(ToParams(f), param, doc) <==>
                 (param in FACETS ==> FacetMeans(StateOf(Effective(f), param), Attribute(param), doc)))
      ensures param in FACETS ==> param in SEARCH_FACETS
    {
      SearchFacetsSplit(param);
      if param in FACETS {
        FacetIsKept(f, param, doc);
      } else if param in SEARCH_FACETS {
        OtherFacetIsSilent(f, param, doc);
      }
    }
    RestIsKept(f, doc);
  }

  // ---------- What the user asked for, of a job ----------

  // The facets the browser offers.
  predicate Offered(facet: Attr) {
    IsFacet(facet) && !facet.CompanySlug? && !facet.CompanySize? && !facet.SalaryPeriod?
  }

  ghost predicate Wants(st: FacetState, has: set<string>) {
    if st.exclude then forall v :: v in st.values ==> v !in has
    else if st.matchAll then forall v :: v in st.values ==> v in has
    else st.values == [] || exists v :: v in st.values && v in has
  }

  // A job is wanted when its columns are what each facet, the visa flag and the salary want.
  ghost predicate WantedBy(f: JobFilters, job: Job, e: Enrichment) {
    && (forall facet :: Offered(facet) ==> Wants(StateOf(f, NameOf(facet)), ColumnOf(job, e, facet)))
    && (f.visa ==> e.visaSponsorship == Some(true))
    && (f.salaryMin.Some? ==> e.salaryMin.Some? && Reaches(e.salaryMin.value, f.salaryMin.value))
  }

  lemma OfferedFacets(facet: Attr)
    requires Offered(facet)
    ensures NameOf(facet) in FACETS
  {
    match facet
    case Regions => assert FACETS[0] == "regions";
    case WorkMode => assert FACETS[1] == "work_mode";
    case Category => assert FACETS[2] == "category";
    case Seniority => assert FACETS[3] == "seniority";
    case Skills => assert FACETS[4] == "skills";
    case Domains => assert FACETS[5] == "domains";
    case CompanyType => assert FACETS[6] == "company_type";
    case Countries => assert FACETS[7] == "countries";
    case Relocation => assert FACETS[8] == "relocation";
    case EmploymentType => assert FACETS[9] == "employment_type";
    case EnglishLevel => assert FACETS[10] == "english_level";
    case PostingLanguage => assert FACETS[11] == "posting_language";
    case SalaryCurrency => assert FACETS[12] == "salary_currency";
    case Source => assert FACETS[13] == "source";
  }

  lemma OfferedOfName(param: string) returns (facet: Attr)
    requires param in FACETS
    ensures Offered(facet) && param == NameOf(facet)
  {
    var i :| 0 <= i < |FACETS| && FACETS[i] == param;
    facet := [
      Regions, WorkMode, Category, Seniority, Skills, Domains, CompanyType, Countries, Relocation, EmploymentType,
      EnglishLevel, PostingLanguage, SalaryCurrency, Source
    ][i];
  }

  lemma FacetWanted(st: FacetState, job: Job, e: Enrichment, view: View, facet: Attr)
    requires IsViewOf(view, job, e) && IsFacet(facet)
    ensures FacetMeans(st, Attribute(NameOf(facet)), DocumentOf(view)) <==> Wants(st, ColumnOf(job, e, facet))
  {
    var doc, attr := DocumentOf(view), Attribute(NameOf(facet));
    AttributeOfFacet(facet);
    ViewShowsTheColumns(job, e, view, facet);
    forall v ensures Has(doc, attr, v) <==> v in ColumnOf(job, e, facet) {
      DocumentHas(view, facet, v);
    }
    HasByValue(doc, attr, st.values);
  }

  lemma EveryFacetWanted(f: JobFilters, job: Job, e: Enrichment, view: View)
    requires IsViewOf(view, job, e)
    ensures (forall param :: param in FACETS ==> FacetMeans(StateOf(f, param), Attribute(param), DocumentOf(view))) <==>
            forall facet :: Offered(facet) ==> Wants(StateOf(f, NameOf(facet)), ColumnOf(job, e, facet))
  {
    forall facet | Offered(facet)
      ensures NameOf(facet) in FACETS
      ensures FacetMeans(StateOf(f, NameOf(facet)), Attribute(NameOf(facet)), DocumentOf(view)) <==>
                Wants(StateOf(f, NameOf(facet)), ColumnOf(job, e, facet))
    {
      OfferedFacets(facet);
      FacetWanted(StateOf(f, NameOf(facet)), job, e, view, facet);
    }
    forall param | param in FACETS ensures exists facet :: Offered(facet) && NameOf(facet) == param {
      var facet := OfferedOfName(param);
    }
  }

  lemma SalaryWanted(f: JobFilters, view: View)
    ensures SalaryMeans(f.salaryMin, DocumentOf(view)) <==>
              (f.salaryMin.Some? ==> view.enrichment.salaryMin.Some?
                                     && Reaches(view.enrichment.salaryMin.value, f.salaryMin.value))
  {
    assert PathOf(SalaryMin) == SALARY_MIN;
    NumberAtPath(view, SalaryMin);
  }

  lemma VisaWanted(view: View)
    ensures Meets(DocumentOf(view), Flag(VISA, true)) <==> view.enrichment.visaSponsorship == Some(true)
  {
    assert PathOf(VisaSponsorship) == VISA;
    DocumentFlag(view, VisaSponsorship, true);
  }

  // The filters mean the document of a job exactly when they want the job's columns.
  lemma DocumentsAreWanted(f: JobFilters, job: Job, e: Enrichment, view: View)
    requires IsViewOf(view, job, e)
    ensures Means(f, DocumentOf(view)) <==> WantedBy(f, job, e)
  {
    EveryFacetWanted(f, job, e, view);
    SalaryWanted(f, view);
    VisaWanted(view);
  }

  lemma FindsTheJobs(f: JobFilters, filter: Option<Groups>)
    requires forall doc :: Matches(doc, filter) <==> Means(f, doc)
    ensures forall job, e, view :: IsViewOf(view, job, e) ==>
              (Matches(DocumentOf(view), filter) <==> WantedBy(f, job, e))
  {
    forall job, e, view | IsViewOf(view, job, e)
      ensures Matches(DocumentOf(view), filter) <==> WantedBy(f, job, e)
    {
      DocumentsAreWanted(f, job, e, view);
    }
  }

  // From the browser's filters to the documents found, for every order of the facets. Of the
  // documents of jobs, these are the ones of the jobs whose columns the filters want.
  method Search(f: JobFilters) returns (filter: Option<Groups>)
    ensures forall doc :: Matches(doc, filter) <==> Means(Effective(f), doc)
    ensures forall job, e, view :: IsViewOf(view, job, e) ==>
              (Matches(DocumentOf(view), filter) <==> WantedBy(Effective(f), job, e))
  {
    var p := FiltersToParams(f);
    filter := BuildSearchFilter(p);
    forall doc
      ensures Asks(p, doc) <==> Means(Effective(f), doc)
    {
      QueryMeansTheFilters(f, doc);
    }
    FindsTheJobs(Effective(f), filter);
  }

  // ---------- Exactly when the search is faithful ----------

  lemma AttributesDiffer()
    ensures forall a, b :: a in FACETS && b in FACETS && Attribute(a) == Attribute(b) ==> a == b
  {
    forall a, b | a in FACETS && b in FACETS && Attribute(a) == Attribute(b)
      ensures a == b
    {
      if a !in TOP_LEVEL && b !in TOP_LEVEL {
        assert ("enrichment." + a)[11..] == a && ("enrichment." + b)[11..] == b;
      }
    }
  }

  function Satisfying(st: FacetState): set<string> {
    if st.exclude then {} else set v | v in st.values
  }

  // A document that suits every facet, except that the given values replace those of one.
  function Suiting(f: JobFilters, chosen: string, values: set<string>): Document {
    AttributesDiffer();
    Document(
      map param | param in FACETS :: Attribute(param) := if param ==
                chosen then values else Satisfying(StateOf(f, param)),
      map[VISA := true],
      SuitingSalary(f.salaryMin)
    )
  }

  function SuitingSalary(salary: Option<Amount>): map<string, int> {
    if salary.Some? && Sendable(salary.value) then map[SALARY_MIN := IntegerOf(salary.value)] else map[]
  }

  lemma SuitingValues(f: JobFilters, chosen: string, values: set<string>, param: string)
    requires param in FACETS
    ensures var doc := Suiting(f, chosen, values);
            && Attribute(param) in doc.values
            && doc.values[Attribute(param)] == if param == chosen then values else Satisfying(StateOf(f, param))
  {
    AttributesDiffer();
  }

  lemma SatisfyingSatisfies(st: FacetState, attr: string, doc: Document)
    requires attr in doc.values && doc.values[attr] == Satisfying(st)
    ensures FacetMeans(st, attr, doc)
    ensures FacetMeans(st.(values := NonBlank(st.values)), attr, doc)
  {
    var kept := NonBlank(st.values);
    NonBlankKeeps(st.values);
    HasByValue(doc, attr, st.values);
    HasByValue(doc, attr, kept);
    if st.values != [] {
      assert st.values[0] in st.values;
    }
    if kept != [] {
      assert kept[0] in kept;
    }
  }

  // Whatever the mode of a facet with a blank value, some values tell it from the same facet
  // without the blank.
  lemma BlankMatters(st: FacetState) returns (values: set<string>)
    requires "" in st.values
    ensures forall doc: Document, attr: string :: attr in doc.values && doc.values[attr] == values ==>
                                  (FacetMeans(st, attr, doc) <==>
                                            !FacetMeans(st.(values := NonBlank(st.values)), attr, doc))
  {
    var kept := NonBlank(st.values);
    NonBlankKeeps(st.values);
    values := if st.exclude then {""} else if st.matchAll then (set v | v in kept) else if kept == [] then {} else {""};
    forall doc: Document, attr | attr in doc.values && doc.values[attr] == values
      ensures FacetMeans(st, attr, doc) <==> !FacetMeans(st.(values := kept), attr, doc)
    {
      HasByValue(doc, attr, st.values);
      HasByValue(doc, attr, kept);
    }
  }

  lemma SuitsTheOthers(f: JobFilters, chosen: string, values: set<string>, param: string)
    requires param in FACETS && param != chosen
    ensures var doc := Suiting(f, chosen, values);
            FacetMeans(StateOf(f, param), Attribute(param), doc) && FacetMeans(StateOf(Effective(f), param),
                Attribute(param), doc)
  {
    SuitingValues(f, chosen, values, param);
    SatisfyingSatisfies(StateOf(f, param), Attribute(param), Suiting(f, chosen, values));
  }

  lemma SuitsTheRest(f: JobFilters, chosen: string, values: set<string>)
    ensures Meets(Suiting(f, chosen, values), Flag(VISA, true))
    ensures SalaryMeans(Effective(f).salaryMin, Suiting(f, chosen, values))
  {
    var doc := Suiting(f, chosen, values);
    SuitsTheSalary(f.salaryMin, doc);
  }

  lemma SuitsTheSalary(salary: Option<Amount>, doc: Document)
    requires doc.numbers == SuitingSalary(salary)
    ensures SalaryMeans(EffectiveSalary(salary), doc)
  {
    if salary.Some? && Sendable(salary.value) {
      ReachingIsAtLeast(salary.value);
    }
  }

  lemma OneFacetTellsApart(f: JobFilters, param: string, doc: Document)
    requires param in FACETS && Meets(doc, Flag(VISA, true))
    requires SalaryMeans(f.salaryMin, doc) && SalaryMeans(Effective(f).salaryMin, doc)
    requires forall other :: other in FACETS && other != param ==>
                               FacetMeans(StateOf(f, other), Attribute(other), doc)
                                   && FacetMeans(StateOf(Effective(f), other), Attribute(other), doc)
    requires FacetMeans(StateOf(f, param), Attribute(param), doc) <==> !FacetMeans(StateOf(Effective(f), param),
             Attribute(param), doc)
    ensures Means(f, doc) <==> !Means(Effective(f), doc)
  {
    var g := Effective(f);
    assert g.visa == f.visa;
    if FacetMeans(StateOf(f, param), Attribute(param), doc) {
      assert forall other :: other in FACETS ==> FacetMeans(StateOf(f, other), Attribute(other), doc);
    } else {
      assert forall other :: other in FACETS ==> FacetMeans(StateOf(g, other), Attribute(other), doc);
    }
  }

  lemma BlankValueIsLost(f: JobFilters, param: string) returns (doc: Document)
    requires param in FACETS && "" in StateOf(f, param).values
    requires f.salaryMin.Some? ==> Sendable(f.salaryMin.value)
    ensures Means(f, doc) <==> !Means(Effective(f), doc)
  {
    var values := BlankMatters(StateOf(f, param));
    doc := Suiting(f, param, values);
    SuitingValues(f, param, values, param);
    SuitsTheRest(f, param, values);
    forall other | other in FACETS && other != param
      ensures FacetMeans(StateOf(f, other), Attribute(other), doc) && FacetMeans(StateOf(Effective(f), other),
              Attribute(other), doc)
    {
      SuitsTheOthers(f, param, values, other);
    }
    assert StateOf(Effective(f), param) == StateOf(f, param).(values := NonBlank(StateOf(f, param).values));
    OneFacetTellsApart(f, param, doc);
  }

  lemma NoSalaryGiven(f: JobFilters, doc: Document)
    requires f.salaryMin.Some? && !Sendable(f.salaryMin.value) && SALARY_MIN !in doc.numbers
    requires Meets(doc, Flag(VISA, true))
    requires forall param :: param in FACETS ==> FacetMeans(StateOf(Effective(f), param), Attribute(param), doc)
    ensures !Means(f, doc) && Means(Effective(f), doc)
  {
  }

  lemma UnsendableSalaryIsLost(f: JobFilters) returns (doc: Document)
    requires f.salaryMin.Some? && !Sendable(f.salaryMin.value)
    ensures !Means(f, doc) && Means(Effective(f), doc)
  {
    doc := Suiting(f, "", {});
    forall param | param in FACETS
      ensures FacetMeans(StateOf(Effective(f), param), Attribute(param), doc)
    {
      assert param != "";
      SuitsTheOthers(f, "", {}, param);
    }
    NoSalaryGiven(f, doc);
  }

  // The search finds what the filters mean, on every document, if and only if no facet value
  // is blank and the salary is a whole number of 64 bits.
  lemma FaithfulExactlyWhenExpressible(f: JobFilters)
    ensures (forall doc :: Asks(ToParams(f), doc) <==> Means(f, doc)) <==> Expressible(f)
  {
    forall doc
      ensures Asks(ToParams(f), doc) <==> Means(Effective(f), doc)
    {
      QueryMeansTheFilters(f, doc);
    }
    if Expressible(f) {
      forall param | param in FACETS
        ensures StateOf(Effective(f), param) == StateOf(f, param)
      {
        NonBlankKeeps(StateOf(f, param).values);
      }
      assert forall doc :: Means(Effective(f), doc) <==> Means(f, doc);
    } else if f.salaryMin.Some? && !Sendable(f.salaryMin.value) {
      var doc := UnsendableSalaryIsLost(f);
      assert Asks(ToParams(f), doc) && !Means(f, doc);
    } else {
      var param :| param in FACETS && "" in StateOf(f, param).values;
      var doc := BlankValueIsLost(f, param);
      assert !(Asks(ToParams(f), doc) <==> Means(f, doc));
    }
  }

  // At one input: the browser reads 1e20 from its own URL, and the server finds no number.
  lemma LargeSalaryIsLost()
    ensures var p := [Param("salary_min", "100000000000000000000")];
            var f := FromParams(p);
            && f.salaryMin.Some? && Integral(f.salaryMin.value) && !Expressible(f)
            && QueryInt(p, "salary_min").None?
  {
    var p := [Param("salary_min", "100000000000000000000")];
    assert p[1..] == [];
    OneE20IsLost();
    AtoiReadsPrinted(Finite(false, "1", 21));
  }
}
