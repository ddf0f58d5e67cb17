// What the search index stores of a job: the public view of its row, with the facets that come
// both from the row and from its enrichment resolved to one value each, flattened to attributes.
module JobIndex {
  import opened Wrappers
  import opened Catalogue
  import opened Ordering
  import opened SearchFilter
  import opened Text

  // The decoded enrichment payload, as far as it is faceted. An empty text or list and None are
  // all absent.
  datatype Enrichment = Enrichment(
    workMode: string,
    employmentType: string,
    relocation: string,
    visaSponsorship: Option<bool>,
    regions: seq<string>,
    countries: seq<string>,
    salaryMin: Option<int>,
    salaryMax: Option<int>,
    salaryCurrency: string,
    salaryPeriod: string,
    seniority: string,
    experienceYearsMin: Option<int>,
    englishLevel: string,
    skills: seq<string>,
    category: string,
    domains: seq<string>,
    postingLanguage: string,
    companyType: string,
    companySize: string
  )

  // The faceted part of the public view of a job.
  datatype View = View(
    source: string,
    companySlug: string,
    countries: seq<string>,
    regions: seq<string>,
    workMode: string,
    skills: seq<string>,
    enrichment: Enrichment
  )

  // ---------- From a row to its view ----------

  ghost predicate IsUnion(merged: seq<string>, a: seq<string>, b: seq<string>) {
    Ascending(merged) && forall v :: v in merged <==> exists x :: (x in a || x in b) && Lower(x) == v
  }

  // The values of both lists in lower case, sorted and without duplicates.
  method MergeSets(a: seq<string>, b: seq<string>) returns (merged: seq<string>)
    ensures IsUnion(merged, a, b)
  {
    var found: set<string> := {};
    for i := 0 to |a|
      invariant forall v :: v in found <==> exists x :: x in a[..i] && Lower(x) == v
    {
      assert a[..i + 1] == a[..i] + [a[i]];
      found := found + {Lower(a[i])};
    }
    assert a[..|a|] == a;
    for i := 0 to |b|
      invariant forall v :: v in found <==> exists x :: (x in a || x in b[..i]) && Lower(x) == v
    {
      assert b[..i + 1] == b[..i] + [b[i]];
      found := found + {Lower(b[i])};
    }
    assert b[..|b|] == b;
    merged := SortedKeys(found);
  }

  // Countries, regions and skills are the union of the row's and the enrichment's, the work mode
  // is the enrichment's when it has one; these are cleared on the enrichment served.
  ghost predicate IsViewOf(view: View, job: Job, e: Enrichment) {
    && view.source == job.key.source && view.companySlug == job.facts.companySlug
    && IsUnion(view.countries, job.facts.countries, e.countries)
    && IsUnion(view.regions, job.facts.regions, e.regions)
    && view.workMode == (if e.workMode != "" then e.workMode else job.facts.workMode)
    && IsUnion(view.skills, job.facts.skills, e.skills)
    && view.enrichment == e.(countries := [], regions := [], workMode := "", skills := [])
  }

  method FromRow(job: Job, enrichment: Enrichment) returns (view: View)
    ensures IsViewOf(view, job, enrichment)
  {
    var e := enrichment;
    var countries := MergeSets(job.facts.countries, e.countries);
    var regions := MergeSets(job.facts.regions, e.regions);
    var workMode := e.workMode;
    if workMode == "" {
      workMode := job.facts.workMode;
    }
    var skills := MergeSets(job.facts.skills, e.skills);
    e := e.(countries := [], regions := [], workMode := "");
    e := e.(skills := []);
    view := View(job.key.source, job.facts.companySlug, countries, regions, workMode, skills, e);
  }

  // ---------- From a view to its document ----------

  // The attributes the index can filter on, those of the nested enrichment by dot path.
  datatype Attr =
    | Source | CompanySlug | WorkMode | Regions | Countries | Skills
    | EmploymentType | Seniority | Category | Domains | CompanyType | CompanySize | VisaSponsorship
    | SalaryCurrency | SalaryPeriod | SalaryMin | SalaryMax | ExperienceYearsMin | Relocation | EnglishLevel
    | PostingLanguage

  predicate Resolved(attr: Attr) {
    attr.Source? || attr.CompanySlug? || attr.WorkMode? || attr.Regions? || attr.Countries? || attr.Skills?
  }

  function KeyOf(attr: Attr): string {
    match attr
    case Source => "source"
    case CompanySlug => "company_slug"
    case WorkMode => "work_mode"
    case Regions => "regions"
    case Countries => "countries"
    case Skills => "skills"
    case EmploymentType => "employment_type"
    case Seniority => "seniority"
    case Category => "category"
    case Domains => "domains"
    case CompanyType => "company_type"
    case CompanySize => "company_size"
    case VisaSponsorship => "visa_sponsorship"
    case SalaryCurrency => "salary_currency"
    case SalaryPeriod => "salary_period"
    case SalaryMin => "salary_min"
    case SalaryMax => "salary_max"
    case ExperienceYearsMin => "experience_years_min"
    case Relocation => "relocation"
    case EnglishLevel => "english_level"
    case PostingLanguage => "posting_language"
  }

  function Dotted(key: string): string {
    "enrichment." + key
  }

  function PathOf(attr: Attr): string {
    if Resolved(attr) then KeyOf(attr) else Dotted(KeyOf(attr))
  }

  function One(text: string): set<string> {
    if text == "" then {} else {text}
  }

  function All(texts: seq<string>): set<string> {
    set t | t in texts
  }

  function Texts(view: View, attr: Attr): set<string> {
    var e := view.enrichment;
    match attr
    case Source => {view.source}
    case CompanySlug => {view.companySlug}
    case WorkMode => One(view.workMode)
    case Regions => All(view.regions)
    case Countries => All(view.countries)
    case Skills => All(view.skills)
    case EmploymentType => One(e.employmentType)
    case Seniority => One(e.seniority)
    case Category => One(e.category)
    case Domains => All(e.domains)
    case CompanyType => One(e.companyType)
    case CompanySize => One(e.companySize)
    case SalaryCurrency => One(e.salaryCurrency)
    case SalaryPeriod => One(e.salaryPeriod)
    case Relocation => One(e.relocation)
    case EnglishLevel => One(e.englishLevel)
    case PostingLanguage => One(e.postingLanguage)
    case _ => {}
  }

  function Bound(e: Enrichment, attr: Attr): Option<int> {
    match attr
    case SalaryMin => e.salaryMin
    case SalaryMax => e.salaryMax
    case ExperienceYearsMin => e.experienceYearsMin
    case _ => None
  }

  function Truth(e: Enrichment, attr: Attr): Option<bool> {
    match attr
    case VisaSponsorship => e.visaSponsorship
    case _ => None
  }

  function AttrOf(key: string): Attr {
    match key
    case "source" => Source
    case "company_slug" => CompanySlug
    case "work_mode" => WorkMode
    case "regions" => Regions
    case "countries" => Countries
    case "skills" => Skills
    case "employment_type" => EmploymentType
    case "seniority" => Seniority
    case "category" => Category
    case "domains" => Domains
    case "company_type" => CompanyType
    case "company_size" => CompanySize
    case "visa_sponsorship" => VisaSponsorship
    case "salary_currency" => SalaryCurrency
    case "salary_period" => SalaryPeriod
    case "salary_min" => SalaryMin
    case "salary_max" => SalaryMax
    case "experience_years_min" => ExperienceYearsMin
    case "relocation" => Relocation
    case "english_level" => EnglishLevel
    case "posting_language" => PostingLanguage
    case _ => Source
  }

  lemma KeysDiffer(attr: Attr)
    ensures AttrOf(KeyOf(attr)) == attr
  {
    match attr
    case Source =>
    case CompanySlug =>
    case WorkMode =>
    case Regions =>
    case Countries =>
    case Skills =>
    case EmploymentType =>
    case Seniority =>
    case Category =>
    case Domains =>
    case CompanyType =>
    case CompanySize =>
    case VisaSponsorship =>
    case SalaryCurrency =>
    case SalaryPeriod =>
    case SalaryMin =>
    case SalaryMax =>
    case ExperienceYearsMin =>
    case Relocation =>
    case EnglishLevel =>
    case PostingLanguage =>
  }

  lemma ResolvedKeyIsNotDotted(attr: Attr, key: string)
    requires Resolved(attr)
    ensures KeyOf(attr) != Dotted(key)
  {
    assert Dotted(key)[0] == 'e';
  }

  lemma PathsDiffer(a: Attr, b: Attr)
    requires PathOf(a) == PathOf(b)
    ensures a == b
  {
    KeysDiffer(a);
    KeysDiffer(b);
    ResolvedKeyIsNotDotted(if Resolved(a) then a else Source, KeyOf(b));
    ResolvedKeyIsNotDotted(if Resolved(b) then b else Source, KeyOf(a));
    if !Resolved(a) && !Resolved(b) {
      assert Dotted(KeyOf(a))[11..] == KeyOf(a) && Dotted(KeyOf(b))[11..] == KeyOf(b);
    }
  }

  lemma EveryPathDiffers()
    ensures forall a, b :: PathOf(a) == PathOf(b) ==> a == b
  {
    forall a, b | PathOf(a) == PathOf(b) ensures a == b {
      PathsDiffer(a, b);
    }
  }

  const ATTRS: set<Attr> := set attr: Attr | true

  // The values there are, by path.
  function ByPath<T>(attrs: set<Attr>, get: Attr -> Option<T>): map<string, T> {
    EveryPathDiffers();
    map attr | attr in attrs && get(attr).Some? :: PathOf(attr) := get(attr).value
  }

  lemma AtPath<T>(attrs: set<Attr>, get: Attr -> Option<T>, attr: Attr)
    requires attr in attrs
    ensures PathOf(attr) in ByPath(attrs, get) <==> get(attr).Some?
    ensures get(attr).Some? ==> ByPath(attrs, get)[PathOf(attr)] == get(attr).value
  {
    EveryPathDiffers();
  }

  function Given(texts: set<string>): Option<set<string>> {
    if texts == {} then None else Some(texts)
  }

  // An attribute without a value is left out of the document.
  function DocumentOf(view: View): Document {
    Document(
      ByPath(ATTRS, attr => Given(Texts(view, attr))),
      ByPath(ATTRS, attr => Truth(view.enrichment, attr)),
      ByPath(ATTRS, attr => Bound(view.enrichment, attr))
    )
  }

  lemma DocumentHas(view: View, attr: Attr, v: string)
    ensures Has(DocumentOf(view), PathOf(attr), v) <==> v in Texts(view, attr)
  {
    AtPath(ATTRS, attr => Given(Texts(view, attr)), attr);
  }

  lemma DocumentFlag(view: View, attr: Attr, v: bool)
    ensures Meets(DocumentOf(view), Flag(PathOf(attr), v)) <==> Truth(view.enrichment, attr) == Some(v)
  {
    AtPath(ATTRS, attr => Truth(view.enrichment, attr), attr);
  }

  lemma DocumentNumber(view: View, attr: Attr, n: int)
    ensures var stored := Bound(view.enrichment, attr);
            && (Meets(DocumentOf(view), AtLeast(PathOf(attr), n)) <==> stored.Some? && stored.value >= n)
            && (Meets(DocumentOf(view), AtMost(PathOf(attr), n)) <==> stored.Some? && stored.value <= n)
  {
    AtPath(ATTRS, attr => Bound(view.enrichment, attr), attr);
  }

  lemma NumberAtPath(view: View, attr: Attr)
    ensures var numbers, stored := DocumentOf(view).numbers, Bound(view.enrichment, attr);
            (PathOf(attr) in numbers <==> stored.Some?) && (stored.Some? ==> numbers[PathOf(attr)] == stored.value)
  {
    AtPath(ATTRS, attr => Bound(view.enrichment, attr), attr);
  }
}
