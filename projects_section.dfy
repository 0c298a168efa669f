/** The projects section (src/app/components/ProjectsSection.tsx): the
    category filter, the split of the filtered list into the featured card and
    the grid, the truncated grid descriptions, the "first three plus overflow"
    technology badges and the link buttons of each card. */
module ProjectsSection {
  import opened Common

  datatype Links = Links(demo: Option<string>, code: Option<string>, caseStudy: Option<string>, download: Option<string>)

  datatype Project = Project(
    id: nat, title: string, description: string, image: string,
    technologies: seq<string>, links: Links, category: string, featured: bool)

  datatype Category = Category(id: string, name: string)

  /** The filter buttons, in order. */
  const Categories: seq<Category> := [
    Category("all", "All Projects"),
    Category("ml", "Machine Learning"),
    Category("nlp", "NLP")
  ]

  /** The filter ids, in button order. */
  const CategoryIds: seq<string> := MapSeq(Categories, (c: Category) => c.id)

  /** The filter value that shows every project; also the initial filter. */
  const AllFilter: string := "all"

  lemma CategoryIdsAreIds()
    ensures |CategoryIds| == |Categories|
    ensures forall k :: 0 <= k < |Categories| ==> CategoryIds[k] == Categories[k].id
    ensures Distinct(CategoryIds) && AllFilter in CategoryIds
  {
    assert CategoryIds[0] == "all" && CategoryIds[1] == "ml" && CategoryIds[2] == "nlp";
  }

  /** The four projects. Titles and descriptions come from the translation
      function `t`, which is a parameter here. A project without `featured`
      is not featured. */
  function Catalogue(t: string -> string): seq<Project> {
    [
      Project(1, t("projects.anomaly.title"), t("projects.anomaly.desc"), "/result.gif",
        ["Python", "Kubernetes", "Prometheus", "Flask", "Scikit-learn"],
        Links(None, Some("https://github.com/Riemann-def/anomaly-detection"),
          Some("https://www.linkedin.com/pulse/monitoreo-y-detecci%C3%B3n-de-anomal%C3%ADas-en-apis-con-flask-ramiro-vaquero-mf2yc"),
          Some("/tfg.pdf")),
        "ml", true),
      Project(2, t("projects.docmind.title"), t("projects.docmind.desc"), "/docmind.jpg",
        ["Python", "OpenAI", "Anthropic", "Azure", "OCR"],
        Links(None, None,
          Some("https://www.linkedin.com/posts/markel-ramiro-vaquero-92530319b_cu%C3%A1nto-dinero-ha-procesado-wippass-para-activity-7190682971429883904-Je80"),
          None),
        "nlp", false),
      Project(3, t("projects.timeseries.title"), t("projects.timeseries.desc"), "/time-series.jpg",
        ["Python", "TensorFlow", "LSTM", "Transformers", "Pandas"],
        Links(Some("https://huggingface.co/spaces/markel/time-series-forecasting"),
          Some("https://github.com/Riemann-def/timeseries-forecasting"), None, None),
        "ml", false),
      Project(4, t("projects.nlp.title"), t("projects.nlp.desc"), "/SmartQuery.PNG",
        ["Python", "RAG", "LangChain", "SQL", "OpenAI"],
        Links(None, Some("https://github.com/Riemann-def/smart-query"), None, None),
        "nlp", false)
    ]
  }

  // ---------------------------------------------------------------- filter

  function CategoryIs(c: string): Project -> bool {
    (p: Project) => p.category == c
  }

  /** `filteredProjects`: every project under "all", otherwise exactly those
      of the selected category, in their original order. */
  function FilteredProjects(ps: seq<Project>, filter: string): (r: seq<Project>)
    ensures filter == AllFilter ==> r == ps
    ensures filter != AllFilter ==> forall p :: p in r <==> p in ps && p.category == filter
  {
    if filter == AllFilter then ps else Keep(ps, CategoryIs(filter))
  }

  /** The filter keeps the original order: filtering a concatenation is the
      concatenation of the filtered parts. */
  lemma FilterKeepsOrder(a: seq<Project>, b: seq<Project>, filter: string)
    ensures FilteredProjects(a + b, filter) == FilteredProjects(a, filter) + FilteredProjects(b, filter)
  {
    if filter != AllFilter {
      KeepConcat(a, b, CategoryIs(filter));
    }
  }

  /** The filter buttons highlighted for the current filter. */
  function HighlightedFilters(filter: string): set<int> {
    Positions(CategoryIds, filter)
  }

  /** The filter starts at "all" and a click sets it to a category id, so
      exactly one button is highlighted: the one whose id is the filter. */
  lemma ExactlyOneFilterHighlighted(filter: string)
    requires filter in CategoryIds
    ensures |HighlightedFilters(filter)| == 1
    ensures forall k :: k in HighlightedFilters(filter) ==> Categories[k].id == filter
  {
    CategoryIdsAreIds();
    DistinctPositions(CategoryIds, filter);
  }

  // ------------------------------------------------------ featured and grid

  predicate IsFeatured(p: Project) {
    p.featured
  }

  predicate IsGridCard(p: Project) {
    !p.featured
  }

  /** The projects of the featured block. */
  function FeaturedProjects(ps: seq<Project>): seq<Project> {
    Keep(ps, IsFeatured)
  }

  /** The projects of the grid. */
  function GridProjects(ps: seq<Project>): seq<Project> {
    Keep(ps, IsGridCard)
  }

  /** `filteredProjects.some(project => project.featured)`. */
  predicate ShowsFeaturedBlock(ps: seq<Project>) {
    exists p :: p in ps && p.featured
  }

  /** The featured block is rendered iff it has something to list. */
  lemma FeaturedBlockIffNonEmpty(ps: seq<Project>)
    ensures ShowsFeaturedBlock(ps) <==> FeaturedProjects(ps) != []
  {
    if FeaturedProjects(ps) != [] {
      assert FeaturedProjects(ps)[0] in FeaturedProjects(ps);
    }
  }

  /** The featured block and the grid partition the filtered list: every
      project is in exactly one of them, as often as in the list. */
  lemma FeaturedAndGridPartition(ps: seq<Project>)
    ensures multiset(FeaturedProjects(ps)) + multiset(GridProjects(ps)) == multiset(ps)
    ensures forall p :: p in FeaturedProjects(ps) <==> p in ps && p.featured
    ensures forall p :: p in GridProjects(ps) <==> p in ps && !p.featured
  {
    KeepPartition(ps, IsFeatured, IsGridCard);
  }

  // ------------------------------------------------------------ grid cards

  const DescriptionLimit: nat := 140
  const Ellipsis: string := "..."

  /** A grid card's description: cut to its first 140 characters followed by
      "..." when longer than 140, shown unchanged otherwise. */
  function ShownDescription(s: string): (r: string)
    ensures |s| <= DescriptionLimit ==> r == s
    ensures |s| > DescriptionLimit ==> |r| == DescriptionLimit + |Ellipsis| && r == s[..DescriptionLimit] + Ellipsis
  {
    if |s| > DescriptionLimit then s[..DescriptionLimit] + Ellipsis else s
  }

  /** A shown description never exceeds 143 characters and starts with the
      original text up to the cut. */
  lemma ShownDescriptionBounded(s: string)
    ensures |ShownDescription(s)| <= DescriptionLimit + |Ellipsis|
    ensures |s| > DescriptionLimit ==> ShownDescription(s)[..DescriptionLimit] == s[..DescriptionLimit]
  {
  }

  /** Cutting an already cut description changes nothing. */
  lemma ShownDescriptionIdempotent(s: string)
    ensures ShownDescription(ShownDescription(s)) == ShownDescription(s)
  {
    if |s| > DescriptionLimit {
      var r := ShownDescription(s);
      assert r[..DescriptionLimit] == s[..DescriptionLimit];
    }
  }

  const ShownTechnologies: nat := 3

  /** The technology badges of a grid card: the named ones, and the number in
      the "+n" badge if there is one. */
  datatype Badges = Badges(shown: seq<string>, overflow: Option<nat>)

  function TechBadges(techs: seq<string>): (b: Badges)
    ensures |b.shown| == if |techs| < ShownTechnologies then |techs| else ShownTechnologies
    ensures b.shown == techs[..|b.shown|]
    ensures b.overflow.Some? <==> |techs| > ShownTechnologies
  {
    var shown := if |techs| < ShownTechnologies then techs else techs[..ShownTechnologies];
    Badges(shown, if |techs| > ShownTechnologies then Some(|techs| - ShownTechnologies) else None)
  }

  /** The badges account for every technology: the named ones plus the
      "+n" count is the length of the list. */
  lemma BadgesCountEveryTechnology(techs: seq<string>)
    ensures |TechBadges(techs).shown| + (if TechBadges(techs).overflow.Some? then TechBadges(techs).overflow.value else 0) == |techs|
    ensures TechBadges(techs).shown + techs[|TechBadges(techs).shown|..] == techs
  {
  }

  // ---------------------------------------------------------- link buttons

  datatype LinkKind = Code | CaseStudy | Demo | Download

  /** The position of each button in a card's button row. */
  function Rank(k: LinkKind): nat {
    match k
    case Code => 0
    case CaseStudy => 1
    case Demo => 2
    case Download => 3
  }

  function LinkOf(l: Links, k: LinkKind): Option<string> {
    match k
    case Code => l.code
    case CaseStudy => l.caseStudy
    case Demo => l.demo
    case Download => l.download
  }

  /** A button is rendered for a link that is present (truthy). */
  predicate HasLink(l: Links, k: LinkKind) {
    Truthy(LinkOf(l, k))
  }

  predicate InRankOrder(r: seq<LinkKind>) {
    forall a, b :: 0 <= a < b < |r| ==> Rank(r[a]) < Rank(r[b])
  }

  function ButtonIf(l: Links, k: LinkKind): seq<LinkKind> {
    if HasLink(l, k) then [k] else []
  }

  /** The featured card's buttons: code, case study, demo, download, each only
      when its link is present. */
  function FeaturedButtons(l: Links): (r: seq<LinkKind>)
    ensures forall k :: k in r <==> HasLink(l, k)
    ensures InRankOrder(r)
  {
    ButtonIf(l, Code) + ButtonIf(l, CaseStudy) + ButtonIf(l, Demo) + ButtonIf(l, Download)
  }

  /** A grid card's buttons: code, case study, demo, each only when present;
      a grid card has no download button. */
  function GridButtons(l: Links): (r: seq<LinkKind>)
    ensures forall k :: k in r <==> HasLink(l, k) && k != Download
    ensures InRankOrder(r)
  {
    ButtonIf(l, Code) + ButtonIf(l, CaseStudy) + ButtonIf(l, Demo)
  }

  predicate NotDownload(k: LinkKind) {
    k != Download
  }

  lemma KeepButton(l: Links, k: LinkKind)
    ensures Keep(ButtonIf(l, k), NotDownload) == if k == Download then [] else ButtonIf(l, k)
  {
    if HasLink(l, k) {
      KeepSingleton(k, NotDownload);
    }
  }

  /** A grid card shows the featured card's buttons minus the download. */
  lemma GridButtonsAreFeaturedWithoutDownload(l: Links)
    ensures GridButtons(l) == Keep(FeaturedButtons(l), NotDownload)
  {
    var c, s, d, dl := ButtonIf(l, Code), ButtonIf(l, CaseStudy), ButtonIf(l, Demo), ButtonIf(l, Download);
    KeepConcat(c + s + d, dl, NotDownload);
    KeepConcat(c + s, d, NotDownload);
    KeepConcat(c, s, NotDownload);
    KeepButton(l, Code);
    KeepButton(l, CaseStudy);
    KeepButton(l, Demo);
    KeepButton(l, Download);
  }

  // ------------------------------------------------------ the four projects

  /** Filtering a list of four projects, one at a time. */
  lemma KeepFour(ps: seq<Project>, f: Project -> bool)
    requires |ps| == 4
    ensures Keep(ps, f) ==
      (if f(ps[0]) then [ps[0]] else []) + (if f(ps[1]) then [ps[1]] else []) +
      (if f(ps[2]) then [ps[2]] else []) + (if f(ps[3]) then [ps[3]] else [])
  {
    assert ps == [ps[0]] + [ps[1]] + [ps[2]] + [ps[3]];
    KeepConcat([ps[0]] + [ps[1]] + [ps[2]], [ps[3]], f);
    KeepConcat([ps[0]] + [ps[1]], [ps[2]], f);
    KeepConcat([ps[0]], [ps[1]], f);
    KeepSingleton(ps[0], f);
    KeepSingleton(ps[1], f);
    KeepSingleton(ps[2], f);
    KeepSingleton(ps[3], f);
  }

  /** What the filter and the featured/grid split read of the catalogue:
      four projects of categories ml, nlp, ml, nlp, only the first featured. */
  predicate CatalogueLayout(ps: seq<Project>) {
    |ps| == 4 &&
    ps[0].category == "ml" && ps[1].category == "nlp" && ps[2].category == "ml" && ps[3].category == "nlp" &&
    ps[0].featured && !ps[1].featured && !ps[2].featured && !ps[3].featured
  }

  /** The four projects have ids 1 to 4 and that layout. */
  lemma CatalogueHasLayout(t: string -> string)
    ensures CatalogueLayout(Catalogue(t))
    ensures Catalogue(t)[0].id == 1 && Catalogue(t)[1].id == 2 && Catalogue(t)[2].id == 3 && Catalogue(t)[3].id == 4
  {
  }

  /** Under "ml" the section lists the first and third projects. */
  lemma MachineLearningView(ps: seq<Project>)
    requires CatalogueLayout(ps)
    ensures FilteredProjects(ps, "ml") == [ps[0], ps[2]]
  {
    KeepFour(ps, CategoryIs("ml"));
  }

  /** Under "nlp" the section lists the second and fourth projects and has no
      featured block. */
  lemma LanguageView(ps: seq<Project>)
    requires CatalogueLayout(ps)
    ensures FilteredProjects(ps, "nlp") == [ps[1], ps[3]]
    ensures !ShowsFeaturedBlock(FilteredProjects(ps, "nlp"))
  {
    KeepFour(ps, CategoryIs("nlp"));
    var r := FilteredProjects(ps, "nlp");
    assert forall p :: p in r ==> p == ps[1] || p == ps[3];
  }

  /** Under "all" the first project is featured ... */
  lemma AllViewFeatured(ps: seq<Project>)
    requires CatalogueLayout(ps)
    ensures FeaturedProjects(FilteredProjects(ps, AllFilter)) == [ps[0]]
  {
    KeepFour(ps, IsFeatured);
    assert IsFeatured(ps[0]) && !IsFeatured(ps[1]) && !IsFeatured(ps[2]) && !IsFeatured(ps[3]);
  }

  /** ... and the other three form the grid. */
  lemma AllViewGrid(ps: seq<Project>)
    requires CatalogueLayout(ps)
    ensures GridProjects(FilteredProjects(ps, AllFilter)) == ps[1..]
  {
    KeepFour(ps, IsGridCard);
    assert !IsGridCard(ps[0]) && IsGridCard(ps[1]) && IsGridCard(ps[2]) && IsGridCard(ps[3]);
    assert ps[1..] == [ps[1]] + [ps[2]] + [ps[3]];
  }
}
