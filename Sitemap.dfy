/** The sitemap (app/sitemap.ts): one entry per page and locale, in three
    sections (site routes, regional impact pages, blog articles), each entry
    carrying its hreflang alternates. */
module Sitemap {

  import opened Options
  import opened Navigation
  import TrustData

  datatype Frequency = Daily | Weekly | Monthly

  /** A key of an entry's `languages` record: a locale code or `x-default`. */
  datatype LanguageKey = LocaleKey(locale: Locale) | DefaultKey

  /** The key as it is written in the record. */
  function LanguageTag(key: LanguageKey): string {
    match key
    case LocaleKey(l) => Code(l)
    case DefaultKey => XDefault
  }

  datatype SitemapEntry = SitemapEntry(
    url: string,
    lastModified: string,
    changeFrequency: Frequency,
    priority: real,
    languages: map<LanguageKey, string>)

  /** The five blog articles, in the order the sitemap lists them. */
  datatype Article =
    | FinancialInclusion | MiamiCapital | KeynesianMultiplier | HummingbirdEconomy | LocalShops

  function ArticleId(article: Article): string {
    match article
    case FinancialInclusion => "financial-inclusion-why-it-matters"
    case MiamiCapital => "miami-capital-financial-inclusion"
    case KeynesianMultiplier => "keynesian-multiplier-local-value"
    case HummingbirdEconomy => "hummingbird-economy"
    case LocalShops => "local-shops-financial-hubs"
  }

  const BlogArticles: seq<Article> :=
    [FinancialInclusion, MiamiCapital, KeynesianMultiplier, HummingbirdEconomy, LocalShops]

  /** One row of `blogSlugs`: an article's slug in each locale that has one.
      The table has no `en-gb` and no `it` column. */
  datatype ArticleSlugs = ArticleSlugs(en: string, fr: string, es: string, pt: string, de: string, zh: string, ja: string) {

    /** `blogSlugs[article][locale]`, absent for `en-gb` and `it`. */
    function Get(locale: Locale): Option<string> {
      match locale
      case En => Some(en)
      case Fr => Some(fr)
      case Es => Some(es)
      case Pt => Some(pt)
      case De => Some(de)
      case Zh => Some(zh)
      case Ja => Some(ja)
      case EnGb => None
      case It => None
    }
  }

  /** `blogSlugs[article]`. */
  function BlogSlugs(article: Article): ArticleSlugs {
    match article
    case FinancialInclusion => ArticleSlugs(
      en := "financial-inclusion-why-it-matters",
      fr := "inclusion-financiere-pourquoi-cest-essentiel",
      es := "inclusion-financiera-por-que-importa",
      pt := "inclusao-financeira-por-que-importa",
      de := "finanzielle-inklusion-warum-wichtig",
      zh := "financial-inclusion-why-it-matters",
      ja := "financial-inclusion-why-it-matters")
    case MiamiCapital => ArticleSlugs(
      en := "miami-capital-financial-inclusion",
      fr := "miami-epicentre-inclusion-financiere",
      es := "miami-capital-inclusion-financiera",
      pt := "miami-coracao-inclusao-financeira",
      de := "miami-zentrum-finanzielle-inklusion",
      zh := "miami-capital-financial-inclusion",
      ja := "miami-capital-financial-inclusion")
    case KeynesianMultiplier => ArticleSlugs(
      en := "keynesian-multiplier-local-value",
      fr := "multiplicateur-keynesien-valeur-locale",
      es := "multiplicador-keynesiano-valor-local",
      pt := "multiplicador-keynesiano-valor-local",
      de := "keynesianischer-multiplikator-lokaler-wert",
      zh := "keynesian-multiplier-local-value",
      ja := "keynesian-multiplier-local-value")
    case HummingbirdEconomy => ArticleSlugs(
      en := "hummingbird-economy",
      fr := "economie-du-colibri",
      es := "economia-del-colibri",
      pt := "economia-do-beija-flor",
      de := "kolibri-wirtschaft",
      zh := "hummingbird-economy",
      ja := "hummingbird-economy")
    case LocalShops => ArticleSlugs(
      en := "local-shops-financial-hubs",
      fr := "commerces-hubs-financiers",
      es := "tiendas-locales-centros-financieros",
      pt := "comercios-locais-hubs-financeiros",
      de := "lokale-laeden-finanzzentren",
      zh := "local-shops-financial-hubs",
      ja := "local-shops-financial-hubs")
  }

  /** `value || fallback` on a string that may be absent: the value when it is
      present and non-empty, the fallback otherwise. */
  function OrElse(value: Option<string>, fallback: string): string {
    if value.Some? && value.value != "" then value.value else fallback
  }

  /** `routeMap.impact[locale] || 'impact'` */
  function ImpactSlug(locale: Locale): string {
    OrElse(Some(RouteSlugs(Impact).Get(locale)), "impact")
  }

  /** `routeMap.blog[locale] || 'blog'` */
  function BlogRouteSlug(locale: Locale): string {
    OrElse(Some(RouteSlugs(Blog).Get(locale)), "blog")
  }

  /** `blogSlugs[article]?.[locale] || article` */
  function BlogSlug(article: Article, locale: Locale): string {
    OrElse(BlogSlugs(article).Get(locale), ArticleId(article))
  }

  // ---------------------------------------------------------------------
  // Ordering: a grid of cells, walked row by row
  // ---------------------------------------------------------------------

  /** `cell(x, k)` for each `k` of `keys`, in order. */
  function Row<X, K, T>(x: X, keys: seq<K>, cell: (X, K) -> T): (row: seq<T>)
    ensures |row| == |keys|
    ensures forall j :: 0 <= j < |keys| ==> row[j] == cell(x, keys[j])
  {
    if |keys| == 0 then []
    else Row(x, keys[..|keys| - 1], cell) + [cell(x, keys[|keys| - 1])]
  }

  /** For each `x` of `outer` in turn, its row over `inner`. */
  function Grid<X, K, T>(outer: seq<X>, inner: seq<K>, cell: (X, K) -> T): seq<T> {
    if |outer| == 0 then []
    else Grid(outer[..|outer| - 1], inner, cell) + Row(outer[|outer| - 1], inner, cell)
  }

  /** A grid has one cell per pair. */
  lemma {:induction false} GridLength<X, K, T>(outer: seq<X>, inner: seq<K>, cell: (X, K) -> T)
    ensures |Grid(outer, inner, cell)| == |outer| * |inner|
  {
    if |outer| > 0 {
      GridLength(outer[..|outer| - 1], inner, cell);
      assert |outer| * |inner| == (|outer| - 1) * |inner| + |inner|;
    }
  }

  /** The cell of the `i`-th outer and `j`-th inner element sits at
      `i * |inner| + j`: rows are contiguous and in order. */
  lemma {:induction false} GridAt<X, K, T>(outer: seq<X>, inner: seq<K>, cell: (X, K) -> T, i: int, j: int)
    requires 0 <= i < |outer| && 0 <= j < |inner|
    ensures i * |inner| + j < |Grid(outer, inner, cell)|
    ensures Grid(outer, inner, cell)[i * |inner| + j] == cell(outer[i], inner[j])
  {
    var n := |outer| - 1;
    GridLength(outer[..n], inner, cell);
    if i < n {
      GridAt(outer[..n], inner, cell, i, j);
    } else {
      assert i * |inner| == n * |inner|;
    }
  }

  /** `GridLength` restated with the sizes as parameters: callers pass
      literal sizes, so the product `m * w` never appears over `|outer|`
      and `|inner|`, which keeps each caller's proof cheap for the solver. */
  lemma GridShape<X, K, T>(outer: seq<X>, inner: seq<K>, cell: (X, K) -> T, m: int, w: int)
    requires |outer| == m && |inner| == w
    ensures |Grid(outer, inner, cell)| == m * w
  {
    GridLength(outer, inner, cell);
  }

  /** `GridAt` restated with the row width as a parameter, for the same
      reason as `GridShape`. */
  lemma GridCell<X, K, T>(outer: seq<X>, inner: seq<K>, cell: (X, K) -> T, w: int, i: int, j: int)
    requires |inner| == w && 0 <= i < |outer| && 0 <= j < w
    ensures 0 <= i * w + j < |Grid(outer, inner, cell)|
    ensures Grid(outer, inner, cell)[i * w + j] == cell(outer[i], inner[j])
  {
    GridAt(outer, inner, cell, i, j);
  }

  /** A three-part concatenation splits back into its parts. */
  lemma ThreeParts<T>(a: seq<T>, b: seq<T>, c: seq<T>)
    ensures (a + b + c)[..|a|] == a
    ensures (a + b + c)[|a|..|a| + |b|] == b
    ensures (a + b + c)[|a| + |b|..] == c
  {
  }

  /** Extending the keys by one extends the row by that key's cell. */
  lemma RowStep<X, K, T>(x: X, keys: seq<K>, cell: (X, K) -> T, j: int)
    requires 0 <= j < |keys|
    ensures Row(x, keys[..j + 1], cell) == Row(x, keys[..j], cell) + [cell(x, keys[j])]
  {
    assert keys[..j + 1][..j] == keys[..j];
  }

  /** Extending the outer list by one extends the grid by that element's row. */
  lemma GridStep<X, K, T>(outer: seq<X>, inner: seq<K>, cell: (X, K) -> T, i: int)
    requires 0 <= i < |outer|
    ensures Grid(outer[..i + 1], inner, cell) == Grid(outer[..i], inner, cell) + Row(outer[i], inner, cell)
  {
    assert outer[..i + 1][..i] == outer[..i];
  }

  // ---------------------------------------------------------------------
  // Alternates
  // ---------------------------------------------------------------------

  /** The `languages` record after the locale loop: the page's URL in each
      locale of `locs`, written in order. */
  function Alternates(locs: seq<Locale>, url: Locale -> string): map<LanguageKey, string> {
    if |locs| == 0 then map[]
    else Alternates(locs[..|locs| - 1], url)[LocaleKey(locs[|locs| - 1]) := url(locs[|locs| - 1])]
  }

  /** The loop writes exactly the locales of the list, each to its own URL,
      and never `x-default`. */
  lemma {:induction false} AlternatesHaveEveryLocale(locs: seq<Locale>, url: Locale -> string)
    ensures forall l :: LocaleKey(l) in Alternates(locs, url) <==> l in locs
    ensures forall l :: LocaleKey(l) in Alternates(locs, url) ==> Alternates(locs, url)[LocaleKey(l)] == url(l)
    ensures DefaultKey !in Alternates(locs, url)
  {
    if |locs| > 0 {
      var init := locs[..|locs| - 1];
      AlternatesHaveEveryLocale(init, url);
      assert locs == init + [locs[|locs| - 1]];
    }
  }

  /** The inner loop of each section: one alternate per locale, in order. */
  method FillLanguages(locales: seq<Locale>, url: Locale -> string) returns (languages: map<LanguageKey, string>)
    ensures languages == Alternates(locales, url)
  {
    languages := map[];
    var k := 0;
    while k < |locales|
      invariant 0 <= k <= |locales|
      invariant languages == Alternates(locales[..k], url)
    {
      var altLocale := locales[k];
      assert locales[..k + 1][..k] == locales[..k];
      languages := languages[LocaleKey(altLocale) := url(altLocale)];
      k := k + 1;
    }
    assert locales[..k] == locales;
  }

  // ---------------------------------------------------------------------
  // The three sections
  // ---------------------------------------------------------------------

  /** The URL of a route in a locale. */
  function RouteUrl(key: RouteKey): Locale -> string {
    l => BaseUrl + LocalizedPath(KeyName(key), l)
  }

  /** The entry of route `key` in `locale`: daily with priority 1.0 for the
      home page, weekly otherwise, with priority 0.9 for the Miami page and
      0.8 for the others; `x-default` is the `en` page. */
  function RouteEntry(key: RouteKey, locale: Locale, locales: seq<Locale>, now: string): SitemapEntry {
    SitemapEntry(
      url := RouteUrl(key)(locale),
      lastModified := now,
      changeFrequency := if key == Home then Daily else Weekly,
      priority := if key == Home then 1.0 else if key == Miami then 0.9 else 0.8,
      languages := Alternates(locales, RouteUrl(key))[DefaultKey := RouteUrl(key)(En)])
  }

  function RouteCell(locales: seq<Locale>, now: string): (Locale, RouteKey) -> SitemapEntry {
    (l, k) => RouteEntry(k, l, locales, now)
  }

  /** For each locale, every route in declaration order. */
  function RouteSection(locales: seq<Locale>, now: string): seq<SitemapEntry> {
    Grid(locales, RouteKeys, RouteCell(locales, now))
  }

  /** The URL of a region's impact page in a locale. */
  function RegionUrl(region: string): Locale -> string {
    l => BaseUrl + "/" + Code(l) + "/" + ImpactSlug(l) + "/" + region
  }

  /** The entry of `region`'s impact page in `locale`: weekly, priority 0.85,
      `x-default` the fixed `/en/impact/` page. */
  function RegionEntry(region: string, locale: Locale, locales: seq<Locale>, now: string): SitemapEntry {
    SitemapEntry(
      url := RegionUrl(region)(locale),
      lastModified := now,
      changeFrequency := Weekly,
      priority := 0.85,
      languages := Alternates(locales, RegionUrl(region))[DefaultKey := BaseUrl + "/en/impact/" + region])
  }

  function RegionCell(locales: seq<Locale>, now: string): (string, Locale) -> SitemapEntry {
    (r, l) => RegionEntry(r, l, locales, now)
  }

  /** For each region of `regions`, every locale. */
  function RegionSection(regions: seq<string>, locales: seq<Locale>, now: string): seq<SitemapEntry> {
    Grid(regions, locales, RegionCell(locales, now))
  }

  /** The URL of an article in a locale. */
  function BlogUrl(article: Article): Locale -> string {
    l => BaseUrl + "/" + Code(l) + "/" + BlogRouteSlug(l) + "/" + BlogSlug(article, l)
  }

  /** The entry of `article` in `locale`: monthly, priority 0.7, no `x-default`. */
  function BlogEntry(article: Article, locale: Locale, locales: seq<Locale>, now: string): SitemapEntry {
    SitemapEntry(
      url := BlogUrl(article)(locale),
      lastModified := now,
      changeFrequency := Monthly,
      priority := 0.7,
      languages := Alternates(locales, BlogUrl(article)))
  }

  function BlogCell(locales: seq<Locale>, now: string): (Article, Locale) -> SitemapEntry {
    (a, l) => BlogEntry(a, l, locales, now)
  }

  /** For each article of `articles`, every locale. */
  function BlogSection(articles: seq<Article>, locales: seq<Locale>, now: string): seq<SitemapEntry> {
    Grid(articles, locales, BlogCell(locales, now))
  }

  /** The routes, then the regional impact pages, then the articles. */
  function SitemapSpec(locales: seq<Locale>, now: string): seq<SitemapEntry> {
    RouteSection(locales, now)
      + RegionSection(TrustData.AllRegions, locales, now)
      + BlogSection(BlogArticles, locales, now)
  }

  // ---------------------------------------------------------------------
  // The generator
  // ---------------------------------------------------------------------

  /** One route entry, computed as the first loop nest's body does. */
  method BuildRouteEntry(routeKey: RouteKey, locale: Locale, locales: seq<Locale>, now: string)
    returns (entry: SitemapEntry)
    ensures entry == RouteEntry(routeKey, locale, locales, now)
  {
    var path := LocalizedPath(KeyName(routeKey), locale);
    var isHome := routeKey == Home;
    var languages := FillLanguages(locales, RouteUrl(routeKey));
    languages := languages[DefaultKey := BaseUrl + LocalizedPath(KeyName(routeKey), En)];
    entry := SitemapEntry(
      url := BaseUrl + path,
      lastModified := now,
      changeFrequency := if isHome then Daily else Weekly,
      priority := if isHome then 1.0 else if routeKey == Miami then 0.9 else 0.8,
      languages := languages);
  }

  /** One regional impact entry, computed as the second loop nest's body does. */
  method BuildRegionEntry(region: string, locale: Locale, locales: seq<Locale>, now: string)
    returns (entry: SitemapEntry)
    ensures entry == RegionEntry(region, locale, locales, now)
  {
    var impactSlug := ImpactSlug(locale);
    var languages := FillLanguages(locales, RegionUrl(region));
    languages := languages[DefaultKey := BaseUrl + "/en/impact/" + region];
    entry := SitemapEntry(
      url := BaseUrl + "/" + Code(locale) + "/" + impactSlug + "/" + region,
      lastModified := now,
      changeFrequency := Weekly,
      priority := 0.85,
      languages := languages);
  }

  /** One article entry, computed as the third loop nest's body does. */
  method BuildBlogEntry(article: Article, locale: Locale, locales: seq<Locale>, now: string)
    returns (entry: SitemapEntry)
    ensures entry == BlogEntry(article, locale, locales, now)
  {
    var slug := BlogSlug(article, locale);
    var blogRouteKey := BlogRouteSlug(locale);
    var languages := FillLanguages(locales, BlogUrl(article));
    entry := SitemapEntry(
      url := BaseUrl + "/" + Code(locale) + "/" + blogRouteKey + "/" + slug,
      lastModified := now,
      changeFrequency := Monthly,
      priority := 0.7,
      languages := languages);
  }

  /** The inner loop of the first nest: every route, in one locale. */
  method RouteRow(locale: Locale, locales: seq<Locale>, now: string) returns (row: seq<SitemapEntry>)
    ensures row == Row(locale, RouteKeys, RouteCell(locales, now))
  {
    var cell := RouteCell(locales, now);
    var routeKeys := RouteKeys;
    row := [];
    var j := 0;
    while j < |routeKeys|
      invariant 0 <= j <= |routeKeys|
      invariant row == Row(locale, routeKeys[..j], cell)
    {
      var entry := BuildRouteEntry(routeKeys[j], locale, locales, now);
      RowStep(locale, routeKeys, cell, j);
      row := row + [entry];
      j := j + 1;
    }
    assert routeKeys[..j] == routeKeys;
  }

  /** The first loop nest: for each locale, for each route key. */
  method RouteEntries(locales: seq<Locale>, now: string) returns (entries: seq<SitemapEntry>)
    ensures entries == RouteSection(locales, now)
  {
    entries := [];
    var i := 0;
    while i < |locales|
      invariant 0 <= i <= |locales|
      invariant entries == Grid(locales[..i], RouteKeys, RouteCell(locales, now))
    {
      var row := RouteRow(locales[i], locales, now);
      GridStep(locales, RouteKeys, RouteCell(locales, now), i);
      entries := entries + row;
      i := i + 1;
    }
    assert locales[..i] == locales;
  }

  /** The inner loop of the second nest: one region, in every locale. */
  method RegionRow(region: string, locales: seq<Locale>, now: string) returns (row: seq<SitemapEntry>)
    ensures row == Row(region, locales, RegionCell(locales, now))
  {
    var cell := RegionCell(locales, now);
    row := [];
    var l := 0;
    while l < |locales|
      invariant 0 <= l <= |locales|
      invariant row == Row(region, locales[..l], cell)
    {
      var entry := BuildRegionEntry(region, locales[l], locales, now);
      RowStep(region, locales, cell, l);
      row := row + [entry];
      l := l + 1;
    }
    assert locales[..l] == locales;
  }

  /** The second loop nest: for each region, for each locale. */
  method RegionEntries(locales: seq<Locale>, now: string) returns (entries: seq<SitemapEntry>)
    ensures entries == RegionSection(TrustData.AllRegions, locales, now)
  {
    var regions := TrustData.AllRegions;
    entries := [];
    var r := 0;
    while r < |regions|
      invariant 0 <= r <= |regions|
      invariant entries == Grid(regions[..r], locales, RegionCell(locales, now))
    {
      var row := RegionRow(regions[r], locales, now);
      GridStep(regions, locales, RegionCell(locales, now), r);
      entries := entries + row;
      r := r + 1;
    }
    assert regions[..r] == regions;
  }

  /** The inner loop of the third nest: one article, in every locale. */
  method BlogRow(article: Article, locales: seq<Locale>, now: string) returns (row: seq<SitemapEntry>)
    ensures row == Row(article, locales, BlogCell(locales, now))
  {
    var cell := BlogCell(locales, now);
    row := [];
    var l := 0;
    while l < |locales|
      invariant 0 <= l <= |locales|
      invariant row == Row(article, locales[..l], cell)
    {
      var entry := BuildBlogEntry(article, locales[l], locales, now);
      RowStep(article, locales, cell, l);
      row := row + [entry];
      l := l + 1;
    }
    assert locales[..l] == locales;
  }

  /** The third loop nest: for each article, for each locale. */
  method BlogEntries(locales: seq<Locale>, now: string) returns (entries: seq<SitemapEntry>)
    ensures entries == BlogSection(BlogArticles, locales, now)
  {
    var articles := BlogArticles;
    entries := [];
    var a := 0;
    while a < |articles|
      invariant 0 <= a <= |articles|
      invariant entries == Grid(articles[..a], locales, BlogCell(locales, now))
    {
      var row := BlogRow(articles[a], locales, now);
      GridStep(articles, locales, BlogCell(locales, now), a);
      entries := entries + row;
      a := a + 1;
    }
    assert articles[..a] == articles;
  }

  /** `sitemap()`, with the locale list and the timestamp as parameters. */
  method GenerateSitemap(locales: seq<Locale>, now: string) returns (entries: seq<SitemapEntry>)
    ensures entries == SitemapSpec(locales, now)
  {
    var routes := RouteEntries(locales, now);
    var regions := RegionEntries(locales, now);
    var blog := BlogEntries(locales, now);
    entries := routes + regions + blog;
  }

  // ---------------------------------------------------------------------
  // Properties of the sitemap
  // ---------------------------------------------------------------------

  /** The site's tables always supply the impact and blog segments: the
      `|| 'impact'` and `|| 'blog'` fallbacks never apply. */
  lemma SegmentsNeverFallBack(locale: Locale)
    ensures ImpactSlug(locale) == RouteSlugs(Impact).Get(locale) != ""
    ensures BlogRouteSlug(locale) == RouteSlugs(Blog).Get(locale) != ""
  {
    match locale
    case En => case EnGb => case Fr => case Es => case Pt =>
    case De => case It => case Zh => case Ja =>
  }

  /** `blogSlugs` has no `en-gb` and no `it` column: there the article id
      stands in. */
  lemma BlogSlugFallsBackToArticleId(article: Article, locale: Locale)
    requires locale == EnGb || locale == It
    ensures BlogSlugs(article).Get(locale) == None
    ensures BlogSlug(article, locale) == ArticleId(article)
  {
  }

  /** In every other locale an article has its own, non-empty slug. */
  lemma BlogSlugIsTabled(article: Article, locale: Locale)
    requires locale != EnGb && locale != It
    ensures BlogSlugs(article).Get(locale).Some?
    ensures BlogSlug(article, locale) == BlogSlugs(article).Get(locale).value != ""
  {
    match article
    case FinancialInclusion => BlogSlugsNonEmpty(BlogSlugs(article), locale);
    case MiamiCapital => BlogSlugsNonEmpty(BlogSlugs(article), locale);
    case KeynesianMultiplier => BlogSlugsNonEmpty(BlogSlugs(article), locale);
    case HummingbirdEconomy => BlogSlugsNonEmpty(BlogSlugs(article), locale);
    case LocalShops => BlogSlugsNonEmpty(BlogSlugs(article), locale);
  }

  lemma BlogSlugsNonEmpty(slugs: ArticleSlugs, locale: Locale)
    requires locale != EnGb && locale != It
    requires slugs.en != "" && slugs.fr != "" && slugs.es != "" && slugs.pt != ""
    requires slugs.de != "" && slugs.zh != "" && slugs.ja != ""
    ensures slugs.Get(locale).Some? && slugs.Get(locale).value != ""
  {
  }

  /** The `x-default` of a regional page is its `en` URL. */
  lemma RegionDefaultIsEnglish(region: string)
    ensures RegionUrl(region)(En) == BaseUrl + "/en/impact/" + region
  {
    SegmentsNeverFallBack(En);
    assert Code(En) == "en" && RouteSlugs(Impact).Get(En) == "impact";
    assert BaseUrl + "/" + "en" + "/" + "impact" + "/" + region == BaseUrl + ("/" + "en" + "/" + "impact" + "/") + region;
    assert "/" + "en" + "/" + "impact" + "/" == "/en/impact/";
  }

  /** Three sections of one entry per page and locale: 14 routes, then 7
      regions, then 5 articles for each locale. */
  lemma SitemapSections(locales: seq<Locale>, now: string)
    ensures |SitemapSpec(locales, now)| == 26 * |locales|
    ensures SitemapSpec(locales, now)[..14 * |locales|] == RouteSection(locales, now)
    ensures SitemapSpec(locales, now)[14 * |locales|..21 * |locales|]
         == RegionSection(TrustData.AllRegions, locales, now)
    ensures SitemapSpec(locales, now)[21 * |locales|..] == BlogSection(BlogArticles, locales, now)
  {
    var n := |locales|;
    RouteKeysEnumerateTable();
    GridShape(locales, RouteKeys, RouteCell(locales, now), n, 14);
    GridShape(TrustData.AllRegions, locales, RegionCell(locales, now), 7, n);
    GridShape(BlogArticles, locales, BlogCell(locales, now), 5, n);
    ThreeParts(RouteSection(locales, now), RegionSection(TrustData.AllRegions, locales, now),
      BlogSection(BlogArticles, locales, now));
  }

  /** Route `j` of locale `i` sits at `i * 14 + j`: for each locale, every
      route in declaration order. */
  lemma RouteSectionOrder(locales: seq<Locale>, now: string, i: int, j: int)
    requires 0 <= i < |locales| && 0 <= j < 14
    ensures i * 14 + j < |RouteSection(locales, now)|
    ensures RouteSection(locales, now)[i * 14 + j] == RouteEntry(RouteKeys[j], locales[i], locales, now)
  {
    RouteKeysEnumerateTable();
    GridCell(locales, RouteKeys, RouteCell(locales, now), 14, i, j);
  }

  /** Region `r` in locale `i` sits at `r * |locales| + i`: for each region,
      every locale. */
  lemma RegionSectionOrder(regions: seq<string>, locales: seq<Locale>, now: string, r: int, i: int)
    requires 0 <= r < |regions| && 0 <= i < |locales|
    ensures 0 <= r * |locales| + i < |RegionSection(regions, locales, now)|
    ensures RegionSection(regions, locales, now)[r * |locales| + i] == RegionEntry(regions[r], locales[i], locales, now)
  {
    GridCell(regions, locales, RegionCell(locales, now), |locales|, r, i);
  }

  /** Article `a` in locale `i` sits at `a * |locales| + i`: for each
      article, every locale. */
  lemma BlogSectionOrder(articles: seq<Article>, locales: seq<Locale>, now: string, a: int, i: int)
    requires 0 <= a < |articles| && 0 <= i < |locales|
    ensures 0 <= a * |locales| + i < |BlogSection(articles, locales, now)|
    ensures BlogSection(articles, locales, now)[a * |locales| + i] == BlogEntry(articles[a], locales[i], locales, now)
  {
    GridCell(articles, locales, BlogCell(locales, now), |locales|, a, i);
  }

  /** A route entry: its URL is the localized page; its alternates name
      exactly the listed locales, each with its own localized URL, plus
      `x-default` with the `en` URL; the home page is daily with priority
      1.0, every other route weekly, Miami at 0.9 and the rest at 0.8. */
  lemma RouteEntryFacts(key: RouteKey, locale: Locale, locales: seq<Locale>, now: string)
    ensures var e := RouteEntry(key, locale, locales, now);
      && e.url == LocalizedUrl(KeyName(key), locale)
      && e.lastModified == now
      && (forall l :: LocaleKey(l) in e.languages <==> l in locales)
      && (forall l :: l in locales ==> e.languages[LocaleKey(l)] == LocalizedUrl(KeyName(key), l))
      && DefaultKey in e.languages && e.languages[DefaultKey] == LocalizedUrl(KeyName(key), En)
      && (En in locales ==> e.languages[LocaleKey(En)] == e.languages[DefaultKey])
      && e.changeFrequency == (if key == Home then Daily else Weekly)
      && (e.priority == 1.0 <==> key == Home)
      && (key == Miami ==> e.priority == 0.9)
      && (key != Home && key != Miami ==> e.priority == 0.8)
  {
    AlternatesHaveEveryLocale(locales, RouteUrl(key));
  }

  /** A regional impact entry: the URL uses the locale's own impact segment;
      the alternates name exactly the listed locales, plus `x-default` with
      the `/en/impact/` page, which is also the `en` alternate; weekly, 0.85. */
  lemma RegionEntryFacts(region: string, locale: Locale, locales: seq<Locale>, now: string)
    ensures var e := RegionEntry(region, locale, locales, now);
      && e.url == BaseUrl + "/" + Code(locale) + "/" + RouteSlugs(Impact).Get(locale) + "/" + region
      && e.lastModified == now
      && (forall l :: LocaleKey(l) in e.languages <==> l in locales)
      && (forall l :: l in locales ==> e.languages[LocaleKey(l)] == RegionUrl(region)(l))
      && DefaultKey in e.languages && e.languages[DefaultKey] == BaseUrl + "/en/impact/" + region
      && (En in locales ==> e.languages[LocaleKey(En)] == e.languages[DefaultKey])
      && e.changeFrequency == Weekly && e.priority == 0.85
  {
    AlternatesHaveEveryLocale(locales, RegionUrl(region));
    SegmentsNeverFallBack(locale);
    RegionDefaultIsEnglish(region);
  }

  /** A blog entry: the URL uses the locale's blog segment and the article's
      slug in that locale; the alternates name exactly the listed locales and
      there is no `x-default`; monthly, 0.7. */
  lemma BlogEntryFacts(article: Article, locale: Locale, locales: seq<Locale>, now: string)
    ensures var e := BlogEntry(article, locale, locales, now);
      && e.url == BaseUrl + "/" + Code(locale) + "/" + RouteSlugs(Blog).Get(locale) + "/" + BlogSlug(article, locale)
      && e.lastModified == now
      && (forall l :: LocaleKey(l) in e.languages <==> l in locales)
      && (forall l :: l in locales ==> e.languages[LocaleKey(l)] == BlogUrl(article)(l))
      && DefaultKey !in e.languages
      && e.changeFrequency == Monthly && e.priority == 0.7
  {
    AlternatesHaveEveryLocale(locales, BlogUrl(article));
    SegmentsNeverFallBack(locale);
  }
}
