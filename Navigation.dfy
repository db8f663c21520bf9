/** Localized path resolution (lib/navigation.ts): the table from route keys
    to per-locale URL slugs, and the path, absolute-URL and hreflang builders
    over it. */
module Navigation {

  import opened Options

  /** The nine supported locales (the `Locale` type the site's pages are typed with). */
  datatype Locale = En | EnGb | Fr | Es | Pt | De | It | Zh | Ja

  /** The locale's code, as it appears in URLs and hreflang tags. */
  function Code(locale: Locale): string {
    match locale
    case En => "en"
    case EnGb => "en-gb"
    case Fr => "fr"
    case Es => "es"
    case Pt => "pt"
    case De => "de"
    case It => "it"
    case Zh => "zh"
    case Ja => "ja"
  }

  /** The nine locales, in the order in which hreflang alternates list them. */
  const AllLocales: seq<Locale> := [En, EnGb, Fr, Es, Pt, De, It, Zh, Ja]

  /** The synthetic hreflang tag that points search engines at the default page. */
  const XDefault: string := "x-default"

  const BaseUrl: string := "https://colhybri.com"

  /** The fourteen route keys of the site, in declaration order. */
  datatype RouteKey =
    | Home | Mission | HowItWorks | Pricing | Impact | ForIndividuals | ForShops
    | ForCities | Miami | Ecosystem | Investors | Blog | Faq | Contact

  /** The route key as callers spell it. */
  function KeyName(key: RouteKey): string {
    match key
    case Home => "home"
    case Mission => "mission"
    case HowItWorks => "how-it-works"
    case Pricing => "pricing"
    case Impact => "impact"
    case ForIndividuals => "for-individuals"
    case ForShops => "for-shops"
    case ForCities => "for-cities"
    case Miami => "miami"
    case Ecosystem => "ecosystem"
    case Investors => "investors"
    case Blog => "blog"
    case Faq => "faq"
    case Contact => "contact"
  }

  /** The route key a caller's string names, if it names one. */
  function ParseRouteKey(s: string): Option<RouteKey> {
    if s == "home" then Some(Home)
    else if s == "mission" then Some(Mission)
    else if s == "how-it-works" then Some(HowItWorks)
    else if s == "pricing" then Some(Pricing)
    else if s == "impact" then Some(Impact)
    else if s == "for-individuals" then Some(ForIndividuals)
    else if s == "for-shops" then Some(ForShops)
    else if s == "for-cities" then Some(ForCities)
    else if s == "miami" then Some(Miami)
    else if s == "ecosystem" then Some(Ecosystem)
    else if s == "investors" then Some(Investors)
    else if s == "blog" then Some(Blog)
    else if s == "faq" then Some(Faq)
    else if s == "contact" then Some(Contact)
    else None
  }

  /** One route's slugs, one per locale. */
  datatype Slugs = Slugs(en: string, enGb: string, fr: string, es: string, pt: string,
                         de: string, it: string, zh: string, ja: string)
  {
    function Get(locale: Locale): string {
      match locale
      case En => en
      case EnGb => enGb
      case Fr => fr
      case Es => es
      case Pt => pt
      case De => de
      case It => it
      case Zh => zh
      case Ja => ja
    }

    /** The row as the lookup sees it: a map from locale to slug. */
    function AsMap(): map<Locale, string> {
      map[En := en, EnGb := enGb, Fr := fr, Es := es, Pt := pt, De := de, It := it, Zh := zh, Ja := ja]
    }
  }

  /** A route's row holds every locale, with the slug `Get` gives. */
  lemma AsMapIsTotal(slugs: Slugs)
    ensures forall l :: l in slugs.AsMap() && slugs.AsMap()[l] == slugs.Get(l)
  {
    forall l: Locale
      ensures l in slugs.AsMap() && slugs.AsMap()[l] == slugs.Get(l)
    {
      match l
      case En => case EnGb => case Fr => case Es => case Pt =>
      case De => case It => case Zh => case Ja =>
    }
  }

  /** The slugs of each route. The home route's slug is empty. */
  function RouteSlugs(key: RouteKey): Slugs {
    match key
    case Home => Slugs("", "", "", "", "", "", "", "", "")
    case Mission => Slugs("mission", "mission", "mission", "mision", "missao", "mission", "missione", "使命", "ミッション")
    case HowItWorks => Slugs("how-it-works", "how-it-works", "comment-ca-marche", "como-funciona", "como-funciona", "so-funktioniert-es", "come-funziona", "工作原理", "仕組み")
    case Pricing => Slugs("pricing", "pricing", "tarifs", "precios", "precos", "preise", "prezzi", "定价", "料金")
    case Impact => Slugs("impact", "impact", "impact", "impacto", "impacto", "wirkung", "impatto", "影响", "インパクト")
    case ForIndividuals => Slugs("for-individuals", "for-individuals", "pour-les-particuliers", "para-individuos", "para-individuos", "fuer-einzelpersonen", "per-i-cittadini", "个人用户", "個人向け")
    case ForShops => Slugs("for-shops", "for-shops", "pour-les-commerces", "para-comercios", "para-comercios", "fuer-geschaefte", "per-le-botteghe", "商家", "店舗向け")
    case ForCities => Slugs("for-cities", "for-cities", "pour-les-villes", "para-ciudades", "para-cidades", "fuer-staedte", "per-i-comuni", "城市", "都市向け")
    case Miami => Slugs("miami", "miami", "miami", "miami", "miami", "miami", "miami", "miami", "miami")
    case Ecosystem => Slugs("ecosystem", "ecosystem", "ecosysteme", "ecosistema", "ecossistema", "oekosystem", "ecosistema", "生态系统", "エコシステム")
    case Investors => Slugs("investors", "investors", "investisseurs", "inversores", "investidores", "investoren", "investitori", "投资者", "投資家向け")
    case Blog => Slugs("blog", "blog", "blog", "blog", "blog", "blog", "blog", "博客", "ブログ")
    case Faq => Slugs("faq", "faq", "faq", "faq", "faq", "faq", "faq", "常见问题", "よくある質問")
    case Contact => Slugs("contact", "contact", "contact", "contacto", "contato", "kontakt", "contatti", "联系我们", "お問い合わせ")
  }

  /** The route keys in declaration order (the order `Object.keys` yields them). */
  const RouteKeys: seq<RouteKey> := [
    Home, Mission, HowItWorks, Pricing, Impact, ForIndividuals, ForShops,
    ForCities, Miami, Ecosystem, Investors, Blog, Faq, Contact
  ]

  /** `routeMap[routeKey]`: the row of the route the string names, if it names one. */
  function RouteRow(routeKey: string): Option<map<Locale, string>> {
    match ParseRouteKey(routeKey)
    case Some(key) => Some(RouteSlugs(key).AsMap())
    case None => None
  }

  /** `row?.[locale] ?? row?.['en'] ?? routeKey`: the locale's entry when
      present (even an empty one, since `??` only skips absent entries), else
      the `en` entry, else the route key itself. */
  function ResolveSlug(row: Option<map<Locale, string>>, routeKey: string, locale: Locale): string {
    if row.Some? && locale in row.value then row.value[locale]
    else if row.Some? && En in row.value then row.value[En]
    else routeKey
  }

  /** The slug `routeKey` takes in `locale`. */
  function Slug(routeKey: string, locale: Locale): string {
    ResolveSlug(RouteRow(routeKey), routeKey, locale)
  }

  /** `/{locale}` for an empty slug, `/{locale}/{slug}` otherwise. */
  function LocalizedPath(routeKey: string, locale: Locale): (path: string)
    ensures |path| > |Code(locale)| && path[..|Code(locale)| + 1] == "/" + Code(locale)
    ensures |path| == |Code(locale)| + 1 <==> Slug(routeKey, locale) == ""
    ensures |path| > |Code(locale)| + 1 ==> path[|Code(locale)| + 1] == '/'
  {
    var slug := Slug(routeKey, locale);
    if slug == "" then "/" + Code(locale) else "/" + Code(locale) + "/" + slug
  }

  /** Reads the slug back out of a path built for `locale`. */
  function SlugOfPath(locale: Locale, path: string): string {
    if |path| > |Code(locale)| + 1 then path[|Code(locale)| + 2..] else ""
  }

  function AbsoluteUrl(path: string): (url: string)
    ensures |url| == |BaseUrl| + |path|
    ensures url[..|BaseUrl|] == BaseUrl && url[|BaseUrl|..] == path
  {
    BaseUrl + path
  }

  /** The absolute URL of `routeKey` in `locale`. */
  function LocalizedUrl(routeKey: string, locale: Locale): string {
    AbsoluteUrl(LocalizedPath(routeKey, locale))
  }

  /** One hreflang alternate: a language tag and the absolute URL of the page in it. */
  datatype Alternate = Alternate(locale: string, url: string)

  /** One alternate per locale of AllLocales, in that order, followed by the
      `x-default` alternate, which points at the `en` page. */
  function HreflangAlternates(routeKey: string): (alts: seq<Alternate>)
    ensures |alts| == |AllLocales| + 1 == 10
    ensures forall i :: 0 <= i < |AllLocales| ==>
      alts[i] == Alternate(Code(AllLocales[i]), LocalizedUrl(routeKey, AllLocales[i]))
    ensures alts[|AllLocales|] == Alternate(XDefault, alts[0].url)
  {
    seq(|AllLocales|, i requires 0 <= i < |AllLocales| => Alternate(Code(AllLocales[i]), LocalizedUrl(routeKey, AllLocales[i])))
      + [Alternate(XDefault, LocalizedUrl(routeKey, En))]
  }

  // ---------------------------------------------------------------------
  // Slug resolution
  // ---------------------------------------------------------------------

  /** The first five route names parse back to their keys. */
  lemma ParseKeyNameFirst()
    ensures ParseRouteKey(KeyName(Home)) == Some(Home)
    ensures ParseRouteKey(KeyName(Mission)) == Some(Mission)
    ensures ParseRouteKey(KeyName(HowItWorks)) == Some(HowItWorks)
    ensures ParseRouteKey(KeyName(Pricing)) == Some(Pricing)
    ensures ParseRouteKey(KeyName(Impact)) == Some(Impact)
  {
  }

  /** The next five route names parse back to their keys. */
  lemma ParseKeyNameMiddle()
    ensures ParseRouteKey(KeyName(ForIndividuals)) == Some(ForIndividuals)
    ensures ParseRouteKey(KeyName(ForShops)) == Some(ForShops)
    ensures ParseRouteKey(KeyName(ForCities)) == Some(ForCities)
    ensures ParseRouteKey(KeyName(Miami)) == Some(Miami)
    ensures ParseRouteKey(KeyName(Ecosystem)) == Some(Ecosystem)
  {
  }

  /** The last four route names parse back to their keys. */
  lemma ParseKeyNameLast()
    ensures ParseRouteKey(KeyName(Investors)) == Some(Investors)
    ensures ParseRouteKey(KeyName(Blog)) == Some(Blog)
    ensures ParseRouteKey(KeyName(Faq)) == Some(Faq)
    ensures ParseRouteKey(KeyName(Contact)) == Some(Contact)
  {
  }

  /** A string parses only to the key it names. */
  lemma ParseIsNamed(s: string)
    ensures ParseRouteKey(s).Some? ==> KeyName(ParseRouteKey(s).value) == s
  {
    if s == "home" {
    } else if s == "mission" {
    } else if s == "how-it-works" {
    } else if s == "pricing" {
    } else if s == "impact" {
    } else if s == "for-individuals" {
    } else if s == "for-shops" {
    } else if s == "for-cities" {
    } else if s == "miami" {
    } else if s == "ecosystem" {
    } else if s == "investors" {
    } else if s == "blog" {
    } else if s == "faq" {
    } else if s == "contact" {
    }
  }

  /** ParseRouteKey and KeyName are inverse: every key's name parses back to
      it, and a string parses only to the key it names. */
  lemma ParseKeyName()
    ensures forall key :: ParseRouteKey(KeyName(key)) == Some(key)
    ensures forall s, key :: ParseRouteKey(s) == Some(key) ==> KeyName(key) == s
  {
    forall s: string
      ensures ParseRouteKey(s).Some? ==> KeyName(ParseRouteKey(s).value) == s
    {
      ParseIsNamed(s);
    }
    forall key: RouteKey
      ensures ParseRouteKey(KeyName(key)) == Some(key)
    {
      match key
      case Home | Mission | HowItWorks | Pricing | Impact =>
        ParseKeyNameFirst();
      case ForIndividuals | ForShops | ForCities | Miami | Ecosystem =>
        ParseKeyNameMiddle();
      case Investors | Blog | Faq | Contact =>
        ParseKeyNameLast();
    }
  }

  /** The slug is the locale's entry when present, otherwise the `en` entry,
      otherwise the route key: resolution never fails, whatever the row. */
  lemma SlugFallbackChain(row: Option<map<Locale, string>>, routeKey: string, locale: Locale)
    ensures var slug := ResolveSlug(row, routeKey, locale);
      && (row.Some? && locale in row.value ==> slug == row.value[locale])
      && (row.Some? && locale !in row.value && En in row.value ==> slug == row.value[En])
      && (row.None? || (locale !in row.value && En !in row.value) ==> slug == routeKey)
  {
  }

  /** An empty entry is kept: it is not replaced by the `en` entry. */
  lemma EmptySlugIsKept(row: map<Locale, string>, routeKey: string, locale: Locale)
    requires locale in row && row[locale] == ""
    ensures ResolveSlug(Some(row), routeKey, locale) == ""
  {
  }

  /** A string that names no route key has no row and becomes its own slug. */
  lemma UnknownRouteKeyIsOwnSlug(routeKey: string, locale: Locale)
    requires forall key :: KeyName(key) != routeKey
    ensures RouteRow(routeKey) == None
    ensures Slug(routeKey, locale) == routeKey
    ensures routeKey != "" ==> LocalizedPath(routeKey, locale) == "/" + Code(locale) + "/" + routeKey
  {
    ParseKeyName();
  }

  /** The home route resolves to the bare locale root in every locale. */
  lemma HomeIsLocaleRoot(locale: Locale)
    ensures LocalizedPath("home", locale) == "/" + Code(locale)
  {
  }

  /** SlugOfPath undoes LocalizedPath: the path determines the slug that
      produced it. */
  lemma SlugOfLocalizedPath(routeKey: string, locale: Locale)
    ensures SlugOfPath(locale, LocalizedPath(routeKey, locale)) == Slug(routeKey, locale)
  {
    var slug := Slug(routeKey, locale);
    if slug != "" {
      var path := "/" + Code(locale) + "/" + slug;
      assert path[|Code(locale)| + 2..] == slug;
    }
  }

  // ---------------------------------------------------------------------
  // Facts about the static tables
  // ---------------------------------------------------------------------

  /** RouteKeys lists every route key exactly once. */
  lemma RouteKeysEnumerateTable()
    ensures |RouteKeys| == 14
    ensures forall k :: k in RouteKeys
    ensures forall i, j :: 0 <= i < j < |RouteKeys| ==> RouteKeys[i] != RouteKeys[j]
  {
    forall k: RouteKey
      ensures k in RouteKeys
    {
      match k
      case Home => case Mission => case HowItWorks => case Pricing => case Impact =>
      case ForIndividuals => case ForShops => case ForCities => case Miami =>
      case Ecosystem => case Investors => case Blog => case Faq => case Contact =>
    }
  }

  /** Every route has a row with a slug for each of the nine locales, `en`
      included, so resolution always takes the locale's own entry. */
  lemma EveryRouteHasAllLocales()
    ensures forall k :: RouteRow(KeyName(k)) == Some(RouteSlugs(k).AsMap())
    ensures forall k, l :: l in RouteSlugs(k).AsMap()
    ensures forall k, l :: Slug(KeyName(k), l) == RouteSlugs(k).Get(l)
  {
    ParseKeyName();
    forall k: RouteKey, l: Locale
      ensures l in RouteSlugs(k).AsMap()
      ensures Slug(KeyName(k), l) == RouteSlugs(k).Get(l)
    {
      AsMapIsTotal(RouteSlugs(k));
    }
  }

  /** Locale codes are pairwise distinct and differ from `x-default`. */
  lemma CodeInjective()
    ensures forall a, b :: Code(a) == Code(b) ==> a == b
    ensures forall a :: Code(a) != XDefault
  {
  }

  /** AllLocales lists each locale exactly once. */
  lemma AllLocalesComplete()
    ensures forall l :: l in AllLocales
    ensures forall i, j :: 0 <= i < j < |AllLocales| ==> AllLocales[i] != AllLocales[j]
  {
    forall l: Locale
      ensures l in AllLocales
    {
      match l
      case En => case EnGb => case Fr => case Es => case Pt =>
      case De => case It => case Zh => case Ja =>
    }
  }

  /** The ten hreflang tags are pairwise distinct. */
  lemma HreflangTagsDistinct(routeKey: string)
    ensures var alts := HreflangAlternates(routeKey);
      forall i, j :: 0 <= i < j < |alts| ==> alts[i].locale != alts[j].locale
  {
    CodeInjective();
    AllLocalesComplete();
  }
}
