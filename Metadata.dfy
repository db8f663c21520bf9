/** Page metadata and JSON-LD builders (lib/metadata.ts): records composed
    from the navigation functions and two locale-keyed tables. */
module Metadata {

  import opened Options
  import opened Navigation
  import opened JsObjects

  // ---------------------------------------------------------------------
  // The locale-keyed tables
  // ---------------------------------------------------------------------

  /** The locale a code names, if it names one. */
  function ParseLocale(code: string): Option<Locale> {
    if code == "en" then Some(En)
    else if code == "en-gb" then Some(EnGb)
    else if code == "fr" then Some(Fr)
    else if code == "es" then Some(Es)
    else if code == "pt" then Some(Pt)
    else if code == "de" then Some(De)
    else if code == "it" then Some(It)
    else if code == "zh" then Some(Zh)
    else if code == "ja" then Some(Ja)
    else None
  }

  /** The `localeCountryMap` value of a locale: its OpenGraph locale. */
  function Country(locale: Locale): string {
    match locale
    case En => "en_US"
    case EnGb => "en_GB"
    case Fr => "fr_FR"
    case Es => "es_US"
    case Pt => "pt_BR"
    case De => "de_DE"
    case It => "it_IT"
    case Zh => "zh_CN"
    case Ja => "ja_JP"
  }

  /** `localeCountryMap[code]`: the code's value, an inherited member, or
      `undefined`. */
  function LocaleCountry(code: string): Prop<string> {
    Property(match ParseLocale(code) case Some(l) => Some(Country(l)) case None => None, code)
  }

  /** `Object.values(localeCountryMap)`, in the table's order. */
  function CountryValues(): seq<string> {
    ["en_US", "en_GB", "fr_FR", "es_US", "pt_BR", "de_DE", "it_IT", "zh_CN", "ja_JP"]
  }

  /** The `taglines` value of a locale. */
  function Tagline(locale: Locale): string {
    match locale
    case En => "Financial Inclusion Through Local Commerce"
    case EnGb => "Financial Inclusion Through Local Commerce"
    case Fr => "L'inclusion financière par le commerce local"
    case Es => "Inclusión financiera a través del comercio local"
    case Pt => "Inclusão financeira através do comércio local"
    case De => "Finanzielle Inklusion durch lokalen Handel"
    case It => "Inclusione Finanziaria Attraverso il Commercio Locale"
    case Zh => "通过本地商业实现金融普惠"
    case Ja => "地域商業を通じた金融包摂"
  }

  /** `${taglines[code]}` in a template literal: the tagline, the text of
      an inherited member, or the text `undefined`. */
  function TaglineText(code: string): string {
    match Property(match ParseLocale(code) case Some(l) => Some(Tagline(l)) case None => None, code)
    case Own(t) => t
    case Inherited(name) => InheritedText(name)
    case Absent => "undefined"
  }

  /** `localeCountryMap[code] || 'en_US'`: a non-empty own value, an
      inherited member (truthy), or `en_US`. */
  function OgLocale(code: string): Prop<string> {
    match LocaleCountry(code)
    case Own(c) => if c != "" then Own(c) else Own("en_US")
    case Inherited(name) => Inherited(name)
    case Absent => Own("en_US")
  }

  /** `values.filter((l) => l !== x)`: the values other than `x`, in order. */
  function Without(values: seq<string>, x: string): (r: seq<string>)
    ensures |r| <= |values|
    ensures forall v :: v in r <==> v in values && v != x
    ensures x in values ==> |r| < |values|
  {
    if |values| == 0 then []
    else if values[0] != x then [values[0]] + Without(values[1..], x)
    else Without(values[1..], x)
  }

  /** The filter distributes over concatenation and keeps a single value
      exactly when it differs from `x`: it keeps order and repetitions. */
  lemma {:induction false} WithoutDistributes(a: seq<string>, b: seq<string>, x: string)
    ensures Without(a + b, x) == Without(a, x) + Without(b, x)
    ensures Without([x], x) == [] && (forall v :: v != x ==> Without([v], x) == [v])
  {
    if |a| == 0 {
      assert a + b == b;
    } else {
      assert (a + b)[0] == a[0];
      assert (a + b)[1..] == a[1..] + b;
      WithoutDistributes(a[1..], b, x);
    }
    forall v | v != x
      ensures Without([v], x) == [v]
    {
      assert [v][1..] == [];
    }
    assert [x][1..] == [];
  }

  /** `otherLocales`: every OpenGraph locale of the table except the page's own. */
  function OtherLocales(code: string): seq<string> {
    match OgLocale(code)
    case Own(own) => Without(CountryValues(), own)
    case _ => CountryValues()
  }

  // ---------------------------------------------------------------------
  // generatePageMetadata
  // ---------------------------------------------------------------------

  datatype ChunkType = PageChunk | ArticleChunk | FaqChunk | LandingChunk

  /** `PageMetadataOptions`; an absent optional field takes its default. */
  datatype PageOptions = PageOptions(
    locale: Locale,
    routeKey: string,
    title: string,
    description: string,
    semanticPrimary: Option<string>,
    semanticSecondary: Option<string>,
    chunkType: Option<ChunkType>,
    audience: Option<string>)

  datatype OgImage = OgImage(url: string, width: int, height: int, alt: string)

  /** The option-dependent tags of `other`. The fixed entity and topic tags
      are not carried. */
  datatype OtherTags = OtherTags(
    semanticPrimary: string,
    semanticSecondary: string,
    contentLanguage: string,
    audience: string,
    chunkType: ChunkType)

  datatype PageMetadata = PageMetadata(
    title: string,
    description: string,
    metadataBase: string,
    canonical: string,
    languages: map<string, string>,
    ogTitle: string,
    ogDescription: string,
    ogUrl: string,
    siteName: string,
    ogLocale: Prop<string>,
    ogType: string,
    ogImages: seq<OgImage>,
    twitterCard: string,
    twitterTitle: string,
    twitterDescription: string,
    other: OtherTags)

  /** `Object.fromEntries` over alternates: one key per tag, a later entry
      overwriting an earlier one with the same tag. */
  function FromEntries(entries: seq<Alternate>): map<string, string> {
    if |entries| == 0 then map[]
    else FromEntries(entries[..|entries| - 1])[entries[|entries| - 1].locale := entries[|entries| - 1].url]
  }

  /** `${title} | COLHYBRI — ${taglines[locale]}` */
  function FullTitle(title: string, code: string): string {
    title + " | COLHYBRI — " + TaglineText(code)
  }

  function GeneratePageMetadata(opts: PageOptions): PageMetadata {
    var code := Code(opts.locale);
    var fullTitle := FullTitle(opts.title, code);
    var canonicalUrl := BaseUrl + LocalizedPath(opts.routeKey, opts.locale);
    PageMetadata(
      title := fullTitle,
      description := opts.description,
      metadataBase := BaseUrl,
      canonical := canonicalUrl,
      languages := FromEntries(HreflangAlternates(opts.routeKey)),
      ogTitle := fullTitle,
      ogDescription := opts.description,
      ogUrl := canonicalUrl,
      siteName := "COLHYBRI",
      ogLocale := OgLocale(code),
      ogType := "website",
      ogImages := [OgImage(BaseUrl + "/og-image-" + code + ".png", 1200, 630, "COLHYBRI — " + TaglineText(code))],
      twitterCard := "summary_large_image",
      twitterTitle := fullTitle,
      twitterDescription := opts.description,
      other := OtherTags(
        semanticPrimary := opts.semanticPrimary.GetOr("financial inclusion local commerce"),
        semanticSecondary := opts.semanticSecondary.GetOr("underbanked, fintech, community banking, local economy"),
        contentLanguage := code,
        audience := opts.audience.GetOr("general"),
        chunkType := opts.chunkType.GetOr(PageChunk)))
  }

  // ---------------------------------------------------------------------
  // JSON-LD
  // ---------------------------------------------------------------------

  datatype WebSiteJsonLd = WebSiteJsonLd(
    name: string,
    url: string,
    description: string,
    inLanguage: string,
    target: string,
    queryInput: string)

  function GenerateWebSiteJsonLd(locale: Locale): WebSiteJsonLd {
    WebSiteJsonLd(
      name := "COLHYBRI",
      url := BaseUrl + "/" + Code(locale),
      description := Tagline(locale),
      inLanguage := Country(locale),
      target := BaseUrl + "/" + Code(locale) + "/search?q={search_term_string}",
      queryInput := "required name=search_term_string")
  }

  /** One input question and its answer. */
  datatype Qa = Qa(q: string, a: string)

  /** A `Question` node with its `acceptedAnswer` text. */
  datatype Question = Question(name: string, answerText: string)

  datatype FaqJsonLd = FaqJsonLd(inLanguage: string, mainEntity: seq<Question>)

  /** `questions.map(({ q, a }) => …)`: one node per question, in order. */
  function Questions(questions: seq<Qa>): (nodes: seq<Question>)
    ensures |nodes| == |questions|
    ensures forall i :: 0 <= i < |questions| ==>
      nodes[i].name == questions[i].q && nodes[i].answerText == questions[i].a
  {
    if |questions| == 0 then []
    else
      var last := questions[|questions| - 1];
      Questions(questions[..|questions| - 1]) + [Question(last.q, last.a)]
  }

  function GenerateFaqJsonLd(questions: seq<Qa>, locale: Locale): FaqJsonLd {
    FaqJsonLd(Country(locale), Questions(questions))
  }

  /** Reads the input questions back out of the nodes. */
  function QuestionsOf(nodes: seq<Question>): (questions: seq<Qa>)
    ensures |questions| == |nodes|
  {
    if |nodes| == 0 then []
    else
      var last := nodes[|nodes| - 1];
      QuestionsOf(nodes[..|nodes| - 1]) + [Qa(last.name, last.answerText)]
  }

  /** One breadcrumb of the input. */
  datatype Crumb = Crumb(name: string, url: string)

  /** A `ListItem` node. */
  datatype ListItem = ListItem(position: int, name: string, item: string)

  /** `items.map((item, index) => …)`: the items in order, numbered from 1. */
  function ListItems(items: seq<Crumb>): (nodes: seq<ListItem>)
    ensures |nodes| == |items|
    ensures forall i :: 0 <= i < |items| ==>
      nodes[i].position == i + 1 && nodes[i].name == items[i].name && nodes[i].item == items[i].url
  {
    if |items| == 0 then []
    else
      var last := items[|items| - 1];
      ListItems(items[..|items| - 1]) + [ListItem(|items|, last.name, last.url)]
  }

  /** The breadcrumb list; the locale argument is not used. */
  function GenerateBreadcrumbJsonLd(items: seq<Crumb>, locale: Locale): seq<ListItem> {
    ListItems(items)
  }

  // ---------------------------------------------------------------------
  // Properties
  // ---------------------------------------------------------------------

  /** ParseLocale reads back every locale's code, and nothing else. */
  lemma ParseLocaleCode(locale: Locale)
    ensures ParseLocale(Code(locale)) == Some(locale)
  {
    match locale
    case En => case EnGb => case Fr => case Es => case Pt =>
    case De => case It => case Zh => case Ja =>
  }

  /** A code is listed exactly when it is a locale's code. */
  lemma ParseLocaleIsCode(code: string)
    ensures ParseLocale(code).Some? ==> Code(ParseLocale(code).value) == code
    ensures ParseLocale(code).Some? ==> |code| <= 5
  {
    if code == "en" {
    } else if code == "en-gb" {
    } else if code == "fr" {
    } else if code == "es" {
    } else if code == "pt" {
    } else if code == "de" {
    } else if code == "it" {
    } else if code == "zh" {
    } else if code == "ja" {
    }
  }

  /** Every locale has its own OpenGraph locale. An unlisted code gets
      `en_US`, except an inherited member's name, which gets that member and
      so filters no value out of `otherLocales`. */
  lemma OgLocaleFallback(code: string)
    ensures forall l :: Code(l) == code ==> OgLocale(code) == Own(Country(l))
    ensures (forall l :: Code(l) != code) && !PrototypeMember(code) ==>
      OgLocale(code) == Own("en_US") && LocaleCountry(code) == Absent
    ensures PrototypeMember(code) ==>
      OgLocale(code) == Inherited(code) && OtherLocales(code) == CountryValues()
  {
    ParseLocaleIsCode(code);
    if ParseLocale(code).Some? {
      CodeInjective();
      var l := ParseLocale(code).value;
      match l
      case En => case EnGb => case Fr => case Es => case Pt =>
      case De => case It => case Zh => case Ja =>
    }
  }

  /** A listed code interpolates its tagline, an inherited member's name
      the member's text, and any other code the text `undefined`. */
  lemma TaglineFallback(code: string)
    ensures forall l :: Code(l) == code ==> TaglineText(code) == Tagline(l)
    ensures (forall l :: Code(l) != code) && !PrototypeMember(code) ==> TaglineText(code) == "undefined"
    ensures PrototypeMember(code) ==> TaglineText(code) == InheritedText(code)
  {
    ParseLocaleIsCode(code);
    PrototypeMemberIsLong(code);
    if ParseLocale(code).Some? {
      CodeInjective();
      assert TaglineText(code) == Tagline(ParseLocale(code).value);
    }
  }

  /** `Object.values(localeCountryMap)` is the table's values, in locale
      order, and no two locales share one. */
  lemma CountryValuesAreTheTable()
    ensures |CountryValues()| == |AllLocales|
    ensures forall i :: 0 <= i < |AllLocales| ==> CountryValues()[i] == Country(AllLocales[i])
    ensures forall i, j :: 0 <= i < j < |CountryValues()| ==> CountryValues()[i] != CountryValues()[j]
  {
  }

  /** The other locales are the eight OpenGraph locales that are not the page's. */
  lemma OtherLocalesOmitOwn(locale: Locale)
    ensures forall v :: v in OtherLocales(Code(locale)) <==> v in CountryValues() && v != Country(locale)
    ensures |OtherLocales(Code(locale))| < |CountryValues()|
  {
    OgLocaleFallback(Code(locale));
    match locale
    case En => case EnGb => case Fr => case Es => case Pt =>
    case De => case It => case Zh => case Ja =>
  }

  /** `Object.fromEntries` has a key exactly for each entry's tag. */
  lemma {:induction false} FromEntriesKeys(entries: seq<Alternate>)
    ensures forall k :: k in FromEntries(entries) <==> exists i :: 0 <= i < |entries| && entries[i].locale == k
  {
    if |entries| > 0 {
      var init := entries[..|entries| - 1];
      FromEntriesKeys(init);
      assert FromEntries(entries) == FromEntries(init)[entries[|entries| - 1].locale := entries[|entries| - 1].url];
      forall k | k in FromEntries(entries)
        ensures exists i :: 0 <= i < |entries| && entries[i].locale == k
      {
        if k != entries[|entries| - 1].locale {
          var i :| 0 <= i < |init| && init[i].locale == k;
          assert entries[i].locale == k;
        }
      }
      forall k | exists i :: 0 <= i < |entries| && entries[i].locale == k
        ensures k in FromEntries(entries)
      {
        var i :| 0 <= i < |entries| && entries[i].locale == k;
        if i < |init| {
          assert init[i].locale == k;
        }
      }
    }
  }

  /** With pairwise distinct tags, every entry keeps its own URL. */
  lemma {:induction false} FromEntriesDistinct(entries: seq<Alternate>, i: int)
    requires forall a, b :: 0 <= a < b < |entries| ==> entries[a].locale != entries[b].locale
    requires 0 <= i < |entries|
    ensures entries[i].locale in FromEntries(entries)
    ensures FromEntries(entries)[entries[i].locale] == entries[i].url
  {
    var n := |entries| - 1;
    if i < n {
      var init := entries[..n];
      FromEntriesDistinct(init, i);
      assert entries[n].locale != init[i].locale;
    }
  }

  /** The position of a locale in AllLocales. */
  function LocaleIndex(locale: Locale): (i: int)
    ensures 0 <= i < |AllLocales| && AllLocales[i] == locale
  {
    match locale
    case En => 0
    case EnGb => 1
    case Fr => 2
    case Es => 3
    case Pt => 4
    case De => 5
    case It => 6
    case Zh => 7
    case Ja => 8
  }

  /** The page's canonical URL is its localized absolute URL; the OpenGraph
      URL repeats it, and it is also the page's own hreflang alternate. */
  lemma CanonicalIsLocalizedUrl(opts: PageOptions)
    ensures var m := GeneratePageMetadata(opts);
      && m.canonical == LocalizedUrl(opts.routeKey, opts.locale)
      && m.ogUrl == m.canonical
      && Code(opts.locale) in m.languages && m.languages[Code(opts.locale)] == m.canonical
  {
    var alts := HreflangAlternates(opts.routeKey);
    HreflangTagsDistinct(opts.routeKey);
    var i := LocaleIndex(opts.locale);
    FromEntriesDistinct(alts, i);
  }

  /** The `languages` map has exactly the ten hreflang tags as keys, each
      mapped to its alternate's URL; `x-default` holds the `en` URL. */
  lemma LanguagesAreHreflang(opts: PageOptions)
    ensures var m := GeneratePageMetadata(opts); var alts := HreflangAlternates(opts.routeKey);
      && (forall k :: k in m.languages <==> exists i :: 0 <= i < |alts| && alts[i].locale == k)
      && (forall i :: 0 <= i < |alts| ==> alts[i].locale in m.languages && m.languages[alts[i].locale] == alts[i].url)
      && XDefault in m.languages && m.languages[XDefault] == LocalizedUrl(opts.routeKey, En)
  {
    var alts := HreflangAlternates(opts.routeKey);
    FromEntriesKeys(alts);
    HreflangTagsDistinct(opts.routeKey);
    forall i | 0 <= i < |alts|
      ensures alts[i].locale in FromEntries(alts) && FromEntries(alts)[alts[i].locale] == alts[i].url
    {
      FromEntriesDistinct(alts, i);
    }
    assert alts[|AllLocales|].locale == XDefault;
  }

  /** Title, OpenGraph locale and image follow the page's locale; absent
      options take their defaults. */
  lemma PageMetadataLocaleFields(opts: PageOptions)
    ensures var m := GeneratePageMetadata(opts);
      && m.title == opts.title + " | COLHYBRI — " + Tagline(opts.locale)
      && m.ogTitle == m.title && m.twitterTitle == m.title
      && m.ogLocale == Own(Country(opts.locale))
      && m.ogImages[0].url == BaseUrl + "/og-image-" + Code(opts.locale) + ".png"
      && m.other.contentLanguage == Code(opts.locale)
      && (opts.audience == None ==> m.other.audience == "general")
      && (opts.chunkType == None ==> m.other.chunkType == PageChunk)
  {
    OgLocaleFallback(Code(opts.locale));
    TaglineFallback(Code(opts.locale));
  }

  /** The WebSite node's URL is the locale's home page, and its search
      target sits under it. */
  lemma WebSiteUrlIsHome(locale: Locale)
    ensures var w := GenerateWebSiteJsonLd(locale);
      && w.url == LocalizedUrl("home", locale)
      && w.target == w.url + "/search?q={search_term_string}"
  {
    HomeIsLocaleRoot(locale);
  }

  /** Reading the questions back out of the FAQ nodes gives the input. */
  lemma {:induction false} FaqRoundTrip(questions: seq<Qa>)
    ensures QuestionsOf(Questions(questions)) == questions
  {
    if |questions| > 0 {
      var init := questions[..|questions| - 1];
      FaqRoundTrip(init);
      assert Questions(questions)[..|questions| - 1] == Questions(init);
    }
  }

  /** Breadcrumb positions run 1, 2, …, n without gaps. */
  lemma BreadcrumbPositions(items: seq<Crumb>, locale: Locale)
    ensures var nodes := GenerateBreadcrumbJsonLd(items, locale);
      (|nodes| > 0 ==> nodes[0].position == 1 && nodes[|nodes| - 1].position == |items|)
      && forall i :: 0 < i < |nodes| ==> nodes[i].position == nodes[i - 1].position + 1
  {
  }
}
