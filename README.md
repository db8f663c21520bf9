# COLHYBRI site core, modelled in Dafny

This project models the logic behind the COLHYBRI multilingual marketing site
and proves properties of that model. The site serves nine locales (`en`,
`en-gb`, `fr`, `es`, `pt`, `de`, `it`, `zh`, `ja`). The model covers:

- **Navigation** (`lib/navigation.ts`, module `Navigation`):
  - the route-key → per-locale slug table;
  - slug resolution with its `??` fallback chain;
  - localized and absolute paths;
  - the ten hreflang alternates of a page.
- **Trust data** (`data/trust-data.ts`, module `TrustData`):
  - the seven-region trust and loneliness table;
  - `getRegionForLocale` with its English fallback;
  - `ALL_REGIONS`;
  - the locale → default region table.
- **Sitemap** (`app/sitemap.ts`, module `Sitemap`). The generator's three nested loops are imperative methods. Each is proved equal to a declarative description:
  - the route section, locale-major;
  - the regional impact section, region-major;
  - the blog section, article-major.
- **Page metadata** (`lib/metadata.ts`, module `Metadata`):
  - `generatePageMetadata`, with its canonical URL, `languages` map, OpenGraph locale fallback and defaults;
  - the WebSite, FAQ and breadcrumb JSON-LD builders.
- **Local impact calculator** (`components/LocalStats.tsx`, module `LocalStats`):
  - the billion / million / plain scale choice over the product of a country record's figures;
  - the country fallback to `en`;
  - the first-occurrence `{price}` / `{period}` substitution of the reconnect label.
- **World trust map** (`components/trust/WorldTrustMap.tsx`, module `WorldTrustMap`):
  - potential colours, label truncation, accessible names and path styling;
  - the component's hover and click state. The class `WorldTrustMap` models it, one method per event handler. Each method is specified by a pure transition function that keeps a consistency invariant.

`Options` holds the optional-value type. It stands in for JavaScript values
that may be `null` or `undefined`. `JsObjects` models property lookup on a
JavaScript object literal. Besides the object's own keys, `obj[name]` also
finds the members every plain object inherits from `Object.prototype`
(`constructor`, `toString`, `__proto__` and nine others). These are truthy
values that are not strings.

Points where the code's behaviour is easy to misread:

- An unknown route key is not an error. `getLocalizedPath` falls back to the route key itself as the slug.
- A present but empty slug is kept, because `??` skips only absent entries. By contrast, `||` (impact segment, blog segment, blog slug, og locale, aria-label) also skips the empty string. The model keeps the two operators apart.
- `taglines[locale]` for an unlisted code yields `undefined`. Inside a template string it renders as the text `undefined`. A code that names an inherited member (`toString`, say) instead renders that member's text: the source of a native function (`function Object() { [native code] }` for `constructor`), or `[object Object]` for `__proto__`.
- A region id that names an inherited member (`constructor`, say) passes the `!region` guard of `getRegionForLocale`. Reading `.locales` of it then yields `undefined`, and indexing that throws a `TypeError`. The model returns that error as an outcome.
- A locale that names an inherited member makes `region.locales[locale]` a truthy inherited member. `getRegionForLocale` returns that member instead of the `en` record. Its `regionName` is `undefined`.
- `otherLocales` in `generatePageMetadata` is computed but never returned. It is modelled as its own function.

Modelling conventions:

- Locales and route keys are enumerations. Their string codes are recovered by `Navigation.Code` and `Navigation.KeyName`. Lookups that take an arbitrary string parse it first.
- Lookups by an arbitrary string go through `JsObjects.Property`, so an inherited member name is found as in the code. This covers `TRUST_DATA`, a region's `locales`, `LOCALE_DEFAULT_REGION`, `taglines`, `localeCountryMap`, `localeMap` and `countries`. For `routeMap` an inherited key such as `constructor` gives the same slug as an unknown key, since the inherited value has no locale entries. Its locale argument is always one of the nine locales.
- The generation date and the locale list are parameters of the sitemap. The sitemap imports `locales` from `@/i18n`, but the repository's `i18n.ts` exports no such list.
- The number renderers (`toFixed`, `Intl.NumberFormat`) are uninterpreted function parameters.
- The `countries.json` records are a parameter map.
- DOM geometry is replaced by parameters. The enclosing-svg test becomes a boolean; the client position and the svg box's corner become numbers.

## Model

| member | source | states |
|---|---|---|
| Navigation.LocalizedPath | lib/navigation.ts:64-68 | Every path starts with `/` + locale code. It is exactly `/` + code when the resolved slug is empty. Otherwise a `/` follows the code. |
| Navigation.AbsoluteUrl | lib/navigation.ts:70-72 | The URL is `https://colhybri.com` followed by the path, unchanged. |
| Navigation.HreflangAlternates | lib/navigation.ts:74-85 | Exactly ten alternates: the nine locales in the fixed order, each with its own localized URL, then `x-default` with the `en` URL. |
| Navigation.AsMapIsTotal | lib/navigation.ts:6-62 | A route's slug row, seen as a map, has an entry for every locale, equal to the record's field. |
| Navigation.ParseKeyName | lib/navigation.ts:6-62 | Parsing a route-key string and naming a route key are inverse. Only the fourteen table keys parse. |
| Navigation.ResolveSlug | lib/navigation.ts:65 | `routeMap[routeKey]?.[locale] ?? routeMap[routeKey]?.en ?? routeKey`. Specified by `SlugFallbackChain`, `EmptySlugIsKept` and `UnknownRouteKeyIsOwnSlug`. |
| Navigation.SlugFallbackChain | lib/navigation.ts:65 | The slug is the locale's entry if present, else the `en` entry, else the route key itself. Resolution never fails. |
| Navigation.EmptySlugIsKept | lib/navigation.ts:65 | An empty entry for the locale is kept, not replaced by the `en` entry. |
| Navigation.UnknownRouteKeyIsOwnSlug | lib/navigation.ts:65-67 | A key that is not in the table has no row. It becomes its own slug, giving `/locale/key`. |
| Navigation.HomeIsLocaleRoot | lib/navigation.ts:7-9 | The home route resolves to the bare `/` + locale in every locale. |
| Navigation.SlugOfLocalizedPath | lib/navigation.ts:66-67 | The slug can be read back from the built path, so the path is exactly `/locale` or `/locale/slug`. |
| Navigation.RouteKeysEnumerateTable | lib/navigation.ts:6-62 | The table has fourteen route keys in declaration order. Every key appears once. |
| Navigation.EveryRouteHasAllLocales | lib/navigation.ts:6-62 | Every route key's row has all nine locales, so its slug is the table entry. |
| Navigation.CodeInjective | lib/navigation.ts:75 | The nine locale codes are distinct, and none is `x-default`. |
| Navigation.AllLocalesComplete | lib/navigation.ts:75 | The locale list names every locale once. |
| Navigation.HreflangTagsDistinct | lib/navigation.ts:74-85 | The ten hreflang tags are pairwise distinct. |
| TrustData.ParseRegionKey | data/trust-data.ts:34-412 | Region keys and region ids are inverse. Only the seven table keys name a region. |
| JsObjects.Property | data/trust-data.ts:437 | An object-literal lookup yields the own property when there is one. Otherwise it yields the inherited member when the name is one of `Object.prototype`'s, and `undefined` when it is not. |
| TrustData.GetRegionForLocale | data/trust-data.ts:436-440 | The region lookup with its English fallback. Specified by `UnknownRegionLookup` and `KnownRegionFallsBackToEnglish`. |
| TrustData.UnknownRegionLookup | data/trust-data.ts:436-440 | A region id outside the table gives null, whatever the locale. An id naming an inherited member is found, and the lookup then throws a `TypeError`. |
| TrustData.EveryRegionHasEnglish | data/trust-data.ts:34-412 | Every region has an `en` record. |
| TrustData.KnownRegionFallsBackToEnglish | data/trust-data.ts:436-440 | For a known region the lookup never throws and is never null. It gives the requested locale's record when present. Otherwise it gives the inherited member when the locale names one, else the `en` record. |
| TrustData.RegionIdIsKey | data/trust-data.ts:34-412 | Every region's `id` field equals its table key. |
| TrustData.PotentialInRange | data/trust-data.ts:34-412 | Every region's potential lies in 3..5. |
| TrustData.RatesArePercentages | data/trust-data.ts:34-412 | Every region's loneliness, trust and unbanked rates lie in 0..100. |
| TrustData.AllRegionsEnumerateTable | data/trust-data.ts:443 | `ALL_REGIONS` has seven entries. They are exactly the table's keys, with no duplicates. |
| TrustData.EveryLocaleHasDefaultRegion | data/trust-data.ts:446-456 | All nine locales have a default region. |
| TrustData.DefaultRegionsExist | data/trust-data.ts:446-456 | Only locale codes have a default region, and each default region is a key of the table. |
| Sitemap.AlternatesHaveEveryLocale | app/sitemap.ts:19-22 | The filled `languages` record has exactly the listed locales as keys, each mapped to its URL. It has no `x-default` of its own. |
| Sitemap.FillLanguages | app/sitemap.ts:19-22 | The key-by-key loop builds exactly that record. |
| Sitemap.BuildRouteEntry | app/sitemap.ts:15-31 | Builds the route entry for one (locale, route key), its alternates included. |
| Sitemap.BuildRegionEntry | app/sitemap.ts:38-52 | Builds the regional impact entry for one (region, locale), its alternates included. |
| Sitemap.BuildBlogEntry | app/sitemap.ts:115-131 | Builds the blog entry for one (article, locale), its alternates included. |
| Sitemap.RouteRow | app/sitemap.ts:14-32 | The inner route loop appends one entry per route key, in table order. |
| Sitemap.RouteEntries | app/sitemap.ts:13-33 | The route loops produce the route section: one entry per (locale, route key), locale-major. |
| Sitemap.RegionRow | app/sitemap.ts:37-53 | The inner region loop appends one entry per locale, in order. |
| Sitemap.RegionEntries | app/sitemap.ts:36-54 | The region loops produce the region section over `ALL_REGIONS`, region-major. |
| Sitemap.BlogRow | app/sitemap.ts:114-132 | The inner blog loop appends one entry per locale, in order. |
| Sitemap.BlogEntries | app/sitemap.ts:113-133 | The blog loops produce the blog section over the five articles, article-major. |
| Sitemap.GenerateSitemap | app/sitemap.ts:6-136 | The generated list is the route section, then the region section, then the blog section. |
| Sitemap.SitemapSections | app/sitemap.ts:13-133 | The sitemap has 26 entries per listed locale (14 routes + 7 regions + 5 articles per locale). Its three slices are the three sections. |
| Sitemap.RouteSectionOrder | app/sitemap.ts:13-31 | Entry i·14 + j of the route section is route key j in locale i. |
| Sitemap.RegionSectionOrder | app/sitemap.ts:36-53 | With n listed locales, entry r·n + i of the region section is region r in locale i. |
| Sitemap.BlogSectionOrder | app/sitemap.ts:113-132 | With n listed locales, entry a·n + i of the blog section is article a in locale i. |
| Sitemap.RouteEntryFacts | app/sitemap.ts:15-31 | A route entry: the URL is the localized page, and `lastModified` is the generation date. The alternates are exactly the listed locales with their URLs, plus `x-default` with the `en` URL. Home is daily at 1.0 and every other route weekly; Miami is 0.9, the rest 0.8. |
| Sitemap.RegionEntryFacts | app/sitemap.ts:38-52 | A region entry: the URL uses the locale's impact segment, and `lastModified` is the generation date. The alternates are exactly the listed locales plus `x-default` = `/en/impact/{region}`. Weekly, 0.85. |
| Sitemap.BlogEntryFacts | app/sitemap.ts:115-131 | A blog entry: the URL uses the locale's blog segment and the article's slug, and `lastModified` is the generation date. The alternates are exactly the listed locales, with no `x-default`. Monthly, 0.7. |
| Sitemap.SegmentsNeverFallBack | app/sitemap.ts:38 | The impact and blog segments are always the table's non-empty entry. The `impact` / `blog` fallbacks are never taken. |
| Sitemap.BlogSlugFallsBackToArticleId | app/sitemap.ts:115 | For `en-gb` and `it`, no article has a slug, so the article id is used. |
| Sitemap.BlogSlugIsTabled | app/sitemap.ts:64-111 | In the other seven locales, every article's slug is its non-empty table entry. |
| Sitemap.RegionDefaultIsEnglish | app/sitemap.ts:44 | The `en` alternate of a region page is the same URL as its `x-default`. |
| Metadata.ParseLocaleCode | lib/metadata.ts:5-15 | Each locale's code parses back to that locale. |
| Metadata.ParseLocaleIsCode | lib/metadata.ts:5-15 | Only the nine locale codes parse, each to the locale it names. |
| Metadata.OgLocaleFallback | lib/metadata.ts:53-54 | The og locale is the code's country value. For an unlisted code it is `en_US`. A code naming an inherited member yields that member, and then no country value is filtered out. |
| Metadata.TaglineFallback | lib/metadata.ts:50 | The title's tagline is the locale's tagline. For an unlisted code it is the text `undefined`, and for an inherited member name it is that member's text (`Object`'s source for `constructor`). |
| Metadata.CountryValuesAreTheTable | lib/metadata.ts:5-15 | The country values are the table's nine values in order, pairwise distinct. |
| Metadata.Without | lib/metadata.ts:54 | Filtering keeps exactly the values different from the excluded one, and loses one when it was present. |
| Metadata.WithoutDistributes | lib/metadata.ts:54 | The filter distributes over concatenation and keeps a single value exactly when it differs from the excluded one, so it keeps order and repetitions. |
| Metadata.OtherLocalesOmitOwn | lib/metadata.ts:54 | `otherLocales` is every country value except the page's own, so it is strictly shorter than the table. |
| Metadata.FromEntriesKeys | lib/metadata.ts:62-64 | The map built from alternates has exactly the alternates' tags as keys. |
| Metadata.FromEntriesDistinct | lib/metadata.ts:62-64 | With distinct tags, each tag maps to its own alternate's URL. |
| Metadata.GeneratePageMetadata | lib/metadata.ts:40-102 | The page metadata. Specified by `CanonicalIsLocalizedUrl`, `LanguagesAreHreflang`, `PageMetadataLocaleFields`, `OgLocaleFallback` and `TaglineFallback`. |
| Metadata.CanonicalIsLocalizedUrl | lib/metadata.ts:52 | The canonical URL is the page's localized absolute URL. The OpenGraph URL equals it, and so does the page's own `languages` entry. |
| Metadata.LanguagesAreHreflang | lib/metadata.ts:62-64 | The `languages` keys are exactly the ten hreflang tags, each mapped to its alternate's URL. `x-default` holds the `en` URL. |
| Metadata.PageMetadataLocaleFields | lib/metadata.ts:40-101 | The title is the page title, a bar, `COLHYBRI —` and the tagline, repeated for OpenGraph and Twitter. The og locale, image and content language follow the locale. Absent audience and chunk type take `general` and `page`. |
| Metadata.GenerateWebSiteJsonLd | lib/metadata.ts:132-146 | The WebSite node. Specified by `WebSiteUrlIsHome`. |
| Metadata.WebSiteUrlIsHome | lib/metadata.ts:132-146 | The WebSite URL is the locale's home page. The search target is that URL + `/search?q={search_term_string}`. |
| Metadata.GenerateFaqJsonLd | lib/metadata.ts:148-165 | The FAQ page node in the locale's language. Its questions are specified by `Questions` and `FaqRoundTrip`. |
| Metadata.Questions | lib/metadata.ts:156-163 | One Question node per input pair, in order, with `name = q` and answer text `a`. |
| Metadata.FaqRoundTrip | lib/metadata.ts:156-163 | Reading the pairs back out of the nodes gives the input: no question is lost, reordered or altered. |
| Metadata.GenerateBreadcrumbJsonLd | lib/metadata.ts:167-181 | The breadcrumb list. Specified by `ListItems` and `BreadcrumbPositions`. |
| Metadata.ListItems | lib/metadata.ts:174-179 | One ListItem per crumb, in order: position index + 1, with the crumb's name and URL. |
| Metadata.BreadcrumbPositions | lib/metadata.ts:174-179 | Positions run 1, 2, …, n without gaps. |
| LocalStats.IndexOfFrom | components/LocalStats.tsx:68-70 | The search gives the first occurrence of the pattern at or after the start, or none exists. |
| LocalStats.CalculateImpact | components/LocalStats.tsx:46-57 | The impact text. Specified by `ImpactBranches`, `ScaleMonotonic` and `HigherPriceNeverLowersScale`. |
| LocalStats.ImpactBranches | components/LocalStats.tsx:46-57 | At or above 1e9 the text is the billions value with `B`, the value being ≥ 1. From 1e6 up to 1e9 it is the millions value with `M`, the value in [1, 1000). Below 1e6 it is the locale-formatted number. Every text starts with the currency symbol. |
| LocalStats.ScaleMonotonic | components/LocalStats.tsx:48-56 | A larger impact is never shown at a smaller scale. |
| LocalStats.HigherPriceNeverLowersScale | components/LocalStats.tsx:47 | With non-negative counts and multiplier, raising the price never lowers the scale. |
| LocalStats.NumberLocaleFallback | components/LocalStats.tsx:30-41 | A listed code gets its own tag. Any other code is formatted as `en-US`, except that an inherited member name passes that member on. |
| LocalStats.CountryFor | components/LocalStats.tsx:65 | The country record for the locale, falling back to `en`. Specified by `CountryFallback`. |
| LocalStats.CountryFallback | components/LocalStats.tsx:65 | The locale's record if present. Otherwise the inherited member when the locale names one, else the `en` record. There is no result only when neither lookup finds anything. |
| LocalStats.ReconnectText | components/LocalStats.tsx:68-70 | The reconnect label with its first `{price}`, then its first `{period}`, replaced. Specified by `ReplaceFirstKeepsTheRest` and `ReconnectTemplate`. |
| LocalStats.ReplaceFirstKeepsTheRest | components/LocalStats.tsx:68-70 | Only the first occurrence is replaced. The text before it and everything after it, later occurrences included, are kept. Without an occurrence the text is unchanged. |
| LocalStats.FirstBraceOccurrence | components/LocalStats.tsx:68-70 | A `{`-placeholder right after a prefix with no `{` is found at the end of that prefix. |
| LocalStats.ReconnectTemplate | components/LocalStats.tsx:68-70 | A label `a{price}b{period}c` becomes `a` + price + `b` + period + `c` when `a`, `b` and the price hold no `{`. |
| WorldTrustMap.PotentialColor | components/trust/WorldTrustMap.tsx:19-30 | 5, 4 and 3 give `#00A878`, `#2dd4bf` and `#FF6B35`, each only for that potential. Any other value gives `#94a3b8`. |
| WorldTrustMap.TruncateLabel | components/trust/WorldTrustMap.tsx:280-282 | Names of at most 10 characters are unchanged. Longer ones become their first 9 characters + `...`. A label never exceeds 12 characters. |
| WorldTrustMap.AriaLabel | components/trust/WorldTrustMap.tsx:253 | The accessible name is the found record's region name when that is non-empty. Otherwise (null, an inherited member, an empty name) it is the region id. It throws exactly when the lookup throws. |
| WorldTrustMap.StyleOf | components/trust/WorldTrustMap.tsx:235-245 | The fill is the potential colour. A hovered path has opacity 0.95 and a white stroke of width 2.5. Otherwise the opacity is 0.75 and the stroke matches the fill at width 1.5. |
| WorldTrustMap.WorldTrustMap.constructor | components/trust/WorldTrustMap.tsx:71-73 | On mount there is no tooltip, no hovered region and no click, and the invariant holds. |
| WorldTrustMap.WorldTrustMap.MouseEnter | components/trust/WorldTrustMap.tsx:75-97 | The new state is the enter transition of the old one, clicks are unchanged, and the invariant is kept. It reports a throw exactly when the lookup throws. |
| WorldTrustMap.WorldTrustMap.MouseMove | components/trust/WorldTrustMap.tsx:99-118 | The new state is the move transition of the old one, clicks are unchanged, and the invariant is kept. |
| WorldTrustMap.WorldTrustMap.MouseLeave | components/trust/WorldTrustMap.tsx:120-123 | The new state is the leave transition (nothing shown, nothing hovered), and the invariant is kept. |
| WorldTrustMap.WorldTrustMap.Click | components/trust/WorldTrustMap.tsx:125-130 | The region id is reported to `onRegionClick` (appended to the click log). The hover state is unchanged, and the invariant is kept. |
| WorldTrustMap.WorldTrustMap.KeyDown | components/trust/WorldTrustMap.tsx:254-259 | Enter and Space report the region id like a click, and other keys report nothing. The hover state is unchanged either way, and the invariant is kept. |
| WorldTrustMap.ColorsDistinct | components/trust/WorldTrustMap.tsx:19-30 | Two potentials share a colour exactly when they are equal or both outside 3..5. |
| WorldTrustMap.EveryRegionHasTierColor | components/trust/WorldTrustMap.tsx:231-235 | No region of the trust table is drawn in the fallback colour. |
| WorldTrustMap.RegionLabel | components/trust/WorldTrustMap.tsx:265-282 | The label drawn for a region. Specified by `EveryRegionIsLabelled` and `UnknownRegionIsInert`. |
| WorldTrustMap.EveryRegionIsLabelled | components/trust/WorldTrustMap.tsx:265-282 | For a region of the table the lookup finds a record, or an inherited member when the locale names one. A record gives the truncated localized name as label and the full name as accessible name. An inherited member makes the label throw and leaves the region id as accessible name. |
| WorldTrustMap.UnknownRegionIsInert | components/trust/WorldTrustMap.tsx:77-79 | Hovering a region id outside the table changes nothing. Such an id gets no label and is named by its id. If it names an inherited member, both the label and the accessible name throw. |
| WorldTrustMap.Enter | components/trust/WorldTrustMap.tsx:75-97 | The mouse-enter transition. Specified by `EnterKnownRegion`, `UnknownRegionIsInert` and `EnterKeepsConsistent`. |
| WorldTrustMap.EnterKnownRegion | components/trust/WorldTrustMap.tsx:75-95 | Entering a table region over the svg shows the found record's name and the loneliness rate at the pointer's svg-relative position, and marks it hovered. The name is defined unless the locale names an inherited member. |
| WorldTrustMap.EnterKeepsConsistent | components/trust/WorldTrustMap.tsx:75-97 | Entering keeps the invariant: a tooltip is shown exactly when a region is hovered, and it carries that region's name and rate. |
| WorldTrustMap.Move | components/trust/WorldTrustMap.tsx:99-118 | The mouse-move transition. Specified by `MoveKeepsConsistent`. |
| WorldTrustMap.MoveKeepsConsistent | components/trust/WorldTrustMap.tsx:99-118 | Moving keeps the invariant, the hovered region, and the tooltip's name and rate. Without a tooltip it changes nothing. |
| WorldTrustMap.Leave | components/trust/WorldTrustMap.tsx:120-123 | The mouse-leave transition. Specified by `LeaveClears`. |
| WorldTrustMap.LeaveClears | components/trust/WorldTrustMap.tsx:120-123 | Leaving clears both fields from any state and keeps the invariant. A second leave changes nothing. |
| WorldTrustMap.OnlyHoveredIsHighlighted | components/trust/WorldTrustMap.tsx:236-245 | A path gets the white highlight stroke exactly when it is the hovered region. |

## Left out

- Trust data prose (descriptions, insights, sources, `GLOBAL_STATS`): only the figures, ids and localized region names are carried. The rest is display text with no logic.
- `localeLabels` in `lib/navigation.ts`: a display table (flags and short names) with no logic.
- Slug uniqueness per locale (no two routes share a slug): this is not stated by the code and is not proved.
- `new Date().toISOString()` in the sitemap and the imported `locales` list: both are parameters. The repository's `i18n.ts` does not define that list.
- JavaScript object key order for the `languages` records: they are modelled as maps. The sitemap's entry order is modelled in full.
- The Organization, Product and LocalBusiness JSON-LD builders of `lib/metadata.ts` are not modelled. They hold only constant literals and argument pass-through.
- The fixed `other` metadata tags and Twitter card constants: they are carried as fields where they depend on the input and are otherwise left out.
- Digit rendering (`toFixed`, `Intl.NumberFormat`) and floating-point rounding: the renderers are uninterpreted parameters, and the impact is computed over exact reals.
- The contents of `countries.json` are not part of this model. The records are a parameter map.
- `$` patterns in the replacement string of `String.prototype.replace` are not modelled. Replacement text is inserted literally.
- String lengths count characters, not UTF-16 code units. The two agree for the region names shown.
- Rendering an inherited member as an `Intl.NumberFormat` locale tag: the model passes the looked-up value to the uninterpreted renderer and does not say what the runtime makes of it.
- DOM geometry in the trust map (`closest('svg')`, `getBoundingClientRect`, the SVG path strings, label coordinates and markup): the svg lookup is a boolean parameter, and the pointer and box positions are numbers.
- `preventDefault` on key presses and React's re-rendering and callback memoisation are not modelled.
- The legend and tooltip markup, including the tooltip's 70-pixel offset, are presentation only.
- `components/trust/GlobalImpactCounter.tsx` and the presentational components (`ThirdPlaceHero`, `StatCard`, `RegionHero`, `TrustMapSection`) are not part of this model. They hold animation and timer plumbing, or repeat the `getRegionForLocale` fallback.
- `i18n.ts` and `tailwind.config.ts` are library configuration and are not part of this model.
