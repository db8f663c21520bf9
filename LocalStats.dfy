/** The local impact calculator (components/LocalStats.tsx): the impact of a
    country's record, rendered at a billion, million or plain scale, the
    country lookup with its English fallback, and the reconnect label's
    placeholder substitution. */
module LocalStats {

  import opened Options
  import opened JsObjects

  /** The fields of a `countries.json` record that the computations read. */
  datatype CountryData = CountryData(
    country: string,
    locale: string,
    unbankedRaw: real,
    price: string,
    priceRaw: real,
    period: string,
    currencySymbol: string,
    multiplier: real,
    reconnectLabel: string)

  // ---------------------------------------------------------------------
  // Impact
  // ---------------------------------------------------------------------

  const Billion: real := 1000000000.0
  const Million: real := 1000000.0

  /** The number renderers the source delegates to the runtime:
      `toFixed(1)`, `toFixed(0)` and `Intl.NumberFormat(tag).format`, the
      tag being whatever value the locale lookup produced. */
  datatype Renderers = Renderers(
    fixed1: real -> string,
    fixed0: real -> string,
    format: (Prop<string>, real) -> string)

  /** The own entries of `localeMap`. */
  function NumberTag(code: string): Option<string> {
    if code == "en" then Some("en-US")
    else if code == "en-gb" then Some("en-GB")
    else if code == "fr" then Some("fr-FR")
    else if code == "de" then Some("de-DE")
    else if code == "es" then Some("es-ES")
    else if code == "it" then Some("it-IT")
    else if code == "pt" then Some("pt-BR")
    else if code == "ja" then Some("ja-JP")
    else if code == "zh" then Some("zh-CN")
    else None
  }

  /** `localeMap[locale] || 'en-US'`: the number-format tag of a locale code
      (every own tag is non-empty), or the inherited member it names. */
  function NumberLocale(code: string): Prop<string> {
    match Property(NumberTag(code), code)
    case Own(tag) => if tag != "" then Own(tag) else Own("en-US")
    case Inherited(name) => Inherited(name)
    case Absent => Own("en-US")
  }

  /** `formatNumber(num, locale)`: whole numbers in the locale's format. */
  function FormatNumber(r: Renderers, num: real, code: string): string {
    r.format(NumberLocale(code), num)
  }

  /** `unbankedRaw × priceRaw × multiplier` */
  function Impact(c: CountryData): real {
    c.unbankedRaw * c.priceRaw * c.multiplier
  }

  /** The scale the impact is shown at. */
  datatype Scale = Plain | Millions | Billions

  /** The threshold branch `calculateImpact` takes. */
  function ScaleOf(impact: real): Scale {
    if impact >= Billion then Billions
    else if impact >= Million then Millions
    else Plain
  }

  /** Plain, millions and billions in increasing order. */
  function Rank(s: Scale): int {
    match s
    case Plain => 0
    case Millions => 1
    case Billions => 2
  }

  /** `calculateImpact(country)` */
  function CalculateImpact(c: CountryData, r: Renderers): string {
    var impact := Impact(c);
    match ScaleOf(impact)
    case Billions => c.currencySymbol + r.fixed1(impact / Billion) + "B"
    case Millions => c.currencySymbol + r.fixed0(impact / Million) + "M"
    case Plain => c.currencySymbol + FormatNumber(r, impact, c.locale)
  }

  // ---------------------------------------------------------------------
  // Country lookup
  // ---------------------------------------------------------------------

  /** `countries[locale] || countries['en']` on the records' own keys
      `countries`: a record (always truthy), or an inherited member; absent
      only when both lookups are. */
  function CountryFor(countries: map<string, CountryData>, locale: string): Prop<CountryData> {
    match Property(if locale in countries then Some(countries[locale]) else None, locale)
    case Absent => Property(if "en" in countries then Some(countries["en"]) else None, "en")
    case found => found
  }

  // ---------------------------------------------------------------------
  // Placeholder substitution
  // ---------------------------------------------------------------------

  /** `pat` occurs in `s` at index `i`. */
  predicate OccursAt(s: string, pat: string, i: int) {
    0 <= i && i + |pat| <= |s| && s[i..i + |pat|] == pat
  }

  /** The first index at or after `from` where `pat` occurs in `s`. */
  function IndexOfFrom(s: string, pat: string, from: nat): (r: Option<nat>)
    decreases |s| - from
    ensures r.Some? ==> from <= r.value && OccursAt(s, pat, r.value)
    ensures r.Some? ==> forall j :: from <= j < r.value ==> !OccursAt(s, pat, j)
    ensures r.None? ==> forall j :: from <= j ==> !OccursAt(s, pat, j)
  {
    if from + |pat| > |s| then None
    else if s[from..from + |pat|] == pat then Some(from)
    else IndexOfFrom(s, pat, from + 1)
  }

  /** `s.indexOf(pat)`, absent for -1. */
  function IndexOf(s: string, pat: string): Option<nat> {
    IndexOfFrom(s, pat, 0)
  }

  /** `s.replace(pat, rep)` with a string pattern: the first occurrence of
      `pat` is replaced; without one, `s` is returned unchanged. */
  function ReplaceFirst(s: string, pat: string, rep: string): string {
    match IndexOf(s, pat)
    case None => s
    case Some(i) => s[..i] + rep + s[i + |pat|..]
  }

  /** The reconnect text: `{price}`, then `{period}`, substituted once each. */
  function ReconnectText(c: CountryData): string {
    ReplaceFirst(ReplaceFirst(c.reconnectLabel, "{price}", c.price), "{period}", c.period)
  }

  // ---------------------------------------------------------------------
  // Properties
  // ---------------------------------------------------------------------

  /** Each branch is taken exactly on its range, a billion and a million
      included in the higher branch; the scaled number lies in [1, ∞) for
      billions and in [1, 1000) for millions; every text opens with the
      currency symbol. */
  lemma ImpactBranches(c: CountryData, r: Renderers)
    ensures var impact := Impact(c); var text := CalculateImpact(c, r);
      && (impact >= Billion ==>
            text == c.currencySymbol + r.fixed1(impact / Billion) + "B" && impact / Billion >= 1.0)
      && (Million <= impact < Billion ==>
            text == c.currencySymbol + r.fixed0(impact / Million) + "M" && 1.0 <= impact / Million < 1000.0)
      && (impact < Million ==> text == c.currencySymbol + r.format(NumberLocale(c.locale), impact))
      && |text| >= |c.currencySymbol| && text[..|c.currencySymbol|] == c.currencySymbol
  {
    var impact := Impact(c);
    var text := CalculateImpact(c, r);
    if impact >= Billion {
      assert text == c.currencySymbol + (r.fixed1(impact / Billion) + "B");
    } else if impact >= Million {
      assert text == c.currencySymbol + (r.fixed0(impact / Million) + "M");
    }
  }

  /** A larger impact is never shown at a smaller scale. */
  lemma ScaleMonotonic(a: real, b: real)
    requires a <= b
    ensures Rank(ScaleOf(a)) <= Rank(ScaleOf(b))
  {
  }

  /** Raising the price never lowers the scale (for a non-negative unbanked
      count and multiplier). */
  lemma HigherPriceNeverLowersScale(c: CountryData, price: real)
    requires c.unbankedRaw >= 0.0 && c.multiplier >= 0.0 && c.priceRaw <= price
    ensures Rank(ScaleOf(Impact(c))) <= Rank(ScaleOf(Impact(c.(priceRaw := price))))
  {
    var k := c.unbankedRaw * c.multiplier;
    assert k >= 0.0;
    assert Impact(c) == k * c.priceRaw;
    assert Impact(c.(priceRaw := price)) == k * price;
    assert k * c.priceRaw <= k * price;
    ScaleMonotonic(Impact(c), Impact(c.(priceRaw := price)));
  }

  /** A listed code gets its own tag. An unknown locale code is formatted as
      `en-US`, unless it names an inherited member, which is passed on. */
  lemma NumberLocaleFallback(code: string)
    ensures NumberTag(code).Some? ==> NumberLocale(code) == Own(NumberTag(code).value)
    ensures NumberTag(code).None? && !PrototypeMember(code) ==> NumberLocale(code) == Own("en-US")
    ensures PrototypeMember(code) ==> NumberLocale(code) == Inherited(code)
  {
    PrototypeMemberIsLong(code);
  }

  /** The country lookup gives the locale's record when there is one, the
      English record otherwise, and fails only when both are missing. */
  lemma CountryFallback(countries: map<string, CountryData>, locale: string)
    ensures locale in countries ==> CountryFor(countries, locale) == Own(countries[locale])
    ensures locale !in countries && PrototypeMember(locale) ==> CountryFor(countries, locale) == Inherited(locale)
    ensures locale !in countries && !PrototypeMember(locale) && "en" in countries ==>
      CountryFor(countries, locale) == Own(countries["en"])
    ensures CountryFor(countries, locale) == Absent <==>
      locale !in countries && !PrototypeMember(locale) && "en" !in countries
  {
  }

  /** Without an occurrence the text is unchanged; with one, the text before
      the first occurrence and everything after it are kept verbatim, so
      later occurrences survive. */
  lemma ReplaceFirstKeepsTheRest(s: string, pat: string, rep: string)
    ensures IndexOf(s, pat).None? ==> ReplaceFirst(s, pat, rep) == s
    ensures IndexOf(s, pat).Some? ==>
      var i := IndexOf(s, pat).value;
      && ReplaceFirst(s, pat, rep) == s[..i] + rep + s[i + |pat|..]
      && s == s[..i] + pat + s[i + |pat|..]
      && forall j :: 0 <= j < i ==> !OccursAt(s, pat, j)
  {
    if IndexOf(s, pat).Some? {
      var i := IndexOf(s, pat).value;
      assert s[i..i + |pat|] == pat;
      assert s == s[..i] + s[i..i + |pat|] + s[i + |pat|..];
    }
  }

  /** A placeholder that begins with `{` is found right after a prefix with
      no `{` in it. */
  lemma {:induction false} FirstBraceOccurrence(a: string, pat: string, rest: string)
    requires |pat| > 0 && pat[0] == '{' && '{' !in a
    ensures IndexOf(a + pat + rest, pat) == Some(|a|)
  {
    var s := a + pat + rest;
    assert OccursAt(s, pat, |a|) by {
      assert s[|a|..|a| + |pat|] == pat;
    }
    forall j | 0 <= j < |a|
      ensures !OccursAt(s, pat, j)
    {
      assert s[j] == a[j] != '{';
      if j + |pat| <= |s| {
        assert s[j..j + |pat|][0] == s[j];
      }
    }
  }

  /** A label `a{price}b{period}c` whose text before each placeholder has no
      `{` becomes `a` + price + `b` + period + `c`. */
  lemma ReconnectTemplate(c: CountryData, a: string, b: string, rest: string)
    requires c.reconnectLabel == a + "{price}" + b + "{period}" + rest
    requires '{' !in a && '{' !in c.price && '{' !in b
    ensures ReconnectText(c) == a + c.price + b + c.period + rest
  {
    var template := c.reconnectLabel;
    FirstBraceOccurrence(a, "{price}", b + "{period}" + rest);
    assert template == a + "{price}" + (b + "{period}" + rest);
    var once := ReplaceFirst(template, "{price}", c.price);
    assert template[..|a|] == a;
    assert template[|a| + 7..] == b + "{period}" + rest;
    assert once == a + c.price + (b + "{period}" + rest);
    var front := a + c.price + b;
    assert once == front + "{period}" + rest;
    assert '{' !in front by {
      forall i | 0 <= i < |front| ensures front[i] != '{' {
        if i < |a| {
          assert front[i] == a[i];
        } else if i < |a| + |c.price| {
          assert front[i] == c.price[i - |a|];
        } else {
          assert front[i] == b[i - |a| - |c.price|];
        }
      }
    }
    FirstBraceOccurrence(front, "{period}", rest);
    var twice := ReplaceFirst(once, "{period}", c.period);
    assert once[..|front|] == front;
    assert once[|front| + 8..] == rest;
  }
}
