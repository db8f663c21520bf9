/** The trust and loneliness barometer (data/trust-data.ts): one record per
    region, each holding per-language texts, with a lookup that falls back to
    the English record. */
module TrustData {

  import opened Options
  import opened Navigation
  import opened JsObjects

  /** The texts of one region in one language. Only the region's localized
      name is carried. */
  datatype RegionLocaleData = RegionLocaleData(regionName: string)

  /** One region: its figures (percentages, a 1-5 potential) and its texts
      keyed by language code. The list of cited sources is not carried. */
  datatype RegionData = RegionData(
    id: string,
    lonelinessRate: int,
    trustRate: int,
    unbankledRate: int,
    adultPopulation: string,
    colhybriPotential: int,
    locales: map<string, RegionLocaleData>)

  /** The seven regions of the table, in declaration order. */
  datatype RegionId = France | Usa | Brazil | Japan | India | EasternEurope | Africa

  /** The region's key in the table. */
  function RegionKey(id: RegionId): string {
    match id
    case France => "france"
    case Usa => "usa"
    case Brazil => "brazil"
    case Japan => "japan"
    case India => "india"
    case EasternEurope => "eastern-europe"
    case Africa => "africa"
  }

  /** The region a key names, if it names one. */
  function ParseRegion(s: string): Option<RegionId> {
    if s == "france" then Some(France)
    else if s == "usa" then Some(Usa)
    else if s == "brazil" then Some(Brazil)
    else if s == "japan" then Some(Japan)
    else if s == "india" then Some(India)
    else if s == "eastern-europe" then Some(EasternEurope)
    else if s == "africa" then Some(Africa)
    else None
  }

  /** `ALL_REGIONS`: the table's keys in declaration order. */
  const AllRegions: seq<string> := ["france", "usa", "brazil", "japan", "india", "eastern-europe", "africa"]

  /** The table's row for each region. */
  function Region(id: RegionId): RegionData {
    match id
    case France => RegionData(
      id := "france", lonelinessRate := 55, trustRate := 22, unbankledRate := 5,
      adultPopulation := "48M", colhybriPotential := 5,
      locales := map[
        "fr" := RegionLocaleData(regionName := "France"),
        "en" := RegionLocaleData(regionName := "France")])
    case Usa => RegionData(
      id := "usa", lonelinessRate := 30, trustRate := 55, unbankledRate := 5,
      adultPopulation := "260M", colhybriPotential := 4,
      locales := map[
        "en" := RegionLocaleData(regionName := "United States"),
        "fr" := RegionLocaleData(regionName := "Etats-Unis")])
    case Brazil => RegionData(
      id := "brazil", lonelinessRate := 50, trustRate := 25, unbankledRate := 30,
      adultPopulation := "160M", colhybriPotential := 5,
      locales := map[
        "pt" := RegionLocaleData(regionName := "Brasil"),
        "en" := RegionLocaleData(regionName := "Brazil"),
        "fr" := RegionLocaleData(regionName := "Bresil")])
    case Japan => RegionData(
      id := "japan", lonelinessRate := 40, trustRate := 50, unbankledRate := 2,
      adultPopulation := "105M", colhybriPotential := 4,
      locales := map[
        "ja" := RegionLocaleData(regionName := "日本"),
        "en" := RegionLocaleData(regionName := "Japan")])
    case India => RegionData(
      id := "india", lonelinessRate := 43, trustRate := 40, unbankledRate := 11,
      adultPopulation := "900M", colhybriPotential := 5,
      locales := map[
        "hi" := RegionLocaleData(regionName := "भारत"),
        "en" := RegionLocaleData(regionName := "India")])
    case EasternEurope => RegionData(
      id := "eastern-europe", lonelinessRate := 35, trustRate := 38, unbankledRate := 22,
      adultPopulation := "120M", colhybriPotential := 3,
      locales := map[
        "pl" := RegionLocaleData(regionName := "Europa Wschodnia / Polska"),
        "en" := RegionLocaleData(regionName := "Eastern Europe"),
        "fr" := RegionLocaleData(regionName := "Europe de l'Est")])
    case Africa => RegionData(
      id := "africa", lonelinessRate := 45, trustRate := 35, unbankledRate := 42,
      adultPopulation := "600M", colhybriPotential := 5,
      locales := map[
        "fr" := RegionLocaleData(regionName := "Afrique francophone"),
        "en" := RegionLocaleData(regionName := "Sub-Saharan Africa")])
  }

  /** `TRUST_DATA[regionId]`: the row under the key, an inherited member,
      or `undefined`. */
  function LookupRegion(regionId: string): Prop<RegionData> {
    Property(match ParseRegion(regionId) case Some(id) => Some(Region(id)) case None => None, regionId)
  }

  /** `region.locales[locale]` */
  function LocaleRecord(region: RegionData, locale: string): Prop<RegionLocaleData> {
    Property(if locale in region.locales then Some(region.locales[locale]) else None, locale)
  }

  /** `getRegionForLocale`. An unknown region gives null (`Absent`). An
      inherited member found in place of a region has no `locales`, so
      reading a record from it throws. For a region of the table: the
      record in the requested language, else whatever truthy member that
      name inherits, else the English record, else null. */
  function GetRegionForLocale(regionId: string, locale: string): Outcome<Prop<RegionLocaleData>> {
    match LookupRegion(regionId)
    case Absent => Value(Absent)
    case Inherited(_) => TypeError
    case Own(region) =>
      var record := LocaleRecord(region, locale);
      if !record.Absent? then Value(record)
      else if "en" in region.locales then Value(Own(region.locales["en"]))
      else Value(Absent)
  }

  /** `LOCALE_DEFAULT_REGION[locale]`: the region shown first to a visitor
      using that locale code. */
  function LocaleDefaultRegion(code: string): Prop<string> {
    Property(
      if code == "fr" then Some("france")
      else if code == "en" then Some("usa")
      else if code == "en-gb" then Some("usa")
      else if code == "es" then Some("usa")
      else if code == "pt" then Some("brazil")
      else if code == "de" then Some("eastern-europe")
      else if code == "it" then Some("france")
      else if code == "zh" then Some("usa")
      else if code == "ja" then Some("japan")
      else None,
      code)
  }

  // ---------------------------------------------------------------------
  // Lookup
  // ---------------------------------------------------------------------

  /** A string parses only to the region whose key it is. */
  lemma ParseRegionIsNamed(s: string)
    ensures ParseRegion(s).Some? ==> RegionKey(ParseRegion(s).value) == s
  {
    if s == "france" {
    } else if s == "usa" {
    } else if s == "brazil" {
    } else if s == "japan" {
    } else if s == "india" {
    } else if s == "eastern-europe" {
    } else if s == "africa" {
    }
  }

  /** ParseRegion and RegionKey are inverse. */
  lemma ParseRegionKey()
    ensures forall id :: ParseRegion(RegionKey(id)) == Some(id)
    ensures forall s, id :: ParseRegion(s) == Some(id) ==> RegionKey(id) == s
  {
    forall id: RegionId
      ensures ParseRegion(RegionKey(id)) == Some(id)
    {
      match id
      case France => case Usa => case Brazil => case Japan =>
      case India => case EasternEurope => case Africa =>
    }
    forall s: string
      ensures ParseRegion(s).Some? ==> RegionKey(ParseRegion(s).value) == s
    {
      ParseRegionIsNamed(s);
    }
  }

  /** A region id that is not a key of the table yields null, whatever the
      locale, unless it names an inherited member: then the lookup throws. */
  lemma UnknownRegionLookup(regionId: string, locale: string)
    requires forall id :: RegionKey(id) != regionId
    ensures !PrototypeMember(regionId) ==>
      LookupRegion(regionId) == Absent && GetRegionForLocale(regionId, locale) == Value(Absent)
    ensures PrototypeMember(regionId) ==>
      LookupRegion(regionId) == Inherited(regionId) && GetRegionForLocale(regionId, locale) == TypeError
  {
    ParseRegionIsNamed(regionId);
    assert ParseRegion(regionId) == None;
  }

  /** Every region has an English record. */
  lemma EveryRegionHasEnglish()
    ensures forall id :: "en" in Region(id).locales
  {
    forall id: RegionId
      ensures "en" in Region(id).locales
    {
      match id
      case France => case Usa => case Brazil => case Japan =>
      case India => case EasternEurope => case Africa =>
    }
  }

  /** For a region of the table the lookup neither throws nor yields null:
      it gives the record in the requested language when the region has
      one, the member a `Object.prototype` name inherits, and the English
      record for any other language. */
  lemma KnownRegionFallsBackToEnglish(id: RegionId, locale: string)
    ensures var r := GetRegionForLocale(RegionKey(id), locale);
      && r.Value? && !r.value.Absent?
      && (locale in Region(id).locales ==> r.value == Own(Region(id).locales[locale]))
      && (locale !in Region(id).locales && PrototypeMember(locale) ==> r.value == Inherited(locale))
      && (locale !in Region(id).locales && !PrototypeMember(locale) ==> r.value == Own(Region(id).locales["en"]))
  {
    ParseRegionKey();
    EveryRegionHasEnglish();
  }

  // ---------------------------------------------------------------------
  // Facts about the static tables
  // ---------------------------------------------------------------------

  /** Each region's `id` field is its key in the table. */
  lemma RegionIdIsKey()
    ensures forall id :: Region(id).id == RegionKey(id)
  {
    forall id: RegionId
      ensures Region(id).id == RegionKey(id)
    {
      match id
      case France => case Usa => case Brazil => case Japan =>
      case India => case EasternEurope => case Africa =>
    }
  }

  /** The potential of every region is between 3 and 5. */
  lemma PotentialInRange()
    ensures forall id :: 3 <= Region(id).colhybriPotential <= 5
  {
    forall id: RegionId
      ensures 3 <= Region(id).colhybriPotential <= 5
    {
      match id
      case France => case Usa => case Brazil => case Japan =>
      case India => case EasternEurope => case Africa =>
    }
  }

  /** The three rates of every region are percentages. */
  lemma RatesArePercentages()
    ensures forall id ::
      && 0 <= Region(id).lonelinessRate <= 100
      && 0 <= Region(id).trustRate <= 100
      && 0 <= Region(id).unbankledRate <= 100
  {
    forall id: RegionId
      ensures 0 <= Region(id).lonelinessRate <= 100
      ensures 0 <= Region(id).trustRate <= 100
      ensures 0 <= Region(id).unbankledRate <= 100
    {
      match id
      case France => case Usa => case Brazil => case Japan =>
      case India => case EasternEurope => case Africa =>
    }
  }

  /** AllRegions lists exactly the table's keys, each once. */
  lemma AllRegionsEnumerateTable()
    ensures |AllRegions| == 7
    ensures forall s :: s in AllRegions <==> LookupRegion(s).Own?
    ensures forall i, j :: 0 <= i < j < |AllRegions| ==> AllRegions[i] != AllRegions[j]
  {
    forall s: string
      ensures LookupRegion(s).Own? ==> s in AllRegions
    {
      ParseRegionIsNamed(s);
      if ParseRegion(s).Some? {
        match ParseRegion(s).value
        case France => case Usa => case Brazil => case Japan =>
        case India => case EasternEurope => case Africa =>
      }
    }
  }

  /** Each of the nine locales has a default region. */
  lemma EveryLocaleHasDefaultRegion()
    ensures forall l :: LocaleDefaultRegion(Code(l)).Own?
  {
    forall l: Locale
      ensures LocaleDefaultRegion(Code(l)).Own?
    {
      match l
      case En => case EnGb => case Fr => case Es => case Pt =>
      case De => case It => case Zh => case Ja =>
    }
  }

  /** Only the nine locale codes have a default region of their own, and
      each default region is a key of the table. */
  lemma DefaultRegionsExist(code: string)
    requires LocaleDefaultRegion(code).Own?
    ensures exists l :: Code(l) == code
    ensures LookupRegion(LocaleDefaultRegion(code).value).Own?
  {
    if code == "fr" { assert Code(Fr) == code; }
    else if code == "en" { assert Code(En) == code; }
    else if code == "en-gb" { assert Code(EnGb) == code; }
    else if code == "es" { assert Code(Es) == code; }
    else if code == "pt" { assert Code(Pt) == code; }
    else if code == "de" { assert Code(De) == code; }
    else if code == "it" { assert Code(It) == code; }
    else if code == "zh" { assert Code(Zh) == code; }
    else { assert Code(Ja) == code; }
  }
}
