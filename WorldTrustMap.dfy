/** The interactive trust map (components/trust/WorldTrustMap.tsx): the fill
    colour of a region by its potential, the label and accessible name drawn
    for it, and the hover tooltip and click state the component keeps. */
module WorldTrustMap {

  import opened Options
  import opened JsObjects
  import opened TrustData

  // ---------------------------------------------------------------------
  // Rendering helpers
  // ---------------------------------------------------------------------

  const HighestColor: string := "#00A878"
  const HighColor: string := "#2dd4bf"
  const ModerateColor: string := "#FF6B35"
  const FallbackColor: string := "#94a3b8"

  /** `getPotentialColor`: one colour per potential 5, 4 and 3, a slate
      fallback for any other value. */
  function PotentialColor(potential: int): (c: string)
    ensures potential == 5 <==> c == HighestColor
    ensures potential == 4 <==> c == HighColor
    ensures potential == 3 <==> c == ModerateColor
    ensures !(3 <= potential <= 5) <==> c == FallbackColor
  {
    if potential == 5 then HighestColor
    else if potential == 4 then HighColor
    else if potential == 3 then ModerateColor
    else FallbackColor
  }

  /** The label drawn on a region: names longer than ten characters keep
      their first nine followed by `...`. */
  function TruncateLabel(name: string): (r: string)
    ensures |r| <= 12
    ensures |name| <= 10 ==> r == name
    ensures |name| > 10 ==> |r| == 12 && r[..9] == name[..9] && r[9..] == "..."
  {
    if |name| > 10 then name[..9] + "..." else name
  }

  /** `.regionName` of what the lookup found: `undefined` (`None`) for null
      and for an inherited member. */
  function RegionNameOf(found: Prop<RegionLocaleData>): Option<string> {
    match found
    case Own(data) => Some(data.regionName)
    case _ => None
  }

  /** The label drawn for a region in a locale: none when the lookup yields
      null. Reading the length of an inherited member's `undefined` name
      throws, as does the lookup itself for an inherited region id. */
  function RegionLabel(regionId: string, locale: string): Outcome<Option<string>> {
    match GetRegionForLocale(regionId, locale)
    case TypeError => TypeError
    case Value(Absent) => Value(None)
    case Value(Own(data)) => Value(Some(TruncateLabel(data.regionName)))
    case Value(Inherited(_)) => TypeError
  }

  /** `getRegionForLocale(regionId, locale)?.regionName || regionId`: the
      accessible name of a region's path. */
  function AriaLabel(regionId: string, locale: string): (r: Outcome<string>)
    ensures var found := GetRegionForLocale(regionId, locale);
      && (r.TypeError? <==> found.TypeError?)
      && (found.Value? && found.value.Own? && found.value.value.regionName != "" ==>
            r == Value(found.value.value.regionName))
      && (found.Value? && !(found.value.Own? && found.value.value.regionName != "") ==>
            r == Value(regionId))
  {
    match GetRegionForLocale(regionId, locale)
    case TypeError => TypeError
    case Value(found) =>
      match RegionNameOf(found)
      case Some(name) => if name != "" then Value(name) else Value(regionId)
      case None => Value(regionId)
  }

  /** The path's fill, opacity, stroke and stroke width. */
  datatype PathStyle = PathStyle(fill: string, fillOpacity: real, stroke: string, strokeWidth: real)

  /** The style of a region's path with the given potential, hovered or not. */
  function StyleOf(potential: int, hovered: bool): (s: PathStyle)
    ensures s.fill == PotentialColor(potential)
    ensures hovered ==> s.fillOpacity == 0.95 && s.stroke == "#ffffff" && s.strokeWidth == 2.5
    ensures !hovered ==> s.fillOpacity == 0.75 && s.stroke == s.fill && s.strokeWidth == 1.5
  {
    var fill := PotentialColor(potential);
    if hovered then PathStyle(fill, 0.95, "#ffffff", 2.5)
    else PathStyle(fill, 0.75, fill, 1.5)
  }

  /** The keys that activate a focused region. */
  predicate IsActivationKey(key: string) {
    key == "Enter" || key == " "
  }

  // ---------------------------------------------------------------------
  // Hover state
  // ---------------------------------------------------------------------

  /** `TooltipData`: the hovered region's name (`None` for `undefined`) and
      loneliness rate, at a position relative to the map's svg element. */
  datatype Tooltip = Tooltip(regionName: Option<string>, lonelinessRate: int, x: real, y: real)

  /** The component's two pieces of hover state. */
  datatype HoverState = HoverState(tooltip: Option<Tooltip>, hoveredRegion: Option<string>)

  /** Nothing is hovered. */
  const NoHover: HoverState := HoverState(None, None)

  /** The pointer entering region `regionId`, at client position
      (clientX, clientY), over an svg whose box starts at (left, top).
      `svgFound` is whether the path has an enclosing svg element. Nothing
      changes without a region of the table, without a truthy locale
      record, or without the svg. An inherited region id makes the lookup
      throw before any update. */
  function Enter(locale: string, s: HoverState, regionId: string, svgFound: bool,
                 clientX: real, clientY: real, left: real, top: real): HoverState
  {
    var found := GetRegionForLocale(regionId, locale);
    match LookupRegion(regionId)
    case Own(region) =>
      if found.TypeError? || found.value.Absent? || !svgFound then s
      else HoverState(Some(Tooltip(RegionNameOf(found.value), region.lonelinessRate, clientX - left, clientY - top)),
                      Some(regionId))
    case _ => s
  }

  /** The pointer moving: with a tooltip shown (and an svg found), only its
      position follows the pointer. */
  function Move(s: HoverState, svgFound: bool, clientX: real, clientY: real, left: real, top: real): HoverState {
    if s.tooltip.None? || !svgFound then s
    else s.(tooltip := Some(s.tooltip.value.(x := clientX - left, y := clientY - top)))
  }

  /** The pointer leaving: both tooltip and hovered region are cleared. */
  function Leave(s: HoverState): HoverState {
    NoHover
  }

  /** The invariant the handlers keep: a tooltip is shown exactly when a
      region is hovered, and it carries that region's localized name and
      loneliness rate in the component's locale. */
  ghost predicate Consistent(locale: string, s: HoverState) {
    && (s.tooltip.Some? <==> s.hoveredRegion.Some?)
    && (s.hoveredRegion.Some? ==>
          var r := s.hoveredRegion.value;
          && LookupRegion(r).Own?
          && GetRegionForLocale(r, locale).Value?
          && s.tooltip.value.regionName == RegionNameOf(GetRegionForLocale(r, locale).value)
          && s.tooltip.value.lonelinessRate == LookupRegion(r).value.lonelinessRate)
  }

  /** The component instance: its locale, its hover state, and the region ids
      it has handed to `onRegionClick`, in order. */
  class WorldTrustMap {
    const locale: string
    var tooltip: Option<Tooltip>
    var hoveredRegion: Option<string>
    var clicks: seq<string>

    function State(): HoverState
      reads this
    {
      HoverState(tooltip, hoveredRegion)
    }

    ghost predicate Valid()
      reads this
    {
      Consistent(locale, State())
    }

    /** Mounting: no tooltip, nothing hovered, no click reported. */
    constructor(locale: string)
      ensures this.locale == locale
      ensures State() == NoHover && clicks == []
      ensures Valid()
    {
      this.locale := locale;
      tooltip := None;
      hoveredRegion := None;
      clicks := [];
    }

    /** `handleMouseEnter`; `threw` reports the lookup's `TypeError`. */
    method MouseEnter(regionId: string, svgFound: bool, clientX: real, clientY: real, left: real, top: real)
      returns (threw: bool)
      requires Valid()
      modifies this
      ensures threw <==> GetRegionForLocale(regionId, locale).TypeError?
      ensures State() == Enter(locale, old(State()), regionId, svgFound, clientX, clientY, left, top)
      ensures clicks == old(clicks)
      ensures Valid()
    {
      var region := LookupRegion(regionId);
      var data := GetRegionForLocale(regionId, locale);
      if data.TypeError? {
        return true;
      }
      threw := false;
      if !region.Own? || data.value.Absent? {
        return;
      }
      if !svgFound {
        return;
      }
      tooltip := Some(Tooltip(RegionNameOf(data.value), region.value.lonelinessRate, clientX - left, clientY - top));
      hoveredRegion := Some(regionId);
      EnterKeepsConsistent(locale, old(State()), regionId, svgFound, clientX, clientY, left, top);
    }

    /** `handleMouseMove` */
    method MouseMove(svgFound: bool, clientX: real, clientY: real, left: real, top: real)
      requires Valid()
      modifies this
      ensures State() == Move(old(State()), svgFound, clientX, clientY, left, top)
      ensures clicks == old(clicks)
      ensures Valid()
    {
      if tooltip.None? || !svgFound {
        return;
      }
      tooltip := Some(tooltip.value.(x := clientX - left, y := clientY - top));
      MoveKeepsConsistent(locale, old(State()), svgFound, clientX, clientY, left, top);
    }

    /** `handleMouseLeave` */
    method MouseLeave()
      requires Valid()
      modifies this
      ensures State() == Leave(old(State()))
      ensures clicks == old(clicks)
      ensures Valid()
    {
      tooltip := None;
      hoveredRegion := None;
    }

    /** `handleClick`: the region id is reported to `onRegionClick`. */
    method Click(regionId: string)
      requires Valid()
      modifies this
      ensures clicks == old(clicks) + [regionId]
      ensures State() == old(State())
      ensures Valid()
    {
      clicks := clicks + [regionId];
    }

    /** A key pressed on a focused region: Enter and Space act as a click,
        any other key is ignored. */
    method KeyDown(regionId: string, key: string)
      requires Valid()
      modifies this
      ensures IsActivationKey(key) ==> clicks == old(clicks) + [regionId]
      ensures !IsActivationKey(key) ==> clicks == old(clicks)
      ensures State() == old(State())
      ensures Valid()
    {
      if key == "Enter" || key == " " {
        Click(regionId);
      }
    }
  }

  // ---------------------------------------------------------------------
  // Properties
  // ---------------------------------------------------------------------

  /** The four colours are pairwise different, so the legend tells the
      potentials apart. */
  lemma ColorsDistinct(p: int, q: int)
    ensures PotentialColor(p) == PotentialColor(q) <==>
      p == q || (!(3 <= p <= 5) && !(3 <= q <= 5))
  {
  }

  /** No region of the trust table is drawn in the fallback colour. */
  lemma EveryRegionHasTierColor(id: RegionId)
    ensures PotentialColor(Region(id).colhybriPotential) != FallbackColor
  {
    PotentialInRange();
  }

  /** For a region of the trust table the lookup finds a record or, for a
      locale named like an inherited member, that member. A record gives the
      truncated localized name as label and the full name as accessible
      name; an inherited member makes the label throw and leaves the region
      id as accessible name. */
  lemma EveryRegionIsLabelled(id: RegionId, locale: string)
    ensures var found := GetRegionForLocale(RegionKey(id), locale);
      && found.Value? && (found.value.Own? || found.value.Inherited?)
      && (!PrototypeMember(locale) ==> found.value.Own?)
      && (found.value.Own? ==>
            && RegionLabel(RegionKey(id), locale) == Value(Some(TruncateLabel(found.value.value.regionName)))
            && (found.value.value.regionName != "" ==>
                  AriaLabel(RegionKey(id), locale) == Value(found.value.value.regionName)))
      && (found.value.Inherited? ==>
            RegionLabel(RegionKey(id), locale) == TypeError && AriaLabel(RegionKey(id), locale) == Value(RegionKey(id)))
  {
    KnownRegionFallsBackToEnglish(id, locale);
  }

  /** Hovering a region id unknown to the trust table leaves the state
      unchanged. Such an id gets no label and is named by itself, unless it
      names an inherited member: then label and accessible name throw. */
  lemma UnknownRegionIsInert(regionId: string, locale: string, s: HoverState, svgFound: bool,
                             clientX: real, clientY: real, left: real, top: real)
    requires forall id :: RegionKey(id) != regionId
    ensures Enter(locale, s, regionId, svgFound, clientX, clientY, left, top) == s
    ensures !PrototypeMember(regionId) ==>
      RegionLabel(regionId, locale) == Value(None) && AriaLabel(regionId, locale) == Value(regionId)
    ensures PrototypeMember(regionId) ==>
      RegionLabel(regionId, locale) == TypeError && AriaLabel(regionId, locale) == TypeError
  {
    UnknownRegionLookup(regionId, locale);
  }

  /** Entering a region of the trust table over the svg shows its localized
      name and loneliness rate at the pointer's svg-relative position; the
      name is defined unless the locale is named like an inherited member. */
  lemma EnterKnownRegion(locale: string, s: HoverState, id: RegionId,
                         clientX: real, clientY: real, left: real, top: real)
    ensures var t := Enter(locale, s, RegionKey(id), true, clientX, clientY, left, top);
      && t.hoveredRegion == Some(RegionKey(id))
      && t.tooltip == Some(Tooltip(RegionNameOf(GetRegionForLocale(RegionKey(id), locale).value),
                                   Region(id).lonelinessRate, clientX - left, clientY - top))
      && (!PrototypeMember(locale) ==> t.tooltip.value.regionName.Some?)
  {
    ParseRegionKey();
    KnownRegionFallsBackToEnglish(id, locale);
  }

  /** Entering keeps the invariant. */
  lemma EnterKeepsConsistent(locale: string, s: HoverState, regionId: string, svgFound: bool,
                             clientX: real, clientY: real, left: real, top: real)
    requires Consistent(locale, s)
    ensures Consistent(locale, Enter(locale, s, regionId, svgFound, clientX, clientY, left, top))
  {
  }

  /** Moving keeps the invariant, the hovered region, and the tooltip's
      name and rate; without a tooltip it changes nothing. */
  lemma MoveKeepsConsistent(locale: string, s: HoverState, svgFound: bool,
                            clientX: real, clientY: real, left: real, top: real)
    requires Consistent(locale, s)
    ensures var t := Move(s, svgFound, clientX, clientY, left, top);
      && Consistent(locale, t)
      && t.hoveredRegion == s.hoveredRegion
      && (s.tooltip.None? ==> t == s)
      && (s.tooltip.Some? ==>
            && t.tooltip.Some?
            && t.tooltip.value.regionName == s.tooltip.value.regionName
            && t.tooltip.value.lonelinessRate == s.tooltip.value.lonelinessRate)
  {
  }

  /** Leaving keeps the invariant and clears both pieces of state, whatever
      they were; a second leave changes nothing. */
  lemma LeaveClears(locale: string, s: HoverState)
    ensures Consistent(locale, Leave(s))
    ensures Leave(s).tooltip.None? && Leave(s).hoveredRegion.None?
    ensures Leave(Leave(s)) == Leave(s)
  {
  }

  /** Only the hovered region is drawn highlighted. */
  lemma OnlyHoveredIsHighlighted(s: HoverState, regionId: string, potential: int)
    ensures StyleOf(potential, s.hoveredRegion == Some(regionId)).stroke == "#ffffff"
      <==> s.hoveredRegion == Some(regionId)
  {
  }
}
