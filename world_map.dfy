/**
 * The current world-map component: the recolouring of the country list on
 * hover and on leave, the tooltip's visibility and offset, and the map size.
 *
 * Each handler replaces the component's country list with a mapped copy in
 * which only the entries matching the hovered country under
 * `IsMatchCoffeeRegion` are repainted; `WorldMapView` holds that list and the
 * tooltip state, and its handlers are stated against the pure functions
 * `HoverCountries` and `LeaveCountries`.
 */
module WorldMap {
  import opened Wrappers
  import opened Text
  import opened Regions
  import opened CoffeeData

  /** `b` is `a` with at most its stroke and fill changed. */
  ghost predicate SameButColours(a: MapCountry, b: MapCountry)
  {
    a.(svg := b.svg) == b && a.svg.d == b.svg.d
  }

  /**
   * The `mapCountries.map(...)` of both handlers: each entry matching
   * `country` gets `color` as stroke and fill, every other entry is kept.
   */
  function Recolor(ms: seq<MapCountry>, country: MapCountry, color: string): (r: seq<MapCountry>)
    ensures |r| == |ms|
    ensures forall i :: 0 <= i < |ms| ==> SameButColours(ms[i], r[i])
    ensures forall i :: 0 <= i < |ms| && IsMatchCoffeeRegion(ms[i], country) ==>
      r[i].svg.stroke == color && r[i].svg.fill == color
    ensures forall i :: 0 <= i < |ms| && !IsMatchCoffeeRegion(ms[i], country) ==> r[i] == ms[i]
  {
    seq(|ms|, i requires 0 <= i < |ms| =>
      if IsMatchCoffeeRegion(ms[i], country)
      then ms[i].(svg := ms[i].svg.(stroke := color, fill := color))
      else ms[i])
  }

  /** The list after `handleMouseOverCountry(country)`. */
  function HoverCountries(ms: seq<MapCountry>, country: MapCountry): (r: seq<MapCountry>)
    ensures |r| == |ms|
    ensures forall i :: 0 <= i < |ms| ==> SameButColours(ms[i], r[i])
    ensures forall i :: 0 <= i < |ms| && IsMatchCoffeeRegion(ms[i], country) ==>
      r[i].svg.stroke == r[i].svg.fill == HoverColor(Classify(country.regionUn))
    ensures forall i :: 0 <= i < |ms| && !IsMatchCoffeeRegion(ms[i], country) ==> r[i] == ms[i]
  {
    Recolor(ms, country, GetRegionHoverColor(country.regionUn))
  }

  /** The list after `handleMouseLeaveCountry(country)`. */
  function LeaveCountries(ms: seq<MapCountry>, country: MapCountry): (r: seq<MapCountry>)
    ensures |r| == |ms|
    ensures forall i :: 0 <= i < |ms| ==> SameButColours(ms[i], r[i])
    ensures forall i :: 0 <= i < |ms| && IsMatchCoffeeRegion(ms[i], country) ==>
      r[i].svg.stroke == r[i].svg.fill == BaseColor(Classify(country.regionUn))
    ensures forall i :: 0 <= i < |ms| && !IsMatchCoffeeRegion(ms[i], country) ==> r[i] == ms[i]
  {
    Recolor(ms, country, GetRegionColor(country.regionUn))
  }

  /** Hovering or leaving a country that is not a coffee country repaints nothing. */
  lemma {:induction false} NonCoffeeUnchanged(ms: seq<MapCountry>, country: MapCountry)
    requires !country.isCoffeeRegion
    ensures HoverCountries(ms, country) == ms
    ensures LeaveCountries(ms, country) == ms
  {
    assert forall i :: 0 <= i < |ms| ==> !IsMatchCoffeeRegion(ms[i], country);
  }

  /** Repainting the same entries twice with the same colour is repainting them once. */
  lemma {:induction false} RecolorIdempotent(ms: seq<MapCountry>, country: MapCountry, color: string)
    ensures Recolor(Recolor(ms, country, color), country, color) == Recolor(ms, country, color)
  {
    var once := Recolor(ms, country, color);
    var twice := Recolor(once, country, color);
    forall i | 0 <= i < |ms| ensures twice[i] == once[i] {
      assert IsMatchCoffeeRegion(once[i], country) == IsMatchCoffeeRegion(ms[i], country);
    }
  }

  /** Hovering the same country twice is hovering it once. */
  lemma HoverIdempotent(ms: seq<MapCountry>, country: MapCountry)
    ensures HoverCountries(HoverCountries(ms, country), country) == HoverCountries(ms, country)
  {
    RecolorIdempotent(ms, country, GetRegionHoverColor(country.regionUn));
  }

  /**
   * Every entry shows its resting colours: the base colour of its UN region
   * if it is a coffee country, the neutral colour otherwise.
   */
  ghost predicate AtRest(ms: seq<MapCountry>)
  {
    forall i :: 0 <= i < |ms| ==>
      ms[i].svg.stroke == ms[i].svg.fill
      && ms[i].svg.fill == (if ms[i].isCoffeeRegion then BaseColor(Classify(ms[i].regionUn)) else DefaultColor)
  }

  /** The list the join builds is at rest. */
  lemma ConstructedAtRest<G>(
    producers: seq<CoffeeDistributor>, features: seq<Feature<G>>, pathOf: Feature<G> -> Option<string>)
    ensures AtRest(ConstructCountries(producers, features, pathOf))
  {
  }

  /**
   * Leaving the country just hovered restores a list at rest: the entries
   * that were repainted share the hovered country's UN region, so its base
   * colour is their own.
   */
  lemma {:induction false} HoverThenLeaveRestores(ms: seq<MapCountry>, country: MapCountry)
    requires AtRest(ms)
    ensures LeaveCountries(HoverCountries(ms, country), country) == ms
  {
    var hovered := HoverCountries(ms, country);
    var left := LeaveCountries(hovered, country);
    forall i | 0 <= i < |ms| ensures left[i] == ms[i] {
      assert IsMatchCoffeeRegion(hovered[i], country) == IsMatchCoffeeRegion(ms[i], country);
      if IsMatchCoffeeRegion(ms[i], country) {
        assert ms[i].regionUn == country.regionUn;
        assert left[i].svg == ms[i].svg;
      }
    }
  }

  /**
   * Two South American coffee countries and an African one, at rest:
   * hovering the first paints both South American entries "#e2b58d" and
   * leaves the African one at "#d3a564"; leaving paints them back "#af855f".
   */
  lemma SouthAmericaHoverScenario(ms: seq<MapCountry>)
    requires |ms| == 3 && AtRest(ms)
    requires ms[0].isCoffeeRegion && ms[1].isCoffeeRegion && ms[2].isCoffeeRegion
    requires ms[0].regionUn == "South America" && ms[1].regionUn == "South America"
    requires ms[2].regionUn == "Africa"
    ensures HoverCountries(ms, ms[0])[0].svg.fill == "#e2b58d"
    ensures HoverCountries(ms, ms[0])[1].svg.fill == "#e2b58d"
    ensures HoverCountries(ms, ms[0])[2].svg.fill == "#d3a564"
    ensures LeaveCountries(HoverCountries(ms, ms[0]), ms[0])[0].svg.fill == "#af855f"
    ensures LeaveCountries(HoverCountries(ms, ms[0]), ms[0])[1].svg.fill == "#af855f"
  {
    ClassifyExamples();
    var hovered := HoverCountries(ms, ms[0]);
    assert IsMatchCoffeeRegion(ms[1], ms[0]) && !IsMatchCoffeeRegion(ms[2], ms[0]);
    assert hovered[2] == ms[2];
    assert IsMatchCoffeeRegion(hovered[0], ms[0]) && IsMatchCoffeeRegion(hovered[1], ms[0]);
  }

  /** "South America" is in the Americas and "Africa" in Africa. */
  lemma ClassifyExamples()
    ensures Classify("South America") == America
    ensures Classify("Africa") == Africa
  {
    assert "South America"[6..13] == "America";
    assert OccursAt("South America", "America", 6);
    assert OccursAt("Africa", "Africa", 0);
    assert !OccursAt("Africa", "America", 0);
  }

  /** The tooltip's position for the cursor at `(pageX, pageY)`: ten pixels right and down. */
  function TooltipOffset(pageX: int, pageY: int): (p: (int, int))
    ensures p.0 - pageX == 10 && p.1 - pageY == 10
  {
    (pageX + 10, pageY + 10)
  }

  /**
   * The SVG size `[width || 0, height || 0]`: a missing or zero dimension
   * becomes 0, any other is kept.
   */
  function MapSize(width: Option<int>, height: Option<int>): (size: (int, int))
    ensures size.0 == 0 <==> width.None? || width.value == 0
    ensures size.1 == 0 <==> height.None? || height.value == 0
    ensures width.Some? ==> size.0 == width.value
    ensures height.Some? ==> size.1 == height.value
  {
    var w := if width.Some? && width.value != 0 then width.value else 0;
    var h := if height.Some? && height.value != 0 then height.value else 0;
    (w, h)
  }

  /**
   * The component's state: the country list and the tooltip panel, which is
   * either shown at `(tooltipLeft, tooltipTop)` or hidden. `tooltipMounted`
   * says whether the panel's element exists; the handlers only touch the
   * panel when it does.
   */
  class WorldMapView {
    var countries: seq<MapCountry>
    var tooltipVisible: bool
    var tooltipLeft: int
    var tooltipTop: int
    const tooltipMounted: bool

    /** The first render: no countries yet and the panel hidden. */
    constructor (tooltipMounted: bool)
      ensures this.tooltipMounted == tooltipMounted
      ensures countries == [] && !tooltipVisible
    {
      this.tooltipMounted := tooltipMounted;
      countries := [];
      tooltipVisible := false;
      tooltipLeft, tooltipTop := 0, 0;
    }

    /** The effect that (re)builds the list whenever the map size changes. */
    method LoadCountries<G>(
      producers: seq<CoffeeDistributor>, features: seq<Feature<G>>, pathOf: Feature<G> -> Option<string>)
      modifies this
      ensures countries == ConstructCountries(producers, features, pathOf)
      ensures AtRest(countries)
      ensures tooltipVisible == old(tooltipVisible)
      ensures tooltipLeft == old(tooltipLeft) && tooltipTop == old(tooltipTop)
    {
      countries := ConstructCountries(producers, features, pathOf);
      ConstructedAtRest(producers, features, pathOf);
    }

    /**
     * `handleMouseOverCountry`: the panel is shown next to the cursor only
     * for a coffee country, and the matching entries take the hover colour.
     */
    method HandleMouseOverCountry(pageX: int, pageY: int, country: MapCountry)
      modifies this
      ensures countries == HoverCountries(old(countries), country)
      ensures country.isCoffeeRegion && tooltipMounted ==>
        tooltipVisible && (tooltipLeft, tooltipTop) == TooltipOffset(pageX, pageY)
      ensures !(country.isCoffeeRegion && tooltipMounted) ==>
        tooltipVisible == old(tooltipVisible)
        && tooltipLeft == old(tooltipLeft) && tooltipTop == old(tooltipTop)
      ensures !country.isCoffeeRegion ==> countries == old(countries)
    {
      if country.isCoffeeRegion && tooltipMounted {
        tooltipVisible := true;
        tooltipLeft := pageX + 10;
        tooltipTop := pageY + 10;
      }
      countries := HoverCountries(countries, country);
      if !country.isCoffeeRegion {
        NonCoffeeUnchanged(old(countries), country);
      }
    }

    /** `handleMouseLeaveCountry`: the panel is hidden and the matching entries take the base colour. */
    method HandleMouseLeaveCountry(country: MapCountry)
      modifies this
      ensures countries == LeaveCountries(old(countries), country)
      ensures tooltipMounted ==> !tooltipVisible
      ensures !tooltipMounted ==> tooltipVisible == old(tooltipVisible)
      ensures tooltipLeft == old(tooltipLeft) && tooltipTop == old(tooltipTop)
    {
      if tooltipMounted {
        tooltipVisible := false;
      }
      countries := LeaveCountries(countries, country);
    }
  }

  /**
   * The cursor entering and leaving one country of a freshly built map: the
   * list is back where it started and the panel is hidden.
   */
  method HoverRoundTrip<G>(
    producers: seq<CoffeeDistributor>, features: seq<Feature<G>>, pathOf: Feature<G> -> Option<string>,
    i: nat, pageX: int, pageY: int)
    returns (view: WorldMapView)
    requires i < |features|
    ensures fresh(view)
    ensures view.countries == ConstructCountries(producers, features, pathOf)
    ensures !view.tooltipVisible
  {
    view := new WorldMapView(true);
    view.LoadCountries(producers, features, pathOf);
    var start := view.countries;
    var country := start[i];
    view.HandleMouseOverCountry(pageX, pageY, country);
    assert view.tooltipVisible <==> country.isCoffeeRegion;
    view.HandleMouseLeaveCountry(country);
    HoverThenLeaveRestores(start, country);
  }
}
