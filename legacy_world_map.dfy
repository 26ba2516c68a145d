/**
 * The older, single-file world map. It repeats the producer dictionary, the
 * colour getters, the region-match predicate and both hover handlers of the
 * current version, with three differences: its country record has no
 * coffee-region name, its taste-profile summaries are other strings, and a
 * country path has a `<title>` child exactly when the country has a taste
 * profile, showing its summary.
 *
 * The producer dictionary it folds is the same expression over the same
 * exception table, so `CoffeeData.DistributorDict` is reused for it.
 */
module LegacyWorldMap {
  import opened Wrappers
  import opened Text
  import opened Regions
  import CoffeeData

  type CoffeeDistributor = CoffeeData.CoffeeDistributor
  type TasteProfile = CoffeeData.TasteProfile
  type Feature<G> = CoffeeData.Feature<G>
  type FeatureProperties = CoffeeData.FeatureProperties
  type Svg = CoffeeData.Svg

  datatype MapCountry = MapCountry(
    countryName: string,
    continent: string,
    isCoffeeRegion: bool,
    regionUn: string,
    regionWb: string,
    subRegion: string,
    tasteProfile: Option<TasteProfile>,
    svg: Svg)

  /** `getRegionColor`: the same colours in the same priority order as the hook's. */
  function GetRegionColor(region: string): (c: string)
    ensures c == BaseColor(Classify(region))
    ensures c == CoffeeData.GetRegionColor(region)
  {
    if Includes(region, "America") then AmericaColor
    else if Includes(region, "Africa") then AfricaColor
    else if Includes(region, "Asia") then AsiaColor
    else DefaultColor
  }

  /** `getRegionHoverColor`: the same colours in the same priority order as the hook's. */
  function GetRegionHoverColor(region: string): (c: string)
    ensures c == HoverColor(Classify(region))
    ensures c == CoffeeData.GetRegionHoverColor(region)
  {
    if Includes(region, "America") then AmericaColorAlt
    else if Includes(region, "Africa") then AfricaColorAlt
    else if Includes(region, "Asia") then AsiaColorAlt
    else DefaultColor
  }

  /** The taste profile of each macro-region in this version of the map. */
  function Taste(r: Region): (p: Option<TasteProfile>)
    ensures p.None? <==> r == Other
  {
    match r
    case America => Some(CoffeeData.TasteProfile("Nutty, Chocolate"))
    case Africa => Some(CoffeeData.TasteProfile("Fruity, Floral"))
    case Asia => Some(CoffeeData.TasteProfile("Earthy, Spice, Dark Chocolate"))
    case Other => None
  }

  /** `getRegionTasteProfile`, with this version's summaries. */
  function GetRegionTasteProfile(region: string): (p: Option<TasteProfile>)
    ensures p == Taste(Classify(region))
    ensures p.None? <==> CoffeeData.GetRegionTasteProfile(region).None?
  {
    if Includes(region, "America") then Some(CoffeeData.TasteProfile("Nutty, Chocolate"))
    else if Includes(region, "Africa") then Some(CoffeeData.TasteProfile("Fruity, Floral"))
    else if Includes(region, "Asia") then Some(CoffeeData.TasteProfile("Earthy, Spice, Dark Chocolate"))
    else None
  }

  /**
   * `isMatchCoffeeRegion`: never true when either side is not a coffee
   * country; otherwise true exactly when the UN regions are equal.
   */
  function IsMatchCoffeeRegion(source: MapCountry, target: MapCountry): (b: bool)
    ensures !source.isCoffeeRegion || !target.isCoffeeRegion ==> !b
    ensures source.isCoffeeRegion && target.isCoffeeRegion ==> (b <==> source.regionUn == target.regionUn)
  {
    source.isCoffeeRegion
      && target.isCoffeeRegion
      && source.regionUn == target.regionUn
  }

  /** The record the join builds for one feature. */
  function BuildCountry<G>(
    dict: map<string, CoffeeDistributor>, feature: Feature<G>, pathOf: Feature<G> -> Option<string>): (m: MapCountry)
  {
    var p := feature.properties;
    var svgProps := CoffeeData.Svg(pathOf(feature).GetOr(""), DefaultColor, DefaultColor);
    var isCoffeeRegion := p.admin in dict;
    var svgProps := if isCoffeeRegion
      then svgProps.(stroke := GetRegionColor(p.regionUn), fill := GetRegionColor(p.regionUn))
      else svgProps;
    MapCountry(
      p.admin,
      p.continent,
      isCoffeeRegion,
      p.regionUn,
      p.regionWb,
      p.subRegion,
      GetRegionTasteProfile(p.regionUn),
      svgProps)
  }

  /** What this version's join promises of the record `m` built from feature properties `p`. */
  ghost predicate Describes(m: MapCountry, p: FeatureProperties, isCoffee: bool, path: string)
  {
    && m.countryName == p.admin
    && m.continent == p.continent
    && m.regionUn == p.regionUn
    && m.regionWb == p.regionWb
    && m.subRegion == p.subRegion
    && m.isCoffeeRegion == isCoffee
    && m.tasteProfile == Taste(Classify(p.regionUn))
    && m.svg.d == path
    && m.svg.stroke == m.svg.fill
    && m.svg.fill == (if isCoffee then BaseColor(Classify(p.regionUn)) else DefaultColor)
  }

  /**
   * `constructContries`: one record per feature, in feature order; a coffee
   * country exactly when some producer's resolved name is its admin name.
   */
  function ConstructCountries<G>(
    producers: seq<CoffeeDistributor>, features: seq<Feature<G>>, pathOf: Feature<G> -> Option<string>)
    : (r: seq<MapCountry>)
    ensures |r| == |features|
    ensures forall i :: 0 <= i < |features| ==>
      Describes(r[i], features[i].properties, CoffeeData.IsProducer(producers, features[i].properties.admin),
                if pathOf(features[i]).Some? then pathOf(features[i]).value else "")
  {
    var dict := CoffeeData.DistributorDict(producers);
    CoffeeData.DictSpec(producers);
    seq(|features|, i requires 0 <= i < |features| => BuildCountry(dict, features[i], pathOf))
  }

  /** This version's join agrees with the hook's on every field the two records share. */
  lemma ConstructAgreesWithHook<G>(
    producers: seq<CoffeeDistributor>, features: seq<Feature<G>>, pathOf: Feature<G> -> Option<string>, i: nat)
    requires i < |features|
    ensures var m := ConstructCountries(producers, features, pathOf)[i];
            var h := CoffeeData.ConstructCountries(producers, features, pathOf)[i];
            m.countryName == h.countryName && m.isCoffeeRegion == h.isCoffeeRegion
            && m.continent == h.continent && m.regionUn == h.regionUn
            && m.regionWb == h.regionWb && m.subRegion == h.subRegion && m.svg == h.svg
            && (m.tasteProfile.None? <==> h.tasteProfile.None?)
  {
  }

  /** The `<title>` child of a country's path: present exactly when it has a taste profile. */
  function TitleChild(country: MapCountry): (title: Option<string>)
    ensures title.Some? <==> country.tasteProfile.Some?
    ensures title.Some? ==> title.value == country.tasteProfile.value.summary
  {
    if country.tasteProfile.Some? then Some(country.tasteProfile.value.summary) else None
  }

  /** `b` is `a` with at most its stroke and fill changed. */
  ghost predicate SameButColours(a: MapCountry, b: MapCountry)
  {
    a.(svg := b.svg) == b && a.svg.d == b.svg.d
  }

  /** The `mapCountries.map(...)` of both handlers. */
  function Recolor(ms: seq<MapCountry>, country: MapCountry, color: string): (r: seq<MapCountry>)
    ensures |r| == |ms|
    ensures forall i :: 0 <= i < |ms| ==> SameButColours(ms[i], r[i])
    ensures forall i :: 0 <= i < |ms| && IsMatchCoffeeRegion(ms[i], country) ==>
      r[i].svg.stroke == color && r[i].svg.fill == color
    ensures forall i :: 0 <= i < |ms| && !IsMatchCoffeeRegion(ms[i], country) ==> r[i] == ms[i]
  {
    seq(|ms|, i requires 0 <= i < |ms| =>
      if IsMatchCoffeeRegion(ms[i], country)
      then ms[i].(svg := ms[i].svg.(stroke := color, fill := color))
      else ms[i])
  }

  /** The entries at their resting colours. */
  ghost predicate AtRest(ms: seq<MapCountry>)
  {
    forall i :: 0 <= i < |ms| ==>
      ms[i].svg.stroke == ms[i].svg.fill
      && ms[i].svg.fill == (if ms[i].isCoffeeRegion then BaseColor(Classify(ms[i].regionUn)) else DefaultColor)
  }

  /** On a list at rest, leaving the country just hovered restores the list. */
  lemma {:induction false} HoverThenLeaveRestores(ms: seq<MapCountry>, country: MapCountry)
    requires AtRest(ms)
    ensures Recolor(Recolor(ms, country, GetRegionHoverColor(country.regionUn)), country,
                    GetRegionColor(country.regionUn)) == ms
  {
    var hovered := Recolor(ms, country, GetRegionHoverColor(country.regionUn));
    var left := Recolor(hovered, country, GetRegionColor(country.regionUn));
    forall i | 0 <= i < |ms| ensures left[i] == ms[i] {
      assert IsMatchCoffeeRegion(hovered[i], country) == IsMatchCoffeeRegion(ms[i], country);
      if IsMatchCoffeeRegion(ms[i], country) {
        assert left[i].svg == ms[i].svg;
      }
    }
  }

  /** The component's state: only the country list. */
  class LegacyWorldMapView {
    var countries: seq<MapCountry>

    constructor ()
      ensures countries == []
    {
      countries := [];
    }

    /** The mount effect: the list for the fixed 800 by 400 map. */
    method LoadCountries<G>(
      producers: seq<CoffeeDistributor>, features: seq<Feature<G>>, pathOf: Feature<G> -> Option<string>)
      modifies this
      ensures countries == ConstructCountries(producers, features, pathOf)
      ensures AtRest(countries)
    {
      countries := ConstructCountries(producers, features, pathOf);
    }

    /** `handleMouseOverCountry`: the matching entries take the hover colour, the rest are kept. */
    method HandleMouseOverCountry(country: MapCountry)
      modifies this
      ensures |countries| == |old(countries)|
      ensures forall i :: 0 <= i < |countries| ==> SameButColours(old(countries)[i], countries[i])
      ensures forall i :: 0 <= i < |countries| && IsMatchCoffeeRegion(old(countries)[i], country) ==>
        countries[i].svg.stroke == countries[i].svg.fill == HoverColor(Classify(country.regionUn))
      ensures forall i :: 0 <= i < |countries| && !IsMatchCoffeeRegion(old(countries)[i], country) ==>
        countries[i] == old(countries)[i]
    {
      countries := Recolor(countries, country, GetRegionHoverColor(country.regionUn));
    }

    /** `handleMouseLeaveCountry`: the matching entries take the base colour, the rest are kept. */
    method HandleMouseLeaveCountry(country: MapCountry)
      modifies this
      ensures |countries| == |old(countries)|
      ensures forall i :: 0 <= i < |countries| ==> SameButColours(old(countries)[i], countries[i])
      ensures forall i :: 0 <= i < |countries| && IsMatchCoffeeRegion(old(countries)[i], country) ==>
        countries[i].svg.stroke == countries[i].svg.fill == BaseColor(Classify(country.regionUn))
      ensures forall i :: 0 <= i < |countries| && !IsMatchCoffeeRegion(old(countries)[i], country) ==>
        countries[i] == old(countries)[i]
    {
      countries := Recolor(countries, country, GetRegionColor(country.regionUn));
    }
  }
}
