/**
 * The coffee-data hook: the region getters, the exception table for
 * producer names, the region-match predicate and the join of the world
 * geometry with the coffee-producer list into one record per country.
 *
 * The two bundled datasets are inputs here, and so is the path generator:
 * it is a function from a feature to an optional path string, and an absent
 * path becomes the empty string.
 */
module CoffeeData {
  import opened Wrappers
  import opened Text
  import opened Regions

  /** One row of the producer dataset; every field is text. */
  datatype CoffeeDistributor = CoffeeDistributor(
    rank: string, country: string, bags: string, metricTons: string, pounds: string)

  datatype TasteProfile = TasteProfile(summary: string)

  /** The properties of one world-geometry feature that the join reads. */
  datatype FeatureProperties = FeatureProperties(
    admin: string, continent: string, regionUn: string, regionWb: string, subRegion: string)

  /** A world-geometry feature; the geometry `G` is only ever handed to the path generator. */
  datatype Feature<G> = Feature(properties: FeatureProperties, geometry: G)

  /** The SVG attributes of a country's path: its outline and its two colours. */
  datatype Svg = Svg(d: string, stroke: string, fill: string)

  datatype MapCountry = MapCountry(
    coffeeRegionName: Option<string>,
    countryName: string,
    continent: string,
    isCoffeeRegion: bool,
    regionUn: string,
    regionWb: string,
    subRegion: string,
    tasteProfile: Option<TasteProfile>,
    svg: Svg)

  /** Producer-dataset spellings that differ from the geometry dataset's. */
  const ExceptionCountryNames: map<string, string> :=
    map["Tanzania" := "United Republic of Tanzania", "Timor Leste" := "East Timor"]

  /** `exceptionCountryNames[c] ?? c`: the geometry-dataset name of producer country `c`. */
  function ResolvedName(country: string): (n: string)
  {
    if country in ExceptionCountryNames then ExceptionCountryNames[country] else country
  }

  /** The two remapped spellings, and every other name left as it is. */
  lemma ResolvedNameTable(country: string)
    ensures ResolvedName("Tanzania") == "United Republic of Tanzania"
    ensures ResolvedName("Timor Leste") == "East Timor"
    ensures country != "Tanzania" && country != "Timor Leste" ==> ResolvedName(country) == country
  {
  }

  /** Some producer's resolved name is `name`. */
  ghost predicate IsProducer(producers: seq<CoffeeDistributor>, name: string)
  {
    exists i :: 0 <= i < |producers| && ResolvedName(producers[i].country) == name
  }

  /** `v` is the last producer whose resolved name is `name`. */
  ghost predicate LastProducer(producers: seq<CoffeeDistributor>, name: string, v: CoffeeDistributor)
  {
    exists i :: 0 <= i < |producers| && producers[i] == v && ResolvedName(producers[i].country) == name
      && forall j :: i < j < |producers| ==> ResolvedName(producers[j].country) != name
  }

  /**
   * The producer dictionary: a left fold over the producers inserting each
   * under its resolved name, so a later record overwrites an earlier one.
   * `DictKeys` and `DictLast` state what it holds.
   */
  function DistributorDict(producers: seq<CoffeeDistributor>): (d: map<string, CoffeeDistributor>)
    ensures |producers| > 0 ==> ResolvedName(producers[|producers| - 1].country) in d
  {
    if |producers| == 0 then map[]
    else
      var c := producers[|producers| - 1];
      DistributorDict(producers[..|producers| - 1])[ResolvedName(c.country) := c]
  }

  /** A name is a key of the dictionary exactly when some producer resolves to it. */
  lemma {:induction false} DictKeys(producers: seq<CoffeeDistributor>, name: string)
    ensures name in DistributorDict(producers) <==> IsProducer(producers, name)
    decreases |producers|
  {
    if |producers| > 0 {
      var n := |producers| - 1;
      var init := producers[..n];
      var c := producers[n];
      assert DistributorDict(producers) == DistributorDict(init)[ResolvedName(c.country) := c];
      DictKeys(init, name);
      if name == ResolvedName(c.country) {
        assert ResolvedName(producers[n].country) == name;
      } else {
        if IsProducer(producers, name) {
          var i :| 0 <= i < |producers| && ResolvedName(producers[i].country) == name;
          assert i < n && init[i] == producers[i];
        }
        if IsProducer(init, name) {
          var i :| 0 <= i < n && ResolvedName(init[i].country) == name;
          assert init[i] == producers[i];
        }
      }
    }
  }

  /** The value under a key is the last producer resolving to that key. */
  lemma {:induction false} DictLast(producers: seq<CoffeeDistributor>, name: string)
    requires name in DistributorDict(producers)
    ensures LastProducer(producers, name, DistributorDict(producers)[name])
    decreases |producers|
  {
    var n := |producers| - 1;
    var init := producers[..n];
    var c := producers[n];
    assert DistributorDict(producers) == DistributorDict(init)[ResolvedName(c.country) := c];
    if name == ResolvedName(c.country) {
      assert producers[n] == c;
    } else {
      DictLast(init, name);
      var v := DistributorDict(init)[name];
      var i :| 0 <= i < n && init[i] == v && ResolvedName(init[i].country) == name
        && forall j :: i < j < n ==> ResolvedName(init[j].country) != name;
      assert producers[i] == v && ResolvedName(producers[i].country) == name;
      forall j | i < j < |producers| ensures ResolvedName(producers[j].country) != name {
        if j < n {
          assert producers[j] == init[j];
        }
      }
    }
  }

  /** `DictKeys` and `DictLast` for every name at once. */
  lemma DictSpec(producers: seq<CoffeeDistributor>)
    ensures forall name :: name in DistributorDict(producers) <==> IsProducer(producers, name)
    ensures forall name :: name in DistributorDict(producers) ==>
      LastProducer(producers, name, DistributorDict(producers)[name])
  {
    forall name ensures name in DistributorDict(producers) <==> IsProducer(producers, name) {
      DictKeys(producers, name);
    }
    forall name | name in DistributorDict(producers)
      ensures LastProducer(producers, name, DistributorDict(producers)[name])
    {
      DictLast(producers, name);
    }
  }

  /** `getCoffeeRegionName`. */
  function GetCoffeeRegionName(region: string): (n: Option<string>)
    ensures n == DisplayName(Classify(region))
  {
    if Includes(region, "America") then Some("Latin America")
    else if Includes(region, "Africa") then Some("Africa")
    else if Includes(region, "Asia") then Some("Asia")
    else None
  }

  /** `getRegionColor`. */
  function GetRegionColor(region: string): (c: string)
    ensures c == BaseColor(Classify(region))
  {
    if Includes(region, "America") then AmericaColor
    else if Includes(region, "Africa") then AfricaColor
    else if Includes(region, "Asia") then AsiaColor
    else DefaultColor
  }

  /** `getRegionHoverColor`. */
  function GetRegionHoverColor(region: string): (c: string)
    ensures c == HoverColor(Classify(region))
  {
    if Includes(region, "America") then AmericaColorAlt
    else if Includes(region, "Africa") then AfricaColorAlt
    else if Includes(region, "Asia") then AsiaColorAlt
    else DefaultColor
  }

  /** The taste profile of each macro-region in this version of the map. */
  function Taste(r: Region): (p: Option<TasteProfile>)
    ensures p.None? <==> r == Other
  {
    match r
    case America => Some(TasteProfile("Chocolate, Nutty, Caramel"))
    case Africa => Some(TasteProfile("Fruity, Floral, Sweet"))
    case Asia => Some(TasteProfile("Dark Chocolate, Earthy, Herbal, Spice"))
    case Other => None
  }

  /** `getRegionTasteProfile`. */
  function GetRegionTasteProfile(region: string): (p: Option<TasteProfile>)
    ensures p == Taste(Classify(region))
  {
    if Includes(region, "America") then Some(TasteProfile("Chocolate, Nutty, Caramel"))
    else if Includes(region, "Africa") then Some(TasteProfile("Fruity, Floral, Sweet"))
    else if Includes(region, "Asia") then Some(TasteProfile("Dark Chocolate, Earthy, Herbal, Spice"))
    else None
  }

  /**
   * A label that mentions "America" is Latin America, whatever else it
   * mentions: the first test of the cascade wins.
   */
  lemma AmericaFirst(region: string)
    requires Contains(region, "America")
    ensures GetRegionColor(region) == "#af855f" && GetRegionHoverColor(region) == "#e2b58d"
    ensures GetCoffeeRegionName(region) == Some("Latin America")
    ensures GetRegionTasteProfile(region) == Some(TasteProfile("Chocolate, Nutty, Caramel"))
  {
  }

  /** A label that mentions no coffee region gets the neutral colour and no name or profile. */
  lemma NoRegionDefaults(region: string)
    requires !Contains(region, "America") && !Contains(region, "Africa") && !Contains(region, "Asia")
    ensures GetRegionColor(region) == "#ddd" && GetRegionHoverColor(region) == "#ddd"
    ensures GetCoffeeRegionName(region).None? && GetRegionTasteProfile(region).None?
  {
  }

  /**
   * The four getters always take the same branch: no region name, no taste
   * profile, and equal neutral base and hover colours go together.
   */
  lemma GettersAgree(region: string)
    ensures GetCoffeeRegionName(region).None? <==> GetRegionTasteProfile(region).None?
    ensures GetRegionTasteProfile(region).None? <==> GetRegionColor(region) == GetRegionHoverColor(region)
    ensures GetRegionColor(region) == GetRegionHoverColor(region) <==> GetRegionColor(region) == DefaultColor
  {
  }

  /**
   * `isMatchCoffeeRegion`: never true when either side is not a coffee
   * country; otherwise true exactly when the UN regions are equal.
   */
  function IsMatchCoffeeRegion(source: MapCountry, target: MapCountry): (b: bool)
    ensures !source.isCoffeeRegion || !target.isCoffeeRegion ==> !b
    ensures source.isCoffeeRegion && target.isCoffeeRegion ==> (b <==> source.regionUn == target.regionUn)
  {
    source.isCoffeeRegion
      && target.isCoffeeRegion
      && source.regionUn == target.regionUn
  }

  lemma MatchSymmetric(a: MapCountry, b: MapCountry)
    ensures IsMatchCoffeeRegion(a, b) == IsMatchCoffeeRegion(b, a)
  {
  }

  /** The record the join builds for one feature (the callback of `geoJson.features.map`). */
  function BuildCountry<G>(
    dict: map<string, CoffeeDistributor>, feature: Feature<G>, pathOf: Feature<G> -> Option<string>): (m: MapCountry)
  {
    var p := feature.properties;
    var svgProps := Svg(pathOf(feature).GetOr(""), DefaultColor, DefaultColor);
    var isCoffeeRegion := p.admin in dict;
    var svgProps := if isCoffeeRegion
      then svgProps.(stroke := GetRegionColor(p.regionUn), fill := GetRegionColor(p.regionUn))
      else svgProps;
    MapCountry(
      GetCoffeeRegionName(p.regionUn),
      p.admin,
      p.continent,
      isCoffeeRegion,
      p.regionUn,
      p.regionWb,
      p.subRegion,
      GetRegionTasteProfile(p.regionUn),
      svgProps)
  }

  /**
   * What the join promises of the record `m` built from feature properties
   * `p`: the names copied verbatim, the coffee flag given, name and taste
   * profile from the UN region alone, the path given, and both colours the
   * region's base colour for a coffee country and the neutral colour
   * otherwise.
   */
  ghost predicate Describes(m: MapCountry, p: FeatureProperties, isCoffee: bool, path: string)
  {
    && m.countryName == p.admin
    && m.continent == p.continent
    && m.regionUn == p.regionUn
    && m.regionWb == p.regionWb
    && m.subRegion == p.subRegion
    && m.isCoffeeRegion == isCoffee
    && m.coffeeRegionName == DisplayName(Classify(p.regionUn))
    && m.tasteProfile == Taste(Classify(p.regionUn))
    && m.svg.d == path
    && m.svg.stroke == m.svg.fill
    && m.svg.fill == (if isCoffee then BaseColor(Classify(p.regionUn)) else DefaultColor)
  }

  /**
   * `constructContries`: one record per feature, in feature order. A country
   * is a coffee country exactly when some producer's resolved name is its
   * admin name.
   */
  function ConstructCountries<G>(
    producers: seq<CoffeeDistributor>, features: seq<Feature<G>>, pathOf: Feature<G> -> Option<string>)
    : (r: seq<MapCountry>)
    ensures |r| == |features|
    ensures forall i :: 0 <= i < |features| ==>
      Describes(r[i], features[i].properties, IsProducer(producers, features[i].properties.admin),
                if pathOf(features[i]).Some? then pathOf(features[i]).value else "")
  {
    var dict := DistributorDict(producers);
    DictSpec(producers);
    seq(|features|, i requires 0 <= i < |features| => BuildCountry(dict, features[i], pathOf))
  }

  /**
   * The producer "Tanzania" makes the feature "United Republic of Tanzania" a
   * coffee country, and "Timor Leste" does the same for "East Timor".
   */
  lemma ExceptionNamesJoin<G>(
    producers: seq<CoffeeDistributor>, features: seq<Feature<G>>, pathOf: Feature<G> -> Option<string>, i: nat)
    requires i < |features|
    requires exists j :: (0 <= j < |producers| && producers[j].country in ExceptionCountryNames
      && ExceptionCountryNames[producers[j].country] == features[i].properties.admin)
    ensures ConstructCountries(producers, features, pathOf)[i].isCoffeeRegion
  {
  }

  /** A non-coffee country still carries the name and taste profile of its UN region. */
  lemma TasteIndependentOfProducers<G>(
    producers: seq<CoffeeDistributor>, features: seq<Feature<G>>, pathOf: Feature<G> -> Option<string>, i: nat)
    requires i < |features|
    ensures ConstructCountries(producers, features, pathOf)[i].tasteProfile
      == GetRegionTasteProfile(features[i].properties.regionUn)
    ensures ConstructCountries(producers, features, pathOf)[i].coffeeRegionName
      == GetCoffeeRegionName(features[i].properties.regionUn)
  {
  }
}
