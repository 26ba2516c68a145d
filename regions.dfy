/**
 * The coffee macro-region a UN region label falls in, and the colours and
 * display name attached to each macro-region.
 *
 * Every classifier of the source runs the same cascade of case-sensitive
 * substring tests on the label: "America", then "Africa", then "Asia", then
 * a default. `Classify` performs that cascade once; each getter of the
 * source is then one lookup in the tables below.
 */
module Regions {
  import opened Wrappers
  import opened Text

  datatype Region = America | Africa | Asia | Other

  const DefaultColor: string := "#ddd"
  const AfricaColor: string := "#d3a564"
  const AfricaColorAlt: string := "#ffd693"
  const AmericaColor: string := "#af855f"
  const AmericaColorAlt: string := "#e2b58d"
  const AsiaColor: string := "#563625"
  const AsiaColorAlt: string := "#84604d"

  /** The first of "America", "Africa", "Asia" that occurs in the label `region` decides. */
  function Classify(region: string): (r: Region)
    ensures r == America <==> Contains(region, "America")
    ensures r == Africa <==> !Contains(region, "America") && Contains(region, "Africa")
    ensures r == Asia <==> !Contains(region, "America") && !Contains(region, "Africa") && Contains(region, "Asia")
    ensures r == Other <==> !Contains(region, "America") && !Contains(region, "Africa") && !Contains(region, "Asia")
  {
    if Includes(region, "America") then America
    else if Includes(region, "Africa") then Africa
    else if Includes(region, "Asia") then Asia
    else Other
  }

  /** The fill and stroke colour of a coffee country of region `r`. */
  function BaseColor(r: Region): (c: string)
    ensures c == DefaultColor <==> r == Other
  {
    match r
    case America => AmericaColor
    case Africa => AfricaColor
    case Asia => AsiaColor
    case Other => DefaultColor
  }

  /** The fill and stroke colour of a hovered coffee country of region `r`. */
  function HoverColor(r: Region): (c: string)
    ensures c == DefaultColor <==> r == Other
    ensures c == BaseColor(r) <==> r == Other
  {
    match r
    case America => AmericaColorAlt
    case Africa => AfricaColorAlt
    case Asia => AsiaColorAlt
    case Other => DefaultColor
  }

  /** The coffee-region display name; the Americas show as "Latin America". */
  function DisplayName(r: Region): (n: Option<string>)
    ensures n.None? <==> r == Other
  {
    match r
    case America => Some("Latin America")
    case Africa => Some("Africa")
    case Asia => Some("Asia")
    case Other => None
  }
}
