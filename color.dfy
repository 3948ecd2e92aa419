/** Colour classes, the quantile colour scale and the fallback colouring `choropleth`. */
module Color {
  import opened Values
  import opened Join

  type Color = string

  /** The five colour classes, light to dark, that the quantile scale maps onto. */
  const ColorClasses: seq<Color> := ["#f2f0f7", "#cbc9e2", "#9e9ac8", "#756bb1", "#54278f"]

  /** The neutral grey used for a missing or non-numeric value. */
  const Fallback: Color := "#CCC"

  /** A quantile scale as built: its domain array and its range. How d3 maps a value onto
      the range is not modelled; a colouring is passed around as a function instead. */
  datatype ColorScale = Quantile(domain: seq<JsNumber>, range: seq<Color>)

  /** What every evaluation of a quantile scale with range `ColorClasses` satisfies. */
  ghost predicate IntoPalette(colorScale: real -> Color)
  {
    forall v :: colorScale(v) in ColorClasses
  }

  /** `choropleth(props, colorScale)`: the scale's colour for a number, grey otherwise. */
  function Choropleth(props: Object, expressed: string, parse: Parser, colorScale: real -> Color): (c: Color)
    requires IntoPalette(colorScale)
    ensures c == Fallback <==> ParseFloat(Get(props, expressed), parse) == NaN
    ensures c != Fallback ==> c in ColorClasses && c == colorScale(ParseFloat(Get(props, expressed), parse).value)
  {
    var val := ParseFloat(Get(props, expressed), parse);
    if val.Number? then colorScale(val.value) else Fallback
  }

  /** The map and the chart agree: after the join, a region whose last matching CSV row is
      `rows[k]` is coloured exactly as that row's bar, for any expressed attribute. */
  lemma JoinedRegionMatchesBar(props: Object, rows: seq<Object>, k: nat, expressed: string, parse: Parser,
                               colorScale: real -> Color)
    requires IntoPalette(colorScale) && expressed in AttrArray
    requires k < |rows| && Matches(props, rows[k])
    requires forall j :: k < j < |rows| ==> !Matches(props, rows[j])
    ensures Choropleth(Joined(props, rows, AttrArray, parse), expressed, parse, colorScale)
      == Choropleth(rows[k], expressed, parse, colorScale)
  {
    JoinCompleteness(props, rows, k, parse);
  }
}
