/** The bar chart's geometry as `updateChart` sets it, and the vertical scale. */
module Chart {
  import opened Values
  import opened Color

  const LeftPadding: real := 60.0
  const RightPadding: real := 2.0
  const TopBottomPadding: real := 10.0

  /** The vertical scale's range is [RangeBottom, 0] over the domain [0, DomainTop]. */
  const RangeBottom: real := 463.0
  const DomainTop: real := 181000.0

  /** `chartWidth` for a window `innerWidth` wide. */
  function ChartWidth(innerWidth: real): real
  {
    innerWidth * 0.408
  }

  /** `chartInnerWidth`: the width left for bars between the paddings. */
  function ChartInnerWidth(innerWidth: real): real
  {
    ChartWidth(innerWidth) - LeftPadding - RightPadding
  }

  /** `yScale`: the linear scale from [0, 181000] onto [463, 0], built once. */
  function YScale(v: real): real
  {
    RangeBottom + (v - 0.0) / (DomainTop - 0.0) * (0.0 - RangeBottom)
  }

  /** The scale maps its domain's ends onto its range's ends, and bigger values higher. */
  lemma YScaleDecreasing(a: real, b: real)
    requires a < b
    ensures YScale(0.0) == RangeBottom && YScale(DomainTop) == 0.0
    ensures YScale(b) < YScale(a)
  {
  }

  /** One bar's attributes: `x`, `y`, `height` and its fill. */
  datatype Bar = Bar(x: real, y: JsNumber, height: JsNumber, fill: Color)

  /** The bar `width` set when the chart is drawn: an equal share less one pixel. */
  function BarWidth(n: nat, chartInnerWidth: real): real
    requires n > 0
  {
    chartInnerWidth / n as real - 1.0
  }

  /** `i * (chartInnerWidth / n) + leftPadding`. */
  function BarX(i: nat, n: nat, chartInnerWidth: real): real
    requires n > 0
  {
    i as real * (chartInnerWidth / n as real) + LeftPadding
  }

  /** `463 - yScale(v)`; the scale gives NaN for NaN and so does the subtraction. */
  function BarHeight(v: JsNumber, yScale: real -> real): JsNumber
  {
    match v
    case Number(x) => Number(RangeBottom - yScale(x))
    case NaN => NaN
  }

  /** `yScale(v) + topBottomPadding`. */
  function BarY(v: JsNumber, yScale: real -> real): JsNumber
  {
    match v
    case Number(x) => Number(yScale(x) + TopBottomPadding)
    case NaN => NaN
  }

  /** `updateChart(bars, n, colorScale)`: the attributes of bar `i` of the (sorted) selection,
      whose data are CSV rows; `n` is the number of bars. */
  function UpdateChart(bars: seq<Object>, expressed: string, parse: Parser, chartInnerWidth: real,
                       yScale: real -> real, colorScale: real -> Color): (r: seq<Bar>)
    requires IntoPalette(colorScale)
    ensures |r| == |bars|
  {
    seq(|bars|, i requires 0 <= i < |bars| =>
      var v := ParseFloat(Get(bars[i], expressed), parse);
      Bar(BarX(i, |bars|, chartInnerWidth), BarY(v, yScale), BarHeight(v, yScale),
          Choropleth(bars[i], expressed, parse, colorScale)))
  }

  /** Every bar with a number stands on the same baseline whatever its value and whatever the
      scale; a bar without one has NaN geometry and the fallback colour, and vice versa. */
  lemma BarsShareBaseline(bars: seq<Object>, expressed: string, parse: Parser, chartInnerWidth: real,
                          yScale: real -> real, colorScale: real -> Color)
    requires IntoPalette(colorScale)
    ensures forall i :: 0 <= i < |bars| ==>
      var bar := UpdateChart(bars, expressed, parse, chartInnerWidth, yScale, colorScale)[i];
      (bar.y.Number? <==> bar.height.Number?) &&
      (bar.y.Number? ==> bar.y.value + bar.height.value == RangeBottom + TopBottomPadding) &&
      (bar.y.NaN? <==> bar.fill == Fallback)
  {
  }

  /** Bars start at the left padding and step right by an equal share of the inner width,
      leaving exactly one pixel between neighbours. */
  lemma BarsAdvance(bars: seq<Object>, expressed: string, parse: Parser, chartInnerWidth: real,
                    yScale: real -> real, colorScale: real -> Color)
    requires IntoPalette(colorScale) && |bars| > 0
    ensures var r := UpdateChart(bars, expressed, parse, chartInnerWidth, yScale, colorScale);
      r[0].x == LeftPadding &&
      forall i :: 0 <= i < |bars| - 1 ==>
        r[i + 1].x - r[i].x == chartInnerWidth / |bars| as real &&
        r[i].x + BarWidth(|bars|, chartInnerWidth) + 1.0 == r[i + 1].x
  {
    var r := UpdateChart(bars, expressed, parse, chartInnerWidth, yScale, colorScale);
    var step := chartInnerWidth / |bars| as real;
    forall i | 0 <= i < |bars| - 1
      ensures r[i + 1].x - r[i].x == step
    {
      assert r[i + 1].x == (i as real + 1.0) * step + LeftPadding;
    }
  }

  /** In a window wide enough to leave a positive inner width, bar positions increase strictly
      with the index. */
  lemma BarsIncreasing(bars: seq<Object>, expressed: string, parse: Parser, innerWidth: real,
                       yScale: real -> real, colorScale: real -> Color)
    requires IntoPalette(colorScale) && ChartInnerWidth(innerWidth) > 0.0
    ensures var r := UpdateChart(bars, expressed, parse, ChartInnerWidth(innerWidth), yScale, colorScale);
      forall i, j :: 0 <= i < j < |bars| ==> r[i].x < r[j].x
  {
  }

  /** With the source's linear scale, a bar's height is proportional to its value, at 463
      pixels per 181000, and its top lies that height above the baseline; a value within
      [0, 181000] gives a height between 0 and 463 and a top not above the top padding. */
  lemma LinearBarsFit(bars: seq<Object>, expressed: string, parse: Parser, chartInnerWidth: real,
                      colorScale: real -> Color)
    requires IntoPalette(colorScale)
    ensures forall i :: 0 <= i < |bars| ==>
      var bar := UpdateChart(bars, expressed, parse, chartInnerWidth, YScale, colorScale)[i];
      var v := ParseFloat(Get(bars[i], expressed), parse);
      (v.Number? ==>
        bar.height == Number(v.value * RangeBottom / DomainTop) &&
        bar.y == Number(RangeBottom - v.value * RangeBottom / DomainTop + TopBottomPadding)) &&
      (v.Number? && 0.0 <= v.value <= DomainTop ==>
        bar.height.Number? && 0.0 <= bar.height.value <= RangeBottom &&
        bar.y.Number? && TopBottomPadding <= bar.y.value)
  {
  }
}
