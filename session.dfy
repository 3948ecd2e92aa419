/** The selection state: the expressed attribute and the colour scale built from it. */
module Session {
  import opened Values
  import opened Color
  import Join

  /** The page's single piece of mutable selection state. */
  class Session {
    /** The attribute currently driving colours and bar heights. */
    var expressed: string

    constructor ()
      ensures expressed == Join.AttrArray[0]
    {
      expressed := Join.AttrArray[0];
    }

    /** `makeColorScale(data)`: the domain array holds the parsed expressed value of every
        row, NaN included, in row order; the range is the five colour classes. */
    method MakeColorScale(data: seq<Object>, parse: Parser) returns (colorScale: ColorScale)
      ensures colorScale.range == ColorClasses && |colorScale.range| == 5
      ensures |colorScale.domain| == |data|
      ensures forall i :: 0 <= i < |data| ==> colorScale.domain[i] == ParseFloat(Get(data[i], expressed), parse)
    {
      var domainArray: seq<JsNumber> := [];
      var i := 0;
      while i < |data|
        invariant 0 <= i <= |data|
        invariant |domainArray| == i
        invariant forall j :: 0 <= j < i ==> domainArray[j] == ParseFloat(Get(data[j], expressed), parse)
      {
        var val := ParseFloat(Get(data[i], expressed), parse);
        domainArray := domainArray + [val];
        i := i + 1;
      }
      colorScale := Quantile(domainArray, ColorClasses);
    }

    /** `changeAttribute(attribute, csvData)`: select the attribute and rebuild the scale. */
    method ChangeAttribute(attribute: string, csvData: seq<Object>, parse: Parser) returns (colorScale: ColorScale)
      modifies this
      ensures expressed == attribute
      ensures colorScale.range == ColorClasses && |colorScale.domain| == |csvData|
      ensures forall i :: 0 <= i < |csvData| ==> colorScale.domain[i] == ParseFloat(Get(csvData[i], attribute), parse)
    {
      expressed := attribute;
      colorScale := MakeColorScale(csvData, parse);
    }
  }
}
