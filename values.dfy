/** JavaScript values as the visualization's data logic sees them. */
module Values {

  datatype Option<+T> = None | Some(value: T)

  /** A JavaScript number: a finite value or NaN. Infinities are not modelled. */
  datatype JsNumber = Number(value: real) | NaN

  /** A property value: CSV cells are strings, joined attributes are numbers. */
  datatype Value = Text(text: string) | Num(num: JsNumber)

  /** A plain JavaScript object: a CSV row or a GeoJSON feature's `properties`. */
  type Object = map<string, Value>

  /** `parseFloat` applied to a string. Its number grammar is not modelled. */
  type Parser = string -> JsNumber

  /** The property read `o[key]`; `None` stands for `undefined`. */
  function Get(o: Object, key: string): Option<Value>
  {
    if key in o then Some(o[key]) else None
  }

  /** `parseFloat(v)`: `undefined` gives NaN, a number parses back to itself. */
  function ParseFloat(v: Option<Value>, parse: Parser): JsNumber
  {
    match v
    case None => NaN
    case Some(Text(s)) => parse(s)
    case Some(Num(n)) => n
  }

  /** JavaScript's loose equality `a == b` on property values. */
  predicate LooseEquals(a: Option<Value>, b: Option<Value>)
  {
    match (a, b)
    case (None, None) => true
    case (Some(Text(s)), Some(Text(t))) => s == t
    case (Some(Num(Number(x))), Some(Num(Number(y)))) => x == y
    case _ => false
  }
}
