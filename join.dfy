/** The region-attribute join: CSV rows copied into GeoJSON features by name. */
module Join {
  import opened Values

  /** The fixed list of attributes (years) copied by the join. */
  const AttrArray: seq<string> := ["2010", "2011", "2012", "2013", "2014", "2015", "2016"]

  /** A GeoJSON feature; only its `properties` object is read or written here. */
  class Feature {
    var properties: Object

    constructor (properties: Object)
      ensures this.properties == properties
    {
      this.properties := properties;
    }
  }

  /** The join key `o.name`. */
  function NameKey(o: Object): Option<Value>
  {
    Get(o, "name")
  }

  /** `geojsonKey == csvKey`. */
  predicate Matches(props: Object, row: Object)
  {
    LooseEquals(NameKey(props), NameKey(row))
  }

  /** The value written for `attr`: `parseFloat(row[attr])`. */
  function AttrValue(row: Object, attr: string, parse: Parser): Value
  {
    Num(ParseFloat(Get(row, attr), parse))
  }

  /** `props` after `props[attr] = parseFloat(row[attr])` for each `attr` of `attrs` in turn. */
  function Assigned(props: Object, row: Object, attrs: seq<string>, parse: Parser): (q: Object)
    ensures q.Keys == props.Keys + (set a | a in attrs)
    ensures forall k :: k in q ==> q[k] == if k in attrs then AttrValue(row, k, parse) else props[k]
    decreases |attrs|
  {
    if attrs == [] then props
    else
      var last := attrs[|attrs| - 1];
      Assigned(props, row, attrs[..|attrs| - 1], parse)[last := AttrValue(row, last, parse)]
  }

  /** One feature's properties after the inner scan meets one CSV row. */
  function JoinRow(props: Object, row: Object, attrs: seq<string>, parse: Parser): Object
  {
    if Matches(props, row) then Assigned(props, row, attrs, parse) else props
  }

  /** One feature's properties after the rows of `rows` have been scanned in order. */
  function Joined(props: Object, rows: seq<Object>, attrs: seq<string>, parse: Parser): Object
    decreases |rows|
  {
    if rows == [] then props
    else JoinRow(Joined(props, rows[..|rows| - 1], attrs, parse), rows[|rows| - 1], attrs, parse)
  }

  /** Copying the attributes of a second row overwrites everything the first copy wrote. */
  lemma AssignedTwice(props: Object, first: Object, second: Object, attrs: seq<string>, parse: Parser)
    ensures Assigned(Assigned(props, first, attrs, parse), second, attrs, parse)
         == Assigned(props, second, attrs, parse)
  {
    var mid := Assigned(props, first, attrs, parse);
    var lhs := Assigned(mid, second, attrs, parse);
    var rhs := Assigned(props, second, attrs, parse);
    assert lhs.Keys == rhs.Keys;
    forall k | k in lhs
      ensures lhs[k] == rhs[k]
    {
      if k !in attrs {
        assert lhs[k] == mid[k] == props[k];
      }
    }
  }

  /** The join never changes a feature's name key, as `name` is not an attribute. */
  lemma {:induction false} JoinedKeepsName(props: Object, rows: seq<Object>, attrs: seq<string>, parse: Parser)
    requires "name" !in attrs
    ensures NameKey(Joined(props, rows, attrs, parse)) == NameKey(props)
    decreases |rows|
  {
    if rows != [] {
      JoinedKeepsName(props, rows[..|rows| - 1], attrs, parse);
    }
  }

  /** Copying a row's attributes after the join gives the same as copying them into the original. */
  lemma {:induction false} AssignedAfterJoined(props: Object, rows: seq<Object>, row: Object, attrs: seq<string>, parse: Parser)
    ensures Assigned(Joined(props, rows, attrs, parse), row, attrs, parse) == Assigned(props, row, attrs, parse)
    decreases |rows|
  {
    if rows != [] {
      var before := Joined(props, rows[..|rows| - 1], attrs, parse);
      AssignedAfterJoined(props, rows[..|rows| - 1], row, attrs, parse);
      if Matches(before, rows[|rows| - 1]) {
        AssignedTwice(before, rows[|rows| - 1], row, attrs, parse);
      }
    }
  }

  /** A feature that no row matches keeps its properties unchanged. */
  lemma {:induction false} JoinedUnmatched(props: Object, rows: seq<Object>, attrs: seq<string>, parse: Parser)
    requires forall k :: 0 <= k < |rows| ==> !Matches(props, rows[k])
    ensures Joined(props, rows, attrs, parse) == props
    decreases |rows|
  {
    if rows != [] {
      JoinedUnmatched(props, rows[..|rows| - 1], attrs, parse);
    }
  }

  /** A matched feature ends up with exactly the attributes of the LAST matching row. */
  lemma {:induction false} JoinedLastMatch(props: Object, rows: seq<Object>, k: nat, attrs: seq<string>, parse: Parser)
    requires "name" !in attrs
    requires k < |rows| && Matches(props, rows[k])
    requires forall j :: k < j < |rows| ==> !Matches(props, rows[j])
    ensures Joined(props, rows, attrs, parse) == Assigned(props, rows[k], attrs, parse)
    decreases |rows|
  {
    var prefix := rows[..|rows| - 1];
    JoinedKeepsName(props, prefix, attrs, parse);
    if k == |rows| - 1 {
      AssignedAfterJoined(props, prefix, rows[k], attrs, parse);
    } else {
      JoinedLastMatch(props, prefix, k, attrs, parse);
    }
  }

  /** Join completeness for the source's attribute list: a matched feature holds the parsed
      value of every attribute of its last matching row, and every other property is as it was. */
  lemma JoinCompleteness(props: Object, rows: seq<Object>, k: nat, parse: Parser)
    requires k < |rows| && Matches(props, rows[k])
    requires forall j :: k < j < |rows| ==> !Matches(props, rows[j])
    ensures forall a :: a in AttrArray ==>
      a in Joined(props, rows, AttrArray, parse) &&
      Joined(props, rows, AttrArray, parse)[a] == Num(ParseFloat(Get(rows[k], a), parse))
    ensures forall key :: key !in AttrArray ==>
      (key in Joined(props, rows, AttrArray, parse) <==> key in props) &&
      (key in props ==> Joined(props, rows, AttrArray, parse)[key] == props[key])
  {
    JoinedLastMatch(props, rows, k, AttrArray, parse);
  }

  /** The join writes only attribute keys: every other property keeps its presence and value. */
  lemma {:induction false} JoinedWritesOnlyAttributes(props: Object, rows: seq<Object>, attrs: seq<string>, parse: Parser)
    ensures Joined(props, rows, attrs, parse).Keys <= props.Keys + (set a | a in attrs)
    ensures forall key :: key !in attrs ==>
      (key in Joined(props, rows, attrs, parse) <==> key in props) &&
      (key in props ==> Joined(props, rows, attrs, parse)[key] == props[key])
    decreases |rows|
  {
    if rows != [] {
      JoinedWritesOnlyAttributes(props, rows[..|rows| - 1], attrs, parse);
    }
  }

  /** One step of the loop: whether the current properties already saw row `i` or not,
      scanning row `i` leaves them as `Joined` over rows `0..i`. */
  lemma JoinRowStep(props: Object, rows: seq<Object>, i: nat, current: Object, attrs: seq<string>, parse: Parser)
    requires "name" !in attrs
    requires i < |rows|
    requires current == Joined(props, rows[..i], attrs, parse) || current == Joined(props, rows[..i + 1], attrs, parse)
    ensures JoinRow(current, rows[i], attrs, parse) == Joined(props, rows[..i + 1], attrs, parse)
  {
    assert rows[..i + 1][..i] == rows[..i];
    var before := Joined(props, rows[..i], attrs, parse);
    if current != before {
      JoinedKeepsName(props, rows[..i], attrs, parse);
      if Matches(before, rows[i]) {
        AssignedTwice(before, rows[i], rows[i], attrs, parse);
      }
    }
  }

  /** Writing one more attribute extends `Assigned` by one map update. */
  lemma AssignedSnoc(props: Object, row: Object, attrs: seq<string>, t: nat, parse: Parser)
    requires t < |attrs|
    ensures Assigned(props, row, attrs[..t + 1], parse)
         == Assigned(props, row, attrs[..t], parse)[attrs[t] := AttrValue(row, attrs[t], parse)]
  {
    assert attrs[..t + 1][..t] == attrs[..t];
  }

  /** `JoinRowStep` for every feature object at once. */
  lemma JoinRowSteps(orig: map<Feature, Object>, rows: seq<Object>, i: nat, attrs: seq<string>, parse: Parser,
                     seen: map<Feature, Object>, done: map<Feature, Object>)
    requires "name" !in attrs && i < |rows|
    requires seen == map f | f in orig :: Joined(orig[f], rows[..i], attrs, parse)
    requires done == map f | f in orig :: Joined(orig[f], rows[..i + 1], attrs, parse)
    ensures forall f :: f in seen ==>
      JoinRow(seen[f], rows[i], attrs, parse) == done[f] && JoinRow(done[f], rows[i], attrs, parse) == done[f]
  {
    forall f | f in seen
      ensures JoinRow(seen[f], rows[i], attrs, parse) == done[f]
      ensures JoinRow(done[f], rows[i], attrs, parse) == done[f]
    {
      JoinRowStep(orig[f], rows, i, seen[f], attrs, parse);
      JoinRowStep(orig[f], rows, i, done[f], attrs, parse);
    }
  }

  /** The `attrArray.forEach` callback run over one matched feature. */
  method AssignAttributes(feature: Feature, csvState: Object, attrs: seq<string>, parse: Parser)
    modifies feature
    ensures feature.properties == Assigned(old(feature.properties), csvState, attrs, parse)
  {
    ghost var orig := feature.properties;
    var t := 0;
    while t < |attrs|
      invariant 0 <= t <= |attrs|
      invariant feature.properties == Assigned(orig, csvState, attrs[..t], parse)
    {
      var attr := attrs[t];
      var val := ParseFloat(Get(csvState, attr), parse);
      AssignedSnoc(orig, csvState, attrs, t, parse);
      feature.properties := feature.properties[attr := Num(val)];
      t := t + 1;
    }
    assert attrs[..t] == attrs;
  }

  /** The body of the inner loop of `joinData` for one feature. */
  method ScanFeature(feature: Feature, csvState: Object, csvKey: Option<Value>, attrs: seq<string>, parse: Parser,
                     ghost seen: Object, ghost done: Object)
    requires csvKey == NameKey(csvState)
    requires JoinRow(seen, csvState, attrs, parse) == done && JoinRow(done, csvState, attrs, parse) == done
    requires feature.properties == seen || feature.properties == done
    modifies feature
    ensures feature.properties == done
  {
    var geojsonProps := feature.properties;
    var geojsonKey := NameKey(geojsonProps);
    if LooseEquals(geojsonKey, csvKey) {
      AssignAttributes(feature, csvState, attrs, parse);
    }
  }

  /** The features an array holds. */
  ghost function Features(statesAll: array<Feature>): set<Feature>
    reads statesAll
  {
    set a | 0 <= a < statesAll.Length :: statesAll[a]
  }

  /** The inner loop of `joinData`: scan every feature against one CSV row. Each feature
      object holds `seen[f]` or already `done[f]`, and scanning the row takes either to
      `done[f]`; an object listed twice in the array is simply scanned twice. */
  method ScanFeatures(statesAll: array<Feature>, csvState: Object, attrs: seq<string>, parse: Parser,
                      ghost seen: map<Feature, Object>, ghost done: map<Feature, Object>)
    requires seen.Keys == done.Keys == Features(statesAll)
    requires forall f :: f in seen ==>
      JoinRow(seen[f], csvState, attrs, parse) == done[f] && JoinRow(done[f], csvState, attrs, parse) == done[f]
    requires forall f :: f in seen ==> f.properties == seen[f]
    modifies Features(statesAll)
    ensures forall f :: f in done ==> f.properties == done[f]
  {
    var csvKey := NameKey(csvState);
    var a := 0;
    while a < statesAll.Length
      invariant 0 <= a <= statesAll.Length
      invariant forall b :: 0 <= b < a ==> statesAll[b].properties == done[statesAll[b]]
      invariant forall f :: f in seen ==> f.properties == seen[f] || f.properties == done[f]
    {
      var feature := statesAll[a];
      ScanFeature(feature, csvState, csvKey, attrs, parse, seen[feature], done[feature]);
      a := a + 1;
    }
  }

  /** One iteration of the outer loop of `joinData`: features joined with rows `0..i-1`
      come out joined with rows `0..i`. */
  method JoinRowIntoFeatures(statesAll: array<Feature>, csvData: seq<Object>, i: nat, attrs: seq<string>, parse: Parser,
                             ghost orig: map<Feature, Object>)
    requires "name" !in attrs && i < |csvData| && orig.Keys == Features(statesAll)
    requires forall f :: f in orig ==> f.properties == Joined(orig[f], csvData[..i], attrs, parse)
    modifies Features(statesAll)
    ensures forall f :: f in orig ==> f.properties == Joined(orig[f], csvData[..i + 1], attrs, parse)
  {
    ghost var seen := map f | f in orig :: Joined(orig[f], csvData[..i], attrs, parse);
    ghost var done := map f | f in orig :: Joined(orig[f], csvData[..i + 1], attrs, parse);
    JoinRowSteps(orig, csvData, i, attrs, parse, seen, done);
    ScanFeatures(statesAll, csvData[i], attrs, parse, seen, done);
  }

  /** `joinData`: for each CSV row, scan every feature and copy the row's attributes
      into the features whose name matches. Returns the same array. */
  method JoinData(statesAll: array<Feature>, csvData: seq<Object>, parse: Parser) returns (joined: array<Feature>)
    modifies Features(statesAll)
    ensures joined == statesAll
    ensures forall a :: 0 <= a < statesAll.Length ==>
      statesAll[a].properties == Joined(old(statesAll[a].properties), csvData, AttrArray, parse)
  {
    var attrs := AttrArray;
    ghost var orig := map f | f in Features(statesAll) :: f.properties;
    var i := 0;
    while i < |csvData|
      invariant 0 <= i <= |csvData|
      invariant forall f :: f in orig ==> f.properties == Joined(orig[f], csvData[..i], attrs, parse)
    {
      JoinRowIntoFeatures(statesAll, csvData, i, attrs, parse, orig);
      i := i + 1;
    }
    assert csvData[..i] == csvData;
    forall a | 0 <= a < statesAll.Length
      ensures statesAll[a].properties == Joined(old(statesAll[a].properties), csvData, AttrArray, parse)
    {
      assert statesAll[a] in orig;
    }
    joined := statesAll;
  }
}
