/** Hover highlighting: the stroke of every element classed by a region's name is set on
    `highlight` and restored from the element's own default-style descriptor on `dehighlight`. */
module Highlight {
  import opened Values

  /** An inline stroke style: `stroke` and `stroke-width`. */
  datatype Style = Style(stroke: string, strokeWidth: string)

  const HighlightStyle: Style := Style("#e2ff07", "5")

  /** The descriptors embedded in a bar's and in a region path's `desc` child. */
  const BarDescriptor: Style := Style("none", "0px")
  const StateDescriptor: Style := Style("#000", "0.5px")

  datatype Kind = BarElement | StateElement

  /** A styled element: a chart bar or a map region path, drawn for region `region`, with the
      default style parsed from its `desc` child. */
  datatype Element = Element(kind: Kind, region: string, desc: Style)

  /** The descriptor each kind of element is drawn with. */
  function DrawnDescriptor(kind: Kind): Style
  {
    match kind
    case BarElement => BarDescriptor
    case StateElement => StateDescriptor
  }

  /** The element's `class` attribute: `"bar " + name` or `"states " + name`. */
  function ClassAttr(e: Element): string
  {
    (if e.kind == BarElement then "bar " else "states ") + e.region
  }

  /** `name` occurs in `attr` at `i` as a whole space-separated token. */
  predicate TokenAt(attr: string, name: string, i: int)
  {
    0 <= i && i + |name| <= |attr| && attr[i..i + |name|] == name &&
    (i == 0 || attr[i - 1] == ' ') && (i + |name| == |attr| || attr[i + |name|] == ' ')
  }

  /** Selection by `d3.selectAll("." + name)` AS WRITTEN: the element has `name` among its
      class tokens. A name with a space makes a descendant selector, which selects no
      bar or region path. */
  predicate SelectsAsWritten(name: string, e: Element)
  {
    name != "" && ' ' !in name && exists i | 0 <= i <= |ClassAttr(e)| :: TokenAt(ClassAttr(e), name, i)
  }

  /** A name that ends a class attribute after a space is one of its tokens. */
  lemma TokenAtEnd(prefix: string, name: string)
    requires |prefix| > 0 && prefix[|prefix| - 1] == ' '
    ensures TokenAt(prefix + name, name, |prefix|)
  {
    assert (prefix + name)[|prefix|..] == name;
  }

  /** Hovering "Virginia" also selects the path and the bar of "West Virginia", whose class
      attribute holds the token "Virginia". */
  lemma VirginiaSelectsWestVirginia(kind: Kind, desc: Style)
    ensures SelectsAsWritten("Virginia", Element(kind, "West Virginia", desc))
  {
    var name := "Virginia";
    assert "West Virginia" == "West " + name;
    assert ' ' !in name;
    var e := Element(kind, "West Virginia", desc);
    var prefix := if kind == BarElement then "bar " else "states ";
    assert ClassAttr(e) == prefix + ("West " + name) == (prefix + "West ") + name;
    TokenAtEnd(prefix + "West ", name);
    assert TokenAt(ClassAttr(e), name, |prefix + "West "|);
  }

  /** Hovering a region with a two-word name selects none of its own shapes. */
  lemma MultiWordNameSelectsNothing(kind: Kind, desc: Style)
    ensures !SelectsAsWritten("New York", Element(kind, "New York", desc))
  {
    assert "New York"[3] == ' ';
  }

  /** The elements a `d3.selectAll` for a hovered region picks: by class token, as the source
      selects, or by the region the element was drawn for, as intended. */
  datatype Selection = ByClassToken(name: string) | ByRegion(name: string)

  predicate Picks(sel: Selection, e: Element)
  {
    match sel
    case ByClassToken(name) => SelectsAsWritten(name, e)
    case ByRegion(name) => e.region == name
  }

  /** The styles after `highlight` sets the highlight stroke on the selection. */
  function WithHighlight(elements: seq<Element>, inline: seq<Option<Style>>, sel: Selection): seq<Option<Style>>
    requires |inline| == |elements|
  {
    seq(|inline|, i requires 0 <= i < |inline| =>
      if Picks(sel, elements[i]) then Some(HighlightStyle) else inline[i])
  }

  /** The styles after `dehighlight`: each selected element takes its own descriptor. */
  function WithDefaults(elements: seq<Element>, inline: seq<Option<Style>>, sel: Selection): seq<Option<Style>>
    requires |inline| == |elements|
  {
    seq(|inline|, i requires 0 <= i < |inline| =>
      if Picks(sel, elements[i]) then Some(elements[i].desc) else inline[i])
  }

  /** Highlight then dehighlight, for any selection: every selected element shows the stroke
      of its own descriptor (none/0px for a bar, #000/0.5px for a region path as drawn), and
      every other element is as before. */
  lemma HoverRestores(elements: seq<Element>, inline: seq<Option<Style>>, sel: Selection)
    requires |inline| == |elements|
    ensures forall i :: 0 <= i < |elements| ==>
      var after := WithDefaults(elements, WithHighlight(elements, inline, sel), sel)[i];
      (Picks(sel, elements[i]) ==> after == Some(elements[i].desc)) &&
      (Picks(sel, elements[i]) && elements[i].desc == DrawnDescriptor(elements[i].kind) ==>
        after == Some(DrawnDescriptor(elements[i].kind))) &&
      (!Picks(sel, elements[i]) ==> after == inline[i])
  {
  }

  /** As written, hovering "Virginia" puts the highlight stroke on West Virginia's shapes too,
      and the mouse-out then resets them to their descriptors. */
  lemma VirginiaHoverTouchesWestVirginia(elements: seq<Element>, inline: seq<Option<Style>>, i: nat)
    requires |inline| == |elements| && i < |elements| && elements[i].region == "West Virginia"
    ensures WithHighlight(elements, inline, ByClassToken("Virginia"))[i] == Some(HighlightStyle)
    ensures WithDefaults(elements, WithHighlight(elements, inline, ByClassToken("Virginia")), ByClassToken("Virginia"))[i]
      == Some(elements[i].desc)
  {
    VirginiaSelectsWestVirginia(elements[i].kind, elements[i].desc);
  }

  /** As written, hovering a region whose name holds a space changes no stroke at all, on the
      mouse-over or on the mouse-out. */
  lemma SpacedNameChangesNothing(elements: seq<Element>, inline: seq<Option<Style>>, name: string)
    requires |inline| == |elements| && ' ' in name
    ensures WithHighlight(elements, inline, ByClassToken(name)) == inline
    ensures WithDefaults(elements, inline, ByClassToken(name)) == inline
  {
  }

  /** With the intended selection, hovering a region's shape or bar highlights exactly that
      region's elements. */
  lemma HighlightSelectsRegion(elements: seq<Element>, inline: seq<Option<Style>>, name: string)
    requires |inline| == |elements|
    ensures forall i :: 0 <= i < |elements| ==>
      (elements[i].region == name ==> WithHighlight(elements, inline, ByRegion(name))[i] == Some(HighlightStyle)) &&
      (elements[i].region != name ==> WithHighlight(elements, inline, ByRegion(name))[i] == inline[i])
  {
  }

  /** With the intended selection, a hover over any region, whatever its name, restores that
      region's own shapes to their descriptors and leaves every other shape as before. */
  lemma HoverRestoresRegion(elements: seq<Element>, inline: seq<Option<Style>>, name: string)
    requires |inline| == |elements|
    ensures forall i :: 0 <= i < |elements| ==>
      var after := WithDefaults(elements, WithHighlight(elements, inline, ByRegion(name)), ByRegion(name))[i];
      (elements[i].region == name ==> after == Some(elements[i].desc)) &&
      (elements[i].region != name ==> after == inline[i])
  {
    HoverRestores(elements, inline, ByRegion(name));
  }

  /** The styled bars and region paths with their current inline strokes. */
  class StyleTable {
    const elements: seq<Element>
    /** The inline stroke style of each element; `None` until one has been set. */
    var inline: seq<Option<Style>>

    ghost predicate Valid()
      reads this
    {
      |inline| == |elements|
    }

    constructor (elements: seq<Element>)
      ensures Valid() && this.elements == elements
      ensures forall i :: 0 <= i < |inline| ==> inline[i] == None
    {
      this.elements := elements;
      inline := seq(|elements|, i => None);
    }

    /** `highlight(props)` for a region named `name`: `d3.selectAll("." + name)` restyled. */
    method Highlight(name: string)
      requires Valid()
      modifies this
      ensures Valid()
      ensures inline == WithHighlight(elements, old(inline), ByClassToken(name))
    {
      inline := WithHighlight(elements, inline, ByClassToken(name));
    }

    /** `dehighlight(props)` for a region named `name`: the same selection, each element reset
        from its own descriptor. */
    method Dehighlight(name: string)
      requires Valid()
      modifies this
      ensures Valid()
      ensures inline == WithDefaults(elements, old(inline), ByClassToken(name))
    {
      inline := WithDefaults(elements, inline, ByClassToken(name));
    }
  }

  /** A mouse-over followed by a mouse-out on the same region: every element whose class
      attribute holds `name` as a token is reset to its descriptor, every other is as before. */
  method Hover(table: StyleTable, name: string)
    requires table.Valid()
    modifies table
    ensures table.Valid()
    ensures forall i :: 0 <= i < |table.elements| ==>
      table.inline[i] == if SelectsAsWritten(name, table.elements[i]) then Some(table.elements[i].desc) else old(table.inline[i])
  {
    table.Highlight(name);
    table.Dehighlight(name);
    HoverRestores(table.elements, old(table.inline), ByClassToken(name));
  }
}
