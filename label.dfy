/** Placement of the floating info label next to the cursor (`moveLabel`). */
module Label {

  /** The label's `left` and `top`, in pixels. */
  datatype Position = Position(left: int, top: int)

  /** The horizontal test: would the label, placed right of the cursor, overflow the window? */
  predicate FlipsLeft(clientX: int, labelWidth: int, innerWidth: int)
  {
    clientX > innerWidth - labelWidth - 20
  }

  /** The vertical test: is the cursor too close to the top edge to put the label above it? */
  predicate FlipsDown(clientY: int)
  {
    clientY < 75
  }

  /** `moveLabel` for a mouse event at (`clientX`, `clientY`), a label `labelWidth` wide
      and a window `innerWidth` wide. */
  function MoveLabel(clientX: int, clientY: int, labelWidth: int, innerWidth: int): (p: Position)
    ensures FlipsLeft(clientX, labelWidth, innerWidth) ==> p.left + labelWidth + 10 == clientX
    ensures !FlipsLeft(clientX, labelWidth, innerWidth) ==>
      p.left == clientX + 10 && p.left + labelWidth <= innerWidth - 10
    ensures FlipsDown(clientY) ==> p.top == clientY + 25
    ensures !FlipsDown(clientY) ==> p.top + 75 == clientY
    ensures clientY >= 0 ==> p.top >= 0
  {
    var x1 := clientX + 10;
    var y1 := clientY - 75;
    var x2 := clientX - labelWidth - 10;
    var y2 := clientY + 25;
    var x := if FlipsLeft(clientX, labelWidth, innerWidth) then x2 else x1;
    var y := if FlipsDown(clientY) then y2 else y1;
    Position(x, y)
  }

  /** A cursor 5px past the point where the label would just fit is handled by the left branch:
      the label then lies wholly left of the cursor. */
  lemma NearRightEdgeFlips(labelWidth: int, innerWidth: int)
    ensures FlipsLeft(innerWidth - labelWidth + 5, labelWidth, innerWidth)
    ensures MoveLabel(innerWidth - labelWidth + 5, 100, labelWidth, innerWidth).left
         == innerWidth - 2 * labelWidth - 5
  {
  }
}
