/** The input handling of the Essos triangle sample
    (essos-test/essos-sample.cpp): a cursor on a 3x3 grid moved by the arrow
    keys, by a pointer press or by touch, and a tracker for up to two touch
    points. The sample keeps all of this in global variables; here they are
    the fields of one object. */
module Essos {
  import CInt

  /** Key codes from linux/input.h. */
  const KeyUp: nat := 103
  const KeyLeft: nat := 105
  const KeyRight: nat := 106
  const KeyDown: nat := 108

  /** The cursor (row, column) after one key press. */
  function CursorAfterKey(row: int, col: int, key: nat): (r: (int, int))
    ensures 0 <= row <= 2 && 0 <= col <= 2 ==> 0 <= r.0 <= 2 && 0 <= r.1 <= 2
    // up and down move the row cyclically and keep the column
    ensures key == KeyUp && 0 <= row <= 2 ==> r == ((row + 2) % 3, col)
    ensures key == KeyDown && 0 <= row <= 2 ==> r == ((row + 1) % 3, col)
    // left and right move the column cyclically and keep the row
    ensures key == KeyLeft && 0 <= col <= 2 ==> r == (row, (col + 2) % 3)
    ensures key == KeyRight && 0 <= col <= 2 ==> r == (row, (col + 1) % 3)
    // any other key changes nothing
    ensures key !in {KeyUp, KeyDown, KeyLeft, KeyRight} ==> r == (row, col)
  {
    if key == KeyUp then (if row - 1 < 0 then 2 else row - 1, col)
    else if key == KeyDown then (if row + 1 > 2 then 0 else row + 1, col)
    else if key == KeyLeft then (row, if col - 1 < 0 then 2 else col - 1)
    else if key == KeyRight then (row, if col + 1 > 2 then 0 else col + 1)
    else (row, col)
  }

  /** Up then down, and left then right, return the cursor to where it was. */
  lemma KeysUndo(row: int, col: int)
    requires 0 <= row <= 2 && 0 <= col <= 2
    ensures var u := CursorAfterKey(row, col, KeyUp); CursorAfterKey(u.0, u.1, KeyDown) == (row, col)
    ensures var d := CursorAfterKey(row, col, KeyDown); CursorAfterKey(d.0, d.1, KeyUp) == (row, col)
    ensures var l := CursorAfterKey(row, col, KeyLeft); CursorAfterKey(l.0, l.1, KeyRight) == (row, col)
    ensures var r := CursorAfterKey(row, col, KeyRight); CursorAfterKey(r.0, r.1, KeyLeft) == (row, col)
  {
  }

  /** Which of the three cells along one axis of length `extent` holds the
      coordinate `v`: the first cell ends at extent/8 + extent/4 and the
      second a further extent/4 on (C integer division). */
  function CellIndex(v: int, extent: int): (cell: int)
    ensures 0 <= cell <= 2
    ensures cell == 0 <==> v < CInt.Div(extent, 8) + CInt.Div(extent, 4)
    ensures extent >= 0 ==> (cell == 2 <==> v >= CInt.Div(extent, 8) + 2 * CInt.Div(extent, 4))
  {
    var border, cell := CInt.Div(extent, 8), CInt.Div(extent, 4);
    var t1 := border + cell;
    var t2 := t1 + cell;
    if v < t1 then 0 else if v < t2 then 1 else 2
  }

  /** Further along the axis never means an earlier cell. */
  lemma CellMonotone(a: int, b: int, extent: int)
    requires a <= b
    ensures CellIndex(a, extent) <= CellIndex(b, extent)
  {
  }

  /** The centre of an axis of at least 16 pixels falls in the middle cell. */
  lemma CentreCell(extent: int)
    requires extent >= 16
    ensures CellIndex(CInt.Div(extent, 2), extent) == 1
  {
    var q, r := extent / 8, extent % 8;
    assert extent == 8 * q + r && q >= 2 && 0 <= r < 8;
    assert extent / 4 == 2 * q + r / 4;
    assert extent / 2 == 4 * q + r / 2;
  }

  /** The two touch slots and the per-frame touch count, as a value. */
  datatype Touches = Touches(count: int, id1: int, x1: int, y1: int, id2: int, x2: int, y2: int)

  /** `touchDown`: take slot 1 if it is free, else slot 2 if it is free,
      else ignore the touch. A slot is free when its id is negative. */
  function Pressed(t: Touches, id: int, x: int, y: int): (r: Touches)
    ensures t.id1 < 0 ==> r == t.(count := 1, id1 := id, x1 := x, y1 := y)
    ensures t.id1 >= 0 && t.id2 < 0 ==> r == t.(count := 2, id2 := id, x2 := x, y2 := y)
    ensures t.id1 >= 0 && t.id2 >= 0 ==> r == t
  {
    if t.id1 < 0 then t.(count := 1, id1 := id, x1 := x, y1 := y)
    else if t.id2 < 0 then t.(count := 2, id2 := id, x2 := x, y2 := y)
    else t
  }

  /** `touchUp`: free the slot holding `id`, slot 1 first, and count one
      touch fewer; an id in neither slot changes nothing. */
  function Released(t: Touches, id: int): (r: Touches)
    ensures id == t.id1 ==> r == t.(count := t.count - 1, id1 := -1)
    ensures id != t.id1 && id == t.id2 ==> r == t.(count := t.count - 1, id2 := -1)
    ensures id != t.id1 && id != t.id2 ==> r == t
  {
    if t.id1 == id then t.(count := t.count - 1, id1 := -1)
    else if t.id2 == id then t.(count := t.count - 1, id2 := -1)
    else t
  }

  /** `touchMotion`: move the slot holding `id`, slot 1 first. */
  function Moved(t: Touches, id: int, x: int, y: int): (r: Touches)
    ensures r.count == t.count && r.id1 == t.id1 && r.id2 == t.id2
    ensures id == t.id1 ==> r == t.(x1 := x, y1 := y)
    ensures id != t.id1 && id == t.id2 ==> r == t.(x2 := x, y2 := y)
    ensures id != t.id1 && id != t.id2 ==> r == t
  {
    if t.id1 == id then t.(x1 := x, y1 := y)
    else if t.id2 == id then t.(x2 := x, y2 := y)
    else t
  }

  /** A touch that goes down into a free slot and comes up again leaves the
      slots as they were; only the count and the slot's last position stay
      changed. */
  lemma PressThenRelease(t: Touches, id: int, x: int, y: int)
    requires id >= 0
    ensures t.id1 == -1 ==>
      Released(Pressed(t, id, x, y), id) == t.(count := 0, x1 := x, y1 := y)
    ensures t.id1 >= 0 && t.id1 != id && t.id2 == -1 ==>
      Released(Pressed(t, id, x, y), id) == t.(count := 1, x2 := x, y2 := y)
  {
  }

  class Sample {
    var displayWidth: int
    var displayHeight: int
    var row: int
    var col: int
    var touchCount: int
    var touch1Id: int
    var touch1X: int
    var touch1Y: int
    var touch2Id: int
    var touch2X: int
    var touch2Y: int

    /** The cursor is on the grid. */
    ghost predicate Valid()
      reads this
    {
      0 <= row <= 2 && 0 <= col <= 2
    }

    function TouchState(): Touches
      reads this
    {
      Touches(touchCount, touch1Id, touch1X, touch1Y, touch2Id, touch2X, touch2Y)
    }

    /** The globals' initial values; the display size is what the Essos
        context reports at setup. */
    constructor (width: int, height: int)
      ensures Valid() && row == 1 && col == 1
      ensures TouchState() == Touches(0, -1, 0, 0, -1, 0, 0)
      ensures displayWidth == width && displayHeight == height
    {
      displayWidth, displayHeight := width, height;
      row, col := 1, 1;
      touchCount := 0;
      touch1Id, touch1X, touch1Y := -1, 0, 0;
      touch2Id, touch2X, touch2Y := -1, 0, 0;
    }

    method KeyPressed(key: nat)
      modifies this`row, this`col
      ensures (row, col) == CursorAfterKey(old(row), old(col), key)
      ensures old(Valid()) ==> Valid()
    {
      if key == KeyUp {
        row := row - 1;
        if row < 0 { row := 2; }
      } else if key == KeyDown {
        row := row + 1;
        if row > 2 { row := 0; }
      } else if key == KeyLeft {
        col := col - 1;
        if col < 0 { col := 2; }
      } else if key == KeyRight {
        col := col + 1;
        if col > 2 { col := 0; }
      }
    }

    /** Puts the cursor on the grid cell holding the point (`x`, `y`). */
    method SetTrianglePosition(x: int, y: int)
      modifies this`row, this`col
      ensures col == CellIndex(x, displayWidth) && row == CellIndex(y, displayHeight)
      ensures Valid()
    {
      var hborder, vborder := CInt.Div(displayWidth, 8), CInt.Div(displayHeight, 8);
      var hcell, vcell := CInt.Div(displayWidth, 4), CInt.Div(displayHeight, 4);
      var thx1, thy1 := hborder + hcell, vborder + vcell;
      var thx2, thy2 := thx1 + hcell, thy1 + vcell;
      if x < thx1 {
        col := 0;
      } else if x < thx2 {
        col := 1;
      } else {
        col := 2;
      }
      if y < thy1 {
        row := 0;
      } else if y < thy2 {
        row := 1;
      } else {
        row := 2;
      }
    }

    method PointerButtonPressed(button: int, x: int, y: int)
      modifies this`row, this`col
      ensures col == CellIndex(x, displayWidth) && row == CellIndex(y, displayHeight)
    {
      SetTrianglePosition(x, y);
    }

    method TouchDown(id: int, x: int, y: int)
      modifies this`touchCount, this`touch1Id, this`touch1X, this`touch1Y
      modifies this`touch2Id, this`touch2X, this`touch2Y
      ensures TouchState() == Pressed(old(TouchState()), id, x, y)
    {
      if touch1Id < 0 {
        touchCount := 1;
        touch1Id := id;
        touch1X := x;
        touch1Y := y;
      } else if touch2Id < 0 {
        touchCount := 2;
        touch2Id := id;
        touch2X := x;
        touch2Y := y;
      }
    }

    method TouchUp(id: int)
      modifies this`touchCount, this`touch1Id, this`touch2Id
      ensures TouchState() == Released(old(TouchState()), id)
    {
      if touch1Id == id {
        touchCount := touchCount - 1;
        touch1Id := -1;
      } else if touch2Id == id {
        touchCount := touchCount - 1;
        touch2Id := -1;
      }
    }

    method TouchMotion(id: int, x: int, y: int)
      modifies this`touch1X, this`touch1Y, this`touch2X, this`touch2Y
      ensures TouchState() == Moved(old(TouchState()), id, x, y)
    {
      if touch1Id == id {
        touch1X := x;
        touch1Y := y;
      } else if touch2Id == id {
        touch2X := x;
        touch2Y := y;
      }
    }

    /** End of a touch frame: one touch places the cursor under it, two
        place it under the display centre; the count always restarts. */
    method TouchFrame()
      modifies this`row, this`col, this`touchCount
      ensures touchCount == 0
      ensures old(touchCount) == 1 ==>
        col == CellIndex(touch1X, displayWidth) && row == CellIndex(touch1Y, displayHeight)
      ensures old(touchCount) == 2 ==>
        col == CellIndex(CInt.Div(displayWidth, 2), displayWidth) &&
        row == CellIndex(CInt.Div(displayHeight, 2), displayHeight)
      ensures old(touchCount) != 1 && old(touchCount) != 2 ==> row == old(row) && col == old(col)
      ensures old(Valid()) ==> Valid()
    {
      if touchCount == 1 {
        SetTrianglePosition(touch1X, touch1Y);
      } else if touchCount == 2 {
        SetTrianglePosition(CInt.Div(displayWidth, 2), CInt.Div(displayHeight, 2));
      }
      touchCount := 0;
    }
  }
}
