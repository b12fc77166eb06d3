/** The pure part of the sample game's level handling (sdl-game-test/game.cpp):
    which tiles a level description produces, when two rectangles overlap,
    when a horizontal move is blocked, and how the player moves. */
module TileMap {
  import opened Sprites
  import CInt

  const TileWidth: int := 16
  const TileHeight: int := 16
  /** Tiles per row of the tile atlas. */
  const TileGridSize: int := 8
  /** Tiles are drawn at three times their atlas size. */
  const Scale: int := 3
  const WindowWidth: int := 800
  const WindowHeight: int := 600
  const PlayerSpeed: int := 5

  /** Where the level description comes from: `Unreadable` when the file
      cannot be opened, else the integers it holds in file order: columns,
      rows, origin x, origin y, then the cells row by row. */
  datatype LevelSource = Unreadable | Readable(tokens: seq<int>)

  function Columns(tokens: seq<int>): nat
    requires |tokens| >= 4
  {
    if tokens[0] > 0 then tokens[0] else 0
  }

  function Rows(tokens: seq<int>): nat
    requires |tokens| >= 4
  {
    if tokens[1] > 0 then tokens[1] else 0
  }

  /** Position in `tokens` of the first cell of grid row `row`. */
  function RowStart(tokens: seq<int>, row: nat): (p: nat)
    requires |tokens| >= 4
    ensures p >= 4
  {
    if row == 0 then 4 else RowStart(tokens, row - 1) + Columns(tokens)
  }

  /** Rows are laid out one after another, `Columns` cells each. */
  lemma {:induction false} RowStartFormula(tokens: seq<int>, row: nat)
    requires |tokens| >= 4
    ensures RowStart(tokens, row) == 4 + row * Columns(tokens)
    decreases row
  {
    if row > 0 {
      RowStartFormula(tokens, row - 1);
      assert row * Columns(tokens) == (row - 1) * Columns(tokens) + Columns(tokens);
    }
  }

  lemma {:induction false} RowStartMono(tokens: seq<int>, a: nat, b: nat)
    requires |tokens| >= 4 && a <= b
    ensures RowStart(tokens, a) <= RowStart(tokens, b)
    decreases b
  {
    if a < b {
      RowStartMono(tokens, a, b - 1);
    }
  }

  /** A complete header and a complete grid of cells. */
  predicate WellFormed(tokens: seq<int>)
  {
    |tokens| >= 4 && RowStart(tokens, Rows(tokens)) <= |tokens|
  }

  /** Grid row `row` lies wholly inside the token sequence. */
  lemma RowInRange(tokens: seq<int>, row: nat)
    requires WellFormed(tokens) && row < Rows(tokens)
    ensures RowStart(tokens, row) + Columns(tokens) <= |tokens|
  {
    RowStartMono(tokens, row + 1, Rows(tokens));
  }

  /** The cell in grid row `row`, column `col`. */
  function Cell(tokens: seq<int>, row: nat, col: nat): int
    requires WellFormed(tokens) && row < Rows(tokens) && col < Columns(tokens)
  {
    RowInRange(tokens, row);
    tokens[RowStart(tokens, row) + col]
  }

  /** The tile a non-zero cell value `i` at (`row`, `col`) produces: the
      `(i-1)`-th 16x16 tile of the 8-wide atlas, placed at three times scale
      from the level origin. */
  function Tile(i: int, row: int, col: int, originX: int, originY: int, atlas: Texture): (t: Sprite)
    ensures t.src.w == 16 && t.src.h == 16
    ensures t.dest == Rect(col * 48 + originX, row * 48 + originY, 48, 48)
    ensures t.tex == atlas
    // an index in 1.. names an atlas column in 0..7 and a row from 0 on
    ensures i >= 1 ==>
      t.src.x == ((i - 1) % 8) * 16 && t.src.y == ((i - 1) / 8) * 16 &&
      0 <= t.src.x < 128 && 0 <= t.src.y
    // a negative or zero index truncates toward zero, giving a crop at or
    // beyond the atlas's left and top edges
    ensures i < 1 ==> -128 < t.src.x <= 0 && t.src.y <= 0
  {
    // TILE_GRID_SIZE = 8, TILE_WIDTH = TILE_HEIGHT = 16, drawn at scale 3
    var gridX := CInt.Rem(i - 1, 8);
    var gridY := CInt.Div(i - 1, 8);
    Sprite(Rect(gridX * 16, gridY * 16, 16, 16), Rect(col * 48 + originX, row * 48 + originY, 48, 48), atlas)
  }

  /** The tiles of the first `n` cells of grid row `row`, in column order;
      zero cells produce nothing. */
  function RowTiles(tokens: seq<int>, atlas: Texture, row: nat, n: nat): seq<Sprite>
    requires WellFormed(tokens) && row < Rows(tokens) && n <= Columns(tokens)
  {
    if n == 0 then []
    else
      var i := Cell(tokens, row, n - 1);
      RowTiles(tokens, atlas, row, n - 1) +
      (if i != 0 then [Tile(i, row, n - 1, tokens[2], tokens[3], atlas)] else [])
  }

  /** One more column of a row appends that cell's tile, if it has one. */
  lemma RowTilesNext(tokens: seq<int>, atlas: Texture, row: nat, n: nat)
    requires WellFormed(tokens) && row < Rows(tokens) && n < Columns(tokens)
    ensures RowTiles(tokens, atlas, row, n + 1) ==
            RowTiles(tokens, atlas, row, n) +
            (if Cell(tokens, row, n) != 0 then [Tile(Cell(tokens, row, n), row, n, tokens[2], tokens[3], atlas)] else [])
  {
  }

  /** The tiles of the first `rows` grid rows, in row-major order. */
  function GridTiles(tokens: seq<int>, atlas: Texture, rows: nat): seq<Sprite>
    requires WellFormed(tokens) && rows <= Rows(tokens)
  {
    if rows == 0 then []
    else GridTiles(tokens, atlas, rows - 1) + RowTiles(tokens, atlas, rows - 1, Columns(tokens))
  }

  /** All tiles `loadMap` appends for a level. */
  function LevelTiles(tokens: seq<int>, atlas: Texture): seq<Sprite>
    requires WellFormed(tokens)
  {
    GridTiles(tokens, atlas, Rows(tokens))
  }

  /** The number of non-zero values among `tokens[lo..hi]`. */
  function NonZeroIn(tokens: seq<int>, lo: nat, hi: nat): nat
    requires lo <= hi <= |tokens|
    decreases hi
  {
    if lo == hi then 0
    else NonZeroIn(tokens, lo, hi - 1) + (if tokens[hi - 1] != 0 then 1 else 0)
  }

  lemma {:induction false} NonZeroSplit(tokens: seq<int>, lo: nat, mid: nat, hi: nat)
    requires lo <= mid <= hi <= |tokens|
    ensures NonZeroIn(tokens, lo, hi) == NonZeroIn(tokens, lo, mid) + NonZeroIn(tokens, mid, hi)
    decreases hi
  {
    if mid < hi {
      NonZeroSplit(tokens, lo, mid, hi - 1);
    }
  }

  lemma {:induction false} RowCount(tokens: seq<int>, atlas: Texture, row: nat, n: nat)
    requires WellFormed(tokens) && row < Rows(tokens) && n <= Columns(tokens)
    ensures RowStart(tokens, row) + n <= |tokens|
    ensures |RowTiles(tokens, atlas, row, n)| ==
            NonZeroIn(tokens, RowStart(tokens, row), RowStart(tokens, row) + n)
    decreases n
  {
    RowInRange(tokens, row);
    if n > 0 {
      RowCount(tokens, atlas, row, n - 1);
    }
  }

  lemma {:induction false} GridCount(tokens: seq<int>, atlas: Texture, rows: nat)
    requires WellFormed(tokens) && rows <= Rows(tokens)
    ensures RowStart(tokens, rows) <= |tokens|
    ensures |GridTiles(tokens, atlas, rows)| == NonZeroIn(tokens, 4, RowStart(tokens, rows))
    decreases rows
  {
    RowStartMono(tokens, rows, Rows(tokens));
    if rows > 0 {
      GridCount(tokens, atlas, rows - 1);
      RowCount(tokens, atlas, rows - 1, Columns(tokens));
      NonZeroSplit(tokens, 4, RowStart(tokens, rows - 1), RowStart(tokens, rows));
    }
  }

  /** `loadMap` produces exactly one tile per non-zero cell of the grid. */
  lemma TileCount(tokens: seq<int>, atlas: Texture)
    requires WellFormed(tokens)
    ensures 4 + Rows(tokens) * Columns(tokens) <= |tokens|
    ensures |LevelTiles(tokens, atlas)| == NonZeroIn(tokens, 4, 4 + Rows(tokens) * Columns(tokens))
  {
    GridCount(tokens, atlas, Rows(tokens));
    RowStartFormula(tokens, Rows(tokens));
  }

  lemma {:induction false} RowHasCell(tokens: seq<int>, atlas: Texture, row: nat, col: nat, n: nat)
    requires WellFormed(tokens) && row < Rows(tokens) && col < n <= Columns(tokens)
    requires Cell(tokens, row, col) != 0
    ensures Tile(Cell(tokens, row, col), row, col, tokens[2], tokens[3], atlas) in RowTiles(tokens, atlas, row, n)
    decreases n
  {
    if col < n - 1 {
      RowHasCell(tokens, atlas, row, col, n - 1);
    }
  }

  lemma {:induction false} GridHasCell(tokens: seq<int>, atlas: Texture, row: nat, col: nat, rows: nat)
    requires WellFormed(tokens) && row < rows <= Rows(tokens) && col < Columns(tokens)
    requires Cell(tokens, row, col) != 0
    ensures Tile(Cell(tokens, row, col), row, col, tokens[2], tokens[3], atlas) in GridTiles(tokens, atlas, rows)
    decreases rows
  {
    if row < rows - 1 {
      GridHasCell(tokens, atlas, row, col, rows - 1);
    } else {
      RowHasCell(tokens, atlas, row, col, Columns(tokens));
    }
  }

  /** Every non-zero cell's tile is among the loaded tiles. */
  lemma EveryCellLoaded(tokens: seq<int>, atlas: Texture, row: nat, col: nat)
    requires WellFormed(tokens) && row < Rows(tokens) && col < Columns(tokens)
    requires Cell(tokens, row, col) != 0
    ensures Tile(Cell(tokens, row, col), row, col, tokens[2], tokens[3], atlas) in LevelTiles(tokens, atlas)
  {
    GridHasCell(tokens, atlas, row, col, Rows(tokens));
  }

  /** `a` comes strictly before `b` in row-major screen order. */
  predicate Before(a: Rect, b: Rect)
  {
    a.y < b.y || (a.y == b.y && a.x < b.x)
  }

  predicate RowMajor(s: seq<Sprite>)
  {
    forall i, j :: 0 <= i < j < |s| ==> Before(s[i].dest, s[j].dest)
  }

  lemma {:induction false} RowOrdered(tokens: seq<int>, atlas: Texture, row: nat, n: nat)
    requires WellFormed(tokens) && row < Rows(tokens) && n <= Columns(tokens)
    ensures RowMajor(RowTiles(tokens, atlas, row, n))
    ensures forall t :: t in RowTiles(tokens, atlas, row, n) ==>
      t.dest.y == row * 48 + tokens[3] && t.dest.x < n * 48 + tokens[2]
    decreases n
  {
    if n > 0 {
      RowOrdered(tokens, atlas, row, n - 1);
    }
  }

  lemma {:induction false} GridOrdered(tokens: seq<int>, atlas: Texture, rows: nat)
    requires WellFormed(tokens) && rows <= Rows(tokens)
    ensures RowMajor(GridTiles(tokens, atlas, rows))
    ensures forall t :: t in GridTiles(tokens, atlas, rows) ==> t.dest.y < rows * 48 + tokens[3]
    decreases rows
  {
    if rows > 0 {
      GridOrdered(tokens, atlas, rows - 1);
      RowOrdered(tokens, atlas, rows - 1, Columns(tokens));
      var g := GridTiles(tokens, atlas, rows - 1);
      var r := RowTiles(tokens, atlas, rows - 1, Columns(tokens));
      assert forall k :: 0 <= k < |g| ==> g[k] in g;
      assert forall k :: 0 <= k < |r| ==> r[k] in r;
    }
  }

  /** The tiles are appended in row-major order: each later tile lies
      further down, or on the same row further right. */
  lemma LevelRowMajor(tokens: seq<int>, atlas: Texture)
    requires WellFormed(tokens)
    ensures RowMajor(LevelTiles(tokens, atlas))
  {
    GridOrdered(tokens, atlas, Rows(tokens));
  }

  /** The level `2 1 0 0  1 2` (two cells on one row at the origin) gives
      the first two atlas tiles side by side. */
  lemma TwoTileLevel(tokens: seq<int>, atlas: Texture)
    requires |tokens| == 6 && tokens[0] == 2 && tokens[1] == 1 && tokens[2] == 0 && tokens[3] == 0
    requires tokens[4] == 1 && tokens[5] == 2
    ensures WellFormed(tokens)
    ensures LevelTiles(tokens, atlas) ==
      [Sprite(Rect(0, 0, 16, 16), Rect(0, 0, 48, 48), atlas),
       Sprite(Rect(16, 0, 16, 16), Rect(48, 0, 48, 48), atlas)]
  {
    TwoTileSecond(atlas, tokens);
    SingleRowLevel(tokens, atlas);
  }

  /** A level of one row yields that row's tiles. */
  lemma SingleRowLevel(tokens: seq<int>, atlas: Texture)
    requires WellFormed(tokens) && Rows(tokens) == 1
    ensures LevelTiles(tokens, atlas) == RowTiles(tokens, atlas, 0, Columns(tokens))
  {
    assert GridTiles(tokens, atlas, 0) == [];
  }

  lemma TwoTileSecond(atlas: Texture, tokens: seq<int>)
    requires |tokens| == 6 && tokens[0] == 2 && tokens[1] == 1 && tokens[2] == 0 && tokens[3] == 0
    requires tokens[4] == 1 && tokens[5] == 2
    ensures WellFormed(tokens) && Rows(tokens) == 1 && Columns(tokens) == 2
    ensures RowTiles(tokens, atlas, 0, 2) ==
      [Sprite(Rect(0, 0, 16, 16), Rect(0, 0, 48, 48), atlas),
       Sprite(Rect(16, 0, 16, 16), Rect(48, 0, 48, 48), atlas)]
  {
    TwoTileFirst(atlas, tokens);
    TwoTileCell(atlas, tokens, 1, Sprite(Rect(16, 0, 16, 16), Rect(48, 0, 48, 48), atlas));
  }

  /** Reading cell `col`, which holds `col + 1`, appends the `col`-th atlas
      tile drawn `col` tiles right of the origin. */
  lemma TwoTileCell(atlas: Texture, tokens: seq<int>, col: nat, t: Sprite)
    requires |tokens| == 6 && tokens[0] == 2 && tokens[1] == 1 && tokens[2] == 0 && tokens[3] == 0
    requires col < 2 && tokens[4 + col] == col + 1
    requires t == Sprite(Rect(col * 16, 0, 16, 16), Rect(col * 48, 0, 48, 48), atlas)
    ensures WellFormed(tokens) && Rows(tokens) == 1 && Columns(tokens) == 2
    ensures RowTiles(tokens, atlas, 0, col + 1) == RowTiles(tokens, atlas, 0, col) + [t]
  {
    TwoTileHeader(tokens);
    assert Cell(tokens, 0, col) == col + 1;
    TileValue(col + 1, col, atlas, t);
  }

  lemma TwoTileFirst(atlas: Texture, tokens: seq<int>)
    requires |tokens| == 6 && tokens[0] == 2 && tokens[1] == 1 && tokens[2] == 0 && tokens[3] == 0
    requires tokens[4] == 1
    ensures WellFormed(tokens) && Rows(tokens) == 1 && Columns(tokens) == 2
    ensures RowTiles(tokens, atlas, 0, 1) == [Sprite(Rect(0, 0, 16, 16), Rect(0, 0, 48, 48), atlas)]
  {
    TwoTileCell(atlas, tokens, 0, Sprite(Rect(0, 0, 16, 16), Rect(0, 0, 48, 48), atlas));
    assert RowTiles(tokens, atlas, 0, 0) == [];
  }

  /** The header `2 1` describes one row of two cells, stored at 4 and 5. */
  lemma TwoTileHeader(tokens: seq<int>)
    requires |tokens| == 6 && tokens[0] == 2 && tokens[1] == 1
    ensures WellFormed(tokens) && Rows(tokens) == 1 && Columns(tokens) == 2
    ensures RowStart(tokens, 0) == 4
  {
    assert RowStart(tokens, 1) == RowStart(tokens, 0) + 2;
  }

  lemma TileValue(i: int, col: int, atlas: Texture, t: Sprite)
    requires 1 <= i <= 8 && t == Sprite(Rect((i - 1) * 16, 0, 16, 16), Rect(col * 48, 0, 48, 48), atlas)
    ensures Tile(i, 0, col, 0, 0, atlas) == t
  {
  }

  /** The half-open rectangles `a` and `b` intersect (the test of
      `mapCollision`, on both axes). */
  predicate Overlaps(a: Rect, b: Rect)
  {
    a.x < b.x + b.w && a.x + a.w > b.x && a.y < b.y + b.h && a.y + a.h > b.y
  }

  /** Pixel (`px`, `py`) belongs to the half-open rectangle `r`. */
  predicate Inside(px: int, py: int, r: Rect)
  {
    r.x <= px < r.x + r.w && r.y <= py < r.y + r.h
  }

  /** The overlap test is exactly "some pixel lies in both rectangles":
      rectangles that only touch along an edge do not overlap. */
  lemma OverlapsIffSharedPixel(a: Rect, b: Rect)
    requires a.w > 0 && a.h > 0 && b.w > 0 && b.h > 0
    ensures Overlaps(a, b) <==> exists px, py :: Inside(px, py, a) && Inside(px, py, b)
  {
    if Overlaps(a, b) {
      var px := if a.x < b.x then b.x else a.x;
      var py := if a.y < b.y then b.y else a.y;
      assert Inside(px, py, a) && Inside(px, py, b);
    }
  }

  function Shift(r: Rect, dx: int): Rect
  {
    r.(x := r.x + dx)
  }

  /** The window test of `mapCollision`: the displaced rectangle leaves the
      window on the left or on the right. */
  predicate OutOfWindow(r: Rect, dx: int)
  {
    r.x + dx < 0 || r.x + r.w + dx > WindowWidth
  }

  /** `mapCollision(obj, dx)`: moving `r` by `dx` horizontally (its `y`
      unchanged) leaves the window or overlaps some tile. */
  predicate Blocked(r: Rect, dx: int, tiles: seq<Sprite>)
  {
    OutOfWindow(r, dx) || exists i :: 0 <= i < |tiles| && Overlaps(Shift(r, dx), tiles[i].dest)
  }

  /** Inside the window horizontally and clear of every tile. */
  predicate Safe(r: Rect, tiles: seq<Sprite>)
  {
    0 <= r.x && r.x + r.w <= WindowWidth &&
    forall i :: 0 <= i < |tiles| ==> !Overlaps(r, tiles[i].dest)
  }

  /** A move is blocked exactly when its destination would not be safe. */
  lemma BlockedIffUnsafe(r: Rect, dx: int, tiles: seq<Sprite>)
    ensures Blocked(r, dx, tiles) <==> !Safe(Shift(r, dx), tiles)
  {
  }

  /** The window test lets a displaced rectangle touch either window edge
      and blocks it one pixel beyond. */
  lemma WindowEdges(r: Rect, dx: int)
    requires 0 <= r.w <= WindowWidth
    ensures r.x + dx == 0 ==> !OutOfWindow(r, dx)
    ensures r.x + r.w + dx == WindowWidth ==> !OutOfWindow(r, dx)
    ensures r.x + dx == -1 ==> OutOfWindow(r, dx)
    ensures r.x + r.w + dx == WindowWidth + 1 ==> OutOfWindow(r, dx)
  {
  }

  /** The player's horizontal move in one `update`: first left, then right,
      each only when `mapCollision` lets it through. */
  function Move(d: Rect, left: bool, right: bool, tiles: seq<Sprite>): (r: Rect)
    ensures r.y == d.y && r.w == d.w && r.h == d.h
    ensures !left && !right ==> r == d
    ensures left && !right ==>
      r == if Blocked(d, -PlayerSpeed, tiles) then d else Shift(d, -PlayerSpeed)
    ensures right && !left ==>
      r == if Blocked(d, PlayerSpeed, tiles) then d else Shift(d, PlayerSpeed)
    // the player never leaves the window and never moves into a tile
    ensures Safe(d, tiles) ==> Safe(r, tiles)
  {
    var d1 := if left && !Blocked(d, -PlayerSpeed, tiles) then Shift(d, -PlayerSpeed) else d;
    if right && !Blocked(d1, PlayerSpeed, tiles) then Shift(d1, PlayerSpeed) else d1
  }
}
