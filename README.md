# Tile platformer and Essos input sample, modelled in Dafny

This project models the logic of two sample programs from the DAC examples
repository.

- **The SDL sample game** (`sdl-game-test`). A player sprite walks left and
  right over a tile map. The modelled parts are:
  - the `Object` record: a source crop rectangle, a destination rectangle
    and a texture.
  - the `Entity` animation clip registry. It keeps a list of clips, an
    active clip and a hold counter. Each tick it crops the sprite from the
    current frame and advances that frame every `speed + 1` ticks.
  - the `Game` class: `loadMap` turns a level grid into tile sprites,
    `mapCollision` tests a horizontal move against the window edges and the
    tiles, `keyInput` and `update` drive the player, and `mainLoop` runs
    render, input and update in that order.
- **The Essos triangle sample** (`essos-test/essos-sample.cpp`). The
  modelled parts are the input callbacks: a cursor on a 3x3 grid moved by
  arrow keys, a pointer or touch hit-test that picks a grid cell, and a
  two-slot touch tracker.

Files:

- `cint.dfy` (module `CInt`): C++ integer `/` and `%`. These truncate toward
  zero. Dafny's own operators are Euclidean.
- `sprites.dfy` (module `Sprites`): `Rect`, an opaque `Texture`, the value
  `Sprite`, and the class `Object`.
- `animation.dfy` (module `Animation`): the `Cycle` clip, the pure
  step function `Step` with its timing lemmas, and the class `Entity`.
- `tilemap.dfy` (module `TileMap`): the game's constants, and which tiles a
  level yields. It also holds the overlap, `Blocked` and `Safe` predicates
  and the player's move.
- `game.dfy` (module `Game`): input events, the pure event handler, and the
  class `Game`.
- `essos.dfy` (module `Essos`): the cursor and touch functions, and the class
  `Sample` that holds the sample's globals.

How the model is shaped:

- `Entity` derives from `Object` in C++. Here an `Entity` holds its `Object`
  in the constant field `sprite`.
- `backgroundMap` is a `std::vector<Object>` of copies. It is modelled as a
  `seq<Sprite>` of values.
- A level is a `LevelSource`. It is either `Unreadable` or the file's
  integers in order: columns, rows, origin x, origin y, then the cells row by
  row.
- One `keyInput` call handles a `seq<Event>`, the events pending at that
  moment. `MainLoop` takes one such batch per iteration.
- What `render` draws is modelled as the list of sprites it hands to the
  renderer, in drawing order. The SDL calls themselves are not modelled.

Behaviour kept exactly as the code has it:

- `loadMap` only appends to `backgroundMap`. It never clears the map, so a
  second load adds to the first.
- A malformed level is not reported as an error. The code has no such error
  path. The model asks for a complete level instead (see Left out).
- Switching clips resets the hold counter but keeps the clip's current
  frame.
- The first frame is drawn before the first `updateAnimation`. At that point
  the player's source rectangle is still what the defaulted `Object`
  constructor left. The model's `Object` constructor promises nothing about
  it either.
- The overlap test of `mapCollision` matches "the two rectangles share a
  pixel" only for rectangles of positive width and height. A zero-width
  rectangle strictly inside a tile still counts as overlapping
  (`TileMap.OverlapsIffSharedPixel` needs positive sizes).
- In the Essos sample, `touchDown` sets the touch count to 1 or 2 rather
  than adding one. `touchUp` subtracts one, so after `touchFrame` has reset
  the count to 0 it can go negative. `touchUp(-1)` matches a free slot.
- Press touch 7, press touch 8, then release touch 7. The count is now 1 and
  slot 1 is free, so `touchFrame` puts the cursor under slot 1's stale
  coordinates rather than under touch 8, which is still down.
- Two touches put the cursor under the display centre. This lands in the
  middle cell only when the axis is at least 16 pixels long, or exactly 8, 9,
  12 or 13 pixels. At 10 pixels, for example, the centre falls in the last
  cell (`Essos.CentreCell` assumes 16 or more).

## Model

| member | source | states |
|---|---|---|
| `CInt.Div` | sdl-game-test/game.cpp:273 | C++ division for a positive divisor: the remainder `a - q*b` lies in `[0, b)` for `a >= 0` and in `(-b, 0]` for `a < 0` |
| `CInt.Rem` | sdl-game-test/game.cpp:272 | C++ `%`: `a == Div(a,b)*b + r`, with `r` taking the sign of `a` and `\|r\| < b` |
| `CInt.AgreeOnNonNegative` | sdl-game-test/game.cpp:272-273 | for `a >= 0` the C++ operators give Dafny's `/` and `%` |
| `Sprites.Object.constructor` | sdl-game-test/object.hpp:39-52 | a default-constructed object with the texture `setImage` gave it; its rectangles are left indeterminate |
| `Sprites.Object.SetSrc` | sdl-game-test/object.cpp:27-34 | `src` becomes exactly `c`; `dest` and `tex` are unchanged |
| `Sprites.Object.SetDest` | sdl-game-test/object.cpp:36-42 | `dest` becomes exactly `c`; `src` and `tex` are unchanged |
| `Sprites.Object.GetSrc` | sdl-game-test/object.cpp:44-47 | returns `src`; has no `modifies` clause, so it changes nothing |
| `Sprites.Object.GetDest` | sdl-game-test/object.cpp:49-52 | returns `dest`; changes nothing |
| `Sprites.Object.GetTex` | sdl-game-test/object.cpp:54-57 | returns `tex`; changes nothing |
| `Animation.NextFrame` | sdl-game-test/entity.cpp:52-61 | the frame after `tick` is `(tick + 1) % amount`, and it is in `[0, amount)` |
| `Animation.Step` | sdl-game-test/entity.cpp:43-62 | one tick changes only the clip's `tick`. The frame stays in `[0, amount)`. The counter ends in `[1, speed+1]` when it started in `[0, speed+1]`. The frame advances exactly when the counter was `> speed` |
| `Animation.RunSplit` | sdl-game-test/entity.cpp:43-62 | `a + b` ticks equal `a` ticks followed by `b` ticks |
| `Animation.Hold` | sdl-game-test/entity.cpp:50-56 | from counter `k`, `n` ticks with `k + n <= speed + 1` leave the clip unchanged and raise the counter to `k + n` |
| `Animation.FirstAdvance` | sdl-game-test/entity.cpp:36-40 | after `setCurAnimation` (counter 0), `speed + 1` ticks keep the frame and tick `speed + 2` advances it, leaving the counter at 1 |
| `Animation.Period` | sdl-game-test/entity.cpp:50-61 | from counter 1, every `speed + 1` ticks advance the frame by exactly one, cyclically |
| `Animation.Periods` | sdl-game-test/entity.cpp:50-61 | `m * (speed + 1)` ticks from counter 1 advance the frame by `m` modulo `amount` |
| `Animation.Cyclic` | sdl-game-test/entity.cpp:50-61 | after `amount * (speed + 1)` ticks the clip is back at its starting frame |
| `Animation.Entity.constructor` | sdl-game-test/game.hpp:56 | a fresh entity with a fresh sprite and no clips |
| `Animation.Entity.CreateAnimation` | sdl-game-test/entity.cpp:22-34 | appends `Cycle(row-1, w, h, amount, speed, 0)` and leaves earlier clips alone; returns the old length, the new clip's index |
| `Animation.Entity.SetCurAnimation` | sdl-game-test/entity.cpp:36-40 | `currAnim = ca`, counter 0, and no clip (no `tick`) changes |
| `Animation.Entity.GetCurAnimation` | sdl-game-test/entity.cpp:64-67 | returns `currAnim` and changes nothing |
| `Animation.Entity.UpdateAnimation` | sdl-game-test/entity.cpp:43-62 | `src` is the crop of the active clip's frame as it was on entry. Only the active clip changes, as `Step` says. The counter is `Step`'s counter. `currAnim`, `dest` and `tex` are unchanged. The entity invariant is kept |
| `TileMap.RowStartFormula` | sdl-game-test/game.cpp:256-269 | the cells of grid row `r` start at token `4 + r * columns` |
| `TileMap.Tile` | sdl-game-test/game.cpp:270-276 | any non-zero cell `i` yields a 16x16 crop, the destination `{col*48+mapX, row*48+mapY, 48, 48}` and the atlas texture. For `i >= 1` the crop is at `{((i-1)%8)*16, ((i-1)/8)*16}`, within the 8-wide atlas. For `i < 1` C truncation puts it at x in `(-128, 0]` and y `<= 0`, at or beyond the atlas's left and top edges |
| `TileMap.NonZeroSplit` | sdl-game-test/game.cpp:265-281 | counting non-zero cells is additive over adjacent ranges |
| `TileMap.RowCount` | sdl-game-test/game.cpp:267-279 | a grid row yields one tile per non-zero cell in it |
| `TileMap.GridCount` | sdl-game-test/game.cpp:265-281 | the first `r` rows yield one tile per non-zero cell in them |
| `TileMap.TileCount` | sdl-game-test/game.cpp:265-281 | the tiles of a level number exactly the non-zero cells of its grid; zero cells are skipped |
| `TileMap.EveryCellLoaded` | sdl-game-test/game.cpp:265-281 | every non-zero cell's tile is among the loaded tiles |
| `TileMap.LevelRowMajor` | sdl-game-test/game.cpp:265-281 | tiles come in row-major order: each later tile lies lower, or on the same row further right |
| `TileMap.TwoTileLevel` | sdl-game-test/game.cpp:256-281 | header `2 1 0 0` and cells `1 2` give atlas tiles (0,0) and (16,0) at `{0,0,48,48}` and `{48,0,48,48}` |
| `TileMap.OverlapsIffSharedPixel` | sdl-game-test/game.cpp:295-296 | for positive sizes the half-open overlap test holds exactly when some pixel lies in both rectangles; touching edges do not overlap |
| `TileMap.BlockedIffUnsafe` | sdl-game-test/game.cpp:285-303 | a move is blocked exactly when the moved rectangle would leave `[0, 800]` horizontally or overlap a tile |
| `TileMap.WindowEdges` | sdl-game-test/game.cpp:287-291 | touching x = 0 or x + w = 800 passes the window test; one pixel beyond fails it |
| `TileMap.Move` | sdl-game-test/game.cpp:204-228 | `y`, `w` and `h` never change, and with no flag set nothing moves. With one flag the player moves by ∓5 exactly when that move is not blocked. A player inside the window and clear of all tiles stays so |
| `Game.OnEvent` | sdl-game-test/game.cpp:160-200 | quit clears `running`. Key-down of left/a or right/d sets that flag and clears the other. Key-up clears that flag and restarts the idle clip. Other events change nothing, and both flags are never set together |
| `Game.NeverBothDirections` | sdl-game-test/game.cpp:173-182 | starting without both flags, no sequence of events sets both `left` and `right` |
| `Game.RunningUntilQuit` | sdl-game-test/game.cpp:164-167 | after a batch the game still runs exactly when it ran before and the batch held no quit |
| `Game.PressReleaseRight` | sdl-game-test/game.cpp:185-198 | pressing then releasing right leaves no flag set and the idle clip current with counter 0, so the next move leaves the player where it is |
| `Game.SelectClip` | sdl-game-test/game.cpp:206-222 | the clip after `update` is `runRight` if right is set, else `runLeft` if left is set, else unchanged. With at most one flag set, the counter resets only when the clip changes |
| `Game.Game.constructor` | sdl-game-test/game.cpp:80-89 | the player is placed at `{100,375,72,78}` with clips idle (0), runRight (1) and runLeft (2), with idle current. The level's tiles are loaded, or none if the level is unreadable. `running` is true and both flags are false |
| `Game.Game.LoadMap` | sdl-game-test/game.cpp:240-283 | an unreadable level leaves `backgroundMap` unchanged. Otherwise the level's tiles are appended to the old map in row-major order |
| `Game.Game.LoadRow` | sdl-game-test/game.cpp:267-280 | reading one grid row appends that row's tiles and moves the stream to the next row |
| `Game.Game.MapCollision` | sdl-game-test/game.cpp:285-303 | the result is `Blocked(obj.dest, dx, backgroundMap)`: out of the window, or overlapping some tile with `y` unchanged. It changes nothing |
| `Game.Game.KeyInput` | sdl-game-test/game.cpp:156-202 | the flags, the active clip and the counter become `OnEvents` of the events in order. The clips are unchanged and at most one direction stays set |
| `Game.Game.Update` | sdl-game-test/game.cpp:204-230 | the running clip is switched in as `SelectClip` says, the player moves as `Move` says, and `updateAnimation` then runs on the resulting clip |
| `Game.Game.Render` | sdl-game-test/game.cpp:119-154 | draws the map tiles in load order, then the player |
| `Game.Tick` | sdl-game-test/game.cpp:113-115 | one iteration after its render: `keyInput` of the batch, then `update`. The clip indices stay valid. The loop goes on exactly when it was running and the batch held no quit. The two directions stay exclusive, and a safe player stays safe |
| `Game.Ticks` | sdl-game-test/game.cpp:111-116 | one `Tick` per batch, in order. Still running exactly when it started running and no batch held a quit. Exclusivity and safety are kept throughout |
| `Game.QuitInLast` | sdl-game-test/game.cpp:111 | a loop that started running, stopped after `n` batches, and saw no quit in the first `n - 1` found it in batch `n` |
| `Game.Game.Iteration` | sdl-game-test/game.cpp:113-115 | draws the map and then the current player, and the new state is `Tick` of the old state and the batch |
| `Game.Game.MainLoop` | sdl-game-test/game.cpp:109-117 | the loop does not run when not running. Frame `k` draws the whole map, then the player as it is after `k` ticks from the starting state (`FramesOf`). The final state is the state after one `Tick` per frame. No batch before the last one handled holds a quit, and if the loop stopped, the last batch held one. Otherwise the script ran out. A player that starts clear of the window edges and the tiles stays clear in every frame |
| `Essos.CursorAfterKey` | essos-test/essos-sample.cpp:88-111 | UP/DOWN move the row cyclically (`(row+2)%3`, `(row+1)%3`) and keep the column. LEFT/RIGHT do the same for the column. Other keys change nothing. The cursor stays in 0..2 |
| `Essos.KeysUndo` | essos-test/essos-sample.cpp:92-109 | up then down, down then up, left then right and right then left restore the cursor |
| `Essos.CellIndex` | essos-test/essos-sample.cpp:123-153 | the cell is in 0..2. It is 0 exactly below `W/8 + W/4`, and 2 exactly from `W/8 + 2*(W/4)` on (C division) |
| `Essos.CellMonotone` | essos-test/essos-sample.cpp:140-152 | a larger coordinate never picks an earlier cell |
| `Essos.CentreCell` | essos-test/essos-sample.cpp:227-230 | on an axis of 16 pixels or more, the centre picks the middle cell |
| `Essos.Pressed` | essos-test/essos-sample.cpp:175-191 | a touch takes slot 1 if free (count 1), else slot 2 if free (count 2), else is ignored |
| `Essos.Released` | essos-test/essos-sample.cpp:193-205 | frees only the slot holding the id (slot 1 first) and counts one touch fewer; an unknown id changes nothing |
| `Essos.Moved` | essos-test/essos-sample.cpp:207-219 | updates only the coordinates of the slot holding the id; ids and count are unchanged |
| `Essos.PressThenRelease` | essos-test/essos-sample.cpp:175-205 | a touch pressed into a free slot and released restores the slot ids |
| `Essos.Sample.constructor` | essos-test/essos-sample.cpp:42-54 | the cursor starts at (1, 1), both slots are free (id -1) and the count is 0 |
| `Essos.Sample.KeyPressed` | essos-test/essos-sample.cpp:88-111 | the cursor becomes `CursorAfterKey` of the old cursor, and stays on the grid |
| `Essos.Sample.SetTrianglePosition` | essos-test/essos-sample.cpp:123-153 | the column is `CellIndex(x, width)` and the row is `CellIndex(y, height)` |
| `Essos.Sample.PointerButtonPressed` | essos-test/essos-sample.cpp:159-162 | a pointer press puts the cursor on the cell under it |
| `Essos.Sample.TouchDown` | essos-test/essos-sample.cpp:175-191 | the touch state becomes `Pressed` of the old one |
| `Essos.Sample.TouchUp` | essos-test/essos-sample.cpp:193-205 | the touch state becomes `Released` of the old one |
| `Essos.Sample.TouchMotion` | essos-test/essos-sample.cpp:207-219 | the touch state becomes `Moved` of the old one |
| `Essos.Sample.TouchFrame` | essos-test/essos-sample.cpp:221-232 | with count 1 the cursor goes under touch 1, and with count 2 under the display centre. Otherwise it stays. The count is always reset to 0 |

## Left out

- SDL, TTF, GL/EGL/GLES and Essos calls are foreign library code and are not modelled: window, renderer and context setup and teardown, `SDL_RenderCopy`, clearing and presenting, `drawMsg`, shader code, and the Qt and plain SDL samples.
- Frame pacing with `SDL_GetTicks`/`SDL_Delay` is clock I/O and is not modelled. It caps the loop at about 60 iterations a second, so it sets how fast the player moves on screen. The state after each iteration does not depend on it, because nothing feeds elapsed time into `update`. Only how often iterations happen in real time does.
- `Object::setImage`: image and texture loading is foreign. A texture is an opaque value passed in, and a failed load is not modelled.
- The `Entity` header is not part of this model. The `Cycle` fields and the entity's fields are inferred from their uses in `entity.cpp`.
- Integer width: C++ `int` arithmetic is modelled unbounded. 32-bit overflow in `w * tick`, in tile positions or in the touch count is not modelled; the game's values stay far below it.
- Game.Game.LoadMap: requires a complete header and grid. What `std::ifstream >>` does on missing or non-numeric tokens is not modelled. The inner loop over one row is split out as `LoadRow` so that each proof stays small.
- Game.Game.MainLoop: the source loops until a quit event arrives. The model also stops when its script of event batches runs out.
- Game.Game.constructor: `Game::Game` ends by entering `mainLoop`. The model's constructor stops before that call, and `MainLoop` is called separately.
- `Game::~Game` and `main`'s exception handler only release or report foreign resources.
- Essos: the signal handler and terminate listener that clear `gRunning` asynchronously, the `displaySize` callback, the render loop and its floating-point transform are not modelled. The commented-out gamepad code is not compiled. The display size is the one the Essos context reports at setup, passed to the `Sample` constructor.
- TileMap.OverlapsIffSharedPixel: holds for rectangles of positive width and height only; for empty rectangles the code's test and the pixel reading differ.
- Animation.Entity.UpdateAnimation: requires the active index to name a clip. With any other index the C++ code indexes out of bounds, which is undefined behaviour.
- Game.Game.KeyInput, Game.Game.Update and Game.Game.MainLoop: require the state the constructor sets up: the three clip indices name well-formed clips and at most one direction flag is set.
- Essos.CentreCell: assumes an axis of at least 16 pixels. Shorter axes are covered by `CellIndex` itself.
