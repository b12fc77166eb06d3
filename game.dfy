/** The sample game's `Game` class (sdl-game-test/game.hpp and game.cpp):
    the level's tiles, the player entity, the movement flags, and the loop
    that renders, polls input and updates, in that order, until quit. */
module Game {
  import opened Sprites
  import opened Animation
  import opened TileMap

  /** The keys the game reacts to; every other key is `OtherKey`. */
  datatype Key = KeyA | KeyLeft | KeyD | KeyRight | OtherKey(code: int)

  /** The SDL events `keyInput` distinguishes. */
  datatype Event = Quit | KeyDown(key: Key) | KeyUp(key: Key) | OtherEvent

  predicate IsLeftKey(k: Key) { k == KeyA || k == KeyLeft }
  predicate IsRightKey(k: Key) { k == KeyD || k == KeyRight }

  /** The part of the game state `keyInput` can change: the loop flag, the
      two movement flags, and the player's active clip and hold counter. */
  datatype Controls = Controls(running: bool, left: bool, right: bool, clip: int, counter: int)

  /** How one event changes the controls; `idle` is the idle clip. */
  function OnEvent(c: Controls, idle: int, e: Event): (r: Controls)
    // the two movement flags are never both set after a key event
    ensures !(c.left && c.right) ==> !(r.left && r.right)
    // once the loop is told to stop it stays stopped; quit stops it
    ensures r.running == (c.running && !e.Quit?)
    // key-down of a direction sets that flag and clears the other
    ensures e.KeyDown? && IsLeftKey(e.key) ==> r == c.(left := true, right := false)
    ensures e.KeyDown? && IsRightKey(e.key) ==> r == c.(left := false, right := true)
    // key-up of a direction clears that flag and restarts the idle clip
    ensures e.KeyUp? && IsLeftKey(e.key) ==> r == c.(left := false, clip := idle, counter := 0)
    ensures e.KeyUp? && IsRightKey(e.key) ==> r == c.(right := false, clip := idle, counter := 0)
    // every other event changes nothing but the running flag
    ensures !((e.KeyDown? || e.KeyUp?) && (IsLeftKey(e.key) || IsRightKey(e.key))) ==>
      r == c.(running := r.running)
  {
    match e
    case Quit => c.(running := false)
    case KeyDown(k) =>
      if IsLeftKey(k) then c.(left := true, right := false)
      else if IsRightKey(k) then c.(left := false, right := true)
      else c
    case KeyUp(k) =>
      if IsLeftKey(k) then c.(left := false, clip := idle, counter := 0)
      else if IsRightKey(k) then c.(right := false, clip := idle, counter := 0)
      else c
    case OtherEvent => c
  }

  /** The controls after handling `es` in order. */
  function OnEvents(c: Controls, idle: int, es: seq<Event>): (r: Controls)
    // a batch can only leave the active clip alone or restart the idle clip
    ensures r.clip == c.clip || r.clip == idle
    decreases |es|
  {
    if es == [] then c else OnEvent(OnEvents(c, idle, es[..|es| - 1]), idle, es[|es| - 1])
  }

  /** Handling any batch of events never leaves both movement flags set. */
  lemma {:induction false} NeverBothDirections(c: Controls, idle: int, es: seq<Event>)
    requires !(c.left && c.right)
    ensures !(OnEvents(c, idle, es).left && OnEvents(c, idle, es).right)
    decreases |es|
  {
    if es != [] {
      NeverBothDirections(c, idle, es[..|es| - 1]);
    }
  }

  /** The loop keeps running after a batch exactly when it was running and
      the batch holds no quit event. */
  lemma {:induction false} RunningUntilQuit(c: Controls, idle: int, es: seq<Event>)
    ensures OnEvents(c, idle, es).running <==> c.running && forall k :: 0 <= k < |es| ==> !es[k].Quit?
    decreases |es|
  {
    if es != [] {
      RunningUntilQuit(c, idle, es[..|es| - 1]);
      assert forall k :: 0 <= k < |es| - 1 ==> es[..|es| - 1][k] == es[k];
    }
  }

  /** Pressing and then releasing the right key leaves the player idle with
      no movement flag set, so the next update does not move the player. */
  lemma PressReleaseRight(c: Controls, idle: int, d: Rect, tiles: seq<Sprite>)
    requires !(c.left && c.right)
    ensures var r := OnEvents(c, idle, [KeyDown(KeyRight), KeyUp(KeyRight)]);
      !r.left && !r.right && r.clip == idle && r.counter == 0 &&
      Move(d, r.left, r.right, tiles) == d
  {
    var es := [KeyDown(KeyRight), KeyUp(KeyRight)];
    assert es[..1][..0] == [] && es[..1] == [KeyDown(KeyRight)];
  }

  /** Which clip `update` makes current, and the hold counter after it:
      a set movement flag switches to its running clip unless that clip is
      already current. */
  function SelectClip(left: bool, right: bool, runLeft: int, runRight: int, clip: int, counter: int): (r: (int, int))
    ensures r.0 == if right then runRight else if left then runLeft else clip
    ensures !(left && right) ==> r == if r.0 == clip then (clip, counter) else (r.0, 0)
  {
    var c1 := if left && clip != runLeft then (runLeft, 0) else (clip, counter);
    if right && c1.0 != runRight then (runRight, 0) else c1
  }

  /** The state one iteration of `mainLoop` changes: the controls, the
      player's clips and the player's sprite. */
  datatype LoopState = LoopState(controls: Controls, clips: seq<Cycle>, sprite: Sprite)

  /** The three clip indices and the active clip name clips. */
  predicate ClipsInRange(w: LoopState, idle: int, runLeft: int, runRight: int)
  {
    0 <= idle < |w.clips| && 0 <= runLeft < |w.clips| && 0 <= runRight < |w.clips| &&
    0 <= w.controls.clip < |w.clips|
  }

  /** One iteration of `mainLoop` after its render: `keyInput` handles
      `batch`, then `update` switches clips, moves the player and advances
      the animation. */
  function Tick(w: LoopState, batch: seq<Event>, idle: int, runLeft: int, runRight: int,
                tiles: seq<Sprite>): (r: LoopState)
    requires ClipsInRange(w, idle, runLeft, runRight)
    ensures ClipsInRange(r, idle, runLeft, runRight) && |r.clips| == |w.clips|
    // the loop goes on exactly when it was running and the batch held no quit
    ensures r.controls.running <==> w.controls.running && Quit !in batch
    // never both directions, and never into a wall, a tile or out of the window
    ensures !(w.controls.left && w.controls.right) ==> !(r.controls.left && r.controls.right)
    ensures Safe(w.sprite.dest, tiles) ==> Safe(r.sprite.dest, tiles)
    ensures r.sprite.tex == w.sprite.tex
  {
    RunningUntilQuit(w.controls, idle, batch);
    var c := OnEvents(w.controls, idle, batch);
    var s := SelectClip(c.left, c.right, runLeft, runRight, c.clip, c.counter);
    var clip := w.clips[s.0];
    var st := Step(clip, s.1);
    var r := LoopState(c.(clip := s.0, counter := st.1), w.clips[s.0 := st.0],
                       Sprite(FrameRect(clip), Move(w.sprite.dest, c.left, c.right, tiles), w.sprite.tex));
    if w.controls.left && w.controls.right then r
    else NeverBothDirections(w.controls, idle, batch); r
  }

  /** The state after one `Tick` per batch of `script`, in order. */
  function Ticks(w: LoopState, script: seq<seq<Event>>, idle: int, runLeft: int, runRight: int,
                 tiles: seq<Sprite>): (r: LoopState)
    requires ClipsInRange(w, idle, runLeft, runRight)
    ensures ClipsInRange(r, idle, runLeft, runRight) && |r.clips| == |w.clips|
    // the loop is still running exactly when no batch so far held a quit
    ensures r.controls.running <==>
      w.controls.running && forall k :: 0 <= k < |script| ==> Quit !in script[k]
    ensures !(w.controls.left && w.controls.right) ==> !(r.controls.left && r.controls.right)
    ensures Safe(w.sprite.dest, tiles) ==> Safe(r.sprite.dest, tiles)
    decreases |script|
  {
    if script == [] then w
    else
      var prefix := script[..|script| - 1];
      assert forall k :: 0 <= k < |prefix| ==> prefix[k] == script[k];
      Tick(Ticks(w, prefix, idle, runLeft, runRight, tiles), script[|script| - 1],
           idle, runLeft, runRight, tiles)
  }

  /** `frames[k]` draws the map `tiles`, then the player as it is after the
      first `k` batches of `script`. */
  predicate FramesOf(frames: seq<seq<Sprite>>, w0: LoopState, script: seq<seq<Event>>,
                     idle: int, runLeft: int, runRight: int, tiles: seq<Sprite>)
  {
    ClipsInRange(w0, idle, runLeft, runRight) && |frames| <= |script| &&
    forall k :: 0 <= k < |frames| ==>
      frames[k] == tiles + [Ticks(w0, script[..k], idle, runLeft, runRight, tiles).sprite]
  }

  /** Drawing the state after the frames so far extends `FramesOf` by one frame. */
  lemma FramesSnoc(frames: seq<seq<Sprite>>, drawn: seq<Sprite>, w0: LoopState, script: seq<seq<Event>>,
                   idle: int, runLeft: int, runRight: int, tiles: seq<Sprite>)
    requires FramesOf(frames, w0, script, idle, runLeft, runRight, tiles) && |frames| < |script|
    requires drawn == tiles + [Ticks(w0, script[..|frames|], idle, runLeft, runRight, tiles).sprite]
    ensures FramesOf(frames + [drawn], w0, script, idle, runLeft, runRight, tiles)
  {
    var fs := frames + [drawn];
    forall k | 0 <= k < |fs|
      ensures fs[k] == tiles + [Ticks(w0, script[..k], idle, runLeft, runRight, tiles).sprite]
    {
      if k < |frames| {
        assert fs[k] == frames[k];
      }
    }
  }

  /** One more batch is one more `Tick`. */
  lemma TicksSnoc(w0: LoopState, script: seq<seq<Event>>, n: nat,
                  idle: int, runLeft: int, runRight: int, tiles: seq<Sprite>)
    requires ClipsInRange(w0, idle, runLeft, runRight) && n < |script|
    ensures Ticks(w0, script[..n + 1], idle, runLeft, runRight, tiles) ==
      Tick(Ticks(w0, script[..n], idle, runLeft, runRight, tiles), script[n], idle, runLeft, runRight, tiles)
  {
    assert script[..n + 1][..n] == script[..n];
  }

  /** Every frame of `FramesOf` shows a safe player when the first state is safe. */
  lemma FramesSafe(frames: seq<seq<Sprite>>, w0: LoopState, script: seq<seq<Event>>,
                   idle: int, runLeft: int, runRight: int, tiles: seq<Sprite>)
    requires FramesOf(frames, w0, script, idle, runLeft, runRight, tiles)
    requires Safe(w0.sprite.dest, tiles)
    ensures forall k :: 0 <= k < |frames| ==> Safe(frames[k][|tiles|].dest, tiles)
  {
    forall k | 0 <= k < |frames|
      ensures Safe(frames[k][|tiles|].dest, tiles)
    {
      assert frames[k][|tiles|] == Ticks(w0, script[..k], idle, runLeft, runRight, tiles).sprite;
    }
  }

  /** Still running after `n` batches means none of them held a quit. */
  lemma NoQuitSoFar(w0: LoopState, script: seq<seq<Event>>, n: nat,
                    idle: int, runLeft: int, runRight: int, tiles: seq<Sprite>)
    requires ClipsInRange(w0, idle, runLeft, runRight) && n <= |script|
    requires Ticks(w0, script[..n], idle, runLeft, runRight, tiles).controls.running
    ensures forall k :: 0 <= k < n ==> Quit !in script[k]
  {
    assert forall k :: 0 <= k < n ==> script[..n][k] == script[k];
  }

  /** Stopped after `n` batches, with none of the first `n - 1` holding a
      quit: the last one held it. */
  lemma QuitInLast(w0: LoopState, script: seq<seq<Event>>, n: nat,
                   idle: int, runLeft: int, runRight: int, tiles: seq<Sprite>)
    requires ClipsInRange(w0, idle, runLeft, runRight) && 0 < n <= |script| && w0.controls.running
    requires !Ticks(w0, script[..n], idle, runLeft, runRight, tiles).controls.running
    requires forall k :: 0 <= k < n - 1 ==> Quit !in script[k]
    ensures Quit in script[n - 1]
  {
    var k :| 0 <= k < n && Quit in script[..n][k];
    assert script[..n][k] == script[k];
  }

  lemma AppendRow(before: seq<Sprite>, grid: seq<Sprite>, row: seq<Sprite>)
    ensures before + grid + row == before + (grid + row)
  {
  }

  class Game {
    var backgroundMap: seq<Sprite>
    var running: bool
    const player: Entity
    const playerSpeed: int
    var left: bool
    var right: bool
    var idle: int
    var runLeft: int
    var runRight: int

    /** The player's clips are well formed, the three clip indices name
        clips, and at most one movement flag is set. */
    ghost predicate Valid()
      reads this, player
    {
      player.Valid() && playerSpeed == PlayerSpeed &&
      0 <= idle < |player.animations| &&
      0 <= runLeft < |player.animations| &&
      0 <= runRight < |player.animations| &&
      !(left && right)
    }

    ghost function ControlState(): Controls
      reads this, player
    {
      Controls(running, left, right, player.currAnim, player.iter)
    }

    /** `Game::Game` up to the point where it enters the main loop: the
        player is placed and given its three clips, idle is made current,
        and the level is loaded. `playerTex` and `atlas` stand for the
        textures `setImage` loads. */
    constructor (level: LevelSource, atlas: Texture, playerTex: Texture)
      requires level.Readable? ==> WellFormed(level.tokens)
      ensures Valid() && fresh(player) && fresh(player.sprite)
      ensures running && !left && !right
      ensures player.sprite.dest == Rect(100, 375, 72, 78) && player.sprite.tex == playerTex
      ensures player.animations ==
        [Cycle(0, 24, 26, 4, 20, 0), Cycle(1, 24, 26, 5, 10, 0), Cycle(2, 24, 26, 5, 10, 0)]
      ensures idle == 0 && runRight == 1 && runLeft == 2
      ensures player.currAnim == idle && player.iter == 0
      ensures backgroundMap == if level.Readable? then LevelTiles(level.tokens, atlas) else []
    {
      backgroundMap := [];
      running := true;
      playerSpeed := PlayerSpeed;
      left, right := false, false;
      player := new Entity(playerTex);
      new;
      player.sprite.SetDest(Rect(100, 375, 24 * 3, 26 * 3));
      idle := player.CreateAnimation(1, 24, 26, 4, 20);
      runRight := player.CreateAnimation(2, 24, 26, 5, 10);
      runLeft := player.CreateAnimation(3, 24, 26, 5, 10);
      player.SetCurAnimation(idle);
      LoadMap(level, atlas);
    }

    /** Appends one tile per non-zero cell of the level, in row-major order;
        an unreadable level appends nothing. The map is never cleared. */
    method LoadMap(level: LevelSource, atlas: Texture)
      requires level.Readable? ==> WellFormed(level.tokens)
      modifies this`backgroundMap
      ensures backgroundMap ==
        old(backgroundMap) + if level.Readable? then LevelTiles(level.tokens, atlas) else []
    {
      if level.Unreadable? {
        return;
      }
      var tokens := level.tokens;
      var mapHeight := tokens[1];
      var tmpObj := new Object(atlas);
      ghost var before := backgroundMap;
      var next := 4;
      var h := 0;
      while h < mapHeight
        invariant 0 <= h <= Rows(tokens) && (h < Rows(tokens) ==> h < mapHeight)
        invariant next == RowStart(tokens, h)
        invariant tmpObj.tex == atlas
        invariant backgroundMap == before + GridTiles(tokens, atlas, h)
      {
        next := LoadRow(tokens, atlas, tmpObj, h, next);
        AppendRow(before, GridTiles(tokens, atlas, h), RowTiles(tokens, atlas, h, Columns(tokens)));
        h := h + 1;
      }
    }

    /** The inner loop of `loadMap`: reads the cells of grid row `h`, from
        stream position `next` on, and appends a tile for each non-zero one
        through the scratch object `tmpObj`. */
    method LoadRow(tokens: seq<int>, atlas: Texture, tmpObj: Object, h: nat, next: nat) returns (next': nat)
      requires WellFormed(tokens) && h < Rows(tokens) && next == RowStart(tokens, h)
      requires tmpObj.tex == atlas
      modifies this`backgroundMap, tmpObj`src, tmpObj`dest
      ensures next' == RowStart(tokens, h + 1)
      ensures backgroundMap == old(backgroundMap) + RowTiles(tokens, atlas, h, Columns(tokens))
    {
      RowInRange(tokens, h);
      var mapWidth, mapX, mapY := tokens[0], tokens[2], tokens[3];
      next' := next;
      var w := 0;
      while w < mapWidth
        invariant 0 <= w <= Columns(tokens) && (w < Columns(tokens) ==> w < mapWidth)
        invariant next' == RowStart(tokens, h) + w
        invariant backgroundMap == old(backgroundMap) + RowTiles(tokens, atlas, h, w)
      {
        var currMapObject := tokens[next'];
        assert currMapObject == Cell(tokens, h, w);
        RowTilesNext(tokens, atlas, h, w);
        next' := next' + 1;
        if currMapObject != 0 {
          var t := Tile(currMapObject, h, w, mapX, mapY, atlas);
          tmpObj.SetSrc(t.src);
          tmpObj.SetDest(Rect(w * TileWidth * Scale + mapX, h * TileHeight * Scale + mapY,
                              TileWidth * Scale, TileHeight * Scale));
          assert tmpObj.Value() == t;
          backgroundMap := backgroundMap + [tmpObj.Value()];
        }
        w := w + 1;
      }
    }

    /** `mapCollision`: whether moving `obj` by `dx` horizontally is blocked
        by the window edges or by a tile. Reads the map, changes nothing. */
    method MapCollision(obj: Object, dx: int) returns (blocked: bool)
      ensures blocked == Blocked(obj.dest, dx, backgroundMap)
    {
      var d := obj.GetDest();
      if d.x + dx < 0 || d.x + d.w + dx > WindowWidth {
        return true;
      }
      var i := 0;
      while i < |backgroundMap|
        invariant 0 <= i <= |backgroundMap|
        invariant forall j :: 0 <= j < i ==> !Overlaps(Shift(d, dx), backgroundMap[j].dest)
      {
        var m := backgroundMap[i].dest;
        if d.x + dx < m.x + m.w && d.x + dx + d.w > m.x && d.y < m.y + m.h && d.y + d.h > m.y {
          return true;
        }
        i := i + 1;
      }
      return false;
    }

    /** The part of the game one iteration of `mainLoop` changes. */
    ghost function World(): LoopState
      reads this, player, player.sprite
    {
      LoopState(ControlState(), player.animations, player.sprite.Value())
    }

    /** `keyInput`: handles one batch of pending events in order. */
    method KeyInput(events: seq<Event>)
      requires Valid()
      modifies this`running, this`left, this`right, player`currAnim, player`iter
      ensures Valid()
      ensures ControlState() == OnEvents(old(ControlState()), idle, events)
      ensures player.animations == old(player.animations)
    {
      var i := 0;
      while i < |events|
        invariant 0 <= i <= |events|
        invariant Valid()
        invariant ControlState() == OnEvents(old(ControlState()), idle, events[..i])
        invariant player.animations == old(player.animations)
      {
        assert events[..i + 1][..i] == events[..i];
        match events[i] {
          case Quit =>
            running := false;
          case KeyDown(k) =>
            if IsLeftKey(k) {
              left := true;
              right := false;
            } else if IsRightKey(k) {
              left := false;
              right := true;
            }
          case KeyUp(k) =>
            if IsLeftKey(k) {
              left := false;
              player.SetCurAnimation(idle);
            } else if IsRightKey(k) {
              right := false;
              player.SetCurAnimation(idle);
            }
          case OtherEvent =>
        }
        i := i + 1;
      }
      assert events[..|events|] == events;
    }

    /** `update`: switch to the running clip of a set direction, move by
        `playerSpeed` when `mapCollision` allows it, then advance the
        animation. */
    method Update()
      requires Valid()
      modifies player`currAnim, player`iter, player`animations, player.sprite`src, player.sprite`dest
      ensures Valid()
      ensures player.sprite.dest == Move(old(player.sprite.dest), left, right, backgroundMap)
      ensures var s := SelectClip(left, right, runLeft, runRight, old(player.currAnim), old(player.iter));
        var c := old(player.animations)[s.0];
        player.currAnim == s.0 &&
        player.sprite.src == FrameRect(c) &&
        player.animations == old(player.animations)[s.0 := Step(c, s.1).0] &&
        player.iter == Step(c, s.1).1
    {
      if left {
        var ca := player.GetCurAnimation();
        if ca != runLeft {
          player.SetCurAnimation(runLeft);
        }
        var blocked := MapCollision(player.sprite, -playerSpeed);
        if !blocked {
          var d := player.sprite.GetDest();
          player.sprite.SetDest(Rect(d.x - playerSpeed, d.y, d.w, d.h));
        }
      }
      if right {
        var ca := player.GetCurAnimation();
        if ca != runRight {
          player.SetCurAnimation(runRight);
        }
        var blocked := MapCollision(player.sprite, playerSpeed);
        if !blocked {
          var d := player.sprite.GetDest();
          player.sprite.SetDest(Rect(d.x + playerSpeed, d.y, d.w, d.h));
        }
      }
      player.UpdateAnimation();
    }

    /** What `render` draws, in drawing order: the tiles in load order, then
        the player. */
    method Render() returns (drawn: seq<Sprite>)
      ensures drawn == backgroundMap + [player.sprite.Value()]
    {
      drawn := [];
      var i := 0;
      while i < |backgroundMap|
        invariant 0 <= i <= |backgroundMap|
        invariant drawn == backgroundMap[..i]
      {
        drawn := drawn + [backgroundMap[i]];
        i := i + 1;
      }
      assert backgroundMap[..|backgroundMap|] == backgroundMap;
      var src := player.sprite.GetSrc();
      var dest := player.sprite.GetDest();
      var tex := player.sprite.GetTex();
      drawn := drawn + [Sprite(src, dest, tex)];
    }

    /** The body of `mainLoop`'s loop: render, handle `batch`, update.
        Returns what was drawn. */
    method Iteration(batch: seq<Event>) returns (drawn: seq<Sprite>)
      requires Valid()
      modifies this`running, this`left, this`right
      modifies player`currAnim, player`iter, player`animations, player.sprite`src, player.sprite`dest
      ensures Valid()
      ensures drawn == backgroundMap + [old(World()).sprite]
      ensures World() == Tick(old(World()), batch, idle, runLeft, runRight, backgroundMap)
    {
      drawn := Render();
      KeyInput(batch);
      Update();
    }

    /** `mainLoop`: while running, render, then handle the next batch of
        events, then update. `script[k]` is the batch pending at the k-th
        iteration; the model stops when the script runs out. Returns what
        each iteration drew. */
    method MainLoop(script: seq<seq<Event>>) returns (frames: seq<seq<Sprite>>)
      requires Valid()
      modifies this`running, this`left, this`right
      modifies player`currAnim, player`iter, player`animations, player.sprite`src, player.sprite`dest
      ensures Valid() && backgroundMap == old(backgroundMap)
      ensures |frames| <= |script|
      // one iteration per batch: the state afterwards is one Tick per batch handled
      ensures World() == Ticks(old(World()), script[..|frames|], idle, runLeft, runRight, backgroundMap)
      // frame k draws the whole map, then the player as it is after k iterations
      ensures FramesOf(frames, old(World()), script, idle, runLeft, runRight, backgroundMap)
      // the loop runs only while running, goes on past every batch without a
      // quit, and stops right after the batch holding one
      ensures !old(running) ==> frames == []
      ensures |frames| == |script| || !running
      ensures forall k :: 0 <= k < |frames| - 1 ==> Quit !in script[k]
      ensures old(running) && !running ==> |frames| > 0 && Quit in script[|frames| - 1]
      // a player that starts clear of the window edges and the tiles stays so in every frame
      ensures Safe(old(player.sprite.dest), backgroundMap) ==>
        forall k :: 0 <= k < |frames| ==> Safe(frames[k][|backgroundMap|].dest, backgroundMap)
    {
      ghost var w0 := World();
      ghost var r0 := running;
      frames := [];
      var n := 0;
      while running && n < |script|
        invariant Valid() && backgroundMap == old(backgroundMap)
        invariant n == |frames| <= |script|
        invariant World() == Ticks(w0, script[..n], idle, runLeft, runRight, backgroundMap)
        invariant FramesOf(frames, w0, script, idle, runLeft, runRight, backgroundMap)
        invariant !r0 ==> n == 0
        invariant forall k :: 0 <= k < n - 1 ==> Quit !in script[k]
      {
        NoQuitSoFar(w0, script, n, idle, runLeft, runRight, backgroundMap);
        var drawn := Iteration(script[n]);
        FramesSnoc(frames, drawn, w0, script, idle, runLeft, runRight, backgroundMap);
        TicksSnoc(w0, script, n, idle, runLeft, runRight, backgroundMap);
        frames := frames + [drawn];
        n := n + 1;
      }
      if r0 && !running {
        QuitInLast(w0, script, n, idle, runLeft, runRight, backgroundMap);
      }
      if Safe(w0.sprite.dest, backgroundMap) {
        FramesSafe(frames, w0, script, idle, runLeft, runRight, backgroundMap);
      }
    }
  }
}
