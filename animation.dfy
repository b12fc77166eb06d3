/** The animation clip registry of the sample game (sdl-game-test/entity.cpp).
    An Entity owns a growing list of clips, an active clip index and a hold
    counter (`currentAnimationIterator`); each update tick crops the sprite
    from the active clip's current frame and advances that frame every
    `speed + 1` ticks. */
module Animation {
  import opened Sprites

  /** One clip (`Cycle`): its atlas row (zero-based), the frame size, the
      number of frames, the hold count and the current frame (`tick`). */
  datatype Cycle = Cycle(row: int, w: int, h: int, amount: int, speed: int, tick: int)

  /** The shape every clip the game registers has, and that updates keep. */
  predicate Wellformed(c: Cycle)
  {
    c.amount > 0 && 0 <= c.tick < c.amount && c.speed >= 0
  }

  /** The atlas crop showing the clip's current frame. */
  function FrameRect(c: Cycle): Rect
  {
    Rect(c.w * c.tick, c.h * c.row, c.w, c.h)
  }

  /** The frame that follows the current one, cyclically. */
  function NextFrame(c: Cycle): (t: int)
    requires Wellformed(c)
    ensures 0 <= t < c.amount
    ensures t == (c.tick + 1) % c.amount
  {
    if c.tick + 1 >= c.amount then 0 else c.tick + 1
  }

  /** What one `updateAnimation` call does to the active clip and to the
      hold counter: the pair (clip afterwards, counter afterwards). */
  function Step(c: Cycle, counter: int): (r: (Cycle, int))
    // only the current frame of the clip can change
    ensures r.0.(tick := c.tick) == c
    // the frame stays in range, wrapping to 0
    ensures Wellformed(c) ==> Wellformed(r.0)
    // the hold counter stays bounded by speed + 1 and is never 0 afterwards
    ensures c.speed >= 0 && 0 <= counter <= c.speed + 1 ==> 1 <= r.1 <= c.speed + 1
    // the frame advances exactly when the counter has passed the hold count
    ensures Wellformed(c) ==>
      (r.0.tick == if counter > c.speed then NextFrame(c) else c.tick)
  {
    var advanced := counter > c.speed;
    var tick := if advanced then c.tick + 1 else c.tick;
    var counter' := (if advanced then 0 else counter) + 1;
    (c.(tick := if tick >= c.amount then 0 else tick), counter')
  }

  /** `n` consecutive `updateAnimation` calls on the same active clip. */
  function Run(c: Cycle, counter: int, n: nat): (Cycle, int)
    decreases n
  {
    if n == 0 then (c, counter)
    else
      var s := Step(c, counter);
      Run(s.0, s.1, n - 1)
  }

  /** Running `a` ticks and then `b` ticks is running `a + b` ticks. */
  lemma {:induction false} RunSplit(c: Cycle, counter: int, a: nat, b: nat)
    ensures Run(c, counter, a + b) == Run(Run(c, counter, a).0, Run(c, counter, a).1, b)
    decreases a
  {
    if a > 0 {
      var s := Step(c, counter);
      RunSplit(s.0, s.1, a - 1, b);
    }
  }

  /** While the counter has not passed the hold count the frame is held:
      `n` ticks from counter `k` leave the clip as it is and raise the
      counter to `k + n`. */
  lemma {:induction false} Hold(c: Cycle, k: int, n: nat)
    requires Wellformed(c) && 0 <= k && k + n <= c.speed + 1
    ensures Run(c, k, n) == (c, k + n)
    decreases n
  {
    if n > 0 {
      assert Step(c, k) == (c, k + 1);
      Hold(c, k + 1, n - 1);
    }
  }

  /** After `setCurAnimation` (counter 0) the first `speed + 1` ticks hold the
      frame, and the `(speed + 2)`-th tick advances it and resets the counter
      to 1. */
  lemma FirstAdvance(c: Cycle)
    requires Wellformed(c)
    ensures Run(c, 0, c.speed + 1) == (c, c.speed + 1)
    ensures Run(c, 0, c.speed + 2) == (c.(tick := NextFrame(c)), 1)
  {
    Hold(c, 0, c.speed + 1);
    RunSplit(c, 0, c.speed + 1, 1);
  }

  /** From then on the frame advances once every `speed + 1` ticks. */
  lemma Period(c: Cycle)
    requires Wellformed(c)
    ensures Run(c, 1, c.speed + 1) == (c.(tick := NextFrame(c)), 1)
  {
    Hold(c, 1, c.speed);
    RunSplit(c, 1, c.speed, 1);
  }

  /** `m` periods advance the frame by `m`, modulo the frame count. */
  lemma {:induction false} Periods(c: Cycle, m: nat)
    requires Wellformed(c)
    ensures Run(c, 1, m * (c.speed + 1)) == (c.(tick := (c.tick + m) % c.amount), 1)
    decreases m
  {
    if m > 0 {
      var p := c.speed + 1;
      Periods(c, m - 1);
      var mid := c.(tick := (c.tick + m - 1) % c.amount);
      MulStep(m, p);
      RunSplit(c, 1, (m - 1) * p, p);
      Period(mid);
      ModSucc(c.tick + m - 1, c.amount);
    }
  }

  lemma MulStep(m: nat, p: nat)
    requires m > 0
    ensures m * p == (m - 1) * p + p
  {
  }

  /** Euclidean quotient and remainder are determined by the division identity. */
  lemma DivModUnique(x: int, a: int, q: int, r: int)
    requires a > 0 && 0 <= r < a && x == q * a + r
    ensures x / a == q && x % a == r
  {
    var q', r' := x / a, x % a;
    assert (q - q') * a == r' - r;
    if q > q' {
      MulAtLeast(q - q', a);
    } else if q < q' {
      MulAtLeast(q' - q, a);
    }
  }

  lemma MulAtLeast(k: int, a: int)
    requires k >= 1 && a > 0
    ensures k * a >= a
  {
  }

  lemma ModSucc(x: nat, a: int)
    requires a > 0
    ensures (if x % a + 1 >= a then 0 else x % a + 1) == (x + 1) % a
  {
    var q, r := x / a, x % a;
    if r + 1 < a {
      DivModUnique(x + 1, a, q, r + 1);
    } else {
      DivModUnique(x + 1, a, q + 1, 0);
    }
  }

  /** A clip with `amount` frames returns to its starting frame after
      `amount * (speed + 1)` ticks. */
  lemma Cyclic(c: Cycle)
    requires Wellformed(c)
    ensures Run(c, 1, c.amount * (c.speed + 1)) == (c, 1)
  {
    Periods(c, c.amount);
    DivModUnique(c.tick + c.amount, c.amount, 1, c.tick);
  }

  class Entity {
    /** The Object part of the Entity (`class Entity : public Object`). */
    const sprite: Object
    var animations: seq<Cycle>
    var currAnim: int
    /** `currentAnimationIterator`: ticks since the frame last advanced. */
    var iter: int

    /** Every clip is well formed, the active index names a clip and the
        counter is within the active clip's hold bound. */
    ghost predicate Valid()
      reads this
    {
      (forall i :: 0 <= i < |animations| ==> Wellformed(animations[i])) &&
      0 <= currAnim < |animations| &&
      0 <= iter <= animations[currAnim].speed + 1
    }

    constructor (t: Texture)
      ensures fresh(sprite) && sprite.tex == t
      ensures animations == []
    {
      sprite := new Object(t);
      animations := [];
    }

    /** Registers a clip; `row` is given one-based. Returns the clip's index. */
    method CreateAnimation(row: int, w: int, h: int, amount: int, speed: int) returns (index: int)
      modifies this`animations
      ensures animations == old(animations) + [Cycle(row - 1, w, h, amount, speed, 0)]
      ensures index == |old(animations)| && animations[index].tick == 0
    {
      animations := animations + [Cycle(row - 1, w, h, amount, speed, 0)];
      index := |animations| - 1;
    }

    /** Makes `ca` the active clip and restarts the hold counter; the clip's
        current frame is kept. */
    method SetCurAnimation(ca: int)
      modifies this`currAnim, this`iter
      ensures currAnim == ca && iter == 0
      ensures animations == old(animations)
    {
      iter := 0;
      currAnim := ca;
    }

    method GetCurAnimation() returns (ca: int)
      ensures ca == currAnim
    {
      ca := currAnim;
    }

    /** One animation tick: crop the sprite from the active clip's frame as
        it was on entry, then advance the clip per `Step`. */
    method UpdateAnimation()
      requires 0 <= currAnim < |animations|
      modifies this`animations, this`iter, sprite`src
      ensures sprite.src == FrameRect(old(animations[currAnim]))
      ensures animations == old(animations)[currAnim := Step(old(animations[currAnim]), old(iter)).0]
      ensures iter == Step(old(animations[currAnim]), old(iter)).1
      ensures currAnim == old(currAnim)
      ensures sprite.dest == old(sprite.dest) && sprite.tex == old(sprite.tex)
      ensures old(Valid()) ==> Valid()
    {
      var c := animations[currAnim];
      sprite.SetSrc(Rect(c.w * c.tick, c.h * c.row, c.w, c.h));
      if iter > c.speed {
        c := c.(tick := c.tick + 1);
        iter := 0;
      }
      iter := iter + 1;
      if c.tick >= c.amount {
        c := c.(tick := 0);
      }
      animations := animations[currAnim := c];
    }
  }
}
