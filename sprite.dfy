/** Facing directions and the animation clock of the player sprite (src/main.js:196-198, 202-244). */
module Sprite {
  import opened Config

  datatype Direction = Up | Down | Left | Right

  /** Row of the sprite atlas that shows the player facing `d`. */
  function Row(d: Direction): (r: nat)
    ensures r < SpriteGridSize
  {
    match d
    case Up => 0
    case Right => 1
    case Down => 2
    case Left => 3
  }

  /** Each direction has a row of its own. */
  lemma RowsDistinct(d: Direction, e: Direction)
    ensures Row(d) == Row(e) ==> d == e
  {
  }

  /** The animation column shown (`frameX`) and the tick counter (`frameCount`). */
  datatype Anim = Anim(frameX: nat, count: nat)

  /**
   * One tick of the animation clock. The counter always advances; while the
   * player moves and the counter has reached FrameDelay, the column moves on
   * by one, wrapping around the atlas, and the counter starts again.
   */
  function Animate(a: Anim, moving: bool): (r: Anim)
    ensures a.frameX < SpriteGridSize ==> r.frameX < SpriteGridSize
    ensures r.frameX != a.frameX <==> moving && a.count + 1 >= FrameDelay
    ensures r.frameX != a.frameX ==> r.frameX == (a.frameX + 1) % SpriteGridSize && r.count == 0
    ensures r.frameX == a.frameX ==> r.count == a.count + 1
    ensures moving ==> r.count < FrameDelay
  {
    var count := a.count + 1;
    if moving && count >= FrameDelay then Anim((a.frameX + 1) % SpriteGridSize, 0)
    else Anim(a.frameX, count)
  }

  /** The animation after `n` ticks with the same moving flag. */
  function Animated(a: Anim, moving: bool, n: nat): Anim
    decreases n
  {
    if n == 0 then a else Animated(Animate(a, moving), moving, n - 1)
  }

  lemma {:induction false} AnimatedSplit(a: Anim, moving: bool, i: nat, j: nat)
    ensures Animated(a, moving, i + j) == Animated(Animated(a, moving, i), moving, j)
    decreases i
  {
    if i > 0 {
      AnimatedSplit(Animate(a, moving), moving, i - 1, j);
    }
  }

  /**
   * While the player stands still the column never changes, but the counter
   * keeps running, so it is not back at zero when the player moves again.
   */
  lemma {:induction false} StandingStill(a: Anim, n: nat)
    ensures Animated(a, false, n) == Anim(a.frameX, a.count + n)
    decreases n
  {
    if n > 0 {
      StandingStill(Animate(a, false), n - 1);
    }
  }

  /** From a reset counter, FrameDelay ticks of movement show the next column. */
  lemma OneFrame(f: nat)
    requires f < SpriteGridSize
    ensures Animated(Anim(f, 0), true, FrameDelay) == Anim((f + 1) % SpriteGridSize, 0)
  {
  }

  /** Moving without pause for k times FrameDelay ticks cycles the column k steps round the atlas. */
  lemma {:induction false} WalkingCycle(f: nat, k: nat)
    requires f < SpriteGridSize
    ensures Animated(Anim(f, 0), true, FrameDelay * k) == Anim((f + k) % SpriteGridSize, 0)
    decreases k
  {
    if k > 0 {
      var g := (f + 1) % SpriteGridSize;
      AnimatedSplit(Anim(f, 0), true, FrameDelay, FrameDelay * (k - 1));
      OneFrame(f);
      WalkingCycle(g, k - 1);
      assert (g + (k - 1)) % SpriteGridSize == (f + k) % SpriteGridSize by {
        ModShift(f, k - 1);
      }
    }
  }

  lemma ModShift(f: nat, j: nat)
    ensures ((f + 1) % SpriteGridSize + j) % SpriteGridSize == (f + 1 + j) % SpriteGridSize
  {
  }
}
