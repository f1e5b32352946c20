/** Held movement keys and the per-axis arithmetic of a movement tick (src/main.js:102-117, 201-237). */
module Movement {
  import opened Config
  import opened Sprite

  datatype Option<T> = None | Some(value: T)

  /** A key counts as held when its last event was a key-down; keys never pressed are not held. */
  predicate Pressed(keys: map<string, bool>, k: string) {
    k in keys && keys[k]
  }

  /** Recording an event for key k decides whether k is held and leaves every other key as it was. */
  lemma KeyEvent(keys: map<string, bool>, k: string, b: bool, j: string)
    ensures Pressed(keys[k := b], j) == (if j == k then b else Pressed(keys, j))
  {
  }

  /** Which of the four movement directions are held, each by its arrow key or its WASD key. */
  datatype Held = Held(up: bool, down: bool, left: bool, right: bool)

  /** The arrow key bound to each direction. */
  function ArrowKey(d: Direction): string {
    match d
    case Up => "ArrowUp"
    case Down => "ArrowDown"
    case Left => "ArrowLeft"
    case Right => "ArrowRight"
  }

  /** The WASD key bound to each direction. */
  function LetterKey(d: Direction): string {
    match d
    case Up => "w"
    case Down => "s"
    case Left => "a"
    case Right => "d"
  }

  function HeldKeys(keys: map<string, bool>): Held {
    Held(Pressed(keys, "ArrowUp") || Pressed(keys, "w"),
         Pressed(keys, "ArrowDown") || Pressed(keys, "s"),
         Pressed(keys, "ArrowLeft") || Pressed(keys, "a"),
         Pressed(keys, "ArrowRight") || Pressed(keys, "d"))
  }

  /** A key that is bound to no direction (space, or an upper-case letter) never changes which directions are held. */
  lemma {:induction false} OtherKeysIgnored(keys: map<string, bool>, k: string, b: bool)
    requires forall d :: k != ArrowKey(d) && k != LetterKey(d)
    ensures HeldKeys(keys[k := b]) == HeldKeys(keys)
  {
    assert k != ArrowKey(Up) && k != LetterKey(Up);
    assert k != ArrowKey(Down) && k != LetterKey(Down);
    assert k != ArrowKey(Left) && k != LetterKey(Left);
    assert k != ArrowKey(Right) && k != LetterKey(Right);
  }

  predicate IsHeld(h: Held, d: Direction) {
    match d
    case Up => h.up
    case Down => h.down
    case Left => h.left
    case Right => h.right
  }

  predicate AnyHeld(h: Held) {
    h.up || h.down || h.left || h.right
  }

  /** Position of a direction in the order in which a tick tests the keys. */
  function TestOrder(d: Direction): nat {
    match d
    case Up => 0
    case Down => 1
    case Left => 2
    case Right => 3
  }

  /**
   * The direction the player faces after a tick: of the held directions, the
   * one tested last; None when no direction is held (the facing is kept).
   */
  function Facing(h: Held): (r: Option<Direction>)
    ensures r.None? <==> forall d :: !IsHeld(h, d)
    ensures r.Some? ==> IsHeld(h, r.value)
    ensures r.Some? ==> forall d :: IsHeld(h, d) ==> TestOrder(d) <= TestOrder(r.value)
  {
    if h.right then assert IsHeld(h, Right); Some(Right)
    else if h.left then assert IsHeld(h, Left); Some(Left)
    else if h.down then assert IsHeld(h, Down); Some(Down)
    else if h.up then assert IsHeld(h, Up); Some(Up)
    else None
  }

  /**
   * Net change of one coordinate in a tick: `speed` is subtracted when the
   * `minus` key is held and added when the `plus` key is held.
   */
  function Offset(speed: real, minus: bool, plus: bool): (r: real)
    ensures minus == plus ==> r == 0.0
    ensures minus != plus ==> r == speed || r == -speed
    ensures plus && !minus ==> r == speed
    ensures minus && !plus ==> r == -speed
  {
    (if plus then speed else 0.0) - (if minus then speed else 0.0)
  }

  function Dist(a: real, b: real): real {
    if a < b then b - a else a - b
  }

  /** The point of [0, hi] nearest to v. */
  function Clamp(v: real, hi: real): (r: real)
    requires 0.0 <= hi
    ensures 0.0 <= r <= hi
    ensures forall z :: 0.0 <= z <= hi ==> Dist(r, v) <= Dist(z, v)
  {
    if v < 0.0 then 0.0 else if v > hi then hi else v
  }
}
