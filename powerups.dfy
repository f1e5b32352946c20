/** Powerup records, their placement, the distance test and the collection scan (src/main.js:86-98, 172-194). */
module Powerups {
  import opened Config

  /** A powerup; its width and height are always PowerupSize. */
  datatype Powerup = Powerup(x: real, y: real, collected: bool)

  /** Two draws of the random source, each in [0, 1). */
  datatype Roll = Roll(rx: real, ry: real)

  predicate ValidRoll(r: Roll) {
    0.0 <= r.rx < 1.0 && 0.0 <= r.ry < 1.0
  }

  predicate ValidRolls(rolls: seq<Roll>) {
    forall i :: 0 <= i < |rolls| ==> ValidRoll(rolls[i])
  }

  /** A powerup lies wholly on the canvas. */
  predicate InField(p: Powerup) {
    0.0 <= p.x <= MaxPowerupX && 0.0 <= p.y <= MaxPowerupY
  }

  /** The powerup placed by one pair of random draws. */
  function Place(r: Roll): (p: Powerup)
    ensures ValidRoll(r) ==> InField(p)
    ensures !p.collected
  {
    Powerup(r.rx * (GameWidth - PowerupSize), r.ry * (GameHeight - PowerupSize), false)
  }

  /** Largest centre-to-centre distance below which the player touches a powerup (63). */
  const Reach: real := PlayerSize / 2.0 + PowerupSize / 2.0

  /** Square of the distance between the centres of the player at (px, py) and of p. */
  function SquaredDistance(px: real, py: real, p: Powerup): (d: real)
    ensures d >= 0.0
    ensures px + PlayerSize / 2.0 == p.x + PowerupSize / 2.0 && py + PlayerSize / 2.0 == p.y + PowerupSize / 2.0 ==> d == 0.0
  {
    var dx := px + PlayerSize / 2.0 - (p.x + PowerupSize / 2.0);
    var dy := py + PlayerSize / 2.0 - (p.y + PowerupSize / 2.0);
    dx * dx + dy * dy
  }

  /** The offsets between the centres, as a scan computes them, give the squared distance. */
  lemma CentreOffsets(px: real, py: real, p: Powerup, dx: real, dy: real)
    requires dx == px + PlayerSize / 2.0 - (p.x + PowerupSize / 2.0)
    requires dy == py + PlayerSize / 2.0 - (p.y + PowerupSize / 2.0)
    ensures SquaredDistance(px, py, p) == dx * dx + dy * dy
  {
  }

  /** The distance test with both sides squared. */
  function Touches(px: real, py: real, p: Powerup): (r: bool)
    ensures px + PlayerSize / 2.0 == p.x + PowerupSize / 2.0 && py + PlayerSize / 2.0 == p.y + PowerupSize / 2.0 ==> r
    ensures r ==> -Reach < px + PlayerSize / 2.0 - (p.x + PowerupSize / 2.0) < Reach
    ensures r ==> -Reach < py + PlayerSize / 2.0 - (p.y + PowerupSize / 2.0) < Reach
  {
    var dx := px + PlayerSize / 2.0 - (p.x + PowerupSize / 2.0);
    var dy := py + PlayerSize / 2.0 - (p.y + PowerupSize / 2.0);
    var d := SquaredDistance(px, py, p);
    if d < Reach * Reach then
      WithinReach(dx, d - dy * dy);
      WithinReach(dy, d - dx * dx);
      true
    else
      false
  }

  /** An offset whose square stays below Reach squared is shorter than Reach. */
  lemma WithinReach(v: real, s: real)
    requires v * v == s && s < Reach * Reach
    ensures -Reach < v < Reach
  {
    if v >= 0.0 {
      SquareMonotone(v, Reach);
    } else {
      assert (-v) * (-v) == v * v;
      SquareMonotone(-v, Reach);
    }
  }

  lemma SquareMonotone(d: real, r: real)
    requires 0.0 <= d && 0.0 < r
    ensures d < r <==> d * d < r * r
  {
    assert (r - d) * (r + d) == r * r - d * d;
    if d < r {
      PositiveProduct(r - d, r + d);
    } else {
      NonNegativeProduct(d - r, d + r);
      assert (d - r) * (d + r) == d * d - r * r;
    }
  }

  lemma PositiveProduct(a: real, b: real)
    requires 0.0 < a && 0.0 < b
    ensures 0.0 < a * b
  {
  }

  lemma NonNegativeProduct(a: real, b: real)
    requires 0.0 <= a && 0.0 <= b
    ensures 0.0 <= a * b
  {
  }

  /**
   * The squared test agrees with comparing the Euclidean distance itself:
   * for the non-negative `distance` whose square is the squared distance,
   * distance < Reach exactly when the player touches p.
   */
  lemma DistanceTest(px: real, py: real, p: Powerup, distance: real)
    requires 0.0 <= distance && distance * distance == SquaredDistance(px, py, p)
    ensures distance < Reach <==> Touches(px, py, p)
  {
    SquareMonotone(distance, Reach);
  }

  /** A scan's visit of one powerup: an uncollected powerup the player touches becomes collected. */
  function Visit(px: real, py: real, p: Powerup): (q: Powerup)
    ensures q.x == p.x && q.y == p.y
    ensures q.collected <==> p.collected || Touches(px, py, p)
  {
    if !p.collected && Touches(px, py, p) then p.(collected := true) else p
  }

  /** The powerups after one collision scan with the player at (px, py). */
  function Scan(ps: seq<Powerup>, px: real, py: real): (r: seq<Powerup>)
    ensures |r| == |ps|
    ensures forall i :: 0 <= i < |ps| ==> r[i] == Visit(px, py, ps[i])
    decreases |ps|
  {
    if ps == [] then [] else Scan(ps[..|ps| - 1], px, py) + [Visit(px, py, ps[|ps| - 1])]
  }

  predicate AllCollected(ps: seq<Powerup>) {
    forall i :: 0 <= i < |ps| ==> ps[i].collected
  }

  /** Number of collected powerups. */
  function CollectedCount(ps: seq<Powerup>): (n: nat)
    ensures n <= |ps|
    ensures n == |ps| <==> AllCollected(ps)
    decreases |ps|
  {
    if ps == [] then 0
    else CollectedCount(ps[..|ps| - 1]) + (if ps[|ps| - 1].collected then 1 else 0)
  }

  /** Number of powerups that a scan with the player at (px, py) collects. */
  function NewlyCollected(ps: seq<Powerup>, px: real, py: real): nat
    decreases |ps|
  {
    if ps == [] then 0
    else
      var p := ps[|ps| - 1];
      NewlyCollected(ps[..|ps| - 1], px, py) + (if !p.collected && Touches(px, py, p) then 1 else 0)
  }

  /** A scan collects exactly the uncollected powerups the player touches, and uncollects none. */
  lemma {:induction false} ScanCount(ps: seq<Powerup>, px: real, py: real)
    ensures CollectedCount(Scan(ps, px, py)) == CollectedCount(ps) + NewlyCollected(ps, px, py)
    decreases |ps|
  {
    if ps != [] {
      var init := ps[..|ps| - 1];
      ScanCount(init, px, py);
      assert Scan(ps, px, py)[..|ps| - 1] == Scan(init, px, py);
    }
  }

  /** A second scan from the same position collects nothing more. */
  lemma {:induction false} RescanCollectsNothing(ps: seq<Powerup>, px: real, py: real)
    ensures NewlyCollected(Scan(ps, px, py), px, py) == 0
    decreases |ps|
  {
    if ps != [] {
      var init := ps[..|ps| - 1];
      RescanCollectsNothing(init, px, py);
      assert Scan(ps, px, py)[..|ps| - 1] == Scan(init, px, py);
    }
  }

  /** Replacing one powerup changes the count by the difference of the two collected flags. */
  lemma {:induction false} CountUpdate(ps: seq<Powerup>, i: nat, q: Powerup)
    requires i < |ps|
    ensures CollectedCount(ps[i := q]) + (if ps[i].collected then 1 else 0)
         == CollectedCount(ps) + (if q.collected then 1 else 0)
    decreases |ps|
  {
    var n := |ps| - 1;
    if i < n {
      CountUpdate(ps[..n], i, q);
      assert ps[i := q][..n] == ps[..n][i := q];
    } else {
      assert ps[i := q][..n] == ps[..n];
    }
  }

  /** A freshly placed set of powerups has none collected. */
  lemma {:induction false} NoneCollected(ps: seq<Powerup>)
    requires forall i :: 0 <= i < |ps| ==> !ps[i].collected
    ensures CollectedCount(ps) == 0
    decreases |ps|
  {
    if ps != [] {
      NoneCollected(ps[..|ps| - 1]);
    }
  }

  /** A scan collects nothing when the player touches no uncollected powerup. */
  lemma {:induction false} NoneTouched(ps: seq<Powerup>, px: real, py: real)
    requires forall i :: 0 <= i < |ps| ==> ps[i].collected || !Touches(px, py, ps[i])
    ensures NewlyCollected(ps, px, py) == 0
    decreases |ps|
  {
    if ps != [] {
      NoneTouched(ps[..|ps| - 1], px, py);
    }
  }

  /** A scan over uncollected powerups of which the player touches only the k-th collects exactly one. */
  lemma {:induction false} OnlyOneTouched(ps: seq<Powerup>, px: real, py: real, k: nat)
    requires k < |ps|
    requires forall i :: 0 <= i < |ps| ==> !ps[i].collected
    requires forall i :: 0 <= i < |ps| ==> (Touches(px, py, ps[i]) <==> i == k)
    ensures NewlyCollected(ps, px, py) == 1
    decreases |ps|
  {
    var init := ps[..|ps| - 1];
    if k == |ps| - 1 {
      NoneTouched(init, px, py);
    } else {
      OnlyOneTouched(init, px, py, k);
    }
  }

  /** Whether every powerup in `a` is collected, stopping at the first that is not. */
  method EveryCollected(a: array<Powerup>) returns (all: bool)
    ensures all <==> AllCollected(a[..])
  {
    var i := 0;
    while i < a.Length
      invariant 0 <= i <= a.Length
      invariant forall j :: 0 <= j < i ==> a[j].collected
    {
      if !a[i].collected {
        return false;
      }
      i := i + 1;
    }
    return true;
  }

  /** An example of a collection: player at its start, a powerup at (400, 300). */
  lemma CentredExample()
    ensures Visit(StartX, StartY, Powerup(400.0, 300.0, false)).collected
  {
  }
}
