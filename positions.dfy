/** Block positions and the distance pre-filter that decides which breadcrumbs
    are close enough to be worth a line-of-sight trace. */
module Positions {

  /** An integer block coordinate, as the game's BlockPos. */
  datatype Pos = Pos(x: int, y: int, z: int)

  /** Component-wise sum; `Add(p, Pos(0, 32, 0))` is the point 32 blocks above `p`. */
  function Add(p: Pos, d: Pos): (r: Pos)
    ensures Sub(r, p) == d
  {
    Pos(p.x + d.x, p.y + d.y, p.z + d.z)
  }

  /** The integer difference vector `a - b`. */
  function Sub(a: Pos, b: Pos): (v: Pos)
  {
    Pos(a.x - b.x, a.y - b.y, a.z - b.z)
  }

  /** How far a breadcrumb may be from the player and still be traced. */
  const Reach: nat := 16

  /** The squared Euclidean distance between two block positions. */
  function DistSq(a: Pos, b: Pos): (d: nat)
  {
    var v := Sub(a, b);
    v.x * v.x + v.y * v.y + v.z * v.z
  }

  /** The pre-filter of the scan: a breadcrumb further than `Reach` is skipped
      without a trace. The source compares the square root of the squared
      distance against 16.0; `SqrtComparison` shows the integer test is the same. */
  predicate TooFar(crumb: Pos, player: Pos)
  {
    DistSq(crumb, player) > Reach * Reach
  }

  /** For the non-negative square root `r` of a squared distance `d`,
      `r > 16` holds exactly when `d > 256`; in particular a breadcrumb at
      distance exactly 16 is not too far. */
  lemma SqrtComparison(d: nat, r: real)
    requires 0.0 <= r && r * r == d as real
    ensures (r > Reach as real) <==> (d > Reach * Reach)
  {
    if r > 16.0 {
      assert r * r > 16.0 * r;
      assert 16.0 * r > 256.0;
    } else {
      assert r * r <= 16.0 * r;
      assert 16.0 * r <= 256.0;
    }
  }
}
