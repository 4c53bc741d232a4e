/** Two-dimensional vectors over the reals, standing in for the engine's
    single-precision Vector2. Only the operations the turret uses are here. */
module Geometry {

  datatype Vec2 = Vec2(x: real, y: real)

  const Zero: Vec2 := Vec2(0.0, 0.0)

  function Add(a: Vec2, b: Vec2): Vec2 {
    Vec2(a.x + b.x, a.y + b.y)
  }

  function Scale(a: Vec2, k: real): Vec2 {
    Vec2(a.x * k, a.y * k)
  }

  /** The interpolation parameter clamped to [0, 1], as the engine clamps it. */
  function Clamp01(t: real): (r: real)
    ensures 0.0 <= r <= 1.0
    ensures 0.0 <= t <= 1.0 ==> r == t
  {
    if t < 0.0 then 0.0 else if t > 1.0 then 1.0 else t
  }

  /** Linear interpolation from `a` towards `b`, with the parameter clamped:
      a parameter at or below zero keeps `a`, one at or above one reaches `b`,
      and every coordinate of the result lies between those of `a` and `b`. */
  function Lerp(a: Vec2, b: Vec2, t: real): (r: Vec2)
    ensures t <= 0.0 ==> r == a
    ensures t >= 1.0 ==> r == b
    ensures Between(a.x, b.x, r.x) && Between(a.y, b.y, r.y)
  {
    var c := Clamp01(t);
    assert 0.0 <= c <= 1.0;
    LerpCoordinateBetween(a.x, b.x, c);
    LerpCoordinateBetween(a.y, b.y, c);
    Vec2(a.x + (b.x - a.x) * c, a.y + (b.y - a.y) * c)
  }

  predicate Between(lo: real, hi: real, v: real) {
    (lo <= v <= hi) || (hi <= v <= lo)
  }

  lemma LerpCoordinateBetween(a: real, b: real, c: real)
    ensures 0.0 <= c <= 1.0 ==> Between(a, b, a + (b - a) * c)
  {
    if 0.0 <= c <= 1.0 {
      var d := b - a;
      ProductSign(d, c);
      ProductSign(d, 1.0 - c);
      assert d * c + d * (1.0 - c) == d;
    }
  }

  /** The sign of a product with a non-negative factor follows the other factor. */
  lemma ProductSign(d: real, c: real)
    requires c >= 0.0
    ensures d >= 0.0 ==> d * c >= 0.0
    ensures d <= 0.0 ==> d * c <= 0.0
  {
  }
}
