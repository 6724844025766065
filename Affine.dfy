/**
 * The 2x3 affine matrices the turtle's pose is kept in, laid out as in the
 * comment of src/lib.rs:
 *
 *   | a b c |        (x, y)  |->  (a*x + b*y + c, d*x + e*y + f)
 *   | d e f |
 *
 * `trans` and `rot_deg` of the graphics crate both right-multiply the current
 * matrix, by a translation and by a rotation matrix respectively. Sine and
 * cosine are foreign floating-point code: they are a parameter (`Trig`) and
 * only the identities a lemma names are assumed of them.
 */
module Affine {

  datatype Matrix2d = Matrix2d(a: real, b: real, c: real, d: real, e: real, f: real)

  /** A point of the plane. */
  datatype Vec2 = Vec2(x: real, y: real)

  /** Cosine and sine of an angle given in degrees. */
  datatype Trig = Trig(cos: real -> real, sin: real -> real)

  /** The image of (x, y) under m. */
  function ApplyTo(m: Matrix2d, x: real, y: real): Vec2
  {
    Vec2(m.a * x + m.b * y + m.c, m.d * x + m.e * y + m.f)
  }

  /** The translation column: where m sends the origin. */
  function Origin(m: Matrix2d): Vec2
  {
    Vec2(m.c, m.f)
  }

  function Identity(): Matrix2d
  {
    Matrix2d(1.0, 0.0, 0.0, 0.0, 1.0, 0.0)
  }

  /** The matrix of the composed map: first n, then m. */
  function Multiply(m: Matrix2d, n: Matrix2d): Matrix2d
  {
    Matrix2d(m.a * n.a + m.b * n.d, m.a * n.b + m.b * n.e, m.a * n.c + m.b * n.f + m.c,
             m.d * n.a + m.e * n.d, m.d * n.b + m.e * n.e, m.d * n.c + m.e * n.f + m.f)
  }

  function Translation(x: real, y: real): Matrix2d
  {
    Matrix2d(1.0, 0.0, x, 0.0, 1.0, y)
  }

  function Rotation(trig: Trig, deg: real): Matrix2d
  {
    var c, s := trig.cos(deg), trig.sin(deg);
    Matrix2d(c, -s, 0.0, s, c, 0.0)
  }

  /** The rotation/linear part of m, as a matrix with no translation. */
  function Linear(m: Matrix2d): Matrix2d
  {
    m.(c := 0.0, f := 0.0)
  }

  /** Applying a product is applying its factors in turn. */
  lemma MultiplyComposes(m: Matrix2d, n: Matrix2d, x: real, y: real)
    ensures ApplyTo(Multiply(m, n), x, y) == ApplyTo(m, ApplyTo(n, x, y).x, ApplyTo(n, x, y).y)
  {
    var u, v := n.a * x + n.b * y + n.c, n.d * x + n.e * y + n.f;
    var mn := Multiply(m, n);
    assert ApplyTo(n, x, y) == Vec2(u, v);
    assert mn.a * x + mn.b * y + mn.c == m.a * u + m.b * v + m.c;
    assert mn.d * x + mn.e * y + mn.f == m.d * u + m.e * v + m.f;
  }

  /**
   * `m.trans(x, y)`: the linear part is kept, and the origin moves to the
   * image of (x, y) under m.
   */
  function Trans(m: Matrix2d, x: real, y: real): (r: Matrix2d)
    ensures Linear(r) == Linear(m)
    ensures Origin(r) == ApplyTo(m, x, y)
  {
    var n := Translation(x, y);
    assert Multiply(m, n).c == m.a * x + m.b * y + m.c;
    assert Multiply(m, n).f == m.d * x + m.e * y + m.f;
    Multiply(m, n)
  }

  /**
   * `m.rot_deg(deg)`: the origin (translation column) is kept, and the
   * linear part is the linear part of m followed by the rotation.
   */
  function RotDeg(trig: Trig, m: Matrix2d, deg: real): (r: Matrix2d)
    ensures Origin(r) == Origin(m)
    ensures Linear(r) == Multiply(Linear(m), Rotation(trig, deg))
  {
    Multiply(m, Rotation(trig, deg))
  }

  /** The trigonometric identities a rotation and its reverse rely on. */
  ghost predicate Reversible(trig: Trig, deg: real)
  {
    && trig.cos(-deg) == trig.cos(deg)
    && trig.sin(-deg) == -trig.sin(deg)
    && trig.cos(deg) * trig.cos(deg) + trig.sin(deg) * trig.sin(deg) == 1.0
  }

  /** Rotating by deg and then by -deg gives back the same matrix. */
  lemma RotateThenReverse(trig: Trig, m: Matrix2d, deg: real)
    requires Reversible(trig, deg)
    ensures RotDeg(trig, RotDeg(trig, m, deg), -deg) == m
  {
    var c, s := trig.cos(deg), trig.sin(deg);
    assert Rotation(trig, deg) == Matrix2d(c, -s, 0.0, s, c, 0.0);
    assert Rotation(trig, -deg) == Matrix2d(c, s, 0.0, -s, c, 0.0);
    RotateBack(m, c, s);
  }

  /** The rotation by (c, s) followed by the one by (c, -s), on plain entries. */
  lemma RotateBack(m: Matrix2d, c: real, s: real)
    requires c * c + s * s == 1.0
    ensures Multiply(Multiply(m, Matrix2d(c, -s, 0.0, s, c, 0.0)), Matrix2d(c, s, 0.0, -s, c, 0.0)) == m
  {
    RotationEntries(m, c, -s, s);
    var r1 := Matrix2d(m.a * c + m.b * s, m.a * -s + m.b * c, m.c, m.d * c + m.e * s, m.d * -s + m.e * c, m.f);
    RotationEntries(r1, c, s, -s);
    RowRestored(m.a, m.b, c, s);
    RowRestored(m.d, m.e, c, s);
  }

  /** Right-multiplying by a matrix of rotation shape, entry by entry. */
  lemma RotationEntries(m: Matrix2d, c: real, t: real, s: real)
    ensures Multiply(m, Matrix2d(c, t, 0.0, s, c, 0.0))
         == Matrix2d(m.a * c + m.b * s, m.a * t + m.b * c, m.c, m.d * c + m.e * s, m.d * t + m.e * c, m.f)
  {
  }

  /** One row of RotateThenReverse: (p, q) rotated by (c, s) and back. */
  lemma RowRestored(p: real, q: real, c: real, s: real)
    requires c * c + s * s == 1.0
    ensures (p * c + q * s) * c + (p * -s + q * c) * -s == p
    ensures (p * c + q * s) * s + (p * -s + q * c) * c == q
  {
    assert (p * c + q * s) * c + (p * -s + q * c) * -s == p * (c * c + s * s);
    assert (p * c + q * s) * s + (p * -s + q * c) * c == q * (c * c + s * s);
  }

  /** A rotation by zero degrees leaves the matrix as it is. */
  lemma RotateByZero(trig: Trig, m: Matrix2d)
    requires trig.cos(0.0) == 1.0 && trig.sin(0.0) == 0.0
    ensures RotDeg(trig, m, 0.0) == m
  {
  }

  /** `f64::round`: to the nearest integer, halfway cases away from zero. */
  function Round(x: real): (r: int)
    ensures x - 0.5 <= r as real <= x + 0.5
    ensures r as real == x - 0.5 ==> x < 0.0
    ensures r as real == x + 0.5 ==> x > 0.0
  {
    if x >= 0.0 then (x + 0.5).Floor else -((-x + 0.5).Floor)
  }

  /** `as isize` on a float: the fractional part is dropped, toward zero. */
  function Truncate(x: real): (r: int)
    ensures 0.0 <= x ==> 0.0 <= r as real <= x < r as real + 1.0
    ensures x < 0.0 ==> r as real - 1.0 < x <= r as real <= 0.0
  {
    if x >= 0.0 then x.Floor else -((-x).Floor)
  }

  function Abs(n: int): nat
  {
    if n < 0 then -n else n
  }

  /** Truncating lands at most one away from rounding, and never farther from zero. */
  lemma TruncateNearRound(x: real)
    ensures -1 <= Truncate(x) - Round(x) <= 1
    ensures Abs(Truncate(x)) <= Abs(Round(x))
  {
  }
}
