/** Quaternions, the tag-to-world transform chain and the projection of one raw sample
    (correction_service/correction_service/geometry.py and the pure helpers of
    correction_service/extnav_patch/extnav_to_vision_pose.py).

    Angles appear as unit (cosine, sine) pairs, so `atan2` is normalisation and `wrap_angle` is
    the identity. A yaw that a quaternion needs is given by the pair of its half angle.
 */
module Geometry {
  import opened Reals
  import opened Options
  import opened Matrices
  import R = Registration

  type Rotation = R.Rotation

  // -------------------------------------------------------------- quaternions

  datatype Quat = Quat(x: real, y: real, z: real, w: real)
  {
    function NormSquared(): (n: real)
      ensures n >= 0.0
    {
      Sq(x) + Sq(y) + Sq(z) + Sq(w)
    }

    ghost predicate Unit() { NormSquared() == 1.0 }

    function Negated(): Quat { Quat(-x, -y, -z, -w) }

    function Over(n: real): Quat
      requires n != 0.0
    {
      Quat(x / n, y / n, z / n, w / n)
    }
  }

  const SMALLEST_NORM := 0.000000001

  function Norm(root: real -> real, q: Quat): real { root(q.NormSquared()) }

  /** `normalize_quaternion`; None stands for its ValueError. */
  function Normalize(root: real -> real, q: Quat): Option<Quat> {
    var n := Norm(root, q);
    if n < SMALLEST_NORM then None else Some(q.Over(n))
  }

  /** The rotation matrix of an already normalised quaternion. */
  function RotationOf(q: Quat): Mat3 {
    Mat3(
      Vec3(1.0 - 2.0 * (Sq(q.y) + Sq(q.z)), 2.0 * (q.x * q.y - q.z * q.w), 2.0 * (q.x * q.z + q.y * q.w)),
      Vec3(2.0 * (q.x * q.y + q.z * q.w), 1.0 - 2.0 * (Sq(q.x) + Sq(q.z)), 2.0 * (q.y * q.z - q.x * q.w)),
      Vec3(2.0 * (q.x * q.z - q.y * q.w), 2.0 * (q.y * q.z + q.x * q.w), 1.0 - 2.0 * (Sq(q.x) + Sq(q.y))))
  }

  /** `quaternion_to_matrix`: normalise, then convert. */
  function QuaternionToMatrix(root: real -> real, q: Quat): Option<Mat3> {
    match Normalize(root, q)
    case None => None
    case Some(u) => Some(RotationOf(u))
  }

  /** Hamilton product. */
  function Times4(p: Quat, q: Quat): Quat {
    Quat(
      p.w * q.x + p.x * q.w + p.y * q.z - p.z * q.y,
      p.w * q.y - p.x * q.z + p.y * q.w + p.z * q.x,
      p.w * q.z + p.x * q.y - p.y * q.x + p.z * q.w,
      p.w * q.w - p.x * q.x - p.y * q.y - p.z * q.z)
  }

  lemma NormalizedIsUnit(root: real -> real, q: Quat)
    requires IsRoot(root) && Norm(root, q) >= SMALLEST_NORM
    ensures q.Over(Norm(root, q)).Unit()
  {
    var n := Norm(root, q);
    assert Sq(n) == q.NormSquared();
    UnitOver(n, q, q.Over(n));
  }

  lemma UnitOver(n: real, q: Quat, u: Quat)
    requires n != 0.0 && Sq(n) == q.NormSquared()
    requires u.x * n == q.x && u.y * n == q.y && u.z * n == q.z && u.w * n == q.w
    ensures u.Unit()
  {
    hide Sq;
    var k := Sq(n);
    SqFactor(q.x, u.x, n);
    SqFactor(q.y, u.y, n);
    SqFactor(q.z, u.z, n);
    SqFactor(q.w, u.w, n);
    FactorOut(Sq(u.x), Sq(u.y), Sq(u.z), Sq(u.w), k, Sq(q.x), Sq(q.y), Sq(q.z), Sq(q.w));
  }

  lemma SqFactor(x: real, a: real, b: real)
    requires a * b == x
    ensures Sq(x) == Sq(a) * Sq(b)
  {
    SqTimes(a, b);
  }

  lemma SqTimes(a: real, b: real)
    ensures Sq(a * b) == Sq(a) * Sq(b)
  {
    hide Sq;
    SqIs(a);
    SqIs(b);
    SqIs(a * b);
    assert (a * b) * (a * b) == (a * a) * (b * b);
  }

  lemma FactorOut(a: real, b: real, c: real, d: real, k: real, ak: real, bk: real, ck: real, dk: real)
    requires ak == a * k && bk == b * k && ck == c * k && dk == d * k
    requires k != 0.0 && ak + bk + ck + dk == k
    ensures a + b + c + d == 1.0
  {
    CancelFactor(k, a + b + c + d, 1.0);
  }

  /** Normalising a unit quaternion changes nothing. */
  lemma NormalizeUnit(root: real -> real, q: Quat)
    requires IsRoot(root) && q.Unit()
    ensures Normalize(root, q) == Some(q)
  {
    assert Sq(1.0) == q.NormSquared();
    RootOfSquare(root, 1.0);
  }

  // ---------------------------------------- matrix to quaternion and back

  function Trace(m: Mat3): real { m.r0.x + m.r1.y + m.r2.z }

  /** Twice the root of four times a squared component; 0 where there is no positive root. */
  function ScaleOf(root: real -> real, radicand: real): real {
    if radicand <= 0.0 then 0.0 else root(radicand) * 2.0
  }

  function Renormalized(root: real -> real, scale: real, q: Quat): Option<Quat> {
    if scale == 0.0 then None else Normalize(root, q)
  }

  /** Quotient by the scale; a zero scale is refused by `Renormalized`. */
  function Per(v: real, scale: real): real { if scale == 0.0 then 0.0 else v / scale }

  /** `matrix_to_quaternion`; None where the chosen scale is zero or not real, which the original
      could only answer with an arithmetic error. */
  function MatrixToQuaternion(root: real -> real, m: Mat3): Option<Quat> {
    if Trace(m) > 0.0 then
      var s := ScaleOf(root, Trace(m) + 1.0);
      Renormalized(root, s, Quat(
        Per(m.r2.y - m.r1.z, s), Per(m.r0.z - m.r2.x, s), Per(m.r1.x - m.r0.y, s), 0.25 * s))
    else if m.r0.x >= m.r1.y && m.r0.x >= m.r2.z then
      var s := ScaleOf(root, 1.0 + m.r0.x - m.r1.y - m.r2.z);
      Renormalized(root, s, Quat(
        0.25 * s, Per(m.r0.y + m.r1.x, s), Per(m.r0.z + m.r2.x, s), Per(m.r2.y - m.r1.z, s)))
    else if m.r1.y >= m.r2.z then
      var s := ScaleOf(root, 1.0 + m.r1.y - m.r0.x - m.r2.z);
      Renormalized(root, s, Quat(
        Per(m.r0.y + m.r1.x, s), 0.25 * s, Per(m.r1.z + m.r2.y, s), Per(m.r0.z - m.r2.x, s)))
    else
      var s := ScaleOf(root, 1.0 + m.r2.z - m.r0.x - m.r1.y);
      Renormalized(root, s, Quat(
        Per(m.r0.z + m.r2.x, s), Per(m.r1.z + m.r2.y, s), 0.25 * s, Per(m.r1.x - m.r0.y, s)))
  }

  /** q and -q are the same rotation; the conversion may return either. */
  ghost predicate SameRotation(p: Quat, q: Quat) { p == q || p == q.Negated() }

  function Sign(c: real): real { if c >= 0.0 then 1.0 else -1.0 }

  /** With four squared components c under the root, the scale is 4|c|, and it divides the
      combinations of entries back into components up to the sign of c. */
  lemma ScaleDivides(root: real -> real, radicand: real, c: real, k: real, v: real)
    requires IsRoot(root) && c != 0.0 && radicand == 4.0 * Sq(c) && v == 4.0 * (k * c)
    ensures ScaleOf(root, radicand) == 4.0 * Sign(c) * c && ScaleOf(root, radicand) != 0.0
    ensures Per(v, ScaleOf(root, radicand)) == Sign(c) * k
    ensures 0.25 * ScaleOf(root, radicand) == Sign(c) * c
  {
    SqTimes(2.0, c);
    SqIs(2.0);
    assert radicand == Sq(2.0 * c) by { hide Sq; }
    RootOfSquare(root, 2.0 * c);
    var scale := ScaleOf(root, radicand);
    assert v == (Sign(c) * k) * scale;
  }

  /** What the entries of a rotation matrix say about the components of its unit quaternion:
      the diagonal gives the squares, the off-diagonal sums and differences the products. */
  lemma DiagonalOfUnit(q: Quat)
    requires q.Unit()
    ensures var m := RotationOf(q);
      && Trace(m) + 1.0 == 4.0 * Sq(q.w)
      && 1.0 + m.r0.x - m.r1.y - m.r2.z == 4.0 * Sq(q.x)
      && 1.0 + m.r1.y - m.r0.x - m.r2.z == 4.0 * Sq(q.y)
      && 1.0 + m.r2.z - m.r0.x - m.r1.y == 4.0 * Sq(q.z)
  {
    hide Sq;
    DiagonalLinear(RotationOf(q), Sq(q.x), Sq(q.y), Sq(q.z), Sq(q.w));
  }

  lemma DiagonalLinear(m: Mat3, xx: real, yy: real, zz: real, ww: real)
    requires xx + yy + zz + ww == 1.0
    requires m.r0.x == 1.0 - 2.0 * (yy + zz) && m.r1.y == 1.0 - 2.0 * (xx + zz) && m.r2.z == 1.0 - 2.0 * (xx + yy)
    ensures Trace(m) + 1.0 == 4.0 * ww
    ensures 1.0 + m.r0.x - m.r1.y - m.r2.z == 4.0 * xx
    ensures 1.0 + m.r1.y - m.r0.x - m.r2.z == 4.0 * yy
    ensures 1.0 + m.r2.z - m.r0.x - m.r1.y == 4.0 * zz
  {
  }

  lemma OffDiagonal(q: Quat)
    ensures var m := RotationOf(q);
      && m.r2.y - m.r1.z == 4.0 * (q.x * q.w) && m.r0.z - m.r2.x == 4.0 * (q.y * q.w)
      && m.r1.x - m.r0.y == 4.0 * (q.z * q.w) && m.r0.y + m.r1.x == 4.0 * (q.x * q.y)
      && m.r0.z + m.r2.x == 4.0 * (q.x * q.z) && m.r1.z + m.r2.y == 4.0 * (q.y * q.z)
  {
    hide Sq;
    SumAndDifference(q.x * q.y, q.z * q.w);
    SumAndDifference(q.x * q.z, q.y * q.w);
    SumAndDifference(q.y * q.z, q.x * q.w);
  }

  lemma SumAndDifference(a: real, b: real)
    ensures 2.0 * (a + b) + 2.0 * (a - b) == 4.0 * a && 2.0 * (a + b) - 2.0 * (a - b) == 4.0 * b
  {
  }

  /** The three quotients of a branch, given as multiples of its chosen component c. */
  lemma Quotients(root: real -> real, radicand: real, c: real, k1: real, v1: real, k2: real, v2: real, k3: real, v3: real)
    requires IsRoot(root) && c != 0.0 && radicand == 4.0 * Sq(c)
    requires v1 == 4.0 * (k1 * c) && v2 == 4.0 * (k2 * c) && v3 == 4.0 * (k3 * c)
    ensures var s := ScaleOf(root, radicand);
      s != 0.0 && 0.25 * s == Sign(c) * c
      && Per(v1, s) == Sign(c) * k1 && Per(v2, s) == Sign(c) * k2 && Per(v3, s) == Sign(c) * k3
  {
    hide IsRoot, Per, ScaleOf, Sign;
    ScaleDivides(root, radicand, c, k1, v1);
    ScaleDivides(root, radicand, c, k2, v2);
    ScaleDivides(root, radicand, c, k3, v3);
  }

  lemma SignIs(c: real)
    ensures Sign(c) == 1.0 || Sign(c) == -1.0
  {
  }

  lemma SignedUnit(root: real -> real, q: Quat, sign: real)
    requires IsRoot(root) && q.Unit() && (sign == 1.0 || sign == -1.0)
    ensures var p := Quat(sign * q.x, sign * q.y, sign * q.z, sign * q.w);
      Normalize(root, p) == Some(p) && SameRotation(p, q)
  {
    var p := Quat(sign * q.x, sign * q.y, sign * q.z, sign * q.w);
    NormalizeUnit(root, p);
  }

  lemma BranchW(root: real -> real, q: Quat)
    requires IsRoot(root) && q.Unit() && q.w != 0.0 && Trace(RotationOf(q)) > 0.0
    ensures MatrixToQuaternion(root, RotationOf(q)).Some?
    ensures SameRotation(MatrixToQuaternion(root, RotationOf(q)).value, q)
  {
    var m := RotationOf(q);
    hide RotationOf, Normalize, IsRoot, ScaleOf, Per, Sign, Quat.Unit;
    DiagonalOfUnit(q);
    OffDiagonal(q);
    Quotients(root, Trace(m) + 1.0, q.w, q.x, m.r2.y - m.r1.z, q.y, m.r0.z - m.r2.x, q.z, m.r1.x - m.r0.y);
    SignIs(q.w);
    SignedUnit(root, q, Sign(q.w));
  }

  lemma BranchX(root: real -> real, q: Quat)
    requires IsRoot(root) && q.Unit() && q.x != 0.0
    requires var m := RotationOf(q); Trace(m) <= 0.0 && m.r0.x >= m.r1.y && m.r0.x >= m.r2.z
    ensures MatrixToQuaternion(root, RotationOf(q)).Some?
    ensures SameRotation(MatrixToQuaternion(root, RotationOf(q)).value, q)
  {
    var m := RotationOf(q);
    hide RotationOf, Normalize, IsRoot, ScaleOf, Per, Sign, Quat.Unit;
    DiagonalOfUnit(q);
    OffDiagonal(q);
    Quotients(root, 1.0 + m.r0.x - m.r1.y - m.r2.z, q.x, q.y, m.r0.y + m.r1.x, q.z, m.r0.z + m.r2.x, q.w, m.r2.y - m.r1.z);
    SignIs(q.x);
    SignedUnit(root, q, Sign(q.x));
  }

  lemma BranchY(root: real -> real, q: Quat)
    requires IsRoot(root) && q.Unit() && q.y != 0.0
    requires var m := RotationOf(q);
      Trace(m) <= 0.0 && !(m.r0.x >= m.r1.y && m.r0.x >= m.r2.z) && m.r1.y >= m.r2.z
    ensures MatrixToQuaternion(root, RotationOf(q)).Some?
    ensures SameRotation(MatrixToQuaternion(root, RotationOf(q)).value, q)
  {
    var m := RotationOf(q);
    hide RotationOf, Normalize, IsRoot, ScaleOf, Per, Sign, Quat.Unit;
    DiagonalOfUnit(q);
    OffDiagonal(q);
    Quotients(root, 1.0 + m.r1.y - m.r0.x - m.r2.z, q.y, q.x, m.r0.y + m.r1.x, q.z, m.r1.z + m.r2.y, q.w, m.r0.z - m.r2.x);
    SignIs(q.y);
    SignedUnit(root, q, Sign(q.y));
  }

  lemma BranchZ(root: real -> real, q: Quat)
    requires IsRoot(root) && q.Unit() && q.z != 0.0
    requires var m := RotationOf(q);
      Trace(m) <= 0.0 && !(m.r0.x >= m.r1.y && m.r0.x >= m.r2.z) && !(m.r1.y >= m.r2.z)
    ensures MatrixToQuaternion(root, RotationOf(q)).Some?
    ensures SameRotation(MatrixToQuaternion(root, RotationOf(q)).value, q)
  {
    var m := RotationOf(q);
    hide RotationOf, Normalize, IsRoot, ScaleOf, Per, Sign, Quat.Unit;
    DiagonalOfUnit(q);
    OffDiagonal(q);
    Quotients(root, 1.0 + m.r2.z - m.r0.x - m.r1.y, q.z, q.x, m.r0.z + m.r2.x, q.y, m.r1.z + m.r2.y, q.w, m.r1.x - m.r0.y);
    SignIs(q.z);
    SignedUnit(root, q, Sign(q.z));
  }

  /** The component each branch divides by is not zero. */
  lemma ChosenComponent(q: Quat)
    requires q.Unit()
    ensures var m := RotationOf(q);
      if Trace(m) > 0.0 then q.w != 0.0
      else if m.r0.x >= m.r1.y && m.r0.x >= m.r2.z then q.x != 0.0
      else if m.r1.y >= m.r2.z then q.y != 0.0
      else q.z != 0.0
  {
    hide RotationOf, Sq, Quat.Unit;
    DiagonalOfUnit(q);
    Largest(RotationOf(q), Sq(q.x), Sq(q.y), Sq(q.z), Sq(q.w));
  }

  lemma Largest(m: Mat3, xx: real, yy: real, zz: real, ww: real)
    requires xx >= 0.0 && yy >= 0.0 && zz >= 0.0 && ww >= 0.0
    requires Trace(m) + 1.0 == 4.0 * ww
    requires 1.0 + m.r0.x - m.r1.y - m.r2.z == 4.0 * xx
    requires 1.0 + m.r1.y - m.r0.x - m.r2.z == 4.0 * yy
    requires 1.0 + m.r2.z - m.r0.x - m.r1.y == 4.0 * zz
    ensures
      if Trace(m) > 0.0 then ww > 0.0
      else if m.r0.x >= m.r1.y && m.r0.x >= m.r2.z then xx > 0.0
      else if m.r1.y >= m.r2.z then yy > 0.0
      else zz > 0.0
  {
  }

  /** Converting a unit quaternion to a matrix and back gives q or -q, whichever branch is taken. */
  lemma QuaternionRoundTrip(root: real -> real, q: Quat)
    requires IsRoot(root) && q.Unit()
    ensures MatrixToQuaternion(root, RotationOf(q)).Some?
    ensures SameRotation(MatrixToQuaternion(root, RotationOf(q)).value, q)
  {
    ChosenComponent(q);
    hide RotationOf, MatrixToQuaternion;
    var m := RotationOf(q);
    if Trace(m) > 0.0 {
      BranchW(root, q);
    } else if m.r0.x >= m.r1.y && m.r0.x >= m.r2.z {
      BranchX(root, q);
    } else if m.r1.y >= m.r2.z {
      BranchY(root, q);
    } else {
      BranchZ(root, q);
    }
  }

  /** The same for every quaternion the conversion accepts, up to its normalisation. */
  lemma AnyQuaternionRoundTrip(root: real -> real, q: Quat)
    requires IsRoot(root)
    ensures QuaternionToMatrix(root, q) == None <==> Norm(root, q) < SMALLEST_NORM
    ensures QuaternionToMatrix(root, q).Some? ==>
      var back := MatrixToQuaternion(root, QuaternionToMatrix(root, q).value);
      back.Some? && SameRotation(back.value, q.Over(Norm(root, q)))
  {
    hide RotationOf, MatrixToQuaternion;
    if Norm(root, q) >= SMALLEST_NORM {
      NormalizedIsUnit(root, q);
      QuaternionRoundTrip(root, q.Over(Norm(root, q)));
    }
  }
}
