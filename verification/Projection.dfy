/** Two implementations of one projection, and the jump the service predicts with its own.

    The bridge composes a yaw quaternion with the raw quaternion
    (correction_service/extnav_patch/extnav_to_vision_pose.py); the service composes rotation
    matrices (correction_service/correction_service/geometry.py). That quaternion product and
    matrix product agree follows from v -> q v q*, the sandwich product.
 */
module Projection {
  import opened Reals
  import opened Matrices
  import opened Geometry
  import opened Options
  import R = Registration

  // --------------------------------- quaternion product and matrix product

  /** The rotation matrix in the form that is multiplicative for every quaternion. */
  function Homogeneous(q: Quat): Mat3 {
    Mat3(FirstRow(q.w, q.x, q.y, q.z), SecondRow(q.w, q.x, q.y, q.z), ThirdRow(q.w, q.x, q.y, q.z))
  }

  function FirstRow(w: real, x: real, y: real, z: real): Vec3 {
    Vec3(w * w + x * x - y * y - z * z, 2.0 * (x * y - z * w), 2.0 * (x * z + y * w))
  }

  function SecondRow(w: real, x: real, y: real, z: real): Vec3 {
    Vec3(2.0 * (x * y + z * w), w * w + y * y - z * z - x * x, 2.0 * (y * z - x * w))
  }

  function ThirdRow(w: real, x: real, y: real, z: real): Vec3 {
    Vec3(2.0 * (x * z - y * w), 2.0 * (y * z + x * w), w * w + z * z - x * x - y * y)
  }

  lemma HomogeneousOfUnit(q: Quat)
    requires q.Unit()
    ensures RotationOf(q) == Homogeneous(q)
  {
    hide Sq;
    SqIs(q.x);
    SqIs(q.y);
    SqIs(q.z);
    SqIs(q.w);
    HomogeneousDiagonal(Sq(q.x), Sq(q.y), Sq(q.z), Sq(q.w));
  }

  lemma HomogeneousDiagonal(xx: real, yy: real, zz: real, ww: real)
    requires xx + yy + zz + ww == 1.0
    ensures 1.0 - 2.0 * (yy + zz) == ww + xx - yy - zz
    ensures 1.0 - 2.0 * (xx + zz) == ww + yy - zz - xx
    ensures 1.0 - 2.0 * (xx + yy) == ww + zz - xx - yy
  {
  }

  function Conjugate(q: Quat): Quat { Quat(-q.x, -q.y, -q.z, q.w) }

  function Pure(v: Vec3): Quat { Quat(v.x, v.y, v.z, 0.0) }

  /** Components of a product, and their cyclic images, which have the same form. */
  ghost predicate IsProduct(p: Quat, q: Quat, t: Quat) {
    && t.x == p.w * q.x + p.x * q.w + p.y * q.z - p.z * q.y
    && t.y == p.w * q.y - p.x * q.z + p.y * q.w + p.z * q.x
    && t.z == p.w * q.z + p.x * q.y - p.y * q.x + p.z * q.w
    && t.w == p.w * q.w - p.x * q.x - p.y * q.y - p.z * q.z
  }

  function Cycle(q: Quat): Quat { Quat(q.y, q.z, q.x, q.w) }

  lemma AssociatesX(p: Quat, q: Quat, r: Quat, t: Quat, u: Quat)
    requires t.x == p.w * q.x + p.x * q.w + p.y * q.z - p.z * q.y
    requires t.y == p.w * q.y - p.x * q.z + p.y * q.w + p.z * q.x
    requires t.z == p.w * q.z + p.x * q.y - p.y * q.x + p.z * q.w
    requires t.w == p.w * q.w - p.x * q.x - p.y * q.y - p.z * q.z
    requires u.x == q.w * r.x + q.x * r.w + q.y * r.z - q.z * r.y
    requires u.y == q.w * r.y - q.x * r.z + q.y * r.w + q.z * r.x
    requires u.z == q.w * r.z + q.x * r.y - q.y * r.x + q.z * r.w
    requires u.w == q.w * r.w - q.x * r.x - q.y * r.y - q.z * r.z
    ensures t.w * r.x + t.x * r.w + t.y * r.z - t.z * r.y == p.w * u.x + p.x * u.w + p.y * u.z - p.z * u.y
  {
  }

  lemma AssociatesW(p: Quat, q: Quat, r: Quat, t: Quat, u: Quat)
    requires IsProduct(p, q, t) && IsProduct(q, r, u)
    ensures t.w * r.w - t.x * r.x - t.y * r.y - t.z * r.z == p.w * u.w - p.x * u.x - p.y * u.y - p.z * u.z
  {
  }

  /** Renaming the axes cyclically commutes with the product. */
  lemma CycleTimes(p: Quat, q: Quat)
    ensures Cycle(Times4(p, q)) == Times4(Cycle(p), Cycle(q))
  {
    hide Times4;
    Components(p, q);
    Components(Cycle(p), Cycle(q));
  }

  lemma Components(p: Quat, q: Quat)
    ensures var t := Times4(p, q);
      && t.x == p.w * q.x + p.x * q.w + p.y * q.z - p.z * q.y
      && t.y == p.w * q.y - p.x * q.z + p.y * q.w + p.z * q.x
      && t.z == p.w * q.z + p.x * q.y - p.y * q.x + p.z * q.w
      && t.w == p.w * q.w - p.x * q.x - p.y * q.y - p.z * q.z
  {
  }

  lemma FirstComponent(p: Quat, q: Quat)
    ensures Times4(p, q).x == p.w * q.x + p.x * q.w + p.y * q.z - p.z * q.y
  {
  }

  lemma AssociatesFirst(p: Quat, q: Quat, r: Quat)
    ensures Times4(Times4(p, q), r).x == Times4(p, Times4(q, r)).x
  {
    hide Times4;
    Components(p, q);
    Components(q, r);
    FirstComponent(Times4(p, q), r);
    FirstComponent(p, Times4(q, r));
    AssociatesX(p, q, r, Times4(p, q), Times4(q, r));
  }

  lemma LastComponent(p: Quat, q: Quat)
    ensures Times4(p, q).w == p.w * q.w - p.x * q.x - p.y * q.y - p.z * q.z
  {
  }

  lemma AssociatesLast(p: Quat, q: Quat, r: Quat)
    ensures Times4(Times4(p, q), r).w == Times4(p, Times4(q, r)).w
  {
    hide Times4;
    Components(p, q);
    Components(q, r);
    LastComponent(Times4(p, q), r);
    LastComponent(p, Times4(q, r));
    AssociatesW(p, q, r, Times4(p, q), Times4(q, r));
  }

  lemma ProductAssociates(p: Quat, q: Quat, r: Quat)
    ensures Times4(Times4(p, q), r) == Times4(p, Times4(q, r))
  {
    hide Times4;
    var a, b, c := Cycle(p), Cycle(q), Cycle(r);
    AssociatesFirst(p, q, r);
    AssociatesLast(p, q, r);
    AssociatesFirst(a, b, c);
    AssociatesFirst(Cycle(a), Cycle(b), Cycle(c));
    CycleTriple(p, q, r);
    CycleTriple(a, b, c);
  }

  lemma CycleTriple(p: Quat, q: Quat, r: Quat)
    ensures Cycle(Times4(Times4(p, q), r)) == Times4(Times4(Cycle(p), Cycle(q)), Cycle(r))
    ensures Cycle(Times4(p, Times4(q, r))) == Times4(Cycle(p), Times4(Cycle(q), Cycle(r)))
  {
    hide Times4, Cycle;
    CycleTimes(p, q);
    CycleTimes(Times4(p, q), r);
    CycleTimes(q, r);
    CycleTimes(p, Times4(q, r));
  }

  lemma ConjugateOfProduct(p: Quat, q: Quat)
    ensures Conjugate(Times4(p, q)) == Times4(Conjugate(q), Conjugate(p))
  {
    hide Times4, Conjugate;
    ConjugateFirst(p, q);
    ConjugateSecond(p, q);
    ConjugateThird(p, q);
  }

  lemma ConjugateFirst(p: Quat, q: Quat)
    ensures Conjugate(Times4(p, q)).x == Times4(Conjugate(q), Conjugate(p)).x
    ensures Conjugate(Times4(p, q)).w == Times4(Conjugate(q), Conjugate(p)).w
  {
    hide Times4;
    FirstComponent(p, q);
    LastComponent(p, q);
    FirstComponent(Conjugate(q), Conjugate(p));
    LastComponent(Conjugate(q), Conjugate(p));
    ConjugateX(p.x, p.y, p.z, p.w, q.x, q.y, q.z, q.w);
  }

  lemma ConjugateSecond(p: Quat, q: Quat)
    ensures Conjugate(Times4(p, q)).y == Times4(Conjugate(q), Conjugate(p)).y
  {
    hide Times4;
    Components(p, q);
    Components(Conjugate(q), Conjugate(p));
    ConjugateX(p.y, p.z, p.x, p.w, q.y, q.z, q.x, q.w);
  }

  lemma ConjugateThird(p: Quat, q: Quat)
    ensures Conjugate(Times4(p, q)).z == Times4(Conjugate(q), Conjugate(p)).z
  {
    hide Times4;
    Components(p, q);
    Components(Conjugate(q), Conjugate(p));
    ConjugateX(p.z, p.x, p.y, p.w, q.z, q.x, q.y, q.w);
  }

  lemma ConjugateX(px: real, py: real, pz: real, pw: real, qx: real, qy: real, qz: real, qw: real)
    ensures -(pw * qx + px * qw + py * qz - pz * qy) == qw * (-px) + (-qx) * pw + (-qy) * (-pz) - (-qz) * (-py)
    ensures pw * qw - px * qx - py * qy - pz * qz == qw * pw - (-qx) * (-px) - (-qy) * (-py) - (-qz) * (-pz)
  {
  }

  lemma SandwichX(q: Quat, v: Vec3, t: Quat, h: Vec3)
    requires IsProduct(q, Pure(v), t)
    requires h.x == q.w * q.w + q.x * q.x - q.y * q.y - q.z * q.z
    requires h.y == 2.0 * (q.x * q.y - q.z * q.w) && h.z == 2.0 * (q.x * q.z + q.y * q.w)
    ensures t.w * (-q.x) + t.x * q.w + t.y * (-q.z) - t.z * (-q.y) == h.x * v.x + h.y * v.y + h.z * v.z
  {
  }

  lemma SandwichW(q: Quat, v: Vec3, t: Quat)
    requires IsProduct(q, Pure(v), t)
    ensures t.w * q.w - t.x * (-q.x) - t.y * (-q.y) - t.z * (-q.z) == 0.0
  {
  }

  function CycleVec(v: Vec3): Vec3 { Vec3(v.y, v.z, v.x) }

  lemma SandwichFirst(q: Quat, v: Vec3)
    ensures Times4(Times4(q, Pure(v)), Conjugate(q)).x == Dot(Homogeneous(q).r0, v)
  {
    hide Times4;
    Components(q, Pure(v));
    FirstComponent(Times4(q, Pure(v)), Conjugate(q));
    SandwichX(q, v, Times4(q, Pure(v)), Homogeneous(q).r0);
  }

  lemma SandwichLast(q: Quat, v: Vec3)
    ensures Times4(Times4(q, Pure(v)), Conjugate(q)).w == 0.0
  {
    hide Times4;
    Components(q, Pure(v));
    LastComponent(Times4(q, Pure(v)), Conjugate(q));
    SandwichW(q, v, Times4(q, Pure(v)));
  }

  /** The later rows of the matrix are the first row of the renamed quaternion. */
  lemma CycleRows(q: Quat, v: Vec3)
    ensures Dot(Homogeneous(Cycle(q)).r0, CycleVec(v)) == Dot(Homogeneous(q).r1, v)
    ensures Dot(Homogeneous(Cycle(q)).r1, CycleVec(v)) == Dot(Homogeneous(q).r2, v)
  {
    hide Homogeneous, Dot;
    CycleHomogeneous(q);
    CycleDot(Homogeneous(q).r1, v);
    CycleDot(Homogeneous(q).r2, v);
  }

  lemma CycleHomogeneous(q: Quat)
    ensures var h, g := Homogeneous(q), Homogeneous(Cycle(q));
      g.r0 == CycleVec(h.r1) && g.r1 == CycleVec(h.r2)
  {
    CycleEntries(q.w, q.x, q.y, q.z);
    hide FirstRow, SecondRow, ThirdRow, CycleVec;
  }

  lemma CycleEntries(w: real, x: real, y: real, z: real)
    ensures FirstRow(w, y, z, x) == CycleVec(SecondRow(w, x, y, z))
    ensures SecondRow(w, y, z, x) == CycleVec(ThirdRow(w, x, y, z))
  {
  }

  lemma CycleDot(u: Vec3, v: Vec3)
    ensures Dot(CycleVec(u), CycleVec(v)) == Dot(u, v)
  {
  }

  lemma CycleSandwich(q: Quat, v: Vec3)
    ensures Cycle(Times4(Times4(q, Pure(v)), Conjugate(q)))
         == Times4(Times4(Cycle(q), Pure(CycleVec(v))), Conjugate(Cycle(q)))
  {
    hide Times4;
    CycleTriple(q, Pure(v), Conjugate(q));
  }

  /** The matrix of a quaternion acts as the sandwich product. */
  lemma Sandwich(q: Quat, v: Vec3)
    ensures Times4(Times4(q, Pure(v)), Conjugate(q)) == Pure(Homogeneous(q).Apply(v))
  {
    hide Times4, Homogeneous, Conjugate, Dot;
    var a, u := Cycle(q), CycleVec(v);
    SandwichFirst(q, v);
    SandwichLast(q, v);
    SandwichFirst(a, u);
    SandwichFirst(Cycle(a), CycleVec(u));
    CycleRows(q, v);
    CycleRows(a, u);
    CycleSandwich(q, v);
    CycleSandwich(a, u);
  }

  /** Quaternion product and matrix product agree, as actions and so as matrices. */
  lemma ProductActs(p: Quat, q: Quat, v: Vec3)
    ensures Homogeneous(Times4(p, q)).Apply(v) == Mul(Homogeneous(p), Homogeneous(q)).Apply(v)
  {
    hide Times4, Conjugate, Homogeneous, Mul;
    hide Mat3.Apply;
    var a, b := Conjugate(p), Conjugate(q);
    var w := Homogeneous(q).Apply(v);
    ApplyMul(Homogeneous(p), Homogeneous(q), v);
    Sandwich(q, v);
    Sandwich(p, w);
    Sandwich(Times4(p, q), v);
    ConjugateOfProduct(p, q);
    ProductAssociates(p, q, Pure(v));
    ProductAssociates(Times4(p, Times4(q, Pure(v))), b, a);
    ProductAssociates(p, Times4(q, Pure(v)), b);
  }

  lemma SameAction(a: Mat3, b: Mat3)
    requires a.Apply(IDENTITY.r0) == b.Apply(IDENTITY.r0)
    requires a.Apply(IDENTITY.r1) == b.Apply(IDENTITY.r1)
    requires a.Apply(IDENTITY.r2) == b.Apply(IDENTITY.r2)
    ensures a == b
  {
  }

  lemma ProductLaw(p: Quat, q: Quat)
    ensures Homogeneous(Times4(p, q)) == Mul(Homogeneous(p), Homogeneous(q))
  {
    ProductActs(p, q, IDENTITY.r0);
    ProductActs(p, q, IDENTITY.r1);
    ProductActs(p, q, IDENTITY.r2);
    hide Times4, Homogeneous, Mul;
    SameAction(Homogeneous(Times4(p, q)), Mul(Homogeneous(p), Homogeneous(q)));
  }

  lemma ProductOfUnits(p: Quat, q: Quat)
    requires p.Unit() && q.Unit()
    ensures Times4(p, q).Unit()
    ensures RotationOf(Times4(p, q)) == Mul(RotationOf(p), RotationOf(q))
  {
    hide Times4, RotationOf, Homogeneous, Mul;
    ProductNorm(p, q);
    HomogeneousOfUnit(p);
    HomogeneousOfUnit(q);
    HomogeneousOfUnit(Times4(p, q));
    ProductLaw(p, q);
  }

  /** |q|^2 is q q*, so the norm of a product is the product of the norms. */
  lemma ProductNorm(p: Quat, q: Quat)
    requires p.Unit() && q.Unit()
    ensures Times4(p, q).Unit()
  {
    hide Times4, Conjugate, Quat.Unit;
    SelfProduct(p);
    SelfProduct(q);
    SelfProduct(Times4(p, q));
    ConjugateOfProduct(p, q);
    var a, b := Conjugate(p), Conjugate(q);
    ProductAssociates(Times4(p, q), b, a);
    ProductAssociates(p, q, b);
    TimesOne(p);
  }

  const ONE := Quat(0.0, 0.0, 0.0, 1.0)

  lemma TimesOne(p: Quat)
    ensures Times4(p, ONE) == p
  {
  }

  lemma SelfProduct(q: Quat)
    ensures Times4(q, Conjugate(q)) == ONE <==> q.Unit()
  {
    hide Sq;
    SqIs(q.x);
    SqIs(q.y);
    SqIs(q.z);
    SqIs(q.w);
    Components(q, Conjugate(q));
    hide Times4;
  }

  // ----------------------------------------------------- rotations about Z

  /** `rotation_z` for a turn given by its cosine and sine. */
  function RotationZ(turn: Rotation): Mat3 {
    Mat3(Vec3(turn.c, -turn.s, 0.0), Vec3(turn.s, turn.c, 0.0), Vec3(0.0, 0.0, 1.0))
  }

  /** The turn whose half angle is given. */
  function Doubled(half: Rotation): Rotation {
    R.Rotation(half.c * half.c - half.s * half.s, 2.0 * (half.s * half.c))
  }

  /** `rpy_to_quaternion` of half angles. */
  function RpyToQuaternion(r: Rotation, p: Rotation, y: Rotation): Quat {
    Quat(
      r.s * p.c * y.c - r.c * p.s * y.s,
      r.c * p.s * y.c + r.s * p.c * y.s,
      r.c * p.c * y.s - r.s * p.s * y.c,
      r.c * p.c * y.c + r.s * p.s * y.s)
  }

  const LEVEL := R.Rotation(1.0, 0.0)

  function YawQuaternion(half: Rotation): Quat { RpyToQuaternion(LEVEL, LEVEL, half) }

  lemma YawQuaternionTurns(half: Rotation)
    requires half.Unit()
    ensures YawQuaternion(half).Unit()
    ensures RotationOf(YawQuaternion(half)) == RotationZ(Doubled(half))
  {
    var q := YawQuaternion(half);
    assert q == Quat(0.0, 0.0, half.s, half.c);
    hide RpyToQuaternion, Sq;
    SqIs(half.s);
    SqIs(half.c);
    SqIs(0.0);
  }

  // ------------------------------------------------------- the two projections

  /** An active correction: translation and yaw, the yaw by its half angle. */
  datatype Correction = Correction(x: real, y: real, half: Rotation)

  ghost predicate Proper(c: Option<Correction>) { c.Some? ==> c.value.half.Unit() }

  /** `_planar_components`: position and orientation after the correction. */
  function PlanarComponents(root: real -> real, p: Vec3, q: Quat, k: Correction): Option<(Vec3, Quat)> {
    var turn := Doubled(k.half);
    match Normalize(root, q)
    case None => None
    case Some(u) =>
      match Normalize(root, Times4(YawQuaternion(k.half), u))
      case None => None
      case Some(corrected) =>
        Some((Vec3(turn.c * p.x - turn.s * p.y + k.x, turn.s * p.x + turn.c * p.y + k.y, p.z), corrected))
  }

  /** `compute_fcu_reference_position`. */
  function FcuReferencePosition(raw: Vec3, corrected: Vec3, lever: Vec3, valid: bool): Vec3 {
    if valid then Vec3(corrected.x, corrected.y, raw.z + lever.z) else Plus(raw, lever)
  }

  /** What the bridge emits for one raw sample. */
  datatype Emitted = Emitted(position: Vec3, orientation: Quat)

  /** `_transform_sample` of one raw callback; None where a quaternion has no norm. */
  function TransformSample(root: real -> real, p: Vec3, q: Quat, k: Option<Correction>, lever: Vec3): Option<Emitted> {
    match k
    case Some(active) =>
      (match PlanarComponents(root, p, q, active)
       case None => None
       case Some(parts) =>
         match Normalize(root, parts.1)
         case None => None
         case Some(o) => Some(Emitted(FcuReferencePosition(p, parts.0, lever, true), o)))
    case None =>
      match Normalize(root, q)
      case None => None
      case Some(u) =>
        match Normalize(root, u)
        case None => None
        case Some(o) => Some(Emitted(FcuReferencePosition(p, p, lever, false), o))
  }

  datatype FcuPose = FcuPose(position: Vec3, rotation: Mat3)

  /** `project_fcu_reference_pose` of the service. */
  function ProjectFcu(raw: Pose, k: Option<Correction>, lever: Vec3): FcuPose {
    match k
    case None => FcuPose(Plus(raw.shift, lever), raw.turn)
    case Some(active) =>
      var world := RotationZ(Doubled(active.half));
      var moved := Plus(world.Apply(raw.shift), Vec3(active.x, active.y, 0.0));
      FcuPose(Vec3(moved.x, moved.y, raw.shift.z + lever.z), Mul(world, raw.turn))
  }

  /** The bridge's quaternions and the service's matrices describe the same pose, for every raw
      sample, correction and lever arm; the bridge emits nothing exactly for a normless quaternion. */
  lemma SamePose(root: real -> real, p: Vec3, q: Quat, k: Option<Correction>, lever: Vec3)
    requires IsRoot(root) && Proper(k)
    ensures TransformSample(root, p, q, k, lever) == None <==> QuaternionToMatrix(root, q) == None
    ensures TransformSample(root, p, q, k, lever).Some? ==>
      var e := TransformSample(root, p, q, k, lever).value;
      FcuPose(e.position, RotationOf(e.orientation))
        == ProjectFcu(Pose(QuaternionToMatrix(root, q).value, p), k, lever)
  {
    hide RotationOf, Times4, Mul, YawQuaternion, Doubled, IsRoot, Quat.Unit, Norm;
    if Norm(root, q) >= SMALLEST_NORM {
      var u := q.Over(Norm(root, q));
      NormalizedIsUnit(root, q);
      NormalizeUnit(root, u);
      if k.Some? {
        var y := YawQuaternion(k.value.half);
        YawQuaternionTurns(k.value.half);
        ProductOfUnits(y, u);
        NormalizeUnit(root, Times4(y, u));
      }
    }
  }

  /** The turn by twice the half angle. */
  function Twice(half: Rotation): Rotation { R.Rotation(half.c * half.c - half.s * half.s, 2.0 * (half.s * half.c)) }

  lemma UnitColumns(m: Mat3)
    ensures m.Apply(Vec3(1.0, 0.0, 0.0)) == Vec3(m.r0.x, m.r1.x, m.r2.x)
    ensures m.Apply(Vec3(0.0, 1.0, 0.0)) == Vec3(m.r0.y, m.r1.y, m.r2.y)
    ensures m.Apply(Vec3(0.0, 0.0, 1.0)) == Vec3(m.r0.z, m.r1.z, m.r2.z)
  {
  }

  lemma CosineOfTwice(h: Rotation)
    requires h.Unit()
    ensures 1.0 - 2.0 * Sq(h.s) == Twice(h).c && Sq(0.0) == 0.0
  {
    SqIs(h.c);
    SqIs(h.s);
    hide Sq;
  }

  /** A quaternion along an axis turns about it by twice its half angle: about X it takes Y towards Z, about Y it takes
      Z towards X, and about Z it takes X towards Y. */
  lemma AxisTurns(h: Rotation)
    requires h.Unit()
    ensures RotationOf(Quat(h.s, 0.0, 0.0, h.c)).Apply(Vec3(0.0, 1.0, 0.0)) == Vec3(0.0, Twice(h).c, Twice(h).s)
    ensures RotationOf(Quat(0.0, h.s, 0.0, h.c)).Apply(Vec3(0.0, 0.0, 1.0)) == Vec3(Twice(h).s, 0.0, Twice(h).c)
    ensures RotationOf(Quat(0.0, 0.0, h.s, h.c)).Apply(Vec3(1.0, 0.0, 0.0)) == Vec3(Twice(h).c, Twice(h).s, 0.0)
  {
    hide RotationOf, Sq, Twice, Rotation.Unit;
    hide Mat3.Apply;
    CosineOfTwice(h);
    UnitColumns(RotationOf(Quat(h.s, 0.0, 0.0, h.c)));
    UnitColumns(RotationOf(Quat(0.0, h.s, 0.0, h.c)));
    UnitColumns(RotationOf(Quat(0.0, 0.0, h.s, h.c)));
    AxisEntries(h);
  }

  lemma AxisEntries(h: Rotation)
    requires Sq(0.0) == 0.0
    ensures var m, t := RotationOf(Quat(h.s, 0.0, 0.0, h.c)), 1.0 - 2.0 * Sq(h.s); m.r0.y == 0.0 && m.r1.y == t && m.r2.y == Twice(h).s
    ensures var m, t := RotationOf(Quat(0.0, h.s, 0.0, h.c)), 1.0 - 2.0 * Sq(h.s); m.r0.z == Twice(h).s && m.r1.z == 0.0 && m.r2.z == t
    ensures var m, t := RotationOf(Quat(0.0, 0.0, h.s, h.c)), 1.0 - 2.0 * Sq(h.s); m.r0.x == t && m.r1.x == Twice(h).s && m.r2.x == 0.0
  {
    hide Sq;
  }

  /** A turn of the plane, the height left alone. */
  function Turned(t: Rotation, v: Vec3): Vec3 { Vec3(t.c * v.x - t.s * v.y, t.s * v.x + t.c * v.y, v.z) }

  /** Where the correction puts a sample: without one the lever arm is added, with one the horizontal position is
      turned and moved as the correction says and only the lever's height counts. */
  function CarriedTo(p: Vec3, k: Option<Correction>, lever: Vec3): Vec3 {
    match k
    case None => Vec3(p.x + lever.x, p.y + lever.y, p.z + lever.z)
    case Some(a) => Vec3(Turned(Twice(a.half), p).x + a.x, Turned(Twice(a.half), p).y + a.y, p.z + lever.z)
  }

  lemma DoubledIsTwice(half: Rotation)
    ensures Doubled(half) == Twice(half)
  {
  }

  lemma ZApplies(t: Rotation, v: Vec3)
    ensures RotationZ(t).Apply(v) == Turned(t, v)
  {
  }

  lemma ProjectedPosition(raw: Pose, k: Option<Correction>, lever: Vec3)
    ensures ProjectFcu(raw, k, lever).position == CarriedTo(raw.shift, k, lever)
  {
    hide Mul, RotationZ, Turned, Twice, Doubled;
    hide Mat3.Apply;
    if k.Some? {
      DoubledIsTwice(k.value.half);
      ZApplies(Twice(k.value.half), raw.shift);
    }
  }

  lemma ProjectedTurn(raw: Pose, k: Option<Correction>, lever: Vec3, v: Vec3)
    ensures ProjectFcu(raw, k, lever).rotation.Apply(v)
      == if k.None? then raw.turn.Apply(v) else Turned(Twice(k.value.half), raw.turn.Apply(v))
  {
    hide Mul, RotationZ, Turned, Twice, Doubled;
    hide Mat3.Apply;
    if k.Some? {
      DoubledIsTwice(k.value.half);
      ApplyMul(RotationZ(Twice(k.value.half)), raw.turn, v);
      ZApplies(Twice(k.value.half), raw.turn.Apply(v));
    }
  }

  /** The emitted pose is the raw one carried and turned by the correction. */
  lemma PoseCarried(root: real -> real, p: Vec3, q: Quat, k: Option<Correction>, lever: Vec3, v: Vec3)
    requires IsRoot(root) && Proper(k) && Norm(root, q) >= SMALLEST_NORM
    ensures TransformSample(root, p, q, k, lever).Some? && QuaternionToMatrix(root, q).Some?
    ensures var e, w := TransformSample(root, p, q, k, lever).value, QuaternionToMatrix(root, q).value.Apply(v);
      && e.position == CarriedTo(p, k, lever)
      && RotationOf(e.orientation).Apply(v) == (if k.None? then w else Turned(Twice(k.value.half), w))
  {
    hide TransformSample, RotationOf, IsRoot, ProjectFcu, CarriedTo, Turned, Twice, Norm;
    hide Mat3.Apply;
    SamePose(root, p, q, k, lever);
    var raw := Pose(QuaternionToMatrix(root, q).value, p);
    ProjectedPosition(raw, k, lever);
    ProjectedTurn(raw, k, lever, v);
  }

  // ------------------------------------------------------------------ the jump

  /** `atan2` of (s, c) as a unit pair; `atan2(0, 0)` is zero. */
  function Direction(root: real -> real, s: real, c: real): Rotation {
    var h := root(Sq(s) + Sq(c));
    if h == 0.0 then LEVEL else R.Rotation(c / h, s / h)
  }

  /** Horizontal distance and unsigned heading change between two poses. */
  datatype Jump = Jump(distance: real, heading: Rotation)

  function JumpBetween(root: real -> real, before: FcuPose, after: FcuPose): Jump {
    var relative := Mul(after.rotation, before.rotation.Transpose());
    var turn := Direction(root, relative.r1.x, relative.r0.x);
    Jump(root(Sq(after.position.x - before.position.x) + Sq(after.position.y - before.position.y)),
         R.Rotation(turn.c, if turn.s < 0.0 then -turn.s else turn.s))
  }

  /** `expected_fcu_jump`. */
  function ExpectedJump(root: real -> real, raw: Pose, prior: Option<Correction>, next: Correction, lever: Vec3): Jump {
    JumpBetween(root, ProjectFcu(raw, prior, lever), ProjectFcu(raw, Some(next), lever))
  }

  /** The jump the service predicts is the jump between what the bridge emits for the same raw
      sample before and after the correction is applied. */
  lemma JumpPredicted(root: real -> real, p: Vec3, q: Quat, prior: Option<Correction>, next: Correction, lever: Vec3)
    requires IsRoot(root) && Proper(prior) && next.half.Unit()
    requires Norm(root, q) >= SMALLEST_NORM
    ensures TransformSample(root, p, q, prior, lever).Some? && TransformSample(root, p, q, Some(next), lever).Some?
    ensures
      var b, a := TransformSample(root, p, q, prior, lever).value, TransformSample(root, p, q, Some(next), lever).value;
      ExpectedJump(root, Pose(QuaternionToMatrix(root, q).value, p), prior, next, lever)
        == JumpBetween(root, FcuPose(b.position, RotationOf(b.orientation)), FcuPose(a.position, RotationOf(a.orientation)))
  {
    hide TransformSample, ProjectFcu, RotationOf, JumpBetween;
    SamePose(root, p, q, prior, lever);
    SamePose(root, p, q, Some(next), lever);
  }

  /** The predicted distance is that between the two places the correction puts the sample at, in the plane. */
  lemma JumpIsPlaneDistance(root: real -> real, raw: Pose, prior: Option<Correction>, next: Correction, lever: Vec3)
    requires IsRoot(root)
    ensures var d := ExpectedJump(root, raw, prior, next, lever).distance;
      var b, a := CarriedTo(raw.shift, prior, lever), CarriedTo(raw.shift, Some(next), lever);
      d >= 0.0 && Sq(d) == Sq(a.x - b.x) + Sq(a.y - b.y)
  {
    ProjectedPosition(raw, prior, lever);
    ProjectedPosition(raw, Some(next), lever);
    hide ProjectFcu, CarriedTo, Direction, Sq, Mul;
  }

  /** The turn of a correction; none is the identity. */
  function TurnOf(k: Option<Correction>): Rotation {
    if k.None? then LEVEL else Doubled(k.value.half)
  }

  lemma ProjectedRotation(raw: Pose, k: Option<Correction>, lever: Vec3)
    ensures ProjectFcu(raw, k, lever).rotation == Mul(RotationZ(TurnOf(k)), raw.turn)
  {
    MulIdentity(raw.turn);
    hide Mul;
    assert RotationZ(LEVEL) == IDENTITY;
  }

  /** The predicted heading change is that of the two corrections alone: the sample drops out. */
  lemma HeadingJumpIsTurnDifference(root: real -> real, raw: Pose, prior: Option<Correction>, next: Correction, lever: Vec3)
    requires IsRoot(root) && Proper(prior) && next.half.Unit() && raw.Rigid()
    ensures var a, b := TurnOf(prior), Doubled(next.half);
      var s := b.s * a.c - b.c * a.s;
      ExpectedJump(root, raw, prior, next, lever).heading
        == R.Rotation(b.c * a.c + b.s * a.s, if s < 0.0 then -s else s)
  {
    var a, b := TurnOf(prior), Doubled(next.half);
    var za, zb := RotationZ(a), RotationZ(b);
    hide Doubled, Direction, ProjectFcu, Mul, RotationZ, IsRoot;
    hide Mat3.Transpose;
    ProjectedRotation(raw, prior, lever);
    ProjectedRotation(raw, Some(next), lever);
    RelativeTurn(zb, za, raw.turn);
    TurnDifference(a, b);
    DoubledUnit(prior);
    DoubledUnit(Some(next));
    UnitDifference(a, b);
    DirectionOfUnit(root, b.s * a.c - b.c * a.s, b.c * a.c + b.s * a.s);
  }

  lemma DoubledUnit(k: Option<Correction>)
    requires Proper(k)
    ensures TurnOf(k).c * TurnOf(k).c + TurnOf(k).s * TurnOf(k).s == 1.0
  {
    if k.Some? {
      var h := k.value.half;
      R.UnitSquares(h);
      DoubledUnitScalar(h.c, h.s);
    }
  }

  lemma DoubledUnitScalar(c: real, s: real)
    requires c * c + s * s == 1.0
    ensures (c * c - s * s) * (c * c - s * s) + (2.0 * (s * c)) * (2.0 * (s * c)) == 1.0
  {
    assert (c * c - s * s) * (c * c - s * s) + (2.0 * (s * c)) * (2.0 * (s * c)) == (c * c + s * s) * (c * c + s * s);
  }

  lemma UnitDifference(a: Rotation, b: Rotation)
    requires a.c * a.c + a.s * a.s == 1.0 && b.c * b.c + b.s * b.s == 1.0
    ensures (b.s * a.c - b.c * a.s) * (b.s * a.c - b.c * a.s) + (b.c * a.c + b.s * a.s) * (b.c * a.c + b.s * a.s) == 1.0
  {
    UnitDifferenceScalar(a.c, a.s, b.c, b.s);
  }

  lemma UnitDifferenceScalar(c: real, s: real, d: real, t: real)
    requires c * c + s * s == 1.0 && d * d + t * t == 1.0
    ensures (t * c - d * s) * (t * c - d * s) + (d * c + t * s) * (d * c + t * s) == 1.0
  {
    assert (t * c - d * s) * (t * c - d * s) + (d * c + t * s) * (d * c + t * s) == (c * c + s * s) * (d * d + t * t);
  }

  lemma DirectionOfUnit(root: real -> real, s: real, c: real)
    requires IsRoot(root) && s * s + c * c == 1.0
    ensures Direction(root, s, c) == R.Rotation(c, s)
  {
    SqIs(s);
    SqIs(c);
    RootOfSquare(root, 1.0);
  }

  lemma TurnDifference(a: Rotation, b: Rotation)
    ensures var m := Mul(RotationZ(b), RotationZ(a).Transpose());
      m.r1.x == b.s * a.c - b.c * a.s && m.r0.x == b.c * a.c + b.s * a.s
  {
    var za, zb := RotationZ(a), RotationZ(b);
    RowByColumns(zb.r0, za.Transpose());
    RowByColumns(zb.r1, za.Transpose());
    assert za.Transpose().Transpose() == za;
    hide Row;
    assert Dot(za.r0, zb.r0) == b.c * a.c + b.s * a.s;
    assert Dot(za.r0, zb.r1) == b.s * a.c - b.c * a.s;
    hide RotationZ, Dot;
  }

  /** (b m)(a m)^T is b a^T for orthogonal m. */
  lemma RelativeTurn(b: Mat3, a: Mat3, m: Mat3)
    requires Orthogonal(m)
    ensures Mul(Mul(b, m), Mul(a, m).Transpose()) == Mul(b, a.Transpose())
  {
    var at, mt := a.Transpose(), m.Transpose();
    TransposeMul(a, m);
    hide Mul;
    hide Mat3.Transpose;
    MulAssociates(b, m, Mul(mt, at));
    MulAssociates(m, mt, at);
    MulIdentity(at);
  }
}
