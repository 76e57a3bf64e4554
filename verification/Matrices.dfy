/** Vectors, 3x3 matrices and rigid poses over the reals, with the group laws the
    transform chains of correction_service/correction_service/geometry.py rest on.
 */
module Matrices {
  import opened Reals

  datatype Vec3 = Vec3(x: real, y: real, z: real)

  function Plus(a: Vec3, b: Vec3): Vec3 { Vec3(a.x + b.x, a.y + b.y, a.z + b.z) }

  function Times(k: real, v: Vec3): Vec3 { Vec3(k * v.x, k * v.y, k * v.z) }

  function Dot(a: Vec3, b: Vec3): real { a.x * b.x + a.y * b.y + a.z * b.z }

  /** A matrix by its rows. */
  datatype Mat3 = Mat3(r0: Vec3, r1: Vec3, r2: Vec3)
  {
    function Transpose(): Mat3 {
      Mat3(Vec3(r0.x, r1.x, r2.x), Vec3(r0.y, r1.y, r2.y), Vec3(r0.z, r1.z, r2.z))
    }

    function Apply(v: Vec3): Vec3 { Vec3(Dot(r0, v), Dot(r1, v), Dot(r2, v)) }
  }

  const IDENTITY := Mat3(Vec3(1.0, 0.0, 0.0), Vec3(0.0, 1.0, 0.0), Vec3(0.0, 0.0, 1.0))
  const ZERO := Vec3(0.0, 0.0, 0.0)

  /** Row vector times matrix: the combination of the rows of m that v spells out. */
  function Row(v: Vec3, m: Mat3): Vec3 {
    Plus(Plus(Times(v.x, m.r0), Times(v.y, m.r1)), Times(v.z, m.r2))
  }

  function Mul(a: Mat3, b: Mat3): Mat3 { Mat3(Row(a.r0, b), Row(a.r1, b), Row(a.r2, b)) }

  // ------------------------------------------------------------ matrix laws

  lemma RowByColumnsOf(v: Vec3, m: Mat3)
    ensures Row(v, m).x == v.x * m.r0.x + v.y * m.r1.x + v.z * m.r2.x
    ensures Row(v, m).y == v.x * m.r0.y + v.y * m.r1.y + v.z * m.r2.y
    ensures Row(v, m).z == v.x * m.r0.z + v.y * m.r1.z + v.z * m.r2.z
  {
  }

  lemma RowPlus(u: Vec3, v: Vec3, m: Mat3)
    ensures Row(Plus(u, v), m) == Plus(Row(u, m), Row(v, m))
  {
    hide Row;
    RowPlusX(u, v, m);
    RowPlusY(u, v, m);
    RowPlusZ(u, v, m);
  }

  lemma RowPlusX(u: Vec3, v: Vec3, m: Mat3)
    ensures Row(Plus(u, v), m).x == Row(u, m).x + Row(v, m).x
  {
    RowByColumnsOf(u, m);
    RowByColumnsOf(v, m);
    RowByColumnsOf(Plus(u, v), m);
    hide Row;
    Distributes(u, v, Plus(u, v), m.r0.x, m.r1.x, m.r2.x);
  }

  lemma RowPlusY(u: Vec3, v: Vec3, m: Mat3)
    ensures Row(Plus(u, v), m).y == Row(u, m).y + Row(v, m).y
  {
    RowByColumnsOf(u, m);
    RowByColumnsOf(v, m);
    RowByColumnsOf(Plus(u, v), m);
    hide Row;
    Distributes(u, v, Plus(u, v), m.r0.y, m.r1.y, m.r2.y);
  }

  lemma RowPlusZ(u: Vec3, v: Vec3, m: Mat3)
    ensures Row(Plus(u, v), m).z == Row(u, m).z + Row(v, m).z
  {
    RowByColumnsOf(u, m);
    RowByColumnsOf(v, m);
    RowByColumnsOf(Plus(u, v), m);
    hide Row;
    Distributes(u, v, Plus(u, v), m.r0.z, m.r1.z, m.r2.z);
  }

  lemma Distributes(u: Vec3, v: Vec3, p: Vec3, a: real, b: real, c: real)
    requires p.x == u.x + v.x && p.y == u.y + v.y && p.z == u.z + v.z
    ensures p.x * a + p.y * b + p.z * c == (u.x * a + u.y * b + u.z * c) + (v.x * a + v.y * b + v.z * c)
  {
  }

  lemma RowTimes(k: real, v: Vec3, m: Mat3)
    ensures Row(Times(k, v), m) == Times(k, Row(v, m))
  {
    hide Row;
    RowTimesX(k, v, m);
    RowTimesY(k, v, m);
    RowTimesZ(k, v, m);
  }

  lemma RowTimesX(k: real, v: Vec3, m: Mat3)
    ensures Row(Times(k, v), m).x == k * Row(v, m).x
  {
    RowByColumnsOf(v, m);
    RowByColumnsOf(Times(k, v), m);
    hide Row;
    Trilinear(k, v, Times(k, v), m.r0.x, m.r1.x, m.r2.x, Row(v, m).x);
  }

  lemma RowTimesY(k: real, v: Vec3, m: Mat3)
    ensures Row(Times(k, v), m).y == k * Row(v, m).y
  {
    RowByColumnsOf(v, m);
    RowByColumnsOf(Times(k, v), m);
    hide Row;
    Trilinear(k, v, Times(k, v), m.r0.y, m.r1.y, m.r2.y, Row(v, m).y);
  }

  lemma RowTimesZ(k: real, v: Vec3, m: Mat3)
    ensures Row(Times(k, v), m).z == k * Row(v, m).z
  {
    RowByColumnsOf(v, m);
    RowByColumnsOf(Times(k, v), m);
    hide Row;
    Trilinear(k, v, Times(k, v), m.r0.z, m.r1.z, m.r2.z, Row(v, m).z);
  }

  lemma Trilinear(k: real, v: Vec3, u: Vec3, a: real, b: real, c: real, sum: real)
    requires u.x == k * v.x && u.y == k * v.y && u.z == k * v.z
    requires sum == v.x * a + v.y * b + v.z * c
    ensures u.x * a + u.y * b + u.z * c == k * sum
  {
  }

  lemma RowAssociates(v: Vec3, b: Mat3, c: Mat3)
    ensures Row(Row(v, b), c) == Row(v, Mul(b, c))
  {
    hide Plus, Times, Row;
    var x, y, z := Times(v.x, b.r0), Times(v.y, b.r1), Times(v.z, b.r2);
    RowIs(v, b);
    RowIs(v, Mul(b, c));
    RowTimes(v.x, b.r0, c);
    RowTimes(v.y, b.r1, c);
    RowTimes(v.z, b.r2, c);
    RowPlus(Plus(x, y), z, c);
    RowPlus(x, y, c);
  }

  lemma RowIs(v: Vec3, m: Mat3)
    ensures Row(v, m) == Plus(Plus(Times(v.x, m.r0), Times(v.y, m.r1)), Times(v.z, m.r2))
  {
  }

  lemma MulAssociates(a: Mat3, b: Mat3, c: Mat3)
    ensures Mul(Mul(a, b), c) == Mul(a, Mul(b, c))
  {
    RowAssociates(a.r0, b, c);
    RowAssociates(a.r1, b, c);
    RowAssociates(a.r2, b, c);
    hide Row;
  }

  lemma MulIdentity(m: Mat3)
    ensures Mul(m, IDENTITY) == m && Mul(IDENTITY, m) == m
  {
    hide Row;
    RowIdentity(m.r0);
    RowIdentity(m.r1);
    RowIdentity(m.r2);
    RowOfUnits(m);
  }

  lemma RowIdentity(v: Vec3)
    ensures Row(v, IDENTITY) == v
  {
  }

  lemma RowOfUnits(m: Mat3)
    ensures Row(IDENTITY.r0, m) == m.r0 && Row(IDENTITY.r1, m) == m.r1 && Row(IDENTITY.r2, m) == m.r2
  {
    RowOfFirst(m.r0, m.r1, m.r2);
    RowOfFirst(m.r1, m.r2, m.r0);
    RowOfFirst(m.r2, m.r0, m.r1);
    hide Times;
  }

  lemma RowOfFirst(a: Vec3, b: Vec3, c: Vec3)
    ensures Times(1.0, a) == a && Times(0.0, b) == ZERO && Times(0.0, c) == ZERO
  {
  }

  lemma DotRow(v: Vec3, m: Mat3, u: Vec3)
    ensures Dot(Row(v, m), u) == Dot(v, m.Apply(u))
  {
    DotOf(v, m.Apply(u));
    hide Plus, Times, Row, Dot;
    RowIs(v, m);
    DotPlus(Plus(Times(v.x, m.r0), Times(v.y, m.r1)), Times(v.z, m.r2), u);
    DotPlus(Times(v.x, m.r0), Times(v.y, m.r1), u);
    DotTimes(v.x, m.r0, u);
    DotTimes(v.y, m.r1, u);
    DotTimes(v.z, m.r2, u);
  }

  lemma DotOf(v: Vec3, a: Vec3)
    ensures Dot(v, a) == v.x * a.x + v.y * a.y + v.z * a.z
  {
  }

  lemma DotPlus(a: Vec3, b: Vec3, u: Vec3)
    ensures Dot(Plus(a, b), u) == Dot(a, u) + Dot(b, u)
  {
  }

  lemma DotTimes(k: real, a: Vec3, u: Vec3)
    ensures Dot(Times(k, a), u) == k * Dot(a, u)
  {
  }

  lemma ApplyMul(a: Mat3, b: Mat3, v: Vec3)
    ensures Mul(a, b).Apply(v) == a.Apply(b.Apply(v))
  {
    DotRow(a.r0, b, v);
    DotRow(a.r1, b, v);
    DotRow(a.r2, b, v);
    hide Row, Dot;
  }

  lemma ApplyPlus(m: Mat3, u: Vec3, v: Vec3)
    ensures m.Apply(Plus(u, v)) == Plus(m.Apply(u), m.Apply(v))
  {
  }

  lemma ApplyTimes(m: Mat3, k: real, v: Vec3)
    ensures m.Apply(Times(k, v)) == Times(k, m.Apply(v))
  {
    DotTimes(k, v, m.r0);
    DotTimes(k, v, m.r1);
    DotTimes(k, v, m.r2);
  }

  lemma RowByColumns(v: Vec3, m: Mat3)
    ensures Row(v, m) == m.Transpose().Apply(v)
  {
  }

  lemma TransposeMul(a: Mat3, b: Mat3)
    ensures Mul(a, b).Transpose() == Mul(b.Transpose(), a.Transpose())
  {
    var at, bt := a.Transpose(), b.Transpose();
    RowByColumns(a.r0, b);
    RowByColumns(a.r1, b);
    RowByColumns(a.r2, b);
    RowByColumns(bt.r0, at);
    RowByColumns(bt.r1, at);
    RowByColumns(bt.r2, at);
    DotCommutes(a, bt.r0);
    DotCommutes(a, bt.r1);
    DotCommutes(a, bt.r2);
    hide Row, Dot;
  }

  lemma DotCommutes(a: Mat3, v: Vec3)
    ensures Dot(a.r0, v) == Dot(v, a.r0) && Dot(a.r1, v) == Dot(v, a.r1) && Dot(a.r2, v) == Dot(v, a.r2)
  {
  }

  // ------------------------------------------------------------- rigid poses

  ghost predicate Orthogonal(m: Mat3) {
    Mul(m, m.Transpose()) == IDENTITY && Mul(m.Transpose(), m) == IDENTITY
  }

  /** A rigid transform: x -> turn x + shift. */
  datatype Pose = Pose(turn: Mat3, shift: Vec3)
  {
    ghost predicate Rigid() { Orthogonal(turn) }

    function Apply(v: Vec3): Vec3 { Plus(turn.Apply(v), shift) }
  }

  const HERE := Pose(IDENTITY, ZERO)

  function Compose(a: Pose, b: Pose): Pose { Pose(Mul(a.turn, b.turn), a.Apply(b.shift)) }

  /** `numpy.linalg.inv` of a rigid homogeneous matrix. */
  function Inverse(a: Pose): Pose {
    Pose(a.turn.Transpose(), Times(-1.0, a.turn.Transpose().Apply(a.shift)))
  }

  lemma ComposeApply(a: Pose, b: Pose, v: Vec3)
    ensures Compose(a, b).Apply(v) == a.Apply(b.Apply(v))
  {
    ApplyMul(a.turn, b.turn, v);
    ApplyPlus(a.turn, b.turn.Apply(v), b.shift);
    hide Mul;
    hide Mat3.Apply;
  }

  lemma ComposeAssociates(a: Pose, b: Pose, c: Pose)
    ensures Compose(Compose(a, b), c) == Compose(a, Compose(b, c))
  {
    MulAssociates(a.turn, b.turn, c.turn);
    ComposeApply(a, b, c.shift);
    hide Mul;
    hide Mat3.Apply, Plus;
  }

  lemma ComposeHere(a: Pose)
    ensures Compose(a, HERE) == a && Compose(HERE, a) == a
  {
    MulIdentity(a.turn);
    hide Mul;
  }

  lemma TransposeUndoes(m: Mat3, v: Vec3)
    requires Orthogonal(m)
    ensures m.Apply(m.Transpose().Apply(v)) == v && m.Transpose().Apply(m.Apply(v)) == v
  {
    ApplyMul(m, m.Transpose(), v);
    ApplyMul(m.Transpose(), m, v);
    hide Mul;
    IdentityApplies(v);
    hide Mat3.Apply, Mat3.Transpose;
  }

  lemma IdentityApplies(v: Vec3)
    ensures IDENTITY.Apply(v) == v
  {
  }

  lemma InverseCancels(a: Pose)
    requires a.Rigid()
    ensures Compose(a, Inverse(a)) == HERE && Compose(Inverse(a), a) == HERE
  {
    hide Mul;
    TransposeUndoes(a.turn, a.shift);
    ApplyTimes(a.turn, -1.0, a.turn.Transpose().Apply(a.shift));
    hide Mat3.Apply, Mat3.Transpose;
  }

  lemma OrthogonalMul(a: Mat3, b: Mat3)
    requires Orthogonal(a) && Orthogonal(b)
    ensures Orthogonal(Mul(a, b))
  {
    var at, bt := a.Transpose(), b.Transpose();
    TransposeMul(a, b);
    hide Mul;
    hide Mat3.Transpose;
    MulAssociates(a, b, Mul(bt, at));
    MulAssociates(b, bt, at);
    MulAssociates(bt, at, Mul(a, b));
    MulAssociates(at, a, b);
    MulIdentity(at);
    MulIdentity(b);
  }

  lemma ComposeRigid(a: Pose, b: Pose)
    requires a.Rigid() && b.Rigid()
    ensures Compose(a, b).Rigid()
  {
    OrthogonalMul(a.turn, b.turn);
  }

  /** A rigid pose can be cancelled on the right, so an inverse is the only inverse. */
  lemma CancelRight(a: Pose, b: Pose, t: Pose)
    requires t.Rigid() && Compose(a, t) == Compose(b, t)
    ensures a == b
  {
    hide Compose, Inverse;
    ComposeAssociates(a, t, Inverse(t));
    ComposeAssociates(b, t, Inverse(t));
    InverseCancels(t);
    ComposeHere(a);
    ComposeHere(b);
  }
}
