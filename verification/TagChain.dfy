/** From one tag sighting to a planar correction, and from several to the registration
    (correction_service/correction_service/geometry.py, window.py).
 */
module TagChain {
  import opened Reals
  import opened Matrices
  import opened Geometry
  import opened Options
  import opened Projection
  import R = Registration

  /** A surveyed tag: its position and its heading about Z. */
  datatype Tag = Tag(id: int, x: real, y: real, z: real, turn: Rotation)

  /** What one accepted frame supplies: the measured tag pose and the two mounting transforms. */
  datatype Sighting = Sighting(cameraFromTag: Pose, tag: Tag, fcuFromCamera: Pose, odinFromFcu: Pose)
  {
    ghost predicate Rigid() {
      cameraFromTag.Rigid() && fcuFromCamera.Rigid() && odinFromFcu.Rigid() && tag.turn.Unit()
    }
  }

  function WorldTag(tag: Tag): Pose { Pose(RotationZ(tag.turn), Vec3(tag.x, tag.y, tag.z)) }

  /** `configured_tag_from_standard`: the detector's tag frame, half a turn from the printed one. */
  const CONFIGURED := Pose(Mat3(Vec3(0.0, 1.0, 0.0), Vec3(-1.0, 0.0, 0.0), Vec3(0.0, 0.0, 1.0)), ZERO)

  datatype PlanarCorrection = PlanarCorrection(
    x: real, y: real, turn: Rotation, tiltCosine: real,
    worldFromFcu: Pose, worldFromOdin: Pose, odinFromTag: Pose)

  function CameraFromConfigured(s: Sighting): Pose { Compose(s.cameraFromTag, CONFIGURED) }

  function OdinFromTag(s: Sighting): Pose {
    Compose(Compose(s.odinFromFcu, s.fcuFromCamera), CameraFromConfigured(s))
  }

  /** `compute_planar_correction`: the full chain, then its planar part and the cosine of its tilt. */
  function ComputePlanarCorrection(root: real -> real, s: Sighting): PlanarCorrection {
    var worldFromCamera := Compose(WorldTag(s.tag), Inverse(CameraFromConfigured(s)));
    var worldFromFcu := Compose(worldFromCamera, Inverse(s.fcuFromCamera));
    var worldFromOdin := Compose(worldFromFcu, Inverse(s.odinFromFcu));
    PlanarCorrection(
      worldFromOdin.shift.x, worldFromOdin.shift.y,
      Direction(root, worldFromOdin.turn.r1.x, worldFromOdin.turn.r0.x),
      Clip(worldFromOdin.turn.r2.z, -1.0, 1.0),
      worldFromFcu, worldFromOdin, OdinFromTag(s))
  }

  /** An SE(2) motion embedded in SE(3), as the bridge applies it. */
  function PlanarTransform(m: R.Motion): Pose { Pose(RotationZ(m.turn), Vec3(m.shift.x, m.shift.y, 0.0)) }

  // ---------------------------------------------------------------- rigidity

  lemma RotationZOrthogonal(turn: Rotation)
    requires turn.Unit()
    ensures Orthogonal(RotationZ(turn))
  {
    R.UnitSquares(turn);
    hide Orthogonal, Rotation.Unit;
    ZOrthogonal(turn.c, turn.s, RotationZ(turn));
  }

  lemma ZOrthogonal(c: real, s: real, m: Mat3)
    requires c * c + s * s == 1.0
    requires m == Mat3(Vec3(c, -s, 0.0), Vec3(s, c, 0.0), Vec3(0.0, 0.0, 1.0))
    ensures Orthogonal(m)
  {
    hide Mul;
    hide Mat3.Apply;
    assert m.Transpose().Transpose() == m;
    RowsAgainst(m, m.Transpose());
    RowsAgainst(m.Transpose(), m);
    OwnRows(c, s, m);
    OwnRows(c, -s, m.Transpose());
  }

  lemma OwnRows(c: real, s: real, m: Mat3)
    requires c * c + s * s == 1.0
    requires m == Mat3(Vec3(c, -s, 0.0), Vec3(s, c, 0.0), Vec3(0.0, 0.0, 1.0))
    ensures m.Apply(m.r0) == IDENTITY.r0 && m.Apply(m.r1) == IDENTITY.r1 && m.Apply(m.r2) == IDENTITY.r2
  {
  }

  lemma ConfiguredRigid()
    ensures CONFIGURED.Rigid()
  {
    hide Orthogonal;
    ZOrthogonal(0.0, -1.0, CONFIGURED.turn);
  }

  /** Entries of a product as dot products of rows and columns. */
  lemma RowsAgainst(a: Mat3, b: Mat3)
    ensures var t := b.Transpose();
      Mul(a, b) == Mat3(t.Apply(a.r0), t.Apply(a.r1), t.Apply(a.r2))
  {
    RowByColumns(a.r0, b);
    RowByColumns(a.r1, b);
    RowByColumns(a.r2, b);
    hide Row;
    hide Mat3.Apply;
  }

  lemma ChainRigid(s: Sighting)
    requires s.Rigid()
    ensures CameraFromConfigured(s).Rigid() && OdinFromTag(s).Rigid()
  {
    hide Compose, Orthogonal, RotationZ, Rotation.Unit;
    ConfiguredRigid();
    ComposeRigid(s.cameraFromTag, CONFIGURED);
    ComposeRigid(s.odinFromFcu, s.fcuFromCamera);
    ComposeRigid(Compose(s.odinFromFcu, s.fcuFromCamera), CameraFromConfigured(s));
  }

  // ------------------------------------------------------------- the chain

  /** x k^-1 undone by k. */
  lemma ComposeUndo(x: Pose, k: Pose)
    requires k.Rigid()
    ensures Compose(Compose(x, Inverse(k)), k) == x
  {
    hide Compose, Inverse;
    ComposeAssociates(x, Inverse(k), k);
    InverseCancels(k);
    ComposeHere(x);
  }

  /** Whatever was measured, the computed transform carries the tag as the odometry frame saw it
      exactly onto the surveyed tag. */
  lemma TagAnchored(root: real -> real, s: Sighting)
    requires s.Rigid()
    ensures Compose(ComputePlanarCorrection(root, s).worldFromOdin, OdinFromTag(s)) == WorldTag(s.tag)
  {
    ChainRigid(s);
    var w, k, f, o := WorldTag(s.tag), CameraFromConfigured(s), s.fcuFromCamera, s.odinFromFcu;
    var wc := Compose(w, Inverse(k));
    var wf := Compose(wc, Inverse(f));
    var wo := Compose(wf, Inverse(o));
    assert ComputePlanarCorrection(root, s).worldFromOdin == wo;
    hide Compose, Inverse, WorldTag, CameraFromConfigured, ComputePlanarCorrection;
    ComposeUndo(wf, o);
    ComposeUndo(wc, f);
    ComposeUndo(w, k);
    ComposeAssociates(wo, Compose(o, f), k);
    ComposeAssociates(wo, o, f);
  }

  // ------------------------------------------- the chain, point by point

  /** A point of the detector's tag frame as the odometry frame sees it. */
  function Seen(s: Sighting, p: Vec3): Vec3 { s.odinFromFcu.Apply(s.fcuFromCamera.Apply(s.cameraFromTag.Apply(p))) }

  /** Where the survey puts that point: the detector's -Y axis lies along the surveyed heading, its +X axis
      to the left of it, and its +Z axis points up. */
  function Surveyed(tag: Tag, p: Vec3): Vec3 {
    Vec3(tag.x + tag.turn.c * -p.y - tag.turn.s * p.x, tag.y + tag.turn.s * -p.y + tag.turn.c * p.x, tag.z + p.z)
  }

  /** Where a planar motion puts a point. */
  function Carried(m: R.Motion, v: Vec3): Vec3 {
    Vec3(m.turn.c * v.x - m.turn.s * v.y + m.shift.x, m.turn.s * v.x + m.turn.c * v.y + m.shift.y, v.z)
  }

  function Unturned(p: Vec3): Vec3 { Vec3(-p.y, p.x, p.z) }

  lemma ConfiguredPoint(tag: Tag, p: Vec3)
    ensures CONFIGURED.Apply(Unturned(p)) == p && WorldTag(tag).Apply(Unturned(p)) == Surveyed(tag, p)
  {
  }

  lemma SeenThroughChain(s: Sighting, p: Vec3)
    ensures OdinFromTag(s).Apply(Unturned(p)) == Seen(s, p)
    ensures CameraFromConfigured(s).Apply(Unturned(p)) == s.cameraFromTag.Apply(p)
  {
    ConfiguredPoint(s.tag, p);
    hide Compose, Unturned;
    hide Pose.Apply;
    ComposeApply(s.cameraFromTag, CONFIGURED, Unturned(p));
    ComposeApply(Compose(s.odinFromFcu, s.fcuFromCamera), CameraFromConfigured(s), Unturned(p));
    ComposeApply(s.odinFromFcu, s.fcuFromCamera, s.cameraFromTag.Apply(p));
  }

  /** Whatever was measured, every point of the tag as the detector gives it is carried exactly to its
      surveyed place: from the odometry frame, and from the vehicle's. */
  lemma PointsAnchored(root: real -> real, s: Sighting, p: Vec3)
    requires s.Rigid()
    ensures var k := ComputePlanarCorrection(root, s);
      && k.worldFromOdin.Apply(Seen(s, p)) == Surveyed(s.tag, p)
      && k.worldFromFcu.Apply(s.fcuFromCamera.Apply(s.cameraFromTag.Apply(p))) == Surveyed(s.tag, p)
  {
    TagAnchored(root, s);
    FcuAnchored(root, s);
    ConfiguredPoint(s.tag, p);
    SeenThroughChain(s, p);
    hide Compose, WorldTag, OdinFromTag, CameraFromConfigured, ComputePlanarCorrection, Unturned, Surveyed;
    hide Pose.Apply, Sighting.Rigid;
    var k := ComputePlanarCorrection(root, s);
    ComposeApply(k.worldFromOdin, OdinFromTag(s), Unturned(p));
    ComposeApply(k.worldFromFcu, Compose(s.fcuFromCamera, CameraFromConfigured(s)), Unturned(p));
    ComposeApply(s.fcuFromCamera, CameraFromConfigured(s), Unturned(p));
  }

  lemma FcuAnchored(root: real -> real, s: Sighting)
    requires s.Rigid()
    ensures Compose(ComputePlanarCorrection(root, s).worldFromFcu, Compose(s.fcuFromCamera, CameraFromConfigured(s)))
         == WorldTag(s.tag)
  {
    ChainRigid(s);
    var w, k, f := WorldTag(s.tag), CameraFromConfigured(s), s.fcuFromCamera;
    var wc := Compose(w, Inverse(k));
    var wf := Compose(wc, Inverse(f));
    assert ComputePlanarCorrection(root, s).worldFromFcu == wf;
    hide Compose, Inverse, WorldTag, CameraFromConfigured, ComputePlanarCorrection;
    ComposeUndo(wc, f);
    ComposeUndo(w, k);
    ComposeAssociates(wf, f, k);
  }

  /** The detector's origin and axes: the origin lands on the surveyed position, -Y one metre along the
      surveyed heading, +X one metre to its left, +Z one metre up. */
  lemma TagAxes(root: real -> real, s: Sighting)
    requires s.Rigid()
    ensures var w, t := ComputePlanarCorrection(root, s).worldFromOdin, s.tag;
      && w.Apply(Seen(s, Vec3(0.0, 0.0, 0.0))) == Vec3(t.x, t.y, t.z)
      && w.Apply(Seen(s, Vec3(0.0, -1.0, 0.0))) == Vec3(t.x + t.turn.c, t.y + t.turn.s, t.z)
      && w.Apply(Seen(s, Vec3(1.0, 0.0, 0.0))) == Vec3(t.x - t.turn.s, t.y + t.turn.c, t.z)
      && w.Apply(Seen(s, Vec3(0.0, 0.0, 1.0))) == Vec3(t.x, t.y, t.z + 1.0)
  {
    hide Seen, ComputePlanarCorrection;
    hide Pose.Apply, Sighting.Rigid;
    PointsAnchored(root, s, Vec3(0.0, 0.0, 0.0));
    PointsAnchored(root, s, Vec3(0.0, -1.0, 0.0));
    PointsAnchored(root, s, Vec3(1.0, 0.0, 0.0));
    PointsAnchored(root, s, Vec3(0.0, 0.0, 1.0));
  }

  /** A noise-free sighting: the motion carries every point the detector gives to its surveyed place. */
  ghost predicate NoiseFree(s: Sighting, m: R.Motion) {
    forall p: Vec3 :: Carried(m, Seen(s, p)) == Surveyed(s.tag, p)
  }

  /** The view a noise-free camera has of a tag. */
  function TrueView(m: R.Motion, tag: Tag, fcuFromCamera: Pose, odinFromFcu: Pose): Pose {
    Compose(Compose(Inverse(Compose(PlanarTransform(m), Compose(odinFromFcu, fcuFromCamera))), WorldTag(tag)),
            Inverse(CONFIGURED))
  }

  lemma CarriedIs(m: R.Motion, v: Vec3)
    ensures PlanarTransform(m).Apply(v) == Carried(m, v)
  {
  }

  /** For every motion, tag and mounting there is such a sighting. */
  lemma NoiseFreeExists(s: Sighting, m: R.Motion)
    requires s.Rigid() && m.turn.Unit()
    requires s.cameraFromTag == TrueView(m, s.tag, s.fcuFromCamera, s.odinFromFcu)
    ensures NoiseFree(s, m)
  {
    hide Compose, WorldTag, OdinFromTag, PlanarTransform, TrueView, Surveyed, Carried, Seen, Unturned;
    hide Pose.Apply, Sighting.Rigid, Rotation.Unit;
    TrueViewConsistent(s, m);
    forall p: Vec3 ensures Carried(m, Seen(s, p)) == Surveyed(s.tag, p) {
      ConfiguredPoint(s.tag, p);
      SeenThroughChain(s, p);
      ComposeApply(PlanarTransform(m), OdinFromTag(s), Unturned(p));
      CarriedIs(m, Seen(s, p));
    }
  }

  lemma TrueViewConsistent(s: Sighting, m: R.Motion)
    requires s.Rigid() && m.turn.Unit()
    requires s.cameraFromTag == TrueView(m, s.tag, s.fcuFromCamera, s.odinFromFcu)
    ensures Compose(PlanarTransform(m), OdinFromTag(s)) == WorldTag(s.tag)
  {
    hide Compose, Inverse, WorldTag, Orthogonal, RotationZ, Rotation.Unit;
    ConfiguredRigid();
    RotationZOrthogonal(m.turn);
    var g, h, w := PlanarTransform(m), Compose(s.odinFromFcu, s.fcuFromCamera), WorldTag(s.tag);
    ComposeRigid(s.odinFromFcu, s.fcuFromCamera);
    ComposeRigid(g, h);
    var gh := Compose(g, h);
    ComposeUndo(Compose(Inverse(gh), w), CONFIGURED);
    ComposeAssociates(g, h, Compose(Inverse(gh), w));
    ComposeAssociates(gh, Inverse(gh), w);
    InverseCancels(gh);
    ComposeHere(w);
  }

  /** Two poses that agree on every point are one. */
  lemma SamePoints(a: Pose, b: Pose)
    requires forall v: Vec3 :: a.Apply(v) == b.Apply(v)
    ensures a == b
  {
    assert a.Apply(ZERO) == b.Apply(ZERO);
    AtOrigin(a);
    AtOrigin(b);
    assert a.Apply(IDENTITY.r0) == b.Apply(IDENTITY.r0);
    assert a.Apply(IDENTITY.r1) == b.Apply(IDENTITY.r1);
    assert a.Apply(IDENTITY.r2) == b.Apply(IDENTITY.r2);
    Columns(a);
    Columns(b);
    hide Pose.Apply;
  }

  lemma AtOrigin(a: Pose)
    ensures a.Apply(ZERO) == a.shift
  {
  }

  lemma Columns(a: Pose)
    ensures a.Apply(IDENTITY.r0) == Vec3(a.turn.r0.x + a.shift.x, a.turn.r1.x + a.shift.y, a.turn.r2.x + a.shift.z)
    ensures a.Apply(IDENTITY.r1) == Vec3(a.turn.r0.y + a.shift.x, a.turn.r1.y + a.shift.y, a.turn.r2.y + a.shift.z)
    ensures a.Apply(IDENTITY.r2) == Vec3(a.turn.r0.z + a.shift.x, a.turn.r1.z + a.shift.y, a.turn.r2.z + a.shift.z)
  {
  }

  /** The point of the detector's frame with the given configured coordinates. */
  function Turned(q: Vec3): Vec3 { Vec3(q.y, -q.x, q.z) }

  lemma TurnedBack(q: Vec3)
    ensures Unturned(Turned(q)) == q
  {
  }

  /** A motion under which the sighting is free of noise carries the observed tag onto the surveyed one. */
  lemma NoiseFreeConsistent(s: Sighting, m: R.Motion)
    requires NoiseFree(s, m)
    ensures Compose(PlanarTransform(m), OdinFromTag(s)) == WorldTag(s.tag)
  {
    var c := Compose(PlanarTransform(m), OdinFromTag(s));
    hide Compose, WorldTag, OdinFromTag, PlanarTransform, Surveyed, Carried, Seen, Unturned, Turned;
    hide Pose.Apply;
    forall q: Vec3 ensures c.Apply(q) == WorldTag(s.tag).Apply(q) {
      var p := Turned(q);
      TurnedBack(q);
      ConfiguredPoint(s.tag, p);
      SeenThroughChain(s, p);
      ComposeApply(PlanarTransform(m), OdinFromTag(s), q);
      CarriedIs(m, Seen(s, p));
      assert Carried(m, Seen(s, p)) == Surveyed(s.tag, p);
    }
    SamePoints(c, WorldTag(s.tag));
  }

  /** A noise-free sighting returns the true motion, with no tilt, from a single tag. */
  lemma SingleTagRecovery(root: real -> real, s: Sighting, m: R.Motion)
    requires IsRoot(root) && s.Rigid() && m.turn.Unit() && NoiseFree(s, m)
    ensures var k := ComputePlanarCorrection(root, s);
      && (forall v: Vec3 :: k.worldFromOdin.Apply(v) == Carried(m, v))
      && k.turn == m.turn && k.x == m.shift.x && k.y == m.shift.y
      && k.tiltCosine == 1.0
  {
    hide ComputePlanarCorrection, Compose, OdinFromTag, NoiseFree, Direction, Sq, IsRoot, Orthogonal, Carried;
    hide Sighting.Rigid, Pose.Apply;
    TagAnchored(root, s);
    NoiseFreeConsistent(s, m);
    ChainRigid(s);
    R.UnitSquares(m.turn);
    var k := ComputePlanarCorrection(root, s);
    PlanarParts(root, s);
    CancelRight(k.worldFromOdin, PlanarTransform(m), OdinFromTag(s));
    DirectionOfUnit(root, m.turn.s, m.turn.c);
    forall v: Vec3 ensures k.worldFromOdin.Apply(v) == Carried(m, v) { CarriedIs(m, v); }
  }

  lemma PlanarParts(root: real -> real, s: Sighting)
    ensures var k := ComputePlanarCorrection(root, s);
      var wo := k.worldFromOdin;
      && k.x == wo.shift.x && k.y == wo.shift.y
      && k.turn == Direction(root, wo.turn.r1.x, wo.turn.r0.x)
      && k.tiltCosine == Clip(wo.turn.r2.z, -1.0, 1.0)
      && k.odinFromTag == OdinFromTag(s)
  {
    hide Compose, Inverse, Direction;
  }

  lemma InverseRigid(a: Pose)
    requires a.Rigid()
    ensures Inverse(a).Rigid()
  {
    assert a.turn.Transpose().Transpose() == a.turn;
    hide Mul;
    hide Mat3.Apply;
  }

  lemma WorldFromOdinIs(root: real -> real, s: Sighting)
    ensures ComputePlanarCorrection(root, s).worldFromOdin
      == Compose(Compose(Compose(WorldTag(s.tag), Inverse(CameraFromConfigured(s))), Inverse(s.fcuFromCamera)), Inverse(s.odinFromFcu))
  {
    hide Compose, Inverse, WorldTag, CameraFromConfigured, OdinFromTag, Direction;
  }

  lemma WorldTagRigid(tag: Tag)
    requires tag.turn.Unit()
    ensures WorldTag(tag).Rigid()
  {
    hide Orthogonal, RotationZ, Rotation.Unit;
    RotationZOrthogonal(tag.turn);
  }

  lemma ChainStaysRigid(root: real -> real, s: Sighting)
    requires s.Rigid()
    ensures ComputePlanarCorrection(root, s).worldFromOdin.Rigid()
  {
    ChainRigid(s);
    WorldTagRigid(s.tag);
    WorldFromOdinIs(root, s);
    hide ComputePlanarCorrection, Compose, Inverse, WorldTag, CameraFromConfigured;
    hide Pose.Rigid;
    InverseRigid(CameraFromConfigured(s));
    InverseRigid(s.fcuFromCamera);
    InverseRigid(s.odinFromFcu);
    var wc := Compose(WorldTag(s.tag), Inverse(CameraFromConfigured(s)));
    var wf := Compose(wc, Inverse(s.fcuFromCamera));
    ComposeRigid(WorldTag(s.tag), Inverse(CameraFromConfigured(s)));
    ComposeRigid(wc, Inverse(s.fcuFromCamera));
    ComposeRigid(wf, Inverse(s.odinFromFcu));
  }

  /** The rows of an orthogonal matrix are unit vectors. */
  lemma LastRowUnit(m: Mat3)
    requires Orthogonal(m)
    ensures m.r2.x * m.r2.x + m.r2.y * m.r2.y + m.r2.z * m.r2.z == 1.0
  {
    var t := m.Transpose();
    RowByColumnsOf(m.r2, t);
    assert Mul(m, t).r2 == Row(m.r2, t);
    hide Row, Mul;
  }

  lemma UnitSquare(a: real, b: real, z: real)
    requires a >= 0.0 && b >= 0.0 && a + b + Sq(z) == 1.0
    ensures -1.0 <= z <= 1.0
  {
    SqIs(1.0);
    if z > 1.0 { CompareSquares(z, 1.0); }
    if z < -1.0 { SqIs(z); SqIs(-z); CompareSquares(-z, 1.0); }
    hide Sq;
  }

  /** What is reported of any sighting, noise or not: where the odometry's origin goes, the heading its X
      axis takes in the plane, and how much of its Z axis still points up. */
  lemma ReportsPlane(root: real -> real, s: Sighting)
    requires IsRoot(root) && s.Rigid()
    ensures var k := ComputePlanarCorrection(root, s);
      var o, x, z := k.worldFromOdin.Apply(ZERO), k.worldFromOdin.Apply(IDENTITY.r0), k.worldFromOdin.Apply(IDENTITY.r2);
      var h := root(Sq(x.y - o.y) + Sq(x.x - o.x));
      && k.x == o.x && k.y == o.y && k.tiltCosine == z.z - o.z
      && h * k.turn.c == (if h == 0.0 then 0.0 else x.x - o.x) && h * k.turn.s == (if h == 0.0 then 0.0 else x.y - o.y)
  {
    var k := ComputePlanarCorrection(root, s);
    var wo := k.worldFromOdin;
    hide ComputePlanarCorrection, Orthogonal, Sq, IsRoot, Direction, Clip;
    hide Pose.Apply, Sighting.Rigid;
    PlanarParts(root, s);
    ChainStaysRigid(root, s);
    TiltInside(wo.turn);
    Columns(wo);
    AtOrigin(wo);
    assert wo.Apply(IDENTITY.r0).y - wo.Apply(ZERO).y == wo.turn.r1.x;
    assert wo.Apply(IDENTITY.r0).x - wo.Apply(ZERO).x == wo.turn.r0.x;
    DirectionScaled(root, wo.turn.r1.x, wo.turn.r0.x);
  }

  lemma TiltInside(m: Mat3)
    requires Orthogonal(m)
    ensures Clip(m.r2.z, -1.0, 1.0) == m.r2.z
  {
    hide Orthogonal, Sq;
    LastRowUnit(m);
    SqIs(m.r2.x);
    SqIs(m.r2.y);
    SqIs(m.r2.z);
    UnitSquare(Sq(m.r2.x), Sq(m.r2.y), m.r2.z);
  }

  lemma DirectionScaled(root: real -> real, s: real, c: real)
    ensures var h, d := root(Sq(s) + Sq(c)), Direction(root, s, c);
      h * d.c == (if h == 0.0 then 0.0 else c) && h * d.s == (if h == 0.0 then 0.0 else s)
  {
    var h := root(Sq(s) + Sq(c));
    if h != 0.0 {
      assert h * (c / h) == c;
      assert h * (s / h) == s;
    }
  }

  /** The P/Q pair that a sighting contributes to the window. */
  function KeyframeOf(s: Sighting, sigma: real, created: real, session: nat, config: nat, source: nat): R.Keyframe {
    var t := OdinFromTag(s).shift;
    R.Keyframe(s.tag.id, R.Vec2(s.tag.x, s.tag.y), R.Vec2(t.x, t.y), sigma, created, 1, session, config, source)
  }

  lemma NoiseFreePair(s: Sighting, m: R.Motion)
    requires NoiseFree(s, m)
    ensures var t := OdinFromTag(s).shift;
      R.Vec2(s.tag.x, s.tag.y) == m.Apply(R.Vec2(t.x, t.y))
  {
    hide OdinFromTag, NoiseFree, Compose, WorldTag;
    NoiseFreeConsistent(s, m);
    PlanarCarries(m, OdinFromTag(s), s.tag);
  }

  lemma PlanarCarries(m: R.Motion, t: Pose, tag: Tag)
    requires Compose(PlanarTransform(m), t) == WorldTag(tag)
    ensures R.Vec2(tag.x, tag.y) == m.Apply(R.Vec2(t.shift.x, t.shift.y))
  {
    hide Mul, RotationZ, PlanarTransform;
    PlanarApplies(m, t.shift);
  }

  lemma PlanarApplies(m: R.Motion, v: Vec3)
    ensures PlanarTransform(m).Apply(v).x == m.Apply(R.Vec2(v.x, v.y)).x
    ensures PlanarTransform(m).Apply(v).y == m.Apply(R.Vec2(v.x, v.y)).y
  {
  }

  /** End to end: keyframes of noise-free sightings of one motion, registered together, return the
      motion that each single tag already returned, with every residual zero. */
  lemma NoiseFreeRecovery(root: real -> real, sightings: seq<Sighting>, window: seq<R.Keyframe>, m: R.Motion,
                          settings: R.Settings, fit: R.Fit)
    requires IsRoot(root) && settings.Valid() && m.turn.Unit()
    requires settings.maximumRms >= 0.0 && settings.maximumResidual >= 0.0
    requires |window| == |sightings| >= 2 && R.Spread(root, window)
    requires forall i | 0 <= i < |window| ::
      && sightings[i].Rigid() && NoiseFree(sightings[i], m)
      && window[i] == KeyframeOf(sightings[i], window[i].sigma, window[i].created, window[i].session,
                                 window[i].config, window[i].timeSource)
    requires R.Describes(fit, root, window)
    ensures fit.motion == m && fit.rms == 0.0 && fit.maximumResidual == 0.0
    ensures forall i | 0 <= i < |window| ::
      var k := ComputePlanarCorrection(root, sightings[i]);
      k.turn == fit.motion.turn && k.x == fit.motion.shift.x && k.y == fit.motion.shift.y && k.tiltCosine == 1.0
      && fit.residuals[i] == 0.0
    ensures R.Verdict(fit, settings).Solved? <==> fit.yawStd <= settings.maximumYawStd
  {
    hide NoiseFree, OdinFromTag, ComputePlanarCorrection, R.Describes, R.Spread, IsRoot;
    forall i | 0 <= i < |window|
      ensures window[i].world == m.Apply(window[i].odin)
    {
      NoiseFreePair(sightings[i], m);
    }
    R.ExactSolution(window, settings, root, m, fit);
    forall i | 0 <= i < |window|
      ensures var k := ComputePlanarCorrection(root, sightings[i]);
        k.turn == m.turn && k.x == m.shift.x && k.y == m.shift.y && k.tiltCosine == 1.0
    {
      SingleTagRecovery(root, sightings[i], m);
    }
  }
}
