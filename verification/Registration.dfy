/** Weighted planar registration of a window of calibration keyframes
    (correction_service/correction_service/window.py).

    A keyframe pairs a surveyed tag position P in the world with the position Q
    at which the odometry frame saw it. The solver returns the rotation and
    translation that carry the Qs onto the Ps with the least weighted squared
    error, after gates on tags, session, configuration and baselines.
 */
module Registration {
  import opened Reals

  datatype Vec2 = Vec2(x: real, y: real)

  /** A planar rotation by its cosine and sine. */
  datatype Rotation = Rotation(c: real, s: real)
  {
    ghost predicate Unit() { Sq(c) + Sq(s) == 1.0 }

    function Apply(v: Vec2): Vec2 { Vec2(c * v.x - s * v.y, s * v.x + c * v.y) }
  }

  /** A rotation followed by a translation: SE(2), without mirror or scale. */
  datatype Motion = Motion(turn: Rotation, shift: Vec2)
  {
    function Apply(v: Vec2): Vec2 {
      Vec2(turn.Apply(v).x + shift.x, turn.Apply(v).y + shift.y)
    }
  }

  datatype Keyframe = Keyframe(
    tag: int, world: Vec2, odin: Vec2, sigma: real, created: real, samples: nat,
    session: nat, config: nat, timeSource: nat)

  datatype Settings = Settings(
    minimumBaseline: real, maximumRatioError: real,
    maximumRms: real, maximumResidual: real, maximumYawStd: real)
  {
    /** What loading the configuration demands of these limits. */
    predicate Valid() {
      minimumBaseline > 0.0 && 0.0 <= maximumRatioError < 1.0
    }
  }

  /** Bounded inverse variance. */
  function Weight(k: Keyframe): (w: real)
    ensures 16.0 <= w <= 1000000.0
  {
    var sigma := Max(0.000000001, k.sigma);
    ProductPositive(sigma, sigma);
    Clip(1.0 / (sigma * sigma), 16.0, 1000000.0)
  }

  // ---------------------------------------------------------------- the cost

  function SquaredDistance(a: Vec2, b: Vec2): (d: real)
    ensures d >= 0.0
  {
    Sq(a.x - b.x) + Sq(a.y - b.y)
  }

  /** Weighted squared registration error of a motion over a window. */
  function Cost(window: seq<Keyframe>, m: Motion): (r: real)
    ensures r >= 0.0
  {
    if window == [] then 0.0
    else
      ProductNonNegative(Weight(window[0]), SquaredDistance(window[0].world, m.Apply(window[0].odin)));
      Weight(window[0]) * SquaredDistance(window[0].world, m.Apply(window[0].odin)) + Cost(window[1..], m)
  }

  // ------------------------------------------------------- weighted moments

  /** Weighted sums over a window, with P taken about `pc` and Q about `qc`. */
  datatype Moments = Moments(
    w: real, p: Vec2, q: Vec2, pp: real, qq: real, dot: real, cross: real)

  const ORIGIN := Vec2(0.0, 0.0)

  function Add(a: Vec2, b: Vec2): Vec2 { Vec2(a.x + b.x, a.y + b.y) }

  function Minus(a: Vec2, b: Vec2): Vec2 { Vec2(a.x - b.x, a.y - b.y) }

  function Scale(w: real, v: Vec2): Vec2 { Vec2(w * v.x, w * v.y) }

  function Dot(a: Vec2, b: Vec2): real { a.x * b.x + a.y * b.y }

  function Cross(a: Vec2, b: Vec2): real { a.x * b.y - a.y * b.x }

  /** The share of one keyframe with offsets u = P - pc and v = Q - qc. */
  function Term(w: real, u: Vec2, v: Vec2): Moments {
    Moments(w, Scale(w, u), Scale(w, v), w * Dot(u, u), w * Dot(v, v), w * Dot(v, u), w * Cross(v, u))
  }

  function Plus(a: Moments, b: Moments): Moments {
    Moments(a.w + b.w, Add(a.p, b.p), Add(a.q, b.q), a.pp + b.pp, a.qq + b.qq, a.dot + b.dot, a.cross + b.cross)
  }

  function MomentsAbout(window: seq<Keyframe>, pc: Vec2, qc: Vec2): Moments {
    if window == [] then Moments(0.0, ORIGIN, ORIGIN, 0.0, 0.0, 0.0, 0.0)
    else Plus(
      Term(Weight(window[0]), Minus(window[0].world, pc), Minus(window[0].odin, qc)),
      MomentsAbout(window[1..], pc, qc))
  }

  lemma {:induction false} MomentSigns(window: seq<Keyframe>, pc: Vec2, qc: Vec2)
    ensures var m := MomentsAbout(window, pc, qc);
      m.w >= 16.0 * |window| as real && m.pp >= 0.0 && m.qq >= 0.0
  {
    if window != [] {
      MomentSigns(window[1..], pc, qc);
      DotNonNegative(Weight(window[0]), Minus(window[0].world, pc));
      DotNonNegative(Weight(window[0]), Minus(window[0].odin, qc));
    }
  }

  lemma DotNonNegative(w: real, v: Vec2)
    requires w >= 0.0
    ensures w * Dot(v, v) >= 0.0
  {
    WeightedSquares(w, v.x, v.y);
  }

  lemma WeightedSquares(w: real, x: real, y: real)
    requires w >= 0.0
    ensures w * (x * x + y * y) >= 0.0
  {
    var d := Sq(x) + Sq(y);
    var p := Product(w, d);
  }

  function WorldCentre(window: seq<Keyframe>): Vec2
    requires window != []
  {
    MomentSigns(window, ORIGIN, ORIGIN);
    var m := MomentsAbout(window, ORIGIN, ORIGIN);
    Vec2(m.p.x / m.w, m.p.y / m.w)
  }

  function OdinCentre(window: seq<Keyframe>): Vec2
    requires window != []
  {
    MomentSigns(window, ORIGIN, ORIGIN);
    var m := MomentsAbout(window, ORIGIN, ORIGIN);
    Vec2(m.q.x / m.w, m.q.y / m.w)
  }

  /** Moments about the two weighted centroids: the a, b and spread of the solver. */
  function Centred(window: seq<Keyframe>): Moments
    requires window != []
  {
    MomentsAbout(window, WorldCentre(window), OdinCentre(window))
  }

  lemma {:induction false} ShiftedFirstMoments(window: seq<Keyframe>, pc: Vec2, qc: Vec2)
    ensures var o, m := MomentsAbout(window, ORIGIN, ORIGIN), MomentsAbout(window, pc, qc);
      Shifted(o, m, pc, qc)
  {
    if window != [] {
      ShiftedFirstMoments(window[1..], pc, qc);
      ShiftedStep(Weight(window[0]), window[0], MomentsAbout(window[1..], ORIGIN, ORIGIN),
                  MomentsAbout(window[1..], pc, qc), pc, qc);
      hide Shifted, Term, Plus, Weight, Minus;
    }
  }

  /** Moving the centres moves the first moments by the total weight. */
  ghost predicate Shifted(o: Moments, m: Moments, pc: Vec2, qc: Vec2) {
    && m.w == o.w
    && m.p == Minus(o.p, Scale(o.w, pc))
    && m.q == Minus(o.q, Scale(o.w, qc))
  }

  lemma ShiftedStep(w: real, k: Keyframe, o: Moments, m: Moments, pc: Vec2, qc: Vec2)
    requires Shifted(o, m, pc, qc)
    ensures Shifted(Plus(Term(w, Minus(k.world, ORIGIN), Minus(k.odin, ORIGIN)), o),
                    Plus(Term(w, Minus(k.world, pc), Minus(k.odin, qc)), m), pc, qc)
  {
    ShiftVector(w, k.world, pc, o.p, o.w);
    ShiftVector(w, k.odin, qc, o.q, o.w);
  }

  lemma ShiftVector(w: real, x: Vec2, c: Vec2, rest: Vec2, total: real)
    ensures Add(Scale(w, Minus(x, c)), Minus(rest, Scale(total, c)))
         == Minus(Add(Scale(w, Minus(x, ORIGIN)), rest), Scale(w + total, c))
  {
    ShiftOne(w, x.x, c.x, rest.x, total);
    ShiftOne(w, x.y, c.y, rest.y, total);
  }

  lemma ShiftOne(w: real, x: real, c: real, rest: real, total: real)
    ensures w * (x - c) + (rest - total * c) == w * (x - 0.0) + rest - (w + total) * c
  {
  }

  /** First moments about the centroids vanish. */
  lemma CentredFirstMoments(window: seq<Keyframe>)
    requires window != []
    ensures Centred(window).p == ORIGIN && Centred(window).q == ORIGIN
  {
    hide MomentsAbout;
    ShiftedFirstMoments(window, WorldCentre(window), OdinCentre(window));
    MomentSigns(window, ORIGIN, ORIGIN);
    var o := MomentsAbout(window, ORIGIN, ORIGIN);
    ShiftToMean(o.w, o.p);
    ShiftToMean(o.w, o.q);
  }

  lemma ShiftToMean(w: real, v: Vec2)
    requires w != 0.0
    ensures Minus(v, Scale(w, Vec2(v.x / w, v.y / w))) == ORIGIN
  {
    TimesQuotient(w, v.x);
    TimesQuotient(w, v.y);
  }

  lemma TimesQuotient(w: real, x: real)
    requires w != 0.0
    ensures w * (x / w) == x
  {
  }

  // ------------------------------------------------- the cost, decomposed

  lemma RotationKeepsLength(turn: Rotation, v: Vec2)
    requires turn.Unit()
    ensures Dot(turn.Apply(v), turn.Apply(v)) == Dot(v, v)
  {
    RotatedLength(turn.c, turn.s, v.x, v.y);
  }

  lemma RotatedLength(c: real, s: real, x: real, y: real)
    requires c * c + s * s == 1.0
    ensures (c * x - s * y) * (c * x - s * y) + (s * x + c * y) * (s * x + c * y) == x * x + y * y
  {
    assert (c * x - s * y) * (c * x - s * y) + (s * x + c * y) * (s * x + c * y)
        == (c * c + s * s) * (x * x) + (c * c + s * s) * (y * y);
  }

  lemma SquareOfThree(a: real, b: real, d: real)
    ensures (a - b + d) * (a - b + d) == a * a + b * b + d * d - 2.0 * (a * b) + 2.0 * (a * d) - 2.0 * (b * d)
  {
  }

  /** What the moments of a window say its cost is, for centroids a motion leaves `d` apart. */
  function CostOfMoments(o: Moments, turn: Rotation, d: Vec2): real {
    o.pp + o.qq + o.w * Dot(d, d) - 2.0 * (turn.c * o.dot + turn.s * o.cross)
    + 2.0 * Dot(d, o.p) - 2.0 * Dot(d, turn.Apply(o.q))
  }

  lemma CostOfMomentsAdds(a: Moments, b: Moments, turn: Rotation, d: Vec2)
    ensures CostOfMoments(Plus(a, b), turn, d) == CostOfMoments(a, turn, d) + CostOfMoments(b, turn, d)
  {
  }

  /** The error of one keyframe, in its moments about arbitrary centres. */
  lemma TermCost(w: real, u: Vec2, v: Vec2, turn: Rotation, d: Vec2)
    requires turn.Unit()
    ensures var e := Add(Minus(u, turn.Apply(v)), d);
      w * Dot(e, e) == CostOfMoments(Term(w, u, v), turn, d)
  {
    hide *;
    var e := Add(Minus(u, turn.Apply(v)), d);
    RotationKeepsLength(turn, v);
    ThreeParts(u, turn.Apply(v), d);
    AlignedDot(turn, u, v);
    WeightedTerm(w, Dot(e, e), u, v, turn, d);
  }

  lemma AlignedDot(turn: Rotation, u: Vec2, v: Vec2)
    ensures Dot(u, turn.Apply(v)) == turn.c * Dot(v, u) + turn.s * Cross(v, u)
  {
    AlignedProduct(turn.c, turn.s, u.x, u.y, v.x, v.y);
  }

  lemma WeightedTerm(w: real, ee: real, u: Vec2, v: Vec2, turn: Rotation, d: Vec2)
    requires ee == Dot(u, u) + Dot(v, v) + Dot(d, d) - 2.0 * (turn.c * Dot(v, u) + turn.s * Cross(v, u))
                 + 2.0 * Dot(d, u) - 2.0 * Dot(d, turn.Apply(v))
    ensures w * ee == CostOfMoments(Term(w, u, v), turn, d)
  {
    hide Dot, Cross, Rotation.Apply, Scale;
    DotScale(w, d, u);
    ApplyScale(w, turn, v);
    DotScale(w, d, turn.Apply(v));
    Weighted(w, ee, Dot(u, u), Dot(v, v), Dot(d, d), turn.c, turn.s, Dot(v, u), Cross(v, u),
             Dot(d, u), Dot(d, turn.Apply(v)));
  }

  lemma DotScale(w: real, d: Vec2, u: Vec2)
    ensures Dot(d, Scale(w, u)) == w * Dot(d, u)
  {
  }

  lemma ApplyScale(w: real, turn: Rotation, v: Vec2)
    ensures turn.Apply(Scale(w, v)) == Scale(w, turn.Apply(v))
  {
  }

  lemma ThreeParts(u: Vec2, r: Vec2, d: Vec2)
    ensures var e := Add(Minus(u, r), d);
      Dot(e, e) == Dot(u, u) + Dot(r, r) + Dot(d, d) - 2.0 * Dot(u, r) + 2.0 * Dot(d, u) - 2.0 * Dot(d, r)
  {
    SquareOfThree(u.x, r.x, d.x);
    SquareOfThree(u.y, r.y, d.y);
  }

  lemma AlignedProduct(c: real, s: real, ux: real, uy: real, vx: real, vy: real)
    ensures ux * (c * vx - s * vy) + uy * (s * vx + c * vy)
         == c * (vx * ux + vy * uy) + s * (vx * uy - vy * ux)
  {
  }

  lemma Weighted(w: real, ee: real, uu: real, vv: real, dd: real, c: real, s: real,
                 dot: real, cross: real, du: real, dr: real)
    requires ee == uu + vv + dd - 2.0 * (c * dot + s * cross) + 2.0 * du - 2.0 * dr
    ensures w * uu + w * vv + w * dd - 2.0 * (c * (w * dot) + s * (w * cross)) + 2.0 * (w * du) - 2.0 * (w * dr)
         == w * ee
  {
  }

  /** The whole cost about arbitrary centres. */
  lemma {:induction false} CostAbout(window: seq<Keyframe>, m: Motion, pc: Vec2, qc: Vec2)
    requires m.turn.Unit()
    ensures Cost(window, m)
         == CostOfMoments(MomentsAbout(window, pc, qc), m.turn, Minus(pc, m.Apply(qc)))
  {
    hide Term, Plus, CostOfMoments, SquaredDistance, Dot, Weight, Minus, Add;
    var d := Minus(pc, m.Apply(qc));
    if window == [] {
      CostOfNothing(m.turn, d);
    } else {
      var u, v := Minus(window[0].world, pc), Minus(window[0].odin, qc);
      CostAbout(window[1..], m, pc, qc);
      TermCost(Weight(window[0]), u, v, m.turn, d);
      CostOfMomentsAdds(Term(Weight(window[0]), u, v), MomentsAbout(window[1..], pc, qc), m.turn, d);
      OffsetSplits(window[0], m, pc, qc);
    }
  }

  lemma CostOfNothing(turn: Rotation, d: Vec2)
    ensures CostOfMoments(Moments(0.0, ORIGIN, ORIGIN, 0.0, 0.0, 0.0, 0.0), turn, d) == 0.0
  {
  }

  lemma OffsetSplits(k: Keyframe, m: Motion, pc: Vec2, qc: Vec2)
    ensures var e := Add(Minus(Minus(k.world, pc), m.turn.Apply(Minus(k.odin, qc))), Minus(pc, m.Apply(qc)));
      SquaredDistance(k.world, m.Apply(k.odin)) == Dot(e, e)
  {
    var e := Add(Minus(Minus(k.world, pc), m.turn.Apply(Minus(k.odin, qc))), Minus(pc, m.Apply(qc)));
    hide Dot, SquaredDistance;
    assert e == Minus(k.world, m.Apply(k.odin));
    DistanceIsDot(k.world, m.Apply(k.odin));
  }

  /** Scatter, minus twice the aligned correlation, plus the weighted offset of the centroids. */
  lemma CostDecomposed(window: seq<Keyframe>, m: Motion)
    requires window != [] && m.turn.Unit()
    ensures var o := Centred(window);
      Cost(window, m) ==
        o.pp + o.qq - 2.0 * (m.turn.c * o.dot + m.turn.s * o.cross)
        + o.w * SquaredDistance(WorldCentre(window), m.Apply(OdinCentre(window)))
  {
    hide Cost, MomentsAbout, WorldCentre, OdinCentre, CostOfMoments, SquaredDistance, Dot, Minus;
    hide Rotation.Apply, Motion.Apply;
    var o, d := Centred(window), Minus(WorldCentre(window), m.Apply(OdinCentre(window)));
    CostAbout(window, m, WorldCentre(window), OdinCentre(window));
    CentredFirstMoments(window);
    CostOfCentred(o, m.turn, d);
    DistanceIsDot(WorldCentre(window), m.Apply(OdinCentre(window)));
  }

  lemma DistanceIsDot(a: Vec2, b: Vec2)
    ensures SquaredDistance(a, b) == Dot(Minus(a, b), Minus(a, b))
  {
  }

  lemma CostOfCentred(o: Moments, turn: Rotation, d: Vec2)
    requires o.p == ORIGIN && o.q == ORIGIN
    ensures CostOfMoments(o, turn, d)
         == o.pp + o.qq - 2.0 * (turn.c * o.dot + turn.s * o.cross) + o.w * Dot(d, d)
  {
  }

  // --------------------------------------------------------- the minimum

  /** The length of the correlation vector (a, b). */
  function Alignment(window: seq<Keyframe>, root: real -> real): real
    requires window != []
  {
    root(Sq(Centred(window).dot) + Sq(Centred(window).cross))
  }

  /** The closed form: turn along (a, b), then carry one centroid onto the other. */
  function BestMotion(window: seq<Keyframe>, root: real -> real): Motion
    requires window != [] && Alignment(window, root) > 0.0
  {
    var o, h := Centred(window), Alignment(window, root);
    var turn := Rotation(o.dot / h, o.cross / h);
    Motion(turn, Minus(WorldCentre(window), turn.Apply(OdinCentre(window))))
  }

  lemma AlignedUnit(a: real, b: real, h: real)
    requires h > 0.0 && h * h == a * a + b * b
    ensures (a / h) * (a / h) + (b / h) * (b / h) == 1.0
    ensures (a / h) * a + (b / h) * b == h
  {
    var x, y := a / h, b / h;
    assert x * h == a && y * h == b;
    var k := Sq(h);
    assert (x * x + y * y) * k == (x * h) * (x * h) + (y * h) * (y * h);
    CancelFactor(k, x * x + y * y, 1.0);
    assert x * a + y * b == (x * x + y * y) * h;
  }

  /** No unit direction correlates better than the one along (a, b), and no other does as well. */
  lemma BestAlignment(c: real, s: real, a: real, b: real, h: real)
    requires c * c + s * s == 1.0
    requires h > 0.0 && h * h == a * a + b * b
    ensures c * a + s * b <= h
    ensures c * a + s * b == h ==> c == a / h && s == b / h
  {
    AlongAcross(c, s, a, b);
    Leg(c * a + s * b, c * b - s * a, h);
    if c * a + s * b == h {
      AlongOnly(c, s, a, b, h);
    }
  }

  /** A leg of a right triangle is no longer than the hypotenuse, and as long only alone. */
  lemma Leg(along: real, across: real, h: real)
    requires h > 0.0 && along * along + across * across == h * h
    ensures along <= h
    ensures along == h ==> across == 0.0
  {
    assert Sq(along) + Sq(across) == Sq(h);
    if along > 0.0 {
      CompareSquares(along, h);
    }
  }

  lemma AlongAcross(c: real, s: real, a: real, b: real)
    requires c * c + s * s == 1.0
    ensures (c * a + s * b) * (c * a + s * b) + (c * b - s * a) * (c * b - s * a) == a * a + b * b
  {
    assert (c * a + s * b) * (c * a + s * b) + (c * b - s * a) * (c * b - s * a)
        == (c * c + s * s) * (a * a) + (c * c + s * s) * (b * b);
  }

  lemma AlongOnly(c: real, s: real, a: real, b: real, h: real)
    requires c * c + s * s == 1.0 && h > 0.0
    requires c * a + s * b == h && c * b - s * a == 0.0
    ensures c == a / h && s == b / h
  {
    calc {
      c * h;
      c * (c * a + s * b) - s * (c * b - s * a);
      (c * c + s * s) * a;
      a;
    }
    calc {
      s * h;
      s * (c * a + s * b) + c * (c * b - s * a);
      (c * c + s * s) * b;
      b;
    }
  }

  lemma AlignmentSquare(window: seq<Keyframe>, root: real -> real)
    requires IsRoot(root) && window != []
    ensures var o, h := Centred(window), Alignment(window, root);
      h >= 0.0 && h * h == o.dot * o.dot + o.cross * o.cross
  {
    hide Centred;
    var o, h := Centred(window), Alignment(window, root);
    assert Sq(h) == Sq(o.dot) + Sq(o.cross);
  }

  /** The cost of the closed form. */
  lemma BestCost(window: seq<Keyframe>, root: real -> real)
    requires IsRoot(root) && window != [] && Alignment(window, root) > 0.0
    ensures var best, o := BestMotion(window, root), Centred(window);
      best.turn.Unit() && Cost(window, best) == o.pp + o.qq - 2.0 * Alignment(window, root)
  {
    hide Cost, MomentsAbout, WorldCentre, OdinCentre, Centred, Alignment, IsRoot;
    hide SquaredDistance, Rotation.Apply, Motion.Apply, Minus;
    var best, o, h := BestMotion(window, root), Centred(window), Alignment(window, root);
    AlignmentSquare(window, root);
    AlignedUnit(o.dot, o.cross, h);
    CostDecomposed(window, best);
    CentroidsMeet(WorldCentre(window), OdinCentre(window), best);
  }

  lemma CentroidsMeet(pc: Vec2, qc: Vec2, m: Motion)
    ensures SquaredDistance(pc, m.Apply(qc)) == 0.0 <==> m.shift == Minus(pc, m.turn.Apply(qc))
  {
    hide Rotation.Apply;
    var r := m.turn.Apply(qc);
  }

  /** How far `turn` correlates the centred points. */
  function Along(window: seq<Keyframe>, turn: Rotation): real
    requires window != []
  {
    turn.c * Centred(window).dot + turn.s * Centred(window).cross
  }

  lemma BestAlong(window: seq<Keyframe>, root: real -> real, turn: Rotation)
    requires IsRoot(root) && window != [] && Alignment(window, root) > 0.0
    requires turn.Unit()
    ensures Along(window, turn) <= Alignment(window, root)
    ensures Along(window, turn) == Alignment(window, root) ==> turn == BestMotion(window, root).turn
  {
    hide MomentsAbout, WorldCentre, OdinCentre, Centred, Alignment, IsRoot, Rotation.Unit, Rotation.Apply, Minus;
    AlignmentSquare(window, root);
    UnitSquares(turn);
    BestAlignment(turn.c, turn.s, Centred(window).dot, Centred(window).cross, Alignment(window, root));
  }

  /** What a motion costs beyond the closed form. */
  lemma CostGap(window: seq<Keyframe>, root: real -> real, m: Motion)
    requires IsRoot(root) && window != [] && Alignment(window, root) > 0.0
    requires m.turn.Unit()
    ensures Cost(window, m) == Cost(window, BestMotion(window, root))
      + 2.0 * (Alignment(window, root) - Along(window, m.turn))
      + Centred(window).w * SquaredDistance(WorldCentre(window), m.Apply(OdinCentre(window)))
  {
    hide Cost, MomentsAbout, WorldCentre, OdinCentre, Centred, Alignment, BestMotion, IsRoot;
    hide SquaredDistance, Motion.Apply;
    BestCost(window, root);
    CostDecomposed(window, m);
  }

  /** The closed form is the one least-squares motion among all rotations and translations. */
  lemma LeastCost(window: seq<Keyframe>, root: real -> real, m: Motion)
    requires IsRoot(root) && window != [] && Alignment(window, root) > 0.0
    requires m.turn.Unit()
    ensures Cost(window, BestMotion(window, root)) <= Cost(window, m)
    ensures Cost(window, BestMotion(window, root)) == Cost(window, m) <==> m == BestMotion(window, root)
  {
    hide Cost, MomentsAbout, WorldCentre, OdinCentre, Centred, Alignment, Along, BestMotion, IsRoot;
    hide SquaredDistance, Motion.Apply;
    var gap := SquaredDistance(WorldCentre(window), m.Apply(OdinCentre(window)));
    CostGap(window, root, m);
    BestAlong(window, root, m.turn);
    CentredWeight(window);
    PositiveFactor(Centred(window).w, gap);
    CentroidsMeet(WorldCentre(window), OdinCentre(window), m);
    BestShift(window, root);
  }

  lemma BestShift(window: seq<Keyframe>, root: real -> real)
    requires window != [] && Alignment(window, root) > 0.0
    ensures var best := BestMotion(window, root);
      best.shift == Minus(WorldCentre(window), best.turn.Apply(OdinCentre(window)))
  {
  }

  lemma UnitSquares(turn: Rotation)
    requires turn.Unit()
    ensures turn.c * turn.c + turn.s * turn.s == 1.0
  {
  }

  lemma PositiveFactor(w: real, x: real)
    requires w > 0.0 && x >= 0.0
    ensures w * x >= 0.0
    ensures w * x == 0.0 <==> x == 0.0
  {
    var p := Product(w, x);
  }

  lemma CentredWeight(window: seq<Keyframe>)
    requires window != []
    ensures Centred(window).w > 0.0
  {
    MomentSigns(window, WorldCentre(window), OdinCentre(window));
  }

  // --------------------------------------------------- exact correspondence

  /** Every tag lies exactly where the motion carries its odometry position. */
  ghost predicate Exact(window: seq<Keyframe>, m: Motion) {
    forall k | k in window :: k.world == m.Apply(k.odin)
  }

  lemma {:induction false} ExactIffFree(window: seq<Keyframe>, m: Motion)
    ensures Exact(window, m) <==> Cost(window, m) == 0.0
  {
    if window != [] {
      ExactIffFree(window[1..], m);
      var k := window[0];
      var term := Product(Weight(k), SquaredDistance(k.world, m.Apply(k.odin)));
      assert forall x :: x in window <==> x == k || x in window[1..];
      assert SquaredDistance(k.world, m.Apply(k.odin)) == 0.0 <==> k.world == m.Apply(k.odin);
    }
  }

  lemma {:induction false} ExactSums(window: seq<Keyframe>, m: Motion)
    requires Exact(window, m)
    ensures var o := MomentsAbout(window, ORIGIN, ORIGIN);
      o.p == Add(m.turn.Apply(o.q), Scale(o.w, m.shift))
  {
    if window != [] {
      ExactSums(window[1..], m);
      ExactSum(Weight(window[0]), window[0], MomentsAbout(window[1..], ORIGIN, ORIGIN), m);
      hide Term, Weight;
    }
  }

  lemma ExactSum(w: real, k: Keyframe, rest: Moments, m: Motion)
    requires k.world == m.Apply(k.odin)
    requires rest.p == Add(m.turn.Apply(rest.q), Scale(rest.w, m.shift))
    ensures var o := Plus(Term(w, Minus(k.world, ORIGIN), Minus(k.odin, ORIGIN)), rest);
      o.p == Add(m.turn.Apply(o.q), Scale(o.w, m.shift))
  {
    assert Minus(k.world, ORIGIN) == k.world && Minus(k.odin, ORIGIN) == k.odin;
    hide Dot, Cross, Minus, Rotation.Apply, Motion.Apply, Add, Scale;
    MovedVector(w, m, k.odin, rest.q, rest.w);
  }

  lemma MovedVector(w: real, m: Motion, q: Vec2, rest: Vec2, total: real)
    ensures Add(Scale(w, m.Apply(q)), Add(m.turn.Apply(rest), Scale(total, m.shift)))
         == Add(m.turn.Apply(Add(Scale(w, q), rest)), Scale(w + total, m.shift))
  {
    assert m.Apply(q) == Add(m.turn.Apply(q), m.shift);
    hide Rotation.Apply, Motion.Apply, Scale;
    ScaleAdd(w, m.turn.Apply(q), m.shift);
    ApplyAdd(m.turn, Scale(w, q), rest);
    ApplyScale(w, m.turn, q);
    ScaleSum(w, total, m.shift);
  }

  lemma ScaleAdd(w: real, a: Vec2, b: Vec2)
    ensures Scale(w, Add(a, b)) == Add(Scale(w, a), Scale(w, b))
  {
  }

  lemma ScaleSum(a: real, b: real, v: Vec2)
    ensures Scale(a + b, v) == Add(Scale(a, v), Scale(b, v))
  {
  }

  lemma ApplyAdd(turn: Rotation, a: Vec2, b: Vec2)
    ensures turn.Apply(Add(a, b)) == Add(turn.Apply(a), turn.Apply(b))
  {
  }

  lemma ExactCentres(window: seq<Keyframe>, m: Motion)
    requires window != [] && Exact(window, m)
    ensures WorldCentre(window) == m.Apply(OdinCentre(window))
  {
    ExactSums(window, m);
    MomentSigns(window, ORIGIN, ORIGIN);
    hide MomentsAbout, Exact;
    var o := MomentsAbout(window, ORIGIN, ORIGIN);
    MeanMoves(o.w, o.q, m);
  }

  lemma MeanMoves(w: real, q: Vec2, m: Motion)
    requires w != 0.0
    ensures var p := Add(m.turn.Apply(q), Scale(w, m.shift));
      Vec2(p.x / w, p.y / w) == m.Apply(Vec2(q.x / w, q.y / w))
  {
    MeanMovesOne(w, m.turn.c, q.x, -m.turn.s, q.y, m.shift.x);
    MeanMovesOne(w, m.turn.s, q.x, m.turn.c, q.y, m.shift.y);
  }

  lemma MeanMovesOne(w: real, a: real, x: real, b: real, y: real, t: real)
    requires w != 0.0
    ensures (a * x + b * y + w * t) / w == a * (x / w) + b * (y / w) + t
  {
    var u, v := x / w, y / w;
    assert x == u * w && y == v * w;
    assert a * x + b * y + w * t == (a * u + b * v + t) * w;
  }

  /** Exact observations correlate along the motion's own turn, as strongly as they spread. */
  lemma {:induction false} ExactCorrelation(window: seq<Keyframe>, m: Motion, qc: Vec2)
    requires Exact(window, m)
    ensures AlongTurn(MomentsAbout(window, m.Apply(qc), qc), m.turn)
  {
    hide Term, Plus, Weight, AlongTurn, Minus, Motion.Apply, Rotation.Apply;
    if window == [] {
      NothingAlongTurn(m.turn);
    } else {
      ExactCorrelation(window[1..], m, qc);
      var k := window[0];
      var u, v := Minus(k.world, m.Apply(qc)), Minus(k.odin, qc);
      RotatedOffset(m, k.odin, qc);
      TermAlongTurn(Weight(k), v, MomentsAbout(window[1..], m.Apply(qc), qc), m.turn);
    }
  }

  ghost predicate AlongTurn(o: Moments, turn: Rotation) {
    o.dot == turn.c * o.qq && o.cross == turn.s * o.qq
  }

  lemma NothingAlongTurn(turn: Rotation)
    ensures AlongTurn(Moments(0.0, ORIGIN, ORIGIN, 0.0, 0.0, 0.0, 0.0), turn)
  {
  }

  lemma TermAlongTurn(w: real, v: Vec2, rest: Moments, turn: Rotation)
    requires AlongTurn(rest, turn)
    ensures AlongTurn(Plus(Term(w, turn.Apply(v), v), rest), turn)
  {
    TurnedTerm(w, turn, v);
    hide Dot, Cross, Rotation.Apply;
    var self := w * Dot(v, v);
    assert turn.c * (self + rest.qq) == turn.c * self + turn.c * rest.qq;
    assert turn.s * (self + rest.qq) == turn.s * self + turn.s * rest.qq;
  }

  lemma RotatedOffset(m: Motion, a: Vec2, qc: Vec2)
    ensures Minus(m.Apply(a), m.Apply(qc)) == m.turn.Apply(Minus(a, qc))
  {
  }

  lemma TurnedTerm(w: real, turn: Rotation, v: Vec2)
    ensures w * Dot(v, turn.Apply(v)) == turn.c * (w * Dot(v, v))
    ensures w * Cross(v, turn.Apply(v)) == turn.s * (w * Dot(v, v))
  {
    TurnedProducts(w, turn.c, turn.s, v.x, v.y);
  }

  lemma TurnedProducts(w: real, c: real, s: real, x: real, y: real)
    ensures w * (x * (c * x - s * y) + y * (s * x + c * y)) == c * (w * (x * x + y * y))
    ensures w * (x * (s * x + c * y) - y * (c * x - s * y)) == s * (w * (x * x + y * y))
  {
  }

  /** For noise-free observations the two degeneracy tests are one: only keyframes too close together fail. */
  lemma ExactAlignment(window: seq<Keyframe>, root: real -> real, m: Motion)
    requires IsRoot(root) && window != []
    requires m.turn.Unit() && Exact(window, m)
    ensures Alignment(window, root) == Centred(window).qq
    ensures Spread(root, window) <==> Centred(window).qq > 0.000000000001
  {
    hide MomentsAbout, Exact, WorldCentre, OdinCentre, IsRoot, Alignment, Rotation.Unit, Sq, Motion.Apply;
    ExactCentres(window, m);
    ExactCorrelation(window, m, OdinCentre(window));
    MomentSigns(window, WorldCentre(window), OdinCentre(window));
    AlignmentSquare(window, root);
    UnitSquares(m.turn);
    var o := Centred(window);
    TurnedLength(Alignment(window, root), o.dot, o.cross, m.turn.c, m.turn.s, o.qq);
  }

  lemma TurnedLength(h: real, a: real, b: real, c: real, s: real, x: real)
    requires h >= 0.0 && x >= 0.0
    requires a == c * x && b == s * x && c * c + s * s == 1.0
    requires h * h == a * a + b * b
    ensures h == x
  {
    assert (c * x) * (c * x) + (s * x) * (s * x) == (c * c + s * s) * (x * x);
    SqIs(h);
    SqIs(x);
    CompareSquares(h, x);
  }

  /** Noise-free observations of one motion give that motion back, with every residual zero. */
  lemma ExactRecovery(window: seq<Keyframe>, root: real -> real, m: Motion)
    requires IsRoot(root) && window != [] && Alignment(window, root) > 0.0
    requires m.turn.Unit() && Exact(window, m)
    ensures BestMotion(window, root) == m && Cost(window, BestMotion(window, root)) == 0.0
  {
    hide Cost, MomentsAbout, WorldCentre, OdinCentre, Centred, BestMotion;
    ExactIffFree(window, m);
    LeastCost(window, root, m);
  }

  // ------------------------------------------------------------- the solver

  datatype Reason =
    | TooFew | RepeatedTag | MixedSession | MixedConfig | MixedTimeSource
    | ShortBaseline | RatioMismatch | Degenerate
    | RmsTooLarge | ResidualTooLarge | YawUncertain

  /** Everything the solver reports about the motion it found. */
  datatype Fit = Fit(
    motion: Motion, rms: real, maximumResidual: real, yawStd: real, residuals: seq<real>,
    first: nat, second: nat, odinBaseline: real, worldBaseline: real, twoPointLimited: bool)

  datatype Registration =
    | Refused(reason: Reason)
    | BadBaseline(reason: Reason, first: nat, second: nat, odinLength: real, worldLength: real)
    | Rejected(reason: Reason, fit: Fit)
    | Solved(fit: Fit)

  function Distance(root: real -> real, a: Vec2, b: Vec2): real { root(SquaredDistance(a, b)) }

  function OdinLength(root: real -> real, a: Keyframe, b: Keyframe): real { Distance(root, b.odin, a.odin) }

  function WorldLength(root: real -> real, a: Keyframe, b: Keyframe): real { Distance(root, b.world, a.world) }

  predicate LongEnough(root: real -> real, settings: Settings, a: Keyframe, b: Keyframe) {
    Min(OdinLength(root, a, b), WorldLength(root, a, b)) >= settings.minimumBaseline
  }

  /** The two baselines of a pair agree up to the configured relative error. */
  predicate SameLength(root: real -> real, settings: Settings, a: Keyframe, b: Keyframe)
    requires settings.Valid() && LongEnough(root, settings, a, b)
  {
    var odin, world := OdinLength(root, a, b), WorldLength(root, a, b);
    (if world < odin then odin - world else world - odin) / Max(world, odin) <= settings.maximumRatioError
  }

  predicate PairPasses(root: real -> real, settings: Settings, a: Keyframe, b: Keyframe)
    requires settings.Valid()
  {
    LongEnough(root, settings, a, b) && SameLength(root, settings, a, b)
  }

  predicate DistinctTags(window: seq<Keyframe>) {
    forall i, j | 0 <= i < j < |window| :: window[i].tag != window[j].tag
  }

  predicate OneSession(window: seq<Keyframe>) {
    forall i | 0 <= i < |window| :: window[i].session == window[0].session
  }

  predicate OneConfig(window: seq<Keyframe>) {
    forall i | 0 <= i < |window| :: window[i].config == window[0].config
  }

  predicate OneTimeSource(window: seq<Keyframe>) {
    forall i | 0 <= i < |window| :: window[i].timeSource == window[0].timeSource
  }

  /** The gates a window passes before any geometry is looked at. */
  predicate Coherent(window: seq<Keyframe>) {
    |window| >= 2 && DistinctTags(window) && OneSession(window) && OneConfig(window) && OneTimeSource(window)
  }

  ghost predicate AllPairsPass(root: real -> real, settings: Settings, window: seq<Keyframe>)
    requires settings.Valid()
  {
    forall i, j | 0 <= i < j < |window| :: PairPasses(root, settings, window[i], window[j])
  }

  /** Pair (i, j) comes before pair (a, b) in the order of the double loop. */
  predicate Before(i: nat, j: nat, a: nat, b: nat) { i < a || (i == a && j < b) }

  predicate Spread(root: real -> real, window: seq<Keyframe>)
    requires window != []
  {
    Centred(window).qq > 0.000000000001 && Alignment(window, root) > 0.000000000001
  }

  /** `fit` describes the least-squares motion and the longest odometry baseline of the window. */
  ghost predicate Describes(fit: Fit, root: real -> real, window: seq<Keyframe>)
    requires |window| >= 2 && Spread(root, window)
  {
    && fit.motion == BestMotion(window, root)
    && fit.rms >= 0.0 && Sq(fit.rms) * Centred(window).w == Cost(window, fit.motion)
    && |fit.residuals| == |window|
    && (forall i | 0 <= i < |window| ::
          fit.residuals[i] == Distance(root, window[i].world, fit.motion.Apply(window[i].odin)))
    && (forall i | 0 <= i < |window| :: fit.residuals[i] <= fit.maximumResidual)
    && fit.maximumResidual in fit.residuals
    && fit.yawStd * root(Centred(window).qq) == 1.0
    && fit.first < fit.second < |window|
    && fit.odinBaseline == OdinLength(root, window[fit.first], window[fit.second])
    && fit.worldBaseline == WorldLength(root, window[fit.first], window[fit.second])
    && (forall i, j | 0 <= i < j < |window| ::
          OdinLength(root, window[i], window[j]) <= fit.odinBaseline)
    && (fit.twoPointLimited <==> |window| == 2)
  }

  /** The first quality limit a fit exceeds, in the solver's order. */
  function Verdict(fit: Fit, settings: Settings): Registration {
    if fit.rms > settings.maximumRms then Rejected(RmsTooLarge, fit)
    else if fit.maximumResidual > settings.maximumResidual then Rejected(ResidualTooLarge, fit)
    else if fit.yawStd > settings.maximumYawStd then Rejected(YawUncertain, fit)
    else Solved(fit)
  }

  method Largest(values: seq<real>) returns (best: real)
    requires values != []
    ensures best in values
    ensures forall i | 0 <= i < |values| :: values[i] <= best
  {
    best := values[0];
    for i := 1 to |values|
      invariant best in values
      invariant forall j | 0 <= j < i :: values[j] <= best
    {
      if values[i] > best {
        best := values[i];
      }
    }
  }

  /** The baseline scan: the first failing pair, or the earliest longest odometry baseline. */
  datatype Scan =
    | Failing(reason: Reason, first: nat, second: nat)
    | Longest(first: nat, second: nat)

  /** (i, j) is the first pair that does not pass. */
  ghost predicate FirstFailing(root: real -> real, settings: Settings, window: seq<Keyframe>, i: nat, j: nat)
    requires settings.Valid() && i < j < |window|
  {
    && (forall a, b | 0 <= a < b < |window| && Before(a, b, i, j) :: PairPasses(root, settings, window[a], window[b]))
    && !PairPasses(root, settings, window[i], window[j])
  }

  predicate LongestPair(root: real -> real, window: seq<Keyframe>, first: nat, second: nat)
    requires first < second < |window|
  {
    forall i, j | 0 <= i < j < |window| ::
      OdinLength(root, window[i], window[j]) <= OdinLength(root, window[first], window[second])
  }

  /** Every pair before (i, j) passes, and `longest` bounds its odometry baseline. */
  ghost predicate Scanned(root: real -> real, settings: Settings, window: seq<Keyframe>, i: nat, j: nat, longest: real)
    requires settings.Valid()
  {
    forall a, b | 0 <= a < b < |window| && Before(a, b, i, j) ::
      PairPasses(root, settings, window[a], window[b]) && OdinLength(root, window[a], window[b]) <= longest
  }

  lemma ScannedPair(root: real -> real, settings: Settings, window: seq<Keyframe>, i: nat, j: nat, longest: real, next: real)
    requires settings.Valid() && i < j < |window| && Scanned(root, settings, window, i, j, longest)
    requires LongEnough(root, settings, window[i], window[j]) && SameLength(root, settings, window[i], window[j])
    requires next >= longest && next >= OdinLength(root, window[i], window[j])
    ensures Scanned(root, settings, window, i, j + 1, next)
  {
    hide OdinLength, LongEnough, SameLength;
  }

  lemma ScannedRow(root: real -> real, settings: Settings, window: seq<Keyframe>, i: nat, longest: real)
    requires settings.Valid() && Scanned(root, settings, window, i, |window|, longest)
    ensures Scanned(root, settings, window, i + 1, i + 2, longest)
  {
    hide OdinLength, PairPasses;
  }

  lemma ScannedAll(root: real -> real, settings: Settings, window: seq<Keyframe>, first: nat, second: nat)
    requires settings.Valid() && first < second < |window|
    requires Scanned(root, settings, window, |window| - 1, |window|, OdinLength(root, window[first], window[second]))
    ensures AllPairsPass(root, settings, window) && LongestPair(root, window, first, second)
  {
    hide OdinLength, PairPasses;
  }

  lemma ScanFails(root: real -> real, settings: Settings, window: seq<Keyframe>, i: nat, j: nat, longest: real)
    requires settings.Valid() && i < j < |window| && Scanned(root, settings, window, i, j, longest)
    requires !LongEnough(root, settings, window[i], window[j]) || !SameLength(root, settings, window[i], window[j])
    ensures FirstFailing(root, settings, window, i, j) && !AllPairsPass(root, settings, window)
  {
    hide OdinLength, LongEnough, SameLength;
  }

  lemma NothingScanned(root: real -> real, settings: Settings, window: seq<Keyframe>, longest: real)
    requires settings.Valid()
    ensures Scanned(root, settings, window, 0, 1, longest)
  {
    hide OdinLength, PairPasses;
  }

  method ScanBaselines(window: seq<Keyframe>, settings: Settings, root: real -> real) returns (r: Scan)
    requires IsRoot(root) && settings.Valid() && |window| >= 2
    ensures r.first < r.second < |window|
    ensures r.Longest? <==> AllPairsPass(root, settings, window)
    ensures r.Longest? ==> LongestPair(root, window, r.first, r.second)
    ensures r.Failing? ==>
      && FirstFailing(root, settings, window, r.first, r.second)
      && r.reason == (if LongEnough(root, settings, window[r.first], window[r.second])
                      then RatioMismatch else ShortBaseline)
  {
    hide OdinLength, WorldLength, LongEnough, SameLength, PairPasses, Before, AllPairsPass, FirstFailing, LongestPair, IsRoot;
    var longest, first, second := -1.0, 0, 1;
    NothingScanned(root, settings, window, longest);
    hide Scanned;
    for i := 0 to |window| - 1
      invariant Scanned(root, settings, window, i, i + 1, longest)
      invariant first < second < |window|
      invariant longest == if i == 0 then -1.0 else OdinLength(root, window[first], window[second])
    {
      for j := i + 1 to |window|
        invariant Scanned(root, settings, window, i, j, longest)
        invariant first < second < |window|
        invariant longest ==
          if i == 0 && j == i + 1 then -1.0 else OdinLength(root, window[first], window[second])
      {
        LengthNonNegative(root, window[i], window[j]);
        if !LongEnough(root, settings, window[i], window[j]) {
          ScanFails(root, settings, window, i, j, longest);
          return Failing(ShortBaseline, i, j);
        }
        if !SameLength(root, settings, window[i], window[j]) {
          ScanFails(root, settings, window, i, j, longest);
          return Failing(RatioMismatch, i, j);
        }
        var odin := OdinLength(root, window[i], window[j]);
        ScannedPair(root, settings, window, i, j, longest, if odin > longest then odin else longest);
        if odin > longest {
          longest, first, second := odin, i, j;
        }
      }
      ScannedRow(root, settings, window, i, longest);
    }
    ScannedAll(root, settings, window, first, second);
    r := Longest(first, second);
  }

  /** The closed form with all its diagnostics. */
  method FitWindow(window: seq<Keyframe>, root: real -> real, first: nat, second: nat) returns (fit: Fit)
    requires IsRoot(root) && |window| >= 2 && Spread(root, window)
    requires first < second < |window|
    requires LongestPair(root, window, first, second)
    ensures Describes(fit, root, window)
  {
    hide Cost, MomentsAbout, Centred, SquaredDistance, BestMotion, Distance, OdinLength, WorldLength;
    var motion := BestMotion(window, root);
    var residuals := seq(|window|, i requires 0 <= i < |window| =>
      Distance(root, window[i].world, motion.Apply(window[i].odin)));
    CentredWeight(window);
    RootOfMean(root, Cost(window, motion), Centred(window).w);
    var rms := root(Cost(window, motion) / Centred(window).w);
    var maximum := Largest(residuals);
    RootPositive(root, Centred(window).qq);
    fit := Fit(motion, rms, maximum, 1.0 / root(Centred(window).qq), residuals,
               first, second, OdinLength(root, window[first], window[second]),
               WorldLength(root, window[first], window[second]), |window| == 2);
  }

  /** `solve_weighted_se2`: gates, then the closed form, then the quality limits. */
  method Solve(window: seq<Keyframe>, settings: Settings, root: real -> real) returns (r: Registration)
    requires IsRoot(root) && settings.Valid()
    ensures r == Refused(TooFew) <==> |window| < 2
    ensures r == Refused(RepeatedTag) <==> |window| >= 2 && !DistinctTags(window)
    ensures r == Refused(MixedSession) <==> |window| >= 2 && DistinctTags(window) && !OneSession(window)
    ensures r == Refused(MixedConfig) <==>
      |window| >= 2 && DistinctTags(window) && OneSession(window) && !OneConfig(window)
    ensures r == Refused(MixedTimeSource) <==>
      |window| >= 2 && DistinctTags(window) && OneSession(window) && OneConfig(window) && !OneTimeSource(window)
    ensures r.BadBaseline? <==> Coherent(window) && !AllPairsPass(root, settings, window)
    ensures r.BadBaseline? ==>
      && r.first < r.second < |window|
      && r.odinLength == OdinLength(root, window[r.first], window[r.second])
      && r.worldLength == WorldLength(root, window[r.first], window[r.second])
      && FirstFailing(root, settings, window, r.first, r.second)
      && r.reason == (if LongEnough(root, settings, window[r.first], window[r.second])
                      then RatioMismatch else ShortBaseline)
    ensures r == Refused(Degenerate) <==>
      Coherent(window) && AllPairsPass(root, settings, window) && !Spread(root, window)
    ensures (r.Solved? || r.Rejected?) <==>
      Coherent(window) && AllPairsPass(root, settings, window) && Spread(root, window)
    ensures r.Solved? || r.Rejected? ==> Describes(r.fit, root, window) && r == Verdict(r.fit, settings)
  {
    hide Spread, PairPasses, LongEnough, OdinLength, WorldLength, Describes, IsRoot, OneSession, OneConfig, OneTimeSource, DistinctTags;
    if |window| < 2 {
      return Refused(TooFew);
    }
    if !DistinctTags(window) {
      return Refused(RepeatedTag);
    }
    if !OneSession(window) {
      return Refused(MixedSession);
    }
    if !OneConfig(window) {
      return Refused(MixedConfig);
    }
    if !OneTimeSource(window) {
      return Refused(MixedTimeSource);
    }
    var scan := ScanBaselines(window, settings, root);
    if scan.Failing? {
      return BadBaseline(scan.reason, scan.first, scan.second,
                         OdinLength(root, window[scan.first], window[scan.second]),
                         WorldLength(root, window[scan.first], window[scan.second]));
    }
    if !Spread(root, window) {
      return Refused(Degenerate);
    }
    var fit := FitWindow(window, root, scan.first, scan.second);
    r := Verdict(fit, settings);
  }

  lemma RootOfMean(root: real -> real, cost: real, w: real)
    requires IsRoot(root) && cost >= 0.0 && w > 0.0
    ensures cost / w >= 0.0 && root(cost / w) >= 0.0 && Sq(root(cost / w)) * w == cost
  {
    var mean := cost / w;
    assert mean * w == cost;
    assert Sq(root(mean)) == mean;
  }

  lemma LengthNonNegative(root: real -> real, a: Keyframe, b: Keyframe)
    requires IsRoot(root)
    ensures OdinLength(root, a, b) >= 0.0 && WorldLength(root, a, b) >= 0.0
  {
  }

  lemma RootPositive(root: real -> real, x: real)
    requires IsRoot(root) && x > 0.0
    ensures root(x) > 0.0
  {
    var r := root(x);
    assert Sq(r) == x;
  }

  /** Noise-free observations of one rigid motion: the solver returns that motion with zero
      residuals, and only the yaw-uncertainty limit can still refuse it. */
  lemma ExactSolution(window: seq<Keyframe>, settings: Settings, root: real -> real, m: Motion, fit: Fit)
    requires IsRoot(root) && settings.Valid() && m.turn.Unit() && Exact(window, m)
    requires |window| >= 2 && Spread(root, window) && Describes(fit, root, window)
    requires settings.maximumRms >= 0.0 && settings.maximumResidual >= 0.0
    ensures fit.motion == m && fit.rms == 0.0 && fit.maximumResidual == 0.0
    ensures forall i | 0 <= i < |window| :: fit.residuals[i] == 0.0
    ensures Verdict(fit, settings) ==
      if fit.yawStd > settings.maximumYawStd then Rejected(YawUncertain, fit) else Solved(fit)
  {
    hide Cost, MomentsAbout, Centred, BestMotion, Motion.Apply, Distance, OdinLength, WorldLength, IsRoot, Exact, Sq, Alignment;
    ExactRecovery(window, root, m);
    CentredWeight(window);
    ZeroMean(Sq(fit.rms), Centred(window).w);
    forall i | 0 <= i < |window|
      ensures fit.residuals[i] == 0.0
    {
      var k := window[i];
      ExactAt(window, m, i);
      ZeroDistance(root, k.world);
    }
  }

  lemma ExactAt(window: seq<Keyframe>, m: Motion, i: nat)
    requires Exact(window, m) && i < |window|
    ensures window[i].world == m.Apply(window[i].odin)
  {
    assert window[i] in window;
    hide Motion.Apply;
  }

  lemma ZeroMean(x: real, w: real)
    requires w > 0.0 && x * w == 0.0
    ensures x == 0.0
  {
  }

  lemma ZeroDistance(root: real -> real, a: Vec2)
    requires IsRoot(root)
    ensures Distance(root, a, a) == 0.0
  {
    assert SquaredDistance(a, a) == 0.0 == Sq(0.0);
    RootOfSquare(root, 0.0);
  }

  /** A rigid motion keeps every baseline, so an exact window passes a pair gate exactly when
      its odometry baseline is long enough. */
  lemma ExactBaselines(window: seq<Keyframe>, settings: Settings, root: real -> real, m: Motion, i: nat, j: nat)
    requires IsRoot(root) && settings.Valid() && m.turn.Unit() && Exact(window, m)
    requires i < j < |window|
    ensures PairPasses(root, settings, window[i], window[j])
      <==> OdinLength(root, window[i], window[j]) >= settings.minimumBaseline
  {
    var a, b := window[i], window[j];
    assert a in window && b in window;
    hide Exact, Rotation.Apply, Motion.Apply;
    RigidDistance(m, b.odin, a.odin);
    hide SquaredDistance;
    assert WorldLength(root, a, b) == OdinLength(root, a, b);
  }

  lemma RigidDistance(m: Motion, a: Vec2, b: Vec2)
    requires m.turn.Unit()
    ensures SquaredDistance(m.Apply(a), m.Apply(b)) == SquaredDistance(a, b)
  {
    hide Minus, Rotation.Apply, Motion.Apply, SquaredDistance, Dot, Rotation.Unit;
    RotationKeepsLength(m.turn, Minus(a, b));
    DifferenceTurns(m, a, b);
    DistanceIsDot(m.Apply(a), m.Apply(b));
    DistanceIsDot(a, b);
  }

  lemma DifferenceTurns(m: Motion, a: Vec2, b: Vec2)
    ensures Minus(m.Apply(a), m.Apply(b)) == m.turn.Apply(Minus(a, b))
  {
  }

  // ------------------------------------------------------- the sliding window

  /** The last `n` elements, or all of them when there are fewer. */
  function Last<T>(s: seq<T>, n: nat): (t: seq<T>)
    ensures |t| == if |s| < n then |s| else n
    ensures t <= s || |s| > n
  {
    if |s| <= n then s else s[|s| - n..]
  }

  /** A window the solver accepts: all gates, and quality limits that its fit meets. */
  ghost predicate Registers(root: real -> real, settings: Settings, window: seq<Keyframe>)
    requires settings.Valid()
  {
    && Coherent(window) && AllPairsPass(root, settings, window) && Spread(root, window)
    && exists fit :: Describes(fit, root, window) && Verdict(fit, settings).Solved?
  }

  lemma SameRoot(x: real, y: real, w: real)
    requires x >= 0.0 && y >= 0.0 && w > 0.0 && Sq(x) * w == Sq(y) * w
    ensures x == y
  {
    SqIs(x);
    SqIs(y);
    assert (Sq(x) - Sq(y)) * w == 0.0;
    CompareSquares(x, y);
  }

  lemma SameInverse(x: real, y: real, r: real)
    requires r > 0.0 && x * r == 1.0 && y * r == 1.0
    ensures x == y
  {
    assert (x - y) * r == 0.0;
  }

  lemma SameResiduals(f: Fit, g: Fit, root: real -> real, window: seq<Keyframe>)
    requires |window| >= 2 && Spread(root, window) && Describes(f, root, window) && Describes(g, root, window)
    ensures f.maximumResidual == g.maximumResidual
  {
    hide Cost, Centred, BestMotion, Distance, OdinLength, WorldLength, Sq, Motion.Apply, Spread;
    forall i | 0 <= i < |window| ensures f.residuals[i] == g.residuals[i] { }
    assert f.residuals == g.residuals;
  }

  lemma SameFigures(f: Fit, g: Fit, root: real -> real, window: seq<Keyframe>)
    requires IsRoot(root) && |window| >= 2 && Spread(root, window) && Describes(f, root, window) && Describes(g, root, window)
    ensures f.rms == g.rms && f.yawStd == g.yawStd
  {
    hide Cost, Centred, BestMotion, Distance, OdinLength, WorldLength, Sq, Motion.Apply, IsRoot;
    CentredWeight(window);
    SameRoot(f.rms, g.rms, Centred(window).w);
    RootPositive(root, Centred(window).qq);
    SameInverse(f.yawStd, g.yawStd, root(Centred(window).qq));
  }

  /** Two descriptions of one window can differ only in which of several longest baselines they name. */
  lemma FitsAgree(f: Fit, g: Fit, root: real -> real, window: seq<Keyframe>, settings: Settings)
    requires IsRoot(root) && |window| >= 2 && Spread(root, window) && Describes(f, root, window) && Describes(g, root, window)
    ensures Verdict(f, settings).Solved? <==> Verdict(g, settings).Solved?
  {
    hide Describes, Spread, IsRoot;
    SameResiduals(f, g, root, window);
    SameFigures(f, g, root, window);
  }

  lemma SolvedIff(window: seq<Keyframe>, settings: Settings, root: real -> real, r: Registration)
    requires IsRoot(root) && settings.Valid()
    requires (r.Solved? || r.Rejected?) <==> Coherent(window) && AllPairsPass(root, settings, window) && Spread(root, window)
    requires r.Solved? || r.Rejected? ==> Describes(r.fit, root, window) && r == Verdict(r.fit, settings)
    ensures r.Solved? <==> Registers(root, settings, window)
  {
    hide Describes, Spread, PairPasses, DistinctTags, OneSession, OneConfig, OneTimeSource, IsRoot, Verdict;
    if r.Rejected? && Registers(root, settings, window) {
      var fit :| Describes(fit, root, window) && Verdict(fit, settings).Solved?;
      FitsAgree(r.fit, fit, root, window, settings);
    }
  }

  /** `build_temporary_window`: an extension is refused if and only if its Tag is in the window already or the
      whole extended window does not register; the oldest is dropped only afterwards. */
  method BuildTemporaryWindow(
    existing: seq<Keyframe>, k: Keyframe, size: nat, settings: Settings, root: real -> real)
    returns (target: seq<Keyframe>, result: Registration, extended: Registration)
    requires IsRoot(root) && settings.Valid() && size >= 2
    ensures var repeated := exists i :: 0 <= i < |existing| && existing[i].tag == k.tag;
      && (repeated ==> extended == Refused(RepeatedTag))
      && (extended.Solved? <==> !repeated && Registers(root, settings, existing + [k]))
    ensures !extended.Solved? ==> target == existing && result == extended
    ensures extended.Solved? ==>
      target == Last(existing + [k], size) && (result.Solved? <==> Registers(root, settings, target))
    ensures result.Solved? ==> Coherent(existing + [k]) && AllPairsPass(root, settings, existing + [k]) && extended.Solved?
  {
    hide PairPasses, Spread, Describes, IsRoot;
    if exists i :: 0 <= i < |existing| && existing[i].tag == k.tag {
      return existing, Refused(RepeatedTag), Refused(RepeatedTag);
    }
    extended := Solve(existing + [k], settings, root);
    SolvedIff(existing + [k], settings, root, extended);
    if !extended.Solved? {
      return existing, extended, extended;
    }
    target := Last(existing + [k], size);
    result := Solve(target, settings, root);
    SolvedIff(target, settings, root, result);
  }
}
