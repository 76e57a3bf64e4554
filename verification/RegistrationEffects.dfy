/** What the registration's gates and figures mean, without the terms its solver computes with. */
module RegistrationEffects {
  import opened Reals
  import opened Registration

  // ------------------------------------------------------------------ weights

  /** A keyframe weighs the inverse of its variance, between sigma 1 mm and sigma 0.25 m; a more certain one
      never weighs less. */
  lemma WeightIsInverseVariance(k: Keyframe)
    ensures 0.001 <= k.sigma <= 0.25 ==> Weight(k) * (k.sigma * k.sigma) == 1.0
    ensures k.sigma <= 0.001 ==> Weight(k) == 1000000.0
    ensures k.sigma >= 0.25 ==> Weight(k) == 16.0
  {
    var sigma := Max(0.000000001, k.sigma);
    ProductPositive(sigma, sigma);
    var v := sigma * sigma;
    Quotient(v);
    if k.sigma >= 0.25 {
      SquareGrows(0.25, sigma);
      InverseFalls(0.0625, v);
    }
    if k.sigma <= 0.25 {
      SquareGrows(sigma, 0.25);
      InverseFalls(v, 0.0625);
    }
    if k.sigma <= 0.001 {
      SquareGrows(sigma, 0.001);
      InverseFalls(v, 0.000001);
    } else {
      SquareGrows(0.001, sigma);
      InverseFalls(0.000001, v);
    }
  }

  lemma MoreCertainWeighsMore(a: Keyframe, b: Keyframe)
    requires a.sigma <= b.sigma
    ensures Weight(a) >= Weight(b)
  {
    var s, t := Max(0.000000001, a.sigma), Max(0.000000001, b.sigma);
    ProductPositive(s, s);
    ProductPositive(t, t);
    SquareGrows(s, t);
    InverseFalls(s * s, t * t);
  }

  lemma Quotient(v: real)
    requires v > 0.0
    ensures 1.0 / v * v == 1.0
  {
  }

  lemma SquareGrows(s: real, t: real)
    requires 0.0 <= s <= t
    ensures s * s <= t * t
  {
    ProductNonNegative(t - s, t + s);
    assert t * t - s * s == (t - s) * (t + s);
  }

  lemma InverseFalls(v: real, w: real)
    requires 0.0 < v <= w
    ensures 1.0 / w <= 1.0 / v
  {
    var x, y := 1.0 / w, 1.0 / v;
    Quotient(v);
    Quotient(w);
    if x > y {
      TimesStrict(y, x, v);
      Times(v, w, x);
      assert false;
    }
  }

  // -------------------------------------------------------------------- gates

  /** The length of a vector. */
  predicate LengthOf(l: real, x: real, y: real) { l >= 0.0 && l * l == x * x + y * y }

  /** A pair passes if and only if both of its baselines are long enough and they differ by no more than the
      allowed share of the longer one. */
  lemma PairPassesIff(root: real -> real, settings: Settings, a: Keyframe, b: Keyframe, odin: real, world: real)
    requires IsRoot(root) && settings.Valid()
    requires LengthOf(odin, b.odin.x - a.odin.x, b.odin.y - a.odin.y)
    requires LengthOf(world, b.world.x - a.world.x, b.world.y - a.world.y)
    ensures LongEnough(root, settings, a, b) <==> odin >= settings.minimumBaseline && world >= settings.minimumBaseline
    ensures PairPasses(root, settings, a, b) <==>
      && odin >= settings.minimumBaseline && world >= settings.minimumBaseline
      && odin - world <= settings.maximumRatioError * odin && world - odin <= settings.maximumRatioError * world
  {
    DistanceIs(root, b.odin, a.odin, odin);
    DistanceIs(root, b.world, a.world, world);
    hide IsRoot, Distance;
    if LongEnough(root, settings, a, b) {
      RatioIs(odin, world, settings.maximumRatioError);
    }
  }

  lemma DistanceIs(root: real -> real, a: Vec2, b: Vec2, l: real)
    requires IsRoot(root) && LengthOf(l, a.x - b.x, a.y - b.y)
    ensures Distance(root, a, b) == l
  {
    var d := SquaredDistance(a, b);
    SqIs(a.x - b.x);
    SqIs(a.y - b.y);
    SqIs(l);
    assert d == Sq(l);
    assert Sq(root(d)) == d;
    hide Sq, SquaredDistance;
    CompareSquares(root(d), l);
  }

  lemma RatioIs(odin: real, world: real, limit: real)
    requires odin > 0.0 && world > 0.0 && 0.0 <= limit < 1.0
    ensures (if world < odin then odin - world else world - odin) / Max(world, odin) <= limit
      <==> odin - world <= limit * odin && world - odin <= limit * world
  {
    var m, d := Max(world, odin), if world < odin then odin - world else world - odin;
    var q := d / m;
    assert q * m == d;
    ProductNonNegative(limit, odin);
    ProductNonNegative(limit, world);
    if q <= limit { Times(q, limit, m); } else { TimesStrict(limit, q, m); }
  }

  lemma Times(a: real, b: real, k: real)
    requires a <= b && k > 0.0
    ensures a * k <= b * k
  {
    ProductNonNegative(b - a, k);
  }

  lemma TimesStrict(a: real, b: real, k: real)
    requires a < b && k > 0.0
    ensures a * k < b * k
  {
    ProductPositive(b - a, k);
  }

  /** Windows are looked at only when they have two keyframes, no Tag twice, and one session, configuration
      and time source. */
  lemma CoherentIff(window: seq<Keyframe>)
    ensures Coherent(window) <==>
      && |window| >= 2
      && forall i, j | 0 <= i < j < |window| ::
           window[i].tag != window[j].tag && window[i].session == window[j].session
           && window[i].config == window[j].config && window[i].timeSource == window[j].timeSource
  {
    if |window| >= 2 && forall i, j | 0 <= i < j < |window| ::
         window[i].tag != window[j].tag && window[i].session == window[j].session
         && window[i].config == window[j].config && window[i].timeSource == window[j].timeSource {
      forall i | 0 < i < |window|
        ensures window[i].session == window[0].session && window[i].config == window[0].config
             && window[i].timeSource == window[0].timeSource
      {
        assert window[0].tag != window[i].tag;
      }
    }
  }

  /** A fit is accepted exactly within its three limits, and a refusal names the first one exceeded. */
  lemma VerdictIff(fit: Fit, settings: Settings)
    ensures Verdict(fit, settings) == Solved(fit) <==>
      fit.rms <= settings.maximumRms && fit.maximumResidual <= settings.maximumResidual && fit.yawStd <= settings.maximumYawStd
    ensures Verdict(fit, settings) == Rejected(RmsTooLarge, fit) <==> fit.rms > settings.maximumRms
    ensures Verdict(fit, settings) == Rejected(ResidualTooLarge, fit) <==>
      fit.rms <= settings.maximumRms && fit.maximumResidual > settings.maximumResidual
    ensures Verdict(fit, settings) == Rejected(YawUncertain, fit) <==>
      fit.rms <= settings.maximumRms && fit.maximumResidual <= settings.maximumResidual && fit.yawStd > settings.maximumYawStd
  {
  }

  /** The window that is kept is the newest part of what it is cut from. */
  lemma NewestKept<T>(s: seq<T>, n: nat)
    ensures |Last(s, n)| == (if |s| < n then |s| else n) && forall i | 0 <= i < |Last(s, n)| :: Last(s, n)[i] == s[|s| - |Last(s, n)| + i]
  {
  }

  // ------------------------------------------------------------------ figures

  function TotalWeight(window: seq<Keyframe>): real {
    if window == [] then 0.0 else Weight(window[0]) + TotalWeight(window[1..])
  }

  /** The weighted sum of squared residuals. */
  function SquaredResiduals(window: seq<Keyframe>, residuals: seq<real>): real
    requires |residuals| == |window|
  {
    if window == [] then 0.0
    else Weight(window[0]) * (residuals[0] * residuals[0]) + SquaredResiduals(window[1..], residuals[1..])
  }

  /** How far the odometry positions lie from a point, squared and weighted. */
  function Scatter(window: seq<Keyframe>, c: Vec2): real {
    if window == [] then 0.0
    else Share(Weight(window[0]), window[0].odin.x - c.x, window[0].odin.y - c.y) + Scatter(window[1..], c)
  }

  function Share(w: real, dx: real, dy: real): real { w * (dx * dx + dy * dy) }

  lemma {:induction false} WeightsSum(window: seq<Keyframe>, pc: Vec2, qc: Vec2)
    ensures MomentsAbout(window, pc, qc).w == TotalWeight(window)
    ensures MomentsAbout(window, pc, qc).qq == Scatter(window, qc)
  {
    hide Weight, Term, Share;
    if window != [] {
      TermFields(Weight(window[0]), Minus(window[0].world, pc), Minus(window[0].odin, qc));
      WeightsSum(window[1..], pc, qc);
    }
  }

  lemma TermFields(w: real, u: Vec2, v: Vec2)
    ensures var t := Term(w, u, v);
      t.w == w && t.q.x == w * v.x && t.q.y == w * v.y && t.qq == Share(w, v.x, v.y)
  {
    SameFactor(w, Dot(v, v), v.x * v.x + v.y * v.y);
  }

  lemma SameFactor(w: real, a: real, b: real)
    requires a == b
    ensures w * a == w * b
  {
  }

  lemma {:induction false} CostIsResiduals(window: seq<Keyframe>, m: Motion, root: real -> real, residuals: seq<real>)
    requires IsRoot(root) && |residuals| == |window|
    requires forall i | 0 <= i < |window| :: residuals[i] == Distance(root, window[i].world, m.Apply(window[i].odin))
    ensures Cost(window, m) == SquaredResiduals(window, residuals)
  {
    hide Weight, Motion.Apply, Distance;
    if window != [] {
      assert residuals[0] == Distance(root, window[0].world, m.Apply(window[0].odin));
      SquareOfDistance(root, window[0].world, m.Apply(window[0].odin));
      CostIsResiduals(window[1..], m, root, residuals[1..]);
    }
    hide SquaredDistance, IsRoot;
  }

  lemma SquareOfDistance(root: real -> real, a: Vec2, b: Vec2)
    requires IsRoot(root)
    ensures Distance(root, a, b) * Distance(root, a, b) == SquaredDistance(a, b)
    ensures LengthOf(Distance(root, a, b), a.x - b.x, a.y - b.y)
  {
    var d := SquaredDistance(a, b);
    SqIs(root(d));
    SqIs(a.x - b.x);
    SqIs(a.y - b.y);
    hide Sq;
  }

  /** No point has less scatter about it than the centre the fit uses. */
  lemma LeastScatter(window: seq<Keyframe>, c: Vec2)
    requires window != []
    ensures Centred(window).qq == Scatter(window, OdinCentre(window)) <= Scatter(window, c)
  {
    hide MomentsAbout, Scatter, WorldCentre, OdinCentre, TotalWeight, Pull, Bulk;
    var q := OdinCentre(window);
    WeightsSum(window, WorldCentre(window), q);
    CentredFirstMoments(window);
    ScatterShifts(window, WorldCentre(window), q, c);
    WeightsNonNegative(window);
    NothingPulls(q.x - c.x, q.y - c.y);
    BulkNonNegative(TotalWeight(window), q.x - c.x, q.y - c.y);
  }

  lemma {:induction false} WeightsNonNegative(window: seq<Keyframe>)
    ensures TotalWeight(window) >= 0.0
  {
    if window != [] { WeightsNonNegative(window[1..]); }
    hide Weight;
  }

  /** How the first moment pulls on a shift of the centre. */
  function Pull(sx: real, sy: real, dx: real, dy: real): real { 2.0 * (sx * dx + sy * dy) }

  function Bulk(total: real, dx: real, dy: real): real { total * (dx * dx + dy * dy) }

  lemma {:induction false} ScatterShifts(window: seq<Keyframe>, pc: Vec2, q: Vec2, c: Vec2)
    ensures var m := MomentsAbout(window, pc, q);
      Scatter(window, c) == Scatter(window, q) + Pull(m.q.x, m.q.y, q.x - c.x, q.y - c.y)
                            + Bulk(TotalWeight(window), q.x - c.x, q.y - c.y)
  {
    hide Weight, Term, Share, Pull, Bulk;
    if window == [] {
      NothingPulls(q.x - c.x, q.y - c.y);
    } else {
      ScatterShifts(window[1..], pc, q, c);
      var m := MomentsAbout(window[1..], pc, q);
      var k := window[0];
      var v := Minus(k.odin, q);
      TermFields(Weight(k), Minus(k.world, pc), v);
      var whole := MomentsAbout(window, pc, q);
      ShiftTerm(Weight(k), v.x, v.y, q.x - c.x, q.y - c.y, m.q.x, m.q.y, whole.q.x, whole.q.y,
                TotalWeight(window[1..]), TotalWeight(window));
      assert k.odin.x - c.x == v.x + (q.x - c.x) && k.odin.y - c.y == v.y + (q.y - c.y);
      assert Scatter(window, c) == Share(Weight(k), v.x + (q.x - c.x), v.y + (q.y - c.y)) + Scatter(window[1..], c);
      assert Scatter(window, q) == Share(Weight(k), v.x, v.y) + Scatter(window[1..], q);
    }
  }

  lemma NothingPulls(dx: real, dy: real)
    ensures Pull(0.0, 0.0, dx, dy) == 0.0 && Bulk(0.0, dx, dy) == 0.0
  {
  }

  lemma BulkNonNegative(total: real, dx: real, dy: real)
    requires total >= 0.0
    ensures Bulk(total, dx, dy) >= 0.0
  {
    SqIs(dx);
    SqIs(dy);
    ProductNonNegative(total, Sq(dx) + Sq(dy));
    hide Sq;
  }

  lemma ShiftTerm(w: real, x: real, y: real, dx: real, dy: real, sx: real, sy: real, tx: real, ty: real, total: real, all: real)
    requires tx == w * x + sx && ty == w * y + sy && all == w + total
    ensures Share(w, x + dx, y + dy) + Pull(sx, sy, dx, dy) + Bulk(total, dx, dy)
         == Share(w, x, y) + Pull(tx, ty, dx, dy) + Bulk(all, dx, dy)
  {
  }

  /** The figures of a fit: each residual is the distance it says, the greatest is reported, the square of
      the RMS is their weighted mean square, and the yaw deviation is the inverse root of the least scatter. */
  lemma FiguresAre(fit: Fit, root: real -> real, window: seq<Keyframe>)
    requires IsRoot(root) && |window| >= 2 && Spread(root, window) && Describes(fit, root, window)
    ensures |fit.residuals| == |window| && fit.rms >= 0.0 && fit.yawStd > 0.0
    ensures forall i | 0 <= i < |window| ::
      var p := fit.motion.Apply(window[i].odin);
      LengthOf(fit.residuals[i], window[i].world.x - p.x, window[i].world.y - p.y) && fit.residuals[i] <= fit.maximumResidual
    ensures fit.maximumResidual in fit.residuals
    ensures fit.rms * fit.rms * TotalWeight(window) == SquaredResiduals(window, fit.residuals)
    ensures fit.yawStd * fit.yawStd * Scatter(window, OdinCentre(window)) == 1.0
    ensures forall c :: Scatter(window, OdinCentre(window)) <= Scatter(window, c)
  {
    hide Weight, Motion.Apply, Distance, BestMotion, Alignment, MomentsAbout, Scatter, OdinCentre, WorldCentre, TotalWeight;
    hide OdinLength, WorldLength, SquaredResiduals, Cost, LengthOf, Sq, IsRoot;
    CostIsResiduals(window, fit.motion, root, fit.residuals);
    WeightsSum(window, WorldCentre(window), OdinCentre(window));
    forall i | 0 <= i < |window|
      ensures var p := fit.motion.Apply(window[i].odin); LengthOf(fit.residuals[i], window[i].world.x - p.x, window[i].world.y - p.y)
    {
      SquareOfDistance(root, window[i].world, fit.motion.Apply(window[i].odin));
    }
    forall c ensures Scatter(window, OdinCentre(window)) <= Scatter(window, c) { LeastScatter(window, c); }
    SqIs(fit.rms);
    YawFigure(fit.yawStd, root, Centred(window).qq);
  }

  lemma YawFigure(y: real, root: real -> real, qq: real)
    requires IsRoot(root) && qq > 0.0 && y * root(qq) == 1.0
    ensures y > 0.0 && y * y * qq == 1.0
  {
    var r := root(qq);
    assert Sq(r) == qq;
    SqIs(r);
    RootPositive(root, qq);
    assert y * y * (r * r) == (y * r) * (y * r);
    if y <= 0.0 { ProductNonNegative(-y, r); }
    hide Sq;
  }

  /** Geometry too flat to show a heading: the scatter or the alignment is at most 1e-12. */
  lemma SpreadIff(root: real -> real, window: seq<Keyframe>, hypot: real)
    requires IsRoot(root) && window != [] && LengthOf(hypot, Centred(window).dot, Centred(window).cross)
    ensures Spread(root, window) <==>
      Scatter(window, OdinCentre(window)) * 1000000000000.0 > 1.0 && hypot * 1000000000000.0 > 1.0
  {
    WeightsSum(window, WorldCentre(window), OdinCentre(window));
    var o := Centred(window);
    hide Scatter, MomentsAbout, Centred, OdinCentre, WorldCentre;
    SqIs(o.dot);
    SqIs(o.cross);
    SqIs(hypot);
    var d := Sq(o.dot) + Sq(o.cross);
    assert Sq(root(d)) == d;
    CompareSquares(root(d), hypot);
    hide Sq;
  }
}
