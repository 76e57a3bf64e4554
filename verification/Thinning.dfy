/** Frame thinning: the software relay's slots (video_service/relay_cpu.py) and the two GPU filters
    (video_service/ground_relay.py). Times are exact.
 */
module Thinning {
  import opened Options

  const CLOCK := 90000.0
  const GUARD := 0.00001

  /** `round` on an exact fraction: to the nearest integer, halves to the even one. */
  function RoundHalfEven(x: real): (r: int)
    ensures -0.5 <= r as real - x <= 0.5
    ensures r as real - x == 0.5 || r as real - x == -0.5 ==> r % 2 == 0
  {
    var low := x.Floor;
    var rest := x - low as real;
    if rest < 0.5 then low else if rest > 0.5 then low + 1 else if low % 2 == 0 then low else low + 1
  }

  function Relative(times: seq<real>, i: nat): real
    requires i < |times|
  {
    times[i] - times[0]
  }

  function PtsAt(relative: real): int { RoundHalfEven(relative * CLOCK) }

  function SlotAt(relative: real, fps: real): int { (relative * fps + GUARD).Floor }

  /** The output timestamp of a frame, in ticks of 1/90000 second. */
  function Pts(times: seq<real>, i: nat): int
    requires i < |times|
  {
    PtsAt(Relative(times, i))
  }

  /** The rate slot a frame falls into. */
  function Slot(times: seq<real>, fps: real, i: nat): int
    requires i < |times|
  {
    SlotAt(Relative(times, i), fps)
  }

  lemma FirstFrame(times: seq<real>, fps: real)
    requires times != []
    ensures Pts(times, 0) == 0 && Slot(times, fps, 0) == 0
  {
  }

  /** A timestamp lies within half a tick of 90000 times the seconds since the first frame, a slot is the last
      one begun by then, looked at 1/100000 slot early. */
  lemma TicksAndSlots(times: seq<real>, fps: real, i: nat)
    requires i < |times|
    ensures -0.5 <= Pts(times, i) as real - 90000.0 * (times[i] - times[0]) <= 0.5
    ensures Slot(times, fps, i) as real <= (times[i] - times[0]) * fps + 0.00001 < Slot(times, fps, i) as real + 1.0
  {
    hide RoundHalfEven;
  }

  // ----------------------------------------------------------- the slot rule

  /** `last_slot` after n frames. */
  function LastSlot(times: seq<real>, fps: real, n: nat): int
    requires n <= |times|
  {
    if n == 0 then -1
    else
      var last, slot := LastSlot(times, fps, n - 1), Slot(times, fps, n - 1);
      if slot <= last then last else slot
  }

  /** Does the software relay encode this frame? A rate of 0 asks for no thinning. */
  predicate Keeps(times: seq<real>, fps: real, i: nat)
    requires i < |times|
  {
    fps == 0.0 || Slot(times, fps, i) > LastSlot(times, fps, i)
  }

  lemma {:induction false} LastSlotIsHighest(times: seq<real>, fps: real, n: nat)
    requires n <= |times|
    ensures forall j | 0 <= j < n :: Slot(times, fps, j) <= LastSlot(times, fps, n)
    ensures n > 0 ==> exists j :: 0 <= j < n && Slot(times, fps, j) == LastSlot(times, fps, n)
    decreases n
  {
    if n == 1 { FirstFrame(times, fps); }
    if n > 1 { LastSlotIsHighest(times, fps, n - 1); }
    hide Slot;
  }

  /** A frame is kept exactly when its slot is later than the slots of all frames before it, kept or not. */
  lemma KeepsExactlyWhen(times: seq<real>, fps: real, i: nat)
    requires i < |times| && fps != 0.0
    ensures Keeps(times, fps, i) <==> forall j | 0 <= j < i :: Slot(times, fps, j) < Slot(times, fps, i)
    ensures Keeps(times, 0.0, i)
  {
    LastSlotIsHighest(times, fps, i);
    FirstFrame(times, fps);
    hide Slot;
  }

  datatype Frame = Frame(index: nat, pts: int)

  /** The frames encoded from the first n. */
  function Kept(times: seq<real>, fps: real, n: nat): seq<Frame>
    requires n <= |times|
  {
    if n == 0 then []
    else Kept(times, fps, n - 1) + if Keeps(times, fps, n - 1) then [Frame(n - 1, Pts(times, n - 1))] else []
  }

  predicate Advancing(times: seq<real>, n: nat)
    requires n <= |times|
  {
    forall i | 0 < i < n :: Pts(times, i - 1) < Pts(times, i)
  }

  /** The loop of `run_cpu`: `duration` 0 and `limit` 0 ask for no limit. `used` counts the frames taken
      before the loop ended, and `failed` says that it ended with the timestamp error. */
  method RunCpu(times: seq<real>, fps: real, duration: real, limit: nat)
    returns (kept: seq<Frame>, used: nat, failed: bool)
    ensures used <= |times| && Advancing(times, used) && kept == Kept(times, fps, used)
    ensures limit != 0 ==> |kept| <= limit
    ensures used < |times| ==>
      || (limit != 0 && |kept| == limit)
      || (duration != 0.0 && Relative(times, used) >= duration)
      || failed
    ensures failed ==> 0 < used < |times| && Pts(times, used) <= Pts(times, used - 1)
    ensures forall i | 0 <= i < used :: duration != 0.0 ==> Relative(times, i) < duration
  {
    hide PtsAt, SlotAt;
    if times != [] { FirstFrame(times, fps); }
    kept, used, failed := [], 0, false;
    var lastSourcePts := -1;
    var lastSlot := -1;
    while used < |times|
      invariant 0 <= used <= |times| && Advancing(times, used) && kept == Kept(times, fps, used)
      invariant lastSourcePts == if used == 0 then -1 else Pts(times, used - 1)
      invariant fps != 0.0 ==> lastSlot == LastSlot(times, fps, used)
      invariant limit != 0 ==> |kept| < limit
      invariant forall i | 0 <= i < used :: duration != 0.0 ==> Relative(times, i) < duration
    {
      var relative := times[used] - times[0];
      if duration != 0.0 && relative >= duration {
        return;
      }
      var pts := PtsAt(relative);
      if pts <= lastSourcePts {
        failed := true;
        return;
      }
      lastSourcePts := pts;
      used := used + 1;
      if fps != 0.0 {
        var slot := SlotAt(relative, fps);
        if slot <= lastSlot {
          continue;
        }
        lastSlot := slot;
      }
      kept := kept + [Frame(used - 1, pts)];
      if limit != 0 && |kept| >= limit {
        return;
      }
    }
  }

  /** What is encoded is a subsequence with the source's own timing, strictly increasing timestamps and
      at most one frame in every rate slot. */
  lemma {:induction false} KeptFramesAreSound(times: seq<real>, fps: real, n: nat)
    requires n <= |times| && Advancing(times, n)
    ensures forall k | 0 <= k < |Kept(times, fps, n)| ::
      var f := Kept(times, fps, n)[k]; f.index < n && f.pts == Pts(times, f.index) && Keeps(times, fps, f.index)
    ensures forall i | 0 <= i < n && Keeps(times, fps, i) :: Frame(i, Pts(times, i)) in Kept(times, fps, n)
    ensures forall j, k | 0 <= j < k < |Kept(times, fps, n)| ::
      var f, g := Kept(times, fps, n)[j], Kept(times, fps, n)[k];
      f.index < g.index && f.pts < g.pts && (fps != 0.0 ==> Slot(times, fps, f.index) < Slot(times, fps, g.index))
    decreases n
  {
    if n > 0 {
      KeptFramesAreSound(times, fps, n - 1);
      var earlier := Kept(times, fps, n - 1);
      forall k | 0 <= k < |earlier|
        ensures earlier[k].pts < Pts(times, n - 1)
        ensures fps != 0.0 ==> Slot(times, fps, earlier[k].index) <= LastSlot(times, fps, n - 1)
      {
        PtsIncrease(times, earlier[k].index, n - 1);
        SlotsBelowLast(times, fps, earlier[k].index, n - 1);
      }
    }
    hide Slot, Pts;
  }

  lemma {:induction false} PtsIncrease(times: seq<real>, i: nat, j: nat)
    requires i < j < |times| && Advancing(times, j + 1)
    ensures Pts(times, i) < Pts(times, j)
    decreases j
  {
    hide Pts;
    if i + 1 < j { PtsIncrease(times, i, j - 1); }
  }

  lemma {:induction false} SlotsBelowLast(times: seq<real>, fps: real, i: nat, n: nat)
    requires i < n <= |times|
    ensures Slot(times, fps, i) <= LastSlot(times, fps, n)
    decreases n
  {
    hide Slot;
    if i + 1 < n { SlotsBelowLast(times, fps, i, n - 1); }
  }

  // ------------------------------------------------------- the GPU select filter

  /** The last of the first n frames that the filter selected. */
  function Selected(times: seq<real>, fps: real, n: nat): (s: Option<nat>)
    requires n <= |times|
    ensures s.Some? ==> s.value < n
    decreases n, 0
  {
    if n == 0 then None else if Selects(times, fps, n - 1) then Some(n - 1) else Selected(times, fps, n - 1)
  }

  /** `select='isnan(prev_selected_t)+gt(floor(...),floor(...))'`. */
  predicate Selects(times: seq<real>, fps: real, i: nat)
    requires i < |times|
    decreases i, 1
  {
    var prior := Selected(times, fps, i);
    prior.None? || Slot(times, fps, i) > Slot(times, fps, prior.value)
  }

  /** For every timing the software relay keeps exactly the frames the filter selects. */
  lemma {:induction false} CpuMatchesSelect(times: seq<real>, fps: real, n: nat)
    requires fps != 0.0 && n <= |times|
    ensures forall i | 0 <= i < n :: Keeps(times, fps, i) <==> Selects(times, fps, i)
    ensures LastSlot(times, fps, n) == if Selected(times, fps, n).None? then -1 else Slot(times, fps, Selected(times, fps, n).value)
    ensures n > 0 ==> Selected(times, fps, n).Some?
    decreases n
  {
    if n > 0 {
      CpuMatchesSelect(times, fps, n - 1);
      FirstFrame(times, fps);
      hide Slot;
    }
  }

  // --------------------------------------------------------------- framestep

  /** `frame_step`: the integer ratio of the two rates, if it is one. */
  function FrameStep(source: real, target: real): (k: Option<nat>)
  {
    if source == 0.0 || target == 0.0 then None
    else
      var ratio := source / target;
      if ratio.Floor as real == ratio && ratio >= 1.0 then Some(ratio.Floor) else None
  }

  /** It answers exactly the integer ratios, and none else. */
  lemma FrameStepIsRatio(source: real, target: real, k: nat)
    requires target != 0.0
    ensures FrameStep(source, target) == Some(k) <==> k >= 1 && Ratio(source, target, k)
  {
    if k >= 1 && Ratio(source, target, k) {
      QuotientIs(source, target, k as real);
    }
    if source != 0.0 {
      Restores(source, target);
    }
  }

  lemma QuotientIs(source: real, target: real, k: real)
    requires target != 0.0 && source == k * target && k >= 1.0
    ensures source != 0.0 && source / target == k
  {
    Nonzero(k, target);
  }

  lemma Nonzero(k: real, target: real)
    requires target != 0.0 && k >= 1.0
    ensures k * target != 0.0
  {
  }

  lemma Restores(source: real, target: real)
    requires target != 0.0
    ensures source / target * target == source
  {
  }

  /** Frames at the exact times of a constant rate. */
  ghost predicate Exact(times: seq<real>, source: real) {
    source > 0.0 && forall i | 0 <= i < |times| :: Relative(times, i) * source == i as real
  }

  /** k source frames make one target frame. */
  predicate Ratio(source: real, fps: real, k: nat) { source == k as real * fps }

  lemma Scale(a: real, b: real, k: real)
    requires a >= b && k >= 0.0
    ensures a * k >= b * k
  {
  }

  /** The position of a frame in units of the target's period. */
  lemma PositionTimesRatio(relative: real, fps: real, k: real, source: real, i: real)
    requires relative * source == i && source == k * fps
    ensures relative * fps * k == i
  {
  }

  lemma ScaleStrict(a: real, b: real, k: real)
    requires a > b && k > 0.0
    ensures a * k > b * k
  {
  }

  lemma Spread(q: real, k: real)
    ensures (q + 1.0 - GUARD) * k == q * k + k - GUARD * k
  {
  }

  /** Below 100000 frames a slot the guard never reaches into the next slot. */
  lemma SlotOfPosition(x: real, k: nat, q: nat, r: nat)
    requires 1 <= k < 100000 && r < k && x * k as real == q as real * k as real + r as real
    ensures (x + GUARD).Floor == q
  {
    var kk, qq := k as real, q as real;
    assert GUARD * kk < 1.0 && r as real <= kk - 1.0;
    if x < qq { ScaleStrict(qq, x, kk); assert false; }
    if x + GUARD >= qq + 1.0 {
      Scale(x, qq + 1.0 - GUARD, kk);
      Spread(qq, kk);
      assert false;
    }
  }

  /** From 100000 on it does: the last frame of a slot already counts for the next one. */
  lemma GuardReachesOver(x: real, k: nat)
    requires k >= 100000 && x * k as real == k as real - 1.0
    ensures (x + GUARD).Floor >= 1
  {
    assert GUARD * k as real >= 1.0;
    Spread(0.0, k as real);
    if x + GUARD < 1.0 {
      ScaleStrict(1.0 - GUARD, x, k as real);
      assert false;
    }
  }

  lemma ExactSlot(times: seq<real>, source: real, fps: real, k: nat, i: nat)
    requires Exact(times, source) && fps > 0.0 && k >= 1 && Ratio(source, fps, k) && i < |times|
    ensures k < 100000 ==> Slot(times, fps, i) == i / k
    ensures k >= 100000 && i == k - 1 ==> Slot(times, fps, i) >= 1
  {
    var x := Relative(times, i) * fps;
    PositionTimesRatio(Relative(times, i), fps, k as real, source, i as real);
    if k < 100000 {
      var q, r := i / k, i % k;
      QuotientParts(q, k, r, i);
      SlotOfPosition(x, k, q, r);
    } else if i == k - 1 {
      GuardReachesOver(x, k);
    }
  }

  lemma QuotientParts(q: nat, k: nat, r: nat, i: nat)
    requires k >= 1 && q == i / k && r == i % k
    ensures i as real == q as real * k as real + r as real
  {
    assert i == q * k + r;
    assert (q * k) as real == q as real * k as real;
  }

  lemma Quotients(n: nat, k: nat)
    requires k >= 1 && n >= 1
    ensures n / k == (n - 1) / k + if n % k == 0 then 1 else 0
  {
    var q, r := (n - 1) / k, (n - 1) % k;
    assert n - 1 == q * k + r;
    if r + 1 < k {
      DivisionIs(n, k, q, r + 1);
    } else {
      assert n == (q + 1) * k;
      DivisionIs(n, k, q + 1, 0);
    }
  }

  lemma DivisionIs(n: nat, k: nat, q: nat, r: nat)
    requires r < k && n == q * k + r
    ensures n / k == q && n % k == r
  {
    if n / k < q { Step(n / k, q, k); assert false; }
    if n / k > q { Step(q, n / k, k); assert false; }
  }

  lemma Step(a: nat, b: nat, k: nat)
    requires a < b
    ensures a * k + k <= b * k
  {
    assert (a + 1) * k <= b * k;
  }

  /** What `framestep=k` keeps. */
  predicate EveryKth(i: nat, k: nat)
    requires k >= 1
  {
    i % k == 0
  }

  /** Below 100000 the software relay keeps every k-th frame. */
  lemma {:induction false} KeepsEveryKth(times: seq<real>, source: real, fps: real, k: nat, n: nat)
    requires Exact(times, source) && fps > 0.0 && 1 <= k < 100000 && Ratio(source, fps, k) && n <= |times|
    ensures forall i | 0 <= i < n :: Keeps(times, fps, i) <==> EveryKth(i, k)
    ensures LastSlot(times, fps, n) == if n == 0 then -1 else (n - 1) / k
    decreases n
  {
    if n > 0 {
      KeepsEveryKth(times, source, fps, k, n - 1);
      ExactSlot(times, source, fps, k, n - 1);
      if n > 1 { Quotients(n - 1, k); }
      hide Slot, Exact;
    }
  }

  lemma {:induction false} OnlyFirstKept(times: seq<real>, fps: real, n: nat)
    requires 1 <= n <= |times| && fps != 0.0 && forall i | 0 < i < n :: !Keeps(times, fps, i)
    ensures LastSlot(times, fps, n) == 0
    decreases n
  {
    FirstFrame(times, fps);
    hide Slot;
    if n > 1 {
      OnlyFirstKept(times, fps, n - 1);
      assert !Keeps(times, fps, n - 1);
    }
  }

  /** From 100000 on it keeps a frame in between. */
  lemma KeepsAnotherToo(times: seq<real>, source: real, fps: real, k: nat)
    requires Exact(times, source) && fps > 0.0 && k >= 100000 && Ratio(source, fps, k) && |times| >= k
    ensures exists i :: 0 < i < k && Keeps(times, fps, i)
  {
    ExactSlot(times, source, fps, k, k - 1);
    hide Slot, Exact, Ratio;
    if forall i | 0 < i < k - 1 :: !Keeps(times, fps, i) {
      OnlyFirstKept(times, fps, k - 1);
      assert Keeps(times, fps, k - 1);
    }
  }

  lemma InBetween(i: nat, k: nat)
    requires 0 < i < k
    ensures !EveryKth(i, k)
  {
  }

  /** For exact source times and an integer ratio k the software relay keeps exactly the frames that
      `framestep=k` keeps if and only if k is below 100000. */
  lemma MatchesFramestepIff(times: seq<real>, source: real, fps: real, k: nat)
    requires Exact(times, source) && fps > 0.0 && FrameStep(source, fps) == Some(k) && |times| >= k
    ensures k >= 1
    ensures (forall i | 0 <= i < |times| :: Keeps(times, fps, i) <==> EveryKth(i, k)) <==> k < 100000
  {
    hide Slot, Exact, FrameStep, Keeps, Ratio, EveryKth;
    FrameStepIsRatio(source, fps, k);
    if k < 100000 {
      KeepsEveryKth(times, source, fps, k, |times|);
    } else {
      KeepsAnotherToo(times, source, fps, k);
      var i :| 0 < i < k && Keeps(times, fps, i);
      InBetween(i, k);
    }
  }

  // -------------------------------------------------------------- timestamps

  lemma RoundsApart(x: real, y: real)
    requires y - x > 1.0 || (y - x == 1.0 && x.Floor as real == x)
    ensures RoundHalfEven(x) < RoundHalfEven(y)
  {
  }

  /** The time of the i-th frame in ticks, `d` being the ticks of one frame. */
  function TickOf(i: int, d: real): real { i as real * d }

  lemma Ticks(relative: real, source: real, i: int, d: real)
    requires relative * source == i as real && d * source == CLOCK
    ensures relative * CLOCK == TickOf(i, d)
  {
    assert relative * (d * source) == (relative * source) * d;
  }

  lemma TickStep(d: real, i: int)
    requires d >= 1.0
    ensures RoundHalfEven(TickOf(i - 1, d)) < RoundHalfEven(TickOf(i, d))
  {
    hide RoundHalfEven;
    var x, y := (i - 1) as real * d, i as real * d;
    assert y - x == d by { Distribute(i as real, d); }
    if d == 1.0 { assert x == (i - 1) as real; }
    RoundsApart(x, y);
  }

  lemma Distribute(i: real, d: real)
    ensures i * d - (i - 1.0) * d == d
  {
  }

  lemma Period(source: real)
    requires 0.0 < source <= CLOCK
    ensures CLOCK / source >= 1.0
  {
  }

  lemma TickAt(times: seq<real>, source: real, d: real, i: nat)
    requires Exact(times, source) && i < |times| && d == CLOCK / source
    ensures Pts(times, i) == RoundHalfEven(TickOf(i, d))
  {
    hide RoundHalfEven, TickOf;
    Restores(CLOCK, source);
    Ticks(Relative(times, i), source, i, d);
  }

  lemma TickPair(times: seq<real>, source: real, d: real, i: nat)
    requires Exact(times, source) && 0 < i < |times| && d == CLOCK / source && d >= 1.0
    ensures Pts(times, i - 1) < Pts(times, i)
  {
    hide RoundHalfEven, Exact, Pts, TickOf;
    TickAt(times, source, d, i - 1);
    TickAt(times, source, d, i);
    TickStep(d, i);
  }

  /** At exact times and at most 90000 frames a second the timestamp error never occurs. */
  lemma NoTimestampError(times: seq<real>, source: real)
    requires Exact(times, source) && source <= CLOCK
    ensures Advancing(times, |times|)
  {
    Period(source);
    hide Exact, Pts;
    forall i | 0 < i < |times| ensures Pts(times, i - 1) < Pts(times, i) {
      TickPair(times, source, CLOCK / source, i);
    }
  }
}
