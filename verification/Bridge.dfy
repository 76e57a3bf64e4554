/** The navigation bridge's correction state
    (correction_service/extnav_patch/extnav_to_vision_pose.py, class OdometryBridge).

    `State` and the step functions say what each callback does to the fields; class
    `OdometryBridge` is the object that does it in place. Every callback runs alone.
 */
module Bridge {
  import opened Reals
  import opened Options

  /** The empty job id, an id made by the calibration service, or one made by another writer. */
  datatype JobId = NoJob | Ours(serial: nat) | Foreign(tag: nat)

  /** A requested or active planar correction; the yaw is already wrapped. */
  datatype Values = Values(x: real, y: real, yaw: real)

  const IDENTITY_VALUES := Values(0.0, 0.0, 0.0)

  /** Session 0 stands for the empty session id. */
  const NO_SESSION: nat := 0

  /** What `latest_output` says about the correction it was computed under. */
  datatype Sample = Sample(valid: bool, revision: nat, session: nat)

  datatype LastError = NoError | WrongFrame | OtherError

  datatype State = State(
    available: bool, session: nat,
    valid: bool, values: Values, revision: nat, resets: nat, job: JobId,
    output: Option<Sample>, lastRaw: real, lastStamp: int, lastError: LastError)

  const START := State(false, NO_SESSION, false, IDENTITY_VALUES, 0, 0, NoJob, None, 0.0, 0, NoError)

  /** The authoritative part of a published status message. */
  datatype Status = Status(
    available: bool, session: nat, valid: bool, revision: nat, values: Values, job: JobId, sample: Option<Sample>)

  function StatusOf(s: State): Status {
    Status(s.available, s.session, s.valid, s.revision, s.values, s.job, s.output)
  }

  /** One raw odometry message: whether its frames are odom<-fcu, when it arrived, its stamp, the
      session id that would be minted for it, and whether the two computations on it succeed. */
  datatype Raw = Raw(frames: bool, now: real, stamp: int, mint: nat, componentsOk: bool, transformOk: bool)

  datatype Request = Request(
    job: JobId, session: nat, expected: int, valid: bool, values: Values,
    sampleCount: nat, positionStd: real, yawStd: real, reprojection: real, matchError: real)

  datatype Response = Response(accepted: bool, applied: bool, revision: nat, session: nat)

  /** A state together with the statuses published on the way to it. */
  datatype Moved = Moved(state: State, published: seq<Status>)

  datatype Limits = Limits(sessionGap: real, maximumTranslation: real)
  {
    /** What the constructor demands. */
    predicate Valid() { sessionGap > 0.0 && maximumTranslation > 0.0 }
  }

  // ---------------------------------------------------------- step functions

  function Advanced(s: State): State {
    s.(revision := s.revision + 1, resets := (s.resets + 1) % 256)
  }

  /** `_invalidate`: back to identity. */
  function Invalidated(s: State, error: LastError): State {
    (if s.valid then Advanced(s) else s).(
      valid := false, values := IDENTITY_VALUES, job := NoJob, output := None, lastError := error)
  }

  function Invalidate(s: State, error: LastError): Moved {
    Moved(Invalidated(s, error), [StatusOf(Invalidated(s, error))])
  }

  /** `_begin_odin_session`: the old correction goes before the new session id appears. */
  function BeginSession(s: State, mint: nat): Moved {
    var m := if s.valid then Invalidate(s, OtherError) else Moved(s, []);
    var t := m.state.(session := mint, available := true, lastError := NoError);
    Moved(t, m.published + [StatusOf(t)])
  }

  function Gap(s: State, now: real): real { if s.lastRaw > 0.0 then now - s.lastRaw else 0.0 }

  predicate LateOrDuplicate(s: State, raw: Raw, limits: Limits) {
    s.lastStamp > 0 && raw.stamp > 0
    && (raw.stamp == s.lastStamp || (raw.stamp < s.lastStamp && Gap(s, raw.now) <= limits.sessionGap))
  }

  predicate NewSession(s: State, raw: Raw, limits: Limits) {
    !s.available || s.session == NO_SESSION || Gap(s, raw.now) > limits.sessionGap
  }

  /** The tail of `_odom_cb`: project the sample under the correction captured at its start. */
  function Project(s: State, raw: Raw): Moved {
    var m := if s.valid && !raw.componentsOk then Invalidate(s, OtherError) else Moved(s, []);
    var captured := Sample(m.state.valid, m.state.revision, m.state.session);
    if raw.transformOk then
      Moved(m.state.(output := Some(captured)), m.published)
    else
      var n := Invalidate(m.state, OtherError);
      Moved(n.state.(output := None), m.published + n.published)
  }

  /** `_odom_cb`. */
  function OnRaw(s: State, raw: Raw, limits: Limits): Moved {
    if !raw.frames then
      var t := s.(available := false, session := NO_SESSION);
      if s.lastError != WrongFrame || s.output.Some? || s.valid then Invalidate(t, WrongFrame) else Moved(t, [])
    else if LateOrDuplicate(s, raw, limits) then Moved(s, [])
    else
      var m := if NewSession(s, raw, limits) then BeginSession(s, raw.mint) else Moved(s, []);
      var n := Project(m.state.(lastRaw := raw.now, lastStamp := raw.stamp, available := true), raw);
      Moved(n.state, m.published + n.published)
  }

  function Answer(s: State, accepted: bool, applied: bool): Response {
    Response(accepted, applied, s.revision, s.session)
  }

  predicate GoodQuality(r: Request) {
    r.positionStd >= 0.0 && r.yawStd >= 0.0 && r.reprojection >= 0.0 && r.matchError >= 0.0
  }

  predicate WithinLimit(r: Request, limits: Limits) {
    Sq(r.values.x) + Sq(r.values.y) <= Sq(limits.maximumTranslation)
  }

  /** The same job, session and values are already active. */
  predicate AlreadyApplied(s: State, r: Request) {
    r.valid && r.job == s.job && r.session == s.session && s.valid && r.values == s.values
  }

  predicate Appliable(s: State, r: Request, limits: Limits) {
    r.valid && r.expected == s.revision && s.available && s.session != NO_SESSION && r.session == s.session
    && GoodQuality(r) && r.sampleCount > 0 && WithinLimit(r, limits)
  }

  predicate Clearable(s: State, r: Request) {
    !r.valid && r.expected == s.revision && (r.session == NO_SESSION || r.session == s.session)
  }

  function Applied(s: State, r: Request): State {
    Advanced(s).(valid := true, values := r.values, job := r.job, output := None, lastError := NoError)
  }

  function Cleared(s: State): State {
    (if s.valid then Advanced(s) else s).(
      valid := false, values := IDENTITY_VALUES, job := NoJob, output := None, lastError := NoError)
  }

  /** `_set_correction`: compare-and-swap on session and revision. */
  function SetCorrection(s: State, r: Request, limits: Limits): (Moved, Response) {
    if AlreadyApplied(s, r) then (Moved(s, []), Answer(s, true, true))
    else if Clearable(s, r) then (Moved(Cleared(s), [StatusOf(Cleared(s))]), Answer(Cleared(s), true, false))
    else if Appliable(s, r, limits) then (Moved(Applied(s, r), [StatusOf(Applied(s, r))]), Answer(Applied(s, r), true, true))
    else (Moved(s, []), Answer(s, false, false))
  }

  /** `_status_timer_callback`. */
  function OnTimer(s: State, now: real, limits: Limits): Moved {
    if s.lastRaw > 0.0 && now - s.lastRaw > limits.sessionGap && s.available then
      var t := s.(available := false, session := NO_SESSION, output := None);
      var m := if t.valid then Invalidate(t, OtherError) else Moved(t, []);
      Moved(m.state, m.published + [StatusOf(m.state)])
    else Moved(s, [StatusOf(s)])
  }

  // ---------------------------------------------------------------- the object

  class OdometryBridge {
    const limits: Limits
    var available: bool
    var session: nat
    var valid: bool
    var values: Values
    var revision: nat
    var resets: nat
    var job: JobId
    var output: Option<Sample>
    var lastRaw: real
    var lastStamp: int
    var lastError: LastError
    /** Every status published so far, oldest first. */
    var published: seq<Status>

    function View(): State
      reads this
    {
      State(available, session, valid, values, revision, resets, job, output, lastRaw, lastStamp, lastError)
    }

    constructor (limits: Limits)
      requires limits.Valid()
      ensures this.limits == limits && View() == START && published == []
    {
      this.limits := limits;
      available, session := false, NO_SESSION;
      valid, values, revision, resets, job := false, IDENTITY_VALUES, 0, 0, NoJob;
      output, lastRaw, lastStamp, lastError := None, 0.0, 0, NoError;
      published := [];
    }

    method PublishStatus()
      modifies this`published
      ensures published == old(published) + [StatusOf(View())]
    {
      published := published + [Status(available, session, valid, revision, values, job, output)];
    }

    method AdvanceRevision()
      modifies this`revision, this`resets
      ensures View() == Advanced(old(View()))
    {
      revision := revision + 1;
      resets := (resets + 1) % 256;
    }

    method InvalidateNow(error: LastError)
      modifies this
      ensures View() == Invalidate(old(View()), error).state
      ensures published == old(published) + Invalidate(old(View()), error).published
    {
      if valid {
        AdvanceRevision();
      }
      valid, values, job, output, lastError := false, IDENTITY_VALUES, NoJob, None, error;
      PublishStatus();
    }

    method BeginOdinSession(mint: nat)
      modifies this
      ensures View() == BeginSession(old(View()), mint).state
      ensures published == old(published) + BeginSession(old(View()), mint).published
    {
      if valid {
        InvalidateNow(OtherError);
      }
      session, available, lastError := mint, true, NoError;
      PublishStatus();
    }

    method OdomCallback(raw: Raw)
      modifies this
      ensures View() == OnRaw(old(View()), raw, limits).state
      ensures published == old(published) + OnRaw(old(View()), raw, limits).published
    {
      hide Project, BeginSession, Invalidate;
      if !raw.frames {
        available, session := false, NO_SESSION;
        if lastError != WrongFrame || output.Some? || valid {
          InvalidateNow(WrongFrame);
        }
        return;
      }
      var gap := if lastRaw > 0.0 then raw.now - lastRaw else 0.0;
      if lastStamp > 0 && raw.stamp > 0
         && (raw.stamp == lastStamp || (raw.stamp < lastStamp && gap <= limits.sessionGap)) {
        return;
      }
      if !available || session == NO_SESSION || gap > limits.sessionGap {
        BeginOdinSession(raw.mint);
      }
      lastRaw, lastStamp, available := raw.now, raw.stamp, true;
      ProjectSample(raw);
    }

    /** The part of `_odom_cb` that freezes one output sample. */
    method ProjectSample(raw: Raw)
      modifies this
      ensures View() == Project(old(View()), raw).state
      ensures published == old(published) + Project(old(View()), raw).published
    {
      if valid && !raw.componentsOk {
        InvalidateNow(OtherError);
      }
      var captured := Sample(valid, revision, session);
      if raw.transformOk {
        output := Some(captured);
      } else {
        InvalidateNow(OtherError);
        output := None;
      }
    }

    method SetCorrectionCallback(r: Request) returns (response: Response)
      modifies this
      ensures View() == SetCorrection(old(View()), r, limits).0.state
      ensures published == old(published) + SetCorrection(old(View()), r, limits).0.published
      ensures response == SetCorrection(old(View()), r, limits).1
    {
      hide Sq, Applied, Cleared;
      if r.valid && r.job == job && r.session == session && valid && r.values == values {
        return Response(true, true, revision, session);
      }
      response := Response(false, false, revision, session);
      if r.expected != revision {
        return;
      }
      if !r.valid {
        if r.session != NO_SESSION && r.session != session {
          return;
        }
        ClearCorrection();
        return Response(true, false, revision, session);
      }
      if !available || session == NO_SESSION {
        return;
      }
      if r.session != session {
        return;
      }
      if !(r.positionStd >= 0.0 && r.yawStd >= 0.0 && r.reprojection >= 0.0 && r.matchError >= 0.0) {
        return;
      }
      if r.sampleCount == 0 {
        return;
      }
      if Sq(r.values.x) + Sq(r.values.y) > Sq(limits.maximumTranslation) {
        return;
      }
      ApplyCorrection(r);
      response := Response(true, true, revision, session);
    }

    /** The end of `_set_correction` for a correction, and for its removal. */
    method ApplyCorrection(r: Request)
      modifies this
      ensures View() == Applied(old(View()), r) && published == old(published) + [StatusOf(View())]
    {
      valid, values, job, output := true, r.values, r.job, None;
      AdvanceRevision();
      lastError := NoError;
      PublishStatus();
    }

    method ClearCorrection()
      modifies this
      ensures View() == Cleared(old(View())) && published == old(published) + [StatusOf(View())]
    {
      if valid {
        AdvanceRevision();
      }
      valid, values, job, output, lastError := false, IDENTITY_VALUES, NoJob, None, NoError;
      PublishStatus();
    }

    method StatusTimerCallback(now: real)
      modifies this
      ensures View() == OnTimer(old(View()), now, limits).state
      ensures published == old(published) + OnTimer(old(View()), now, limits).published
    {
      if lastRaw > 0.0 && now - lastRaw > limits.sessionGap && available {
        available, session, output := false, NO_SESSION, None;
        if valid {
          InvalidateNow(OtherError);
        }
      }
      PublishStatus();
    }
  }

  // ------------------------------------------------------------ the invariant

  /** What holds at every callback boundary. */
  ghost predicate Inv(s: State) {
    && (s.available <==> s.session != NO_SESSION)
    && (s.valid ==> s.session != NO_SESSION)
    && (!s.valid ==> s.values == IDENTITY_VALUES && s.job == NoJob)
    && (s.output.Some? ==> s.output.value == Sample(s.valid, s.revision, s.session))
    && s.resets == s.revision % 256
  }

  /** What any number of callbacks keep: revisions never decrease, a revision determines the active
      correction and its job, and an active correction never outlives its session. */
  ghost predicate Onward(s: State, t: State) {
    && s.revision <= t.revision
    && (s.revision == t.revision ==> s.valid == t.valid && s.values == t.values && s.job == t.job)
    && (s.revision == t.revision && s.valid ==> s.session == t.session)
  }

  datatype Event =
    | RawArrives(raw: Raw)
    | RequestArrives(request: Request)
    | TimerFires(now: real)

  ghost predicate Mints(e: Event) { e.RawArrives? ==> e.raw.mint != NO_SESSION }

  function Step(s: State, e: Event, limits: Limits): Moved {
    match e
    case RawArrives(raw) => OnRaw(s, raw, limits)
    case RequestArrives(r) => SetCorrection(s, r, limits).0
    case TimerFires(now) => OnTimer(s, now, limits)
  }

  /** The fields a step may pass through between two callback boundaries: as `Inv`, but the output
      sample may be out of date while a callback is about to replace it. */
  ghost predicate Partial(s: State) {
    && (s.valid ==> s.available && s.session != NO_SESSION)
    && (!s.valid ==> s.values == IDENTITY_VALUES && s.job == NoJob)
    && s.resets == s.revision % 256
  }

  lemma AdvancedResets(s: State)
    requires s.resets == s.revision % 256
    ensures Advanced(s).resets == Advanced(s).revision % 256
  {
  }

  lemma InvalidateKeeps(s: State, error: LastError)
    requires s.resets == s.revision % 256
    requires !s.valid ==> s.values == IDENTITY_VALUES && s.job == NoJob
    ensures var t := Invalidated(s, error);
      Partial(t) && !t.valid && t.output == None && t.session == s.session && t.available == s.available
      && s.revision <= t.revision && (s.valid ==> s.revision < t.revision) && (!s.valid ==> s.revision == t.revision)
  {
  }

  lemma BeginKeeps(s: State, mint: nat)
    requires Partial(s) && mint != NO_SESSION
    ensures var t := BeginSession(s, mint).state;
      Partial(t) && Onward(s, t) && !t.valid && t.available && t.session == mint
  {
  }

  lemma ProjectKeeps(s: State, raw: Raw)
    requires Partial(s) && s.available && s.session != NO_SESSION
    ensures Inv(Project(s, raw).state) && Onward(s, Project(s, raw).state)
  {
    hide Invalidated;
    InvalidateKeeps(s, OtherError);
    var m := if s.valid && !raw.componentsOk then Invalidate(s, OtherError) else Moved(s, []);
    InvalidateKeeps(m.state, OtherError);
  }

  lemma RawKeeps(s: State, raw: Raw, limits: Limits)
    requires Inv(s) && raw.mint != NO_SESSION
    ensures Inv(OnRaw(s, raw, limits).state) && Onward(s, OnRaw(s, raw, limits).state)
  {
    hide Invalidated, BeginSession, Project, LateOrDuplicate, Gap;
    if !raw.frames {
      InvalidateKeeps(s.(available := false, session := NO_SESSION), WrongFrame);
    } else if !LateOrDuplicate(s, raw, limits) {
      BeginKeeps(s, raw.mint);
      var m := if NewSession(s, raw, limits) then BeginSession(s, raw.mint) else Moved(s, []);
      ProjectKeeps(m.state.(lastRaw := raw.now, lastStamp := raw.stamp, available := true), raw);
    }
  }

  lemma SetKeeps(s: State, r: Request, limits: Limits)
    requires Inv(s)
    ensures Inv(SetCorrection(s, r, limits).0.state) && Onward(s, SetCorrection(s, r, limits).0.state)
  {
    hide GoodQuality, WithinLimit;
    AdvancedResets(s);
  }

  lemma TimerKeeps(s: State, now: real, limits: Limits)
    requires Inv(s)
    ensures Inv(OnTimer(s, now, limits).state) && Onward(s, OnTimer(s, now, limits).state)
  {
  }

  lemma StepKeepsInv(s: State, e: Event, limits: Limits)
    requires Inv(s) && Mints(e)
    ensures Inv(Step(s, e, limits).state) && Onward(s, Step(s, e, limits).state)
  {
    hide OnRaw, SetCorrection, OnTimer, Inv, Onward;
    match e
    case RawArrives(raw) => RawKeeps(s, raw, limits);
    case RequestArrives(r) => SetKeeps(s, r, limits);
    case TimerFires(now) => TimerKeeps(s, now, limits);
  }

  /** The state after a run of callbacks. */
  function Run(s: State, events: seq<Event>, limits: Limits): State
    decreases |events|
  {
    if events == [] then s else Run(Step(s, events[0], limits).state, events[1..], limits)
  }

  lemma {:induction false} RunKeepsInv(s: State, events: seq<Event>, limits: Limits)
    requires Inv(s) && forall e | e in events :: Mints(e)
    ensures Inv(Run(s, events, limits)) && Onward(s, Run(s, events, limits))
    decreases |events|
  {
    if events != [] {
      hide Step;
      StepKeepsInv(s, events[0], limits);
      RunKeepsInv(Step(s, events[0], limits).state, events[1..], limits);
    }
  }

  /** Over every run from start-up: the invariant, and every pair of moments ordered by `Onward`. */
  lemma RevisionDetermines(before: seq<Event>, between: seq<Event>, limits: Limits)
    requires forall e | e in before + between :: Mints(e)
    ensures var s, t := Run(START, before, limits), Run(START, before + between, limits);
      Inv(s) && Inv(t) && Onward(s, t)
  {
    hide Step;
    assert forall e | e in before :: e in before + between;
    assert forall e | e in between :: e in before + between;
    RunKeepsInv(START, before, limits);
    RunAppends(START, before, between, limits);
    RunKeepsInv(Run(START, before, limits), between, limits);
  }

  lemma {:induction false} RunAppends(s: State, a: seq<Event>, b: seq<Event>, limits: Limits)
    ensures Run(s, a + b, limits) == Run(Run(s, a, limits), b, limits)
    decreases |a|
  {
    hide Step;
    if a == [] {
      assert a + b == b;
    } else {
      assert (a + b)[1..] == a[1..] + b;
      RunAppends(Step(s, a[0], limits).state, a[1..], b, limits);
    }
  }

  /** Compare-and-swap: an accepted request that changes the correction met the current session and
      revision, and one that is refused changes nothing. */
  lemma CompareAndSwap(s: State, r: Request, limits: Limits)
    requires Inv(s)
    ensures var (m, a) := SetCorrection(s, r, limits);
      && (m.state.revision != s.revision ==> a.accepted && r.expected == s.revision && m.state.revision == s.revision + 1)
      && (a.applied ==> a.accepted && m.state.valid && m.state.values == r.values && m.state.job == r.job
                        && m.state.session == r.session == s.session && a.revision == m.state.revision)
      && (a.accepted && !a.applied ==> !m.state.valid && !r.valid)
      && (!a.accepted ==> m.state == s && m.published == [])
  {
  }
}
