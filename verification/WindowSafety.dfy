/** What every section of the calibration service keeps about its window and its candidates.

    A candidate that outlives an invalidated window is harmless for one of two reasons: its window
    revision is stale, or its session is dead. `rank` measures sessions: an authoritative status
    with session s has rank 2s, one without a session has an odd rank, and the ranks a service
    hears never decrease, so a session is dead for good once a higher rank was heard.
 */
module WindowSafety {
  import opened Options
  import opened Bridge
  import opened Service
  import R = Registration

  /** The configuration a run is started with. */
  datatype Rules = Rules(root: real -> real, settings: R.Settings, limits: Limits, maximumSize: nat)
  {
    predicate Valid() { settings.Valid() && limits.Valid() && maximumSize >= 2 }
  }

  predicate Dead(session: nat, rank: nat) { rank > 2 * session }

  predicate RankFits(session: nat, rank: nat) {
    if session != NO_SESSION then rank == 2 * session else rank == 0 || rank % 2 == 1
  }

  // ------------------------------------------------------------- the window

  /** Every gate on a window: distinct Tags, one session, configuration and time source, and the
      baseline gates on every pair. */
  ghost predicate Sound(window: seq<Keyframe>, rules: Rules)
    requires rules.Valid()
  {
    && R.DistinctTags(window) && R.OneSession(window) && R.OneConfig(window) && R.OneTimeSource(window)
    && R.AllPairsPass(rules.root, rules.settings, window)
  }

  /** What a new keyframe must meet to be frozen into a candidate: the first one nothing, a later one
      the registration of the extended window. */
  ghost predicate Registered(operation: Operation, window: seq<Keyframe>, k: Keyframe, rules: Rules)
    requires rules.Valid()
  {
    operation.First? || (R.Coherent(window + [k]) && R.AllPairsPass(rules.root, rules.settings, window + [k]))
  }

  /** An unsaved candidate is the current window with one more keyframe, cut to size. */
  ghost predicate Extends(w: Window, c: Candidate, rules: Rules)
    requires rules.Valid() && c.keyframes != []
  {
    var k := c.keyframes[|c.keyframes| - 1];
    c.keyframes == R.Last(w.keyframes + [k], w.size) && Sound(w.keyframes + [k], rules) && k.session == c.session
  }

  /** What a candidate that is still around has to do with the window. */
  ghost predicate Backed(w: Window, c: Candidate, rank: nat, rules: Rules)
    requires rules.Valid()
  {
    && c.keyframes != [] && c.session != NO_SESSION && Base(c) <= w.revision
    && (Base(c) == w.revision ==>
          if c.saved then Dead(c.session, rank) || c.keyframes == w.keyframes else Extends(w, c, rules))
  }

  // ---------------------------------------------------------- the invariant

  ghost predicate SnapshotInv(m: Snapshot, rank: nat) {
    && RankFits(m.status.session, rank)
    && if m.heard then m.version.SameVersion? && m.service && (m.status.available <==> m.status.session != NO_SESSION)
       else m == SILENT
  }

  /** The window is the last `size` keyframes accepted since it was last invalidated, and meets every
      gate; its session is the one last heard. */
  ghost predicate WindowInv(w: Window, session: nat, rules: Rules)
    requires rules.Valid()
  {
    && w.size >= 2
    && w.keyframes == R.Last(w.accepted, w.size) && w.successes == |w.accepted|
    && Sound(w.keyframes, rules)
    && (forall k | k in w.keyframes :: k.session == session)
    && (w.keyframes != [] ==> session != NO_SESSION)
  }

  ghost predicate LatchInv(w: Window, saved: Option<Candidate>, pending: Option<Candidate>, rank: nat, rules: Rules)
    requires rules.Valid()
  {
    && (saved.Some? ==> saved.value.saved && Backed(w, saved.value, rank, rules))
    && (pending.Some? ==> Backed(w, pending.value, rank, rules))
  }

  predicate Unfinished(p: Phase) { !p.Finishing? && !p.Ending? && !p.Dead? }

  predicate Early(p: Phase) { p.Collecting? || p.Releasing? || p.Saving? || p.Beginning? }

  /** Has the worker not yet passed the point where it sends? */
  predicate BeforeSending(p: Phase) { Early(p) || p.Checking? || p.Discovering? || p.Sending? }

  /** From the moment the request left until the outcome is booked. */
  predicate Asked(p: Phase) { p.Waiting? || p.Confirming? || (p.Settling? && p.outcome.Applied()) }

  predicate Refusing(p: Phase) { p.Settling? && p.outcome.Rejected? }

  /** The candidate of a job that has not been booked yet. */
  ghost predicate HeldInv(w: Window, task: Task, c: Candidate, rank: nat, rules: Rules)
    requires rules.Valid()
  {
    Backed(w, c, rank, rules) && c.session == task.session && Base(c) == task.baseWindow && task.increment == !c.saved
  }

  ghost predicate TaskInv(w: Window, task: Task, rank: nat) {
    && task.baseWindow <= w.revision && task.session != NO_SESSION && 2 * task.session <= rank
    && (!task.operation.ApplySaved? ==>
          task.increment && !task.retrying && task.size == w.size
          && (task.operation.First? && w.revision == task.baseWindow ==> w.keyframes == []))
  }

  ghost predicate PhaseInv(w: Window, j: Job, rank: nat) {
    && (j.task.operation.ApplySaved? ==> j.candidate.Some? && j.task.apply)
    && (j.phase.Saving? ==> !j.task.apply)
    && (j.phase.Collecting? || (j.phase.Releasing? && j.phase.failed) || j.candidate.Some?)
    && (Asked(j.phase) ==> w.revision == j.task.baseWindow || Dead(j.task.session, rank))
    && (Refusing(j.phase) ==> !j.task.retrying)
  }

  /** A latched candidate is the one the running job works on. */
  predicate PendingInv(pending: Option<Candidate>, j: Job) {
    pending.Some? ==>
      if Early(j.phase) then j.task.retrying && j.candidate.Some? && pending.value.epoch == j.candidate.value.epoch
      else pending == j.candidate
  }

  ghost predicate JobInv(w: Window, pending: Option<Candidate>, j: Job, rank: nat, rules: Rules)
    requires rules.Valid()
  {
    && (j.active <==> !j.phase.Ending? && !j.phase.Dead?)
    && (Unfinished(j.phase) ==>
          && TaskInv(w, j.task, rank) && PhaseInv(w, j, rank) && PendingInv(pending, j)
          && (j.candidate.Some? ==> HeldInv(w, j.task, j.candidate.value, rank, rules)))
  }

  /** The capture is open only while a job collects or releases. */
  predicate CaptureInv(capture: bool, job: Option<Job>) {
    capture ==> job.Some? && (job.value.phase.Collecting? || job.value.phase.Releasing?)
  }

  /** The part of the invariant that no status is read for. */
  ghost predicate WorkInv(s: Service.State, rank: nat, rules: Rules)
    requires rules.Valid()
  {
    && LatchInv(s.window, s.saved, s.pending, rank, rules) && CaptureInv(s.capture, s.job)
    && (s.job.Some? ==> JobInv(s.window, s.pending, s.job.value, rank, rules))
  }

  ghost predicate Inv(s: Service.State, rank: nat, rules: Rules)
    requires rules.Valid()
  {
    SnapshotInv(s.extnav, rank) && WindowInv(s.window, s.extnav.status.session, rules) && WorkInv(s, rank, rules)
  }

  // ------------------------------------------------- sections that move no window

  /** Nothing changed but the desk, shutdown and the requests to stop or fail. */
  ghost predicate Calm(s: Service.State, t: Service.State) {
    && t.window == s.window && t.saved == s.saved && t.pending == s.pending && t.extnav == s.extnav
    && t.config == s.config && t.capture == s.capture && t.resourceFault == s.resourceFault
    && t.nextSerial == s.nextSerial && t.nextEpoch == s.nextEpoch && (s.closing ==> t.closing)
    && (s.job.None? <==> t.job.None?)
    && (s.job.Some? ==> CalmJob(s.job.value, t.job.value))
  }

  predicate CalmStops(a: Stops, b: Stops) {
    (a.user ==> b.user) && (a.event ==> b.event) && (a.failed ==> b.failed)
  }

  ghost predicate CalmJob(j: Job, k: Job) {
    && k.task == j.task && k.active == j.active && k.candidate == j.candidate && k.sent == j.sent
    && k.windowSaved == j.windowSaved && k.application == j.application && k.phase == j.phase
    && CalmStops(j.stops, k.stops)
  }

  lemma CalmKeeps(s: Service.State, t: Service.State, rank: nat, rules: Rules)
    requires rules.Valid() && Inv(s, rank, rules) && Calm(s, t)
    ensures Inv(t, rank, rules)
  {
  }

  lemma CalmChain(s: Service.State, t: Service.State, u: Service.State)
    requires Calm(s, t) && Calm(t, u)
    ensures Calm(s, u)
  {
  }

  lemma RequestStopIsCalm(s: Service.State)
    ensures Calm(s, RequestStop(s))
  {
  }

  lemma ReleaseOwnerIsCalm(s: Service.State)
    ensures Calm(s, ReleaseOwner(s))
  {
    var r := s.(desk := Retiring(s.desk));
    RequestStopIsCalm(r);
    hide RequestStop;
    CalmChain(s, r, RequestStop(r));
  }

  lemma ExpireOwnerIsCalm(s: Service.State, now: real)
    ensures Calm(s, ExpireOwner(s, now))
  {
    ReleaseOwnerIsCalm(s);
    hide ReleaseOwner;
  }

  lemma FailJobIsCalm(s: Service.State)
    ensures Calm(s, FailJob(s))
  {
  }

  lemma CloseIsCalm(s: Service.State)
    ensures Calm(s, Close(s))
  {
  }

  lemma AdmitIsCalm(s: Service.State, w: Write, now: real)
    ensures Calm(s, Admit(s, w, now).0)
  {
    ExpireOwnerIsCalm(s, now);
    hide ExpireOwner, MayWrite;
  }

  lemma SetOwnerIsCalm(s: Service.State, r: OwnerRequest, now: real)
    ensures Calm(s, SetOwner(s, r, now).0)
  {
    ExpireOwnerIsCalm(s, now);
    hide ExpireOwner, ReleaseOwner, MayAcquire;
    var u := Noted(ExpireOwner(s, now), r);
    ReleaseOwnerIsCalm(u);
    CalmChain(s, u, ReleaseOwner(u));
  }

  lemma StopIsCalm(s: Service.State, r: StopRequest, now: real)
    ensures Calm(s, Stop(s, r, now).0)
  {
    AdmitIsCalm(s, r.write, now);
    hide Admit, RequestStop;
    var t := Admit(s, r.write, now).0;
    RequestStopIsCalm(t);
    CalmChain(s, t, RequestStop(t));
  }

  // ------------------------------------------------------------ the window moves

  lemma EmptiedKeeps(w: Window, session: nat, rules: Rules)
    requires rules.Valid() && WindowInv(w, session, rules)
    ensures forall any: nat :: WindowInv(Emptied(w), any, rules)
  {
  }

  lemma WorkAfterInvalidating(s: Service.State, rank: nat, rules: Rules)
    requires rules.Valid() && WorkInv(s, rank, rules)
    requires s.job.Some? ==> !Asked(s.job.value.phase) || Dead(s.job.value.task.session, rank)
    ensures WorkInv(InvalidateWindow(s), rank, rules)
  {
  }

  lemma FaultKeeps(s: Service.State, invalidate: bool, rank: nat, rules: Rules)
    requires rules.Valid() && Inv(s, rank, rules)
    ensures Inv(OnFault(s, invalidate), rank, rules)
  {
    hide WindowInv, SnapshotInv, LatchInv, JobInv, FailJob, Emptied;
    if s.capture {
      WorkAfterInvalidating(s, rank, rules);
      EmptiedKeeps(s.window, s.extnav.status.session, rules);
      var t := if invalidate then InvalidateWindow(s) else s;
      FailJobIsCalm(t);
      CalmKeeps(t, FailJob(t), rank, rules);
    }
  }

  lemma WorkLater(s: Service.State, rank: nat, later: nat, rules: Rules)
    requires rules.Valid() && WorkInv(s, rank, rules) && rank <= later
    ensures WorkInv(s, later, rules)
  {
  }

  /** A status as the bridge publishes it, with the rank of its session. */
  ghost predicate Authoritative(m: Snapshot, rank: nat) {
    && m.heard && m.version.SameVersion? && m.service
    && (m.status.available <==> m.status.session != NO_SESSION)
    && RankFits(m.status.session, rank) && rank > 0
  }

  lemma AskedSessionHeard(s: Service.State, rank: nat, rules: Rules)
    requires rules.Valid() && WorkInv(s, rank, rules)
    ensures s.job.Some? && Asked(s.job.value.phase) ==> 2 * s.job.value.task.session <= rank
  {
  }

  lemma HearWindowKeeps(s: Service.State, m: Snapshot, rank: nat, later: nat, rules: Rules)
    requires rules.Valid() && Inv(s, rank, rules) && rank <= later && Authoritative(m, later)
    ensures Inv(HearWindow(s, m), later, rules)
  {
    hide Sound, LatchInv, JobInv;
    WorkLater(s, rank, later, rules);
    var t := s.(extnav := m);
    AskedSessionHeard(s, rank, rules);
    if SessionChanged(s, m.status.session) || (s.window.keyframes != [] && ExplicitlyUnavailable(m)) {
      assert later > rank;
      WorkAfterInvalidating(t, later, rules);
      EmptiedKeeps(s.window, s.extnav.status.session, rules);
    }
  }

  lemma HearKeeps(s: Service.State, m: Snapshot, rank: nat, later: nat, rules: Rules)
    requires rules.Valid() && Inv(s, rank, rules) && rank <= later && Authoritative(m, later)
    ensures Inv(OnStatus(s, m), later, rules)
    ensures OnStatus(s, m).extnav == m && Calm(HearWindow(s, m), OnStatus(s, m))
  {
    hide Inv, InvalidateWindow, ReleaseOwner, FailJob, ExplicitlyUnavailable, SessionChanged;
    var t := HearWindow(s, m);
    HearWindowKeeps(s, m, rank, later, rules);
    ReleaseOwnerIsCalm(t);
    var u := HearOwner(t, m, SessionChanged(s, m.status.session));
    FailJobIsCalm(u);
    CalmChain(t, u, HearJob(u, m));
    CalmKeeps(t, HearJob(u, m), rank := later, rules := rules);
    HearsIt(s, m);
  }

  lemma HearsIt(s: Service.State, m: Snapshot)
    ensures HearWindow(s, m).extnav == m.(heard := true)
  {
  }

  // ------------------------------------------------------------------ requests

  lemma ValidateIsCalm(s: Service.State, w: Write, now: real)
    ensures Calm(s, Validate(s, w, now).0)
    ensures Validate(s, w, now).1 ==> !JobRunning(Validate(s, w, now).0) && Validate(s, w, now).0.pending == None
  {
    AdmitIsCalm(s, w, now);
    hide Admit;
  }

  /** The inner state of a request handler: what it does after its checks. */
  lemma StartedKeeps(s: Service.State, r: StartRequest, stale: bool, capture: bool, rank: nat, rules: Rules)
    requires rules.Valid() && Inv(s, rank, rules) && s.pending == None
    requires MayStart(s.window, s.extnav, r, stale)
    ensures WindowInv(s.window.(size := r.size), s.extnav.status.session, rules)
    ensures var j := NewJob(NewTask(s, r), None, capture, if r.apply then Booked(Rejected) else NotRequested);
      Inv(s.(window := s.window.(size := r.size), nextSerial := s.nextSerial + 1, job := Some(j), capture := capture),
          rank, rules)
  {
  }

  lemma StartKeeps(
    s: Service.State, r: StartRequest, now: real, stale: bool, capture: bool, rank: nat, rules: Rules)
    requires rules.Valid() && Inv(s, rank, rules)
    ensures Inv(Start(s, r, now, stale, capture).0, rank, rules)
  {
    hide Inv, Validate, WindowInv, MayStart, NewJob, NewTask;
    var (t, ok) := Validate(s, r.write, now);
    ValidateIsCalm(s, r.write, now);
    CalmKeeps(s, t, rank, rules);
    if ok && MayStart(t.window, t.extnav, r, stale) {
      StartedKeeps(t, r, stale, capture, rank, rules);
    }
  }

  lemma IdleInvalidateKeeps(s: Service.State, rank: nat, rules: Rules)
    requires rules.Valid() && Inv(s, rank, rules) && !JobRunning(s)
    ensures Inv(InvalidateWindow(s), rank, rules)
  {
  }

  lemma ClearKeeps(s: Service.State, w: Write, now: real, rank: nat, rules: Rules)
    requires rules.Valid() && Inv(s, rank, rules)
    ensures Inv(Clear(s, w, now).0, rank, rules)
  {
    hide Inv, Validate, InvalidateWindow, JobRunning;
    var (t, ok) := Validate(s, w, now);
    ValidateIsCalm(s, w, now);
    CalmKeeps(s, t, rank, rules);
    if ok {
      IdleInvalidateKeeps(t, rank, rules);
    }
  }

  lemma ConfigureKeeps(
    s: Service.State, w: Write, config: nat, parsed: bool, now: real, rank: nat, rules: Rules)
    requires rules.Valid() && Inv(s, rank, rules)
    ensures Inv(Configure(s, w, config, parsed, now).0, rank, rules)
  {
    hide SnapshotInv, WindowInv, WorkInv, Validate, InvalidateWindow;
    var (t, ok) := Validate(s, w, now);
    ValidateIsCalm(s, w, now);
    CalmKeeps(s, t, rank, rules);
    var u := t.(config := config);
    ConfigIsNotRead(t, config, rank, rules);
    if ok && parsed && config != t.config {
      IdleInvalidateKeeps(u, rank, rules);
    }
  }

  lemma ConfigIsNotRead(s: Service.State, config: nat, rank: nat, rules: Rules)
    requires rules.Valid() && Inv(s, rank, rules)
    ensures Inv(s.(config := config), rank, rules)
  {
  }

  lemma AppliedKeeps(s: Service.State, r: ApplyRequest, stale: bool, aged: bool, capture: bool, rank: nat, rules: Rules)
    requires rules.Valid() && Inv(s, rank, rules) && AcceptsApply(s, r, stale, aged)
    ensures var c := Chosen(s).value;
      var task := Task(c.job, r.write.source, ApplySaved, -1, s.window.size, true,
                       c.session, s.extnav.status.revision, s.window.revision, !c.saved, s.pending.Some?);
      Inv(s.(job := Some(NewJob(task, Some(Attempt(s, c)), capture, Booked(Rejected))),
             nextEpoch := if s.pending.Some? then s.nextEpoch else s.nextEpoch + 1, capture := capture), rank, rules)
  {
  }

  lemma ApplyKeeps(
    s: Service.State, r: ApplyRequest, now: real, stale: bool, aged: bool, captureOk: bool, rank: nat, rules: Rules)
    requires rules.Valid() && Inv(s, rank, rules)
    ensures Inv(Apply(s, r, now, stale, aged, captureOk).0, rank, rules)
  {
    hide Inv, Admit, AcceptsApply, NewJob, Attempt;
    var (t, ok) := Admit(s, r.write, now);
    AdmitIsCalm(s, r.write, now);
    CalmKeeps(s, t, rank, rules);
    if ok && AcceptsApply(t, r, stale, aged) {
      AcceptsHasChosen(t, r, stale, aged);
      AppliedKeeps(t, r, stale, aged, captureOk && !t.resourceFault, rank, rules);
    }
  }

  lemma AcceptsHasChosen(s: Service.State, r: ApplyRequest, stale: bool, aged: bool)
    requires AcceptsApply(s, r, stale, aged)
    ensures Chosen(s).Some?
  {
  }

  // ---------------------------------------------------------------- the worker

  lemma LastSound(window: seq<Keyframe>, n: nat, rules: Rules)
    requires rules.Valid() && Sound(window, rules)
    ensures Sound(R.Last(window, n), rules)
  {
  }

  lemma LastOfLast(s: seq<Keyframe>, k: Keyframe, n: nat)
    requires n >= 1
    ensures R.Last(R.Last(s, n) + [k], n) == R.Last(s + [k], n)
    ensures R.Last(s + [k], n) != [] && R.Last(s + [k], n)[|R.Last(s + [k], n)| - 1] == k
  {
  }

  lemma FrozenBacked(s: Service.State, task: Task, k: Keyframe, values: Values, q: Quality, rank: nat, rules: Rules)
    requires rules.Valid() && WindowInv(s.window, s.extnav.status.session, rules) && TaskInv(s.window, task, rank)
    requires !task.operation.ApplySaved? && k.session == task.session
    requires Registered(task.operation, s.window.keyframes, k, rules)
    ensures HeldInv(s.window, task, Frozen(s, task, k, values, q), rank, rules)
  {
  }

  lemma FreezeKeeps(s: Service.State, k: Keyframe, values: Values, q: Quality, rank: nat, rules: Rules)
    requires rules.Valid() && Inv(s, rank, rules)
    requires s.job.Some? && s.job.value.phase.Collecting? && !s.job.value.task.operation.ApplySaved?
    requires k.session == s.job.value.task.session
    requires Registered(s.job.value.task.operation, s.window.keyframes, k, rules)
    ensures Inv(Freeze(s, k, values, q), rank, rules)
  {
    FrozenBacked(s, s.job.value.task, k, values, q, rank, rules);
    hide WindowInv, SnapshotInv, LatchInv, HeldInv, Frozen, Registered;
  }

  lemma CollectedKeeps(s: Service.State, failed: bool, rank: nat, rules: Rules)
    requires rules.Valid() && Inv(s, rank, rules) && s.job.Some? && s.job.value.phase.Collecting?
    ensures Inv(Collected(s, failed), rank, rules)
  {
  }

  lemma ReleaseKeeps(s: Service.State, fault: Option<bool>, released: bool, rank: nat, rules: Rules)
    requires rules.Valid() && Inv(s, rank, rules) && s.job.Some? && s.job.value.phase.Releasing?
    ensures Inv(Release(s, fault, released), rank, rules)
  {
    var t := if fault.Some? then OnFault(s, fault.value) else s;
    if fault.Some? {
      FaultKeeps(s, fault.value, rank, rules);
      FaultPhase(s, fault.value);
    }
    ReleasedKeeps(t, released, rank, rules);
    hide OnFault, Inv, AfterRelease;
  }

  lemma ReleasedKeeps(s: Service.State, released: bool, rank: nat, rules: Rules)
    requires rules.Valid() && Inv(s, rank, rules) && s.job.Some? && s.job.value.phase.Releasing?
    ensures Inv(s.(capture := false, resourceFault := s.resourceFault || !released,
                   job := Some(AfterRelease(s.job.value, released))), rank, rules)
  {
  }

  lemma FaultPhase(s: Service.State, invalidate: bool)
    requires s.job.Some?
    ensures var t := OnFault(s, invalidate);
      t.job.Some? && t.job.value.phase == s.job.value.phase && t.job.value.task == s.job.value.task
      && t.job.value.candidate == s.job.value.candidate && t.job.value.application == s.job.value.application
      && t.job.value.active == s.job.value.active
  {
  }

  lemma BeginKeeps(s: Service.State, rank: nat, rules: Rules)
    requires rules.Valid() && Inv(s, rank, rules) && s.job.Some? && s.job.value.phase.Beginning?
    ensures s.job.value.candidate.Some? && Inv(Begin(s), rank, rules)
  {
  }

  lemma CheckKeeps(s: Service.State, stale: bool, rank: nat, rules: Rules)
    requires rules.Valid() && Inv(s, rank, rules) && s.job.Some? && s.job.value.phase.Checking?
    ensures s.job.value.candidate.Some? && Inv(Check(s, stale), rank, rules)
  {
  }

  lemma DiscoverKeeps(s: Service.State, found: bool, rank: nat, rules: Rules)
    requires rules.Valid() && Inv(s, rank, rules) && s.job.Some? && s.job.value.phase.Discovering?
    ensures Inv(Discover(s, found), rank, rules)
  {
  }

  lemma SentKeeps(s: Service.State, stale: bool, flight: nat, rank: nat, rules: Rules)
    requires rules.Valid() && Inv(s, rank, rules) && s.job.Some? && s.job.value.phase.Sending?
    ensures s.job.value.candidate.Some?
    ensures Inv(At(s, Settling(Unsent(s.job.value))), rank, rules)
    ensures MaySend(s, stale) ==>
      && Inv(At(s, Settling(Unknown)), rank, rules)
      && Inv(s.(job := Some(s.job.value.(sent := true, phase := Waiting(flight)))), rank, rules)
  {
    hide WindowInv, SnapshotInv, LatchInv, HeldInv, TaskInv, Current;
  }

  lemma SendKeeps(s: Service.State, now: real, stale: bool, raises: bool, flight: nat, rank: nat, rules: Rules)
    requires rules.Valid() && Inv(s, rank, rules) && s.job.Some? && s.job.value.phase.Sending?
    ensures s.job.value.candidate.Some? && Inv(Send(s, now, stale, raises, flight).0, rank, rules)
  {
    hide ExpireOwner, Inv, MaySend;
    ExpireOwnerIsCalm(s, now);
    CalmKeeps(s, ExpireOwner(s, now), rank, rules);
    SentKeeps(ExpireOwner(s, now), stale, flight, rank, rules);
  }

  lemma AnsweredKeeps(s: Service.State, a: Response, rank: nat, rules: Rules)
    requires rules.Valid() && Inv(s, rank, rules) && s.job.Some? && s.job.value.phase.Waiting?
    ensures s.job.value.candidate.Some? && Inv(Answered(s, a), rank, rules)
  {
  }

  lemma UnansweredKeeps(s: Service.State, rank: nat, rules: Rules)
    requires rules.Valid() && Inv(s, rank, rules) && s.job.Some? && s.job.value.phase.Waiting?
    ensures Inv(Unanswered(s), rank, rules)
  {
  }

  lemma ReconcileKeeps(s: Service.State, stale: bool, deadline: bool, rank: nat, rules: Rules)
    requires rules.Valid() && Inv(s, rank, rules) && s.job.Some? && s.job.value.phase.Confirming?
    ensures s.job.value.candidate.Some? && Inv(Reconcile(s, stale, deadline), rank, rules)
  {
    hide WindowInv, SnapshotInv, LatchInv, HeldInv, TaskInv, Matches;
  }

  /** Committing a candidate that extends the current window keeps everything said of the window. */
  lemma CommittedKeeps(w: Window, c: Candidate, session: nat, rules: Rules)
    requires rules.Valid() && WindowInv(w, session, rules) && c.keyframes != [] && Extends(w, c, rules)
    requires c.session == session != NO_SESSION
    ensures WindowInv(Committed(w, c), session, rules)
  {
    var k := c.keyframes[|c.keyframes| - 1];
    LastOfLast(w.accepted, k, w.size);
    LastSound(w.keyframes + [k], w.size, rules);
    assert (w.keyframes + [k])[|w.keyframes|] == k;
    hide R.DistinctTags, R.OneConfig, R.OneTimeSource, R.AllPairsPass;
  }

  /** A booked job makes no claims of its own. */
  lemma BookedKeeps(t: Service.State, rank: nat, rules: Rules)
    requires rules.Valid() && SnapshotInv(t.extnav, rank) && WindowInv(t.window, t.extnav.status.session, rules)
    requires LatchInv(t.window, t.saved, t.pending, rank, rules)
    requires !t.capture && t.job.Some? && t.job.value.phase.Finishing? && t.job.value.active
    ensures Inv(t, rank, rules)
  {
  }

  lemma CommitKeeps(s: Service.State, c: Candidate, task: Task, revision: int, stale: bool, rank: nat, rules: Rules)
    requires rules.Valid() && WindowInv(s.window, s.extnav.status.session, rules) && !c.saved
    requires HeldInv(s.window, task, c, rank, rules) && MayCommit(s, task, c, stale)
    ensures c.keyframes != []
    ensures var w := Committed(s.window, c);
      WindowInv(w, s.extnav.status.session, rules) && LatchInv(w, Some(SavedForm(c, w.revision, revision)), None, rank, rules)
  {
    hide Extends, WindowInv;
    CommittedKeeps(s.window, c, s.extnav.status.session, rules);
  }

  /** A saved candidate re-applied without its window having moved, or whose session is dead. */
  lemma KeptBacked(w: Window, c: Candidate, task: Task, revision: int, rank: nat, rules: Rules)
    requires rules.Valid() && c.saved && HeldInv(w, task, c, rank, rules)
    requires w.revision == task.baseWindow || Dead(task.session, rank)
    ensures Backed(w, SavedForm(c, w.revision, revision), rank, rules)
  {
  }

  /** What an applied outcome makes of the window, the saved candidate and the latch. */
  lemma AppliedKeepsWindow(s: Service.State, stale: bool, rank: nat, rules: Rules)
    requires rules.Valid() && Inv(s, rank, rules) && HasCandidate(s)
    requires s.job.value.phase.Settling? && s.job.value.phase.outcome.Applied()
    ensures var t := SettleApplied(s, s.job.value.candidate.value, s.job.value.phase.outcome, stale);
      && SnapshotInv(t.extnav, rank) && WindowInv(t.window, t.extnav.status.session, rules)
      && LatchInv(t.window, t.saved, t.pending, rank, rules) && !t.capture
  {
    var j := s.job.value;
    var c, o := j.candidate.value, j.phase.outcome;
    TaskFacts(s, rank, rules);
    hide Backed, WindowInv, SnapshotInv, HeldInv, MayCommit, SavedForm, Succeeds, Inv;
    if !j.task.increment {
      KeptBacked(s.window, c, j.task, o.revision, rank, rules);
    } else if MayCommit(s, j.task, c, stale) {
      CommitKeeps(s, c, j.task, o.revision, stale, rank, rules);
    }
    hide Committed;
  }

  lemma SettleAppliedKeeps(s: Service.State, stale: bool, rank: nat, rules: Rules)
    requires rules.Valid() && Inv(s, rank, rules) && HasCandidate(s)
    requires s.job.value.phase.Settling? && s.job.value.phase.outcome.Applied()
    ensures Inv(SettleApplied(s, s.job.value.candidate.value, s.job.value.phase.outcome, stale), rank, rules)
  {
    AppliedKeepsWindow(s, stale, rank, rules);
    TaskFacts(s, rank, rules);
    hide LatchInv, WindowInv, SnapshotInv, HeldInv, MayCommit, SavedForm, Inv;
    BookedKeeps(SettleApplied(s, s.job.value.candidate.value, s.job.value.phase.outcome, stale), rank, rules);
  }

  lemma TaskFacts(s: Service.State, rank: nat, rules: Rules)
    requires rules.Valid() && Inv(s, rank, rules) && HasCandidate(s)
    requires s.job.value.phase.Settling? || s.job.value.phase.Saving?
    ensures var j, c := s.job.value, s.job.value.candidate.value;
      && SnapshotInv(s.extnav, rank) && WindowInv(s.window, s.extnav.status.session, rules)
      && LatchInv(s.window, s.saved, s.pending, rank, rules) && !s.capture
      && HeldInv(s.window, j.task, c, rank, rules) && j.task.increment == !c.saved && j.active
      && (Asked(j.phase) ==> s.window.revision == j.task.baseWindow || Dead(j.task.session, rank))
      && (j.phase.Saving? ==> s.pending == None && !c.saved)
  {
  }

  lemma SettleOtherwiseKeeps(s: Service.State, rank: nat, rules: Rules)
    requires rules.Valid() && Inv(s, rank, rules) && HasCandidate(s) && s.job.value.phase.Settling?
    ensures Inv(SettleRejected(s), rank, rules) && Inv(SettleUnknown(s, s.job.value.candidate.value), rank, rules)
  {
  }

  lemma SettleKeeps(s: Service.State, stale: bool, rank: nat, rules: Rules)
    requires rules.Valid() && Inv(s, rank, rules) && s.job.Some? && s.job.value.phase.Settling?
    ensures HasCandidate(s) && Inv(Settle(s, stale), rank, rules)
  {
    HasOne(s, rank, rules);
    hide Inv, SettleApplied, SettleRejected, SettleUnknown;
    if s.job.value.phase.outcome.Applied() {
      SettleAppliedKeeps(s, stale, rank, rules);
    } else {
      SettleOtherwiseKeeps(s, rank, rules);
    }
  }

  lemma HasOne(s: Service.State, rank: nat, rules: Rules)
    requires rules.Valid() && Inv(s, rank, rules) && s.job.Some? && Unfinished(s.job.value.phase)
    requires !s.job.value.phase.Collecting? && !s.job.value.phase.Releasing?
    ensures HasCandidate(s) && HeldInv(s.window, s.job.value.task, s.job.value.candidate.value, rank, rules)
  {
  }

  lemma SaveDryRunKeeps(s: Service.State, now: real, stale: bool, rank: nat, rules: Rules)
    requires rules.Valid() && Inv(s, rank, rules) && s.job.Some? && s.job.value.phase.Saving?
    ensures HasCandidate(s) && Inv(SaveDryRun(s, now, stale), rank, rules)
  {
    HasOne(s, rank, rules);
    var t := ExpireOwner(s, now);
    ExpireOwnerIsCalm(s, now);
    CalmKeeps(s, t, rank, rules);
    SavedKeeps(t, stale, rank, rules);
    hide Inv, ExpireOwner, MayCommit, CommitWindow;
  }

  lemma SavedKeeps(s: Service.State, stale: bool, rank: nat, rules: Rules)
    requires rules.Valid() && Inv(s, rank, rules) && HasCandidate(s) && s.job.value.phase.Saving?
    ensures Inv(At(s, Finishing(false)), rank, rules)
    ensures MayCommit(s, s.job.value.task, s.job.value.candidate.value, stale) ==>
      var u := CommitWindow(s, s.job.value.candidate.value, s.extnav.status.revision);
      Inv(u.(job := Some(s.job.value.(candidate := u.saved, windowSaved := true, application := NotRequested,
                                      phase := Finishing(true)))), rank, rules)
  {
    var j := s.job.value;
    TaskFacts(s, rank, rules);
    hide Backed, WindowInv, SnapshotInv, HeldInv, MayCommit, SavedForm, Inv;
    BookedKeeps(At(s, Finishing(false)), rank, rules);
    if MayCommit(s, j.task, j.candidate.value, stale) {
      CommitKeeps(s, j.candidate.value, j.task, s.extnav.status.revision, stale, rank, rules);
      var u := CommitWindow(s, j.candidate.value, s.extnav.status.revision);
      hide Committed;
      BookedKeeps(u.(job := Some(j.(candidate := u.saved, windowSaved := true, application := NotRequested,
                                    phase := Finishing(true)))), rank, rules);
    }
  }

  lemma FinishKeeps(s: Service.State, rank: nat, rules: Rules)
    requires rules.Valid() && Inv(s, rank, rules) && s.job.Some?
    requires s.job.value.phase.Finishing? || s.job.value.phase.Ending?
    ensures s.job.value.phase.Finishing? ==> Inv(Finish(s), rank, rules)
    ensures s.job.value.phase.Ending? ==> Inv(Die(s), rank, rules)
  {
  }
}
