/** The calibration service's transaction state
    (correction_service/correction_service/node.py, class CorrectionServiceNode).

    `State` holds the fields the transaction reads; one function below is one section of code
    that runs under `self._lock`, or one answer the worker thread gets from outside it. The worker
    thread's place in its code is `Phase`. Three inputs stand for the clock: `now`, whether the
    last status is `stale`, and whether a candidate is `aged`.

    Two things are recorded that no branch reads: `accepted`, the keyframes committed since the
    window was last invalidated, and the `epoch` of a candidate, which a first attempt to apply it
    draws fresh and retries of the same unknown application keep.
 */
module Service {
  import opened Options
  import opened Bridge
  import R = Registration

  type Keyframe = R.Keyframe

  /** Source 0 stands for the empty source id. */
  type Source = nat

  const NO_SOURCE: Source := 0

  datatype Candidate = Candidate(
    keyframes: seq<Keyframe>, values: Values, session: nat, config: nat, job: JobId,
    baseWindow: nat, expected: int, saved: bool, savedWindow: nat,
    sampleCount: nat, positionStd: real, yawStd: real, reprojection: real, matchError: real,
    epoch: nat)

  datatype Operation = First | Next | ApplySaved

  datatype Outcome =
    | AppliedAck(revision: int)
    | AppliedStatus(revision: int)
    | Rejected
    | Unknown
  {
    predicate Applied() { AppliedAck? || AppliedStatus? }
  }

  datatype Phase =
    | Collecting                                     // sampling, or waiting for raw odometry
    | Releasing(failed: bool)                        // about to release the capture
    | Saving                                         // about to commit a dry run
    | Beginning                                      // about to enter _apply_and_finalize
    | Checking                                       // about to check before service discovery
    | Discovering                                    // waiting for the bridge's service
    | Sending                                        // about to check again and send
    | Waiting(flight: nat)                           // waiting for the answer to a sent request
    | Confirming(flight: nat, ack: Option<int>)      // polling the authoritative status
    | Settling(outcome: Outcome)                     // about to book the outcome
    | Finishing(success: bool)                       // about to publish the result
    | Ending                                         // job inactive, thread still alive
    | Dead                                           // thread gone

  datatype Application = NotRequested | Pending | Booked(outcome: Outcome)

  /** What a job is started with. */
  datatype Task = Task(
    id: JobId, source: Source, operation: Operation, tag: int, size: nat, apply: bool,
    session: nat, baseRevision: int, baseWindow: nat, increment: bool, retrying: bool)

  /** The requests to give up: a stop or a release by the user, the stop event, and a booked failure. */
  datatype Stops = Stops(user: bool, event: bool, failed: bool)
  {
    predicate Any() { user || event || failed }
  }

  const NO_STOPS := Stops(false, false, false)

  datatype Job = Job(
    task: Task, stops: Stops, active: bool, candidate: Option<Candidate>, sent: bool, windowSaved: bool,
    application: Application, phase: Phase)

  /** The interface version a status names: none, the service's own, or another. */
  datatype Version = NoVersion | SameVersion | OtherVersion

  datatype Snapshot = Snapshot(heard: bool, version: Version, service: bool, status: Status)

  const SILENT := Snapshot(false, NoVersion, false, Status(false, NO_SESSION, false, 0, IDENTITY_VALUES, NoJob, None))

  datatype Window = Window(
    keyframes: seq<Keyframe>, revision: nat, size: nat, successes: nat, accepted: seq<Keyframe>)

  /** Who may write: the lease holder, its deadline, the sources that are gone for good, and the last
      sequence number of every source. */
  datatype Desk = Desk(
    owner: Source, releasing: bool, deadline: real, retired: set<Source>, sequences: map<Source, int>)

  const OPEN_DESK := Desk(NO_SOURCE, false, 0.0, {}, map[])

  datatype State = State(
    window: Window, saved: Option<Candidate>, pending: Option<Candidate>,
    extnav: Snapshot, job: Option<Job>, desk: Desk,
    config: nat, capture: bool, resourceFault: bool, closing: bool, nextSerial: nat, nextEpoch: nat)

  const LEASE := 15.0

  function Initial(config: nat, size: nat): State {
    State.State(Window([], 0, size, 0, []), None, None, SILENT, None, OPEN_DESK, config, false, false, false, 0, 0)
  }

  // ------------------------------------------------------------------- owner

  predicate JobRunning(s: State) {
    s.job.Some? && (s.job.value.active || s.job.value.phase != Dead)
  }

  predicate JobActive(s: State) { s.job.Some? && s.job.value.active }

  /** `_request_job_stop_locked`. */
  function RequestStop(s: State): State {
    if !JobActive(s) then s
    else
      var j := s.job.value;
      s.(job := Some(j.(stops := j.stops.(user := true, event := j.stops.event || !j.sent))))
  }

  function Retiring(d: Desk): Desk { d.(releasing := true, retired := d.retired + {d.owner}) }

  function Vacant(d: Desk): Desk { d.(owner := NO_SOURCE, deadline := 0.0, releasing := false) }

  /** `_release_owner_locked`. */
  function ReleaseOwner(s: State): State {
    var t := if s.desk.releasing then s else RequestStop(s.(desk := Retiring(s.desk)));
    if JobRunning(t) then t else t.(desk := Vacant(t.desk))
  }

  predicate LeaseOver(d: Desk, now: real) { d.owner != NO_SOURCE && (d.releasing || now >= d.deadline) }

  /** `_expire_owner_locked`. */
  function ExpireOwner(s: State, now: real): State {
    if LeaseOver(s.desk, now) then ReleaseOwner(s) else s
  }

  /** `_validate_owner_locked`, after the lease check: may this source write? */
  predicate MayWrite(d: Desk, source: Source) {
    (d.owner != NO_SOURCE ==> !d.releasing && source == d.owner) && source !in d.retired
  }

  datatype OwnerRequest = OwnerRequest(source: Source, instanceOk: bool, acquire: bool)

  predicate MayAcquire(s: State, source: Source) {
    && source !in s.desk.retired && !s.desk.releasing
    && (s.desk.owner == NO_SOURCE ==> !JobRunning(s) && s.pending == None)
  }

  /** A release is remembered even when another source holds the lease. */
  function Noted(s: State, r: OwnerRequest): State {
    if r.acquire then s else s.(desk := s.desk.(retired := s.desk.retired + {r.source}))
  }

  /** `_on_set_calibration_owner`. */
  function SetOwner(s: State, r: OwnerRequest, now: real): (State, bool) {
    var t := ExpireOwner(s, now);
    if r.source == NO_SOURCE || !r.instanceOk then (t, false)
    else
      var u := Noted(t, r);
      if u.desk.owner != NO_SOURCE && r.source != u.desk.owner then (u, false)
      else if !r.acquire then (if u.desk.owner != NO_SOURCE then ReleaseOwner(u) else u, true)
      else if MayAcquire(u, r.source) then (u.(desk := u.desk.(owner := r.source, deadline := now + LEASE)), true)
      else (u, false)
  }

  /** `_accept_sequence`: each source's numbers must grow. */
  function AcceptSequence(d: Desk, source: Source, sequence: int): (Desk, bool) {
    var previous := if source in d.sequences then d.sequences[source] else 0;
    if source == NO_SOURCE || sequence <= 0 || sequence <= previous then (d, false)
    else (d.(sequences := d.sequences[source := sequence]), true)
  }

  datatype Write = Write(source: Source, sequence: int, instanceOk: bool, window: int)

  /** The owner and sequence checks that open every write. */
  function Admit(s: State, w: Write, now: real): (State, bool) {
    var t := ExpireOwner(s, now);
    if !MayWrite(t.desk, w.source) then (t, false)
    else
      var (d, ok) := AcceptSequence(t.desk, w.source, w.sequence);
      (t.(desk := d), ok)
  }

  /** `_validate_common_request_locked`. */
  function Validate(s: State, w: Write, now: real): (State, bool) {
    var (t, ok) := Admit(s, w, now);
    (t, ok && w.instanceOk && w.window == t.window.revision && !JobRunning(t) && t.pending == None && !t.resourceFault)
  }

  // ------------------------------------------------------------ window state

  /** `_extnav_ready_locked`. */
  predicate Ready(m: Snapshot, stale: bool) {
    !m.version.OtherVersion? && m.heard && !stale && m.service && m.status.available && m.status.session != NO_SESSION
  }

  function Emptied(w: Window): Window {
    w.(keyframes := [], successes := 0, revision := w.revision + 1, accepted := [])
  }

  /** `_invalidate_window_locked`. */
  function InvalidateWindow(s: State): State {
    s.(window := Emptied(s.window), saved := None, pending := None)
  }

  /** The three conditions of `_commit_new_window_locked`. */
  predicate MayCommit(s: State, task: Task, c: Candidate, stale: bool) {
    s.window.revision == task.baseWindow && Ready(s.extnav, stale) && s.extnav.status.session == task.session
    && c.config == s.config
  }

  /** The saved form of a candidate under a window revision. */
  function SavedForm(c: Candidate, windowRevision: nat, revision: int): Candidate {
    c.(saved := true, savedWindow := windowRevision, expected := revision)
  }

  function Committed(w: Window, c: Candidate): Window
    requires c.keyframes != []
  {
    w.(keyframes := c.keyframes, successes := w.successes + 1, revision := w.revision + 1,
       accepted := w.accepted + [c.keyframes[|c.keyframes| - 1]])
  }

  /** `_commit_new_window_locked`: the only place where the window grows. */
  function CommitWindow(s: State, c: Candidate, revision: int): State
    requires c.keyframes != []
  {
    var w := Committed(s.window, c);
    s.(window := w, saved := Some(SavedForm(c, w.revision, revision)))
  }

  // ---------------------------------------------------------------- requests

  datatype StartRequest = StartRequest(
    write: Write, revision: int, operation: Operation, size: int, maximumSize: int, tag: int, tagKnown: bool, apply: bool)

  predicate MayStart(w: Window, m: Snapshot, r: StartRequest, stale: bool) {
    && Ready(m, stale) && r.revision == m.status.revision
    && r.operation != ApplySaved
    && (r.operation == First <==> w.keyframes == [])
    && (w.keyframes != [] ==> w.keyframes[0].session == m.status.session)
    && 2 <= r.size <= r.maximumSize
    && (w.keyframes != [] ==> r.size == w.size)
    && r.tagKnown && !(exists k | k in w.keyframes :: k.tag == r.tag)
  }

  function NewTask(s: State, r: StartRequest): Task
    requires r.size >= 0
  {
    Task(Ours(s.nextSerial), r.write.source, r.operation, r.tag, r.size, r.apply,
         s.extnav.status.session, s.extnav.status.revision, s.window.revision, true, false)
  }

  /** A job whose inputs could be subscribed, or one that ends at once as `failure` says. */
  function NewJob(task: Task, candidate: Option<Candidate>, capture: bool, failure: Application): Job {
    Job(task, NO_STOPS, capture, candidate, false, false,
        if !capture then failure else if task.apply then Pending else NotRequested,
        if capture then Collecting else Dead)
  }

  /** `_on_start`; `capture` says whether the job's subscriptions could be created. */
  function Start(s: State, r: StartRequest, now: real, stale: bool, capture: bool): (State, bool) {
    var (t, ok) := Validate(s, r.write, now);
    if !ok || !MayStart(t.window, t.extnav, r, stale) then (t, false)
    else
      var j := NewJob(NewTask(t, r), None, capture, if r.apply then Booked(Rejected) else NotRequested);
      (t.(window := t.window.(size := r.size), nextSerial := t.nextSerial + 1, job := Some(j), capture := capture),
       capture)
  }

  datatype StopRequest = StopRequest(write: Write, job: Option<JobId>)

  /** `_on_stop`. */
  function Stop(s: State, r: StopRequest, now: real): (State, bool) {
    var (t, ok) := Admit(s, r.write, now);
    if !ok || !r.write.instanceOk || !JobActive(t) || (r.job.Some? && r.job.value != t.job.value.task.id) then (t, false)
    else (RequestStop(t), true)
  }

  /** `_on_configure_tags` with `save`: a changed configuration drops the window. */
  function Configure(s: State, w: Write, config: nat, parsed: bool, now: real): (State, bool) {
    var (t, ok) := Validate(s, w, now);
    if !ok || !parsed then (t, false)
    else if config != t.config then (InvalidateWindow(t.(config := config)), true)
    else (t, true)
  }

  /** `_on_clear_window`. */
  function Clear(s: State, w: Write, now: real): (State, bool) {
    var (t, ok) := Validate(s, w, now);
    if ok then (InvalidateWindow(t), true) else (t, false)
  }

  datatype ApplyRequest = ApplyRequest(write: Write, revision: int)

  /** The candidate `_on_apply_saved` works on: a latched unknown one before a saved one. */
  function Chosen(s: State): Option<Candidate> { if s.pending.Some? then s.pending else s.saved }

  /** The authoritative status shows exactly this candidate. */
  predicate Shows(status: Status, c: Candidate) {
    status.valid && status.job == c.job && status.values == c.values
  }

  /** The window revision a candidate belongs to. */
  function Base(c: Candidate): nat { if c.saved then c.savedWindow else c.baseWindow }

  predicate MayApply(s: State, c: Candidate, aged: bool) {
    && !aged && c.session == s.extnav.status.session && c.config == s.config && Base(c) == s.window.revision
    && (s.pending.Some? && s.extnav.status.revision != c.expected ==> Shows(s.extnav.status, c))
  }

  predicate AcceptsApply(s: State, r: ApplyRequest, stale: bool, aged: bool) {
    && r.write.instanceOk && r.write.window == s.window.revision && !JobRunning(s) && Ready(s.extnav, stale)
    && r.revision == s.extnav.status.revision
    && Chosen(s).Some? && MayApply(s, Chosen(s).value, aged)
  }

  /** The candidate with the revision the operator saw; a first attempt draws a fresh epoch. */
  function Attempt(s: State, c: Candidate): Candidate {
    c.(expected := s.extnav.status.revision, epoch := if s.pending.Some? then c.epoch else s.nextEpoch)
  }

  /** `_on_apply_saved`. */
  function Apply(s: State, r: ApplyRequest, now: real, stale: bool, aged: bool, captureOk: bool): (State, bool) {
    var (t, ok) := Admit(s, r.write, now);
    if !ok || !AcceptsApply(t, r, stale, aged) then (t, false)
    else
      var c, capture := Chosen(t).value, captureOk && !t.resourceFault;
      var task := Task(c.job, r.write.source, ApplySaved, -1, t.window.size, true,
                       c.session, t.extnav.status.revision, t.window.revision, !c.saved, t.pending.Some?);
      (t.(job := Some(NewJob(task, Some(Attempt(t, c)), capture, Booked(Rejected))),
          nextEpoch := if t.pending.Some? then t.nextEpoch else t.nextEpoch + 1, capture := capture),
       capture)
  }

  // ------------------------------------------------------------- notifications

  /** `_fail_job_locked`. */
  function FailJob(s: State): State {
    if !JobActive(s) || s.job.value.stops.failed then s
    else s.(job := Some(s.job.value.(stops := s.job.value.stops.(failed := true, event := true))))
  }

  /** `_on_odometry_fault` for one reported fault; nothing while the capture is closed. */
  function OnFault(s: State, invalidate: bool): State {
    if !s.capture then s else FailJob(if invalidate then InvalidateWindow(s) else s)
  }

  predicate SessionChanged(s: State, session: nat) {
    (s.extnav.status.session != NO_SESSION && session != s.extnav.status.session)
    || (s.window.keyframes != [] && session != s.window.keyframes[0].session)
  }

  predicate ExplicitlyUnavailable(m: Snapshot) {
    m.version.SameVersion? && (!m.service || !m.status.available || m.status.session == NO_SESSION)
  }

  /** What a status does to the window. */
  function HearWindow(s: State, m: Snapshot): State {
    var t := s.(extnav := m.(heard := true));
    if SessionChanged(s, m.status.session) || (s.window.keyframes != [] && ExplicitlyUnavailable(m))
    then InvalidateWindow(t) else t
  }

  /** What a status does to the owner. */
  function HearOwner(s: State, m: Snapshot, changed: bool): State {
    if s.desk.owner != NO_SOURCE && (changed || ExplicitlyUnavailable(m) || !m.version.SameVersion?)
    then ReleaseOwner(s) else s
  }

  /** What a status does to the job. */
  function HearJob(s: State, m: Snapshot): State {
    if JobActive(s)
       && (!m.version.SameVersion? || !m.status.available || m.status.session != s.job.value.task.session)
    then FailJob(s) else s
  }

  /** `_on_extnav_status`. */
  function OnStatus(s: State, m: Snapshot): State {
    HearJob(HearOwner(HearWindow(s, m), m, SessionChanged(s, m.status.session)), m)
  }

  // -------------------------------------------------------------- the worker

  function At(s: State, p: Phase): State
    requires s.job.Some?
  {
    s.(job := Some(s.job.value.(phase := p)))
  }

  /** Does the job have a candidate with at least one keyframe? */
  predicate HasCandidate(s: State) {
    s.job.Some? && s.job.value.candidate.Some? && s.job.value.candidate.value.keyframes != []
  }

  /** The quality figures of a frozen candidate. */
  datatype Quality = Quality(sampleCount: nat, positionStd: real, yawStd: real, reprojection: real, matchError: real)

  /** The candidate is the window with the new keyframe, cut to size. */
  function Frozen(s: State, task: Task, k: Keyframe, values: Values, q: Quality): Candidate {
    Candidate(
      R.Last((if task.operation == First then [] else s.window.keyframes) + [k], task.size), values, task.session,
      s.config, task.id, task.baseWindow, task.baseRevision, false, 0,
      q.sampleCount, q.positionStd, q.yawStd, q.reprojection, q.matchError, s.nextEpoch)
  }

  /** `_freeze_candidate_locked`. */
  function Freeze(s: State, k: Keyframe, values: Values, q: Quality): State
    requires s.job.Some?
  {
    var j := s.job.value;
    s.(job := Some(j.(candidate := Some(Frozen(s, j.task, k, values, q)), phase := Releasing(false))),
       nextEpoch := s.nextEpoch + 1)
  }

  /** Leaving the collecting phase without a new candidate: a failure, or an evaluated saved one. */
  function Collected(s: State, failed: bool): State
    requires s.job.Some?
  {
    At(s, Releasing(failed || s.job.value.candidate == None))
  }

  /** Where a job goes once its resources are released. */
  function AfterRelease(j: Job, released: bool): Job
    requires j.phase.Releasing?
  {
    if j.phase.failed || !released then
      j.(application := if j.task.apply then Booked(Rejected) else j.application, phase := Finishing(false))
    else j.(phase := if j.task.apply then Beginning else Saving)
  }

  /** Release of the capture; a fault that arrived meanwhile is still booked. */
  function Release(s: State, fault: Option<bool>, released: bool): State
    requires s.job.Some? && s.job.value.phase.Releasing?
  {
    var t := if fault.Some? then OnFault(s, fault.value) else s;
    t.(capture := false, resourceFault := t.resourceFault || !released, job := Some(AfterRelease(t.job.value, released)))
  }

  /** The first section of `_apply_and_finalize`: latch the candidate. */
  function Begin(s: State): State
    requires s.job.Some? && s.job.value.candidate.Some?
  {
    s.(pending := s.job.value.candidate, job := Some(s.job.value.(application := Pending, phase := Checking)))
  }

  /** What an attempt that did not send ends as. */
  function Unsent(j: Job): Outcome { if j.task.retrying then Unknown else Rejected }

  predicate Current(m: Snapshot, c: Candidate, stale: bool) {
    Ready(m, stale) && m.status.session == c.session && m.status.revision == c.expected
  }

  /** The first section of `_apply_to_extnav`. */
  function Check(s: State, stale: bool): State
    requires s.job.Some? && s.job.value.candidate.Some?
  {
    At(s, if Current(s.extnav, s.job.value.candidate.value, stale) then Discovering else Settling(Unsent(s.job.value)))
  }

  /** The end of service discovery. */
  function Discover(s: State, found: bool): State
    requires s.job.Some?
  {
    At(s, if found then Sending else Settling(Unsent(s.job.value)))
  }

  function RequestOf(c: Candidate): Request {
    Request(c.job, c.session, c.expected, true, c.values, c.sampleCount, c.positionStd, c.yawStd, c.reprojection, c.matchError)
  }

  /** May the request leave, under the lock that stop and release also take? */
  predicate MaySend(s: State, stale: bool)
    requires s.job.Some? && s.job.value.candidate.Some?
  {
    var j := s.job.value;
    && (j.sent || !(j.stops.Any() || s.closing))
    && Current(s.extnav, j.candidate.value, stale) && s.window.revision == j.task.baseWindow
  }

  /** The second section of `_apply_to_extnav`. `flight` is the place the request takes in the
      network; `raises` says that sending raised, which does not prove that nothing was sent. */
  function Send(s: State, now: real, stale: bool, raises: bool, flight: nat): (State, Option<Request>)
    requires s.job.Some? && s.job.value.candidate.Some?
  {
    var t := ExpireOwner(s, now);
    var j := t.job.value;
    if !MaySend(t, stale) then (At(t, Settling(Unsent(j))), None)
    else if raises then (At(t, Settling(Unknown)), Some(RequestOf(j.candidate.value)))
    else (t.(job := Some(j.(sent := true, phase := Waiting(flight)))), Some(RequestOf(j.candidate.value)))
  }

  /** `_job_is_automatic_locked`. */
  predicate Automatic(d: Desk, source: Source) {
    source != NO_SOURCE && (source == d.owner || source in d.retired)
  }

  /** The answer the service takes for an acknowledgement. */
  predicate Acknowledges(a: Response, c: Candidate) {
    a.accepted && a.applied && a.session == c.session && a.revision >= c.expected
  }

  /** An answer arrived in time. */
  function Answered(s: State, a: Response): State
    requires s.job.Some? && s.job.value.candidate.Some? && s.job.value.phase.Waiting?
  {
    var j := s.job.value;
    At(s, if !Acknowledges(a, j.candidate.value) then Settling(Unsent(j))
          else if Automatic(s.desk, j.task.source) then Confirming(j.phase.flight, Some(a.revision))
          else Settling(AppliedAck(a.revision)))
  }

  /** No usable answer: it timed out, or the call raised. */
  function Unanswered(s: State): State
    requires s.job.Some? && s.job.value.phase.Waiting?
  {
    At(s, Confirming(s.job.value.phase.flight, None))
  }

  /** `_application_matches_extnav_locked`. */
  predicate Matches(m: Snapshot, c: Candidate, stale: bool) {
    && m.heard && !stale && m.version.SameVersion? && m.service && m.status.available
    && m.status.session == c.session && Shows(m.status, c) && m.status.revision > c.expected
  }

  /** One poll of `_reconcile_application`, or its deadline. */
  function Reconcile(s: State, stale: bool, deadline: bool): State
    requires s.job.Some? && s.job.value.candidate.Some? && s.job.value.phase.Confirming?
  {
    var j := s.job.value;
    if Matches(s.extnav, j.candidate.value, stale)
       && (j.phase.ack.None? || j.phase.ack.value == s.extnav.status.revision) then
      At(s, Settling(AppliedStatus(s.extnav.status.revision)))
    else if !deadline then s
    else At(s, Settling(if j.phase.ack.Some? then AppliedAck(j.phase.ack.value) else Unknown))
  }

  /** Success of an applied job: an automatic one also needs the authoritative status. */
  predicate Succeeds(s: State, j: Job, o: Outcome) { o.AppliedStatus? || !Automatic(s.desk, j.task.source) }

  /** Booking an application that happened. */
  function SettleApplied(s: State, c: Candidate, o: Outcome, stale: bool): State
    requires s.job.Some? && c.keyframes != [] && o.Applied()
  {
    var j := s.job.value.(application := Booked(o));
    var done := Finishing(Succeeds(s, j, o));
    if !j.task.increment then
      var kept := Some(SavedForm(c, s.window.revision, o.revision));
      s.(saved := kept, pending := None, job := Some(j.(candidate := kept, phase := done)))
    else if MayCommit(s, j.task, c, stale) then
      var t := CommitWindow(s, c, o.revision);
      t.(pending := None, job := Some(j.(candidate := t.saved, windowSaved := true, phase := done)))
    else
      s.(pending := None, job := Some(j.(phase := Finishing(false))))
  }

  /** Booking a refusal. */
  function SettleRejected(s: State): State
    requires s.job.Some?
  {
    s.(saved := if s.pending.Some? && s.pending.value.saved then s.pending else s.saved, pending := None,
       job := Some(s.job.value.(application := Booked(Rejected), phase := Finishing(false))))
  }

  /** Latching an unknown application. */
  function SettleUnknown(s: State, c: Candidate): State
    requires s.job.Some?
  {
    s.(saved := if c.saved then Some(c) else s.saved, pending := Some(c),
       job := Some(s.job.value.(application := Booked(Unknown), phase := Finishing(false))))
  }

  /** The booking section of `_apply_and_finalize`. */
  function Settle(s: State, stale: bool): State
    requires HasCandidate(s) && s.job.value.phase.Settling?
  {
    var c, o := s.job.value.candidate.value, s.job.value.phase.outcome;
    if o.Applied() then SettleApplied(s, c, o, stale)
    else if o.Rejected? then SettleRejected(s)
    else SettleUnknown(s, c)
  }

  /** `_save_dry_run_and_finalize`. */
  function SaveDryRun(s: State, now: real, stale: bool): State
    requires HasCandidate(s)
  {
    var t := ExpireOwner(s, now);
    var j := t.job.value;
    if j.stops.Any() || t.closing || !MayCommit(t, j.task, j.candidate.value, stale) then At(t, Finishing(false))
    else
      var u := CommitWindow(t, j.candidate.value, t.extnav.status.revision);
      u.(job := Some(j.(candidate := u.saved, windowSaved := true, application := NotRequested, phase := Finishing(true))))
  }

  /** `_finish_job`. */
  function Finish(s: State): State
    requires s.job.Some?
  {
    s.(job := Some(s.job.value.(active := false, phase := Ending)))
  }

  /** The worker thread returns. */
  function Die(s: State): State
    requires s.job.Some?
  {
    At(s, Dead)
  }

  /** Does the status show an application that a finished job only has an acknowledgement of? */
  predicate Confirmable(s: State, stale: bool) {
    && s.job.Some? && !s.job.value.active && s.job.value.candidate.Some?
    && s.job.value.application.Booked? && s.job.value.application.outcome.AppliedAck?
    && s.extnav.status.revision == s.job.value.application.outcome.revision
    && Matches(s.extnav, s.job.value.candidate.value.(expected := s.job.value.task.baseRevision), stale)
  }

  /** `_publish_status`, after the lease check: such an application counts as confirmed from now on. */
  function Confirm(s: State, stale: bool): State {
    if !Confirmable(s, stale) then s
    else
      var j := s.job.value;
      s.(job := Some(j.(application := Booked(AppliedStatus(s.extnav.status.revision)))),
         saved := if s.saved.Some? && s.saved.value.job == j.candidate.value.job then j.candidate else s.saved)
  }

  /** `close`: the node shuts down. */
  function Close(s: State): State {
    s.(closing := true,
       job := if JobActive(s) then Some(s.job.value.(stops := s.job.value.stops.(event := true))) else s.job)
  }
}
