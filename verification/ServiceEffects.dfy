/** What the sections of the calibration service do, said over the fields they find and leave.

    No statement here goes through the tests and intermediate states that `Service` defines.
 */
module ServiceEffects {
  import opened Options
  import opened Bridge
  import opened Service
  import R = Registration

  type State = Service.State

  /** A service starts with an empty window, nobody at the desk, no job, and nothing heard. */
  lemma Starts(config: nat, size: nat)
    ensures var s := Initial(config, size);
      && s.window == Window([], 0, size, 0, []) && s.saved == None && s.pending == None && s.job == None
      && s.desk.owner == 0 && !s.desk.releasing && s.desk.retired == {} && s.desk.sequences == map[]
      && !s.extnav.heard && s.extnav.status.session == 0 && !s.extnav.status.available && !s.extnav.status.valid
      && !s.capture && !s.resourceFault && !s.closing && s.config == config && s.nextSerial == 0 && s.nextEpoch == 0
  {
  }

  // ------------------------------------------------------------------ lease

  /** Has the lease run out, or is its holder on the way out? */
  predicate Over(d: Desk, now: real) { d.owner != 0 && (d.releasing || now >= d.deadline) }

  /** Is a worker thread alive? */
  predicate Busy(s: State) { s.job.Some? && (s.job.value.active || s.job.value.phase != Dead) }

  predicate SameButOwner(s: State, t: State) {
    t == s.(desk := t.desk, job := t.job) && t.desk.sequences == s.desk.sequences
    && (s.job.None? <==> t.job.None?)
    && (s.job.Some? ==> t.job.value == s.job.value.(stops := t.job.value.stops))
  }

  /** The lease ends: its source is retired for good, an active job that was not told so yet is stopped, by
      its event too when its request has not left, and the desk is vacated once no thread is alive. */
  predicate Ends(s: State, t: State) {
    && SameButOwner(s, t)
    && (s.desk.owner in t.desk.retired || s.desk.releasing) && s.desk.retired <= t.desk.retired <= s.desk.retired + {s.desk.owner}
    && (!s.desk.releasing && s.job.Some? && s.job.value.active ==>
          t.job.value.stops == Stops(true, s.job.value.stops.event || !s.job.value.sent, s.job.value.stops.failed))
    && (s.desk.releasing || s.job.None? || !s.job.value.active ==> t.job == s.job)
    && (if Busy(s) then t.desk.owner == s.desk.owner && t.desk.releasing && t.desk.deadline == s.desk.deadline
        else t.desk.owner == 0 && !t.desk.releasing && t.desk.deadline == 0.0)
  }

  lemma LeaseEnds(s: State)
    ensures Ends(s, ReleaseOwner(s))
  {
  }

  lemma LeaseChecked(s: State, now: real)
    ensures var t := ExpireOwner(s, now); if Over(s.desk, now) then Ends(s, t) else t == s
  {
    LeaseEnds(s);
    hide ReleaseOwner;
  }

  // In what follows `s` is the state once the lease has been checked, which every request does first.

  /** A lease is granted to a named source for 15 seconds, or extended by them, unless the source was retired, the
      lease is another's or on its way out, or, for a first grant, work is under way or unresolved. */
  lemma LeaseAsked(before: State, s: State, r: OwnerRequest, now: real)
    requires s == ExpireOwner(before, now)
    ensures var (t, ok) := SetOwner(before, r, now);
      && (r.acquire ==>
            && (ok <==> r.source != 0 && r.instanceOk && (s.desk.owner == 0 || s.desk.owner == r.source) && r.source !in s.desk.retired
                        && !s.desk.releasing && (s.desk.owner == 0 ==> !Busy(s) && s.pending == None))
            && (ok ==> t == s.(desk := s.desk.(owner := r.source, deadline := now + 15.0)))
            && (!ok ==> t == s))
      && (!r.acquire ==>
            && (ok <==> r.source != 0 && r.instanceOk && (s.desk.owner == 0 || s.desk.owner == r.source))
            && (r.source != 0 && r.instanceOk ==> r.source in t.desk.retired)
            && (!ok ==> t == s.(desk := s.desk.(retired := t.desk.retired)) && t.desk.retired <= s.desk.retired + {r.source})
            && (ok && s.desk.owner == 0 ==> t == s.(desk := s.desk.(retired := s.desk.retired + {r.source})))
            && (ok && s.desk.owner != 0 ==> Ends(s.(desk := s.desk.(retired := s.desk.retired + {r.source})), t)))
  {
    LeaseEnds(s.(desk := s.desk.(retired := s.desk.retired + {r.source})));
    hide ReleaseOwner;
  }

  /** A lease granted or extended at `now` is live at every moment before 15 seconds have passed, and over at
      every later one, as long as nobody ends or extends it. */
  lemma LeaseLasts(s: State, r: OwnerRequest, now: real, later: real)
    requires r.acquire && SetOwner(s, r, now).1
    ensures var t := SetOwner(s, r, now).0;
      t.desk.owner == r.source && !t.desk.releasing && (ExpireOwner(t, later) == t <==> later < now + 15.0)
  {
    var t := SetOwner(s, r, now).0;
    LeaseAsked(s, ExpireOwner(s, now), r, now);
    assert !t.desk.releasing && t.desk.owner == r.source != 0 && t.desk.deadline == now + 15.0;
    LeaseChecked(t, later);
    hide ReleaseOwner, SetOwner, ExpireOwner;
  }

  // ----------------------------------------------------------------- requests

  /** May this request write, with the lease not over? It must come from the lease's holder if there is one,
      not from a retired source, and its number must be the greatest of its source so far. */
  predicate Admitted(s: State, w: Write) {
    && w.source != 0 && w.source !in s.desk.retired && (s.desk.owner != 0 ==> s.desk.owner == w.source && !s.desk.releasing)
    && w.sequence > 0 && (w.source in s.desk.sequences ==> w.sequence > s.desk.sequences[w.source])
  }

  function Counted(s: State, w: Write): State { s.(desk := s.desk.(sequences := s.desk.sequences[w.source := w.sequence])) }

  lemma WriteAdmitted(before: State, s: State, w: Write, now: real)
    requires s == ExpireOwner(before, now)
    ensures Admit(before, w, now) == if Admitted(s, w) then (Counted(s, w), true) else (s, false)
  {
  }

  /** What every write that changes the window or starts work needs besides. */
  predicate AtRest(s: State, w: Write) {
    w.instanceOk && w.window == s.window.revision && !Busy(s) && s.pending == None && !s.resourceFault
  }

  /** A fresh status of an available bridge that does not speak another version. */
  predicate Live(m: Snapshot, stale: bool) {
    m.heard && !stale && m.service && m.status.available && m.status.session != 0 && m.version != OtherVersion
  }

  /** Sampling starts for a Tag that is known and not in the window, on a fresh status whose revision the
      request names, first on an empty window and next on one of the same session, with a size of at least
      two that changes only while the window is empty. */
  lemma StartAsked(before: State, s: State, r: StartRequest, now: real, stale: bool, capture: bool)
    requires s == ExpireOwner(before, now)
    ensures var (t, ok) := Start(before, r, now, stale, capture);
      var m, w := s.extnav.status, s.window;
      var accepted :=
        && Admitted(s, r.write) && AtRest(s, r.write) && Live(s.extnav, stale) && r.revision == m.revision
        && (if w.keyframes == [] then r.operation == First
            else r.operation == Next && w.keyframes[0].session == m.session && r.size == w.size)
        && 2 <= r.size <= r.maximumSize && r.tagKnown && (forall k | k in w.keyframes :: k.tag != r.tag);
      && (ok <==> accepted && capture)
      && (!accepted ==> t == if Admitted(s, r.write) then Counted(s, r.write) else s)
      && (accepted ==>
            && t == Counted(s, r.write).(window := w.(size := r.size), nextSerial := s.nextSerial + 1, job := t.job, capture := capture)
            && t.job.Some?
            && var j := t.job.value;
               && j.task.id == Ours(s.nextSerial) && j.task.source == r.write.source && j.task.operation == r.operation
               && j.task.tag == r.tag && j.task.size == r.size && j.task.apply == r.apply && j.task.session == m.session
               && j.task.baseRevision == m.revision && j.task.baseWindow == w.revision && j.task.increment && !j.task.retrying
               && j.stops == Stops(false, false, false) && j.candidate == None && !j.sent && !j.windowSaved
               && (if capture then j.active && j.phase == Collecting && j.application == (if r.apply then Pending else NotRequested)
                   else !j.active && j.phase == Dead && j.application == (if r.apply then Booked(Rejected) else NotRequested)))
  {
    WriteAdmitted(before, s, r.write, now);
    hide ExpireOwner, Admit;
  }

  /** A stop reaches the active job it names, or whichever is active. */
  lemma StopAsked(before: State, s: State, r: StopRequest, now: real)
    requires s == ExpireOwner(before, now)
    ensures var (t, ok) := Stop(before, r, now);
      && (ok <==> Admitted(s, r.write) && r.write.instanceOk && s.job.Some? && s.job.value.active
                  && (r.job == None || r.job == Some(s.job.value.task.id)))
      && (ok ==> t == Counted(s, r.write).(job := Some(s.job.value.(stops :=
                   Stops(true, s.job.value.stops.event || !s.job.value.sent, s.job.value.stops.failed)))))
      && (!ok ==> t == if Admitted(s, r.write) then Counted(s, r.write) else s)
  {
    WriteAdmitted(before, s, r.write, now);
    hide ExpireOwner, Admit;
  }

  /** The window, the saved and the latched candidate are gone, and the revision says so. */
  predicate Dropped(s: State, t: State) {
    t.window.keyframes == [] && t.window.accepted == [] && t.window.successes == 0 && t.window.size == s.window.size
    && t.window.revision == s.window.revision + 1 && t.saved == None && t.pending == None
  }

  lemma ConfigurationAsked(before: State, s: State, w: Write, config: nat, parsed: bool, now: real)
    requires s == ExpireOwner(before, now)
    ensures var (t, ok) := Configure(before, w, config, parsed, now);
      && (ok <==> Admitted(s, w) && AtRest(s, w) && parsed)
      && (ok && config != s.config ==>
            Dropped(s, t) && t == Counted(s, w).(config := config, window := t.window, saved := None, pending := None))
      && (ok && config == s.config ==> t == Counted(s, w))
      && (!ok ==> t == if Admitted(s, w) then Counted(s, w) else s)
  {
    WriteAdmitted(before, s, w, now);
    hide ExpireOwner, Admit;
  }

  lemma ClearAsked(before: State, s: State, w: Write, now: real)
    requires s == ExpireOwner(before, now)
    ensures var (t, ok) := Clear(before, w, now);
      && (ok <==> Admitted(s, w) && AtRest(s, w))
      && (ok ==> Dropped(s, t) && t == Counted(s, w).(window := t.window, saved := None, pending := None))
      && (!ok ==> t == if Admitted(s, w) then Counted(s, w) else s)
  {
    WriteAdmitted(before, s, w, now);
    hide ExpireOwner, Admit;
  }

  /** The status shows exactly what the candidate asks for. */
  predicate Displays(m: Status, c: Candidate) { m.valid && m.job == c.job && m.values == c.values }

  /** An application works on the latched candidate if there is one, else on the saved one. It must be young,
      of this session, configuration and window; a latched one may find another revision only if the status
      already shows it. A first attempt is told apart from a retry. */
  lemma ApplicationAsked(before: State, s: State, r: ApplyRequest, now: real, stale: bool, aged: bool, captureOk: bool)
    requires s == ExpireOwner(before, now)
    ensures var (t, ok) := Apply(before, r, now, stale, aged, captureOk);
      var m := s.extnav.status;
      var chosen := if s.pending.Some? then s.pending else s.saved;
      var accepted :=
        && Admitted(s, r.write) && r.write.instanceOk && r.write.window == s.window.revision && !Busy(s) && Live(s.extnav, stale)
        && r.revision == m.revision && chosen.Some? && !aged && chosen.value.session == m.session && chosen.value.config == s.config
        && (if chosen.value.saved then chosen.value.savedWindow else chosen.value.baseWindow) == s.window.revision
        && (s.pending.Some? && m.revision != chosen.value.expected ==> Displays(m, chosen.value));
      var capture := captureOk && !s.resourceFault;
      && (ok <==> accepted && capture)
      && (!accepted ==> t == if Admitted(s, r.write) then Counted(s, r.write) else s)
      && (accepted ==>
            && t.job.Some? && t.job.value.candidate.Some?
            && var j, c := t.job.value, t.job.value.candidate.value;
               && t == Counted(s, r.write).(job := t.job, capture := capture,
                                            nextEpoch := if s.pending.Some? then s.nextEpoch else s.nextEpoch + 1)
               && c == chosen.value.(expected := m.revision, epoch := if s.pending.Some? then chosen.value.epoch else s.nextEpoch)
               && j.task == Task(c.job, r.write.source, ApplySaved, -1, s.window.size, true, c.session, m.revision, s.window.revision,
                                 !c.saved, s.pending.Some?)
               && j.stops == Stops(false, false, false) && !j.sent && !j.windowSaved
               && (if capture then j.active && j.phase == Collecting && j.application == Pending
                   else !j.active && j.phase == Dead && j.application == Booked(Rejected)))
  {
    WriteAdmitted(before, s, r.write, now);
    hide ExpireOwner, Admit;
  }

  // ------------------------------------------------------------ notifications

  /** Does the status say that the session the service works with is gone: another session, or openly none? */
  predicate Replaced(s: State, m: Snapshot) {
    (s.extnav.status.session != 0 && m.status.session != s.extnav.status.session)
    || (s.window.keyframes != [] && m.status.session != s.window.keyframes[0].session)
  }

  predicate OpenlyNone(m: Snapshot) { m.version == SameVersion && (!m.service || !m.status.available || m.status.session == 0) }

  /** A status is remembered as heard. It drops the window exactly when the session was replaced, or when a
      window stands and the bridge openly has no session; it fails the active job exactly when the bridge is
      not available to it in the job's own session; and it ends a lease exactly when the session was
      replaced, is openly none, or the version is not the service's. */
  lemma StatusHeard(s: State, m: Snapshot)
    ensures var t := OnStatus(s, m);
      && t.extnav == m.(heard := true)
      && t == s.(extnav := t.extnav, window := t.window, saved := t.saved, pending := t.pending, desk := t.desk, job := t.job)
      && (if Replaced(s, m) || (s.window.keyframes != [] && OpenlyNone(m)) then Dropped(s, t)
          else t.window == s.window && t.saved == s.saved && t.pending == s.pending)
      && var ends := s.desk.owner != 0 && (Replaced(s, m) || OpenlyNone(m) || m.version != SameVersion);
         && (!ends ==> t.desk == s.desk)
         && (ends ==> s.desk.owner in t.desk.retired || s.desk.releasing)
         && (ends ==> t.desk.sequences == s.desk.sequences && (t.desk.owner == 0 || t.desk.releasing) && (t.desk.owner == 0 <==> !Busy(s)))
         && (s.job.None? <==> t.job.None?)
         && (s.job.Some? ==>
               var j, k := s.job.value, t.job.value;
               var fails := j.active && (m.version != SameVersion || !m.status.available || m.status.session != j.task.session);
               && k == j.(stops := k.stops)
               && k.stops.failed == (j.stops.failed || fails)
               && k.stops.user == (j.stops.user || (ends && j.active && !s.desk.releasing))
               && k.stops.event == (j.stops.event || (fails && !j.stops.failed) || (ends && j.active && !s.desk.releasing && !j.sent)))
  {
    var u := HearWindow(s, m);
    var v := HearOwner(u, m, SessionChanged(s, m.status.session));
    WindowHears(s, m);
    OwnerHears(u, m, SessionChanged(s, m.status.session));
    JobHears(v, m);
    hide HearWindow, HearOwner, HearJob;
  }

  lemma WindowHears(s: State, m: Snapshot)
    ensures SessionChanged(s, m.status.session) <==> Replaced(s, m)
    ensures var t := HearWindow(s, m);
      && t == s.(extnav := m.(heard := true), window := t.window, saved := t.saved, pending := t.pending)
      && (if Replaced(s, m) || (s.window.keyframes != [] && OpenlyNone(m)) then Dropped(s, t)
          else t.window == s.window && t.saved == s.saved && t.pending == s.pending)
  {
  }

  lemma OwnerHears(s: State, m: Snapshot, changed: bool)
    ensures var t := HearOwner(s, m, changed);
      if s.desk.owner != 0 && (changed || OpenlyNone(m) || m.version != SameVersion) then Ends(s, t) else t == s
  {
    LeaseEnds(s);
    hide ReleaseOwner, Ends;
  }

  lemma JobHears(s: State, m: Snapshot)
    ensures var t := HearJob(s, m);
      if s.job.Some? && s.job.value.active && !s.job.value.stops.failed
         && (m.version != SameVersion || !m.status.available || m.status.session != s.job.value.task.session)
      then t == s.(job := Some(s.job.value.(stops := Stops(s.job.value.stops.user, true, true))))
      else t == s
  {
  }

  /** A fault counts only while the capture is open: it stops the active job, and drops the window if the
      odometry's history was lost with it. */
  lemma FaultReported(s: State, invalidate: bool)
    ensures var t := OnFault(s, invalidate);
      && (!s.capture ==> t == s)
      && (s.capture ==>
            && t == s.(window := t.window, saved := t.saved, pending := t.pending, job := t.job)
            && (if invalidate then Dropped(s, t) else t.window == s.window && t.saved == s.saved && t.pending == s.pending)
            && (s.job.None? <==> t.job.None?)
            && (s.job.Some? && s.job.value.active && !s.job.value.stops.failed ==>
                  t.job.value == s.job.value.(stops := Stops(s.job.value.stops.user, true, true)))
            && (s.job.Some? && !(s.job.value.active && !s.job.value.stops.failed) ==> t.job == s.job))
  {
  }

  lemma NodeCloses(s: State)
    ensures var t := Close(s);
      t.closing && t == s.(closing := true, job := t.job) && (s.job.None? <==> t.job.None?)
      && (s.job.Some? ==>
            var stops := s.job.value.stops;
            t.job.value == s.job.value.(stops := stops.(event := stops.event || s.job.value.active)))
  {
  }

  // --------------------------------------------------------------- the worker

  /** Only the job's place in its thread changes. */
  predicate MovesTo(s: State, t: State, p: Phase) { s.job.Some? && t == s.(job := Some(s.job.value.(phase := p))) }

  /** The candidate frozen from the window and one more keyframe has the last `size` of them, the job's identity
      and bases, is not saved, and opens an epoch never used before. */
  lemma CandidateFrozen(s: State, k: Keyframe, values: Values, q: Quality)
    requires s.job.Some?
    ensures var t := Freeze(s, k, values, q);
      && t.job.Some? && t.job.value.candidate.Some? && t == s.(job := t.job, nextEpoch := s.nextEpoch + 1)
      && t.job.value == s.job.value.(candidate := t.job.value.candidate, phase := Releasing(false))
      && FrozenFrom(s, s.job.value.task, t.job.value.candidate.value, k, values, q)
  {
    FrozenIs(s, s.job.value.task, k, values, q);
    hide Frozen, FrozenFrom;
  }

  predicate FrozenFrom(s: State, task: Task, c: Candidate, k: Keyframe, values: Values, q: Quality) {
    && (task.size >= 1 ==> c.keyframes == Newest(if task.operation == First then [] else s.window.keyframes, task.size) + [k])
    && c.values == values && c.session == task.session && c.config == s.config && c.job == task.id
    && c.baseWindow == task.baseWindow && c.expected == task.baseRevision && !c.saved && c.savedWindow == 0 && c.epoch == s.nextEpoch
    && c.sampleCount == q.sampleCount && c.positionStd == q.positionStd && c.yawStd == q.yawStd
    && c.reprojection == q.reprojection && c.matchError == q.matchError
  }

  /** As many of the newest keyframes as leave room for one more. */
  function Newest(kept: seq<Keyframe>, size: nat): seq<Keyframe>
    requires size >= 1
  {
    if |kept| < size then kept else kept[|kept| + 1 - size..]
  }

  lemma FrozenIs(s: State, task: Task, k: Keyframe, values: Values, q: Quality)
    ensures FrozenFrom(s, task, Frozen(s, task, k, values, q), k, values, q)
  {
    if task.size >= 1 { NewestKept(if task.operation == First then [] else s.window.keyframes, k, task.size); }
    hide R.Last, Newest;
  }

  lemma NewestKept(kept: seq<Keyframe>, k: Keyframe, n: nat)
    requires n >= 1
    ensures R.Last(kept + [k], n) == Newest(kept, n) + [k]
  {
    if |kept| >= n { assert (kept + [k])[|kept| + 1 - n..] == kept[|kept| + 1 - n..] + [k]; }
  }

  /** Collecting ends; without a candidate, or with a failure, the job has failed. */
  lemma CollectingEnds(s: State, failed: bool)
    requires s.job.Some?
    ensures MovesTo(s, Collected(s, failed), Releasing(failed || s.job.value.candidate == None))
  {
  }

  /** Releasing the capture: a job whose collection failed or whose release failed is over, and an
      application it was asked for counts as rejected; any other goes on to apply or to save. */
  lemma CaptureReleased(s: State, released: bool)
    requires s.job.Some? && s.job.value.phase.Releasing?
    ensures var t := Release(s, None, released);
      var j := s.job.value;
      && t == s.(capture := false, resourceFault := s.resourceFault || !released, job := t.job) && t.job.Some?
      && (if j.phase.failed || !released then
            t.job.value == j.(phase := Finishing(false), application := if j.task.apply then Booked(Rejected) else j.application)
          else t.job.value == j.(phase := if j.task.apply then Beginning else Saving))
  {
  }

  /** A fault that comes with the release is reported first. */
  lemma FaultBeforeRelease(s: State, invalidate: bool, released: bool)
    requires s.job.Some? && s.job.value.phase.Releasing?
    ensures OnFault(s, invalidate).job.Some? && OnFault(s, invalidate).job.value.phase == s.job.value.phase
    ensures Release(s, Some(invalidate), released) == Release(OnFault(s, invalidate), None, released)
  {
  }

  /** Latching. */
  lemma AttemptBegins(s: State)
    requires s.job.Some? && s.job.value.candidate.Some?
    ensures Begin(s) == s.(pending := s.job.value.candidate, job := Some(s.job.value.(application := Pending, phase := Checking)))
  {
  }

  /** The status is still the one the candidate is meant for. */
  predicate Expects(s: State, c: Candidate, stale: bool) {
    Live(s.extnav, stale) && s.extnav.status.session == c.session && s.extnav.status.revision == c.expected
  }

  /** What an attempt that sent nothing is booked as: a retry stays unknown, a first attempt is rejected. */
  function Nothing(s: State): Outcome
    requires s.job.Some?
  {
    if s.job.value.task.retrying then Unknown else Rejected
  }

  lemma ChecksBeforeSending(s: State, stale: bool, found: bool)
    requires s.job.Some? && s.job.value.candidate.Some?
    ensures MovesTo(s, Check(s, stale), if Expects(s, s.job.value.candidate.value, stale) then Discovering else Settling(Nothing(s)))
    ensures MovesTo(s, Discover(s, found), if found then Sending else Settling(Nothing(s)))
  {
  }

  /** The request asks the bridge for exactly the candidate, from the revision it was meant for. */
  predicate AsksFor(r: Request, c: Candidate) {
    r.job == c.job && r.session == c.session && r.expected == c.expected && r.valid && r.values == c.values
    && r.sampleCount == c.sampleCount && r.positionStd == c.positionStd && r.yawStd == c.yawStd
    && r.reprojection == c.reprojection && r.matchError == c.matchError
  }

  /** A request leaves exactly when, with the lease checked, nobody asked to stop and the node stays open, the
      status is still the one expected, and the window is the job's. One whose sending raised may have left. */
  lemma RequestLeaves(before: State, s: State, now: real, stale: bool, raises: bool, flight: nat)
    requires s.job.Some? && s.job.value.candidate.Some? && !s.job.value.sent && s == ExpireOwner(before, now)
    ensures var (t, sent) := Send(before, now, stale, raises, flight);
      var j, c := s.job.value, s.job.value.candidate.value;
      var may :=
        && !j.stops.user && !j.stops.event && !j.stops.failed && !s.closing
        && Expects(s, c, stale) && s.window.revision == j.task.baseWindow;
      && (sent.Some? <==> may) && (may ==> AsksFor(sent.value, c))
      && (!may ==> MovesTo(s, t, Settling(Nothing(s))))
      && (may && raises ==> MovesTo(s, t, Settling(Unknown)))
      && (may && !raises ==> t == s.(job := Some(j.(sent := true, phase := Waiting(flight)))))
  {
  }

  /** A lease found over stops the job before it sends. */
  lemma LateLeaseSilences(s: State, now: real, stale: bool, raises: bool, flight: nat)
    requires s.job.Some? && s.job.value.candidate.Some? && !s.job.value.sent && s.job.value.active
    requires Over(s.desk, now) && !s.desk.releasing
    ensures Send(s, now, stale, raises, flight).1 == None
    ensures Send(s, now, stale, raises, flight).0.job.Some?
    ensures Send(s, now, stale, raises, flight).0.job.value.phase == Settling(Nothing(s))
  {
  }

  /** Is the source the lease holder, or one that held it once? */
  predicate Leased(d: Desk, source: Source) { source != 0 && (source == d.owner || source in d.retired) }

  /** An answer counts as an acknowledgement when it accepts and has applied, in the candidate's session and
      from its revision on; then a leased source also waits for the status. Anything else counts as not sent. */
  lemma AnswerHeard(s: State, a: Response)
    requires s.job.Some? && s.job.value.candidate.Some? && s.job.value.phase.Waiting?
    ensures var c := s.job.value.candidate.value;
      var ack := a.accepted && a.applied && a.session == c.session && a.revision >= c.expected;
      MovesTo(s, Answered(s, a),
              if !ack then Settling(Nothing(s))
              else if Leased(s.desk, s.job.value.task.source) then Confirming(s.job.value.phase.flight, Some(a.revision))
              else Settling(AppliedAck(a.revision)))
    ensures MovesTo(s, Unanswered(s), Confirming(s.job.value.phase.flight, None))
  {
  }

  /** The status shows that the candidate is in force. */
  predicate Confirmed(m: Snapshot, c: Candidate, stale: bool) {
    m.heard && !stale && m.version == SameVersion && m.service && m.status.available && m.status.session == c.session
    && Displays(m.status, c) && m.status.revision > c.expected
  }

  /** Polling ends with a status that shows the candidate, at the acknowledged revision if there was one, or
      at the deadline with what was acknowledged, else unknown. */
  lemma StatusPolled(s: State, stale: bool, deadline: bool)
    requires s.job.Some? && s.job.value.candidate.Some? && s.job.value.phase.Confirming?
    ensures var t, ack, shown := Reconcile(s, stale, deadline), s.job.value.phase.ack, s.extnav.status.revision;
      if Confirmed(s.extnav, s.job.value.candidate.value, stale) && (ack == None || ack == Some(shown))
      then MovesTo(s, t, Settling(AppliedStatus(shown)))
      else if deadline then MovesTo(s, t, Settling(if ack.Some? then AppliedAck(ack.value) else Unknown))
      else t == s
  {
  }

  // ------------------------------------------------------------------ booking

  /** Does the state still agree with what the job was started on, under a fresh status? */
  predicate StillAgrees(s: State, j: Job, c: Candidate, stale: bool) {
    s.window.revision == j.task.baseWindow && Live(s.extnav, stale) && s.extnav.status.session == j.task.session && c.config == s.config
  }

  /** The candidate enters the window: exactly its newest keyframe is accepted, the revision and the count of
      successes rise by one, and what is saved is the candidate, of that window and of bridge revision
      `revision`. */
  predicate Enters(s: State, t: State, c: Candidate, revision: int)
    requires c.keyframes != []
  {
    && t.window.accepted == s.window.accepted + [c.keyframes[|c.keyframes| - 1]] && t.window.keyframes == c.keyframes
    && t.window.revision == s.window.revision + 1 && t.window.successes == s.window.successes + 1 && t.window.size == s.window.size
    && IsSaved(t.saved, c, t.window.revision, revision)
  }

  predicate IsSaved(saved: Option<Candidate>, c: Candidate, window: nat, revision: int) {
    && saved.Some? && saved.value.saved && saved.value.savedWindow == window && saved.value.expected == revision
    && saved.value.(saved := c.saved, savedWindow := c.savedWindow, expected := c.expected) == c
  }

  /** Is this job about to book that its candidate was applied? */
  predicate BooksApplied(s: State) {
    && s.job.Some? && s.job.value.candidate.Some? && s.job.value.candidate.value.keyframes != []
    && s.job.value.phase.Settling? && (s.job.value.phase.outcome.AppliedAck? || s.job.value.phase.outcome.AppliedStatus?)
  }

  /** The application is booked, the latch is gone, and the job ends as said. */
  predicate BookedAs(s: State, t: State, candidate: Option<Candidate>, entered: bool, success: bool)
    requires BooksApplied(s)
  {
    && t == s.(window := t.window, saved := t.saved, pending := None, job := t.job)
    && t.job == Some(s.job.value.(application := Booked(s.job.value.phase.outcome), candidate := candidate,
                                  windowSaved := s.job.value.windowSaved || entered, phase := Finishing(success)))
  }

  /** A leased source succeeds only with what the status confirmed. */
  predicate Sure(s: State)
    requires BooksApplied(s)
  {
    s.job.value.phase.outcome.AppliedStatus? || !Leased(s.desk, s.job.value.task.source)
  }

  /** An applied candidate that was to extend the window enters it if everything still agrees. */
  lemma AppliedEnters(s: State, stale: bool)
    requires BooksApplied(s) && s.job.value.task.increment && StillAgrees(s, s.job.value, s.job.value.candidate.value, stale)
    ensures var t := Settle(s, stale);
      Enters(s, t, s.job.value.candidate.value, s.job.value.phase.outcome.revision) && BookedAs(s, t, t.saved, true, Sure(s))
  {
  }

  /** If something no longer agrees, the window stays, and the job fails although the bridge has applied. */
  lemma AppliedTooLate(s: State, stale: bool)
    requires BooksApplied(s) && s.job.value.task.increment && !StillAgrees(s, s.job.value, s.job.value.candidate.value, stale)
    ensures var t := Settle(s, stale);
      t.window == s.window && t.saved == s.saved && BookedAs(s, t, s.job.value.candidate, false, false)
  {
  }

  /** An applied candidate that was saved before is saved anew, with the revision it is now in force at. */
  lemma AppliedAgain(s: State, stale: bool)
    requires BooksApplied(s) && !s.job.value.task.increment
    ensures var t := Settle(s, stale);
      && t.window == s.window && IsSaved(t.saved, s.job.value.candidate.value, s.window.revision, s.job.value.phase.outcome.revision)
      && BookedAs(s, t, t.saved, false, Sure(s))
  {
  }

  /** A rejected one gives the latch up, and what was saved before it is saved again. An unknown one stays
      latched. Both fail the job and leave the window alone. */
  lemma OtherwiseBooked(s: State, stale: bool)
    requires s.job.Some? && s.job.value.candidate.Some? && s.job.value.candidate.value.keyframes != []
    requires s.job.value.phase.Settling? && (s.job.value.phase.outcome == Rejected || s.job.value.phase.outcome == Unknown)
    ensures var t := Settle(s, stale);
      var j, c := s.job.value, s.job.value.candidate.value;
      && t == s.(saved := t.saved, pending := t.pending,
                 job := Some(j.(application := Booked(j.phase.outcome), phase := Finishing(false))))
      && (j.phase.outcome == Rejected ==>
            t.pending == None && t.saved == if s.pending.Some? && s.pending.value.saved then s.pending else s.saved)
      && (j.phase.outcome == Unknown ==> t.pending == Some(c) && t.saved == if c.saved then Some(c) else s.saved)
  {
  }

  /** A dry run enters the window without being applied, unless it was stopped, the lease ended, the node is
      closing, or something no longer agrees. */
  lemma DryRunSaved(before: State, s: State, now: real, stale: bool)
    requires s.job.Some? && s.job.value.candidate.Some? && s.job.value.candidate.value.keyframes != [] && s == ExpireOwner(before, now)
    ensures var t := SaveDryRun(before, now, stale);
      var j, c := s.job.value, s.job.value.candidate.value;
      if j.stops.user || j.stops.event || j.stops.failed || s.closing || !StillAgrees(s, j, c, stale) then MovesTo(s, t, Finishing(false))
      else
        && Enters(s, t, c, s.extnav.status.revision) && t == s.(window := t.window, saved := t.saved, job := t.job)
        && t.job == Some(j.(candidate := t.saved, windowSaved := true, application := NotRequested, phase := Finishing(true)))
  {
  }

  lemma JobEnds(s: State)
    requires s.job.Some?
    ensures Finish(s) == s.(job := Some(s.job.value.(active := false, phase := Ending)))
    ensures MovesTo(s, Die(s), Dead)
  {
  }

  /** A finished job that was only acknowledged counts as confirmed once a status shows its application at the
      acknowledged revision. */
  lemma LateConfirmation(s: State, stale: bool)
    ensures var t := Confirm(s, stale);
      var due :=
        && s.job.Some? && !s.job.value.active && s.job.value.candidate.Some?
        && s.job.value.application == Booked(AppliedAck(s.extnav.status.revision))
        && Confirmed(s.extnav, s.job.value.candidate.value.(expected := s.job.value.task.baseRevision), stale);
      && (!due ==> t == s)
      && (due ==>
            && t == s.(job := t.job, saved := t.saved)
            && t.job == Some(s.job.value.(application := Booked(AppliedStatus(s.extnav.status.revision))))
            && t.saved == if s.saved.Some? && s.saved.value.job == s.job.value.candidate.value.job then s.job.value.candidate else s.saved)
  {
  }
}
