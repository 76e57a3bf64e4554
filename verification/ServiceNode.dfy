/** The calibration service as the object it is
    (correction_service/correction_service/node.py, class CorrectionServiceNode): its fields are
    updated in place, section by section. Each section keeps the invariants of window, lease and
    bookings, moves the window, the latch and the job only in the ways of `Modest`, and does what
    module `Service` says, so the theorems about runs speak of this object. The window's counters and
    the lease's fields are grouped in one record each, and a job is a record the `job` field is
    updated with.
 */
module ServiceNode {
  import opened Options
  import opened Bridge
  import opened Service
  import opened WindowSafety
  import opened Sections
  import opened Bookings
  import O = OwnerSafety
  import SE = ServiceEffects
  import R = Registration

  /** What holds of the service between any two sections. */
  ghost predicate Sane(s: Service.State, rank: nat, rules: Rules)
    requires rules.Valid()
  {
    WindowSafety.Inv(s, rank, rules) && O.OwnerInv(s) && BookInv(s)
  }

  /** What every section does at most, and what it never undoes. */
  ghost predicate Steps(s: Service.State, t: Service.State) { Modest(s, t) && s.desk.retired <= t.desk.retired }

  lemma ActionSane(s: Service.State, a: Action, flight: nat, rank: nat, rules: Rules)
    requires rules.Valid() && Sane(s, rank, rules) && MayAct(s, a, rules)
    ensures Sane(Act(s, a, flight, rules), rank, rules) && Steps(s, Act(s, a, flight, rules))
  {
    NotYetSent(s);
    hide WindowSafety.Inv, O.OwnerInv, BookInv, MayAct, Act, Modest;
    ActionKeepsInv(s, a, flight, rank, rules);
    O.ActionKeepsOwner(s, a, flight, rules);
    ActionBooks(s, a, flight, rank, rules);
    ActionsAreModest(s, a, flight, rules);
  }

  lemma NotYetSent(s: Service.State)
    requires O.OwnerInv(s)
    ensures s.job.Some? && BeforeSending(s.job.value.phase) ==> !s.job.value.sent
  {
  }

  class CorrectionService {
    const rules: Rules
    /** The rank of the last session the bridge was heard with; nothing the program reads. */
    ghost var rank: nat
    var window: Window
    var saved: Option<Candidate>
    var pending: Option<Candidate>
    var extnav: Snapshot
    var job: Option<Job>
    var desk: Desk
    var config: nat
    var capture: bool
    var resourceFault: bool
    var closing: bool
    var nextSerial: nat
    var nextEpoch: nat

    function View(): Service.State
      reads this
    {
      Service.State.State(window, saved, pending, extnav, job, desk,
                          config, capture, resourceFault, closing, nextSerial, nextEpoch)
    }

    ghost predicate Valid()
      reads this
    {
      rules.Valid() && Sane(View(), rank, rules)
    }

    constructor (config: nat, size: nat, rules: Rules)
      requires rules.Valid() && size >= 2
      ensures Valid() && View() == Initial(config, size) && this.rules == rules
    {
      this.rules, rank := rules, 0;
      window, saved, pending, extnav, job := Window([], 0, size, 0, []), None, None, SILENT, None;
      desk, this.config, capture, resourceFault, closing := OPEN_DESK, config, false, false, false;
      nextSerial, nextEpoch := 0, 0;
    }

    // ----------------------------------------------------------------- owner

    predicate JobIsRunning()
      reads this
    {
      job.Some? && (job.value.active || job.value.phase != Dead)
    }

    method RequestJobStop()
      modifies this`job
      ensures View() == RequestStop(old(View()))
    {
      if job.None? || !job.value.active {
        return;
      }
      var stops := job.value.stops.(user := true);
      if !job.value.sent {
        stops := stops.(event := true);
      }
      job := Some(job.value.(stops := stops));
    }

    method ReleaseOwnerNow()
      modifies this`desk, this`job
      ensures View() == ReleaseOwner(old(View()))
    {
      hide RequestStop;
      if !desk.releasing {
        desk := desk.(releasing := true, retired := desk.retired + {desk.owner});
        RequestJobStop();
      }
      if !JobIsRunning() {
        desk := desk.(owner := NO_SOURCE, deadline := 0.0, releasing := false);
      }
    }

    method ExpireOwnerNow(now: real)
      modifies this`desk, this`job
      ensures View() == ExpireOwner(old(View()), now)
    {
      hide ReleaseOwner;
      if desk.owner != NO_SOURCE && (desk.releasing || now >= desk.deadline) {
        ReleaseOwnerNow();
      }
    }

    method OnSetCalibrationOwner(r: OwnerRequest, now: real) returns (ok: bool)
      requires Valid() && MayAct(View(), AskOwner(r, now), rules)
      modifies this`desk, this`job
      ensures Valid() && Steps(old(View()), View())
      ensures (View(), ok) == SetOwner(old(View()), r, now)
      ensures ok && r.acquire ==> desk.owner == r.source && r.source !in desk.retired && desk.deadline == now + 15.0
    {
      hide Sane, Steps;
      ActionSane(View(), AskOwner(r, now), 0, rank, rules);
      hide ReleaseOwner, ExpireOwner;
      ok := false;
      ExpireOwnerNow(now);
      if r.source == NO_SOURCE || !r.instanceOk {
        return;
      }
      if !r.acquire {
        desk := desk.(retired := desk.retired + {r.source});
      }
      if desk.owner != NO_SOURCE && r.source != desk.owner {
        return;
      }
      if r.acquire {
        if r.source in desk.retired || desk.releasing {
          return;
        }
        if desk.owner == NO_SOURCE {
          if JobIsRunning() || pending.Some? {
            return;
          }
          desk := desk.(owner := r.source);
        }
        desk := desk.(deadline := now + LEASE);
      } else if desk.owner != NO_SOURCE {
        ReleaseOwnerNow();
      }
      ok := true;
    }

    /** `_validate_owner_locked` and `_accept_sequence`. */
    method AdmitNow(w: Write, now: real) returns (ok: bool)
      modifies this`desk, this`job
      ensures (View(), ok) == Admit(old(View()), w, now)
    {
      hide ExpireOwner;
      ExpireOwnerNow(now);
      if desk.owner != NO_SOURCE && (desk.releasing || w.source != desk.owner) {
        return false;
      }
      if w.source in desk.retired {
        return false;
      }
      if w.source == NO_SOURCE || w.sequence <= 0 {
        return false;
      }
      var previous := if w.source in desk.sequences then desk.sequences[w.source] else 0;
      if w.sequence <= previous {
        return false;
      }
      desk := desk.(sequences := desk.sequences[w.source := w.sequence]);
      ok := true;
    }

    /** `_validate_common_request_locked`. */
    method ValidateNow(w: Write, now: real) returns (ok: bool)
      modifies this`desk, this`job
      ensures (View(), ok) == Validate(old(View()), w, now)
    {
      hide Admit;
      ok := AdmitNow(w, now);
      if ok {
        ok := w.instanceOk && w.window == window.revision && !JobIsRunning() && pending.None? && !resourceFault;
      }
    }

    // ---------------------------------------------------------------- window

    method InvalidateWindowNow()
      modifies this`window, this`saved, this`pending
      ensures View() == InvalidateWindow(old(View()))
    {
      saved, pending := None, None;
      window := window.(keyframes := [], successes := 0, revision := window.revision + 1, accepted := []);
    }

    /** `_commit_new_window_locked`; false stands for the exception it raises. */
    method CommitNewWindow(c: Candidate, task: Task, revision: int, stale: bool) returns (ok: bool)
      requires c.keyframes != []
      modifies this`window, this`saved
      ensures ok == MayCommit(old(View()), task, c, stale)
      ensures window == if ok then Committed(old(window), c) else old(window)
      ensures saved == if ok then Some(SavedForm(c, window.revision, revision)) else old(saved)
    {
      if window.revision != task.baseWindow || !Ready(extnav, stale) || extnav.status.session != task.session
         || c.config != config {
        return false;
      }
      window := window.(keyframes := c.keyframes, successes := window.successes + 1, revision := window.revision + 1,
                        accepted := window.accepted + [c.keyframes[|c.keyframes| - 1]]);
      saved := Some(c.(saved := true, savedWindow := window.revision, expected := revision));
      ok := true;
    }

    // -------------------------------------------------------------- requests

    method OnStart(r: StartRequest, now: real, stale: bool, captureOk: bool) returns (ok: bool)
      requires Valid() && MayAct(View(), AskStart(r, now, stale, captureOk), rules)
      modifies this
      ensures Valid() && Steps(old(View()), View())
      ensures (View(), ok) == Start(old(View()), r, now, stale, captureOk)
    {
      hide Sane, Steps, Start;
      ActionSane(View(), AskStart(r, now, stale, captureOk), 0, rank, rules);
      ok := StartNow(r, now, stale, captureOk);
    }

    method StartNow(r: StartRequest, now: real, stale: bool, captureOk: bool) returns (ok: bool)
      modifies this`desk, this`job, this`window, this`nextSerial, this`capture
      ensures (View(), ok) == Start(old(View()), r, now, stale, captureOk)
    {
      hide Validate, MayStart;
      ok := ValidateNow(r.write, now);
      if !ok || !MayStart(window, extnav, r, stale) {
        return false;
      }
      SizeOf(r, stale);
      var task := Task(Ours(nextSerial), r.write.source, r.operation, r.tag, r.size, r.apply,
                       extnav.status.session, extnav.status.revision, window.revision, true, false);
      window, nextSerial := window.(size := r.size), nextSerial + 1;
      var application := if r.apply then Pending else NotRequested;
      capture := captureOk;
      if !captureOk {
        application := if r.apply then Booked(Rejected) else NotRequested;
        job := Some(Job(task, NO_STOPS, false, None, false, false, application, Dead));
        return false;
      }
      job := Some(Job(task, NO_STOPS, true, None, false, false, application, Collecting));
    }

    lemma SizeOf(r: StartRequest, stale: bool)
      requires MayStart(window, extnav, r, stale)
      ensures r.size >= 0
    {
    }

    method OnStop(r: StopRequest, now: real) returns (ok: bool)
      requires Valid() && MayAct(View(), AskStop(r, now), rules)
      modifies this`desk, this`job
      ensures Valid() && Steps(old(View()), View())
      ensures (View(), ok) == Stop(old(View()), r, now)
    {
      hide Sane, Steps;
      ActionSane(View(), AskStop(r, now), 0, rank, rules);
      hide Admit, RequestStop;
      ok := AdmitNow(r.write, now);
      if !ok || !r.write.instanceOk || job.None? || !job.value.active {
        return false;
      }
      if r.job.Some? && r.job.value != job.value.task.id {
        return false;
      }
      RequestJobStop();
    }

    method OnConfigureTags(w: Write, updated: nat, parsed: bool, now: real) returns (ok: bool)
      requires Valid() && MayAct(View(), AskConfigure(w, updated, parsed, now), rules)
      modifies this
      ensures Valid() && Steps(old(View()), View())
      ensures (View(), ok) == Configure(old(View()), w, updated, parsed, now)
    {
      hide Sane, Steps;
      ActionSane(View(), AskConfigure(w, updated, parsed, now), 0, rank, rules);
      hide Validate;
      ok := ValidateNow(w, now);
      if !ok || !parsed {
        return false;
      }
      var changed := updated != config;
      config := updated;
      if changed {
        InvalidateWindowNow();
      }
    }

    method OnClearWindow(w: Write, now: real) returns (ok: bool)
      requires Valid() && MayAct(View(), AskClear(w, now), rules)
      modifies this
      ensures Valid() && Steps(old(View()), View())
      ensures (View(), ok) == Clear(old(View()), w, now)
    {
      hide Sane, Steps;
      ActionSane(View(), AskClear(w, now), 0, rank, rules);
      hide Validate, InvalidateWindow;
      ok := ValidateNow(w, now);
      if ok {
        InvalidateWindowNow();
      }
    }

    method OnApplySaved(r: ApplyRequest, now: real, stale: bool, aged: bool, captureOk: bool) returns (ok: bool)
      requires Valid()
      modifies this
      ensures Valid() && Steps(old(View()), View())
      ensures (View(), ok) == Apply(old(View()), r, now, stale, aged, captureOk)
      ensures pending == old(pending) && window == old(window)
      ensures ok && old(pending).None? ==>
        job.Some? && job.value.candidate.Some? && job.value.candidate.value.keyframes == window.keyframes
    {
      hide Sane, Steps, Apply;
      ApplySane(View(), r, now, stale, aged, captureOk, rank, rules);
      ok := ApplySavedNow(r, now, stale, aged, captureOk);
    }

    /** What `_on_apply_saved` does. */
    method ApplySavedNow(r: ApplyRequest, now: real, stale: bool, aged: bool, captureOk: bool) returns (ok: bool)
      modifies this`desk, this`job, this`capture, this`nextEpoch
      ensures (View(), ok) == Apply(old(View()), r, now, stale, aged, captureOk)
    {
      hide Admit, Ready, Shows;
      ok := AdmitNow(r.write, now);
      if !ok || !r.write.instanceOk || r.write.window != window.revision || JobIsRunning() || !Ready(extnav, stale)
         || r.revision != extnav.status.revision {
        return false;
      }
      var retrying := pending.Some?;
      var chosen := if retrying then pending else saved;
      if chosen.None? || aged {
        return false;
      }
      var c := chosen.value;
      if c.session != extnav.status.session || c.config != config {
        return false;
      }
      if (c.saved && c.savedWindow != window.revision) || (!c.saved && c.baseWindow != window.revision) {
        return false;
      }
      if retrying && extnav.status.revision != c.expected && !Shows(extnav.status, c) {
        return false;
      }
      var task := Task(c.job, r.write.source, ApplySaved, -1, window.size, true,
                       c.session, extnav.status.revision, window.revision, !c.saved, retrying);
      c := c.(expected := extnav.status.revision);
      if !retrying {
        c := c.(epoch := nextEpoch);
        nextEpoch := nextEpoch + 1;
      }
      capture := captureOk && !resourceFault;
      if !capture {
        job := Some(Job(task, NO_STOPS, false, Some(c), false, false, Booked(Rejected), Dead));
        return false;
      }
      job := Some(Job(task, NO_STOPS, true, Some(c), false, false, Pending, Collecting));
    }

    static lemma ApplySane(
      s: Service.State, r: ApplyRequest, now: real, stale: bool, aged: bool, captureOk: bool, rank: nat, rules: Rules)
      requires rules.Valid() && Sane(s, rank, rules)
      ensures var (t, ok) := Apply(s, r, now, stale, aged, captureOk);
        && Sane(t, rank, rules) && Steps(s, t) && t.pending == s.pending && t.window == s.window
        && (ok && s.pending.None? ==>
              t.job.Some? && t.job.value.candidate.Some? && t.job.value.candidate.value.keyframes == t.window.keyframes)
    {
      hide Sane, Steps, Apply, WindowSafety.Inv;
      ActionSane(s, AskApply(r, now, stale, aged, captureOk), 0, rank, rules);
      InvOf(s, rank, rules);
      ApplyTakes(s, r, now, stale, aged, captureOk, rank, rules);
    }

    static lemma InvOf(s: Service.State, rank: nat, rules: Rules)
      requires rules.Valid() && Sane(s, rank, rules)
      ensures WindowSafety.Inv(s, rank, rules) && O.OwnerInv(s) && BookInv(s)
    {
    }

    static lemma ApplyTakes(
      s: Service.State, r: ApplyRequest, now: real, stale: bool, aged: bool, captureOk: bool, rank: nat, rules: Rules)
      requires rules.Valid() && WindowSafety.Inv(s, rank, rules)
      ensures var (t, ok) := Apply(s, r, now, stale, aged, captureOk);
        && t.pending == s.pending && t.window == s.window
        && (ok && s.pending.None? ==>
              t.job.Some? && t.job.value.candidate.Some? && t.job.value.candidate.value.keyframes == t.window.keyframes)
    {
      hide WindowSafety.Inv, Admit, AcceptsApply;
      AdmitIsCalm(s, r.write, now);
      var t := Admit(s, r.write, now).0;
      CalmKeeps(s, t, rank, rules);
      if AcceptsApply(t, r, stale, aged) {
        AcceptsHasChosen(t, r, stale, aged);
        if t.pending.None? { SavedMatches(t, r, stale, aged, rank, rules); }
      }
    }

    /** A saved candidate that may be applied has exactly the window's keyframes. */
    static lemma SavedMatches(s: Service.State, r: ApplyRequest, stale: bool, aged: bool, rank: nat, rules: Rules)
      requires rules.Valid() && WindowSafety.Inv(s, rank, rules) && AcceptsApply(s, r, stale, aged) && s.pending.None?
      ensures Chosen(s).Some? && Chosen(s).value.keyframes == s.window.keyframes
    {
      hide WindowInv, JobInv, Extends;
    }

    // --------------------------------------------------------- notifications

    method FailJobNow()
      modifies this`job
      ensures View() == FailJob(old(View()))
    {
      if job.Some? && job.value.active && !job.value.stops.failed {
        job := Some(job.value.(stops := job.value.stops.(failed := true, event := true)));
      }
    }

    method OnOdometryFault(invalidate: bool)
      modifies this`window, this`saved, this`pending, this`job
      ensures View() == OnFault(old(View()), invalidate)
    {
      hide FailJob, Emptied;
      if !capture {
        return;
      }
      if invalidate {
        InvalidateWindowNow();
      }
      FailJobNow();
    }

    /** The status callback; `later` is the rank of the session the bridge is heard with. */
    method OnExtnavStatus(m: Snapshot, ghost later: nat)
      requires Valid() && rank <= later && Authoritative(m, later)
      modifies this
      ensures Valid() && rank == later && View() == OnStatus(old(View()), m)
      ensures pending == None || pending == old(pending)
      ensures window == old(window) || (window == Emptied(old(window)) && pending == None && saved == None)
    {
      hide Sane, OnStatus;
      HearSane(View(), m, rank, later, rules);
      rank := later;
      HearStatus(m);
    }

    /** What `_on_extnav_status` does. */
    method HearStatus(m: Snapshot)
      modifies this`window, this`saved, this`pending, this`extnav, this`desk, this`job
      ensures View() == OnStatus(old(View()), m)
    {
      hide ReleaseOwner, FailJob, ExplicitlyUnavailable;
      var unavailable := ExplicitlyUnavailable(m);
      var changed := (extnav.status.session != NO_SESSION && m.status.session != extnav.status.session)
        || (window.keyframes != [] && m.status.session != window.keyframes[0].session);
      var emptied := changed || (window.keyframes != [] && unavailable);
      extnav := m.(heard := true);
      if emptied {
        InvalidateWindowNow();
      }
      if desk.owner != NO_SOURCE && (changed || unavailable || !m.version.SameVersion?) {
        ReleaseOwnerNow();
      }
      if job.Some? && job.value.active
         && (!m.version.SameVersion? || !m.status.available || m.status.session != job.value.task.session) {
        FailJobNow();
      }
    }

    static lemma HearSane(s: Service.State, m: Snapshot, rank: nat, later: nat, rules: Rules)
      requires rules.Valid() && Sane(s, rank, rules) && rank <= later && Authoritative(m, later)
      ensures var t := OnStatus(s, m);
        && Sane(t, later, rules) && (t.pending == None || t.pending == s.pending)
        && (t.window == s.window || (t.window == Emptied(s.window) && t.pending == None && t.saved == None))
    {
      hide Sane, OnStatus, WindowSafety.Inv, O.OwnerInv, BookInv, Less, Calm;
      InvOf(s, rank, rules);
      HearKeeps(s, m, rank, later, rules);
      O.HearKeepsOwner(s, m);
      HearIsLess(s, m);
      LessKeeps(s, OnStatus(s, m));
      SaneOf(OnStatus(s, m), later, rules);
      HearMoves(s, m);
    }

    static lemma SaneOf(s: Service.State, rank: nat, rules: Rules)
      requires rules.Valid() && WindowSafety.Inv(s, rank, rules) && O.OwnerInv(s) && BookInv(s)
      ensures Sane(s, rank, rules)
    {
    }

    static lemma HearMoves(s: Service.State, m: Snapshot)
      requires Calm(HearWindow(s, m), OnStatus(s, m))
      ensures var t := OnStatus(s, m);
        && (t.pending == None || t.pending == s.pending)
        && (t.window == s.window || (t.window == Emptied(s.window) && t.pending == None && t.saved == None))
    {
      hide OnStatus, ExplicitlyUnavailable, SessionChanged, Emptied;
    }

    /** A fault the odometry reports while nothing else is under way. */
    method ReportFault(invalidate: bool)
      requires Valid()
      modifies this`window, this`saved, this`pending, this`job
      ensures Valid() && Steps(old(View()), View()) && View() == OnFault(old(View()), invalidate)
    {
      hide Sane, Steps, OnFault;
      ActionSane(View(), Fault(invalidate), 0, rank, rules);
      OnOdometryFault(invalidate);
    }

    /** `_publish_status`: the lease is checked, and an acknowledged application may be confirmed late. */
    method PublishStatus(now: real, stale: bool)
      requires Valid()
      modifies this`desk, this`job, this`saved
      ensures Valid() && View() == Confirm(ExpireOwner(old(View()), now), stale)
      ensures saved == old(saved)
    {
      hide Sane, ExpireOwner, Matches;
      ConfirmSane(View(), now, stale, rank, rules);
      ExpireOwnerNow(now);
      if job.Some? && !job.value.active && job.value.application.Booked? && job.value.application.outcome.AppliedAck?
         && job.value.candidate.Some? && extnav.status.revision == job.value.application.outcome.revision
         && Matches(extnav, job.value.candidate.value.(expected := job.value.task.baseRevision), stale) {
        job := Some(job.value.(application := Booked(AppliedStatus(extnav.status.revision))));
        if saved.Some? && saved.value.job == job.value.candidate.value.job {
          saved := job.value.candidate;
        }
      }
    }

    static lemma ConfirmSane(s: Service.State, now: real, stale: bool, rank: nat, rules: Rules)
      requires rules.Valid() && Sane(s, rank, rules)
      ensures var t := Confirm(ExpireOwner(s, now), stale); Sane(t, rank, rules) && t.saved == s.saved
    {
      hide Sane, Steps, ExpireOwner, Confirm, WindowSafety.Inv, O.OwnerInv, BookInv, Calm;
      var u := ExpireOwner(s, now);
      ActionSane(s, Tick(now), 0, rank, rules);
      InvOf(u, rank, rules);
      ConfirmKeepsInv(u, stale, rank, rules);
      ConfirmSaves(u, stale, rank, rules);
      ConfirmOwner(u, stale);
      SaneOf(Confirm(u, stale), rank, rules);
      ExpireOwnerIsCalm(s, now);
      CalmSaves(s, u);
    }

    static lemma CalmSaves(s: Service.State, t: Service.State)
      requires Calm(s, t)
      ensures t.saved == s.saved
    {
    }

    static lemma ConfirmOwner(s: Service.State, stale: bool)
      requires O.OwnerInv(s)
      ensures O.OwnerInv(Confirm(s, stale))
    {
      hide Matches;
    }

    // ------------------------------------------------------------ the worker

    /** Sampling, or waiting for odometry, is over. */
    method CollectionEnds(failed: bool)
      requires Valid() && MayAct(View(), DoCollect(failed), rules)
      modifies this`job
      ensures Valid() && Steps(old(View()), View()) && View() == Collected(old(View()), failed)
    {
      hide Sane, Steps;
      ActionSane(View(), DoCollect(failed), 0, rank, rules);
      SetPhase(Phase.Releasing(failed || job.value.candidate.None?));
    }

    /** No usable answer came in time. */
    method AnswerTimesOut()
      requires Valid() && MayAct(View(), DoGiveUp, rules)
      modifies this`job
      ensures Valid() && Steps(old(View()), View()) && View() == Unanswered(old(View()))
    {
      hide Sane, Steps;
      ActionSane(View(), DoGiveUp, 0, rank, rules);
      SetPhase(Confirming(job.value.phase.flight, None));
    }

    /** The worker thread returns. */
    method ThreadEnds()
      requires Valid() && MayAct(View(), DoDie, rules)
      modifies this`job
      ensures Valid() && Steps(old(View()), View()) && View() == Die(old(View()))
    {
      hide Sane, Steps;
      ActionSane(View(), DoDie, 0, rank, rules);
      SetPhase(Phase.Dead);
    }

    method SetPhase(p: Phase)
      requires job.Some?
      modifies this`job
      ensures View() == At(old(View()), p)
    {
      job := Some(job.value.(phase := p));
    }

    /** `_freeze_candidate_locked`, once the registration passed. */
    method FreezeCandidate(k: Keyframe, values: Values, q: Quality)
      requires Valid() && MayAct(View(), DoFreeze(k, values, q), rules)
      modifies this
      ensures Valid() && Steps(old(View()), View())
      ensures View() == Freeze(old(View()), k, values, q)
    {
      hide Sane, Steps;
      ActionSane(View(), DoFreeze(k, values, q), 0, rank, rules);
      var task := job.value.task;
      var kept: seq<Keyframe> := if task.operation == First then [] else window.keyframes;
      var temporary := R.Last(kept + [k], task.size);
      var c := Candidate(
        temporary, values, task.session, config, task.id, task.baseWindow, task.baseRevision, false, 0,
        q.sampleCount, q.positionStd, q.yawStd, q.reprojection, q.matchError, nextEpoch);
      nextEpoch := nextEpoch + 1;
      job := Some(job.value.(candidate := Some(c), phase := Phase.Releasing(false)));
    }

    /** The end of `_run_sampling_job` and `_run_apply_saved_job`: release, then go on or give up. */
    method ReleaseCapture(fault: Option<bool>, released: bool)
      requires Valid() && MayAct(View(), DoRelease(fault, released), rules)
      modifies this
      ensures Valid() && Steps(old(View()), View())
      ensures View() == Release(old(View()), fault, released)
    {
      hide Sane, Steps, OnFault, Act, AfterRelease;
      ghost var s := View();
      ReleaseSane(s, fault, released, rank, rules);
      if !released {
        resourceFault := true;
      }
      FaultReadsNoFlag(View(), s, fault);
      FaultKeepsJob(View(), fault);
      if fault.Some? {
        OnOdometryFault(fault.value);
      }
      MoveOn(released);
    }

    static lemma ReleaseSane(s: Service.State, fault: Option<bool>, released: bool, rank: nat, rules: Rules)
      requires rules.Valid() && Sane(s, rank, rules) && MayAct(s, DoRelease(fault, released), rules)
      ensures s.job.Some? && s.job.value.phase.Releasing?
      ensures var t := Release(s, fault, released); Sane(t, rank, rules) && Steps(s, t)
    {
      ActionSane(s, DoRelease(fault, released), 0, rank, rules);
      hide Sane, Steps, Release;
    }

    /** The capture is closed; the job goes on if all went well. */
    method MoveOn(released: bool)
      requires job.Some? && job.value.phase.Releasing?
      modifies this`capture, this`job
      ensures !capture && job == Some(AfterRelease(old(job).value, released))
    {
      capture := false;
      var j := job.value;
      if j.phase.failed || !released {
        if j.task.apply {
          j := j.(application := Booked(Rejected));
        }
        j := j.(phase := Finishing(false));
      } else if j.task.apply {
        j := j.(phase := Beginning);
      } else {
        j := j.(phase := Saving);
      }
      job := Some(j);
    }

    static lemma FaultReadsNoFlag(t: Service.State, s: Service.State, fault: Option<bool>)
      requires t == s.(resourceFault := t.resourceFault)
      ensures fault.Some? ==> OnFault(t, fault.value) == OnFault(s, fault.value).(resourceFault := t.resourceFault)
    {
    }

    static lemma FaultKeepsJob(s: Service.State, fault: Option<bool>)
      requires s.job.Some?
      ensures fault.Some? ==> OnFault(s, fault.value).job.Some? && OnFault(s, fault.value).job.value.phase == s.job.value.phase
    {
    }

    /** The opening section of `_apply_and_finalize`. */
    method BeginApply()
      requires Valid() && MayAct(View(), DoBegin, rules)
      modifies this`job, this`pending
      ensures Valid() && Steps(old(View()), View())
      ensures View() == Begin(old(View()))
    {
      hide Sane, Steps;
      ActionSane(View(), DoBegin, 0, rank, rules);
      pending := job.value.candidate;
      job := Some(job.value.(application := Pending, phase := Checking));
    }

    /** `_apply_to_extnav` up to service discovery, and after it. */
    method CheckBeforeDiscovery(stale: bool)
      requires Valid() && MayAct(View(), DoCheck(stale), rules)
      modifies this`job
      ensures Valid() && Steps(old(View()), View())
      ensures View() == Check(old(View()), stale)
    {
      hide Sane, Steps;
      ActionSane(View(), DoCheck(stale), 0, rank, rules);
      var failure := if job.value.task.retrying then Unknown else Rejected;
      var c := job.value.candidate.value;
      if !Ready(extnav, stale) || extnav.status.session != c.session || extnav.status.revision != c.expected {
        SetPhase(Settling(failure));
      } else {
        SetPhase(Discovering);
      }
    }

    method DiscoveryEnds(found: bool)
      requires Valid() && MayAct(View(), DoDiscover(found), rules)
      modifies this`job
      ensures Valid() && Steps(old(View()), View())
      ensures View() == Discover(old(View()), found)
    {
      hide Sane, Steps;
      ActionSane(View(), DoDiscover(found), 0, rank, rules);
      if found {
        SetPhase(Sending);
      } else {
        SetPhase(Settling(if job.value.task.retrying then Unknown else Rejected));
      }
    }

    /** The sending section of `_apply_to_extnav`. */
    method SendRequest(now: real, stale: bool, raises: bool, flight: nat) returns (request: Option<Request>)
      requires Valid() && MayAct(View(), DoSend(now, stale, raises), rules)
      modifies this
      ensures Valid() && Steps(old(View()), View())
      ensures (View(), request) == Send(old(View()), now, stale, raises, flight)
      ensures job.Some? && !BeforeSending(job.value.phase)
      ensures request.Some? ==>
        !LeaseOver(old(desk), now) && !old(job.value.stops.Any()) && !closing && old(window.revision == job.value.task.baseWindow)
    {
      hide Sane, Steps, Send, Act;
      SendSane(View(), now, stale, raises, flight, rank, rules);
      request := SendNow(now, stale, raises, flight);
    }

    static lemma SendSane(s: Service.State, now: real, stale: bool, raises: bool, flight: nat, rank: nat, rules: Rules)
      requires rules.Valid() && Sane(s, rank, rules) && MayAct(s, DoSend(now, stale, raises), rules)
      ensures s.job.Some? && s.job.value.candidate.Some?
      ensures var (t, request) := Send(s, now, stale, raises, flight);
        && Sane(t, rank, rules) && Steps(s, t) && t.job.Some? && !BeforeSending(t.job.value.phase)
        && (request.Some? ==>
              !LeaseOver(s.desk, now) && !s.job.value.stops.Any() && !t.closing && s.window.revision == s.job.value.task.baseWindow)
    {
      hide Sane, Steps, Send, O.OwnerInv, WindowSafety.Inv, BookInv;
      ActionSane(s, DoSend(now, stale, raises), flight, rank, rules);
      InvOf(s, rank, rules);
      SendOnce(s, now, stale, raises, flight);
    }

    /** What the sending section does. */
    method SendNow(now: real, stale: bool, raises: bool, flight: nat) returns (request: Option<Request>)
      requires job.Some? && job.value.candidate.Some?
      modifies this`desk, this`job
      ensures (View(), request) == Send(old(View()), now, stale, raises, flight)
    {
      hide ExpireOwner, Ready;
      ExpireKeepsCandidate(View(), now);
      ExpireOwnerNow(now);
      var c := job.value.candidate.value;
      var failure := if job.value.task.retrying then Unknown else Rejected;
      if !job.value.sent && (job.value.stops.user || job.value.stops.event || closing || job.value.stops.failed) {
        SetPhase(Settling(failure));
        return None;
      }
      if !Ready(extnav, stale) || extnav.status.session != c.session || extnav.status.revision != c.expected
         || window.revision != job.value.task.baseWindow {
        SetPhase(Settling(failure));
        return None;
      }
      request := Some(RequestOf(c));
      if raises {
        SetPhase(Settling(Unknown));
        return;
      }
      job := Some(job.value.(sent := true, phase := Waiting(flight)));
    }

    /** After this section the job never comes back to it, whether or not a request left. */
    static lemma SendOnce(s: Service.State, now: real, stale: bool, raises: bool, flight: nat)
      requires O.OwnerInv(s) && HasCandidate(s) && s.job.value.phase.Sending?
      ensures var (t, request) := Send(s, now, stale, raises, flight);
        && t.job.Some? && !BeforeSending(t.job.value.phase)
        && (request.Some? ==>
              !LeaseOver(s.desk, now) && !s.job.value.stops.Any() && !t.closing && s.window.revision == s.job.value.task.baseWindow)
    {
      O.SendKeepsOwner(s, now, stale, raises, flight);
      ExpireOwnerIsCalm(s, now);
      O.ExpireOwnerKeeps(s, now);
      hide ExpireOwner, O.OwnerInv, Current;
    }

    static lemma ExpireKeepsCandidate(s: Service.State, now: real)
      requires s.job.Some?
      ensures var t := ExpireOwner(s, now);
        t.job.Some? && t.job.value.candidate == s.job.value.candidate && t.job.value.phase == s.job.value.phase
    {
    }

    method AnswerArrives(a: Response)
      requires Valid() && MayAct(View(), DoHearAnswer(a), rules)
      modifies this`job
      ensures Valid() && Steps(old(View()), View())
      ensures View() == Answered(old(View()), a)
    {
      hide Sane, Steps;
      ActionSane(View(), DoHearAnswer(a), 0, rank, rules);
      var c := job.value.candidate.value;
      if a.accepted && a.applied && a.session == c.session && a.revision >= c.expected {
        if AutomaticSource(job.value.task.source) {
          SetPhase(Confirming(job.value.phase.flight, Some(a.revision)));
        } else {
          SetPhase(Settling(AppliedAck(a.revision)));
        }
      } else if job.value.task.retrying {
        SetPhase(Settling(Unknown));
      } else {
        SetPhase(Settling(Rejected));
      }
    }

    /** One turn of the loop of `_reconcile_application`. */
    method PollStatus(stale: bool, deadline: bool)
      requires Valid() && MayAct(View(), DoPoll(stale, deadline), rules)
      modifies this`job
      ensures Valid() && Steps(old(View()), View())
      ensures View() == Reconcile(old(View()), stale, deadline)
    {
      hide Sane, Steps;
      ActionSane(View(), DoPoll(stale, deadline), 0, rank, rules);
      hide Matches;
      var ack := job.value.phase.ack;
      var matches := Matches(extnav, job.value.candidate.value, stale);
      if ack.Some? {
        matches := matches && extnav.status.revision == ack.value;
      }
      if matches {
        SetPhase(Settling(AppliedStatus(extnav.status.revision)));
      } else if deadline {
        SetPhase(Settling(if ack.Some? then AppliedAck(ack.value) else Unknown));
      }
    }

    /** The booking section of `_apply_and_finalize`. */
    method Book(stale: bool)
      requires Valid() && MayAct(View(), DoSettle(stale), rules)
      modifies this
      ensures Valid() && Steps(old(View()), View())
      ensures View() == Settle(old(View()), stale)
      ensures pending.Some? <==> old(job.value.phase.outcome).Unknown?
      ensures window.revision == old(window.revision) <==> window == old(window)
      ensures SE.BooksApplied(old(View())) ==> BookedIn(old(View()), View(), stale)
    {
      hide Sane, Steps, Settle, Act, BookedIn;
      SettleSane(View(), stale, rank, rules);
      if SE.BooksApplied(View()) { SettleBooksIn(View(), stale, rank, rules); }
      BookNow(stale);
    }

    /** What booking an applied candidate comes to: if the job was to extend the window and everything still agrees, the
        new keyframe is accepted, the window is the newest of what it accepted, and what is saved is of this window and of
        the revision it was applied at; otherwise the window stays, and only a candidate that was in it already succeeds. */
    static predicate BookedIn(s: Service.State, t: Service.State, stale: bool)
      requires SE.BooksApplied(s)
    {
      var j, c := s.job.value, s.job.value.candidate.value;
      && t.pending == None && t.job.Some?
      && (if !j.task.increment then
            t.window == s.window && SE.IsSaved(t.saved, c, s.window.revision, j.phase.outcome.revision)
            && t.job.value.phase == Finishing(SE.Sure(s))
          else if SE.StillAgrees(s, j, c, stale) then
            && t.window.accepted == s.window.accepted + [c.keyframes[|c.keyframes| - 1]]
            && t.window.keyframes == R.Last(t.window.accepted, t.window.size) && t.window.revision == s.window.revision + 1
            && SE.IsSaved(t.saved, c, t.window.revision, j.phase.outcome.revision) && t.saved.value.keyframes == t.window.keyframes
            && t.job.value.windowSaved && t.job.value.phase == Finishing(SE.Sure(s))
          else t.window == s.window && t.saved == s.saved && t.job.value.phase == Finishing(false))
    }

    static lemma SettleBooksIn(s: Service.State, stale: bool, rank: nat, rules: Rules)
      requires rules.Valid() && Sane(s, rank, rules) && MayAct(s, DoSettle(stale), rules) && SE.BooksApplied(s)
      ensures BookedIn(s, Settle(s, stale), stale)
    {
      SettleSane(s, stale, rank, rules);
      WindowIsLast(Settle(s, stale), rank, rules);
      var j := s.job.value;
      if !j.task.increment {
        SE.AppliedAgain(s, stale);
      } else if SE.StillAgrees(s, j, j.candidate.value, stale) {
        SE.AppliedEnters(s, stale);
      } else {
        SE.AppliedTooLate(s, stale);
      }
      hide Sane, Steps, Settle, MayAct, R.Last, SE.StillAgrees, SE.Leased;
    }

    static lemma WindowIsLast(s: Service.State, rank: nat, rules: Rules)
      requires rules.Valid() && Sane(s, rank, rules)
      ensures s.window.keyframes == R.Last(s.window.accepted, s.window.size)
    {
      hide O.OwnerInv, BookInv, SnapshotInv, LatchInv, HeldInv, R.Last;
    }

    static lemma SettleSane(s: Service.State, stale: bool, rank: nat, rules: Rules)
      requires rules.Valid() && Sane(s, rank, rules) && MayAct(s, DoSettle(stale), rules)
      ensures HasCandidate(s) && s.job.value.phase.Settling?
      ensures var t := Settle(s, stale);
        && Sane(t, rank, rules) && Steps(s, t) && (t.pending.Some? <==> s.job.value.phase.outcome.Unknown?)
        && (t.window.revision == s.window.revision <==> t.window == s.window)
    {
      hide Sane, Steps, Settle;
      ActionSane(s, DoSettle(stale), 0, rank, rules);
      SettleMoves(s, stale);
    }

    static lemma SettleMoves(s: Service.State, stale: bool)
      requires HasCandidate(s) && s.job.value.phase.Settling?
      ensures var t := Settle(s, stale);
        && (t.pending.Some? <==> s.job.value.phase.outcome.Unknown?)
        && (t.window.revision == s.window.revision <==> t.window == s.window)
    {
      hide MayCommit, Succeeds;
    }

    /** What the booking section does. */
    method BookNow(stale: bool)
      requires HasCandidate(View()) && job.value.phase.Settling?
      modifies this`window, this`saved, this`pending, this`job
      ensures View() == Settle(old(View()), stale)
    {
      hide SettleApplied;
      var outcome := job.value.phase.outcome;
      var c := job.value.candidate.value;
      if outcome.Applied() {
        if job.value.task.increment {
          BookNewWindow(c, outcome, stale);
        } else {
          BookSaved(c, outcome, stale);
        }
      } else if outcome.Rejected? {
        if pending.Some? && pending.value.saved {
          saved := pending;
        }
        pending := None;
        job := Some(job.value.(application := Booked(Rejected), phase := Finishing(false)));
      } else {
        pending := Some(c);
        if c.saved {
          saved := pending;
        }
        job := Some(job.value.(application := Booked(Unknown), phase := Finishing(false)));
      }
    }

    /** A new window that was applied: commit it, unless it can no longer be. */
    method BookNewWindow(c: Candidate, outcome: Outcome, stale: bool)
      requires job.Some? && job.value.task.increment && c.keyframes != [] && outcome.Applied()
      modifies this`window, this`saved, this`pending, this`job
      ensures View() == SettleApplied(old(View()), c, outcome, stale)
    {
      hide MayCommit, Committed;
      var j := job.value.(application := Booked(outcome));
      var success := outcome.AppliedStatus? || !AutomaticSource(j.task.source);
      var committed := CommitNewWindow(c, j.task, outcome.revision, stale);
      pending := None;
      if committed {
        job := Some(j.(candidate := saved, windowSaved := true, phase := Finishing(success)));
      } else {
        job := Some(j.(phase := Finishing(false)));
      }
    }

    /** A saved candidate that was applied again. */
    method BookSaved(c: Candidate, outcome: Outcome, stale: bool)
      requires job.Some? && !job.value.task.increment && c.keyframes != [] && outcome.Applied()
      modifies this`saved, this`pending, this`job
      ensures View() == SettleApplied(old(View()), c, outcome, stale)
    {
      hide MayCommit, CommitWindow;
      var j := job.value.(application := Booked(outcome));
      var success := outcome.AppliedStatus? || !AutomaticSource(j.task.source);
      saved := Some(c.(saved := true, savedWindow := window.revision, expected := outcome.revision));
      pending := None;
      job := Some(j.(candidate := saved, phase := Finishing(success)));
    }

    predicate AutomaticSource(source: Source)
      reads this`desk
    {
      source != NO_SOURCE && (source == desk.owner || source in desk.retired)
    }

    /** `_save_dry_run_and_finalize`. */
    method SaveDryRunNow(now: real, stale: bool)
      requires Valid() && MayAct(View(), DoSave(now, stale), rules)
      modifies this
      ensures Valid() && Steps(old(View()), View())
      ensures View() == SaveDryRun(old(View()), now, stale)
    {
      hide Sane, Steps, SaveDryRun;
      ActionSane(View(), DoSave(now, stale), 0, rank, rules);
      CommitDryRun(now, stale);
    }

    method CommitDryRun(now: real, stale: bool)
      requires HasCandidate(View())
      modifies this`desk, this`job, this`window, this`saved
      ensures View() == SaveDryRun(old(View()), now, stale)
    {
      hide ExpireOwner, MayCommit;
      ExpireKeepsCandidate(View(), now);
      ExpireOwnerNow(now);
      var committed := false;
      if !job.value.stops.failed && !job.value.stops.user && !job.value.stops.event && !closing {
        committed := CommitNewWindow(job.value.candidate.value, job.value.task, extnav.status.revision, stale);
      }
      if committed {
        job := Some(job.value.(candidate := saved, windowSaved := true, application := NotRequested, phase := Finishing(true)));
      } else {
        SetPhase(Finishing(false));
      }
    }

    method FinishJob()
      requires Valid() && MayAct(View(), DoFinish, rules)
      modifies this`job
      ensures Valid() && Steps(old(View()), View())
      ensures View() == Finish(old(View()))
    {
      hide Sane, Steps;
      ActionSane(View(), DoFinish, 0, rank, rules);
      job := Some(job.value.(active := false, phase := Ending));
    }

    method CloseNode()
      requires Valid() && MayAct(View(), Shutdown, rules)
      modifies this`job, this`closing
      ensures Valid() && Steps(old(View()), View())
      ensures View() == Close(old(View()))
    {
      hide Sane, Steps;
      ActionSane(View(), Shutdown, 0, rank, rules);
      closing := true;
      if job.Some? && job.value.active {
        job := Some(job.value.(stops := job.value.stops.(event := true)));
      }
    }
  }
}
