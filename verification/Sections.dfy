/** Every section of the service as one action, and what holds of the service alone: window safety
    and owner safety. An action carries what the section reads from outside: the clock, the answers
    of the network and the estimator's results.
 */
module Sections {
  import opened Options
  import opened Bridge
  import opened Service
  import opened WindowSafety

  datatype Action =
    // requests
    | AskOwner(owner: OwnerRequest, now: real)
    | AskStart(start: StartRequest, now: real, stale: bool, capture: bool)
    | AskStop(stop: StopRequest, now: real)
    | AskConfigure(write: Write, config: nat, parsed: bool, now: real)
    | AskClear(write: Write, now: real)
    | AskApply(apply: ApplyRequest, now: real, stale: bool, aged: bool, capture: bool)
    // timers, faults and shutdown
    | Tick(now: real)
    | Fault(invalidate: bool)
    | Shutdown
    // the worker thread
    | DoFreeze(keyframe: Keyframe, values: Values, quality: Quality)
    | DoCollect(failed: bool)
    | DoRelease(fault: Option<bool>, released: bool)
    | DoSave(now: real, stale: bool)
    | DoBegin
    | DoCheck(stale: bool)
    | DoDiscover(found: bool)
    | DoSend(now: real, stale: bool, raises: bool)
    | DoHearAnswer(answer: Response)
    | DoGiveUp
    | DoPoll(stale: bool, deadline: bool)
    | DoSettle(stale: bool)
    | DoFinish
    | DoDie

  /** Is the worker thread at the place where it performs this action? Calls from outside always may. */
  ghost predicate MayAct(s: Service.State, a: Action, rules: Rules)
    requires rules.Valid()
  {
    match a
    case AskStart(r, _, _, _) => r.maximumSize == rules.maximumSize
    case AskOwner(_, _) | AskStop(_, _) | AskConfigure(_, _, _, _) | AskClear(_, _) | AskApply(_, _, _, _, _)
       | Tick(_) | Fault(_) | Shutdown => true
    case DoFreeze(k, _, _) =>
      s.job.Some? && s.job.value.phase.Collecting? && !s.job.value.task.operation.ApplySaved?
      && k.session == s.job.value.task.session
      && Registered(s.job.value.task.operation, s.window.keyframes, k, rules)
    case DoCollect(_) => s.job.Some? && s.job.value.phase.Collecting?
    case DoRelease(_, _) => s.job.Some? && s.job.value.phase.Releasing?
    case DoSave(_, _) => HasCandidate(s) && s.job.value.phase.Saving?
    case DoBegin => HasCandidate(s) && s.job.value.phase.Beginning?
    case DoCheck(_) => HasCandidate(s) && s.job.value.phase.Checking?
    case DoDiscover(_) => HasCandidate(s) && s.job.value.phase.Discovering?
    case DoSend(_, _, _) => HasCandidate(s) && s.job.value.phase.Sending?
    case DoHearAnswer(_) => HasCandidate(s) && s.job.value.phase.Waiting?
    case DoGiveUp => HasCandidate(s) && s.job.value.phase.Waiting?
    case DoPoll(_, _) => HasCandidate(s) && s.job.value.phase.Confirming?
    case DoSettle(_) => HasCandidate(s) && s.job.value.phase.Settling?
    case DoFinish => s.job.Some? && s.job.value.phase.Finishing?
    case DoDie => s.job.Some? && s.job.value.phase.Ending?
  }

  /** The state after an action; a request that is sent takes place `flight` in the network. */
  function Act(s: Service.State, a: Action, flight: nat, rules: Rules): Service.State
    requires rules.Valid() && MayAct(s, a, rules)
  {
    match a
    case AskOwner(r, now) => SetOwner(s, r, now).0
    case AskStart(r, now, stale, capture) => Start(s, r, now, stale, capture).0
    case AskStop(r, now) => Stop(s, r, now).0
    case AskConfigure(w, config, parsed, now) => Configure(s, w, config, parsed, now).0
    case AskClear(w, now) => Clear(s, w, now).0
    case AskApply(r, now, stale, aged, capture) => Apply(s, r, now, stale, aged, capture).0
    case Tick(now) => ExpireOwner(s, now)
    case Fault(invalidate) => OnFault(s, invalidate)
    case Shutdown => Close(s)
    case DoFreeze(k, values, q) => Freeze(s, k, values, q)
    case DoCollect(failed) => Collected(s, failed)
    case DoRelease(fault, released) => Release(s, fault, released)
    case DoSave(now, stale) => SaveDryRun(s, now, stale)
    case DoBegin => Begin(s)
    case DoCheck(stale) => Check(s, stale)
    case DoDiscover(found) => Discover(s, found)
    case DoSend(now, stale, raises) => Send(s, now, stale, raises, flight).0
    case DoHearAnswer(answer) => Answered(s, answer)
    case DoGiveUp => Unanswered(s)
    case DoPoll(stale, deadline) => Reconcile(s, stale, deadline)
    case DoSettle(stale) => Settle(s, stale)
    case DoFinish => Finish(s)
    case DoDie => Die(s)
  }

  /** The request an action sends, if any. */
  function Sends(s: Service.State, a: Action, flight: nat, rules: Rules): Option<Request>
    requires rules.Valid() && MayAct(s, a, rules)
  {
    if a.DoSend? then Send(s, a.now, a.stale, a.raises, flight).1 else None
  }

  lemma RequestsKeepInv(s: Service.State, a: Action, flight: nat, rank: nat, rules: Rules)
    requires rules.Valid() && WindowSafety.Inv(s, rank, rules) && MayAct(s, a, rules)
    requires a.AskOwner? || a.AskStart? || a.AskStop? || a.AskConfigure? || a.AskClear? || a.AskApply?
      || a.Tick? || a.Fault? || a.Shutdown?
    ensures WindowSafety.Inv(Act(s, a, flight, rules), rank, rules)
  {
    hide WindowSafety.Inv, Calm, SetOwner, Start, Stop, Configure, Clear, Apply, ExpireOwner, OnFault, Close;
    var t := Act(s, a, flight, rules);
    match a
    case AskOwner(r, now) => SetOwnerIsCalm(s, r, now); CalmKeeps(s, t, rank, rules);
    case AskStart(r, now, stale, capture) => StartKeeps(s, r, now, stale, capture, rank, rules);
    case AskStop(r, now) => StopIsCalm(s, r, now); CalmKeeps(s, t, rank, rules);
    case AskConfigure(w, config, parsed, now) => ConfigureKeeps(s, w, config, parsed, now, rank, rules);
    case AskClear(w, now) => ClearKeeps(s, w, now, rank, rules);
    case AskApply(r, now, stale, aged, capture) => ApplyKeeps(s, r, now, stale, aged, capture, rank, rules);
    case Tick(now) => ExpireOwnerIsCalm(s, now); CalmKeeps(s, t, rank, rules);
    case Fault(invalidate) => FaultKeeps(s, invalidate, rank, rules);
    case Shutdown => CloseIsCalm(s); CalmKeeps(s, t, rank, rules);
  }

  lemma ActionKeepsInv(s: Service.State, a: Action, flight: nat, rank: nat, rules: Rules)
    requires rules.Valid() && WindowSafety.Inv(s, rank, rules) && MayAct(s, a, rules)
    ensures WindowSafety.Inv(Act(s, a, flight, rules), rank, rules)
  {
    if a.AskOwner? || a.AskStart? || a.AskStop? || a.AskConfigure? || a.AskClear? || a.AskApply?
       || a.Tick? || a.Fault? || a.Shutdown? {
      RequestsKeepInv(s, a, flight, rank, rules);
    } else {
      WorkKeepsInv(s, a, flight, rank, rules);
    }
  }

  lemma WorkKeepsInv(s: Service.State, a: Action, flight: nat, rank: nat, rules: Rules)
    requires rules.Valid() && WindowSafety.Inv(s, rank, rules) && MayAct(s, a, rules)
    requires !(a.AskOwner? || a.AskStart? || a.AskStop? || a.AskConfigure? || a.AskClear? || a.AskApply?
      || a.Tick? || a.Fault? || a.Shutdown?)
    ensures WindowSafety.Inv(Act(s, a, flight, rules), rank, rules)
  {
    hide WindowSafety.Inv, Registered, Freeze, Collected, Release, SaveDryRun, Begin, Check, Discover, Send,
      Answered, Unanswered, Reconcile, Settle, Finish, Die;
    match a
    case DoFreeze(k, values, q) => FreezeKeeps(s, k, values, q, rank, rules);
    case DoCollect(failed) => CollectedKeeps(s, failed, rank, rules);
    case DoRelease(fault, released) => ReleaseKeeps(s, fault, released, rank, rules);
    case DoSave(now, stale) => SaveDryRunKeeps(s, now, stale, rank, rules);
    case DoBegin => WindowSafety.BeginKeeps(s, rank, rules);
    case DoCheck(stale) => CheckKeeps(s, stale, rank, rules);
    case DoDiscover(found) => DiscoverKeeps(s, found, rank, rules);
    case DoSend(now, stale, raises) => SendKeeps(s, now, stale, raises, flight, rank, rules);
    case DoHearAnswer(answer) => AnsweredKeeps(s, answer, rank, rules);
    case DoGiveUp => UnansweredKeeps(s, rank, rules);
    case DoPoll(stale, deadline) => ReconcileKeeps(s, stale, deadline, rank, rules);
    case DoSettle(stale) => SettleKeeps(s, stale, rank, rules);
    case DoFinish => FinishKeeps(s, rank, rules);
    case DoDie => FinishKeeps(s, rank, rules);
  }

  /** A window changes only by losing everything or by one accepted keyframe, and its revision says so. */
  ghost predicate WindowStep(v: Window, w: Window) {
    || (w.keyframes == v.keyframes && w.revision == v.revision && w.accepted == v.accepted)
    || (w.revision == v.revision + 1 && w.keyframes == [] && w.accepted == [])
    || (w.revision == v.revision + 1 && w.accepted != [] && w.accepted[..|w.accepted| - 1] == v.accepted)
  }

  /** The same application: its epoch and what it asks the bridge to hold. */
  predicate SameClaim(a: Option<Candidate>, b: Option<Candidate>) {
    && a.Some? && b.Some? && a.value.epoch == b.value.epoch
    && a.value.job == b.value.job && a.value.session == b.value.session && a.value.values == b.value.values
  }

  /** The job was booked as `application`: its lease, its task and its claim stay what they were. */
  ghost predicate Booking(s: Service.State, t: Service.State, application: Application) {
    && t.desk == s.desk && t.nextEpoch == s.nextEpoch && t.extnav == s.extnav && WindowStep(s.window, t.window)
    && s.job.Some? && t.job.Some?
    && t.job.value.task == s.job.value.task && t.job.value.stops == s.job.value.stops
    && t.job.value.sent == s.job.value.sent && t.job.value.active == s.job.value.active
    && t.job.value.phase.Finishing? && Unfinished(s.job.value.phase)
    && t.job.value.application == application && SameClaim(s.job.value.candidate, t.job.value.candidate)
    && (t.pending.Some? ==> t.pending == s.pending || t.pending == s.job.value.candidate == t.job.value.candidate)
  }

  lemma SettleBooks(s: Service.State, stale: bool)
    requires HasCandidate(s) && s.job.value.phase.Settling?
    ensures Booking(s, Settle(s, stale), Booked(s.job.value.phase.outcome))
  {
    hide SettleApplied, SettleRejected, SettleUnknown;
    var c, o := s.job.value.candidate.value, s.job.value.phase.outcome;
    if o.Applied() {
      SettleAppliedBooks(s, c, o, stale);
    }
    SettleOtherwiseBooks(s, c);
  }

  /** Any booking that leaves the lease alone and ends the job's claims. */
  lemma Books(s: Service.State, base: Service.State, saved: Option<Candidate>, pending: Option<Candidate>, k: Job)
    requires base.desk == s.desk && base.nextEpoch == s.nextEpoch && base.extnav == s.extnav
    requires WindowStep(s.window, base.window) && s.job.Some? && Unfinished(s.job.value.phase)
    requires k.task == s.job.value.task && k.stops == s.job.value.stops && k.sent == s.job.value.sent
    requires k.active == s.job.value.active && k.phase.Finishing? && SameClaim(s.job.value.candidate, k.candidate)
    requires pending == None || pending == s.pending
    ensures Booking(s, base.(saved := saved, pending := pending, job := Some(k)), k.application)
  {
  }

  lemma SettleAppliedBooks(s: Service.State, c: Candidate, o: Outcome, stale: bool)
    requires s.job.Some? && s.job.value.phase.Settling? && c.keyframes != [] && o.Applied()
    requires s.job.value.candidate == Some(c)
    ensures Booking(s, SettleApplied(s, c, o, stale), Booked(o))
  {
    hide MayCommit, Succeeds, CommitWindow, Booking;
    var j := s.job.value.(application := Booked(o));
    var done := Finishing(Succeeds(s, j, o));
    var t := CommitWindow(s, c, o.revision);
    CommitMovesWindow(s, c, o.revision);
    if !j.task.increment {
      var kept := Some(SavedForm(c, s.window.revision, o.revision));
      Books(s, s, kept, None, j.(candidate := kept, phase := done));
    } else if MayCommit(s, j.task, c, stale) {
      Books(s, t, t.saved, None, j.(candidate := t.saved, windowSaved := true, phase := done));
      assert SettleApplied(s, c, o, stale)
          == t.(saved := t.saved, pending := None, job := Some(j.(candidate := t.saved, windowSaved := true, phase := done)));
    } else {
      Books(s, s, s.saved, None, j.(phase := Finishing(false)));
      assert SettleApplied(s, c, o, stale) == s.(saved := s.saved, pending := None, job := Some(j.(phase := Finishing(false))));
    }
  }

  lemma CommitMovesWindow(s: Service.State, c: Candidate, revision: int)
    requires c.keyframes != []
    ensures var t := CommitWindow(s, c, revision);
      && t.desk == s.desk && t.job == s.job && t.nextEpoch == s.nextEpoch && t.pending == s.pending
      && t.extnav == s.extnav && WindowStep(s.window, t.window)
      && SameClaim(Some(c), t.saved)
  {
  }

  lemma SettleOtherwiseBooks(s: Service.State, c: Candidate)
    requires s.job.Some? && s.job.value.phase.Settling? && s.job.value.candidate == Some(c)
    ensures Booking(s, SettleRejected(s), Booked(Rejected)) && Booking(s, SettleUnknown(s, c), Booked(Unknown))
  {
  }

  /** Ending a dry run, saved or not, claims nothing about the bridge. */
  lemma SaveBooks(s: Service.State, now: real, stale: bool)
    requires HasCandidate(s) && s.job.value.phase.Saving?
    ensures var t, u := SaveDryRun(s, now, stale), ExpireOwner(s, now);
      t.job.Some? && u.job.Some? && Booking(u, t, t.job.value.application)
      && (t.job.value.application == NotRequested || t.job.value.application == u.job.value.application)
  {
    ExpireOwnerIsCalm(s, now);
    var t := ExpireOwner(s, now);
    hide MayCommit, CommitWindow, ExpireOwner, Booking;
    var j := t.job.value;
    if j.stops.Any() || t.closing || !MayCommit(t, j.task, j.candidate.value, stale) {
      Books(t, t, t.saved, t.pending, j.(phase := Finishing(false)));
      assert SaveDryRun(s, now, stale) == t.(saved := t.saved, pending := t.pending, job := Some(j.(phase := Finishing(false))));
    } else {
      var u := CommitWindow(t, j.candidate.value, t.extnav.status.revision);
      CommitMovesWindow(t, j.candidate.value, t.extnav.status.revision);
      var k := j.(candidate := u.saved, windowSaved := true, application := NotRequested, phase := Finishing(true));
      Books(t, u, u.saved, u.pending, k);
      assert SaveDryRun(s, now, stale) == u.(saved := u.saved, pending := u.pending, job := Some(k));
    }
  }

  /** The latch moves only when the worker latches its candidate or books it, or to nothing. */
  ghost predicate LatchStep(s: Service.State, t: Service.State) {
    t.pending.Some? ==>
      || t.pending == s.pending
      || (s.job.Some? && (s.job.value.phase.Beginning? || s.job.value.phase.Settling?) && t.pending == s.job.value.candidate)
  }

  /** While its thread lives a job is not replaced, never goes back before sending, and a request to
      stop or a failure stays booked. */
  ghost predicate JobStep(s: Service.State, t: Service.State) {
    s.job.Some? && !s.job.value.phase.Dead? ==>
      && t.job.Some? && t.job.value.task == s.job.value.task && CalmStops(s.job.value.stops, t.job.value.stops)
      && (BeforeSending(t.job.value.phase) ==> BeforeSending(s.job.value.phase))
  }

  /** What no action does: hear the bridge, or move the window, the latch or the job in any other way. */
  ghost predicate Modest(s: Service.State, t: Service.State) {
    t.extnav == s.extnav && WindowStep(s.window, t.window) && LatchStep(s, t) && JobStep(s, t)
  }

  lemma ActionsAreModest(s: Service.State, a: Action, flight: nat, rules: Rules)
    requires rules.Valid() && MayAct(s, a, rules)
    ensures Modest(s, Act(s, a, flight, rules))
  {
    hide Registered, SetOwner, Start, Stop, Configure, Clear, Apply, ExpireOwner, OnFault, Close, Modest,
      Freeze, Collected, Release, SaveDryRun, Begin, Check, Discover, Send, Answered, Unanswered, Reconcile, Settle, Finish, Die;
    var t := Act(s, a, flight, rules);
    match a
    case AskOwner(r, now) => SetOwnerIsCalm(s, r, now); CalmIsModest(s, t);
    case AskStart(r, now, stale, capture) => StartIsModest(s, r, now, stale, capture);
    case AskStop(r, now) => StopIsCalm(s, r, now); CalmIsModest(s, t);
    case AskConfigure(w, config, parsed, now) => ClearIsModest(s, w, config, parsed, now);
    case AskClear(w, now) => ClearIsModest(s, w, 0, false, now);
    case AskApply(r, now, stale, aged, capture) => ApplyIsModest(s, r, now, stale, aged, capture);
    case Tick(now) => ExpireOwnerIsCalm(s, now); CalmIsModest(s, t);
    case Fault(invalidate) => FaultIsModest(s, invalidate);
    case Shutdown => CloseIsCalm(s); CalmIsModest(s, t);
    case DoRelease(fault, released) => ReleaseIsModest(s, fault, released);
    case DoSave(now, stale) => SaveIsModest(s, now, stale);
    case DoSend(now, stale, raises) => SendIsModest(s, now, stale, raises, flight);
    case DoSettle(stale) => SettleIsModest(s, stale);
    case _ => MoveIsModest(s, a, flight, rules);
  }

  lemma CalmIsModest(s: Service.State, t: Service.State)
    requires Calm(s, t)
    ensures Modest(s, t)
  {
  }

  lemma InvalidateIsModest(s: Service.State, t: Service.State)
    requires Calm(s, t)
    ensures Modest(s, InvalidateWindow(t))
  {
  }

  lemma StartIsModest(s: Service.State, r: StartRequest, now: real, stale: bool, capture: bool)
    ensures Modest(s, Start(s, r, now, stale, capture).0)
  {
    ValidateIsCalm(s, r.write, now);
    hide Validate, MayStart, NewTask;
  }

  lemma ClearIsModest(s: Service.State, w: Write, config: nat, parsed: bool, now: real)
    ensures Modest(s, Clear(s, w, now).0) && Modest(s, Configure(s, w, config, parsed, now).0)
  {
    ValidateIsCalm(s, w, now);
    var t := Validate(s, w, now).0;
    CalmIsModest(s, t);
    InvalidateIsModest(s, t);
    hide Validate, InvalidateWindow;
    ConfiguredIsModest(s, t, config);
  }

  lemma ConfiguredIsModest(s: Service.State, t: Service.State, config: nat)
    requires Calm(s, t)
    ensures Modest(s, InvalidateWindow(t.(config := config)))
  {
  }

  lemma ApplyIsModest(s: Service.State, r: ApplyRequest, now: real, stale: bool, aged: bool, capture: bool)
    ensures Modest(s, Apply(s, r, now, stale, aged, capture).0)
  {
    AdmitIsCalm(s, r.write, now);
    hide Admit, MayApply, Ready, Attempt;
  }

  lemma FaultIsModest(s: Service.State, invalidate: bool)
    ensures Modest(s, OnFault(s, invalidate))
  {
  }

  lemma ReleaseIsModest(s: Service.State, fault: Option<bool>, released: bool)
    requires s.job.Some? && s.job.value.phase.Releasing?
    ensures Modest(s, Release(s, fault, released))
  {
    if fault.Some? { FaultIsModest(s, fault.value); }
    hide OnFault;
  }

  lemma BookingIsModest(s: Service.State, t: Service.State, u: Service.State, application: Application)
    requires Calm(s, t) && Booking(t, u, application)
    requires u.pending.Some? ==> u.pending == s.pending || s.job.value.phase.Settling?
    ensures Modest(s, u)
  {
  }

  lemma SaveIsModest(s: Service.State, now: real, stale: bool)
    requires HasCandidate(s) && s.job.value.phase.Saving?
    ensures Modest(s, SaveDryRun(s, now, stale))
  {
    ExpireOwnerIsCalm(s, now);
    SaveBooks(s, now, stale);
    SavePending(s, now, stale);
    var u := SaveDryRun(s, now, stale);
    hide ExpireOwner, SaveDryRun, Booking, Calm, Modest;
    BookingIsModest(s, ExpireOwner(s, now), u, u.job.value.application);
  }

  lemma SavePending(s: Service.State, now: real, stale: bool)
    requires HasCandidate(s)
    ensures SaveDryRun(s, now, stale).pending == s.pending
  {
  }

  lemma SendIsModest(s: Service.State, now: real, stale: bool, raises: bool, flight: nat)
    requires HasCandidate(s)
    ensures Modest(s, Send(s, now, stale, raises, flight).0)
  {
    ExpireOwnerIsCalm(s, now);
    hide ExpireOwner, MaySend;
  }

  lemma SettleIsModest(s: Service.State, stale: bool)
    requires HasCandidate(s) && s.job.value.phase.Settling?
    ensures Modest(s, Settle(s, stale))
  {
    SettleBooks(s, stale);
    hide Settle, Booking, Modest;
    CalmSelf(s);
    BookingIsModest(s, s, Settle(s, stale), Booked(s.job.value.phase.outcome));
  }

  lemma CalmSelf(s: Service.State)
    ensures Calm(s, s)
  {
  }

  lemma AtIsModest(s: Service.State, p: Phase)
    requires s.job.Some? && (BeforeSending(p) ==> BeforeSending(s.job.value.phase))
    ensures Modest(s, At(s, p))
  {
  }

  lemma MoveIsModest(s: Service.State, a: Action, flight: nat, rules: Rules)
    requires rules.Valid() && MayAct(s, a, rules)
    requires a.DoFreeze? || a.DoCollect? || a.DoBegin? || a.DoCheck? || a.DoDiscover? || a.DoHearAnswer?
      || a.DoGiveUp? || a.DoPoll? || a.DoFinish? || a.DoDie?
    ensures Modest(s, Act(s, a, flight, rules))
  {
    hide Registered, Modest, Freeze, Collected, Begin, Check, Discover, Answered, Unanswered, Reconcile, Finish, Die;
    match a
    case DoFreeze(k, values, q) => FreezeIsModest(s, k, values, q);
    case DoCollect(failed) => CollectedIsModest(s, failed);
    case DoBegin => BeginIsModest(s);
    case DoCheck(stale) => CheckIsModest(s, stale, true);
    case DoDiscover(found) => CheckIsModest(s, true, found);
    case DoHearAnswer(answer) => AnsweredIsModest(s, answer);
    case DoGiveUp => UnansweredIsModest(s);
    case DoPoll(stale, deadline) => ReconcileIsModest(s, stale, deadline);
    case DoFinish => FinishIsModest(s);
    case DoDie => FinishIsModest(s);
  }

  lemma CollectedIsModest(s: Service.State, failed: bool)
    requires s.job.Some? && s.job.value.phase.Collecting?
    ensures Modest(s, Collected(s, failed))
  {
  }

  lemma CheckIsModest(s: Service.State, stale: bool, found: bool)
    requires HasCandidate(s)
    ensures s.job.value.phase.Checking? ==> Modest(s, Check(s, stale))
    ensures s.job.value.phase.Discovering? ==> Modest(s, Discover(s, found))
  {
  }

  lemma AnsweredIsModest(s: Service.State, a: Response)
    requires HasCandidate(s) && s.job.value.phase.Waiting?
    ensures Modest(s, Answered(s, a))
  {
  }

  lemma UnansweredIsModest(s: Service.State)
    requires HasCandidate(s) && s.job.value.phase.Waiting?
    ensures Modest(s, Unanswered(s))
  {
  }

  lemma ReconcileIsModest(s: Service.State, stale: bool, deadline: bool)
    requires HasCandidate(s) && s.job.value.phase.Confirming?
    ensures Modest(s, Reconcile(s, stale, deadline))
  {
    hide Modest, At, Matches, Calm;
    CalmSelf(s);
    CalmIsModest(s, s);
    AtIsModest(s, Settling(AppliedStatus(s.extnav.status.revision)));
    AtIsModest(s, Settling(if s.job.value.phase.ack.Some? then AppliedAck(s.job.value.phase.ack.value) else Unknown));
  }

  lemma FreezeIsModest(s: Service.State, k: Keyframe, values: Values, q: Quality)
    requires s.job.Some? && s.job.value.phase.Collecting?
    ensures Modest(s, Freeze(s, k, values, q))
  {
  }

  lemma BeginIsModest(s: Service.State)
    requires HasCandidate(s) && s.job.value.phase.Beginning?
    ensures Modest(s, Begin(s))
  {
  }

  lemma FinishIsModest(s: Service.State)
    requires s.job.Some?
    ensures Modest(s, Finish(s)) && Modest(s, Die(s))
  {
  }

}
