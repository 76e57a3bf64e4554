/** The lease on writing: who may write, who never may again, and what a stop prevents. */
module OwnerSafety {
  import opened Options
  import opened Bridge
  import opened Service
  import opened WindowSafety
  import opened Sections

  ghost predicate DeskInv(d: Desk) {
    && (d.owner != NO_SOURCE && !d.releasing ==> d.owner !in d.retired)
    && (d.releasing ==> d.owner != NO_SOURCE && d.owner in d.retired)
  }

  /** While a job's thread lives the lease holder, if any, is the source that started it; a release
      has asked it to stop. */
  ghost predicate ServedInv(d: Desk, j: Job) {
    && (j.active <==> !j.phase.Ending? && !j.phase.Dead?)
    && (!j.phase.Dead? && d.owner != NO_SOURCE ==> j.task.source == d.owner)
    && (d.releasing && j.active ==> j.stops.user)
    && (j.stops.user && !j.sent ==> j.stops.event)
    && (BeforeSending(j.phase) ==> !j.sent && j.active)
  }

  ghost predicate OwnerInv(s: Service.State) {
    DeskInv(s.desk) && (s.job.Some? ==> ServedInv(s.desk, s.job.value))
  }

  /** As `OwnerInv`, while the release of the lease holder is being carried out. */
  ghost predicate Loose(s: Service.State) {
    (s.desk.releasing ==> s.desk.owner != NO_SOURCE && s.desk.owner in s.desk.retired)
    && (s.job.Some? ==> ServedInv(s.desk, s.job.value))
  }

  lemma RequestStopOwner(s: Service.State)
    requires s.job.Some? ==> ServedInv(s.desk.(releasing := false), s.job.value)
    ensures s.job.Some? <==> RequestStop(s).job.Some?
    ensures s.job.Some? ==> ServedInv(s.desk, RequestStop(s).job.value)
    ensures RequestStop(s).desk == s.desk && JobRunning(RequestStop(s)) == JobRunning(s)
  {
  }

  lemma ReleaseOwnerKeeps(s: Service.State)
    requires Loose(s) && s.desk.owner != NO_SOURCE
    ensures OwnerInv(ReleaseOwner(s)) && s.desk.retired + {s.desk.owner} == ReleaseOwner(s).desk.retired
    ensures ReleaseOwner(s).desk.owner == NO_SOURCE || ReleaseOwner(s).desk.releasing
    ensures JobActive(ReleaseOwner(s)) ==> ReleaseOwner(s).job.value.stops.user
  {
  }

  lemma ExpireOwnerKeeps(s: Service.State, now: real)
    requires OwnerInv(s)
    ensures var t := ExpireOwner(s, now);
      && OwnerInv(t) && s.desk.retired <= t.desk.retired
      && (LeaseOver(s.desk, now) ==> s.desk.owner in t.desk.retired && (t.desk.owner == NO_SOURCE || t.desk.releasing)
                                     && (JobActive(t) ==> t.job.value.stops.user))
      && (!LeaseOver(s.desk, now) ==> t == s)
  {
    hide ReleaseOwner;
    if LeaseOver(s.desk, now) {
      ReleaseOwnerKeeps(s);
    }
  }

  lemma SetOwnerKeeps(s: Service.State, r: OwnerRequest, now: real)
    requires OwnerInv(s)
    ensures OwnerInv(SetOwner(s, r, now).0) && s.desk.retired <= SetOwner(s, r, now).0.desk.retired
  {
    hide ExpireOwner, ReleaseOwner;
    ExpireOwnerKeeps(s, now);
    var t := ExpireOwner(s, now);
    var u := Noted(t, r);
    assert Loose(u);
    if u.desk.owner != NO_SOURCE {
      ReleaseOwnerKeeps(u);
    }
  }

  lemma AdmitKeeps(s: Service.State, w: Write, now: real)
    requires OwnerInv(s)
    ensures var (t, ok) := Admit(s, w, now);
      && OwnerInv(t) && s.desk.retired <= t.desk.retired
      && (ok ==> w.source != NO_SOURCE && w.source !in t.desk.retired
                 && (t.desk.owner != NO_SOURCE ==> w.source == t.desk.owner && !t.desk.releasing))
  {
    hide ExpireOwner;
    ExpireOwnerKeeps(s, now);
  }

  /** A section that touches no lease, and moves the job only forwards. */
  ghost predicate Forward(s: Service.State, t: Service.State) {
    && t.desk == s.desk && (s.job.Some? <==> t.job.Some?)
    && (s.job.Some? ==>
          var j, k := s.job.value, t.job.value;
          && k.task == j.task && (k.active ==> j.active) && (j.phase.Dead? ==> k.phase.Dead?)
          && (k.active <==> !k.phase.Ending? && !k.phase.Dead?)
          && (j.stops.user ==> k.stops.user && (j.stops.event ==> k.stops.event))
          && (k.stops.user ==> j.stops.user) && (j.sent ==> k.sent)
          && (BeforeSending(k.phase) ==> BeforeSending(j.phase) && k.sent == j.sent && k.active))
  }

  lemma ForwardKeeps(s: Service.State, t: Service.State)
    requires OwnerInv(s) && Forward(s, t)
    ensures OwnerInv(t)
  {
  }

  lemma FailJobForward(s: Service.State)
    requires OwnerInv(s)
    ensures Forward(s, FailJob(s))
  {
  }

  lemma FaultForward(s: Service.State, invalidate: bool)
    requires OwnerInv(s)
    ensures Forward(s, OnFault(s, invalidate))
  {
  }

  lemma ReleaseForward(s: Service.State, fault: Option<bool>, released: bool)
    requires OwnerInv(s) && s.job.Some? && s.job.value.phase.Releasing?
    ensures Forward(s, Release(s, fault, released))
  {
  }

  lemma BookingKeeps(s: Service.State, t: Service.State, application: Application)
    requires OwnerInv(s) && Booking(s, t, application)
    ensures OwnerInv(t)
  {
  }

  lemma HearKeepsOwner(s: Service.State, m: Snapshot)
    requires OwnerInv(s)
    ensures OwnerInv(OnStatus(s, m)) && s.desk.retired <= OnStatus(s, m).desk.retired
  {
    hide InvalidateWindow, ReleaseOwner, FailJob, ExplicitlyUnavailable, SessionChanged;
    var t := HearWindow(s, m);
    HearWindowForward(s, m);
    ForwardKeeps(s, t);
    if t.desk.owner != NO_SOURCE { ReleaseOwnerKeeps(t); }
    var u := HearOwner(t, m, SessionChanged(s, m.status.session));
    FailJobForward(u);
    ForwardKeeps(u, HearJob(u, m));
  }

  lemma HearWindowForward(s: Service.State, m: Snapshot)
    requires OwnerInv(s)
    ensures Forward(s, HearWindow(s, m))
  {
  }

  // ------------------------------------------------------------------ requests

  lemma RequestsKeepOwner(s: Service.State, a: Action, flight: nat, rules: Rules)
    requires rules.Valid() && OwnerInv(s) && MayAct(s, a, rules)
    requires a.AskStart? || a.AskStop? || a.AskConfigure? || a.AskClear? || a.AskApply?
    ensures OwnerInv(Act(s, a, flight, rules)) && s.desk.retired <= Act(s, a, flight, rules).desk.retired
  {
    hide Admit, RequestStop, InvalidateWindow, MayStart, AcceptsApply, NewTask, Attempt;
    match a
    case AskStart(r, now, stale, capture) => StartKeepsOwner(s, r, now, stale, capture);
    case AskStop(r, now) =>
      AdmitKeeps(s, r.write, now);
      RequestStopOwner(Admit(s, r.write, now).0);
    case AskConfigure(w, config, parsed, now) => AdmitKeeps(s, w, now); InvalidateForward(Admit(s, w, now).0, config);
    case AskClear(w, now) => AdmitKeeps(s, w, now); InvalidateForward(Admit(s, w, now).0, s.config);
    case AskApply(r, now, stale, aged, capture) => ApplyKeepsOwner(s, r, now, stale, aged, capture);
  }

  lemma InvalidateForward(s: Service.State, config: nat)
    requires OwnerInv(s)
    ensures OwnerInv(InvalidateWindow(s)) && OwnerInv(InvalidateWindow(s.(config := config)))
    ensures InvalidateWindow(s).desk == s.desk == InvalidateWindow(s.(config := config)).desk
  {
  }

  lemma StartKeepsOwner(s: Service.State, r: StartRequest, now: real, stale: bool, capture: bool)
    requires OwnerInv(s)
    ensures var t := Start(s, r, now, stale, capture).0; OwnerInv(t) && s.desk.retired <= t.desk.retired
  {
    hide Admit, MayStart;
    AdmitKeeps(s, r.write, now);
  }

  lemma ApplyKeepsOwner(s: Service.State, r: ApplyRequest, now: real, stale: bool, aged: bool, capture: bool)
    requires OwnerInv(s)
    ensures var t := Apply(s, r, now, stale, aged, capture).0; OwnerInv(t) && s.desk.retired <= t.desk.retired
  {
    hide Admit, MayApply, Ready, Attempt;
    AdmitKeeps(s, r.write, now);
  }

  // ---------------------------------------------------------------- the worker

  lemma SendKeepsOwner(s: Service.State, now: real, stale: bool, raises: bool, flight: nat)
    requires OwnerInv(s) && HasCandidate(s) && s.job.value.phase.Sending?
    ensures var (t, request) := Send(s, now, stale, raises, flight);
      && OwnerInv(t) && s.desk.retired <= t.desk.retired
      && (request.Some? ==> !LeaseOver(s.desk, now) && !s.job.value.stops.Any() && !s.closing)
  {
    hide ExpireOwner, Current;
    ExpireOwnerKeeps(s, now);
    ExpireOwnerIsCalm(s, now);
  }

  lemma SaveKeepsOwner(s: Service.State, now: real, stale: bool)
    requires OwnerInv(s) && HasCandidate(s) && s.job.value.phase.Saving?
    ensures var t := SaveDryRun(s, now, stale); OwnerInv(t) && s.desk.retired <= t.desk.retired
  {
    ExpireOwnerKeeps(s, now);
    SaveBooks(s, now, stale);
    var t := SaveDryRun(s, now, stale);
    hide OwnerInv, SaveDryRun, ExpireOwner;
    BookingKeeps(ExpireOwner(s, now), t, t.job.value.application);
    BookingDesk(ExpireOwner(s, now), t, t.job.value.application);
  }

  lemma BookingDesk(s: Service.State, t: Service.State, application: Application)
    requires Booking(s, t, application)
    ensures t.desk == s.desk && t.job.Some?
  {
  }

  lemma WorkKeepsOwner(s: Service.State, a: Action, flight: nat, rules: Rules)
    requires rules.Valid() && OwnerInv(s) && MayAct(s, a, rules)
    requires !(a.AskOwner? || a.AskStart? || a.AskStop? || a.AskConfigure? || a.AskClear? || a.AskApply?
      || a.Tick? || a.Fault? || a.Shutdown?)
    ensures OwnerInv(Act(s, a, flight, rules)) && s.desk.retired <= Act(s, a, flight, rules).desk.retired
  {
    hide Send, SaveDryRun, Settle, Release, Frozen, Current, Acknowledges, Automatic, Matches, Registered, OwnerInv, Booking;
    var t := Act(s, a, flight, rules);
    match a
    case DoRelease(fault, released) => ReleaseForward(s, fault, released); ForwardKeeps(s, t);
    case DoSave(now, stale) => SaveKeepsOwner(s, now, stale);
    case DoSend(now, stale, raises) => SendKeepsOwner(s, now, stale, raises, flight);
    case DoSettle(stale) =>
      SettleBooks(s, stale);
      BookingKeeps(s, t, Booked(s.job.value.phase.outcome));
      BookingDesk(s, t, Booked(s.job.value.phase.outcome));
    case _ => OtherWorkForward(s, a, flight, rules); ForwardKeeps(s, t);
  }

  lemma OtherWorkForward(s: Service.State, a: Action, flight: nat, rules: Rules)
    requires rules.Valid() && OwnerInv(s) && MayAct(s, a, rules)
    requires a.DoFreeze? || a.DoCollect? || a.DoBegin? || a.DoCheck? || a.DoDiscover? || a.DoHearAnswer?
      || a.DoGiveUp? || a.DoPoll? || a.DoFinish? || a.DoDie?
    ensures Forward(s, Act(s, a, flight, rules))
  {
    hide Forward, OwnerInv, Registered, Freeze, Collected, Begin, Check, Discover, Answered, Unanswered, Reconcile, Finish, Die;
    match a
    case DoFreeze(k, values, q) => FreezeForward(s, k, values, q);
    case DoCollect(failed) => CollectedForward(s, failed);
    case DoBegin => BeginForward(s);
    case DoCheck(stale) => CheckForward(s, stale, true);
    case DoDiscover(found) => CheckForward(s, true, found);
    case DoHearAnswer(answer) => AnsweredForward(s, answer);
    case DoGiveUp => UnansweredForward(s);
    case DoPoll(stale, deadline) => ReconcileForward(s, stale, deadline);
    case DoFinish => FinishForward(s);
    case DoDie => FinishForward(s);
  }

  lemma AtForward(s: Service.State, p: Phase)
    requires OwnerInv(s) && s.job.Some? && !s.job.value.phase.Ending? && !s.job.value.phase.Dead?
    requires !p.Ending? && !p.Dead? && (BeforeSending(p) ==> BeforeSending(s.job.value.phase))
    ensures Forward(s, At(s, p))
  {
  }

  lemma FreezeForward(s: Service.State, k: Keyframe, values: Values, q: Quality)
    requires OwnerInv(s) && s.job.Some? && s.job.value.phase.Collecting?
    ensures Forward(s, Freeze(s, k, values, q))
  {
  }

  lemma CollectedForward(s: Service.State, failed: bool)
    requires OwnerInv(s) && s.job.Some? && s.job.value.phase.Collecting?
    ensures Forward(s, Collected(s, failed))
  {
  }

  lemma BeginForward(s: Service.State)
    requires OwnerInv(s) && HasCandidate(s) && s.job.value.phase.Beginning?
    ensures Forward(s, Begin(s))
  {
  }

  lemma CheckForward(s: Service.State, stale: bool, found: bool)
    requires OwnerInv(s) && HasCandidate(s)
    ensures s.job.value.phase.Checking? ==> Forward(s, Check(s, stale))
    ensures s.job.value.phase.Discovering? ==> Forward(s, Discover(s, found))
  {
  }

  lemma AnsweredForward(s: Service.State, a: Response)
    requires OwnerInv(s) && HasCandidate(s) && s.job.value.phase.Waiting?
    ensures Forward(s, Answered(s, a))
  {
  }

  lemma UnansweredForward(s: Service.State)
    requires OwnerInv(s) && HasCandidate(s) && s.job.value.phase.Waiting?
    ensures Forward(s, Unanswered(s))
  {
  }

  lemma ReconcileForward(s: Service.State, stale: bool, deadline: bool)
    requires OwnerInv(s) && HasCandidate(s) && s.job.value.phase.Confirming?
    ensures Forward(s, Reconcile(s, stale, deadline))
  {
    hide Matches, At;
    AtForward(s, s.job.value.phase);
    AtForward(s, Settling(AppliedStatus(s.extnav.status.revision)));
    AtForward(s, Settling(if s.job.value.phase.ack.Some? then AppliedAck(s.job.value.phase.ack.value) else Unknown));
  }

  lemma FinishForward(s: Service.State)
    requires OwnerInv(s) && s.job.Some?
    ensures s.job.value.phase.Finishing? ==> Forward(s, Finish(s))
    ensures s.job.value.phase.Ending? ==> Forward(s, Die(s))
  {
  }

  lemma ActionKeepsOwner(s: Service.State, a: Action, flight: nat, rules: Rules)
    requires rules.Valid() && OwnerInv(s) && MayAct(s, a, rules)
    ensures OwnerInv(Act(s, a, flight, rules)) && s.desk.retired <= Act(s, a, flight, rules).desk.retired
  {
    hide OwnerInv, SetOwner, ExpireOwner, OnFault, Close;
    match a
    case AskOwner(r, now) => SetOwnerKeeps(s, r, now);
    case Tick(now) => ExpireOwnerKeeps(s, now);
    case Fault(invalidate) => FaultForward(s, invalidate); ForwardKeeps(s, OnFault(s, invalidate));
    case Shutdown => CloseForward(s); ForwardKeeps(s, Close(s));
    case AskStart(_, _, _, _) | AskStop(_, _) | AskConfigure(_, _, _, _) | AskClear(_, _) | AskApply(_, _, _, _, _) =>
      RequestsKeepOwner(s, a, flight, rules);
    case _ => WorkKeepsOwner(s, a, flight, rules);
  }

  lemma CloseForward(s: Service.State)
    requires OwnerInv(s)
    ensures Forward(s, Close(s))
  {
  }
}
