/** Where what the service shows and what is the case come apart: a job shown as rejected although its
    application is still latched unknown, and one shown as rejected although the bridge applied it.
 */
module Displays {
  import opened Options
  import opened Bridge
  import opened Service
  import opened WindowSafety
  import opened Sections
  import opened Bookings
  import opened Network
  import opened Protocol
  import opened Transaction
  import OwnerSafety
  import opened Reals
  import R = Registration

  /** The last job is shown as rejected while the application it was about is latched. */
  predicate Misleads(s: Service.State) {
    && s.job.Some? && s.job.value.application == Booked(Rejected) && s.pending.Some?
    && s.job.value.candidate.Some? && s.pending.value.epoch == s.job.value.candidate.value.epoch
  }

  /** The two ways a retry ends before it begins: the capture cannot be opened when it is accepted, or the
      wait for fresh odometry fails, or the capture cannot be released; and its latch is not dropped by
      a fault reported meanwhile. */
  predicate GivesUpEarly(s: Service.State, a: Action) {
    match a
    case AskApply(r, now, stale, aged, capture) =>
      && s.pending.Some? && Admit(s, r.write, now).1 && AcceptsApply(Admit(s, r.write, now).0, r, stale, aged)
      && !(capture && !s.resourceFault)
    case DoRelease(fault, released) =>
      && s.pending.Some? && s.job.Some? && s.job.value.task.retrying && s.job.value.phase.Releasing?
      && (s.job.value.phase.failed || !released) && !(fault == Some(true) && s.capture)
    case _ => false
  }

  // -------------------------------------------------------------- exactly when

  lemma LessMisleads(s: Service.State, t: Service.State)
    requires Less(s, t) && Misleads(t)
    ensures Misleads(s)
  {
  }

  lemma ApplyMisleads(s: Service.State, r: ApplyRequest, now: real, stale: bool, aged: bool, capture: bool)
    requires !Misleads(s)
    ensures Misleads(Apply(s, r, now, stale, aged, capture).0) <==> GivesUpEarly(s, AskApply(r, now, stale, aged, capture))
  {
    AdmitIsCalm(s, r.write, now);
    CalmIsLess(s, Admit(s, r.write, now).0);
    hide Admit, MayApply, Ready, JobRunning;
  }

  lemma StartMisleads(s: Service.State, r: StartRequest, now: real, stale: bool, capture: bool)
    requires !Misleads(s)
    ensures !Misleads(Start(s, r, now, stale, capture).0)
  {
    ValidateIsCalm(s, r.write, now);
    CalmIsLess(s, Validate(s, r.write, now).0);
    hide Validate, MayStart, JobRunning;
  }

  lemma ReleaseMisleads(s: Service.State, fault: Option<bool>, released: bool, rank: nat, rules: Rules)
    requires rules.Valid() && BookInv(s) && WindowSafety.Inv(s, rank, rules) && s.job.Some? && s.job.value.phase.Releasing?
    ensures Misleads(Release(s, fault, released)) <==> GivesUpEarly(s, DoRelease(fault, released))
  {
    EndsEarly(s, rank, rules);
    StaysUnbooked(s);
    FaultLatch(s, fault);
    hide WindowSafety.Inv, OnFault, BookInv;
  }

  lemma FaultLatch(s: Service.State, fault: Option<bool>)
    requires s.job.Some?
    ensures var t := if fault.Some? then OnFault(s, fault.value) else s;
      && t.job.Some? && t.job.value.phase == s.job.value.phase && t.job.value.task == s.job.value.task
      && t.job.value.candidate == s.job.value.candidate && t.job.value.application == s.job.value.application
      && t.pending == (if fault == Some(true) && s.capture then None else s.pending)
  {
  }

  lemma SaveMisleads(s: Service.State, now: real, stale: bool, rank: nat, rules: Rules)
    requires rules.Valid() && BookInv(s) && WindowSafety.Inv(s, rank, rules) && HasCandidate(s) && s.job.value.phase.Saving?
    ensures !Misleads(SaveDryRun(s, now, stale))
  {
    EndsEarly(s, rank, rules);
    SavePending(s, now, stale);
    hide WindowSafety.Inv, SaveDryRun, BookInv;
  }

  lemma SettleMisleads(s: Service.State, stale: bool)
    requires HasCandidate(s) && s.job.value.phase.Settling?
    ensures !Misleads(Settle(s, stale))
  {
    hide MayCommit, Succeeds, Committed;
  }

  /** A job under way shows no outcome. */
  lemma UnderWayShowsNone(s: Service.State)
    requires BookInv(s) && s.job.Some? && Unfinished(s.job.value.phase)
    ensures !Misleads(s)
  {
  }

  lemma EndMisleads(s: Service.State)
    requires s.job.Some? && !Misleads(s)
    ensures !Misleads(Finish(s)) && !Misleads(Die(s))
  {
  }

  lemma GoesOnUnfinished(s: Service.State, a: Action, flight: nat, rules: Rules)
    requires rules.Valid() && MayAct(s, a, rules)
    requires a.DoFreeze? || a.DoCollect? || a.DoBegin? || a.DoCheck? || a.DoDiscover? || a.DoHearAnswer? || a.DoGiveUp?
      || a.DoPoll? || a.DoSend?
    ensures Act(s, a, flight, rules).job.Some? && Unfinished(Act(s, a, flight, rules).job.value.phase)
  {
    hide ExpireOwner, MaySend, Current, Acknowledges, Automatic, Matches, Registered, Frozen, Send;
    if a.DoSend? { SendUnfinished(s, a.now, a.stale, a.raises, flight); }
  }

  lemma SendUnfinished(s: Service.State, now: real, stale: bool, raises: bool, flight: nat)
    requires HasCandidate(s)
    ensures var t := Send(s, now, stale, raises, flight).0; t.job.Some? && Unfinished(t.job.value.phase)
  {
    hide ExpireOwner, MaySend;
    ExpireOwnerIsCalm(s, now);
  }

  lemma ActionMisleads(s: Service.State, a: Action, flight: nat, rank: nat, rules: Rules)
    requires rules.Valid() && BookInv(s) && WindowSafety.Inv(s, rank, rules) && MayAct(s, a, rules) && !Misleads(s)
    requires BookInv(Act(s, a, flight, rules))
    ensures Misleads(Act(s, a, flight, rules)) <==> GivesUpEarly(s, a)
  {
    hide BookInv, WindowSafety.Inv, Registered, Misleads, SetOwner, Start, Stop, Configure, Clear, Apply, ExpireOwner, OnFault, Close,
      Freeze, Collected, Release, SaveDryRun, Begin, Check, Discover, Send, Answered, Unanswered, Reconcile, Settle, Finish, Die,
      Admit, AcceptsApply, Less;
    var t := Act(s, a, flight, rules);
    match a
    case AskStart(r, now, stale, capture) => StartMisleads(s, r, now, stale, capture);
    case AskApply(r, now, stale, aged, capture) => ApplyMisleads(s, r, now, stale, aged, capture);
    case DoRelease(fault, released) => ReleaseMisleads(s, fault, released, rank, rules);
    case DoSave(now, stale) => SaveMisleads(s, now, stale, rank, rules);
    case DoSettle(stale) => SettleMisleads(s, stale);
    case DoFinish => EndMisleads(s);
    case DoDie => EndMisleads(s);
    case AskOwner(_, _) | AskStop(_, _) | AskConfigure(_, _, _, _) | AskClear(_, _) | Tick(_) | Fault(_) | Shutdown =>
      CallsAreLess(s, a, flight, rules);
      if Misleads(t) { LessMisleads(s, t); }
    case _ =>
      GoesOnUnfinished(s, a, flight, rules);
      UnderWayShowsNone(t);
  }

  lemma BooksOf(y: Sys, rules: Rules)
    requires rules.Valid() && SysInv(y, rules)
    ensures BookInv(y.service) && WindowSafety.Inv(y.service, y.rank, rules) && OwnerSafety.OwnerInv(y.service)
  {
  }

  lemma ConfirmMisleads(s: Service.State, stale: bool)
    requires !Misleads(s)
    ensures !Misleads(Confirm(s, stale))
  {
    hide Matches;
  }

  lemma EmptyMisleads(y: Sys, rules: Rules)
    requires rules.Valid() && BookInv(y.service) && Enabled(y, EmptyAnswer, rules)
    ensures !Misleads(Successor(y, EmptyAnswer, rules).service)
  {
    EmptyAnswered(y, rules);
    EmptySettles(y.service);
    StaysUnbooked(y.service);
    hide BookInv, Answered;
  }

  lemma SuccessorMisleads(y: Sys, step: Step, rules: Rules)
    requires rules.Valid() && SysInv(y, rules) && !Misleads(y.service)
    ensures Misleads(Successor(y, step, rules).service) <==>
      step.ServiceActs? && Enabled(y, step, rules) && GivesUpEarly(y.service, step.action)
  {
    BooksOf(y, rules);
    hide SysInv, BookInv, Misleads, GivesUpEarly, WindowSafety.Inv, OwnerSafety.OwnerInv, Act, MayAct, OnStatus, Less, Sends, Confirm,
      SetCorrection, OnRaw, OnTimer, Take, AnsweredEmpty;
    if Enabled(y, step, rules) {
      match step
      case ServiceActs(a) =>
        NotYetSent(y.service);
        ActionBooks(y.service, a, |y.flights|, y.rank, rules);
        ActionMisleads(y.service, a, |y.flights|, y.rank, rules);
      case StatusArrives(i) => HearingMisleads(y.service, y.net.log[i].status);
      case EmptyAnswer => EmptyMisleads(y, rules);
      case Confirms(stale) => ConfirmMisleads(y.service, stale);
      case _ =>
    }
  }

  lemma HearingMisleads(s: Service.State, status: Status)
    requires BookInv(s) && !Misleads(s)
    ensures !Misleads(OnStatus(s, Snapshot(true, SameVersion, true, status)))
  {
    hide Misleads, Less, OnStatus;
    var t := OnStatus(s, Snapshot(true, SameVersion, true, status));
    HearIsLess(s, Snapshot(true, SameVersion, true, status));
    if Misleads(t) { LessMisleads(s, t); }
  }

  /** Over all runs: a step makes the last job show as rejected with its application latched if and only if
      it is a retry that gives up before it begins. */
  lemma MisleadsExactlyWhen(config: nat, size: nat, steps: seq<Step>, step: Step, rules: Rules)
    requires rules.Valid() && size >= 2 && !Misleads(After(config, size, steps, rules).service)
    ensures Misleads(After(config, size, steps + [step], rules).service) <==>
      step.ServiceActs? && Enabled(After(config, size, steps, rules), step, rules)
      && GivesUpEarly(After(config, size, steps, rules).service, step.action)
  {
    hide SysInv, Misleads, GivesUpEarly, Enabled, Successor;
    Reached(config, size, steps, rules);
    Extend(config, size, steps, step, rules);
    SuccessorMisleads(After(config, size, steps, rules), step, rules);
  }

  lemma Extend(config: nat, size: nat, steps: seq<Step>, step: Step, rules: Rules)
    requires rules.Valid()
    ensures After(config, size, steps + [step], rules) == Successor(After(config, size, steps, rules), step, rules)
  {
    hide Successor;
    PlayAppends(Boot(config, size), steps, [step], rules);
    assert [step][1..] == [];
  }

  /** In every reachable state a latch held while no job is under way is shown as unknown, except when the
      last job was a retry that sent nothing; then it is shown as rejected. */
  lemma LatchIsShown(config: nat, size: nat, steps: seq<Step>, rules: Rules)
    requires rules.Valid() && size >= 2
    ensures var s := After(config, size, steps, rules).service;
      s.pending.Some? && s.job.Some? && !Unfinished(s.job.value.phase) ==>
        || s.job.value.application == Booked(Unknown)
        || (Misleads(s) && s.job.value.task.retrying && !s.job.value.sent)
    ensures var s := After(config, size, steps, rules).service;
      Misleads(s) ==> !Unfinished(s.job.value.phase) && s.job.value.task.retrying && !s.job.value.sent
  {
    Reached(config, size, steps, rules);
    BooksOf(After(config, size, steps, rules), rules);
    hide SysInv, After, WindowSafety.Inv, OwnerSafety.OwnerInv;
  }

  // ----------------------------------------------------------- that it happens

  /** After some run the service is in this state and these requests were made, the bridge having been
      heard by nobody else. */
  ghost predicate Reaches(config: nat, size: nat, rules: Rules, s: Service.State, flights: seq<Flight>)
    requires rules.Valid()
  {
    exists steps :: Stands(After(config, size, steps, rules), s, flights)
  }

  predicate Stands(y: Sys, s: Service.State, flights: seq<Flight>) {
    y.service == s && y.flights == flights && y.net.bridge == UP
  }

  lemma Reach(config: nat, size: nat, rules: Rules, s: Service.State, flights: seq<Flight>, a: Action)
    requires rules.Valid() && Reaches(config, size, rules, s, flights) && MayAct(s, a, rules) && !a.DoHearAnswer? && !a.DoSend?
    ensures Reaches(config, size, rules, Act(s, a, 0, rules), flights)
  {
    hide Act, MayAct, After, Sends;
    var steps :| Stands(After(config, size, steps, rules), s, flights);
    var y := After(config, size, steps, rules);
    Extend(config, size, steps, ServiceActs(a), rules);
    assert Enabled(y, ServiceActs(a), rules);
    OtherFlights(y, a, rules);
    FlightUnread(s, a, |y.flights|, rules);
    assert Stands(After(config, size, steps + [ServiceActs(a)], rules), Act(s, a, 0, rules), flights);
  }

  lemma FlightUnread(s: Service.State, a: Action, flight: nat, rules: Rules)
    requires rules.Valid() && MayAct(s, a, rules) && !a.DoSend?
    ensures Act(s, a, flight, rules) == Act(s, a, 0, rules)
  {
    hide SetOwner, Start, Stop, Configure, Clear, Apply, ExpireOwner, OnFault, Close, Freeze, Collected, Release, SaveDryRun, Begin,
      Check, Discover, Answered, Unanswered, Reconcile, Settle, Finish, Die, Registered;
  }

  lemma ReachSend(config: nat, size: nat, rules: Rules, s: Service.State, flights: seq<Flight>, stale: bool, raises: bool)
    requires rules.Valid() && Reaches(config, size, rules, s, flights) && MayAct(s, DoSend(0.0, stale, raises), rules)
    requires s.desk.owner == NO_SOURCE && MaySend(s, stale)
    ensures var c := s.job.value.candidate.value;
      Reaches(config, size, rules, Send(s, 0.0, stale, raises, |flights|).0,
              flights + [Flight(RequestOf(c), c.epoch, s.extnav.status, Flying, false)])
  {
    hide MaySend, After, Send, RequestOf;
    var a := DoSend(0.0, stale, raises);
    var steps :| Stands(After(config, size, steps, rules), s, flights);
    var y := After(config, size, steps, rules);
    Extend(config, size, steps, ServiceActs(a), rules);
    SendParts(y, 0.0, stale, raises, rules);
    NoLease(s);
    var c := s.job.value.candidate.value;
    assert Stands(After(config, size, steps + [ServiceActs(a)], rules), Send(s, 0.0, stale, raises, |flights|).0,
                 flights + [Flight(RequestOf(c), c.epoch, s.extnav.status, Flying, false)]);
  }

  lemma NoLease(s: Service.State)
    requires s.desk.owner == NO_SOURCE
    ensures ExpireOwner(s, 0.0) == s
  {
  }

  /** The bridge's first session, as the service hears of it. */
  const FIRST := Status(true, 1, false, 0, IDENTITY_VALUES, NoJob, None)
  const HEARD := Snapshot(true, SameVersion, true, FIRST)

  /** The bridge after its first odometry message. */
  const RAW := Raw(true, 1.0, 1, 1, true, true)
  const UP := Bridge.State.State(true, 1, false, IDENTITY_VALUES, 0, 0, NoJob, Some(Sample(false, 0, 1)), 1.0, 1, NoError)

  lemma HearFirst(config: nat, size: nat, rules: Rules)
    requires rules.Valid()
    ensures Reaches(config, size, rules, Initial(config, size).(extnav := HEARD), [])
  {
    var y0 := Boot(config, size);
    FirstRaw(rules.limits);
    var y1 := y0.(net := Take(EmptyNet(), OnRaw(START, RAW, rules.limits)));
    hide OnRaw, Take;
    var s0 := Step.RawArrives(RAW);
    assert Successor(y0, s0, rules) == y1;
    var y2 := Successor(y1, StatusArrives(0), rules);
    assert Stands(y2, Initial(config, size).(extnav := HEARD), []);
    assert [s0, StatusArrives(0)][1..] == [StatusArrives(0)] && [StatusArrives(0)][1..] == [];
    assert Play(y1, [StatusArrives(0)], rules) == y2;
    assert After(config, size, [s0, StatusArrives(0)], rules) == y2;
  }

  lemma FirstRaw(limits: Limits)
    ensures var n := Take(EmptyNet(), OnRaw(START, RAW, limits));
      |n.log| > 0 && n.log[0].status == FIRST && n.bridge == UP && EmptyNet().minted == 0
  {
    var m := OnRaw(START, RAW, limits);
    assert m.published[0] == FIRST;
  }

  /** The service with everything at its start but the job, the latch, the capture and the counters. */
  function With(config: nat, job: Job, pending: Option<Candidate>, sequence: int, epochs: nat): Service.State {
    Service.State.State(
      Window([], 0, 2, 0, []), None, pending, HEARD, Some(job), OPEN_DESK.(sequences := map[1 := sequence]), config,
      job.phase.Collecting? || job.phase.Releasing?, false, false, 1, epochs)
  }

  function Tag(rules: Rules): StartRequest
    requires rules.Valid()
  {
    StartRequest(Write(1, 1, true, 0), 0, First, 2, rules.maximumSize, 5, true, true)
  }

  const FIRST_TASK := Task(Ours(0), 1, First, 5, 2, true, 1, 0, 0, true, false)
  const RETRY_TASK := Task(Ours(0), 1, ApplySaved, -1, 2, true, 1, 0, 0, true, true)
  const SOME_QUALITY := Quality(1, 0.0, 0.0, 0.0, 0.0)
  const RETRY := ApplyRequest(Write(1, 2, true, 0), 0)

  /** The only keyframe, the candidate made of it, and the request that asks for it. */
  function OneCandidate(config: nat, k: Keyframe): Candidate {
    Candidate([k], IDENTITY_VALUES, 1, config, Ours(0), 0, 0, false, 0, 1, 0.0, 0.0, 0.0, 0.0, 0)
  }

  function OneFlight(config: nat, k: Keyframe): Flight { Flight(RequestOf(OneCandidate(config, k)), 0, FIRST, Flying, false) }

  /** The job after its sampling, at some place. */
  function Sampled(config: nat, k: Keyframe, application: Application, phase: Phase): Job {
    Job(FIRST_TASK, NO_STOPS, phase != Ending && phase != Phase.Dead, Some(OneCandidate(config, k)), false, false, application, phase)
  }

  function Retried(config: nat, k: Keyframe, application: Application, phase: Phase): Job {
    Job(RETRY_TASK, NO_STOPS, true, Some(OneCandidate(config, k)), false, false, application, phase)
  }

  lemma Sampling(config: nat, rules: Rules, k: Keyframe)
    requires rules.Valid() && k.session == 1
    ensures Reaches(config, 2, rules, With(config, Sampled(config, k, Application.Pending, Phase.Releasing(false)), None, 1, 1), [])
  {
    HearFirst(config, 2, rules);
    var s0 := Initial(config, 2).(extnav := HEARD);
    var a0 := AskStart(Tag(rules), 0.0, false, true);
    var s1 := With(config, Job(FIRST_TASK, NO_STOPS, true, None, false, false, Application.Pending, Collecting), None, 1, 0);
    assert Start(s0, Tag(rules), 0.0, false, true).0 == s1;
    var a1 := DoFreeze(k, IDENTITY_VALUES, SOME_QUALITY);
    var none: seq<Keyframe> := [];
    assert none + [k] == [k] && R.Last(none + [k], 2) == [k];
    assert Freeze(s1, k, IDENTITY_VALUES, SOME_QUALITY) == With(config, Sampled(config, k, Application.Pending, Phase.Releasing(false)), None, 1, 1);
    hide Reaches, Start, Freeze;
    Reach(config, 2, rules, s0, [], a0);
    Reach(config, 2, rules, s1, [], a1);
  }

  lemma AboutToSend(config: nat, rules: Rules, k: Keyframe)
    requires rules.Valid() && k.session == 1
    ensures Reaches(config, 2, rules, With(config, Sampled(config, k, Application.Pending, Phase.Sending), Some(OneCandidate(config, k)), 1, 1), [])
  {
    hide Reaches;
    Sampling(config, rules, k);
    var c := Some(OneCandidate(config, k));
    var p := Application.Pending;
    Reach(config, 2, rules, With(config, Sampled(config, k, p, Phase.Releasing(false)), None, 1, 1), [], DoRelease(None, true));
    Reach(config, 2, rules, With(config, Sampled(config, k, p, Beginning), None, 1, 1), [], DoBegin);
    Reach(config, 2, rules, With(config, Sampled(config, k, p, Checking), c, 1, 1), [], DoCheck(false));
    Reach(config, 2, rules, With(config, Sampled(config, k, p, Discovering), c, 1, 1), [], DoDiscover(true));
  }

  /** Sending raised, so the application is latched unknown and the job is over. */
  lemma LatchedUnknown(config: nat, rules: Rules, k: Keyframe)
    requires rules.Valid() && k.session == 1
    ensures Reaches(config, 2, rules, With(config, Sampled(config, k, Booked(Unknown), Phase.Dead), Some(OneCandidate(config, k)), 1, 1),
                    [OneFlight(config, k)])
  {
    hide Reaches;
    AboutToSend(config, rules, k);
    var c, fs := Some(OneCandidate(config, k)), [OneFlight(config, k)];
    var u := Booked(Unknown);
    ReachSend(config, 2, rules, With(config, Sampled(config, k, Application.Pending, Phase.Sending), c, 1, 1), [], false, true);
    assert [] + fs == fs;
    Reach(config, 2, rules, With(config, Sampled(config, k, Application.Pending, Settling(Unknown)), c, 1, 1), fs, DoSettle(false));
    Reach(config, 2, rules, With(config, Sampled(config, k, u, Finishing(false)), c, 1, 1), fs, DoFinish);
    Reach(config, 2, rules, With(config, Sampled(config, k, u, Ending), c, 1, 1), fs, DoDie);
  }

  /** A first attempt whose request raised on sending, then a retry whose wait for odometry fails: it is
      shown as rejected, and the application stays latched. */
  lemma FailedRetryKeepsLatch(config: nat, rules: Rules, k: Keyframe) returns (s: Service.State, flights: seq<Flight>)
    requires rules.Valid() && k.session == 1
    ensures Reaches(config, 2, rules, s, flights) && Misleads(s)
  {
    hide Reaches;
    LatchedUnknown(config, rules, k);
    var c := Some(OneCandidate(config, k));
    var s0 := With(config, Sampled(config, k, Booked(Unknown), Phase.Dead), c, 1, 1);
    var s1 := With(config, Retried(config, k, Application.Pending, Collecting), c, 2, 1);
    flights := [OneFlight(config, k)];
    RetryAccepted(config, k);
    Reach(config, 2, rules, s0, flights, AskApply(RETRY, 0.0, false, false, true));
    Reach(config, 2, rules, s1, flights, DoCollect(true));
    var s2 := With(config, Retried(config, k, Application.Pending, Phase.Releasing(true)), c, 2, 1);
    Reach(config, 2, rules, s2, flights, DoRelease(None, true));
    s := With(config, Retried(config, k, Booked(Rejected), Finishing(false)), c, 2, 1);
  }

  lemma RetryAccepted(config: nat, k: Keyframe)
    requires k.session == 1
    ensures var c := Some(OneCandidate(config, k));
      Apply(With(config, Sampled(config, k, Booked(Unknown), Phase.Dead), c, 1, 1), RETRY, 0.0, false, false, true).0
      == With(config, Retried(config, k, Application.Pending, Collecting), c, 2, 1)
  {
  }

  // ----------------------------------------------------------- an empty answer

  /** The service waits for the answer to its only request. */
  function Asking(config: nat, k: Keyframe): Service.State {
    With(config, Sampled(config, k, Application.Pending, Waiting(0)).(sent := true), Some(OneCandidate(config, k)), 1, 1)
  }

  lemma AskedOnce(config: nat, rules: Rules, k: Keyframe)
    requires rules.Valid() && k.session == 1
    ensures Reaches(config, 2, rules, Asking(config, k), [OneFlight(config, k)])
  {
    hide Reaches;
    AboutToSend(config, rules, k);
    var c := Some(OneCandidate(config, k));
    ReachSend(config, 2, rules, With(config, Sampled(config, k, Application.Pending, Phase.Sending), c, 1, 1), [], false, false);
    assert [] + [OneFlight(config, k)] == [OneFlight(config, k)];
  }

  /** The bridge takes the request. */
  lemma Taken(y: Sys, config: nat, k: Keyframe, rules: Rules)
    requires rules.Valid() && Stands(y, Asking(config, k), [OneFlight(config, k)])
    ensures var z := Successor(y, Step.RequestArrives(0), rules);
      z.service == y.service && TookEffect(z, config, k)
  {
    var r := RequestOf(OneCandidate(config, k));
    SquareOf(rules.limits.maximumTranslation);
    hide Sq;
    assert Appliable(UP, r, rules.limits);
    assert SetCorrection(UP, r, rules.limits).0 == Moved(Bridge.Applied(UP, r), [StatusOf(Bridge.Applied(UP, r))]);
  }

  lemma SquareOf(x: real)
    ensures Sq(x) >= 0.0 && Sq(0.0) == 0.0
  {
    SqIs(x);
    SqIs(0.0);
    SquareNonNegative(x);
  }

  lemma SquareNonNegative(x: real)
    ensures x * x >= 0.0
  {
  }

  /** The bridge applied the request and holds the correction. */
  predicate TookEffect(y: Sys, config: nat, k: Keyframe) {
    |y.flights| == 1 && Effective(y.flights[0]) && y.flights[0].epoch == 0 && Holds(y.net, HoldFor(OneCandidate(config, k)))
  }

  /** The job once its outcome is settled, and once it is booked. */
  function Away(config: nat, k: Keyframe, application: Application, phase: Phase): Service.State {
    With(config, Sampled(config, k, application, phase).(sent := true), Some(OneCandidate(config, k)), 1, 1)
  }

  /** An empty answer then makes the service take its first attempt for refused. */
  lemma TurnedAway(y: Sys, config: nat, k: Keyframe, rules: Rules)
    requires rules.Valid() && y.service == Asking(config, k) && TookEffect(y, config, k)
    ensures var z := Successor(y, EmptyAnswer, rules);
      z.service == Away(config, k, Application.Pending, Settling(Rejected)) && TookEffect(z, config, k)
  {
    EmptyAnswered(y, rules);
    EmptySettles(y.service);
    assert AnsweredEmpty(y).net == y.net;
    hide Holds, HoldFor, Answered;
  }

  /** And book it so. */
  lemma BookedAway(y: Sys, config: nat, k: Keyframe, rules: Rules)
    requires rules.Valid() && y.service == Away(config, k, Application.Pending, Settling(Rejected)) && TookEffect(y, config, k)
    ensures var z := Successor(y, ServiceActs(DoSettle(false)), rules);
      && TookEffect(z, config, k) && z.service.job.Some?
      && z.service.job.value == Sampled(config, k, Booked(Rejected), Finishing(false)).(sent := true)
  {
    SettledAway(config, k);
    OtherFlights(y, DoSettle(false), rules);
    hide Holds, HoldFor, Settle;
  }

  lemma SettledAway(config: nat, k: Keyframe)
    ensures var s := Away(config, k, Application.Pending, Settling(Rejected));
      && HasCandidate(s) && Settle(s, false).job.Some?
      && Settle(s, false).job.value == Sampled(config, k, Booked(Rejected), Finishing(false)).(sent := true)
  {
  }

  /** A first attempt whose future completes without an answer is booked as rejected even though the bridge
      applied its request and holds the correction. */
  lemma EmptyAnswerMisleads(config: nat, rules: Rules, k: Keyframe) returns (steps: seq<Step>)
    requires rules.Valid() && k.session == 1
    ensures var y := After(config, 2, steps, rules);
      && y.service.job.Some? && y.service.job.value.application == Booked(Rejected) && !y.service.job.value.task.retrying
      && y.service.job.value.candidate == Some(OneCandidate(config, k)) && TookEffect(y, config, k)
  {
    hide After, Successor, TookEffect;
    AskedOnce(config, rules, k);
    var before :| Stands(After(config, 2, before, rules), Asking(config, k), [OneFlight(config, k)]);
    Taken(After(config, 2, before, rules), config, k, rules);
    Extend(config, 2, before, Step.RequestArrives(0), rules);
    var s1 := before + [Step.RequestArrives(0)];
    TurnedAway(After(config, 2, s1, rules), config, k, rules);
    Extend(config, 2, s1, EmptyAnswer, rules);
    var s2 := s1 + [EmptyAnswer];
    BookedAway(After(config, 2, s2, rules), config, k, rules);
    Extend(config, 2, s2, ServiceActs(DoSettle(false)), rules);
    steps := s2 + [ServiceActs(DoSettle(false))];
  }

  // ------------------------------------------- exactly when a rejection is untrue

  /** A first attempt is taken for rejected, or shown so, although some request of it was not turned down: it
      took effect, or still may. */
  ghost predicate Denies(y: Sys) {
    && y.service.job.Some? && y.service.job.value.candidate.Some? && !y.service.job.value.task.retrying
    && SaysRejected(y.service.job.value) && !AllTurnedDown(y.flights, y.service.job.value.candidate.value.epoch)
  }

  ghost predicate AllTurnedDown(flights: seq<Flight>, epoch: nat) {
    forall i | 0 <= i < |flights| && flights[i].epoch == epoch :: TurnedDown(flights[i])
  }

  /** A first attempt waits for the answer to a request that the bridge has not turned down. */
  predicate WaitsUndenied(y: Sys) {
    && y.service.job.Some? && !y.service.job.value.task.retrying && y.service.job.value.phase.Waiting?
    && y.service.job.value.phase.flight < |y.flights| && !TurnedDown(y.flights[y.service.job.value.phase.flight])
  }

  function Blank(flights: seq<Flight>): (blank: seq<Flight>)
    ensures |blank| == |flights| && forall i | 0 <= i < |flights| :: blank[i] == flights[i].(empty := false)
  {
    seq(|flights|, i requires 0 <= i < |flights| => flights[i].(empty := false))
  }

  /** The system as if no answer had come back empty. */
  function Erased(y: Sys): Sys { y.(flights := Blank(y.flights)) }

  lemma BlankFlights(net: Net, origins: seq<Origin>, flights: seq<Flight>)
    requires FlightsInv(net, origins, flights)
    ensures FlightsInv(net, origins, Blank(flights))
  {
    forall i | 0 <= i < |flights| ensures FlightInv(net, origins, Blank(flights)[i]) {
      assert FlightInv(net, origins, flights[i]);
    }
    hide Blank, Shown, Past;
  }

  lemma BlankTruth(held: set<Hold>, flights: seq<Flight>, j: Job)
    requires TruthInv(held, flights, j)
    requires j.candidate.Some? && !j.task.retrying && SaysRejected(j) ==> AllTurnedDown(flights, j.candidate.value.epoch)
    ensures TruthInv(held, Blank(flights), j)
  {
    hide Blank, SaysApplied, SaysRejected, RequestOf;
  }

  /** As long as nothing is denied, the erased system meets the invariant as well. */
  lemma ErasedInv(y: Sys, rules: Rules)
    requires rules.Valid() && SysInv(y, rules) && !Denies(y)
    ensures SysInv(Erased(y), rules)
  {
    BlankFlights(y.net, y.origins, y.flights);
    if y.service.job.Some? { BlankTruth(y.net.held, y.flights, y.service.job.value); }
    hide NetInv, WindowSafety.Inv, OwnerSafety.OwnerInv, BookInv, FlightsInv, TruthInv, Blank, SaysRejected, AllTurnedDown, Aimed;
  }

  lemma BlankUpdate(flights: seq<Flight>, i: nat, fate: Fate)
    requires i < |flights|
    ensures Blank(flights[i := flights[i].(fate := fate)]) == Blank(flights)[i := Blank(flights)[i].(fate := fate)]
  {
  }

  lemma BlankAppend(flights: seq<Flight>, f: Flight)
    requires !f.empty
    ensures Blank(flights + [f]) == Blank(flights) + [f]
  {
  }

  lemma ErasedActs(y: Sys, a: Action, rules: Rules)
    requires rules.Valid() && MayAct(y.service, a, rules)
    ensures Acted(Erased(y), a, rules) == Erased(Acted(y, a, rules))
  {
    var t, sent := Act(y.service, a, |y.flights|, rules), Sends(y.service, a, |y.flights|, rules);
    if sent.Some? && t.job.Some? && t.job.value.candidate.Some? {
      BlankAppend(y.flights, Flight(sent.value, t.job.value.candidate.value.epoch, y.service.extnav.status, Flying, false));
    }
    hide Act, MayAct, Sends, Blank;
  }

  lemma ErasedArrives(y: Sys, i: nat, rules: Rules)
    requires rules.Valid() && i < |y.flights|
    ensures Arrived(Erased(y), i, rules.limits) == Erased(Arrived(y, i, rules.limits))
  {
    var (m, answer) := SetCorrection(y.net.bridge, y.flights[i].request, rules.limits);
    BlankUpdate(y.flights, i, Delivered(StatusOf(y.net.bridge), answer, m.state.revision != y.net.bridge.revision));
    hide SetCorrection, Take, Blank;
  }

  lemma ErasedEnabled(y: Sys, step: Step, rules: Rules)
    requires rules.Valid() && !step.EmptyAnswer?
    ensures Enabled(Erased(y), step, rules) <==> Enabled(y, step, rules)
  {
    hide Registered;
    if step.ServiceActs? && step.action.DoHearAnswer? && MayAct(y.service, step.action, rules) {
      var f := y.service.job.value.phase.flight;
      assert f < |y.flights| ==> Blank(y.flights)[f].fate == y.flights[f].fate;
    }
  }

  /** No other step can tell the erased system from the real one. */
  lemma ErasedCommutes(y: Sys, step: Step, rules: Rules)
    requires rules.Valid() && !step.EmptyAnswer?
    ensures Successor(Erased(y), step, rules) == Erased(Successor(y, step, rules))
  {
    hide Act, MayAct, Sends, Blank, SetCorrection, Take, OnRaw, OnTimer, OnStatus, Confirm, Acted, Arrived;
    ErasedEnabled(y, step, rules);
    if Enabled(y, step, rules) {
      match step
      case RequestArrives(i) => ErasedArrives(y, i, rules);
      case ServiceActs(a) => ErasedActs(y, a, rules);
      case _ =>
    }
  }

  /** Without empty answers, what counts as refused was turned down. */
  lemma BlankRefused(y: Sys, rules: Rules)
    requires rules.Valid() && SysInv(Erased(y), rules)
    ensures !Denies(y)
  {
    hide NetInv, WindowSafety.Inv, OwnerSafety.OwnerInv, BookInv, FlightsInv, AimInv, HearingInv, SaysRejected, TurnedDown, Blank;
    if y.service.job.Some? && y.service.job.value.candidate.Some? && !y.service.job.value.task.retrying
       && SaysRejected(y.service.job.value) {
      var e, blank := y.service.job.value.candidate.value.epoch, Blank(y.flights);
      assert Refused(blank, e);
      forall i | 0 <= i < |y.flights| && y.flights[i].epoch == e ensures TurnedDown(y.flights[i]) {
        SameFate(y.flights[i]);
        assert blank[i].epoch == e;
      }
    }
  }

  lemma SameFate(f: Flight)
    ensures TurnedDown(f.(empty := false)) == TurnedDown(f)
  {
  }

  lemma OthersDenyNothing(y: Sys, step: Step, rules: Rules)
    requires rules.Valid() && SysInv(y, rules) && !Denies(y) && !step.EmptyAnswer?
    ensures !Denies(Successor(y, step, rules))
  {
    hide SysInv, Denies, Successor, Erased;
    ErasedInv(y, rules);
    ErasedCommutes(y, step, rules);
    SuccessorKeepsInv(Erased(y), step, rules);
    BlankRefused(Successor(y, step, rules), rules);
  }

  lemma EmptyDenies(y: Sys, rules: Rules)
    requires rules.Valid() && SysInv(y, rules) && !Denies(y)
    ensures Denies(Successor(y, EmptyAnswer, rules)) <==> Enabled(y, EmptyAnswer, rules) && WaitsUndenied(y)
  {
    hide SysInv, Denies, WaitsUndenied, LinkInv, MayAct, AnsweredEmpty;
    if Enabled(y, EmptyAnswer, rules) {
      EmptyAnswered(y, rules);
      EmptyShape(y, rules);
      LinkOf(y, rules);
      WaitingDenies(y, AnsweredEmpty(y));
    }
  }

  lemma EmptyShape(y: Sys, rules: Rules)
    requires rules.Valid() && Enabled(y, EmptyAnswer, rules)
    ensures HasCandidate(y.service) && y.service.job.value.phase.Waiting?
    ensures AnsweredEmpty(y).service == At(y.service, Settling(Unsent(y.service.job.value)))
  {
    EmptySettles(y.service);
    hide Answered;
  }

  lemma LinkOf(y: Sys, rules: Rules)
    requires rules.Valid() && SysInv(y, rules)
    ensures LinkInv(y)
  {
  }

  /** The only request of the epoch is the one awaited. */
  lemma WaitingDenies(y: Sys, z: Sys)
    requires LinkInv(y) && HasCandidate(y.service) && y.service.job.value.phase.Waiting?
    requires z.service == At(y.service, Settling(Unsent(y.service.job.value))) && |z.flights| == |y.flights|
    requires forall i | 0 <= i < |y.flights| :: z.flights[i] == y.flights[i].(empty := z.flights[i].empty)
    ensures Denies(z) <==> WaitsUndenied(y)
  {
    TruthOf(y);
    hide LinkInv, FlightsInv, RequestOf, HoldFor;
    var j := y.service.job.value;
    var f, e := j.phase.flight, j.candidate.value.epoch;
    assert z.flights[f].epoch == e && TurnedDown(z.flights[f]) == TurnedDown(y.flights[f]);
    if !j.task.retrying {
      forall i | 0 <= i < |z.flights| && z.flights[i].epoch == e ensures i == f { assert y.flights[i].epoch == e; }
    }
  }

  /** Over all runs: a first attempt comes to be taken for rejected without having been turned down if and only
      if its awaited answer comes back empty and the bridge has not turned its request down. */
  lemma DeniesExactlyWhen(config: nat, size: nat, steps: seq<Step>, step: Step, rules: Rules)
    requires rules.Valid() && size >= 2 && !Denies(After(config, size, steps, rules))
    ensures Denies(After(config, size, steps + [step], rules)) <==>
      step.EmptyAnswer? && Enabled(After(config, size, steps, rules), step, rules) && WaitsUndenied(After(config, size, steps, rules))
  {
    hide SysInv, Denies, WaitsUndenied, Successor, Enabled, After;
    Reached(config, size, steps, rules);
    Extend(config, size, steps, step, rules);
    if step.EmptyAnswer? {
      EmptyDenies(After(config, size, steps, rules), rules);
    } else {
      OthersDenyNothing(After(config, size, steps, rules), step, rules);
    }
  }

  /** So in every run whose empty answers reach only retries and requests already turned down, a first attempt
      booked as rejected never had an effect and never will. */
  lemma {:induction false} RejectionIsTrue(config: nat, size: nat, steps: seq<Step>, rules: Rules)
    requires rules.Valid() && size >= 2
    requires forall k | 0 <= k < |steps| && steps[k].EmptyAnswer? :: !WaitsUndenied(After(config, size, steps[..k], rules))
    ensures !Denies(After(config, size, steps, rules))
    decreases |steps|
  {
    hide SysInv, Denies, WaitsUndenied, Successor, Enabled, Play;
    if steps == [] {
      BootDeniesNothing(config, size, rules);
    } else {
      var n := |steps| - 1;
      forall k | 0 <= k < n && steps[..n][k].EmptyAnswer? ensures !WaitsUndenied(After(config, size, steps[..n][..k], rules)) {
        assert steps[..n][..k] == steps[..k];
      }
      RejectionIsTrue(config, size, steps[..n], rules);
      assert steps == steps[..n] + [steps[n]];
      DeniesExactlyWhen(config, size, steps[..n], steps[n], rules);
    }
  }

  lemma BootDeniesNothing(config: nat, size: nat, rules: Rules)
    requires rules.Valid()
    ensures !Denies(After(config, size, [], rules))
  {
  }
}
