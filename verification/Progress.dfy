/** That the protocol gets somewhere: from every state in which a calibration may start, a job that nobody
    disturbs enters its keyframe into the window and its correction into the bridge.
 */
module Progress {
  import opened Options
  import Reals
  import opened Bridge
  import opened Service
  import opened WindowSafety
  import opened Network
  import opened Sections
  import opened Protocol
  import BE = BridgeEffects
  import SE = ServiceEffects

  /** What a calibration is given: the request and the moment it is made, and what sampling and registration
      come to. */
  datatype Given = Given(ask: StartRequest, now: real, keyframe: Keyframe, values: Values, quality: Quality)

  /** The service has heard the bridge's present status, and nobody is at work or about to be stopped. */
  predicate AtPeace(y: Sys, now: real) {
    var s, b := y.service, y.net.bridge;
    && b.available && b.session != NO_SESSION
    && s.extnav.heard && s.extnav.version == SameVersion && s.extnav.service
    && s.extnav.status.available && s.extnav.status.session == b.session && s.extnav.status.revision == b.revision
    && !SE.Busy(s) && s.pending == None && !s.resourceFault && !s.closing && !SE.Over(s.desk, now)
    && y.cursor <= |y.net.log|
    && b.job != Ours(s.nextSerial)
  }

  /** The request is one the service accepts. */
  predicate Asks(s: Service.State, r: StartRequest) {
    && SE.Admitted(s, r.write) && r.write.instanceOk && r.write.window == s.window.revision
    && r.revision == s.extnav.status.revision && r.apply && r.tagKnown && 2 <= r.size <= r.maximumSize
    && (if s.window.keyframes == [] then r.operation == First
        else r.operation == Next && s.window.keyframes[0].session == s.extnav.status.session && r.size == s.window.size)
    && forall k | k in s.window.keyframes :: k.tag != r.tag
  }

  /** The correction is one the bridge accepts. */
  predicate Acceptable(values: Values, q: Quality, limits: Limits) {
    && q.positionStd >= 0.0 && q.yawStd >= 0.0 && q.reprojection >= 0.0 && q.matchError >= 0.0 && q.sampleCount > 0
    && values.x * values.x + values.y * values.y <= limits.maximumTranslation * limits.maximumTranslation
  }

  ghost predicate MayCalibrate(y: Sys, g: Given, rules: Rules)
    requires rules.Valid()
  {
    && AtPeace(y, g.now) && Asks(y.service, g.ask) && g.ask.maximumSize == rules.maximumSize
    && g.keyframe.session == y.net.bridge.session
    && Registered(g.ask.operation, y.service.window.keyframes, g.keyframe, rules)
    && Acceptable(g.values, g.quality, rules.limits)
  }

  // ----------------------------------------------------------------- the steps

  ghost predicate Leads(y: Sys, steps: seq<Step>, z: Sys, rules: Rules)
    requires rules.Valid()
    decreases |steps|
  {
    if steps == [] then y == z else Enabled(y, steps[0], rules) && Leads(Successor(y, steps[0], rules), steps[1..], z, rules)
  }

  lemma Then(y: Sys, step: Step, rest: seq<Step>, z: Sys, rules: Rules)
    requires rules.Valid() && Enabled(y, step, rules) && Leads(Successor(y, step, rules), rest, z, rules)
    ensures Leads(y, [step] + rest, z, rules)
  {
    assert ([step] + rest)[1..] == rest;
    hide Enabled, Successor;
  }

  /** An action of the service that sends nothing moves the service alone. */
  lemma Moves(y: Sys, a: Action, t: Service.State, rules: Rules)
    requires rules.Valid() && MayAct(y.service, a, rules) && !a.DoHearAnswer? && !a.DoSend?
    requires forall flight :: Act(y.service, a, flight, rules) == t
    ensures Enabled(y, ServiceActs(a), rules)
    ensures var z := Successor(y, ServiceActs(a), rules);
      z.service == t && z.net == y.net && z.cursor == y.cursor && z.flights == y.flights
  {
    hide Act, MayAct;
  }

  /** The service after it accepted the request. */
  function Started(s: Service.State, g: Given): Service.State
    requires g.ask.size >= 0
  {
    var m := s.extnav.status;
    var task := Task(Ours(s.nextSerial), g.ask.write.source, g.ask.operation, g.ask.tag, g.ask.size, true, m.session, m.revision,
                     s.window.revision, true, false);
    SE.Counted(s, g.ask.write).(window := s.window.(size := g.ask.size), nextSerial := s.nextSerial + 1, capture := true,
                                job := Some(Job(task, NO_STOPS, true, None, false, false, Pending, Collecting)))
  }

  /** The candidate it freezes. */
  function Proposed(s: Service.State, g: Given): Candidate
    requires g.ask.size >= 1
  {
    var kept := if g.ask.operation == First then [] else s.window.keyframes;
    Candidate(
      SE.Newest(kept, g.ask.size) + [g.keyframe], g.values, s.extnav.status.session, s.config, Ours(s.nextSerial), s.window.revision,
      s.extnav.status.revision, false, 0, g.quality.sampleCount, g.quality.positionStd, g.quality.yawStd, g.quality.reprojection,
      g.quality.matchError, s.nextEpoch)
  }

  /** The service while the job with that candidate is at some place. */
  function Stage(s: Service.State, g: Given, phase: Phase, capture: bool, latched: bool, sent: bool): Service.State
    requires g.ask.size >= 1
  {
    var t, c := Started(s, g), Proposed(s, g);
    t.(nextEpoch := s.nextEpoch + 1, capture := capture, pending := if latched then Some(c) else None,
       job := Some(t.job.value.(candidate := Some(c), sent := sent, phase := phase)))
  }

  lemma Starts(y: Sys, g: Given, rules: Rules)
    requires rules.Valid() && MayCalibrate(y, g, rules)
    ensures Start(y.service, g.ask, g.now, false, true) == (Started(y.service, g), true)
  {
    SE.LeaseChecked(y.service, g.now);
    SE.StartAsked(y.service, y.service, g.ask, g.now, false, true);
    hide Start, ExpireOwner, Registered;
  }

  lemma Freezes(s: Service.State, g: Given)
    requires g.ask.size >= 1 && s.pending == None
    ensures Freeze(Started(s, g), g.keyframe, g.values, g.quality) == Stage(s, g, Releasing(false), true, false, false)
  {
    var t := Started(s, g);
    SE.CandidateFrozen(t, g.keyframe, g.values, g.quality);
    hide Freeze, SE.Newest;
  }

  lemma GoesToSend(s: Service.State, g: Given)
    requires g.ask.size >= 1 && SE.Live(s.extnav, false)
    ensures Release(Stage(s, g, Releasing(false), true, false, false), None, true) == Stage(s, g, Beginning, false, false, false)
    ensures Begin(Stage(s, g, Beginning, false, false, false)) == Stage(s, g, Checking, false, true, false)
    ensures Check(Stage(s, g, Checking, false, true, false), false) == Stage(s, g, Discovering, false, true, false)
    ensures Discover(Stage(s, g, Discovering, false, true, false), true) == Stage(s, g, Sending, false, true, false)
  {
    SE.CaptureReleased(Stage(s, g, Releasing(false), true, false, false), true);
    SE.AttemptBegins(Stage(s, g, Beginning, false, false, false));
    SE.ChecksBeforeSending(Stage(s, g, Checking, false, true, false), false, true);
    SE.ChecksBeforeSending(Stage(s, g, Discovering, false, true, false), false, true);
    hide Release, Begin, Check, Discover, Proposed;
  }

  /** What it asks the bridge for. */
  function Wanted(s: Service.State, g: Given): Request {
    Request(Ours(s.nextSerial), s.extnav.status.session, s.extnav.status.revision, true, g.values, g.quality.sampleCount,
            g.quality.positionStd, g.quality.yawStd, g.quality.reprojection, g.quality.matchError)
  }

  lemma SendsProposal(y: Sys, g: Given, rules: Rules, flight: nat)
    requires rules.Valid() && MayCalibrate(y, g, rules)
    ensures Send(Stage(y.service, g, Sending, false, true, false), g.now, false, false, flight)
         == (Stage(y.service, g, Waiting(flight), false, true, true), Some(Wanted(y.service, g)))
  {
    var s := y.service;
    var t := Stage(s, g, Sending, false, true, false);
    SE.LeaseChecked(t, g.now);
    SE.RequestLeaves(t, t, g.now, false, false, flight);
    hide Send, ExpireOwner, Registered;
  }

  /** The bridge once the request has arrived. */
  function Corrected(b: Bridge.State, r: Request): Bridge.State {
    b.(valid := true, values := r.values, job := r.job, revision := b.revision + 1, resets := (b.resets + 1) % 256, output := None,
       lastError := NoError)
  }

  lemma Arrives(y: Sys, g: Given, rules: Rules)
    requires rules.Valid() && MayCalibrate(y, g, rules)
    ensures var (b, r) := (y.net.bridge, Wanted(y.service, g));
      SetCorrection(b, r, rules.limits)
        == (Moved(Corrected(b, r), [StatusOf(Corrected(b, r))]), Response(true, true, b.revision + 1, b.session))
  {
    var b, r := y.net.bridge, Wanted(y.service, g);
    BE.RequestTakes(b, r, rules.limits);
    Put(b, r, rules.limits);
    hide SetCorrection, Registered;
  }

  /** Applying leaves everything else of the bridge as it is. */
  lemma Put(b: Bridge.State, r: Request, limits: Limits)
    requires BE.EffectOf(b, r, limits) == BE.Put
    ensures SetCorrection(b, r, limits).0 == Moved(Corrected(b, r), [StatusOf(Corrected(b, r))])
  {
    Reals.SqIs(r.values.x);
    Reals.SqIs(r.values.y);
    Reals.SqIs(limits.maximumTranslation);
    hide Reals.Sq;
  }

  /** The service once it has heard of it. */
  function Told(s: Service.State, g: Given, b: Bridge.State, phase: Phase): Service.State
    requires g.ask.size >= 1
  {
    Stage(s, g, phase, false, true, true).(extnav := Snapshot(true, SameVersion, true, StatusOf(b)))
  }

  lemma Hears(y: Sys, g: Given, rules: Rules, flight: nat)
    requires rules.Valid() && MayCalibrate(y, g, rules)
    ensures var b := Corrected(y.net.bridge, Wanted(y.service, g));
      OnStatus(Stage(y.service, g, Waiting(flight), false, true, true), Snapshot(true, SameVersion, true, StatusOf(b)))
        == Told(y.service, g, b, Waiting(flight))
  {
    var s, b := y.service, Corrected(y.net.bridge, Wanted(y.service, g));
    SE.StatusHeard(Stage(s, g, Waiting(flight), false, true, true), Snapshot(true, SameVersion, true, StatusOf(b)));
    hide OnStatus, Registered, Proposed;
  }

  /** Does the source of the job hold the lease, or did it once? */
  predicate LeaseBound(s: Service.State, g: Given) { SE.Leased(s.desk, g.ask.write.source) }

  /** What the job is about to book. */
  function DueOutcome(s: Service.State, g: Given, b: Bridge.State): Outcome {
    if LeaseBound(s, g) then AppliedStatus(b.revision) else AppliedAck(b.revision)
  }

  lemma Concludes(y: Sys, g: Given, rules: Rules, flight: nat)
    requires rules.Valid() && MayCalibrate(y, g, rules)
    ensures var s, b := y.service, Corrected(y.net.bridge, Wanted(y.service, g));
      && Answered(Told(s, g, b, Waiting(flight)), Response(true, true, b.revision, b.session))
           == Told(s, g, b, if LeaseBound(s, g) then Confirming(flight, Some(b.revision)) else Settling(AppliedAck(b.revision)))
      && Reconcile(Told(s, g, b, Confirming(flight, Some(b.revision))), false, false) == Told(s, g, b, Settling(AppliedStatus(b.revision)))
  {
    var s, b := y.service, Corrected(y.net.bridge, Wanted(y.service, g));
    SE.AnswerHeard(Told(s, g, b, Waiting(flight)), Response(true, true, b.revision, b.session));
    SE.StatusPolled(Told(s, g, b, Confirming(flight, Some(b.revision))), false, false);
    hide Answered, Reconcile, Registered;
  }

  /** What an undisturbed calibration comes to: the bridge holds the correction under the job's name, one revision on;
      the window has accepted exactly the new keyframe and keeps the newest of them; what is saved is of this window and of
      this revision; nothing is latched; and the job is over. */
  predicate Calibrated(y: Sys, g: Given, z: Sys)
    requires g.ask.size >= 1
  {
    var s, t, b, d := y.service, z.service, y.net.bridge, z.net.bridge;
    && d.valid && d.values == g.values && d.job == Ours(s.nextSerial) && d.session == b.session && d.revision == b.revision + 1
    && t.window.accepted == s.window.accepted + [g.keyframe] && t.window.size == g.ask.size
    && t.window.keyframes == SE.Newest(if g.ask.operation == First then [] else s.window.keyframes, g.ask.size) + [g.keyframe]
    && t.window.revision == s.window.revision + 1 && t.window.successes == s.window.successes + 1
    && t.saved.Some? && t.saved.value.keyframes == t.window.keyframes && t.saved.value.values == g.values
    && t.saved.value.session == d.session && t.saved.value.job == d.job
    && t.saved.value.saved && t.saved.value.savedWindow == t.window.revision && t.saved.value.expected == d.revision
    && t.pending == None && !t.capture && !SE.Busy(t) && t.job.Some?
    && t.job.value.windowSaved && t.job.value.application == Booked(DueOutcome(s, g, d)) && t.desk == SE.Counted(s, g.ask.write).desk
  }

  lemma BooksIt(y: Sys, g: Given, rules: Rules)
    requires rules.Valid() && MayCalibrate(y, g, rules)
    ensures var s, b := y.service, Corrected(y.net.bridge, Wanted(y.service, g));
      var t := Settle(Told(s, g, b, Settling(DueOutcome(s, g, b))), false);
      && t.job.Some? && t.job.value.phase == Finishing(true) && Finish(t).job.Some? && Finish(t).job.value.phase == Ending
      && forall z: Sys | z.service == Die(Finish(t)) && z.net.bridge == b :: Calibrated(y, g, z)
  {
    var s, b := y.service, Corrected(y.net.bridge, Wanted(y.service, g));
    var u := Told(s, g, b, Settling(DueOutcome(s, g, b)));
    var t := Settle(u, false);
    SE.AppliedEnters(u, false);
    SE.JobEnds(t);
    SE.JobEnds(Finish(t));
    hide Settle, Finish, Die, Registered, SE.Newest;
  }

  // ------------------------------------------------------------------- the run

  lemma NoSteps(z: Sys, rules: Rules)
    requires rules.Valid()
    ensures Leads(z, [], z, rules)
  {
  }

  lemma LastSteps(y: Sys, g: Given, u: Sys, rules: Rules) returns (steps: seq<Step>, z: Sys)
    requires rules.Valid() && MayCalibrate(y, g, rules)
    requires var b := Corrected(y.net.bridge, Wanted(y.service, g));
      u.net.bridge == b && u.service == Told(y.service, g, b, Settling(DueOutcome(y.service, g, b)))
    ensures Leads(u, steps, z, rules) && Calibrated(y, g, z) && Quiet(steps)
  {
    var t := Settle(u.service, false);
    BooksIt(y, g, rules);
    SettleActs(u.service, t, rules);
    hide Settle, Finish, Die, Enabled, Successor, Leads, Calibrated, Told, MayCalibrate, Act, MayAct, Quiet;
    Moves(u, DoSettle(false), t, rules);
    var u1 := Successor(u, ServiceActs(DoSettle(false)), rules);
    Moves(u1, DoFinish, Finish(t), rules);
    var u2 := Successor(u1, ServiceActs(DoFinish), rules);
    Moves(u2, DoDie, Die(Finish(t)), rules);
    z := Successor(u2, ServiceActs(DoDie), rules);
    NoSteps(z, rules);
    Then(u2, ServiceActs(DoDie), [], z, rules);
    Then(u1, ServiceActs(DoFinish), [ServiceActs(DoDie)] + [], z, rules);
    steps := [ServiceActs(DoSettle(false))] + ([ServiceActs(DoFinish)] + ([ServiceActs(DoDie)] + []));
    Then(u, ServiceActs(DoSettle(false)), [ServiceActs(DoFinish)] + ([ServiceActs(DoDie)] + []), z, rules);
    QuietOn(ServiceActs(DoDie), []);
    QuietOn(ServiceActs(DoFinish), [ServiceActs(DoDie)] + []);
    QuietOn(ServiceActs(DoSettle(false)), [ServiceActs(DoFinish)] + ([ServiceActs(DoDie)] + []));
  }

  /** Nobody but the job, its own request and the bridge's status takes part. */
  predicate Quiet(steps: seq<Step>) { forall step | step in steps :: step.ServiceActs? || step.RequestArrives? || step.StatusArrives? }

  lemma QuietOn(step: Step, rest: seq<Step>)
    requires (step.ServiceActs? || step.RequestArrives? || step.StatusArrives?) && (rest == [] || Quiet(rest))
    ensures Quiet([step] + rest)
  {
  }

  lemma SettleActs(s: Service.State, t: Service.State, rules: Rules)
    requires rules.Valid() && HasCandidate(s) && s.job.value.phase.Settling? && t == Settle(s, false)
    requires t.job.Some? && t.job.value.phase == Finishing(true) && Finish(t).job.Some? && Finish(t).job.value.phase == Ending
    ensures MayAct(s, DoSettle(false), rules) && forall f :: Act(s, DoSettle(false), f, rules) == t
    ensures MayAct(t, DoFinish, rules) && forall f :: Act(t, DoFinish, f, rules) == Finish(t)
    ensures MayAct(Finish(t), DoDie, rules) && forall f :: Act(Finish(t), DoDie, f, rules) == Die(Finish(t))
  {
    hide Settle, Finish, Die;
  }

  /** The answer is heard, and by a leased source the status as well. */
  lemma AnswerSteps(y: Sys, g: Given, u: Sys, flight: nat, rules: Rules) returns (steps: seq<Step>, z: Sys)
    requires rules.Valid() && MayCalibrate(y, g, rules)
    requires var b := Corrected(y.net.bridge, Wanted(y.service, g));
      && u.net.bridge == b && u.service == Told(y.service, g, b, Waiting(flight))
      && flight < |u.flights| && u.flights[flight].fate.Delivered?
      && u.flights[flight].fate.answer == Response(true, true, b.revision, b.session)
    ensures Leads(u, steps, z, rules) && Calibrated(y, g, z) && Quiet(steps)
  {
    var s, b := y.service, Corrected(y.net.bridge, Wanted(y.service, g));
    var a := Response(true, true, b.revision, b.session);
    Concludes(y, g, rules, flight);
    HearsAnswer(u, flight, a, rules);
    var u1 := Successor(u, ServiceActs(DoHearAnswer(a)), rules);
    if LeaseBound(s, g) {
      PollActs(u1.service, flight, b.revision, rules);
      Moves(u1, DoPoll(false, false), Reconcile(u1.service, false, false), rules);
      var u2 := Successor(u1, ServiceActs(DoPoll(false, false)), rules);
      hide Enabled, Successor, Leads, Calibrated, MayCalibrate, Quiet, Reconcile, Answered, Told;
      var rest;
      rest, z := LastSteps(y, g, u2, rules);
      Then(u1, ServiceActs(DoPoll(false, false)), rest, z, rules);
      QuietOn(ServiceActs(DoPoll(false, false)), rest);
      steps := [ServiceActs(DoHearAnswer(a))] + ([ServiceActs(DoPoll(false, false))] + rest);
      Then(u, ServiceActs(DoHearAnswer(a)), [ServiceActs(DoPoll(false, false))] + rest, z, rules);
      QuietOn(ServiceActs(DoHearAnswer(a)), [ServiceActs(DoPoll(false, false))] + rest);
    } else {
      hide Enabled, Successor, Leads, Calibrated, MayCalibrate, Quiet, Answered, Told;
      var rest;
      rest, z := LastSteps(y, g, u1, rules);
      steps := [ServiceActs(DoHearAnswer(a))] + rest;
      Then(u, ServiceActs(DoHearAnswer(a)), rest, z, rules);
      QuietOn(ServiceActs(DoHearAnswer(a)), rest);
    }
  }

  lemma HearsAnswer(u: Sys, flight: nat, a: Response, rules: Rules)
    requires rules.Valid() && HasCandidate(u.service) && u.service.job.value.phase == Waiting(flight)
    requires flight < |u.flights| && u.flights[flight].fate.Delivered? && u.flights[flight].fate.answer == a
    ensures Enabled(u, ServiceActs(DoHearAnswer(a)), rules)
    ensures var z := Successor(u, ServiceActs(DoHearAnswer(a)), rules);
      z.service == Answered(u.service, a) && z.net == u.net && z.flights == u.flights
  {
    hide Answered, Grown;
  }

  lemma PollActs(s: Service.State, flight: nat, revision: int, rules: Rules)
    requires rules.Valid() && HasCandidate(s) && s.job.value.phase == Confirming(flight, Some(revision))
    ensures MayAct(s, DoPoll(false, false), rules) && forall f :: Act(s, DoPoll(false, false), f, rules) == Reconcile(s, false, false)
  {
    hide Reconcile;
  }

  /** The request arrives at the bridge, and what the bridge publishes is heard. */
  lemma NetSteps(y: Sys, g: Given, u: Sys, flight: nat, rules: Rules) returns (steps: seq<Step>, z: Sys)
    requires rules.Valid() && MayCalibrate(y, g, rules)
    requires u.net == y.net && u.cursor == y.cursor && u.service == Stage(y.service, g, Waiting(flight), false, true, true)
    requires flight < |u.flights| && u.flights[flight].fate.Flying? && u.flights[flight].request == Wanted(y.service, g)
    ensures Leads(u, steps, z, rules) && Calibrated(y, g, z) && Quiet(steps)
  {
    var b := Corrected(y.net.bridge, Wanted(y.service, g));
    Arrives(y, g, rules);
    ArrivesAt(u, flight, b, rules);
    var u1 := Successor(u, Step.RequestArrives(flight), rules);
    var n := |y.net.log|;
    Hears(y, g, rules, flight);
    HearsStatus(u1, n, b, rules);
    var u2 := Successor(u1, StatusArrives(n), rules);
    hide Enabled, Successor, Leads, Calibrated, MayCalibrate, Quiet, OnStatus, Told, SetCorrection, Stage;
    var rest;
    rest, z := AnswerSteps(y, g, u2, flight, rules);
    Then(u1, StatusArrives(n), rest, z, rules);
    QuietOn(StatusArrives(n), rest);
    steps := [Step.RequestArrives(flight)] + ([StatusArrives(n)] + rest);
    Then(u, Step.RequestArrives(flight), [StatusArrives(n)] + rest, z, rules);
    QuietOn(Step.RequestArrives(flight), [StatusArrives(n)] + rest);
  }

  lemma ArrivesAt(u: Sys, flight: nat, b: Bridge.State, rules: Rules)
    requires rules.Valid() && flight < |u.flights| && u.flights[flight].fate.Flying?
    requires SetCorrection(u.net.bridge, u.flights[flight].request, rules.limits)
      == (Moved(b, [StatusOf(b)]), Response(true, true, b.revision, b.session))
    ensures Enabled(u, Step.RequestArrives(flight), rules)
    ensures var z := Successor(u, Step.RequestArrives(flight), rules);
      && z.net.bridge == b && z.service == u.service && z.cursor == u.cursor && |z.flights| == |u.flights|
      && z.flights[flight].fate.Delivered? && z.flights[flight].fate.answer == Response(true, true, b.revision, b.session)
      && |z.net.log| == |u.net.log| + 1 && z.net.log[|u.net.log|].status == StatusOf(b)
  {
    hide SetCorrection;
  }

  lemma HearsStatus(u: Sys, n: nat, b: Bridge.State, rules: Rules)
    requires rules.Valid() && u.cursor <= n < |u.net.log| && u.net.log[n].status == StatusOf(b)
    ensures Enabled(u, StatusArrives(n), rules)
    ensures var z := Successor(u, StatusArrives(n), rules);
      z.service == OnStatus(u.service, Snapshot(true, SameVersion, true, StatusOf(b))) && z.net == u.net && z.flights == u.flights
  {
    hide OnStatus;
  }

  lemma SendsIt(u: Sys, now: real, t: Service.State, r: Request, rules: Rules)
    requires rules.Valid() && HasCandidate(u.service) && u.service.job.value.phase == Sending
    requires Send(u.service, now, false, false, |u.flights|) == (t, Some(r)) && t.job.Some? && t.job.value.candidate.Some?
    ensures Enabled(u, ServiceActs(DoSend(now, false, false)), rules)
    ensures var z := Successor(u, ServiceActs(DoSend(now, false, false)), rules);
      && z.service == t && z.net == u.net && z.cursor == u.cursor && |z.flights| == |u.flights| + 1
      && z.flights[|u.flights|].fate.Flying? && z.flights[|u.flights|].request == r
  {
    hide Send, Grown;
  }

  /** The request leaves. */
  lemma SendSteps(y: Sys, g: Given, u: Sys, rules: Rules) returns (steps: seq<Step>, z: Sys)
    requires rules.Valid() && MayCalibrate(y, g, rules)
    requires u.net == y.net && u.cursor == y.cursor && u.service == Stage(y.service, g, Sending, false, true, false)
    ensures Leads(u, steps, z, rules) && Calibrated(y, g, z) && Quiet(steps)
  {
    var flight, a := |u.flights|, DoSend(g.now, false, false);
    SendsProposal(y, g, rules, flight);
    SendsIt(u, g.now, Stage(y.service, g, Waiting(flight), false, true, true), Wanted(y.service, g), rules);
    hide Enabled, Successor, Leads, Calibrated, MayCalibrate, Quiet, Send, Stage;
    var rest;
    rest, z := NetSteps(y, g, Successor(u, ServiceActs(a), rules), flight, rules);
    steps := [ServiceActs(a)] + rest;
    Then(u, ServiceActs(a), rest, z, rules);
    QuietOn(ServiceActs(a), rest);
  }

  /** The sections from the release of the capture to the moment before the request. */
  lemma PrepareSteps(y: Sys, g: Given, u: Sys, rules: Rules) returns (steps: seq<Step>, z: Sys)
    requires rules.Valid() && MayCalibrate(y, g, rules)
    requires u.net == y.net && u.cursor == y.cursor && u.service == Stage(y.service, g, Releasing(false), true, false, false)
    ensures Leads(u, steps, z, rules) && Calibrated(y, g, z) && Quiet(steps)
  {
    var s := y.service;
    GoesToSend(s, g);
    PrepareActs(s, g, rules);
    CheckActs(s, g, rules);
    hide Enabled, Successor, Leads, Calibrated, MayCalibrate, Quiet, Stage, Act, MayAct;
    var a1, a2, a3, a4 := DoRelease(None, true), DoBegin, DoCheck(false), DoDiscover(true);
    Moves(u, a1, Stage(s, g, Beginning, false, false, false), rules);
    var u1 := Successor(u, ServiceActs(a1), rules);
    Moves(u1, a2, Stage(s, g, Checking, false, true, false), rules);
    var u2 := Successor(u1, ServiceActs(a2), rules);
    Moves(u2, a3, Stage(s, g, Discovering, false, true, false), rules);
    var u3 := Successor(u2, ServiceActs(a3), rules);
    Moves(u3, a4, Stage(s, g, Sending, false, true, false), rules);
    var u4 := Successor(u3, ServiceActs(a4), rules);
    var rest;
    rest, z := SendSteps(y, g, u4, rules);
    Then(u3, ServiceActs(a4), rest, z, rules);
    var r3 := [ServiceActs(a4)] + rest;
    QuietOn(ServiceActs(a4), rest);
    Then(u2, ServiceActs(a3), r3, z, rules);
    var r2 := [ServiceActs(a3)] + r3;
    QuietOn(ServiceActs(a3), r3);
    Then(u1, ServiceActs(a2), r2, z, rules);
    var r1 := [ServiceActs(a2)] + r2;
    QuietOn(ServiceActs(a2), r2);
    steps := [ServiceActs(a1)] + r1;
    Then(u, ServiceActs(a1), r1, z, rules);
    QuietOn(ServiceActs(a1), r1);
  }

  lemma PrepareActs(s: Service.State, g: Given, rules: Rules)
    requires rules.Valid() && g.ask.size >= 1 && SE.Live(s.extnav, false)
    ensures var u, t := Stage(s, g, Releasing(false), true, false, false), Stage(s, g, Beginning, false, false, false);
      MayAct(u, DoRelease(None, true), rules) && forall f :: Act(u, DoRelease(None, true), f, rules) == t
    ensures var u, t := Stage(s, g, Beginning, false, false, false), Stage(s, g, Checking, false, true, false);
      MayAct(u, DoBegin, rules) && forall f :: Act(u, DoBegin, f, rules) == t
  {
    GoesToSend(s, g);
    hide Release, Begin, SE.Newest;
  }

  lemma CheckActs(s: Service.State, g: Given, rules: Rules)
    requires rules.Valid() && g.ask.size >= 1 && SE.Live(s.extnav, false)
    ensures var u, t := Stage(s, g, Checking, false, true, false), Stage(s, g, Discovering, false, true, false);
      MayAct(u, DoCheck(false), rules) && forall f :: Act(u, DoCheck(false), f, rules) == t
    ensures var u, t := Stage(s, g, Discovering, false, true, false), Stage(s, g, Sending, false, true, false);
      MayAct(u, DoDiscover(true), rules) && forall f :: Act(u, DoDiscover(true), f, rules) == t
  {
    GoesToSend(s, g);
    hide Check, Discover, SE.Newest;
  }

  /** From every state in which a calibration may start: undisturbed, it is carried through. */
  lemma UndisturbedJobSucceeds(y: Sys, g: Given, rules: Rules) returns (steps: seq<Step>, z: Sys)
    requires rules.Valid() && MayCalibrate(y, g, rules)
    ensures Leads(y, steps, z, rules) && Calibrated(y, g, z) && Quiet(steps)
  {
    var s := y.service;
    var a1, a2 := AskStart(g.ask, g.now, false, true), DoFreeze(g.keyframe, g.values, g.quality);
    Starts(y, g, rules);
    Freezes(s, g);
    FirstActs(y, g, rules);
    hide Enabled, Successor, Leads, Calibrated, MayCalibrate, Quiet, Stage, Started, Act, MayAct, Start, Freeze, Registered;
    Moves(y, a1, Started(s, g), rules);
    var u1 := Successor(y, ServiceActs(a1), rules);
    Moves(u1, a2, Stage(s, g, Releasing(false), true, false, false), rules);
    var rest;
    rest, z := PrepareSteps(y, g, Successor(u1, ServiceActs(a2), rules), rules);
    Then(u1, ServiceActs(a2), rest, z, rules);
    QuietOn(ServiceActs(a2), rest);
    steps := [ServiceActs(a1)] + ([ServiceActs(a2)] + rest);
    Then(y, ServiceActs(a1), [ServiceActs(a2)] + rest, z, rules);
    QuietOn(ServiceActs(a1), [ServiceActs(a2)] + rest);
  }

  lemma FirstActs(y: Sys, g: Given, rules: Rules)
    requires rules.Valid() && MayCalibrate(y, g, rules)
    ensures var s := y.service;
      && MayAct(s, AskStart(g.ask, g.now, false, true), rules)
      && (forall f :: Act(s, AskStart(g.ask, g.now, false, true), f, rules) == Started(s, g))
      && MayAct(Started(s, g), DoFreeze(g.keyframe, g.values, g.quality), rules)
      && forall f :: Act(Started(s, g), DoFreeze(g.keyframe, g.values, g.quality), f, rules)
                       == Stage(s, g, Releasing(false), true, false, false)
  {
    Starts(y, g, rules);
    Freezes(y.service, g);
    hide Start, Freeze, Registered, Stage;
  }

  /** The first odometry sample opens the first session. */
  const SAMPLE := Raw(true, 1.0, 1, 1, true, true)

  /** A first calibration of Tag 5, asked for by source 1. */
  function FirstOf(k: Keyframe, values: Values, q: Quality, size: nat, rules: Rules): Given {
    Given(StartRequest(Write(1, 1, true, 0), 0, First, size, rules.maximumSize, 5, true, true), 2.0, k, values, q)
  }

  lemma RegisteredFirst(k: Keyframe, rules: Rules)
    requires rules.Valid()
    ensures Registered(First, [], k, rules)
  {
  }

  lemma FirstSample(y: Sys, rules: Rules)
    requires rules.Valid() && y.net == EmptyNet()
    ensures Enabled(y, Step.RawArrives(SAMPLE), rules)
    ensures var z := Successor(y, Step.RawArrives(SAMPLE), rules);
      && z.service == y.service && z.cursor == y.cursor
      && z.net.bridge.available && z.net.bridge.session == 1
      && !z.net.bridge.valid && z.net.bridge.revision == 0 && z.net.bridge.job == NoJob
      && |z.net.log| == 1 && z.net.log[0].status == StatusOf(z.net.bridge.(output := None))
  {
    BE.Opens(START, SAMPLE, rules.limits);
    var m := OnRaw(START, SAMPLE, rules.limits);
    assert m.published[0] == StatusOf(m.state.(output := None));
    hide OnRaw;
  }

  /** It can happen: from start-up, one odometry sample and the status it brings about are all that it takes for a
      calibration to be possible. */
  lemma CalibrationCanStart(config: nat, window: nat, k: Keyframe, values: Values, q: Quality, size: nat, rules: Rules) returns (y: Sys)
    requires rules.Valid() && 2 <= size <= rules.maximumSize && k.session == 1 && Acceptable(values, q, rules.limits)
    ensures Leads(Boot(config, window), [Step.RawArrives(SAMPLE), StatusArrives(0)], y, rules)
    ensures MayCalibrate(y, FirstOf(k, values, q, size, rules), rules)
  {
    var y0 := Boot(config, window);
    FirstSample(y0, rules);
    var y1 := Successor(y0, Step.RawArrives(SAMPLE), rules);
    var b := y1.net.bridge.(output := None);
    HearsStatus(y1, 0, b, rules);
    y := Successor(y1, StatusArrives(0), rules);
    SE.Starts(config, window);
    SE.StatusHeard(y1.service, Snapshot(true, SameVersion, true, StatusOf(b)));
    NoSteps(y, rules);
    hide Successor, Enabled, OnStatus, Leads, OnRaw, Initial, Registered;
    RegisteredFirst(k, rules);
    Then(y1, StatusArrives(0), [], y, rules);
    Then(y0, Step.RawArrives(SAMPLE), [StatusArrives(0)] + [], y, rules);
    assert [Step.RawArrives(SAMPLE)] + ([StatusArrives(0)] + []) == [Step.RawArrives(SAMPLE), StatusArrives(0)];
  }
}
