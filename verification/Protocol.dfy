/** The correction transaction over whole runs: the bridge, the service, the requests between them
    and the statuses on their way, under any interleaving.

    A request is delivered at most once or lost; its answer may be lost, late or never awaited, and the
    service may even be handed an empty answer that nobody gave, which it takes for a refusal; a
    status may be late or lost but never overtakes an earlier one. Other writers send the bridge
    whatever they like, the bridge may restart, and the service may be asked anything at any time.
 */
module Protocol {
  import opened Options
  import opened Bridge
  import opened Service
  import opened WindowSafety
  import opened Sections
  import opened Bookings
  import opened Network
  import OwnerSafety

  /** Under way or lost; or delivered, when the bridge showed `met`, and answered. */
  datatype Fate = Flying | Delivered(met: Status, answer: Response, advanced: bool)

  /** A request of the service, sent in epoch `epoch` while it last saw the status `seen`; `empty` says that
      its sender was handed an empty answer. */
  datatype Flight = Flight(request: Request, epoch: nat, seen: Status, fate: Fate, empty: bool)

  /** The session and the bridge revision an epoch starts from. */
  datatype Origin = Origin(session: nat, revision: int)

  datatype Sys = Sys(
    net: Net, cursor: nat, rank: nat, service: Service.State, flights: seq<Flight>, origins: seq<Origin>)

  datatype Step =
    | RawArrives(raw: Raw)
    | TimerFires(now: real)
    | BridgeRestarts
    | OtherWrites(request: Request)
    | RequestArrives(flight: nat)
    | StatusArrives(index: nat)
    | ServiceActs(action: Action)
    | EmptyAnswer
    | Confirms(stale: bool)

  function Boot(config: nat, size: nat): Sys { Sys(EmptyNet(), 0, 0, Initial(config, size), [], []) }

  /** The origins after the service moved from s to t: a fresh epoch starts where its candidate says. */
  function Grown(origins: seq<Origin>, s: Service.State, t: Service.State): seq<Origin> {
    if t.nextEpoch > s.nextEpoch && t.job.Some? && t.job.value.candidate.Some?
    then origins + [Origin(t.job.value.candidate.value.session, t.job.value.candidate.value.expected)] else origins
  }

  ghost predicate Enabled(y: Sys, step: Step, rules: Rules)
    requires rules.Valid()
  {
    match step
    case RawArrives(raw) => raw.mint == y.net.minted + 1
    case RequestArrives(i) => i < |y.flights| && y.flights[i].fate.Flying?
    case StatusArrives(i) => y.cursor <= i < |y.net.log|
    case ServiceActs(a) =>
      MayAct(y.service, a, rules)
      && (a.DoHearAnswer? ==>
            var f := y.service.job.value.phase.flight;
            f < |y.flights| && y.flights[f].fate.Delivered? && y.flights[f].fate.answer == a.answer)
    case EmptyAnswer => MayAct(y.service, DoHearAnswer(NO_ANSWER), rules)
    case _ => true
  }

  /** What an empty answer amounts to: it acknowledges nothing. */
  const NO_ANSWER := Response(false, false, 0, NO_SESSION)

  function AnsweredEmpty(y: Sys): Sys
    requires HasCandidate(y.service) && y.service.job.value.phase.Waiting?
  {
    var f := y.service.job.value.phase.flight;
    y.(service := Answered(y.service, NO_ANSWER),
       flights := if f < |y.flights| then y.flights[f := y.flights[f].(empty := true)] else y.flights)
  }

  function Arrived(y: Sys, i: nat, limits: Limits): Sys
    requires i < |y.flights|
  {
    var f := y.flights[i];
    var (m, answer) := SetCorrection(y.net.bridge, f.request, limits);
    var fate := Delivered(StatusOf(y.net.bridge), answer, m.state.revision != y.net.bridge.revision);
    y.(net := Take(y.net, m), flights := y.flights[i := f.(fate := fate)])
  }

  function Heard(y: Sys, i: nat): Sys
    requires i < |y.net.log|
  {
    var e := y.net.log[i];
    y.(cursor := i + 1, rank := e.rank, service := OnStatus(y.service, Snapshot(true, SameVersion, true, e.status)))
  }

  function Acted(y: Sys, a: Action, rules: Rules): Sys
    requires rules.Valid() && MayAct(y.service, a, rules)
  {
    var t := Act(y.service, a, |y.flights|, rules);
    var sent := Sends(y.service, a, |y.flights|, rules);
    y.(service := t, origins := Grown(y.origins, y.service, t),
       flights := if sent.Some? && t.job.Some? && t.job.value.candidate.Some?
                  then y.flights + [Flight(sent.value, t.job.value.candidate.value.epoch, y.service.extnav.status, Flying, false)]
                  else y.flights)
  }

  /** One step; a step that cannot happen leaves everything as it is. */
  ghost function Successor(y: Sys, step: Step, rules: Rules): Sys
    requires rules.Valid()
  {
    if !Enabled(y, step, rules) then y
    else
      match step
      case RawArrives(raw) => y.(net := Take(y.net, OnRaw(y.net.bridge, raw, rules.limits)))
      case TimerFires(now) => y.(net := Take(y.net, OnTimer(y.net.bridge, now, rules.limits)))
      case BridgeRestarts => y.(net := Restarted(y.net))
      case OtherWrites(r) => y.(net := Take(y.net, SetCorrection(y.net.bridge, r, rules.limits).0))
      case RequestArrives(i) => Arrived(y, i, rules.limits)
      case StatusArrives(i) => Heard(y, i)
      case ServiceActs(a) => Acted(y, a, rules)
      case EmptyAnswer => AnsweredEmpty(y)
      case Confirms(stale) => y.(service := Confirm(y.service, stale))
  }

  ghost function Play(y: Sys, steps: seq<Step>, rules: Rules): Sys
    requires rules.Valid()
    decreases |steps|
  {
    if steps == [] then y else Play(Successor(y, steps[0], rules), steps[1..], rules)
  }

  // ---------------------------------------------------------- the invariant

  /** What the service last heard is a status of the log, and nothing older will be heard again. */
  ghost predicate HearingInv(y: Sys) {
    && (if y.service.extnav.heard then Entry(y.service.extnav.status, y.rank) in y.net.log else y.rank == 0)
    && y.cursor <= |y.net.log|
    && (forall i | y.cursor <= i < |y.net.log| :: y.rank <= y.net.log[i].rank)
  }

  /** The bridge has left the point an epoch started from, for good. */
  predicate Past(o: Origin, now: Entry) {
    now.rank > 2 * o.session || (now.rank == 2 * o.session && now.status.revision > o.revision)
  }

  /** Some published status showed exactly this correction at this revision of this session. */
  ghost predicate Shown(log: seq<Entry>, session: nat, revision: int, job: JobId, values: Values) {
    exists e :: e in log && e.status.session == session && e.status.revision == revision
                && e.status.valid && e.status.job == job && e.status.values == values
  }

  /** A candidate may ask for its epoch's revision, or for one that already shows it. */
  ghost predicate Aimed(log: seq<Entry>, origins: seq<Origin>, c: Candidate) {
    && c.session != NO_SESSION && c.epoch < |origins| && origins[c.epoch].session == c.session
    && (c.expected == origins[c.epoch].revision || Shown(log, c.session, c.expected, c.job, c.values))
  }

  ghost predicate FlightInv(net: Net, origins: seq<Origin>, f: Flight) {
    && f.request.valid && f.request.session != NO_SESSION
    && f.epoch < |origins| && origins[f.epoch].session == f.request.session
    && (f.request.expected == origins[f.epoch].revision
        || Shown(net.log, f.request.session, f.request.expected, f.request.job, f.request.values))
    && f.seen.session == f.request.session && f.seen.revision == f.request.expected
    && Entry(f.seen, 2 * f.request.session) in net.log
    && (f.fate.Delivered? ==> FateInv(net, origins[f.epoch], f))
  }

  /** What became of a delivered request. */
  ghost predicate FateInv(net: Net, origin: Origin, f: Flight)
    requires f.fate.Delivered?
  {
    var a := f.fate.answer;
    && (a.applied <==> a.accepted)
    && (a.applied ==> Hold(f.request.job, f.request.session, f.request.values) in net.held
                      && a.session == f.request.session && a.revision >= f.request.expected)
    && (f.fate.advanced ==> a.applied && f.request.expected == origin.revision && Past(origin, Now(net))
                            && f.fate.met.session == f.seen.session && f.fate.met.revision == f.seen.revision
                            && SameCorrection(f.fate.met, f.seen))
  }

  ghost predicate FlightsInv(net: Net, origins: seq<Origin>, flights: seq<Flight>) {
    && (forall i | 0 <= i < |flights| :: FlightInv(net, origins, flights[i]))
    && (forall i, j | 0 <= i < j < |flights| && flights[i].epoch == flights[j].epoch ::
          !(Effective(flights[i]) && Effective(flights[j])))
  }

  predicate Effective(f: Flight) { f.fate.Delivered? && f.fate.advanced }

  /** The bridge refused this request, so it never had, or will have, an effect. */
  predicate TurnedDown(f: Flight) { f.fate.Delivered? && !f.fate.answer.applied }

  /** Every request of this epoch was turned down, or brought its sender an empty answer. */
  ghost predicate Refused(flights: seq<Flight>, epoch: nat) {
    forall i | 0 <= i < |flights| && flights[i].epoch == epoch :: flights[i].empty || TurnedDown(flights[i])
  }

  ghost predicate Unflown(flights: seq<Flight>, epoch: nat) {
    forall i | 0 <= i < |flights| :: flights[i].epoch != epoch
  }

  ghost predicate Only(flights: seq<Flight>, epoch: nat, flight: nat) {
    forall i | 0 <= i < |flights| && flights[i].epoch == epoch :: i == flight
  }

  function HoldFor(c: Candidate): Hold { Hold(c.job, c.session, c.values) }

  predicate SaysApplied(j: Job) {
    (j.phase.Confirming? && j.phase.ack.Some?) || (j.phase.Settling? && j.phase.outcome.Applied())
    || (j.application.Booked? && j.application.outcome.Applied())
  }

  predicate SaysRejected(j: Job) { Refusing(j.phase) || j.application == Booked(Rejected) }

  predicate Unsettled(p: Phase) { p.Waiting? || p.Confirming? }

  /** Every claim the service makes about an application is true. */
  ghost predicate TruthInv(held: set<Hold>, flights: seq<Flight>, j: Job) {
    && (SaysApplied(j) ==> j.candidate.Some? && HoldFor(j.candidate.value) in held)
    && (j.candidate.Some? && !j.task.retrying ==>
          var e := j.candidate.value.epoch;
          && (SaysRejected(j) ==> Refused(flights, e))
          && (BeforeSending(j.phase) ==> Unflown(flights, e))
          && (Unsettled(j.phase) ==> Only(flights, e, j.phase.flight)))
    && (j.candidate.Some? && Unsettled(j.phase) ==>
          && j.phase.flight < |flights| && flights[j.phase.flight].request == RequestOf(j.candidate.value)
          && flights[j.phase.flight].epoch == j.candidate.value.epoch)
    && (Unfinished(j.phase) ==> !(j.application.Booked?))
  }

  ghost predicate AimInv(y: Sys) {
    && y.service.nextEpoch == |y.origins|
    && (y.service.pending.Some? ==> Aimed(y.net.log, y.origins, y.service.pending.value))
    && (y.service.job.Some? && y.service.job.value.candidate.Some? ==>
          var j := y.service.job.value;
          j.candidate.value.epoch < |y.origins|
          && (Unfinished(j.phase) ==> Aimed(y.net.log, y.origins, j.candidate.value)))
  }

  ghost predicate LinkInv(y: Sys) {
    && AimInv(y) && FlightsInv(y.net, y.origins, y.flights)
    && (y.service.job.Some? ==> TruthInv(y.net.held, y.flights, y.service.job.value))
  }

  ghost predicate SysInv(y: Sys, rules: Rules)
    requires rules.Valid()
  {
    && NetInv(y.net) && HearingInv(y) && WindowSafety.Inv(y.service, y.rank, rules)
    && OwnerSafety.OwnerInv(y.service) && BookInv(y.service) && LinkInv(y)
  }

  // ------------------------------------------------------ steps of the network

  /** The network moved on: nothing published or held was lost. */
  ghost predicate Grew(a: Net, b: Net) {
    && NetInv(b) && |a.log| <= |b.log| && b.log[..|a.log|] == a.log && a.held <= b.held && Precedes(Now(a), Now(b))
  }

  lemma TakenGrew(net: Net, m: Moved)
    requires NetInv(net) && Orderly(net, m)
    ensures Grew(net, Take(net, m))
  {
  }

  lemma FlightGrows(a: Net, b: Net, origins: seq<Origin>, f: Flight)
    requires NetInv(a) && Grew(a, b) && FlightInv(a, origins, f)
    ensures FlightInv(b, origins, f)
  {
  }

  lemma GrewHolds(a: Net, b: Net)
    requires Grew(a, b)
    ensures a.held <= b.held && Precedes(Now(a), Now(b)) && NetInv(b)
  {
  }

  lemma HearingGrows(y: Sys, net: Net)
    requires HearingInv(y) && NetInv(y.net) && Grew(y.net, net)
    ensures HearingInv(y.(net := net))
  {
  }

  lemma AimGrows(y: Sys, net: Net)
    requires AimInv(y) && Grew(y.net, net)
    ensures AimInv(y.(net := net))
  {
  }

  lemma NetStepKeeps(y: Sys, net: Net, rules: Rules)
    requires rules.Valid() && SysInv(y, rules) && Grew(y.net, net)
    ensures SysInv(y.(net := net), rules)
  {
    HearingGrows(y, net);
    AimGrows(y, net);
    GrewHolds(y.net, net);
    forall i | 0 <= i < |y.flights| ensures FlightInv(net, y.origins, y.flights[i]) {
      FlightGrows(y.net, net, y.origins, y.flights[i]);
    }
    hide NetInv, HearingInv, WindowSafety.Inv, OwnerSafety.OwnerInv, BookInv, AimInv, FlightInv, Refused, Unflown, Only, RequestOf;
  }

  // --------------------------------------------------------- a request arrives

  /** A request that advances the bridge asked for its epoch's origin and met what the service saw. */
  lemma AdvanceFacts(net: Net, origins: seq<Origin>, f: Flight, limits: Limits)
    requires NetInv(net) && FlightInv(net, origins, f)
    requires SetCorrection(net.bridge, f.request, limits).0.state.revision != net.bridge.revision
    ensures f.request.expected == origins[f.epoch].revision && !Past(origins[f.epoch], Now(net))
    ensures f.request.session == net.bridge.session && f.request.expected == net.bridge.revision
    ensures SameCorrection(StatusOf(net.bridge), f.seen)
  {
  }

  lemma DeliveredInv(net: Net, origins: seq<Origin>, f: Flight, limits: Limits)
    requires NetInv(net) && FlightInv(net, origins, f)
    ensures var (m, a) := SetCorrection(net.bridge, f.request, limits);
      FlightInv(Take(net, m), origins,
                f.(fate := Delivered(StatusOf(net.bridge), a, m.state.revision != net.bridge.revision)))
  {
  }

  lemma ArrivedFlights(y: Sys, i: nat, limits: Limits)
    requires NetInv(y.net) && FlightsInv(y.net, y.origins, y.flights) && i < |y.flights| && y.flights[i].fate.Flying?
    ensures FlightsInv(Arrived(y, i, limits).net, y.origins, Arrived(y, i, limits).flights)
  {
    var t := Arrived(y, i, limits);
    DeliveredInv(y.net, y.origins, y.flights[i], limits);
    RequestIsOrderly(y.net, y.flights[i].request, limits);
    TakenGrew(y.net, SetCorrection(y.net.bridge, y.flights[i].request, limits).0);
    forall j | 0 <= j < |y.flights| ensures FlightInv(t.net, y.origins, t.flights[j]) {
      if j != i { FlightGrows(y.net, t.net, y.origins, y.flights[j]); }
    }
    if Effective(t.flights[i]) {
      AdvanceFacts(y.net, y.origins, y.flights[i], limits);
      forall j | 0 <= j < |y.flights| && j != i && y.flights[j].epoch == y.flights[i].epoch
        ensures !Effective(y.flights[j])
      {
        assert FlightInv(y.net, y.origins, y.flights[j]);
      }
    }
    hide NetInv, FlightInv, SetCorrection, Grew, Orderly;
  }

  lemma ArrivedTruth(y: Sys, i: nat, limits: Limits, j: Job)
    requires i < |y.flights| && y.flights[i].fate.Flying? && TruthInv(y.net.held, y.flights, j)
    ensures TruthInv(Arrived(y, i, limits).net.held, Arrived(y, i, limits).flights, j)
  {
  }

  lemma ArrivedKeeps(y: Sys, i: nat, rules: Rules)
    requires rules.Valid() && SysInv(y, rules) && i < |y.flights| && y.flights[i].fate.Flying?
    ensures SysInv(Arrived(y, i, rules.limits), rules)
  {
    var t := Arrived(y, i, rules.limits);
    var m := SetCorrection(y.net.bridge, y.flights[i].request, rules.limits).0;
    RequestIsOrderly(y.net, y.flights[i].request, rules.limits);
    TakenGrew(y.net, m);
    NetStepKeeps(y, Take(y.net, m), rules);
    ArrivedFlights(y, i, rules.limits);
    if y.service.job.Some? { ArrivedTruth(y, i, rules.limits, y.service.job.value); }
    SameButFlights(y.(net := t.net), t, rules);
  }

  lemma SameButFlights(y: Sys, t: Sys, rules: Rules)
    requires rules.Valid() && SysInv(y, rules) && t == y.(flights := t.flights)
    requires FlightsInv(t.net, t.origins, t.flights)
    requires t.service.job.Some? ==> TruthInv(t.net.held, t.flights, t.service.job.value)
    ensures SysInv(t, rules)
  {
  }

  // ----------------------------------------------------------- a status arrives

  /** The service moved without touching its candidates, except that it may have dropped the latch. */
  ghost predicate Quiet(s: Service.State, t: Service.State) {
    && t.nextEpoch == s.nextEpoch && (t.pending.Some? ==> t.pending == s.pending)
    && (s.job.None? <==> t.job.None?) && (s.job.Some? ==> CalmJob(s.job.value, t.job.value))
  }

  lemma QuietLink(y: Sys, t: Service.State)
    requires LinkInv(y) && Quiet(y.service, t)
    ensures LinkInv(y.(service := t))
  {
  }

  lemma HeardKeeps(y: Sys, i: nat, rules: Rules)
    requires rules.Valid() && SysInv(y, rules) && y.cursor <= i < |y.net.log|
    ensures SysInv(Heard(y, i), rules)
  {
    var e := y.net.log[i];
    var m := Snapshot(true, SameVersion, true, e.status);
    LogFacts(y, i);
    HearKeeps(y.service, m, y.rank, e.rank, rules);
    OwnerSafety.HearKeepsOwner(y.service, m);
    HeardQuiet(y.service, m);
    HearIsLess(y.service, m);
    LessKeeps(y.service, OnStatus(y.service, m));
    hide Calm, OnStatus, NetInv, WindowSafety.Inv, OwnerSafety.OwnerInv, BookInv, Less, LinkInv, Quiet;
    QuietLink(y, OnStatus(y.service, m));
    LinkReads(y.(service := OnStatus(y.service, m)), Heard(y, i));
  }

  lemma LogFacts(y: Sys, i: nat)
    requires NetInv(y.net) && HearingInv(y) && y.cursor <= i < |y.net.log|
    ensures y.rank <= y.net.log[i].rank
    ensures Authoritative(Snapshot(true, SameVersion, true, y.net.log[i].status), y.net.log[i].rank)
    ensures forall j | i < j < |y.net.log| :: y.net.log[i].rank <= y.net.log[j].rank
    ensures y.net.log[i] in y.net.log
  {
  }

  lemma HeardQuiet(s: Service.State, m: Snapshot)
    requires Calm(HearWindow(s, m), OnStatus(s, m))
    ensures Quiet(s, OnStatus(s, m))
  {
  }

  /** The links do not read how far the service has listened. */
  lemma LinkReads(y: Sys, t: Sys)
    requires LinkInv(y) && t == y.(cursor := t.cursor, rank := t.rank)
    ensures LinkInv(t)
  {
  }

  // ---------------------------------------------------------- requests to the service

  lemma CalmIsQuiet(s: Service.State, t: Service.State)
    requires Calm(s, t)
    ensures Quiet(s, t)
  {
  }

  lemma QuietCalls(y: Sys, a: Action, rules: Rules)
    requires rules.Valid() && MayAct(y.service, a, rules)
    requires a.AskOwner? || a.AskStop? || a.AskConfigure? || a.AskClear? || a.Tick? || a.Fault? || a.Shutdown?
    ensures Quiet(y.service, Act(y.service, a, |y.flights|, rules))
  {
    hide SetOwner, Stop, Validate, ExpireOwner, Close, FailJob, Emptied;
    var s := y.service;
    match a
    case AskOwner(r, now) => SetOwnerIsCalm(s, r, now);
    case AskStop(r, now) => StopIsCalm(s, r, now);
    case AskConfigure(w, config, parsed, now) => ValidateIsCalm(s, w, now);
    case AskClear(w, now) => ValidateIsCalm(s, w, now);
    case Tick(now) => ExpireOwnerIsCalm(s, now);
    case Fault(invalidate) => FailJobIsCalm(if invalidate then InvalidateWindow(s) else s);
    case Shutdown => CloseIsCalm(s);
  }

  lemma StartLink(y: Sys, r: StartRequest, now: real, stale: bool, capture: bool)
    requires LinkInv(y)
    ensures LinkInv(y.(service := Start(y.service, r, now, stale, capture).0))
    ensures Start(y.service, r, now, stale, capture).0.nextEpoch == y.service.nextEpoch
  {
    hide Validate, MayStart, NewTask, FlightsInv, Refused, Unflown, Only, RequestOf, Aimed;
    ValidateIsCalm(y.service, r.write, now);
    CalmIsQuiet(y.service, Validate(y.service, r.write, now).0);
    QuietLink(y, Validate(y.service, r.write, now).0);
  }

  /** A retry of an unknown application is aimed as well as the latched candidate was. */
  lemma AttemptAimed(y: Sys, s: Service.State, c: Candidate, aged: bool, stale: bool)
    requires HearingInv(y) && s.extnav == y.service.extnav && s.extnav.heard && s.nextEpoch == |y.origins|
    requires Chosen(s) == Some(c) && MayApply(s, c, aged) && c.session != NO_SESSION
    ensures s.pending.Some? && Aimed(y.net.log, y.origins, c) ==> Aimed(y.net.log, y.origins, Attempt(s, c))
    ensures s.pending.None? ==>
      Aimed(y.net.log, y.origins + [Origin(c.session, s.extnav.status.revision)], Attempt(s, c))
  {
  }

  lemma ChosenSession(s: Service.State, rank: nat, rules: Rules)
    requires rules.Valid() && WindowSafety.Inv(s, rank, rules) && Chosen(s).Some?
    ensures Chosen(s).value.session != NO_SESSION
  {
  }

  /** What an accepted `apply_saved` does after its checks. */
  lemma AttemptLink(y: Sys, s: Service.State, c: Candidate, task: Task, capture: bool)
    requires LinkInv(y.(service := s)) && task.retrying == s.pending.Some? && task.apply
    requires Chosen(s) == Some(c)
    requires s.pending.Some? ==> Aimed(y.net.log, y.origins, Attempt(s, c))
    requires s.pending.None? ==> c.session != NO_SESSION
    ensures var t := s.(job := Some(NewJob(task, Some(Attempt(s, c)), capture, Booked(Rejected))),
                        nextEpoch := if s.pending.Some? then s.nextEpoch else s.nextEpoch + 1, capture := capture);
      LinkInv(y.(service := t, origins := Grown(y.origins, s, t)))
  {
  }

  lemma ApplyLink(y: Sys, r: ApplyRequest, now: real, stale: bool, aged: bool, captureOk: bool, rules: Rules)
    requires rules.Valid() && SysInv(y, rules)
    ensures var t := Apply(y.service, r, now, stale, aged, captureOk).0;
      LinkInv(y.(service := t, origins := Grown(y.origins, y.service, t)))
  {
    AdmitIsCalm(y.service, r.write, now);
    var (s, ok) := Admit(y.service, r.write, now);
    CalmIsQuiet(y.service, s);
    QuietLink(y, s);
    CalmKeeps(y.service, s, y.rank, rules);
    if ok && AcceptsApply(s, r, stale, aged) {
      AcceptedFacts(s, r, stale, aged);
      ChosenSession(s, y.rank, rules);
      var c := Chosen(s).value;
      PendingAimed(y.(service := s));
      assert s.nextEpoch == |y.origins| && s.extnav == y.service.extnav;
      assert HearingInv(y);
      AttemptAimed(y, s, c, aged, stale);
      var task := Task(c.job, r.write.source, ApplySaved, -1, s.window.size, true,
                       c.session, s.extnav.status.revision, s.window.revision, !c.saved, s.pending.Some?);
      AttemptLink(y, s, c, task, captureOk && !s.resourceFault);
    }
    hide Admit, AcceptsApply, SysInv, LinkInv, Calm, NewJob, Attempt;
  }

  lemma AcceptedFacts(s: Service.State, r: ApplyRequest, stale: bool, aged: bool)
    requires AcceptsApply(s, r, stale, aged)
    ensures Chosen(s).Some? && MayApply(s, Chosen(s).value, aged) && s.extnav.heard
  {
  }

  lemma PendingAimed(y: Sys)
    requires LinkInv(y)
    ensures y.service.nextEpoch == |y.origins|
    ensures y.service.pending.Some? ==> Aimed(y.net.log, y.origins, y.service.pending.value)
  {
  }

  // ---------------------------------------------------------------- the worker

  lemma FreezeLink(y: Sys, k: Keyframe, values: Values, q: Quality, rules: Rules)
    requires rules.Valid() && LinkInv(y) && y.service.job.Some? && y.service.job.value.phase.Collecting?
    requires y.service.job.value.task.session != NO_SESSION
    ensures var t := Freeze(y.service, k, values, q);
      LinkInv(y.(service := t, origins := Grown(y.origins, y.service, t)))
  {
  }

  /** Moves of the job alone: its claims at the new place must hold, the rest stays. */
  lemma JobLink(y: Sys, t: Service.State)
    requires LinkInv(y) && y.service.job.Some? && t.job.Some?
    requires t.nextEpoch == y.service.nextEpoch
    requires t.pending.Some? ==> t.pending == y.service.pending || t.pending == t.job.value.candidate
    requires TruthInv(y.net.held, y.flights, t.job.value)
    requires t.job.value.candidate.Some? ==>
      var c := t.job.value.candidate.value;
      && y.service.job.value.candidate.Some? && c.epoch == y.service.job.value.candidate.value.epoch
      && (Unfinished(t.job.value.phase) || (t.pending == Some(c) && t.pending != y.service.pending) ==>
            c == y.service.job.value.candidate.value && Unfinished(y.service.job.value.phase))
    ensures LinkInv(y.(service := t))
  {
  }

  lemma ReleasedTruth(held: set<Hold>, flights: seq<Flight>, j: Job, released: bool)
    requires TruthInv(held, flights, j) && j.phase.Releasing?
    requires j.candidate.Some? || j.phase.failed
    ensures TruthInv(held, flights, AfterRelease(j, released))
  {
  }

  /** Not having sent: a first attempt may say so, because its epoch has no flight. */
  lemma UnsentTruth(held: set<Hold>, flights: seq<Flight>, j: Job)
    requires TruthInv(held, flights, j) && (j.phase.Checking? || j.phase.Discovering? || j.phase.Sending?)
    ensures TruthInv(held, flights, j.(phase := Settling(Unsent(j))))
    ensures TruthInv(held, flights, j.(phase := Discovering)) && TruthInv(held, flights, j.(phase := Sending))
  {
  }

  lemma AnsweredTruth(
    net: Net, origins: seq<Origin>, flights: seq<Flight>, j: Job, a: Response, d: Desk)
    requires TruthInv(net.held, flights, j) && FlightsInv(net, origins, flights)
    requires j.phase.Waiting? && j.candidate.Some? && j.phase.flight < |flights|
    requires flights[j.phase.flight].fate.Delivered? && flights[j.phase.flight].fate.answer == a
    ensures Acknowledges(a, j.candidate.value) ==>
      TruthInv(net.held, flights, j.(phase := Confirming(j.phase.flight, Some(a.revision))))
      && TruthInv(net.held, flights, j.(phase := Settling(AppliedAck(a.revision))))
    ensures !Acknowledges(a, j.candidate.value) ==> TruthInv(net.held, flights, j.(phase := Settling(Unsent(j))))
  {
  }

  /** The authoritative status proves an application. */
  lemma StatusProves(y: Sys, c: Candidate, stale: bool)
    requires NetInv(y.net) && HearingInv(y) && Matches(y.service.extnav, c, stale)
    ensures HoldFor(c) in y.net.held
  {
  }

  lemma PolledTruth(held: set<Hold>, flights: seq<Flight>, j: Job, o: Outcome)
    requires TruthInv(held, flights, j) && j.phase.Confirming? && j.candidate.Some?
    requires o.Applied() ==> HoldFor(j.candidate.value) in held
    requires !o.Rejected?
    ensures TruthInv(held, flights, j.(phase := Settling(o)))
  {
  }

  lemma SettledTruth(held: set<Hold>, flights: seq<Flight>, j: Job, k: Job)
    requires TruthInv(held, flights, j) && j.phase.Settling? && j.candidate.Some? && k.candidate.Some?
    requires k.task == j.task && k.application == Booked(j.phase.outcome) && k.phase.Finishing?
    requires k.candidate.value.epoch == j.candidate.value.epoch && HoldFor(k.candidate.value) == HoldFor(j.candidate.value)
    ensures TruthInv(held, flights, k)
  {
  }

  /** Saving a dry run claims nothing about the bridge. */
  lemma SavedTruth(held: set<Hold>, flights: seq<Flight>, j: Job, k: Job)
    requires TruthInv(held, flights, j) && j.phase.Saving? && k.phase.Finishing?
    requires k.application == NotRequested || k.application == j.application
    ensures TruthInv(held, flights, k)
  {
  }

  lemma FinishedTruth(held: set<Hold>, flights: seq<Flight>, j: Job, p: Phase)
    requires TruthInv(held, flights, j) && (j.phase.Finishing? || j.phase.Ending?) && (p.Ending? || p.Dead?)
    ensures TruthInv(held, flights, j.(active := false, phase := p)) && TruthInv(held, flights, j.(phase := p))
  {
  }

  // ---------------------------------------------------- one worker step at a time

  lemma TruthOf(y: Sys)
    requires LinkInv(y) && y.service.job.Some?
    ensures TruthInv(y.net.held, y.flights, y.service.job.value) && FlightsInv(y.net, y.origins, y.flights)
  {
  }

  lemma CollectedLink(y: Sys, failed: bool)
    requires LinkInv(y) && y.service.job.Some? && y.service.job.value.phase.Collecting?
    ensures LinkInv(y.(service := Collected(y.service, failed)))
  {
  }

  lemma ReleaseLink(y: Sys, fault: Option<bool>, released: bool)
    requires LinkInv(y) && y.service.job.Some? && y.service.job.value.phase.Releasing?
    requires y.service.job.value.candidate.Some? || y.service.job.value.phase.failed
    ensures LinkInv(y.(service := Release(y.service, fault, released)))
    ensures Release(y.service, fault, released).nextEpoch == y.service.nextEpoch
  {
    var s := y.service;
    var t := if fault.Some? then OnFault(s, fault.value) else s;
    FaultQuiet(s, fault);
    QuietLink(y, t);
    TruthOf(y.(service := t));
    ReleasedTruth(y.net.held, y.flights, t.job.value, released);
    hide LinkInv, TruthInv, OnFault;
    JobLink(y.(service := t), Release(s, fault, released));
  }

  lemma FaultQuiet(s: Service.State, fault: Option<bool>)
    ensures Quiet(s, if fault.Some? then OnFault(s, fault.value) else s)
  {
  }

  lemma BeginLink(y: Sys)
    requires LinkInv(y) && HasCandidate(y.service) && y.service.job.value.phase.Beginning?
    ensures LinkInv(y.(service := Begin(y.service)))
  {
  }

  lemma CheckLink(y: Sys, stale: bool, found: bool)
    requires LinkInv(y) && HasCandidate(y.service)
    ensures y.service.job.value.phase.Checking? ==> LinkInv(y.(service := Check(y.service, stale)))
    ensures y.service.job.value.phase.Discovering? ==> LinkInv(y.(service := Discover(y.service, found)))
  {
  }

  lemma AnsweredLink(y: Sys, a: Response)
    requires LinkInv(y) && HasCandidate(y.service) && y.service.job.value.phase.Waiting?
    requires var f := y.service.job.value.phase.flight;
      f < |y.flights| && y.flights[f].fate.Delivered? && y.flights[f].fate.answer == a
    ensures LinkInv(y.(service := Answered(y.service, a)))
  {
  }

  lemma GivenUpLink(y: Sys)
    requires LinkInv(y) && HasCandidate(y.service) && y.service.job.value.phase.Waiting?
    ensures LinkInv(y.(service := Unanswered(y.service)))
  {
  }

  lemma PolledLink(y: Sys, stale: bool, deadline: bool)
    requires NetInv(y.net) && HearingInv(y) && LinkInv(y)
    requires HasCandidate(y.service) && y.service.job.value.phase.Confirming?
    ensures LinkInv(y.(service := Reconcile(y.service, stale, deadline)))
  {
    var j := y.service.job.value;
    TruthOf(y);
    ConfirmingHeld(y.net.held, y.flights, j);
    if Matches(y.service.extnav, j.candidate.value, stale) {
      StatusProves(y, j.candidate.value, stale);
      PolledTruth(y.net.held, y.flights, j, AppliedStatus(y.service.extnav.status.revision));
    }
    PolledTruth(y.net.held, y.flights, j, if j.phase.ack.Some? then AppliedAck(j.phase.ack.value) else Unknown);
    hide LinkInv, TruthInv, Matches, NetInv, HearingInv;
    JobLink(y, Reconcile(y.service, stale, deadline));
  }

  lemma ConfirmingHeld(held: set<Hold>, flights: seq<Flight>, j: Job)
    requires TruthInv(held, flights, j) && j.phase.Confirming? && j.candidate.Some?
    ensures j.phase.ack.Some? ==> HoldFor(j.candidate.value) in held
  {
  }

  lemma SettleLink(y: Sys, stale: bool)
    requires LinkInv(y) && HasCandidate(y.service) && y.service.job.value.phase.Settling?
    ensures LinkInv(y.(service := Settle(y.service, stale)))
    ensures Settle(y.service, stale).nextEpoch == y.service.nextEpoch
  {
    var s := y.service;
    var t := Settle(s, stale);
    TruthOf(y);
    SettleBooks(s, stale);
    hide LinkInv, TruthInv, Settle;
    SettledTruth(y.net.held, y.flights, s.job.value, t.job.value);
    JobLink(y, t);
  }

  lemma SaveLink(y: Sys, now: real, stale: bool)
    requires LinkInv(y) && HasCandidate(y.service) && y.service.job.value.phase.Saving?
    ensures LinkInv(y.(service := SaveDryRun(y.service, now, stale)))
    ensures SaveDryRun(y.service, now, stale).nextEpoch == y.service.nextEpoch
  {
    var s := ExpireOwner(y.service, now);
    ExpireOwnerIsCalm(y.service, now);
    CalmIsQuiet(y.service, s);
    QuietLink(y, s);
    TruthOf(y.(service := s));
    SaveBooks(y.service, now, stale);
    hide LinkInv, TruthInv, SaveDryRun, ExpireOwner;
    var t := SaveDryRun(y.service, now, stale);
    SavedTruth(y.net.held, y.flights, s.job.value, t.job.value);
    JobLink(y.(service := s), t);
  }

  lemma FinishLink(y: Sys)
    requires LinkInv(y) && y.service.job.Some?
    ensures y.service.job.value.phase.Finishing? ==> LinkInv(y.(service := Finish(y.service)))
    ensures y.service.job.value.phase.Ending? ==> LinkInv(y.(service := Die(y.service)))
  {
    TruthOf(y);
    AimOf(y);
    hide LinkInv, TruthInv;
    if y.service.job.value.phase.Finishing? {
      FinishedTruth(y.net.held, y.flights, y.service.job.value, Ending);
      DoneLink(y, Finish(y.service));
    } else if y.service.job.value.phase.Ending? {
      FinishedTruth(y.net.held, y.flights, y.service.job.value, Dead);
      DoneLink(y, Die(y.service));
    }
  }

  lemma AimOf(y: Sys)
    requires LinkInv(y)
    ensures AimInv(y)
  {
  }

  /** A finished job claims only what was booked. */
  lemma DoneLink(y: Sys, t: Service.State)
    requires LinkInv(y) && t == y.service.(job := t.job) && y.service.job.Some? && t.job.Some?
    requires t.job.value.candidate == y.service.job.value.candidate && !Unfinished(t.job.value.phase)
    requires TruthInv(y.net.held, y.flights, t.job.value)
    ensures LinkInv(y.(service := t))
  {
  }

  // ------------------------------------------------------------------- sending

  lemma NewFlight(y: Sys, c: Candidate, stale: bool, rules: Rules)
    requires rules.Valid() && HearingInv(y) && SnapshotInv(y.service.extnav, y.rank)
    requires Aimed(y.net.log, y.origins, c) && Current(y.service.extnav, c, stale)
    ensures FlightInv(y.net, y.origins, Flight(RequestOf(c), c.epoch, y.service.extnav.status, Flying, false))
  {
  }

  lemma FlightsAppend(net: Net, origins: seq<Origin>, flights: seq<Flight>, f: Flight)
    requires FlightsInv(net, origins, flights) && FlightInv(net, origins, f) && f.fate.Flying?
    ensures FlightsInv(net, origins, flights + [f])
  {
  }

  lemma SentTruth(held: set<Hold>, flights: seq<Flight>, j: Job, f: Flight)
    requires TruthInv(held, flights, j) && j.phase.Sending? && j.candidate.Some? && f.request == RequestOf(j.candidate.value)
    requires f.epoch == j.candidate.value.epoch
    ensures TruthInv(held, flights + [f], j.(phase := Settling(Unknown)))
    ensures TruthInv(held, flights + [f], j.(sent := true, phase := Waiting(|flights|)))
  {
  }

  /** The flight and the job move together. */
  lemma SentLink(y: Sys, t: Service.State, f: Flight)
    requires LinkInv(y) && y.service.job.Some? && y.service.job.value.candidate.Some? && Unfinished(y.service.job.value.phase)
    requires t == y.service.(job := t.job) && t.job.Some? && t.job.value.candidate == y.service.job.value.candidate
    requires FlightsInv(y.net, y.origins, y.flights + [f]) && TruthInv(y.net.held, y.flights + [f], t.job.value)
    ensures LinkInv(y.(service := t, flights := y.flights + [f]))
  {
  }

  /** What is known when the sending section begins. */
  lemma SendStart(y: Sys, now: real, stale: bool, raises: bool, rules: Rules)
    requires rules.Valid() && SysInv(y, rules) && MayAct(y.service, DoSend(now, stale, raises), rules)
    ensures var s := ExpireOwner(y.service, now);
      && LinkInv(y.(service := s)) && HasCandidate(s) && s.job.value.phase.Sending?
      && HearingInv(y) && SnapshotInv(y.service.extnav, y.rank)
      && y.service.job.Some? && y.service.job.value.candidate.Some?
  {
    hide NetInv, LinkInv, HearingInv, WindowInv, WorkInv, SnapshotInv, OwnerSafety.OwnerInv, ExpireOwner, Quiet;
    var s := ExpireOwner(y.service, now);
    ExpireOwnerIsCalm(y.service, now);
    CalmIsQuiet(y.service, s);
    QuietLink(y, s);
  }

  lemma SendLink(y: Sys, now: real, stale: bool, raises: bool, rules: Rules)
    requires rules.Valid() && SysInv(y, rules)
    requires MayAct(y.service, DoSend(now, stale, raises), rules)
    ensures LinkInv(Acted(y, DoSend(now, stale, raises), rules))
    ensures Act(y.service, DoSend(now, stale, raises), |y.flights|, rules).nextEpoch == y.service.nextEpoch
  {
    hide SysInv, LinkInv, HearingInv, SnapshotInv, TruthInv, FlightsInv, ExpireOwner, Acted, Act, MayAct, Current;
    SendStart(y, now, stale, raises, rules);
    SendParts(y, now, stale, raises, rules);
    var s := ExpireOwner(y.service, now);
    var u, j := y.(service := s), s.job.value;
    TruthOf(u);
    UnsentTruth(y.net.held, y.flights, j);
    if MaySend(s, stale) {
      var f := Flight(RequestOf(j.candidate.value), j.candidate.value.epoch, y.service.extnav.status, Flying, false);
      AimedOf(u);
      NewFlight(y, j.candidate.value, stale, rules);
      FlightsAppend(y.net, y.origins, y.flights, f);
      SentTruth(y.net.held, y.flights, j, f);
      SentLink(u, Send(y.service, now, stale, raises, |y.flights|).0, f);
    } else {
      JobLink(u, At(s, Settling(Unsent(j))));
    }
  }

  lemma AimedOf(y: Sys)
    requires LinkInv(y) && y.service.job.Some? && y.service.job.value.candidate.Some? && Unfinished(y.service.job.value.phase)
    ensures Aimed(y.net.log, y.origins, y.service.job.value.candidate.value)
  {
  }

  /** `Acted` for the sending action, spelled out. */
  lemma SendParts(y: Sys, now: real, stale: bool, raises: bool, rules: Rules)
    requires rules.Valid() && MayAct(y.service, DoSend(now, stale, raises), rules)
    ensures var a, s := DoSend(now, stale, raises), ExpireOwner(y.service, now);
      && s.job.Some? && s.job.value.candidate.Some? && s.extnav == y.service.extnav
      && Act(y.service, a, |y.flights|, rules).nextEpoch == y.service.nextEpoch
      && (!MaySend(s, stale) ==> Acted(y, a, rules) == y.(service := At(s, Settling(Unsent(s.job.value)))))
      && (MaySend(s, stale) ==>
            Acted(y, a, rules)
            == y.(service := Send(y.service, now, stale, raises, |y.flights|).0,
                  flights := y.flights + [Flight(RequestOf(s.job.value.candidate.value), s.job.value.candidate.value.epoch,
                                                 y.service.extnav.status, Flying, false)]))
  {
    hide ExpireOwner, MaySend;
    ExpireOwnerIsCalm(y.service, now);
  }

  // -------------------------------------------------------------- every action

  /** An action other than sending, in which no epoch starts. */
  lemma PlainActed(y: Sys, a: Action, rules: Rules)
    requires rules.Valid() && MayAct(y.service, a, rules) && !a.DoSend?
    requires Act(y.service, a, |y.flights|, rules).nextEpoch == y.service.nextEpoch
    ensures Acted(y, a, rules) == y.(service := Act(y.service, a, |y.flights|, rules))
  {
  }

  lemma CallLink(y: Sys, a: Action, rules: Rules)
    requires rules.Valid() && SysInv(y, rules) && MayAct(y.service, a, rules)
    requires a.AskOwner? || a.AskStart? || a.AskStop? || a.AskConfigure? || a.AskClear? || a.AskApply?
      || a.Tick? || a.Fault? || a.Shutdown?
    ensures LinkInv(Acted(y, a, rules))
  {
    var t := Act(y.service, a, |y.flights|, rules);
    assert LinkInv(y);
    if a.AskApply? {
      ApplyLink(y, a.apply, a.now, a.stale, a.aged, a.capture, rules);
      assert Acted(y, a, rules) == y.(service := t, origins := Grown(y.origins, y.service, t));
    } else {
      if a.AskStart? {
        StartLink(y, a.start, a.now, a.stale, a.capture);
      } else {
        QuietCalls(y, a, rules);
        QuietLink(y, t);
      }
      PlainActed(y, a, rules);
    }
  }

  lemma WorkerFacts(s: Service.State, rank: nat, rules: Rules)
    requires rules.Valid() && WindowSafety.Inv(s, rank, rules) && s.job.Some? && Unfinished(s.job.value.phase)
    ensures s.job.value.task.session != NO_SESSION
    ensures s.job.value.phase.Releasing? ==> s.job.value.candidate.Some? || s.job.value.phase.failed
  {
  }

  lemma WorkLink(y: Sys, a: Action, rules: Rules)
    requires rules.Valid() && SysInv(y, rules) && Enabled(y, ServiceActs(a), rules)
    requires !(a.AskOwner? || a.AskStart? || a.AskStop? || a.AskConfigure? || a.AskClear? || a.AskApply?
      || a.Tick? || a.Fault? || a.Shutdown?)
    ensures LinkInv(Acted(y, a, rules))
  {
    assert LinkInv(y) && NetInv(y.net) && HearingInv(y) && WindowSafety.Inv(y.service, y.rank, rules);
    hide SysInv, LinkInv, NetInv, HearingInv, WindowSafety.Inv, Registered, Frozen, Current, Settle, SaveDryRun, Release,
      Answered, Reconcile, Send, Acted;
    if Unfinished(y.service.job.value.phase) { WorkerFacts(y.service, y.rank, rules); }
    match a
    case DoFreeze(k, values, q) => FreezeLink(y, k, values, q, rules); FreezeActed(y, a, rules);
    case DoSend(now, stale, raises) => SendLink(y, now, stale, raises, rules);
    case DoRelease(_, _) => BookLink(y, a, rules);
    case DoSave(_, _) => BookLink(y, a, rules);
    case DoSettle(_) => BookLink(y, a, rules);
    case _ => MoveLink(y, a, rules);
  }

  /** The actions that book a result. */
  lemma BookLink(y: Sys, a: Action, rules: Rules)
    requires rules.Valid() && NetInv(y.net) && HearingInv(y) && WindowSafety.Inv(y.service, y.rank, rules) && LinkInv(y)
    requires Enabled(y, ServiceActs(a), rules) && (a.DoRelease? || a.DoSave? || a.DoSettle?)
    ensures LinkInv(Acted(y, a, rules))
  {
    hide LinkInv, NetInv, HearingInv, WindowSafety.Inv, Registered, Frozen, Settle, SaveDryRun, Release, Acted;
    if Unfinished(y.service.job.value.phase) { WorkerFacts(y.service, y.rank, rules); }
    match a
    case DoRelease(fault, released) => ReleaseLink(y, fault, released); PlainActed(y, a, rules);
    case DoSave(now, stale) => SaveLink(y, now, stale); PlainActed(y, a, rules);
    case DoSettle(stale) => SettleLink(y, stale); PlainActed(y, a, rules);
  }

  /** The actions that only move the job on. */
  lemma MoveLink(y: Sys, a: Action, rules: Rules)
    requires rules.Valid() && NetInv(y.net) && HearingInv(y) && LinkInv(y) && Enabled(y, ServiceActs(a), rules)
    requires a.DoCollect? || a.DoBegin? || a.DoCheck? || a.DoDiscover? || a.DoHearAnswer? || a.DoGiveUp? || a.DoPoll?
      || a.DoFinish? || a.DoDie?
    ensures LinkInv(Acted(y, a, rules))
  {
    hide LinkInv, NetInv, HearingInv, Registered, Current, Answered, Reconcile, Acted;
    match a
    case DoCollect(failed) => CollectedLink(y, failed); PlainActed(y, a, rules);
    case DoBegin => BeginLink(y); PlainActed(y, a, rules);
    case DoCheck(stale) => CheckLink(y, stale, true); PlainActed(y, a, rules);
    case DoDiscover(found) => CheckLink(y, true, found); PlainActed(y, a, rules);
    case DoHearAnswer(answer) => AnsweredLink(y, answer); AnsweredEpoch(y.service, answer); PlainActed(y, a, rules);
    case DoGiveUp => GivenUpLink(y); PlainActed(y, a, rules);
    case DoPoll(stale, deadline) => PolledLink(y, stale, deadline); PolledEpoch(y.service, stale, deadline); PlainActed(y, a, rules);
    case DoFinish => FinishLink(y); PlainActed(y, a, rules);
    case DoDie => FinishLink(y); PlainActed(y, a, rules);
  }

  lemma FreezeActed(y: Sys, a: Action, rules: Rules)
    requires rules.Valid() && MayAct(y.service, a, rules) && a.DoFreeze?
    ensures var t := Freeze(y.service, a.keyframe, a.values, a.quality);
      Acted(y, a, rules) == y.(service := t, origins := Grown(y.origins, y.service, t))
  {
  }

  lemma AnsweredEpoch(s: Service.State, a: Response)
    requires HasCandidate(s) && s.job.value.phase.Waiting?
    ensures Answered(s, a).nextEpoch == s.nextEpoch
  {
  }

  lemma PolledEpoch(s: Service.State, stale: bool, deadline: bool)
    requires HasCandidate(s) && s.job.value.phase.Confirming?
    ensures Reconcile(s, stale, deadline).nextEpoch == s.nextEpoch
  {
  }

  /** An action changes what the service knows of the network not at all. */
  lemma ActedHearing(y: Sys, a: Action, rules: Rules)
    requires rules.Valid() && MayAct(y.service, a, rules) && HearingInv(y)
    ensures HearingInv(Acted(y, a, rules)) && Acted(y, a, rules).net == y.net
    ensures Acted(y, a, rules).rank == y.rank && Acted(y, a, rules).service == Act(y.service, a, |y.flights|, rules)
  {
    ActionsAreModest(y.service, a, |y.flights|, rules);
    hide Act, MayAct, Sends, Grown;
  }

  lemma ActedKeeps(y: Sys, a: Action, rules: Rules)
    requires rules.Valid() && SysInv(y, rules) && Enabled(y, ServiceActs(a), rules)
    ensures SysInv(Acted(y, a, rules), rules)
  {
    hide NetInv, HearingInv, WindowSafety.Inv, OwnerSafety.OwnerInv, BookInv, LinkInv, Act, MayAct, Acted;
    ActedHearing(y, a, rules);
    ActionKeepsInv(y.service, a, |y.flights|, y.rank, rules);
    NotYetSent(y.service);
    ActionBooks(y.service, a, |y.flights|, y.rank, rules);
    OwnerSafety.ActionKeepsOwner(y.service, a, |y.flights|, rules);
    if a.AskOwner? || a.AskStart? || a.AskStop? || a.AskConfigure? || a.AskClear? || a.AskApply?
       || a.Tick? || a.Fault? || a.Shutdown? {
      CallLink(y, a, rules);
    } else {
      WorkLink(y, a, rules);
    }
  }

  lemma NotYetSent(s: Service.State)
    requires OwnerSafety.OwnerInv(s)
    ensures s.job.Some? && BeforeSending(s.job.value.phase) ==> !s.job.value.sent
  {
  }

  /** Handing out an empty answer changes no request and nothing that is known of one. */
  lemma EmptyFlights(y: Sys)
    requires FlightsInv(y.net, y.origins, y.flights) && HasCandidate(y.service) && y.service.job.value.phase.Waiting?
    ensures FlightsInv(y.net, y.origins, AnsweredEmpty(y).flights)
  {
    var t := AnsweredEmpty(y).flights;
    forall i | 0 <= i < |t| ensures FlightInv(y.net, y.origins, t[i]) {
      assert FlightInv(y.net, y.origins, y.flights[i]);
    }
    hide Answered;
  }

  lemma EmptyTruth(held: set<Hold>, flights: seq<Flight>, j: Job)
    requires TruthInv(held, flights, j) && j.phase.Waiting? && j.candidate.Some?
    ensures j.phase.flight < |flights|
    ensures TruthInv(held, flights[j.phase.flight := flights[j.phase.flight].(empty := true)], j.(phase := Settling(Unsent(j))))
  {
  }

  lemma EmptyLink(y: Sys)
    requires LinkInv(y) && HasCandidate(y.service) && y.service.job.value.phase.Waiting?
    ensures LinkInv(AnsweredEmpty(y))
  {
    var j := y.service.job.value;
    TruthOf(y);
    AimOf(y);
    EmptyTruth(y.net.held, y.flights, j);
    EmptyFlights(y);
    EmptySettles(y.service);
    hide LinkInv, TruthInv, FlightsInv, Answered, Aimed, RequestOf;
  }

  lemma EmptySettles(s: Service.State)
    requires HasCandidate(s) && s.job.value.phase.Waiting?
    ensures Answered(s, NO_ANSWER) == At(s, Settling(Unsent(s.job.value)))
  {
  }

  lemma EmptyKeeps(y: Sys, rules: Rules)
    requires rules.Valid() && SysInv(y, rules) && Enabled(y, EmptyAnswer, rules)
    ensures SysInv(AnsweredEmpty(y), rules)
  {
    hide NetInv, HearingInv, WindowSafety.Inv, OwnerSafety.OwnerInv, BookInv, LinkInv, Answered;
    var a := DoHearAnswer(NO_ANSWER);
    EmptyLink(y);
    NotYetSent(y.service);
    ActionKeepsInv(y.service, a, 0, y.rank, rules);
    OwnerSafety.ActionKeepsOwner(y.service, a, 0, rules);
    ActionBooks(y.service, a, 0, y.rank, rules);
    EmptyHearing(y);
  }

  lemma EmptyHearing(y: Sys)
    requires HearingInv(y) && HasCandidate(y.service) && y.service.job.value.phase.Waiting?
    ensures HearingInv(AnsweredEmpty(y)) && AnsweredEmpty(y).net == y.net && AnsweredEmpty(y).rank == y.rank
  {
    EmptySettles(y.service);
    hide Answered;
  }

  /** The late confirmation changes how a finished job is booked and nothing else. */
  lemma ConfirmsKeeps(y: Sys, stale: bool, rules: Rules)
    requires rules.Valid() && SysInv(y, rules)
    ensures SysInv(y.(service := Confirm(y.service, stale)), rules)
  {
    ConfirmKeepsInv(y.service, stale, y.rank, rules);
    ConfirmSaves(y.service, stale, y.rank, rules);
    if Confirmable(y.service, stale) {
      InactiveIsOver(y.service, y.rank, rules);
      ConfirmLink(y, stale);
      ConfirmOwner(y.service, stale);
    }
    hide NetInv, WindowSafety.Inv, OwnerSafety.OwnerInv, BookInv, LinkInv, Matches;
  }

  lemma ConfirmLink(y: Sys, stale: bool)
    requires LinkInv(y) && Confirmable(y.service, stale) && Confirm(y.service, stale).saved == y.service.saved
    requires !Unfinished(y.service.job.value.phase)
    ensures LinkInv(y.(service := Confirm(y.service, stale)))
  {
    TruthOf(y);
    hide LinkInv, Matches;
    var j := y.service.job.value;
    RebookedTruth(y.net.held, y.flights, j, AppliedStatus(y.service.extnav.status.revision));
    DoneLink(y, Confirm(y.service, stale));
  }

  lemma RebookedTruth(held: set<Hold>, flights: seq<Flight>, j: Job, o: Outcome)
    requires TruthInv(held, flights, j) && !Unfinished(j.phase) && o.Applied()
    requires j.application.Booked? && j.application.outcome.Applied()
    ensures TruthInv(held, flights, j.(application := Booked(o)))
  {
  }

  lemma ConfirmOwner(s: Service.State, stale: bool)
    requires OwnerSafety.OwnerInv(s)
    ensures OwnerSafety.OwnerInv(Confirm(s, stale)) && Confirm(s, stale).desk == s.desk
  {
    hide Matches;
  }

  lemma SuccessorKeepsInv(y: Sys, step: Step, rules: Rules)
    requires rules.Valid() && SysInv(y, rules)
    ensures SysInv(Successor(y, step, rules), rules)
  {
    if Enabled(y, step, rules) {
      var net, limits := y.net, rules.limits;
      NetOf(y, rules);
      hide SysInv, NetInv, OnRaw, OnTimer, SetCorrection, Arrived, Heard, Acted, MayAct, Orderly, Grew, Take, Restarted;
      match step
      case RawArrives(raw) =>
        RawIsOrderly(net, raw, limits);
        TakenGrew(net, OnRaw(net.bridge, raw, limits));
        NetStepKeeps(y, Take(net, OnRaw(net.bridge, raw, limits)), rules);
      case TimerFires(now) =>
        TimerIsOrderly(net, now, limits);
        TakenGrew(net, OnTimer(net.bridge, now, limits));
        NetStepKeeps(y, Take(net, OnTimer(net.bridge, now, limits)), rules);
      case BridgeRestarts =>
        RestartGrew(net);
        NetStepKeeps(y, Restarted(net), rules);
      case OtherWrites(r) =>
        RequestIsOrderly(net, r, limits);
        TakenGrew(net, SetCorrection(net.bridge, r, limits).0);
        NetStepKeeps(y, Take(net, SetCorrection(net.bridge, r, limits).0), rules);
      case RequestArrives(i) => ArrivedKeeps(y, i, rules);
      case StatusArrives(i) => HeardKeeps(y, i, rules);
      case ServiceActs(a) => ActedKeeps(y, a, rules);
      case EmptyAnswer => EmptyKeeps(y, rules);
      case Confirms(stale) => ConfirmsKeeps(y, stale, rules);
    }
  }

  lemma NetOf(y: Sys, rules: Rules)
    requires rules.Valid() && SysInv(y, rules)
    ensures NetInv(y.net)
  {
  }

  lemma RestartGrew(net: Net)
    requires NetInv(net)
    ensures Grew(net, Restarted(net))
  {
  }

  lemma {:induction false} PlayKeepsInv(y: Sys, steps: seq<Step>, rules: Rules)
    requires rules.Valid() && SysInv(y, rules)
    ensures SysInv(Play(y, steps, rules), rules)
    decreases |steps|
  {
    hide SysInv, Successor;
    if steps != [] {
      SuccessorKeepsInv(y, steps[0], rules);
      PlayKeepsInv(Successor(y, steps[0], rules), steps[1..], rules);
    }
  }

  lemma BootInv(config: nat, size: nat, rules: Rules)
    requires rules.Valid() && size >= 2
    ensures SysInv(Boot(config, size), rules)
  {
  }
}
