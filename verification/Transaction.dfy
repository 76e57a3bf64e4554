/** What the transaction protocol promises, over every run from start-up. */
module Transaction {
  import opened Options
  import opened Bridge
  import opened Service
  import opened WindowSafety
  import opened Sections
  import opened Bookings
  import opened Network
  import opened Protocol
  import OwnerSafety
  import R = Registration

  /** The system after some run. */
  ghost function After(config: nat, size: nat, steps: seq<Step>, rules: Rules): Sys
    requires rules.Valid()
  {
    Play(Boot(config, size), steps, rules)
  }

  lemma Reached(config: nat, size: nat, steps: seq<Step>, rules: Rules)
    requires rules.Valid() && size >= 2
    ensures SysInv(After(config, size, steps, rules), rules)
  {
    hide SysInv;
    BootInv(config, size, rules);
    PlayKeepsInv(Boot(config, size), steps, rules);
  }

  // ------------------------------------------------- at most once, over nobody

  /** Of the requests of one epoch at most one advances the bridge; it asks for the revision its epoch
      started from, and it replaces exactly the correction the service last saw. */
  lemma AtMostOnce(config: nat, size: nat, steps: seq<Step>, rules: Rules)
    requires rules.Valid() && size >= 2
    ensures var y := After(config, size, steps, rules);
      && (forall i, j | 0 <= i < j < |y.flights| && Effective(y.flights[i]) && Effective(y.flights[j]) ::
            y.flights[i].epoch != y.flights[j].epoch)
      && (forall i | 0 <= i < |y.flights| && Effective(y.flights[i]) ::
            var f := y.flights[i];
            && f.epoch < |y.origins| && f.request.expected == y.origins[f.epoch].revision
            && f.request.session == y.origins[f.epoch].session
            && f.fate.met.session == f.seen.session == f.request.session
            && f.fate.met.revision == f.seen.revision == f.request.expected
            && SameCorrection(f.fate.met, f.seen))
  {
    Reached(config, size, steps, rules);
    var y := After(config, size, steps, rules);
    assert FlightsInv(y.net, y.origins, y.flights);
    hide SysInv, LinkInv, NetInv, Past, Shown;
    forall i | 0 <= i < |y.flights| ensures FlightInv(y.net, y.origins, y.flights[i]) {
    }
  }

  lemma ActedFlights(y: Sys, a: Action, rules: Rules)
    requires rules.Valid() && SysInv(y, rules) && MayAct(y.service, a, rules)
    requires y.service.pending.Some? && Acted(y, a, rules).service.pending.Some?
    ensures var z := Acted(y, a, rules);
      && |y.flights| <= |z.flights| && z.flights[..|y.flights|] == y.flights
      && (forall i | |y.flights| <= i < |z.flights| :: z.flights[i].epoch == y.service.pending.value.epoch)
      && z.service.pending.value.epoch == y.service.pending.value.epoch
  {
    hide SysInv, WindowSafety.Inv, Act, MayAct, MaySend, ExpireOwner, Send, Acted;
    PartsOf(y, rules);
    ActedService(y, a, rules);
    ActionsAreModest(y.service, a, |y.flights|, rules);
    LatchOfJob(y.service, y.rank, rules);
    LatchEpoch(y.service, Act(y.service, a, |y.flights|, rules));
    if a.DoSend? {
      SendParts(y, a.now, a.stale, a.raises, rules);
      SendingJob(y.service, a, rules);
      ExpireOwnerIsCalm(y.service, a.now);
    } else {
      OtherFlights(y, a, rules);
    }
  }

  lemma PartsOf(y: Sys, rules: Rules)
    requires rules.Valid() && SysInv(y, rules)
    ensures WindowSafety.Inv(y.service, y.rank, rules) && OwnerSafety.OwnerInv(y.service)
  {
  }

  /** The latch keeps its epoch as long as it is held. */
  lemma LatchEpoch(s: Service.State, t: Service.State)
    requires Modest(s, t) && s.pending.Some? && t.pending.Some?
    requires s.job.Some? && Unfinished(s.job.value.phase) && s.job.value.candidate.Some? ==>
      s.pending.value.epoch == s.job.value.candidate.value.epoch
    ensures t.pending.value.epoch == s.pending.value.epoch
  {
  }

  lemma SendingJob(s: Service.State, a: Action, rules: Rules)
    requires rules.Valid() && MayAct(s, a, rules) && a.DoSend?
    ensures s.job.Some? && s.job.value.candidate.Some? && Unfinished(s.job.value.phase)
  {
  }

  lemma OtherFlights(y: Sys, a: Action, rules: Rules)
    requires rules.Valid() && MayAct(y.service, a, rules) && !a.DoSend?
    ensures Acted(y, a, rules).flights == y.flights
  {
  }

  lemma ActedService(y: Sys, a: Action, rules: Rules)
    requires rules.Valid() && MayAct(y.service, a, rules)
    ensures Acted(y, a, rules).service == Act(y.service, a, |y.flights|, rules)
  {
  }

  /** Whose application is latched. */
  lemma LatchOfJob(s: Service.State, rank: nat, rules: Rules)
    requires rules.Valid() && WindowSafety.Inv(s, rank, rules)
    ensures s.job.Some? && Unfinished(s.job.value.phase) && s.pending.Some? && s.job.value.candidate.Some? ==>
      s.pending.value.epoch == s.job.value.candidate.value.epoch
  {
  }

  /** Requests already made keep their epoch, and the new ones belong to the latched application. */
  ghost predicate Latched(y: Sys, z: Sys) {
    && y.service.pending.Some? && z.service.pending.Some?
    && z.service.pending.value.epoch == y.service.pending.value.epoch
    && |y.flights| <= |z.flights|
    && (forall i | 0 <= i < |y.flights| :: z.flights[i].epoch == y.flights[i].epoch)
    && (forall i | |y.flights| <= i < |z.flights| :: z.flights[i].epoch == y.service.pending.value.epoch)
  }

  lemma HeardPending(s: Service.State, m: Snapshot)
    requires OnStatus(s, m).pending.Some?
    ensures OnStatus(s, m).pending == s.pending
  {
    var t := HearWindow(s, m);
    var u := HearOwner(t, m, SessionChanged(s, m.status.session));
    ReleaseOwnerIsCalm(t);
    FailJobIsCalm(u);
    hide ReleaseOwner, FailJob, SessionChanged, ExplicitlyUnavailable, Emptied;
  }

  /** An empty answer moves neither latch nor window, and marks at most one request. */
  lemma EmptyAnswered(y: Sys, rules: Rules)
    requires rules.Valid() && Enabled(y, EmptyAnswer, rules)
    ensures var z := AnsweredEmpty(y);
      && Successor(y, EmptyAnswer, rules) == z
      && z.service.pending == y.service.pending && |z.flights| == |y.flights|
      && (forall i | 0 <= i < |y.flights| :: z.flights[i] == y.flights[i].(empty := z.flights[i].empty))
  {
    EmptySettles(y.service);
    hide Answered;
  }

  lemma LatchedEmpty(y: Sys, rules: Rules)
    requires rules.Valid() && Enabled(y, EmptyAnswer, rules) && y.service.pending.Some?
    ensures Latched(y, Successor(y, EmptyAnswer, rules))
  {
    EmptyAnswered(y, rules);
    hide AnsweredEmpty, Enabled, Successor;
  }

  lemma ConfirmPending(s: Service.State, stale: bool)
    ensures Confirm(s, stale).pending == s.pending
  {
    hide Matches;
  }

  lemma LatchedAct(y: Sys, a: Action, rules: Rules)
    requires rules.Valid() && SysInv(y, rules) && Enabled(y, ServiceActs(a), rules)
    requires y.service.pending.Some? && Acted(y, a, rules).service.pending.Some?
    ensures Latched(y, Acted(y, a, rules))
  {
    hide SysInv, Act, MayAct, Acted;
    ActedFlights(y, a, rules);
    var z := Acted(y, a, rules);
    assert forall i | 0 <= i < |y.flights| :: z.flights[i] == z.flights[..|y.flights|][i];
  }

  /** Neither latch nor epochs moved. */
  lemma LatchedSame(y: Sys, z: Sys)
    requires y.service.pending.Some? && z.service.pending == y.service.pending && |z.flights| == |y.flights|
    requires forall i | 0 <= i < |y.flights| :: z.flights[i].epoch == y.flights[i].epoch
    ensures Latched(y, z)
  {
  }

  lemma LatchedStep(y: Sys, step: Step, rules: Rules)
    requires rules.Valid() && SysInv(y, rules)
    requires y.service.pending.Some? && Successor(y, step, rules).service.pending.Some?
    ensures Latched(y, Successor(y, step, rules))
  {
    hide SysInv, MayAct, Acted, OnStatus, SetCorrection, Take, OnRaw, OnTimer, AnsweredEmpty, Confirm, Latched;
    var z := Successor(y, step, rules);
    if !Enabled(y, step, rules) {
      LatchedSame(y, z);
    } else {
      match step
      case ServiceActs(a) => LatchedAct(y, a, rules);
      case EmptyAnswer => LatchedEmpty(y, rules);
      case StatusArrives(i) =>
        HeardPending(y.service, Snapshot(true, SameVersion, true, y.net.log[i].status));
        LatchedSame(y, z);
      case Confirms(stale) => ConfirmPending(y.service, stale); LatchedSame(y, z);
      case _ => LatchedSame(y, z);
    }
  }

  /** Is the latch held at every point of a run? */
  ghost predicate HeldThroughout(y: Sys, steps: seq<Step>, rules: Rules)
    requires rules.Valid()
    decreases |steps|
  {
    y.service.pending.Some? && (steps != [] ==> HeldThroughout(Successor(y, steps[0], rules), steps[1..], rules))
  }

  lemma {:induction false} LatchedRun(y: Sys, steps: seq<Step>, rules: Rules)
    requires rules.Valid() && SysInv(y, rules) && HeldThroughout(y, steps, rules)
    ensures SysInv(Play(y, steps, rules), rules) && Latched(y, Play(y, steps, rules))
    decreases |steps|
  {
    hide SysInv, Successor;
    if steps != [] {
      var z := Successor(y, steps[0], rules);
      SuccessorKeepsInv(y, steps[0], rules);
      assert z.service.pending.Some?;
      LatchedStep(y, steps[0], rules);
      LatchedRun(z, steps[1..], rules);
    }
  }

  lemma {:induction false} PlayAppends(y: Sys, a: seq<Step>, b: seq<Step>, rules: Rules)
    requires rules.Valid()
    ensures Play(y, a + b, rules) == Play(Play(y, a, rules), b, rules)
    decreases |a|
  {
    hide Successor;
    if a == [] {
      assert a + b == b;
    } else {
      assert (a + b)[1..] == a[1..] + b;
      PlayAppends(Successor(y, a[0], rules), a[1..], b, rules);
    }
  }

  /** While one application stays latched its requests advance the bridge at most once, whatever the
      other programs do meanwhile. */
  lemma AtMostOnceWhileLatched(config: nat, size: nat, before: seq<Step>, during: seq<Step>, rules: Rules)
    requires rules.Valid() && size >= 2
    requires HeldThroughout(After(config, size, before, rules), during, rules)
    ensures var y, z := After(config, size, before, rules), After(config, size, before + during, rules);
      && |y.flights| <= |z.flights|
      && (forall i, j | |y.flights| <= i < j < |z.flights| :: !(Effective(z.flights[i]) && Effective(z.flights[j])))
      && (forall i, j | 0 <= i < |y.flights| <= j < |z.flights| && y.flights[i].epoch == y.service.pending.value.epoch ::
            !(Effective(z.flights[i]) && Effective(z.flights[j])))
  {
    var y, z := After(config, size, before, rules), After(config, size, before + during, rules);
    Reached(config, size, before, rules);
    LatchedRun(y, during, rules);
    PlayAppends(Boot(config, size), before, during, rules);
    AtMostOnce(config, size, before + during, rules);
    hide SysInv, HeldThroughout, SameCorrection, Effective, After;
  }

  // ------------------------------------------------------------ truthful outcomes

  /** A booked application was really held by the bridge; a first attempt booked as rejected never had
      an effect and never will, unless its sender was handed an empty answer; a retry of an unknown
      application is never settled as rejected. */
  lemma OutcomesAreTrue(config: nat, size: nat, steps: seq<Step>, rules: Rules)
    requires rules.Valid() && size >= 2
    ensures var y := After(config, size, steps, rules);
      y.service.job.Some? ==>
        var j := y.service.job.value;
        && (j.application.Booked? && j.application.outcome.Applied() ==>
              j.candidate.Some? && HoldFor(j.candidate.value) in y.net.held)
        && (j.application == Booked(Rejected) && !j.task.retrying && j.candidate.Some? ==>
              Refused(y.flights, j.candidate.value.epoch))
        && (j.phase.Settling? && j.phase.outcome.Rejected? ==> !j.task.retrying)
  {
    Reached(config, size, steps, rules);
    var y := After(config, size, steps, rules);
    hide After, NetInv, AimInv, FlightsInv, WindowInv, LatchInv, TaskInv, HeldInv, OwnerSafety.OwnerInv, SnapshotInv,
      Refused, Unflown, Only, RequestOf, PendingInv;
  }

  /** The bridge holds this correction now. */
  predicate Holds(net: Net, h: Hold) { net.bridge.valid && HoldOf(StatusOf(net.bridge)) == h }

  lemma SuccessorHeld(y: Sys, step: Step, rules: Rules, h: Hold)
    requires rules.Valid() && h in Successor(y, step, rules).net.held && h !in y.net.held
    ensures Holds(Successor(y, step, rules).net, h)
  {
  }

  /** `held` is history: whatever it contains, the bridge held at some point of the run. */
  lemma {:induction false} HeldHappened(y: Sys, steps: seq<Step>, rules: Rules, h: Hold) returns (k: nat)
    requires rules.Valid() && h in Play(y, steps, rules).net.held && h !in y.net.held
    ensures k <= |steps| && Holds(Play(y, steps[..k], rules).net, h)
    decreases |steps|
  {
    hide Successor, Holds;
    assert steps != [];
    var z := Successor(y, steps[0], rules);
    if h in z.net.held {
      SuccessorHeld(y, steps[0], rules, h);
      k := 1;
      assert steps[..1][1..] == [];
    } else {
      var m := HeldHappened(z, steps[1..], rules, h);
      k := m + 1;
      assert steps[..k][1..] == steps[1..][..m];
    }
  }

  // ------------------------------------------------------- candidates and window

  /** Every candidate that `apply_saved` would accept now: a saved one has exactly the keyframes of the
      current window, and a latched unsaved one is the current window with one more keyframe. */
  lemma ApplicableMatchesWindow(
    config: nat, size: nat, steps: seq<Step>, rules: Rules, r: ApplyRequest, stale: bool, aged: bool)
    requires rules.Valid() && size >= 2
    requires AcceptsApply(After(config, size, steps, rules).service, r, stale, aged)
    ensures var s := After(config, size, steps, rules).service;
      && Chosen(s).Some? && Chosen(s).value.keyframes != []
      && (Chosen(s).value.saved ==> Chosen(s).value.keyframes == s.window.keyframes)
      && (!Chosen(s).value.saved ==> Extends(s.window, Chosen(s).value, rules))
  {
    Reached(config, size, steps, rules);
    var y := After(config, size, steps, rules);
    hide After, NetInv, LinkInv, Extends, WindowInv, JobInv, OwnerSafety.OwnerInv;
  }

  /** In every reachable state the window is the last `size` keyframes accepted since it was last
      emptied, and it meets every gate of the registration. */
  lemma WindowIsRecentAndSound(config: nat, size: nat, steps: seq<Step>, rules: Rules)
    requires rules.Valid() && size >= 2
    ensures var w := After(config, size, steps, rules).service.window;
      && w.keyframes == R.Last(w.accepted, w.size) && w.successes == |w.accepted|
      && R.DistinctTags(w.keyframes) && R.OneSession(w.keyframes) && R.OneConfig(w.keyframes)
      && R.OneTimeSource(w.keyframes) && R.AllPairsPass(rules.root, rules.settings, w.keyframes)
  {
    Reached(config, size, steps, rules);
    hide After, NetInv, LinkInv, LatchInv, JobInv, OwnerSafety.OwnerInv, R.PairPasses;
  }

  /** What any number of steps keeps of the window. */
  ghost predicate WindowOnward(v: Window, w: Window) {
    v.revision <= w.revision && (v.revision == w.revision ==> v.keyframes == w.keyframes && v.accepted == w.accepted)
  }

  /** One step of the whole system, as far as the window, the lease and the job are concerned. */
  ghost predicate ServiceStep(s: Service.State, t: Service.State) {
    WindowStep(s.window, t.window) && s.desk.retired <= t.desk.retired && JobStep(s, t)
  }

  lemma HeardWindow(s: Service.State, m: Snapshot)
    ensures ServiceStep(s, OnStatus(s, m))
  {
    hide HearWindow, HearOwner, HearJob, Calm, ServiceStep;
    var t := HearWindow(s, m);
    var u := HearOwner(t, m, SessionChanged(s, m.status.session));
    HearWindowStep(s, m);
    HearOwnerCalm(t, m, SessionChanged(s, m.status.session));
    HearJobCalm(u, m);
    CalmChain(t, u, HearJob(u, m));
    CalmServiceStep(s, t, HearJob(u, m));
  }

  lemma HearWindowStep(s: Service.State, m: Snapshot)
    ensures ServiceStep(s, HearWindow(s, m)) && HearWindow(s, m).desk == s.desk
  {
  }

  lemma HearOwnerCalm(s: Service.State, m: Snapshot, changed: bool)
    ensures Calm(s, HearOwner(s, m, changed)) && s.desk.retired <= HearOwner(s, m, changed).desk.retired
  {
    ReleaseOwnerIsCalm(s);
    ReleaseRetires(s);
    hide ReleaseOwner, ExplicitlyUnavailable;
  }

  lemma HearJobCalm(s: Service.State, m: Snapshot)
    ensures Calm(s, HearJob(s, m)) && s.desk.retired <= HearJob(s, m).desk.retired
  {
  }

  lemma CalmServiceStep(s: Service.State, t: Service.State, u: Service.State)
    requires ServiceStep(s, t) && Calm(t, u) && t.desk.retired <= u.desk.retired
    ensures ServiceStep(s, u)
  {
  }

  lemma ReleaseRetires(s: Service.State)
    ensures s.desk.retired <= ReleaseOwner(s).desk.retired
  {
  }

  lemma EmptyStep(y: Sys, rules: Rules)
    requires rules.Valid() && Enabled(y, EmptyAnswer, rules)
    ensures ServiceStep(y.service, AnsweredEmpty(y).service)
  {
    EmptySettles(y.service);
    hide Answered;
  }

  lemma ConfirmStep(s: Service.State, stale: bool)
    ensures ServiceStep(s, Confirm(s, stale))
  {
    hide Matches;
  }

  lemma SuccessorService(y: Sys, step: Step, rules: Rules)
    requires rules.Valid() && SysInv(y, rules)
    ensures ServiceStep(y.service, Successor(y, step, rules).service)
  {
    var z := Successor(y, step, rules);
    CalmSelf(y.service);
    CalmIsModest(y.service, y.service);
    if Enabled(y, step, rules) {
      match step
      case ServiceActs(a) =>
        ActionsAreModest(y.service, a, |y.flights|, rules);
        OwnerSafety.ActionKeepsOwner(y.service, a, |y.flights|, rules);
      case StatusArrives(i) => HeardWindow(y.service, Snapshot(true, SameVersion, true, y.net.log[i].status));
      case EmptyAnswer => EmptyStep(y, rules);
      case Confirms(stale) => ConfirmStep(y.service, stale);
      case _ =>
    }
    hide NetInv, WindowSafety.Inv, LinkInv, HearingInv, OwnerSafety.OwnerInv, MayAct, Act, Sends, OnStatus, SetCorrection,
      OnRaw, OnTimer, WindowStep, JobStep, Calm, Take, AnsweredEmpty, Confirm;
  }

  /** The window revision never decreases and determines the window; retirement is for good. */
  lemma {:induction false} ServiceOnward(y: Sys, steps: seq<Step>, rules: Rules)
    requires rules.Valid() && SysInv(y, rules)
    ensures var z := Play(y, steps, rules);
      SysInv(z, rules) && WindowOnward(y.service.window, z.service.window)
      && y.service.desk.retired <= z.service.desk.retired
    decreases |steps|
  {
    hide SysInv, Successor;
    if steps != [] {
      SuccessorService(y, steps[0], rules);
      SuccessorKeepsInv(y, steps[0], rules);
      ServiceOnward(Successor(y, steps[0], rules), steps[1..], rules);
    }
  }

  lemma WindowRevisionDetermines(config: nat, size: nat, before: seq<Step>, between: seq<Step>, rules: Rules)
    requires rules.Valid() && size >= 2
    ensures WindowOnward(After(config, size, before, rules).service.window,
                         After(config, size, before + between, rules).service.window)
  {
    hide SysInv;
    Reached(config, size, before, rules);
    PlayAppends(Boot(config, size), before, between, rules);
    ServiceOnward(After(config, size, before, rules), between, rules);
  }

  // ------------------------------------------------------------------- the lease

  /** A source that was released, expired or cancelled never again writes or holds the lease. */
  lemma RetiredForGood(
    config: nat, size: nat, before: seq<Step>, between: seq<Step>, rules: Rules, source: Source, now: real,
    w: Write, acquire: OwnerRequest)
    requires rules.Valid() && size >= 2
    requires source != NO_SOURCE && source in After(config, size, before, rules).service.desk.retired
    requires w.source == source && acquire.source == source && acquire.acquire
    ensures var s := After(config, size, before + between, rules).service;
      && source in s.desk.retired
      && !Admit(s, w, now).1 && !SetOwner(s, acquire, now).1
      && (s.desk.owner == source ==> s.desk.releasing)
  {
    var y, z := After(config, size, before, rules), After(config, size, before + between, rules);
    Reached(config, size, before, rules);
    PlayAppends(Boot(config, size), before, between, rules);
    ServiceOnward(y, between, rules);
    assert OwnerSafety.OwnerInv(z.service);
    OwnerSafety.ExpireOwnerKeeps(z.service, now);
    hide SysInv, After, ExpireOwner;
  }

  /** While a source holds the lease nobody else's write is accepted. Once the lease is over the write that
      notices it is refused, unless nothing runs any more and the source is not the one that lost it. */
  lemma OwnerExcludesOthers(s: Service.State, w: Write, now: real)
    requires OwnerSafety.OwnerInv(s) && s.desk.owner != NO_SOURCE && Admit(s, w, now).1
    ensures if LeaseOver(s.desk, now) then !JobRunning(s) && w.source != s.desk.owner && Admit(s, w, now).0.desk.owner == NO_SOURCE
            else w.source == s.desk.owner
  {
    OwnerSafety.ExpireOwnerKeeps(s, now);
    hide OwnerSafety.OwnerInv;
    RunningStays(s);
    hide RequestStop;
  }

  lemma RunningStays(s: Service.State)
    ensures JobRunning(RequestStop(s)) == JobRunning(s)
  {
  }

  /** So it is in every reachable state. */
  lemma OwnerExcludesOthersAlways(config: nat, size: nat, steps: seq<Step>, rules: Rules, w: Write, now: real)
    requires rules.Valid() && size >= 2
    requires var s := After(config, size, steps, rules).service; s.desk.owner != NO_SOURCE && Admit(s, w, now).1
    ensures var s := After(config, size, steps, rules).service;
      if LeaseOver(s.desk, now) then !JobRunning(s) && w.source != s.desk.owner else w.source == s.desk.owner
  {
    Reached(config, size, steps, rules);
    PartsOf(After(config, size, steps, rules), rules);
    hide SysInv, Admit, OwnerSafety.OwnerInv, After;
    OwnerExcludesOthers(After(config, size, steps, rules).service, w, now);
  }

  // ------------------------------------------------------------ a stop that holds

  /** The job is asked to stop before it sends, or is past that point. */
  ghost predicate Silent(s: Service.State) {
    s.job.Some? && (BeforeSending(s.job.value.phase) ==> s.job.value.stops.Any())
  }

  /** Does the job's thread live at every point of a run but its end? */
  ghost predicate AliveThroughout(y: Sys, steps: seq<Step>, rules: Rules)
    requires rules.Valid()
    decreases |steps|
  {
    steps != [] ==>
      y.service.job.Some? && !y.service.job.value.phase.Dead?
      && AliveThroughout(Successor(y, steps[0], rules), steps[1..], rules)
  }

  lemma SilentStep(y: Sys, step: Step, rules: Rules)
    requires rules.Valid() && SysInv(y, rules) && Silent(y.service) && !y.service.job.value.phase.Dead?
    ensures Silent(Successor(y, step, rules).service) && |Successor(y, step, rules).flights| == |y.flights|
  {
    SuccessorService(y, step, rules);
    SilentFlights(y, step, rules);
    hide SysInv, Successor, WindowStep;
  }

  lemma SilentFlights(y: Sys, step: Step, rules: Rules)
    requires rules.Valid() && SysInv(y, rules) && Silent(y.service)
    ensures |Successor(y, step, rules).flights| == |y.flights|
  {
    hide SysInv, MayAct, Acted, OnStatus, SetCorrection, OnRaw, OnTimer, Take;
    PartsOf(y, rules);
    if step.ServiceActs? && Enabled(y, step, rules) {
      if step.action.DoSend? {
        SilentSend(y, step.action, rules);
      } else {
        OtherFlights(y, step.action, rules);
      }
    } else if step.EmptyAnswer? && Enabled(y, step, rules) {
      EmptyAnswered(y, rules);
    }
  }

  lemma SilentSend(y: Sys, a: Action, rules: Rules)
    requires rules.Valid() && OwnerSafety.OwnerInv(y.service) && Silent(y.service) && MayAct(y.service, a, rules) && a.DoSend?
    ensures Acted(y, a, rules).flights == y.flights
  {
  }

  /** Once a stop was accepted, the lease ended or a failure was booked before the request left, the
      job sends none for as long as its thread lives. */
  lemma {:induction false} StoppedNeverSends(y: Sys, steps: seq<Step>, rules: Rules)
    requires rules.Valid() && SysInv(y, rules) && Silent(y.service) && AliveThroughout(y, steps, rules)
    ensures |Play(y, steps, rules).flights| == |y.flights|
    decreases |steps|
  {
    hide SysInv, Successor, Silent;
    if steps != [] {
      SilentStep(y, steps[0], rules);
      SuccessorKeepsInv(y, steps[0], rules);
      StoppedNeverSends(Successor(y, steps[0], rules), steps[1..], rules);
    }
  }

  /** The same for every run from start-up. */
  lemma StopHolds(config: nat, size: nat, before: seq<Step>, after: seq<Step>, rules: Rules)
    requires rules.Valid() && size >= 2
    requires Silent(After(config, size, before, rules).service)
    requires AliveThroughout(After(config, size, before, rules), after, rules)
    ensures |After(config, size, before + after, rules).flights| == |After(config, size, before, rules).flights|
  {
    hide SysInv, Silent, AliveThroughout;
    Reached(config, size, before, rules);
    PlayAppends(Boot(config, size), before, after, rules);
    StoppedNeverSends(After(config, size, before, rules), after, rules);
  }

  /** An accepted stop, an ended lease and an accepted release all silence the running job. */
  lemma StopsSilence(s: Service.State, stop: StopRequest, release: OwnerRequest, now: real)
    requires OwnerSafety.OwnerInv(s) && s.job.Some? && !release.acquire
    ensures Stop(s, stop, now).1 ==> Silent(Stop(s, stop, now).0)
    ensures LeaseOver(s.desk, now) ==> Silent(ExpireOwner(s, now))
    ensures SetOwner(s, release, now).1 && s.desk.owner != NO_SOURCE ==> Silent(SetOwner(s, release, now).0)
  {
    StopSilences(s, stop, now);
    ReleaseSilences(s, release, now);
    ExpirySilences(s, now);
    hide Silent, Stop, SetOwner, ExpireOwner;
  }

  lemma StopSilences(s: Service.State, r: StopRequest, now: real)
    requires OwnerSafety.OwnerInv(s)
    ensures Stop(s, r, now).1 ==> Silent(Stop(s, r, now).0)
  {
  }

  lemma ExpirySilences(s: Service.State, now: real)
    requires OwnerSafety.OwnerInv(s) && s.job.Some?
    ensures LeaseOver(s.desk, now) ==> Silent(ExpireOwner(s, now)) && OwnerSafety.OwnerInv(ExpireOwner(s, now))
    ensures ExpireOwner(s, now).job.Some?
  {
    OwnerSafety.ExpireOwnerKeeps(s, now);
    ExpireOwnerIsCalm(s, now);
    hide ExpireOwner;
  }

  lemma ReleaseSilences(s: Service.State, r: OwnerRequest, now: real)
    requires OwnerSafety.OwnerInv(s) && s.job.Some? && !r.acquire
    ensures SetOwner(s, r, now).1 && s.desk.owner != NO_SOURCE ==> Silent(SetOwner(s, r, now).0)
  {
    ExpirySilences(s, now);
    OwnerSafety.ExpireOwnerKeeps(s, now);
    var u := Noted(ExpireOwner(s, now), r);
    if u.desk.owner != NO_SOURCE {
      OwnerSafety.ReleaseOwnerKeeps(u);
      ReleaseOwnerIsCalm(u);
    }
    hide ExpireOwner, ReleaseOwner;
  }
}
