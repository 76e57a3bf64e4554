/** What a finished job shows of its application, and what the service still keeps of it.

    Two facts about every section: a saved candidate that bears the job id of an acknowledged job is that
    job's own candidate; and a latch held while no job is under way is shown as unknown, unless the
    last job was a retry that never began.
 */
module Bookings {
  import opened Options
  import opened Bridge
  import opened Service
  import opened WindowSafety
  import opened Sections

  /** This candidate's job id was drawn already. */
  predicate Drawn(c: Option<Candidate>, next: nat) { c.Some? ==> c.value.job.Ours? && c.value.job.serial < next }

  predicate Differ(saved: Option<Candidate>, id: JobId) { saved.Some? ==> saved.value.job != id }

  /** A job that is still under way. */
  predicate UnderWay(saved: Option<Candidate>, j: Job) {
    && !j.application.Booked?
    && (j.candidate.Some? && !j.candidate.value.saved ==> Differ(saved, j.candidate.value.job))
    && (!j.task.operation.ApplySaved? ==> Differ(saved, j.task.id) && (j.candidate.Some? ==> j.candidate.value.job == j.task.id))
  }

  predicate Acked(j: Job) { j.application.Booked? && j.application.outcome.AppliedAck? }

  /** A job that is over. */
  predicate Over(saved: Option<Candidate>, pending: Option<Candidate>, j: Job) {
    && (Acked(j) && j.candidate.Some? && saved.Some? && saved.value.job == j.candidate.value.job ==> saved == j.candidate)
    && (pending.Some? ==>
          && j.candidate.Some? && pending.value.epoch == j.candidate.value.epoch
          && (j.application == Booked(Unknown) || (j.application == Booked(Rejected) && j.task.retrying && !j.sent)))
  }

  predicate JobBook(saved: Option<Candidate>, pending: Option<Candidate>, j: Job) {
    if Unfinished(j.phase) then UnderWay(saved, j) else Over(saved, pending, j)
  }

  predicate BookInv(s: Service.State) {
    && (s.saved.Some? ==> s.saved.value.saved) && Drawn(s.saved, s.nextSerial) && Drawn(s.pending, s.nextSerial)
    && (s.pending.Some? && !s.pending.value.saved ==> Differ(s.saved, s.pending.value.job))
    && (s.pending.Some? ==> s.job.Some?)
    && (s.job.Some? ==>
          && Drawn(s.job.value.candidate, s.nextSerial) && s.job.value.task.id.Ours? && s.job.value.task.id.serial < s.nextSerial
          && JobBook(s.saved, s.pending, s.job.value))
  }

  // ----------------------------------------------------------- section by section

  /** Candidates were dropped at most, and the job asked to stop at most. */
  ghost predicate Less(s: Service.State, t: Service.State) {
    && (t.saved == None || t.saved == s.saved) && (t.pending == None || t.pending == s.pending)
    && t.nextSerial == s.nextSerial && (s.job.None? <==> t.job.None?)
    && (s.job.Some? ==> CalmJob(s.job.value, t.job.value))
  }

  lemma LessKeeps(s: Service.State, t: Service.State)
    requires BookInv(s) && Less(s, t)
    ensures BookInv(t)
  {
  }

  lemma CalmIsLess(s: Service.State, t: Service.State)
    requires Calm(s, t)
    ensures Less(s, t)
  {
  }

  lemma LessChain(s: Service.State, t: Service.State, u: Service.State)
    requires Less(s, t) && Less(t, u)
    ensures Less(s, u)
  {
  }

  lemma FaultIsLess(s: Service.State, invalidate: bool)
    ensures Less(s, OnFault(s, invalidate))
  {
    var t := if invalidate then InvalidateWindow(s) else s;
    FailJobIsCalm(t);
    hide FailJob;
  }

  lemma HearWindowIsLess(s: Service.State, m: Snapshot)
    ensures Less(s, HearWindow(s, m))
  {
  }

  lemma HearIsLess(s: Service.State, m: Snapshot)
    ensures Less(s, OnStatus(s, m))
  {
    hide Less, Calm, HearWindow, ReleaseOwner, FailJob, ExplicitlyUnavailable, SessionChanged;
    var t := HearWindow(s, m);
    HearWindowIsLess(s, m);
    var u := HearOwner(t, m, SessionChanged(s, m.status.session));
    ReleaseOwnerIsCalm(t);
    FailJobIsCalm(u);
    LessSelf(t);
    LessSelf(u);
    CalmIsLess(t, ReleaseOwner(t));
    CalmIsLess(u, FailJob(u));
    LessChain(t, u, HearJob(u, m));
    LessChain(s, t, OnStatus(s, m));
  }

  lemma LessSelf(s: Service.State)
    ensures Less(s, s)
  {
  }

  lemma CallsAreLess(s: Service.State, a: Action, flight: nat, rules: Rules)
    requires rules.Valid() && MayAct(s, a, rules)
    requires a.AskOwner? || a.AskStop? || a.AskConfigure? || a.AskClear? || a.Tick? || a.Fault? || a.Shutdown?
    ensures Less(s, Act(s, a, flight, rules))
  {
    hide SetOwner, Stop, ExpireOwner, Close, OnFault, Less, Calm, Validate;
    var t := Act(s, a, flight, rules);
    match a
    case AskOwner(r, now) => SetOwnerIsCalm(s, r, now); CalmIsLess(s, t);
    case AskStop(r, now) => StopIsCalm(s, r, now); CalmIsLess(s, t);
    case AskConfigure(w, config, parsed, now) => ClearingIsLess(s, w, config, parsed, now);
    case AskClear(w, now) => ClearingIsLess(s, w, 0, false, now);
    case Tick(now) => ExpireOwnerIsCalm(s, now); CalmIsLess(s, t);
    case Fault(invalidate) => FaultIsLess(s, invalidate);
    case Shutdown => CloseIsCalm(s); CalmIsLess(s, t);
  }

  lemma ClearingIsLess(s: Service.State, w: Write, config: nat, parsed: bool, now: real)
    ensures Less(s, Clear(s, w, now).0) && Less(s, Configure(s, w, config, parsed, now).0)
  {
    ValidateIsCalm(s, w, now);
    hide Validate;
  }

  lemma StartBooks(s: Service.State, r: StartRequest, now: real, stale: bool, capture: bool)
    requires BookInv(s)
    ensures BookInv(Start(s, r, now, stale, capture).0)
  {
    ValidateIsCalm(s, r.write, now);
    CalmIsLess(s, Validate(s, r.write, now).0);
    LessKeeps(s, Validate(s, r.write, now).0);
    hide Validate, MayStart, JobRunning;
  }

  lemma ApplyBooks(s: Service.State, r: ApplyRequest, now: real, stale: bool, aged: bool, capture: bool)
    requires BookInv(s)
    ensures BookInv(Apply(s, r, now, stale, aged, capture).0)
  {
    AdmitIsCalm(s, r.write, now);
    CalmIsLess(s, Admit(s, r.write, now).0);
    LessKeeps(s, Admit(s, r.write, now).0);
    hide Admit, MayApply, Ready, JobRunning;
  }

  /** The job goes on with the candidate it has. */
  lemma GoesOn(s: Service.State, t: Service.State)
    requires BookInv(s) && s.job.Some? && Unfinished(s.job.value.phase) && t == s.(job := t.job) && t.job.Some?
    requires var j, k := s.job.value, t.job.value;
      Unfinished(k.phase) && k.task == j.task && k.candidate == j.candidate && !k.application.Booked?
    ensures BookInv(t)
  {
  }

  lemma FreezeBooks(s: Service.State, k: Keyframe, values: Values, q: Quality)
    requires BookInv(s) && s.job.Some? && s.job.value.phase.Collecting? && !s.job.value.task.operation.ApplySaved?
    ensures BookInv(Freeze(s, k, values, q))
  {
  }

  /** A job that ends before it begins to apply. */
  lemma EndsEarly(s: Service.State, rank: nat, rules: Rules)
    requires rules.Valid() && BookInv(s) && WindowSafety.Inv(s, rank, rules) && s.job.Some? && Early(s.job.value.phase)
    ensures s.pending.Some? ==>
      s.job.value.task.retrying && s.job.value.task.apply && s.job.value.candidate.Some?
      && s.pending.value.epoch == s.job.value.candidate.value.epoch
    ensures s.job.value.phase.Saving? ==> s.pending == None
  {
    hide WindowInv, SnapshotInv, LatchInv, HeldInv;
  }

  lemma ReleaseBooks(s: Service.State, fault: Option<bool>, released: bool, rank: nat, rules: Rules)
    requires rules.Valid() && BookInv(s) && WindowSafety.Inv(s, rank, rules)
    requires s.job.Some? && s.job.value.phase.Releasing? && !s.job.value.sent
    ensures BookInv(Release(s, fault, released))
  {
    EndsEarly(s, rank, rules);
    var t := if fault.Some? then OnFault(s, fault.value) else s;
    if fault.Some? {
      FaultIsLess(s, fault.value);
      LessKeeps(s, t);
      FaultPhase(s, fault.value);
      FaultSent(s, fault.value);
    }
    hide WindowSafety.Inv, OnFault, BookInv, AfterRelease;
    ReleasedBooks(t, released);
  }

  lemma ReleasedBooks(s: Service.State, released: bool)
    requires BookInv(s) && s.job.Some? && s.job.value.phase.Releasing? && !s.job.value.sent
    requires s.pending.Some? ==>
      s.job.value.task.retrying && s.job.value.task.apply && s.job.value.candidate.Some?
      && s.pending.value.epoch == s.job.value.candidate.value.epoch
    ensures BookInv(Release(s, None, released))
  {
  }

  lemma FaultSent(s: Service.State, invalidate: bool)
    requires s.job.Some?
    ensures var t := OnFault(s, invalidate); t.job.Some? && t.job.value.sent == s.job.value.sent
    ensures OnFault(s, invalidate).pending == None || OnFault(s, invalidate).pending == s.pending
  {
  }

  lemma BeginBooks(s: Service.State)
    requires BookInv(s) && HasCandidate(s) && s.job.value.phase.Beginning?
    ensures BookInv(Begin(s))
  {
  }

  lemma SaveBooked(s: Service.State, now: real, stale: bool, rank: nat, rules: Rules)
    requires rules.Valid() && BookInv(s) && WindowSafety.Inv(s, rank, rules) && HasCandidate(s) && s.job.value.phase.Saving?
    ensures BookInv(SaveDryRun(s, now, stale))
  {
    EndsEarly(s, rank, rules);
    var t := ExpireOwner(s, now);
    ExpireOwnerIsCalm(s, now);
    CalmIsLess(s, t);
    LessKeeps(s, t);
    hide WindowSafety.Inv, ExpireOwner, MayCommit;
  }

  lemma SettleAppliedBooked(s: Service.State, c: Candidate, o: Outcome, stale: bool)
    requires BookInv(s) && s.job.Some? && s.job.value.phase.Settling? && s.job.value.candidate == Some(c)
    requires c.keyframes != [] && o.Applied() && s.job.value.task.increment == !c.saved
    ensures BookInv(SettleApplied(s, c, o, stale))
  {
    hide MayCommit, Succeeds, Committed;
  }

  lemma SettleRejectedBooked(s: Service.State)
    requires BookInv(s) && s.job.Some? && s.job.value.phase.Settling?
    ensures BookInv(SettleRejected(s))
  {
  }

  lemma SettleUnknownBooked(s: Service.State, c: Candidate)
    requires BookInv(s) && s.job.Some? && s.job.value.phase.Settling? && s.job.value.candidate == Some(c)
    ensures BookInv(SettleUnknown(s, c))
  {
  }

  lemma SettleBooked(s: Service.State, stale: bool)
    requires BookInv(s) && HasCandidate(s) && s.job.value.phase.Settling?
    requires s.job.value.task.increment == !s.job.value.candidate.value.saved
    ensures BookInv(Settle(s, stale))
  {
    hide BookInv, SettleApplied, SettleRejected, SettleUnknown;
    var c, o := s.job.value.candidate.value, s.job.value.phase.outcome;
    if o.Applied() {
      SettleAppliedBooked(s, c, o, stale);
    } else {
      SettleRejectedBooked(s);
      SettleUnknownBooked(s, c);
    }
  }

  lemma IncrementSays(s: Service.State, rank: nat, rules: Rules)
    requires rules.Valid() && WindowSafety.Inv(s, rank, rules) && s.job.Some? && s.job.value.phase.Settling?
    ensures s.job.value.candidate.Some? && s.job.value.task.increment == !s.job.value.candidate.value.saved
  {
    hide WindowInv, SnapshotInv, LatchInv, TaskInv, Backed;
  }

  lemma SendBooks(s: Service.State, now: real, stale: bool, raises: bool, flight: nat)
    requires BookInv(s) && HasCandidate(s) && s.job.value.phase.Sending?
    ensures BookInv(Send(s, now, stale, raises, flight).0)
  {
    hide ExpireOwner, BookInv, Less, Calm, Send, HasCandidate;
    var t := ExpireOwner(s, now);
    ExpireOwnerIsCalm(s, now);
    StillSending(s, t);
    CalmIsLess(s, t);
    LessKeeps(s, t);
    SentBooks(s, t, now, stale, raises, flight);
  }

  lemma SentBooks(s: Service.State, t: Service.State, now: real, stale: bool, raises: bool, flight: nat)
    requires HasCandidate(s) && t == ExpireOwner(s, now) && BookInv(t) && HasCandidate(t) && t.job.value.phase.Sending?
    ensures BookInv(Send(s, now, stale, raises, flight).0)
  {
    hide ExpireOwner, MaySend, BookInv, RequestOf, At;
    MovedOn(t, Settling(Unsent(t.job.value)));
    MovedOn(t, Settling(Unknown));
    AskedBooks(t, flight);
  }

  lemma AskedBooks(s: Service.State, flight: nat)
    requires BookInv(s) && s.job.Some? && s.job.value.phase.Sending?
    ensures BookInv(s.(job := Some(s.job.value.(sent := true, phase := Waiting(flight)))))
  {
    StaysUnbooked(s);
    hide BookInv;
    GoesOn(s, s.(job := Some(s.job.value.(sent := true, phase := Waiting(flight)))));
  }

  lemma StillSending(s: Service.State, t: Service.State)
    requires HasCandidate(s) && s.job.value.phase.Sending? && Calm(s, t)
    ensures HasCandidate(t) && t.job.value.phase.Sending?
  {
  }

  lemma StaysUnbooked(s: Service.State)
    requires BookInv(s) && s.job.Some? && Unfinished(s.job.value.phase)
    ensures !s.job.value.application.Booked?
  {
  }

  /** The job is only moved on to another place. */
  lemma MovedOn(s: Service.State, p: Phase)
    requires BookInv(s) && s.job.Some? && Unfinished(s.job.value.phase) && Unfinished(p)
    ensures BookInv(At(s, p))
  {
    StaysUnbooked(s);
    hide BookInv;
    GoesOn(s, At(s, p));
  }

  lemma HeardMoves(s: Service.State, a: Response) returns (p: Phase)
    requires HasCandidate(s) && s.job.value.phase.Waiting?
    ensures Unfinished(p) && Answered(s, a) == At(s, p)
  {
    hide Acknowledges, Automatic, At;
    p := if !Acknowledges(a, s.job.value.candidate.value) then Settling(Unsent(s.job.value))
    else if Automatic(s.desk, s.job.value.task.source) then Confirming(s.job.value.phase.flight, Some(a.revision))
    else Settling(AppliedAck(a.revision));
  }

  lemma PollBooks(s: Service.State, stale: bool, deadline: bool)
    requires BookInv(s) && HasCandidate(s) && s.job.value.phase.Confirming?
    ensures BookInv(Reconcile(s, stale, deadline))
  {
    hide Matches, At, BookInv;
    MovedOn(s, Settling(AppliedStatus(s.extnav.status.revision)));
    MovedOn(s, Settling(if s.job.value.phase.ack.Some? then AppliedAck(s.job.value.phase.ack.value) else Unknown));
  }

  lemma MoveBooks(s: Service.State, a: Action, flight: nat, rules: Rules)
    requires rules.Valid() && BookInv(s) && MayAct(s, a, rules)
    requires a.DoCollect? || a.DoCheck? || a.DoDiscover? || a.DoHearAnswer? || a.DoGiveUp? || a.DoPoll?
    ensures BookInv(Act(s, a, flight, rules))
  {
    hide BookInv, At, Answered, Reconcile, Current, Registered;
    match a
    case DoCollect(failed) => MovedOn(s, Phase.Releasing(failed || s.job.value.candidate == None));
    case DoCheck(stale) => MovedOn(s, Discovering); MovedOn(s, Settling(Unsent(s.job.value)));
    case DoDiscover(found) => MovedOn(s, Phase.Sending); MovedOn(s, Settling(Unsent(s.job.value)));
    case DoGiveUp => MovedOn(s, Confirming(s.job.value.phase.flight, None));
    case DoHearAnswer(answer) =>
      var p := HeardMoves(s, answer);
      MovedOn(s, p);
    case DoPoll(stale, deadline) => PollBooks(s, stale, deadline);
  }

  lemma EndBooks(s: Service.State)
    requires BookInv(s) && s.job.Some? && (s.job.value.phase.Finishing? || s.job.value.phase.Ending?)
    ensures BookInv(Finish(s)) && BookInv(Die(s))
  {
  }

  /** Every section keeps the books. */
  lemma ActionBooks(s: Service.State, a: Action, flight: nat, rank: nat, rules: Rules)
    requires rules.Valid() && BookInv(s) && WindowSafety.Inv(s, rank, rules) && MayAct(s, a, rules)
    requires s.job.Some? && BeforeSending(s.job.value.phase) ==> !s.job.value.sent
    ensures BookInv(Act(s, a, flight, rules))
  {
    hide BookInv, WindowSafety.Inv, Registered, SetOwner, Start, Stop, Configure, Clear, Apply, ExpireOwner, OnFault, Close,
      Freeze, Collected, Release, SaveDryRun, Begin, Check, Discover, Send, Answered, Unanswered, Reconcile, Settle, Finish, Die;
    match a
    case AskStart(r, now, stale, capture) => StartBooks(s, r, now, stale, capture);
    case AskApply(r, now, stale, aged, capture) => ApplyBooks(s, r, now, stale, aged, capture);
    case DoFreeze(k, values, q) => FreezeBooks(s, k, values, q);
    case DoRelease(fault, released) => ReleaseBooks(s, fault, released, rank, rules);
    case DoSave(now, stale) => SaveBooked(s, now, stale, rank, rules);
    case DoBegin => BeginBooks(s);
    case DoSend(now, stale, raises) => SendBooks(s, now, stale, raises, flight);
    case DoSettle(stale) => IncrementSays(s, rank, rules); SettleBooked(s, stale);
    case DoFinish => EndBooks(s);
    case DoDie => EndBooks(s);
    case DoCollect(_) | DoCheck(_) | DoDiscover(_) | DoHearAnswer(_) | DoGiveUp | DoPoll(_, _) => MoveBooks(s, a, flight, rules);
    case _ => CallsAreLess(s, a, flight, rules); LessKeeps(s, Act(s, a, flight, rules));
  }

  // ------------------------------------------------------ the late confirmation

  /** The late confirmation rewrites a saved candidate with itself. */
  lemma ConfirmSaves(s: Service.State, stale: bool, rank: nat, rules: Rules)
    requires rules.Valid() && BookInv(s) && WindowSafety.Inv(s, rank, rules)
    ensures Confirm(s, stale).saved == s.saved
  {
    if Confirmable(s, stale) { InactiveIsOver(s, rank, rules); }
    hide Matches, WindowSafety.Inv;
  }

  lemma InactiveIsOver(s: Service.State, rank: nat, rules: Rules)
    requires rules.Valid() && WindowSafety.Inv(s, rank, rules) && s.job.Some? && !s.job.value.active
    ensures !Unfinished(s.job.value.phase)
  {
    hide WindowInv, SnapshotInv, LatchInv, HeldInv, TaskInv, PhaseInv, PendingInv;
  }

  lemma ConfirmKeepsInv(s: Service.State, stale: bool, rank: nat, rules: Rules)
    requires rules.Valid() && BookInv(s) && WindowSafety.Inv(s, rank, rules)
    ensures WindowSafety.Inv(Confirm(s, stale), rank, rules) && BookInv(Confirm(s, stale))
  {
    ConfirmSaves(s, stale, rank, rules);
    if Confirmable(s, stale) {
      InactiveIsOver(s, rank, rules);
      RebookedKeeps(s, AppliedStatus(s.extnav.status.revision), rank, rules);
    }
    hide WindowSafety.Inv, BookInv, Matches;
  }

  /** An acknowledged job that is over may be booked as confirmed. */
  lemma RebookedKeeps(s: Service.State, o: Outcome, rank: nat, rules: Rules)
    requires rules.Valid() && BookInv(s) && WindowSafety.Inv(s, rank, rules) && s.job.Some? && !Unfinished(s.job.value.phase)
    requires s.job.value.application.Booked? && s.job.value.application.outcome.AppliedAck? && o.AppliedStatus?
    ensures var t := s.(job := Some(s.job.value.(application := Booked(o)))); WindowSafety.Inv(t, rank, rules) && BookInv(t)
  {
    hide WindowInv, SnapshotInv, LatchInv, HeldInv, TaskInv, PhaseInv, PendingInv;
  }
}
