/** The aircraft's queue over whole runs (video_service/media_transfer.py): any thread writes any copy at
    any time, decisions arrive between any two sections of an upload, and the process may die inside
    a decision. The queue starts empty.
 */
module QueueRuns {
  import opened Options
  import opened UploadQueue

  ghost predicate Runs(y: Sys, steps: seq<Step>)
    decreases |steps|
  {
    steps != [] ==> Enabled(y, steps[0]) && Runs(Next(y, steps[0]), steps[1..])
  }

  function Run(y: Sys, steps: seq<Step>): Sys
    decreases |steps|
  {
    if steps == [] then y else Run(Next(y, steps[0]), steps[1..])
  }

  /** Runs seen from their end. */
  lemma {:induction false} RunPrefix(y: Sys, steps: seq<Step>, k: nat)
    requires Runs(y, steps) && k < |steps|
    ensures Enabled(Run(y, steps[..k]), steps[k]) && Run(y, steps[..k + 1]) == Next(Run(y, steps[..k]), steps[k])
    decreases k
  {
    hide Enabled, Next;
    if k == 0 {
      assert steps[..1][1..] == [];
    } else {
      RunPrefix(Next(y, steps[0]), steps[1..], k - 1);
      assert steps[1..][..k - 1] == steps[..k][1..] && steps[1..][..k] == steps[..k + 1][1..];
    }
  }

  /** The decision ends all transfers of this record. */
  predicate Closed(delivery: map<nat, Verdict>, r: Record) {
    || (!r.kind.Event? && DecisionOf(delivery, r.session).Failed?)
    || (r.kind.Video? && DecisionOf(delivery, r.session).Ready?)
  }

  // ------------------------------------------------------------ final decisions

  lemma DecisionStep(y: Sys, step: Step, session: nat)
    requires DecisionOf(y.db.delivery, session).Final()
    ensures DecisionOf(Next(y, step).db.delivery, session) == DecisionOf(y.db.delivery, session)
  {
    hide Clamped, Redecided;
  }

  /** A ready or failed decision never changes, in any run, crashes included. */
  lemma {:induction false} FinalForGood(y: Sys, steps: seq<Step>, session: nat)
    requires Runs(y, steps) && DecisionOf(y.db.delivery, session).Final()
    ensures DecisionOf(Run(y, steps).db.delivery, session) == DecisionOf(y.db.delivery, session)
    decreases |steps|
  {
    hide Enabled, Next, DecisionOf;
    if steps != [] {
      DecisionStep(y, steps[0], session);
      FinalForGood(Next(y, steps[0]), steps[1..], session);
    }
  }

  // ---------------------------------------------- which records disobey, and until when

  predicate Violates(db: Db, id: nat) { id in db.records && !Obeys(db.delivery, db.records[id]) }

  /** The process dies after storing a final decision and before rewriting this record, which is not yet
      as the decision leaves it. */
  predicate LeftBehind(db: Db, step: Step, id: nat) {
    && step.CrashInDecide? && !DecisionOf(db.delivery, step.session).Final()
    && id in db.records && db.records[id].session == step.session && id !in step.rewritten && !db.records[id].state.CacheDeleted?
    && ((step.decision.Failed? && !db.records[id].kind.Event? && !db.records[id].state.NeedsAttention?)
        || (step.decision.Ready? && db.records[id].kind.Video? && !db.records[id].state.Retained?))
  }

  /** Does a step write this record? */
  predicate Writes(y: Sys, step: Step, id: nat) {
    match step
    case Save(r, _) => r.id == id
    case Open(r, _) => r.id == id
    case Size(_, _) | Await(_) | Abandon(_, _, _) => y.work.Some? && y.work.value.record.id == id
    case _ => false
  }

  /** A single write. */
  lemma SavedViolates(db: Db, r: Record, now: real, id: nat)
    ensures Violates(Saved(db, r, now), id) <==> id != r.id && Violates(db, id)
  {
  }

  lemma DecidedViolates(db: Db, session: nat, decision: Decision, reason: string, now: real, id: nat)
    ensures Violates(Decided(db, session, decision, reason, now), id) <==> Violates(db, id)
  {
  }

  lemma HalfViolates(db: Db, step: Step, id: nat)
    requires step.CrashInDecide?
    ensures Violates(HalfDecided(db, step.session, step.decision, step.reason, step.rewritten, step.now), id)
      <==> LeftBehind(db, step, id) || Violates(db, id)
  {
  }

  lemma ViolationStep(y: Sys, step: Step, id: nat)
    requires Enabled(y, step)
    ensures Violates(Next(y, step).db, id) <==> LeftBehind(y.db, step, id) || (Violates(y.db, id) && !Writes(y, step, id))
  {
    hide Violates, Saved, Decided, HalfDecided, LeftBehind;
    assert step.CrashInDecide? || !LeftBehind(y.db, step, id) by { OnlyCrashes(y.db, step, id); }
    match step
    case Save(r, now) => SavedViolates(y.db, r, now, id);
    case Open(r, now) => SavedViolates(y.db, Attempted(r), now, id);
    case Size(source, now) => SavedViolates(y.db, Measured(y.work.value.record, source), now, id);
    case Await(now) =>
      SavedViolates(y.db, y.work.value.record.(state := AwaitingAck, error := "", retryAt := now + 30.0), now, id);
    case Abandon(error, later, now) =>
      SavedViolates(y.db, y.work.value.record.(state := Retry, error := error, retryAt := later), now, id);
    case Decide(session, decision, reason, now) => DecidedViolates(y.db, session, decision, reason, now, id);
    case GiveUp(error, now) => DecidedViolates(y.db, y.work.value.record.session, Failed, error, now, id);
    case CrashInDecide(_, _, _, _, _) => HalfViolates(y.db, step, id);
    case _ =>
  }

  lemma OnlyCrashes(db: Db, step: Step, id: nat)
    ensures LeftBehind(db, step, id) ==> step.CrashInDecide?
  {
  }

  /** Some crash within the first `n` steps left this record behind, and nothing has written it since. */
  ghost predicate Stranded(steps: seq<Step>, n: nat, id: nat)
    requires n <= |steps|
  {
    exists k :: 0 <= k < n && StrandedAt(steps, k, n, id)
  }

  ghost predicate StrandedAt(steps: seq<Step>, k: nat, n: nat, id: nat)
    requires k < n <= |steps|
  {
    LeftBehind(Run(IDLE, steps[..k]).db, steps[k], id) && forall j | k < j < n :: !Writes(Run(IDLE, steps[..j]), steps[j], id)
  }

  /** After every step of every run a record disobeys the decision of its session if and only if a crash
      inside that decision left it behind and no write has touched it since. */
  lemma {:induction false} ViolatesExactlyWhen(steps: seq<Step>, n: nat, id: nat)
    requires Runs(IDLE, steps) && n <= |steps|
    ensures Violates(Run(IDLE, steps[..n]).db, id) <==> Stranded(steps, n, id)
  {
    hide Enabled, Next, Violates, LeftBehind, Writes;
    if n == 0 {
      assert steps[..0] == [];
      IdleObeys(id);
    } else {
      ViolatesExactlyWhen(steps, n - 1, id);
      RunPrefix(IDLE, steps, n - 1);
      ViolationStep(Run(IDLE, steps[..n - 1]), steps[n - 1], id);
      StrandedStep(steps, n - 1, id);
    }
  }

  lemma IdleObeys(id: nat)
    ensures !Violates(IDLE.db, id)
  {
  }

  lemma StrandedStep(steps: seq<Step>, n: nat, id: nat)
    requires n < |steps|
    ensures var y := Run(IDLE, steps[..n]);
      Stranded(steps, n + 1, id) <==> LeftBehind(y.db, steps[n], id) || (Stranded(steps, n, id) && !Writes(y, steps[n], id))
  {
    hide LeftBehind, Writes, Run;
    var y := Run(IDLE, steps[..n]);
    if Stranded(steps, n, id) && !Writes(y, steps[n], id) {
      var k :| 0 <= k < n && StrandedAt(steps, k, n, id);
      assert StrandedAt(steps, k, n + 1, id);
    }
    if LeftBehind(y.db, steps[n], id) {
      assert StrandedAt(steps, n, n + 1, id);
    }
    if Stranded(steps, n + 1, id) {
      var k :| 0 <= k < n + 1 && StrandedAt(steps, k, n + 1, id);
      if k < n {
        assert StrandedAt(steps, k, n, id);
      }
    }
  }

  /** The records are filed under their own names. */
  lemma {:induction false} Filed(steps: seq<Step>, n: nat)
    requires Runs(IDLE, steps) && n <= |steps|
    ensures forall id | id in Run(IDLE, steps[..n]).db.records :: Run(IDLE, steps[..n]).db.records[id].id == id
  {
    hide Enabled, Next;
    if n == 0 {
      assert steps[..0] == [];
    } else {
      Filed(steps, n - 1);
      RunPrefix(IDLE, steps, n - 1);
      FiledStep(Run(IDLE, steps[..n - 1]), steps[n - 1]);
    }
  }

  lemma FiledStep(y: Sys, step: Step)
    requires forall id | id in y.db.records :: y.db.records[id].id == id
    ensures forall id | id in Next(y, step).db.records :: Next(y, step).db.records[id].id == id
  {
  }

  /** Until the process first dies inside a decision, the database obeys every decision. */
  lemma ObeysUntilCrash(steps: seq<Step>)
    requires Runs(IDLE, steps) && forall k | 0 <= k < |steps| :: !steps[k].CrashInDecide?
    ensures DbInv(Run(IDLE, steps).db)
  {
    hide Enabled, Next, Run, Runs;
    Filed(steps, |steps|);
    assert steps[..|steps|] == steps;
    var db := Run(IDLE, steps).db;
    forall id | id in db.records ensures Obeys(db.delivery, db.records[id]) {
      ViolatesExactlyWhen(steps, |steps|, id);
      assert !Stranded(steps, |steps|, id) by {
        forall k | 0 <= k < |steps| ensures !StrandedAt(steps, k, |steps|, id) { OnlyCrashes(Run(IDLE, steps[..k]).db, steps[k], id); }
      }
    }
  }

  const HELD_VIDEO := NewRecord(0, Video, 7, Some(1), true, 0.0)

  /** Such a crash does happen, and the next write of the record mends it. */
  lemma CrashCanBreak()
    ensures var steps := [Save(HELD_VIDEO, 0.0), CrashInDecide(7, Ready, "", {}, 0.0), Save(HELD_VIDEO, 0.0)];
      && Runs(IDLE, steps) && Violates(Run(IDLE, steps[..2]).db, 0) && !Violates(Run(IDLE, steps).db, 0)
  {
    var r := HELD_VIDEO;
    var steps := [Save(r, 0.0), CrashInDecide(7, Ready, "", {}, 0.0), Save(r, 0.0)];
    var y1 := Next(IDLE, steps[0]);
    var y2 := Next(y1, steps[1]);
    assert y1.db == Db(map[0 := r], map[]);
    assert y2.db.records[0] == r && DecisionOf(y2.db.delivery, 7) == Ready;
    assert steps[1..] == [steps[1], steps[2]] && steps[1..][1..] == [steps[2]] && [steps[2]][1..] == [];
    assert Runs(y2, [steps[2]]) && Runs(y1, steps[1..]);
    assert steps[..2][1..] == [steps[1]] && [steps[1]][1..] == [];
    assert Run(y1, [steps[1]]) == y2;
    SavedViolates(y2.db, r, 0.0, 0);
    assert Run(y1, steps[1..]) == Run(y2, [steps[2]]) == Next(y2, steps[2]);
    hide Next, Enabled, Saved;
  }

  // --------------------------------------------------- nothing of a decided session moves

  predicate Moving(s: State) { s.Queued? || s.Retry? || s.Uploading? }

  lemma NeverEntersStep(y: Sys, step: Step, id: nat)
    requires Enabled(y, step)
    ensures var t := Next(y, step).db;
      id in t.records && Closed(t.delivery, t.records[id]) && Moving(t.records[id].state) ==>
        id in y.db.records && y.db.records[id] == t.records[id]
  {
  }

  /** In every run no step ever puts a record of a decided session among the queued, the retried or the
      uploading: one found there was left there by a crash, untouched. */
  lemma NeverEnters(steps: seq<Step>, k: nat, id: nat)
    requires Runs(IDLE, steps) && k < |steps|
    ensures var y, z := Run(IDLE, steps[..k]).db, Run(IDLE, steps[..k + 1]).db;
      id in z.records && Closed(z.delivery, z.records[id]) && Moving(z.records[id].state) ==>
        id in y.records && y.records[id] == z.records[id] && Stranded(steps, k + 1, id)
  {
    hide Enabled, Next, Run, Closed, Stranded;
    RunPrefix(IDLE, steps, k);
    NeverEntersStep(Run(IDLE, steps[..k]), steps[k], id);
    ViolatesExactlyWhen(steps, k + 1, id);
    ClosedMoving(Run(IDLE, steps[..k + 1]).db, id);
  }

  lemma ClosedMoving(db: Db, id: nat)
    ensures id in db.records && Closed(db.delivery, db.records[id]) && Moving(db.records[id].state) ==> Violates(db, id)
  {
  }

  /** The record the worker is busy with obeys its decision, whatever crashes left elsewhere. */
  ghost predicate WorkInv(y: Sys) {
    y.work.Some? ==>
      var r := y.work.value.record;
      r.id in y.db.records && Alike(y.db, r) && !Violates(y.db, r.id)
  }

  lemma WorkStep(y: Sys, step: Step)
    requires WorkInv(y) && Enabled(y, step)
    ensures WorkInv(Next(y, step))
  {
    var t := Next(y, step);
    if t.work.Some? {
      var id := t.work.value.record.id;
      ViolationStep(y, step, id);
      assert step.CrashInDecide? || !LeftBehind(y.db, step, id) by { OnlyCrashes(y.db, step, id); }
    }
    hide Violates, LeftBehind;
  }

  lemma {:induction false} WorkObeys(steps: seq<Step>, n: nat)
    requires Runs(IDLE, steps) && n <= |steps|
    ensures WorkInv(Run(IDLE, steps[..n]))
  {
    hide Enabled, Next, Alike, Violates;
    if n == 0 {
      assert steps[..0] == [];
    } else {
      WorkObeys(steps, n - 1);
      RunPrefix(IDLE, steps, n - 1);
      WorkStep(Run(IDLE, steps[..n - 1]), steps[n - 1]);
    }
  }

  /** In every run every command of every upload, the publishing one included, is started while its
      session is undecided; this holds even for sessions a crash left half decided. */
  lemma LaunchesUndecided(steps: seq<Step>, k: nat)
    requires Runs(IDLE, steps) && k < |steps| && steps[k].Launch?
    ensures var y := Run(IDLE, steps[..k]);
      y.work.Some? && !Closed(y.db.delivery, y.work.value.record)
  {
    hide Next, Run;
    RunPrefix(IDLE, steps, k);
    WorkObeys(steps, k);
  }

  /** Every published manifest was published at such a moment, with what had been written down of its
      original. */
  lemma {:induction false} SentWasLaunched(steps: seq<Step>, n: nat, i: nat) returns (k: nat)
    requires Runs(IDLE, steps) && n <= |steps| && i < |Run(IDLE, steps[..n]).sent|
    ensures k < n && steps[k] == Launch(Publish)
    ensures var y := Run(IDLE, steps[..k]);
      y.work.Some? && Wanted(y.work.value.record) == Run(IDLE, steps[..n]).sent[i] && !Closed(y.db.delivery, y.work.value.record)
  {
    hide Enabled, Next, Closed;
    assert n > 0 by { assert steps[..0] == []; }
    var y := Run(IDLE, steps[..n - 1]);
    RunPrefix(IDLE, steps, n - 1);
    SentStep(y, steps[n - 1]);
    if i < |y.sent| {
      k := SentWasLaunched(steps, n - 1, i);
    } else {
      k := n - 1;
      LaunchesUndecided(steps, k);
    }
  }

  lemma SentStep(y: Sys, step: Step)
    ensures var t := Next(y, step);
      if step == Launch(Publish) && y.work.Some? then t.sent == y.sent + [Wanted(y.work.value.record)] else t.sent == y.sent
  {
    hide Clamped, Decided, HalfDecided;
  }
}
