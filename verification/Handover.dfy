/** The hand-over across both machines: an aircraft's upload queue and the ground's media store.

    The aircraft keeps pulled receipts in a directory that outlives passes and processes. A pass over the
    waiting records first drops their cached receipts, then copies whatever the ground shows, one receipt
    at a time, and then judges. Other threads write old copies of records, either process may die, and
    the ground goes on ingesting, deleting and restarting meanwhile.
 */
module Handover {
  import opened Options
  import Q = UploadQueue
  import M = MediaStore
  import R = Receipts

  /** Where the worker is in `_read_acks`, with its copies of the records that waited when it began. */
  datatype Pass =
    | NoPass
    | Dropping(waiting: set<Q.Record>, dropped: set<nat>)
    | Pulling(waiting: set<Q.Record>)
    | Judging(waiting: set<Q.Record>)

  /** `copies` are the records that were ever stored, any of which a thread may still hold; `judged` are
      the receipts that acknowledged a record, and `unlinked` the records whose original is gone. */
  datatype Sys = Sys(
    queue: Q.Sys, copies: set<Q.Record>, cache: map<nat, M.Receipt>, pass: Pass, judged: set<M.Receipt>,
    unlinked: set<Q.Record>, ground: M.Store)

  function Start(): Sys { Sys(Q.IDLE, {}, map[], NoPass, {}, {}, M.EMPTY) }

  function ReceiptOf(r: Q.Record): M.Receipt { M.Receipt(r.id, M.Content(r.size, r.digest)) }

  datatype Step =
    | OnQueue(write: Q.Step)                       // saves of records that claim nothing, decisions, uploads, crashes
    | WriteBack(copy: Q.Record, error: string, now: real)
    | StartPass
    | Drop(id: nat)
    | StartPull
    | Fetch(id: nat)
    | EndPull
    | Judge(copy: Q.Record, now: real)
    | EndPass
    | Unlink(copy: Q.Record)
    | MarkDeleted(copy: Q.Record, now: real)
    | OnGround(step: M.Step)

  predicate Claims(s: Q.State) { s.Acknowledged? || s.Retained? || s.CacheDeleted? }

  function Waiting(y: Sys): set<Q.Record> {
    set id | id in y.queue.db.records && y.queue.db.records[id].state.AwaitingAck? :: y.queue.db.records[id]
  }

  predicate Matches(y: Sys, c: Q.Record) { c.kind.Event? || (c.id in y.cache && y.cache[c.id] == ReceiptOf(c)) }

  ghost predicate Enabled(y: Sys, step: Step) {
    match step
    case OnQueue(w) => Q.Enabled(y.queue, w) && (w.Save? ==> !Claims(w.record.state))
    case WriteBack(c, _, _) => c in y.copies && Q.Alike(y.queue.db, c)
    case StartPass => y.pass.NoPass? && Waiting(y) != {}
    case Drop(id) => y.pass.Dropping? && exists c :: c in y.pass.waiting && c.id == id
    case StartPull => y.pass.Dropping? && forall c | c in y.pass.waiting :: c.id in y.pass.dropped
    case Fetch(id) => y.pass.Pulling? && id in y.ground.acks
    case EndPull => y.pass.Pulling?
    case Judge(c, _) => y.pass.Judging? && c in y.pass.waiting && Matches(y, c) && Q.Alike(y.queue.db, c)
    case EndPass => !y.pass.NoPass?
    case Unlink(c) => c in y.copies && (c.state.Acknowledged? || c.state.Retained?)
    case MarkDeleted(c, _) => c in y.unlinked && Q.Alike(y.queue.db, c)
    case OnGround(s) => M.Enabled(y.ground, s)
  }

  /** The queue moved on; whatever it holds now somebody may have read. */
  function Moved(y: Sys, queue: Q.Sys): Sys { y.(queue := queue, copies := y.copies + queue.db.records.Values) }

  function Stored(y: Sys, r: Q.Record, now: real): Sys { Moved(y, Q.Next(y.queue, Q.Save(r, now))) }

  function Acknowledged(c: Q.Record, now: real): Q.Record { c.(state := Q.Acknowledged, ackAt := Some(now), error := "") }

  function Next(y: Sys, step: Step): Sys {
    match step
    case OnQueue(w) => Moved(y, Q.Next(y.queue, w)).(pass := if w.Crash? || w.CrashInDecide? then NoPass else y.pass)
    case WriteBack(c, error, now) => Stored(y, c.(error := error), now)
    case StartPass => y.(pass := Dropping(Waiting(y), {}))
    case Drop(id) =>
      if y.pass.Dropping? then y.(cache := y.cache - {id}, pass := y.pass.(dropped := y.pass.dropped + {id})) else y
    case StartPull => if y.pass.Dropping? then y.(pass := Pulling(y.pass.waiting)) else y
    case Fetch(id) => if id in y.ground.acks then y.(cache := y.cache[id := y.ground.acks[id]]) else y
    case EndPull => if y.pass.Pulling? then y.(pass := Judging(y.pass.waiting)) else y
    case Judge(c, now) =>
      Stored(y, Acknowledged(c, now), now).(judged := if c.kind.Event? then y.judged else y.judged + {ReceiptOf(c)})
    case EndPass => y.(pass := NoPass)
    case Unlink(c) => y.(unlinked := y.unlinked + {c})
    case MarkDeleted(c, now) => Stored(y, c.(state := Q.CacheDeleted, error := ""), now)
    case OnGround(s) => y.(ground := M.Next(y.ground, s))
  }

  ghost predicate Runs(y: Sys, steps: seq<Step>)
    decreases |steps|
  {
    steps != [] ==> Enabled(y, steps[0]) && Runs(Next(y, steps[0]), steps[1..])
  }

  function Run(y: Sys, steps: seq<Step>): Sys
    decreases |steps|
  {
    if steps == [] then y else Run(Next(y, steps[0]), steps[1..])
  }

  /** The system after the first `n` steps. */
  function At(steps: seq<Step>, n: nat): Sys
    requires n <= |steps|
  {
    Run(Start(), steps[..n])
  }

  lemma {:induction false} RunPrefix(y: Sys, steps: seq<Step>, k: nat)
    requires Runs(y, steps) && k < |steps|
    ensures Enabled(Run(y, steps[..k]), steps[k]) && Run(y, steps[..k + 1]) == Next(Run(y, steps[..k]), steps[k])
    decreases k
  {
    hide Enabled, Next;
    if k == 0 {
      assert steps[..1][1..] == [];
    } else {
      RunPrefix(Next(y, steps[0]), steps[1..], k - 1);
      assert steps[1..][..k - 1] == steps[..k][1..] && steps[1..][..k] == steps[..k + 1][1..];
    }
  }

  // ------------------------------------------------------- the ground's receipts

  /** What the ground did in a run. */
  function GroundSteps(steps: seq<Step>): seq<M.Step> {
    if steps == [] then [] else (if steps[0].OnGround? then [steps[0].step] else []) + GroundSteps(steps[1..])
  }

  lemma Elsewhere(y: Sys, step: Step)
    ensures Next(y, step).ground == if step.OnGround? then M.Next(y.ground, step.step) else y.ground
  {
    hide Q.Next, M.Next;
  }

  /** The ground runs as if it were alone. */
  lemma {:induction false} GroundAlone(y: Sys, steps: seq<Step>)
    requires Runs(y, steps)
    ensures M.Runs(y.ground, GroundSteps(steps)) && M.Run(y.ground, GroundSteps(steps)) == Run(y, steps).ground
    decreases |steps|
  {
    hide Next, M.Next, M.Enabled, Q.Enabled;
    if steps != [] {
      Elsewhere(y, steps[0]);
      GroundAlone(Next(y, steps[0]), steps[1..]);
      if steps[0].OnGround? {
        assert GroundSteps(steps)[1..] == GroundSteps(steps[1..]);
      } else {
        assert GroundSteps(steps) == GroundSteps(steps[1..]);
      }
    }
  }

  lemma {:induction false} RunsPrefix(y: Sys, steps: seq<Step>, k: nat)
    requires Runs(y, steps) && k <= |steps|
    ensures Runs(y, steps[..k])
    decreases |steps|
  {
    hide Enabled, Next;
    if k > 0 {
      RunsPrefix(Next(y, steps[0]), steps[1..], k - 1);
      assert steps[..k][1..] == steps[1..][..k - 1];
    }
  }

  /** Every ingestion the ground had completed within the first `k` steps was sound; by
      `Receipts.EveryReceiptIsTrueIff` that is so exactly when all its receipts were true throughout. */
  ghost predicate GroundSound(steps: seq<Step>, k: nat)
    requires k <= |steps|
  {
    R.AllSound(GroundSteps(steps[..k]))
  }

  /** The ground shows this receipt now. */
  predicate Shown(y: Sys, receipt: M.Receipt) { receipt.id in y.ground.acks && y.ground.acks[receipt.id] == receipt }

  /** And it has the original the receipt speaks of. */
  predicate HeldOnGround(y: Sys, receipt: M.Receipt) {
    M.Kept(y.ground, receipt.id).Some? && y.ground.files[M.Kept(y.ground, receipt.id).value] == receipt.content
  }

  lemma GroundOf(steps: seq<Step>, k: nat)
    requires Runs(Start(), steps) && k <= |steps|
    ensures R.Inv(At(steps, k).ground) && (GroundSound(steps, k) ==> R.AckInv(At(steps, k).ground))
  {
    hide R.Inv, R.AckInv, R.AllSound, R.Tracked, M.Runs, M.Run, Runs, Run, GroundSteps, M.Next, M.Enabled;
    RunsPrefix(Start(), steps, k);
    GroundAlone(Start(), steps[..k]);
    var gs := GroundSteps(steps[..k]);
    R.Prefixes(gs, |gs|);
    assert gs[..|gs|] == gs;
    if GroundSound(steps, k) { R.SoundMeansTrue(gs, |gs|); }
  }

  lemma ShownIsHeld(y: Sys, id: nat)
    requires R.Inv(y.ground) && id in y.ground.acks
    ensures y.ground.acks[id].id == id && Shown(y, y.ground.acks[id])
    ensures R.AckInv(y.ground) ==> HeldOnGround(y, y.ground.acks[id])
  {
    if R.AckInv(y.ground) { assert R.Backed(y.ground, id); }
    hide M.PathInv, R.StageInv;
  }

  // ------------------------------------------------------------- the licences

  /** The session's video delivery is decided ready, or its own receipt acknowledged the record. */
  predicate Licensed(y: Sys, r: Q.Record) {
    r.kind.Event? || (r.kind.Video? && Q.DecisionOf(y.queue.db.delivery, r.session).Ready?) || ReceiptOf(r) in y.judged
  }

  /** The worker's own copy is not acknowledged, and retained only by a decision. */
  predicate WorkClaims(y: Sys) {
    y.queue.work.Some? ==>
      var r := y.queue.work.value.record;
      && !r.state.Acknowledged? && !r.state.CacheDeleted?
      && (r.state.Retained? ==> r.kind.Video? && Q.DecisionOf(y.queue.db.delivery, r.session).Ready?)
  }

  ghost predicate Inv(y: Sys) {
    && (forall c | c in y.copies && (c.state.Acknowledged? || c.state.Retained?) :: Licensed(y, c))
    && (forall c | c in y.unlinked :: Licensed(y, c))
    && (forall id | id in y.queue.db.records :: y.queue.db.records[id] in y.copies)
  }

  /** Licences last: ready decisions are final and judgements are remembered. */
  ghost predicate Lasting(y: Sys, z: Sys) { forall r: Q.Record | Licensed(y, r) :: Licensed(z, r) }

  /** Every record in the database was there before, or claims nothing it has no licence for. */
  ghost predicate Honest(y: Sys, z: Sys) {
    forall id | id in z.queue.db.records && z.queue.db.records[id] !in y.copies :: 
      var r := z.queue.db.records[id]; r.state.Acknowledged? || r.state.Retained? ==> Licensed(z, r)
  }

  lemma MovedKeeps(y: Sys, z: Sys)
    requires Inv(y) && Lasting(y, z) && Honest(y, z)
    requires z.copies == y.copies + z.queue.db.records.Values && z.unlinked == y.unlinked
    ensures Inv(z)
  {
    hide Licensed;
  }

  /** What `_save` stores claims nothing but what was claimed before it, or what the decision gives. */
  lemma ClampedLicence(y: Sys, r: Q.Record, now: real)
    requires r.state.Acknowledged? || r.state.Retained? ==> Licensed(y, r)
    ensures var c := Q.Clamped(y.queue.db.delivery, r, now); c.state.Acknowledged? || c.state.Retained? ==> Licensed(y, c)
  {
  }

  lemma StoredKeeps(y: Sys, z: Sys, r: Q.Record, now: real)
    requires Inv(y) && z.queue.db == Q.Saved(y.queue.db, r, now) && z.copies == y.copies + z.queue.db.records.Values
    requires z.unlinked == y.unlinked && y.judged <= z.judged
    requires r.state.Acknowledged? || r.state.Retained? ==> Licensed(z, r)
    ensures Inv(z)
  {
    ClampedLicence(z, r, now);
    assert Lasting(y, z);
    forall id | id in z.queue.db.records && z.queue.db.records[id] !in y.copies
      ensures z.queue.db.records[id] == Q.Clamped(y.queue.db.delivery, r, now)
    {
      assert id == r.id;
    }
    hide Q.Clamped, Licensed;
    MovedKeeps(y, z);
  }

  lemma DecidedKeeps(y: Sys, z: Sys, session: nat, decision: Q.Decision, reason: string, rewritten: set<nat>, now: real)
    requires Inv(y) && z.copies == y.copies + z.queue.db.records.Values && z.unlinked == y.unlinked && z.judged == y.judged
    requires z.queue.db == Q.Decided(y.queue.db, session, decision, reason, now)
      || z.queue.db == Q.HalfDecided(y.queue.db, session, decision, reason, rewritten, now)
    ensures Inv(z)
  {
    hide Q.Clamped, Licensed, Inv;
    DecidedLasts(y, z, session, decision, reason, rewritten, now);
    forall id | id in z.queue.db.records && z.queue.db.records[id] !in y.copies
      ensures var r := z.queue.db.records[id]; r.state.Acknowledged? || r.state.Retained? ==> Licensed(z, r)
    {
      RedecidedLicence(y, z, id, session, decision, reason, rewritten, now);
    }
    MovedKeeps(y, z);
  }

  lemma DecidedLasts(y: Sys, z: Sys, session: nat, decision: Q.Decision, reason: string, rewritten: set<nat>, now: real)
    requires z.judged == y.judged
    requires z.queue.db == Q.Decided(y.queue.db, session, decision, reason, now)
      || z.queue.db == Q.HalfDecided(y.queue.db, session, decision, reason, rewritten, now)
    ensures Lasting(y, z)
  {
    hide Q.Clamped, Q.Redecided;
  }

  lemma RedecidedLicence(
    y: Sys, z: Sys, id: nat, session: nat, decision: Q.Decision, reason: string, rewritten: set<nat>, now: real)
    requires Inv(y) && Lasting(y, z) && id in z.queue.db.records && z.queue.db.records[id] !in y.copies
    requires z.queue.db == Q.Decided(y.queue.db, session, decision, reason, now)
      || z.queue.db == Q.HalfDecided(y.queue.db, session, decision, reason, rewritten, now)
    ensures var r := z.queue.db.records[id]; r.state.Acknowledged? || r.state.Retained? ==> Licensed(z, r)
  {
    var r := y.queue.db.records[id];
    assert r in y.copies;
    var w := if decision.Fallback? && r.kind.Video? && r.state.Held? then r.(state := Q.Queued, retryAt := 0.0) else r;
    assert z.queue.db.records[id] == Q.Clamped(z.queue.db.delivery, w, now);
    if w.state.Acknowledged? || w.state.Retained? {
      assert Licensed(y, r);
    }
    hide Q.Clamped, Licensed;
    ClampedLicence(z, w, now);
  }

  lemma QueueKeeps(y: Sys, w: Q.Step)
    requires Inv(y) && WorkClaims(y) && Enabled(y, OnQueue(w))
    ensures Inv(Next(y, OnQueue(w)))
  {
    var z := Next(y, OnQueue(w));
    if w.Size? { SizedLicence(y, z, w); }
    hide Q.Saved, Q.Decided, Q.HalfDecided, Inv, Licensed, Q.Clamped;
    match w
    case Save(r, now) => StoredKeeps(y, z, r, now);
    case Decide(session, decision, reason, now) => DecidedKeeps(y, z, session, decision, reason, {}, now);
    case CrashInDecide(session, decision, reason, rewritten, now) => DecidedKeeps(y, z, session, decision, reason, rewritten, now);
    case Open(r, now) => StoredKeeps(y, z, Q.Attempted(r), now);
    case Size(source, now) => StoredKeeps(y, z, Q.Measured(y.queue.work.value.record, source), now);
    case Await(now) => StoredKeeps(y, z, y.queue.work.value.record.(state := Q.AwaitingAck, error := "", retryAt := now + 30.0), now);
    case Abandon(error, later, now) =>
      StoredKeeps(y, z, y.queue.work.value.record.(state := Q.Retry, error := error, retryAt := later), now);
    case GiveUp(error, now) => DecidedKeeps(y, z, y.queue.work.value.record.session, Q.Failed, error, {}, now);
    case _ => SameDb(y, z);
  }

  lemma SizedLicence(y: Sys, z: Sys, w: Q.Step)
    requires WorkClaims(y) && z == Next(y, OnQueue(w)) && Q.Enabled(y.queue, w) && w.Size?
    ensures w.source.Present? && y.queue.work.Some?
    ensures var r := Q.Measured(y.queue.work.value.record, w.source);
      r.state.Acknowledged? || r.state.Retained? ==> Licensed(z, r)
  {
  }

  lemma WorkStep(y: Sys, step: Step)
    requires WorkClaims(y) && Enabled(y, step)
    ensures WorkClaims(Next(y, step))
  {
  }

  lemma SameDb(y: Sys, z: Sys)
    requires Inv(y) && z.queue.db == y.queue.db && z.copies == y.copies + z.queue.db.records.Values
    requires z.unlinked == y.unlinked && z.judged == y.judged
    ensures Inv(z)
  {
  }

  lemma StepKeepsInv(y: Sys, step: Step)
    requires Inv(y) && WorkClaims(y) && Enabled(y, step)
    ensures Inv(Next(y, step)) && WorkClaims(Next(y, step))
  {
    WorkStep(y, step);
    hide WorkClaims, Q.Saved, Matches, M.Enabled, M.Next;
    var z := Next(y, step);
    match step
    case OnQueue(w) => QueueKeeps(y, w);
    case WriteBack(c, error, now) => CopyLicence(y, c.(error := error)); StoredKeeps(y, z, c.(error := error), now);
    case Judge(c, now) => StoredKeeps(y, z, Acknowledged(c, now), now);
    case Unlink(c) => UnlinkKeeps(y, c);
    case MarkDeleted(c, now) => StoredKeeps(y, z, c.(state := Q.CacheDeleted, error := ""), now);
    case _ => LicencesStay(y, z);
    hide Inv, Q.Next;
  }

  /** A copy written back with another error keeps its licence. */
  lemma CopyLicence(y: Sys, c: Q.Record)
    requires Inv(y) && exists e :: c.(error := e) in y.copies
    ensures c.state.Acknowledged? || c.state.Retained? ==> forall z | Lasting(y, z) :: Licensed(z, c)
  {
    var e :| c.(error := e) in y.copies;
    var d := c.(error := e);
    if c.state.Acknowledged? || c.state.Retained? {
      assert Licensed(y, d) && Licensed(y, c);
    }
  }

  lemma UnlinkKeeps(y: Sys, c: Q.Record)
    requires Inv(y) && c in y.copies && (c.state.Acknowledged? || c.state.Retained?)
    ensures Inv(y.(unlinked := y.unlinked + {c}))
  {
    assert Licensed(y, c);
    hide Licensed;
    var z := y.(unlinked := y.unlinked + {c});
    assert forall r :: Licensed(z, r) == Licensed(y, r) by { SameLicences(y, z); }
  }

  lemma SameLicences(y: Sys, z: Sys)
    requires z.queue.db == y.queue.db && z.judged == y.judged
    ensures forall r :: Licensed(z, r) == Licensed(y, r)
  {
  }

  lemma LicencesStay(y: Sys, z: Sys)
    requires Inv(y) && z == y.(cache := z.cache, pass := z.pass, ground := z.ground)
    ensures Inv(z)
  {
    SameLicences(y, z);
    hide Licensed;
  }

  lemma StartInv()
    ensures Inv(Start()) && WorkClaims(Start())
  {
  }

  // ------------------------------------------------------------------- passes

  /** The pass under way after `n` steps began at step `s` with the records that then waited. */
  ghost predicate Begun(steps: seq<Step>, s: nat, n: nat, waiting: set<Q.Record>) {
    && s < n <= |steps| && steps[s] == StartPass && Waiting(At(steps, s)) == waiting
    && forall j | s < j < n :: !steps[j].StartPass?
  }

  /** This receipt was copied at step `k`, as the ground showed it then. */
  ghost predicate FetchedAt(steps: seq<Step>, k: nat, receipt: M.Receipt) {
    k < |steps| && steps[k] == Fetch(receipt.id) && Shown(At(steps, k), receipt)
  }

  ghost predicate FetchedSince(steps: seq<Step>, s: nat, n: nat, receipt: M.Receipt) {
    exists k :: s < k < n && FetchedAt(steps, k, receipt)
  }

  /** What the cache says about the waiting records was copied in this very pass. */
  ghost predicate FreshCache(steps: seq<Step>, s: nat, n: nat)
    requires n <= |steps|
  {
    var y := At(steps, n);
    match y.pass
    case NoPass => true
    case Dropping(_, dropped) => forall id | id in dropped :: id !in y.cache
    case Pulling(waiting) => forall c | c in waiting && c.id in y.cache :: FetchedSince(steps, s, n, y.cache[c.id])
    case Judging(waiting) => forall c | c in waiting && c.id in y.cache :: FetchedSince(steps, s, n, y.cache[c.id])
  }

  ghost predicate PassInv(steps: seq<Step>, s: nat, n: nat)
    requires n <= |steps|
  {
    var y := At(steps, n);
    !y.pass.NoPass? ==> Begun(steps, s, n, y.pass.waiting) && FreshCache(steps, s, n)
  }

  lemma FetchedLater(steps: seq<Step>, s: nat, n: nat, receipt: M.Receipt)
    requires FetchedSince(steps, s, n, receipt)
    ensures FetchedSince(steps, s, n + 1, receipt)
  {
    hide FetchedAt;
  }

  lemma PassStep(steps: seq<Step>, s: nat, n: nat) returns (t: nat)
    requires n < |steps| && Runs(Start(), steps) && PassInv(steps, s, n) && R.Inv(At(steps, n).ground)
    ensures PassInv(steps, t, n + 1)
  {
    var y, z, step := At(steps, n), At(steps, n + 1), steps[n];
    RunPrefix(Start(), steps, n);
    t := if step.StartPass? then n else s;
    if step.Fetch? {
      ShownIsHeld(y, step.id);
      assert FetchedAt(steps, n, y.ground.acks[step.id]);
    }
    hide R.Inv, R.AckInv, Shown, HeldOnGround, Q.Next, M.Next, Q.Enabled, M.Enabled, Matches, Run, FetchedAt;
    if z.pass != NoPass && !step.StartPass? {
      PassMoves(y, step);
      BegunLater(steps, s, n);
      FreshStep(steps, s, n);
    }
  }

  lemma BegunLater(steps: seq<Step>, s: nat, n: nat)
    requires n < |steps| && !steps[n].StartPass?
    ensures forall w | Begun(steps, s, n, w) :: Begun(steps, s, n + 1, w)
  {
  }

  /** A pass goes on with the records it began with. */
  lemma PassMoves(y: Sys, step: Step)
    requires Enabled(y, step) && !step.StartPass? && Next(y, step).pass != NoPass
    ensures y.pass != NoPass && Next(y, step).pass.waiting == y.pass.waiting
  {
    hide Q.Next, M.Next, Q.Enabled, M.Enabled, Matches, Waiting;
  }

  lemma FreshStep(steps: seq<Step>, s: nat, n: nat)
    requires n < |steps| && Enabled(At(steps, n), steps[n]) && At(steps, n + 1) == Next(At(steps, n), steps[n])
    requires !steps[n].StartPass? && At(steps, n).pass != NoPass && At(steps, n + 1).pass != NoPass
    requires s < n && FreshCache(steps, s, n)
    requires steps[n].Fetch? ==> FetchedAt(steps, n, At(steps, n).ground.acks[steps[n].id])
    ensures FreshCache(steps, s, n + 1)
  {
    var y, z, step := At(steps, n), At(steps, n + 1), steps[n];
    if z.pass.Pulling? || z.pass.Judging? {
      forall c | c in z.pass.waiting && c.id in z.cache ensures FetchedSince(steps, s, n + 1, z.cache[c.id]) {
        if step == Fetch(c.id) {
          assert FetchedAt(steps, n, z.cache[c.id]);
        } else {
          StaysCached(y, step, c.id);
          FetchedLater(steps, s, n, z.cache[c.id]);
        }
      }
    }
    hide Q.Next, M.Next, Q.Enabled, M.Enabled, Matches, FetchedAt, Run, Waiting;
  }

  lemma StaysCached(y: Sys, step: Step, id: nat)
    requires Enabled(y, step) && step != Fetch(id) && id in Next(y, step).cache
    ensures id in y.cache && y.cache[id] == Next(y, step).cache[id]
  {
    hide Q.Next, M.Next, Q.Enabled, M.Enabled, Matches;
  }

  lemma {:induction false} Prefixes(steps: seq<Step>, n: nat) returns (s: nat)
    requires Runs(Start(), steps) && n <= |steps|
    ensures Inv(At(steps, n)) && WorkClaims(At(steps, n)) && PassInv(steps, s, n)
  {
    hide Inv, WorkClaims, R.Inv, R.AckInv, Enabled, Next, PassInv, GroundSound;
    if n == 0 {
      assert steps[..0] == [];
      StartInv();
      s := 0;
      NoPassYet(steps);
    } else {
      var r := Prefixes(steps, n - 1);
      RunPrefix(Start(), steps, n - 1);
      StepKeepsInv(At(steps, n - 1), steps[n - 1]);
      GroundOf(steps, n - 1);
      s := PassStep(steps, r, n - 1);
    }
  }

  lemma NoPassYet(steps: seq<Step>)
    ensures PassInv(steps, 0, 0)
  {
    assert steps[..0] == [];
  }

  // ---------------------------------------------------------------- the promise

  /** A pass that began at step `s`, when a record asking for this receipt was waiting, copied the receipt at
      step `k` as the ground showed it, and acknowledged the record at step `j`. If the ground had ingested
      soundly until then, it held the verified original at step `k`. */
  ghost predicate Delivered(steps: seq<Step>, s: nat, k: nat, j: nat, receipt: M.Receipt) {
    && s < k < j < |steps| && FetchedAt(steps, k, receipt)
    && (GroundSound(steps, k) ==> HeldOnGround(At(steps, k), receipt))
    && steps[j].Judge? && ReceiptOf(steps[j].copy) == receipt
    && Begun(steps, s, j, Waiting(At(steps, s))) && steps[j].copy in Waiting(At(steps, s))
  }

  lemma JudgedNow(steps: seq<Step>, j: nat) returns (s: nat, k: nat)
    requires j < |steps| && Runs(Start(), steps) && steps[j].Judge? && !steps[j].copy.kind.Event?
    ensures Delivered(steps, s, k, j, ReceiptOf(steps[j].copy))
  {
    s := Prefixes(steps, j);
    RunPrefix(Start(), steps, j);
    var y, c := At(steps, j), steps[j].copy;
    hide Inv, WorkClaims, R.Inv, R.AckInv, GroundSound, Shown, HeldOnGround, Q.Alike, Run;
    assert FetchedSince(steps, s, j, y.cache[c.id]);
    k :| s < k < j && FetchedAt(steps, k, y.cache[c.id]);
    GroundOf(steps, k);
    HeldThen(At(steps, k), y.cache[c.id]);
  }

  lemma HeldThen(y: Sys, receipt: M.Receipt)
    requires R.Inv(y.ground) && Shown(y, receipt)
    ensures R.AckInv(y.ground) ==> HeldOnGround(y, receipt)
  {
    ShownIsHeld(y, receipt.id);
    hide R.Inv, R.AckInv;
  }

  lemma {:induction false} JudgedWasDelivered(steps: seq<Step>, n: nat, receipt: M.Receipt) returns (s: nat, k: nat, j: nat)
    requires Runs(Start(), steps) && n <= |steps| && receipt in At(steps, n).judged
    ensures Delivered(steps, s, k, j, receipt)
  {
    hide Enabled, Next, Delivered;
    assert n > 0 by { assert steps[..0] == []; }
    RunPrefix(Start(), steps, n - 1);
    var y := At(steps, n - 1);
    if receipt in y.judged {
      s, k, j := JudgedWasDelivered(steps, n - 1, receipt);
    } else {
      JudgedStep(y, steps[n - 1], receipt);
      j := n - 1;
      s, k := JudgedNow(steps, j);
    }
  }

  lemma JudgedStep(y: Sys, step: Step, receipt: M.Receipt)
    requires receipt in Next(y, step).judged && receipt !in y.judged
    ensures step.Judge? && !step.copy.kind.Event? && ReceiptOf(step.copy) == receipt
  {
    hide Q.Next, M.Next;
  }

  /** Whatever happens on either machine: an original the aircraft unlinked belongs to a session whose
      video delivery is decided ready, or it was acknowledged by a pass that itself, after the record had
      begun to wait for it, copied its receipt from the ground. The ground then held the verified original
      if its ingestions up to that moment had been sound. */
  lemma UnlinkedWasDelivered(steps: seq<Step>)
    requires Runs(Start(), steps)
    ensures forall c | c in Run(Start(), steps).unlinked && !c.kind.Event? ::
      (c.kind.Video? && Q.DecisionOf(Run(Start(), steps).queue.db.delivery, c.session).Ready?)
      || exists s, k, j :: Delivered(steps, s, k, j, ReceiptOf(c))
  {
    var n := |steps|;
    assert steps[..n] == steps;
    var _ := Prefixes(steps, n);
    var y := At(steps, n);
    forall c | c in y.unlinked && !c.kind.Event?
      ensures (c.kind.Video? && Q.DecisionOf(y.queue.db.delivery, c.session).Ready?)
        || exists s, k, j :: Delivered(steps, s, k, j, ReceiptOf(c))
    {
      assert Licensed(y, c);
      if ReceiptOf(c) in y.judged {
        var s, k, j := JudgedWasDelivered(steps, n, ReceiptOf(c));
      }
    }
    hide Inv, Delivered, Run, Runs;
  }

  // ------------------------------------------------ an original that is nowhere

  ghost predicate Reaches(y: Sys) { exists steps :: Runs(Start(), steps) && Run(Start(), steps) == y }

  lemma {:induction false} RunsAppend(y: Sys, steps: seq<Step>, step: Step)
    requires Runs(y, steps) && Enabled(Run(y, steps), step)
    ensures Runs(y, steps + [step]) && Run(y, steps + [step]) == Next(Run(y, steps), step)
    decreases |steps|
  {
    hide Enabled, Next;
    if steps == [] {
      assert (steps + [step])[1..] == [];
    } else {
      assert (steps + [step])[1..] == steps[1..] + [step];
      RunsAppend(Next(y, steps[0]), steps[1..], step);
    }
  }

  lemma Reach(y: Sys, step: Step)
    requires Reaches(y) && Enabled(y, step)
    ensures Reaches(Next(y, step))
  {
    hide Enabled, Next, Runs, Run;
    var steps :| Runs(Start(), steps) && Run(Start(), steps) == y;
    RunsAppend(Start(), steps, step);
  }

  lemma StartReached()
    ensures Reaches(Start())
  {
    assert Runs(Start(), []) && Run(Start(), []) == Start();
  }

  /** The ground can do whatever it could do alone. */
  lemma {:induction false} GroundActs(y: Sys, steps: seq<M.Step>)
    requires Reaches(y) && M.Runs(y.ground, steps)
    ensures Reaches(y.(ground := M.Run(y.ground, steps)))
    decreases |steps|
  {
    hide Reaches, M.Enabled, M.Next;
    if steps != [] {
      Reach(y, OnGround(steps[0]));
      GroundActs(Next(y, OnGround(steps[0])), steps[1..]);
      assert Next(y, OnGround(steps[0])).(ground := M.Run(y.ground, steps)) == y.(ground := M.Run(y.ground, steps));
    }
  }

  const QUEUED := Q.NewRecord(3, Q.Video, 7, Some(1), false, 0.0)
  const OPENED := QUEUED.(state := Q.Uploading, attempts := 1)
  const ORIGINAL := Q.Present(1, 0, 3)
  const SIZED := OPENED.(size := 1, modified := 0, digest := 3)
  const AWAITING := SIZED.(state := Q.AwaitingAck, retryAt := 30.0)
  const ACKNOWLEDGED := AWAITING.(state := Q.Acknowledged, ackAt := Some(0.0))

  /** The queue's database holds just this record. */
  predicate Holds(y: Sys, r: Q.Record) { y.queue.db == Q.Db(map[3 := r], map[]) }

  /** A step of the worker, or a first save, in such a queue. */
  lemma Works(y: Sys, w: Q.Step)
    requires Reaches(y) && Q.Enabled(y.queue, w) && (w.Save? ==> !Claims(w.record.state)) && !w.Crash? && !w.CrashInDecide?
    ensures var z := Moved(y, Q.Next(y.queue, w)); Reaches(z) && z.pass == y.pass && z.cache == y.cache && z.ground == y.ground
  {
    hide Reaches, Q.Enabled, Q.Next;
    Reach(y, OnQueue(w));
  }

  /** A video is uploaded and waits for its receipt. */
  lemma Uploaded() returns (y: Sys)
    ensures Reaches(y) && Holds(y, AWAITING) && y.pass == NoPass && y.cache == map[] && y.ground == M.EMPTY
  {
    hide Reaches;
    StartReached();
    var y0 := Start();
    Works(y0, Q.Save(QUEUED, 0.0));
    var y1 := Moved(y0, Q.Next(y0.queue, Q.Save(QUEUED, 0.0)));
    assert Holds(y1, QUEUED);
    Works(y1, Q.Open(QUEUED, 0.0));
    var y2 := Moved(y1, Q.Next(y1.queue, Q.Open(QUEUED, 0.0)));
    assert y2.queue.db.records == map[3 := OPENED] && y2.queue.work == Some(Q.Work(OPENED, false, false));
    y := Published(y2);
  }

  lemma Published(y: Sys) returns (z: Sys)
    requires Reaches(y) && Holds(y, OPENED) && y.queue.work == Some(Q.Work(OPENED, false, false))
    ensures Reaches(z) && Holds(z, AWAITING) && z.pass == y.pass && z.cache == y.cache && z.ground == y.ground
  {
    hide Reaches;
    Works(y, Q.Size(ORIGINAL, 0.0));
    var y1 := Moved(y, Q.Next(y.queue, Q.Size(ORIGINAL, 0.0)));
    assert y1.queue.db.records == map[3 := SIZED] && y1.queue.work == Some(Q.Work(SIZED, true, false));
    z := Awaited(y1);
  }

  lemma Awaited(y: Sys) returns (z: Sys)
    requires Reaches(y) && Holds(y, SIZED) && y.queue.work == Some(Q.Work(SIZED, true, false))
    ensures Reaches(z) && Holds(z, AWAITING) && z.pass == y.pass && z.cache == y.cache && z.ground == y.ground
  {
    hide Reaches;
    Works(y, Q.Launch(Q.Publish));
    var y1 := Moved(y, Q.Next(y.queue, Q.Launch(Q.Publish)));
    Works(y1, Q.Await(0.0));
    z := Moved(y1, Q.Next(y1.queue, Q.Await(0.0)));
    assert z.queue.db.records == map[3 := AWAITING];
  }

  lemma OneWaits(y: Sys)
    requires Holds(y, AWAITING)
    ensures Waiting(y) == {AWAITING}
  {
    assert y.queue.db.records[3] == AWAITING;
  }

  /** A pass begins, drops what is cached for the record and begins to copy. */
  lemma Cleared(y: Sys) returns (z: Sys)
    requires Reaches(y) && Holds(y, AWAITING) && y.pass == NoPass && y.cache == map[]
    ensures Reaches(z) && z == y.(pass := Pulling({AWAITING}))
  {
    hide Reaches, Waiting;
    OneWaits(y);
    Reach(y, StartPass);
    var y1 := y.(pass := Dropping({AWAITING}, {}));
    assert y1.cache - {3} == y1.cache && {} + {3} == {3};
    Reach(y1, Drop(3));
    var y2 := y1.(pass := Dropping({AWAITING}, {3}));
    Reach(y2, StartPull);
    z := y2.(pass := Pulling({AWAITING}));
  }

  /** The pass acknowledges the waiting record by the receipt the ground shows. */
  lemma Passed(y: Sys) returns (z: Sys)
    requires Reaches(y) && Holds(y, AWAITING) && y.pass == Pulling({AWAITING})
    requires 3 in y.ground.acks && y.ground.acks[3] == ReceiptOf(AWAITING)
    ensures Reaches(z) && Holds(z, ACKNOWLEDGED) && z.ground == y.ground && ACKNOWLEDGED in z.copies
  {
    hide Reaches;
    Reach(y, Fetch(3));
    var y1 := y.(cache := y.cache[3 := ReceiptOf(AWAITING)]);
    Reach(y1, EndPull);
    var y2 := y1.(pass := Judging({AWAITING}));
    Reach(y2, Judge(AWAITING, 0.0));
    z := Next(y2, Judge(AWAITING, 0.0));
    assert z.queue.db.records == map[3 := ACKNOWLEDGED];
    assert z.queue.db.records[3] == ACKNOWLEDGED;
  }

  /** A run in which the aircraft unlinks an original of an undecided session, acknowledged by a receipt it
      had just copied, although the ground does not hold that original: the receipt is the untrue one of
      `Receipts.ReceiptCanLie`. */
  lemma OriginalCanBeLost() returns (steps: seq<Step>, c: Q.Record)
    ensures Runs(Start(), steps) && c in Run(Start(), steps).unlinked && c.kind.Video? && c.path.Some?
    ensures var y := Run(Start(), steps);
      Q.DecisionOf(y.queue.db.delivery, c.session) == Q.Waiting && Shown(y, ReceiptOf(c)) && !HeldOnGround(y, ReceiptOf(c))
  {
    hide Reaches, M.Runs, M.Run, R.Reachable;
    var y0 := Uploaded();
    var ground := R.ReceiptCanLie();
    var gs := StepsTo(ground);
    GroundActs(y0, gs);
    var y1 := y0.(ground := ground);
    var pulling := Cleared(y1);
    var y2 := Passed(pulling);
    Reach(y2, Unlink(ACKNOWLEDGED));
    c := ACKNOWLEDGED;
    NotBacked(ground);
    steps := RunTo(Next(y2, Unlink(ACKNOWLEDGED)));
  }

  lemma StepsTo(s: M.Store) returns (steps: seq<M.Step>)
    requires R.Reachable(s)
    ensures M.Runs(M.EMPTY, steps) && M.Run(M.EMPTY, steps) == s
  {
    steps :| M.Runs(M.EMPTY, steps) && M.Run(M.EMPTY, steps) == s;
  }

  lemma RunTo(y: Sys) returns (steps: seq<Step>)
    requires Reaches(y)
    ensures Runs(Start(), steps) && Run(Start(), steps) == y
  {
    steps :| Runs(Start(), steps) && Run(Start(), steps) == y;
  }

  lemma NotBacked(s: M.Store)
    requires 3 in s.acks && s.acks[3] == M.Receipt(3, M.Content(1, 3)) && !R.Backed(s, 3)
    ensures !(M.Kept(s, 3).Some? && s.files[M.Kept(s, 3).value] == M.Content(1, 3))
  {
  }
}
