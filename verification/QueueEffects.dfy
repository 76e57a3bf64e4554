/** What the upload queue does to a record, said over its fields before and after, and the way of a video
    that the ground asks for.
 */
module QueueEffects {
  import opened Options
  import opened UploadQueue
  import opened QueueRuns

  /** The decision a session is under; a session without one waits. */
  predicate Under(delivery: map<nat, Verdict>, session: nat, d: Decision) {
    if session in delivery then delivery[session].decision == d else d == Waiting
  }

  predicate Undecided(delivery: map<nat, Verdict>, session: nat) {
    session in delivery ==> delivery[session].decision == Waiting || delivery[session].decision == Fallback
  }

  /** Everything but the state and what goes with it. */
  predicate SameMedia(r: Record, q: Record) {
    q.id == r.id && q.session == r.session && q.kind == r.kind && q.path == r.path && q.created == r.created
    && q.attempts == r.attempts && q.size == r.size && q.digest == r.digest && q.modified == r.modified
  }

  /** The state a failed session forces on a record, with the reason given. */
  predicate Halted(r: Record, q: Record, reason: string) {
    SameMedia(r, q) && q.state == NeedsAttention && q.error == reason && q.retryAt == 0.0 && q.ackAt == r.ackAt
  }

  /** The state a session whose video was delivered from the ground's own recording forces on a video. */
  predicate Spared(r: Record, q: Record, now: real) {
    SameMedia(r, q) && q.state == Retained && q.error == "" && q.retryAt == 0.0
    && q.ackAt == if r.ackAt.Some? then r.ackAt else Some(now)
  }

  /** What is stored when `r` is written: the record itself, unless its session is decided and it is neither
      an event nor deleted already. */
  lemma WriteStores(db: Db, r: Record, now: real)
    ensures var t := Saved(db, r, now);
      && t.delivery == db.delivery && t.records.Keys == db.records.Keys + {r.id}
      && (forall id | id in db.records && id != r.id :: t.records[id] == db.records[id])
      && var q := t.records[r.id];
         if r.kind == Event || r.state == CacheDeleted then q == r
         else if Under(db.delivery, r.session, Failed) then Halted(r, q, db.delivery[r.session].reason)
         else if Under(db.delivery, r.session, Ready) && r.kind == Video then Spared(r, q, now)
         else q == r
  {
  }

  /** A decision reaches exactly the media of its session: asking for the original queues every video that
      is held, a failure halts everything not yet deleted, a delivery spares every video not yet deleted,
      and waiting changes nothing. A decided session is never decided again. */
  lemma DecisionTakes(db: Db, session: nat, decision: Decision, reason: string, now: real)
    ensures var t := Decided(db, session, decision, reason, now);
      && t.records.Keys == db.records.Keys
      && (!Undecided(db.delivery, session) ==> t == db)
      && (Undecided(db.delivery, session) ==>
            && t.delivery == db.delivery[session := Verdict(decision, reason)]
            && forall id | id in db.records ::
                 var r, q := db.records[id], t.records[id];
                 if r.session != session || r.kind == Event then q == r
                 else match decision
                      case Waiting => q == r
                      case Fallback =>
                        if r.kind == Video && r.state == Held
                        then SameMedia(r, q) && q.state == Queued && q.retryAt == 0.0 && q.error == r.error && q.ackAt == r.ackAt
                        else q == r
                      case Failed => if r.state == CacheDeleted then q == r else Halted(r, q, reason)
                      case Ready => if r.kind == Image || r.state == CacheDeleted then q == r else Spared(r, q, now))
  {
  }

  /** The sections of one upload while its session is undecided: what each stores, and what the worker's
      copy becomes. */
  lemma SectionsStore(y: Sys, r: Record, source: Source, now: real)
    requires r.kind != Event && Undecided(y.db.delivery, r.session)
    ensures var z := Next(y, Step.Open(r, now));
      var q := z.db.records[r.id];
      && q == r.(state := Uploading, attempts := r.attempts + 1, error := "")
      && z.work == Some(Work(q, false, false)) && z.sent == y.sent
    ensures y.work == Some(Work(r, false, false)) ==>
      var fault := Fault(r, source);
      && (fault == None <==>
            r.path.Some? && source.Present? && (r.digest == 0 || (source.size == r.size && source.modified == r.modified)))
      && (fault.Some? ==> fault.value.Attention?)
      && (fault == None ==>
            var z := Next(y, Size(source, now));
            var q := z.db.records[r.id];
            && q == r.(size := source.size, modified := source.modified, digest := if r.digest == 0 then source.digest else r.digest)
            && z.work == Some(Work(q, true, false)) && z.sent == y.sent)
    ensures y.work == Some(Work(r, true, true)) ==>
      var z := Next(y, Await(now));
      z.work == None && z.db.records[r.id] == r.(state := AwaitingAck, error := "", retryAt := now + 30.0) && z.sent == y.sent
  {
  }

  /** A command may start unless the stored record was stopped; publishing asks for a receipt of what was
      measured. */
  lemma CommandStarts(y: Sys, r: Record, c: Command)
    requires r.id in y.db.records && r.kind != Event && y.work == Some(Work(r, true, false))
    ensures Enabled(y, Launch(c)) <==>
      var s := y.db.records[r.id].state; s != NeedsAttention && s != Retained && s != CacheDeleted
    ensures Next(y, Launch(c)) ==
      if c == Publish then y.(work := Some(Work(r, true, true)), sent := y.sent + [Receipt(r.id, r.size, r.digest)]) else y
  {
  }

  /** The worker takes up one stored record at a time, measures it once, copies and announces nothing before that,
      starts no command once it has published, and waits for a receipt only then; events have nothing to measure. */
  lemma SectionsInOrder(y: Sys, r: Record, source: Source, c: Command, error: string, now: real)
    ensures Enabled(y, Step.Open(r, now)) <==>
      y.work == None && r.id in y.db.records && y.db.records[r.id].session == r.session && y.db.records[r.id].kind == r.kind
    ensures y.work == None ==>
      !Enabled(y, Size(source, now)) && !Enabled(y, Launch(c)) && !Enabled(y, Await(now)) && !Enabled(y, GiveUp(error, now))
    ensures y.work.Some? ==>
      var w := y.work.value;
      && (Enabled(y, Size(source, now)) <==> !w.sized && w.record.kind != Event && Fault(w.record, source) == None)
      && (Enabled(y, Launch(c)) <==>
            && !w.published && (c == Prepare || w.record.kind == Event || w.sized)
            && (w.record.id in y.db.records ==>
                  var s := y.db.records[w.record.id].state; s != NeedsAttention && s != Retained && s != CacheDeleted))
      && (Enabled(y, Await(now)) <==> w.published)
      && (Enabled(y, GiveUp(error, now)) <==> w.record.kind != Event)
  {
  }

  /** An attempt that failed: it is retried later while its session is undecided, and one that needs
      attention fails the session. */
  lemma AttemptEnds(y: Sys, error: string, later: real, now: real)
    requires y.work.Some? && y.work.value.record.kind != Event && Undecided(y.db.delivery, y.work.value.record.session)
    ensures var r := y.work.value.record;
      var z := Next(y, Abandon(error, later, now));
      z.work == None && z.sent == y.sent && z.db.delivery == y.db.delivery
      && z.db.records[r.id] == r.(state := Retry, error := error, retryAt := later)
    ensures var r := y.work.value.record;
      var z := Next(y, GiveUp(error, now));
      z.work == None && z.sent == y.sent && Under(z.db.delivery, r.session, Failed)
      && forall id | id in y.db.records && y.db.records[id].session == r.session && y.db.records[id].kind != Event ::
           z.db.records[id].state == NeedsAttention || z.db.records[id].state == CacheDeleted
  {
  }

  /** A pull concerns exactly the waiting records: without a transfer they say so, without a receipt they
      wait on, a receipt of exactly what was sent acknowledges, and any other is an error. */
  lemma PullTakes(db: Db, pull: Option<map<nat, Receipt>>, now: real)
    ensures var t := Pulled(db, pull, now);
      && t.delivery == db.delivery && t.records.Keys == db.records.Keys
      && forall id | id in db.records && (db.records[id].state != AwaitingAck || Undecided(db.delivery, db.records[id].session)) ::
           var r, q := db.records[id], t.records[id];
           if r.state != AwaitingAck then q == r
           else match pull
                case None => q == r.(error := NO_GROUND)
                case Some(acks) =>
                  if r.id !in acks then q == r
                  else if acks[r.id].id == r.id && acks[r.id].size == r.size && acks[r.id].digest == r.digest
                  then q == r.(state := Acknowledged, ackAt := Some(now), error := "")
                  else q.state == AwaitingAck && q == r.(error := q.error) && q.error != ""
  {
  }

  /** Cleaning up: an original goes exactly when it is acknowledged or spared, and has been so for the time
      of grace. */
  lemma CleanupTakes(delivery: map<nat, Verdict>, r: Record, now: real, retain: real, stuck: set<nat>)
    ensures var q := AfterCleanup(delivery, r, now, retain, stuck);
      var due := (r.state == Acknowledged || r.state == Retained) && r.ackAt.Some? && now >= r.ackAt.value + retain;
      && (Unlinks(r, now, retain, stuck) == if due && r.path.Some? && r.path.value !in stuck then {r.path.value} else {})
      && (!due ==> q == r)
      && (due && (r.path.None? || r.path.value !in stuck) ==> q == r.(state := CacheDeleted, error := ""))
      && (due && r.path.Some? && r.path.value in stuck ==> SameMedia(r, q) && q.state != CacheDeleted)
      && (due && r.path.Some? && r.path.value in stuck && Undecided(delivery, r.session) ==> q == r.(error := q.error) && q.error != "")
  {
  }

  /** A new record waits for the ground's word or for its turn, untried and unmeasured. */
  lemma RecordBegins(id: nat, kind: Kind, session: nat, path: Option<nat>, held: bool, now: real)
    ensures var r := NewRecord(id, kind, session, path, held, now);
      && r.id == id && r.kind == kind && r.session == session && r.path == path && r.created == now
      && r.state == (if held then Held else Queued) && r.attempts == 0 && r.retryAt == 0.0 && r.error == ""
      && r.size == 0 && r.digest == 0 && r.modified == 0 && r.ackAt == None
  {
  }

  /** A crash leaves what is stored and forgets the worker's copy; inside a decision, the decision is stored and exactly
      some of the records are as it leaves them. */
  lemma CrashLeaves(y: Sys, session: nat, decision: Decision, reason: string, rewritten: set<nat>, now: real)
    ensures Next(y, Crash) == y.(work := None)
    ensures var z, d := Next(y, CrashInDecide(session, decision, reason, rewritten, now)), Decided(y.db, session, decision, reason, now);
      && z.work == None && z.sent == y.sent && z.db.delivery == d.delivery && z.db.records.Keys == y.db.records.Keys
      && forall id | id in y.db.records :: z.db.records[id] == if id in rewritten then d.records[id] else y.db.records[id]
  {
    DecisionTakes(y.db, session, decision, reason, now);
    hide Redecided;
  }

  /** A record found at start-up: an interrupted upload is to be retried, anything else stays. */
  lemma StartFinds(delivery: map<nat, Verdict>, r: Record, now: real)
    requires r.kind == Event || Undecided(delivery, r.session)
    ensures Recovered(delivery, r, now) == if r.state == Uploading then r.(state := Retry, retryAt := 0.0) else r
  {
  }

  // ------------------------------------------------- the way of one original

  /** These steps, one after another, lead from `y` to `z`. */
  ghost predicate Leads(y: Sys, steps: seq<Step>, z: Sys) { Runs(y, steps) && Run(y, steps) == z }

  lemma LeadsOn(y: Sys, step: Step, rest: seq<Step>, z: Sys)
    requires Enabled(y, step) && Leads(Next(y, step), rest, z)
    ensures Leads(y, [step] + rest, z)
  {
    assert ([step] + rest)[1..] == rest;
    hide Enabled, Next;
  }

  lemma OneLeads(y: Sys, step: Step)
    requires Enabled(y, step)
    ensures Leads(y, [step], Next(y, step))
  {
    hide Enabled, Next;
    assert Leads(Next(y, step), [], Next(y, step));
    LeadsOn(y, step, [], Next(y, step));
    assert [step] + [] == [step];
  }

  /** Opening, measuring, the four commands, and the wait. */
  function Uploads(r: Record, source: Source, now: real): seq<Step> {
    [Step.Open(r, now)] + ([Size(source, now)] + Commands(now))
  }

  function Commands(now: real): seq<Step> {
    [Launch(Prepare)] + ([Launch(Payload)] + ([Launch(Announce)] + ([Launch(Publish)] + [Await(now)])))
  }

  lemma CommandsLead(y: Sys, r: Record, now: real)
    requires y.work == Some(Work(r, true, false)) && r.kind != Event && Undecided(y.db.delivery, r.session)
    requires r.id in y.db.records && y.db.records[r.id] == r && r.state == Uploading
    ensures Leads(y, Commands(now),
                  Sys(Db(y.db.records[r.id := r.(state := AwaitingAck, error := "", retryAt := now + 30.0)], y.db.delivery),
                      None, y.sent + [Receipt(r.id, r.size, r.digest)]))
  {
    var y1 := y.(work := Some(Work(r, true, true)), sent := y.sent + [Receipt(r.id, r.size, r.digest)]);
    var z := Next(y1, Await(now));
    CommandStarts(y, r, Prepare);
    CommandStarts(y, r, Payload);
    CommandStarts(y, r, Announce);
    CommandStarts(y, r, Publish);
    assert Enabled(y1, Await(now));
    OneLeads(y1, Await(now));
    hide Leads, Enabled, Next;
    LeadsOn(y, Launch(Publish), [Await(now)], z);
    LeadsOn(y, Launch(Announce), [Launch(Publish)] + [Await(now)], z);
    LeadsOn(y, Launch(Payload), [Launch(Announce)] + ([Launch(Publish)] + [Await(now)]), z);
    LeadsOn(y, Launch(Prepare), [Launch(Payload)] + ([Launch(Announce)] + ([Launch(Publish)] + [Await(now)])), z);
    AwaitStores(y1, r, now);
  }

  lemma AwaitStores(y: Sys, r: Record, now: real)
    requires y.work == Some(Work(r, true, true)) && r.kind != Event && Undecided(y.db.delivery, r.session)
    ensures Next(y, Await(now)) ==
      Sys(Db(y.db.records[r.id := r.(state := AwaitingAck, error := "", retryAt := now + 30.0)], y.db.delivery), None, y.sent)
  {
  }

  /** The record once its original is under way. */
  function UnderWay(r: Record, source: Source): Record
    requires source.Present?
  {
    r.(state := Uploading, attempts := r.attempts + 1, error := "", size := source.size, modified := source.modified,
       digest := if r.digest == 0 then source.digest else r.digest)
  }

  /** A held video whose original is there and unchanged: once the ground asks for it, an undisturbed upload
      publishes it, and the record then waits for a receipt of exactly what was sent. */
  lemma AskedIsSent(y: Sys, id: nat, source: Source, now: real)
    requires y.work == None && id in y.db.records && y.db.records[id].id == id && source.Present?
    requires var r := y.db.records[id];
      && r.kind == Video && r.state == Held && Undecided(y.db.delivery, r.session) && r.path.Some?
      && (r.digest == 0 || (source.size == r.size && source.modified == r.modified))
    ensures var r := y.db.records[id];
      var m := UnderWay(r, source);
      exists z ::
        && Leads(y, [Decide(r.session, Fallback, "", now)] + Uploads(r.(state := Queued, retryAt := 0.0), source, now), z)
        && z.work == None && z.sent == y.sent + [Receipt(id, m.size, m.digest)]
        && id in z.db.records && z.db.records[id] == m.(state := AwaitingAck, retryAt := now + 30.0)
  {
    var r := y.db.records[id];
    var queued := r.(state := Queued, retryAt := 0.0);
    var y1 := Next(y, Decide(r.session, Fallback, "", now));
    DecisionTakes(y.db, r.session, Fallback, "", now);
    assert y1.db.records[id] == queued && y1.work == None && Undecided(y1.db.delivery, r.session);
    var z := UploadLeads(y1, queued, source, now);
    assert Enabled(y, Decide(r.session, Fallback, "", now));
    hide Leads, Enabled, Next, Uploads;
    LeadsOn(y, Decide(r.session, Fallback, "", now), Uploads(queued, source, now), z);
  }

  lemma UploadLeads(y: Sys, r: Record, source: Source, now: real) returns (z: Sys)
    requires y.work == None && r.id in y.db.records && y.db.records[r.id] == r && source.Present?
    requires r.kind != Event && Undecided(y.db.delivery, r.session) && r.path.Some?
    requires r.digest == 0 || (source.size == r.size && source.modified == r.modified)
    ensures Leads(y, Uploads(r, source, now), z) && z.work == None
    ensures var m := UnderWay(r, source);
      && z.sent == y.sent + [Receipt(r.id, m.size, m.digest)]
      && r.id in z.db.records && z.db.records[r.id] == m.(state := AwaitingAck, retryAt := now + 30.0)
  {
    var q := r.(state := Uploading, attempts := r.attempts + 1, error := "");
    var m := UnderWay(r, source);
    SectionsStore(y, r, source, now);
    var y1 := Next(y, Step.Open(r, now));
    SectionsStore(y1, q, source, now);
    var y2 := Next(y1, Size(source, now));
    assert Enabled(y, Step.Open(r, now)) && Enabled(y1, Size(source, now));
    assert y2.work == Some(Work(m, true, false)) && y2.db.records[r.id] == m && Undecided(y2.db.delivery, r.session);
    CommandsLead(y2, m, now);
    z := Run(y2, Commands(now));
    hide Leads, Enabled, Next, Commands;
    LeadsOn(y1, Size(source, now), Commands(now), z);
    LeadsOn(y, Step.Open(r, now), [Size(source, now)] + Commands(now), z);
  }
}
