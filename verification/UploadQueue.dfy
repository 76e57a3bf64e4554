/** The aircraft's persistent upload queue (video_service/media_transfer.py, class UploadQueue).

    Every write of a queue record goes through `_save`, which looks at the delivery decision of the
    record's session first. Threads write copies they read earlier, so the theorems below hold for
    whatever record is written. File contents stand behind their size and digest.
 */
module UploadQueue {
  import opened Options

  datatype Kind = Image | Video | Event

  datatype State =
    Held | Queued | Retry | Uploading | AwaitingAck | Acknowledged | Retained | NeedsAttention | CacheDeleted

  datatype Decision = Waiting | Fallback | Ready | Failed
  {
    predicate Final() { Ready? || Failed? }
  }

  datatype Verdict = Verdict(decision: Decision, reason: string)

  /** An empty digest is 0. Size, digest and modification time are those of the original when it was first
      hashed. */
  datatype Record = Record(
    id: nat, session: nat, kind: Kind, path: Option<nat>, state: State, created: real,
    attempts: nat, retryAt: real, error: string, size: nat, digest: nat, modified: int, ackAt: Option<real>)

  datatype Receipt = Receipt(id: nat, size: nat, digest: nat)

  datatype Db = Db(records: map<nat, Record>, delivery: map<nat, Verdict>)

  function DecisionOf(delivery: map<nat, Verdict>, session: nat): Decision {
    if session in delivery then delivery[session].decision else Waiting
  }

  // -------------------------------------------------------------------- _save

  /** What `_save` makes of a record before storing it. */
  function Clamped(delivery: map<nat, Verdict>, r: Record, now: real): Record {
    if r.kind.Event? || r.state.CacheDeleted? then r
    else if DecisionOf(delivery, r.session).Failed? then
      r.(state := NeedsAttention, error := delivery[r.session].reason, retryAt := 0.0)
    else if DecisionOf(delivery, r.session).Ready? && r.kind.Video? then
      r.(state := Retained, error := "", retryAt := 0.0, ackAt := if r.ackAt.Some? then r.ackAt else Some(now))
    else r
  }

  function Saved(db: Db, r: Record, now: real): Db {
    db.(records := db.records[r.id := Clamped(db.delivery, r, now)])
  }

  /** The states a decided session leaves a record in. */
  predicate Obeys(delivery: map<nat, Verdict>, r: Record) {
    && (DecisionOf(delivery, r.session).Failed? && !r.kind.Event? ==> r.state.NeedsAttention? || r.state.CacheDeleted?)
    && (DecisionOf(delivery, r.session).Ready? && r.kind.Video? ==> r.state.Retained? || r.state.CacheDeleted?)
  }

  ghost predicate DbInv(db: Db) {
    (forall id | id in db.records :: db.records[id].id == id) && (forall id | id in db.records :: Obeys(db.delivery, db.records[id]))
  }

  /** Whatever a thread writes, however old its copy, the stored record obeys the decision. */
  lemma AnyWriteObeys(db: Db, r: Record, now: real)
    ensures Obeys(db.delivery, Saved(db, r, now).records[r.id])
    ensures DbInv(db) ==> DbInv(Saved(db, r, now))
    ensures Saved(db, r, now).delivery == db.delivery
  {
  }

  // ------------------------------------------------------------- set_delivery

  /** What `set_delivery` writes for one record of the session. */
  function Redecided(delivery: map<nat, Verdict>, r: Record, session: nat, decision: Decision, now: real): Record {
    if r.session != session || r.kind.Event? then r
    else
      Clamped(delivery,
              if decision.Fallback? && r.kind.Video? && r.state.Held? then r.(state := Queued, retryAt := 0.0) else r, now)
  }

  /** `set_delivery`. */
  function Decided(db: Db, session: nat, decision: Decision, reason: string, now: real): Db {
    if DecisionOf(db.delivery, session).Final() then db
    else
      var delivery := db.delivery[session := Verdict(decision, reason)];
      Db(map id | id in db.records :: Redecided(delivery, db.records[id], session, decision, now), delivery)
  }

  lemma DecidedKeeps(db: Db, session: nat, decision: Decision, reason: string, now: real)
    ensures DbInv(db) ==> DbInv(Decided(db, session, decision, reason, now))
    ensures forall id | id in db.records ::
      var t := Decided(db, session, decision, reason, now);
      id in t.records && t.records[id].id == db.records[id].id && t.records[id].session == db.records[id].session
      && t.records[id].kind == db.records[id].kind
    ensures Decided(db, session, decision, reason, now).records.Keys == db.records.Keys
  {
    if !DecisionOf(db.delivery, session).Final() {
      forall id | id in db.records {
        RedecidedKeeps(db.delivery, db.records[id], session, decision, reason, now);
      }
    }
    hide Obeys, Redecided;
  }

  lemma RedecidedKeeps(delivery: map<nat, Verdict>, r: Record, session: nat, decision: Decision, reason: string, now: real)
    requires !DecisionOf(delivery, session).Final()
    ensures var after := delivery[session := Verdict(decision, reason)];
      var q := Redecided(after, r, session, decision, now);
      (Obeys(delivery, r) ==> Obeys(after, q)) && q.id == r.id && q.session == r.session && q.kind == r.kind
  {
  }

  // ------------------------------------------------------------------- upload

  /** `_check_active`: may the transfer of this record go on? */
  predicate MayTransfer(db: Db, id: nat) {
    id in db.records ==>
      !db.records[id].state.NeedsAttention? && !db.records[id].state.Retained? && !db.records[id].state.CacheDeleted?
  }

  /** What the source's checks find when a payload is about to be copied. */
  datatype Source = Absent | Changing | Present(size: nat, modified: int, digest: nat)

  datatype Outcome = Stopped | Retryable(error: string) | Attention(error: string)

  /** What the worker does next with its checks on the original; none when it goes on. */
  function Fault(r: Record, source: Source): Option<Outcome> {
    if r.path.None? || source.Absent? then Some(Attention("Aircraft original/source is unavailable"))
    else if source.Changing? then Some(Attention("Media changed while hashing"))
    else if r.digest != 0 && (source.size != r.size || source.modified != r.modified) then
      Some(Attention("Finalized upload source changed after its first attempt"))
    else None
  }

  /** What is written down of an original that may go: it is hashed only once. */
  function Measured(r: Record, source: Source): Record
    requires source.Present?
  {
    r.(size := source.size, modified := source.modified, digest := if r.digest != 0 then r.digest else source.digest)
  }

  /** The commands of one upload: make the directories, copy the payload, copy the manifest under a
      temporary name, and rename it. */
  datatype Command = Prepare | Payload | Announce | Publish

  /** The upload worker between two sections of `_upload`: its own copy of the record. */
  datatype Work = Work(record: Record, sized: bool, published: bool)

  /** The database, the worker, and the receipts that published manifests ask for. */
  datatype Sys = Sys(db: Db, work: Option<Work>, sent: seq<Receipt>)

  const IDLE := Sys(Db(map[], map[]), None, [])

  datatype Step =
    | Save(record: Record, now: real)                  // any thread, any copy it once read or made
    | Decide(session: nat, decision: Decision, reason: string, now: real)
    | CrashInDecide(session: nat, decision: Decision, reason: string, rewritten: set<nat>, now: real)
    | Crash
    | Open(record: Record, now: real)                  // the worker takes a record up
    | Size(source: Source, now: real)
    | Launch(command: Command)
    | Await(now: real)
    | Abandon(error: string, later: real, now: real)   // a failure that is retried
    | GiveUp(error: string, now: real)                 // a failure that ends the session

  /** No write changes whose record it is. */
  predicate Alike(db: Db, r: Record) {
    r.id in db.records ==> db.records[r.id].session == r.session && db.records[r.id].kind == r.kind
  }

  predicate Enabled(y: Sys, step: Step) {
    match step
    case Save(r, _) => Alike(y.db, r)
    case Open(r, _) => y.work.None? && r.id in y.db.records && Alike(y.db, r)
    case Size(source, _) =>
      y.work.Some? && !y.work.value.sized && !y.work.value.record.kind.Event? && Fault(y.work.value.record, source).None?
    case Launch(c) =>
      y.work.Some? && MayTransfer(y.db, y.work.value.record.id) && !y.work.value.published
      && (!c.Prepare? && !y.work.value.record.kind.Event? ==> y.work.value.sized)
    case Await(_) => y.work.Some? && y.work.value.published
    case Abandon(_, _, _) => y.work.Some?
    case GiveUp(_, _) => y.work.Some? && !y.work.value.record.kind.Event?
    case _ => true
  }

  function Attempted(r: Record): Record { r.(state := Uploading, attempts := r.attempts + 1, error := "") }

  function Wrote(y: Sys, r: Record, now: real): Sys { y.(db := Saved(y.db, r, now)) }

  /** The worker saves its copy, which becomes what was stored. */
  function Working(y: Sys, r: Record, sized: bool, now: real): Sys {
    Wrote(y, r, now).(work := Some(Work(Clamped(y.db.delivery, r, now), sized, false)))
  }

  /** The process dies inside `set_delivery`: the decision is stored and some records are rewritten. */
  function HalfDecided(db: Db, session: nat, decision: Decision, reason: string, rewritten: set<nat>, now: real): Db {
    if DecisionOf(db.delivery, session).Final() then db
    else
      var whole := Decided(db, session, decision, reason, now);
      Db(map id | id in db.records :: if id in rewritten then whole.records[id] else db.records[id], whole.delivery)
  }

  function Next(y: Sys, step: Step): Sys {
    match step
    case Save(r, now) => Wrote(y, r, now)
    case Decide(session, decision, reason, now) => y.(db := Decided(y.db, session, decision, reason, now))
    case CrashInDecide(session, decision, reason, rewritten, now) =>
      y.(db := HalfDecided(y.db, session, decision, reason, rewritten, now), work := None)
    case Crash => y.(work := None)
    case Open(r, now) => Working(y, Attempted(r), false, now)
    case Size(source, now) =>
      if y.work.None? || !source.Present? then y else Working(y, Measured(y.work.value.record, source), true, now)
    case Launch(c) =>
      if y.work.None? || !c.Publish? then y
      else y.(work := Some(y.work.value.(published := true)), sent := y.sent + [Wanted(y.work.value.record)])
    case Await(now) =>
      if y.work.None? then y
      else Wrote(y, y.work.value.record.(state := AwaitingAck, error := "", retryAt := now + 30.0), now).(work := None)
    case Abandon(error, later, now) =>
      if y.work.None? then y
      else Wrote(y, y.work.value.record.(state := Retry, error := error, retryAt := later), now).(work := None)
    case GiveUp(error, now) =>
      if y.work.None? then y
      else y.(db := Decided(y.db, y.work.value.record.session, Failed, error, now), work := None)
  }

  // ---------------------------------------------------------- acknowledgements

  /** The receipt a record asks for. */
  function Wanted(r: Record): Receipt { Receipt(r.id, r.size, r.digest) }

  /** What `_read_acks` makes of a waiting record and the receipts it just pulled. */
  function AckRead(r: Record, acks: map<nat, Receipt>, now: real): Record {
    if r.id !in acks then r
    else if acks[r.id] == Wanted(r) then r.(state := Acknowledged, ackAt := Some(now), error := "")
    else r.(error := "Ground acknowledgement does not match original")
  }

  const NO_GROUND := "Ground acknowledgement unavailable"
  const STOPPED := "Session media upload stopped by delivery decision"

  /** The record of `_read_acks` that is written, given what the pull brought. */
  function AfterPull(delivery: map<nat, Verdict>, r: Record, pull: Option<map<nat, Receipt>>, now: real): Record {
    if !r.state.AwaitingAck? then r
    else if pull.None? then Clamped(delivery, r.(error := NO_GROUND), now)
    else if r.id !in pull.value then r
    else Clamped(delivery, AckRead(r, pull.value, now), now)
  }

  /** The database after one pass over the waiting records. */
  function Pulled(db: Db, pull: Option<map<nat, Receipt>>, now: real): Db {
    db.(records := map id | id in db.records :: AfterPull(db.delivery, db.records[id], pull, now))
  }

  /** Is an original old enough to go? */
  predicate Due(r: Record, now: real, retain: real) {
    (r.state.Acknowledged? || r.state.Retained?) && r.ackAt.Some? && now - r.ackAt.value >= retain
  }

  // --------------------------------------------------------------- the object

  /** What a new process makes of a record it finds. */
  function Recovered(delivery: map<nat, Verdict>, r: Record, now: real): Record {
    if r.state.Uploading? then Clamped(delivery, r.(state := Retry, retryAt := 0.0), now) else r
  }

  function NewRecord(id: nat, kind: Kind, session: nat, path: Option<nat>, held: bool, now: real): Record {
    Record(id, session, kind, path, if held then Held else Queued, now, 0, 0.0, "", 0, 0, 0, None)
  }

  class Queue {
    var records: map<nat, Record>
    var delivery: map<nat, Verdict>
    var work: Option<Work>
    /** The receipts that published manifests ask for. */
    var sent: seq<Receipt>
    /** Receipts in the local acknowledgement directory. */
    var acks: map<nat, Receipt>
    /** Originals that still exist. */
    var files: set<nat>
    var nextId: nat

    function View(): Db
      reads this`records, this`delivery
    {
      Db(records, delivery)
    }

    function Whole(): Sys
      reads this`records, this`delivery, this`work, this`sent
    {
      Sys(View(), work, sent)
    }

    ghost predicate Valid()
      reads this
    {
      && (forall id | id in records :: records[id].id == id < nextId)
      && (work.Some? ==> work.value.record.id in records && Alike(View(), work.value.record))
    }

    /** Start-up from what an earlier process left; interrupted uploads are to be retried. */
    constructor (left: Db, acks: map<nat, Receipt>, files: set<nat>, nextId: nat, now: real)
      requires forall id | id in left.records :: left.records[id].id == id < nextId
      ensures Valid() && work.None? && sent == [] && this.files == files && this.acks == acks
      ensures delivery == left.delivery
      ensures records == map id | id in left.records :: Recovered(left.delivery, left.records[id], now)
    {
      records, delivery, work, sent := left.records, left.delivery, None, [];
      this.acks, this.files, this.nextId := acks, files, nextId;
      new;
      RecoverUploads(now);
    }

    /** The loop of `__init__`. */
    method RecoverUploads(now: real)
      requires Valid() && work.None?
      modifies this`records
      ensures Valid()
      ensures records == map id | id in old(records) :: Recovered(delivery, old(records)[id], now)
    {
      hide Clamped;
      ghost var before := records;
      var todo := records.Keys;
      while todo != {}
        invariant todo <= before.Keys && records.Keys == before.Keys
        invariant forall id | id in todo :: records[id] == before[id]
        invariant forall id | id in before && id !in todo :: records[id] == Recovered(delivery, before[id], now)
        decreases todo
      {
        var id :| id in todo;
        todo := todo - {id};
        if records[id].state.Uploading? {
          var _ := SaveRecord(records[id].(state := Retry, retryAt := 0.0), now);
        }
      }
      ClampKeepsIds(delivery, before, now);
    }

    static lemma ClampKeepsIds(delivery: map<nat, Verdict>, records: map<nat, Record>, now: real)
      requires forall id | id in records :: records[id].id == id
      ensures forall id | id in records :: Recovered(delivery, records[id], now).id == id
    {
    }

    /** `_save`; the record comes back as it was stored. */
    method SaveRecord(r: Record, now: real) returns (stored: Record)
      modifies this`records
      ensures View() == Saved(old(View()), r, now) && stored == records[r.id] == Clamped(delivery, r, now)
    {
      stored := r;
      if r.session in delivery && !r.kind.Event? && !r.state.CacheDeleted? {
        var verdict := delivery[r.session];
        if verdict.decision.Failed? {
          stored := stored.(state := NeedsAttention, error := verdict.reason, retryAt := 0.0);
        } else if verdict.decision.Ready? && r.kind.Video? {
          stored := stored.(state := Retained, error := "", retryAt := 0.0,
                            ackAt := if r.ackAt.Some? then r.ackAt else Some(now));
        }
      }
      records := records[r.id := stored];
    }

    /** `_save` outside the rewriting loops. */
    method Store(r: Record, now: real) returns (stored: Record)
      requires Valid() && r.id < nextId && Alike(View(), r)
      modifies this`records
      ensures Valid() && stored == Clamped(delivery, r, now) && records == old(records)[r.id := stored]
      ensures Whole() == Next(old(Whole()), Save(r, now))
      ensures DbInv(old(View())) ==> DbInv(View())
    {
      AnyWriteObeys(View(), r, now);
      stored := SaveRecord(r, now);
    }

    /** `enqueue`: the same finalized file of a session is one record until its copy is deleted. */
    method EnqueueFile(kind: Kind, session: nat, path: nat, held: bool, now: real) returns (id: nat)
      requires Valid() && !kind.Event?
      modifies this`records, this`nextId
      ensures Valid() && id in records && (DbInv(old(View())) ==> DbInv(View()))
      ensures if exists k :: Holds(old(records), k, session, path)
              then records == old(records) && nextId == old(nextId) && Holds(records, id, session, path)
              else id == old(nextId) && var r := NewRecord(id, kind, session, Some(path), held, now);
                   records == old(records)[id := Clamped(delivery, r, now)]
    {
      hide DbInv, Clamped;
      if k :| k in records && Holds(records, k, session, path) {
        return k;
      }
      id := Enqueue(kind, session, Some(path), held, now);
    }

    /** Is this the record of that file? */
    static predicate Holds(records: map<nat, Record>, id: nat, session: nat, path: nat) {
      id in records && records[id].path == Some(path) && records[id].session == session && !records[id].state.CacheDeleted?
    }

    /** The new record of `enqueue` and `enqueue_event`. */
    method Enqueue(kind: Kind, session: nat, path: Option<nat>, held: bool, now: real) returns (id: nat)
      requires Valid()
      modifies this`records, this`nextId
      ensures Valid() && id == old(nextId) && id in records && nextId == id + 1
      ensures records == old(records)[id := Clamped(delivery, NewRecord(id, kind, session, path, held, now), now)]
      ensures DbInv(old(View())) ==> DbInv(View())
    {
      hide DbInv, Clamped;
      ClampKeepsRecord(delivery, now);
      id := nextId;
      nextId := nextId + 1;
      var _ := Store(Record(id, session, kind, path, if held then Held else Queued, now, 0, 0.0, "", 0, 0, 0, None), now);
    }

    static lemma ClampKeepsRecord(delivery: map<nat, Verdict>, now: real)
      ensures forall r: Record :: SameRecord(r, Clamped(delivery, r, now))
    {
    }

    /** `set_delivery`. */
    method SetDelivery(session: nat, decision: Decision, reason: string, now: real)
      requires Valid()
      modifies this`records, this`delivery
      ensures Valid() && Whole() == Next(old(Whole()), Decide(session, decision, reason, now))
      ensures DbInv(old(View())) ==> DbInv(View())
    {
      hide DbInv, Clamped, Decided;
      DecidedKeeps(View(), session, decision, reason, now);
      DecideNow(session, decision, reason, now);
    }

    method DecideNow(session: nat, decision: Decision, reason: string, now: real)
      requires forall id | id in records :: records[id].id == id
      modifies this`records, this`delivery
      ensures View() == Decided(old(View()), session, decision, reason, now)
    {
      hide Redecided;
      if session in delivery && delivery[session].decision.Final() {
        return;
      }
      delivery := delivery[session := Verdict(decision, reason)];
      RewriteSession(session, decision, now);
    }

    /** The loop of `set_delivery`. */
    method RewriteSession(session: nat, decision: Decision, now: real)
      requires forall id | id in records :: records[id].id == id
      modifies this`records
      ensures records == map id | id in old(records) :: Redecided(delivery, old(records)[id], session, decision, now)
    {
      hide Clamped, DecisionOf;
      ghost var before := records;
      var todo := records.Keys;
      while todo != {}
        invariant todo <= before.Keys && records.Keys == before.Keys
        invariant forall id | id in todo :: records[id] == before[id]
        invariant forall id | id in before && id !in todo ::
          records[id] == Redecided(delivery, before[id], session, decision, now)
        decreases todo
      {
        var id :| id in todo;
        todo := todo - {id};
        var r := records[id];
        if r.session == session && !r.kind.Event? {
          if decision.Fallback? && r.kind.Video? && r.state.Held? {
            r := r.(state := Queued, retryAt := 0.0);
          }
          var stored := SaveRecord(r, now);
          assert stored == Redecided(delivery, before[id], session, decision, now);
        } else {
          assert r == Redecided(delivery, before[id], session, decision, now);
        }
      }
    }

    /** The opening section of `_upload`. */
    method OpenUpload(r: Record, now: real)
      requires Valid() && Enabled(Whole(), Open(r, now))
      modifies this`records, this`work
      ensures Valid() && Whole() == Next(old(Whole()), Open(r, now))
      ensures DbInv(old(View())) ==> DbInv(View())
    {
      var stored := Store(r.(state := Uploading, attempts := r.attempts + 1, error := ""), now);
      work := Some(Work(stored, false, false));
    }

    /** Hashing the original; what it finds is a fault, or is written down. */
    method SizeUpload(source: Source, now: real) returns (fault: Option<Outcome>)
      requires Valid() && work.Some? && !work.value.sized && !work.value.record.kind.Event?
      modifies this`records, this`work
      ensures Valid() && fault == Fault(old(work).value.record, source)
      ensures Whole() == if fault.Some? then old(Whole()) else Next(old(Whole()), Size(source, now))
      ensures fault.None? ==> source.Present? && Enabled(old(Whole()), Size(source, now))
      ensures DbInv(old(View())) ==> DbInv(View())
    {
      var r := work.value.record;
      if r.path.None? || source.Absent? {
        return Some(Attention("Aircraft original/source is unavailable"));
      }
      if source.Changing? {
        return Some(Attention("Media changed while hashing"));
      }
      var digest := if r.digest != 0 then r.digest else source.digest;
      if r.digest != 0 && (source.size != r.size || source.modified != r.modified) {
        return Some(Attention("Finalized upload source changed after its first attempt"));
      }
      var stored := Store(r.(size := source.size, modified := source.modified, digest := digest), now);
      work := Some(Work(stored, true, false));
      fault := None;
    }

    /** `_run` up to the start of the command; false when a decision forbids it. */
    method LaunchCommand(c: Command) returns (ok: bool)
      requires Valid() && work.Some? && !work.value.published
      requires !c.Prepare? && !work.value.record.kind.Event? ==> work.value.sized
      modifies this`work, this`sent
      ensures Valid() && (ok <==> Enabled(old(Whole()), Launch(c)))
      ensures Whole() == if ok then Next(old(Whole()), Launch(c)) else old(Whole())
    {
      var state := records[work.value.record.id].state;
      if state.NeedsAttention? || state.Retained? || state.CacheDeleted? {
        return false;
      }
      if c.Publish? {
        sent := sent + [Receipt(work.value.record.id, work.value.record.size, work.value.record.digest)];
        work := Some(work.value.(published := true));
      }
      ok := true;
    }

    /** The last section of `_upload`. */
    method AwaitReceipt(now: real)
      requires Valid() && Enabled(Whole(), Await(now))
      modifies this`records, this`work
      ensures Valid() && Whole() == Next(old(Whole()), Await(now))
      ensures DbInv(old(View())) ==> DbInv(View())
    {
      var _ := Store(work.value.record.(state := AwaitingAck, error := "", retryAt := now + 30.0), now);
      work := None;
    }

    /** The end of `tick`: an attempt that failed is retried later, or stops its session for good. */
    method EndAttempt(outcome: Outcome, delay: real, now: real)
      requires Valid() && work.Some? && (work.value.record.kind.Event? ==> !outcome.Attention?)
      modifies this`records, this`delivery, this`work
      ensures Valid() && work.None?
      ensures Whole() == Next(old(Whole()), if outcome.Attention? then GiveUp(outcome.error, now)
                                            else Abandon(if outcome.Retryable? then outcome.error else STOPPED, now + delay, now))
      ensures DbInv(old(View())) ==> DbInv(View())
    {
      var r := work.value.record;
      if outcome.Attention? {
        SetDelivery(r.session, Failed, outcome.error, now);
      } else {
        var error := if outcome.Retryable? then outcome.error else STOPPED;
        var _ := Store(r.(state := Retry, error := error, retryAt := now + delay), now);
      }
      work := None;
    }

    /** `_read_acks`: cached receipts of waiting records are dropped before the pull, so only a receipt
        the ground still shows counts. `pull` is what the transfer brought, or None when it failed. */
    method ReadAcks(pull: Option<map<nat, Receipt>>, now: real)
      requires Valid()
      modifies this`records, this`acks
      ensures Valid() && View() == Pulled(old(View()), pull, now)
      ensures DbInv(old(View())) ==> DbInv(View())
    {
      hide AfterPull, DbInv, Pulled;
      PulledKeeps(View(), pull, now);
      PullAndJudge(pull, now);
    }

    method PullAndJudge(pull: Option<map<nat, Receipt>>, now: real)
      requires forall id | id in records :: records[id].id == id
      modifies this`records, this`acks
      ensures View() == Pulled(old(View()), pull, now)
    {
      hide AfterPull;
      var waiting := set id | id in records && records[id].state.AwaitingAck?;
      if waiting == {} {
        NobodyWaits(View(), pull, now);
        return;
      }
      acks := map id | id in acks && id !in waiting :: acks[id];
      if pull.Some? {
        acks := acks + pull.value;
      }
      JudgeWaiting(waiting, pull, now);
    }

    static lemma NobodyWaits(db: Db, pull: Option<map<nat, Receipt>>, now: real)
      requires (set id | id in db.records && db.records[id].state.AwaitingAck?) == {}
      ensures Pulled(db, pull, now) == db
    {
      var waiting := set id | id in db.records && db.records[id].state.AwaitingAck?;
      IdleUnchanged(db, pull, now);
      assert forall id | id in db.records :: id !in waiting;
      hide AfterPull;
    }

    /** The loops of `_read_acks`. */
    method JudgeWaiting(waiting: set<nat>, pull: Option<map<nat, Receipt>>, now: real)
      requires forall id | id in records :: records[id].id == id
      requires waiting == set id | id in records && records[id].state.AwaitingAck?
      requires pull.Some? ==> forall id | id in waiting :: (id in acks <==> id in pull.value) && (id in acks ==> acks[id] == pull.value[id])
      modifies this`records
      ensures records == map id | id in old(records) :: AfterPull(delivery, old(records)[id], pull, now)
    {
      IdleUnchanged(View(), pull, now);
      hide AfterPull;
      ghost var before := records;
      var todo := waiting;
      while todo != {}
        invariant todo <= waiting && records.Keys == before.Keys
        invariant forall id | id in before && (id in todo || id !in waiting) :: records[id] == before[id]
        invariant forall id | id in waiting && id !in todo :: records[id] == AfterPull(delivery, before[id], pull, now)
        decreases todo
      {
        var id :| id in todo;
        todo := todo - {id};
        JudgeOne(id, pull, now);
      }
    }

    /** The body of those loops. */
    method JudgeOne(id: nat, pull: Option<map<nat, Receipt>>, now: real)
      requires id in records && records[id].id == id && records[id].state.AwaitingAck?
      requires pull.Some? ==> (id in acks <==> id in pull.value) && (id in acks ==> acks[id] == pull.value[id])
      modifies this`records
      ensures records == old(records)[id := AfterPull(delivery, old(records)[id], pull, now)]
    {
      hide Clamped;
      var r := records[id];
      if pull.None? {
        var _ := SaveRecord(r.(error := NO_GROUND), now);
      } else if id in acks {
        if acks[id] == Wanted(r) {
          r := r.(state := Acknowledged, ackAt := Some(now), error := "");
        } else {
          r := r.(error := "Ground acknowledgement does not match original");
        }
        var _ := SaveRecord(r, now);
      }
    }

    /** `_cleanup`; `stuck` are originals that cannot be unlinked. */
    method Cleanup(now: real, retain: real, stuck: set<nat>)
      requires Valid()
      modifies this`records, this`files, this`nextId
      ensures Valid() && (DbInv(old(View())) ==> DbInv(View()))
      ensures forall id | id in old(records) :: id in records && records[id] == AfterCleanup(delivery, old(records)[id], now, retain, stuck)
      ensures forall id | id in records && id !in old(records) :: records[id].kind.Event? && records[id].state.Queued?
      ensures files == old(files) - Unlinked(old(records), now, retain, stuck)
    {
      hide AfterCleanup, Unlinks, DbInv;
      ghost var before := records;
      ghost var had := files;
      ghost var gone := {};
      var todo := records.Keys;
      while todo != {}
        invariant Valid() && todo <= before.Keys <= records.Keys
        invariant DbInv(old(View())) ==> DbInv(View())
        invariant forall id | id in todo :: records[id] == before[id]
        invariant forall id | id in before && id !in todo :: records[id] == AfterCleanup(delivery, before[id], now, retain, stuck)
        invariant forall id | id in records && id !in before :: records[id].kind.Event? && records[id].state.Queued?
        invariant files == had - gone
        invariant forall id | id in before && id !in todo :: Unlinks(before[id], now, retain, stuck) <= gone
        invariant forall p | p in gone :: exists id :: id in before && p in Unlinks(before[id], now, retain, stuck)
        decreases todo
      {
        var id :| id in todo;
        todo := todo - {id};
        CleanOne(id, now, retain, stuck);
        gone := gone + Unlinks(before[id], now, retain, stuck);
      }
      assert gone == Unlinked(before, now, retain, stuck);
    }

    /** The body of the loop of `_cleanup`. */
    method CleanOne(id: nat, now: real, retain: real, stuck: set<nat>)
      requires Valid() && id in records
      modifies this`records, this`files, this`nextId
      ensures Valid() && id in records && (DbInv(old(View())) ==> DbInv(View()))
      ensures records[id] == AfterCleanup(delivery, old(records)[id], now, retain, stuck)
      ensures forall k | k in old(records) && k != id :: k in records && records[k] == old(records)[k]
      ensures forall k | k in records && k !in old(records) :: records[k].kind.Event? && records[k].state.Queued?
      ensures files == old(files) - Unlinks(old(records)[id], now, retain, stuck)
    {
      var r := records[id];
      if !Due(r, now, retain) {
        return;
      }
      if r.path.Some? && r.path.value in stuck {
        var _ := Store(r.(error := "Cannot clean acknowledged cache"), now);
        return;
      }
      if r.path.Some? {
        files := files - {r.path.value};
      }
      Discard(r, now);
    }

    /** The writes that follow an unlinked original. */
    method Discard(r: Record, now: real)
      requires Valid() && r.id in records && records[r.id] == r
      modifies this`records, this`nextId
      ensures Valid() && r.id in records && records[r.id] == r.(state := CacheDeleted, error := "")
      ensures DbInv(old(View())) ==> DbInv(View())
      ensures forall k | k in old(records) && k != r.id :: k in records && records[k] == old(records)[k]
      ensures forall k | k in records && k !in old(records) :: records[k].kind.Event? && records[k].state.Queued?
    {
      var _ := Store(r.(state := CacheDeleted, error := ""), now);
      if !r.kind.Event? {
        var _ := Enqueue(Event, r.session, None, false, now);
      }
    }
  }

  /** What `_cleanup` leaves of a record. */
  function AfterCleanup(delivery: map<nat, Verdict>, r: Record, now: real, retain: real, stuck: set<nat>): Record {
    if !Due(r, now, retain) then r
    else if r.path.Some? && r.path.value in stuck then Clamped(delivery, r.(error := "Cannot clean acknowledged cache"), now)
    else r.(state := CacheDeleted, error := "")
  }

  /** The original it unlinks for one record, and for all. */
  function Unlinks(r: Record, now: real, retain: real, stuck: set<nat>): set<nat> {
    if Due(r, now, retain) && r.path.Some? && r.path.value !in stuck then {r.path.value} else {}
  }

  ghost function Unlinked(records: map<nat, Record>, now: real, retain: real, stuck: set<nat>): set<nat> {
    set id, p | id in records && p in Unlinks(records[id], now, retain, stuck) :: p
  }

  /** A pull concerns only records that wait for their receipt. */
  lemma IdleUnchanged(db: Db, pull: Option<map<nat, Receipt>>, now: real)
    ensures forall id | id in db.records && !db.records[id].state.AwaitingAck? ::
      AfterPull(db.delivery, db.records[id], pull, now) == db.records[id]
  {
  }

  lemma PulledKeeps(db: Db, pull: Option<map<nat, Receipt>>, now: real)
    ensures var t := Pulled(db, pull, now);
      && (DbInv(db) ==> DbInv(t)) && t.delivery == db.delivery && t.records.Keys == db.records.Keys
      && (forall id | id in db.records ::
            t.records[id].id == db.records[id].id && t.records[id].session == db.records[id].session && t.records[id].kind == db.records[id].kind)
  {
    forall id | id in db.records && Obeys(db.delivery, db.records[id])
      ensures Obeys(db.delivery, AfterPull(db.delivery, db.records[id], pull, now))
    {
      AfterPullObeys(db.delivery, db.records[id], pull, now);
    }
    forall id | id in db.records ensures SameRecord(db.records[id], AfterPull(db.delivery, db.records[id], pull, now)) { }
    hide Obeys, AfterPull;
  }

  predicate SameRecord(r: Record, q: Record) { q.id == r.id && q.session == r.session && q.kind == r.kind }

  lemma AfterPullObeys(delivery: map<nat, Verdict>, r: Record, pull: Option<map<nat, Receipt>>, now: real)
    requires Obeys(delivery, r)
    ensures Obeys(delivery, AfterPull(delivery, r, pull, now))
  {
  }
}
