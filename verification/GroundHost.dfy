/** The ground service as a whole (video_service/ground_media.py over video_service/media_store.py): the
    delivery decisions under their lock, the store under its own, and a process that may die anywhere.

    A decision that stops sessions tells the store first, session by session, and reaches the catalog
    file only afterwards; the store remembers stopped sessions in memory alone.
 */
module GroundHost {
  import opened Options
  import opened Sessions
  import G = GroundDelivery
  import M = MediaStore

  /** `doing` is the decision that holds the lock of the deliveries; it counts from its commit on. */
  datatype Sys = Sys(media: G.State, store: M.Store, doing: Option<G.Step>)

  const START := Sys(G.EMPTY, M.EMPTY, None)

  datatype Step =
    | Begin(step: G.Step)
    | Commit
    | OnStore(write: M.Step)
    | Crash

  /** The sessions stopped once a decision is carried out. */
  function Halts(y: Sys): set<Session> {
    if y.doing.Some? then G.Next(y.media, y.doing.value).stopped else {}
  }

  ghost predicate Enabled(y: Sys, step: Step) {
    match step
    case Begin(d) => y.doing.None? && !d.WorkerPublishes? && !d.Restarts?
    case Commit => y.doing.Some? && Halts(y) <= y.store.stopped && !y.store.stage.Stopping?
    case OnStore(w) =>
      && M.Enabled(y.store, w) && !w.Restart?
      && (w.StopOwner? ==> w.owner in Halts(y))
      && (w.Place? ==> y.doing.None? && !G.FailedAt(y.media, G.Of(y.store.records[w.id].owner)))
    case Crash => true
  }

  function Next(y: Sys, step: Step): Sys {
    match step
    case Begin(d) => y.(doing := Some(d))
    case Commit => if y.doing.Some? then y.(media := G.Next(y.media, y.doing.value), doing := None) else y
    case OnStore(w) =>
      y.(store := M.Next(y.store, w),
         media := if w.Place? && w.id in y.store.records then G.Publish(y.media, y.store.records[w.id].owner) else y.media)
    case Crash =>
      Sys(G.Restarted(y.media), M.Next(y.store, M.Restart(G.Restarted(y.media).stopped)), None)
  }

  ghost predicate Runs(y: Sys, steps: seq<Step>)
    decreases |steps|
  {
    steps != [] ==> Enabled(y, steps[0]) && Runs(Next(y, steps[0]), steps[1..])
  }

  function Run(y: Sys, steps: seq<Step>): Sys
    decreases |steps|
  {
    if steps == [] then y else Run(Next(y, steps[0]), steps[1..])
  }

  // ---------------------------------------------------------- the invariant

  ghost predicate Inv(y: Sys) {
    && G.Inv(y.media) && y.media.stopped <= y.store.stopped && y.store.stopped <= y.media.stopped + Halts(y)
    && (y.doing.Some? ==> !y.doing.value.Restarts?)
  }

  /** Only a restart lets go of a stopped session. */
  lemma StoppedGrow(s: G.State, step: G.Step)
    requires !step.Restarts?
    ensures s.stopped <= G.Next(s, step).stopped
  {
    hide G.Named, G.Matched, G.Halted, G.Without, G.MissionFailed, G.Noticed, G.Matches;
  }

  lemma StoppedByStore(s: M.Store, w: M.Step)
    requires M.Enabled(s, w) && !w.Restart?
    ensures M.Next(s, w).stopped == s.stopped + if w.StopOwner? then {w.owner} else {}
  {
    hide M.FirstFree, M.Recording, M.Accepts;
  }

  lemma PublishKeeps(s: G.State, session: Session)
    requires G.Inv(s)
    ensures G.Inv(G.Publish(s, session)) && G.Publish(s, session) == s.(published := G.Publish(s, session).published)
  {
    G.PublishKeeps(s, session);
    hide G.Inv;
  }

  lemma StepKeepsInv(y: Sys, step: Step)
    requires Inv(y) && Enabled(y, step)
    ensures Inv(Next(y, step))
  {
    hide G.Inv, M.Enabled, M.Next;
    match step
    case Begin(_) =>
    case Commit =>
      G.StepKeepsInv(y.media, y.doing.value);
      StoppedGrow(y.media, y.doing.value);
    case OnStore(w) =>
      StoppedByStore(y.store, w);
      if w.Place? && w.id in y.store.records { PublishKeeps(y.media, y.store.records[w.id].owner); }
    case Crash =>
      G.RestartKeeps(y.media);
      RestartStops(y.store, G.Restarted(y.media).stopped);
    hide G.Next, G.Publish, G.Restarted;
  }

  lemma RestartStops(s: M.Store, failed: set<Session>)
    ensures M.Next(s, M.Restart(failed)).stopped == failed
  {
  }

  lemma StartInv()
    ensures Inv(START)
  {
    G.EmptyInv();
    hide G.Inv;
  }

  lemma {:induction false} RunKeepsInv(y: Sys, steps: seq<Step>)
    requires Inv(y) && Runs(y, steps)
    ensures Inv(Run(y, steps))
    decreases |steps|
  {
    hide Inv, Enabled, Next;
    if steps != [] {
      StepKeepsInv(y, steps[0]);
      RunKeepsInv(Next(y, steps[0]), steps[1..]);
    }
  }

  // -------------------------------------------------------- stopped for good

  /** The catalog file says that the delivery of this session failed. */
  predicate Persisted(y: Sys, o: Session) {
    G.Of(o) in y.media.catalog.deliveries && y.media.catalog.deliveries[G.Of(o)].phase.Failed?
  }

  /** Does a step ingest an original of this session, or publish a video or a photo of it? */
  predicate WorksOn(y: Sys, step: Step, o: Session) {
    step.OnStore?
    && match step.write
       case Record(m, _, _) => m.owner == o
       case Place(id, _, _) => id in y.store.records && y.store.records[id].owner == o
       case PlacePhoto =>
         y.store.photo.Chosen? && y.store.photo.id in y.store.records && y.store.records[y.store.photo.id].owner == o
       case _ => false
  }

  ghost predicate Untouched(y: Sys, steps: seq<Step>, o: Session)
    decreases |steps|
  {
    steps != [] ==> !WorksOn(y, steps[0], o) && Untouched(Next(y, steps[0]), steps[1..], o)
  }

  lemma PersistedStops(y: Sys, o: Session)
    requires Inv(y) && Persisted(y, o) && o.Known()
    ensures o in y.store.stopped && G.FailedAt(y.media, G.Of(o))
  {
    var k := G.Of(o);
    assert G.FailedAt(y.media, k);
    assert G.Settled(y.media, k) && y.media.deliveries[k].session == o;
  }

  lemma PersistedStays(y: Sys, step: Step, o: Session)
    requires Inv(y) && Enabled(y, step) && Persisted(y, o) && o.Known()
    ensures Persisted(Next(y, step), o) && !WorksOn(y, step, o)
  {
    PersistedStops(y, o);
    StepKeepsInv(y, step);
    var k := G.Of(o);
    match step
    case Commit =>
      G.StepKeepsInv(y.media, y.doing.value);
      G.FailedIsPersisted(G.Next(y.media, y.doing.value), k);
    case OnStore(w) => NotWorked(y, w, o);
    case _ =>
    hide G.Inv, G.Next, M.Next, M.Enabled;
  }

  lemma NotWorked(y: Sys, w: M.Step, o: Session)
    requires Enabled(y, OnStore(w)) && o in y.store.stopped && G.FailedAt(y.media, G.Of(o))
    ensures !WorksOn(y, OnStore(w), o)
    ensures Next(y, OnStore(w)).media.catalog == y.media.catalog
  {
    hide M.FirstFree, M.Next;
  }

  lemma {:induction false} PersistedForGood(y: Sys, steps: seq<Step>, o: Session)
    requires Inv(y) && Persisted(y, o) && o.Known() && Runs(y, steps)
    ensures Untouched(y, steps, o) && Persisted(Run(y, steps), o)
    decreases |steps|
  {
    hide Inv, Enabled, Next, WorksOn, Persisted;
    if steps != [] {
      PersistedStays(y, steps[0], o);
      StepKeepsInv(y, steps[0]);
      PersistedForGood(Next(y, steps[0]), steps[1..], o);
    }
  }

  lemma {:induction false} FreshId(ids: set<nat>) returns (id: nat)
    ensures id !in ids && forall k | k in ids :: k < id
    decreases ids
  {
    if ids == {} {
      id := 0;
    } else {
      var k :| k in ids;
      var rest := FreshId(ids - {k});
      id := if k < rest then rest else k + 1;
      assert ids == ids - {k} + {k};
    }
  }

  lemma {:induction false} LongName(paths: set<M.Path>) returns (n: nat)
    ensures forall p | p in paths :: |p.name| < n
    decreases paths
  {
    if paths == {} {
      n := 0;
    } else {
      var p :| p in paths;
      var rest := LongName(paths - {p});
      n := if |p.name| < rest then rest else |p.name| + 1;
      assert paths == paths - {p} + {p};
    }
  }

  /** Some name is free at once. */
  lemma FreeName(paths: set<M.Path>, owner: Session) returns (name: M.Name)
    ensures M.FirstFree(paths, M.Internal, owner, name, M.PathAt(M.Internal, owner, name, 1))
  {
    var n := LongName(paths);
    var full := seq(n, _ => 'a');
    name := M.Name(full, full, "");
    assert M.PathAt(M.Internal, owner, name, 1).name == full;
  }

  /** Unless the failure was persisted, a crash forgets it and an upload is taken in again. */
  lemma ForgottenWork(y: Sys, o: Session) returns (steps: seq<Step>)
    requires Inv(y) && o.Known() && !Persisted(y, o)
    ensures Runs(y, steps) && !Untouched(y, steps, o)
  {
    var y1 := Next(y, Crash);
    NotStopped(y, o);
    var id := FreshId(y1.store.records.Keys);
    var name := FreeName(M.Originals(y1.store.records, id), o);
    var target := M.PathAt(M.Internal, o, name, 1);
    var c := M.Content(0, 0);
    var m := M.Manifest(id, o, name, false, c, 0.0);
    var payload, manifest, record := OnStore(M.PayloadArrives(id, c)), OnStore(M.ManifestArrives(m)), OnStore(M.Record(m, target, 0.0));
    var y2 := Next(y1, payload);
    var y3 := Next(y2, manifest);
    assert y3.store == y1.store.(payloads := y1.store.payloads[id := c], manifests := y1.store.manifests[m.id := m]);
    hide M.FirstFree, G.Restarted, Inv;
    LastStep(y3, record, o);
    Prepend(y2, manifest, y3, [record], o);
    Prepend(y1, payload, y2, [manifest, record], o);
    Prepend(y, Crash, y1, [payload, manifest, record], o);
    steps := [Crash] + [payload, manifest, record];
  }

  lemma LastStep(y: Sys, step: Step, o: Session)
    requires Enabled(y, step) && WorksOn(y, step, o)
    ensures Runs(y, [step]) && !Untouched(y, [step], o)
  {
    assert [step][1..] == [];
    hide Enabled, Next, WorksOn;
  }

  lemma Prepend(y: Sys, step: Step, z: Sys, rest: seq<Step>, o: Session)
    requires Enabled(y, step) && z == Next(y, step) && Runs(z, rest) && !Untouched(z, rest, o)
    ensures var steps := [step] + rest; Runs(y, steps) && !Untouched(y, steps, o)
  {
    assert ([step] + rest)[1..] == rest;
    hide Enabled, Next, WorksOn;
  }

  lemma NotStopped(y: Sys, o: Session)
    requires G.Inv(y.media) && !Persisted(y, o)
    ensures o !in Next(y, Crash).store.stopped && Next(y, Crash).store.stage.Idle?
  {
  }

  /** A session is stopped for good, so that in no run anything more of it is ingested or published, if
      and only if its failure has reached the catalog file. */
  lemma StoppedForGoodIff(y: Sys, o: Session)
    requires Inv(y) && o.Known()
    ensures Persisted(y, o) <==> forall steps | Runs(y, steps) :: Untouched(y, steps, o)
  {
    hide Inv, Persisted, Untouched, Runs;
    if Persisted(y, o) {
      forall steps | Runs(y, steps) ensures Untouched(y, steps, o) { PersistedForGood(y, steps, o); }
    } else {
      var steps := ForgottenWork(y, o);
    }
  }

  /** Whenever no decision is under way every failure has reached the catalog, so from then on nothing of
      the session is ever ingested or published, whatever happens. */
  lemma FailedForGood(before: seq<Step>, after: seq<Step>, o: Session)
    requires Runs(START, before) && o.Known() && G.FailedAt(Run(START, before).media, G.Of(o))
    requires Runs(Run(START, before), after)
    ensures Untouched(Run(START, before), after, o) && Persisted(Run(Run(START, before), after), o)
  {
    hide Inv, Enabled, Next;
    StartInv();
    RunKeepsInv(START, before);
    var y := Run(START, before);
    MediaInv(y);
    G.FailedIsPersisted(y.media, G.Of(o));
    PersistedForGood(y, after, o);
  }

  lemma MediaInv(y: Sys)
    requires Inv(y)
    ensures G.Inv(y.media)
  {
  }

  const LOST := Session(1, 1)
  const NAME := M.Name("a", "a", "")
  const UPLOAD := M.Manifest(0, LOST, NAME, false, M.Content(1, 1), 0.0)
  const FAILURE := G.FailureReported(G.Failure(LOST, 5, 5))
  const FILED := OnStore(M.Record(UPLOAD, M.PathAt(M.Internal, LOST, NAME, 1), 0.0))

  /** An upload waits in the inbox, and its session is stopped because its delivery fails. */
  const STOPPING := [OnStore(M.PayloadArrives(0, UPLOAD.content)), OnStore(M.ManifestArrives(UPLOAD)), Begin(FAILURE),
                     OnStore(M.StopOwner(LOST))]

  /** The store with that upload in its inbox, and the whole once the session is stopped. */
  const WAITING := M.EMPTY.(payloads := map[0 := UPLOAD.content], manifests := map[0 := UPLOAD])
  const STOPPED := Sys(G.EMPTY, WAITING.(stopped := {LOST}, stage := M.Stopping(LOST)), Some(FAILURE))

  /** If the process dies now, before the catalog is written, the upload is taken in after all. */
  lemma StopCanBeForgotten()
    ensures Runs(START, STOPPING) && LOST in Run(START, STOPPING).store.stopped
    ensures Runs(Run(START, STOPPING), [Crash, FILED]) && !Untouched(Run(START, STOPPING), [Crash, FILED], LOST)
  {
    StopReached();
    AfterTheCrash();
    hide Next, Enabled, Runs, Untouched, Run;
    LastStep(Sys(G.EMPTY, WAITING, None), FILED, LOST);
    Prepend(STOPPED, Crash, Sys(G.EMPTY, WAITING, None), [FILED], LOST);
    assert [Crash] + [FILED] == [Crash, FILED];
  }

  lemma StopReached()
    ensures Runs(START, STOPPING) && Run(START, STOPPING) == STOPPED
  {
    var y1 := START.(store := M.EMPTY.(payloads := map[0 := UPLOAD.content]));
    var y2 := START.(store := WAITING);
    var y3 := Sys(G.EMPTY, WAITING, Some(FAILURE));
    UploadArrives();
    SessionStops();
    hide Next, Enabled;
    var s := STOPPING;
    assert s[1..] == [s[1], s[2], s[3]] && s[1..][1..] == [s[2], s[3]] && s[1..][1..][1..] == [s[3]] && s[1..][1..][1..][1..] == [];
    assert Runs(y3, [s[3]]) && Run(y3, [s[3]]) == STOPPED;
    assert Runs(y2, [s[2], s[3]]) && Run(y2, [s[2], s[3]]) == STOPPED;
    assert Runs(y1, s[1..]) && Run(y1, s[1..]) == STOPPED;
  }

  lemma UploadArrives()
    ensures var y1, y2 := START.(store := M.EMPTY.(payloads := map[0 := UPLOAD.content])), START.(store := WAITING);
      && Enabled(START, STOPPING[0]) && Next(START, STOPPING[0]) == y1
      && Enabled(y1, STOPPING[1]) && Next(y1, STOPPING[1]) == y2
      && Enabled(y2, STOPPING[2]) && Next(y2, STOPPING[2]) == Sys(G.EMPTY, WAITING, Some(FAILURE))
  {
    hide G.Next;
  }

  lemma SessionStops()
    ensures var y := Sys(G.EMPTY, WAITING, Some(FAILURE)); Enabled(y, STOPPING[3]) && Next(y, STOPPING[3]) == STOPPED
  {
    FailureHalts();
    hide G.Next;
  }

  lemma FailureHalts()
    ensures G.Next(G.EMPTY, FAILURE).stopped == {LOST}
  {
    var f := FAILURE.failure;
    var d := G.Delivery(LOST, 5, 5, G.Waiting, true, None, 0);
    var named := map[G.Of(LOST) := d];
    assert G.Matched(map[], f) == {};
    assert G.Named(map[], f) == named;
    assert G.Matched(named, f) == {G.Of(LOST)};
    assert named[G.Of(LOST)] == d;
    assert G.Halted(named, {G.Of(LOST)}) == {LOST};
  }

  lemma AfterTheCrash()
    ensures var y := Sys(G.EMPTY, WAITING, None);
      && Enabled(STOPPED, Crash) && Next(STOPPED, Crash) == y
      && Enabled(y, FILED) && WorksOn(y, FILED, LOST)
  {
    assert G.Restarted(G.EMPTY) == G.EMPTY;
    assert M.Originals(map[], 0) == {};
  }
}
