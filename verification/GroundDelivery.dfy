/** The ground's video delivery decisions (video_service/ground_media.py, class GroundMedia).

    `State` holds what the decisions read under `self.lock`; `catalog` is the file that survives a
    restart.
 */
module GroundDelivery {
  import opened Options
  import opened Sessions

  datatype Phase = Waiting | Fallback | Uploading | Ready | Failed

  datatype Delivery = Delivery(
    session: Session, source: nat, mission: nat, phase: Phase,
    ended: bool, landedAt: Option<real>, record: nat)

  /** Where a delivery is filed: under its session, or under its mission when no session is known. */
  datatype Key = Of(session: Session) | Mission(source: nat, mission: nat)

  function KeyOf(d: Delivery): Key {
    if d.session.Known() then Of(d.session) else Mission(d.source, d.mission)
  }

  datatype Active = Active(id: nat, source: nat, mission: nat, started: real)

  datatype Catalog = Catalog(closed: set<Session>, deliveries: map<Key, Delivery>)

  datatype State = State(
    deliveries: map<Key, Delivery>, sessions: map<nat, Active>, ended: set<Session>, stopped: set<Session>,
    catalog: Catalog, published: seq<Session>)

  const EMPTY := State(map[], map[], {}, {}, Catalog({}, map[]), [])

  predicate FailedAt(s: State, key: Key) { key in s.deliveries && s.deliveries[key].phase.Failed? }

  // ------------------------------------------------------------ persistence

  predicate Lasts(d: Delivery) { d.ended || d.phase.Ready? || d.phase.Failed? }

  /** `_save_sessions`. */
  function Saved(s: State): State {
    s.(catalog := Catalog(
         s.ended + set k | k in s.deliveries && Lasts(s.deliveries[k]) && s.deliveries[k].session.Known() :: s.deliveries[k].session,
         map k | k in s.deliveries && Lasts(s.deliveries[k]) :: s.deliveries[k]))
  }

  /** A restart keeps only the catalog; published files stay published. */
  function Restarted(s: State): State {
    State(s.catalog.deliveries, map[], s.catalog.closed,
          set k | k in s.catalog.deliveries && s.catalog.deliveries[k].phase.Failed? && s.catalog.deliveries[k].session.Known()
            :: s.catalog.deliveries[k].session,
          s.catalog, s.published)
  }

  // ---------------------------------------------------------------- failure

  datatype Failure = Failure(session: Session, source: nat, mission: nat)

  predicate Matches(d: Delivery, f: Failure) {
    (f.session.id != 0 && d.session == f.session) || (f.source != 0 && d.source == f.source && d.mission == f.mission)
  }

  function Matched(deliveries: map<Key, Delivery>, f: Failure): set<Key> {
    set k | k in deliveries && Matches(deliveries[k], f)
  }

  /** One matched delivery: ready ones are left, the others fail. */
  function Fallen(d: Delivery): Delivery { if d.phase.Ready? then d else d.(phase := Failed) }

  /** The sessions whose work a failure stops. */
  function Halted(deliveries: map<Key, Delivery>, matched: set<Key>): set<Session> {
    set k | k in matched && k in deliveries && !deliveries[k].phase.Ready? && deliveries[k].session.Known() :: deliveries[k].session
  }

  function Without(sessions: map<nat, Active>, halted: set<Session>): map<nat, Active> {
    map a | a in sessions && Session(a, sessions[a].id) !in halted :: sessions[a]
  }

  /** The deliveries a failure concerns, a tombstone included when it is the first to name its mission. */
  function Named(deliveries: map<Key, Delivery>, f: Failure): map<Key, Delivery> {
    if Matched(deliveries, f) != {} || f.source == 0 || f.mission == 0 then deliveries
    else
      var d := Delivery(f.session, f.source, f.mission, Waiting, true, None, 0);
      deliveries[KeyOf(d) := d]
  }

  /** `fail_delivery`; without a matching delivery or a mission it raises and changes nothing. */
  function Fail(s: State, f: Failure): State {
    var named := Named(s.deliveries, f);
    var matched := Matched(named, f);
    if matched == {} then s
    else
      var halted := Halted(named, matched);
      Saved(s.(deliveries := map k | k in named :: if k in matched then Fallen(named[k]) else named[k],
               sessions := Without(s.sessions, halted), ended := s.ended + halted, stopped := s.stopped + halted))
  }

  function FailureOf(d: Delivery): Failure { Failure(d.session, d.source, d.mission) }

  // ----------------------------------------------------------------- notices

  datatype Notice = Notice(
    session: Session, source: nat, mission: nat, landedAt: Option<real>, started: real, closing: bool)

  /** The delivery a notice speaks of, with what the notice adds. */
  function Noticed(deliveries: map<Key, Delivery>, n: Notice): Delivery {
    var d := if Of(n.session) in deliveries then deliveries[Of(n.session)]
             else Delivery(n.session, n.source, n.mission, Waiting, false, None, 0);
    var e := if n.mission != 0 then d.(source := n.source, mission := n.mission) else d;
    if e.landedAt.None? then e.(landedAt := n.landedAt) else e
  }

  /** A failed delivery of the same mission. */
  predicate MissionFailed(deliveries: map<Key, Delivery>, d: Delivery) {
    d.mission != 0
    && exists k :: k in deliveries && deliveries[k].phase.Failed? && deliveries[k].source == d.source && deliveries[k].mission == d.mission
  }

  /** `_finish` of the session an aircraft has open. */
  function Finish(s: State, aircraft: nat): State
    requires aircraft in s.sessions
  {
    var a := s.sessions[aircraft];
    var name := Session(aircraft, a.id);
    s.(ended := s.ended + {name},
       deliveries := if Of(name) in s.deliveries
                     then s.deliveries[Of(name) := s.deliveries[Of(name)].(source := a.source, mission := a.mission, ended := true)]
                     else s.deliveries)
  }

  /** `session`, once the delivery is known not to have failed. */
  function Opened(s: State, n: Notice, calibrated: bool): State
    requires Of(n.session) in s.deliveries
  {
    var aircraft := n.session.aircraft;
    if n.session in s.ended then Saved(s)
    else
      var open := aircraft in s.sessions;
      if open && s.sessions[aircraft].id != n.session.id && n.started < s.sessions[aircraft].started then
        Saved(s.(ended := s.ended + {n.session}))
      else
        var t := if open && s.sessions[aircraft].id != n.session.id then Finish(s, aircraft) else s;
        var joining := open && s.sessions[aircraft].id == n.session.id;
        if !joining && !calibrated then
          var u := t.(sessions := t.sessions[aircraft := Active(n.session.id, n.source, n.mission, n.started)]);
          Fail(u, FailureOf(u.deliveries[Of(n.session)]))
        else
          var a := if joining then s.sessions[aircraft] else Active(n.session.id, n.source, n.mission, n.started);
          var b := if n.mission != 0 then a.(source := n.source, mission := n.mission) else a;
          var u := t.(sessions := t.sessions[aircraft := b]);
          Saved(if n.closing then Finish(u, aircraft).(sessions := u.sessions - {aircraft}) else u)
  }

  /** The delivery a notice speaks of is filed before anything is decided. */
  function Heard(s: State, n: Notice): State {
    s.(deliveries := s.deliveries[Of(n.session) := Noticed(s.deliveries, n)])
  }

  /** Has the delivery failed already, itself or with its mission? */
  predicate Inherits(s: State, n: Notice) {
    MissionFailed(Heard(s, n).deliveries, Noticed(s.deliveries, n)) || Noticed(s.deliveries, n).phase.Failed?
  }

  function Inherited(s: State, n: Notice): State {
    var d := Noticed(s.deliveries, n);
    Fail(s.(deliveries := s.deliveries[Of(n.session) := d.(phase := Failed)]), FailureOf(d))
  }

  /** `session`; a notice without proper names raises and changes nothing. */
  function Receive(s: State, n: Notice, calibrated: bool): State {
    if !n.session.Known() then s
    else if Inherits(s, n) then Inherited(s, n)
    else Opened(Heard(s, n), n, calibrated)
  }

  // ------------------------------------------------------- decisions and workers

  /** What `_finalize_uploaded_videos` decides for one delivery from the records it sees. */
  datatype Verdict = Keep | AskOriginal | AwaitRemote | Deliver(record: nat) | GiveUp

  predicate Pending(d: Delivery) { !d.phase.Ready? && !d.phase.Failed? && d.ended }

  function Conclude(s: State, key: Key, v: Verdict): State {
    if key !in s.deliveries || !Pending(s.deliveries[key]) then s
    else
      var d := s.deliveries[key];
      match v
      case Keep => s
      case AskOriginal => Saved(s.(deliveries := s.deliveries[key := d.(phase := Fallback)]))
      case AwaitRemote => Saved(s.(deliveries := s.deliveries[key := d.(phase := Uploading)]))
      case Deliver(record) => Saved(s.(deliveries := s.deliveries[key := d.(phase := Ready, record := record)]))
      case GiveUp => Fail(s, FailureOf(d))
  }

  /** The publishing section shared by the three workers: validation, assembly and rebuild. */
  function Publish(s: State, session: Session): State {
    if FailedAt(s, Of(session)) then s else s.(published := s.published + [session])
  }

  /** A worker that failed. */
  function WorkerFails(s: State, session: Session): State { Fail(s, Failure(session, 0, 0)) }

  // ---------------------------------------------------------- steps and runs

  datatype Step =
    | NoticeArrives(notice: Notice, calibrated: bool)
    | FailureReported(failure: Failure)
    | SessionEnds(aircraft: nat)
    | Concludes(key: Key, verdict: Verdict)
    | WorkerPublishes(session: Session)
    | WorkerGivesUp(session: Session)
    | Persists
    | Restarts

  function Next(s: State, step: Step): State {
    match step
    case NoticeArrives(n, calibrated) => Receive(s, n, calibrated)
    case FailureReported(f) => Fail(s, f)
    case SessionEnds(a) => if a in s.sessions then Finish(s, a).(sessions := s.sessions - {a}) else s
    case Concludes(key, v) => Conclude(s, key, v)
    case WorkerPublishes(session) => Publish(s, session)
    case WorkerGivesUp(session) => WorkerFails(s, session)
    case Persists => Saved(s)
    case Restarts => Restarted(s)
  }

  function Run(s: State, steps: seq<Step>): State
    decreases |steps|
  {
    if steps == [] then s else Run(Next(s, steps[0]), steps[1..])
  }

  /** A failed delivery is filed under its own key, persisted, and its session is closed and stopped. */
  ghost predicate Settled(s: State, k: Key)
    requires k in s.deliveries
  {
    var d := s.deliveries[k];
    && KeyOf(d) == k
    && (d.phase.Failed? ==>
          && k in s.catalog.deliveries && s.catalog.deliveries[k].phase.Failed?
          && (d.session.Known() ==> d.session in s.stopped && d.session in s.ended
                                    && (d.session.aircraft in s.sessions ==> s.sessions[d.session.aircraft].id != d.session.id)))
  }

  ghost predicate Inv(s: State) {
    && (forall k | k in s.deliveries :: Settled(s, k))
    && (forall k | k in s.catalog.deliveries ::
          KeyOf(s.catalog.deliveries[k]) == k
          && (s.catalog.deliveries[k].session.Known() ==> s.catalog.deliveries[k].session in s.catalog.closed)
          && (s.catalog.deliveries[k].phase.Failed? ==> FailedAt(s, k)))
  }

  /** Nothing about failures was lost. */
  ghost predicate FailuresStay(s: State, t: State) { forall k | FailedAt(s, k) :: FailedAt(t, k) }

  lemma SavedInv(s: State)
    requires Filed(s.deliveries) && forall k | FailedAt(s, k) :: Closed(s, s.deliveries[k])
    ensures Inv(Saved(s)) && Saved(s).deliveries == s.deliveries
  {
  }

  /** Everything the sessions of failed deliveries need, short of being persisted. */
  ghost predicate Closed(s: State, d: Delivery) {
    d.session.Known() ==>
      && d.session in s.stopped && d.session in s.ended
      && (d.session.aircraft in s.sessions ==> s.sessions[d.session.aircraft].id != d.session.id)
  }

  ghost predicate Filed(deliveries: map<Key, Delivery>) { forall k | k in deliveries :: KeyOf(deliveries[k]) == k }

  /** `fail_delivery` before it saves. */
  function FailedState(s: State, f: Failure): State {
    var named := Named(s.deliveries, f);
    var matched := Matched(named, f);
    var halted := Halted(named, matched);
    s.(deliveries := map k | k in named :: if k in matched then Fallen(named[k]) else named[k],
       sessions := Without(s.sessions, halted), ended := s.ended + halted, stopped := s.stopped + halted)
  }

  lemma NamedFiled(deliveries: map<Key, Delivery>, f: Failure)
    requires Filed(deliveries)
    ensures Filed(Named(deliveries, f))
    ensures forall k | k in deliveries && deliveries[k].phase.Failed? :: k in Named(deliveries, f) && Named(deliveries, f)[k].phase.Failed?
    ensures forall k | k in deliveries && Matches(deliveries[k], f) :: Named(deliveries, f) == deliveries
    ensures forall k | k in Named(deliveries, f) && !Matches(Named(deliveries, f)[k], f) ::
      k in deliveries && deliveries[k] == Named(deliveries, f)[k]
  {
    if Matched(deliveries, f) == {} && f.source != 0 && f.mission != 0 {
      var d := Delivery(f.session, f.source, f.mission, Waiting, true, None, 0);
      if KeyOf(d) in deliveries { SameKeyMatches(deliveries[KeyOf(d)], f); }
    }
    forall k | k in deliveries && Matches(deliveries[k], f) ensures Named(deliveries, f) == deliveries {
      assert k in Matched(deliveries, f);
    }
  }

  /** A failure that would be filed under a delivery's key matches that delivery. */
  lemma SameKeyMatches(d: Delivery, f: Failure)
    requires f.source != 0 && KeyOf(d) == KeyOf(Delivery(f.session, f.source, f.mission, Waiting, true, None, 0))
    ensures Matches(d, f)
  {
  }

  lemma FailedClosed(s: State, f: Failure, k: Key)
    requires Filed(s.deliveries) && FailedAt(FailedState(s, f), k)
    requires FailedAt(s, k) && !Matches(s.deliveries[k], f) ==> Closed(s, s.deliveries[k])
    ensures Closed(FailedState(s, f), FailedState(s, f).deliveries[k])
  {
  }

  lemma FailKeeps(s: State, f: Failure)
    requires Filed(s.deliveries)
    requires forall k | FailedAt(s, k) && !Matches(s.deliveries[k], f) :: Closed(s, s.deliveries[k])
    requires Matched(Named(s.deliveries, f), f) != {}
    ensures Inv(Fail(s, f)) && FailuresStay(s, Fail(s, f))
    ensures forall k | k in s.deliveries && Matches(s.deliveries[k], f) && !s.deliveries[k].phase.Ready? :: FailedAt(Fail(s, f), k)
    ensures Fail(s, f).published == s.published
  {
    NamedFiled(s.deliveries, f);
    var t := FailedState(s, f);
    assert Fail(s, f) == Saved(t);
    hide Matches, Halted, Without, Named;
    forall k | FailedAt(t, k) ensures Closed(t, t.deliveries[k]) { FailedClosed(s, f, k); }
    SavedInv(t);
  }

  lemma FinishKeeps(s: State, aircraft: nat)
    requires Inv(s) && aircraft in s.sessions
    ensures var t := Finish(s, aircraft);
      Inv(t) && FailuresStay(s, t) && t.published == s.published && t.sessions == s.sessions
      && (forall k | k in s.deliveries :: k in t.deliveries && t.deliveries[k].phase == s.deliveries[k].phase)
  {
  }

  /** Closing an aircraft's entry is harmless. */
  lemma CloseKeeps(s: State, aircraft: nat)
    requires Inv(s)
    ensures var t := s.(sessions := s.sessions - {aircraft}); Inv(t) && FailuresStay(s, t)
  {
  }

  /** So is opening a session that has not failed. */
  lemma OpenKeeps(s: State, aircraft: nat, a: Active)
    requires Inv(s) && !FailedAt(s, Of(Session(aircraft, a.id)))
    ensures var t := s.(sessions := s.sessions[aircraft := a]); Inv(t) && FailuresStay(s, t)
  {
  }

  lemma EndKeeps(s: State, n: Session)
    requires Inv(s)
    ensures var t := s.(ended := s.ended + {n}); Inv(t) && FailuresStay(s, t)
  {
  }

  lemma SaveKeeps(s: State)
    requires Inv(s)
    ensures Inv(Saved(s)) && FailuresStay(s, Saved(s)) && Saved(s).published == s.published
  {
  }

  /** A failure that names a delivery keeps everything. */
  lemma FailureKeeps(s: State, f: Failure)
    requires Inv(s)
    ensures Inv(Fail(s, f)) && FailuresStay(s, Fail(s, f)) && Fail(s, f).published == s.published
  {
    if Matched(Named(s.deliveries, f), f) != {} {
      forall k | k in s.deliveries ensures Settled(s, k) { }
      FailKeeps(s, f);
    }
  }

  lemma OpenedKeeps(s: State, n: Notice, calibrated: bool)
    requires Inv(s) && Of(n.session) in s.deliveries && !FailedAt(s, Of(n.session))
    ensures var t := Opened(s, n, calibrated); Inv(t) && FailuresStay(s, t) && t.published == s.published
  {
    hide Inv, Saved, Finish, Fail;
    var aircraft := n.session.aircraft;
    var open := aircraft in s.sessions;
    SaveKeeps(s);
    if n.session in s.ended {
    } else if open && s.sessions[aircraft].id != n.session.id && n.started < s.sessions[aircraft].started {
      EndKeeps(s, n.session);
      SaveKeeps(s.(ended := s.ended + {n.session}));
    } else {
      if open { FinishKeeps(s, aircraft); }
      var t := if open && s.sessions[aircraft].id != n.session.id then Finish(s, aircraft) else s;
      assert Inv(t) && !FailedAt(t, Of(n.session)) && Of(n.session) in t.deliveries && t.published == s.published;
      var joining := open && s.sessions[aircraft].id == n.session.id;
      if !joining && !calibrated {
        var a := Active(n.session.id, n.source, n.mission, n.started);
        OpenKeeps(t, aircraft, a);
        var u := t.(sessions := t.sessions[aircraft := a]);
        FailureKeeps(u, FailureOf(u.deliveries[Of(n.session)]));
      } else {
        var a := if joining then s.sessions[aircraft] else Active(n.session.id, n.source, n.mission, n.started);
        var b := if n.mission != 0 then a.(source := n.source, mission := n.mission) else a;
        OpenKeeps(t, aircraft, b);
        var u := t.(sessions := t.sessions[aircraft := b]);
        FinishKeeps(u, aircraft);
        CloseKeeps(Finish(u, aircraft), aircraft);
        SaveKeeps(u);
        SaveKeeps(Finish(u, aircraft).(sessions := u.sessions - {aircraft}));
      }
    }
  }

  /** A notice for a delivery that has not failed leaves every failure in place. */
  lemma NoticedKeeps(s: State, n: Notice)
    requires Inv(s) && n.session.Known() && !FailedAt(s, Of(n.session))
    ensures !Noticed(s.deliveries, n).phase.Failed?
    ensures Inv(Heard(s, n)) && FailuresStay(s, Heard(s, n))
  {
  }

  /** The delivery as the notice leaves it, failed. */
  lemma InheritKeeps(s: State, n: Notice)
    requires Inv(s) && n.session.Known()
    ensures var u := Inherited(s, n);
      Inv(u) && FailuresStay(s, u) && u.published == s.published && FailedAt(u, Of(n.session))
  {
    var d := Noticed(s.deliveries, n);
    NoticedSession(s, n);
    var t := s.(deliveries := s.deliveries[Of(n.session) := d.(phase := Failed)]);
    var f := FailureOf(d);
    assert Of(n.session) in Matched(t.deliveries, f);
    forall k | k in t.deliveries ensures KeyOf(t.deliveries[k]) == k { if k != Of(n.session) { assert Settled(s, k); } }
    forall k | FailedAt(t, k) && !Matches(t.deliveries[k], f) ensures Closed(t, t.deliveries[k]) {
      assert Settled(s, k);
    }
    hide Noticed, Inv, Settled, Matches;
    FailKeeps(t, f);
  }

  lemma NoticedSession(s: State, n: Notice)
    requires Inv(s) && n.session.Known()
    ensures Noticed(s.deliveries, n).session == n.session
  {
  }

  lemma ReceiveKeeps(s: State, n: Notice, calibrated: bool)
    requires Inv(s)
    ensures var t := Receive(s, n, calibrated); Inv(t) && FailuresStay(s, t) && t.published == s.published
  {
    hide Inv, Inherited, Opened, MissionFailed, Noticed;
    if n.session.Known() {
      if Inherits(s, n) {
        InheritKeeps(s, n);
      } else {
        NoticePhase(s.deliveries, n);
        NoticedKeeps(s, n);
        OpenedKeeps(Heard(s, n), n, calibrated);
      }
    }
  }

  lemma NoticePhase(deliveries: map<Key, Delivery>, n: Notice)
    ensures Of(n.session) in deliveries ==> Noticed(deliveries, n).phase == deliveries[Of(n.session)].phase
  {
  }

  lemma ConcludeKeeps(s: State, key: Key, v: Verdict)
    requires Inv(s)
    ensures Inv(Conclude(s, key, v)) && FailuresStay(s, Conclude(s, key, v)) && Conclude(s, key, v).published == s.published
  {
    if key in s.deliveries && Pending(s.deliveries[key]) {
      var d := s.deliveries[key];
      FailureKeeps(s, FailureOf(d));
      forall k | k in s.deliveries ensures Settled(s, k) { }
      if !v.Keep? && !v.GiveUp? {
        var e := if v.AskOriginal? then d.(phase := Fallback) else if v.AwaitRemote? then d.(phase := Uploading)
                 else d.(phase := Ready, record := v.record);
        SavedInv(s.(deliveries := s.deliveries[key := e]));
      }
    }
    hide Fail, Inv, Settled;
  }

  lemma RestartKeeps(s: State)
    requires Inv(s)
    ensures Inv(Restarted(s)) && FailuresStay(s, Restarted(s)) && Restarted(s).published == s.published
  {
  }

  /** One step: the invariant holds, no failure is forgotten, and nothing is published for a session
      whose delivery has failed. */
  lemma StepKeepsInv(s: State, step: Step)
    requires Inv(s)
    ensures Inv(Next(s, step)) && FailuresStay(s, Next(s, step))
    ensures |Next(s, step).published| <= |s.published| + 1 && s.published <= Next(s, step).published
    ensures |Next(s, step).published| == |s.published| + 1 ==>
      !FailedAt(s, Of(Next(s, step).published[|s.published|]))
  {
    match step
    case NoticeArrives(n, calibrated) => ReceiveKeeps(s, n, calibrated);
    case FailureReported(f) => FailureKeeps(s, f);
    case SessionEnds(a) =>
      if a in s.sessions {
        FinishKeeps(s, a);
        CloseKeeps(Finish(s, a), a);
      }
    case Concludes(key, v) => ConcludeKeeps(s, key, v);
    case WorkerPublishes(session) =>
      PublishKeeps(s, session);
    case WorkerGivesUp(session) => FailureKeeps(s, Failure(session, 0, 0));
    case Persists => SaveKeeps(s);
    case Restarts => RestartKeeps(s);
    hide Inv, Receive, Fail, Finish, Conclude, Saved, Restarted;
  }

  lemma PublishKeeps(s: State, session: Session)
    requires Inv(s)
    ensures Inv(Publish(s, session)) && FailuresStay(s, Publish(s, session))
  {
  }

  /** Over every run, restarts included: a failed delivery stays failed and persisted, and nothing more
      is published for its session. */
  lemma {:induction false} FailureAbsorbs(s: State, steps: seq<Step>, session: Session)
    requires Inv(s) && FailedAt(s, Of(session))
    ensures var t := Run(s, steps);
      && Inv(t) && FailedAt(t, Of(session))
      && Of(session) in t.catalog.deliveries && t.catalog.deliveries[Of(session)].phase.Failed?
      && s.published <= t.published
      && (forall i | |s.published| <= i < |t.published| :: t.published[i] != session)
    decreases |steps|
  {
    hide Inv, Next;
    if steps == [] {
      FailedIsPersisted(s, Of(session));
    } else {
      StepKeepsInv(s, steps[0]);
      FailureAbsorbs(Next(s, steps[0]), steps[1..], session);
    }
  }

  lemma FailedIsPersisted(s: State, k: Key)
    requires Inv(s) && FailedAt(s, k)
    ensures k in s.catalog.deliveries && s.catalog.deliveries[k].phase.Failed?
  {
  }

  lemma EmptyInv()
    ensures Inv(EMPTY)
  {
  }

  lemma {:induction false} RunKeepsInv(s: State, steps: seq<Step>)
    requires Inv(s)
    ensures Inv(Run(s, steps))
    decreases |steps|
  {
    if steps != [] {
      StepKeepsInv(s, steps[0]);
      RunKeepsInv(Next(s, steps[0]), steps[1..]);
    }
    hide Inv, Next;
  }

  /** From start-up on, whatever happens before and after: once failed, for good. */
  lemma FailureIsFinal(before: seq<Step>, after: seq<Step>, session: Session)
    requires FailedAt(Run(EMPTY, before), Of(session))
    ensures var s, t := Run(EMPTY, before), Run(Run(EMPTY, before), after);
      && FailedAt(t, Of(session)) && FailedAt(Restarted(t), Of(session)) && s.published <= t.published
      && (forall i | |s.published| <= i < |t.published| :: t.published[i] != session)
  {
    hide Next;
    EmptyInv();
    RunKeepsInv(EMPTY, before);
    FailureAbsorbs(Run(EMPTY, before), after, session);
    RestartKeeps(Run(Run(EMPTY, before), after));
    hide Inv;
  }

  /** A notice whose mission has failed, known session or not, leaves its delivery failed; any other
      notice fails it only when its calibration cannot be frozen. */
  lemma MissionFailureInherited(s: State, n: Notice, calibrated: bool)
    requires Inv(s) && n.session.Known()
    ensures Inherits(s, n) ==> FailedAt(Receive(s, n, calibrated), Of(n.session))
    ensures calibrated && !Inherits(s, n) ==> !FailedAt(Receive(s, n, calibrated), Of(n.session))
    ensures FailedAt(s, Of(n.session)) ==> Inherits(s, n)
  {
    hide Inv, Inherited, Opened, MissionFailed, Noticed;
    NoticePhase(s.deliveries, n);
    if Inherits(s, n) {
      InheritKeeps(s, n);
    } else {
      OpenedPhase(Heard(s, n), n);
    }
  }

  lemma OpenedPhase(s: State, n: Notice)
    requires Of(n.session) in s.deliveries
    ensures Of(n.session) in Opened(s, n, true).deliveries
    ensures Opened(s, n, true).deliveries[Of(n.session)].phase == s.deliveries[Of(n.session)].phase
  {
  }

  predicate ReadyAt(s: State, key: Key) { key in s.deliveries && s.deliveries[key].phase.Ready? }

  /** `fail_delivery` leaves ready deliveries alone. */
  lemma FailLeavesReady(s: State, f: Failure, key: Key)
    requires ReadyAt(s, key) && forall k | k in s.deliveries :: KeyOf(s.deliveries[k]) == k
    ensures ReadyAt(Fail(s, f), key)
  {
  }

  lemma OpenedLeavesReady(s: State, n: Notice, calibrated: bool, key: Key)
    requires ReadyAt(s, key) && Of(n.session) in s.deliveries
    requires forall k | k in s.deliveries :: KeyOf(s.deliveries[k]) == k
    ensures ReadyAt(Opened(s, n, calibrated), key)
  {
    hide Fail;
    var aircraft := n.session.aircraft;
    if n.session !in s.ended {
      var t := if aircraft in s.sessions && s.sessions[aircraft].id != n.session.id then Finish(s, aircraft) else s;
      assert forall k | k in t.deliveries :: KeyOf(t.deliveries[k]) == k;
      var u := t.(sessions := t.sessions[aircraft := Active(n.session.id, n.source, n.mission, n.started)]);
      FailLeavesReady(u, FailureOf(u.deliveries[Of(n.session)]), key);
    }
  }

  lemma ReceiveLeavesReady(s: State, n: Notice, calibrated: bool, key: Key)
    requires Inv(s) && ReadyAt(s, key) && n.session.Known() && (key == Of(n.session) ==> !Inherits(s, n))
    ensures ReadyAt(Receive(s, n, calibrated), key)
  {
    forall k | k in s.deliveries ensures KeyOf(s.deliveries[k]) == k { assert Settled(s, k); }
    NoticedSession(s, n);
    NoticePhase(s.deliveries, n);
    var d := Noticed(s.deliveries, n);
    var u := s.(deliveries := s.deliveries[Of(n.session) := d.(phase := Failed)]);
    hide MissionFailed, Fail, Opened, Noticed, Inv;
    if Inherits(s, n) {
      FailLeavesReady(u, FailureOf(d), key);
    } else {
      OpenedLeavesReady(Heard(s, n), n, calibrated, key);
    }
  }

  /** Only a failed delivery is final: a ready one turns failed exactly when a notice finds that its
      mission failed elsewhere. */
  lemma ReadyEndsExactlyWhen(s: State, step: Step, session: Session)
    requires Inv(s) && Of(session) in s.deliveries && s.deliveries[Of(session)].phase.Ready?
    ensures FailedAt(Next(s, step), Of(session)) <==>
      step.NoticeArrives? && step.notice.session == session
      && MissionFailed(Heard(s, step.notice).deliveries, Noticed(s.deliveries, step.notice))
  {
    var key := Of(session);
    forall k | k in s.deliveries ensures KeyOf(s.deliveries[k]) == k { assert Settled(s, k); }
    match step
    case NoticeArrives(n, calibrated) =>
      NoticePhase(s.deliveries, n);
      if n.session == session && Inherits(s, n) {
        assert s.deliveries[key].session == session;
        MissionFailureInherited(s, n, calibrated);
      } else if n.session.Known() {
        ReceiveLeavesReady(s, n, calibrated, key);
      }
    case FailureReported(f) => FailLeavesReady(s, f, key);
    case WorkerGivesUp(other) => FailLeavesReady(s, Failure(other, 0, 0), key);
    case Concludes(k, v) => if k in s.deliveries { FailLeavesReady(s, FailureOf(s.deliveries[k]), key); }
    case _ =>
    hide Inv, Receive, Fail, MissionFailed, Noticed;
  }

  // --------------------------------------------------------------- the object

  class GroundMedia {
    var deliveries: map<Key, Delivery>
    var sessions: map<nat, Active>
    var ended: set<Session>
    var stopped: set<Session>
    var catalog: Catalog
    var published: seq<Session>

    function View(): State
      reads this
    {
      State(deliveries, sessions, ended, stopped, catalog, published)
    }

    /** Start-up from what the previous process left behind. */
    constructor (left: State)
      ensures View() == Restarted(left)
    {
      deliveries, sessions, ended := left.catalog.deliveries, map[], left.catalog.closed;
      stopped := set k | k in left.catalog.deliveries && left.catalog.deliveries[k].phase.Failed?
        && left.catalog.deliveries[k].session.Known() :: left.catalog.deliveries[k].session;
      catalog, published := left.catalog, left.published;
    }

    method SaveSessions()
      modifies this`catalog
      ensures View() == Saved(old(View()))
    {
      var kept := map k | k in deliveries && Lasts(deliveries[k]) :: deliveries[k];
      var closed := ended
        + set k | k in deliveries && Lasts(deliveries[k]) && deliveries[k].session.Known() :: deliveries[k].session;
      catalog := Catalog(closed, kept);
    }

    /** `fail_delivery`; false when it raises. */
    method FailDelivery(f: Failure) returns (ok: bool)
      modifies this
      ensures View() == Fail(old(View()), f)
      ensures ok <==> Matched(Named(old(deliveries), f), f) != {}
    {
      var matched := set k | k in deliveries && Matches(deliveries[k], f);
      assert matched == Matched(deliveries, f);
      if matched == {} {
        if f.source == 0 || f.mission == 0 {
          return false;
        }
        var d := Delivery(f.session, f.source, f.mission, Waiting, true, None, 0);
        deliveries := deliveries[KeyOf(d) := d];
        matched := set k | k in deliveries && Matches(deliveries[k], f);
        assert KeyOf(d) in matched;
      }
      assert deliveries == Named(old(deliveries), f) && matched == Matched(deliveries, f);
      hide Matches, Named, Matched;
      FailMatched(matched);
      SaveSessions();
      ok := true;
    }

    /** The loop of `fail_delivery`. */
    method FailMatched(matched: set<Key>)
      requires matched <= deliveries.Keys
      modifies this`deliveries, this`sessions, this`ended, this`stopped
      ensures deliveries == map k | k in old(deliveries) :: if k in matched then Fallen(old(deliveries)[k]) else old(deliveries)[k]
      ensures var halted := Halted(old(deliveries), matched);
        && sessions == Without(old(sessions), halted)
        && ended == old(ended) + halted && stopped == old(stopped) + halted
    {
      ghost var before := deliveries;
      var halted := {};
      var todo := matched;
      while todo != {}
        invariant todo <= matched && deliveries.Keys == before.Keys
        invariant forall k | k in before && (k in todo || k !in matched) :: deliveries[k] == before[k]
        invariant forall k | k in matched && k !in todo :: deliveries[k] == Fallen(before[k])
        invariant forall k | k in matched && k !in todo && !before[k].phase.Ready? && before[k].session.Known() :: before[k].session in halted
        invariant forall n | n in halted :: exists k :: k in matched && !before[k].phase.Ready? && before[k].session.Known() && before[k].session == n
        invariant sessions == old(sessions) && ended == old(ended) && stopped == old(stopped)
        decreases todo
      {
        var k :| k in todo;
        todo := todo - {k};
        var d := deliveries[k];
        if !d.phase.Ready? {
          deliveries := deliveries[k := d.(phase := Failed)];
          if d.session.Known() {
            halted := halted + {d.session};
          }
        }
      }
      assert halted == Halted(before, matched);
      stopped := stopped + halted;
      sessions := map a | a in sessions && Session(a, sessions[a].id) !in halted :: sessions[a];
      ended := ended + halted;
    }

    /** `_finish`. */
    method FinishSession(aircraft: nat)
      requires aircraft in sessions
      modifies this`ended, this`deliveries
      ensures View() == Finish(old(View()), aircraft)
    {
      var a := sessions[aircraft];
      var name := Session(aircraft, a.id);
      ended := ended + {name};
      if Of(name) in deliveries {
        deliveries := deliveries[Of(name) := deliveries[Of(name)].(source := a.source, mission := a.mission, ended := true)];
      }
    }

    /** The first part of `session`: file what the notice says and inherit a failure. */
    method ReceiveNotice(n: Notice, calibrated: bool) returns (ok: bool)
      modifies this
      ensures View() == Receive(old(View()), n, calibrated)
      ensures ok <==> n.session.Known()
    {
      hide Fail, Opened;
      if !n.session.Known() {
        return false;
      }
      var d := if Of(n.session) in deliveries then deliveries[Of(n.session)]
               else Delivery(n.session, n.source, n.mission, Waiting, false, None, 0);
      if n.mission != 0 {
        d := d.(source := n.source, mission := n.mission);
      }
      if d.landedAt.None? {
        d := d.(landedAt := n.landedAt);
      }
      assert d == Noticed(deliveries, n);
      ghost var before := View();
      deliveries := deliveries[Of(n.session) := d];
      assert View() == Heard(before, n);
      hide Noticed;
      ok := true;
      if MissionFailed(deliveries, d) {
        d := d.(phase := Failed);
      }
      if d.phase.Failed? {
        deliveries := deliveries[Of(n.session) := d];
        assert View() == before.(deliveries := before.deliveries[Of(n.session) := Noticed(before.deliveries, n).(phase := Failed)]);
        var _ := FailDelivery(Failure(d.session, d.source, d.mission));
      } else {
        OpenSession(n, calibrated);
      }
    }

    /** The rest of `session`. */
    method OpenSession(n: Notice, calibrated: bool)
      requires Of(n.session) in deliveries
      modifies this
      ensures View() == Opened(old(View()), n, calibrated)
    {
      hide Fail, Saved;
      var aircraft := n.session.aircraft;
      if n.session in ended {
        SaveSessions();
        return;
      }
      var joining := false;
      if aircraft in sessions {
        if sessions[aircraft].id == n.session.id {
          joining := true;
        } else if n.started < sessions[aircraft].started {
          ended := ended + {n.session};
          SaveSessions();
          return;
        } else {
          FinishSession(aircraft);
        }
      }
      var a := if joining then sessions[aircraft] else Active(n.session.id, n.source, n.mission, n.started);
      if !joining && !calibrated {
        sessions := sessions[aircraft := a];
        var d := deliveries[Of(n.session)];
        var _ := FailDelivery(Failure(d.session, d.source, d.mission));
        return;
      }
      if n.mission != 0 {
        a := a.(source := n.source, mission := n.mission);
      }
      sessions := sessions[aircraft := a];
      if n.closing {
        FinishSession(aircraft);
        sessions := sessions - {aircraft};
      }
      SaveSessions();
    }

    /** One delivery's turn in `_finalize_uploaded_videos`. */
    method ConcludeDelivery(key: Key, v: Verdict)
      modifies this
      ensures View() == Conclude(old(View()), key, v)
    {
      hide Fail, Saved;
      if key !in deliveries {
        return;
      }
      var d := deliveries[key];
      if d.phase.Ready? || d.phase.Failed? || !d.ended || v.Keep? {
        return;
      }
      if v.GiveUp? {
        var _ := FailDelivery(Failure(d.session, d.source, d.mission));
        return;
      }
      match v {
        case AskOriginal => d := d.(phase := Fallback);
        case AwaitRemote => d := d.(phase := Uploading);
        case Deliver(record) => d := d.(phase := Ready, record := record);
      }
      deliveries := deliveries[key := d];
      SaveSessions();
    }

    /** The publishing section of `_validate_recording`, `_assemble_worker` and `_rebuild`. */
    method PublishVideo(session: Session) returns (done: bool)
      modifies this`published
      ensures View() == Publish(old(View()), session)
      ensures done <==> !FailedAt(old(View()), Of(session))
    {
      if Of(session) in deliveries && deliveries[Of(session)].phase.Failed? {
        return false;
      }
      published := published + [session];
      done := true;
    }
  }
}
