/** What the ground's delivery decisions do to the deliveries, the open sessions and the catalog file, said
    over the fields they find and leave.
 */
module DeliveryEffects {
  import opened Options
  import opened Sessions
  import opened GroundDelivery

  predicate Named(session: Session) { session.aircraft != 0 && session.id != 0 }

  /** Does the failure speak of this delivery: of its session, or of its mission at its source? */
  predicate Speaks(f: Failure, d: Delivery) {
    (f.session.id != 0 && f.session.id == d.session.id && f.session.aircraft == d.session.aircraft)
    || (f.source != 0 && f.source == d.source && f.mission == d.mission)
  }

  ghost predicate SpeaksOfSome(s: State, f: Failure) { exists k :: k in s.deliveries && Speaks(f, s.deliveries[k]) }

  /** What is written to the catalog file: every delivery that has ended, succeeded or failed, and the names of all
      closed sessions. */
  ghost predicate Written(t: State) {
    && (forall k :: k in t.catalog.deliveries <==>
          k in t.deliveries && (t.deliveries[k].ended || t.deliveries[k].phase == Ready || t.deliveries[k].phase == Failed))
    && (forall k | k in t.catalog.deliveries :: t.catalog.deliveries[k] == t.deliveries[k])
    && (forall n :: n in t.catalog.closed <==>
          n in t.ended || exists k :: k in t.catalog.deliveries && t.catalog.deliveries[k].session == n && Named(n))
  }

  lemma SaveTakes(s: State)
    ensures var t := Saved(s); Written(t) && t == s.(catalog := t.catalog)
  {
    var t := Saved(s);
    forall n ensures n in t.catalog.closed <==>
      n in t.ended || exists k :: k in t.catalog.deliveries && t.catalog.deliveries[k].session == n && Named(n)
    {
      if k :| k in t.catalog.deliveries && t.catalog.deliveries[k].session == n && Named(n) {
        assert k in s.deliveries && Lasts(s.deliveries[k]) && s.deliveries[k].session.Known();
      } else if n in t.catalog.closed && n !in t.ended {
        var k :| k in s.deliveries && Lasts(s.deliveries[k]) && s.deliveries[k].session.Known() && s.deliveries[k].session == n;
        assert k in t.catalog.deliveries;
      }
    }
  }

  /** After a restart nothing is open; what the catalog holds is all there is, and exactly the sessions of failed
      deliveries are stopped. */
  lemma RestartTakes(s: State)
    ensures var t := Restarted(s);
      && t.deliveries == s.catalog.deliveries && t.sessions == map[] && t.ended == s.catalog.closed
      && t.catalog == s.catalog && t.published == s.published
      && forall n :: n in t.stopped <==>
           exists k :: k in s.catalog.deliveries && s.catalog.deliveries[k].phase == Failed
                       && s.catalog.deliveries[k].session == n && Named(n)
  {
    var t := Restarted(s);
    forall n ensures n in t.stopped <==>
      exists k :: k in s.catalog.deliveries && s.catalog.deliveries[k].phase == Failed && s.catalog.deliveries[k].session == n && Named(n)
    {
      if k :| k in s.catalog.deliveries && s.catalog.deliveries[k].phase == Failed && s.catalog.deliveries[k].session == n && Named(n) {
        assert s.catalog.deliveries[k].phase.Failed? && s.catalog.deliveries[k].session.Known();
      }
    }
  }

  /** The session of some delivery that this failure brings down. */
  ghost predicate BroughtDown(deliveries: map<Key, Delivery>, f: Failure, n: Session) {
    Named(n) && exists k :: k in deliveries && Speaks(f, deliveries[k]) && deliveries[k].phase != Ready && deliveries[k].session == n
  }

  /** A failure falls on exactly the deliveries it speaks of that are not ready yet, and stops and closes exactly
      their sessions. No other delivery, session or published file is touched. */
  ghost predicate FallsOn(s: State, deliveries: map<Key, Delivery>, f: Failure, t: State) {
    && t.deliveries.Keys == deliveries.Keys
    && (forall k | k in deliveries ::
          t.deliveries[k] ==
            if Speaks(f, deliveries[k]) && deliveries[k].phase != Ready then deliveries[k].(phase := Failed) else deliveries[k])
    && (forall n :: n in t.stopped <==> n in s.stopped || BroughtDown(deliveries, f, n))
    && (forall n :: n in t.ended <==> n in s.ended || BroughtDown(deliveries, f, n))
    && (forall a :: a in t.sessions <==> a in s.sessions && !BroughtDown(deliveries, f, Session(a, s.sessions[a].id)))
    && (forall a | a in t.sessions :: t.sessions[a] == s.sessions[a])
    && t.published == s.published && Written(t)
  }

  lemma FailureTakes(s: State, f: Failure)
    requires SpeaksOfSome(s, f)
    ensures FallsOn(s, s.deliveries, f, Fail(s, f))
  {
    var k :| k in s.deliveries && Speaks(f, s.deliveries[k]);
    assert k in Matched(s.deliveries, f);
    FallenFrom(s, s.deliveries, f);
  }

  lemma FallenFrom(s: State, named: map<Key, Delivery>, f: Failure)
    requires GroundDelivery.Named(s.deliveries, f) == named && Matched(named, f) != {}
    ensures FallsOn(s, named, f, Fail(s, f))
  {
    hide Fail, Saved, Written, GroundDelivery.Named, Matched, BroughtDown, Speaks, FailedState;
    SaveTakes(FailedState(s, f));
    FailSaves(s, f);
    DeliveriesFall(s, named, f);
    SessionsFall(s, named, f);
  }

  lemma FailSaves(s: State, f: Failure)
    requires Matched(GroundDelivery.Named(s.deliveries, f), f) != {}
    ensures Fail(s, f) == Saved(FailedState(s, f))
  {
    hide Saved, GroundDelivery.Named, Matched, Halted, Without, Fallen;
  }

  lemma DeliveriesFall(s: State, named: map<Key, Delivery>, f: Failure)
    requires GroundDelivery.Named(s.deliveries, f) == named
    ensures var t := FailedState(s, f);
      && t.deliveries.Keys == named.Keys && t.published == s.published
      && forall k | k in named ::
           t.deliveries[k] == if Speaks(f, named[k]) && named[k].phase != Ready then named[k].(phase := Failed) else named[k]
  {
    hide GroundDelivery.Named, Halted, Without;
  }

  lemma SessionsFall(s: State, named: map<Key, Delivery>, f: Failure)
    requires GroundDelivery.Named(s.deliveries, f) == named
    ensures var t := FailedState(s, f);
      && (forall n :: n in t.stopped <==> n in s.stopped || BroughtDown(named, f, n))
      && (forall n :: n in t.ended <==> n in s.ended || BroughtDown(named, f, n))
      && (forall a :: a in t.sessions <==> a in s.sessions && !BroughtDown(named, f, Session(a, s.sessions[a].id)))
      && (forall a | a in t.sessions :: t.sessions[a] == s.sessions[a])
  {
    forall n ensures n in Halted(named, Matched(named, f)) <==> BroughtDown(named, f, n) { HaltedIs(named, f, n); }
    hide GroundDelivery.Named, Halted, Matched, BroughtDown;
  }

  lemma HaltedIs(named: map<Key, Delivery>, f: Failure, n: Session)
    ensures n in Halted(named, Matched(named, f)) <==> BroughtDown(named, f, n)
  {
    if BroughtDown(named, f, n) {
      var k :| k in named && Speaks(f, named[k]) && named[k].phase != Ready && named[k].session == n;
      assert k in Matched(named, f) && named[k].session.Known();
    }
  }

  /** A failure that speaks of nothing known leaves a tombstone for the mission it names, so that a later notice finds
      it; without a mission it does nothing. */
  lemma TombstoneTakes(s: State, f: Failure)
    requires !SpeaksOfSome(s, f)
    ensures f.source == 0 || f.mission == 0 ==> Fail(s, f) == s
    ensures f.source != 0 && f.mission != 0 ==>
      var t := Fail(s, f);
      var key := if Named(f.session) then Of(f.session) else Mission(f.source, f.mission);
      FallsOn(s, s.deliveries[key := Delivery(f.session, f.source, f.mission, Phase.Waiting, true, None, 0)], f, t)
      && key in t.deliveries && t.deliveries[key] == Delivery(f.session, f.source, f.mission, Failed, true, None, 0)
  {
    assert Matched(s.deliveries, f) == {} by {
      forall k | k in s.deliveries ensures !GroundDelivery.Matches(s.deliveries[k], f) { }
    }
    if f.source != 0 && f.mission != 0 {
      var key := if Named(f.session) then Of(f.session) else Mission(f.source, f.mission);
      var d := Delivery(f.session, f.source, f.mission, Phase.Waiting, true, None, 0);
      assert KeyOf(d) == key && key in Matched(s.deliveries[key := d], f);
      FallenFrom(s, s.deliveries[key := d], f);
      assert Speaks(f, d);
    }
    hide Fail, FallsOn;
  }

  // ------------------------------------------------------------------ notices

  /** The delivery as the notice leaves it: made when it is new, its mission brought up to date when the notice names
      one, its landing noted once. */
  predicate Filed(s: State, n: Notice, d: Delivery) {
    var known := Of(n.session) in s.deliveries;
    var was := if known then s.deliveries[Of(n.session)] else Delivery(n.session, n.source, n.mission, Phase.Waiting, false, None, 0);
    && d.session == was.session && d.phase == was.phase && d.ended == was.ended && d.record == was.record
    && (n.mission != 0 ==> d.source == n.source && d.mission == n.mission)
    && (n.mission == 0 ==> d.source == was.source && d.mission == was.mission)
    && d.landedAt == if was.landedAt.Some? then was.landedAt else n.landedAt
  }

  lemma NoticeFiled(s: State, n: Notice)
    ensures Filed(s, n, Noticed(s.deliveries, n))
    ensures Heard(s, n) == s.(deliveries := s.deliveries[Of(n.session) := Noticed(s.deliveries, n)])
  {
  }

  /** Did this mission fail under another delivery? */
  ghost predicate MissionLost(deliveries: map<Key, Delivery>, d: Delivery) {
    && d.mission != 0
    && exists k :: k in deliveries && deliveries[k].phase == Failed
                   && deliveries[k].source == d.source && deliveries[k].mission == d.mission
  }

  /** A notice without proper names does nothing. One whose delivery or mission has failed fails its delivery, whatever
      it was, as if the failure had been reported with all it names. */
  lemma FailedNotice(s: State, n: Notice, calibrated: bool, d: Delivery)
    requires d == Noticed(s.deliveries, n)
    ensures !Named(n.session) ==> Receive(s, n, calibrated) == s
    ensures Named(n.session) && (d.phase == Failed || MissionLost(Heard(s, n).deliveries, d)) ==>
      Receive(s, n, calibrated) ==
        Fail(s.(deliveries := s.deliveries[Of(n.session) := d.(phase := Failed)]), Failure(d.session, d.source, d.mission))
  {
    hide Fail, Opened;
  }

  /** The open session of the aircraft the notice comes from. */
  predicate OpenAs(s: State, aircraft: nat, id: nat) { aircraft in s.sessions && s.sessions[aircraft].id == id }

  /** Any other notice of a session that is closed already, or that began before the one that is open, closes nothing
      and opens nothing. */
  lemma StaleNotice(s: State, n: Notice, calibrated: bool, d: Delivery)
    requires d == Noticed(s.deliveries, n) && Named(n.session) && d.phase != Failed && !MissionLost(Heard(s, n).deliveries, d)
    requires var a := n.session.aircraft;
      n.session in s.ended || (a in s.sessions && s.sessions[a].id != n.session.id && n.started < s.sessions[a].started)
    ensures var t := Receive(s, n, calibrated);
      && t == s.(deliveries := s.deliveries[Of(n.session) := d], ended := s.ended + {n.session}, catalog := t.catalog) && Written(t)
  {
    var u := s.(deliveries := s.deliveries[Of(n.session) := d]);
    SaveTakes(u);
    SaveTakes(u.(ended := s.ended + {n.session}));
    if n.session in s.ended { assert s.ended + {n.session} == s.ended; }
    hide Fail, Saved, Written, Noticed;
  }

  /** The session `name` is closed, its delivery marked as ended with the mission the open session carried. */
  predicate Closes(s: State, name: Session, source: nat, mission: nat, t: State) {
    && t.ended == s.ended + {name}
    && t.deliveries == (if Of(name) in s.deliveries
                        then s.deliveries[Of(name) := s.deliveries[Of(name)].(source := source, mission := mission, ended := true)]
                        else s.deliveries)
    && t.stopped == s.stopped && t.catalog == s.catalog && t.published == s.published
  }

  lemma SessionCloses(s: State, aircraft: nat)
    requires aircraft in s.sessions
    ensures var a := s.sessions[aircraft];
      Closes(s, Session(aircraft, a.id), a.source, a.mission, Finish(s, aircraft)) && Finish(s, aircraft).sessions == s.sessions
    ensures var a := s.sessions[aircraft];
      var t := Next(s, SessionEnds(aircraft));
      Closes(s, Session(aircraft, a.id), a.source, a.mission, t) && t.sessions == s.sessions - {aircraft}
  {
  }

  /** What is open after a notice of a session that is not closed and not overtaken: its own session, joined or begun,
      or none when the notice ends it. A session it replaces is closed. */
  lemma NoticeOpens(s: State, n: Notice, d: Delivery, u: State)
    requires d == Noticed(s.deliveries, n) && Named(n.session) && d.phase != Failed && !MissionLost(Heard(s, n).deliveries, d)
    requires Current(s, n) && u == s.(deliveries := s.deliveries[Of(n.session) := d])
    ensures var t, a := Receive(s, n, true), n.session.aircraft;
      var before := if a in s.sessions && !OpenAs(s, a, n.session.id) then Finish(u, a) else u;
      && Written(t) && t.stopped == s.stopped && t.published == s.published
      && (!n.closing ==> t == before.(sessions := s.sessions[a := Carries(s, n)], catalog := t.catalog))
      && (n.closing ==>
            && t.sessions == s.sessions - {a}
            && Closes(before, n.session, Carries(s, n).source, Carries(s, n).mission, t.(catalog := s.catalog)))
  {
    assert Heard(s, n) == u;
    assert Receive(s, n, true) == Opened(u, n, true) by { hide Fail, Opened, Noticed; }
    hide Receive, Heard, MissionLost, Noticed;
    OpenedCarries(u, n);
  }

  /** Neither closed nor overtaken by the session that is open. */
  predicate Current(s: State, n: Notice) {
    var a := n.session.aircraft;
    n.session !in s.ended && !(a in s.sessions && s.sessions[a].id != n.session.id && n.started < s.sessions[a].started)
  }

  /** What is open after the notice: the session it joins or begins, with the mission it names. */
  function Carries(s: State, n: Notice): Active {
    var a := n.session.aircraft;
    var was := if OpenAs(s, a, n.session.id) then s.sessions[a] else Active(n.session.id, n.source, n.mission, n.started);
    Active(n.session.id, if n.mission != 0 then n.source else was.source, if n.mission != 0 then n.mission else was.mission, was.started)
  }

  lemma OpenedCarries(u: State, n: Notice)
    requires Of(n.session) in u.deliveries && Current(u, n)
    ensures var t, a := Opened(u, n, true), n.session.aircraft;
      var before := if a in u.sessions && !OpenAs(u, a, n.session.id) then Finish(u, a) else u;
      && Written(t) && t.stopped == u.stopped && t.published == u.published
      && (!n.closing ==> t == before.(sessions := u.sessions[a := Carries(u, n)], catalog := t.catalog))
      && (n.closing ==>
            && t.sessions == u.sessions - {a}
            && Closes(before, n.session, Carries(u, n).source, Carries(u, n).mission, t.(catalog := u.catalog)))
  {
    var a := n.session.aircraft;
    var before := if a in u.sessions && !OpenAs(u, a, n.session.id) then Finish(u, a) else u;
    if a in u.sessions { SessionCloses(u, a); }
    var begun := before.(sessions := u.sessions[a := Carries(u, n)]);
    SessionCloses(begun, a);
    var ending := Finish(begun, a).(sessions := begun.sessions - {a});
    SaveTakes(begun);
    SaveTakes(ending);
    assert begun.sessions - {a} == u.sessions - {a};
    assert Opened(u, n, true) == Saved(if n.closing then ending else begun) by { hide Fail, Saved, Finish; }
    hide Opened, Saved, Finish, Written, Carries;
  }

  /** A session that cannot be set up because its calibration cannot be frozen fails its delivery at once. */
  lemma UncalibratedNotice(s: State, n: Notice, d: Delivery, u: State)
    requires d == Noticed(s.deliveries, n) && Named(n.session) && d.phase != Failed && !MissionLost(Heard(s, n).deliveries, d)
    requires Current(s, n) && u == s.(deliveries := s.deliveries[Of(n.session) := d])
    ensures var a := n.session.aircraft;
      if OpenAs(s, a, n.session.id) then Receive(s, n, false) == Receive(s, n, true)
      else
        var before := if a in s.sessions then Finish(u, a) else u;
        Receive(s, n, false) ==
          Fail(before.(sessions := s.sessions[a := Active(n.session.id, n.source, n.mission, n.started)]),
               Failure(d.session, d.source, d.mission))
  {
    assert Heard(s, n) == u;
    hide Fail, Saved, Noticed;
  }

  // ---------------------------------------------------------------- decisions

  /** A verdict reaches a delivery only once its session has ended and while it is neither ready nor failed. */
  lemma VerdictTakes(s: State, key: Key, v: Verdict)
    ensures var t := Conclude(s, key, v);
      var open := key in s.deliveries && s.deliveries[key].ended && s.deliveries[key].phase != Ready && s.deliveries[key].phase != Failed;
      && (!open || v == Keep ==> t == s)
      && (open && v == GiveUp ==> t == Fail(s, Failure(s.deliveries[key].session, s.deliveries[key].source, s.deliveries[key].mission)))
      && (open && (v == AskOriginal || v == AwaitRemote || v.Deliver?) ==>
            && t == s.(deliveries := t.deliveries, catalog := t.catalog) && Written(t)
            && t.deliveries == s.deliveries[key :=
                 match v
                 case AskOriginal => s.deliveries[key].(phase := Fallback)
                 case AwaitRemote => s.deliveries[key].(phase := Uploading)
                 case Deliver(record) => s.deliveries[key].(phase := Ready, record := record)
                 case _ => s.deliveries[key]])
  {
    if key in s.deliveries {
      var d := s.deliveries[key];
      SaveTakes(s.(deliveries := s.deliveries[key := d.(phase := Fallback)]));
      SaveTakes(s.(deliveries := s.deliveries[key := d.(phase := Uploading)]));
      if v.Deliver? { SaveTakes(s.(deliveries := s.deliveries[key := d.(phase := Ready, record := v.record)])); }
    }
    hide Fail, Saved, Written;
  }

  /** A worker publishes unless the delivery of its session has failed, and one that gives up fails every delivery
      of its session. */
  lemma WorkerTakes(s: State, session: Session)
    ensures var failed := Of(session) in s.deliveries && s.deliveries[Of(session)].phase == Failed;
      Publish(s, session) == if failed then s else s.(published := s.published + [session])
    ensures WorkerFails(s, session) == Fail(s, Failure(session, 0, 0))
  {
    hide Fail;
  }
}
