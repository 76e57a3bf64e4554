/** What the bridge's callbacks do, said over the fields they find and leave.

    No statement here goes through the tests and intermediate states that `Bridge` defines; the
    session rules are also followed over whole runs.
 */
module BridgeEffects {
  import opened Reals
  import opened Options
  import opened Bridge

  /** A bridge starts without session, correction, sample and history. */
  lemma Starts()
    ensures !START.available && START.session == 0 && Bare(START) && START.revision == 0 && START.resets == 0
    ensures START.output == None && START.lastRaw == 0.0 && START.lastStamp == 0 && START.lastError == NoError
  {
  }

  /** The reset counter of the autopilot's interface follows the revision, modulo 256. */
  lemma ResetsFollow(s: State, e: Event, limits: Limits)
    requires Inv(s) && Mints(e)
    ensures var t := Step(s, e, limits).state; t.resets == t.revision % 256 && (t.revision == s.revision ==> t.resets == s.resets)
  {
    StepKeepsInv(s, e, limits);
    hide Step;
  }

  // --------------------------------------------------------- raw odometry

  /** Is the silence before this moment longer than the limit? Nothing is silent before the first sample. */
  predicate Silent(lastRaw: real, now: real, limit: real) { lastRaw > 0.0 && now - lastRaw > limit }

  /** Does the sample's stamp let it through? A stamp of zero always does; a repeated one never, and an
      older one only after a silence. */
  predicate Passes(s: State, raw: Raw, limit: real) {
    s.lastStamp <= 0 || raw.stamp <= 0 || raw.stamp > s.lastStamp
    || (raw.stamp < s.lastStamp && Silent(s.lastRaw, raw.now, limit))
  }

  /** A sample in the right frames whose stamp is held back changes nothing and publishes nothing. */
  lemma HeldBack(s: State, raw: Raw, limits: Limits)
    requires limits.Valid() && raw.frames && !Passes(s, raw, limits.sessionGap)
    ensures OnRaw(s, raw, limits) == Moved(s, [])
  {
  }

  /** One that passes while a session is open and no silence preceded it keeps that session, and refreshes
      the output under the correction as it stands. */
  lemma Refreshes(s: State, raw: Raw, limits: Limits)
    requires limits.Valid() && raw.frames && Passes(s, raw, limits.sessionGap)
    requires s.available && s.session != NO_SESSION && !Silent(s.lastRaw, raw.now, limits.sessionGap)
    requires raw.transformOk && (s.valid ==> raw.componentsOk)
    ensures OnRaw(s, raw, limits) ==
      Moved(s.(lastRaw := raw.now, lastStamp := raw.stamp, output := Some(Sample(s.valid, s.revision, s.session))), [])
  {
  }

  /** The same when a computation fails: the correction falls, and the sample survives exactly when the
      transform itself succeeded. Every fall is published. */
  lemma RefreshFails(s: State, raw: Raw, limits: Limits)
    requires limits.Valid() && raw.frames && Passes(s, raw, limits.sessionGap)
    requires s.available && s.session != NO_SESSION && !Silent(s.lastRaw, raw.now, limits.sessionGap)
    requires !(raw.transformOk && (s.valid ==> raw.componentsOk))
    ensures var (t, said) := (OnRaw(s, raw, limits).state, OnRaw(s, raw, limits).published);
      && t.available && t.session == s.session && t.lastRaw == raw.now && t.lastStamp == raw.stamp
      && Bare(t) && t.revision == s.revision + (if s.valid then 1 else 0) && t.lastError == OtherError
      && t.output == (if raw.transformOk then Some(Sample(false, t.revision, t.session)) else None)
      && said != [] && Shows(said[|said| - 1], t.(output := None))
  {
  }

  /** No correction. */
  predicate Bare(s: State) { !s.valid && s.values == Values(0.0, 0.0, 0.0) && s.job == NoJob }

  /** The status says what the fields are. */
  predicate Shows(m: Status, s: State) {
    m.available == s.available && m.session == s.session && m.valid == s.valid && m.revision == s.revision
    && m.values == s.values && m.job == s.job && m.sample == s.output
  }

  /** One that passes with no session open, or after a silence, opens the session minted for it: the old
      correction is gone before the new session is shown, and the sample is taken. */
  lemma Opens(s: State, raw: Raw, limits: Limits)
    requires limits.Valid() && raw.frames && Passes(s, raw, limits.sessionGap)
    requires !(s.available && s.session != NO_SESSION) || Silent(s.lastRaw, raw.now, limits.sessionGap)
    requires !s.valid ==> Bare(s)
    ensures var (t, said) := (OnRaw(s, raw, limits).state, OnRaw(s, raw, limits).published);
      && t.available && t.session == raw.mint && t.lastRaw == raw.now && t.lastStamp == raw.stamp
      && Bare(t) && t.revision == s.revision + (if s.valid then 1 else 0)
      && t.output == (if raw.transformOk then Some(Sample(false, t.revision, t.session)) else None)
      && t.lastError == (if raw.transformOk then NoError else OtherError)
      && |said| == (if s.valid then 2 else 1) + (if raw.transformOk then 0 else 1)
      && (s.valid ==> said[0].session == s.session && !said[0].valid && said[0].revision == t.revision)
      && var m := said[if s.valid then 1 else 0];
         m.session == raw.mint && m.available && !m.valid && m.revision == t.revision
  {
  }

  /** A sample in other frames ends everything at once, and is reported unless there is nothing new to say. */
  lemma WrongFrames(s: State, raw: Raw, limits: Limits)
    requires !raw.frames && (!s.valid ==> Bare(s))
    ensures var (t, said) := (OnRaw(s, raw, limits).state, OnRaw(s, raw, limits).published);
      && !t.available && t.session == NO_SESSION && Bare(t) && t.output == None && t.lastError == WrongFrame
      && t.revision == s.revision + (if s.valid then 1 else 0) && t.lastRaw == s.lastRaw && t.lastStamp == s.lastStamp
      && (said == [] <==> s.lastError == WrongFrame && s.output == None && !s.valid)
      && (said != [] ==> |said| == 1 && Shows(said[0], t))
  {
  }

  // ---------------------------------------------------------------- requests

  /** A request is refused, or it is carried out: repeating what is active changes nothing, a removal
      clears, and anything else is applied. */
  datatype Effect = Refused | Repeated | Removed | Put

  function EffectOf(s: State, r: Request, limits: Limits): Effect {
    if r.valid && s.valid && r.job == s.job && r.session == s.session && r.values == s.values then Repeated
    else if r.expected != s.revision then Refused
    else if !r.valid then (if r.session == NO_SESSION || r.session == s.session then Removed else Refused)
    else if s.available && s.session != NO_SESSION && r.session == s.session
            && r.positionStd >= 0.0 && r.yawStd >= 0.0 && r.reprojection >= 0.0 && r.matchError >= 0.0 && r.sampleCount > 0
            && r.values.x * r.values.x + r.values.y * r.values.y <= limits.maximumTranslation * limits.maximumTranslation
    then Put
    else Refused
  }

  lemma RequestTakes(s: State, r: Request, limits: Limits)
    ensures var (m, a) := SetCorrection(s, r, limits);
      var t := m.state;
      && a.session == s.session == t.session && a.revision == t.revision
      && t.available == s.available && t.lastRaw == s.lastRaw && t.lastStamp == s.lastStamp
      && match EffectOf(s, r, limits)
         case Refused => !a.accepted && !a.applied && t == s && m.published == []
         case Repeated => a.accepted && a.applied && t == s && m.published == []
         case Removed =>
           a.accepted && !a.applied && Bare(t) && t.revision == s.revision + (if s.valid then 1 else 0)
           && t.output == None && t.lastError == NoError && |m.published| == 1 && Shows(m.published[0], t)
         case Put =>
           a.accepted && a.applied && t.valid && t.values == r.values && t.job == r.job && t.revision == s.revision + 1
           && t.output == None && t.lastError == NoError && |m.published| == 1 && Shows(m.published[0], t)
  {
    SqIs(r.values.x);
    SqIs(r.values.y);
    SqIs(limits.maximumTranslation);
    hide Sq;
  }

  // ------------------------------------------------------------------ timer

  /** The timer ends a session exactly after a silence, and always publishes what it leaves. */
  lemma TimerTakes(s: State, now: real, limits: Limits)
    requires !s.valid ==> Bare(s)
    ensures var (t, said) := (OnTimer(s, now, limits).state, OnTimer(s, now, limits).published);
      && said != [] && Shows(said[|said| - 1], t)
      && if s.available && Silent(s.lastRaw, now, limits.sessionGap) then
           && !t.available && t.session == NO_SESSION && Bare(t) && t.output == None
           && t.revision == s.revision + (if s.valid then 1 else 0) && t.lastRaw == s.lastRaw && t.lastStamp == s.lastStamp
         else t == s && |said| == 1
  {
  }

  // ------------------------------------------------------------- whole runs

  /** What ends or replaces a session: other frames, a sample that passes after a silence, and the timer
      after one. */
  predicate Breaks(s: State, e: Event, limits: Limits) {
    match e
    case RawArrives(raw) => !raw.frames || (Passes(s, raw, limits.sessionGap) && Silent(s.lastRaw, raw.now, limits.sessionGap))
    case RequestArrives(_) => false
    case TimerFires(now) => Silent(s.lastRaw, now, limits.sessionGap)
  }

  /** An open session changes exactly when something breaks it. */
  lemma SessionEndsExactlyWhen(s: State, e: Event, limits: Limits)
    requires limits.Valid() && Inv(s) && s.available && (e.RawArrives? ==> e.raw.mint != s.session)
    ensures Step(s, e, limits).state.session != s.session <==> Breaks(s, e, limits)
  {
    match e
    case RawArrives(raw) =>
      if !raw.frames { WrongFrames(s, raw, limits); }
      else if !Passes(s, raw, limits.sessionGap) { HeldBack(s, raw, limits); }
      else if Silent(s.lastRaw, raw.now, limits.sessionGap) { Opens(s, raw, limits); }
      else if raw.transformOk && (s.valid ==> raw.componentsOk) { Refreshes(s, raw, limits); }
      else { RefreshFails(s, raw, limits); }
    case RequestArrives(r) => RequestTakes(s, r, limits);
    case TimerFires(now) => TimerTakes(s, now, limits);
    hide OnRaw, SetCorrection, OnTimer;
  }

  /** No event of the run breaks the session. */
  predicate Unbroken(s: State, events: seq<Event>, limits: Limits)
    decreases |events|
  {
    events != [] ==> !Breaks(s, events[0], limits) && Unbroken(Step(s, events[0], limits).state, events[1..], limits)
  }

  ghost predicate OtherMints(events: seq<Event>, session: nat) {
    forall e | e in events && e.RawArrives? :: e.raw.mint != NO_SESSION && e.raw.mint != session
  }

  /** As long as samples keep coming, whatever requests come with them, the session stays open; and once
      the last sample passed with both computations sound, what is output says which correction it was
      computed under. */
  lemma {:induction false} SessionLivesOn(s: State, events: seq<Event>, raw: Raw, limits: Limits)
    requires limits.Valid() && Inv(s) && s.available && OtherMints(events + [RawArrives(raw)], s.session)
    requires Unbroken(s, events, limits)
    ensures var t := Run(s, events, limits);
      && t.available && t.session == s.session
      && (raw.frames && Passes(t, raw, limits.sessionGap) && !Silent(t.lastRaw, raw.now, limits.sessionGap)
          && raw.transformOk && raw.componentsOk ==>
            var u := Step(t, RawArrives(raw), limits).state;
            u.output == Some(Sample(u.valid, u.revision, s.session)) && u.values == t.values && u.valid == t.valid
            && u.revision == t.revision && u.lastRaw == raw.now && u.lastStamp == raw.stamp)
    decreases |events|
  {
    if events == [] {
      if raw.frames && Passes(s, raw, limits.sessionGap) && !Silent(s.lastRaw, raw.now, limits.sessionGap)
         && raw.transformOk && raw.componentsOk {
        Refreshes(s, raw, limits);
      }
    } else {
      var e, z := events[0], Step(s, events[0], limits).state;
      assert e in events + [RawArrives(raw)];
      StepKeepsInv(s, e, limits);
      SessionEndsExactlyWhen(s, e, limits);
      assert OtherMints(events[1..] + [RawArrives(raw)], z.session) by {
        forall f | f in events[1..] + [RawArrives(raw)] ensures f in events + [RawArrives(raw)] { }
      }
      SessionLivesOn(z, events[1..], raw, limits);
    }
    hide Step;
  }
}
