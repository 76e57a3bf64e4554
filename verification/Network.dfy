/** What is between the two programs: the bridge, the statuses it has published so far, and a record
    of every correction it ever held.

    Session ids are minted from a counter, so they are never reused; a restarted bridge forgets
    everything and has no session until raw odometry arrives. Statuses stay in publication order.
 */
module Network {
  import opened Options
  import opened Bridge
  import opened Service
  import opened WindowSafety

  /** A published status and the rank of its session. */
  datatype Entry = Entry(status: Status, rank: nat)

  /** A correction the bridge really held. */
  datatype Hold = Hold(job: JobId, session: nat, values: Values)

  datatype Net = Net(bridge: Bridge.State, minted: nat, log: seq<Entry>, held: set<Hold>)

  function EmptyNet(): Net { Net(START, 0, [], {}) }

  function RankOf(session: nat, minted: nat): nat { if session != NO_SESSION then 2 * session else 2 * minted + 1 }

  function EntryOf(status: Status, minted: nat): Entry { Entry(status, RankOf(status.session, minted)) }

  function Now(net: Net): Entry { EntryOf(StatusOf(net.bridge), net.minted) }

  function HoldOf(status: Status): Hold { Hold(status.job, status.session, status.values) }

  function Entries(published: seq<Status>, minted: nat): (es: seq<Entry>)
    ensures |es| == |published| && forall i | 0 <= i < |es| :: es[i] == EntryOf(published[i], minted)
  {
    seq(|published|, i requires 0 <= i < |published| => EntryOf(published[i], minted))
  }

  /** The network after one callback of the bridge. */
  function Take(net: Net, m: Moved): Net {
    var minted := if m.state.session > net.minted then m.state.session else net.minted;
    Net(m.state, minted, net.log + Entries(m.published, minted),
        net.held + if m.state.valid then {HoldOf(StatusOf(m.state))} else {})
  }

  function Restarted(net: Net): Net { net.(bridge := START) }

  // ---------------------------------------------------------- the invariant

  /** b is not before a: a later session, or the same session with a revision that has not decreased
      and that determines the correction. */
  predicate Precedes(a: Entry, b: Entry) {
    a.rank <= b.rank
    && (a.rank == b.rank && a.status.session != NO_SESSION ==>
          a.status.revision <= b.status.revision
          && (a.status.revision == b.status.revision ==> SameCorrection(a.status, b.status)))
  }

  predicate SameCorrection(a: Status, b: Status) { a.valid == b.valid && a.values == b.values && a.job == b.job }

  predicate Formed(e: Entry) {
    RankFits(e.status.session, e.rank) && e.rank > 0 && (e.status.available <==> e.status.session != NO_SESSION)
  }

  predicate Recorded(e: Entry, held: set<Hold>) { e.status.valid ==> HoldOf(e.status) in held }

  ghost predicate NetInv(net: Net) {
    && Bridge.Inv(net.bridge) && (net.bridge.session == NO_SESSION || net.bridge.session == net.minted)
    && (forall i | 0 <= i < |net.log| ::
          Formed(net.log[i]) && Recorded(net.log[i], net.held) && Precedes(net.log[i], Now(net)))
    && (forall i, j | 0 <= i < j < |net.log| :: net.log[i].rank <= net.log[j].rank)
    && Recorded(Now(net), net.held)
  }

  /** Everything published on the way from `a` to `b` lies between them, in order. */
  ghost predicate Chain(a: Entry, es: seq<Entry>, b: Entry, held: set<Hold>) {
    && Formed(b) && Recorded(b, held) && Precedes(a, b)
    && (forall i | 0 <= i < |es| :: Formed(es[i]) && Recorded(es[i], held) && Precedes(a, es[i]) && Precedes(es[i], b))
    && (forall i, j | 0 <= i < j < |es| :: es[i].rank <= es[j].rank)
  }

  lemma PrecedesTransitive(a: Entry, b: Entry, c: Entry)
    requires Formed(a) && Formed(b) && Precedes(a, b) && Precedes(b, c)
    ensures Precedes(a, c)
  {
  }

  lemma ChainsJoin(a: Entry, es: seq<Entry>, b: Entry, fs: seq<Entry>, c: Entry, held: set<Hold>)
    requires Formed(a) && Chain(a, es, b, held) && Chain(b, fs, c, held)
    ensures Chain(a, es + fs, c, held)
  {
    hide Formed, Recorded;
    PrecedesTransitive(a, b, c);
    forall i | 0 <= i < |es| ensures Precedes(es[i], c) { PrecedesTransitive(es[i], b, c); }
    forall i | 0 <= i < |fs| ensures Precedes(a, fs[i]) { PrecedesTransitive(a, b, fs[i]); }
  }

  /** A callback that published such a chain keeps the network's invariant. */
  lemma TakeKeeps(net: Net, m: Moved)
    requires NetInv(net) && Bridge.Inv(m.state)
    requires m.state.session == NO_SESSION || m.state.session >= net.minted
    requires Chain(Now(net), Take(net, m).log[|net.log|..], Now(Take(net, m)), Take(net, m).held)
    ensures NetInv(Take(net, m)) && Precedes(Now(net), Now(Take(net, m)))
  {
    var n := Take(net, m);
    var es := n.log[|net.log|..];
    assert n.log == net.log + es;
    forall i | 0 <= i < |net.log| ensures Precedes(net.log[i], Now(n)) {
      PrecedesTransitive(net.log[i], Now(net), Now(n));
    }
    hide Formed, Bridge.Inv;
    forall i, j | 0 <= i < |net.log| && 0 <= j < |es| ensures net.log[i].rank <= es[j].rank {
      assert Precedes(net.log[i], Now(net)) && Precedes(Now(net), es[j]);
    }
  }

  // ----------------------------------------------------- what callbacks publish

  function EntryAt(s: Bridge.State, minted: nat): Entry { EntryOf(StatusOf(s), minted) }

  /** The bridge between two callbacks, except that its output sample may be about to change. */
  ghost predicate Standing(s: Bridge.State, minted: nat) {
    Partial(s) && (s.available <==> s.session != NO_SESSION) && (s.session == NO_SESSION || s.session == minted)
  }

  ghost predicate Keeps(s: Bridge.State, held: set<Hold>) { s.valid ==> HoldOf(StatusOf(s)) in held }

  /** No publication on the way, or one that is already the final status up to its output sample. */
  lemma Single(s: Bridge.State, k: nat, p: Status, t: Bridge.State, l: nat, held: set<Hold>)
    requires Formed(EntryAt(s, k)) && Formed(EntryAt(t, l)) && Keeps(t, held)
    requires Precedes(EntryAt(s, k), EntryAt(t, l)) && p.(sample := None) == StatusOf(t).(sample := None)
    ensures Chain(EntryAt(s, k), Entries([], l), EntryAt(t, l), held)
    ensures Chain(EntryAt(s, k), Entries([p], l), EntryAt(t, l), held)
  {
  }

  lemma StandingIsFormed(s: Bridge.State, minted: nat)
    requires Standing(s, minted)
    ensures Formed(EntryAt(s, minted))
  {
  }

  lemma BeginChain(s: Bridge.State, k: nat, held: set<Hold>)
    requires Standing(s, k)
    ensures var m := BeginSession(s, k + 1);
      Standing(m.state, k + 1) && m.state.session == k + 1 && !m.state.valid
      && Chain(EntryAt(s, k), Entries(m.published, k + 1), EntryAt(m.state, k + 1), held)
  {
  }

  lemma ProjectChain(s: Bridge.State, raw: Raw, k: nat, held: set<Hold>)
    requires Standing(s, k) && s.session != NO_SESSION
    requires Keeps(s, held)
    ensures var m := Project(s, raw);
      Chain(EntryAt(s, k), Entries(m.published, k), EntryAt(m.state, k), held) && m.state.session == s.session
  {
  }

  /** What `Take` needs to know about a callback. */
  ghost predicate Orderly(net: Net, m: Moved) {
    && Bridge.Inv(m.state) && (m.state.session == NO_SESSION || m.state.session >= net.minted)
    && var n := Take(net, m); Chain(Now(net), Entries(m.published, n.minted), Now(n), n.held)
  }

  lemma InvIsStanding(net: Net)
    requires NetInv(net)
    ensures Standing(net.bridge, net.minted) && Bridge.Inv(net.bridge)
  {
  }

  lemma RawIsOrderly(net: Net, raw: Raw, limits: Limits)
    requires NetInv(net) && raw.mint == net.minted + 1
    ensures Orderly(net, OnRaw(net.bridge, raw, limits))
  {
    var s, k := net.bridge, net.minted;
    InvIsStanding(net);
    RawKeeps(s, raw, limits);
    var m := OnRaw(s, raw, limits);
    var n := Take(net, m);
    HoldsAreKept(net, m);
    RawChain(s, raw, limits, k, n.held);
    RawSession(s, raw, limits);
    hide NetInv, Bridge.Inv, Chain, OnRaw;
  }

  lemma HoldsAreKept(net: Net, m: Moved)
    requires NetInv(net)
    ensures Keeps(net.bridge, Take(net, m).held) && Keeps(m.state, Take(net, m).held)
  {
  }

  /** The session a raw sample leaves behind. */
  lemma RawSession(s: Bridge.State, raw: Raw, limits: Limits)
    ensures OnRaw(s, raw, limits).state.session
         == if !raw.frames then NO_SESSION
            else if LateOrDuplicate(s, raw, limits) || !NewSession(s, raw, limits) then s.session else raw.mint
  {
  }

  lemma RawChain(s: Bridge.State, raw: Raw, limits: Limits, k: nat, held: set<Hold>)
    requires Standing(s, k) && raw.mint == k + 1 && Keeps(s, held) && Keeps(OnRaw(s, raw, limits).state, held)
    ensures var m := OnRaw(s, raw, limits);
      var l := if m.state.session > k then m.state.session else k;
      Chain(EntryAt(s, k), Entries(m.published, l), EntryAt(m.state, l), held)
  {
    RawSession(s, raw, limits);
    StandingIsFormed(s, k);
    Single(s, k, StatusOf(s), s, k, held);
    hide Chain, Invalidate, Project, BeginSession, LateOrDuplicate, Gap;
    if !raw.frames {
      LostFramesChain(s, k, held);
      assert Entries([], k) == [];
    } else if !LateOrDuplicate(s, raw, limits) {
      BeginChain(s, k, held);
      var b := if NewSession(s, raw, limits) then BeginSession(s, raw.mint) else Moved(s, []);
      var l := if NewSession(s, raw, limits) then k + 1 else k;
      TrackedChain(s, k, b, raw, l, held);
    }
  }

  /** The session part of a raw sample followed by its projection. */
  lemma TrackedChain(s: Bridge.State, k: nat, b: Moved, raw: Raw, l: nat, held: set<Hold>)
    requires Formed(EntryAt(s, k)) && Standing(b.state, l) && b.state.session != NO_SESSION && Keeps(b.state, held)
    requires Chain(EntryAt(s, k), Entries(b.published, l), EntryAt(b.state, l), held)
    ensures var c := b.state.(lastRaw := raw.now, lastStamp := raw.stamp, available := true);
      var m := Project(c, raw);
      Chain(EntryAt(s, k), Entries(b.published + m.published, l), EntryAt(m.state, l), held)
  {
    var c := b.state.(lastRaw := raw.now, lastStamp := raw.stamp, available := true);
    assert EntryAt(c, l) == EntryAt(b.state, l) && Standing(c, l);
    hide Chain, Project;
    ProjectChain(c, raw, l, held);
    var m := Project(c, raw);
    ChainsJoin(EntryAt(s, k), Entries(b.published, l), EntryAt(c, l), Entries(m.published, l), EntryAt(m.state, l), held);
    assert Entries(b.published + m.published, l) == Entries(b.published, l) + Entries(m.published, l);
  }

  /** Odometry in foreign frames ends the session. */
  lemma LostFramesChain(s: Bridge.State, k: nat, held: set<Hold>)
    requires Standing(s, k)
    ensures var t := s.(available := false, session := NO_SESSION);
      && Chain(EntryAt(s, k), Entries(Invalidate(t, WrongFrame).published, k), EntryAt(Invalidated(t, WrongFrame), k), held)
      && (!s.valid ==> Chain(EntryAt(s, k), [], EntryAt(t, k), held))
  {
  }

  lemma TimerIsOrderly(net: Net, now: real, limits: Limits)
    requires NetInv(net)
    ensures Orderly(net, OnTimer(net.bridge, now, limits))
  {
    var s, k := net.bridge, net.minted;
    InvIsStanding(net);
    TimerKeeps(s, now, limits);
    var m := OnTimer(s, now, limits);
    var n := Take(net, m);
    assert Keeps(m.state, n.held);
    if m.state == s {
      Single(s, k, StatusOf(s), s, k, n.held);
    } else {
      var t := s.(available := false, session := NO_SESSION, output := None);
      var i := if t.valid then Invalidated(t, OtherError) else t;
      Single(s, k, StatusOf(i), i, k, n.held);
      assert m.published == (if t.valid then [StatusOf(i)] else []) + [StatusOf(i)];
      Single(i, k, StatusOf(i), i, k, n.held);
      ChainsJoin(EntryAt(s, k), Entries(if t.valid then [StatusOf(i)] else [], k), EntryAt(i, k),
                 Entries([StatusOf(i)], k), EntryAt(i, k), n.held);
      assert Entries(m.published, k)
          == Entries(if t.valid then [StatusOf(i)] else [], k) + Entries([StatusOf(i)], k);
    }
  }

  lemma RequestIsOrderly(net: Net, r: Request, limits: Limits)
    requires NetInv(net)
    ensures Orderly(net, SetCorrection(net.bridge, r, limits).0)
  {
    hide GoodQuality, WithinLimit, Chain;
    var s, k := net.bridge, net.minted;
    InvIsStanding(net);
    SetKeeps(s, r, limits);
    var m := SetCorrection(s, r, limits).0;
    Single(s, k, StatusOf(m.state), m.state, k, Take(net, m).held);
  }

  lemma RestartKeeps(net: Net)
    requires NetInv(net)
    ensures NetInv(Restarted(net)) && Precedes(Now(net), Now(Restarted(net)))
  {
  }
}
