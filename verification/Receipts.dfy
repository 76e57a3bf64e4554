/** When the ground's receipts are true (video_service/media_store.py): a receipt tells the aircraft that
    it may delete its original, so the verified original had better be there.
 */
module Receipts {
  import opened Options
  import opened Sessions
  import opened MediaStore

  /** The receipt of a record is true: its original exists and is what the receipt says. */
  ghost predicate Backed(s: Store, id: nat)
    requires id in s.acks
  {
    Kept(s, id).Some? && s.acks[id] == Receipt(id, s.files[Kept(s, id).value])
  }

  ghost predicate AckInv(s: Store) { forall id | id in s.acks :: Backed(s, id) }

  /** What decides about a receipt before its ingestion writes anything: either the payload goes where the
      record points, or it need not, because the kept original is the announced one anyway. */
  predicate Sound(s: Store, m: Manifest, target: Path) {
    m.id !in s.payloads || Kept(s, m.id).None? || Kept(s, m.id) == Some(target) || s.files[Kept(s, m.id).value] == m.content
  }

  // ----------------------------------------------------- what always holds

  /** Receipts speak of records and of the contents these were made for. */
  ghost predicate AcksNamed(s: Store) {
    forall id | id in s.acks :: id in s.records && s.records[id].content == Some(s.acks[id].content) && s.acks[id].id == id
  }

  ghost predicate Announced(s: Store, m: Manifest) {
    m.id in s.records && s.records[m.id].content == Some(m.content) && s.records[m.id].original.Some?
  }

  ghost predicate StageInv(s: Store) {
    match s.stage
    case Recorded(m, target) =>
      && Announced(s, m) && target.area.Internal? && target !in Originals(s.records, m.id)
      && (m.id in s.payloads ==> s.payloads[m.id] == m.content)
      && (m.id !in s.payloads ==> Kept(s, m.id).Some? && s.files[Kept(s, m.id).value] == m.content)
      && (s.records[m.id].original != Some(target) ==> Kept(s, m.id).Some?)
    case Moved(m) => Announced(s, m) && Kept(s, m.id).Some?
    case Revoked(id) => id !in s.acks
    case Emptied(id) => id !in s.acks && Kept(s, id).None?
    case Removed(id) => id !in s.acks && Kept(s, id).None?
    case _ => true
  }

  ghost predicate Inv(s: Store) { PathInv(s) && AcksNamed(s) && StageInv(s) }

  /** Will the receipt of the ingestion under way be true? */
  predicate Promises(s: Store) {
    match s.stage
    case Recorded(m, target) =>
      (m.id in s.payloads && m.id in s.records && s.records[m.id].original == Some(target))
      || (Kept(s, m.id).Some? && s.files[Kept(s, m.id).value] == m.content)
    case Moved(m) => Kept(s, m.id).Some? && s.files[Kept(s, m.id).value] == m.content
    case _ => true
  }

  // ------------------------------------------------------------- step by step

  /** What the first write of an ingestion does to the record. */
  lemma RecordWrites(s: Store, m: Manifest, target: Path, now: real)
    requires Inv(s) && Enabled(s, Record(m, target, now))
    ensures var t := Next(s, Record(m, target, now));
      && t.stage == Recorded(m, target) && t.files == s.files && t.acks == s.acks && t.payloads == s.payloads
      && (Kept(s, m.id).Some? ==> t.records == s.records)
      && m.id in t.records && t.records[m.id].content == Some(m.content) && t.records[m.id].original.Some?
      && (Kept(s, m.id).None? ==> t.records == s.records[m.id := t.records[m.id]] && t.records[m.id].original == Some(target))
      && target.area.Internal? && target !in Originals(s.records, m.id)
      && (if m.id in s.payloads then s.payloads[m.id] == m.content
          else Kept(s, m.id).Some? && s.files[Kept(s, m.id).value] == m.content)
  {
    hide PathInv, AcksNamed, StageInv, Originals;
  }

  lemma SameOthers(records: map<nat, Media>, id: nat, r: Media)
    ensures Originals(records[id := r], id) == Originals(records, id)
  {
    var after := records[id := r];
    forall k | k in records && k != id ensures k in after && after[k] == records[k] { }
    assert forall p | p in Originals(records, id) :: p in Originals(after, id) by {
      forall p | p in Originals(records, id) ensures p in Originals(after, id) {
        var k :| k in records && k != id && records[k].original == Some(p);
        assert after[k].original == Some(p);
      }
    }
  }

  lemma RecordFacts(s: Store, m: Manifest, target: Path, now: real)
    requires Inv(s) && Enabled(s, Record(m, target, now))
    ensures var t := Next(s, Record(m, target, now));
      && AcksNamed(t) && StageInv(t) && (AckInv(s) ==> AckInv(t)) && (Promises(t) <==> Sound(s, m, target))
  {
    RecordWrites(s, m, target, now);
    var t := Next(s, Record(m, target, now));
    hide FirstFree, PathInv, Next, Enabled, Originals;
    SameOthers(s.records, m.id, t.records[m.id]);
    if AckInv(s) {
      forall k | k in t.acks ensures Backed(t, k) { assert Backed(s, k); }
    }
  }

  lemma MoveFacts(s: Store)
    requires Inv(s) && s.stage.Recorded?
    ensures var t := Next(s, Move);
      AcksNamed(t) && StageInv(t) && (AckInv(s) ==> AckInv(t)) && (Promises(t) <==> Promises(s))
  {
    var m, target, t := s.stage.manifest, s.stage.target, Next(s, Move);
    if m.id in s.payloads {
      assert t.files == s.files[target := m.content];
      forall k | k in s.records && k != m.id ensures Kept(t, k) == Kept(s, k) && Kept(s, k) != Some(target) {
        if s.records[k].original.Some? { assert s.records[k].original.value in Originals(s.records, m.id); }
      }
    }
    if AckInv(s) {
      forall k | k in t.acks ensures Backed(t, k) { assert Backed(s, k); }
    }
    hide PathInv;
  }

  /** The one write that can make a receipt untrue, and exactly when it does. */
  lemma WriteFacts(s: Store)
    requires Inv(s) && s.stage.Moved?
    ensures var t := Next(s, WriteReceipt);
      AcksNamed(t) && StageInv(t) && (AckInv(s) ==> (AckInv(t) <==> Promises(s))) && (AckInv(t) ==> Promises(s))
  {
    var t := Next(s, WriteReceipt);
    var id := s.stage.manifest.id;
    assert Backed(t, id) <==> Promises(s);
    if AckInv(s) {
      forall k | k in s.acks && k != id ensures Backed(t, k) { assert Backed(s, k); }
    }
    hide PathInv, Promises;
  }

  /** Every kept original other than that of `id` stays as it is. */
  ghost predicate Spares(s: Store, t: Store, id: nat) {
    && t.acks == s.acks && s.records.Keys <= t.records.Keys
    && (forall k | k in s.records && k != id ::
          t.records[k].content == s.records[k].content && Kept(t, k) == Kept(s, k)
          && (Kept(s, k).Some? ==> t.files[Kept(s, k).value] == s.files[Kept(s, k).value]))
  }

  lemma SparedStay(s: Store, t: Store, id: nat)
    requires AcksNamed(s) && Spares(s, t, id) && id !in s.acks
    ensures AcksNamed(t) && (AckInv(s) ==> AckInv(t))
  {
    if AckInv(s) {
      forall k | k in t.acks ensures Backed(t, k) { assert Backed(s, k); }
    }
    hide Kept;
  }

  /** Taking the original of a record away spares the others. */
  lemma RemovalSpares(s: Store, id: nat)
    requires PathInv(s) && id in s.records
    ensures Spares(s, s.(files := s.files - PathSet(s.records[id].original), stage := Emptied(id)), id)
  {
    hide Reserved, DistinctPublics;
  }

  /** Public files and states of records are nothing to the originals. */
  ghost predicate KeepsOriginals(s: Store, t: Store) {
    && s.records.Keys <= t.records.Keys
    && (forall k | k in s.records ::
          t.records[k].content == s.records[k].content && t.records[k].original == s.records[k].original)
    && (forall p: Path | p.area.Internal? :: (p in t.files <==> p in s.files) && (p in s.files ==> t.files[p] == s.files[p]))
    && (forall k | k in t.records && k !in s.records :: t.records[k].original.None?)
  }

  lemma OriginalsKept(s: Store, t: Store)
    requires PathInv(s) && AcksNamed(s) && KeepsOriginals(s, t) && t.acks == s.acks
    ensures AcksNamed(t) && (AckInv(s) ==> AckInv(t)) && forall k | k in s.records :: Kept(t, k) == Kept(s, k)
  {
    forall k | k in s.records ensures Kept(t, k) == Kept(s, k) {
      if s.records[k].original.Some? { assert s.records[k].original.value.area.Internal?; }
    }
    if AckInv(s) {
      forall k | k in t.acks ensures Backed(t, k) { assert Backed(s, k); }
    }
    hide PathInv;
  }

  /** The steps that concern no original and no receipt. */
  predicate Indifferent(step: Step) {
    !step.Record? && !step.Move? && !step.WriteReceipt? && !step.Revoke? && !step.RemoveOriginal? && !step.RemovePublic? && !step.Forget?
  }

  lemma PublicTarget(s: Store, step: Step)
    requires PathInv(s) && Enabled(s, step)
    ensures step.Place? ==> step.target.area.Public?
    ensures step.PlacePhoto? ==> s.photo.target.area.Public?
  {
  }

  lemma FilesKept(s: Store, step: Step)
    requires PathInv(s) && Enabled(s, step) && Indifferent(step)
    ensures var t := Next(s, step);
      && t.acks == s.acks
      && (forall p: Path | p.area.Internal? :: (p in t.files <==> p in s.files) && (p in s.files ==> t.files[p] == s.files[p]))
  {
    PublicTarget(s, step);
    hide PathInv, FirstFree, Recording, Moving, Rebooted, Quiet;
  }

  lemma RecordsKept(s: Store, step: Step)
    requires Enabled(s, step) && Indifferent(step)
    ensures var t := Next(s, step);
      && s.records.Keys <= t.records.Keys
      && (forall k | k in s.records ::
            t.records[k].content == s.records[k].content && t.records[k].original == s.records[k].original)
      && (forall k | k in t.records && k !in s.records :: t.records[k].original.None?)
  {
    hide FirstFree, Recording, Moving, Publics;
  }

  lemma IndifferentKeeps(s: Store, step: Step)
    requires PathInv(s) && Enabled(s, step) && Indifferent(step)
    ensures KeepsOriginals(s, Next(s, step)) && Next(s, step).acks == s.acks
  {
    FilesKept(s, step);
    RecordsKept(s, step);
    hide Next, Enabled, PathInv;
  }

  /** What is left of the stage afterwards. */
  lemma IndifferentStage(s: Store, step: Step)
    requires PathInv(s) && StageInv(s) && Enabled(s, step) && Indifferent(step)
    ensures StageInv(Next(s, step))
    ensures Next(s, step).stage.Recorded? || Next(s, step).stage.Moved? ==>
      Next(s, step).stage == s.stage && (Promises(Next(s, step)) <==> Promises(s))
  {
    hide FirstFree, PathInv, Recording, Accepts;
  }

  lemma RevokeFacts(s: Store, id: nat)
    requires Inv(s) && Enabled(s, Revoke(id))
    ensures var t := Next(s, Revoke(id)); AcksNamed(t) && StageInv(t) && (AckInv(s) ==> AckInv(t))
  {
    var t := Next(s, Revoke(id));
    if AckInv(s) {
      forall k | k in t.acks ensures Backed(t, k) { assert Backed(s, k); }
    }
    hide PathInv;
  }

  lemma RemoveFacts(s: Store, step: Step)
    requires Inv(s) && Enabled(s, step) && (step.RemoveOriginal? || step.RemovePublic? || step.Forget?)
    ensures var t := Next(s, step); AcksNamed(t) && StageInv(t) && (AckInv(s) ==> AckInv(t))
  {
    var id, t := s.stage.id, Next(s, step);
    match step
    case RemoveOriginal => RemovalSpares(s, id); SparedStay(s, t, id);
    case RemovePublic => PublicRemoved(s); OriginalsKept(s, t);
    case Forget => ForgettingSpares(s, t); SparedStay(s, t, id);
    hide PathInv, Spares, AckInv, AcksNamed, KeepsOriginals;
  }

  lemma PublicRemoved(s: Store)
    requires PathInv(s) && Enabled(s, RemovePublic)
    ensures KeepsOriginals(s, Next(s, RemovePublic))
  {
  }

  lemma ForgettingSpares(s: Store, t: Store)
    requires Enabled(s, Forget) && t == Next(s, Forget)
    ensures Spares(s, t, s.stage.id)
  {
  }

  /** The steps that do concern originals or receipts. */
  lemma ConcernedKeeps(s: Store, step: Step)
    requires Inv(s) && Enabled(s, step) && !Indifferent(step)
    ensures var t := Next(s, step); AcksNamed(t) && StageInv(t) && (AckInv(s) && !step.WriteReceipt? ==> AckInv(t))
  {
    AtStage(s, step);
    hide PathInv, AcksNamed, StageInv, AckInv, Inv, Enabled, Next, Promises;
    match step
    case Record(m, target, now) => RecordFacts(s, m, target, now);
    case Move => MoveFacts(s);
    case WriteReceipt => WriteFacts(s);
    case Revoke(id) => RevokeFacts(s, id);
    case RemoveOriginal | RemovePublic | Forget => RemoveFacts(s, step);
  }

  lemma StepKeepsInv(s: Store, step: Step)
    requires Inv(s) && Enabled(s, step)
    ensures Inv(Next(s, step)) && (AckInv(s) && !step.WriteReceipt? ==> AckInv(Next(s, step)))
  {
    StepKeepsPaths(s, step);
    hide PathInv, AcksNamed, StageInv, AckInv, Enabled, Next, KeepsOriginals, Promises;
    if Indifferent(step) {
      IndifferentKeeps(s, step);
      IndifferentStage(s, step);
      OriginalsKept(s, Next(s, step));
    } else {
      ConcernedKeeps(s, step);
    }
  }

  lemma AtStage(s: Store, step: Step)
    requires Enabled(s, step)
    ensures (step.Move? ==> s.stage.Recorded?) && (step.WriteReceipt? ==> s.stage.Moved?)
  {
  }

  lemma EmptyInv()
    ensures Inv(EMPTY) && AckInv(EMPTY)
  {
  }

  /** The original is always there when a receipt is about to be written, so opening it never fails. */
  lemma NeverRefused(s: Store)
    requires Inv(s)
    ensures !Enabled(s, Refuse)
  {
    hide PathInv, AcksNamed;
  }

  // -------------------------------------------------------- one ingestion

  /** An ingestion that is carried through leaves every receipt true if and only if it was sound when it
      began, with the name the search had found. */
  lemma ReceiptTrueIff(s: Store, m: Manifest, target: Path, now: real)
    requires Inv(s) && AckInv(s) && Enabled(s, Record(m, target, now))
    ensures var t := Next(Next(Next(s, Record(m, target, now)), Move), WriteReceipt);
      AckInv(t) <==> Sound(s, m, target)
  {
    var s1 := Next(s, Record(m, target, now));
    var s2 := Next(s1, Move);
    StepKeepsInv(s, Record(m, target, now));
    RecordFacts(s, m, target, now);
    assert s1.stage == Recorded(m, target) && s2.stage == Moved(m);
    StepKeepsInv(s1, Move);
    MoveFacts(s1);
    WriteFacts(s2);
    hide Inv, AckInv, Sound, Promises, Next;
  }

  // ----------------------------------------------------------- whole runs

  /** The step before position `j` that began the ingestion then under way. */
  function Begun(steps: seq<Step>, j: nat): nat
    requires j <= |steps|
  {
    if j == 0 then 0 else if steps[j - 1].Record? then j - 1 else Begun(steps, j - 1)
  }

  /** Every ingestion whose receipt was written had been sound. */
  ghost predicate AllSound(steps: seq<Step>) {
    forall j | 0 <= j < |steps| && steps[j].WriteReceipt? :: SoundAt(steps, Begun(steps, j))
  }

  ghost predicate SoundAt(steps: seq<Step>, k: nat) {
    k < |steps| && steps[k].Record? && Sound(Run(EMPTY, steps[..k]), steps[k].manifest, steps[k].target)
  }

  ghost predicate TrueThroughout(steps: seq<Step>) { forall n | 0 <= n <= |steps| :: AckInv(Run(EMPTY, steps[..n])) }

  /** An ingestion under way stands or falls with how it began. */
  ghost predicate Tracked(steps: seq<Step>, n: nat)
    requires n <= |steps|
  {
    var s, k := Run(EMPTY, steps[..n]), Begun(steps, n);
    s.stage.Recorded? || s.stage.Moved? ==> k < n && steps[k].Record? && (SoundAt(steps, k) <==> Promises(s))
  }

  lemma TrackedStep(steps: seq<Step>, n: nat)
    requires n < |steps| && Runs(EMPTY, steps) && Inv(Run(EMPTY, steps[..n])) && Tracked(steps, n)
    ensures Tracked(steps, n + 1)
  {
    var s, step := Run(EMPTY, steps[..n]), steps[n];
    RunPrefix(EMPTY, steps, n);
    if step.Record? {
      RecordFacts(s, step.manifest, step.target, step.now);
    } else if step.Move? {
      AtStage(s, step);
      MoveFacts(s);
    } else {
      StageMoves(s, step);
    }
    hide Inv, Enabled, Next, Runs, Run, Sound, Promises;
  }

  lemma StageMoves(s: Store, step: Step)
    requires Inv(s) && Enabled(s, step) && !step.Record? && !step.Move?
    ensures Next(s, step).stage.Recorded? || Next(s, step).stage.Moved? ==>
      Next(s, step).stage == s.stage && (Promises(Next(s, step)) <==> Promises(s))
  {
    if Indifferent(step) { IndifferentStage(s, step); }
    hide Inv, FirstFree, Promises, Recording, Moving;
  }

  lemma {:induction false} Prefixes(steps: seq<Step>, n: nat)
    requires n <= |steps| && Runs(EMPTY, steps)
    ensures Inv(Run(EMPTY, steps[..n])) && Tracked(steps, n)
  {
    hide Inv, Next, Enabled, Runs, Sound, Promises;
    if n == 0 {
      EmptyInv();
      assert steps[..0] == [];
    } else {
      Prefixes(steps, n - 1);
      RunPrefix(EMPTY, steps, n - 1);
      StepKeepsInv(Run(EMPTY, steps[..n - 1]), steps[n - 1]);
      TrackedStep(steps, n - 1);
    }
  }

  /** As long as all receipts are true, the next step keeps them so unless it writes one for an
      ingestion that was not sound. */
  lemma NextTrueIff(steps: seq<Step>, n: nat)
    requires n < |steps| && Runs(EMPTY, steps) && AckInv(Run(EMPTY, steps[..n]))
    ensures AckInv(Run(EMPTY, steps[..n + 1])) <==> (steps[n].WriteReceipt? ==> SoundAt(steps, Begun(steps, n)))
  {
    hide Inv, Next, Enabled, AckInv, Promises, Runs, Run, SoundAt;
    Prefixes(steps, n);
    RunPrefix(EMPTY, steps, n);
    var s := Run(EMPTY, steps[..n]);
    StepKeepsInv(s, steps[n]);
    if steps[n].WriteReceipt? {
      AtStage(s, steps[n]);
      WriteFacts(s);
    }
  }

  lemma {:induction false} SoundMeansTrue(steps: seq<Step>, n: nat)
    requires n <= |steps| && Runs(EMPTY, steps) && AllSound(steps)
    ensures AckInv(Run(EMPTY, steps[..n]))
  {
    hide AckInv, Next, Enabled, Runs, SoundAt;
    if n == 0 {
      EmptyInv();
      assert steps[..0] == [];
    } else {
      SoundMeansTrue(steps, n - 1);
      NextTrueIff(steps, n - 1);
    }
  }

  /** In every run, interrupted anywhere: after every single write every receipt is true, if and only if
      every ingestion whose receipt was written had been sound when it began. */
  lemma EveryReceiptIsTrueIff(steps: seq<Step>)
    requires Runs(EMPTY, steps)
    ensures TrueThroughout(steps) <==> AllSound(steps)
  {
    hide AckInv, Next, Enabled, Runs, Run, SoundAt, Begun;
    if AllSound(steps) {
      forall n | 0 <= n <= |steps| ensures AckInv(Run(EMPTY, steps[..n])) { SoundMeansTrue(steps, n); }
    }
    if TrueThroughout(steps) {
      forall j | 0 <= j < |steps| && steps[j].WriteReceipt? ensures SoundAt(steps, Begun(steps, j)) {
        assert AckInv(Run(EMPTY, steps[..j])) && AckInv(Run(EMPTY, steps[..j + 1]));
        NextTrueIff(steps, j);
      }
    }
  }

  // -------------------------------------------------- the receipt that is not true

  ghost predicate Reachable(s: Store) { exists steps :: Runs(EMPTY, steps) && Run(EMPTY, steps) == s }

  lemma {:induction false} RunsAppend(s: Store, steps: seq<Step>, step: Step)
    requires Runs(s, steps) && Enabled(Run(s, steps), step)
    ensures Runs(s, steps + [step]) && Run(s, steps + [step]) == Next(Run(s, steps), step)
    decreases |steps|
  {
    hide Enabled, Next;
    if steps == [] {
      assert (steps + [step])[1..] == [];
    } else {
      assert (steps + [step])[1..] == steps[1..] + [step];
      RunsAppend(Next(s, steps[0]), steps[1..], step);
    }
  }

  lemma ReachableInv(s: Store)
    requires Reachable(s)
    ensures Inv(s)
  {
    hide Inv, Tracked, Runs, Run;
    var steps :| Runs(EMPTY, steps) && Run(EMPTY, steps) == s;
    Prefixes(steps, |steps|);
    assert steps[..|steps|] == steps;
  }

  lemma ReachReceipt(s: Store)
    requires Reachable(s) && s.stage.Moved?
    ensures Reachable(Next(s, WriteReceipt))
  {
    ReachableInv(s);
    assert Enabled(s, WriteReceipt);
    Reach(s, WriteReceipt);
    hide Reachable, Inv;
  }

  lemma Reach(s: Store, step: Step)
    requires Reachable(s) && Enabled(s, step)
    ensures Reachable(Next(s, step))
  {
    hide Enabled, Next, Runs, Run;
    var steps :| Runs(EMPTY, steps) && Run(EMPTY, steps) == s;
    RunsAppend(EMPTY, steps, step);
  }

  /** The inbox holds a payload and its manifest, and the record has been written. */
  function AtRecorded(s: Store, m: Manifest, target: Path): Store {
    s.(payloads := s.payloads[m.id := m.content], manifests := s.manifests[m.id := m],
       records := Recording(s, m, target, 0.0), stage := Recorded(m, target))
  }

  function AfterIngestion(s: Store, m: Manifest, target: Path): Store {
    s.(records := Recording(s, m, target, 0.0), files := s.files[target := m.content],
       acks := s.acks[m.id := Receipt(m.id, m.content)],
       payloads := s.payloads[m.id := m.content] - {m.id}, manifests := s.manifests[m.id := m] - {m.id}, stage := Idle)
  }

  lemma ReachRecorded(s: Store, m: Manifest, target: Path)
    requires Reachable(s) && s.stage.Idle? && m.owner !in s.stopped
    requires m.id in s.records ==> s.records[m.id].owner == m.owner && s.records[m.id].content == Some(m.content)
    requires FirstFree(Originals(s.records, m.id), Internal, m.owner, m.name, target)
    ensures Reachable(AtRecorded(s, m, target))
  {
    hide FirstFree, Reachable;
    Reach(s, PayloadArrives(m.id, m.content));
    var s1 := Next(s, PayloadArrives(m.id, m.content));
    Reach(s1, ManifestArrives(m));
    var s2 := Next(s1, ManifestArrives(m));
    Reach(s2, Record(m, target, 0.0));
  }

  lemma ReachIngestion(s: Store, m: Manifest, target: Path)
    requires Reachable(s) && s.stage.Idle? && m.owner !in s.stopped
    requires m.id in s.records ==> s.records[m.id].owner == m.owner && s.records[m.id].content == Some(m.content)
    requires FirstFree(Originals(s.records, m.id), Internal, m.owner, m.name, target)
    ensures Reachable(AfterIngestion(s, m, target))
  {
    hide FirstFree, Reachable, Recording;
    ReachRecorded(s, m, target);
    var s3 := AtRecorded(s, m, target);
    Reach(s3, Move);
    var s4 := Next(s3, Move);
    ReachReceipt(s4);
    var s5 := Next(s4, WriteReceipt);
    Reach(s5, DropManifest);
    assert Next(s5, DropManifest) == AfterIngestion(s, m, target);
  }

  /** Deleting a record whole. */
  function AfterDeletion(s: Store, id: nat): Store
    requires id in s.records
  {
    var r := s.records[id];
    s.(acks := s.acks - {id}, files := s.files - PathSet(r.original) - PathSet(r.public), staged := s.staged - {id},
       records := s.records[id := Forgotten(r)], stage := Idle)
  }

  lemma ReachDeletion(s: Store, id: nat)
    requires Reachable(s) && s.stage.Idle? && id in s.records && !s.records[id].status.Active()
    ensures Reachable(AfterDeletion(s, id))
  {
    hide Reachable, PathSet;
    Reach(s, Revoke(id));
    var s1 := Next(s, Revoke(id));
    Reach(s1, RemoveOriginal);
    var s2 := Next(s1, RemoveOriginal);
    Reach(s2, RemovePublic);
    var s3 := Next(s2, RemovePublic);
    Reach(s3, Forget);
  }

  const OWNER := Session(1, 1)
  const NAME := Name("a.mp4", "a", ".mp4")
  const BASE := PathAt(Internal, OWNER, NAME, 1)
  const SECOND := PathAt(Internal, OWNER, NAME, 2)
  const THIRD := PathAt(Internal, OWNER, NAME, 3)

  function Upload(id: nat): Manifest { Manifest(id, OWNER, NAME, false, Content(1, id), 0.0) }

  lemma NamesDiffer()
    ensures BASE != SECOND && SECOND != THIRD && BASE != THIRD
  {
    assert SECOND.name == "a-2.mp4" && THIRD.name == "a-3.mp4";
    assert BASE.name[1] != SECOND.name[1] && SECOND.name[2] != THIRD.name[2] && BASE.name[1] != THIRD.name[1];
  }

  lemma FreeNames(occupied: set<Path>)
    ensures BASE !in occupied ==> FirstFree(occupied, Internal, OWNER, NAME, BASE)
    ensures BASE in occupied && SECOND !in occupied ==> FirstFree(occupied, Internal, OWNER, NAME, SECOND)
    ensures BASE in occupied && SECOND in occupied && THIRD !in occupied ==> FirstFree(occupied, Internal, OWNER, NAME, THIRD)
  {
  }

  function At(id: nat, original: Option<Path>): Media {
    Media(OWNER, false, Some(Upload(id).content), original, None, if original.Some? then Settled else Deleted, 0.0, 0.0)
  }

  /** A reachable idle store with these records and files, and nothing else that matters here. */
  ghost predicate Stands(s: Store, records: map<nat, Media>, files: map<Path, Content>) {
    Reachable(s) && s.stage.Idle? && s.stopped == {} && s.records == records && s.files == files
  }

  lemma StandsIngest(s: Store, records: map<nat, Media>, files: map<Path, Content>, id: nat, target: Path)
    requires Stands(s, records, files)
    requires FirstFree(Originals(records, id), Internal, OWNER, NAME, target)
    requires id in records ==> records[id].owner == OWNER && records[id].content == Some(Upload(id).content)
    ensures var t := AfterIngestion(s, Upload(id), target);
      Stands(t, Recording(s, Upload(id), target, 0.0), files[target := Upload(id).content]) && id in t.acks
  {
    hide FirstFree, Reachable, Recording;
    ReachIngestion(s, Upload(id), target);
  }

  lemma StandsDelete(s: Store, records: map<nat, Media>, files: map<Path, Content>, id: nat, path: Path)
    requires Stands(s, records, files) && id in records && records[id] == At(id, Some(path))
    ensures Stands(AfterDeletion(s, id), records[id := At(id, None)], files - {path})
  {
    hide Reachable;
    ReachDeletion(s, id);
  }

  lemma StandsNew(s: Store, records: map<nat, Media>, files: map<Path, Content>, id: nat, target: Path)
    requires Stands(s, records, files) && id !in records
    requires FirstFree(Originals(records, id), Internal, OWNER, NAME, target)
    ensures Stands(AfterIngestion(s, Upload(id), target), records[id := At(id, Some(target))], files[target := Upload(id).content])
  {
    hide FirstFree, Reachable, AfterIngestion;
    StandsIngest(s, records, files, id, target);
  }

  /** Three uploads of one name. */
  lemma ThreeUploads() returns (s: Store)
    ensures Stands(s, map[0 := At(0, Some(BASE)), 1 := At(1, Some(SECOND)), 2 := At(2, Some(THIRD))],
                   map[BASE := Upload(0).content, SECOND := Upload(1).content, THIRD := Upload(2).content])
  {
    hide FirstFree, Reachable, Candidate, PathAt, AfterIngestion;
    EmptyReachable();
    NamesDiffer();
    FreeNames({});
    FreeNames({BASE});
    FreeNames({BASE, SECOND});
    var r0, r1, r2 := At(0, Some(BASE)), At(1, Some(SECOND)), At(2, Some(THIRD));
    assert Originals(map[], 0) == {};
    StandsNew(EMPTY, map[], map[], 0, BASE);
    s := AfterIngestion(EMPTY, Upload(0), BASE);
    assert Originals(map[0 := r0], 1) == {BASE};
    StandsNew(s, map[0 := r0], map[BASE := Upload(0).content], 1, SECOND);
    s := AfterIngestion(s, Upload(1), SECOND);
    var two := map[0 := r0, 1 := r1];
    assert two[0].original == Some(BASE) && two[1].original == Some(SECOND);
    assert Originals(two, 2) == {BASE, SECOND};
    StandsNew(s, map[0 := r0, 1 := r1], map[BASE := Upload(0).content, SECOND := Upload(1).content], 2, THIRD);
    s := AfterIngestion(s, Upload(2), THIRD);
    assert s.records == map[0 := r0, 1 := r1, 2 := r2];
  }

  /** The second is deleted and the third sent again: its payload is filed under the freed name while
      its record keeps the old one. */
  lemma StrayFile() returns (s: Store)
    ensures Stands(s, map[0 := At(0, Some(BASE)), 1 := At(1, None), 2 := At(2, Some(THIRD))],
                   map[BASE := Upload(0).content, SECOND := Upload(2).content, THIRD := Upload(2).content])
  {
    hide FirstFree, Reachable, Candidate, PathAt, AfterIngestion, AfterDeletion;
    NamesDiffer();
    FreeNames({BASE});
    s := ThreeUploads();
    StandsDelete(s, s.records, s.files, 1, SECOND);
    var t := AfterDeletion(s, 1);
    var r := map[0 := At(0, Some(BASE)), 1 := At(1, None), 2 := At(2, Some(THIRD))];
    assert t.records == r;
    assert Originals(r, 2) == {BASE} by { assert r[0].original == Some(BASE); }
    StandsIngest(t, r, t.files, 2, SECOND);
    s := AfterIngestion(t, Upload(2), SECOND);
    assert Kept(t, 2) == Some(THIRD);
  }

  /** This upload waits in the inbox. */
  predicate Waits(s: Store, id: nat) {
    id in s.payloads && s.payloads[id] == Upload(id).content && id in s.manifests && s.manifests[id] == Upload(id)
  }

  /** An upload that is cut off right after its record was written. */
  lemma StandsCut(s: Store, records: map<nat, Media>, files: map<Path, Content>, id: nat, target: Path) returns (t: Store)
    requires Stands(s, records, files) && id !in records && forall k | k in records :: !records[k].status.Active()
    requires FirstFree(Originals(records, id), Internal, OWNER, NAME, target)
    ensures Stands(t, records[id := At(id, Some(target))], files) && Waits(t, id)
  {
    hide FirstFree, Reachable, Originals;
    ReachRecorded(s, Upload(id), target);
    var u := AtRecorded(s, Upload(id), target);
    Reach(u, Restart({}));
    t := Next(u, Restart({}));
    assert u.records == records[id := At(id, Some(target))];
    assert t.records == u.records;
  }

  /** A fourth upload is cut off right after its record was written. */
  lemma CutOff() returns (s: Store)
    ensures Stands(s, map[0 := At(0, Some(BASE)), 1 := At(1, None), 2 := At(2, Some(THIRD)), 3 := At(3, Some(SECOND))],
                   map[BASE := Upload(0).content, SECOND := Upload(2).content, THIRD := Upload(2).content])
    ensures Waits(s, 3)
  {
    hide FirstFree, Reachable, Candidate, PathAt;
    NamesDiffer();
    FreeNames({BASE, THIRD});
    var t := StrayFile();
    assert Originals(t.records, 3) == {BASE, THIRD} by {
      assert t.records[0].original == Some(BASE) && t.records[2].original == Some(THIRD);
    }
    s := StandsCut(t, t.records, t.files, 3, SECOND);
  }

  /** The first is deleted, and its name is free again. */
  lemma Freed() returns (s: Store)
    ensures Stands(s, map[0 := At(0, None), 1 := At(1, None), 2 := At(2, Some(THIRD)), 3 := At(3, Some(SECOND))],
                   map[SECOND := Upload(2).content, THIRD := Upload(2).content])
    ensures Waits(s, 3)
  {
    hide FirstFree, Reachable, Candidate, PathAt;
    NamesDiffer();
    var t := CutOff();
    StandsDelete(t, t.records, t.files, 0, BASE);
    s := AfterDeletion(t, 0);
  }

  /** It then finds the stray file when it is taken up again under a name that has become free, and a
      receipt is written for an original the record does not point at. */
  lemma ReceiptCanLie() returns (s: Store)
    ensures Reachable(s) && 3 in s.acks && s.acks[3] == Receipt(3, Upload(3).content) && !Backed(s, 3)
  {
    hide FirstFree, Reachable, Candidate, PathAt;
    NamesDiffer();
    FreeNames({THIRD});
    var m := Upload(3);
    var s3 := Freed();
    assert Originals(s3.records, 3) == {THIRD} by { assert s3.records[2].original == Some(THIRD); }
    Reach(s3, Record(m, BASE, 0.0));
    var s4 := Next(s3, Record(m, BASE, 0.0));
    assert s4.records == s3.records;
    Reach(s4, Move);
    var s5 := Next(s4, Move);
    ReachReceipt(s5);
    s := Next(s5, WriteReceipt);
    assert Kept(s, 3) == Some(SECOND) && s.files[SECOND] == Upload(2).content;
  }

  lemma EmptyReachable()
    ensures Reachable(EMPTY)
  {
    assert Runs(EMPTY, []) && Run(EMPTY, []) == EMPTY;
  }
}
