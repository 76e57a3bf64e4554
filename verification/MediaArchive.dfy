/** The ground's media store as the object it is (video_service/media_store.py, class MediaStore): its
    operations, in place, under its lock. What is interrupted in between is in module `MediaStore`.
 */
module MediaArchive {
  import opened Options
  import opened Sessions
  import opened MediaStore
  import R = Receipts

  // -------------------------------------------------------------------- storage

  /** The bytes of some files. */
  ghost function Total<K>(files: map<K, Content>): nat
    decreases |files|
  {
    if files == map[] then 0
    else
      var p :| p in files;
      files[p].size + Total(files - {p})
  }

  lemma {:induction false} TotalWithout<K>(files: map<K, Content>, p: K)
    requires p in files
    ensures Total(files) == files[p].size + Total(files - {p})
    decreases |files|
  {
    var q :| q in files && Total(files) == files[q].size + Total(files - {q});
    if q != p {
      TotalWithout(files - {q}, p);
      TotalWithout(files - {p}, q);
      assert files - {q} - {p} == files - {p} - {q};
    }
  }

  /** The managed files: originals and public files, the inbox and the staging directory. */
  ghost function Used(s: Store): nat { Total(s.files) + Total(s.payloads) + Total(s.staged) }

  /** The bytes of one directory, file by file. */
  method Measure<K(==)>(files: map<K, Content>) returns (used: nat)
    ensures used == Total(files)
  {
    used := 0;
    var rest := files;
    while rest.Keys != {}
      invariant rest.Keys <= files.Keys && used + Total(rest) == Total(files)
      decreases rest.Keys
    {
      var p :| p in rest.Keys;
      TotalWithout(rest, p);
      used := used + rest[p].size;
      rest := rest - {p};
    }
    assert rest == map[];
  }

  // ------------------------------------------------------------------- eviction

  /** New originals are left alone for so many seconds. */
  const GRACE := 60.0

  /** May the capacity policy take this record? Not an active or a deleted one, nor one in its grace. */
  predicate Eligible(records: map<nat, Media>, now: real, id: nat) {
    id in records && records[id].status.Settled? && !(records[id].original.Some? && now - records[id].ingested < GRACE)
  }

  function EligibleOf(records: map<nat, Media>, now: real, ids: seq<nat>): seq<nat> {
    if ids == [] then []
    else EligibleOf(records, now, ids[..|ids| - 1]) + if Eligible(records, now, ids[|ids| - 1]) then [ids[|ids| - 1]] else []
  }

  /** All records, the oldest first. */
  ghost predicate Listing(records: map<nat, Media>, ids: seq<nat>) {
    && (forall id | id in ids :: id in records) && (forall id | id in records :: id in ids)
    && (forall i, j | 0 <= i < j < |ids| :: ids[i] != ids[j])
    && (forall i, j | 0 <= i < j < |ids| && ids[i] in records && ids[j] in records ::
          records[ids[i]].created <= records[ids[j]].created)
  }

  function AllDeleted(s: Store, ids: seq<nat>): Store {
    if ids == [] then s
    else
      var t := AllDeleted(s, ids[..|ids| - 1]);
      if ids[|ids| - 1] in t.records then R.AfterDeletion(t, ids[|ids| - 1]) else t
  }

  lemma {:induction false} DeletedRecords(s: Store, ids: seq<nat>)
    ensures var t := AllDeleted(s, ids);
      && t.records.Keys == s.records.Keys && t.payloads == s.payloads
      && (forall id | id in s.records :: t.records[id] == if id in ids then Forgotten(s.records[id]) else s.records[id])
    decreases |ids|
  {
    if ids != [] {
      var n := |ids| - 1;
      DeletedRecords(s, ids[..n]);
      assert ids == ids[..n] + [ids[n]];
    }
  }

  lemma OneMoreDeleted(s: Store, ids: seq<nat>, id: nat)
    requires id in AllDeleted(s, ids).records
    ensures AllDeleted(s, ids + [id]) == R.AfterDeletion(AllDeleted(s, ids), id)
  {
  }

  lemma OneMoreEligible(records: map<nat, Media>, now: real, ids: seq<nat>, i: nat)
    requires i < |ids|
    ensures EligibleOf(records, now, ids[..i + 1])
         == EligibleOf(records, now, ids[..i]) + if Eligible(records, now, ids[i]) then [ids[i]] else []
  {
    assert ids[..i + 1][..i] == ids[..i];
  }

  lemma {:induction false} EligibleIn(records: map<nat, Media>, now: real, ids: seq<nat>)
    ensures forall id :: id in EligibleOf(records, now, ids) <==> id in ids && Eligible(records, now, id)
  {
    if ids != [] {
      var n := |ids| - 1;
      EligibleIn(records, now, ids[..n]);
      assert ids == ids[..n] + [ids[n]];
    }
  }

  /** What is eligible keeps its place in the order of age. */
  lemma {:induction false} EligibleOrdered(records: map<nat, Media>, now: real, order: seq<nat>, seen: nat)
    requires Listing(records, order) && seen <= |order|
    ensures var removed := EligibleOf(records, now, order[..seen]);
      && (forall id | id in removed :: id in order[..seen])
      && forall i, j | 0 <= i < j < |removed| && removed[i] in records && removed[j] in records ::
           removed[i] != removed[j] && records[removed[i]].created <= records[removed[j]].created
    decreases seen
  {
    if seen > 0 {
      EligibleOrdered(records, now, order, seen - 1);
      OneMoreEligible(records, now, order, seen - 1);
      EligibleIn(records, now, order[..seen]);
      var earlier, last := EligibleOf(records, now, order[..seen - 1]), order[seen - 1];
      forall id | id in earlier ensures id != last && (id in records ==> last in records && records[id].created <= records[last].created) {
        var k :| 0 <= k < seen - 1 && order[..seen - 1][k] == id;
        assert order[k] == id;
      }
    }
    hide EligibleOf;
  }

  /** Each deletion happened while the limit was still exceeded. */
  ghost predicate Needed(s: Store, removed: seq<nat>, maxBytes: int) {
    forall k | 0 <= k < |removed| :: Used(AllDeleted(s, removed[..k])) > maxBytes
  }

  lemma NeededGrows(s: Store, removed: seq<nat>, id: nat, maxBytes: int)
    requires Needed(s, removed, maxBytes) && Used(AllDeleted(s, removed)) > maxBytes
    ensures Needed(s, removed + [id], maxBytes)
  {
    hide AllDeleted, Used;
    var longer := removed + [id];
    forall k | 0 <= k < |longer| ensures Used(AllDeleted(s, longer[..k])) > maxBytes {
      assert longer[..k] == removed[..k];
      assert removed[..|removed|] == removed;
    }
  }

  /** Once every record was looked at, nothing that could go is left. */
  lemma NothingLeft(s: Store, now: real, ids: seq<nat>)
    requires Listing(s.records, ids)
    ensures forall id :: !Eligible(AllDeleted(s, EligibleOf(s.records, now, ids)).records, now, id)
  {
    var removed := EligibleOf(s.records, now, ids);
    EligibleIn(s.records, now, ids);
    DeletedRecords(s, removed);
    hide AllDeleted, EligibleOf;
  }

  // --------------------------------------------------------------- the object

  class Archive {
    const maxBytes: int
    var records: map<nat, Media>
    var files: map<Path, Content>
    var acks: map<nat, Receipt>
    var payloads: map<nat, Content>
    var manifests: map<nat, Manifest>
    var staged: map<nat, Content>
    var stopped: set<Session>
    var photo: Photo

    /** The store while nobody holds its lock. */
    function View(): Store
      reads this
    {
      Store(records, files, acks, payloads, manifests, staged, stopped, Idle, photo)
    }

    ghost predicate Valid()
      reads this
    {
      R.Inv(View())
    }

    constructor (maxBytes: int)
      ensures Valid() && View() == EMPTY && this.maxBytes == maxBytes
    {
      this.maxBytes := maxBytes;
      records, files, acks, payloads, manifests, staged := map[], map[], map[], map[], map[], map[];
      stopped, photo := {}, Free;
      new;
      R.EmptyInv();
    }

    /** One manifest of `ingest_pending`; false when it is refused and stays in the inbox. */
    method Ingest(m: Manifest, now: real) returns (ok: bool, target: Path)
      requires Valid() && m.id in manifests && manifests[m.id] == m
      modifies this`records, this`files, this`payloads, this`acks, this`manifests
      ensures Valid() && ok == Accepts(old(View()), m)
      ensures !ok ==> View() == old(View())
      ensures ok ==>
        && Runs(old(View()), [Record(m, target, now), Move, WriteReceipt, DropManifest])
        && View() == Run(old(View()), [Record(m, target, now), Move, WriteReceipt, DropManifest])
        && (R.AckInv(old(View())) ==> (R.AckInv(View()) <==> R.Sound(old(View()), m, target)))
    {
      hide FirstFree, PathAt, R.Inv;
      target := PathAt(Internal, m.owner, m.name, 1);
      ghost var s0 := View();
      var existing := m.id in records;
      if m.owner in stopped || (existing && (records[m.id].owner != m.owner || records[m.id].content != Some(m.content))) {
        return false, target;
      }
      var retained := existing && records[m.id].original.Some? && records[m.id].original.value in files;
      if m.id in payloads {
        if payloads[m.id] != m.content {
          return false, target;
        }
      } else if !retained || files[records[m.id].original.value] != m.content {
        return false, target;
      }
      var occupied := set k | k in records && k != m.id && records[k].original.Some? :: records[k].original.value;
      target := MediaPath(occupied, Internal, m.owner, m.name);
      assert Enabled(s0, Record(m, target, now));
      if !existing {
        records := records[m.id := Media(m.owner, m.image, Some(m.content), Some(target), None, Fresh(m.image), m.created, now)];
      } else if !retained {
        records := records[m.id := records[m.id].(original := Some(target), status := Fresh(m.image), ingested := now)];
      }
      if m.id in payloads {
        files := files[target := payloads[m.id]];
        payloads := payloads - {m.id};
      }
      acks := acks[m.id := Receipt(m.id, m.content)];
      manifests := manifests - {m.id};
      ok := true;
      IngestRun(s0, m, target, now);
    }

    /** The writes of an accepted manifest, one after another; opening the original cannot fail. */
    static lemma IngestRun(s: Store, m: Manifest, target: Path, now: real)
      requires R.Inv(s) && Enabled(s, Record(m, target, now))
      ensures var steps := [Record(m, target, now), Move, WriteReceipt, DropManifest];
        var t := s.(records := Recording(s, m, target, now),
                    files := if m.id in s.payloads then s.files[target := s.payloads[m.id]] else s.files,
                    payloads := if m.id in s.payloads then s.payloads - {m.id} else s.payloads,
                    acks := s.acks[m.id := Receipt(m.id, m.content)], manifests := s.manifests - {m.id});
        Runs(s, steps) && Run(s, steps) == t && R.Inv(t) && (R.AckInv(s) ==> (R.AckInv(t) <==> R.Sound(s, m, target)))
    {
      hide Recording, R.AckInv, R.Sound, FirstFree, Accepts, Originals, R.Inv;
      var steps := [Record(m, target, now), Move, WriteReceipt, DropManifest];
      var s1 := Next(s, Record(m, target, now));
      var s2 := Next(s1, Move);
      var s3 := Next(s2, WriteReceipt);
      IngestStages(s, m, target, now);
      assert steps[1..] == [Move, WriteReceipt, DropManifest];
      assert steps[1..][1..] == [WriteReceipt, DropManifest] && steps[1..][1..][1..] == [DropManifest];
      assert Run(s3, [DropManifest]) == Next(s3, DropManifest) && Runs(s3, [DropManifest]);
      assert Run(s2, [WriteReceipt, DropManifest]) == Next(s3, DropManifest) && Runs(s2, [WriteReceipt, DropManifest]);
      assert Run(s1, steps[1..]) == Next(s3, DropManifest) && Runs(s1, steps[1..]);
    }

    static lemma IngestStages(s: Store, m: Manifest, target: Path, now: real)
      requires R.Inv(s) && Enabled(s, Record(m, target, now))
      ensures var s1 := Next(s, Record(m, target, now));
        var s2 := Next(s1, Move);
        var s3 := Next(s2, WriteReceipt);
        var t := Next(s3, DropManifest);
        && Enabled(s1, Move) && Enabled(s2, WriteReceipt) && Enabled(s3, DropManifest)
        && R.Inv(t) && (R.AckInv(s) ==> (R.AckInv(t) <==> R.Sound(s, m, target)))
    {
      hide Recording, R.AckInv, R.Sound, FirstFree, Accepts, Originals, R.Inv;
      var s1 := Next(s, Record(m, target, now));
      var s2 := Next(s1, Move);
      var s3 := Next(s2, WriteReceipt);
      R.StepKeepsInv(s, Record(m, target, now));
      R.StepKeepsInv(s1, Move);
      R.NeverRefused(s2);
      R.StepKeepsInv(s2, WriteReceipt);
      R.StepKeepsInv(s3, DropManifest);
      if R.AckInv(s) {
        R.ReceiptTrueIff(s, m, target, now);
        SameReceipts(s3, Next(s3, DropManifest));
      }
    }

    static lemma SameReceipts(s: Store, t: Store)
      requires t == s.(manifests := t.manifests, stage := t.stage)
      ensures R.AckInv(t) <==> R.AckInv(s)
    {
      forall id | id in s.acks ensures R.Backed(t, id) <==> R.Backed(s, id) { }
    }

    /** `delete`: the receipt goes first. */
    method Delete(id: nat) returns (ok: bool)
      requires Valid()
      modifies this`records, this`files, this`acks, this`staged
      ensures Valid() && (ok <==> id in old(records) && !old(records)[id].status.Active())
      ensures View() == if ok then R.AfterDeletion(old(View()), id) else old(View())
      ensures R.AckInv(old(View())) ==> R.AckInv(View())
    {
      hide R.Inv, R.AckInv;
      if id !in records || records[id].status.Active() {
        return false;
      }
      ghost var s := View();
      DeletionKeeps(s, id);
      var r := records[id];
      acks := acks - {id};
      if r.original.Some? {
        files := files - {r.original.value};
      }
      if r.public.Some? {
        files := files - {r.public.value};
      }
      staged := staged - {id};
      records := records[id := r.(original := None, public := None, status := Deleted)];
      ok := true;
      assert View() == R.AfterDeletion(s, id);
    }

    static lemma DeletionKeeps(s: Store, id: nat)
      requires R.Inv(s) && s.stage.Idle? && id in s.records && !s.records[id].status.Active()
      ensures R.Inv(R.AfterDeletion(s, id)) && (R.AckInv(s) ==> R.AckInv(R.AfterDeletion(s, id)))
    {
      hide R.Inv, R.AckInv, PathSet, Forgotten;
      var s1 := Next(s, Revoke(id));
      var s2 := Next(s1, RemoveOriginal);
      var s3 := Next(s2, RemovePublic);
      R.StepKeepsInv(s, Revoke(id));
      R.StepKeepsInv(s1, RemoveOriginal);
      R.StepKeepsInv(s2, RemovePublic);
      R.StepKeepsInv(s3, Forget);
      assert Next(s3, Forget) == R.AfterDeletion(s, id);
    }

    /** `storage`. */
    method Storage() returns (used: nat)
      ensures used == Used(View())
    {
      var a := Measure(files);
      var b := Measure(payloads);
      var c := Measure(staged);
      used := a + b + c;
    }

    /** The oldest of some records. */
    method Oldest(todo: set<nat>) returns (id: nat)
      requires todo != {} && todo <= records.Keys
      ensures id in todo && forall k | k in todo :: records[id].created <= records[k].created
    {
      id :| id in todo;
      var rest := todo - {id};
      while rest != {}
        invariant id in todo && rest <= todo
        invariant forall k | k in todo && k !in rest :: records[id].created <= records[k].created
        decreases rest
      {
        var k :| k in rest;
        rest := rest - {k};
        if records[k].created < records[id].created {
          id := k;
        }
      }
    }

    /** `records`: all of them, ordered by age. */
    method Records() returns (ids: seq<nat>)
      ensures Listing(records, ids)
    {
      ids := [];
      var todo := records.Keys;
      while todo != {}
        invariant todo <= records.Keys && forall k | k in records :: k in todo <==> k !in ids
        invariant forall k | k in ids :: k in records
        invariant forall i, j | 0 <= i < j < |ids| :: ids[i] != ids[j]
        invariant forall i, j | 0 <= i < j < |ids| :: records[ids[i]].created <= records[ids[j]].created
        invariant forall i, k | 0 <= i < |ids| && k in todo :: records[ids[i]].created <= records[k].created
        decreases todo
      {
        var id := Oldest(todo);
        todo := todo - {id};
        ids := ids + [id];
      }
    }

    /** `cleanup`: eligible records go oldest first; each was taken while the limit was still exceeded;
        and it stops as soon as the rest fits, or when nothing that may go is left. `seen` of the records
        in `order` were looked at. */
    method Cleanup(now: real) returns (removed: seq<nat>, order: seq<nat>, seen: nat)
      requires Valid()
      modifies this`records, this`files, this`acks, this`staged
      ensures Valid() && View() == AllDeleted(old(View()), removed)
      ensures R.AckInv(old(View())) ==> R.AckInv(View())
      ensures Listing(old(records), order) && seen <= |order| && removed == EligibleOf(old(records), now, order[..seen])
      ensures forall id :: id in removed <==> id in order[..seen] && Eligible(old(records), now, id)
      ensures forall i, j | 0 <= i < j < |removed| && removed[i] in old(records) && removed[j] in old(records) ::
        removed[i] != removed[j] && old(records)[removed[i]].created <= old(records)[removed[j]].created
      ensures Needed(old(View()), removed, maxBytes)
      ensures maxBytes <= 0 ==> removed == []
      ensures maxBytes > 0 ==> Used(View()) <= maxBytes || forall id :: !Eligible(records, now, id)
    {
      hide AllDeleted, Used, R.AfterDeletion, EligibleOf, R.Inv, R.AckInv, Listing;
      ghost var before := View();
      removed, order, seen := Evict(now);
      EligibleIn(before.records, now, order[..seen]);
      EligibleOrdered(before.records, now, order, seen);
    }

    /** The loop of `cleanup`. */
    method Evict(now: real) returns (removed: seq<nat>, order: seq<nat>, seen: nat)
      requires Valid()
      modifies this`records, this`files, this`acks, this`staged
      ensures Valid() && View() == AllDeleted(old(View()), removed)
      ensures R.AckInv(old(View())) ==> R.AckInv(View())
      ensures Listing(old(records), order) && seen <= |order| && removed == EligibleOf(old(records), now, order[..seen])
      ensures Needed(old(View()), removed, maxBytes)
      ensures maxBytes <= 0 ==> removed == []
      ensures maxBytes > 0 ==> Used(View()) <= maxBytes || forall id :: !Eligible(records, now, id)
    {
      hide AllDeleted, Used, R.AfterDeletion, EligibleOf, R.Inv, R.AckInv, Listing;
      ghost var before := View();
      order := Records();
      removed, seen := [], 0;
      DeletedNone(before, now);
      assert order[..0] == [];
      if maxBytes <= 0 {
        return;
      }
      var used := Storage();
      while seen < |order| && used > maxBytes
        invariant 0 <= seen <= |order| && used == Used(View())
        invariant Valid() && View() == AllDeleted(before, removed) && (R.AckInv(before) ==> R.AckInv(View()))
        invariant removed == EligibleOf(before.records, now, order[..seen])
        invariant forall id | id in removed :: id in order[..seen]
        invariant Needed(before, removed, maxBytes)
      {
        var id := order[seen];
        Unlisted(before, order, seen, removed);
        OneMoreEligible(before.records, now, order, seen);
        assert order[..seen + 1] == order[..seen] + [id];
        if records[id].status.Settled? && !(records[id].original.Some? && now - records[id].ingested < GRACE) {
          OneMoreDeleted(before, removed, id);
          NeededGrows(before, removed, id, maxBytes);
          var ok := Delete(id);
          removed := removed + [id];
          used := Storage();
        }
        seen := seen + 1;
      }
      if used > maxBytes {
        assert order[..seen] == order;
        NothingLeft(before, now, order);
      }
    }

    /** The next record in the order has not been touched. */
    static lemma Unlisted(s: Store, order: seq<nat>, seen: nat, removed: seq<nat>)
      requires Listing(s.records, order) && seen < |order| && forall id | id in removed :: id in order[..seen]
      ensures var id, t := order[seen], AllDeleted(s, removed);
        id in t.records && id in s.records && t.records[id] == s.records[id]
    {
      DeletedRecords(s, removed);
      hide AllDeleted;
    }

    static lemma DeletedNone(s: Store, now: real)
      ensures AllDeleted(s, []) == s && EligibleOf(s.records, now, []) == []
    {
    }

    /** `register_processed` of a finalized recording; false when the record is not the session's. */
    method RegisterProcessed(id: nat, owner: Session, name: Name) returns (ok: bool, target: Path)
      requires Valid() && id in staged && name.suffix in VIDEO_SUFFIXES && Suffixed(name)
      modifies this`records, this`files, this`staged
      ensures Valid() && (ok <==> id in old(records) && old(records)[id].owner == owner)
      ensures if ok then Runs(old(View()), [Place(id, name, target), Enlist])
                         && View() == Run(old(View()), [Place(id, name, target), Enlist])
              else View() == old(View())
      ensures R.AckInv(old(View())) ==> R.AckInv(View())
    {
      hide FirstFree, PathAt, R.Inv, R.AckInv;
      target := PathAt(Public, owner, name, 1);
      if id !in records || records[id].owner != owner {
        return false, target;
      }
      ghost var s := View();
      var occupied := set k | k in records && k != id && records[k].public.Some? :: records[k].public.value;
      target := MediaPath(occupied, Public, owner, name);
      assert Enabled(s, Place(id, name, target));
      PlacingRun(s, Place(id, name, target));
      files := files[target := staged[id]];
      staged := staged - {id};
      records := records[id := records[id].(public := Some(target), status := Settled)];
      ok := true;
    }

    /** The last section of a photo's correction: published, unless its session was stopped meanwhile. */
    method PublishPhoto() returns (ok: bool)
      requires Valid() && photo.Chosen? && photo.id in records && photo.id in staged
      modifies this`records, this`files, this`staged, this`photo
      ensures Valid() && (ok <==> old(records)[old(photo).id].owner !in stopped)
      ensures View() == if ok then Run(old(View()), [PlacePhoto, Enlist]) else Next(old(View()), SkipPhoto)
      ensures R.AckInv(old(View())) ==> R.AckInv(View())
    {
      hide R.Inv, R.AckInv;
      ghost var s := View();
      var id, target := photo.id, photo.target;
      photo := Free;
      if records[id].owner in stopped {
        R.StepKeepsInv(s, SkipPhoto);
        return false;
      }
      PlacingRun(s, PlacePhoto);
      files := files[target := staged[id]];
      staged := staged - {id};
      records := records[id := records[id].(public := Some(target), status := Settled)];
      ok := true;
    }

    static lemma PlacingRun(s: Store, step: Step)
      requires R.Inv(s) && Enabled(s, step) && (step.Place? || step.PlacePhoto?)
      ensures var id := if step.Place? then step.id else s.photo.id;
        var target := if step.Place? then step.target else s.photo.target;
        var t := Next(Next(s, step), Enlist);
        && Runs(s, [step, Enlist]) && Run(s, [step, Enlist]) == t
        && t == s.(files := s.files[target := s.staged[id]], staged := s.staged - {id},
                   records := s.records[id := s.records[id].(public := Some(target), status := Settled)],
                   photo := if step.Place? then s.photo else Free)
        && R.Inv(t) && (R.AckInv(s) ==> R.AckInv(t))
    {
      hide FirstFree, R.Inv, R.AckInv;
      var s1 := Next(s, step);
      R.StepKeepsInv(s, step);
      R.StepKeepsInv(s1, Enlist);
      assert [step, Enlist][1..] == [Enlist] && [Enlist][1..] == [];
      assert Runs(s1, [Enlist]) && Run(s1, [Enlist]) == Next(s1, Enlist);
    }

    /** `stop_session`: nothing of the session stays active, and every file stays. */
    method StopSession(owner: Session)
      requires Valid()
      modifies this`records, this`stopped
      ensures Valid() && (R.AckInv(old(View())) ==> R.AckInv(View()))
      ensures stopped == old(stopped) + {owner}
      ensures records == map id | id in old(records) :: Quiet(old(records)[id], owner)
    {
      hide R.Inv, R.AckInv;
      ghost var s := View();
      QuietKeeps(s, owner);
      stopped := stopped + {owner};
      ghost var before := records;
      var todo := records.Keys;
      while todo != {}
        invariant todo <= before.Keys == records.Keys
        invariant stopped == old(stopped) + {owner}
        invariant forall id | id in todo :: records[id] == before[id]
        invariant forall id | id in before && id !in todo :: records[id] == Quiet(before[id], owner)
        decreases todo
      {
        var id :| id in todo;
        todo := todo - {id};
        if records[id].owner == owner && records[id].status.Active() {
          records := records[id := records[id].(status := Settled)];
        }
      }
      assert records == map id | id in before :: Quiet(before[id], owner);
      assert View() == s.(stopped := s.stopped + {owner}, records := map id | id in s.records :: Quiet(s.records[id], owner));
    }

    static lemma QuietKeeps(s: Store, owner: Session)
      requires R.Inv(s) && s.stage.Idle?
      ensures var t := s.(stopped := s.stopped + {owner}, records := map id | id in s.records :: Quiet(s.records[id], owner));
        R.Inv(t) && (R.AckInv(s) ==> R.AckInv(t))
    {
      var t := s.(stopped := s.stopped + {owner}, records := map id | id in s.records :: Quiet(s.records[id], owner));
      SamePaths(s, t);
      R.OriginalsKept(s, t);
      hide R.AckInv, R.AcksNamed, PathInv;
    }
  }
}
