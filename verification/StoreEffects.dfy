/** What the ground's media store does to records, files, receipts and the inbox, said over the fields before
    and after.
 */
module StoreEffects {
  import opened Options
  import opened Sessions
  import opened MediaStore
  import A = MediaArchive
  import R = Receipts

  // -------------------------------------------------------------------- names

  function Digit(c: char): int { c as int - '0' as int }

  /** The number a string of digits spells. */
  function Spelled(s: string): int {
    if s == [] then 0 else 10 * Spelled(s[..|s| - 1]) + Digit(s[|s| - 1])
  }

  lemma {:induction false} DecimalSpells(n: nat)
    ensures Spelled(Decimal(n)) == n && (forall i | 0 <= i < |Decimal(n)| :: 0 <= Digit(Decimal(n)[i]) <= 9)
    ensures n != 0 ==> Decimal(n)[0] != '0'
  {
    var s := Decimal(n);
    if n >= 10 {
      DecimalSpells(n / 10);
      assert s[..|s| - 1] == Decimal(n / 10);
      DigitOf(n % 10);
    } else {
      assert s[..|s| - 1] == [];
      DigitOf(n);
    }
  }

  lemma DigitOf(d: nat)
    requires d < 10
    ensures Digit(DIGITS[d]) == d
  {
  }

  /** The wished name is tried first, then the same name with `-2`, `-3` and so on before its suffix. */
  lemma NamesTried(name: Name, k: nat)
    ensures Candidate(name, 1) == name.full
    ensures k >= 2 ==> exists number :: Candidate(name, k) == name.stem + "-" + number + name.suffix && Spelled(number) == k
  {
    if k >= 2 {
      DecimalSpells(k);
      assert Candidate(name, k) == name.stem + "-" + Decimal(k) + name.suffix;
    }
    hide Decimal, Spelled;
  }

  /** The name found is the first of those that no other file occupies: none that was tried before it was free. */
  lemma NameFound(occupied: set<Path>, area: Area, owner: Session, name: Name, path: Path)
    requires FirstFree(occupied, area, owner, name, path)
    ensures path !in occupied && path.area == area && path.owner == owner
    ensures if Path(area, owner, name.full) !in occupied then path.name == name.full
            else exists k: nat :: k >= 2 && path.name == Candidate(name, k)
                                  && forall j: nat | 2 <= j < k :: Path(area, owner, Candidate(name, j)) in occupied
  {
    var k: nat :| 1 <= k && path == PathAt(area, owner, name, k) && forall j: nat | 1 <= j < k :: PathAt(area, owner, name, j) in occupied;
    if k >= 2 { assert PathAt(area, owner, name, 1) in occupied; }
    assert forall j: nat | 2 <= j < k :: PathAt(area, owner, name, j) == Path(area, owner, Candidate(name, j));
    hide Decimal;
  }

  // ---------------------------------------------------------------- ingestion

  /** What is sent reaches the inbox or the staging directory, and nothing else; a payload that is being ingested may
      only be sent again as it is. */
  lemma InboxTakes(s: Store, id: nat, content: Content, m: Manifest)
    ensures Enabled(s, PayloadArrives(id, content))
      <==> !(s.stage.Recorded? && s.stage.manifest.id == id && content != s.stage.manifest.content)
    ensures Next(s, PayloadArrives(id, content)) == s.(payloads := s.payloads[id := content])
    ensures Next(s, ManifestArrives(m)) == s.(manifests := s.manifests[m.id := m])
    ensures Next(s, Stages(id, content)) == s.(staged := s.staged[id := content])
  {
  }

  /** An ingestion begins with a manifest of the inbox that is accepted, under the first name free among the other
      originals, and writes its receipt exactly when the original can be opened. */
  lemma IngestionPossible(s: Store, m: Manifest, target: Path, now: real)
    ensures Enabled(s, Record(m, target, now)) <==>
      s.stage == Idle && m.id in s.manifests && s.manifests[m.id] == m && Accepts(s, m)
      && FirstFree(Originals(s.records, m.id), Internal, m.owner, m.name, target)
    ensures s.stage == Moved(m) ==>
      && (Enabled(s, WriteReceipt) <==> HasOriginal(s, m.id)) && (Enabled(s, Refuse) <==> !HasOriginal(s, m.id))
      && Next(s, Refuse) == s.(stage := Idle)
    ensures forall p :: p in Originals(s.records, m.id) <==>
      exists k :: k in s.records && k != m.id && s.records[k].original == Some(p)
  {
    hide FirstFree, Accepts;
  }

  /** Does the record's original exist? */
  predicate HasOriginal(s: Store, id: nat) { id in s.records && s.records[id].original.Some? && s.records[id].original.value in s.files }

  /** A manifest is taken up exactly when its session is not stopped, it contradicts no record, and what it
      announces is there: in the inbox, or else in the original that is kept. */
  lemma ManifestAccepted(s: Store, m: Manifest)
    ensures Accepts(s, m) <==>
      && m.owner !in s.stopped
      && (m.id in s.records ==> s.records[m.id].owner == m.owner && s.records[m.id].content == Some(m.content))
      && (m.id in s.payloads ==> s.payloads[m.id] == m.content)
      && (m.id !in s.payloads ==> HasOriginal(s, m.id) && s.files[s.records[m.id].original.value] == m.content)
  {
  }

  /** Carried through, it leaves a receipt for exactly what was announced, empties the inbox, and has filed the payload
      under the name found. A photo that is new, or whose original was lost, waits for its correction, a video waits
      for nothing; a record whose original is kept stays as it is. */
  lemma IngestionTakes(s: Store, m: Manifest, target: Path, now: real)
    requires s.stage.Idle?
    ensures var t := Next(Next(Next(Next(s, Record(m, target, now)), Move), WriteReceipt), DropManifest);
      && t == s.(records := t.records, files := t.files, payloads := s.payloads - {m.id}, acks := t.acks,
                 manifests := s.manifests - {m.id})
      && t.acks == s.acks[m.id := Receipt(m.id, m.content)]
      && t.files == (if m.id in s.payloads then s.files[target := s.payloads[m.id]] else s.files)
      && RecordFiled(s, m, target, now, t.records)
  {
    var s1 := Next(s, Record(m, target, now));
    RecordTakes(s, m, target, now);
    hide Recording, RecordFiled;
    WritesTake(s1, m, target);
  }

  predicate RecordFiled(s: Store, m: Manifest, target: Path, now: real, records: map<nat, Media>) {
    && records.Keys == s.records.Keys + {m.id} && (forall id | id in s.records && id != m.id :: records[id] == s.records[id])
    && var r := records[m.id];
       if HasOriginal(s, m.id) then r == s.records[m.id]
       else
         && r.original == Some(target) && r.status == (if m.image then Pending else Settled) && r.ingested == now
         && (if m.id in s.records then r == s.records[m.id].(original := r.original, status := r.status, ingested := r.ingested)
             else r.owner == m.owner && r.image == m.image && r.content == Some(m.content) && r.public == None && r.created == m.created)
  }

  lemma RecordTakes(s: Store, m: Manifest, target: Path, now: real)
    ensures RecordFiled(s, m, target, now, Recording(s, m, target, now))
  {
  }

  lemma WritesTake(s: Store, m: Manifest, target: Path)
    requires s.stage == Recorded(m, target)
    ensures Next(Next(Next(s, Move), WriteReceipt), DropManifest) ==
      s.(files := if m.id in s.payloads then s.files[target := s.payloads[m.id]] else s.files, payloads := s.payloads - {m.id},
         acks := s.acks[m.id := Receipt(m.id, m.content)], manifests := s.manifests - {m.id}, stage := Idle)
  {
    assert m.id !in s.payloads ==> s.payloads - {m.id} == s.payloads;
  }

  // ----------------------------------------------------------------- deletion

  /** Deleting removes the receipt first, then the original, then the public file and what was being written, and the
      record stays as deleted. Active media stay. */
  lemma DeletionTakes(s: Store, id: nat)
    requires s.stage.Idle? && id in s.records
    ensures Enabled(s, Revoke(id)) <==> s.records[id].status == Settled || s.records[id].status == Deleted
    ensures var s1 := Next(s, Revoke(id));
      var s2 := Next(s1, RemoveOriginal);
      var s3 := Next(s2, RemovePublic);
      var t := Next(s3, Forget);
      var r := s.records[id];
      && s1.acks == s.acks - {id} && s1.files == s.files && s1.records == s.records
      && s2 == s1.(files := s2.files, stage := s2.stage)
      && (forall p :: p in s2.files <==> p in s.files && r.original != Some(p)) && (forall p | p in s2.files :: s2.files[p] == s.files[p])
      && s3 == s2.(files := s3.files, staged := s.staged - {id}, stage := s3.stage)
      && (forall p :: p in s3.files <==> p in s2.files && r.public != Some(p)) && (forall p | p in s3.files :: s3.files[p] == s.files[p])
      && t == s3.(records := s.records[id := r.(original := None, public := None, status := Deleted)], stage := Idle)
      && t == R.AfterDeletion(s, id)
  {
    var r := s.records[id];
    var s3 := Next(Next(Next(s, Revoke(id)), RemoveOriginal), RemovePublic);
    assert s3.files == s.files - PathSet(r.original) - PathSet(r.public);
  }

  // ------------------------------------------------------- stops and restarts

  /** A stopped session's active record gives up, and nothing else about it changes. */
  lemma SilenceTakes(s: Store, id: nat)
    requires s.stage.Stopping? && id in s.records
    ensures var r, q := s.records[id], Next(s, Silence(id)).records[id];
      if r.owner == s.stage.owner && (r.status == Pending || r.status == Busy) then q == r.(status := Settled) else q == r
    ensures Enabled(s, Silence(id)) <==> s.records[id].owner == s.stage.owner
  {
  }

  /** A stop is remembered before any record of the session is touched. */
  lemma StopBegins(s: Store, owner: Session)
    ensures Next(s, StopOwner(owner)) == s.(stopped := s.stopped + {owner}, stage := Stopping(owner))
    ensures Next(s, EndStop) == s.(stage := Idle)
  {
  }

  /** Does some record of this session wait or have work in progress? */
  ghost predicate Stirs(records: map<nat, Media>, owner: Session) {
    exists id :: id in records && records[id].owner == owner && (records[id].status == Pending || records[id].status == Busy)
  }

  /** A stop is over only once nothing of the session is active. */
  lemma StopOver(s: Store)
    ensures Enabled(s, EndStop) <==> s.stage.Stopping? && !Stirs(s.records, s.stage.owner)
  {
    if s.stage.Stopping? {
      assert Stirs(s.records, s.stage.owner) <==> Astir(s.records, s.stage.owner) by {
        if Stirs(s.records, s.stage.owner) {
          var id :| && id in s.records && s.records[id].owner == s.stage.owner
                    && (s.records[id].status == Pending || s.records[id].status == Busy);
          assert s.records[id].status.Active();
        }
        if Astir(s.records, s.stage.owner) {
          var id :| id in s.records && s.records[id].owner == s.stage.owner && s.records[id].status.Active();
        }
      }
    }
  }

  /** After a restart an interrupted photo waits again, an interrupted video is given up, and so is everything
      active of a session whose delivery is known to have failed. */
  lemma RestartTakes(s: Store, failed: set<Session>)
    ensures var t := Next(s, Restart(failed));
      && t == s.(records := t.records, stopped := failed, stage := Idle, photo := Free) && t.records.Keys == s.records.Keys
      && forall id | id in s.records ::
           var r, q := s.records[id], t.records[id];
           if r.status == Settled || r.status == Deleted then q == r
           else q == r.(status := if r.image && r.owner !in failed then Pending else Settled)
  {
  }

  // --------------------------------------------------------------- publishing

  /** A finalized recording: its file is put under the name found, and the record then points at it. */
  lemma RecordingPublished(s: Store, id: nat, name: Name, target: Path)
    requires id in s.records && id in s.staged
    ensures Enabled(s, Place(id, name, target)) <==>
      s.stage == Idle && name.suffix in {".mp4", ".mkv", ".avi", ".mov", ".ts", ".jpeg", ".png"} && name.full == name.stem + name.suffix
      && FirstFree(Publics(s.records, id), Public, s.records[id].owner, name, target)
    ensures Next(Next(s, Place(id, name, target)), Enlist) ==
      s.(files := s.files[target := s.staged[id]], staged := s.staged - {id}, stage := Idle,
         records := s.records[id := s.records[id].(public := Some(target), status := Settled)])
  {
  }

  /** The photo worker takes up photos of sessions that are not stopped, one at a time. */
  lemma PhotoTakenUp(s: Store, id: nat)
    requires id in s.records && s.stage.Idle?
    ensures Enabled(s, PickPhoto(id)) <==> s.photo.Free? && s.records[id].image && s.records[id].owner !in s.stopped
    ensures Next(s, PickPhoto(id)) == s.(photo := Picked(id))
    ensures s.photo == Picked(id) ==>
      Next(s, BeginPhoto) == s.(records := s.records[id := s.records[id].(status := Busy)], photo := Correcting(id))
  {
  }

  /** Its name is chosen, and it is published under that name unless its session was stopped meanwhile. */
  lemma PhotoPublished(s: Store, id: nat, target: Path)
    requires id in s.records && id in s.staged && s.stage.Idle? && s.photo == Chosen(id, target)
    ensures Enabled(s, PlacePhoto) <==> s.records[id].owner !in s.stopped
    ensures Enabled(s, SkipPhoto) <==> s.records[id].owner in s.stopped
    ensures Next(Next(s, PlacePhoto), Enlist) ==
      s.(files := s.files[target := s.staged[id]], staged := s.staged - {id}, photo := Free,
         records := s.records[id := s.records[id].(public := Some(target), status := Settled)])
    ensures Next(s, SkipPhoto) == s.(photo := Free)
  {
  }

  lemma PhotoNamed(s: Store, id: nat, name: Name, target: Path)
    requires id in s.records && s.photo == Correcting(id)
    ensures Next(s, NamePhoto(name, target)) == s.(photo := Chosen(id, target))
  {
  }

  /** A failure ends the work on it. */
  lemma PhotoFails(s: Store, id: nat)
    requires id in s.records && !s.photo.Free? && s.photo.id == id
    ensures Next(s, FailPhoto) == s.(records := s.records[id := s.records[id].(status := Settled)], photo := Free)
  {
  }

  /** Whoever works on a record labels it as in work or as done; nothing is published that was not staged. */
  lemma RecordWorkedOn(s: Store, id: nat, busy: bool)
    requires id in s.records
    ensures Next(s, Label(id, busy)) == s.(records := s.records[id := s.records[id].(status := if busy then Busy else Settled)])
    ensures id !in s.staged ==> !Enabled(s, PlacePhoto) || s.photo.id != id
    ensures id !in s.staged ==> forall name, target :: !Enabled(s, Place(id, name, target))
  {
    hide FirstFree;
  }

  /** A record made on the ground is active from the start, and says nothing of an original. */
  lemma RecordMade(s: Store, id: nat, owner: Session, now: real)
    ensures var t := Next(s, Create(id, owner, now));
      && t == s.(records := t.records) && t.records.Keys == s.records.Keys + {id}
      && (forall k | k in s.records && k != id :: t.records[k] == s.records[k])
      && t.records[id] == Media(owner, false, None, None, None, Busy, now, 0.0)
  {
  }

  // ----------------------------------------------------------------- capacity

  /** What may go to make room: not what is active or deleted already, and no original within 60 seconds of its
      arrival. */
  lemma MayGo(records: map<nat, Media>, now: real, id: nat)
    ensures A.Eligible(records, now, id) <==>
      id in records && records[id].status == Settled && (records[id].original == None || now >= records[id].ingested + 60.0)
  {
  }

  /** What is used is what lies in the originals, the public files, the inbox and the staging directory. */
  lemma EveryByteCounts(s: Store, p: Path, id: nat, c: Content)
    ensures p !in s.files ==> A.Used(s.(files := s.files[p := c])) == A.Used(s) + c.size
    ensures id !in s.payloads ==> A.Used(s.(payloads := s.payloads[id := c])) == A.Used(s) + c.size
    ensures id !in s.staged ==> A.Used(s.(staged := s.staged[id := c])) == A.Used(s) + c.size
    ensures A.Used(EMPTY) == 0
  {
    hide A.Total;
    if p !in s.files { OneMore(s.files, p, c); }
    if id !in s.payloads { OneMore(s.payloads, id, c); }
    if id !in s.staged { OneMore(s.staged, id, c); }
    NoBytes<Path>();
    NoBytes<nat>();
  }

  lemma NoBytes<K>()
    ensures A.Total<K>(map[]) == 0
  {
  }

  lemma OneMore<K>(files: map<K, Content>, p: K, c: Content)
    requires p !in files
    ensures A.Total(files[p := c]) == A.Total(files) + c.size
  {
    A.TotalWithout(files[p := c], p);
    assert files[p := c] - {p} == files;
  }
}
