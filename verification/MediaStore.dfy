/** The ground's media store (video_service/media_store.py, class MediaStore).

    A file's bytes are its `Content`; contents are equal exactly when their sizes and SHA-256 digests
    are. Every write that survives a crash is one step of the machine below, and so is every section
    of the photo worker, which takes the lock only now and then.
 */
module MediaStore {
  import opened Options
  import opened Sessions

  // ------------------------------------------------------------- the name search

  datatype Area = Internal | Public

  datatype Path = Path(area: Area, owner: Session, name: string)

  /** A wished file name, its stem and its suffix. */
  datatype Name = Name(full: string, stem: string, suffix: string)

  const DIGITS := "0123456789"

  function Decimal(n: nat): (s: string)
    ensures s != []
  {
    if n < 10 then [DIGITS[n]] else Decimal(n / 10) + [DIGITS[n % 10]]
  }

  lemma {:induction false} DecimalInjective(m: nat, n: nat)
    requires Decimal(m) == Decimal(n)
    ensures m == n
    decreases m
  {
    var s := Decimal(m);
    assert s[|s| - 1] == DIGITS[m % 10] && s[|s| - 1] == DIGITS[n % 10];
    if m >= 10 && n >= 10 {
      assert Decimal(m / 10) == s[..|s| - 1] && Decimal(n / 10) == s[..|s| - 1];
      DecimalInjective(m / 10, n / 10);
    }
  }

  /** The wished name first, then the numbered ones from 2. */
  function Candidate(name: Name, k: nat): string {
    if k < 2 then name.full else name.stem + "-" + Decimal(k) + name.suffix
  }

  lemma CandidatesDiffer(name: Name, j: nat, k: nat)
    requires 2 <= j < k
    ensures Candidate(name, j) != Candidate(name, k)
  {
    if Candidate(name, j) == Candidate(name, k) {
      var c := Candidate(name, j);
      var n := |name.stem| + 1;
      assert |c| == n + |Decimal(j)| + |name.suffix| == n + |Decimal(k)| + |name.suffix|;
      assert Decimal(j) == c[n..|c| - |name.suffix|] == Decimal(k);
      DecimalInjective(j, k);
    }
  }

  function PathAt(area: Area, owner: Session, name: Name, k: nat): Path { Path(area, owner, Candidate(name, k)) }

  /** `path` is the first candidate that nobody occupies. */
  ghost predicate FirstFree(occupied: set<Path>, area: Area, owner: Session, name: Name, path: Path) {
    path !in occupied
    && exists k: nat :: 1 <= k && path == PathAt(area, owner, name, k)
                        && forall j: nat | 1 <= j < k :: PathAt(area, owner, name, j) in occupied
  }

  /** `_media_path`: the search ends, at the first free candidate. */
  method MediaPath(occupied: set<Path>, area: Area, owner: Session, name: Name) returns (path: Path)
    ensures FirstFree(occupied, area, owner, name, path)
  {
    hide Decimal;
    path := PathAt(area, owner, name, 1);
    var number := 2;
    ghost var tried: set<Path> := {};
    while path in occupied
      invariant number >= 2 && path == PathAt(area, owner, name, number - 1)
      invariant forall j: nat | 1 <= j < number - 1 :: PathAt(area, owner, name, j) in occupied
      invariant tried == set j: nat | 2 <= j < number - 1 :: PathAt(area, owner, name, j)
      decreases if number == 2 then 1 else 0, occupied - tried
    {
      if number > 2 {
        forall j: nat | 2 <= j < number - 1 ensures PathAt(area, owner, name, j) != path {
          CandidatesDiffer(name, j, number - 1);
        }
        tried := tried + {path};
      }
      path := PathAt(area, owner, name, number);
      number := number + 1;
    }
  }

  // ------------------------------------------------------------------- the store

  datatype Content = Content(size: nat, digest: nat)

  /** What the states of a record come to: a photo waiting for its correction, work in progress, no
      work, or deleted. The first two are the active ones. */
  datatype Status = Pending | Busy | Settled | Deleted
  {
    predicate Active() { Pending? || Busy? }
  }

  /** `content` is what the record says of its original; a record made on the ground says nothing. */
  datatype Media = Media(
    owner: Session, image: bool, content: Option<Content>, original: Option<Path>, public: Option<Path>,
    status: Status, created: real, ingested: real)

  datatype Manifest = Manifest(id: nat, owner: Session, name: Name, image: bool, content: Content, created: real)

  datatype Receipt = Receipt(id: nat, content: Content)

  /** Where the store is inside an operation that holds its lock. */
  datatype Stage =
    | Idle
    | Recorded(manifest: Manifest, target: Path)     // record saved, payload not yet moved
    | Moved(manifest: Manifest)                      // payload moved, receipt not yet written
    | Receipted(manifest: Manifest)                  // receipt written, manifest not yet removed
    | Revoked(id: nat)                               // receipt removed, files not yet
    | Emptied(id: nat)                               // original removed, public file not yet
    | Removed(id: nat)                               // files removed, record not yet updated
    | Placed(id: nat, target: Path)                  // public file in place, record not yet updated
    | Stopping(owner: Session)                       // session stopped, records not yet all updated

  /** Where the photo worker is; it holds the lock only during single steps. */
  datatype Photo =
    | Free
    | Picked(id: nat)                                // found pending in a session that was not stopped
    | Correcting(id: nat)
    | Chosen(id: nat, target: Path)                  // public name chosen, image being written to staging

  datatype Store = Store(
    records: map<nat, Media>, files: map<Path, Content>, acks: map<nat, Receipt>,
    payloads: map<nat, Content>, manifests: map<nat, Manifest>, staged: map<nat, Content>,
    stopped: set<Session>, stage: Stage, photo: Photo)

  const EMPTY := Store(map[], map[], map[], map[], map[], map[], {}, Idle, Free)

  function Originals(records: map<nat, Media>, id: nat): set<Path> {
    set k | k in records && k != id && records[k].original.Some? :: records[k].original.value
  }

  function Publics(records: map<nat, Media>, id: nat): set<Path> {
    set k | k in records && k != id && records[k].public.Some? :: records[k].public.value
  }

  /** The original a record points at, if that file exists. */
  function Kept(s: Store, id: nat): Option<Path> {
    if id in s.records && s.records[id].original.Some? && s.records[id].original.value in s.files
    then s.records[id].original else None
  }

  /** The checks of `_ingest_file` before anything is written. */
  predicate Accepts(s: Store, m: Manifest) {
    && m.owner !in s.stopped
    && (m.id in s.records ==> s.records[m.id].owner == m.owner && s.records[m.id].content == Some(m.content))
    && (if m.id in s.payloads then s.payloads[m.id] == m.content
        else Kept(s, m.id).Some? && s.files[Kept(s, m.id).value] == m.content)
  }

  function Fresh(image: bool): Status { if image then Pending else Settled }

  /** The record `_ingest_file` writes: a new one, a replacement for a lost original, or none. */
  function Recording(s: Store, m: Manifest, target: Path, now: real): map<nat, Media> {
    if m.id !in s.records then
      s.records[m.id := Media(m.owner, m.image, Some(m.content), Some(target), None, Fresh(m.image), m.created, now)]
    else if Kept(s, m.id).None? then
      s.records[m.id := s.records[m.id].(original := Some(target), status := Fresh(m.image), ingested := now)]
    else s.records
  }

  /** The file types `register_processed` takes, but for the photo worker's own. */
  const VIDEO_SUFFIXES := {".mp4", ".mkv", ".avi", ".mov", ".ts", ".jpeg", ".png"}
  const PHOTO_SUFFIX := ".jpg"

  /** A name with its suffix put in place of whatever it had. */
  predicate Suffixed(name: Name) { name.full == name.stem + name.suffix }

  /** A session's record that is still active is given up. */
  function Quiet(r: Media, owner: Session): Media {
    if r.owner == owner && r.status.Active() then r.(status := Settled) else r
  }

  /** A restart queues interrupted photos again, stops the sessions whose delivery is known to have
      failed, and gives up interrupted videos. */
  function Rebooted(r: Media, failed: set<Session>): Media {
    var p := if r.image && r.status.Busy? then r.(status := Pending) else r;
    if r.status.Active() && (r.owner in failed || !r.image) then r.(status := Settled) else p
  }

  datatype Step =
    // the inbox and the staging directory
    | PayloadArrives(id: nat, content: Content)
    | ManifestArrives(manifest: Manifest)
    | Stages(id: nat, content: Content)
    // one manifest of `ingest_pending`
    | Record(manifest: Manifest, target: Path, now: real)
    | Move
    | WriteReceipt
    | Refuse
    | DropManifest
    // `delete`
    | Revoke(id: nat)
    | RemoveOriginal
    | RemovePublic
    | Forget
    // `create_record`, `update` of a state by whoever works on the record, `register_processed`
    | Create(id: nat, owner: Session, now: real)
    | Label(id: nat, busy: bool)
    | Place(id: nat, name: Name, target: Path)
    | Enlist
    // the photo worker
    | PickPhoto(id: nat)
    | BeginPhoto
    | NamePhoto(name: Name, target: Path)
    | PlacePhoto
    | SkipPhoto
    | FailPhoto
    // `stop_session`
    | StopOwner(owner: Session)
    | Silence(id: nat)
    | EndStop
    // the process dies and starts again
    | Restart(failed: set<Session>)

  /** May the payload of `id` arrive now? One that is being ingested may be sent again, unchanged. */
  predicate MayArrive(stage: Stage, id: nat, content: Content) {
    stage.Recorded? && stage.manifest.id == id ==> content == stage.manifest.content
  }

  /** Is some record of this session still active? */
  ghost predicate Astir(records: map<nat, Media>, owner: Session) {
    exists id :: id in records && records[id].owner == owner && records[id].status.Active()
  }

  ghost predicate Enabled(s: Store, step: Step) {
    match step
    case PayloadArrives(id, content) => MayArrive(s.stage, id, content)
    case ManifestArrives(_) | Stages(_, _) | Restart(_) => true
    case Record(m, target, _) =>
      s.stage.Idle? && m.id in s.manifests && s.manifests[m.id] == m && Accepts(s, m)
      && FirstFree(Originals(s.records, m.id), Internal, m.owner, m.name, target)
    case Move => s.stage.Recorded?
    case WriteReceipt => s.stage.Moved? && Kept(s, s.stage.manifest.id).Some?
    case Refuse => s.stage.Moved? && Kept(s, s.stage.manifest.id).None?
    case DropManifest => s.stage.Receipted?
    case Revoke(id) => s.stage.Idle? && id in s.records && !s.records[id].status.Active()
    case RemoveOriginal => s.stage.Revoked? && s.stage.id in s.records
    case RemovePublic => s.stage.Emptied? && s.stage.id in s.records
    case Forget => s.stage.Removed? && s.stage.id in s.records
    case Create(id, _, _) => s.stage.Idle? && id !in s.records
    case Label(id, _) => s.stage.Idle? && id in s.records
    case Place(id, name, target) =>
      s.stage.Idle? && id in s.records && id in s.staged && name.suffix in VIDEO_SUFFIXES && Suffixed(name)
      && FirstFree(Publics(s.records, id), Public, s.records[id].owner, name, target)
    case Enlist => s.stage.Placed? && s.stage.id in s.records
    case PickPhoto(id) =>
      s.stage.Idle? && s.photo.Free? && id in s.records && s.records[id].image && s.records[id].owner !in s.stopped
    case BeginPhoto => s.stage.Idle? && s.photo.Picked? && s.photo.id in s.records
    case NamePhoto(name, target) =>
      s.stage.Idle? && s.photo.Correcting? && s.photo.id in s.records && name.suffix == PHOTO_SUFFIX && Suffixed(name)
      && FirstFree(Publics(s.records, s.photo.id), Public, s.records[s.photo.id].owner, name, target)
    case PlacePhoto =>
      s.stage.Idle? && s.photo.Chosen? && s.photo.id in s.records && s.photo.id in s.staged
      && s.records[s.photo.id].owner !in s.stopped
    case SkipPhoto =>
      s.stage.Idle? && s.photo.Chosen? && s.photo.id in s.records && s.records[s.photo.id].owner in s.stopped
    case FailPhoto => s.stage.Idle? && !s.photo.Free? && s.photo.id in s.records
    case StopOwner(_) => s.stage.Idle?
    case Silence(id) => s.stage.Stopping? && id in s.records && s.records[id].owner == s.stage.owner
    case EndStop => s.stage.Stopping? && !Astir(s.records, s.stage.owner)
  }

  function Relabelled(s: Store, id: nat, status: Status): Store {
    if id in s.records then s.(records := s.records[id := s.records[id].(status := status)]) else s
  }

  /** The public file is put in place; the record follows. */
  function Placing(s: Store, id: nat, target: Path): Store {
    if id !in s.staged then s
    else s.(files := s.files[target := s.staged[id]], staged := s.staged - {id}, stage := Placed(id, target))
  }

  /** One persisted write, or one section of the photo worker. */
  function Next(s: Store, step: Step): Store {
    match step
    case PayloadArrives(id, content) => s.(payloads := s.payloads[id := content])
    case ManifestArrives(m) => s.(manifests := s.manifests[m.id := m])
    case Stages(id, content) => s.(staged := s.staged[id := content])
    case Record(m, target, now) => s.(records := Recording(s, m, target, now), stage := Recorded(m, target))
    case Move => if s.stage.Recorded? then Moving(s, s.stage.manifest, s.stage.target) else s
    case WriteReceipt =>
      if !s.stage.Moved? then s
      else s.(acks := s.acks[s.stage.manifest.id := Receipt(s.stage.manifest.id, s.stage.manifest.content)],
              stage := Receipted(s.stage.manifest))
    case Refuse => s.(stage := Idle)
    case DropManifest =>
      if !s.stage.Receipted? then s else s.(manifests := s.manifests - {s.stage.manifest.id}, stage := Idle)
    case Revoke(id) => s.(acks := s.acks - {id}, stage := Revoked(id))
    case RemoveOriginal =>
      if !s.stage.Revoked? || s.stage.id !in s.records then s
      else s.(files := s.files - PathSet(s.records[s.stage.id].original), stage := Emptied(s.stage.id))
    case RemovePublic =>
      if !s.stage.Emptied? || s.stage.id !in s.records then s
      else s.(files := s.files - PathSet(s.records[s.stage.id].public), staged := s.staged - {s.stage.id},
              stage := Removed(s.stage.id))
    case Forget =>
      if !s.stage.Removed? || s.stage.id !in s.records then s
      else s.(records := s.records[s.stage.id := Forgotten(s.records[s.stage.id])], stage := Idle)
    case Create(id, owner, now) =>
      s.(records := s.records[id := Media(owner, false, None, None, None, Busy, now, 0.0)])
    case Label(id, busy) => Relabelled(s, id, if busy then Busy else Settled)
    case Place(id, _, target) => Placing(s, id, target)
    case Enlist =>
      if !s.stage.Placed? || s.stage.id !in s.records then s
      else s.(records := s.records[s.stage.id := s.records[s.stage.id].(public := Some(s.stage.target), status := Settled)],
              stage := Idle)
    case PickPhoto(id) => s.(photo := Picked(id))
    case BeginPhoto => if s.photo.Picked? then Relabelled(s, s.photo.id, Busy).(photo := Correcting(s.photo.id)) else s
    case NamePhoto(_, target) => if s.photo.Correcting? then s.(photo := Chosen(s.photo.id, target)) else s
    case PlacePhoto => if s.photo.Chosen? then Placing(s, s.photo.id, s.photo.target).(photo := Free) else s
    case SkipPhoto => s.(photo := Free)
    case FailPhoto => if s.photo.Free? then s else Relabelled(s, s.photo.id, Settled).(photo := Free)
    case StopOwner(owner) => s.(stopped := s.stopped + {owner}, stage := Stopping(owner))
    case Silence(id) => if s.stage.Stopping? && id in s.records then s.(records := s.records[id := Quiet(s.records[id], s.stage.owner)]) else s
    case EndStop => s.(stage := Idle)
    case Restart(failed) =>
      s.(records := map id | id in s.records :: Rebooted(s.records[id], failed), stopped := failed, stage := Idle, photo := Free)
  }

  /** The payload goes to its target if it is there; a retry may find it moved already. */
  function Moving(s: Store, m: Manifest, target: Path): Store {
    (if m.id in s.payloads
     then s.(files := s.files[target := s.payloads[m.id]], payloads := s.payloads - {m.id})
     else s).(stage := Moved(m))
  }

  function PathSet(p: Option<Path>): set<Path> { if p.Some? then {p.value} else {} }

  function Forgotten(r: Media): Media { r.(original := None, public := None, status := Deleted) }

  ghost predicate Runs(s: Store, steps: seq<Step>)
    decreases |steps|
  {
    steps != [] ==> Enabled(s, steps[0]) && Runs(Next(s, steps[0]), steps[1..])
  }

  function Run(s: Store, steps: seq<Step>): Store
    decreases |steps|
  {
    if steps == [] then s else Run(Next(s, steps[0]), steps[1..])
  }

  /** Runs seen from their end. */
  lemma {:induction false} RunPrefix(s: Store, steps: seq<Step>, k: nat)
    requires Runs(s, steps) && k < |steps|
    ensures Enabled(Run(s, steps[..k]), steps[k]) && Run(s, steps[..k + 1]) == Next(Run(s, steps[..k]), steps[k])
    decreases k
  {
    hide Enabled, Next;
    if k == 0 {
      assert steps[..1][1..] == [];
    } else {
      RunPrefix(Next(s, steps[0]), steps[1..], k - 1);
      assert steps[1..][..k - 1] == steps[..k][1..] && steps[1..][..k] == steps[..k + 1][1..];
    }
  }

  // ------------------------------------------------------------- unique paths

  ghost predicate DistinctOriginals(records: map<nat, Media>) {
    && (forall i, j | i in records && j in records && i != j && records[i].original.Some? :: records[i].original != records[j].original)
    && (forall i | i in records && records[i].original.Some? :: records[i].original.value.area.Internal?)
  }

  ghost predicate DistinctPublics(records: map<nat, Media>) {
    && (forall i, j | i in records && j in records && i != j && records[i].public.Some? :: records[i].public != records[j].public)
    && (forall i | i in records && records[i].public.Some? :: records[i].public.value.area.Public?)
  }

  /** No two records share an original or a public path. */
  ghost predicate Distinct(records: map<nat, Media>) { DistinctOriginals(records) && DistinctPublics(records) }

  /** A photo's public name, whatever number it carries. */
  predicate IsPhotoName(name: string) { |name| >= 4 && name[|name| - 4..] == PHOTO_SUFFIX }

  /** Nobody takes the photo worker's chosen name: photos are corrected one at a time, and every other
      public file has another suffix. */
  ghost predicate Reserved(s: Store) {
    && (s.photo.Chosen? ==>
          IsPhotoName(s.photo.target.name) && s.photo.target.area.Public? && s.photo.target !in Publics(s.records, s.photo.id))
    && (s.stage.Placed? ==>
          && s.stage.target.area.Public? && s.stage.target !in Publics(s.records, s.stage.id)
          && (s.photo.Chosen? ==> !IsPhotoName(s.stage.target.name)))
  }

  ghost predicate PathInv(s: Store) { Distinct(s.records) && Reserved(s) }

  lemma CandidateEnds(name: Name, k: nat)
    requires Suffixed(name)
    ensures |name.suffix| <= |Candidate(name, k)| && Candidate(name, k)[|Candidate(name, k)| - |name.suffix|..] == name.suffix
  {
    hide Decimal;
  }

  lemma SuffixTells(name: Name, k: nat)
    requires Suffixed(name)
    ensures name.suffix == PHOTO_SUFFIX ==> IsPhotoName(Candidate(name, k))
    ensures name.suffix in VIDEO_SUFFIXES ==> !IsPhotoName(Candidate(name, k))
  {
    CandidateEnds(name, k);
    hide Candidate;
    if name.suffix in VIDEO_SUFFIXES {
      EndingsDiffer(Candidate(name, k), name.suffix);
    }
  }

  lemma EndingsDiffer(c: string, suffix: string)
    requires suffix in VIDEO_SUFFIXES && |suffix| <= |c| && c[|c| - |suffix|..] == suffix
    ensures !IsPhotoName(c)
  {
    var n := |suffix|;
    assert c[|c| - 1] == suffix[n - 1] && c[|c| - 3] == suffix[n - 3];
    if n >= 4 {
      assert c[|c| - 4] == suffix[n - 4];
    }
    assert |c| >= 4 ==> c[|c| - 4..][0] == c[|c| - 4] && c[|c| - 4..][1] == c[|c| - 3] && c[|c| - 4..][3] == c[|c| - 1];
  }

  lemma OneRecord(records: map<nat, Media>, id: nat, r: Media)
    requires Distinct(records)
    requires r.original.Some? ==> r.original.value.area.Internal? && r.original.value !in Originals(records, id)
    requires r.public.Some? ==> r.public.value.area.Public? && r.public.value !in Publics(records, id)
    ensures Distinct(records[id := r])
  {
  }

  /** What a record has already is nobody else's. */
  lemma OwnPaths(records: map<nat, Media>, id: nat)
    requires Distinct(records) && id in records
    ensures records[id].original.Some? ==>
      records[id].original.value !in Originals(records, id) && records[id].original.value.area.Internal?
    ensures records[id].public.Some? ==>
      records[id].public.value !in Publics(records, id) && records[id].public.value.area.Public?
  {
  }

  /** One record keeps or loses its paths. */
  lemma NoNewPath(s: Store, t: Store, id: nat)
    requires PathInv(s) && id in t.records && t.records == s.records[id := t.records[id]]
    requires id in s.records ==> SubPaths(s.records[id], t.records[id])
    requires id !in s.records ==> t.records[id].original.None? && t.records[id].public.None?
    requires (t.photo == s.photo || !t.photo.Chosen?) && (t.stage == s.stage || !t.stage.Placed?)
    ensures PathInv(t)
  {
  }

  predicate SubPaths(r: Media, q: Media) {
    (q.original == r.original || q.original.None?) && (q.public == r.public || q.public.None?)
  }

  /** All records keep their paths. */
  lemma SamePaths(s: Store, t: Store)
    requires PathInv(s) && t.records.Keys == s.records.Keys
    requires forall id | id in s.records :: SubPaths(s.records[id], t.records[id])
    requires (t.photo == s.photo || !t.photo.Chosen?) && (t.stage == s.stage || !t.stage.Placed?)
    ensures PathInv(t)
  {
  }

  lemma RecordKeepsPaths(s: Store, m: Manifest, target: Path, now: real)
    requires PathInv(s) && Enabled(s, Record(m, target, now))
    ensures PathInv(Next(s, Record(m, target, now)))
  {
    assert target.area.Internal? && target !in Originals(s.records, m.id);
    var t := Next(s, Record(m, target, now));
    if m.id in s.records { OwnPaths(s.records, m.id); }
    if t.records != s.records {
      OneRecord(s.records, m.id, t.records[m.id]);
      assert forall id :: Publics(t.records, id) <= Publics(s.records, id);
    }
  }

  lemma EnlistKeepsPaths(s: Store)
    requires PathInv(s) && Enabled(s, Enlist)
    ensures PathInv(Next(s, Enlist))
  {
    var id, target := s.stage.id, s.stage.target;
    OwnPaths(s.records, id);
    var r := s.records[id].(public := Some(target), status := Settled);
    OneRecord(s.records, id, r);
    assert forall k :: Publics(s.records[id := r], k) <= Publics(s.records, k) + {target};
  }

  lemma PlaceKeepsPaths(s: Store, step: Step)
    requires PathInv(s) && Enabled(s, step) && (step.Place? || step.NamePhoto? || step.PlacePhoto?)
    ensures PathInv(Next(s, step))
  {
    hide Candidate, Distinct, Publics, Suffixed;
    if step.Place? || step.NamePhoto? {
      var id := if step.Place? then step.id else s.photo.id;
      var k: nat :| 1 <= k && step.target == PathAt(Public, s.records[id].owner, step.name, k);
      SuffixTells(step.name, k);
    }
    hide IsPhotoName;
  }

  /** The steps that write no record. */
  predicate LeavesRecords(step: Step) {
    !step.Record? && !step.Enlist? && !step.Forget? && !step.Create? && !step.Label? && !step.BeginPhoto? && !step.FailPhoto?
    && !step.Silence? && !step.Restart?
  }

  lemma RecordsLeft(s: Store, step: Step)
    requires Enabled(s, step) && LeavesRecords(step)
    ensures Next(s, step).records == s.records
  {
    hide FirstFree, Recording, Accepts;
  }

  lemma StillReserved(s: Store, t: Store)
    requires PathInv(s) && t.records == s.records
    requires (t.photo == s.photo || !t.photo.Chosen?) && (t.stage == s.stage || !t.stage.Placed?)
    ensures PathInv(t)
  {
  }

  lemma CalmKeepsPaths(s: Store, step: Step)
    requires PathInv(s) && Enabled(s, step) && LeavesRecords(step)
    requires !step.Place? && !step.NamePhoto? && !step.PlacePhoto?
    ensures PathInv(Next(s, step))
  {
    RecordsLeft(s, step);
    hide PathInv, FirstFree, Accepts, Recording;
    StillReserved(s, Next(s, step));
  }

  /** A record is forgotten or begun, or only states change. */
  lemma StatesKeepPaths(s: Store, step: Step)
    requires PathInv(s) && Enabled(s, step)
    requires !LeavesRecords(step) && !step.Record? && !step.Enlist?
    ensures PathInv(Next(s, step))
  {
    hide PathInv, FirstFree, Recording, Moving, Placing;
    match step
    case Forget => NoNewPath(s, Next(s, step), s.stage.id);
    case Create(id, _, _) => NoNewPath(s, Next(s, step), id);
    case Label(id, _) => NoNewPath(s, Next(s, step), id);
    case BeginPhoto => NoNewPath(s, Next(s, step), s.photo.id);
    case FailPhoto => NoNewPath(s, Next(s, step), s.photo.id);
    case Silence(id) => NoNewPath(s, Next(s, step), id);
    case Restart(_) => SamePaths(s, Next(s, step));
  }

  lemma StepKeepsPaths(s: Store, step: Step)
    requires PathInv(s) && Enabled(s, step)
    ensures PathInv(Next(s, step))
  {
    hide PathInv, Enabled, Next;
    match step
    case Record(m, target, now) => RecordKeepsPaths(s, m, target, now);
    case Enlist => EnlistKeepsPaths(s);
    case Place(_, _, _) | NamePhoto(_, _) | PlacePhoto => PlaceKeepsPaths(s, step);
    case _ => if LeavesRecords(step) { CalmKeepsPaths(s, step); } else { StatesKeepPaths(s, step); }
  }

  /** In every run, interrupted anywhere, no two records ever share a non-empty path. */
  lemma {:induction false} PathsStayDistinct(s: Store, steps: seq<Step>)
    requires PathInv(s) && Runs(s, steps)
    ensures PathInv(Run(s, steps)) && Distinct(Run(s, steps).records)
    decreases |steps|
  {
    hide Enabled, Next, Distinct, Reserved;
    if steps != [] {
      StepKeepsPaths(s, steps[0]);
      PathsStayDistinct(Next(s, steps[0]), steps[1..]);
    }
  }
}
