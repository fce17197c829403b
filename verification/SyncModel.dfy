/**
 * What one sync cycle computes, stated path by path. The worker's loops
 * (SyncWorker.dfy) are proved to compute exactly these functions; every property
 * of the protocol is then proved about them.
 */
module SyncModel {
  import opened Prelude
  import opened SyncCrypto

  type DeviceId = string

  /** What the state remembers of a path: the hash device and cloud last had in common, and the name it is stored by. */
  datatype FileState = FileState(hash: Digest, blob: Name)

  predicate OwnNames(f: map<Path, FileState>) {
    forall p :: p in f ==> f[p].blob.Derived? && f[p].blob.rel == p
  }

  type Files = f: map<Path, FileState> | OwnNames(f)

  datatype SyncState = SyncState(cursor: nat, generation: int, files: Files)

  /** One op-log entry; its sequence number is its position counted from one. */
  datatype Op = Op(device: DeviceId, v: nat, put: set<Name>, del: set<Name>, manifest: bool)

  datatype KeyGen = KeyGen(rmk: Rmk, generation: int)

  datatype Session = Session(repo: string, device: DeviceId, key: KeyGen)

  datatype Report = Report(pulled: nat, pushed: nat, deletedLocal: nat, deletedRemote: nat)

  const NOTHING_DONE := Report(0, 0, 0, 0)

  function Plus(a: Report, b: Report): Report {
    Report(a.pulled + b.pulled, a.pushed + b.pushed,
           a.deletedLocal + b.deletedLocal, a.deletedRemote + b.deletedRemote)
  }

  /** The part of the cloud a cycle reads and writes. */
  datatype Shared = Shared(ops: seq<Op>, blobs: map<Name, Blob>)

  // -------------------------------------------------------------------------
  // Opening a session
  // -------------------------------------------------------------------------

  predicate OpensManifest(blobs: map<Name, Blob>, rmk: Rmk, repo: string) {
    Manifest in blobs ==> OpenTable(blobs[Manifest], rmk, repo).Some?
  }

  /** The local key while it still opens the manifest, else this device's wrap. */
  function CurrentRmk(local: Option<KeyGen>, wrap: Option<KeyGen>, blobs: map<Name, Blob>, repo: string)
    : Option<KeyGen>
  {
    if local.Some? && OpensManifest(blobs, local.value.rmk, repo) then local
    else if wrap.Some? && OpensManifest(blobs, wrap.value.rmk, repo) then wrap
    else None
  }

  /** The sealed manifest, `Ok(None)` when nothing was ever pushed. */
  function FetchTable(blobs: map<Name, Blob>, s: Session): Result<Option<Table>> {
    if Manifest !in blobs then Ok(None)
    else match OpenTable(blobs[Manifest], s.key.rmk, s.repo)
      case Some(t) => Ok(Some(t))
      case None => Err
  }

  function FetchOrEmpty(blobs: map<Name, Blob>, s: Session): Result<Table> {
    match FetchTable(blobs, s)
    case Ok(Some(t)) => Ok(t)
    case Ok(None) => Ok(map[])
    case Err => Err
  }

  // -------------------------------------------------------------------------
  // Collapsing a batch of ops
  // -------------------------------------------------------------------------

  /** Net effect of a batch: names left put, names left deleted, manifest touched. */
  datatype Net = Net(put: set<Name>, del: set<Name>, manifest: bool)

  const NO_NEWS := Net({}, {}, false)

  function Absorb(n: Net, op: Op, me: DeviceId): Net {
    if op.device == me then n
    else Net(n.put + op.put - op.del, n.del - op.put + op.del, n.manifest || op.manifest)
  }

  function Collapse(ops: seq<Op>, me: DeviceId): Net {
    if ops == [] then NO_NEWS
    else Absorb(Collapse(ops[..|ops| - 1], me), ops[|ops| - 1], me)
  }

  function OpsSince(ops: seq<Op>, cursor: nat): seq<Op> {
    if cursor <= |ops| then ops[cursor..] else []
  }

  predicate Understood(ops: seq<Op>, me: DeviceId) {
    forall i :: 0 <= i < |ops| ==> ops[i].device == me || ops[i].v == 1
  }

  // -------------------------------------------------------------------------
  // Pull, path by path
  // -------------------------------------------------------------------------

  /** One path on one device: the file on disk and what the state records for it. */
  datatype Slot = Slot(file: Option<Bytes>, known: Option<FileState>)

  datatype Local = Local(disk: map<Path, Bytes>, files: Files)

  function SlotAt(l: Local, p: Path): Slot {
    Slot(Lookup(l.disk, p), Lookup(l.files, p))
  }

  /** No local copy, or a local copy the state vouches for. */
  predicate Clean(s: Slot) {
    s.file.None? || (s.known.Some? && ContentHash(s.file.value) == s.known.value.hash)
  }

  function TakePut(s: Slot, remote: Bytes, name: Name): Slot {
    var agreed := Some(FileState(ContentHash(remote), name));
    if s.file == Some(remote) then Slot(s.file, agreed)
    else if Clean(s) then Slot(Some(remote), agreed)
    else s
  }

  function TakeDel(s: Slot): Slot {
    Slot(if Clean(s) then None else s.file, None)
  }

  /** A record made for `p` carries a name derived from `p`. */
  predicate RecordOf(p: Path, known: Option<FileState>) {
    known.Some? ==> known.value.blob.Derived? && known.value.blob.rel == p
  }

  function PullSlot(p: Path, s: Slot, t: Table, view: map<Path, Bytes>, n: Net): (r: Slot)
    ensures RecordOf(p, s.known) ==> RecordOf(p, r.known)
    ensures r.file.Some? ==> s.file.Some? || p in t
    ensures r.known.Some? ==> s.known.Some? || p in t
  {
    if p in t then
      if t[p].blob in n.put && p in view then TakePut(s, view[p], t[p].blob) else s
    else if s.known.Some? && s.known.value.blob in n.del then TakeDel(s)
    else if s.known.Some? && n.manifest && s.file.Some? then Slot(s.file, None)
    else s
  }

  function PulledDisk(l: Local, t: Table, view: map<Path, Bytes>, n: Net): (r: map<Path, Bytes>)
    ensures forall p :: Lookup(r, p) == PullSlot(p, SlotAt(l, p), t, view, n).file
  {
    map p | p in l.disk.Keys + t.Keys && PullSlot(p, SlotAt(l, p), t, view, n).file.Some? ::
      PullSlot(p, SlotAt(l, p), t, view, n).file.value
  }

  function PulledFiles(l: Local, t: Table, view: map<Path, Bytes>, n: Net): (r: Files)
    ensures forall p :: Lookup(r, p) == PullSlot(p, SlotAt(l, p), t, view, n).known
  {
    var known := map p | p in l.files.Keys + t.Keys && PullSlot(p, SlotAt(l, p), t, view, n).known.Some? ::
      PullSlot(p, SlotAt(l, p), t, view, n).known.value;
    assert OwnNames(known) by {
      forall p | p in known ensures known[p].blob.Derived? && known[p].blob.rel == p {
        assert RecordOf(p, SlotAt(l, p).known);
        assert known[p] == PullSlot(p, SlotAt(l, p), t, view, n).known.value;
      }
    }
    known
  }

  function PullLocal(l: Local, t: Table, view: map<Path, Bytes>, n: Net): Local {
    Local(PulledDisk(l, t, view, n), PulledFiles(l, t, view, n))
  }

  /** Every put the manifest still names can be fetched and decrypted. */
  predicate Fetchable(t: Table, view: map<Path, Bytes>, puts: set<Name>) {
    forall p :: p in t && t[p].blob in puts ==> p in view
  }

  /** Paths a put rewrites on disk. */
  function PulledPaths(l: Local, t: Table, view: map<Path, Bytes>, n: Net): set<Path> {
    set p | p in t && t[p].blob in n.put && p in view && Clean(SlotAt(l, p)) && Lookup(l.disk, p) != Some(view[p])
  }

  /** Paths a del removes from disk. */
  function RemovedPaths(l: Local, t: Table, n: Net): set<Path> {
    set p | p in l.files && p !in t && l.files[p].blob in n.del && p in l.disk && Clean(SlotAt(l, p))
  }

  datatype Pulled = Pulled(disk: map<Path, Bytes>, state: SyncState, cached: Option<Table>, report: Report)

  function Pull(shared: Shared, s: Session, disk: map<Path, Bytes>, state: SyncState): Result<Pulled> {
    var batch := OpsSince(shared.ops, state.cursor);
    if batch == [] then Ok(Pulled(disk, state, None, NOTHING_DONE))
    else if !Understood(batch, s.device) then Err
    else
      var n := Collapse(batch, s.device);
      var seen := state.(cursor := |shared.ops|);
      if n == NO_NEWS then Ok(Pulled(disk, seen, None, NOTHING_DONE))
      else match FetchOrEmpty(shared.blobs, s)
        case Err => Err
        case Ok(t) =>
          var view := View(shared.blobs, s.repo, t);
          if !Fetchable(t, view, n.put) then Err
          else
            var l := Local(disk, state.files);
            var l' := PullLocal(l, t, view, n);
            Ok(Pulled(l'.disk, seen.(files := l'.files), Some(t),
                      Report(|PulledPaths(l, t, view, n)|, 0, |RemovedPaths(l, t, n)|, 0)))
  }

  // -------------------------------------------------------------------------
  // First contact
  // -------------------------------------------------------------------------

  /** What a table's rows are worth recording, given what they decrypt to. */
  function Recorded(t: Table, view: map<Path, Bytes>): Files {
    map p | p in t && p in view :: FileState(ContentHash(view[p]), t[p].blob)
  }

  function Learn(files: Files, t: Table, view: map<Path, Bytes>): Files {
    files + Recorded(t, view)
  }

  /** First cycle: remote files fill the gaps on disk, everything is recorded at its remote hash. */
  function Adopt(shared: Shared, s: Session, disk: map<Path, Bytes>): Result<Pulled> {
    match FetchOrEmpty(shared.blobs, s)
    case Err => Err
    case Ok(t) =>
      var view := View(shared.blobs, s.repo, t);
      if view.Keys != t.Keys then Err
      else Ok(Pulled(view + disk, SyncState(|shared.ops|, s.key.generation, Recorded(t, view)), None,
                     Report(|view.Keys - disk.Keys|, 0, 0, 0)))
  }

  // -------------------------------------------------------------------------
  // Push: upload, tombstone, re-key, announce
  // -------------------------------------------------------------------------

  function Changed(l: Local): (r: set<Path>)
    ensures r <= l.disk.Keys
    ensures forall p :: p in r <==> p in l.disk && (p !in l.files || l.files[p].hash != ContentHash(l.disk[p]))
  {
    set p | p in l.disk && (p !in l.files || l.files[p].hash != ContentHash(l.disk[p]))
  }

  function Deleted(l: Local): set<Path> {
    l.files.Keys - l.disk.Keys
  }

  /** What the push loops carry along: the table, the blob store and the records. */
  datatype Work = Work(table: Table, blobs: map<Name, Blob>, files: Files)

  function UploadedTable(t: Table, s: Session, draw: nat, done: set<Path>): (r: Table)
    ensures r.Keys == t.Keys + done
    ensures forall p :: p in r ==> r[p] == if p in t then t[p] else Minted(s.key.rmk, draw, p)
  {
    t + map p | p in done && p !in t :: Minted(s.key.rmk, draw, p)
  }

  /** The ciphertexts an upload writes, by name. */
  function SealedFiles(t: Table, repo: string, disk: map<Path, Bytes>, done: set<Path>): (r: map<Name, Blob>)
    requires done <= disk.Keys && done <= t.Keys
    ensures r.Keys == Names(t, done)
    ensures forall p :: p in done ==>
      t[p].blob in r && r[t[p].blob] == Encrypt(t[p].dek, repo, p, disk[p])
  {
    map n | n in Names(t, done) :: Encrypt(t[n.rel].dek, repo, n.rel, disk[n.rel])
  }

  function UploadedFiles(files: Files, t: Table, disk: map<Path, Bytes>, done: set<Path>): (r: Files)
    requires done <= disk.Keys && done <= t.Keys
    ensures r.Keys == files.Keys + done
    ensures forall p :: p in r ==>
      r[p] == if p in done then FileState(ContentHash(disk[p]), t[p].blob) else files[p]
  {
    files + map p | p in done :: FileState(ContentHash(disk[p]), t[p].blob)
  }

  function Uploaded(w: Work, s: Session, draw: nat, disk: map<Path, Bytes>, done: set<Path>): Work
    requires done <= disk.Keys
  {
    var t := UploadedTable(w.table, s, draw, done);
    Work(t, w.blobs + SealedFiles(t, s.repo, disk, done), UploadedFiles(w.files, t, disk, done))
  }

  function Tombstoned(w: Work, done: set<Path>): Work {
    Work(w.table - done, w.blobs - Names(w.table, done), w.files - done)
  }

  /** Rows of `paths` that can be read, hence re-encrypted. */
  predicate Readable(w: Work, repo: string, paths: set<Path>) {
    forall p :: p in paths ==> p in w.table && Read(w.blobs, repo, p, w.table[p]).Some?
  }

  /** The ciphertexts a re-key writes, by name. */
  function Resealed(w: Work, s: Session, draw: nat, done: set<Path>): (r: map<Name, Blob>)
    requires Readable(w, s.repo, done)
    ensures r.Keys == DerivedNames(s.key.rmk, done)
    ensures forall p :: p in done ==> Lookup(r, BlobName(s.key.rmk, p)) ==
                                      Some(Encrypt(Dek(draw, p), s.repo, p, Read(w.blobs, s.repo, p, w.table[p]).value))
  {
    map n | n in DerivedNames(s.key.rmk, done) ::
      Encrypt(Dek(draw, n.rel), s.repo, n.rel, Read(w.blobs, s.repo, n.rel, w.table[n.rel]).value)
  }

  function RekeyedTable(t: Table, s: Session, draw: nat, done: set<Path>): (r: Table)
    requires done <= t.Keys
    ensures r.Keys == t.Keys
    ensures forall p :: p in r ==> r[p] == if p in done then Minted(s.key.rmk, draw, p) else t[p]
  {
    t + map p | p in done :: Minted(s.key.rmk, draw, p)
  }

  function RekeyedFiles(files: Files, rmk: Rmk, done: set<Path>): (r: Files)
    ensures r.Keys == files.Keys
    ensures forall p :: p in r ==> r[p] == if p in done then FileState(files[p].hash, BlobName(rmk, p)) else files[p]
  {
    map p | p in files :: if p in done then FileState(files[p].hash, BlobName(rmk, p)) else files[p]
  }

  function Rekeyed(w: Work, s: Session, draw: nat, done: set<Path>): Work
    requires Readable(w, s.repo, done)
  {
    Work(RekeyedTable(w.table, s, draw, done),
         w.blobs - Names(w.table, done) + Resealed(w, s, draw, done),
         RekeyedFiles(w.files, s.key.rmk, done))
  }

  predicate RekeyNeeded(generation: int, s: Session) {
    generation != s.key.generation && generation != 0
  }

  /** The rows a push re-keys. */
  function Rekeying(t: Table, generation: int, s: Session): set<Path> {
    if RekeyNeeded(generation, s) then Stale(t, s.key.rmk) else {}
  }

  datatype Pushed = Pushed(shared: Shared, files: Files, report: Report)

  /** The table once uploads and tombstones are in. */
  function ContentTable(t: Table, s: Session, draw: nat, l: Local): (r: Table)
    ensures forall p :: p in r <==> (p in t || p in Changed(l)) && p !in Deleted(l)
    ensures forall p :: p in r ==> r[p] == if p in t then t[p] else Minted(s.key.rmk, draw, p)
  {
    UploadedTable(t, s, draw, Changed(l)) - Deleted(l)
  }

  /** A push with its table in hand, after the upload and tombstone loops. */
  function PushedContent(t: Table, blobs: map<Name, Blob>, s: Session, draw: nat, l: Local): (r: Work)
    ensures r.table == ContentTable(t, s, draw, l)
  {
    Tombstoned(Uploaded(Work(t, blobs, l.files), s, draw, l.disk, Changed(l)), Deleted(l))
  }

  /** The manifest and op writes that close a push. */
  function Announced(ops: seq<Op>, w: Work, s: Session, put: set<Name>, del: set<Name>, dirty: bool): Shared {
    Shared(if put != {} || del != {} then ops + [Op(s.device, 1, put, del, dirty)] else ops,
           if dirty then w.blobs[Manifest := SealedTable(s.key.rmk, s.repo, w.table)] else w.blobs)
  }

  /** Names the closing op announces as written, given the rows it re-keyed. */
  function PutNames(t: Table, s: Session, draw: nat, l: Local, stale: set<Path>): set<Name> {
    Names(UploadedTable(t, s, draw, Changed(l)), Changed(l)) + DerivedNames(s.key.rmk, stale)
  }

  /** Names the closing op announces as tombstoned. */
  function DelNames(t: Table, w: Work, l: Local, stale: set<Path>): set<Name> {
    Names(t, Deleted(l)) + Names(w.table, stale)
  }

  predicate ManifestDirty(t: Table, l: Local, stale: set<Path>) {
    !(Changed(l) <= t.Keys) || Deleted(l) * t.Keys != {} || stale != {}
  }

  /** The re-key loop and the announcement, from whatever the content loops left in `w`. */
  function Finish(t: Table, w: Work, ops: seq<Op>, s: Session, draw: nat, l: Local, generation: int): Result<Pushed> {
    var stale := Rekeying(w.table, generation, s);
    if !Readable(w, s.repo, stale) then Err
    else
      var w' := Rekeyed(w, s, draw, stale);
      Ok(Pushed(Announced(ops, w', s, PutNames(t, s, draw, l, stale), DelNames(t, w, l, stale),
                          ManifestDirty(t, l, stale)),
                w'.files,
                Report(0, |Changed(l)| + |stale|, 0, |Deleted(l) * t.Keys|)))
  }

  /** A push that has its table: upload and tombstone loops, re-key loop, announcement. */
  function PushTable(t: Table, shared: Shared, s: Session, draw: nat, l: Local, generation: int): Result<Pushed> {
    Finish(t, PushedContent(t, shared.blobs, s, draw, l), shared.ops, s, draw, l, generation)
  }

  predicate PushNeeded(l: Local, generation: int, s: Session) {
    Changed(l) != {} || Deleted(l) != {} || RekeyNeeded(generation, s)
  }

  function Push(shared: Shared, s: Session, draw: nat, l: Local, generation: int,
                cached: Option<Table>): Result<Pushed> {
    if !PushNeeded(l, generation, s) then Ok(Pushed(shared, l.files, NOTHING_DONE))
    else match (if cached.Some? then Ok(cached.value) else FetchOrEmpty(shared.blobs, s))
      case Err => Err
      case Ok(t) => PushTable(t, shared, s, draw, l, generation)
  }

  // -------------------------------------------------------------------------
  // Whole calls
  // -------------------------------------------------------------------------

  /** A device: its synced files, its saved sync state and its stored key. */
  datatype Device = Device(disk: map<Path, Bytes>, state: Option<SyncState>, key: Option<KeyGen>)

  /**
   * How a call ends: refused before touching anything (no key opens the manifest),
   * failed part way, or done.
   */
  datatype Outcome = Refused | Failed | Done(shared: Shared, device: Device, report: Report)

  /** The state a cycle starts from: the saved one, or the adopted view. */
  function StartState(shared: Shared, s: Session, d: Device): Result<Pulled> {
    match d.state
    case Some(state) => Ok(Pulled(d.disk, state, None, NOTHING_DONE))
    case None => Adopt(shared, s, d.disk)
  }

  function CycleIn(shared: Shared, s: Session, draw: nat, d: Device): Outcome {
    match StartState(shared, s, d)
    case Err => Failed
    case Ok(start) =>
      match Pull(shared, s, start.disk, start.state)
      case Err => Failed
      case Ok(pulled) =>
        match Push(shared, s, draw, Local(pulled.disk, pulled.state.files), pulled.state.generation, pulled.cached)
        case Err => Failed
        case Ok(pushed) =>
          Done(pushed.shared,
               Device(pulled.disk,
                      Some(SyncState(pulled.state.cursor, s.key.generation, pushed.files)), Some(s.key)),
               Plus(Plus(start.report, pulled.report), pushed.report))
  }

  function Cycle(shared: Shared, repo: string, id: DeviceId, wrap: Option<KeyGen>, draw: nat, d: Device): Outcome {
    match CurrentRmk(d.key, wrap, shared.blobs, repo)
    case None => Refused
    case Some(key) => CycleIn(shared, Session(repo, id, key), draw, d)
  }

  function SavedOr(d: Device, generation: int): SyncState {
    match d.state
    case Some(state) => state
    case None => SyncState(0, generation, map[])
  }

  /** The push half alone. */
  function PushOnlyIn(shared: Shared, s: Session, draw: nat, d: Device): Outcome {
    var state := SavedOr(d, s.key.generation);
    match Push(shared, s, draw, Local(d.disk, state.files), state.generation, None)
    case Err => Failed
    case Ok(pushed) =>
      Done(pushed.shared,
           Device(d.disk, Some(SyncState(state.cursor, s.key.generation, pushed.files)), Some(s.key)),
           pushed.report)
  }

  function PushOnly(shared: Shared, repo: string, id: DeviceId, wrap: Option<KeyGen>, draw: nat, d: Device): Outcome {
    match CurrentRmk(d.key, wrap, shared.blobs, repo)
    case None => Refused
    case Some(key) => PushOnlyIn(shared, Session(repo, id, key), draw, d)
  }

  /** Download everything: each file the manifest lists replaces whatever the disk has there. */
  function PullAllIn(shared: Shared, s: Session, d: Device): Outcome {
    match FetchTable(shared.blobs, s)
    case Err => Failed
    case Ok(None) => Failed
    case Ok(Some(t)) =>
      var view := View(shared.blobs, s.repo, t);
      var state := SavedOr(d, s.key.generation);
      if view.Keys != t.Keys then Failed
      else Done(shared,
                Device(d.disk + view, Some(state.(files := Learn(state.files, t, view))), Some(s.key)),
                Report(|view|, 0, 0, 0))
  }

  function PullAll(shared: Shared, repo: string, id: DeviceId, wrap: Option<KeyGen>, d: Device): Outcome {
    match CurrentRmk(d.key, wrap, shared.blobs, repo)
    case None => Refused
    case Some(key) => PullAllIn(shared, Session(repo, id, key), d)
  }
}
