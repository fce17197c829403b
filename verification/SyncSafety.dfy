/** Guarantees of single calls that hold whatever the op log, the manifest and the blobs contain. */
module SyncSafety {
  import opened Prelude
  import opened SyncCrypto
  import opened SyncModel
  import opened SyncPhases
  import opened SyncAgreement
  import opened SyncCalls

  // -------------------------------------------------------------------------
  // Local wins
  // -------------------------------------------------------------------------

  /** A local file the device's state does not vouch for: edited since, or never recorded. */
  predicate Unsynced(d: Device, p: Path) {
    p in d.disk && !Clean(Slot(Some(d.disk[p]), Lookup(RecordsOf(d).files, p)))
  }

  lemma DirtySlotSurvives(p: Path, s: Slot, t: Table, view: map<Path, Bytes>, n: Net)
    requires !Clean(s)
    ensures var s' := PullSlot(p, s, t, view, n);
      s'.file == s.file && (!Clean(s') || (p in t && s.file == Lookup(view, p)))
  {
  }

  /** The cloud already decrypts `p` to `bytes`. */
  predicate CloudHas(shared: Shared, s: Session, p: Path, bytes: Bytes) {
    FetchOrEmpty(shared.blobs, s).Ok? &&
    Lookup(View(shared.blobs, s.repo, FetchOrEmpty(shared.blobs, s).value), p) == Some(bytes)
  }

  /** A pull keeps an unsynced file, and leaves it to be pushed unless the cloud has the same bytes. */
  lemma PullKeepsUnsynced(shared: Shared, s: Session, disk: map<Path, Bytes>, state: SyncState, p: Path)
    requires p in disk && !Clean(SlotAt(Local(disk, state.files), p))
    requires Pull(shared, s, disk, state).Ok?
    ensures var r := Pull(shared, s, disk, state).value;
      && Lookup(r.disk, p) == Some(disk[p])
      && (p in Changed(Local(r.disk, r.state.files)) || CloudHas(shared, s, p, disk[p]))
  {
    PullShape(shared, s, disk, state);
    var l := Local(disk, state.files);
    var n := Collapse(OpsSince(shared.ops, state.cursor), s.device);
    var r := Pull(shared, s, disk, state).value;
    if !(r.disk == disk && r.state.files == state.files) {
      var t := FetchOrEmpty(shared.blobs, s).value;
      var view := View(shared.blobs, s.repo, t);
      DirtySlotSurvives(p, SlotAt(l, p), t, view, n);
      assert Lookup(r.disk, p) == PullSlot(p, SlotAt(l, p), t, view, n).file;
      assert Lookup(r.state.files, p) == PullSlot(p, SlotAt(l, p), t, view, n).known;
    }
  }

  /** What a successful pull leaves: the same files and records, or those of `PullLocal`. */
  lemma PullShape(shared: Shared, s: Session, disk: map<Path, Bytes>, state: SyncState)
    requires Pull(shared, s, disk, state).Ok?
    ensures var r := Pull(shared, s, disk, state).value;
      var l := Local(disk, state.files);
      var n := Collapse(OpsSince(shared.ops, state.cursor), s.device);
      && (|| (r.disk == disk && r.state.files == state.files)
          || (&& FetchOrEmpty(shared.blobs, s).Ok?
              && var t := FetchOrEmpty(shared.blobs, s).value;
                 Local(r.disk, r.state.files) == PullLocal(l, t, View(shared.blobs, s.repo, t), n)))
      && (r.cached.Some? ==> FetchOrEmpty(shared.blobs, s) == Ok(r.cached.value))
  {
  }

  /** After a push, a path that had to be pushed or that the cloud already had decrypts to the local bytes. */
  lemma PushDelivers(shared: Shared, s: Session, draw: nat, l: Local, generation: int, cached: Option<Table>, p: Path)
    requires cached.Some? ==> FetchOrEmpty(shared.blobs, s) == Ok(cached.value)
    requires p in l.disk && (p in Changed(l) || CloudHas(shared, s, p, l.disk[p]))
    requires Push(shared, s, draw, l, generation, cached).Ok?
    ensures var shared' := Push(shared, s, draw, l, generation, cached).value.shared;
      Lookup(CloudView(shared'.blobs, s.repo), p) == Some(l.disk[p])
  {
    if PushNeeded(l, generation, s) {
      var t := FetchOrEmpty(shared.blobs, s).value;
      PushNeededIsTable(shared, s, draw, l, generation, cached, t);
      PushView(t, shared, s, draw, l, generation, p);
    } else {
      assert p !in Changed(l);
      FetchedTable(shared.blobs, s);
    }
  }

  /**
   * Local wins: a successful cycle keeps every unsynced local file byte for byte, and the cloud
   * then decrypts its path to exactly those bytes.
   */
  lemma LocalWins(shared: Shared, s: Session, draw: nat, d: Device, p: Path)
    requires Unsynced(d, p) && CycleIn(shared, s, draw, d).Done?
    ensures var o := CycleIn(shared, s, draw, d);
      && Lookup(o.device.disk, p) == Some(d.disk[p])
      && Lookup(CloudView(o.shared.blobs, s.repo), p) == Some(d.disk[p])
  {
    var start := StartState(shared, s, d).value;
    StartKeepsUnsynced(shared, s, d, p);
    var pulled := Pull(shared, s, start.disk, start.state).value;
    PullShape(shared, s, start.disk, start.state);
    PullKeepsPending(shared, s, d, start, p);
    PushDelivers(shared, s, draw, Local(pulled.disk, pulled.state.files), pulled.state.generation, pulled.cached, p);
  }

  /** First contact keeps local files, recording them as differing unless the cloud has the same bytes. */
  lemma StartKeepsUnsynced(shared: Shared, s: Session, d: Device, p: Path)
    requires Unsynced(d, p) && StartState(shared, s, d).Ok?
    ensures var start := StartState(shared, s, d).value;
      && Lookup(start.disk, p) == Some(d.disk[p])
      && (d.state.None? ==> start.state.cursor == |shared.ops|)
      && (!Clean(SlotAt(Local(start.disk, start.state.files), p))
          || (d.state.None? && CloudHas(shared, s, p, d.disk[p])))
  {
  }

  lemma PullKeepsPending(shared: Shared, s: Session, d: Device, start: Pulled, p: Path)
    requires Unsynced(d, p) && StartState(shared, s, d) == Ok(start)
    requires Pull(shared, s, start.disk, start.state).Ok?
    ensures var r := Pull(shared, s, start.disk, start.state).value;
      && Lookup(r.disk, p) == Some(d.disk[p])
      && (p in Changed(Local(r.disk, r.state.files)) || CloudHas(shared, s, p, d.disk[p]))
  {
    StartKeepsUnsynced(shared, s, d, p);
    if !Clean(SlotAt(Local(start.disk, start.state.files), p)) {
      PullKeepsUnsynced(shared, s, start.disk, start.state, p);
    } else {
      assert OpsSince(shared.ops, start.state.cursor) == [];
    }
  }

  // -------------------------------------------------------------------------
  // What can leave the cloud
  // -------------------------------------------------------------------------

  /** In any push, a path leaves the cloud view only if this device had recorded it and no longer has it. */
  lemma OnlyOwnDeletionsLeave(shared: Shared, s: Session, draw: nat, l: Local, generation: int,
                              cached: Option<Table>, p: Path)
    requires FetchOrEmpty(shared.blobs, s).Ok?
    requires cached.Some? ==> FetchOrEmpty(shared.blobs, s) == Ok(cached.value)
    requires Push(shared, s, draw, l, generation, cached).Ok?
    requires p in CloudView(shared.blobs, s.repo)
    requires p !in CloudView(Push(shared, s, draw, l, generation, cached).value.shared.blobs, s.repo)
    ensures p in l.files && p !in l.disk
  {
    FetchedTable(shared.blobs, s);
    if PushNeeded(l, generation, s) {
      var t := FetchOrEmpty(shared.blobs, s).value;
      PushNeededIsTable(shared, s, draw, l, generation, cached, t);
      PushView(t, shared, s, draw, l, generation, p);
    }
  }

  // -------------------------------------------------------------------------
  // First contact
  // -------------------------------------------------------------------------

  lemma ContentKeepsBlobs(t: Table, blobs: map<Name, Blob>, s: Session, draw: nat, l: Local)
    requires Deleted(l) == {}
    ensures blobs.Keys <= PushedContent(t, blobs, s, draw, l).blobs.Keys
  {
    assert Names(UploadedTable(t, s, draw, Changed(l)), Deleted(l)) == {};
  }

  lemma RekeyingNothing(w: Work, s: Session, draw: nat)
    ensures Rekeyed(w, s, draw, {}) == w
  {
    hide Resealed, RekeyedTable, RekeyedFiles, Names;
    NoNames(w.table, s.key.rmk);
    NothingResealed(w, s, draw);
    NoRowRekeyed(w.table, s, draw);
    NoRecordRekeyed(w.files, s.key.rmk);
    MinusPlusNothing(w.blobs);
  }

  lemma NoNames(t: Table, rmk: Rmk)
    ensures Names(t, {}) == {} && DerivedNames(rmk, {}) == {}
  {
    assert Names(t, {}) == {} && DerivedNames(rmk, {}) == {};
  }

  lemma NothingResealed(w: Work, s: Session, draw: nat)
    ensures Resealed(w, s, draw, {}) == map[]
  {
    NoNames(w.table, s.key.rmk);
  }

  lemma NoRowRekeyed(t: Table, s: Session, draw: nat)
    ensures RekeyedTable(t, s, draw, {}) == t
  {
  }

  lemma NoRecordRekeyed(files: Files, rmk: Rmk)
    ensures RekeyedFiles(files, rmk, {}) == files
  {
  }

  lemma MinusPlusNothing<K, V>(m: map<K, V>)
    ensures m - {} + map[] == m && m + map[] == m && m - {} == m
  {
  }

  lemma FinishKeepsBlob(t: Table, w: Work, ops: seq<Op>, s: Session, draw: nat, l: Local, generation: int, n: Name)
    requires w.table == ContentTable(t, s, draw, l) && !Behind(generation, s)
    requires Finish(t, w, ops, s, draw, l, generation).Ok?
    requires n in w.blobs
    ensures n in Finish(t, w, ops, s, draw, l, generation).value.shared.blobs
  {
    RekeyingNothing(w, s, draw);
    FinishBlobs(t, w, ops, s, draw, l, generation, n);
  }

  lemma FinishKeepsBlobs(t: Table, w: Work, ops: seq<Op>, s: Session, draw: nat, l: Local, generation: int)
    requires w.table == ContentTable(t, s, draw, l) && !Behind(generation, s)
    requires Finish(t, w, ops, s, draw, l, generation).Ok?
    ensures w.blobs.Keys <= Finish(t, w, ops, s, draw, l, generation).value.shared.blobs.Keys
  {
    forall n | n in w.blobs ensures n in Finish(t, w, ops, s, draw, l, generation).value.shared.blobs {
      FinishKeepsBlob(t, w, ops, s, draw, l, generation, n);
    }
  }

  /** A push that has nothing to tombstone and nothing to re-key deletes no blob. */
  lemma PushKeepsBlobs(shared: Shared, s: Session, draw: nat, l: Local, generation: int, cached: Option<Table>)
    requires cached.Some? ==> FetchOrEmpty(shared.blobs, s) == Ok(cached.value)
    requires Deleted(l) == {} && !Behind(generation, s)
    requires Push(shared, s, draw, l, generation, cached).Ok?
    ensures shared.blobs.Keys <= Push(shared, s, draw, l, generation, cached).value.shared.blobs.Keys
  {
    if PushNeeded(l, generation, s) {
      var t := FetchOrEmpty(shared.blobs, s).value;
      PushNeededIsTable(shared, s, draw, l, generation, cached, t);
      ContentKeepsBlobs(t, shared.blobs, s, draw, l);
      FinishKeepsBlobs(t, PushedContent(t, shared.blobs, s, draw, l), shared.ops, s, draw, l, generation);
    }
  }

  /**
   * The first cycle of a device with no sync state merges: disk and cloud both end as the old
   * cloud view overridden by the local files, and no blob is deleted.
   */
  lemma FirstCycleMerges(shared: Shared, s: Session, draw: nat, d: Device)
    requires Healthy(shared, s.repo) && OpensManifest(shared.blobs, s.key.rmk, s.repo)
    requires d.state.None?
    ensures var o := CycleIn(shared, s, draw, d);
      && o.Done?
      && o.device.disk == CloudView(shared.blobs, s.repo) + d.disk
      && CloudView(o.shared.blobs, s.repo) == CloudView(shared.blobs, s.repo) + d.disk
      && shared.blobs.Keys <= o.shared.blobs.Keys
  {
    CycleSyncs(shared, s, draw, d);
    AdoptTracks(shared, s, d.disk);
    AdoptLeavesNoDeletion(shared, s, d.disk);
    var start := Adopt(shared, s, d.disk).value;
    NothingToPull(shared, s, start.disk, start.state);
    PushSettlesOk(shared, s, draw, d, start);
    PushKeepsBlobs(shared, s, draw, Local(start.disk, start.state.files), start.state.generation, None);
  }

  lemma AdoptLeavesNoDeletion(shared: Shared, s: Session, disk: map<Path, Bytes>)
    requires Adopt(shared, s, disk).Ok?
    ensures var start := Adopt(shared, s, disk).value;
      Deleted(Local(start.disk, start.state.files)) == {} && !Behind(start.state.generation, s)
  {
  }

  lemma NothingToPull(shared: Shared, s: Session, disk: map<Path, Bytes>, state: SyncState)
    requires state.cursor == |shared.ops|
    ensures Pull(shared, s, disk, state) == Ok(Pulled(disk, state, None, NOTHING_DONE))
  {
    assert OpsSince(shared.ops, state.cursor) == [];
  }

  lemma PushSettlesOk(shared: Shared, s: Session, draw: nat, d: Device, start: Pulled)
    requires StartState(shared, s, d) == Ok(start)
    requires Pull(shared, s, start.disk, start.state) == Ok(Pulled(start.disk, start.state, None, NOTHING_DONE))
    requires CycleIn(shared, s, draw, d).Done?
    ensures var pushed := Push(shared, s, draw, Local(start.disk, start.state.files), start.state.generation, None);
      && pushed.Ok?
      && CycleIn(shared, s, draw, d).shared == pushed.value.shared
      && CycleIn(shared, s, draw, d).device.disk == start.disk
  {
  }

  // -------------------------------------------------------------------------
  // Racing manifest writes heal
  // -------------------------------------------------------------------------

  /**
   * A path this device has on disk and on record, which a foreign manifest write dropped without an
   * op deleting its blob, is back in the cloud view, with this device's bytes, after one cycle.
   */
  lemma ClobberedPathReturns(shared: Shared, s: Session, draw: nat, d: Device, p: Path)
    requires d.state.Some? && p in d.disk && p in d.state.value.files
    requires var n := Collapse(OpsSince(shared.ops, d.state.value.cursor), s.device);
      n.manifest && d.state.value.files[p].blob !in n.del
    requires FetchOrEmpty(shared.blobs, s).Ok? && p !in FetchOrEmpty(shared.blobs, s).value
    requires CycleIn(shared, s, draw, d).Done?
    ensures var o := CycleIn(shared, s, draw, d);
      && Lookup(o.device.disk, p) == Some(d.disk[p])
      && Lookup(CloudView(o.shared.blobs, s.repo), p) == Some(d.disk[p])
  {
    var state := d.state.value;
    var pulled := Pull(shared, s, d.disk, state).value;
    PullShape(shared, s, d.disk, state);
    ClobberedIsPending(shared, s, d.disk, state, p);
    PushDelivers(shared, s, draw, Local(pulled.disk, pulled.state.files), pulled.state.generation, pulled.cached, p);
  }

  lemma ClobberedIsPending(shared: Shared, s: Session, disk: map<Path, Bytes>, state: SyncState, p: Path)
    requires p in disk && p in state.files
    requires var n := Collapse(OpsSince(shared.ops, state.cursor), s.device);
      n.manifest && state.files[p].blob !in n.del
    requires FetchOrEmpty(shared.blobs, s).Ok? && p !in FetchOrEmpty(shared.blobs, s).value
    requires Pull(shared, s, disk, state).Ok?
    ensures var r := Pull(shared, s, disk, state).value;
      Lookup(r.disk, p) == Some(disk[p]) && p in Changed(Local(r.disk, r.state.files))
  {
    var n := Collapse(OpsSince(shared.ops, state.cursor), s.device);
    assert OpsSince(shared.ops, state.cursor) != [] && n != NO_NEWS;
    var t := FetchOrEmpty(shared.blobs, s).value;
    var view := View(shared.blobs, s.repo, t);
    var l := Local(disk, state.files);
    var r := Pull(shared, s, disk, state).value;
    assert Lookup(r.disk, p) == PullSlot(p, SlotAt(l, p), t, view, n).file;
    assert Lookup(r.state.files, p) == PullSlot(p, SlotAt(l, p), t, view, n).known;
  }

  // -------------------------------------------------------------------------
  // A pull that stops half way
  // -------------------------------------------------------------------------

  /** The disk when a call that meant to leave `after` stopped having treated only `done`. */
  function Interrupted(before: map<Path, Bytes>, after: map<Path, Bytes>, done: set<Path>): (r: map<Path, Bytes>)
    ensures forall p :: Lookup(r, p) == Lookup(if p in done then after else before, p)
  {
    map p | p in before.Keys + after.Keys && (if p in done then p in after else p in before) ::
      if p in done then after[p] else before[p]
  }

  /** Taking the same put or del twice is taking it once. */
  lemma PullSlotTwice(p: Path, s: Slot, t: Table, view: map<Path, Bytes>, n: Net)
    ensures PullSlot(p, Slot(PullSlot(p, s, t, view, n).file, s.known), t, view, n) == PullSlot(p, s, t, view, n)
  {
  }

  lemma PullLocalAgain(l: Local, t: Table, view: map<Path, Bytes>, n: Net, done: set<Path>)
    ensures PullLocal(Local(Interrupted(l.disk, PullLocal(l, t, view, n).disk, done), l.files), t, view, n)
         == PullLocal(l, t, view, n)
  {
    var l' := PullLocal(l, t, view, n);
    var half := Local(Interrupted(l.disk, l'.disk, done), l.files);
    forall p ensures PullSlot(p, SlotAt(half, p), t, view, n) == PullSlot(p, SlotAt(l, p), t, view, n) {
      assert Lookup(l'.disk, p) == PullSlot(p, SlotAt(l, p), t, view, n).file;
      PullSlotTwice(p, SlotAt(l, p), t, view, n);
    }
    SameLookups(PulledDisk(half, t, view, n), l'.disk);
    SameLookups(PulledFiles(half, t, view, n), l'.files);
  }

  /**
   * A pull that stops after any of its file writes and deletes, its state unsaved, is completed by
   * running it again: same disk, same records, same cursor as if it had never stopped.
   */
  lemma PullRerunCompletes(shared: Shared, s: Session, disk: map<Path, Bytes>, state: SyncState, done: set<Path>)
    requires Pull(shared, s, disk, state).Ok?
    ensures var r := Pull(shared, s, disk, state).value;
      var again := Pull(shared, s, Interrupted(disk, r.disk, done), state);
      again.Ok? && again.value.disk == r.disk && again.value.state == r.state && again.value.cached == r.cached
  {
    var r := Pull(shared, s, disk, state).value;
    var batch := OpsSince(shared.ops, state.cursor);
    var n := Collapse(batch, s.device);
    if batch == [] || n == NO_NEWS {
      SameLookups(Interrupted(disk, r.disk, done), disk);
    } else {
      var t := FetchOrEmpty(shared.blobs, s).value;
      PullLocalAgain(Local(disk, state.files), t, View(shared.blobs, s.repo, t), n, done);
    }
  }

  /** Adoption records the cloud whatever is on disk, and fills the gaps. */
  lemma AdoptShape(shared: Shared, s: Session, disk: map<Path, Bytes>, disk': map<Path, Bytes>)
    requires Adopt(shared, s, disk).Ok?
    ensures Adopt(shared, s, disk').Ok?
    ensures var view := View(shared.blobs, s.repo, FetchOrEmpty(shared.blobs, s).value);
      && Adopt(shared, s, disk).value.disk == view + disk
      && Adopt(shared, s, disk').value.disk == view + disk'
      && Adopt(shared, s, disk').value.state == Adopt(shared, s, disk).value.state
  {
  }

  lemma FillTwice(view: map<Path, Bytes>, disk: map<Path, Bytes>, done: set<Path>)
    ensures view + Interrupted(disk, view + disk, done) == view + disk
  {
    SameLookups(view + Interrupted(disk, view + disk, done), view + disk);
  }

  /** The same for the first contact of a device with no state. */
  lemma AdoptRerunCompletes(shared: Shared, s: Session, disk: map<Path, Bytes>, done: set<Path>)
    requires Adopt(shared, s, disk).Ok?
    ensures var r := Adopt(shared, s, disk).value;
      var again := Adopt(shared, s, Interrupted(disk, r.disk, done));
      again.Ok? && again.value.disk == r.disk && again.value.state == r.state
  {
    var r := Adopt(shared, s, disk).value;
    AdoptShape(shared, s, disk, Interrupted(disk, r.disk, done));
    FillTwice(View(shared.blobs, s.repo, FetchOrEmpty(shared.blobs, s).value), disk, done);
  }

  // -------------------------------------------------------------------------
  // Rotation catch-up
  // -------------------------------------------------------------------------

  /**
   * The push that catches up with a rotation: with nothing else to push, every path decrypts as
   * before; every row is named by the current key and every re-keyed row has a freshly drawn key;
   * no blob in the store carries a name another key derived.
   */
  lemma RekeyKeepsView(t: Table, shared: Shared, s: Session, draw: nat, l: Local, generation: int)
    requires Healthy(shared, s.repo) && FetchOrEmpty(shared.blobs, s) == Ok(t)
    requires Behind(generation, s) && Changed(l) == {} && Deleted(l) == {}
    ensures PushTable(t, shared, s, draw, l, generation).Ok?
    ensures var shared' := PushTable(t, shared, s, draw, l, generation).value.shared;
      && CloudView(shared'.blobs, s.repo) == CloudView(shared.blobs, s.repo)
      && CloudTable(shared'.blobs, s.repo) == PushedTable(t, s, draw, l, generation)
      && CurrentNamesOnly(shared', s)
  {
    FetchedTable(shared.blobs, s);
    PushReadable(t, shared, s, draw, l, generation);
    var shared' := PushTable(t, shared, s, draw, l, generation).value.shared;
    forall p ensures Lookup(CloudView(shared'.blobs, s.repo), p) == Lookup(CloudView(shared.blobs, s.repo), p) {
      PushView(t, shared, s, draw, l, generation, p);
    }
    SameLookups(CloudView(shared'.blobs, s.repo), CloudView(shared.blobs, s.repo));
    PushManifestStays(t, shared, s, draw, l, generation);
    RekeyLeavesCurrentNames(t, shared, s, draw, l, generation);
  }

  /** Every row, and every object blob, is named by the session's key. */
  predicate CurrentNamesOnly(shared: Shared, s: Session) {
    var t := CloudTable(shared.blobs, s.repo);
    && (forall p :: p in t ==> t[p].blob == BlobName(s.key.rmk, p))
    && (forall n :: n in shared.blobs && n.Derived? ==> n.rmk == s.key.rmk && n.rel in t)
  }

  lemma RekeyLeavesCurrentNames(t: Table, shared: Shared, s: Session, draw: nat, l: Local, generation: int)
    requires Healthy(shared, s.repo) && FetchOrEmpty(shared.blobs, s) == Ok(t)
    requires Behind(generation, s)
    requires PushTable(t, shared, s, draw, l, generation).Ok?
    ensures CurrentNamesOnly(PushTable(t, shared, s, draw, l, generation).value.shared, s)
  {
    FetchedTable(shared.blobs, s);
    PushManifestStays(t, shared, s, draw, l, generation);
    PushOrphans(t, shared, s, draw, l, generation);
    var t' := PushedTable(t, s, draw, l, generation);
    forall p | p in t' ensures t'[p].blob == BlobName(s.key.rmk, p) {
      PushEntry(t, s, draw, l, generation, p);
    }
    CurrentByTable(PushTable(t, shared, s, draw, l, generation).value.shared, s, t');
  }

  lemma CurrentByTable(shared: Shared, s: Session, t: Table)
    requires CloudTable(shared.blobs, s.repo) == t && NoOrphans(shared.blobs, t)
    requires forall p :: p in t ==> t[p].blob == BlobName(s.key.rmk, p)
    ensures CurrentNamesOnly(shared, s)
  {
  }

  /** Once every name is current, a catch-up by this or any other device changes nothing and says nothing. */
  lemma RekeyAgainIsNoop(t: Table, shared: Shared, s: Session, draw: nat, l: Local, generation: int)
    requires FetchOrEmpty(shared.blobs, s) == Ok(t) && CurrentNamesOnly(shared, s)
    requires Changed(l) == {} && Deleted(l) == {}
    ensures PushTable(t, shared, s, draw, l, generation) == Ok(Pushed(shared, l.files, NOTHING_DONE))
  {
    FetchedTable(shared.blobs, s);
    ContentUnchanged(t, shared.blobs, s, draw, l);
    FinishUnchanged(t, Work(t, shared.blobs, l.files), shared.ops, s, draw, l, generation);
  }

  lemma UploadingNothing(w: Work, s: Session, draw: nat, disk: map<Path, Bytes>)
    ensures Uploaded(w, s, draw, disk, {}) == w
  {
    hide SealedFiles, UploadedTable, UploadedFiles;
    NoRowUploaded(w.table, s, draw);
    NothingSealed(w.table, s.repo, disk);
    NoRecordUploaded(w.files, w.table, disk);
    MinusPlusNothing(w.blobs);
  }

  lemma NoRowUploaded(t: Table, s: Session, draw: nat)
    ensures UploadedTable(t, s, draw, {}) == t
  {
  }

  lemma NothingSealed(t: Table, repo: string, disk: map<Path, Bytes>)
    ensures SealedFiles(t, repo, disk, {}) == map[]
  {
    assert Names(t, {}) == {};
  }

  lemma NoRecordUploaded(files: Files, t: Table, disk: map<Path, Bytes>)
    ensures UploadedFiles(files, t, disk, {}) == files
  {
  }

  lemma TombstoningNothing(w: Work)
    ensures Tombstoned(w, {}) == w
  {
    assert Names(w.table, {}) == {};
  }

  lemma ContentUnchanged(t: Table, blobs: map<Name, Blob>, s: Session, draw: nat, l: Local)
    requires Changed(l) == {} && Deleted(l) == {}
    ensures PushedContent(t, blobs, s, draw, l) == Work(t, blobs, l.files)
  {
    UploadingNothing(Work(t, blobs, l.files), s, draw, l.disk);
    TombstoningNothing(Work(t, blobs, l.files));
  }

  lemma AnnouncingNothing(ops: seq<Op>, w: Work, s: Session)
    ensures Announced(ops, w, s, {}, {}, false) == Shared(ops, w.blobs)
  {
  }

  lemma NothingToAnnounce(t: Table, w: Work, s: Session, draw: nat, l: Local)
    requires Changed(l) == {} && Deleted(l) == {}
    ensures PutNames(t, s, draw, l, {}) == {} && DelNames(t, w, l, {}) == {} && !ManifestDirty(t, l, {})
    ensures |Changed(l)| == 0 && |Deleted(l) * t.Keys| == 0
  {
  }

  lemma FinishUnchanged(t: Table, w: Work, ops: seq<Op>, s: Session, draw: nat, l: Local, generation: int)
    requires w == Work(t, w.blobs, l.files) && Changed(l) == {} && Deleted(l) == {}
    requires forall p :: p in t ==> t[p].blob == BlobName(s.key.rmk, p)
    ensures Finish(t, w, ops, s, draw, l, generation) == Ok(Pushed(Shared(ops, w.blobs), l.files, NOTHING_DONE))
  {
    assert Rekeying(t, generation, s) == {};
    RekeyingNothing(w, s, draw);
    NothingToAnnounce(t, w, s, draw, l);
    AnnouncingNothing(ops, Rekeyed(w, s, draw, {}), s);
  }
}
