/** Where a manual push costs a device its agreement with the cloud: the exact condition, and a run that gets there. */
module SyncFaults {
  import opened Prelude
  import opened SyncCrypto
  import opened SyncModel
  import opened SyncPhases
  import opened SyncAgreement
  import opened SyncCalls
  import opened SyncSafety
  import opened SyncWorld
  import opened SyncConvergence

  // -------------------------------------------------------------------------
  // A path no cycle will touch
  // -------------------------------------------------------------------------

  /** The table, the view and the unread news a device goes by when it next pulls. */
  predicate Unannounced(shared: Shared, s: Session, state: SyncState, p: Path) {
    && state.cursor <= |shared.ops|
    && p in CloudTable(shared.blobs, s.repo)
    && CloudTable(shared.blobs, s.repo)[p].blob !in Collapse(OpsSince(shared.ops, state.cursor), s.device).put
  }

  /** Disk and cloud differ on `p`, nothing unread mentions its row, and the device takes its own copy for pushed. */
  predicate Stranded(shared: Shared, s: Session, d: Device, p: Path) {
    && d.state.Some? && d.state.value.generation == s.key.generation
    && Unannounced(shared, s, d.state.value, p)
    && p !in Changed(Local(d.disk, d.state.value.files)) && p !in Deleted(Local(d.disk, d.state.value.files))
    && Lookup(d.disk, p) != Lookup(CloudView(shared.blobs, s.repo), p)
  }

  lemma UnmentionedSlot(l: Local, t: Table, view: map<Path, Bytes>, n: Net, p: Path)
    requires p in t && t[p].blob !in n.put
    ensures var l' := PullLocal(l, t, view, n);
      && Lookup(l'.disk, p) == Lookup(l.disk, p) && Lookup(l'.files, p) == Lookup(l.files, p)
  {
    assert PullSlot(p, SlotAt(l, p), t, view, n) == SlotAt(l, p);
  }

  /** A pull leaves alone a path whose row no unread op announces. */
  lemma PullSkips(shared: Shared, s: Session, disk: map<Path, Bytes>, state: SyncState, p: Path)
    requires Healthy(shared, s.repo) && OpensManifest(shared.blobs, s.key.rmk, s.repo)
    requires Unannounced(shared, s, state, p)
    ensures Pull(shared, s, disk, state).Ok?
    ensures var r := Pull(shared, s, disk, state).value;
      && Lookup(r.disk, p) == Lookup(disk, p) && Lookup(r.state.files, p) == Lookup(state.files, p)
      && r.state.generation == state.generation
      && (r.cached.None? || FetchOrEmpty(shared.blobs, s) == Ok(r.cached.value))
  {
    hide PullLocal, View, CloudView;
    FetchedTable(shared.blobs, s);
    var t := CloudTable(shared.blobs, s.repo);
    IntactView(shared.blobs, s.repo, t);
    var n := Collapse(OpsSince(shared.ops, state.cursor), s.device);
    UnmentionedSlot(Local(disk, state.files), t, View(shared.blobs, s.repo, t), n, p);
  }

  /** A push keeps what an unchanged path decrypts to. */
  lemma PushSkips(shared: Shared, s: Session, draw: nat, l: Local, generation: int, cached: Option<Table>, p: Path)
    requires Healthy(shared, s.repo) && FetchOrEmpty(shared.blobs, s).Ok?
    requires cached.None? || FetchOrEmpty(shared.blobs, s) == Ok(cached.value)
    requires p !in Changed(l) && p !in Deleted(l)
    ensures Push(shared, s, draw, l, generation, cached).Ok?
    ensures var shared' := Push(shared, s, draw, l, generation, cached).value.shared;
      Lookup(CloudView(shared'.blobs, s.repo), p) == Lookup(CloudView(shared.blobs, s.repo), p)
  {
    hide Push, PushTable, CloudTable, View, Healthy, Advances, FetchOrEmpty, PushNeeded;
    FetchedTable(shared.blobs, s);
    PushAdvances(shared, s, draw, l, generation, cached);
    if PushNeeded(l, generation, s) {
      var t := FetchOrEmpty(shared.blobs, s).value;
      PushNeededIsTable(shared, s, draw, l, generation, cached, t);
      PushView(t, shared, s, draw, l, generation, p);
    } else {
      NothingNeededIsIdle(shared, s, draw, l, generation, cached);
    }
  }

  lemma SamePath(l: Local, l': Local, p: Path)
    requires Lookup(l'.disk, p) == Lookup(l.disk, p) && Lookup(l'.files, p) == Lookup(l.files, p)
    ensures p in Changed(l') <==> p in Changed(l)
    ensures p in Deleted(l') <==> p in Deleted(l)
  {
  }

  /** A cycle succeeds and leaves a stranded path as it was, on the disk and in the cloud. */
  lemma CycleLeavesStranded(shared: Shared, s: Session, draw: nat, d: Device, p: Path)
    requires Healthy(shared, s.repo) && OpensManifest(shared.blobs, s.key.rmk, s.repo)
    requires Stranded(shared, s, d, p)
    ensures var o := CycleIn(shared, s, draw, d);
      && o.Done? && Lookup(o.device.disk, p) == Lookup(d.disk, p)
      && Lookup(CloudView(o.shared.blobs, s.repo), p) == Lookup(CloudView(shared.blobs, s.repo), p)
  {
    hide Pull, Push, CloudTable, CloudView, Healthy, FetchOrEmpty, Unannounced, Changed, Deleted;
    var state := d.state.value;
    PullSkips(shared, s, d.disk, state, p);
    var r := Pull(shared, s, d.disk, state).value;
    SamePath(Local(d.disk, state.files), Local(r.disk, r.state.files), p);
    FetchesWhenItOpens(shared.blobs, s);
    PushSkips(shared, s, draw, Local(r.disk, r.state.files), r.state.generation, r.cached, p);
    var pushed := Push(shared, s, draw, Local(r.disk, r.state.files), r.state.generation, r.cached).value;
    CycleFromParts(shared, s, draw, d, Pulled(d.disk, state, None, NOTHING_DONE), r, pushed);
  }

  // -------------------------------------------------------------------------
  // Pushing before reading
  // -------------------------------------------------------------------------

  /** What makes a push unsafe: a row it renames under an unread upload of other bytes. */
  predicate RenamedAway(shared: Shared, s: Session, d: Device, p: Path) {
    var state := SavedOr(d, s.key.generation);
    var t := CloudTable(shared.blobs, s.repo);
    && p in t && MerelyRenamed(t, s, Local(d.disk, state.files), state.generation, p)
    && !Renamable(t, CloudView(shared.blobs, s.repo), s, Local(d.disk, state.files), Pending(shared, s.device, d), p)
  }

  lemma UnsafeRow(shared: Shared, s: Session, d: Device) returns (p: Path)
    requires !SafePush(shared, s, d)
    ensures RenamedAway(shared, s, d, p)
  {
    var state := SavedOr(d, s.key.generation);
    var t := CloudTable(shared.blobs, s.repo);
    var l := Local(d.disk, state.files);
    p :| p in Stale(t, s.key.rmk) && MerelyRenamed(t, s, l, state.generation, p)
         && !Renamable(t, CloudView(shared.blobs, s.repo), s, l, Pending(shared, s.device, d), p);
  }

  /** One row's part: after the push it is named anew, while disk and view are what they were and differ. */
  lemma RenamedRowDiffers(t: Table, view: map<Path, Bytes>, s: Session, draw: nat, l: Local, generation: int,
                          t': Table, view': map<Path, Bytes>, files': Files, n: Net, p: Path)
    requires view.Keys == t.Keys && p in t
    requires MerelyRenamed(t, s, l, generation, p) && !Renamable(t, view, s, l, n, p)
    requires RowAfter(t, view, s, draw, l, generation, t', view', files', p)
    ensures p in t' && t'[p].blob == BlobName(s.key.rmk, p) && t'[p].blob !in n.put
    ensures Lookup(view', p) == Lookup(view, p) && Lookup(view, p) != Lookup(l.disk, p)
    ensures p !in Changed(Local(l.disk, files')) && p !in Deleted(Local(l.disk, files'))
  {
  }

  /** A push that renames a row under an unread upload strands it. */
  lemma UnsafePushStrands(shared: Shared, s: Session, draw: nat, d: Device, p: Path)
    requires Healthy(shared, s.repo) && OpensManifest(shared.blobs, s.key.rmk, s.repo)
    requires InStep(shared, s.repo, s.device, d) && RenamedAway(shared, s, d, p)
    ensures var o := PushOnlyIn(shared, s, draw, d);
      && o.Done? && Stranded(o.shared, s, o.device, p) && o.device.disk == d.disk
      && Lookup(CloudView(o.shared.blobs, s.repo), p) == Lookup(CloudView(shared.blobs, s.repo), p)
  {
    hide Push, PushTable, CloudTable, CloudView, View, Healthy, Advances, FetchOrEmpty, OpensManifest, RowAfter,
      Collapse, OpsSince, Changed, Deleted, Tracks;
    var state := SavedOr(d, s.key.generation);
    var l := Local(d.disk, state.files);
    var t := CloudTable(shared.blobs, s.repo);
    HealthyParts(shared, s.repo);
    IntactView(shared.blobs, s.repo, t);
    FetchesWhenItOpens(shared.blobs, s);
    FetchedTable(shared.blobs, s);
    ViewOfTable(shared, s.repo);
    PushReadable(t, shared, s, draw, l, state.generation);
    PushNeededIsTable(shared, s, draw, l, state.generation, None, t);
    PushRowAfter(t, shared, s, draw, l, state.generation, p);
    var r := PushTable(t, shared, s, draw, l, state.generation).value;
    RenamedRowDiffers(t, View(shared.blobs, s.repo, t), s, draw, l, state.generation,
                      CloudTable(r.shared.blobs, s.repo),
                      CloudView(r.shared.blobs, s.repo), r.files, Pending(shared, s.device, d), p);
    PushTableAdvances(t, shared, s, draw, l, state.generation);
    OwnOpIsSkipped(shared, r.shared, s.repo, s.device, state.cursor);
    MoreOps(shared, r.shared, s.repo, s.device);
  }

  lemma ViewOfTable(shared: Shared, repo: string)
    ensures CloudView(shared.blobs, repo) == View(shared.blobs, repo, CloudTable(shared.blobs, repo))
  {
  }

  lemma MoreOps(shared: Shared, shared': Shared, repo: string, id: DeviceId)
    requires Advances(shared, shared', repo, id)
    ensures |shared.ops| <= |shared'.ops|
  {
  }

  /**
   * An unsafe push, and what the next cycle leaves of it: the path on disk and in the cloud as before, and
   * different.
   */
  lemma UnsafePushDiverges(shared: Shared, s: Session, draw: nat, draw': nat, d: Device, p: Path)
    requires Healthy(shared, s.repo) && OpensManifest(shared.blobs, s.key.rmk, s.repo)
    requires InStep(shared, s.repo, s.device, d) && RenamedAway(shared, s, d, p)
    ensures var o := PushOnlyIn(shared, s, draw, d);
      && o.Done?
      && var o' := CycleIn(o.shared, s, draw', o.device);
      && o'.Done?
      && Lookup(o'.device.disk, p) == Lookup(d.disk, p)
      && Lookup(CloudView(o'.shared.blobs, s.repo), p) == Lookup(CloudView(shared.blobs, s.repo), p)
      && Lookup(d.disk, p) != Lookup(CloudView(shared.blobs, s.repo), p)
  {
    hide PushOnlyIn, CycleIn, Healthy, OpensManifest, InStep, RenamedAway, CloudView, CloudTable, SafePush, Advances;
    PushOnlyStaysInStep(shared, s, draw, d);
    UnsafePushStrands(shared, s, draw, d, p);
    var o := PushOnlyIn(shared, s, draw, d);
    CycleLeavesStranded(o.shared, s, draw', o.device, p);
  }

  /**
   * A manual push always succeeds, and so does the next cycle; that cycle ends with the files on disk
   * equal to the cloud's if and only if the push was safe.
   */
  lemma PushThenCycleAgrees(shared: Shared, s: Session, draw: nat, draw': nat, d: Device)
    requires Healthy(shared, s.repo) && OpensManifest(shared.blobs, s.key.rmk, s.repo)
    requires InStep(shared, s.repo, s.device, d)
    ensures var o := PushOnlyIn(shared, s, draw, d);
      && o.Done?
      && var o' := CycleIn(o.shared, s, draw', o.device);
      && o'.Done? && o'.device.state.Some?
      && (SafePush(shared, s, d) <==> o'.device.disk == CloudView(o'.shared.blobs, s.repo))
      && (SafePush(shared, s, d) ==>
            Synced(o'.device.disk, o'.device.state.value.files,
                   CloudTable(o'.shared.blobs, s.repo), CloudView(o'.shared.blobs, s.repo)))
  {
    hide PushOnlyIn, CycleIn, Healthy, OpensManifest, InStep, RenamedAway, CloudView, CloudTable, SafePush, Advances;
    PushOnlyStaysInStep(shared, s, draw, d);
    var o := PushOnlyIn(shared, s, draw, d);
    if SafePush(shared, s, d) {
      CycleSyncs(o.shared, s, draw', o.device);
    } else {
      var p := UnsafeRow(shared, s, d);
      UnsafePushDiverges(shared, s, draw, draw', d, p);
      DoneHasState(o.shared, s, draw', o.device);
    }
  }

  lemma DoneHasState(shared: Shared, s: Session, draw: nat, d: Device)
    requires CycleIn(shared, s, draw, d).Done?
    ensures CycleIn(shared, s, draw, d).device.state.Some?
  {
    hide Push, Pull, StartState;
  }

  /** A manual push and a cycle of the same device, with its key in hand. */
  lemma PushThenCycleInWorld(w: World, id: DeviceId, key: KeyGen, draw: nat, draw': nat)
    requires Inv(w) && id in w.devices && CallerKey(w, id) == Some(key)
    ensures var s := Session(w.repo, id, key);
      var o := PushOnlyIn(w.shared, s, draw, w.devices[id]);
      && o.Done?
      && var w' := Apply(w, RunPush(id, draw));
      && w' == WithOutcome(w, id, o)
      && Apply(w', RunCycle(id, draw')) == WithOutcome(w', id, CycleIn(o.shared, s, draw', o.device))
  {
    hide Inv, CycleIn, PushOnlyIn, Healthy, InStep, Advances, SafePush;
    InvGives(w, id);
    OpensWithCallerKey(w, id);
    PushOnlyStaysInStep(w.shared, Session(w.repo, id, key), draw, w.devices[id]);
  }

  /**
   * After any run from the founding of a repo, a push by any device that has a key, followed by a cycle of
   * the same device, leaves its files equal to the cloud's if and only if the push was a prudent one.
   */
  lemma PushAfterAnyRunAgrees(repo: string, founder: DeviceId, disk: map<Path, Bytes>, rmk: Rmk, steps: seq<Step>,
                              id: DeviceId, draw: nat, draw': nat)
    requires Legal(Founded(repo, founder, disk, rmk), steps)
    requires id in Run(Founded(repo, founder, disk, rmk), steps).devices
    requires CallerKey(Run(Founded(repo, founder, disk, rmk), steps), id).Some?
    ensures var w := Run(Founded(repo, founder, disk, rmk), steps);
      var w' := Apply(Apply(w, RunPush(id, draw)), RunCycle(id, draw'));
      && id in w'.devices
      && (w'.devices[id].disk == CloudView(w'.shared.blobs, w'.repo) <==> Prudent(w, RunPush(id, draw)))
  {
    hide Inv, Legal, Run, CallerKey, CycleIn, PushOnlyIn, CloudView, Healthy, InStep, SafePush, Apply;
    var w0 := Founded(repo, founder, disk, rmk);
    FoundedIsConsistent(repo, founder, disk, rmk);
    RunKeepsInv(w0, steps);
    var w := Run(w0, steps);
    var key := CallerKey(w, id).value;
    InvGives(w, id);
    OpensWithCallerKey(w, id);
    PushThenCycleInWorld(w, id, key, draw, draw');
    PushThenCycleAgrees(w.shared, Session(w.repo, id, key), draw, draw', w.devices[id]);
  }

  // -------------------------------------------------------------------------
  // A run that gets there
  // -------------------------------------------------------------------------

  /** The op a first cycle announces for its one file. */
  lemma OneUploadAnnounced(t: Table, w: Work, s: Session, draw: nat, l: Local, p: Path)
    requires Changed(l) == {p} && Deleted(l) == {}
    ensures PutNames(t, s, draw, l, {}) == {(if p in t then t[p] else Minted(s.key.rmk, draw, p)).blob}
    ensures DelNames(t, w, l, {}) == {} && (ManifestDirty(t, l, {}) <==> p !in t)
  {
    var put := PutNames(t, s, draw, l, {});
    var up := UploadedTable(t, s, draw, Changed(l));
    assert put == {up[p].blob};
  }

  lemma OneUploadTable(t: Table, s: Session, draw: nat, l: Local, generation: int, p: Path)
    requires Changed(l) == {p} && Deleted(l) == {} && !Behind(generation, s) && t.Keys <= {p}
    ensures PushedTable(t, s, draw, l, generation) == map[p := if p in t then t[p] else Minted(s.key.rmk, draw, p)]
  {
    hide PushedTable, Changed, Deleted;
    var t' := PushedTable(t, s, draw, l, generation);
    forall q ensures Lookup(t', q) == Lookup(map[p := if p in t then t[p] else Minted(s.key.rmk, draw, p)], q) {
      PushEntry(t, s, draw, l, generation, q);
    }
    SameLookups(t', map[p := if p in t then t[p] else Minted(s.key.rmk, draw, p)]);
  }

  lemma NothingToRekey(t: Table, generation: int, s: Session)
    requires !Behind(generation, s)
    ensures Rekeying(t, generation, s) == {}
  {
  }

  /** A push of one changed file: its row, and an op that names it. */
  lemma OneUpload(t: Table, shared: Shared, s: Session, draw: nat, l: Local, generation: int, p: Path)
    requires FetchOrEmpty(shared.blobs, s) == Ok(t) && PushTable(t, shared, s, draw, l, generation).Ok?
    requires Changed(l) == {p} && Deleted(l) == {} && !Behind(generation, s) && t.Keys <= {p}
    ensures var shared' := PushTable(t, shared, s, draw, l, generation).value.shared;
      var row := if p in t then t[p] else Minted(s.key.rmk, draw, p);
      && CloudTable(shared'.blobs, s.repo) == map[p := row]
      && shared'.ops == shared.ops + [Op(s.device, 1, {row.blob}, {}, p !in t)]
  {
    hide CloudTable, FetchOrEmpty, Changed, Deleted, Finish, PutNames, DelNames, ManifestDirty, PushedTable,
      Behind, RekeyNeeded, Rekeying;
    var w := PushedContent(t, shared.blobs, s, draw, l);
    NothingToRekey(w.table, generation, s);
    PushManifestStays(t, shared, s, draw, l, generation);
    OneUploadTable(t, s, draw, l, generation, p);
    FinishOps(t, w, shared.ops, s, draw, l, generation);
    OneUploadAnnounced(t, w, s, draw, l, p);
  }

  /** What a first contact has to push: its one file, which the cloud lacks or has otherwise. */
  lemma FirstContactChanges(shared: Shared, s: Session, disk: map<Path, Bytes>, p: Path, bytes: Bytes)
    requires Adopt(shared, s, disk).Ok? && disk == map[p := bytes]
    requires CloudTable(shared.blobs, s.repo).Keys <= {p} && Lookup(CloudView(shared.blobs, s.repo), p) != Some(bytes)
    ensures var start := Adopt(shared, s, disk).value;
      var l := Local(start.disk, start.state.files);
      Changed(l) == {p} && Deleted(l) == {} && !Behind(start.state.generation, s)
  {
    FetchedTable(shared.blobs, s);
    AdoptLeavesNoDeletion(shared, s, disk);
  }

  lemma PushHappens(shared: Shared, s: Session, draw: nat, l: Local, generation: int, p: Path)
    requires Changed(l) == {p} && FetchOrEmpty(shared.blobs, s).Ok?
    ensures PushNeeded(l, generation, s)
  {
  }

  /** What a first cycle with one file leaves: the file's row, the file in the view, one op, the record of it. */
  predicate FirstUpload(shared: Shared, o: Outcome, s: Session, draw: nat, p: Path, bytes: Bytes) {
    var t := CloudTable(shared.blobs, s.repo);
    var row := if p in t then t[p] else Minted(s.key.rmk, draw, p);
    && o.Done?
    && CloudTable(o.shared.blobs, s.repo) == map[p := row] && CloudView(o.shared.blobs, s.repo) == map[p := bytes]
    && o.shared.ops == shared.ops + [Op(s.device, 1, {row.blob}, {}, p !in t)]
    && o.device == Device(map[p := bytes],
                          Some(SyncState(|shared.ops|, s.key.generation,
                                         map[p := FileState(ContentHash(bytes), row.blob)])),
                          Some(s.key))
  }

  /** First cycle of a device with one file, of which the cloud has no version or another one. */
  lemma FirstCycleUploads(shared: Shared, s: Session, draw: nat, d: Device, p: Path, bytes: Bytes)
    requires Healthy(shared, s.repo) && OpensManifest(shared.blobs, s.key.rmk, s.repo)
    requires d.state.None? && d.disk == map[p := bytes]
    requires CloudTable(shared.blobs, s.repo).Keys <= {p} && Lookup(CloudView(shared.blobs, s.repo), p) != Some(bytes)
    ensures FirstUpload(shared, CycleIn(shared, s, draw, d), s, draw, p, bytes)
  {
    hide CloudTable, CloudView, View, Healthy, OpensManifest, Adopt, Push, PushTable, Pull, FetchOrEmpty, CycleIn,
      Changed, Deleted, Behind, RekeyNeeded, PushNeeded, Advances;
    CycleSyncs(shared, s, draw, d);
    FirstCycleMerges(shared, s, draw, d);
    AdoptTracks(shared, s, d.disk);
    FetchesWhenItOpens(shared.blobs, s);
    FetchedTable(shared.blobs, s);
    FirstContactChanges(shared, s, d.disk, p, bytes);
    var start := Adopt(shared, s, d.disk).value;
    var l := Local(start.disk, start.state.files);
    var t := CloudTable(shared.blobs, s.repo);
    NothingToPull(shared, s, start.disk, start.state);
    PushSettlesOk(shared, s, draw, d, start);
    PushHappens(shared, s, draw, l, start.state.generation, p);
    PushNeededIsTable(shared, s, draw, l, start.state.generation, None, t);
    OneUpload(t, shared, s, draw, l, start.state.generation, p);
    OneFileMerged(shared, s.repo, p, bytes);
    var o := CycleIn(shared, s, draw, d);
    OneFileRecorded(CloudTable(o.shared.blobs, s.repo), CloudView(o.shared.blobs, s.repo), o.device.state.value.files,
                    p, bytes);
  }

  lemma OneFileMerged(shared: Shared, repo: string, p: Path, bytes: Bytes)
    requires CloudTable(shared.blobs, repo).Keys <= {p}
    ensures CloudView(shared.blobs, repo) + map[p := bytes] == map[p := bytes]
  {
    hide CloudTable;
    assert CloudView(shared.blobs, repo).Keys <= {p};
  }

  lemma OneFileRecorded(t: Table, view: map<Path, Bytes>, files: Files, p: Path, bytes: Bytes)
    requires t.Keys == {p} && view == map[p := bytes] && files == Recorded(t, view)
    ensures files == map[p := FileState(ContentHash(bytes), t[p].blob)]
  {
    SameLookups(files, map[p := FileState(ContentHash(bytes), t[p].blob)]);
  }

  /** Every device uses one key, and holds that or none. */
  predicate OneKey(w: World, key: KeyGen) {
    forall e :: e in w.devices ==>
      CallerKey(w, e) == Some(key) && (w.devices[e].key.None? || w.devices[e].key == Some(key))
  }

  /** An approval, without a phrase, by a device that holds the key. */
  lemma ApproveKeepsOneKey(w: World, key: KeyGen, id: DeviceId, newcomer: DeviceId, disk: map<Path, Bytes>)
    requires Inv(w) && OneKey(w, key) && Enabled(w, Approve(id, newcomer, disk, None))
    requires w.devices[id].key == Some(key)
    ensures var w' := Apply(w, Approve(id, newcomer, disk, None));
      && Inv(w') && OneKey(w', key)
      && w'.repo == w.repo && w'.shared == w.shared && w'.generation == w.generation
      && w'.devices == w.devices[newcomer := Device(disk, None, None)]
  {
    hide Inv;
    StepKeepsInv(w, Approve(id, newcomer, disk, None));
    assert Opened(w, id).devices == w.devices;
  }

  /** The same for the system the device is part of. */
  predicate FirstTurn(w: World, w': World, key: KeyGen, id: DeviceId, draw: nat, p: Path, bytes: Bytes) {
    && id in w'.devices && w' == w.(shared := w'.shared, devices := w.devices[id := w'.devices[id]])
    && FirstUpload(w.shared, Done(w'.shared, w'.devices[id], NOTHING_DONE), Session(w.repo, id, key), draw, p, bytes)
  }

  /** A device's first cycle in a running system. */
  lemma FirstTurnUploads(w: World, key: KeyGen, id: DeviceId, draw: nat, p: Path, bytes: Bytes)
    requires Inv(w) && OneKey(w, key) && id in w.devices
    requires w.devices[id].state.None? && w.devices[id].disk == map[p := bytes]
    requires CloudTable(w.shared.blobs, w.repo).Keys <= {p}
      && Lookup(CloudView(w.shared.blobs, w.repo), p) != Some(bytes)
    ensures var w' := Apply(w, RunCycle(id, draw));
      && Inv(w') && OneKey(w', key) && FirstTurn(w, w', key, id, draw, p, bytes)
  {
    hide Inv, CallerKey, CycleIn, CloudTable, CloudView, OpensManifest, Healthy, InStep, CycleOf;
    InvGives(w, id);
    OpensWithCallerKey(w, id);
    CycleUsesCallerKey(w, id, draw, key);
    FirstCycleUploads(w.shared, Session(w.repo, id, key), draw, w.devices[id], p, bytes);
    CycleKeepsInv(w, id, draw);
    FirstTurnKeepsOneKey(w, Apply(w, RunCycle(id, draw)), key, id, draw, p, bytes);
  }

  lemma FirstTurnKeepsOneKey(w: World, w': World, key: KeyGen, id: DeviceId, draw: nat, p: Path, bytes: Bytes)
    requires OneKey(w, key) && FirstTurn(w, w', key, id, draw, p, bytes)
    requires OpensManifest(w'.shared.blobs, key.rmk, w.repo)
    ensures OneKey(w', key)
  {
    hide CloudTable, CloudView;
  }

  const FIRST_KEY := KeyGen(Rmk(0), 1)
  const NEXT_KEY := KeyGen(Rmk(1), 2)

  /** Two devices join; founder and newcomer push their versions of a file; the other newcomer is revoked. */
  function OvertakingSteps(p: Path, theirs: Bytes): seq<Step> {
    [Approve("a", "b", map[p := theirs], None), Approve("a", "c", map[], None), RunCycle("a", 0), RunCycle("b", 0),
     Revoke("a", "c", NEXT_KEY.rmk)]
  }

  /** The system before the revocation: the founder has not read the newcomer's upload. */
  predicate BothPushed(w: World, repo: string, p: Path, mine: Bytes, theirs: Bytes) {
    var row := Minted(FIRST_KEY.rmk, 0, p);
    && w.repo == repo && w.generation == 1 && w.devices.Keys == {"a", "b", "c"}
    && CloudTable(w.shared.blobs, repo) == map[p := row] && CloudView(w.shared.blobs, repo) == map[p := theirs]
    && w.shared.ops == [Op("a", 1, {row.blob}, {}, true), Op("b", 1, {row.blob}, {}, false)]
    && w.devices["a"] == Device(map[p := mine], Some(SyncState(0, 1, map[p := FileState(ContentHash(mine), row.blob)])),
                                Some(FIRST_KEY))
  }

  lemma BothJoin(repo: string, p: Path, mine: Bytes, theirs: Bytes) returns (w1: World, w2: World)
    ensures var w0 := Founded(repo, "a", map[p := mine], FIRST_KEY.rmk);
      && Enabled(w0, Approve("a", "b", map[p := theirs], None))
      && w1 == Apply(w0, Approve("a", "b", map[p := theirs], None))
      && Enabled(w1, Approve("a", "c", map[], None)) && w2 == Apply(w1, Approve("a", "c", map[], None))
      && Inv(w2) && OneKey(w2, FIRST_KEY)
      && w2.repo == repo && w2.generation == 1 && w2.shared == Shared([], map[]) && w2.devices.Keys == {"a", "b", "c"}
      && w2.devices["a"].disk == map[p := mine] && w2.devices["b"].disk == map[p := theirs]
      && w2.devices["a"].state.None? && w2.devices["b"].state.None?
  {
    hide Inv, Apply;
    var w0 := Founded(repo, "a", map[p := mine], FIRST_KEY.rmk);
    FoundedIsConsistent(repo, "a", map[p := mine], FIRST_KEY.rmk);
    w1 := Apply(w0, Approve("a", "b", map[p := theirs], None));
    ApproveKeepsOneKey(w0, FIRST_KEY, "a", "b", map[p := theirs]);
    w2 := Apply(w1, Approve("a", "c", map[], None));
    ApproveKeepsOneKey(w1, FIRST_KEY, "a", "c", map[]);
  }

  /** From there founder and newcomer take their first turns. */
  lemma BothPush(w2: World, repo: string, p: Path, mine: Bytes, theirs: Bytes) returns (w3: World, w4: World)
    requires mine != theirs && Inv(w2) && OneKey(w2, FIRST_KEY)
    requires w2.repo == repo && w2.generation == 1 && w2.shared == Shared([], map[])
      && w2.devices.Keys == {"a", "b", "c"}
    requires w2.devices["a"].disk == map[p := mine] && w2.devices["b"].disk == map[p := theirs]
    requires w2.devices["a"].state.None? && w2.devices["b"].state.None?
    ensures w3 == Apply(w2, RunCycle("a", 0)) && Enabled(w3, RunCycle("b", 0)) && w4 == Apply(w3, RunCycle("b", 0))
    ensures BothPushed(w4, repo, p, mine, theirs) && Inv(w4) && OneKey(w4, FIRST_KEY)
  {
    hide Inv, OneKey, CloudView, CloudTable, Apply;
    EmptyCloud(repo);
    w3 := Apply(w2, RunCycle("a", 0));
    FirstTurnUploads(w2, FIRST_KEY, "a", 0, p, mine);
    w4 := Apply(w3, RunCycle("b", 0));
    FirstTurnUploads(w3, FIRST_KEY, "b", 0, p, theirs);
  }

  lemma EmptyCloud(repo: string)
    ensures CloudTable(map[], repo) == map[] && CloudView(map[], repo) == map[]
  {
  }

  lemma UnreadOfBoth(ops: seq<Op>, name: Name)
    requires ops == [Op("a", 1, {name}, {}, true), Op("b", 1, {name}, {}, false), Op("a", 1, {}, {}, true)]
    ensures Collapse(OpsSince(ops, 0), "a") == Net({name}, {}, false)
  {
    assert OpsSince(ops, 0) == ops && ops[..2][..1] == ops[..1] && ops[..1][..0] == [];
    assert Collapse(ops[..1], "a") == Absorb(Collapse([], "a"), ops[0], "a");
    assert Collapse(ops[..2], "a") == Absorb(Collapse(ops[..1], "a"), ops[1], "a");
    assert Collapse(ops, "a") == Absorb(Collapse(ops[..2], "a"), ops[2], "a");
  }

  /** After the revocation the founder, who has to re-key and has not read the upload, must not push. */
  lemma RevocationMakesUnsafe(w: World, repo: string, p: Path, mine: Bytes, theirs: Bytes)
    requires mine != theirs && BothPushed(w, repo, p, mine, theirs)
    requires Inv(w) && OneKey(w, FIRST_KEY)
    ensures var step := Revoke("a", "c", NEXT_KEY.rmk);
      && Enabled(w, step)
      && var w' := Apply(w, step);
      && w'.repo == repo && Inv(w') && "a" in w'.devices && w'.devices["a"].disk == map[p := mine]
      && CallerKey(w', "a") == Some(NEXT_KEY)
      && CloudView(w'.shared.blobs, repo) == map[p := theirs]
      && RenamedAway(w'.shared, Session(repo, "a", NEXT_KEY), w'.devices["a"], p)
  {
    hide Inv, CloudView, CloudTable, Healthy, InStep, Advances, Collapse, Rotated, CallerKey;
    var w' := Rotated(w, "a", "c", NEXT_KEY.rmk);
    InvGives(w, "a");
    RevokeKeepsInv(w, "a", "c", NEXT_KEY.rmk);
    ResealKeepsView(w, "a", "c", NEXT_KEY.rmk);
    TableMeansManifest(w.shared.blobs, repo, p);
    FounderRotates(w, repo, p, mine, theirs);
    UnreadOfBoth(w'.shared.ops, BlobName(FIRST_KEY.rmk, p));
    FounderMustNotPush(w'.shared, repo, w'.devices["a"], p, mine, theirs);
  }

  lemma FounderRotates(w: World, repo: string, p: Path, mine: Bytes, theirs: Bytes)
    requires BothPushed(w, repo, p, mine, theirs) && Manifest in w.shared.blobs
    ensures var w' := Rotated(w, "a", "c", NEXT_KEY.rmk);
      && w'.repo == repo && "a" in w'.devices && w'.devices["a"] == w.devices["a"].(key := Some(NEXT_KEY))
      && CallerKey(w', "a") == Some(NEXT_KEY)
      && w'.shared.ops == w.shared.ops + [Op("a", 1, {}, {}, true)]
  {
    hide CloudTable, CloudView;
  }

  lemma TableMeansManifest(blobs: map<Name, Blob>, repo: string, p: Path)
    requires p in CloudTable(blobs, repo)
    ensures Manifest in blobs
  {
  }

  lemma FounderMustNotPush(shared: Shared, repo: string, d: Device, p: Path, mine: Bytes, theirs: Bytes)
    requires mine != theirs
    requires CloudTable(shared.blobs, repo) == map[p := Minted(FIRST_KEY.rmk, 0, p)]
    requires CloudView(shared.blobs, repo) == map[p := theirs]
    requires Collapse(OpsSince(shared.ops, 0), "a") == Net({BlobName(FIRST_KEY.rmk, p)}, {}, false)
    requires d.disk == map[p := mine]
    requires d.state == Some(SyncState(0, 1, map[p := FileState(ContentHash(mine), BlobName(FIRST_KEY.rmk, p))]))
    ensures RenamedAway(shared, Session(repo, "a", NEXT_KEY), d, p)
  {
    hide CloudTable, CloudView, Collapse, OpsSince;
  }

  /**
   * An unsafe push is reached by a run from the founding of a repo: five steps on, the founder's push and
   * next cycle both succeed, and leave it with its own bytes while the cloud holds the newcomer's.
   */
  lemma UnsafePushIsReachable(repo: string, p: Path, mine: Bytes, theirs: Bytes, draw: nat, draw': nat)
    requires mine != theirs
    ensures var w0 := Founded(repo, "a", map[p := mine], FIRST_KEY.rmk);
      var steps := OvertakingSteps(p, theirs);
      && Legal(w0, steps)
      && var w := Run(w0, steps);
      && "a" in w.devices && !Prudent(w, RunPush("a", draw))
      && var w' := Apply(Apply(w, RunPush("a", draw)), RunCycle("a", draw'));
      && "a" in w'.devices && Lookup(w'.devices["a"].disk, p) == Some(mine)
      && Lookup(CloudView(w'.shared.blobs, repo), p) == Some(theirs)
  {
    hide Inv, CycleIn, PushOnlyIn, CloudView, Healthy, InStep, RenamedAway, Apply, BothPushed, OneKey;
    var w0 := Founded(repo, "a", map[p := mine], FIRST_KEY.rmk);
    var w1, w2 := BothJoin(repo, p, mine, theirs);
    var w3, w4 := BothPush(w2, repo, p, mine, theirs);
    RevocationMakesUnsafe(w4, repo, p, mine, theirs);
    var w := Apply(w4, Revoke("a", "c", NEXT_KEY.rmk));
    FiveSteps(w0, OvertakingSteps(p, theirs), w1, w2, w3, w4, w);
    var s := Session(repo, "a", NEXT_KEY);
    InvGives(w, "a");
    OpensWithCallerKey(w, "a");
    PushThenCycleInWorld(w, "a", NEXT_KEY, draw, draw');
    UnsafePushDiverges(w.shared, s, draw, draw', w.devices["a"], p);
    RenamedAwayIsUnsafe(w.shared, s, w.devices["a"], p);
  }

  lemma RenamedAwayIsUnsafe(shared: Shared, s: Session, d: Device, p: Path)
    requires RenamedAway(shared, s, d, p)
    ensures !SafePush(shared, s, d)
  {
    hide CloudTable, CloudView, Collapse, Changed, Deleted, Renamable;
  }

  /** Five steps that need no caution. */
  lemma FiveSteps(w0: World, steps: seq<Step>, w1: World, w2: World, w3: World, w4: World, w5: World)
    requires |steps| == 5 && forall i :: 0 <= i < 5 ==> !steps[i].RunPush?
    requires Enabled(w0, steps[0]) && w1 == Apply(w0, steps[0]) && Enabled(w1, steps[1]) && w2 == Apply(w1, steps[1])
    requires Enabled(w2, steps[2]) && w3 == Apply(w2, steps[2]) && Enabled(w3, steps[3]) && w4 == Apply(w3, steps[3])
    requires Enabled(w4, steps[4]) && w5 == Apply(w4, steps[4])
    ensures Legal(w0, steps) && Run(w0, steps) == w5
  {
    hide Enabled, Apply;
    assert Legal(w5, steps[5..]) && Run(w5, steps[5..]) == w5;
    assert steps[4..][1..] == steps[5..] && Legal(w4, steps[4..]) && Run(w4, steps[4..]) == w5;
    assert steps[3..][1..] == steps[4..] && Legal(w3, steps[3..]) && Run(w3, steps[3..]) == w5;
    assert steps[2..][1..] == steps[3..] && Legal(w2, steps[2..]) && Run(w2, steps[2..]) == w5;
    assert steps[1..][1..] == steps[2..] && Legal(w1, steps[1..]) && Run(w1, steps[1..]) == w5;
  }
}
