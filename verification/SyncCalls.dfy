/** What each call a device makes does to itself, to the cloud and to the other devices. */
module SyncCalls {
  import opened Prelude
  import opened SyncCrypto
  import opened SyncModel
  import opened SyncPhases
  import opened SyncAgreement

  /** From `shared` to `shared'` device `id` appended at most one op, and that op describes the change. */
  predicate Advances(shared: Shared, shared': Shared, repo: string, id: DeviceId) {
    var t, t' := CloudTable(shared.blobs, repo), CloudTable(shared'.blobs, repo);
    var view, view' := CloudView(shared.blobs, repo), CloudView(shared'.blobs, repo);
    || (shared'.ops == shared.ops && Describes({}, {}, t, view, t', view'))
    || (&& |shared'.ops| == |shared.ops| + 1 && shared'.ops[..|shared.ops|] == shared.ops
        && var op := shared'.ops[|shared.ops|];
        && op.device == id && Describes(op.put, op.del, t, view, t', view'))
  }

  lemma NothingAdvances(shared: Shared, repo: string, id: DeviceId)
    ensures Advances(shared, shared, repo, id)
  {
  }

  // -------------------------------------------------------------------------
  // The other devices
  // -------------------------------------------------------------------------

  lemma CollapseOneMore(ops: seq<Op>, op: Op, cursor: nat, me: DeviceId)
    requires cursor <= |ops|
    ensures Collapse(OpsSince(ops + [op], cursor), me) == Absorb(Collapse(OpsSince(ops, cursor), me), op, me)
  {
    var batch := OpsSince(ops + [op], cursor);
    assert batch == OpsSince(ops, cursor) + [op];
    assert batch[..|batch| - 1] == OpsSince(ops, cursor);
  }

  /** A described change by one device keeps every other device in step. */
  lemma AdvanceKeepsOthers(shared: Shared, shared': Shared, repo: string, id: DeviceId, other: DeviceId, d: Device)
    requires Advances(shared, shared', repo, id) && other != id
    requires InStep(shared, repo, other, d)
    ensures InStep(shared', repo, other, d)
  {
    var t, t' := CloudTable(shared.blobs, repo), CloudTable(shared'.blobs, repo);
    var view, view' := CloudView(shared.blobs, repo), CloudView(shared'.blobs, repo);
    var n := Pending(shared, other, d);
    if shared'.ops == shared.ops && Describes({}, {}, t, view, t', view') {
      DescribedChangeIsTracked(RecordsOf(d).files, {}, {}, n.put, n.del, t, view, t', view');
      assert n.put + {} - {} == n.put && n.del - {} + {} == n.del;
    } else {
      var op := shared'.ops[|shared.ops|];
      assert shared'.ops == shared.ops + [op];
      CollapseOneMore(shared.ops, op, RecordsOf(d).cursor, other);
      DescribedChangeIsTracked(RecordsOf(d).files, op.put, op.del, n.put, n.del, t, view, t', view');
    }
  }

  /** A device that agrees with the cloud and has read everything but its own op is in step. */
  lemma SyncedIsInStep(shared: Shared, shared': Shared, repo: string, id: DeviceId, d: Device)
    requires Advances(shared, shared', repo, id)
    requires d.state.Some? && d.state.value.cursor == |shared.ops|
    requires Synced(d.disk, d.state.value.files, CloudTable(shared'.blobs, repo), CloudView(shared'.blobs, repo))
    ensures InStep(shared', repo, id, d)
  {
    if shared'.ops != shared.ops {
      var op := shared'.ops[|shared.ops|];
      assert shared'.ops == shared.ops + [op];
      CollapseOneMore(shared.ops, op, |shared.ops|, id);
    }
  }

  // -------------------------------------------------------------------------
  // Pushes
  // -------------------------------------------------------------------------

  /** Any successful push that finds the right table advances the cloud and keeps it healthy. */
  lemma PushAdvances(shared: Shared, s: Session, draw: nat, l: Local, generation: int, cached: Option<Table>)
    requires Healthy(shared, s.repo)
    requires var t := CloudTable(shared.blobs, s.repo);
      && FetchOrEmpty(shared.blobs, s) == Ok(t) && (cached.None? || cached == Some(t))
    ensures Push(shared, s, draw, l, generation, cached).Ok?
    ensures var shared' := Push(shared, s, draw, l, generation, cached).value.shared;
      && Advances(shared, shared', s.repo, s.device)
      && OpensManifest(shared'.blobs, s.key.rmk, s.repo)
      && (Manifest in shared.blobs ==> Manifest in shared'.blobs)
      && Healthy(shared', s.repo)
  {
    hide Push, PushTable, CloudTable, CloudView, View, Healthy, Advances, FetchOrEmpty, OpensManifest, PushNeeded;
    var t := CloudTable(shared.blobs, s.repo);
    HealthyParts(shared, s.repo);
    if PushNeeded(l, generation, s) {
      PushReadable(t, shared, s, draw, l, generation);
      PushTableAdvances(t, shared, s, draw, l, generation);
      PushTableHealthy(t, shared, s, draw, l, generation);
      PushNeededIsTable(shared, s, draw, l, generation, cached, t);
    } else {
      NothingNeededIsIdle(shared, s, draw, l, generation, cached);
      NothingAdvances(shared, s.repo, s.device);
      FetchesWhenItOpens(shared.blobs, s);
    }
  }

  /** The op log after the closing half of a push. */
  lemma FinishOps(t: Table, w: Work, ops: seq<Op>, s: Session, draw: nat, l: Local, generation: int)
    requires Finish(t, w, ops, s, draw, l, generation).Ok?
    ensures var stale := Rekeying(w.table, generation, s);
      var put, del := PutNames(t, s, draw, l, stale), DelNames(t, w, l, stale);
      Finish(t, w, ops, s, draw, l, generation).value.shared.ops ==
        if put != {} || del != {} then ops + [Op(s.device, 1, put, del, ManifestDirty(t, l, stale))] else ops
  {
  }

  lemma AdvancesBy(shared: Shared, shared': Shared, repo: string, id: DeviceId, put: set<Name>, del: set<Name>,
                   dirty: bool)
    requires shared'.ops == if put != {} || del != {} then shared.ops + [Op(id, 1, put, del, dirty)] else shared.ops
    requires Describes(put, del, CloudTable(shared.blobs, repo), CloudView(shared.blobs, repo),
                       CloudTable(shared'.blobs, repo), CloudView(shared'.blobs, repo))
    ensures Advances(shared, shared', repo, id)
  {
  }

  lemma PushTableAdvances(t: Table, shared: Shared, s: Session, draw: nat, l: Local, generation: int)
    requires FetchOrEmpty(shared.blobs, s) == Ok(t)
    requires PushTable(t, shared, s, draw, l, generation).Ok?
    ensures Advances(shared, PushTable(t, shared, s, draw, l, generation).value.shared, s.repo, s.device)
  {
    FetchedTable(shared.blobs, s);
    var w := PushedContent(t, shared.blobs, s, draw, l);
    var stale := Rekeying(w.table, generation, s);
    var shared' := PushTable(t, shared, s, draw, l, generation).value.shared;
    PushIsDescribed(t, shared, s, draw, l, generation);
    PushManifestStays(t, shared, s, draw, l, generation);
    FinishOps(t, w, shared.ops, s, draw, l, generation);
    AdvancesBy(shared, shared', s.repo, s.device, PutNames(t, s, draw, l, stale), DelNames(t, w, l, stale),
               ManifestDirty(t, l, stale));
  }

  /** After a push every row of the new table decrypts. */
  lemma PushIntact(t: Table, shared: Shared, s: Session, draw: nat, l: Local, generation: int)
    requires Intact(shared.blobs, s.repo, t) && FetchOrEmpty(shared.blobs, s) == Ok(t)
    requires PushTable(t, shared, s, draw, l, generation).Ok?
    ensures Intact(PushTable(t, shared, s, draw, l, generation).value.shared.blobs, s.repo,
                   PushedTable(t, s, draw, l, generation))
  {
    var blobs' := PushTable(t, shared, s, draw, l, generation).value.shared.blobs;
    var t' := PushedTable(t, s, draw, l, generation);
    forall p | p in t' ensures Read(blobs', s.repo, p, t'[p]).Some? {
      PushView(t, shared, s, draw, l, generation, p);
      PushEntry(t, s, draw, l, generation, p);
    }
  }

  lemma PushTableHealthy(t: Table, shared: Shared, s: Session, draw: nat, l: Local, generation: int)
    requires Healthy(shared, s.repo) && FetchOrEmpty(shared.blobs, s) == Ok(t)
    requires PushTable(t, shared, s, draw, l, generation).Ok?
    ensures var shared' := PushTable(t, shared, s, draw, l, generation).value.shared;
      && OpensManifest(shared'.blobs, s.key.rmk, s.repo)
      && (Manifest in shared.blobs ==> Manifest in shared'.blobs)
      && Healthy(shared', s.repo)
  {
    FetchedTable(shared.blobs, s);
    PushManifestStays(t, shared, s, draw, l, generation);
    PushOrphans(t, shared, s, draw, l, generation);
    PushIntact(t, shared, s, draw, l, generation);
    var shared' := PushTable(t, shared, s, draw, l, generation).value.shared;
    FinishOpsReadable(t, PushedContent(t, shared.blobs, s, draw, l), shared.ops, s, draw, l, generation);
    HealthyBy(shared', s.repo, PushedTable(t, s, draw, l, generation), s.key.rmk);
  }

  lemma FinishOpsReadable(t: Table, w: Work, ops: seq<Op>, s: Session, draw: nat, l: Local, generation: int)
    requires ReadableOps(ops) && Finish(t, w, ops, s, draw, l, generation).Ok?
    ensures ReadableOps(Finish(t, w, ops, s, draw, l, generation).value.shared.ops)
  {
    hide Finish, Rekeying, PutNames, DelNames, ManifestDirty;
    FinishOps(t, w, ops, s, draw, l, generation);
  }

  lemma HealthyBy(shared: Shared, repo: string, t: Table, rmk: Rmk)
    requires CloudTable(shared.blobs, repo) == t && OpensManifest(shared.blobs, rmk, repo)
    requires Intact(shared.blobs, repo, t) && NoOrphans(shared.blobs, t) && ReadableOps(shared.ops)
    ensures Healthy(shared, repo)
  {
  }

  lemma PushManifestStays(t: Table, shared: Shared, s: Session, draw: nat, l: Local, generation: int)
    requires FetchOrEmpty(shared.blobs, s) == Ok(t)
    requires PushTable(t, shared, s, draw, l, generation).Ok?
    ensures var blobs' := PushTable(t, shared, s, draw, l, generation).value.shared.blobs;
      && CloudTable(blobs', s.repo) == PushedTable(t, s, draw, l, generation)
      && OpensManifest(blobs', s.key.rmk, s.repo)
      && (Manifest in shared.blobs ==> Manifest in blobs')
  {
    ContentManifest(t, shared.blobs, s, draw, l);
    FinishManifest(t, PushedContent(t, shared.blobs, s, draw, l), shared.blobs, shared.ops, s, draw, l, generation);
  }

  // -------------------------------------------------------------------------
  // Cycles
  // -------------------------------------------------------------------------

  /** Adopting the cloud's view records every row exactly and leaves nothing unread. */
  lemma AdoptTracks(shared: Shared, s: Session, disk: map<Path, Bytes>)
    requires Healthy(shared, s.repo) && OpensManifest(shared.blobs, s.key.rmk, s.repo)
    ensures Adopt(shared, s, disk).Ok?
    ensures var start := Adopt(shared, s, disk).value;
      && start.disk == CloudView(shared.blobs, s.repo) + disk
      && start.state.cursor == |shared.ops|
      && start.state.generation == s.key.generation
      && Tracks(start.state.files, CloudTable(shared.blobs, s.repo), CloudView(shared.blobs, s.repo), {}, {})
  {
    FetchedTable(shared.blobs, s);
    assert CloudView(shared.blobs, s.repo).Keys == CloudTable(shared.blobs, s.repo).Keys;
  }

  /** A cycle starts from records that are in step: the saved ones, or the adopted view. */
  lemma StartTracks(shared: Shared, s: Session, d: Device)
    requires Healthy(shared, s.repo) && OpensManifest(shared.blobs, s.key.rmk, s.repo)
    requires d.state.Some? ==> InStep(shared, s.repo, s.device, d)
    ensures StartState(shared, s, d).Ok?
    ensures var start := StartState(shared, s, d).value;
      var n := Collapse(OpsSince(shared.ops, start.state.cursor), s.device);
      && start.state.cursor <= |shared.ops|
      && Tracks(start.state.files, CloudTable(shared.blobs, s.repo), CloudView(shared.blobs, s.repo), n.put, n.del)
  {
    if d.state.None? {
      AdoptTracks(shared, s, d.disk);
    }
  }

  /**
   * One cycle of a device that is in step with a healthy cloud, holding a key that opens the
   * manifest: it succeeds, ends with disk, records and cloud in agreement, and its op tells the
   * other devices exactly what changed.
   */
  lemma CycleSyncs(shared: Shared, s: Session, draw: nat, d: Device)
    requires Healthy(shared, s.repo) && OpensManifest(shared.blobs, s.key.rmk, s.repo)
    requires d.state.Some? ==> InStep(shared, s.repo, s.device, d)
    ensures var o := CycleIn(shared, s, draw, d);
      && o.Done?
      && o.device.state.Some?
      && Synced(o.device.disk, o.device.state.value.files,
                CloudTable(o.shared.blobs, s.repo), CloudView(o.shared.blobs, s.repo))
      && o.device.state.value.cursor == |shared.ops|
      && o.device.state.value.generation == s.key.generation
      && o.device.key == Some(s.key)
      && Advances(shared, o.shared, s.repo, s.device)
      && Healthy(o.shared, s.repo)
      && OpensManifest(o.shared.blobs, s.key.rmk, s.repo)
      && (Manifest in shared.blobs ==> Manifest in o.shared.blobs)
  {
    StartTracks(shared, s, d);
    var start := StartState(shared, s, d).value;
    PullReadies(shared, s, start.disk, start.state);
    var pulled := Pull(shared, s, start.disk, start.state).value;
    var l := Local(pulled.disk, pulled.state.files);
    PushSettles(shared, s, draw, l, pulled.state.generation, pulled.cached);
    PushAdvances(shared, s, draw, l, pulled.state.generation, pulled.cached);
  }

  // -------------------------------------------------------------------------
  // The manual verbs
  // -------------------------------------------------------------------------

  /**
   * Re-keying before reading is harmless: no row that this push would rename, and that the device has
   * not changed itself, holds an unread foreign upload differing from what the device recorded.
   */
  predicate NoUnreadRename(t: Table, view: map<Path, Bytes>, s: Session, l: Local, generation: int, n: Net) {
    forall p :: p in Stale(t, s.key.rmk) && MerelyRenamed(t, s, l, generation, p) ==> Renamable(t, view, s, l, n, p)
  }

  predicate Renamable(t: Table, view: map<Path, Bytes>, s: Session, l: Local, n: Net, p: Path)
    requires p in t
  {
    t[p].blob in n.put && BlobName(s.key.rmk, p) !in n.put ==>
      p in view && p in l.files && l.files[p].hash == ContentHash(view[p])
  }

  predicate RowTracked(files: Files, t: Table, view: map<Path, Bytes>, n: Net, p: Path) {
    && (p in t ==> t[p].blob in n.put || RecordsRow(files, t, view, p))
    && (p in files ==> files[p].blob in n.del || (p in t && files[p].blob == t[p].blob))
  }

  /** The push renames row `p` without having uploaded or dropped it. */
  predicate MerelyRenamed(t: Table, s: Session, l: Local, generation: int, p: Path) {
    Behind(generation, s) && p in Stale(t, s.key.rmk) && p !in Changed(l) && p !in Deleted(l)
  }

  /** Row `p` of table, view and records after a push, given the row before it. */
  predicate RowAfter(t: Table, view: map<Path, Bytes>, s: Session, draw: nat, l: Local, generation: int,
                     t': Table, view': map<Path, Bytes>, files': Files, p: Path)
  {
    && (p in t' <==> (p in t || p in Changed(l)) && p !in Deleted(l))
    && (p in t' ==> t'[p] == if p !in t || (Behind(generation, s) && t[p].blob != BlobName(s.key.rmk, p))
                             then Minted(s.key.rmk, draw, p) else t[p])
    && (Lookup(view', p) == if p in Deleted(l) then None else if p in Changed(l) then Some(l.disk[p])
        else Lookup(view, p))
    && (p in Changed(l) ==> p in t' && Lookup(files', p) == Some(FileState(ContentHash(l.disk[p]), t'[p].blob)))
    && (p !in Changed(l) && p in l.files && p in l.disk ==>
          Lookup(files', p) == Some(FileState(l.files[p].hash,
                                              if p in t && Behind(generation, s)
                                                && t[p].blob != BlobName(s.key.rmk, p)
                                              then BlobName(s.key.rmk, p) else l.files[p].blob)))
    && (p !in Changed(l) && !(p in l.files && p in l.disk) ==> p !in files')
  }

  lemma PushRowAfter(t: Table, shared: Shared, s: Session, draw: nat, l: Local, generation: int, p: Path)
    requires FetchOrEmpty(shared.blobs, s) == Ok(t)
    requires PushTable(t, shared, s, draw, l, generation).Ok?
    ensures var r := PushTable(t, shared, s, draw, l, generation).value;
      RowAfter(t, View(shared.blobs, s.repo, t), s, draw, l, generation,
               CloudTable(r.shared.blobs, s.repo), CloudView(r.shared.blobs, s.repo), r.files, p)
  {
    PushView(t, shared, s, draw, l, generation, p);
    PushRecord(t, shared, s, draw, l, generation, p);
    PushEntry(t, s, draw, l, generation, p);
  }

  lemma RowTrackedAfter(t: Table, view: map<Path, Bytes>, s: Session, draw: nat, l: Local, generation: int,
                        t': Table, view': map<Path, Bytes>, files': Files, n: Net, p: Path)
    requires view.Keys == t.Keys && RowTracked(l.files, t, view, n, p)
    requires RowAfter(t, view, s, draw, l, generation, t', view', files', p)
    ensures RowTracked(files', t', view', n, p) <==>
      (MerelyRenamed(t, s, l, generation, p) ==> Renamable(t, view, s, l, n, p))
  {
  }

  lemma TracksByRows(files: Files, t: Table, view: map<Path, Bytes>, n: Net)
    ensures Tracks(files, t, view, n.put, n.del) <==> forall p :: RowTracked(files, t, view, n, p)
  {
    if Tracks(files, t, view, n.put, n.del) {
      forall p ensures RowTracked(files, t, view, n, p) {
      }
    }
    if forall p :: RowTracked(files, t, view, n, p) {
      forall p | p in t ensures t[p].blob in n.put || RecordsRow(files, t, view, p) {
        assert RowTracked(files, t, view, n, p);
      }
      forall p | p in files ensures files[p].blob in n.del || (p in t && files[p].blob == t[p].blob) {
        assert RowTracked(files, t, view, n, p);
      }
    }
  }

  /** Row by row, a push keeps its own device tracked exactly when it renames no unread upload away. */
  lemma TracksAfter(t: Table, view: map<Path, Bytes>, s: Session, draw: nat, l: Local, generation: int,
                    t': Table, view': map<Path, Bytes>, files': Files, n: Net)
    requires view.Keys == t.Keys && Tracks(l.files, t, view, n.put, n.del)
    requires forall p :: RowAfter(t, view, s, draw, l, generation, t', view', files', p)
    ensures Tracks(files', t', view', n.put, n.del) <==> NoUnreadRename(t, view, s, l, generation, n)
  {
    TracksByRows(l.files, t, view, n);
    TracksByRows(files', t', view', n);
    forall p
      ensures RowTracked(files', t', view', n, p) <==>
        (MerelyRenamed(t, s, l, generation, p) ==> Renamable(t, view, s, l, n, p))
    {
      assert RowTracked(l.files, t, view, n, p);
      RowTrackedAfter(t, view, s, draw, l, generation, t', view', files', n, p);
    }
    RenamesByRow(files', t', view', t, view, s, l, generation, n);
  }

  lemma RenamesByRow(files: Files, t': Table, view': map<Path, Bytes>,
                     t: Table, view: map<Path, Bytes>, s: Session, l: Local, generation: int, n: Net)
    requires forall p ::
      RowTracked(files, t', view', n, p) <==> (MerelyRenamed(t, s, l, generation, p) ==> Renamable(t, view, s, l, n, p))
    ensures (forall p :: RowTracked(files, t', view', n, p)) <==> NoUnreadRename(t, view, s, l, generation, n)
  {
    if forall p :: RowTracked(files, t', view', n, p) {
      forall p | MerelyRenamed(t, s, l, generation, p) ensures Renamable(t, view, s, l, n, p) {
        assert RowTracked(files, t', view', n, p);
      }
    }
  }

  lemma PushTableKeepsTracks(t: Table, shared: Shared, s: Session, draw: nat, l: Local, generation: int, n: Net)
    requires Healthy(shared, s.repo) && FetchOrEmpty(shared.blobs, s) == Ok(t)
    requires Tracks(l.files, t, View(shared.blobs, s.repo, t), n.put, n.del)
    requires PushTable(t, shared, s, draw, l, generation).Ok?
    ensures var r := PushTable(t, shared, s, draw, l, generation).value;
      Tracks(r.files, CloudTable(r.shared.blobs, s.repo), CloudView(r.shared.blobs, s.repo), n.put, n.del) <==>
        NoUnreadRename(t, View(shared.blobs, s.repo, t), s, l, generation, n)
  {
    hide PushTable, CloudTable, CloudView, RowAfter, Tracks, FetchOrEmpty, NoUnreadRename;
    var r := PushTable(t, shared, s, draw, l, generation).value;
    HealthyParts(shared, s.repo);
    FetchedTable(shared.blobs, s);
    IntactView(shared.blobs, s.repo, t);
    forall p {
      PushRowAfter(t, shared, s, draw, l, generation, p);
    }
    TracksAfter(t, View(shared.blobs, s.repo, t), s, draw, l, generation,
                CloudTable(r.shared.blobs, s.repo), CloudView(r.shared.blobs, s.repo), r.files, n);
  }

  lemma PushKeepsTracks(shared: Shared, s: Session, draw: nat, l: Local, generation: int, n: Net)
    requires Healthy(shared, s.repo) && OpensManifest(shared.blobs, s.key.rmk, s.repo)
    requires Tracks(l.files, CloudTable(shared.blobs, s.repo), CloudView(shared.blobs, s.repo), n.put, n.del)
    ensures Push(shared, s, draw, l, generation, None).Ok?
    ensures var r := Push(shared, s, draw, l, generation, None).value;
      Tracks(r.files, CloudTable(r.shared.blobs, s.repo), CloudView(r.shared.blobs, s.repo), n.put, n.del) <==>
        NoUnreadRename(CloudTable(shared.blobs, s.repo), CloudView(shared.blobs, s.repo), s, l, generation, n)
  {
    var t := CloudTable(shared.blobs, s.repo);
    FetchedTable(shared.blobs, s);
    if PushNeeded(l, generation, s) {
      PushReadable(t, shared, s, draw, l, generation);
      PushTableKeepsTracks(t, shared, s, draw, l, generation, n);
      PushNeededIsTable(shared, s, draw, l, generation, None, t);
    }
  }

  /** A device's own op leaves what it has still to read unchanged. */
  lemma OwnOpIsSkipped(shared: Shared, shared': Shared, repo: string, id: DeviceId, cursor: nat)
    requires cursor <= |shared.ops| && Advances(shared, shared', repo, id)
    ensures Collapse(OpsSince(shared'.ops, cursor), id) == Collapse(OpsSince(shared.ops, cursor), id)
  {
    if shared'.ops != shared.ops {
      var op := shared'.ops[|shared.ops|];
      assert shared'.ops == shared.ops + [op];
      CollapseOneMore(shared.ops, op, cursor, id);
    }
  }

  /** The exact condition under which a manual push keeps its own device in step with the cloud. */
  predicate SafePush(shared: Shared, s: Session, d: Device) {
    var state := SavedOr(d, s.key.generation);
    NoUnreadRename(CloudTable(shared.blobs, s.repo), CloudView(shared.blobs, s.repo), s,
                   Local(d.disk, state.files), state.generation, Pending(shared, s.device, d))
  }

  /** A manual push always succeeds for everyone else; for its own device exactly when it is safe. */
  lemma PushOnlyStaysInStep(shared: Shared, s: Session, draw: nat, d: Device)
    requires Healthy(shared, s.repo) && OpensManifest(shared.blobs, s.key.rmk, s.repo)
    requires InStep(shared, s.repo, s.device, d)
    ensures var o := PushOnlyIn(shared, s, draw, d);
      && o.Done? && o.device.disk == d.disk && o.device.key == Some(s.key)
      && (InStep(o.shared, s.repo, s.device, o.device) <==> SafePush(shared, s, d))
      && Advances(shared, o.shared, s.repo, s.device)
      && Healthy(o.shared, s.repo)
      && OpensManifest(o.shared.blobs, s.key.rmk, s.repo)
      && (Manifest in shared.blobs ==> Manifest in o.shared.blobs)
  {
    var state := SavedOr(d, s.key.generation);
    var l := Local(d.disk, state.files);
    var n := Pending(shared, s.device, d);
    FetchedTable(shared.blobs, s);
    PushKeepsTracks(shared, s, draw, l, state.generation, n);
    PushAdvances(shared, s, draw, l, state.generation, None);
    var r := Push(shared, s, draw, l, state.generation, None).value;
    OwnOpIsSkipped(shared, r.shared, s.repo, s.device, state.cursor);
  }

  lemma PullAllStaysInStep(shared: Shared, s: Session, d: Device)
    requires Healthy(shared, s.repo) && OpensManifest(shared.blobs, s.key.rmk, s.repo)
    requires InStep(shared, s.repo, s.device, d)
    ensures var o := PullAllIn(shared, s, d);
      && (o.Done? <==> Manifest in shared.blobs)
      && (o.Done? ==>
            && o.shared == shared && o.device.key == Some(s.key)
            && o.device.disk == d.disk + CloudView(shared.blobs, s.repo)
            && InStep(shared, s.repo, s.device, o.device))
  {
    FetchedTable(shared.blobs, s);
  }
}
