/** A cycle as a three-way merge of disk, records and cloud, path by path; what that says of deletions and reports. */
module SyncMerge {
  import opened Prelude
  import opened SyncCrypto
  import opened SyncModel
  import opened SyncPhases
  import opened SyncAgreement
  import opened SyncCalls
  import opened SyncSafety
  import opened SyncWorld
  import opened SyncConvergence

  // -------------------------------------------------------------------------
  // The merge
  // -------------------------------------------------------------------------

  /** The user wrote the file, or changed it, since the device last agreed with the cloud. */
  predicate EditedHere(l: Local, p: Path) {
    p in l.disk && (p in l.files ==> l.files[p].hash != ContentHash(l.disk[p]))
  }

  /** The user deleted the file since then. */
  predicate DeletedHere(l: Local, p: Path) {
    p in l.files && p !in l.disk
  }

  /** Something the device has not read yet announces the row `p` now has. */
  predicate Renewed(t: Table, n: Net, p: Path) {
    p in t && t[p].blob in n.put
  }

  /**
   * What becomes of a path: a local edit wins; a local deletion stands unless the cloud has a version the
   * device had not seen; otherwise the cloud decides.
   */
  function Merged(l: Local, t: Table, view: map<Path, Bytes>, n: Net, p: Path): Option<Bytes> {
    if EditedHere(l, p) then Some(l.disk[p])
    else if DeletedHere(l, p) && !Renewed(t, n, p) then None
    else Lookup(view, p)
  }

  lemma MergedSlot(l: Local, t: Table, view: map<Path, Bytes>, n: Net, p: Path)
    requires view.Keys == t.Keys && RowTracked(l.files, t, view, n, p)
    ensures PullSlot(p, SlotAt(l, p), t, view, n).file == Merged(l, t, view, n, p)
  {
  }

  lemma NoNewsNoChange(p: Path, slot: Slot, t: Table, view: map<Path, Bytes>)
    ensures PullSlot(p, slot, t, view, NO_NEWS) == slot
  {
  }

  /** A pull by a device in step merges every path. */
  lemma PullMerges(shared: Shared, s: Session, disk: map<Path, Bytes>, state: SyncState, p: Path)
    requires Healthy(shared, s.repo) && OpensManifest(shared.blobs, s.key.rmk, s.repo)
    requires var n := Collapse(OpsSince(shared.ops, state.cursor), s.device);
      Tracks(state.files, CloudTable(shared.blobs, s.repo), CloudView(shared.blobs, s.repo), n.put, n.del)
    requires Pull(shared, s, disk, state).Ok?
    ensures var n := Collapse(OpsSince(shared.ops, state.cursor), s.device);
      Lookup(Pull(shared, s, disk, state).value.disk, p) ==
        Merged(Local(disk, state.files), CloudTable(shared.blobs, s.repo), CloudView(shared.blobs, s.repo), n, p)
  {
    hide PullSlot, Merged, Tracks, RowTracked, View, CloudView, CloudTable, Healthy, FetchOrEmpty, OpensManifest;
    var t, view := CloudTable(shared.blobs, s.repo), CloudView(shared.blobs, s.repo);
    var batch := OpsSince(shared.ops, state.cursor);
    var n := Collapse(batch, s.device);
    var l := Local(disk, state.files);
    HealthyParts(shared, s.repo);
    IntactView(shared.blobs, s.repo, t);
    CloudViewIs(shared.blobs, s.repo);
    FetchesWhenItOpens(shared.blobs, s);
    FetchedTable(shared.blobs, s);
    TracksByRows(state.files, t, view, n);
    assert RowTracked(state.files, t, view, n, p);
    MergedSlot(l, t, view, n, p);
    NoNewsNoChange(p, SlotAt(l, p), t, view);
  }

  lemma CloudViewIs(blobs: map<Name, Blob>, repo: string)
    ensures CloudView(blobs, repo) == View(blobs, repo, CloudTable(blobs, repo))
  {
  }

  /** What a device's next cycle makes of a path; a device without records has nothing to call deleted or known. */
  function NextOf(shared: Shared, repo: string, id: DeviceId, d: Device, p: Path): Option<Bytes> {
    var t, view := CloudTable(shared.blobs, repo), CloudView(shared.blobs, repo);
    if d.state.Some? then Merged(Local(d.disk, d.state.value.files), t, view, Pending(shared, id, d), p)
    else if p in d.disk then Some(d.disk[p])
    else Lookup(view, p)
  }

  lemma CycleEndsWithPull(shared: Shared, s: Session, draw: nat, d: Device)
    requires d.state.Some? && CycleIn(shared, s, draw, d).Done?
    ensures Pull(shared, s, d.disk, d.state.value).Ok?
    ensures var pulled := Pull(shared, s, d.disk, d.state.value).value;
      CycleIn(shared, s, draw, d).device.disk == pulled.disk
  {
    hide Pull, Push;
  }

  /** A cycle of a device in step ends with every path merged, on the disk and in the cloud alike. */
  lemma CycleMerges(shared: Shared, s: Session, draw: nat, d: Device, p: Path)
    requires Healthy(shared, s.repo) && OpensManifest(shared.blobs, s.key.rmk, s.repo)
    requires d.state.Some? ==> InStep(shared, s.repo, s.device, d)
    ensures var o := CycleIn(shared, s, draw, d);
      && o.Done?
      && Lookup(o.device.disk, p) == NextOf(shared, s.repo, s.device, d, p)
      && Lookup(CloudView(o.shared.blobs, s.repo), p) == NextOf(shared, s.repo, s.device, d, p)
  {
    hide CycleIn, Pull, Merged, Healthy, OpensManifest, CloudTable, CloudView, Tracks, Advances;
    CycleSyncs(shared, s, draw, d);
    if d.state.Some? {
      CycleEndsWithPull(shared, s, draw, d);
      PullMerges(shared, s, d.disk, d.state.value, p);
    } else {
      FirstCycleMerges(shared, s, draw, d);
    }
  }

  /** After any run from the founding of a repo, a cycle that is not refused merges every path. */
  lemma CycleAfterAnyRunMerges(repo: string, founder: DeviceId, disk: map<Path, Bytes>, rmk: Rmk, steps: seq<Step>,
                               id: DeviceId, draw: nat, p: Path)
    requires Legal(Founded(repo, founder, disk, rmk), steps)
    requires id in Run(Founded(repo, founder, disk, rmk), steps).devices
    requires CallerKey(Run(Founded(repo, founder, disk, rmk), steps), id).Some?
    ensures var w := Run(Founded(repo, founder, disk, rmk), steps);
      var w' := Apply(w, RunCycle(id, draw));
      && id in w'.devices
      && Lookup(w'.devices[id].disk, p) == NextOf(w.shared, w.repo, id, w.devices[id], p)
      && Lookup(CloudView(w'.shared.blobs, w.repo), p) == NextOf(w.shared, w.repo, id, w.devices[id], p)
  {
    hide Inv, Legal, Run;
    FoundedIsConsistent(repo, founder, disk, rmk);
    RunKeepsInv(Founded(repo, founder, disk, rmk), steps);
    TurnMerges(Run(Founded(repo, founder, disk, rmk), steps), id, draw, p);
  }

  lemma TurnMerges(w: World, id: DeviceId, draw: nat, p: Path)
    requires Inv(w) && id in w.devices && CallerKey(w, id).Some?
    ensures var w' := Apply(w, RunCycle(id, draw));
      && id in w'.devices && w'.repo == w.repo && w'.wraps == w.wraps && w'.devices.Keys == w.devices.Keys
      && (forall e :: e in w.devices && e != id ==> w'.devices[e] == w.devices[e])
      && Lookup(w'.devices[id].disk, p) == NextOf(w.shared, w.repo, id, w.devices[id], p)
      && Lookup(CloudView(w'.shared.blobs, w.repo), p) == NextOf(w.shared, w.repo, id, w.devices[id], p)
  {
    hide Inv, CallerKey, CycleIn, CloudView, NextOf, Healthy, InStep, OpensManifest, CycleOf;
    InvGives(w, id);
    OpensWithCallerKey(w, id);
    CycleUsesCallerKey(w, id, draw, CallerKey(w, id).value);
    CycleMerges(w.shared, Session(w.repo, id, CallerKey(w, id).value), draw, w.devices[id], p);
  }

  // -------------------------------------------------------------------------
  // Deletions
  // -------------------------------------------------------------------------

  /**
   * A recorded file the user deletes is gone from the device and from the cloud after the next cycle,
   * unless the cloud has a version of it that the device had not read.
   */
  lemma DeletionIsCarriedOut(shared: Shared, s: Session, draw: nat, d: Device, p: Path)
    requires Healthy(shared, s.repo) && OpensManifest(shared.blobs, s.key.rmk, s.repo)
    requires d.state.Some? && InStep(shared, s.repo, s.device, d)
    requires p in d.state.value.files && p !in d.disk
    ensures var o := CycleIn(shared, s, draw, d);
      var unread := Renewed(CloudTable(shared.blobs, s.repo), Pending(shared, s.device, d), p);
      && o.Done?
      && (p !in o.device.disk && p !in CloudView(o.shared.blobs, s.repo) <==> !unread)
  {
    hide CycleIn, Healthy, OpensManifest, CloudTable, InStep, Pending;
    CycleMerges(shared, s, draw, d, p);
    HealthyParts(shared, s.repo);
    IntactView(shared.blobs, s.repo, CloudTable(shared.blobs, s.repo));
    CloudViewIs(shared.blobs, s.repo);
  }

  /** Erasing a file touches nothing but that. */
  lemma EraseParts(w: World, id: DeviceId, p: Path)
    requires Inv(w) && id in w.devices
    ensures var w' := Apply(w, Erase(id, p));
      && Inv(w') && w'.repo == w.repo && w'.shared == w.shared && w'.devices.Keys == w.devices.Keys
      && p !in w'.devices[id].disk && w'.devices[id].state == w.devices[id].state
      && CallerKey(w', id) == CallerKey(w, id)
      && Pending(w'.shared, id, w'.devices[id]) == Pending(w.shared, id, w.devices[id])
      && forall e :: e in w.devices && e != id ==> w'.devices[e] == w.devices[e]
  {
    hide Inv, CurrentRmk, Collapse;
    StepKeepsInv(w, Erase(id, p));
  }

  /**
   * In a running system: erase and cycle, and the file is gone from the cloud; and gone from every other
   * device that has not edited its own copy, once that has cycled too.
   */
  lemma ErasedEverywhere(repo: string, founder: DeviceId, disk: map<Path, Bytes>, rmk: Rmk, steps: seq<Step>,
                         id: DeviceId, p: Path, draw: nat, other: DeviceId, draw': nat)
    requires Legal(Founded(repo, founder, disk, rmk), steps)
    requires var w := Run(Founded(repo, founder, disk, rmk), steps);
      && id in w.devices && CallerKey(w, id).Some? && w.devices[id].state.Some? && p in w.devices[id].state.value.files
      && !Renewed(CloudTable(w.shared.blobs, w.repo), Pending(w.shared, id, w.devices[id]), p)
      && other in w.devices && other != id && w.devices[other].state.Some?
      && !EditedHere(LocalOf(w.devices[other]), p)
    ensures var w := Run(Founded(repo, founder, disk, rmk), steps);
      var w1 := Apply(Apply(w, Erase(id, p)), RunCycle(id, draw));
      && id in w1.devices && p !in w1.devices[id].disk && p !in CloudView(w1.shared.blobs, w1.repo)
      && other in w1.devices
      && (CallerKey(w1, other).Some? ==>
            var w2 := Apply(w1, RunCycle(other, draw'));
            other in w2.devices && p !in w2.devices[other].disk && p !in CloudView(w2.shared.blobs, w2.repo))
  {
    hide Inv, Legal, Run, CallerKey, CloudTable, CloudView, Pending, Renewed, Apply;
    FoundedIsConsistent(repo, founder, disk, rmk);
    RunKeepsInv(Founded(repo, founder, disk, rmk), steps);
    var w := Run(Founded(repo, founder, disk, rmk), steps);
    EraseParts(w, id, p);
    var w0 := Apply(w, Erase(id, p));
    TurnMerges(w0, id, draw, p);
    var w1 := Apply(w0, RunCycle(id, draw));
    StepKeepsInv(w0, RunCycle(id, draw));
    if CallerKey(w1, other).Some? {
      TurnMerges(w1, other, draw', p);
    }
  }

  // -------------------------------------------------------------------------
  // Reports
  // -------------------------------------------------------------------------

  /** Files that are there now, and were not there or otherwise before. */
  function Written(before: map<Path, Bytes>, after: map<Path, Bytes>): set<Path> {
    set p | p in after && Lookup(before, p) != Some(after[p])
  }

  lemma PulledSlotCounts(l: Local, t: Table, view: map<Path, Bytes>, n: Net, p: Path)
    ensures var l' := PullLocal(l, t, view, n);
      && (p in PulledPaths(l, t, view, n) <==> p in Written(l.disk, l'.disk))
      && (p in RemovedPaths(l, t, n) <==> p in l.disk && p !in l'.disk)
  {
    var l' := PullLocal(l, t, view, n);
    assert Lookup(l'.disk, p) == PullSlot(p, SlotAt(l, p), t, view, n).file;
  }

  lemma PulledCounts(l: Local, t: Table, view: map<Path, Bytes>, n: Net)
    ensures var l' := PullLocal(l, t, view, n);
      && PulledPaths(l, t, view, n) == Written(l.disk, l'.disk)
      && RemovedPaths(l, t, n) == l.disk.Keys - l'.disk.Keys
  {
    hide PullLocal, PulledPaths, RemovedPaths, Written;
    var l' := PullLocal(l, t, view, n);
    forall p
      ensures p in PulledPaths(l, t, view, n) <==> p in Written(l.disk, l'.disk)
      ensures p in RemovedPaths(l, t, n) <==> p in l.disk.Keys - l'.disk.Keys
    {
      PulledSlotCounts(l, t, view, n, p);
    }
  }

  /** A pull reports as many files as it wrote, and as many as it deleted. */
  lemma PullReportIsTrue(shared: Shared, s: Session, disk: map<Path, Bytes>, state: SyncState)
    requires Pull(shared, s, disk, state).Ok?
    ensures var r := Pull(shared, s, disk, state).value;
      r.report == Report(|Written(disk, r.disk)|, 0, |disk.Keys - r.disk.Keys|, 0)
  {
    hide PullLocal, PulledPaths, RemovedPaths, Written, View, FetchOrEmpty, Collapse, Fetchable;
    var n := Collapse(OpsSince(shared.ops, state.cursor), s.device);
    NothingWritten(disk);
    if OpsSince(shared.ops, state.cursor) != [] && n != NO_NEWS {
      var t := FetchOrEmpty(shared.blobs, s).value;
      PulledCounts(Local(disk, state.files), t, View(shared.blobs, s.repo, t), n);
    }
  }

  lemma NothingWritten(disk: map<Path, Bytes>)
    ensures Written(disk, disk) == {} && disk.Keys - disk.Keys == {}
  {
  }

  /** So does a first contact. */
  lemma AdoptReportIsTrue(shared: Shared, s: Session, disk: map<Path, Bytes>)
    requires Adopt(shared, s, disk).Ok?
    ensures var r := Adopt(shared, s, disk).value;
      && r.report == Report(|Written(disk, r.disk)|, 0, |disk.Keys - r.disk.Keys|, 0)
      && r.state.cursor == |shared.ops|
  {
    var view := View(shared.blobs, s.repo, FetchOrEmpty(shared.blobs, s).value);
    assert Written(disk, view + disk) == view.Keys - disk.Keys;
    assert disk.Keys - (view + disk).Keys == {};
  }

  lemma NamesOfCount(t: Table, paths: set<Path>)
    requires paths <= t.Keys
    ensures |Names(t, paths)| == |paths|
    decreases paths
  {
    if paths == {} {
      assert Names(t, paths) == {};
    } else {
      var p :| p in paths;
      NamesOfCount(t, paths - {p});
      assert Names(t, paths) == Names(t, paths - {p}) + {t[p].blob};
      assert t[p].blob !in Names(t, paths - {p});
    }
  }

  lemma DerivedCount(rmk: Rmk, paths: set<Path>)
    ensures |DerivedNames(rmk, paths)| == |paths|
    decreases paths
  {
    if paths == {} {
      assert DerivedNames(rmk, paths) == {};
    } else {
      var p :| p in paths;
      DerivedCount(rmk, paths - {p});
      assert DerivedNames(rmk, paths) == DerivedNames(rmk, paths - {p}) + {BlobName(rmk, p)};
      assert BlobName(rmk, p) !in DerivedNames(rmk, paths - {p});
    }
  }

  lemma DisjointCount<T>(a: set<T>, b: set<T>)
    requires a !! b
    ensures |a + b| == |a| + |b|
  {
    assert a + b - b == a;
  }

  /** Every upload and every re-key announces a name of its own. */
  lemma PutNamesCount(t: Table, s: Session, draw: nat, l: Local, generation: int)
    ensures var stale := Rekeying(ContentTable(t, s, draw, l), generation, s);
      |PutNames(t, s, draw, l, stale)| == |Changed(l)| + |stale|
  {
    hide ContentTable, Changed;
    var stale := Rekeying(ContentTable(t, s, draw, l), generation, s);
    var up := UploadedTable(t, s, draw, Changed(l));
    NamesOfCount(up, Changed(l));
    DerivedCount(s.key.rmk, stale);
    StaleNamesDiffer(t, s, draw, l, generation);
    DisjointCount(Names(up, Changed(l)), DerivedNames(s.key.rmk, stale));
  }

  lemma StaleNamesDiffer(t: Table, s: Session, draw: nat, l: Local, generation: int)
    ensures var stale := Rekeying(ContentTable(t, s, draw, l), generation, s);
      Names(UploadedTable(t, s, draw, Changed(l)), Changed(l)) !! DerivedNames(s.key.rmk, stale)
  {
    hide Changed, Deleted;
  }

  /** What an op log gained by a push. */
  function NewOps(before: seq<Op>, after: seq<Op>): seq<Op> {
    if |before| <= |after| then after[|before|..] else []
  }

  function PutsIn(ops: seq<Op>): nat {
    if ops == [] then 0 else |ops[0].put| + PutsIn(ops[1..])
  }

  lemma PutsOfOne(ops: seq<Op>, op: Op)
    ensures PutsIn(NewOps(ops, ops + [op])) == |op.put| && PutsIn(NewOps(ops, ops)) == 0
  {
    assert NewOps(ops, ops + [op]) == [op] && [op][1..] == [] && NewOps(ops, ops) == [];
  }

  lemma FinishReport(t: Table, w: Work, ops: seq<Op>, s: Session, draw: nat, l: Local, generation: int)
    requires Finish(t, w, ops, s, draw, l, generation).Ok?
    ensures Finish(t, w, ops, s, draw, l, generation).value.report ==
      Report(0, |Changed(l)| + |Rekeying(w.table, generation, s)|, 0, |Deleted(l) * t.Keys|)
  {
  }

  lemma DroppedRows(t: Table, s: Session, draw: nat, l: Local, generation: int)
    ensures t.Keys - PushedTable(t, s, draw, l, generation).Keys == Deleted(l) * t.Keys
  {
    hide PushedTable, Changed, Deleted;
    forall p ensures p in t.Keys - PushedTable(t, s, draw, l, generation).Keys <==> p in Deleted(l) * t.Keys {
      PushEntry(t, s, draw, l, generation, p);
    }
  }

  /** A push reports as many uploads as its op announces names, and as many tombstones as the manifest lost rows. */
  lemma TableReportIsTrue(t: Table, shared: Shared, s: Session, draw: nat, l: Local, generation: int)
    requires FetchOrEmpty(shared.blobs, s) == Ok(t) && PushTable(t, shared, s, draw, l, generation).Ok?
    ensures var r := PushTable(t, shared, s, draw, l, generation).value;
      r.report == Report(0, PutsIn(NewOps(shared.ops, r.shared.ops)), 0,
                         |t.Keys - CloudTable(r.shared.blobs, s.repo).Keys|)
  {
    hide Finish, PutNames, DelNames, ManifestDirty, Rekeying, PushedContent, CloudTable, FetchOrEmpty, PutsIn, NewOps,
      PushedTable, Changed, Deleted;
    var w := PushedContent(t, shared.blobs, s, draw, l);
    var stale := Rekeying(w.table, generation, s);
    var put, del := PutNames(t, s, draw, l, stale), DelNames(t, w, l, stale);
    FinishReport(t, w, shared.ops, s, draw, l, generation);
    FinishOps(t, w, shared.ops, s, draw, l, generation);
    PutNamesCount(t, s, draw, l, generation);
    PutsOfOne(shared.ops, Op(s.device, 1, put, del, ManifestDirty(t, l, stale)));
    PushManifestStays(t, shared, s, draw, l, generation);
    DroppedRows(t, s, draw, l, generation);
  }

  lemma PushReportIsTrue(shared: Shared, s: Session, draw: nat, l: Local, generation: int, cached: Option<Table>)
    requires FetchOrEmpty(shared.blobs, s).Ok? && (cached.None? || FetchOrEmpty(shared.blobs, s) == Ok(cached.value))
    requires Push(shared, s, draw, l, generation, cached).Ok?
    ensures var r := Push(shared, s, draw, l, generation, cached).value;
      r.report == Report(0, PutsIn(NewOps(shared.ops, r.shared.ops)), 0,
                         |CloudTable(shared.blobs, s.repo).Keys - CloudTable(r.shared.blobs, s.repo).Keys|)
  {
    hide Push, PushTable, CloudTable, FetchOrEmpty, PutsIn, NewOps, PushNeeded;
    FetchedTable(shared.blobs, s);
    if PushNeeded(l, generation, s) {
      var t := FetchOrEmpty(shared.blobs, s).value;
      PushNeededIsTable(shared, s, draw, l, generation, cached, t);
      TableReportIsTrue(t, shared, s, draw, l, generation);
    } else {
      NothingNeededIsIdle(shared, s, draw, l, generation, cached);
      PutsOfOne(shared.ops, Op(s.device, 1, {}, {}, false));
    }
  }

  /** What a whole cycle did: files written and deleted here, names announced as written, rows the manifest lost. */
  function Deeds(shared: Shared, shared': Shared, repo: string, disk: map<Path, Bytes>, disk': map<Path, Bytes>)
    : Report
  {
    Report(|Written(disk, disk')|, PutsIn(NewOps(shared.ops, shared'.ops)), |disk.Keys - disk'.Keys|,
           |CloudTable(shared.blobs, repo).Keys - CloudTable(shared'.blobs, repo).Keys|)
  }

  lemma PlusNothingFirst(r: Report)
    ensures Plus(NOTHING_DONE, r) == r && Plus(r, NOTHING_DONE) == r
  {
  }

  lemma StartIs(shared: Shared, s: Session, d: Device)
    ensures d.state.None? ==> StartState(shared, s, d) == Adopt(shared, s, d.disk)
    ensures d.state.Some? ==> StartState(shared, s, d) == Ok(Pulled(d.disk, d.state.value, None, NOTHING_DONE))
  {
    hide Adopt;
  }

  lemma StartIsPulledOnce(shared: Shared, s: Session, d: Device)
    requires StartState(shared, s, d).Ok? && Pull(shared, s, StartState(shared, s, d).value.disk,
                                                  StartState(shared, s, d).value.state).Ok?
    ensures var start := StartState(shared, s, d).value;
      var pulled := Pull(shared, s, start.disk, start.state).value;
      Plus(start.report, pulled.report) ==
        Report(|Written(d.disk, pulled.disk)|, 0, |d.disk.Keys - pulled.disk.Keys|, 0)
  {
    hide Pull, Adopt, StartState, Plus, Written;
    var start := StartState(shared, s, d).value;
    StartIs(shared, s, d);
    if d.state.None? {
      AdoptReportIsTrue(shared, s, d.disk);
      NothingToPull(shared, s, start.disk, start.state);
      PlusNothingFirst(start.report);
    } else {
      PullReportIsTrue(shared, s, start.disk, start.state);
      PlusNothingFirst(Pull(shared, s, start.disk, start.state).value.report);
    }
  }

  /** A cycle's report is true of disk, op log and manifest. */
  lemma CycleReportIsTrue(shared: Shared, s: Session, draw: nat, d: Device)
    requires OpensManifest(shared.blobs, s.key.rmk, s.repo) && CycleIn(shared, s, draw, d).Done?
    ensures var o := CycleIn(shared, s, draw, d); o.report == Deeds(shared, o.shared, s.repo, d.disk, o.device.disk)
  {
    hide Pull, Push, StartState, CloudTable, OpensManifest, FetchOrEmpty, Written, PutsIn, NewOps;
    var start := StartState(shared, s, d).value;
    var pulled := Pull(shared, s, start.disk, start.state).value;
    FetchesWhenItOpens(shared.blobs, s);
    PullCaches(shared, s, start.disk, start.state);
    StartIsPulledOnce(shared, s, d);
    PushReportIsTrue(shared, s, draw, Local(pulled.disk, pulled.state.files), pulled.state.generation, pulled.cached);
  }

  lemma PullCaches(shared: Shared, s: Session, disk: map<Path, Bytes>, state: SyncState)
    requires Pull(shared, s, disk, state).Ok?
    ensures var cached := Pull(shared, s, disk, state).value.cached;
      cached.None? || FetchOrEmpty(shared.blobs, s) == Ok(cached.value)
  {
    PullShape(shared, s, disk, state);
  }
}
