/**
 * The sync worker, step by step: the loops of a cycle over a cloud and a vault that change in
 * place. Every phase is proved to leave exactly the state SyncModel says it leaves.
 */
module SyncWorker {
  import opened Prelude
  import opened SyncCrypto
  import opened SyncModel
  import opened SyncAgreement
  import opened SyncPhases
  import opened SyncSafety
  import opened SyncSteps

  /** The hosted side: a blob store whose `Put` overwrites and `Delete` is idempotent, and an op log. */
  class Cloud {
    var ops: seq<Op>
    var blobs: map<Name, Blob>

    function Contents(): Shared
      reads this
    {
      Shared(ops, blobs)
    }

    method Put(name: Name, blob: Blob)
      modifies `blobs
      ensures blobs == old(blobs)[name := blob]
    {
      blobs := blobs[name := blob];
    }

    method Get(name: Name) returns (blob: Option<Blob>)
      ensures blob == Lookup(blobs, name)
    {
      blob := Lookup(blobs, name);
    }

    method Delete(name: Name)
      modifies `blobs
      ensures blobs == old(blobs) - {name}
    {
      blobs := blobs - {name};
    }

    method Append(op: Op)
      modifies `ops
      ensures ops == old(ops) + [op]
    {
      ops := ops + [op];
    }

    method Since(cursor: nat) returns (batch: seq<Op>)
      ensures batch == OpsSince(ops, cursor)
    {
      batch := OpsSince(ops, cursor);
    }
  }

  /** What a device keeps on disk: its synced files, its saved sync state and its key. */
  class Vault {
    var disk: map<Path, Bytes>
    var saved: Option<SyncState>
    var key: Option<KeyGen>

    function AsDevice(): Device
      reads this
    {
      Device(disk, saved, key)
    }
  }

  /** The sync state and the report of one call, as they stand in memory. */
  class Ledger {
    var cursor: nat
    var generation: int
    var files: Files
    var report: Report

    constructor (state: SyncState)
      ensures State() == state && report == NOTHING_DONE
    {
      cursor, generation, files := state.cursor, state.generation, state.files;
      report := NOTHING_DONE;
    }

    function State(): SyncState
      reads this
    {
      SyncState(cursor, generation, files)
    }

    /** The path recorded under a blob name, found by searching the records. */
    method RelForBlob(name: Name) returns (rel: Option<Path>)
      ensures match rel
        case Some(p) => p in files && files[p].blob == name
        case None => forall p :: p in files ==> files[p].blob != name
    {
      var todo := files.Keys;
      while todo != {}
        invariant todo <= files.Keys
        invariant forall p :: p in files && p !in todo ==> files[p].blob != name
        decreases |todo|
      {
        var p :| p in todo;
        if files[p].blob == name {
          return Some(p);
        }
        todo := todo - {p};
      }
      rel := None;
    }

    /** Record `known` as the last agreement about `rel`. */
    method Record(rel: Path, known: FileState)
      requires known.blob.Derived? && known.blob.rel == rel
      modifies `files
      ensures files == old(files)[rel := known]
    {
      files := files[rel := known];
    }

    method Forget(rel: Path)
      modifies `files
      ensures files == old(files) - {rel}
    {
      files := files - {rel};
    }
  }

  function Here(v: Vault, l: Ledger): Local
    reads v, l
  {
    Local(v.disk, l.files)
  }

  /** No file the records did not vouch for has been touched. */
  ghost predicate KeepsUnsynced(before: Local, after: map<Path, Bytes>) {
    forall p :: p in before.disk && !Clean(SlotAt(before, p)) ==> Lookup(after, p) == Some(before.disk[p])
  }

  // -------------------------------------------------------------------------
  // Opening a session
  // -------------------------------------------------------------------------

  method OpenSession(cloud: Cloud, vault: Vault, repo: string, id: DeviceId, wrap: Option<KeyGen>)
    returns (session: Option<Session>)
    modifies vault`key
    ensures match CurrentRmk(old(vault.key), wrap, cloud.blobs, repo)
      case Some(key) => session == Some(Session(repo, id, key)) && vault.key == Some(key)
      case None => session == None && vault.key == old(vault.key)
  {
    var manifest := cloud.Get(Manifest);
    if vault.key.Some? && (manifest.None? || OpenTable(manifest.value, vault.key.value.rmk, repo).Some?) {
      return Some(Session(repo, id, vault.key.value));
    }
    if wrap.Some? && (manifest.None? || OpenTable(manifest.value, wrap.value.rmk, repo).Some?) {
      vault.key := wrap;
      return Some(Session(repo, id, wrap.value));
    }
    session := None;
  }

  method FetchManifest(cloud: Cloud, s: Session) returns (table: Result<Option<Table>>)
    ensures table == FetchTable(cloud.blobs, s)
  {
    var sealed := cloud.Get(Manifest);
    match sealed {
      case None => table := Ok(None);
      case Some(blob) =>
        var table' := OpenTable(blob, s.key.rmk, s.repo);
        table := if table'.Some? then Ok(Some(table'.value)) else Err;
    }
  }

  /** Fetch and decrypt one row. */
  method Fetch(cloud: Cloud, s: Session, rel: Path, entry: ObjectEntry) returns (plain: Option<Bytes>)
    ensures plain == Read(cloud.blobs, s.repo, rel, entry)
  {
    var blob := cloud.Get(entry.blob);
    plain := if blob.Some? then Decrypt(entry.dek, s.repo, rel, blob.value) else None;
  }

  // -------------------------------------------------------------------------
  // Pull
  // -------------------------------------------------------------------------

  /** The batch's net effect, newest op last; the cursor follows every op it reads. */
  method CollapseBatch(batch: seq<Op>, cursor: nat, me: DeviceId) returns (ok: bool, net: Net, cursor': nat)
    ensures ok <==> Understood(batch, me)
    ensures ok ==> net == Collapse(batch, me) && cursor' == cursor + |batch|
  {
    var puts, dels, manifest := {}, {}, false;
    cursor' := cursor;
    for i := 0 to |batch|
      invariant Understood(batch[..i], me)
      invariant Net(puts, dels, manifest) == Collapse(batch[..i], me)
      invariant cursor' == cursor + i
    {
      var op := batch[i];
      cursor' := cursor' + 1;
      assert batch[..i + 1][..i] == batch[..i];
      if op.device != me {
        if op.v != 1 {
          return false, NO_NEWS, cursor';
        }
        manifest := manifest || op.manifest;
        dels := dels - op.put;
        puts := puts + op.put;
        puts := puts - op.del;
        dels := dels + op.del;
      }
    }
    assert batch[..|batch|] == batch;
    return true, Net(puts, dels, manifest), cursor';
  }

  /** Bring one path to what a put announces: a copy of its own the device has not synced stays as it is. */
  method ApplyPut(cloud: Cloud, vault: Vault, ledger: Ledger, s: Session, rel: Path, entry: ObjectEntry)
    returns (ok: bool)
    requires entry.blob.Derived? && entry.blob.rel == rel
    modifies vault`disk, ledger`files, ledger`report
    ensures ok <==> Read(cloud.blobs, s.repo, rel, entry).Some?
    ensures !ok ==> Here(vault, ledger) == old(Here(vault, ledger)) && ledger.report == old(ledger.report)
    ensures ok ==>
      var remote := Read(cloud.blobs, s.repo, rel, entry).value;
      var was := SlotAt(old(Here(vault, ledger)), rel);
      && Here(vault, ledger) == WithSlot(old(Here(vault, ledger)), rel, TakePut(was, remote, entry.blob))
      && ledger.report == if Clean(was) && was.file != Some(remote)
                          then Plus(old(ledger.report), Report(1, 0, 0, 0)) else old(ledger.report)
  {
    var plain := Fetch(cloud, s, rel, entry);
    if plain.None? {
      return false;
    }
    var remote := plain.value;
    var local := Lookup(vault.disk, rel);
    var known := Lookup(ledger.files, rel);
    var clean := match (local, known)
      case (None, _) => true
      case (Some(bytes), Some(record)) => ContentHash(bytes) == record.hash
      case (Some(_), None) => false;
    ok := true;
    if local.Some? && ContentHash(local.value) == ContentHash(remote) {
      ledger.Record(rel, FileState(ContentHash(remote), entry.blob));
      assert vault.disk == vault.disk[rel := remote];
    } else if clean {
      vault.disk := vault.disk[rel := remote];
      ledger.Record(rel, FileState(ContentHash(remote), entry.blob));
      ledger.report := Plus(ledger.report, Report(1, 0, 0, 0));
    } else {
      SameSlot(Here(vault, ledger), rel);
    }
  }

  lemma SameSlot(l: Local, p: Path)
    requires RecordOf(p, SlotAt(l, p).known)
    ensures WithSlot(l, p, SlotAt(l, p)) == l
  {
    var r := WithSlot(l, p, SlotAt(l, p));
    assert forall q :: SlotAt(r, q) == SlotAt(l, q);
    SameLocals(r, l);
  }

  lemma SameLocals(a: Local, b: Local)
    requires forall q :: SlotAt(a, q) == SlotAt(b, q)
    ensures a == b
  {
    forall q ensures Lookup(a.disk, q) == Lookup(b.disk, q) && Lookup(a.files, q) == Lookup(b.files, q) {
      assert SlotAt(a, q) == SlotAt(b, q);
    }
    SameLookups(a.disk, b.disk);
    SameLookups(a.files, b.files);
  }

  /** One tombstone for a recorded path the manifest has dropped. */
  method ApplyDel(vault: Vault, ledger: Ledger, rel: Path)
    modifies vault`disk, ledger`files, ledger`report
    requires rel in ledger.files
    ensures var was := SlotAt(old(Here(vault, ledger)), rel);
      && Here(vault, ledger) == WithSlot(old(Here(vault, ledger)), rel, TakeDel(was))
      && ledger.report == if Clean(was) && was.file.Some?
                          then Plus(old(ledger.report), Report(0, 0, 1, 0)) else old(ledger.report)
  {
    var clean := rel !in vault.disk || ContentHash(vault.disk[rel]) == ledger.files[rel].hash;
    if clean {
      if rel in vault.disk {
        vault.disk := vault.disk - {rel};
        ledger.report := Plus(ledger.report, Report(0, 0, 1, 0));
      } else {
        assert vault.disk == vault.disk - {rel};
      }
      ledger.Forget(rel);
    } else {
      assert vault.disk == vault.disk[rel := vault.disk[rel]];
      ledger.Forget(rel);
    }
  }

  /** The index from blob name to path that the put loop looks names up in. */
  function ByBlob(t: Table): (r: map<Name, Path>)
    ensures forall n :: n in r ==> r[n] in t && t[r[n]].blob == n
    ensures forall p :: p in t ==> t[p].blob in r && r[t[p].blob] == p
  {
    map p | p in t :: t[p].blob := p
  }

  /** One round of the put loop: a name the manifest no longer carries is skipped. */
  method PutRound(cloud: Cloud, vault: Vault, ledger: Ledger, s: Session, t: Table, byBlob: map<Name, Path>, name: Name,
                  ghost start: Local, ghost done: set<Name>)
    returns (ok: bool)
    requires byBlob == ByBlob(t) && name !in done
    requires Reached(Here(vault, ledger), start, t, View(cloud.blobs, s.repo, t), Net(done, {}, false))
    modifies vault`disk, ledger`files, ledger`report
    ensures ok <==> Fetchable(t, View(cloud.blobs, s.repo, t), {name})
    ensures var view := View(cloud.blobs, s.repo, t);
      if ok then
        && Reached(Here(vault, ledger), start, t, view, Net(done + {name}, {}, false))
        && ledger.report.pulled - |PulledPaths(start, t, view, Net(done + {name}, {}, false))|
             == old(ledger.report).pulled - |PulledPaths(start, t, view, Net(done, {}, false))|
        && ledger.report == old(ledger.report).(pulled := ledger.report.pulled)
      else Here(vault, ledger) == old(Here(vault, ledger)) && ledger.report == old(ledger.report)
  {
    hide Reached, PulledPaths, View, Read, WithSlot, TakePut;
    ghost var view := View(cloud.blobs, s.repo, t);
    ghost var now := Here(vault, ledger);
    if name !in byBlob {
      StalePut(now, start, t, view, done, name);
      return true;
    }
    var rel := byBlob[name];
    ok := ApplyPut(cloud, vault, ledger, s, rel, t[rel]);
    InView(cloud.blobs, s.repo, t, rel);
    if ok {
      FreshPut(now, start, t, view, done, rel);
    } else {
      assert t[rel].blob in {name} && rel !in view;
    }
  }

  lemma InView(blobs: map<Name, Blob>, repo: string, t: Table, p: Path)
    requires p in t
    ensures Lookup(View(blobs, repo, t), p) == Read(blobs, repo, p, t[p])
  {
  }

  method ApplyPuts(cloud: Cloud, vault: Vault, ledger: Ledger, s: Session, t: Table, puts: set<Name>)
    returns (ok: bool, ghost done: set<Name>)
    modifies vault`disk, ledger`files, ledger`report
    ensures ok <==> Fetchable(t, View(cloud.blobs, s.repo, t), puts)
    ensures done <= puts && (ok ==> done == puts)
    ensures Reached(Here(vault, ledger), old(Here(vault, ledger)), t, View(cloud.blobs, s.repo, t),
                    Net(done, {}, false))
    ensures ledger.report == Plus(old(ledger.report), Report(
      |PulledPaths(old(Here(vault, ledger)), t, View(cloud.blobs, s.repo, t), Net(done, {}, false))|, 0, 0, 0))
  {
    hide Reached, View;
    ghost var start := Here(vault, ledger);
    ghost var view := View(cloud.blobs, s.repo, t);
    var byBlob := ByBlob(t);
    var todo := puts;
    done := {};
    NothingReached(start, t, view);
    assert PulledPaths(start, t, view, NO_NEWS) == {};
    while todo != {}
      invariant todo <= puts && done == puts - todo
      invariant Fetchable(t, view, done)
      invariant Reached(Here(vault, ledger), start, t, view, Net(done, {}, false))
      invariant ledger.report == Plus(old(ledger.report),
                                      Report(|PulledPaths(start, t, view, Net(done, {}, false))|, 0, 0, 0))
      decreases |todo|
    {
      var name :| name in todo;
      ok := PutRound(cloud, vault, ledger, s, t, byBlob, name, start, done);
      if !ok {
        return false, done;
      }
      todo := todo - {name};
      done := done + {name};
      assert done == puts - todo;
    }
    ok := true;
  }

  /** One round of the tombstone loop. */
  method DelRound(vault: Vault, ledger: Ledger, t: Table, name: Name,
                  ghost start: Local, ghost view: map<Path, Bytes>, ghost put: set<Name>, ghost done: set<Name>)
    requires Reached(Here(vault, ledger), start, t, view, Net(put, done, false)) && name !in done
    modifies vault`disk, ledger`files, ledger`report
    ensures Reached(Here(vault, ledger), start, t, view, Net(put, done + {name}, false))
    ensures ledger.report.deletedLocal - |RemovedPaths(start, t, Net(put, done + {name}, false))|
              == old(ledger.report).deletedLocal - |RemovedPaths(start, t, Net(put, done, false))|
    ensures ledger.report == old(ledger.report).(deletedLocal := ledger.report.deletedLocal)
  {
    hide Reached, RemovedPaths, WithSlot, TakeDel, Clean;
    var found := ledger.RelForBlob(name);
    ghost var now := Here(vault, ledger);
    if found.None? || found.value in t {
      OneCarrier(ledger.files, t, name, found);
      IdleDel(now, start, t, view, put, done, name);
      return;
    }
    FreshDel(now, start, t, view, put, done, found.value);
    ApplyDel(vault, ledger, found.value);
  }

  /** A name is carried by at most one record. */
  lemma OneCarrier(files: Files, t: Table, name: Name, found: Option<Path>)
    requires if found.Some? then found.value in files && files[found.value].blob == name && found.value in t
             else forall p :: p in files ==> files[p].blob != name
    ensures forall p :: p in files && files[p].blob == name ==> p in t
  {
  }

  method ApplyDels(vault: Vault, ledger: Ledger, t: Table, dels: set<Name>, ghost start: Local,
                   ghost view: map<Path, Bytes>, ghost put: set<Name>)
    requires Reached(Here(vault, ledger), start, t, view, Net(put, {}, false))
    modifies vault`disk, ledger`files, ledger`report
    ensures Reached(Here(vault, ledger), start, t, view, Net(put, dels, false))
    ensures ledger.report == Plus(old(ledger.report), Report(0, 0, |RemovedPaths(start, t, Net(put, dels, false))|, 0))
  {
    var todo := dels;
    ghost var done := {};
    assert RemovedPaths(start, t, Net(put, {}, false)) == {};
    while todo != {}
      invariant todo <= dels && done == dels - todo
      invariant Reached(Here(vault, ledger), start, t, view, Net(put, done, false))
      invariant ledger.report == Plus(old(ledger.report),
                                      Report(0, 0, |RemovedPaths(start, t, Net(put, done, false))|, 0))
      decreases |todo|
    {
      var name :| name in todo;
      DelRound(vault, ledger, t, name, start, view, put, done);
      todo := todo - {name};
      done := done + {name};
      assert done == dels - todo;
    }
    assert done == dels;
  }

  method ForgetAll(vault: Vault, ledger: Ledger, t: Table, dels: set<Name>)
    modifies ledger`files
    ensures ledger.files == old(ledger.files) - Clobbered(old(Here(vault, ledger)), t, dels)
  {
    var clobbered := set p | p in ledger.files && p !in t && ledger.files[p].blob !in dels && p in vault.disk;
    ghost var files := ledger.files;
    var todo := clobbered;
    while todo != {}
      invariant todo <= clobbered
      invariant ledger.files == files - (clobbered - todo)
      decreases |todo|
    {
      var p :| p in todo;
      ledger.Forget(p);
      todo := todo - {p};
    }
  }

  method ForgetDropped(vault: Vault, ledger: Ledger, t: Table, net: Net, ghost start: Local,
                       ghost view: map<Path, Bytes>)
    requires Reached(Here(vault, ledger), start, t, view, Net(net.put, net.del, false))
    modifies ledger`files
    ensures Here(vault, ledger) == PullLocal(start, t, view, net)
    ensures KeepsUnsynced(start, vault.disk)
  {
    ForgetClobbered(Here(vault, ledger), start, t, view, net.put, net.del);
    if net.manifest {
      ForgetAll(vault, ledger, t, net.del);
    }
    ReachedIsPulled(Here(vault, ledger), start, t, view, net);
    ReachedKeepsUnsynced(Here(vault, ledger), start, t, view, net);
  }

  lemma CountsIgnoreManifest(l: Local, t: Table, view: map<Path, Bytes>, n: Net, put: set<Name>, del: set<Name>)
    requires n.put == put && n.del == del
    ensures PulledPaths(l, t, view, n) == PulledPaths(l, t, view, Net(put, {}, false))
    ensures RemovedPaths(l, t, n) == RemovedPaths(l, t, Net(put, del, false))
  {
  }

  /** The put, tombstone and clobber loops, with the table in hand. */
  method ApplyNet(cloud: Cloud, vault: Vault, ledger: Ledger, s: Session, t: Table, net: Net) returns (ok: bool)
    modifies vault`disk, ledger`files, ledger`report
    ensures ok <==> Fetchable(t, View(cloud.blobs, s.repo, t), net.put)
    ensures var view, start := View(cloud.blobs, s.repo, t), old(Here(vault, ledger));
      ok ==>
        && Here(vault, ledger) == PullLocal(start, t, view, net)
        && ledger.report == Plus(old(ledger.report),
                                 Report(|PulledPaths(start, t, view, net)|, 0, |RemovedPaths(start, t, net)|, 0))
    ensures KeepsUnsynced(old(Here(vault, ledger)), vault.disk)
  {
    hide Reached, KeepsUnsynced, PulledPaths, RemovedPaths, PullLocal, View;
    ghost var start := Here(vault, ledger);
    ghost var view := View(cloud.blobs, s.repo, t);
    ghost var done;
    ok, done := ApplyPuts(cloud, vault, ledger, s, t, net.put);
    if !ok {
      ReachedKeepsUnsynced(Here(vault, ledger), start, t, view, Net(done, {}, false));
      return;
    }
    ApplyDels(vault, ledger, t, net.del, start, view, net.put);
    CountsIgnoreManifest(start, t, view, net, net.put, net.del);
    ForgetDropped(vault, ledger, t, net, start, view);
  }

  lemma UntouchedKeeps(l: Local)
    ensures KeepsUnsynced(l, l.disk)
  {
  }

  /** A pull once its batch is collapsed. */
  function CatchUp(shared: Shared, s: Session, disk: map<Path, Bytes>, seen: SyncState, n: Net): Result<Pulled> {
    match FetchOrEmpty(shared.blobs, s)
    case Err => Err
    case Ok(t) =>
      var view := View(shared.blobs, s.repo, t);
      if !Fetchable(t, view, n.put) then Err
      else
        var l := Local(disk, seen.files);
        var l' := PullLocal(l, t, view, n);
        Ok(Pulled(l'.disk, seen.(files := l'.files), Some(t),
                  Report(|PulledPaths(l, t, view, n)|, 0, |RemovedPaths(l, t, n)|, 0)))
  }

  lemma PullIs(shared: Shared, s: Session, disk: map<Path, Bytes>, state: SyncState)
    ensures var batch := OpsSince(shared.ops, state.cursor);
      var seen := state.(cursor := |shared.ops|);
      Pull(shared, s, disk, state) ==
        if batch == [] then Ok(Pulled(disk, state, None, NOTHING_DONE))
        else if !Understood(batch, s.device) then Err
        else if Collapse(batch, s.device) == NO_NEWS then Ok(Pulled(disk, seen, None, NOTHING_DONE))
        else CatchUp(shared, s, disk, seen, Collapse(batch, s.device))
  {
    hide View, PullLocal, PulledPaths, RemovedPaths, Fetchable, FetchOrEmpty, Understood, Collapse;
  }

  method CatchUpWith(cloud: Cloud, vault: Vault, ledger: Ledger, s: Session, net: Net)
    returns (cached: Result<Option<Table>>)
    modifies vault`disk, ledger`files, ledger`report
    ensures var was := CatchUp(cloud.Contents(), s, old(vault.disk), old(ledger.State()), net);
      if was.Ok?
      then cached == Ok(was.value.cached) && vault.disk == was.value.disk && ledger.State() == was.value.state
           && ledger.report == Plus(old(ledger.report), was.value.report)
      else cached == Err
    ensures KeepsUnsynced(old(Here(vault, ledger)), vault.disk)
  {
    hide KeepsUnsynced, PullLocal, PulledPaths, RemovedPaths, View, Fetchable, FetchTable;
    UntouchedKeeps(Here(vault, ledger));
    var fetched := FetchManifest(cloud, s);
    if fetched.Err? {
      return Err;
    }
    var t: Table := if fetched.value.Some? then fetched.value.value else map[];
    var ok := ApplyNet(cloud, vault, ledger, s, t, net);
    cached := if ok then Ok(Some(t)) else Err;
  }

  /**
   * The pull phase. When it succeeds disk, records, cursor and report are those of `Pull`; when it
   * fails no unsynced file was touched.
   */
  method PullPhase(cloud: Cloud, vault: Vault, ledger: Ledger, s: Session) returns (cached: Result<Option<Table>>)
    modifies vault`disk, ledger
    ensures var was := Pull(cloud.Contents(), s, old(vault.disk), old(ledger.State()));
      if was.Ok?
      then cached == Ok(was.value.cached) && vault.disk == was.value.disk && ledger.State() == was.value.state
           && ledger.report == Plus(old(ledger.report), was.value.report)
      else cached == Err
    ensures KeepsUnsynced(old(Here(vault, ledger)), vault.disk)
  {
    hide KeepsUnsynced, CatchUp, Collapse, Understood, Pull;
    UntouchedKeeps(Here(vault, ledger));
    PullIs(cloud.Contents(), s, vault.disk, ledger.State());
    var batch := cloud.Since(ledger.cursor);
    if |batch| == 0 {
      return Ok(None);
    }
    var ok, net, cursor := CollapseBatch(batch, ledger.cursor, s.device);
    if !ok {
      return Err;
    }
    ledger.cursor := cursor;
    if net.put == {} && net.del == {} && !net.manifest {
      return Ok(None);
    }
    cached := CatchUpWith(cloud, vault, ledger, s, net);
  }

  lemma ReachedKeepsUnsynced(now: Local, start: Local, t: Table, view: map<Path, Bytes>, n: Net)
    requires Reached(now, start, t, view, n)
    ensures KeepsUnsynced(start, now.disk)
  {
    forall p | p in start.disk && !Clean(SlotAt(start, p)) ensures Lookup(now.disk, p) == Some(start.disk[p]) {
      assert SlotAt(now, p) == PullSlot(p, SlotAt(start, p), t, view, n);
      DirtySlotSurvives(p, SlotAt(start, p), t, view, n);
    }
  }

  // -------------------------------------------------------------------------
  // First contact, and the explicit pull
  // -------------------------------------------------------------------------

  /** Rows of `done` as a loop over the manifest has recorded them. */
  function RecordedOf(t: Table, view: map<Path, Bytes>, done: set<Path>): Files {
    map p | p in done && p in t && p in view :: FileState(ContentHash(view[p]), t[p].blob)
  }

  /** The part of a view a loop has reached. */
  function Part(view: map<Path, Bytes>, done: set<Path>): map<Path, Bytes> {
    map p | p in view && p in done :: view[p]
  }

  /** One more row written where there was a gap, or left to the local file that is there. */
  lemma GapOneMore(view: map<Path, Bytes>, disk: map<Path, Bytes>, done: set<Path>, p: Path)
    requires p in view && p !in done
    ensures Part(view, done + {p}) + disk
         == if p in disk then Part(view, done) + disk else (Part(view, done) + disk)[p := view[p]]
    ensures p in Part(view, done) + disk <==> p in disk
  {
  }

  /** How many of the rows reached were missing locally. */
  function Gaps(view: map<Path, Bytes>, disk: map<Path, Bytes>, done: set<Path>): nat {
    |Missing(view, disk, done)|
  }

  function Missing(view: map<Path, Bytes>, disk: map<Path, Bytes>, done: set<Path>): set<Path> {
    set p | p in view && p in done && p !in disk
  }

  lemma GapsCounted(view: map<Path, Bytes>, disk: map<Path, Bytes>, done: set<Path>, p: Path)
    requires p in view && p !in done
    ensures Gaps(view, disk, done + {p}) == Gaps(view, disk, done) + if p in disk then 0 else 1
  {
    var before := Missing(view, disk, done);
    assert p !in before;
    assert Missing(view, disk, done + {p}) == if p in disk then before else before + {p};
  }

  lemma PartOneMore(view: map<Path, Bytes>, disk: map<Path, Bytes>, done: set<Path>, p: Path)
    requires p in view && p !in done
    ensures disk + Part(view, done + {p}) == (disk + Part(view, done))[p := view[p]]
  {
  }

  lemma NoRows(t: Table, view: map<Path, Bytes>, disk: map<Path, Bytes>, files: Files)
    ensures Part(view, {}) + disk == disk && disk + Part(view, {}) == disk
    ensures RecordedOf(t, view, {}) == map[] && files + RecordedOf(t, view, {}) == files
    ensures Gaps(view, disk, {}) == 0
  {
    assert Missing(view, disk, {}) == {};
  }

  lemma RecordOneMore(t: Table, view: map<Path, Bytes>, files: Files, done: set<Path>, p: Path)
    requires p in t && p in view && p !in done
    ensures RecordedOf(t, view, done + {p})
      == RecordedOf(t, view, done)[p := FileState(ContentHash(view[p]), t[p].blob)]
    ensures files + RecordedOf(t, view, done + {p})
         == (files + RecordedOf(t, view, done))[p := FileState(ContentHash(view[p]), t[p].blob)]
  {
  }

  lemma WholeView(t: Table, view: map<Path, Bytes>)
    requires t.Keys == view.Keys
    ensures Part(view, t.Keys) == view && RecordedOf(t, view, t.Keys) == Recorded(t, view)
  {
  }

  /** Every file that was there is still there, unchanged. */
  predicate Kept(before: map<Path, Bytes>, after: map<Path, Bytes>) {
    forall p :: p in before ==> Lookup(after, p) == Some(before[p])
  }

  lemma FillsGaps(view: map<Path, Bytes>, done: set<Path>, disk: map<Path, Bytes>)
    ensures Kept(disk, Part(view, done) + disk)
  {
  }

  /** One row of the first-contact loop. */
  method AdoptRow(cloud: Cloud, vault: Vault, ledger: Ledger, s: Session, t: Table, p: Path,
                  ghost disk: map<Path, Bytes>, ghost done: set<Path>) returns (ok: bool)
    requires p in t && p !in done
    requires var view := View(cloud.blobs, s.repo, t);
      && vault.disk == Part(view, done) + disk
      && ledger.files == RecordedOf(t, view, done)
      && ledger.report == Report(Gaps(view, disk, done), 0, 0, 0)
    modifies vault`disk, ledger`files, ledger`report
    ensures var view := View(cloud.blobs, s.repo, t);
      && ok == (p in view)
      && (if ok then
            && vault.disk == Part(view, done + {p}) + disk
            && ledger.files == RecordedOf(t, view, done + {p})
            && ledger.report == Report(Gaps(view, disk, done + {p}), 0, 0, 0)
          else vault.disk == old(vault.disk))
  {
    hide View, Read, Part, RecordedOf, Gaps;
    ghost var view := View(cloud.blobs, s.repo, t);
    InView(cloud.blobs, s.repo, t, p);
    var plain := Fetch(cloud, s, p, t[p]);
    if plain.None? {
      return false;
    }
    GapOneMore(view, disk, done, p);
    GapsCounted(view, disk, done, p);
    RecordOneMore(t, view, map[], done, p);
    if p !in vault.disk {
      vault.disk := vault.disk[p := plain.value];
      ledger.report := Plus(ledger.report, Report(1, 0, 0, 0));
    }
    ledger.Record(p, FileState(ContentHash(plain.value), t[p].blob));
    ok := true;
  }

  lemma SelfKept(disk: map<Path, Bytes>)
    ensures Kept(disk, disk)
  {
  }

  lemma AdoptNeedsTable(shared: Shared, s: Session, disk: map<Path, Bytes>)
    requires FetchOrEmpty(shared.blobs, s).Err?
    ensures Adopt(shared, s, disk).Err?
  {
  }

  /** An adopted view is what the first-contact loop has done once it has reached every row. */
  lemma AdoptsEveryRow(shared: Shared, s: Session, disk: map<Path, Bytes>, t: Table)
    requires FetchOrEmpty(shared.blobs, s) == Ok(t)
    requires View(shared.blobs, s.repo, t).Keys == t.Keys
    ensures var view := View(shared.blobs, s.repo, t);
      Adopt(shared, s, disk) == Ok(Pulled(Part(view, t.Keys) + disk,
                                          SyncState(|shared.ops|, s.key.generation, RecordedOf(t, view, t.Keys)), None,
                                          Report(Gaps(view, disk, t.Keys), 0, 0, 0)))
  {
    var view := View(shared.blobs, s.repo, t);
    WholeView(t, view);
    assert Missing(view, disk, t.Keys) == view.Keys - disk.Keys;
  }

  lemma AdoptNeedsRow(shared: Shared, s: Session, disk: map<Path, Bytes>, t: Table, p: Path)
    requires FetchOrEmpty(shared.blobs, s) == Ok(t)
    requires p in t && p !in View(shared.blobs, s.repo, t)
    ensures Adopt(shared, s, disk).Err?
  {
    assert View(shared.blobs, s.repo, t).Keys != t.Keys;
  }

  /** The first-contact loop: rows missing locally are written, every row is recorded. */
  method AdoptRows(cloud: Cloud, vault: Vault, ledger: Ledger, s: Session, t: Table) returns (ok: bool)
    requires FetchOrEmpty(cloud.blobs, s) == Ok(t)
    requires ledger.State() == SyncState(|cloud.ops|, s.key.generation, map[]) && ledger.report == NOTHING_DONE
    modifies vault`disk, ledger`files, ledger`report
    ensures var was := Adopt(cloud.Contents(), s, old(vault.disk));
      && ok == was.Ok?
      && (ok ==> vault.disk == was.value.disk && ledger.State() == was.value.state && ledger.report == was.value.report)
    ensures Kept(old(vault.disk), vault.disk)
  {
    hide View, Read, Part, RecordedOf, Recorded, Halves, Adopt, Gaps, Kept, Lookup, OpenTable;
    ghost var disk, view := vault.disk, View(cloud.blobs, s.repo, t);
    var todo := t.Keys;
    ghost var done := {};
    LoopEnds(t.Keys);
    NoRows(t, view, disk, map[]);
    while todo != {}
      invariant Halves(t.Keys, todo, done) && forall p :: p in done ==> p in view
      invariant vault.disk == Part(view, done) + disk
      invariant ledger.files == RecordedOf(t, view, done)
      invariant ledger.report == Report(Gaps(view, disk, done), 0, 0, 0)
      decreases |todo|
    {
      var p :| p in todo;
      OneMoreDone(t.Keys, todo, done, p);
      ok := AdoptRow(cloud, vault, ledger, s, t, p, disk, done);
      if !ok {
        FillsGaps(view, done, disk);
        AdoptNeedsRow(cloud.Contents(), s, disk, t, p);
        return false;
      }
      todo, done := todo - {p}, done + {p};
    }
    ViewKeys(cloud.blobs, s.repo, t);
    AdoptsEveryRow(cloud.Contents(), s, disk, t);
    FillsGaps(view, done, disk);
    ok := true;
  }

  lemma ViewKeys(blobs: map<Name, Blob>, repo: string, t: Table)
    requires forall p :: p in t ==> p in View(blobs, repo, t)
    ensures View(blobs, repo, t).Keys == t.Keys && |View(blobs, repo, t)| == |t|
  {
    assert View(blobs, repo, t).Keys == t.Keys;
    assert |View(blobs, repo, t).Keys| == |t.Keys|;
  }

  /**
   * Adopt the cloud's view and save it. On failure nothing is saved, and either way no file that
   * was there has changed.
   */
  method InitialSync(cloud: Cloud, vault: Vault, s: Session) returns (ledger: Ledger, ok: bool)
    modifies vault`disk, vault`saved
    ensures fresh(ledger) && ledger.cursor == |cloud.ops|
    ensures var was := Adopt(cloud.Contents(), s, old(vault.disk));
      if was.Ok?
      then ok && vault.disk == was.value.disk && ledger.State() == was.value.state
           && ledger.report == was.value.report && vault.saved == Some(was.value.state)
      else !ok && vault.saved == old(vault.saved)
    ensures Kept(old(vault.disk), vault.disk)
  {
    hide View, Recorded, Adopt, Kept;
    ledger := new Ledger(SyncState(|cloud.ops|, s.key.generation, map[]));
    var fetched := FetchManifest(cloud, s);
    if fetched.Err? {
      AdoptNeedsTable(cloud.Contents(), s, vault.disk);
      SelfKept(vault.disk);
      return ledger, false;
    }
    var t: Table := if fetched.value.Some? then fetched.value.value else map[];
    ok := AdoptRows(cloud, vault, ledger, s, t);
    if ok {
      vault.saved := Some(ledger.State());
    }
  }

  /** One row of the explicit pull. */
  method OverwriteRow(cloud: Cloud, vault: Vault, ledger: Ledger, s: Session, t: Table, p: Path,
                      ghost disk: map<Path, Bytes>, ghost files: Files, ghost done: set<Path>) returns (ok: bool)
    requires p in t && p !in done
    requires var view := View(cloud.blobs, s.repo, t);
      vault.disk == disk + Part(view, done) && ledger.files == files + RecordedOf(t, view, done)
    modifies vault`disk, ledger`files
    ensures var view := View(cloud.blobs, s.repo, t);
      && ok == (p in view)
      && (ok ==> vault.disk == disk + Part(view, done + {p}) && ledger.files == files + RecordedOf(t, view, done + {p}))
  {
    hide View, Read, Part, RecordedOf;
    ghost var view := View(cloud.blobs, s.repo, t);
    InView(cloud.blobs, s.repo, t, p);
    var plain := Fetch(cloud, s, p, t[p]);
    if plain.None? {
      return false;
    }
    PartOneMore(view, disk, done, p);
    RecordOneMore(t, view, files, done, p);
    vault.disk := vault.disk[p := plain.value];
    ledger.Record(p, FileState(ContentHash(plain.value), t[p].blob));
    ok := true;
  }

  /** The explicit-pull loop: every row overwrites its local copy. */
  method OverwriteRows(cloud: Cloud, vault: Vault, ledger: Ledger, s: Session, t: Table) returns (ok: bool)
    modifies vault`disk, ledger`files
    ensures var view := View(cloud.blobs, s.repo, t);
      && ok == (view.Keys == t.Keys)
      && (ok ==>
            && vault.disk == old(vault.disk) + view && ledger.files == Learn(old(ledger.files), t, view)
            && |view| == |t|)
  {
    hide View, Read, Part, RecordedOf, Recorded, Halves;
    ghost var disk, files, view := vault.disk, ledger.files, View(cloud.blobs, s.repo, t);
    var todo := t.Keys;
    ghost var done := {};
    LoopEnds(t.Keys);
    NoRows(t, view, disk, files);
    while todo != {}
      invariant Halves(t.Keys, todo, done) && forall p :: p in done ==> p in view
      invariant vault.disk == disk + Part(view, done)
      invariant ledger.files == files + RecordedOf(t, view, done)
      decreases |todo|
    {
      var p :| p in todo;
      OneMoreDone(t.Keys, todo, done, p);
      ok := OverwriteRow(cloud, vault, ledger, s, t, p, disk, files, done);
      if !ok {
        assert p in t.Keys && p !in view.Keys;
        return false;
      }
      todo, done := todo - {p}, done + {p};
    }
    ViewKeys(cloud.blobs, s.repo, t);
    WholeView(t, view);
    return true;
  }

  /** Once the session is open: every file of the manifest overwrites its local copy, and the result is saved. */
  method PullAllWith(cloud: Cloud, vault: Vault, s: Session) returns (written: Option<nat>)
    modifies vault`disk, vault`saved
    ensures var was := PullAllIn(cloud.Contents(), s, old(vault.AsDevice()));
      match written
      case Some(n) =>
        && was.Done? && vault.disk == was.device.disk && vault.saved == was.device.state
        && was.report == Report(n, 0, 0, 0)
      case None =>
        && !was.Done? && vault.saved == old(vault.saved)
        && (Manifest !in cloud.blobs ==> vault.disk == old(vault.disk))
  {
    hide View, Read, Recorded, Learn;
    var fetched := FetchManifest(cloud, s);
    if fetched.Err? || fetched.value.None? {
      return None;
    }
    var t := fetched.value.value;
    var ledger := new Ledger(SavedOr(vault.AsDevice(), s.key.generation));
    var ok := OverwriteRows(cloud, vault, ledger, s, t);
    if !ok {
      return None;
    }
    vault.saved := Some(ledger.State());
    written := Some(|t|);
  }

  // -------------------------------------------------------------------------
  // Push
  // -------------------------------------------------------------------------

  /** The working table, store and records with the uploads of `done` in. */
  predicate UploadedSoFar(table: KeyTable, cloud: Cloud, ledger: Ledger, w: Work, s: Session, draw: nat,
                          disk: map<Path, Bytes>, done: set<Path>)
    reads table, cloud, ledger
  {
    && done <= disk.Keys
    && var t := UploadedTable(w.table, s, draw, done);
    && table.objects == t
    && cloud.blobs == w.blobs + SealedFiles(t, s.repo, disk, done)
    && ledger.files == UploadedFiles(w.files, t, disk, done)
  }

  lemma NothingUploaded(w: Work, s: Session, draw: nat, disk: map<Path, Bytes>)
    ensures UploadedTable(w.table, s, draw, {}) == w.table
    ensures w.blobs + SealedFiles(w.table, s.repo, disk, {}) == w.blobs
    ensures UploadedFiles(w.files, w.table, disk, {}) == w.files
    ensures Names(w.table, {}) == {}
  {
    assert UploadedTable(w.table, s, draw, {}) == w.table;
    assert Names(w.table, {}) == {};
    assert SealedFiles(w.table, s.repo, disk, {}) == map[];
  }

  /** Encrypt one local file under its row's key, minting the row if it is new, and record it. */
  method UploadOne(cloud: Cloud, ledger: Ledger, table: KeyTable, s: Session, draw: nat, rel: Path, bytes: Bytes)
    returns (name: Name)
    modifies cloud`blobs, ledger`files, ledger`report, table
    ensures var entry := RowFor(old(table.objects), s, draw, rel);
      && name == entry.blob
      && OneRowMore(old(table.objects), table.objects, s, draw, rel)
      && cloud.blobs == old(cloud.blobs)[name := Encrypt(entry.dek, s.repo, rel, bytes)]
      && ledger.files == old(ledger.files)[rel := FileState(ContentHash(bytes), name)]
    ensures ledger.report == Plus(old(ledger.report), Report(0, 1, 0, 0))
  {
    var entry := table.Entry(s.key.rmk, rel, draw);
    assert rel in old(table.objects) ==> table.objects == old(table.objects)[rel := entry];
    cloud.Put(entry.blob, Encrypt(entry.dek, s.repo, rel, bytes));
    ledger.Record(rel, FileState(ContentHash(bytes), entry.blob));
    ledger.report := Plus(ledger.report, Report(0, 1, 0, 0));
    name := entry.blob;
  }

  method UploadRound(cloud: Cloud, ledger: Ledger, table: KeyTable, s: Session, draw: nat, disk: map<Path, Bytes>,
                     rel: Path,
                     ghost w: Work, ghost done: set<Path>) returns (name: Name)
    requires rel in disk && rel !in done
    requires UploadedSoFar(table, cloud, ledger, w, s, draw, disk, done)
    modifies cloud`blobs, ledger`files, ledger`report, table
    ensures UploadedSoFar(table, cloud, ledger, w, s, draw, disk, done + {rel})
    ensures rel in old(table.objects) <==> rel in w.table
    ensures Names(table.objects, done + {rel}) == Names(old(table.objects), done) + {name}
    ensures ledger.report == Plus(old(ledger.report), Report(0, 1, 0, 0))
  {
    hide SealedFiles, UploadedTable, UploadedFiles, Names, OneRowMore;
    ghost var now, next := UploadedTable(w.table, s, draw, done), UploadedTable(w.table, s, draw, done + {rel});
    UploadRow(w.table, s, draw, done, rel);
    UploadBlob(now, next, w.blobs, s, draw, disk, done, rel);
    UploadRecord(w.files, now, next, s, draw, disk, done, rel);
    UploadNames(now, next, s, draw, done, rel);
    name := UploadOne(cloud, ledger, table, s, draw, rel, disk[rel]);
    SameRowMore(now, next, table.objects, s, draw, rel);
  }

  lemma SameRowMore(now: Table, next: Table, next': Table, s: Session, draw: nat, p: Path)
    requires OneRowMore(now, next, s, draw, p) && OneRowMore(now, next', s, draw, p)
    ensures next == next' && next[p] == RowFor(now, s, draw, p)
  {
  }

  method UploadChanged(cloud: Cloud, ledger: Ledger, table: KeyTable, s: Session, draw: nat, disk: map<Path, Bytes>,
                       changed: set<Path>)
    returns (putNames: set<Name>, dirty: bool)
    requires changed <= disk.Keys
    modifies cloud`blobs, ledger`files, ledger`report, table
    ensures UploadedSoFar(table, cloud, ledger, Work(old(table.objects), old(cloud.blobs), old(ledger.files)), s, draw,
                          disk, changed)
    ensures putNames == Names(table.objects, changed)
    ensures dirty <==> !(changed <= old(table.objects).Keys)
    ensures ledger.report == Plus(old(ledger.report), Report(0, |changed|, 0, 0))
  {
    hide UploadedSoFar, Names, Halves;
    ghost var w := Work(table.objects, cloud.blobs, ledger.files);
    putNames, dirty := {}, false;
    var todo := changed;
    ghost var done := {};
    LoopEnds(changed);
    StartUploads(table, cloud, ledger, w, s, draw, disk);
    while todo != {}
      invariant Halves(changed, todo, done)
      invariant UploadedSoFar(table, cloud, ledger, w, s, draw, disk, done)
      invariant putNames == Names(table.objects, done)
      invariant dirty <==> exists p :: p in done && p !in w.table
      invariant ledger.report == Plus(old(ledger.report), Report(0, |done|, 0, 0))
      decreases |todo|
    {
      var rel :| rel in todo;
      OneMoreDone(changed, todo, done, rel);
      if rel !in table.objects {
        dirty := true;
      }
      var name := UploadRound(cloud, ledger, table, s, draw, disk, rel, w, done);
      putNames := putNames + {name};
      todo, done := todo - {rel}, done + {rel};
    }
  }

  lemma StartUploads(table: KeyTable, cloud: Cloud, ledger: Ledger, w: Work, s: Session, draw: nat,
                     disk: map<Path, Bytes>)
    requires w == Work(table.objects, cloud.blobs, ledger.files)
    ensures UploadedSoFar(table, cloud, ledger, w, s, draw, disk, {}) && Names(table.objects, {}) == {}
  {
    NothingUploaded(w, s, draw, disk);
  }

  /** How many of the paths had a row to drop. */
  function Dropped(t: Table, done: set<Path>): nat {
    |done * t.Keys|
  }

  lemma DroppedOneMore(t: Table, done: set<Path>, p: Path)
    requires p !in done
    ensures Dropped(t, done + {p}) == Dropped(t, done) + if p in t then 1 else 0
  {
    assert (done + {p}) * t.Keys == if p in t then done * t.Keys + {p} else done * t.Keys;
  }

  // -- tombstones

  predicate TombstonedSoFar(table: KeyTable, cloud: Cloud, ledger: Ledger, w: Work, done: set<Path>)
    reads table, cloud, ledger
  {
    Work(table.objects, cloud.blobs, ledger.files) == Tombstoned(w, done)
  }

  /** Drop one path the device no longer has: its row and blob, and its record. */
  method TombstoneRound(cloud: Cloud, ledger: Ledger, table: KeyTable, rel: Path, ghost w: Work, ghost done: set<Path>)
    returns (name: Option<Name>)
    requires rel !in done && TombstonedSoFar(table, cloud, ledger, w, done)
    modifies cloud`blobs, ledger`files, ledger`report, table
    ensures TombstonedSoFar(table, cloud, ledger, w, done + {rel})
    ensures name.Some? <==> rel in w.table
    ensures Names(w.table, done + {rel}) == Names(w.table, done) + if name.Some? then {name.value} else {}
    ensures ledger.report == if name.Some? then Plus(old(ledger.report), Report(0, 0, 0, 1)) else old(ledger.report)
  {
    hide Names, Tombstoned;
    TombstoneOneMore(w, done, rel);
    var entry := table.Remove(rel);
    name := None;
    if entry.Some? {
      cloud.Delete(entry.value.blob);
      name := Some(entry.value.blob);
      ledger.report := Plus(ledger.report, Report(0, 0, 0, 1));
    }
    ledger.Forget(rel);
  }

  method TombstoneDeleted(cloud: Cloud, ledger: Ledger, table: KeyTable, deleted: set<Path>)
    returns (delNames: set<Name>, dirty: bool)
    modifies cloud`blobs, ledger`files, ledger`report, table
    ensures TombstonedSoFar(table, cloud, ledger, Work(old(table.objects), old(cloud.blobs), old(ledger.files)),
                            deleted)
    ensures delNames == Names(old(table.objects), deleted)
    ensures dirty <==> Dropped(old(table.objects), deleted) > 0
    ensures ledger.report == Plus(old(ledger.report), Report(0, 0, 0, Dropped(old(table.objects), deleted)))
  {
    hide TombstonedSoFar, Names, Halves, Dropped;
    ghost var w := Work(table.objects, cloud.blobs, ledger.files);
    delNames, dirty := {}, false;
    var todo := deleted;
    ghost var done := {};
    LoopEnds(deleted);
    StartTombstones(table, cloud, ledger, w);
    while todo != {}
      invariant Halves(deleted, todo, done)
      invariant TombstonedSoFar(table, cloud, ledger, w, done)
      invariant delNames == Names(w.table, done)
      invariant dirty <==> Dropped(w.table, done) > 0
      invariant ledger.report == Plus(old(ledger.report), Report(0, 0, 0, Dropped(w.table, done)))
      decreases |todo|
    {
      var rel :| rel in todo;
      OneMoreDone(deleted, todo, done, rel);
      DroppedOneMore(w.table, done, rel);
      var name := TombstoneRound(cloud, ledger, table, rel, w, done);
      if name.Some? {
        delNames := delNames + {name.value};
        dirty := true;
      }
      todo, done := todo - {rel}, done + {rel};
    }
  }

  lemma StartTombstones(table: KeyTable, cloud: Cloud, ledger: Ledger, w: Work)
    requires w == Work(table.objects, cloud.blobs, ledger.files)
    ensures TombstonedSoFar(table, cloud, ledger, w, {}) && Names(w.table, {}) == {} && Dropped(w.table, {}) == 0
  {
    TombstoningNothing(w);
    assert Names(w.table, {}) == {};
  }

  // -- re-keying after a rotation

  /** The names re-keying some rows has put and tombstoned. */
  datatype Renamed = Renamed(to: set<Name>, from: set<Name>)

  function Renames(t: Table, rmk: Rmk, done: set<Path>): Renamed {
    Renamed(DerivedNames(rmk, done), Names(t, done))
  }

  predicate RekeyedSoFar(table: KeyTable, cloud: Cloud, ledger: Ledger, w: Work, s: Session, draw: nat, done: set<Path>)
    reads table, cloud, ledger
  {
    && Readable(w, s.repo, done)
    && Work(table.objects, cloud.blobs, ledger.files) == Rekeyed(w, s, draw, done)
  }

  /** Move one row to the current key: new blob first, then the old one goes. */
  method RekeyOne(cloud: Cloud, ledger: Ledger, table: KeyTable, s: Session, draw: nat, rel: Path)
    returns (old': Name, ok: bool)
    requires rel in table.objects
    modifies cloud`blobs, ledger`files, ledger`report, table
    ensures old' == old(table.objects)[rel].blob
    ensures var plain := Read(old(cloud.blobs), s.repo, rel, old(table.objects)[rel]);
      var fresh' := Minted(s.key.rmk, draw, rel);
      && ok == plain.Some?
      && (if ok then
            && table.objects == (old(table.objects) - {rel})[rel := fresh']
            && cloud.blobs == old(cloud.blobs)[fresh'.blob := Encrypt(fresh'.dek, s.repo, rel, plain.value)] - {old'}
            && ledger.files == (if rel in old(ledger.files)
                                then old(ledger.files)[rel := FileState(old(ledger.files)[rel].hash, fresh'.blob)]
                                else old(ledger.files))
            && ledger.report == Plus(old(ledger.report), Report(0, 1, 0, 0))
          else cloud.blobs == old(cloud.blobs))
  {
    hide Read;
    var row := table.objects[rel];
    old' := row.blob;
    var plain := Fetch(cloud, s, rel, row);
    if plain.None? {
      return old', false;
    }
    var removed := table.Remove(rel);
    var entry := table.Entry(s.key.rmk, rel, draw);
    cloud.Put(entry.blob, Encrypt(entry.dek, s.repo, rel, plain.value));
    cloud.Delete(old');
    if rel in ledger.files {
      ledger.Record(rel, FileState(ledger.files[rel].hash, entry.blob));
    }
    ledger.report := Plus(ledger.report, Report(0, 1, 0, 0));
    ok := true;
  }

  method RekeyRound(cloud: Cloud, ledger: Ledger, table: KeyTable, s: Session, draw: nat, rel: Path,
                    ghost w: Work, ghost done: set<Path>) returns (old': Name, ok: bool)
    requires done <= Stale(w.table, s.key.rmk) && rel in Stale(w.table, s.key.rmk) && rel !in done
    requires RekeyedSoFar(table, cloud, ledger, w, s, draw, done)
    modifies cloud`blobs, ledger`files, ledger`report, table
    ensures ok == Read(w.blobs, s.repo, rel, w.table[rel]).Some?
    ensures !ok ==> cloud.blobs == old(cloud.blobs)
    ensures ok ==>
      && RekeyedSoFar(table, cloud, ledger, w, s, draw, done + {rel})
      && Renames(w.table, s.key.rmk, done + {rel}).to
        == Renames(w.table, s.key.rmk, done).to + {BlobName(s.key.rmk, rel)}
      && Renames(w.table, s.key.rmk, done + {rel}).from == Renames(w.table, s.key.rmk, done).from + {old'}
      && ledger.report == Plus(old(ledger.report), Report(0, 1, 0, 0))
  {
    hide Resealed, RekeyedTable, RekeyedFiles, Names, DerivedNames, Stale, Read;
    RekeyLeavesOthers(w, s, draw, done, rel);
    old', ok := RekeyOne(cloud, ledger, table, s, draw, rel);
    if ok {
      assert Readable(w, s.repo, done + {rel});
      RekeyRow(w.table, s, draw, done, rel);
      RekeyNames(w.table, s.key.rmk, done, rel);
      RekeyRecord(w.files, s.key.rmk, done, rel);
      RekeyBlobs(w, s, draw, done, rel);
    }
  }

  method RekeyStale(cloud: Cloud, ledger: Ledger, table: KeyTable, s: Session, draw: nat, stale: set<Path>)
    returns (putNames: set<Name>, delNames: set<Name>, ok: bool)
    requires stale <= Stale(table.objects, s.key.rmk)
    modifies cloud`blobs, ledger`files, ledger`report, table
    ensures var w := Work(old(table.objects), old(cloud.blobs), old(ledger.files));
      && ok == Readable(w, s.repo, stale)
      && (ok ==> && RekeyedSoFar(table, cloud, ledger, w, s, draw, stale)
                 && Renamed(putNames, delNames) == Renames(w.table, s.key.rmk, stale)
                 && ledger.report == Plus(old(ledger.report), Report(0, |stale|, 0, 0)))
    ensures Lookup(cloud.blobs, Manifest) == Lookup(old(cloud.blobs), Manifest)
  {
    hide RekeyedSoFar, Renames, Halves, Stale, Read, Readable, Names, DerivedNames, Plus;
    ghost var w := Work(table.objects, cloud.blobs, ledger.files);
    putNames, delNames := {}, {};
    var todo := stale;
    ghost var done := {};
    LoopEnds(stale);
    StartRekeying(table, cloud, ledger, w, s, draw);
    NoneCounted(ledger.report);
    while todo != {}
      invariant Halves(stale, todo, done) && done <= stale
      invariant RekeyedSoFar(table, cloud, ledger, w, s, draw, done)
      invariant Renamed(putNames, delNames) == Renames(w.table, s.key.rmk, done)
      invariant ledger.report == Plus(old(ledger.report), Report(0, |done|, 0, 0))
      decreases |todo|
    {
      var rel :| rel in todo;
      OneMoreDone(stale, todo, done, rel);
      ManifestUntouched(table, cloud, ledger, w, s, draw, done);
      var old';
      old', ok := RekeyRound(cloud, ledger, table, s, draw, rel, w, done);
      if !ok {
        NotReadable(w, s.repo, stale, rel);
        return;
      }
      OneMoreCounted(old(ledger.report), done, rel);
      putNames, delNames := putNames + {BlobName(s.key.rmk, rel)}, delNames + {old'};
      todo, done := todo - {rel}, done + {rel};
    }
    ManifestUntouched(table, cloud, ledger, w, s, draw, done);
    ReadableSoFar(table, cloud, ledger, w, s, draw, done);
    ok := true;
  }

  lemma NoneCounted(before: Report)
    ensures var none: set<Path> := {}; Plus(before, Report(0, |none|, 0, 0)) == before
  {
  }

  lemma OneMoreCounted(before: Report, done: set<Path>, p: Path)
    requires p !in done
    ensures Plus(Plus(before, Report(0, |done|, 0, 0)), Report(0, 1, 0, 0))
         == Plus(before, Report(0, |done + {p}|, 0, 0))
  {
  }

  lemma NotReadable(w: Work, repo: string, paths: set<Path>, p: Path)
    requires p in paths && p in w.table && Read(w.blobs, repo, p, w.table[p]).None?
    ensures !Readable(w, repo, paths)
  {
  }

  lemma StartRekeying(table: KeyTable, cloud: Cloud, ledger: Ledger, w: Work, s: Session, draw: nat)
    requires w == Work(table.objects, cloud.blobs, ledger.files)
    ensures RekeyedSoFar(table, cloud, ledger, w, s, draw, {}) && Renames(w.table, s.key.rmk, {}) == Renamed({}, {})
  {
    RekeyingNothing(w, s, draw);
    assert Names(w.table, {}) == {} && DerivedNames(s.key.rmk, {}) == {};
  }

  lemma ReadableSoFar(table: KeyTable, cloud: Cloud, ledger: Ledger, w: Work, s: Session, draw: nat, done: set<Path>)
    requires RekeyedSoFar(table, cloud, ledger, w, s, draw, done)
    ensures Readable(w, s.repo, done)
  {
  }

  lemma ManifestUntouched(table: KeyTable, cloud: Cloud, ledger: Ledger, w: Work, s: Session, draw: nat,
                          done: set<Path>)
    requires RekeyedSoFar(table, cloud, ledger, w, s, draw, done)
    ensures Lookup(cloud.blobs, Manifest) == Lookup(w.blobs, Manifest)
  {
  }

  // -- the whole push

  /** What the content loops announce. */
  lemma AnnouncedByContent(t: Table, w: Work, s: Session, draw: nat, l: Local)
    ensures PutNames(t, s, draw, l, {}) == Names(UploadedTable(t, s, draw, Changed(l)), Changed(l))
    ensures DelNames(t, w, l, {}) == Names(t, Deleted(l))
  {
    hide UploadedTable, Changed, Deleted;
    NoNames(w.table, s.key.rmk);
  }

  /** The upload and tombstone loops. */
  method PushContent(cloud: Cloud, vault: Vault, ledger: Ledger, table: KeyTable, s: Session, draw: nat,
                     changed: set<Path>, deleted: set<Path>)
    returns (putNames: set<Name>, delNames: set<Name>, dirty: bool)
    requires changed == Changed(Here(vault, ledger)) && deleted == Deleted(Here(vault, ledger))
    modifies cloud`blobs, ledger`files, ledger`report, table
    ensures var t, l := old(table.objects), old(Here(vault, ledger));
      && Work(table.objects, cloud.blobs, ledger.files) == PushedContent(t, old(cloud.blobs), s, draw, l)
      && putNames == PutNames(t, s, draw, l, {})
      && delNames == DelNames(t, PushedContent(t, old(cloud.blobs), s, draw, l), l, {})
      && dirty == ManifestDirty(t, l, {})
      && ledger.report == Plus(old(ledger.report), Report(0, |changed|, 0, Dropped(t, deleted)))
  {
    hide Uploaded, UploadedSoFar, UploadedTable, Names, Tombstoned, Changed, Deleted, PushedContent, Dropped,
      ManifestDirty;
    hide PutNames, DelNames, Lookup, Minted, RowFor, Plus;
    ghost var t, l, blobs := table.objects, Here(vault, ledger), cloud.blobs;
    var dropped;
    putNames, dirty := UploadChanged(cloud, ledger, table, s, draw, vault.disk, changed);
    ghost var w := Work(table.objects, cloud.blobs, ledger.files);
    UploadsDone(table, cloud, ledger, Work(t, blobs, l.files), s, draw, l.disk, changed);
    ContentIs(t, blobs, s, draw, l, w);
    TombstonesOfTable(t, s, draw, l);
    DroppedFrom(t, s, draw, l);
    DirtyIs(t, l);
    AnnouncedByContent(t, PushedContent(t, blobs, s, draw, l), s, draw, l);
    ghost var pushed := ledger.report;
    delNames, dropped := TombstoneDeleted(cloud, ledger, table, deleted);
    dirty := dirty || dropped;
    BothCounted(old(ledger.report), pushed, |changed|, Dropped(t, deleted));
  }

  lemma BothCounted(before: Report, between: Report, pushed: nat, dropped: nat)
    requires between == Plus(before, Report(0, pushed, 0, 0))
    ensures Plus(between, Report(0, 0, 0, dropped)) == Plus(before, Report(0, pushed, 0, dropped))
  {
  }

  lemma UploadsDone(table: KeyTable, cloud: Cloud, ledger: Ledger, w: Work, s: Session, draw: nat,
                    disk: map<Path, Bytes>, changed: set<Path>)
    requires UploadedSoFar(table, cloud, ledger, w, s, draw, disk, changed)
    ensures changed <= disk.Keys
    ensures Work(table.objects, cloud.blobs, ledger.files) == Uploaded(w, s, draw, disk, changed)
  {
  }

  lemma ContentIs(t: Table, blobs: map<Name, Blob>, s: Session, draw: nat, l: Local, w: Work)
    requires w == Uploaded(Work(t, blobs, l.files), s, draw, l.disk, Changed(l))
    ensures Tombstoned(w, Deleted(l)) == PushedContent(t, blobs, s, draw, l)
    ensures w.table == UploadedTable(t, s, draw, Changed(l))
  {
    hide UploadedTable, UploadedFiles, SealedFiles, Tombstoned, Changed, Deleted;
  }

  lemma DroppedFrom(t: Table, s: Session, draw: nat, l: Local)
    ensures Dropped(UploadedTable(t, s, draw, Changed(l)), Deleted(l)) == Dropped(t, Deleted(l))
  {
    var up := UploadedTable(t, s, draw, Changed(l));
    assert up.Keys == t.Keys + Changed(l);
    assert Deleted(l) !! Changed(l);
    assert Deleted(l) * up.Keys == Deleted(l) * t.Keys;
  }

  lemma DirtyIs(t: Table, l: Local)
    ensures ManifestDirty(t, l, {}) <==> (!(Changed(l) <= t.Keys) || Dropped(t, Deleted(l)) > 0)
  {
  }

  /** The closing manifest and op. */
  method Announce(cloud: Cloud, table: KeyTable, s: Session, put: set<Name>, del: set<Name>, dirty: bool)
    modifies cloud
    ensures forall files ::
      cloud.Contents() == Announced(old(cloud.ops), Work(table.objects, old(cloud.blobs), files), s, put, del, dirty)
  {
    if dirty {
      var sealed := table.Seal(s.key.rmk, s.repo);
      cloud.Put(Manifest, sealed);
    }
    if put != {} || del != {} {
      cloud.Append(Op(s.device, 1, put, del, dirty));
    }
  }

  /** What `Finish` announces, told from what the content loops announced. */
  lemma AnnouncedBy(t: Table, w: Work, s: Session, draw: nat, l: Local, stale: set<Path>)
    ensures PutNames(t, s, draw, l, stale) == PutNames(t, s, draw, l, {}) + DerivedNames(s.key.rmk, stale)
    ensures DelNames(t, w, l, stale) == DelNames(t, w, l, {}) + Names(w.table, stale)
    ensures ManifestDirty(t, l, stale) == (ManifestDirty(t, l, {}) || stale != {})
    ensures |Deleted(l) * t.Keys| == Dropped(t, Deleted(l))
  {
    hide Names, DerivedNames, UploadedTable, Changed, Deleted;
    AnnouncedByContent(t, w, s, draw, l);
  }

  /** A push in terms of what its content loops announced. */
  lemma PushTableIs(t: Table, shared: Shared, s: Session, draw: nat, l: Local, generation: int, w: Work,
                    put: set<Name>, del: set<Name>, dirty: bool, stale: set<Path>)
    requires w == PushedContent(t, shared.blobs, s, draw, l) && stale == Rekeying(w.table, generation, s)
    requires put == PutNames(t, s, draw, l, {}) && del == DelNames(t, w, l, {}) && dirty == ManifestDirty(t, l, {})
    ensures PushTable(t, shared, s, draw, l, generation) ==
      if !Readable(w, s.repo, stale) then Err
      else Ok(Pushed(Announced(shared.ops, Rekeyed(w, s, draw, stale), s, put + DerivedNames(s.key.rmk, stale),
                               del + Names(w.table, stale), dirty || stale != {}),
                     Rekeyed(w, s, draw, stale).files,
                     Report(0, |Changed(l)| + |stale|, 0, Dropped(t, Deleted(l)))))
  {
    hide Names, DerivedNames, UploadedTable, Rekeyed, Announced, Changed, Deleted, Readable, PushedContent, Rekeying;
    hide PutNames, DelNames, ManifestDirty, Dropped, Finish;
    AnnouncedBy(t, w, s, draw, l, stale);
    FinishIs(t, w, shared.ops, s, draw, l, generation, stale);
  }

  lemma FinishIs(t: Table, w: Work, ops: seq<Op>, s: Session, draw: nat, l: Local, generation: int, stale: set<Path>)
    requires stale == Rekeying(w.table, generation, s)
    ensures Finish(t, w, ops, s, draw, l, generation) ==
      if !Readable(w, s.repo, stale) then Err
      else Ok(Pushed(Announced(ops, Rekeyed(w, s, draw, stale), s, PutNames(t, s, draw, l, stale),
                               DelNames(t, w, l, stale), ManifestDirty(t, l, stale)),
                     Rekeyed(w, s, draw, stale).files,
                     Report(0, |Changed(l)| + |stale|, 0, |Deleted(l) * t.Keys|)))
  {
    hide Rekeyed, Announced, Changed, Deleted, Readable, Rekeying, PutNames, DelNames, ManifestDirty;
  }

  /** The re-key loop, the manifest and the op. */
  method FinishPush(cloud: Cloud, ledger: Ledger, table: KeyTable, s: Session, draw: nat,
                    put: set<Name>, del: set<Name>, dirty: bool, rekey: bool) returns (ghost stale: set<Path>, ok: bool)
    requires rekey == RekeyNeeded(ledger.generation, s)
    modifies cloud, ledger`files, ledger`report, table
    ensures var w := Work(old(table.objects), old(cloud.blobs), old(ledger.files));
      && stale == Rekeying(w.table, ledger.generation, s)
      && ok == Readable(w, s.repo, stale)
      && (if ok then
            && cloud.Contents() == Announced(old(cloud.ops), Rekeyed(w, s, draw, stale), s,
                                             put + DerivedNames(s.key.rmk, stale),
                                             del + Names(w.table, stale), dirty || stale != {})
            && ledger.files == Rekeyed(w, s, draw, stale).files
            && ledger.report == Plus(old(ledger.report), Report(0, |stale|, 0, 0))
          else cloud.ops == old(cloud.ops) && Lookup(cloud.blobs, Manifest) == Lookup(old(cloud.blobs), Manifest))
  {
    hide Stale, Readable, Rekeyed, RekeyNeeded;
    var renamed := if rekey then Stale(table.objects, s.key.rmk) else {};
    stale := renamed;
    var renamedTo, renamedFrom;
    renamedTo, renamedFrom, ok := RekeyStale(cloud, ledger, table, s, draw, renamed);
    if ok {
      Announce(cloud, table, s, put + renamedTo, del + renamedFrom, dirty || renamed != {});
    }
  }

  /** The loops and the announcement, with the table in hand. */
  method PushWith(cloud: Cloud, vault: Vault, ledger: Ledger, s: Session, draw: nat, t: Table,
                  changed: set<Path>, deleted: set<Path>, rekey: bool) returns (ok: bool)
    requires changed == Changed(Here(vault, ledger)) && deleted == Deleted(Here(vault, ledger))
    requires rekey == RekeyNeeded(ledger.generation, s)
    modifies cloud, ledger`files, ledger`report
    ensures var was := PushTable(t, old(cloud.Contents()), s, draw, old(Here(vault, ledger)), ledger.generation);
      if was.Ok?
      then ok && cloud.Contents() == was.value.shared && ledger.files == was.value.files
           && ledger.report == Plus(old(ledger.report), was.value.report)
      else !ok && cloud.ops == old(cloud.ops) && Lookup(cloud.blobs, Manifest) == Lookup(old(cloud.blobs), Manifest)
  {
    hide Names, DerivedNames, Readable, Rekeyed, Changed, Deleted, PushedContent, Announced, RekeyNeeded, Rekeying,
      PushTable;
    hide ManifestDirty, Dropped, PutNames, DelNames;
    ghost var l, blobs := Here(vault, ledger), cloud.blobs;
    var table := new KeyTable(t);
    var putNames, delNames, dirty := PushContent(cloud, vault, ledger, table, s, draw, changed, deleted);
    ContentManifest(t, blobs, s, draw, l);
    ghost var w, stale := PushedContent(t, blobs, s, draw, l), {};
    stale, ok := FinishPush(cloud, ledger, table, s, draw, putNames, delNames, dirty, rekey);
    PushTableIs(t, old(cloud.Contents()), s, draw, l, ledger.generation, w, putNames, delNames, dirty, stale);
  }

  /** The push phase: scan, diff against the records, and push what differs. */
  method PushPhase(cloud: Cloud, vault: Vault, ledger: Ledger, s: Session, draw: nat, cached: Option<Table>)
    returns (ok: bool)
    modifies cloud, ledger`files, ledger`report
    ensures var was := Push(old(cloud.Contents()), s, draw, old(Here(vault, ledger)), ledger.generation, cached);
      if was.Ok?
      then ok && cloud.Contents() == was.value.shared && ledger.files == was.value.files
           && ledger.report == Plus(old(ledger.report), was.value.report)
      else !ok && cloud.ops == old(cloud.ops) && Lookup(cloud.blobs, Manifest) == Lookup(old(cloud.blobs), Manifest)
  {
    hide PushTable, Changed, Deleted;
    var changed := set p | p in vault.disk && match Lookup(ledger.files, p)
                     case Some(known) => ContentHash(vault.disk[p]) != known.hash
                     case None => true;
    var deleted := set p | p in ledger.files && p !in vault.disk;
    DiffIs(Here(vault, ledger), changed, deleted);
    var rekey := ledger.generation != s.key.generation && ledger.generation != 0;
    if changed == {} && deleted == {} && !rekey {
      return true;
    }
    var t: Table;
    if cached.Some? {
      t := cached.value;
    } else {
      var fetched := FetchManifest(cloud, s);
      if fetched.Err? {
        return false;
      }
      t := if fetched.value.Some? then fetched.value.value else map[];
    }
    ok := PushWith(cloud, vault, ledger, s, draw, t, changed, deleted, rekey);
  }

  lemma DiffIs(l: Local, changed: set<Path>, deleted: set<Path>)
    requires changed == set p | p in l.disk && match Lookup(l.files, p)
                          case Some(known) => ContentHash(l.disk[p]) != known.hash
                          case None => true
    requires deleted == set p | p in l.files && p !in l.disk
    ensures changed == Changed(l) && deleted == Deleted(l)
  {
  }

  // -------------------------------------------------------------------------
  // Whole calls
  // -------------------------------------------------------------------------

  /** No local file the device's state does not vouch for has changed. */
  ghost predicate KeepsOwn(d: Device, after: map<Path, Bytes>) {
    forall p :: Unsynced(d, p) ==> Lookup(after, p) == Some(d.disk[p])
  }

  lemma KeptIsKeepsOwn(d: Device, after: map<Path, Bytes>)
    requires Kept(d.disk, after)
    ensures KeepsOwn(d, after)
  {
  }

  lemma PulledKeepsOwn(d: Device, after: map<Path, Bytes>)
    requires d.state.Some? && KeepsUnsynced(Local(d.disk, d.state.value.files), after)
    ensures KeepsOwn(d, after)
  {
    forall p | Unsynced(d, p) ensures Lookup(after, p) == Some(d.disk[p]) {
      assert SlotAt(Local(d.disk, d.state.value.files), p) == Slot(Some(d.disk[p]), Lookup(RecordsOf(d).files, p));
    }
  }

  /** How a call left the vault and the cloud, told as an outcome. */
  datatype Ending = GaveUp | Broke | Finished(report: Report)

  /** Only first contact saves before the call is over. */
  predicate SavedFirstContact(shared: Shared, s: Session, d: Device, saved: Option<SyncState>) {
    d.state.None? && Adopt(shared, s, d.disk).Ok? && saved == Some(Adopt(shared, s, d.disk).value.state)
  }

  predicate SavedByFirstContact(shared: Shared, repo: string, id: DeviceId, wrap: Option<KeyGen>, d: Device,
                                saved: Option<SyncState>) {
    var key := CurrentRmk(d.key, wrap, shared.blobs, repo);
    key.Some? && SavedFirstContact(shared, Session(repo, id, key.value), d, saved)
  }

  lemma OwnIsKept(d: Device)
    ensures KeepsOwn(d, d.disk)
  {
  }

  /** Within a session the stored key plays no part. */
  lemma KeyMattersNot(shared: Shared, s: Session, draw: nat, d: Device, d': Device)
    requires d'.disk == d.disk && d'.state == d.state
    ensures CycleIn(shared, s, draw, d) == CycleIn(shared, s, draw, d')
    ensures forall after :: KeepsOwn(d', after) ==> KeepsOwn(d, after)
    ensures forall saved :: SavedFirstContact(shared, s, d', saved) == SavedFirstContact(shared, s, d, saved)
  {
    hide Pull, Push, Adopt;
    forall after | KeepsOwn(d', after) ensures KeepsOwn(d, after) {
      forall p | Unsynced(d, p) ensures Lookup(after, p) == Some(d.disk[p]) {
        assert Unsynced(d', p);
      }
    }
  }

  /** A whole cycle, from the key to the saved state. */
  method CycleRun(cloud: Cloud, vault: Vault, repo: string, id: DeviceId, wrap: Option<KeyGen>, draw: nat)
    returns (ending: Ending)
    modifies cloud, vault
    ensures match Cycle(old(cloud.Contents()), repo, id, wrap, draw, old(vault.AsDevice()))
      case Refused => ending == GaveUp && cloud.Contents() == old(cloud.Contents())
        && vault.AsDevice() == old(vault.AsDevice())
      case Failed => ending == Broke
        && (vault.saved == old(vault.saved)
            || SavedByFirstContact(old(cloud.Contents()), repo, id, wrap, old(vault.AsDevice()), vault.saved))
        && vault.key == CurrentRmk(old(vault.key), wrap, old(cloud.blobs), repo)
        && cloud.ops == old(cloud.ops) && Lookup(cloud.blobs, Manifest) == Lookup(old(cloud.blobs), Manifest)
      case Done(shared, device, report) =>
        ending == Finished(report) && cloud.Contents() == shared && vault.AsDevice() == device
    ensures KeepsOwn(old(vault.AsDevice()), vault.disk)
  {
    hide CycleIn, KeepsOwn, SavedFirstContact, OpensManifest;
    ghost var d := vault.AsDevice();
    OwnIsKept(d);
    var session := OpenSession(cloud, vault, repo, id, wrap);
    if session.None? {
      return GaveUp;
    }
    KeyMattersNot(cloud.Contents(), session.value, draw, d, vault.AsDevice());
    ending := CycleWith(cloud, vault, session.value, draw);
  }

  method CycleWith(cloud: Cloud, vault: Vault, s: Session, draw: nat) returns (ending: Ending)
    requires vault.key == Some(s.key)
    modifies cloud, vault`disk, vault`saved
    ensures match CycleIn(old(cloud.Contents()), s, draw, old(vault.AsDevice()))
      case Refused => false
      case Failed => ending == Broke
        && (vault.saved == old(vault.saved)
            || SavedFirstContact(old(cloud.Contents()), s, old(vault.AsDevice()), vault.saved))
        && cloud.ops == old(cloud.ops) && Lookup(cloud.blobs, Manifest) == Lookup(old(cloud.blobs), Manifest)
      case Done(shared, device, report) =>
        ending == Finished(report) && cloud.Contents() == shared && vault.AsDevice() == device
    ensures KeepsOwn(old(vault.AsDevice()), vault.disk)
  {
    hide Pull, Push, Adopt, KeepsUnsynced, Kept, KeepsOwn;
    ghost var d := vault.AsDevice();
    var ledger;
    if vault.saved.Some? {
      ledger := new Ledger(vault.saved.value);
    } else {
      var ok;
      ledger, ok := InitialSync(cloud, vault, s);
      KeptIsKeepsOwn(d, vault.disk);
      if !ok {
        return Broke;
      }
      NothingToPull(cloud.Contents(), s, vault.disk, ledger.State());
    }
    var cached := PullPhase(cloud, vault, ledger, s);
    if d.state.Some? {
      PulledKeepsOwn(d, vault.disk);
    }
    if cached.Err? {
      return Broke;
    }
    var ok := PushPhase(cloud, vault, ledger, s, draw, cached.value);
    if !ok {
      return Broke;
    }
    ledger.generation := s.key.generation;
    vault.saved := Some(ledger.State());
    return Finished(ledger.report);
  }

  /** The push half alone. */
  method PushOnlyRun(cloud: Cloud, vault: Vault, repo: string, id: DeviceId, wrap: Option<KeyGen>, draw: nat)
    returns (ending: Ending)
    modifies cloud, vault`key, vault`saved
    ensures match PushOnly(old(cloud.Contents()), repo, id, wrap, draw, old(vault.AsDevice()))
      case Refused => ending == GaveUp && cloud.Contents() == old(cloud.Contents())
        && vault.AsDevice() == old(vault.AsDevice())
      case Failed => ending == Broke && vault.saved == old(vault.saved)
        && vault.key == CurrentRmk(old(vault.key), wrap, old(cloud.blobs), repo)
        && cloud.ops == old(cloud.ops) && Lookup(cloud.blobs, Manifest) == Lookup(old(cloud.blobs), Manifest)
      case Done(shared, device, report) =>
        ending == Finished(report) && cloud.Contents() == shared && vault.AsDevice() == device
  {
    var session := OpenSession(cloud, vault, repo, id, wrap);
    if session.None? {
      return GaveUp;
    }
    ending := PushOnlyWith(cloud, vault, session.value, draw);
  }

  method PushOnlyWith(cloud: Cloud, vault: Vault, s: Session, draw: nat) returns (ending: Ending)
    requires vault.key == Some(s.key)
    modifies cloud, vault`saved
    ensures match PushOnlyIn(old(cloud.Contents()), s, draw, old(vault.AsDevice()))
      case Refused => false
      case Failed => ending == Broke && vault.saved == old(vault.saved)
        && cloud.ops == old(cloud.ops) && Lookup(cloud.blobs, Manifest) == Lookup(old(cloud.blobs), Manifest)
      case Done(shared, device, report) =>
        ending == Finished(report) && cloud.Contents() == shared && vault.AsDevice() == device
  {
    hide Push, Lookup, SavedOr;
    var ledger := new Ledger(SavedOr(vault.AsDevice(), s.key.generation));
    var ok := PushPhase(cloud, vault, ledger, s, draw, None);
    if !ok {
      return Broke;
    }
    ledger.generation := s.key.generation;
    vault.saved := Some(ledger.State());
    return Finished(ledger.report);
  }

  /** A manual pull, from the key to the saved state. */
  method PullAllRun(cloud: Cloud, vault: Vault, repo: string, id: DeviceId, wrap: Option<KeyGen>)
    returns (ending: Ending)
    modifies vault
    ensures match PullAll(cloud.Contents(), repo, id, wrap, old(vault.AsDevice()))
      case Refused => ending == GaveUp && vault.AsDevice() == old(vault.AsDevice())
      case Failed => ending == Broke && vault.saved == old(vault.saved)
        && vault.key == CurrentRmk(old(vault.key), wrap, cloud.blobs, repo)
        && (Manifest !in cloud.blobs ==> vault.disk == old(vault.disk))
      case Done(_, device, report) => ending == Finished(report) && vault.AsDevice() == device
  {
    hide PullAllIn, OpensManifest;
    var session := OpenSession(cloud, vault, repo, id, wrap);
    if session.None? {
      return GaveUp;
    }
    ghost var d := vault.AsDevice();
    PullKeyMattersNot(cloud.Contents(), session.value, old(vault.AsDevice()), d);
    var written := PullAllWith(cloud, vault, session.value);
    ending := if written.Some? then Finished(Report(written.value, 0, 0, 0)) else Broke;
  }

  lemma PullKeyMattersNot(shared: Shared, s: Session, d: Device, d': Device)
    requires d' == d.(key := d'.key)
    ensures PullAllIn(shared, s, d') == PullAllIn(shared, s, d)
    ensures PullAllIn(shared, s, d).Done? ==> PullAllIn(shared, s, d).device.key == Some(s.key)
    ensures !PullAllIn(shared, s, d).Refused?
  {
  }
}
