/**
 * How one device stays in step with the cloud: what a state must still remember
 * about ops it has not read (`Tracks`), what a push's op tells the others
 * (`Describes`), and what a whole cycle reaches (`Synced`).
 */
module SyncAgreement {
  import opened Prelude
  import opened SyncCrypto
  import opened SyncModel
  import opened SyncPhases

  // -------------------------------------------------------------------------
  // Relations between a device and the cloud
  // -------------------------------------------------------------------------

  /** `files` records path `p` exactly as the cloud has it. */
  predicate RecordsRow(files: Files, t: Table, view: map<Path, Bytes>, p: Path)
    requires p in t
  {
    p in view && Lookup(files, p) == Some(FileState(ContentHash(view[p]), t[p].blob))
  }

  /**
   * Whatever the unread foreign ops (`put`, `del`) do not mention, the state already has
   * right: rows not announced are recorded exactly, names not tombstoned are current.
   */
  predicate Tracks(files: Files, t: Table, view: map<Path, Bytes>, put: set<Name>, del: set<Name>) {
    && (forall p :: p in t ==> t[p].blob in put || RecordsRow(files, t, view, p))
    && (forall p :: p in files ==> files[p].blob in del || (p in t && files[p].blob == t[p].blob))
  }

  /** The names an op carries account for every difference between two cloud tables and their views. */
  predicate Describes(put: set<Name>, del: set<Name>,
                      t: Table, view: map<Path, Bytes>, t': Table, view': map<Path, Bytes>)
  {
    && (forall n :: n in put ==> n.Derived? && n.rel in t' && (t'[n.rel].blob == n || n in del))
    && (forall n :: n in del ==> n.Derived? && !(n.rel in t' && t'[n.rel].blob == n))
    && (forall p :: p in t' && t'[p].blob !in put ==>
          p in t && t[p].blob == t'[p].blob && Lookup(view', p) == Lookup(view, p))
    && (forall p :: p in t && !(p in t' && t'[p].blob == t[p].blob) ==> t[p].blob in del)
  }

  /** Disk, records and cloud say the same about every path. */
  predicate Synced(disk: map<Path, Bytes>, files: Files, t: Table, view: map<Path, Bytes>) {
    && disk == view && view.Keys == t.Keys
    && files == Recorded(t, view)
  }

  /** After a pull: each cloud row is recorded exactly or overridden by a local change. */
  predicate Ready(l: Local, t: Table, view: map<Path, Bytes>) {
    && l.files.Keys <= t.Keys
    && (forall p :: p in t ==> RecordsRow(l.files, t, view, p) || p in Changed(l))
  }

  predicate ReadableOps(ops: seq<Op>) {
    forall i :: 0 <= i < |ops| ==> ops[i].v == 1
  }

  /** The shared store is consistent: every row decrypts, no blob is left over, every op is readable. */
  predicate Healthy(shared: Shared, repo: string) {
    var t := CloudTable(shared.blobs, repo);
    && (Manifest in shared.blobs ==> shared.blobs[Manifest].SealedTable? && shared.blobs[Manifest].repoOfTable == repo)
    && Intact(shared.blobs, repo, t)
    && NoOrphans(shared.blobs, t)
    && ReadableOps(shared.ops)
  }

  /** The records a device goes by: the saved ones, or none. */
  function RecordsOf(d: Device): SyncState {
    SavedOr(d, 0)
  }

  function Pending(shared: Shared, id: DeviceId, d: Device): Net {
    Collapse(OpsSince(shared.ops, RecordsOf(d).cursor), id)
  }

  /** The device invariant. */
  predicate InStep(shared: Shared, repo: string, id: DeviceId, d: Device) {
    && RecordsOf(d).cursor <= |shared.ops|
    && Tracks(RecordsOf(d).files, CloudTable(shared.blobs, repo), CloudView(shared.blobs, repo),
              Pending(shared, id, d).put, Pending(shared, id, d).del)
  }

  // -------------------------------------------------------------------------
  // Ops tell the others everything they need
  // -------------------------------------------------------------------------

  /** A described change keeps every other device in step, whatever it has not read yet. */
  lemma DescribedChangeIsTracked(files: Files, put: set<Name>, del: set<Name>, unreadPut: set<Name>,
                                 unreadDel: set<Name>,
                                 t: Table, view: map<Path, Bytes>, t': Table, view': map<Path, Bytes>)
    requires Describes(put, del, t, view, t', view')
    requires Tracks(files, t, view, unreadPut, unreadDel)
    ensures Tracks(files, t', view', unreadPut + put - del, unreadDel - put + del)
  {
    forall p | p in t' && t'[p].blob !in unreadPut + put - del
      ensures RecordsRow(files, t', view', p)
    {
      assert t'[p].blob !in del;
      assert t[p].blob == t'[p].blob;
      assert RecordsRow(files, t, view, p);
    }
    forall p | p in files && files[p].blob !in unreadDel - put + del
      ensures p in t' && files[p].blob == t'[p].blob
    {
      var n := files[p].blob;
      assert n.rel == p;
      if n in unreadDel {
        assert n in put;
      } else {
        assert p in t && n == t[p].blob;
      }
    }
  }

  /** The op a push appends describes exactly what the push did. */
  lemma PushIsDescribed(t: Table, shared: Shared, s: Session, draw: nat, l: Local, generation: int)
    requires FetchOrEmpty(shared.blobs, s) == Ok(t)
    requires PushTable(t, shared, s, draw, l, generation).Ok?
    ensures var stale := Rekeying(ContentTable(t, s, draw, l), generation, s);
      var blobs' := PushTable(t, shared, s, draw, l, generation).value.shared.blobs;
      Describes(PutNames(t, s, draw, l, stale), DelNames(t, PushedContent(t, shared.blobs, s, draw, l), l, stale),
                t, View(shared.blobs, s.repo, t),
                PushedTable(t, s, draw, l, generation), CloudView(blobs', s.repo))
  {
    var content := ContentTable(t, s, draw, l);
    var stale := Rekeying(content, generation, s);
    var t' := PushedTable(t, s, draw, l, generation);
    var put := PutNames(t, s, draw, l, stale);
    var del := Names(t, Deleted(l)) + Names(content, stale);
    var up := UploadedTable(t, s, draw, Changed(l));
    forall n | n in put
      ensures n.Derived? && n.rel in t' && (t'[n.rel].blob == n || n in del)
    {
      PushEntry(t, s, draw, l, generation, n.rel);
    }
    forall n | n in del
      ensures n.Derived? && !(n.rel in t' && t'[n.rel].blob == n)
    {
      PushEntry(t, s, draw, l, generation, n.rel);
    }
    forall p | p in t' && (p in stale || p in Changed(l))
      ensures t'[p].blob in put
    {
      PushEntry(t, s, draw, l, generation, p);
      assert p in stale ==> t'[p].blob in DerivedNames(s.key.rmk, stale);
      assert p in Changed(l) ==> up[p].blob in Names(up, Changed(l));
    }
    forall p | p in t' && t'[p].blob !in put
      ensures p in t && t[p].blob == t'[p].blob
      ensures Lookup(CloudView(PushTable(t, shared, s, draw, l, generation).value.shared.blobs, s.repo), p)
           == Lookup(View(shared.blobs, s.repo, t), p)
    {
      PushEntry(t, s, draw, l, generation, p);
      PushView(t, shared, s, draw, l, generation, p);
    }
    forall p | p in t && !(p in t' && t'[p].blob == t[p].blob)
      ensures t[p].blob in del
    {
      PushEntry(t, s, draw, l, generation, p);
      assert p in Deleted(l) ==> t[p].blob in Names(t, Deleted(l));
    }
  }

  // -------------------------------------------------------------------------
  // A pull catches up
  // -------------------------------------------------------------------------

  lemma PulledSlotIsReady(l: Local, l': Local, t: Table, view: map<Path, Bytes>, n: Net, p: Path)
    requires view.Keys == t.Keys && Tracks(l.files, t, view, n.put, n.del)
    requires SlotAt(l', p) == PullSlot(p, SlotAt(l, p), t, view, n)
    ensures p in t ==> RecordsRow(l'.files, t, view, p) || p in Changed(l')
    ensures p in l'.files ==> p in t
  {
    assert Lookup(l'.files, p) == SlotAt(l', p).known && Lookup(l'.disk, p) == SlotAt(l', p).file;
    if p in t {
      assert t[p].blob in n.put || RecordsRow(l.files, t, view, p);
    }
    if p in l.files {
      assert l.files[p].blob in n.del || (p in t && l.files[p].blob == t[p].blob);
    }
  }

  lemma PulledRow(l: Local, t: Table, view: map<Path, Bytes>, n: Net, p: Path)
    requires view.Keys == t.Keys && Tracks(l.files, t, view, n.put, n.del)
    ensures var l' := PullLocal(l, t, view, n);
      && (p in t ==> RecordsRow(l'.files, t, view, p) || p in Changed(l'))
      && (p in l'.files ==> p in t)
  {
    hide Tracks, PullSlot, RecordsRow, Changed;
    PulledSlotIsReady(l, PullLocal(l, t, view, n), t, view, n, p);
  }

  lemma PulledIsReady(l: Local, t: Table, view: map<Path, Bytes>, n: Net)
    requires view.Keys == t.Keys && Tracks(l.files, t, view, n.put, n.del)
    ensures Ready(PullLocal(l, t, view, n), t, view)
  {
    hide Tracks, PullLocal, RecordsRow, Changed;
    var l' := PullLocal(l, t, view, n);
    forall p ensures (p in t ==> RecordsRow(l'.files, t, view, p) || p in Changed(l')) && (p in l'.files ==> p in t) {
      PulledRow(l, t, view, n, p);
    }
  }

  /** With nothing unread, tracked records are already exact. */
  lemma TrackedIsReady(l: Local, t: Table, view: map<Path, Bytes>)
    requires Tracks(l.files, t, view, {}, {})
    ensures Ready(l, t, view)
  {
  }

  lemma IntactView(blobs: map<Name, Blob>, repo: string, t: Table)
    requires Intact(blobs, repo, t)
    ensures View(blobs, repo, t).Keys == t.Keys
  {
  }

  /** In a healthy cloud a pull succeeds and leaves only local changes to push. */
  lemma PullReadies(shared: Shared, s: Session, disk: map<Path, Bytes>, state: SyncState)
    requires Healthy(shared, s.repo) && OpensManifest(shared.blobs, s.key.rmk, s.repo)
    requires state.cursor <= |shared.ops|
    requires var n := Collapse(OpsSince(shared.ops, state.cursor), s.device);
      Tracks(state.files, CloudTable(shared.blobs, s.repo), CloudView(shared.blobs, s.repo), n.put, n.del)
    ensures var t := CloudTable(shared.blobs, s.repo);
      && FetchOrEmpty(shared.blobs, s) == Ok(t)
      && Pull(shared, s, disk, state).Ok?
      && var r := Pull(shared, s, disk, state).value;
      && Ready(Local(r.disk, r.state.files), t, CloudView(shared.blobs, s.repo))
      && r.state.cursor == |shared.ops| && r.state.generation == state.generation
      && (r.cached.None? || r.cached == Some(t))
  {
    hide PullLocal, Ready, Tracks, View, Clean;
    var t := CloudTable(shared.blobs, s.repo);
    var view := CloudView(shared.blobs, s.repo);
    var batch := OpsSince(shared.ops, state.cursor);
    var n := Collapse(batch, s.device);
    FetchedTable(shared.blobs, s);
    IntactView(shared.blobs, s.repo, t);
    if batch != [] && n != NO_NEWS {
      PulledIsReady(Local(disk, state.files), t, view, n);
    } else {
      TrackedIsReady(Local(disk, state.files), t, view);
    }
  }

  // -------------------------------------------------------------------------
  // A push settles
  // -------------------------------------------------------------------------

  /** From a ready device, a push makes the cloud, the records and the disk agree on each path. */
  lemma SettledRow(t: Table, shared: Shared, s: Session, draw: nat, l: Local, generation: int, p: Path)
    requires Intact(shared.blobs, s.repo, t) && FetchOrEmpty(shared.blobs, s) == Ok(t)
    requires Ready(l, t, View(shared.blobs, s.repo, t))
    requires PushTable(t, shared, s, draw, l, generation).Ok?
    ensures var r := PushTable(t, shared, s, draw, l, generation).value;
      var t' := CloudTable(r.shared.blobs, s.repo);
      && Lookup(CloudView(r.shared.blobs, s.repo), p) == Lookup(l.disk, p)
      && Lookup(r.files, p) == (if p in l.disk && p in t' then Some(FileState(ContentHash(l.disk[p]), t'[p].blob))
                                else None)
      && (p in l.disk <==> p in t')
  {
    PushView(t, shared, s, draw, l, generation, p);
    PushRecord(t, shared, s, draw, l, generation, p);
    PushEntry(t, s, draw, l, generation, p);
  }

  lemma SyncedByRows(disk: map<Path, Bytes>, files: Files, t: Table, view: map<Path, Bytes>)
    requires forall p ::
      && Lookup(view, p) == Lookup(disk, p)
      && Lookup(files, p) == (if p in disk && p in t then Some(FileState(ContentHash(disk[p]), t[p].blob)) else None)
      && (p in disk <==> p in t)
    ensures Synced(disk, files, t, view)
  {
    SameLookups(disk, view);
    SameLookups(files, Recorded(t, view));
  }

  /** What a consistent store offers to one who does not look inside. */
  lemma HealthyParts(shared: Shared, repo: string)
    requires Healthy(shared, repo)
    ensures Intact(shared.blobs, repo, CloudTable(shared.blobs, repo)) && ReadableOps(shared.ops)
  {
  }

  lemma FetchesWhenItOpens(blobs: map<Name, Blob>, s: Session)
    ensures OpensManifest(blobs, s.key.rmk, s.repo) <==> FetchOrEmpty(blobs, s).Ok?
  {
  }

  lemma PushNeededIsTable(shared: Shared, s: Session, draw: nat, l: Local, generation: int, cached: Option<Table>,
                          t: Table)
    requires PushNeeded(l, generation, s)
    requires cached == Some(t) || (cached.None? && FetchOrEmpty(shared.blobs, s) == Ok(t))
    ensures Push(shared, s, draw, l, generation, cached) == PushTable(t, shared, s, draw, l, generation)
  {
    hide PushTable;
  }

  lemma NothingNeededIsIdle(shared: Shared, s: Session, draw: nat, l: Local, generation: int, cached: Option<Table>)
    requires !PushNeeded(l, generation, s)
    ensures Push(shared, s, draw, l, generation, cached) == Ok(Pushed(shared, l.files, NOTHING_DONE))
  {
    hide PushTable;
  }

  /** A ready device's push, with its table in hand, makes the cloud, the records and the disk agree. */
  lemma TableSettles(t: Table, shared: Shared, s: Session, draw: nat, l: Local, generation: int)
    requires Intact(shared.blobs, s.repo, t) && FetchOrEmpty(shared.blobs, s) == Ok(t)
    requires Ready(l, t, View(shared.blobs, s.repo, t))
    requires PushTable(t, shared, s, draw, l, generation).Ok?
    ensures var r := PushTable(t, shared, s, draw, l, generation).value;
      Synced(l.disk, r.files, CloudTable(r.shared.blobs, s.repo), CloudView(r.shared.blobs, s.repo))
  {
    hide PushTable, CloudTable, CloudView, View, Ready, Synced, Intact, FetchOrEmpty;
    var r := PushTable(t, shared, s, draw, l, generation).value;
    forall p {
      SettledRow(t, shared, s, draw, l, generation, p);
    }
    SyncedByRows(l.disk, r.files, CloudTable(r.shared.blobs, s.repo), CloudView(r.shared.blobs, s.repo));
  }

  /** From a ready device a push succeeds, and afterwards disk, records and cloud agree. */
  lemma PushSettles(shared: Shared, s: Session, draw: nat, l: Local, generation: int, cached: Option<Table>)
    requires Healthy(shared, s.repo)
    requires var t := CloudTable(shared.blobs, s.repo);
      && FetchOrEmpty(shared.blobs, s) == Ok(t) && (cached.None? || cached == Some(t))
      && Ready(l, t, CloudView(shared.blobs, s.repo))
    ensures Push(shared, s, draw, l, generation, cached).Ok?
    ensures var r := Push(shared, s, draw, l, generation, cached).value;
      Synced(l.disk, r.files, CloudTable(r.shared.blobs, s.repo), CloudView(r.shared.blobs, s.repo))
  {
    hide Push, PushTable, CloudTable, View, Ready, Synced, Intact, Healthy, FetchOrEmpty, PushNeeded;
    var t := CloudTable(shared.blobs, s.repo);
    HealthyParts(shared, s.repo);
    if PushNeeded(l, generation, s) {
      PushReadable(t, shared, s, draw, l, generation);
      TableSettles(t, shared, s, draw, l, generation);
      PushNeededIsTable(shared, s, draw, l, generation, cached, t);
    } else {
      NothingNeededIsIdle(shared, s, draw, l, generation, cached);
      NeedsNothing(l, generation, s);
      IntactView(shared.blobs, s.repo, t);
      AlreadySynced(l, t, CloudView(shared.blobs, s.repo));
    }
  }

  lemma NeedsNothing(l: Local, generation: int, s: Session)
    requires !PushNeeded(l, generation, s)
    ensures Changed(l) == {} && Deleted(l) == {}
  {
  }

  /** A ready device with nothing to push is in agreement already. */
  lemma AlreadySynced(l: Local, t: Table, view: map<Path, Bytes>)
    requires Ready(l, t, view) && view.Keys == t.Keys
    requires Changed(l) == {} && Deleted(l) == {}
    ensures Synced(l.disk, l.files, t, view)
  {
    forall p
      ensures Lookup(view, p) == Lookup(l.disk, p) && (p in l.disk <==> p in t)
      ensures Lookup(l.files, p) == (if p in l.disk && p in t then Some(FileState(ContentHash(l.disk[p]), t[p].blob))
                                     else None)
    {
      assert p !in Changed(l) && p !in Deleted(l);
    }
    SyncedByRows(l.disk, l.files, t, view);
  }
}
