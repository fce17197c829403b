/** What each phase of a push does to the table, to the names in the store and to what the rows decrypt to. */
module SyncPhases {
  import opened Prelude
  import opened SyncCrypto
  import opened SyncModel

  /** One row, read through the table that holds it. */
  function ReadRow(w: Work, repo: string, p: Path): Option<Bytes> {
    if p in w.table then Read(w.blobs, repo, p, w.table[p]) else None
  }

  /** The state was written under another generation than the session's; generation 0 is no generation. */
  predicate Behind(generation: int, s: Session) {
    generation != 0 && generation != s.key.generation
  }

  // -------------------------------------------------------------------------
  // The three loops
  // -------------------------------------------------------------------------

  /** Uploading overrides the view on the uploaded paths and nowhere else. */
  lemma UploadedRow(w: Work, s: Session, draw: nat, disk: map<Path, Bytes>, done: set<Path>, p: Path)
    requires done <= disk.Keys
    ensures ReadRow(Uploaded(w, s, draw, disk, done), s.repo, p)
         == if p in done then Some(disk[p]) else ReadRow(w, s.repo, p)
  {
    var w' := Uploaded(w, s, draw, disk, done);
    if p in w'.table {
      var name := w'.table[p].blob;
      assert name in Names(w'.table, done) <==> p in done;
    }
  }

  /** Tombstoning drops exactly the named paths from the view. */
  lemma TombstonedRow(w: Work, repo: string, done: set<Path>, p: Path)
    ensures ReadRow(Tombstoned(w, done), repo, p) == if p in done then None else ReadRow(w, repo, p)
  {
    if p in w.table {
      assert w.table[p].blob in Names(w.table, done) <==> p in done;
    }
  }

  /** Re-keying keeps what every path decrypts to, under a new name and a new key. */
  lemma RekeyedRow(w: Work, s: Session, draw: nat, done: set<Path>, p: Path)
    requires Readable(w, s.repo, done) && done <= Stale(w.table, s.key.rmk)
    ensures ReadRow(Rekeyed(w, s, draw, done), s.repo, p) == ReadRow(w, s.repo, p)
  {
    var w' := Rekeyed(w, s, draw, done);
    if p in w'.table {
      var name := w'.table[p].blob;
      assert name in DerivedNames(s.key.rmk, done) <==> p in done;
      assert p in w.table && p !in done ==> name !in Names(w.table, done);
    }
  }

  // -------------------------------------------------------------------------
  // No blob outlives its row
  // -------------------------------------------------------------------------

  /** Every blob but the manifest is the current blob of some row. */
  predicate NoOrphans(blobs: map<Name, Blob>, t: Table) {
    forall n :: n in blobs && n.Derived? ==> n.rel in t && t[n.rel].blob == n
  }

  lemma UploadedOrphans(w: Work, s: Session, draw: nat, disk: map<Path, Bytes>, done: set<Path>)
    requires done <= disk.Keys && NoOrphans(w.blobs, w.table)
    ensures var w' := Uploaded(w, s, draw, disk, done); NoOrphans(w'.blobs, w'.table)
  {
  }

  lemma TombstonedOrphans(w: Work, done: set<Path>)
    requires NoOrphans(w.blobs, w.table)
    ensures var w' := Tombstoned(w, done); NoOrphans(w'.blobs, w'.table)
  {
    var w' := Tombstoned(w, done);
    forall n | n in w'.blobs && n.Derived? ensures n.rel in w'.table && w'.table[n.rel].blob == n {
      assert n.rel in done ==> n in Names(w.table, done);
    }
  }

  /** After re-keying, the old names are gone from the store. */
  lemma RekeyedOrphans(w: Work, s: Session, draw: nat, done: set<Path>)
    requires Readable(w, s.repo, done) && NoOrphans(w.blobs, w.table)
    ensures var w' := Rekeyed(w, s, draw, done); NoOrphans(w'.blobs, w'.table)
  {
    var w' := Rekeyed(w, s, draw, done);
    forall n | n in w'.blobs && n.Derived? ensures n.rel in w'.table && w'.table[n.rel].blob == n {
      if n !in DerivedNames(s.key.rmk, done) {
        assert n.rel in done ==> n in Names(w.table, done);
      }
    }
  }

  // -------------------------------------------------------------------------
  // A whole push
  // -------------------------------------------------------------------------

  /** The table the current manifest holds, whoever sealed it; empty before the first push. */
  function CloudTable(blobs: map<Name, Blob>, repo: string): Table {
    if Manifest in blobs && blobs[Manifest].SealedTable? && blobs[Manifest].repoOfTable == repo
    then blobs[Manifest].table else map[]
  }

  /** The plaintext view of the cloud. */
  function CloudView(blobs: map<Name, Blob>, repo: string): map<Path, Bytes> {
    View(blobs, repo, CloudTable(blobs, repo))
  }

  /** The table a push ends with. */
  function PushedTable(t: Table, s: Session, draw: nat, l: Local, generation: int): Table {
    var content := ContentTable(t, s, draw, l);
    RekeyedTable(content, s, draw, Rekeying(content, generation, s))
  }

  /** The table a push ends with, row by row: kept, minted, or re-minted when its name was stale. */
  lemma PushEntry(t: Table, s: Session, draw: nat, l: Local, generation: int, p: Path)
    ensures var t' := PushedTable(t, s, draw, l, generation);
      && (p in t' <==> (p in t || p in Changed(l)) && p !in Deleted(l))
      && (p in t' ==> t'[p] == if p !in t || (Behind(generation, s) && t[p].blob != BlobName(s.key.rmk, p))
                               then Minted(s.key.rmk, draw, p) else t[p])
  {
  }

  /** After the content loops: local changes uploaded, local deletions dropped, all else kept. */
  lemma ContentRow(t: Table, blobs: map<Name, Blob>, s: Session, draw: nat, l: Local, p: Path)
    ensures ReadRow(PushedContent(t, blobs, s, draw, l), s.repo, p)
         == if p in Deleted(l) then None
            else if p in Changed(l) then Some(l.disk[p])
            else ReadRow(Work(t, blobs, l.files), s.repo, p)
  {
    var w0 := Work(t, blobs, l.files);
    UploadedRow(w0, s, draw, l.disk, Changed(l), p);
    TombstonedRow(Uploaded(w0, s, draw, l.disk, Changed(l)), s.repo, Deleted(l), p);
  }

  /** The records after the content loops. */
  lemma ContentRecord(t: Table, blobs: map<Name, Blob>, s: Session, draw: nat, l: Local, p: Path)
    ensures Lookup(PushedContent(t, blobs, s, draw, l).files, p) ==
        if p in Changed(l) then
          Some(FileState(ContentHash(l.disk[p]), if p in t then t[p].blob else BlobName(s.key.rmk, p)))
        else if p in l.files && p in l.disk then Some(l.files[p])
        else None
  {
  }

  /** The content loops never touch the manifest slot. */
  lemma ContentManifest(t: Table, blobs: map<Name, Blob>, s: Session, draw: nat, l: Local)
    ensures Lookup(PushedContent(t, blobs, s, draw, l).blobs, Manifest) == Lookup(blobs, Manifest)
  {
  }

  /** A push that changes no row leaves the manifest alone. */
  lemma CleanManifest(t: Table, s: Session, draw: nat, l: Local, generation: int)
    requires !ManifestDirty(t, l, Rekeying(ContentTable(t, s, draw, l), generation, s))
    ensures PushedTable(t, s, draw, l, generation) == t
  {
    var t' := PushedTable(t, s, draw, l, generation);
    assert Deleted(l) * t.Keys == {};
    assert t'.Keys == t.Keys;
  }

  /** Neither does the re-key loop. */
  lemma RekeyedManifest(w: Work, s: Session, draw: nat, done: set<Path>)
    requires Readable(w, s.repo, done)
    ensures Lookup(Rekeyed(w, s, draw, done).blobs, Manifest) == Lookup(w.blobs, Manifest)
  {
    assert Manifest !in Names(w.table, done) && Manifest !in Resealed(w, s, draw, done);
  }

  /** The announcement writes the manifest slot, if the table changed, and no other. */
  lemma AnnouncedBlobs(ops: seq<Op>, w: Work, s: Session, put: set<Name>, del: set<Name>, dirty: bool, n: Name)
    ensures Lookup(Announced(ops, w, s, put, del, dirty).blobs, n) ==
        if dirty && n == Manifest then Some(SealedTable(s.key.rmk, s.repo, w.table)) else Lookup(w.blobs, n)
  {
  }

  /** Everything the closing half of a push does to the shared store. */
  lemma FinishBlobs(t: Table, w: Work, ops: seq<Op>, s: Session, draw: nat, l: Local, generation: int, n: Name)
    requires w.table == ContentTable(t, s, draw, l)
    requires Finish(t, w, ops, s, draw, l, generation).Ok?
    ensures var stale := Rekeying(w.table, generation, s);
      var w' := Rekeyed(w, s, draw, stale);
      Lookup(Finish(t, w, ops, s, draw, l, generation).value.shared.blobs, n) ==
        if n == Manifest then
          if ManifestDirty(t, l, stale)
          then Some(SealedTable(s.key.rmk, s.repo, PushedTable(t, s, draw, l, generation)))
          else Lookup(w.blobs, Manifest)
        else Lookup(w'.blobs, n)
  {
    var stale := Rekeying(w.table, generation, s);
    var w' := Rekeyed(w, s, draw, stale);
    RekeyedManifest(w, s, draw, stale);
    AnnouncedBlobs(ops, w', s, PutNames(t, s, draw, l, stale), DelNames(t, w, l, stale), ManifestDirty(t, l, stale), n);
  }

  lemma SameRow(blobs: map<Name, Blob>, blobs': map<Name, Blob>, repo: string, t: Table, p: Path)
    requires forall n: Name :: n != Manifest ==> Lookup(blobs, n) == Lookup(blobs', n)
    ensures Lookup(View(blobs, repo, t), p) == Lookup(View(blobs', repo, t), p)
  {
    if p in t { assert Lookup(blobs, t[p].blob) == Lookup(blobs', t[p].blob); }
  }

  lemma ViewRow(w: Work, repo: string, p: Path)
    ensures Lookup(View(w.blobs, repo, w.table), p) == ReadRow(w, repo, p)
  {
  }

  /** The closing half of a push keeps what every row decrypts to. */
  lemma FinishRow(t: Table, w: Work, ops: seq<Op>, s: Session, draw: nat, l: Local, generation: int, p: Path)
    requires w.table == ContentTable(t, s, draw, l)
    requires Finish(t, w, ops, s, draw, l, generation).Ok?
    ensures var blobs' := Finish(t, w, ops, s, draw, l, generation).value.shared.blobs;
      Lookup(View(blobs', s.repo, PushedTable(t, s, draw, l, generation)), p) == ReadRow(w, s.repo, p)
  {
    var stale := Rekeying(w.table, generation, s);
    var w' := Rekeyed(w, s, draw, stale);
    forall n: Name | n != Manifest
      ensures Lookup(Finish(t, w, ops, s, draw, l, generation).value.shared.blobs, n) == Lookup(w'.blobs, n)
    {
      FinishBlobs(t, w, ops, s, draw, l, generation, n);
    }
    RekeyedRow(w, s, draw, stale, p);
    SameRow(Finish(t, w, ops, s, draw, l, generation).value.shared.blobs, w'.blobs, s.repo, w'.table, p);
    ViewRow(w', s.repo, p);
  }

  lemma ManifestHolds(blobs: map<Name, Blob>, s: Session, t: Table)
    requires Lookup(blobs, Manifest) == Some(SealedTable(s.key.rmk, s.repo, t)) || (Manifest !in blobs && t == map[])
    ensures FetchOrEmpty(blobs, s) == Ok(t) && CloudTable(blobs, s.repo) == t && OpensManifest(blobs, s.key.rmk, s.repo)
  {
  }

  /** A table that a session fetched is the cloud's table, sealed under the session's key. */
  lemma FetchedTable(blobs: map<Name, Blob>, s: Session)
    requires FetchOrEmpty(blobs, s).Ok?
    ensures CloudTable(blobs, s.repo) == FetchOrEmpty(blobs, s).value && OpensManifest(blobs, s.key.rmk, s.repo)
    ensures Lookup(blobs, Manifest) == Some(SealedTable(s.key.rmk, s.repo, CloudTable(blobs, s.repo)))
         || (Manifest !in blobs && CloudTable(blobs, s.repo) == map[])
  {
  }

  /** A successful push leaves a manifest its own key opens, holding exactly the final table. */
  lemma FinishManifest(t: Table, w: Work, blobs: map<Name, Blob>, ops: seq<Op>, s: Session, draw: nat, l: Local,
                       generation: int)
    requires FetchOrEmpty(blobs, s) == Ok(t) && Lookup(w.blobs, Manifest) == Lookup(blobs, Manifest)
    requires w.table == ContentTable(t, s, draw, l)
    requires Finish(t, w, ops, s, draw, l, generation).Ok?
    ensures var blobs' := Finish(t, w, ops, s, draw, l, generation).value.shared.blobs;
      var t' := PushedTable(t, s, draw, l, generation);
      && FetchOrEmpty(blobs', s) == Ok(t') && CloudTable(blobs', s.repo) == t'
      && (Manifest in blobs ==> Manifest in blobs')
      && OpensManifest(blobs', s.key.rmk, s.repo)
  {
    FinishBlobs(t, w, ops, s, draw, l, generation, Manifest);
    FetchedTable(blobs, s);
    if !ManifestDirty(t, l, Rekeying(w.table, generation, s)) {
      CleanManifest(t, s, draw, l, generation);
    }
    ManifestHolds(Finish(t, w, ops, s, draw, l, generation).value.shared.blobs, s,
                  PushedTable(t, s, draw, l, generation));
  }

  /** The cloud after a push: its manifest opens, and its view took exactly the local changes. */
  lemma PushView(t: Table, shared: Shared, s: Session, draw: nat, l: Local, generation: int, p: Path)
    requires FetchOrEmpty(shared.blobs, s) == Ok(t)
    requires PushTable(t, shared, s, draw, l, generation).Ok?
    ensures var blobs' := PushTable(t, shared, s, draw, l, generation).value.shared.blobs;
      && CloudTable(blobs', s.repo) == PushedTable(t, s, draw, l, generation)
      && OpensManifest(blobs', s.key.rmk, s.repo)
      && Lookup(CloudView(blobs', s.repo), p) ==
           if p in Deleted(l) then None
           else if p in Changed(l) then Some(l.disk[p])
           else Lookup(View(shared.blobs, s.repo, t), p)
  {
    var w := PushedContent(t, shared.blobs, s, draw, l);
    ContentManifest(t, shared.blobs, s, draw, l);
    FinishManifest(t, w, shared.blobs, shared.ops, s, draw, l, generation);
    FinishRow(t, w, shared.ops, s, draw, l, generation, p);
    ContentRow(t, shared.blobs, s, draw, l, p);
    ViewRow(Work(t, shared.blobs, l.files), s.repo, p);
  }

  /** The re-key loop renames the records of the rows it renames. */
  lemma FinishRecord(t: Table, w: Work, ops: seq<Op>, s: Session, draw: nat, l: Local, generation: int, p: Path)
    requires Finish(t, w, ops, s, draw, l, generation).Ok?
    ensures Lookup(Finish(t, w, ops, s, draw, l, generation).value.files, p) ==
        if p in w.files && p in Rekeying(w.table, generation, s)
          then Some(FileState(w.files[p].hash, BlobName(s.key.rmk, p)))
        else Lookup(w.files, p)
  {
  }

  /** The records after a push, path by path. */
  lemma PushRecord(t: Table, shared: Shared, s: Session, draw: nat, l: Local, generation: int, p: Path)
    requires PushTable(t, shared, s, draw, l, generation).Ok?
    ensures Lookup(PushTable(t, shared, s, draw, l, generation).value.files, p) ==
        if p in Changed(l) then
          Some(FileState(ContentHash(l.disk[p]), PushedTable(t, s, draw, l, generation)[p].blob))
        else if p in l.files && p in l.disk then
          Some(FileState(l.files[p].hash,
                         if p in t && Behind(generation, s) && t[p].blob != BlobName(s.key.rmk, p)
                         then BlobName(s.key.rmk, p) else l.files[p].blob))
        else None
  {
    PushEntry(t, s, draw, l, generation, p);
    ContentRecord(t, shared.blobs, s, draw, l, p);
    FinishRecord(t, PushedContent(t, shared.blobs, s, draw, l), shared.ops, s, draw, l, generation, p);
  }

  lemma FinishOrphans(t: Table, w: Work, ops: seq<Op>, s: Session, draw: nat, l: Local, generation: int)
    requires w.table == ContentTable(t, s, draw, l)
    requires Finish(t, w, ops, s, draw, l, generation).Ok?
    requires NoOrphans(w.blobs, w.table)
    ensures NoOrphans(Finish(t, w, ops, s, draw, l, generation).value.shared.blobs,
                      PushedTable(t, s, draw, l, generation))
  {
    var stale := Rekeying(w.table, generation, s);
    RekeyedOrphans(w, s, draw, stale);
    var blobs' := Finish(t, w, ops, s, draw, l, generation).value.shared.blobs;
    forall n | n in blobs' && n.Derived? ensures Lookup(blobs', n) == Lookup(Rekeyed(w, s, draw, stale).blobs, n) {
      FinishBlobs(t, w, ops, s, draw, l, generation, n);
    }
  }

  lemma ContentOrphans(t: Table, blobs: map<Name, Blob>, s: Session, draw: nat, l: Local)
    requires NoOrphans(blobs, t)
    ensures var w := PushedContent(t, blobs, s, draw, l); NoOrphans(w.blobs, w.table)
  {
    var w0 := Work(t, blobs, l.files);
    UploadedOrphans(w0, s, draw, l.disk, Changed(l));
    TombstonedOrphans(Uploaded(w0, s, draw, l.disk, Changed(l)), Deleted(l));
  }

  /** A push leaves no blob behind that the final table does not name. */
  lemma PushOrphans(t: Table, shared: Shared, s: Session, draw: nat, l: Local, generation: int)
    requires PushTable(t, shared, s, draw, l, generation).Ok?
    requires NoOrphans(shared.blobs, t)
    ensures NoOrphans(PushTable(t, shared, s, draw, l, generation).value.shared.blobs,
                      PushedTable(t, s, draw, l, generation))
  {
    ContentOrphans(t, shared.blobs, s, draw, l);
    FinishOrphans(t, PushedContent(t, shared.blobs, s, draw, l), shared.ops, s, draw, l, generation);
  }

  lemma FinishOk(t: Table, w: Work, ops: seq<Op>, s: Session, draw: nat, l: Local, generation: int)
    requires forall p :: p in w.table ==> ReadRow(w, s.repo, p).Some?
    ensures Finish(t, w, ops, s, draw, l, generation).Ok?
  {
  }

  /** When every row decrypts, the re-key loop finds every blob it needs. */
  lemma PushReadable(t: Table, shared: Shared, s: Session, draw: nat, l: Local, generation: int)
    requires Intact(shared.blobs, s.repo, t)
    ensures PushTable(t, shared, s, draw, l, generation).Ok?
  {
    var w := PushedContent(t, shared.blobs, s, draw, l);
    forall p | p in w.table ensures ReadRow(w, s.repo, p).Some? {
      ContentRow(t, shared.blobs, s, draw, l, p);
    }
    FinishOk(t, w, shared.ops, s, draw, l, generation);
  }
}
