/** One more round of each worker loop, as a step between the functions of SyncModel. */
module SyncSteps {
  import opened Prelude
  import opened SyncCrypto
  import opened SyncModel
  import opened SyncSafety

  function WithSlot(l: Local, p: Path, s: Slot): (r: Local)
    requires RecordOf(p, s.known)
    ensures forall q :: SlotAt(r, q) == if q == p then s else SlotAt(l, q)
  {
    Local(match s.file case Some(bytes) => l.disk[p := bytes] case None => l.disk - {p},
          match s.known case Some(known) => l.files[p := known] case None => l.files - {p})
  }

  // -------------------------------------------------------------------------
  // Pull
  // -------------------------------------------------------------------------

  ghost predicate Reached(now: Local, start: Local, t: Table, view: map<Path, Bytes>, n: Net) {
    forall p :: SlotAt(now, p) == PullSlot(p, SlotAt(start, p), t, view, n)
  }

  lemma ReachedIsPulled(now: Local, start: Local, t: Table, view: map<Path, Bytes>, n: Net)
    requires Reached(now, start, t, view, n)
    ensures now == PullLocal(start, t, view, n)
  {
    var want := PullLocal(start, t, view, n);
    forall p ensures Lookup(now.disk, p) == Lookup(want.disk, p) && Lookup(now.files, p) == Lookup(want.files, p) {
      assert SlotAt(now, p) == PullSlot(p, SlotAt(start, p), t, view, n);
    }
    SameLookups(now.disk, want.disk);
    SameLookups(now.files, want.files);
  }

  lemma NothingReached(l: Local, t: Table, view: map<Path, Bytes>)
    ensures Reached(l, l, t, view, NO_NEWS)
  {
  }

  /** A put the manifest no longer names changes nothing. */
  lemma StalePut(now: Local, start: Local, t: Table, view: map<Path, Bytes>, done: set<Name>, name: Name)
    requires Reached(now, start, t, view, Net(done, {}, false))
    requires forall p :: p in t ==> t[p].blob != name
    ensures Reached(now, start, t, view, Net(done + {name}, {}, false))
    ensures PulledPaths(start, t, view, Net(done + {name}, {}, false))
      == PulledPaths(start, t, view, Net(done, {}, false))
  {
  }

  lemma FreshPut(now: Local, start: Local, t: Table, view: map<Path, Bytes>, done: set<Name>, p: Path)
    requires Reached(now, start, t, view, Net(done, {}, false))
    requires p in t && p in view && t[p].blob !in done
    ensures SlotAt(now, p) == SlotAt(start, p)
    ensures Reached(WithSlot(now, p, TakePut(SlotAt(now, p), view[p], t[p].blob)), start, t, view,
                    Net(done + {t[p].blob}, {}, false))
    ensures var before := PulledPaths(start, t, view, Net(done, {}, false));
      && p !in before
      && PulledPaths(start, t, view, Net(done + {t[p].blob}, {}, false)) ==
           if Clean(SlotAt(start, p)) && Lookup(start.disk, p) != Some(view[p]) then before + {p} else before
  {
    assert SlotAt(now, p) == PullSlot(p, SlotAt(start, p), t, view, Net(done, {}, false));
    var name := t[p].blob;
    var next := WithSlot(now, p, TakePut(SlotAt(now, p), view[p], name));
    forall q ensures SlotAt(next, q) == PullSlot(q, SlotAt(start, q), t, view, Net(done + {name}, {}, false)) {
      assert SlotAt(now, q) == PullSlot(q, SlotAt(start, q), t, view, Net(done, {}, false));
    }
  }

  /** A tombstone for a name no record carries, or whose path the manifest has again, changes nothing. */
  lemma IdleDel(now: Local, start: Local, t: Table, view: map<Path, Bytes>, put: set<Name>, done: set<Name>, name: Name)
    requires Reached(now, start, t, view, Net(put, done, false))
    requires forall p :: p in now.files && now.files[p].blob == name ==> p in t
    requires name !in done
    ensures Reached(now, start, t, view, Net(put, done + {name}, false))
    ensures RemovedPaths(start, t, Net(put, done + {name}, false)) == RemovedPaths(start, t, Net(put, done, false))
  {
    forall p ensures PullSlot(p, SlotAt(start, p), t, view, Net(put, done + {name}, false))
                  == PullSlot(p, SlotAt(start, p), t, view, Net(put, done, false))
    {
      assert SlotAt(now, p) == PullSlot(p, SlotAt(start, p), t, view, Net(put, done, false));
    }
    forall p | p in start.files && start.files[p].blob == name ensures p in t {
      assert SlotAt(now, p) == PullSlot(p, SlotAt(start, p), t, view, Net(put, done, false));
    }
  }

  lemma FreshDel(now: Local, start: Local, t: Table, view: map<Path, Bytes>, put: set<Name>, done: set<Name>, p: Path)
    requires Reached(now, start, t, view, Net(put, done, false))
    requires p in now.files && p !in t && now.files[p].blob !in done
    ensures SlotAt(now, p) == SlotAt(start, p)
    ensures Reached(WithSlot(now, p, TakeDel(SlotAt(now, p))), start, t, view,
                    Net(put, done + {now.files[p].blob}, false))
    ensures var before := RemovedPaths(start, t, Net(put, done, false));
      && p !in before
      && RemovedPaths(start, t, Net(put, done + {now.files[p].blob}, false)) ==
           if Clean(SlotAt(start, p)) && p in start.disk then before + {p} else before
  {
    assert SlotAt(now, p) == PullSlot(p, SlotAt(start, p), t, view, Net(put, done, false));
    var name := now.files[p].blob;
    var next := WithSlot(now, p, TakeDel(SlotAt(now, p)));
    forall q ensures SlotAt(next, q) == PullSlot(q, SlotAt(start, q), t, view, Net(put, done + {name}, false)) {
      assert SlotAt(now, q) == PullSlot(q, SlotAt(start, q), t, view, Net(put, done, false));
    }
  }

  /** Paths still recorded and on disk that a foreign manifest write dropped without a tombstone. */
  function Clobbered(l: Local, t: Table, del: set<Name>): set<Path> {
    set p | p in l.files && p !in t && l.files[p].blob !in del && p in l.disk
  }

  lemma ForgetClobbered(now: Local, start: Local, t: Table, view: map<Path, Bytes>, put: set<Name>, del: set<Name>)
    requires Reached(now, start, t, view, Net(put, del, false))
    ensures Reached(Local(now.disk, now.files - Clobbered(now, t, del)), start, t, view, Net(put, del, true))
  {
    var next := Local(now.disk, now.files - Clobbered(now, t, del));
    forall p ensures SlotAt(next, p) == PullSlot(p, SlotAt(start, p), t, view, Net(put, del, true)) {
      assert SlotAt(now, p) == PullSlot(p, SlotAt(start, p), t, view, Net(put, del, false));
    }
  }

  /** Wherever the put and del loops stand, the disk is that of the whole pull stopped part way. */
  lemma LoopsStopMidway(now: Local, start: Local, t: Table, view: map<Path, Bytes>, done: Net, n: Net)
    requires Reached(now, start, t, view, done)
    requires done.put <= n.put && done.del <= n.del && !done.manifest
    requires done.del == {} || done.put == n.put
    ensures exists treated :: now.disk == Interrupted(start.disk, PulledDisk(start, t, view, n), treated)
  {
    var treated := set p | p in t.Keys + start.files.Keys &&
      (if p in t then t[p].blob in done.put else start.files[p].blob in done.del);
    var half := Interrupted(start.disk, PulledDisk(start, t, view, n), treated);
    forall p ensures Lookup(now.disk, p) == Lookup(half, p) {
      assert SlotAt(now, p) == PullSlot(p, SlotAt(start, p), t, view, done);
    }
    SameLookups(now.disk, half);
  }

  // -------------------------------------------------------------------------
  // Push
  // -------------------------------------------------------------------------

  function RowFor(t: Table, s: Session, draw: nat, p: Path): ObjectEntry {
    if p in t then t[p] else Minted(s.key.rmk, draw, p)
  }

  /** `next` is `now` with the row an upload of `p` uses. */
  predicate OneRowMore(now: Table, next: Table, s: Session, draw: nat, p: Path) {
    && RowFor(now, s, draw, p).blob.Derived? && RowFor(now, s, draw, p).blob.rel == p
    && next == now[p := RowFor(now, s, draw, p)]
  }

  lemma UploadRow(t: Table, s: Session, draw: nat, done: set<Path>, p: Path)
    requires p !in done
    ensures var now, next := UploadedTable(t, s, draw, done), UploadedTable(t, s, draw, done + {p});
      OneRowMore(now, next, s, draw, p) && (p in now <==> p in t)
  {
    var now, next := UploadedTable(t, s, draw, done), UploadedTable(t, s, draw, done + {p});
    assert p in t ==> now[p] == t[p];
    assert next == now[p := RowFor(now, s, draw, p)];
  }

  lemma PutOneMore<K, V>(m: map<K, V>, added: map<K, V>, key: K, value: V)
    ensures m + added[key := value] == (m + added)[key := value]
  {
  }

  lemma UploadNames(now: Table, next: Table, s: Session, draw: nat, done: set<Path>, p: Path)
    requires OneRowMore(now, next, s, draw, p) && done <= now.Keys
    ensures Names(next, done + {p}) == Names(now, done) + {next[p].blob}
  {
  }

  lemma UploadBlob(now: Table, next: Table, blobs: map<Name, Blob>, s: Session, draw: nat, disk: map<Path, Bytes>,
                   done: set<Path>, p: Path)
    requires done <= disk.Keys && p in disk && done <= now.Keys && p !in done
    requires OneRowMore(now, next, s, draw, p)
    ensures blobs + SealedFiles(next, s.repo, disk, done + {p})
         == (blobs + SealedFiles(now, s.repo, disk, done))[next[p].blob := Encrypt(next[p].dek, s.repo, p, disk[p])]
  {
    SealOneMore(now, next, s.repo, disk, done, p);
    PutOneMore(blobs, SealedFiles(now, s.repo, disk, done), next[p].blob, Encrypt(next[p].dek, s.repo, p, disk[p]));
  }

  lemma UploadRecord(files: Files, now: Table, next: Table, s: Session, draw: nat, disk: map<Path, Bytes>,
                     done: set<Path>, p: Path)
    requires done <= disk.Keys && p in disk && done <= now.Keys && p !in done
    requires OneRowMore(now, next, s, draw, p)
    ensures UploadedFiles(files, next, disk, done + {p})
         == UploadedFiles(files, now, disk, done)[p := FileState(ContentHash(disk[p]), next[p].blob)]
  {
    NextRows(now, next, s, draw, done, p);
    RecordRows(files, now, next, disk, done, p);
  }

  lemma NextRows(now: Table, next: Table, s: Session, draw: nat, done: set<Path>, p: Path)
    requires OneRowMore(now, next, s, draw, p) && done <= now.Keys && p !in done
    ensures p in next && done <= next.Keys && forall q :: q in done ==> next[q] == now[q]
  {
  }

  lemma RecordRows(files: Files, now: Table, next: Table, disk: map<Path, Bytes>, done: set<Path>, p: Path)
    requires done <= disk.Keys && p in disk && done <= now.Keys && p !in done
    requires p in next && done <= next.Keys && forall q :: q in done ==> next[q] == now[q]
    ensures UploadedFiles(files, next, disk, done + {p})
         == UploadedFiles(files, now, disk, done)[p := FileState(ContentHash(disk[p]), next[p].blob)]
  {
    var record := FileState(ContentHash(disk[p]), next[p].blob);
    var a, b := UploadedFiles(files, next, disk, done + {p}), UploadedFiles(files, now, disk, done);
    assert a.Keys == b.Keys + {p};
    forall q | q in a ensures a[q] == b[p := record][q] {
    }
  }

  lemma SealOneMore(t: Table, t': Table, repo: string, disk: map<Path, Bytes>, done: set<Path>, p: Path)
    requires done <= disk.Keys && p in disk && done <= t.Keys && p in t'
    requires forall q :: q in t' <==> q in t || q == p
    requires forall q :: q in t ==> t'[q] == t[q]
    ensures SealedFiles(t', repo, disk, done + {p}) ==
            SealedFiles(t, repo, disk, done)[t'[p].blob := Encrypt(t'[p].dek, repo, p, disk[p])]
  {
    var a, b := SealedFiles(t', repo, disk, done + {p}),
      SealedFiles(t, repo, disk, done)[t'[p].blob := Encrypt(t'[p].dek, repo, p, disk[p])];
    assert Names(t', done + {p}) == Names(t, done) + {t'[p].blob};
    forall n | n in a ensures a[n] == b[n] {
      assert n.rel in done + {p} && t'[n.rel].blob == n;
      if n != t'[p].blob {
        assert n.rel in done && t[n.rel].blob in SealedFiles(t, repo, disk, done);
      }
    }
  }

  lemma TombstoneOneMore(w: Work, done: set<Path>, p: Path)
    requires p !in done
    ensures var now, next := Tombstoned(w, done), Tombstoned(w, done + {p});
      && next.table == now.table - {p}
      && next.files == now.files - {p}
      && (p in now.table <==> p in w.table)
      && (if p in w.table
          then now.table[p] == w.table[p] && next.blobs == now.blobs - {w.table[p].blob}
               && Names(w.table, done + {p}) == Names(w.table, done) + {w.table[p].blob}
          else next.blobs == now.blobs && Names(w.table, done + {p}) == Names(w.table, done))
  {
    if p in w.table {
      assert Names(w.table, done + {p}) == Names(w.table, done) + {w.table[p].blob};
    } else {
      assert Names(w.table, done + {p}) == Names(w.table, done);
    }
  }

  /** Re-keying other paths leaves this row and what it decrypts to alone. */
  lemma RekeyLeavesOthers(w: Work, s: Session, draw: nat, done: set<Path>, p: Path)
    requires Readable(w, s.repo, done) && p in w.table && p !in done
    ensures var now := Rekeyed(w, s, draw, done);
      && p in now.table && now.table[p] == w.table[p]
      && Read(now.blobs, s.repo, p, w.table[p]) == Read(w.blobs, s.repo, p, w.table[p])
  {
  }

  lemma SwapOneMore<K, V>(m: map<K, V>, gone: set<K>, added: map<K, V>, out: K, key: K, value: V)
    requires out != key && out !in added
    ensures m - (gone + {out}) + added[key := value] == (m - gone + added)[key := value] - {out}
  {
  }

  /** The next round of the re-key loop: the row leaves the table and is minted anew. */
  lemma RekeyRow(t: Table, s: Session, draw: nat, done: set<Path>, p: Path)
    requires done <= t.Keys && p in t && p !in done
    ensures var now := RekeyedTable(t, s, draw, done);
      && RekeyedTable(t, s, draw, done + {p}) == (now - {p})[p := Minted(s.key.rmk, draw, p)]
      && p in now && now[p] == t[p]
  {
  }

  lemma RekeyNames(t: Table, rmk: Rmk, done: set<Path>, p: Path)
    requires done <= Stale(t, rmk) && p in Stale(t, rmk) && p !in done
    ensures Names(t, done + {p}) == Names(t, done) + {t[p].blob}
    ensures DerivedNames(rmk, done + {p}) == DerivedNames(rmk, done) + {BlobName(rmk, p)}
    ensures t[p].blob != BlobName(rmk, p) && t[p].blob !in DerivedNames(rmk, done)
  {
  }

  lemma RekeyRecord(files: Files, rmk: Rmk, done: set<Path>, p: Path)
    ensures var now := RekeyedFiles(files, rmk, done);
      RekeyedFiles(files, rmk, done + {p}) ==
        if p in now then now[p := FileState(now[p].hash, BlobName(rmk, p))] else now
  {
  }

  lemma ResealOneMore(w: Work, s: Session, draw: nat, done: set<Path>, p: Path)
    requires p !in done && Readable(w, s.repo, done) && Readable(w, s.repo, done + {p})
    ensures Resealed(w, s, draw, done + {p}) ==
            Resealed(w, s, draw, done)[BlobName(s.key.rmk, p) :=
                                       Encrypt(Dek(draw, p), s.repo, p, Read(w.blobs, s.repo, p, w.table[p]).value)]
  {
  }

  lemma RekeyBlobs(w: Work, s: Session, draw: nat, done: set<Path>, p: Path)
    requires done <= Stale(w.table, s.key.rmk) && p in Stale(w.table, s.key.rmk) && p !in done
    requires Readable(w, s.repo, done) && Readable(w, s.repo, done + {p})
    ensures w.blobs - Names(w.table, done + {p}) + Resealed(w, s, draw, done + {p}) ==
            (w.blobs - Names(w.table, done) + Resealed(w, s, draw, done))
            [BlobName(s.key.rmk, p) := Encrypt(Dek(draw, p), s.repo, p, Read(w.blobs, s.repo, p, w.table[p]).value)]
            - {w.table[p].blob}
  {
    ResealOneMore(w, s, draw, done, p);
    RekeyNames(w.table, s.key.rmk, done, p);
    SwapOneMore(w.blobs, Names(w.table, done), Resealed(w, s, draw, done), w.table[p].blob, BlobName(s.key.rmk, p),
                Encrypt(Dek(draw, p), s.repo, p, Read(w.blobs, s.repo, p, w.table[p]).value));
  }

  /** The names a push announces, told from the working table of its loops. */
  lemma TombstonesOfTable(t: Table, s: Session, draw: nat, l: Local)
    ensures Names(UploadedTable(t, s, draw, Changed(l)), Deleted(l)) == Names(t, Deleted(l))
    ensures forall done :: done <= Deleted(l) ==> done * UploadedTable(t, s, draw, Changed(l)).Keys == done * t.Keys
  {
  }
}
