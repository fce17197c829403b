/** What a batch of ops comes to, what a push announces, and which contents make a call fail. */
module SyncNews {
  import opened Prelude
  import opened SyncCrypto
  import opened SyncModel
  import opened SyncPhases
  import opened SyncAgreement
  import opened SyncCalls
  import opened SyncSafety

  // -------------------------------------------------------------------------
  // Reading ops
  // -------------------------------------------------------------------------

  /** The last foreign op with an opinion on `n` puts it, and none that puts it drops it again. */
  predicate LeftPut(ops: seq<Op>, me: DeviceId, n: Name) {
    exists i :: 0 <= i < |ops| && PutsAt(ops, me, n, i) && NoLaterDel(ops, me, n, i)
  }

  predicate PutsAt(ops: seq<Op>, me: DeviceId, n: Name, i: nat)
    requires i < |ops|
  {
    ops[i].device != me && n in ops[i].put && n !in ops[i].del
  }

  predicate NoLaterDel(ops: seq<Op>, me: DeviceId, n: Name, i: nat) {
    forall j :: i < j < |ops| && ops[j].device != me ==> n !in ops[j].del
  }

  /** Some foreign op drops `n`, and every later one that puts it drops it again. */
  predicate LeftDeleted(ops: seq<Op>, me: DeviceId, n: Name) {
    exists i :: 0 <= i < |ops| && ops[i].device != me && n in ops[i].del && NoLaterPut(ops, me, n, i)
  }

  predicate NoLaterPut(ops: seq<Op>, me: DeviceId, n: Name, i: nat) {
    forall j :: i < j < |ops| && ops[j].device != me && n in ops[j].put ==> n in ops[j].del
  }

  predicate TouchesManifest(ops: seq<Op>, me: DeviceId) {
    exists i :: 0 <= i < |ops| && ops[i].device != me && ops[i].manifest
  }

  lemma OneMorePut(ops: seq<Op>, op: Op, me: DeviceId, n: Name)
    ensures LeftPut(ops + [op], me, n) <==>
      if op.device == me then LeftPut(ops, me, n) else n !in op.del && (n in op.put || LeftPut(ops, me, n))
  {
    var more := ops + [op];
    assert more[|ops|] == op && forall i :: 0 <= i < |ops| ==> more[i] == ops[i];
    if LeftPut(more, me, n) {
      var i :| 0 <= i < |more| && PutsAt(more, me, n, i) && NoLaterDel(more, me, n, i);
      if i < |ops| {
        assert PutsAt(ops, me, n, i) && NoLaterDel(ops, me, n, i);
      }
    }
    if LeftPut(ops, me, n) {
      var i :| 0 <= i < |ops| && PutsAt(ops, me, n, i) && NoLaterDel(ops, me, n, i);
      if op.device == me || n !in op.del {
        assert PutsAt(more, me, n, i) && NoLaterDel(more, me, n, i);
      }
    }
    if op.device != me && n in op.put && n !in op.del {
      assert NoLaterDel(more, me, n, |ops|) && PutsAt(more, me, n, |ops|);
    }
  }

  lemma OneMoreDel(ops: seq<Op>, op: Op, me: DeviceId, n: Name)
    ensures LeftDeleted(ops + [op], me, n) <==>
      if op.device == me then LeftDeleted(ops, me, n) else n in op.del || (n !in op.put && LeftDeleted(ops, me, n))
  {
    var more := ops + [op];
    assert more[|ops|] == op && forall i :: 0 <= i < |ops| ==> more[i] == ops[i];
    if LeftDeleted(more, me, n) {
      var i :| 0 <= i < |more| && more[i].device != me && n in more[i].del && NoLaterPut(more, me, n, i);
      if i < |ops| {
        assert NoLaterPut(ops, me, n, i);
      }
    }
    if LeftDeleted(ops, me, n) {
      var i :| 0 <= i < |ops| && ops[i].device != me && n in ops[i].del && NoLaterPut(ops, me, n, i);
      if op.device == me || n in op.del || n !in op.put {
        assert more[i] == ops[i] && NoLaterPut(more, me, n, i);
      }
    }
    if op.device != me && n in op.del {
      assert NoLaterPut(more, me, n, |ops|) && more[|ops|] == op;
    }
  }

  lemma OneMoreTouch(ops: seq<Op>, op: Op, me: DeviceId)
    ensures TouchesManifest(ops + [op], me) <==> TouchesManifest(ops, me) || (op.device != me && op.manifest)
  {
    var more := ops + [op];
    assert more[|ops|] == op && forall i :: 0 <= i < |ops| ==> more[i] == ops[i];
    if i :| 0 <= i < |ops| && ops[i].device != me && ops[i].manifest {
      assert more[i].device != me && more[i].manifest;
    }
  }

  /** The net effect of a batch: own ops count for nothing, and of the others the last word on a name stands. */
  lemma {:induction false} CollapseMeans(ops: seq<Op>, me: DeviceId)
    ensures var net := Collapse(ops, me);
      && (forall n :: n in net.put <==> LeftPut(ops, me, n))
      && (forall n :: n in net.del <==> LeftDeleted(ops, me, n))
      && (net.manifest <==> TouchesManifest(ops, me))
    decreases |ops|
  {
    hide LeftPut, LeftDeleted, TouchesManifest;
    if ops == [] {
      forall n ensures !LeftPut(ops, me, n) && !LeftDeleted(ops, me, n) {
        NothingLeft(me, n);
      }
      NothingLeft(me, Manifest);
    } else {
      var front, op := ops[..|ops| - 1], ops[|ops| - 1];
      assert ops == front + [op];
      CollapseMeans(front, me);
      OneMoreTouch(front, op, me);
      forall n
        ensures n in Collapse(ops, me).put <==> LeftPut(ops, me, n)
        ensures n in Collapse(ops, me).del <==> LeftDeleted(ops, me, n)
      {
        OneMorePut(front, op, me, n);
        OneMoreDel(front, op, me, n);
      }
    }
  }

  lemma NothingLeft(me: DeviceId, n: Name)
    ensures !LeftPut([], me, n) && !LeftDeleted([], me, n) && !TouchesManifest([], me)
  {
  }

  // -------------------------------------------------------------------------
  // Contents that stop a call
  // -------------------------------------------------------------------------

  /** The device has not read an op of another device that is of a version it does not know. */
  predicate UnknownAhead(shared: Shared, s: Session, cursor: nat) {
    exists i :: cursor <= i < |shared.ops| && shared.ops[i].device != s.device && shared.ops[i].v != 1
  }

  /** It has not read an upload whose row is still there and does not decrypt. */
  predicate UnreadableAhead(shared: Shared, s: Session, cursor: nat) {
    && FetchOrEmpty(shared.blobs, s).Ok?
    && var t := FetchOrEmpty(shared.blobs, s).value;
    exists p :: p in t && LeftPut(OpsSince(shared.ops, cursor), s.device, t[p].blob)
                && Read(shared.blobs, s.repo, p, t[p]).None?
  }

  lemma NotUnderstood(shared: Shared, s: Session, cursor: nat)
    ensures Understood(OpsSince(shared.ops, cursor), s.device) <==> !UnknownAhead(shared, s, cursor)
  {
    var batch := OpsSince(shared.ops, cursor);
    if !Understood(batch, s.device) {
      var i :| 0 <= i < |batch| && batch[i].device != s.device && batch[i].v != 1;
      assert shared.ops[cursor + i] == batch[i];
    }
    if i :| cursor <= i < |shared.ops| && shared.ops[i].device != s.device && shared.ops[i].v != 1 {
      assert batch[i - cursor] == shared.ops[i];
    }
  }

  lemma NotFetchable(shared: Shared, s: Session, cursor: nat)
    requires FetchOrEmpty(shared.blobs, s).Ok?
    ensures var t := FetchOrEmpty(shared.blobs, s).value;
      Fetchable(t, View(shared.blobs, s.repo, t), Collapse(OpsSince(shared.ops, cursor), s.device).put) <==>
        !UnreadableAhead(shared, s, cursor)
  {
    hide FetchOrEmpty, Collapse, LeftPut, Read, OpsSince;
    CollapseMeans(OpsSince(shared.ops, cursor), s.device);
  }

  /**
   * A pull fails on an unread foreign op of an unknown version, and on an unread upload that does not
   * decrypt; while the manifest opens, on nothing else.
   */
  lemma PullFailsIff(shared: Shared, s: Session, disk: map<Path, Bytes>, state: SyncState)
    requires FetchOrEmpty(shared.blobs, s).Ok?
    ensures Pull(shared, s, disk, state).Err? <==>
      UnknownAhead(shared, s, state.cursor) || UnreadableAhead(shared, s, state.cursor)
  {
    hide FetchOrEmpty, UnknownAhead, UnreadableAhead, Understood, Fetchable, PullLocal, View, Collapse;
    NotUnderstood(shared, s, state.cursor);
    NotFetchable(shared, s, state.cursor);
    NoOpsNoTrouble(shared, s, state.cursor);
  }

  lemma NoOpsNoTrouble(shared: Shared, s: Session, cursor: nat)
    ensures OpsSince(shared.ops, cursor) == [] ==>
      !UnknownAhead(shared, s, cursor) && !UnreadableAhead(shared, s, cursor)
    ensures Collapse(OpsSince(shared.ops, cursor), s.device) == NO_NEWS ==> !UnreadableAhead(shared, s, cursor)
  {
    hide FetchOrEmpty, OpsSince;
    CollapseMeans(OpsSince(shared.ops, cursor), s.device);
    if OpsSince(shared.ops, cursor) == [] {
      NotUnderstood(shared, s, cursor);
    }
  }

  /** First contact and the manual pull fail on any row that does not decrypt; the latter also without a manifest. */
  lemma WholeReadsFailIff(shared: Shared, s: Session, d: Device)
    requires FetchOrEmpty(shared.blobs, s).Ok?
    ensures var t := FetchOrEmpty(shared.blobs, s).value;
      && (Adopt(shared, s, d.disk).Err? <==> exists p :: p in t && Read(shared.blobs, s.repo, p, t[p]).None?)
      && (PullAllIn(shared, s, d) == Failed <==>
            Manifest !in shared.blobs || exists p :: p in t && Read(shared.blobs, s.repo, p, t[p]).None?)
  {
    hide Read;
    var t := FetchOrEmpty(shared.blobs, s).value;
    AllReadable(shared, s, t);
  }

  lemma AllReadable(shared: Shared, s: Session, t: Table)
    ensures View(shared.blobs, s.repo, t).Keys == t.Keys <==>
      forall p :: p in t ==> Read(shared.blobs, s.repo, p, t[p]).Some?
  {
    hide Read;
    if View(shared.blobs, s.repo, t).Keys == t.Keys {
      forall p | p in t ensures Read(shared.blobs, s.repo, p, t[p]).Some? {
        assert p in View(shared.blobs, s.repo, t);
      }
    }
  }

  /** A push fails exactly on a row it has to re-key, neither uploads nor drops, and cannot read. */
  lemma PushFailsIff(t: Table, shared: Shared, s: Session, draw: nat, l: Local, generation: int)
    ensures PushTable(t, shared, s, draw, l, generation).Err? <==>
      Behind(generation, s) &&
      exists p :: p in t && t[p].blob != BlobName(s.key.rmk, p) && p !in Changed(l) && p !in Deleted(l)
                  && Read(shared.blobs, s.repo, p, t[p]).None?
  {
    hide Changed, Deleted, PushedContent, Read;
    var w := PushedContent(t, shared.blobs, s, draw, l);
    var stale := Rekeying(w.table, generation, s);
    forall p
      ensures p in stale && ReadRow(w, s.repo, p).None? <==>
        Behind(generation, s) && p in t && t[p].blob != BlobName(s.key.rmk, p) && p !in Changed(l) && p !in Deleted(l)
        && Read(shared.blobs, s.repo, p, t[p]).None?
    {
      ContentRow(t, shared.blobs, s, draw, l, p);
    }
    StaleReadable(w, s, stale);
  }

  lemma StaleReadable(w: Work, s: Session, stale: set<Path>)
    requires stale <= w.table.Keys
    ensures Readable(w, s.repo, stale) <==> forall p :: p in stale ==> ReadRow(w, s.repo, p).Some?
  {
    hide Read;
  }

  // -------------------------------------------------------------------------
  // What a push announces
  // -------------------------------------------------------------------------

  /** A push marks the manifest as written exactly when it changed a row. */
  lemma DirtyIffChanged(t: Table, s: Session, draw: nat, l: Local, generation: int)
    ensures ManifestDirty(t, l, Rekeying(ContentTable(t, s, draw, l), generation, s)) <==>
      PushedTable(t, s, draw, l, generation) != t
  {
    hide PushedTable, Changed;
    var t' := PushedTable(t, s, draw, l, generation);
    var stale := Rekeying(ContentTable(t, s, draw, l), generation, s);
    if !ManifestDirty(t, l, stale) {
      CleanManifest(t, s, draw, l, generation);
    } else if p :| p in Changed(l) && p !in t {
      PushEntry(t, s, draw, l, generation, p);
    } else if p :| p in Deleted(l) * t.Keys {
      PushEntry(t, s, draw, l, generation, p);
    } else {
      var p :| p in stale;
      PushEntry(t, s, draw, l, generation, p);
    }
  }

  /** The op of a push: the device's own, of version 1, its flag telling whether a row changed. */
  lemma PushOpIs(t: Table, shared: Shared, s: Session, draw: nat, l: Local, generation: int)
    requires FetchOrEmpty(shared.blobs, s) == Ok(t) && PushTable(t, shared, s, draw, l, generation).Ok?
    ensures var shared' := PushTable(t, shared, s, draw, l, generation).value.shared;
      && (shared'.ops == shared.ops
          || (|shared'.ops| == |shared.ops| + 1 && shared'.ops[..|shared.ops|] == shared.ops
              && var op := shared'.ops[|shared.ops|];
              && op.device == s.device && op.v == 1
              && (op.manifest <==> CloudTable(shared'.blobs, s.repo) != t)))
      && (CloudTable(shared'.blobs, s.repo) != t ==> shared'.ops != shared.ops)
  {
    hide CloudTable, FetchOrEmpty, Finish, PutNames, DelNames, ManifestDirty, PushedTable, Rekeying, PushedContent;
    var w := PushedContent(t, shared.blobs, s, draw, l);
    var stale := Rekeying(w.table, generation, s);
    PushManifestStays(t, shared, s, draw, l, generation);
    FinishOps(t, w, shared.ops, s, draw, l, generation);
    DirtyIffChanged(t, s, draw, l, generation);
    DirtyAnnounces(t, w, s, draw, l, generation);
  }

  lemma DirtyAnnounces(t: Table, w: Work, s: Session, draw: nat, l: Local, generation: int)
    requires w.table == ContentTable(t, s, draw, l)
    ensures var stale := Rekeying(w.table, generation, s);
      ManifestDirty(t, l, stale) ==> PutNames(t, s, draw, l, stale) != {} || DelNames(t, w, l, stale) != {}
  {
    hide Changed, Deleted, ContentTable;
    var stale := Rekeying(w.table, generation, s);
    var up := UploadedTable(t, s, draw, Changed(l));
    if p :| p in Changed(l) && p !in t {
      assert up[p].blob in Names(up, Changed(l));
    } else if p :| p in Deleted(l) * t.Keys {
      assert t[p].blob in Names(t, Deleted(l));
    } else if p :| p in stale {
      assert BlobName(s.key.rmk, p) in DerivedNames(s.key.rmk, stale);
    }
  }
}
