/**
 * The memory files a journal shadows: every change made through the vault is followed by its
 * journal line, and reconciliation brings the journal back to what is on disk after anything else.
 */
module Reconcile {
  import opened Prelude
  import opened ChangeJournal
  import opened JournalSafety

  function Hashes(disk: map<Path, Bytes>): map<Path, Digest> {
    map p | p in disk :: ContentHash(disk[p])
  }

  /** Paths whose last-known state is not what is on disk. */
  function Drift(live: map<Path, Digest>, disk: map<Path, Bytes>): set<Path> {
    set p | p in live.Keys + disk.Keys && Lookup(live, p) != Lookup(Hashes(disk), p)
  }

  lemma NoDrift(live: map<Path, Digest>, disk: map<Path, Bytes>)
    ensures Drift(live, disk) == {} <==> live == Hashes(disk)
  {
    if Drift(live, disk) == {} {
      forall p ensures Lookup(live, p) == Lookup(Hashes(disk), p) {
        assert p !in Drift(live, disk);
      }
      SameLookups(live, Hashes(disk));
    }
  }

  /** From `live` to `live'` only `path` moved, to `content`. */
  ghost predicate Moved(live: map<Path, Digest>, live': map<Path, Digest>, path: Path, content: Option<Digest>) {
    forall p :: Lookup(live', p) == (if p == path then content else Lookup(live, p))
  }

  /** What one more entry does to the live state. */
  lemma EntryMoves(entries: seq<Entry>, e: Entry)
    requires e.kind == Tombstone <==> e.content.None?
    ensures Moved(Live(entries), Live(entries + [e]), e.path, e.content)
  {
    LiveOneMore(entries, e);
  }

  lemma MovedStaysInStep(live: map<Path, Digest>, live': map<Path, Digest>, path: Path,
                         disk: map<Path, Bytes>, disk': map<Path, Bytes>)
    requires live == Hashes(disk) && Moved(live, live', path, Lookup(Hashes(disk'), path))
    requires forall p :: p != path ==> Lookup(disk', p) == Lookup(disk, p)
    ensures live' == Hashes(disk')
  {
    forall p ensures Lookup(live', p) == Lookup(Hashes(disk'), p) {
      assert p != path ==> Lookup(disk', p) == Lookup(disk, p);
    }
    SameLookups(live', Hashes(disk'));
  }

  /** The clock: operation ids and timestamps, in the order they are drawn. */
  datatype Stamp = Stamp(opId: string, ts: string)

  // -------------------------------------------------------------------------
  // What can happen to a vault
  // -------------------------------------------------------------------------

  /** The memory files and the bytes of their journal. */
  datatype Site = Site(disk: map<Path, Bytes>, raw: Bytes)

  datatype Deed =
    | Saves(path: Path, bytes: Bytes, kind: OpKind, stamp: Stamp)
    | Removes(path: Path, stamp: Stamp)
    | EditsOffline(path: Path, content: Option<Bytes>)
    | Crashes(at: nat)
    | Reconciles(raw': Bytes)

  /** One journal line for `path`. */
  function Noted(c: Codec, seed: Digest, raw: Bytes, kind: OpKind, path: Path, content: Option<Digest>, stamp: Stamp)
    : Bytes
  {
    After(c, seed, raw, Appended(stamp.opId, kind, path, content, stamp.ts))
  }

  /** Files and journal after a deed; a crash cuts the journal at a byte, and reopening heals it. */
  function Done(c: Codec, seed: Digest, s: Site, d: Deed): Site {
    match d
    case Saves(path, bytes, kind, stamp) =>
      Site(s.disk[path := bytes], Noted(c, seed, s.raw, kind, path, Some(ContentHash(bytes)), stamp))
    case Removes(path, stamp) =>
      if path !in s.disk then s
      else Site(s.disk - {path}, Noted(c, seed, s.raw, Tombstone, path, None, stamp))
    case EditsOffline(path, content) =>
      s.(disk := if content.Some? then s.disk[path := content.value] else s.disk - {path})
    case Crashes(at) => s.(raw := After(c, seed, s.raw, CutAndReopened(at)))
    case Reconciles(raw') => s.(raw := raw')
  }

  /** The journal's live state is exactly what is on disk. */
  predicate Agrees(c: Codec, s: Site) {
    Live(Decoded(c, Lines(s.raw))) == Hashes(s.disk)
  }

  /** Saves are no tombstones; a reconciliation only appends, in chain, and ends in agreement. */
  predicate Possible(c: Codec, seed: Digest, s: Site, d: Deed) {
    match d
    case Saves(_, _, kind, _) => kind != Tombstone
    case Reconciles(raw') => s.raw <= raw' && Sound(c, raw', seed) && Agrees(c, s.(raw := raw'))
    case _ => true
  }

  predicate PossibleLife(c: Codec, seed: Digest, s: Site, deeds: seq<Deed>)
    decreases |deeds|
  {
    deeds == [] || (Possible(c, seed, s, deeds[0]) && PossibleLife(c, seed, Done(c, seed, s, deeds[0]), deeds[1..]))
  }

  function DoneAll(c: Codec, seed: Digest, s: Site, deeds: seq<Deed>): Site
    decreases |deeds|
  {
    if deeds == [] then s else DoneAll(c, seed, Done(c, seed, s, deeds[0]), deeds[1..])
  }

  lemma DeedKeepsSound(c: Codec, seed: Digest, s: Site, d: Deed)
    requires Lawful(c) && Sound(c, s.raw, seed) && Possible(c, seed, s, d)
    ensures Sound(c, Done(c, seed, s, d).raw, seed)
  {
    hide Sound, After, Agrees;
    match d
    case Saves(path, bytes, kind, stamp) =>
      AppendKeepsSound(c, seed, s.raw, Appended(stamp.opId, kind, path, Some(ContentHash(bytes)), stamp.ts));
    case Removes(path, stamp) =>
      AppendKeepsSound(c, seed, s.raw, Appended(stamp.opId, Tombstone, path, None, stamp.ts));
    case Crashes(at) => CrashHeals(c, seed, s.raw, at);
    case _ =>
  }

  /**
   * However long a vault has lived, through saves, deletions, reconciliations, offline edits and crashes at
   * any byte, its journal is sound, and so is what another crash at any byte leaves for the next opening.
   */
  lemma {:induction false} LifeKeepsSound(c: Codec, seed: Digest, s: Site, deeds: seq<Deed>, at: nat)
    requires Lawful(c) && Sound(c, s.raw, seed) && PossibleLife(c, seed, s, deeds)
    ensures var raw := DoneAll(c, seed, s, deeds).raw;
      Sound(c, raw, seed) && Chained(c, Lines(raw[..if at < |raw| then at else |raw|]), seed)
    decreases |deeds|
  {
    hide Sound, Chained, Lines, Possible, Done;
    if deeds == [] {
      CrashHeals(c, seed, s.raw, at);
    } else {
      DeedKeepsSound(c, seed, s, deeds[0]);
      LifeKeepsSound(c, seed, Done(c, seed, s, deeds[0]), deeds[1..], at);
    }
  }

  lemma NotedMoves(c: Codec, seed: Digest, raw: Bytes, kind: OpKind, path: Path, content: Option<Digest>, stamp: Stamp)
    requires Lawful(c) && Sound(c, raw, seed) && (kind == Tombstone <==> content.None?)
    ensures var raw' := Noted(c, seed, raw, kind, path, content, stamp);
      Moved(Live(Decoded(c, Lines(raw))), Live(Decoded(c, Lines(raw'))), path, content)
  {
    hide Sound, Lines, Live, Decoded, Moved, After;
    var e := Appended(stamp.opId, kind, path, content, stamp.ts);
    AppendKeepsSound(c, seed, raw, e);
    DecodedOneMore(c, Lines(raw), NextLineOf(c, Lines(raw), seed, e));
    EntryMoves(Decoded(c, Lines(raw)), Entry(stamp.opId, kind, path, content, stamp.ts, LastHash(Lines(raw), seed)));
  }

  /** Through the vault, files and journal move together. */
  lemma DeedKeepsAgreement(c: Codec, seed: Digest, s: Site, d: Deed)
    requires Lawful(c) && Sound(c, s.raw, seed) && Possible(c, seed, s, d) && Agrees(c, s)
    requires !d.EditsOffline? && !d.Crashes?
    ensures Agrees(c, Done(c, seed, s, d))
  {
    hide Sound, Lines, Live, Decoded, Noted, Moved;
    var s' := Done(c, seed, s, d);
    var live, live' := Live(Decoded(c, Lines(s.raw))), Live(Decoded(c, Lines(s'.raw)));
    match d
    case Saves(path, bytes, kind, stamp) =>
      NotedMoves(c, seed, s.raw, kind, path, Some(ContentHash(bytes)), stamp);
      MovedStaysInStep(live, live', path, s.disk, s'.disk);
    case Removes(path, stamp) =>
      if path in s.disk {
        NotedMoves(c, seed, s.raw, Tombstone, path, None, stamp);
        MovedStaysInStep(live, live', path, s.disk, s'.disk);
      }
    case _ =>
  }

  class Vault {
    var disk: map<Path, Bytes>
    const journal: Journal

    constructor (disk: map<Path, Bytes>, journal: Journal)
      ensures this.disk == disk && this.journal == journal
    {
      this.disk, this.journal := disk, journal;
    }

    ghost predicate Valid()
      reads this, journal, journal.file
    {
      journal.Valid()
    }

    ghost function Entries(): seq<Entry>
      reads journal.file
    {
      Decoded(journal.codec, Lines(journal.file.raw))
    }

    ghost predicate InStep()
      reads this, journal.file
    {
      Agrees(journal.codec, Current())
    }

    ghost function Current(): Site
      reads this, journal.file
    {
      Site(disk, journal.file.raw)
    }

    /** One journal line. */
    method Note(kind: OpKind, path: Path, content: Option<Digest>, stamp: Stamp) returns (entry: Entry)
      requires Valid() && (kind == Tombstone <==> content.None?)
      modifies journal, journal.file
      ensures Valid()
      ensures entry.kind == kind && entry.path == path && entry.content == content
      ensures Entries() == old(Entries()) + [entry]
      ensures Moved(old(Live(Entries())), Live(Entries()), path, content)
      ensures Extends(old(journal.file.raw), journal.file.raw)
      ensures journal.file.raw == Noted(journal.codec, journal.seed, old(journal.file.raw), kind, path, content, stamp)
    {
      hide Lines, Live, Moved;
      entry := journal.Append(kind, path, content, stamp.opId, stamp.ts);
      DecodedOneMore(journal.codec, old(Lines(journal.file.raw)), journal.codec.encode(entry));
      EntryMoves(old(Entries()), entry);
    }

    /** Write a memory file, then its line: a new record, a rewrite, an invalidation or telemetry. */
    method Save(path: Path, bytes: Bytes, kind: OpKind, stamp: Stamp)
      requires Valid() && kind != Tombstone
      modifies this, journal, journal.file
      ensures Valid() && disk == old(disk)[path := bytes]
      ensures OneMore(old(Entries()), Entries(), kind, path, Some(ContentHash(bytes)))
      ensures Current() == Done(journal.codec, journal.seed, old(Current()), Saves(path, bytes, kind, stamp))
      ensures old(InStep()) ==> InStep()
    {
      hide Lines, Live, Decoded, Moved, Noted;
      ghost var before := Current();
      disk := disk[path := bytes];
      var entry := Note(kind, path, Some(ContentHash(bytes)), stamp);
      if old(InStep()) {
        DeedKeepsAgreement(journal.codec, journal.seed, before, Saves(path, bytes, kind, stamp));
      }
    }

    /** Hard delete, then its tombstone. */
    method Forget(path: Path, stamp: Stamp) returns (found: bool)
      requires Valid()
      modifies this, journal, journal.file
      ensures Valid() && found == (path in old(disk)) && disk == old(disk) - {path}
      ensures if found then OneMore(old(Entries()), Entries(), Tombstone, path, None) else Entries() == old(Entries())
      ensures Current() == Done(journal.codec, journal.seed, old(Current()), Removes(path, stamp))
      ensures old(InStep()) ==> InStep()
    {
      hide Lines, Live, Decoded, Moved, Noted;
      if path !in disk {
        return false;
      }
      ghost var before := Current();
      disk := disk - {path};
      var entry := Note(Tombstone, path, None, stamp);
      found := true;
      if old(InStep()) {
        DeedKeepsAgreement(journal.codec, journal.seed, before, Removes(path, stamp));
      }
    }

    /** Reconciliation has settled the paths of `done`, by the entries `added`. */
    ghost predicate Midway(before: seq<Entry>, raw: Bytes, start: map<Path, Digest>, done: set<Path>, added: seq<Entry>)
      reads this, journal, journal.file
    {
      && Valid() && Entries() == before + added
      && Reached(Live(Entries()), start, disk, done) && Settles(added, Drift(start, disk) * done, disk)
      && Extends(raw, journal.file.raw) && (added == [] ==> journal.file.raw == raw)
    }

    /** Note one differing path. */
    method NoteDrift(rel: Path, kind: OpKind, content: Option<Digest>, stamp: Stamp, ghost before: seq<Entry>,
                     ghost raw: Bytes, ghost start: map<Path, Digest>, ghost done: set<Path>, ghost added: seq<Entry>)
      returns (ghost added': seq<Entry>)
      requires rel !in done && Lookup(start, rel) != Lookup(Hashes(disk), rel)
      requires content == Lookup(Hashes(disk), rel) && kind == (if content.Some? then Put else Tombstone)
      requires Midway(before, raw, start, done, added)
      modifies journal, journal.file
      ensures |added'| == |added| + 1 && Midway(before, raw, start, done + {rel}, added')
    {
      hide Lines, Live, Decoded, Settles, Drift, Moved, Reached, Hashes;
      DriftAt(start, disk, rel);
      var entry := Note(kind, rel, content, stamp);
      ReachedOneMore(old(Live(Entries())), Live(Entries()), start, disk, done, rel);
      SettledOneMore(start, disk, done, added, entry);
      added' := added + [entry];
    }

    lemma SkipsAgreed(rel: Path, before: seq<Entry>, raw: Bytes, start: map<Path, Digest>, done: set<Path>,
                      added: seq<Entry>)
      requires rel !in done && Lookup(start, rel) == Lookup(Hashes(disk), rel)
      requires Midway(before, raw, start, done, added)
      ensures Midway(before, raw, start, done + {rel}, added)
    {
      hide Lines, Live, Decoded, Settles, Drift, Reached, Hashes;
      DriftAt(start, disk, rel);
      NothingToSettle(Live(Entries()), start, disk, done, rel, added);
    }

    /** The loop over the files on disk; returns what it left of the live state. */
    method PutDrifted(clock: nat -> Stamp, live: map<Path, Digest>)
      returns (left: map<Path, Digest>, appended: nat, ghost added: seq<Entry>)
      requires Valid() && live == Live(Entries())
      modifies journal, journal.file
      ensures Midway(old(Entries()), old(journal.file.raw), live, disk.Keys, added) && |added| == appended
      ensures left == live - disk.Keys
    {
      hide Midway, Halves, Live, Lines, Decoded, Hashes, Lookup;
      ghost var before, raw := Entries(), journal.file.raw;
      left := live;
      var todo := disk.Keys;
      ghost var done := {};
      appended, added := 0, [];
      LoopEnds(disk.Keys);
      StartsMidway();
      NothingMore(disk.Keys, live);
      while todo != {}
        invariant Halves(disk.Keys, todo, done)
        invariant left == live - done
        invariant Midway(before, raw, live, done, added) && |added| == appended
        decreases |todo|
      {
        var rel :| rel in todo;
        OneMoreDone(disk.Keys, todo, done, rel);
        var hash := ContentHash(disk[rel]);
        var known := Lookup(left, rel);
        left := left - {rel};
        OneLess(live, done, rel);
        HashAt(disk, rel);
        if known == Some(hash) {
          SkipsAgreed(rel, before, raw, live, done, added);
        } else {
          added := NoteDrift(rel, Put, Some(hash), clock(appended), before, raw, live, done, added);
          appended := appended + 1;
        }
        todo, done := todo - {rel}, done + {rel};
      }
    }

    /** The loop over what is left: paths whose file vanished. */
    method DropGone(clock: nat -> Stamp, left: map<Path, Digest>, appended: nat, ghost before: seq<Entry>,
                    ghost raw: Bytes,
                    ghost live: map<Path, Digest>, ghost added: seq<Entry>)
      returns (appended': nat, ghost added': seq<Entry>)
      requires left == live - disk.Keys && |added| == appended
      requires Midway(before, raw, live, disk.Keys, added)
      modifies journal, journal.file
      ensures Midway(before, raw, live, live.Keys + disk.Keys, added') && |added'| == appended'
    {
      hide Midway, Halves, Hashes, Lookup;
      appended', added' := appended, added;
      var todo := left.Keys;
      ghost var done := disk.Keys;
      LoopEnds(live.Keys + disk.Keys);
      LeftOver(live, disk.Keys);
      while todo != {}
        invariant Halves(live.Keys + disk.Keys, todo, done) && todo <= left.Keys
        invariant Midway(before, raw, live, done, added') && |added'| == appended'
        decreases |todo|
      {
        var rel :| rel in todo;
        OneMoreDone(live.Keys + disk.Keys, todo, done, rel);
        GoneAt(live, disk, left, rel);
        added' := NoteDrift(rel, Tombstone, None, clock(appended'), before, raw, live, done, added');
        appended' := appended' + 1;
        todo, done := todo - {rel}, done + {rel};
      }
    }

    lemma StartsMidway()
      requires Valid()
      ensures Midway(Entries(), journal.file.raw, Live(Entries()), {}, [])
    {
      NothingSettled(Live(Entries()), disk, journal.file.raw);
    }

    /**
     * Bring the journal back to what is on disk: one entry for each differing path, a put for a file
     * that is there, a tombstone for one that is gone; nothing when nothing differs.
     */
    method Reconcile(clock: nat -> Stamp) returns (appended: nat, ghost added: seq<Entry>)
      requires Valid()
      modifies journal, journal.file
      ensures Valid() && InStep()
      ensures Entries() == old(Entries()) + added && |added| == appended
      ensures Settles(added, old(Drift(Live(Entries()), disk)), disk)
      ensures appended == |old(Drift(Live(Entries()), disk))|
      ensures Extends(old(journal.file.raw), journal.file.raw)
      ensures appended == 0 ==> journal.file.raw == old(journal.file.raw)
      ensures Possible(journal.codec, journal.seed, old(Current()), Reconciles(journal.file.raw))
    {
      hide Lines, Live, Decoded, Settles, Drift, Reached, Hashes;
      ghost var before, raw := Entries(), journal.file.raw;
      var live := journal.LiveState();
      var left;
      left, appended, added := PutDrifted(clock, live);
      appended, added := DropGone(clock, left, appended, before, raw, live, added);
      AllSettled(Live(Entries()), live, disk, live.Keys + disk.Keys, added);
    }
  }

  lemma NothingMore<K, V>(keys: set<K>, m: map<K, V>)
    ensures keys + {} == keys && m - {} == m
  {
  }

  lemma OneLess<K, V>(m: map<K, V>, done: set<K>, k: K)
    requires k !in done
    ensures m - (done + {k}) == m - done - {k} && Lookup(m - done, k) == Lookup(m, k)
  {
  }

  lemma HashAt(disk: map<Path, Bytes>, p: Path)
    ensures Lookup(Hashes(disk), p) == if p in disk then Some(ContentHash(disk[p])) else None
  {
  }

  lemma LeftOver<K, V>(m: map<K, V>, done: set<K>)
    ensures Halves(m.Keys + done, (m - done).Keys, done)
  {
  }

  lemma GoneAt(live: map<Path, Digest>, disk: map<Path, Bytes>, left: map<Path, Digest>, p: Path)
    requires left == live - disk.Keys && p in left
    ensures Lookup(Hashes(disk), p) == None && Lookup(live, p) != None
  {
  }

  predicate Extends(raw: Bytes, raw': Bytes) {
    raw <= raw'
  }

  /** The journal gained one entry, of this kind, for this path, with this content. */
  predicate OneMore(before: seq<Entry>, after: seq<Entry>, kind: OpKind, path: Path, content: Option<Digest>) {
    && |after| == |before| + 1 && after[..|before|] == before
    && var e := after[|before|];
    && e.kind == kind && e.path == path && e.content == content
  }

  /** Entries that settle a set of paths: one each, saying what is on disk. */
  ghost predicate Settles(added: seq<Entry>, paths: set<Path>, disk: map<Path, Bytes>) {
    && (forall i :: 0 <= i < |added| ==>
          && added[i].path in paths
          && (if added[i].path in disk
              then added[i].kind == Put && added[i].content == Some(ContentHash(disk[added[i].path]))
              else added[i].kind == Tombstone && added[i].content == None))
    && (forall i, j :: 0 <= i < j < |added| ==> added[i].path != added[j].path)
    && |added| == |paths|
  }

  /** The live state with the paths of `done` brought to what is on disk. */
  ghost predicate Reached(live: map<Path, Digest>, start: map<Path, Digest>, disk: map<Path, Bytes>, done: set<Path>) {
    forall p :: Lookup(live, p) == if p in done then Lookup(Hashes(disk), p) else Lookup(start, p)
  }

  lemma NothingSettled(start: map<Path, Digest>, disk: map<Path, Bytes>, raw: Bytes)
    ensures Settles([], Drift(start, disk) * {}, disk) && Reached(start, start, disk, {}) && Extends(raw, raw)
  {
  }

  lemma DriftAt(start: map<Path, Digest>, disk: map<Path, Bytes>, p: Path)
    ensures p in Drift(start, disk) <==> Lookup(start, p) != Lookup(Hashes(disk), p)
  {
  }

  lemma ReachedOneMore(live: map<Path, Digest>, live': map<Path, Digest>, start: map<Path, Digest>,
                       disk: map<Path, Bytes>, done: set<Path>, p: Path)
    requires Reached(live, start, disk, done) && Moved(live, live', p, Lookup(Hashes(disk), p))
    ensures Reached(live', start, disk, done + {p})
  {
    forall q ensures Lookup(live', q) == if q in done + {p} then Lookup(Hashes(disk), q) else Lookup(start, q) {
      assert Lookup(live', q) == if q == p then Lookup(Hashes(disk), p) else Lookup(live, q);
    }
  }

  lemma SettledOneMore(start: map<Path, Digest>, disk: map<Path, Bytes>, done: set<Path>, added: seq<Entry>, e: Entry)
    requires e.path !in done && e.path in Drift(start, disk)
    requires Settles(added, Drift(start, disk) * done, disk)
    requires e.content == Lookup(Hashes(disk), e.path) && e.kind == (if e.content.Some? then Put else Tombstone)
    ensures Settles(added + [e], Drift(start, disk) * (done + {e.path}), disk)
  {
    hide Drift;
    var drift := Drift(start, disk);
    assert drift * (done + {e.path}) == drift * done + {e.path};
  }

  lemma NothingToSettle(live: map<Path, Digest>, start: map<Path, Digest>, disk: map<Path, Bytes>, done: set<Path>,
                        p: Path, added: seq<Entry>)
    requires p !in done && p !in Drift(start, disk)
    requires Reached(live, start, disk, done) && Settles(added, Drift(start, disk) * done, disk)
    ensures Reached(live, start, disk, done + {p}) && Settles(added, Drift(start, disk) * (done + {p}), disk)
  {
    DriftAt(start, disk, p);
    var drift := Drift(start, disk);
    assert drift * (done + {p}) == drift * done;
  }

  lemma AllSettled(live: map<Path, Digest>, start: map<Path, Digest>, disk: map<Path, Bytes>, done: set<Path>,
                   added: seq<Entry>)
    requires Reached(live, start, disk, done) && start.Keys + disk.Keys <= done
    requires Settles(added, Drift(start, disk) * done, disk)
    ensures live == Hashes(disk) && Settles(added, Drift(start, disk), disk) && |added| == |Drift(start, disk)|
  {
    SameLookups(live, Hashes(disk));
    assert Drift(start, disk) * done == Drift(start, disk);
  }

  /** Reconciling again finds nothing to do. */
  method ReconcileTwice(vault: Vault, clock: nat -> Stamp) returns (first: nat, second: nat)
    requires vault.Valid()
    modifies vault.journal, vault.journal.file
    ensures vault.Valid() && vault.InStep() && second == 0
  {
    hide Lines, Live, Decoded, Settles, Drift, Hashes;
    ghost var added;
    first, added := vault.Reconcile(clock);
    NoDrift(Live(vault.Entries()), vault.disk);
    label between:
    second, added := vault.Reconcile(clock);
    assert vault.journal.file.raw == old@between(vault.journal.file.raw);
  }

  /**
   * After a crash at any byte of the journal, whatever happened to the memory files meanwhile,
   * opening and reconciling end with the journal's live state equal to what is on disk.
   */
  method Recover(file: JournalFile, codec: Codec, vaultId: Bytes, disk: map<Path, Bytes>, clock: nat -> Stamp)
    returns (vault: Option<Vault>)
    requires Lawful(codec)
    modifies file
    ensures vault.Some? <==> Chained(codec, Lines(old(file.raw)), Genesis(vaultId))
    ensures vault.Some? ==>
      && vault.value.Valid() && vault.value.InStep() && vault.value.disk == disk && vault.value.journal.file == file
      && Extends(Healed(old(file.raw)), file.raw)
  {
    hide Lines, Live, Decoded, Settles, Drift, Chained, Hashes, LastHash;
    var journal := Journal.Open(file, codec, vaultId);
    if journal.None? {
      return None;
    }
    var v := new Vault(disk, journal.value);
    var appended, added := v.Reconcile(clock);
    vault := Some(v);
  }

  /**
   * Whatever a vault has lived through since it was empty, a crash of its last run at any byte of the
   * journal included, and whatever is on disk by then: recovery succeeds, and ends in agreement.
   */
  method RecoverAfterAnyLife(file: JournalFile, codec: Codec, vaultId: Bytes, ghost start: map<Path, Bytes>,
                             ghost deeds: seq<Deed>, ghost at: nat, disk: map<Path, Bytes>, clock: nat -> Stamp)
    returns (vault: Vault)
    requires Lawful(codec) && PossibleLife(codec, Genesis(vaultId), Site(start, []), deeds)
    requires var raw := DoneAll(codec, Genesis(vaultId), Site(start, []), deeds).raw;
      file.raw == raw[..if at < |raw| then at else |raw|]
    modifies file
    ensures vault.Valid() && vault.InStep() && vault.disk == disk && vault.journal.file == file
    ensures Extends(Healed(old(file.raw)), file.raw)
  {
    hide Lines, Sound, Chained, DoneAll, PossibleLife, Agrees;
    NothingIsSound(codec, Genesis(vaultId));
    LifeKeepsSound(codec, Genesis(vaultId), Site(start, []), deeds, at);
    var recovered := Recover(file, codec, vaultId, disk, clock);
    vault := recovered.value;
  }

  lemma NothingIsSound(c: Codec, seed: Digest)
    ensures Sound(c, [], seed)
  {
  }
}
