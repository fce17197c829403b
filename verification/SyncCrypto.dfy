/**
 * The client-side crypto envelope with ideal primitives. Ciphertexts are terms that
 * remember the key, repo and path they were sealed for, so opening one with
 * anything else fails; blob names are terms over the master key and the path.
 */
module SyncCrypto {
  import opened Prelude

  type Path = string

  /** Repo master key. */
  datatype Rmk = Rmk(id: nat)

  /** Per-object key: the random draw that minted it, made for one path. */
  datatype Dek = Dek(draw: nat, rel: Path)

  /** Storage names: the fixed manifest slot, or the keyed MAC of a path. */
  datatype Name = Manifest | Derived(rmk: Rmk, rel: Path)

  datatype ObjectEntry = ObjectEntry(blob: Name, dek: Dek)

  /** Only `KeyTable::entry` makes rows, and it names a row after its own path. */
  predicate WellNamed(t: map<Path, ObjectEntry>) {
    forall p :: p in t ==> t[p].blob.Derived? && t[p].blob.rel == p
  }

  type Table = t: map<Path, ObjectEntry> | WellNamed(t)

  datatype Blob =
    | Sealed(dek: Dek, repo: string, rel: Path, plain: Bytes)
    | SealedTable(rmk: Rmk, repoOfTable: string, table: Table)

  function BlobName(rmk: Rmk, rel: Path): Name {
    Derived(rmk, rel)
  }

  function Minted(rmk: Rmk, draw: nat, rel: Path): ObjectEntry {
    ObjectEntry(BlobName(rmk, rel), Dek(draw, rel))
  }

  function Encrypt(dek: Dek, repo: string, rel: Path, plain: Bytes): Blob {
    Sealed(dek, repo, rel, plain)
  }

  function Decrypt(dek: Dek, repo: string, rel: Path, blob: Blob): Option<Bytes> {
    match blob
    case Sealed(d, r, p, plain) => if d == dek && r == repo && p == rel then Some(plain) else None
    case SealedTable(_, _, _) => None
  }

  function OpenTable(blob: Blob, rmk: Rmk, repo: string): Option<Table> {
    match blob
    case SealedTable(k, r, t) => if k == rmk && r == repo then Some(t) else None
    case Sealed(_, _, _, _) => None
  }

  // -------------------------------------------------------------------------
  // Associated data: repo id, a zero separator, the path
  // -------------------------------------------------------------------------

  const NUL: byte := 0

  function ObjectAad(repo: Bytes, rel: Bytes): Bytes {
    repo + [NUL] + rel
  }

  /**
   * The separator keeps the two halves apart whenever repo ids hold no zero byte,
   * which is what lets `Sealed` record repo and path as two fields.
   */
  lemma ObjectAadInjective(repo: Bytes, rel: Bytes, repo': Bytes, rel': Bytes)
    requires NUL !in repo && NUL !in repo'
    requires ObjectAad(repo, rel) == ObjectAad(repo', rel')
    ensures repo == repo' && rel == rel'
  {
    var a, a' := ObjectAad(repo, rel), ObjectAad(repo', rel');
    assert a[|repo|] == NUL && a'[|repo'|] == NUL;
    assert forall i :: 0 <= i < |repo| ==> a[i] == repo[i];
    assert forall i :: 0 <= i < |repo'| ==> a'[i] == repo'[i];
    assert |repo| == |repo'|;
    assert a[..|repo|] == repo && a'[..|repo|] == repo';
    assert a[|repo| + 1..] == rel && a'[|repo| + 1..] == rel';
  }

  // -------------------------------------------------------------------------
  // Reading a store through a table
  // -------------------------------------------------------------------------

  /** Fetch one row's blob and decrypt it. */
  function Read(blobs: map<Name, Blob>, repo: string, rel: Path, entry: ObjectEntry): Option<Bytes> {
    if entry.blob in blobs then Decrypt(entry.dek, repo, rel, blobs[entry.blob]) else None
  }

  /** Everything a table's rows decrypt to. */
  function View(blobs: map<Name, Blob>, repo: string, t: Table): map<Path, Bytes> {
    map p | p in t && Read(blobs, repo, p, t[p]).Some? :: Read(blobs, repo, p, t[p]).value
  }

  predicate Intact(blobs: map<Name, Blob>, repo: string, t: Table) {
    forall p :: p in t ==> Read(blobs, repo, p, t[p]).Some?
  }

  /** Blob names a table gives to a set of paths. */
  function Names(t: Table, paths: set<Path>): (r: set<Name>)
    ensures forall n :: n in r <==> n.Derived? && n.rel in paths && n.rel in t && t[n.rel].blob == n
  {
    set p | p in paths && p in t :: t[p].blob
  }

  /** Names the key `rmk` derives for a set of paths. */
  function DerivedNames(rmk: Rmk, paths: set<Path>): (r: set<Name>)
    ensures forall n :: n in r <==> n.Derived? && n.rel in paths && n.rmk == rmk
  {
    set p | p in paths :: BlobName(rmk, p)
  }

  /** Rows whose name is not the one `rmk` derives. */
  function Stale(t: Table, rmk: Rmk): (r: set<Path>)
    ensures forall p :: p in r <==> p in t && t[p].blob != BlobName(rmk, p)
  {
    set p | p in t && t[p].blob != BlobName(rmk, p)
  }

  /** The key table as the client holds it while pushing. */
  class KeyTable {
    var objects: Table

    constructor (initial: Table)
      ensures objects == initial
    {
      objects := initial;
    }

    /** Row for `rel`: the existing one, or a freshly minted one. */
    method Entry(rmk: Rmk, rel: Path, draw: nat) returns (entry: ObjectEntry)
      modifies this
      ensures rel in objects && entry == objects[rel]
      ensures rel in old(objects) ==> objects == old(objects)
      ensures rel !in old(objects) ==> objects == old(objects)[rel := Minted(rmk, draw, rel)]
    {
      if rel in objects {
        return objects[rel];
      }
      entry := Minted(rmk, draw, rel);
      objects := objects[rel := entry];
    }

    method Remove(rel: Path) returns (entry: Option<ObjectEntry>)
      modifies this
      ensures entry == Lookup(old(objects), rel)
      ensures objects == old(objects) - {rel}
    {
      entry := Lookup(objects, rel);
      objects := objects - {rel};
    }

    method Seal(rmk: Rmk, repo: string) returns (blob: Blob)
      ensures blob == SealedTable(rmk, repo, objects)
      ensures OpenTable(blob, rmk, repo) == Some(objects)
      ensures forall k, r :: (k != rmk || r != repo) ==> OpenTable(blob, k, r) == None
    {
      blob := SealedTable(rmk, repo, objects);
    }
  }
}
