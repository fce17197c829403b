/**
 * The journal as bytes on disk, each line holding the hash of the one before: the scan that verifies it and
 * drops a torn tail, the append that extends the chain, and the fold that tells which files should be there.
 */
module ChangeJournal {
  import opened Prelude

  type Path = string

  const NEWLINE: byte := 10

  datatype OpKind = Put | Patch | Tombstone

  datatype Entry = Entry(opId: string, kind: OpKind, path: Path, content: Option<Digest>, ts: string, prev: Digest)

  /** The JSON encoding of one entry, as the functions it is made of. */
  datatype Codec = Codec(encode: Entry -> Bytes, decode: Bytes -> Option<Entry>)

  /** The text `tuskd-journal:`. */
  const GENESIS_PREFIX: Bytes := [116, 117, 115, 107, 100, 45, 106, 111, 117, 114, 110, 97, 108, 58]

  /** The seed of the chain, bound to the vault's identity. */
  function Genesis(vaultId: Bytes): Digest {
    Sha256(GENESIS_PREFIX + vaultId)
  }

  /**
   * What JSON gives: decoding undoes encoding, an encoding is one line; the seed's text and the empty line
   * are no entries.
   */
  ghost predicate Lawful(c: Codec) {
    && (forall e :: c.decode(c.encode(e)) == Some(e))
    && (forall e :: NEWLINE !in c.encode(e))
    && (forall vaultId :: c.decode(GENESIS_PREFIX + vaultId) == None)
    && c.decode([]) == None
  }

  // -------------------------------------------------------------------------
  // Bytes and lines
  // -------------------------------------------------------------------------

  function NewlineAt(raw: Bytes, from: nat): (r: Option<nat>)
    requires from <= |raw|
    ensures match r
      case Some(n) => from <= n < |raw| && raw[n] == NEWLINE && forall i :: from <= i < n ==> raw[i] != NEWLINE
      case None => forall i :: from <= i < |raw| ==> raw[i] != NEWLINE
    decreases |raw| - from
  {
    if from == |raw| then None
    else if raw[from] == NEWLINE then Some(from)
    else NewlineAt(raw, from + 1)
  }

  /** The complete lines of a file, without their newlines. */
  function Lines(raw: Bytes): seq<Bytes>
    decreases |raw|
  {
    match NewlineAt(raw, 0)
    case None => []
    case Some(n) => [raw[..n]] + Lines(raw[n + 1..])
  }

  /** What follows the last newline. */
  function Tail(raw: Bytes): Bytes
    decreases |raw|
  {
    match NewlineAt(raw, 0)
    case None => raw
    case Some(n) => Tail(raw[n + 1..])
  }

  function Text(lines: seq<Bytes>): Bytes {
    if lines == [] then [] else lines[0] + [NEWLINE] + Text(lines[1..])
  }

  predicate SingleLines(lines: seq<Bytes>) {
    forall i :: 0 <= i < |lines| ==> NEWLINE !in lines[i]
  }

  lemma FirstLine(line: Bytes, rest: Bytes)
    requires NEWLINE !in line
    ensures var raw := line + [NEWLINE] + rest;
      NewlineAt(raw, 0) == Some(|line|) && raw[..|line|] == line && raw[|line| + 1..] == rest
  {
    var raw := line + [NEWLINE] + rest;
    assert raw[|line|] == NEWLINE && forall i :: 0 <= i < |line| ==> raw[i] == line[i];
  }

  /** A stretch of a file around one byte. */
  lemma Slices(raw: Bytes, start: nat, at: nat)
    requires start <= at < |raw|
    ensures raw[start..] == raw[start..at] + [raw[at]] + raw[at + 1..]
    ensures raw[..at + 1] == raw[..start] + raw[start..at] + [raw[at]]
  {
  }

  lemma LinesUnfold(line: Bytes, rest: Bytes)
    requires NEWLINE !in line
    ensures Lines(line + [NEWLINE] + rest) == [line] + Lines(rest)
    ensures Tail(line + [NEWLINE] + rest) == Tail(rest)
  {
    FirstLine(line, rest);
  }

  lemma TextUnfold(line: Bytes, lines: seq<Bytes>)
    ensures Text([line] + lines) == line + [NEWLINE] + Text(lines)
  {
    assert ([line] + lines)[1..] == lines;
  }

  lemma {:induction false} LinesMakeUpFile(raw: Bytes)
    ensures SingleLines(Lines(raw)) && NEWLINE !in Tail(raw)
    ensures raw == Text(Lines(raw)) + Tail(raw)
    decreases |raw|
  {
    var n := NewlineAt(raw, 0);
    if n.Some? {
      var line, rest := raw[..n.value], raw[n.value + 1..];
      Slices(raw, 0, n.value);
      LinesMakeUpFile(rest);
      TextUnfold(line, Lines(rest));
      Regroup(line + [NEWLINE], Text(Lines(rest)), Tail(rest));
      assert raw[0..] == raw && raw[0..n.value] == line;
    }
  }

  lemma Regroup<T>(a: seq<T>, b: seq<T>, c: seq<T>)
    ensures a + b + c == a + (b + c)
  {
  }

  lemma {:induction false} LinesOfText(lines: seq<Bytes>, tail: Bytes)
    requires SingleLines(lines) && NEWLINE !in tail
    ensures Lines(Text(lines) + tail) == lines && Tail(Text(lines) + tail) == tail
    decreases |lines|
  {
    if lines == [] {
      assert Text(lines) + tail == tail;
    } else {
      var rest := Text(lines[1..]) + tail;
      assert Text(lines) + tail == lines[0] + [NEWLINE] + rest;
      LinesUnfold(lines[0], rest);
      LinesOfText(lines[1..], tail);
    }
  }

  lemma {:induction false} TextOfMore(a: seq<Bytes>, b: seq<Bytes>)
    ensures Text(a + b) == Text(a) + Text(b)
  {
    if a == [] {
      assert a + b == b;
    } else {
      assert (a + b)[1..] == a[1..] + b;
      TextOfMore(a[1..], b);
    }
  }

  lemma TextOneMore(lines: seq<Bytes>, line: Bytes)
    ensures Text(lines + [line]) == Text(lines) + line + [NEWLINE]
  {
    TextOfMore(lines, [line]);
    assert [line][1..] == [];
    assert Text([line]) == line + [NEWLINE];
  }

  // -------------------------------------------------------------------------
  // The chain
  // -------------------------------------------------------------------------

  function LastHash(lines: seq<Bytes>, seed: Digest): Digest {
    if lines == [] then seed else Sha256(lines[|lines| - 1])
  }

  /** Every line is an entry whose `prev` is the hash of the line before it. */
  predicate Chained(c: Codec, lines: seq<Bytes>, seed: Digest) {
    forall i :: 0 <= i < |lines| ==>
      c.decode(lines[i]).Some? && c.decode(lines[i]).value.prev == LastHash(lines[..i], seed)
  }

  lemma ChainedOneMore(c: Codec, lines: seq<Bytes>, line: Bytes, seed: Digest)
    ensures Chained(c, lines + [line], seed) <==>
      Chained(c, lines, seed) && c.decode(line).Some? && c.decode(line).value.prev == LastHash(lines, seed)
  {
    var more := lines + [line];
    assert more[..|lines|] == lines && more[|lines|] == line;
    assert forall i :: 0 <= i < |lines| ==> more[i] == lines[i] && more[..i] == lines[..i];
    if Chained(c, more, seed) {
      forall i | 0 <= i < |lines|
        ensures c.decode(lines[i]).Some? && c.decode(lines[i]).value.prev == LastHash(lines[..i], seed)
      {
        assert more[i] == lines[i];
      }
      assert c.decode(more[|lines|]).Some?;
    }
  }

  lemma PrefixIsChained(c: Codec, lines: seq<Bytes>, seed: Digest, n: nat)
    requires Chained(c, lines, seed) && n <= |lines|
    ensures Chained(c, lines[..n], seed)
  {
    assert forall i :: 0 <= i < n ==> lines[..n][i] == lines[i] && lines[..n][..i] == lines[..i];
  }

  lemma BrokenEarly(c: Codec, lines: seq<Bytes>, rest: seq<Bytes>, seed: Digest)
    requires Chained(c, lines + rest, seed)
    ensures Chained(c, lines, seed)
  {
    PrefixIsChained(c, lines + rest, seed, |lines|);
    assert (lines + rest)[..|lines|] == lines;
  }

  /** The bytes of a file that a journal may have been given: all of it, once its tail is dropped, in one chain. */
  predicate Sound(c: Codec, raw: Bytes, seed: Digest) {
    Chained(c, Lines(raw), seed) && Tail(raw) == []
  }

  // -------------------------------------------------------------------------
  // What the entries say
  // -------------------------------------------------------------------------

  function Decoded(c: Codec, lines: seq<Bytes>): seq<Entry> {
    if lines == [] then []
    else
      var last := c.decode(lines[|lines| - 1]);
      Decoded(c, lines[..|lines| - 1]) + if last.Some? then [last.value] else []
  }

  function Absorb(live: map<Path, Digest>, e: Entry): map<Path, Digest> {
    if e.kind == Tombstone then live - {e.path}
    else if e.content.Some? then live[e.path := e.content.value]
    else live
  }

  /** Last-known live state: each path's latest hash, unless its latest entry is a tombstone. */
  function Live(entries: seq<Entry>): map<Path, Digest> {
    if entries == [] then map[] else Absorb(Live(entries[..|entries| - 1]), entries[|entries| - 1])
  }

  lemma DecodedOneMore(c: Codec, lines: seq<Bytes>, line: Bytes)
    ensures Decoded(c, lines + [line]) ==
      Decoded(c, lines) + if c.decode(line).Some? then [c.decode(line).value] else []
  {
    assert (lines + [line])[..|lines|] == lines;
  }

  lemma LiveOneMore(entries: seq<Entry>, e: Entry)
    ensures Live(entries + [e]) == Absorb(Live(entries), e)
  {
    assert (entries + [e])[..|entries|] == entries;
  }

  // -------------------------------------------------------------------------
  // The journal as an object
  // -------------------------------------------------------------------------

  class JournalFile {
    var raw: Bytes
  }

  /** Look for the next newline. */
  method FindNewline(raw: Bytes, start: nat) returns (at: Option<nat>)
    requires start <= |raw|
    ensures at == NewlineAt(raw, start)
  {
    var i := start;
    while i < |raw|
      invariant start <= i <= |raw|
      invariant NewlineAt(raw, start) == NewlineAt(raw, i)
    {
      if raw[i] == NEWLINE {
        return Some(i);
      }
      i := i + 1;
    }
    at := None;
  }

  class Journal {
    const file: JournalFile
    const codec: Codec
    ghost const seed: Digest
    var lastHash: Digest

    /** The chain on disk is whole and `lastHash` is its end. */
    ghost predicate Valid()
      reads this, file
    {
      Lawful(codec) && Sound(codec, file.raw, seed) && lastHash == LastHash(Lines(file.raw), seed)
    }

    constructor (file: JournalFile, codec: Codec, lastHash: Digest, ghost seed: Digest)
      ensures this.file == file && this.codec == codec && this.lastHash == lastHash && this.seed == seed
    {
      this.file, this.codec, this.lastHash, this.seed := file, codec, lastHash, seed;
    }

    /**
     * Verify the whole chain; cut off what follows the last newline. Fails, leaving the file alone,
     * exactly when a complete line is not an entry or does not chain.
     */
    static method Open(file: JournalFile, codec: Codec, vaultId: Bytes) returns (journal: Option<Journal>)
      requires Lawful(codec)
      modifies file
      ensures journal.Some? <==> Chained(codec, Lines(old(file.raw)), Genesis(vaultId))
      ensures journal.None? ==> file.raw == old(file.raw)
      ensures journal.Some? ==>
        && fresh(journal.value) && journal.value.file == file && journal.value.codec == codec
        && journal.value.seed == Genesis(vaultId) && journal.value.Valid()
        && file.raw == Text(Lines(old(file.raw)))
        && Lines(file.raw) == Lines(old(file.raw))
    {
      hide Lines, Text, Tail, Chained, LastHash, NewlineAt;
      var raw := file.raw;
      var running := Genesis(vaultId);
      var start, goodEnd := 0, 0;
      ghost var seen: seq<Bytes> := [];
      NothingSeen(codec, raw, Genesis(vaultId));
      var at := FindNewline(raw, start);
      while at.Some?
        invariant file.raw == raw && start == goodEnd <= |raw|
        invariant at == NewlineAt(raw, start)
        invariant Lines(raw) == seen + Lines(raw[start..]) && Text(seen) == raw[..start]
        invariant Chained(codec, seen, Genesis(vaultId)) && running == LastHash(seen, Genesis(vaultId))
        decreases |raw| - start
      {
        var nl := at.value;
        var line := raw[start..nl];
        NextLine(raw, start, seen);
        ChainedOneMore(codec, seen, line, Genesis(vaultId));
        var entry := codec.decode(line);
        if entry.None? || entry.value.prev != running {
          NotChained(codec, seen + [line], Lines(raw[nl + 1..]), Genesis(vaultId));
          return None;
        }
        LastOfMore(seen, line, Genesis(vaultId));
        running := Sha256(line);
        seen := seen + [line];
        start := nl + 1;
        goodEnd := start;
        at := FindNewline(raw, start);
      }
      NoMoreLines(raw, start, seen);
      if goodEnd < |raw| {
        file.raw := raw[..goodEnd];
      }
      assert file.raw == raw[..goodEnd];
      WholeLines(raw, goodEnd, seen);
      var opened' := new Journal(file, codec, running, Genesis(vaultId));
      journal := Some(opened');
    }

    /** Append one entry, chained to the last line. */
    method Append(kind: OpKind, path: Path, content: Option<Digest>, opId: string, ts: string) returns (entry: Entry)
      requires Valid()
      modifies this, file
      ensures Valid()
      ensures entry == Entry(opId, kind, path, content, ts, old(lastHash))
      ensures Lines(file.raw) == Lines(old(file.raw)) + [codec.encode(entry)]
      ensures file.raw == old(file.raw) + codec.encode(entry) + [NEWLINE]
    {
      entry := Entry(opId, kind, path, content, ts, lastHash);
      var line := codec.encode(entry);
      AppendedLine(codec, file.raw, seed, line);
      LastOfMore(Lines(file.raw), line, seed);
      file.raw := file.raw + line + [NEWLINE];
      lastHash := Sha256(line);
    }

    /** Re-parse the complete lines. */
    method Entries() returns (entries: seq<Entry>)
      requires Valid()
      ensures entries == Decoded(codec, Lines(file.raw))
    {
      hide Lines, Text, Tail, Chained, LastHash, NewlineAt, Decoded;
      var raw := file.raw;
      var start := 0;
      ghost var seen: seq<Bytes> := [];
      NothingSeen(codec, raw, seed);
      NothingDecoded(codec);
      entries := [];
      var at := FindNewline(raw, start);
      while at.Some?
        invariant start <= |raw| && at == NewlineAt(raw, start)
        invariant Lines(raw) == seen + Lines(raw[start..]) && Text(seen) == raw[..start]
        invariant entries == Decoded(codec, seen)
        decreases |raw| - start
      {
        var nl := at.value;
        var line := raw[start..nl];
        NextLine(raw, start, seen);
        DecodedOneMore(codec, seen, line);
        if line != [] {
          var entry := codec.decode(line);
          if entry.Some? {
            entries := entries + [entry.value];
          }
        }
        seen := seen + [line];
        start := nl + 1;
        at := FindNewline(raw, start);
      }
      NoMoreLines(raw, start, seen);
    }

    method LiveState() returns (live: map<Path, Digest>)
      requires Valid()
      ensures live == Live(Decoded(codec, Lines(file.raw)))
    {
      var entries := Entries();
      live := map[];
      for i := 0 to |entries|
        invariant live == Live(entries[..i])
      {
        var entry := entries[i];
        assert entries[..i + 1] == entries[..i] + [entry];
        LiveOneMore(entries[..i], entry);
        if entry.kind == Tombstone {
          live := live - {entry.path};
        } else if entry.content.Some? {
          live := live[entry.path := entry.content.value];
        }
      }
      assert entries[..|entries|] == entries;
    }
  }

  lemma NextLine(raw: Bytes, start: nat, seen: seq<Bytes>)
    requires start <= |raw| && NewlineAt(raw, start).Some?
    requires Lines(raw) == seen + Lines(raw[start..]) && Text(seen) == raw[..start]
    ensures var nl := NewlineAt(raw, start).value;
      Lines(raw) == seen + [raw[start..nl]] + Lines(raw[nl + 1..]) && Text(seen + [raw[start..nl]]) == raw[..nl + 1]
  {
    hide Lines, Text, Tail;
    var nl := NewlineAt(raw, start).value;
    var line, rest := raw[start..nl], raw[nl + 1..];
    Slices(raw, start, nl);
    LinesUnfold(line, rest);
    TextOneMore(seen, line);
    Regroup(seen, [line], Lines(rest));
  }

  /** Cut after its last newline, a file holds exactly its complete lines. */
  lemma WholeLines(raw: Bytes, end: nat, lines: seq<Bytes>)
    requires end <= |raw| && Lines(raw) == lines && Text(lines) == raw[..end]
    ensures Lines(raw[..end]) == lines && Tail(raw[..end]) == []
  {
    LinesMakeUpFile(raw);
    LinesOfText(lines, []);
    assert Text(lines) + [] == raw[..end];
  }

  lemma NothingDecoded(c: Codec)
    ensures Decoded(c, []) == []
  {
  }

  /** Appending a chained line to a sound file keeps it sound. */
  lemma AppendedLine(c: Codec, raw: Bytes, seed: Digest, line: Bytes)
    requires Sound(c, raw, seed) && NEWLINE !in line
    requires c.decode(line).Some? && c.decode(line).value.prev == LastHash(Lines(raw), seed)
    ensures Lines(raw + line + [NEWLINE]) == Lines(raw) + [line]
    ensures Sound(c, raw + line + [NEWLINE], seed)
  {
    hide Lines, Tail, Text, Chained, LastHash;
    LinesMakeUpFile(raw);
    TextOneMore(Lines(raw), line);
    LinesOfText(Lines(raw) + [line], []);
    assert Text(Lines(raw) + [line]) + [] == raw + line + [NEWLINE];
    ChainedOneMore(c, Lines(raw), line, seed);
  }

  lemma NothingSeen(c: Codec, raw: Bytes, seed: Digest)
    ensures Lines(raw) == [] + Lines(raw[0..]) && Text([]) == raw[..0]
    ensures Chained(c, [], seed) && LastHash([], seed) == seed
  {
    assert raw[0..] == raw;
  }

  lemma LastOfMore(lines: seq<Bytes>, line: Bytes, seed: Digest)
    ensures LastHash(lines + [line], seed) == Sha256(line)
  {
  }

  lemma NotChained(c: Codec, lines: seq<Bytes>, rest: seq<Bytes>, seed: Digest)
    requires !Chained(c, lines, seed)
    ensures !Chained(c, lines + rest, seed)
  {
    if Chained(c, lines + rest, seed) {
      BrokenEarly(c, lines, rest, seed);
    }
  }

  lemma NoMoreLines(raw: Bytes, start: nat, seen: seq<Bytes>)
    requires start <= |raw| && NewlineAt(raw, start).None?
    requires Lines(raw) == seen + Lines(raw[start..]) && Text(seen) == raw[..start]
    ensures Lines(raw) == seen
  {
    assert forall i :: 0 <= i < |raw[start..]| ==> raw[start..][i] == raw[start + i];
    assert Lines(raw[start..]) == [];
  }
}
