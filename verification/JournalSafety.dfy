/** What the chain guarantees: recovery after a crash at any byte, and evidence of tampering. */
module JournalSafety {
  import opened Prelude
  import opened ChangeJournal

  // -------------------------------------------------------------------------
  // Crashes
  // -------------------------------------------------------------------------

  /** What reopening leaves of a file: its complete lines. */
  function Healed(raw: Bytes): Bytes {
    Text(Lines(raw))
  }

  /** How many whole lines, newline included, lie within the first `n` bytes. */
  function WholeWithin(lines: seq<Bytes>, n: nat): (r: nat)
    ensures r <= |lines|
  {
    if lines == [] || n < |lines[0]| + 1 then 0 else 1 + WholeWithin(lines[1..], n - |lines[0]| - 1)
  }

  /** `WholeWithin` counts exactly the lines whose newline survives the cut. */
  lemma {:induction false} WholeWithinIsExact(lines: seq<Bytes>, n: nat)
    ensures var k := WholeWithin(lines, n);
      && |Text(lines[..k])| <= n
      && (k < |lines| ==> n < |Text(lines[..k + 1])|)
    decreases |lines|
  {
    if lines != [] && n >= |lines[0]| + 1 {
      var k := WholeWithin(lines[1..], n - |lines[0]| - 1);
      WholeWithinIsExact(lines[1..], n - |lines[0]| - 1);
      assert lines[..k + 1][1..] == lines[1..][..k];
      if k + 1 < |lines| {
        assert lines[..k + 2][1..] == lines[1..][..k + 1];
      }
    } else if lines != [] {
      assert lines[..1][1..] == [];
      assert |Text(lines[..1])| == |lines[0]| + 1;
    }
  }

  /** A cut anywhere in a sound file leaves exactly the lines that survived whole. */
  lemma {:induction false} CutKeepsWholeLines(lines: seq<Bytes>, n: nat)
    requires SingleLines(lines) && n <= |Text(lines)|
    ensures Lines(Text(lines)[..n]) == lines[..WholeWithin(lines, n)]
    decreases |lines|
  {
    hide Lines, Tail;
    var text := Text(lines);
    if lines == [] {
      LinesOfText([], []);
      assert text[..n] == Text([]) + [];
    } else if n < |lines[0]| + 1 {
      assert text[..n] == lines[0][..n];
      LinesOfText([], lines[0][..n]);
      assert Text([]) + lines[0][..n] == text[..n];
    } else {
      var rest, m := Text(lines[1..]), n - |lines[0]| - 1;
      CutKeepsWholeLines(lines[1..], m);
      CutAfterLine(lines[0], rest, m);
      LinesUnfold(lines[0], rest[..m]);
      PrefixUnfold(lines, WholeWithin(lines[1..], m));
    }
  }

  lemma CutAfterLine(line: Bytes, rest: Bytes, m: nat)
    requires m <= |rest|
    ensures (line + [NEWLINE] + rest)[..|line| + 1 + m] == line + [NEWLINE] + rest[..m]
  {
  }

  lemma PrefixUnfold<T>(lines: seq<T>, k: nat)
    requires lines != [] && k <= |lines| - 1
    ensures [lines[0]] + lines[1..][..k] == lines[..k + 1]
  {
  }

  /** One event in the life of a journal file. */
  datatype Event =
    | Appended(opId: string, kind: OpKind, path: Path, content: Option<Digest>, ts: string)
    | CutAndReopened(at: nat)

  function NextLineOf(c: Codec, lines: seq<Bytes>, seed: Digest, e: Event): Bytes
    requires e.Appended?
  {
    c.encode(Entry(e.opId, e.kind, e.path, e.content, e.ts, LastHash(lines, seed)))
  }

  /** The file after an event: an append extends it; a crash cuts it and reopening drops the torn tail. */
  function After(c: Codec, seed: Digest, raw: Bytes, e: Event): Bytes {
    match e
    case Appended(_, _, _, _, _) => raw + NextLineOf(c, Lines(raw), seed, e) + [NEWLINE]
    case CutAndReopened(at) => Healed(raw[..if at < |raw| then at else |raw|])
  }

  function AfterAll(c: Codec, seed: Digest, raw: Bytes, events: seq<Event>): Bytes
    decreases |events|
  {
    if events == [] then raw else AfterAll(c, seed, After(c, seed, raw, events[0]), events[1..])
  }

  /** The lines the same events should leave, told without bytes. */
  function Kept(c: Codec, seed: Digest, lines: seq<Bytes>, events: seq<Event>): seq<Bytes>
    decreases |events|
  {
    if events == [] then lines
    else
      match events[0]
      case Appended(_, _, _, _, _) => Kept(c, seed, lines + [NextLineOf(c, lines, seed, events[0])], events[1..])
      case CutAndReopened(at) => Kept(c, seed, lines[..WholeWithin(lines, at)], events[1..])
  }

  lemma {:induction false} WholeWithinAll(lines: seq<Bytes>, n: nat)
    requires n >= |Text(lines)|
    ensures WholeWithin(lines, n) == |lines|
    decreases |lines|
  {
    if lines != [] {
      WholeWithinAll(lines[1..], n - |lines[0]| - 1);
    }
  }

  /** A crash anywhere leaves a file that reopens, sound, with exactly its surviving whole lines. */
  lemma CrashHeals(c: Codec, seed: Digest, raw: Bytes, at: nat)
    requires Sound(c, raw, seed)
    ensures var raw' := After(c, seed, raw, CutAndReopened(at));
      && Chained(c, Lines(raw[..if at < |raw| then at else |raw|]), seed)
      && Sound(c, raw', seed)
      && Lines(raw') == Lines(raw)[..WholeWithin(Lines(raw), at)]
  {
    hide Lines, Tail, Text, Chained, WholeWithin;
    var lines := Lines(raw);
    LinesMakeUpFile(raw);
    assert raw == Text(lines);
    var n := if at < |raw| then at else |raw|;
    CutKeepsWholeLines(lines, n);
    WholeWithinIsExact(lines, at);
    if at > |raw| {
      WholeWithinAll(lines, at);
      WholeWithinAll(lines, n);
    }
    var kept := lines[..WholeWithin(lines, at)];
    PrefixIsChained(c, lines, seed, |kept|);
    LinesOfText(kept, []);
    assert Text(kept) + [] == Text(kept);
  }

  lemma AppendKeepsSound(c: Codec, seed: Digest, raw: Bytes, e: Event)
    requires Lawful(c) && Sound(c, raw, seed) && e.Appended?
    ensures var raw' := After(c, seed, raw, e);
      Sound(c, raw', seed) && Lines(raw') == Lines(raw) + [NextLineOf(c, Lines(raw), seed, e)]
  {
    AppendedLine(c, raw, seed, NextLineOf(c, Lines(raw), seed, e));
  }

  /**
   * Over every run of appends and crashes at any byte, reopening always succeeds and keeps exactly
   * the lines whose newline survived, and later appends chain onto them.
   */
  lemma {:induction false} RunKeepsChain(c: Codec, seed: Digest, raw: Bytes, events: seq<Event>)
    requires Lawful(c) && Sound(c, raw, seed)
    ensures Sound(c, AfterAll(c, seed, raw, events), seed)
    ensures Lines(AfterAll(c, seed, raw, events)) == Kept(c, seed, Lines(raw), events)
    decreases |events|
  {
    hide Lines, Tail, Text, Sound, Healed, WholeWithin;
    if events != [] {
      match events[0]
      case Appended(_, _, _, _, _) =>
        AppendKeepsSound(c, seed, raw, events[0]);
        RunKeepsChain(c, seed, After(c, seed, raw, events[0]), events[1..]);
      case CutAndReopened(at) =>
        CrashHeals(c, seed, raw, at);
        RunKeepsChain(c, seed, After(c, seed, raw, events[0]), events[1..]);
    }
  }

  // -------------------------------------------------------------------------
  // Tampering
  // -------------------------------------------------------------------------

  /** Two chains from one seed with one end are the same lines. */
  lemma {:induction false} SameEndSameLines(c: Codec, vaultId: Bytes, a: seq<Bytes>, b: seq<Bytes>)
    requires Lawful(c)
    requires Chained(c, a, Genesis(vaultId)) && Chained(c, b, Genesis(vaultId))
    requires LastHash(a, Genesis(vaultId)) == LastHash(b, Genesis(vaultId))
    ensures a == b
    decreases |a|
  {
    var seed := Genesis(vaultId);
    if a == [] || b == [] {
      NoLineHashesToGenesis(c, vaultId, a);
      NoLineHashesToGenesis(c, vaultId, b);
    } else {
      var a', b' := a[..|a| - 1], b[..|b| - 1];
      assert a == a' + [a[|a| - 1]] && b == b' + [b[|b| - 1]];
      ChainedOneMore(c, a', a[|a| - 1], seed);
      ChainedOneMore(c, b', b[|b| - 1], seed);
      SameEndSameLines(c, vaultId, a', b');
    }
  }

  lemma NoLineHashesToGenesis(c: Codec, vaultId: Bytes, lines: seq<Bytes>)
    requires Lawful(c) && Chained(c, lines, Genesis(vaultId))
    ensures LastHash(lines, Genesis(vaultId)) == Genesis(vaultId) ==> lines == []
  {
    if lines != [] {
      assert c.decode(lines[|lines| - 1]).Some?;
      assert c.decode(GENESIS_PREFIX + vaultId) == None;
    }
  }

  /**
   * With a collision-free hash, two files accepted for one vault whose last lines hash alike have
   * identical complete lines: the last hash commits to the whole history.
   */
  lemma LastHashCommits(c: Codec, vaultId: Bytes, raw: Bytes, raw': Bytes)
    requires Lawful(c)
    requires Chained(c, Lines(raw), Genesis(vaultId)) && Chained(c, Lines(raw'), Genesis(vaultId))
    requires LastHash(Lines(raw), Genesis(vaultId)) == LastHash(Lines(raw'), Genesis(vaultId))
    ensures Lines(raw) == Lines(raw') && Healed(raw) == Healed(raw')
  {
    SameEndSameLines(c, vaultId, Lines(raw), Lines(raw'));
  }

  /** A line that has a later line is pinned down by it: any change to it is noticed. */
  lemma EditedLineIsRejected(c: Codec, seed: Digest, lines: seq<Bytes>, i: nat, line: Bytes)
    requires Chained(c, lines, seed) && i + 1 < |lines|
    ensures Chained(c, lines[i := line], seed) <==> line == lines[i]
  {
    if Chained(c, lines[i := line], seed) {
      NextLinePins(c, seed, lines, lines[i := line], i);
    }
    if line == lines[i] {
      assert lines[i := line] == lines;
    }
  }

  lemma NextLinePins(c: Codec, seed: Digest, a: seq<Bytes>, b: seq<Bytes>, i: nat)
    requires Chained(c, a, seed) && Chained(c, b, seed) && |a| == |b| && i + 1 < |a| && a[i + 1] == b[i + 1]
    ensures a[i] == b[i]
  {
    assert LastHash(a[..i + 1], seed) == Sha256(a[i]);
    assert LastHash(b[..i + 1], seed) == Sha256(b[i]);
  }

  /** An edit to the last line goes unnoticed exactly when it still is an entry with the same `prev`. */
  lemma LastLineEditIsAccepted(c: Codec, seed: Digest, lines: seq<Bytes>, line: Bytes)
    requires Chained(c, lines, seed) && lines != []
    ensures Chained(c, lines[|lines| - 1 := line], seed) <==>
      c.decode(line).Some? && c.decode(line).value.prev == c.decode(lines[|lines| - 1]).value.prev
  {
    var front, last := lines[..|lines| - 1], lines[|lines| - 1];
    assert lines == front + [last] && lines[|lines| - 1 := line] == front + [line];
    ChainedOneMore(c, front, last, seed);
    ChainedOneMore(c, front, line, seed);
  }

  /** A journal with any complete line is rejected under another vault's identity. */
  lemma OtherVaultIsRejected(c: Codec, vaultId: Bytes, other: Bytes, raw: Bytes)
    requires Chained(c, Lines(raw), Genesis(vaultId)) && Lines(raw) != [] && other != vaultId
    ensures !Chained(c, Lines(raw), Genesis(other))
  {
    GenesisDiffers(vaultId, other);
    var lines := Lines(raw);
    assert c.decode(lines[0]).value.prev == LastHash(lines[..0], Genesis(vaultId));
    assert Chained(c, lines, Genesis(other)) ==> c.decode(lines[0]).value.prev == LastHash(lines[..0], Genesis(other));
  }

  lemma GenesisDiffers(a: Bytes, b: Bytes)
    requires a != b
    ensures Genesis(a) != Genesis(b)
  {
    assert (GENESIS_PREFIX + a)[|GENESIS_PREFIX|..] == a;
    assert (GENESIS_PREFIX + b)[|GENESIS_PREFIX|..] == b;
  }
}
