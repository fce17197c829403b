/** What the parser accepts: each reading function as the inverse of a writing, a joining or a padding. */
module FrontmatterReads {
  import opened Prelude
  import opened Frontmatter
  import opened FrontmatterTrip

  // -------------------------------------------------------------------------
  // Trimming
  // -------------------------------------------------------------------------

  predicate Blank(s: string) {
    forall i :: 0 <= i < |s| ==> IsWhite(s[i])
  }

  predicate Unpadded(s: string) {
    s == "" || (!IsWhite(s[0]) && !IsWhite(s[|s| - 1]))
  }

  lemma {:induction false} TrimStartIs(s: string) returns (lead: string)
    ensures Blank(lead) && s == lead + TrimStart(s) && (TrimStart(s) == "" || !IsWhite(TrimStart(s)[0]))
    decreases |s|
  {
    if s == "" || !IsWhite(s[0]) {
      lead := "";
    } else {
      var rest := TrimStartIs(s[1..]);
      lead := [s[0]] + rest;
      assert s == [s[0]] + s[1..];
    }
  }

  lemma OneMoreBlank(front: string, kept: string, blanks: string, c: char)
    requires front == kept + blanks && Blank(blanks) && IsWhite(c)
    ensures front + [c] == kept + (blanks + [c]) && Blank(blanks + [c])
  {
    hide IsWhite;
  }

  lemma {:induction false} TrimEndIs(s: string) returns (tail: string)
    ensures Blank(tail) && s == TrimEnd(s) + tail && (TrimEnd(s) == "" || !IsWhite(TrimEnd(s)[|TrimEnd(s)| - 1]))
    decreases |s|
  {
    hide Blank, IsWhite;
    if s == "" || !IsWhite(s[|s| - 1]) {
      tail := "";
      NothingIsBlank();
    } else {
      var front, c := s[..|s| - 1], s[|s| - 1];
      var blanks := TrimEndIs(front);
      tail := blanks + [c];
      OneMoreBlank(front, TrimEnd(front), blanks, c);
      assert s == front + [c];
    }
  }

  lemma NothingIsBlank()
    ensures Blank("")
  {
  }

  /** Trimming takes off blanks at both ends, all of them, and nothing else. */
  lemma TrimIs(s: string) returns (lead: string, tail: string)
    ensures Blank(lead) && Blank(tail) && s == lead + Trim(s) + tail && Unpadded(Trim(s))
  {
    hide TrimStart, TrimEnd;
    lead := TrimStartIs(s);
    tail := TrimEndIs(TrimStart(s));
    var mid := TrimEnd(TrimStart(s));
    if mid != "" {
      assert TrimStart(s)[0] == mid[0];
    }
  }

  // -------------------------------------------------------------------------
  // Quotes
  // -------------------------------------------------------------------------

  /** Text of one line. */
  predicate OneLine(s: string) {
    '\n' !in s && '\r' !in s
  }

  lemma EscapeUnfold(c: char, s: string)
    ensures Escape([c] + s) == EscapeChar(c) + Escape(s)
  {
    assert ([c] + s)[1..] == s;
  }

  /** A text of one line starts with an escaped character, or does not unescape. */
  lemma FirstEscape(s: string) returns (ok: bool, c: char, rest: string)
    requires s != "" && OneLine(s)
    ensures ok ==> c != '\r' && s == EscapeChar(c) + rest && |rest| < |s| && OneLine(rest)
    ensures !ok ==> Unescape(s).Err?
  {
    ok, c, rest := true, s[0], s[1..];
    if s[0] == '"' || (s[0] == '\\' && (|s| == 1 || s[1] !in "\\\"n")) {
      ok := false;
    } else if s[0] == '\\' {
      c, rest := if s[1] == 'n' then '\n' else s[1], s[2..];
      assert s == [s[0], s[1]] + s[2..];
    } else {
      assert s == [s[0]] + s[1..];
    }
  }

  /** On one line unescaping accepts exactly what escaping writes, and gives back what was escaped. */
  lemma {:induction false} UnescapeIsInverse(s: string)
    requires OneLine(s)
    ensures Unescape(s).Ok? ==> Escape(Unescape(s).value) == s && '\r' !in Unescape(s).value
    decreases |s|
  {
    if s != "" {
      var ok, c, rest := FirstEscape(s);
      if ok {
        hide Unescape, Escape, EscapeChar, OneLine;
        UnescapeChar(c, rest);
        UnescapeIsInverse(rest);
        if Unescape(rest).Ok? {
          EscapeUnfold(c, Unescape(rest).value);
        }
      }
    }
  }

  lemma NormalWithoutReturns(v: string)
    requires '\r' !in v
    ensures Normal(v) == v
  {
    NormalKeeps(v);
  }

  /** A quoted text reads as `v` if and only if it is how `v` is written. */
  lemma UnquoteIff(raw: string, v: string)
    requires OneLine(raw)
    ensures Unquote(raw) == Ok(v) <==> raw == Quote(v) && '\r' !in v
  {
    if Unquote(raw) == Ok(v) {
      assert OneLine(raw[1..|raw| - 1]);
      UnescapeIsInverse(raw[1..|raw| - 1]);
      assert raw == "\"" + raw[1..|raw| - 1] + "\"";
    }
    if raw == Quote(v) && '\r' !in v {
      UnquoteQuote(v);
      NormalWithoutReturns(v);
    }
  }

  // -------------------------------------------------------------------------
  // Lists
  // -------------------------------------------------------------------------

  /** Where the scan stands after a text with no comma outside quotes. */
  function ScanOver(s: string, at: Scan): Scan {
    if s == "" then at
    else
      ScanOver(s[1..],
               match at
               case Escaped => Inside
               case Inside => if s[0] == '\\' then Escaped else if s[0] == '"' then Outside else Inside
               case Outside => if s[0] == '"' then Inside else Outside)
  }

  /** No comma of the text lies outside quotes. */
  predicate CommasQuoted(s: string, at: Scan) {
    s != "" ==> !(at == Outside && s[0] == ',') && CommasQuoted(s[1..], ScanOver(s[..1], at))
  }

  function Joined(parts: seq<string>): string {
    if parts == [] then "" else if |parts| == 1 then parts[0] else parts[0] + "," + Joined(parts[1..])
  }

  predicate WholeParts(parts: seq<string>) {
    forall i :: 0 <= i < |parts| ==> CommasQuoted(parts[i], Outside) && ScanOver(parts[i], Outside) == Outside
  }

  lemma {:induction false} ScanMore(a: string, c: char, at: Scan)
    ensures ScanOver(a + [c], at) == ScanOver([c], ScanOver(a, at))
    ensures CommasQuoted(a + [c], at) <==> CommasQuoted(a, at) && !(ScanOver(a, at) == Outside && c == ',')
    decreases |a|
  {
    if a == "" {
      assert a + [c] == [c] && [c][1..] == "";
    } else {
      assert (a + [c])[1..] == a[1..] + [c] && (a + [c])[..1] == a[..1];
      ScanMore(a[1..], c, ScanOver(a[..1], at));
      ScanOne(a, at);
    }
  }

  lemma ScanOne(a: string, at: Scan)
    requires a != ""
    ensures ScanOver(a, at) == ScanOver(a[1..], ScanOver(a[..1], at))
  {
    assert a[..1][1..] == "" && a[..1][0] == a[0];
  }

  lemma JoinedUnfold(cur: string, parts: seq<string>)
    requires parts != []
    ensures Joined([cur] + parts) == cur + "," + Joined(parts)
  {
    assert ([cur] + parts)[1..] == parts;
  }

  /** What the scan returns joins to what it read, in parts that are whole. */
  lemma {:induction false} SplitFromJoins(s: string, at: Scan, cur: string)
    requires CommasQuoted(cur, Outside) && ScanOver(cur, Outside) == at && SplitFrom(s, at, cur).Ok?
    ensures var parts := SplitFrom(s, at, cur).value;
      parts != [] && Joined(parts) == cur + s && WholeParts(parts)
    decreases |s|
  {
    hide CommasQuoted, ScanOver;
    if s == "" {
      assert cur + s == cur;
    } else {
      var c, rest := s[0], s[1..];
      assert cur + s == cur + [c] + rest;
      ScanMore(cur, c, Outside);
      ScanChar(c, at);
      if at == Outside && c == ',' {
        NothingScanned();
        SplitFromJoins(rest, Outside, "");
        JoinedUnfold(cur, SplitFrom(rest, Outside, "").value);
        assert "" + rest == rest;
      } else {
        SplitFromJoins(rest, ScanOver([c], at), cur + [c]);
      }
    }
  }

  lemma ScanChar(c: char, at: Scan)
    ensures ScanOver([c], at) == match at
      case Escaped => Inside
      case Inside => if c == '\\' then Escaped else if c == '"' then Outside else Inside
      case Outside => if c == '"' then Inside else Outside
  {
    assert [c][1..] == "";
  }

  lemma NothingScanned()
    ensures CommasQuoted("", Outside) && ScanOver("", Outside) == Outside
  {
  }

  /** The scan fails exactly on a text that ends inside quotes. */
  lemma {:induction false} SplitFailsIff(s: string, at: Scan, cur: string)
    ensures SplitFrom(s, at, cur).Err? <==> ScanOver(s, at) != Outside
    decreases |s|
  {
    if s != "" {
      var next := match at
        case Escaped => Inside
        case Inside => if s[0] == '\\' then Escaped else if s[0] == '"' then Outside else Inside
        case Outside => if s[0] == '"' then Inside else Outside;
      SplitFailsIff(s[1..], next, if at == Outside && s[0] == ',' then "" else cur + [s[0]]);
    }
  }

  /** Splitting is the inverse of joining whole parts with commas, and fails exactly on an open quote. */
  lemma SplitIs(s: string)
    ensures SplitTopLevel(s).Err? <==> ScanOver(s, Outside) != Outside
    ensures SplitTopLevel(s).Ok? ==>
      var parts := SplitTopLevel(s).value; parts != [] && Joined(parts) == s && WholeParts(parts)
  {
    hide CommasQuoted, ScanOver, SplitFrom;
    SplitFailsIff(s, Outside, "");
    if SplitTopLevel(s).Ok? {
      NothingScanned();
      SplitFromJoins(s, Outside, "");
      assert "" + s == s;
    }
  }

  // -------------------------------------------------------------------------
  // Values and lines
  // -------------------------------------------------------------------------

  /** Nothing, or a nested map, is no value; brackets make a list, quotes a string; the rest is never refused. */
  lemma ValueIs(n: Numbers, raw: string)
    ensures raw == "" || raw[0] == '{' ==> ParseValue(n, raw).Err?
    ensures raw != "" && raw[0] == '[' && ParseValue(n, raw).Ok? ==>
      ParseValue(n, raw).value.List? && raw[|raw| - 1] == ']'
    ensures raw != "" && raw[0] == '"' && OneLine(raw) ==>
      forall v :: ParseValue(n, raw) == Ok(Str(v)) <==> raw == Quote(v) && '\r' !in v
    ensures raw != "" && raw[0] !in "{[\"" ==>
      ParseValue(n, raw) == Ok(if n.parseInt(raw).Some? then Int(n.parseInt(raw).value)
                               else if n.parseFloat(raw).Some? then Real(n.parseFloat(raw).value) else Str(raw))
  {
    hide Unescape, Escape, SplitFrom, Trim;
    if raw != "" && raw[0] == '"' && OneLine(raw) {
      forall v ensures Unquote(raw) == Ok(v) <==> raw == Quote(v) && '\r' !in v {
        UnquoteIff(raw, v);
      }
    }
  }

  /** A key: letters, digits and underscores, no digit in front. */
  lemma KeyIs(key: string)
    ensures ValidKey(key) <==>
      key != "" && key[0] !in "0123456789" && forall c :: c in key ==> IsAlnum(c) || c == '_'
  {
    if forall c :: c in key ==> IsAlnum(c) || c == '_' {
      assert forall i :: 0 <= i < |key| ==> key[i] in key;
    }
  }

  /** A line that reads: a key not used yet, the first colon, a value, with blanks around both. */
  lemma LineIs(n: Numbers, line: string, fields: seq<Field>, f: Field)
    ensures ParseLine(n, line, fields) == Ok(f) <==>
      exists k, v :: KeyThenValue(line, k, v) && Trim(k) == f.key && ValidKey(f.key) && !HasKey(fields, f.key)
                     && ParseValue(n, Trim(v)) == Ok(f.value)
  {
    hide Trim, ParseValue, ValidKey, HasKey;
    if ParseLine(n, line, fields) == Ok(f) {
      var i := IndexOf(line, ':').value;
      assert KeyThenValue(line, line[..i], line[i + 1..]);
    }
    if k, v :| KeyThenValue(line, k, v) && Trim(k) == f.key && ValidKey(f.key) && !HasKey(fields, f.key)
               && ParseValue(n, Trim(v)) == Ok(f.value) {
      var i := IndexOf(line, ':').value;
      assert line[|k|] == ':' && forall j :: 0 <= j < |k| ==> line[j] == k[j];
      assert i == |k| && line[..i] == k && line[i + 1..] == v;
    }
  }

  predicate KeyThenValue(line: string, k: string, v: string) {
    line == k + ":" + v && ':' !in k
  }

  // -------------------------------------------------------------------------
  // Documents
  // -------------------------------------------------------------------------

  /** Lines, each with its newline. */
  function LinesText(lines: seq<string>): string {
    if lines == [] then "" else lines[0] + "\n" + LinesText(lines[1..])
  }

  /** Each line is the field of its place, read after the fields before it, and no line is a fence. */
  predicate LinesRead(n: Numbers, lines: seq<string>, before: seq<Field>, fields: seq<Field>) {
    && |lines| == |fields|
    && forall i :: 0 <= i < |lines| ==>
         '\n' !in lines[i] && lines[i] != FENCE && ParseLine(n, lines[i], before + fields[..i]) == Ok(fields[i])
  }

  lemma LinesReadMore(n: Numbers, line: string, lines: seq<string>, before: seq<Field>, f: Field, fields: seq<Field>)
    requires '\n' !in line && line != FENCE && ParseLine(n, line, before) == Ok(f)
    requires LinesRead(n, lines, before + [f], fields)
    ensures LinesRead(n, [line] + lines, before, [f] + fields)
  {
    hide ParseLine;
    var all, out := [line] + lines, [f] + fields;
    forall i | 0 <= i < |all|
      ensures '\n' !in all[i] && all[i] != FENCE && ParseLine(n, all[i], before + out[..i]) == Ok(out[i])
    {
      if i == 0 {
        assert before + out[..0] == before;
      } else {
        assert all[i] == lines[i - 1] && before + out[..i] == before + [f] + fields[..i - 1];
      }
    }
  }

  /** The line at hand, and what the parser does with it. */
  lemma FirstLineRead(n: Numbers, rest: string, before: seq<Field>) returns (line: string, next: string)
    requires ParseFields(n, rest, before).Ok?
    ensures rest == line + "\n" + next && '\n' !in line
    ensures line == FENCE ==> ParseFields(n, rest, before) == Ok(Document(before, next))
    ensures line != FENCE ==>
      && ParseLine(n, line, before).Ok?
      && ParseFields(n, rest, before) == ParseFields(n, next, before + [ParseLine(n, line, before).value])
  {
    hide ParseLine, IndexOf;
    var at := IndexOf(rest, '\n').value;
    line, next := rest[..at], rest[at + 1..];
  }

  lemma LineAndMore(line: string, lines: seq<string>, body: string)
    ensures line + "\n" + (LinesText(lines) + FENCE + "\n" + body) == LinesText([line] + lines) + FENCE + "\n" + body
  {
    LinesTextMore(line, lines);
  }

  lemma FenceAndBody(body: string)
    ensures FENCE + "\n" + body == LinesText([]) + FENCE + "\n" + body
  {
  }

  /** What follows the opening fence, if it reads at all: a line per field, the closing fence, the body. */
  lemma {:induction false} ParseFieldsReads(n: Numbers, rest: string, before: seq<Field>)
    returns (lines: seq<string>, fields: seq<Field>)
    requires ParseFields(n, rest, before).Ok?
    ensures var doc := ParseFields(n, rest, before).value;
      && doc.fields == before + fields && LinesRead(n, lines, before, fields)
      && rest == LinesText(lines) + FENCE + "\n" + doc.body
    decreases |rest|
  {
    hide ParseLine, LinesRead, ParseFields, LinesText;
    var line, next := FirstLineRead(n, rest, before);
    if line == FENCE {
      lines, fields := [], [];
      NothingRead(n, before);
      FenceAndBody(next);
      assert before + [] == before;
    } else {
      var f := ParseLine(n, line, before).value;
      var more, others := ParseFieldsReads(n, next, before + [f]);
      lines, fields := [line] + more, [f] + others;
      LinesReadMore(n, line, more, before, f, others);
      assert before + [f] + others == before + fields;
      LineAndMore(line, more, ParseFields(n, rest, before).value.body);
    }
  }

  lemma LinesTextMore(line: string, lines: seq<string>)
    ensures LinesText([line] + lines) == line + "\n" + LinesText(lines)
  {
    assert ([line] + lines)[1..] == lines;
  }

  lemma NothingRead(n: Numbers, before: seq<Field>)
    ensures LinesRead(n, [], before, [])
  {
  }

  /** A text that reads is a fence, a line for each field in order, a fence, and the body untouched. */
  lemma ParseReads(n: Numbers, text: string) returns (lines: seq<string>)
    requires Parse(n, text).Ok?
    ensures var doc := Parse(n, text).value;
      && text == FENCE + "\n" + LinesText(lines) + FENCE + "\n" + doc.body
      && LinesRead(n, lines, [], doc.fields)
  {
    hide ParseFields, LinesRead;
    var fields;
    lines, fields := ParseFieldsReads(n, text[4..], []);
    assert [] + fields == fields;
    assert text == text[..4] + text[4..];
    var body := Parse(n, text).value.body;
    assert FENCE + "\n" + (LinesText(lines) + FENCE + "\n" + body)
        == FENCE + "\n" + LinesText(lines) + FENCE + "\n" + body;
  }

  lemma LinesReadRest(n: Numbers, lines: seq<string>, before: seq<Field>, fields: seq<Field>)
    requires lines != [] && LinesRead(n, lines, before, fields)
    ensures LinesRead(n, lines[1..], before + [fields[0]], fields[1..])
    ensures ParseLine(n, lines[0], before) == Ok(fields[0])
  {
    hide ParseLine;
    assert before + fields[..0] == before;
    forall i | 0 <= i < |lines[1..]|
      ensures lines[1..][i] == lines[i + 1] && fields[1..][i] == fields[i + 1]
      ensures before + [fields[0]] + fields[1..][..i] == before + fields[..i + 1]
    {
    }
  }

  lemma {:induction false} LinesParse(n: Numbers, lines: seq<string>, before: seq<Field>, fields: seq<Field>,
                                      body: string)
    requires LinesRead(n, lines, before, fields)
    ensures ParseFields(n, LinesText(lines) + FENCE + "\n" + body, before) == Ok(Document(before + fields, body))
    decreases |lines|
  {
    hide ParseLine, ParseFields;
    if lines == [] {
      ParseFence(n, body, before);
      FenceAndBody(body);
      assert before + fields == before;
    } else {
      LinesReadRest(n, lines, before, fields);
      LinesParse(n, lines[1..], before + [fields[0]], fields[1..], body);
      ParseFieldLine(n, lines[0], LinesText(lines[1..]) + FENCE + "\n" + body, before, fields[0]);
      assert lines[0] + "\n" + (LinesText(lines[1..]) + FENCE + "\n" + body) == LinesText(lines) + FENCE + "\n" + body;
      assert before + [fields[0]] + fields[1..] == before + fields;
    }
  }

  /** And every such text reads, as those fields and that body. */
  lemma ReadableParses(n: Numbers, lines: seq<string>, fields: seq<Field>, body: string)
    requires LinesRead(n, lines, [], fields)
    ensures Parse(n, FENCE + "\n" + LinesText(lines) + FENCE + "\n" + body) == Ok(Document(fields, body))
  {
    hide ParseLine, ParseFields, LinesRead, LinesText;
    var text := FENCE + "\n" + LinesText(lines) + FENCE + "\n" + body;
    LinesParse(n, lines, [], fields, body);
    assert text[4..] == LinesText(lines) + FENCE + "\n" + body && text[..4] == FENCE + "\n";
    assert [] + fields == fields;
  }
}
