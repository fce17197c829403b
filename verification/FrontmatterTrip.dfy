/** Parsing a serialized document gives the document back. */
module FrontmatterTrip {
  import opened Prelude
  import opened Frontmatter

  // -------------------------------------------------------------------------
  // Trimming
  // -------------------------------------------------------------------------

  lemma {:induction false} TrimShrinks(s: string)
    ensures |TrimStart(s)| <= |s| && |TrimEnd(s)| <= |s|
    decreases |s|
  {
    if s != "" {
      TrimShrinks(s[1..]);
      TrimShrinks(s[..|s| - 1]);
    }
  }

  /** Trimming changes nothing exactly when neither end is blank. */
  lemma TrimKeeps(s: string)
    ensures Trim(s) == s <==> s == "" || (!IsWhite(s[0]) && !IsWhite(s[|s| - 1]))
  {
    if s != "" && IsWhite(s[0]) {
      TrimShrinks(s[1..]);
      TrimShrinks(TrimStart(s));
    } else if s != "" && IsWhite(s[|s| - 1]) {
      TrimShrinks(s[..|s| - 1]);
    }
  }

  lemma TrimSpace(s: string)
    requires Solid(s)
    ensures Trim(s) == s && Trim(" " + s) == s
  {
    TrimKeeps(s);
    assert (" " + s)[1..] == s;
  }

  // -------------------------------------------------------------------------
  // Quoting
  // -------------------------------------------------------------------------

  function NormalChar(c: char): char {
    if c == '\r' then '\n' else c
  }

  lemma UnescapeChar(c: char, rest: string)
    ensures Unescape(EscapeChar(c) + rest) == Prepend(NormalChar(c), Unescape(rest))
  {
    var s := EscapeChar(c) + rest;
    if |EscapeChar(c)| == 2 {
      assert s[2..] == rest;
    } else {
      assert s[1..] == rest;
    }
  }

  lemma {:induction false} UnescapeEscape(s: string)
    ensures Unescape(Escape(s)) == Ok(Normal(s))
  {
    if s != "" {
      UnescapeEscape(s[1..]);
      UnescapeChar(s[0], Escape(s[1..]));
    }
  }

  lemma {:induction false} EscapeIsOneLine(s: string)
    ensures '\n' !in Escape(s)
  {
    if s != "" {
      EscapeIsOneLine(s[1..]);
      assert '\n' !in EscapeChar(s[0]);
    }
  }

  /** Quoting and unquoting undo each other, up to carriage returns. */
  lemma UnquoteQuote(s: string)
    ensures Unquote(Quote(s)) == Ok(Normal(s)) && Solid(Quote(s))
  {
    var q := Quote(s);
    EscapeIsOneLine(s);
    UnescapeEscape(s);
    assert q[0] == '"' && q[|q| - 1] == '"' && q[1..|q| - 1] == Escape(s);
  }

  lemma {:induction false} NormalKeeps(s: string)
    requires '\r' !in s
    ensures Normal(s) == s
  {
    if s != "" {
      NormalKeeps(s[1..]);
      assert s == [s[0]] + s[1..];
    }
  }

  lemma BareIsPlain(n: Numbers, s: string)
    requires !NeedsQuoting(n, s)
    ensures Plain(s) && Normal(s) == s && '"' !in s && ',' !in s
  {
    TrimKeeps(s);
    forall i | 0 <= i < |s| ensures s[i] != '\n' && s[i] != '\r' && s[i] != '"' && s[i] != ',' {
      assert !IsSpecial(s[i]);
    }
    NormalKeeps(s);
  }

  lemma ScalarIsSolid(n: Numbers, s: string)
    ensures var w := WriteScalar(n, s); Solid(w) && w[0] != '{' && w[0] != '['
  {
    if NeedsQuoting(n, s) {
      UnquoteQuote(s);
    } else {
      BareIsPlain(n, s);
      assert !IsSpecial(s[0]);
    }
  }

  /** A string written as a scalar parses back as that string. */
  lemma ScalarTrip(n: Numbers, s: string)
    ensures ParseScalar(n, WriteScalar(n, s)) == Ok(Str(Normal(s)))
  {
    if NeedsQuoting(n, s) {
      UnquoteQuote(s);
    } else {
      BareIsPlain(n, s);
      assert !IsSpecial(s[0]);
    }
  }

  // -------------------------------------------------------------------------
  // Lists
  // -------------------------------------------------------------------------

  lemma {:induction false} SplitSkipsBare(p: string, rest: string, cur: string)
    requires '"' !in p && ',' !in p
    ensures SplitFrom(p + rest, Outside, cur) == SplitFrom(rest, Outside, cur + p)
    decreases |p|
  {
    if p == "" {
      assert p + rest == rest && cur + p == cur;
    } else {
      assert (p + rest)[0] == p[0] && (p + rest)[1..] == p[1..] + rest;
      SplitSkipsBare(p[1..], rest, cur + [p[0]]);
      assert cur + [p[0]] + p[1..] == cur + p;
    }
  }

  lemma SplitSkipsEscapedChar(c: char, rest: string, cur: string)
    ensures SplitFrom(EscapeChar(c) + rest, Inside, cur) == SplitFrom(rest, Inside, cur + EscapeChar(c))
  {
    var e := EscapeChar(c);
    var s := e + rest;
    if |e| == 2 {
      assert s[0] == '\\' && s[1..][0] == e[1] && s[1..][1..] == rest;
      assert cur + [s[0]] + [e[1]] == cur + e;
    } else {
      assert s[1..] == rest;
    }
  }

  /** Inside quotes the scan runs to the closing quote, commas and escapes included. */
  lemma {:induction false} SplitSkipsQuoted(s: string, rest: string, cur: string)
    ensures SplitFrom(Escape(s) + "\"" + rest, Inside, cur) == SplitFrom(rest, Outside, cur + Escape(s) + "\"")
    decreases |s|
  {
    if s == "" {
      assert Escape(s) + "\"" + rest == "\"" + rest;
      assert ("\"" + rest)[1..] == rest;
      assert cur + Escape(s) + "\"" == cur + "\"";
    } else {
      var e, tail := EscapeChar(s[0]), Escape(s[1..]) + "\"" + rest;
      assert Escape(s) + "\"" + rest == e + tail;
      SplitSkipsEscapedChar(s[0], tail, cur);
      SplitSkipsQuoted(s[1..], rest, cur + e);
      assert cur + e + Escape(s[1..]) == cur + Escape(s);
    }
  }

  lemma SplitSkipsScalar(n: Numbers, s: string, rest: string, cur: string)
    ensures SplitFrom(WriteScalar(n, s) + rest, Outside, cur) == SplitFrom(rest, Outside, cur + WriteScalar(n, s))
  {
    if NeedsQuoting(n, s) {
      var tail := Escape(s) + "\"" + rest;
      assert Quote(s) + rest == "\"" + tail;
      assert ("\"" + tail)[1..] == tail;
      SplitSkipsQuoted(s, rest, cur + "\"");
      assert cur + "\"" + Escape(s) + "\"" == cur + Quote(s);
    } else {
      BareIsPlain(n, s);
      SplitSkipsBare(s, rest, cur);
    }
  }

  /** The pieces a written list splits into: each item after the first keeps the blank before it. */
  function Parts(n: Numbers, items: seq<string>, lead: string): seq<string> {
    if items == [] then [] else [lead + WriteScalar(n, items[0])] + Parts(n, items[1..], " ")
  }

  lemma {:induction false} SplitItems(n: Numbers, items: seq<string>, lead: string)
    requires items != []
    ensures SplitFrom(WriteItems(n, items), Outside, lead) == Ok(Parts(n, items, lead))
    decreases |items|
  {
    var w := WriteScalar(n, items[0]);
    if |items| == 1 {
      SplitSkipsScalar(n, items[0], "", lead);
      assert w + "" == w;
      assert Parts(n, items[1..], " ") == [];
      assert Parts(n, items, lead) == [lead + w];
    } else {
      var rest := WriteItems(n, items[1..]);
      SplitSkipsScalar(n, items[0], ", " + rest, lead);
      assert w + (", " + rest) == WriteItems(n, items);
      SplitItems(n, items[1..], " ");
      SplitAtComma(rest, lead + w);
    }
  }

  lemma SplitAtComma(rest: string, cur: string)
    requires SplitFrom(rest, Outside, " ").Ok?
    ensures SplitFrom(", " + rest, Outside, cur) == Ok([cur] + SplitFrom(rest, Outside, " ").value)
  {
    assert (", " + rest)[1..] == " " + rest;
    SplitSkipsBare(" ", rest, "");
    assert "" + " " == " ";
  }

  lemma ItemTrip(n: Numbers, s: string, lead: string)
    requires lead == "" || lead == " "
    ensures ParseItem(lead + WriteScalar(n, s)) == Ok(Normal(s))
  {
    var w := WriteScalar(n, s);
    ScalarIsSolid(n, s);
    TrimSpace(w);
    assert "" + w == w;
    if NeedsQuoting(n, s) {
      UnquoteQuote(s);
    } else {
      BareIsPlain(n, s);
    }
  }

  lemma {:induction false} ItemsTrip(n: Numbers, items: seq<string>, lead: string)
    requires lead == "" || lead == " "
    ensures ParseItems(Parts(n, items, lead)) == Ok(NormalItems(items))
    decreases |items|
  {
    if items != [] {
      ItemTrip(n, items[0], lead);
      ItemsTrip(n, items[1..], " ");
      assert Parts(n, items, lead)[1..] == Parts(n, items[1..], " ");
    }
  }

  lemma {:induction false} ItemsAreSolid(n: Numbers, items: seq<string>)
    requires items != []
    ensures Solid(WriteItems(n, items))
    decreases |items|
  {
    ScalarIsSolid(n, items[0]);
    if |items| > 1 {
      ItemsAreSolid(n, items[1..]);
    }
  }

  lemma ListTrip(n: Numbers, items: seq<string>)
    ensures ParseList("[" + WriteItems(n, items) + "]") == Ok(NormalItems(items))
  {
    var inner := WriteItems(n, items);
    var raw := "[" + inner + "]";
    assert raw[1..|raw| - 1] == inner;
    if items != [] {
      ItemsAreSolid(n, items);
      TrimSpace(inner);
      SplitItems(n, items, "");
      ItemsTrip(n, items, "");
    }
  }

  // -------------------------------------------------------------------------
  // Values
  // -------------------------------------------------------------------------

  lemma ValueIsSolid(n: Numbers, v: Value)
    requires Lawful(n) && (v.Real? ==> !IsNan(v.float))
    ensures Solid(WriteValue(n, v))
  {
    match v
    case Str(s) => ScalarIsSolid(n, s);
    case Int(i) => assert Plain(n.showInt(i));
    case Real(f) => assert Plain(WriteFloat(n, f));
    case List(items) =>
      if items != [] {
        ItemsAreSolid(n, items);
      }
  }

  /** Every value but a NaN parses back from what is written for it. */
  lemma ValueTrip(n: Numbers, v: Value)
    requires Lawful(n) && (v.Real? ==> !IsNan(v.float))
    ensures ParseValue(n, WriteValue(n, v)) == Ok(NormalValue(v))
  {
    match v
    case Str(s) =>
      ScalarIsSolid(n, s);
      ScalarTrip(n, s);
    case Int(i) =>
      assert Plain(n.showInt(i)) && !IsSpecial(n.showInt(i)[0]);
    case Real(f) =>
      assert Plain(WriteFloat(n, f)) && !IsSpecial(WriteFloat(n, f)[0]);
    case List(items) =>
      ListTrip(n, items);
  }

  // -------------------------------------------------------------------------
  // Lines and documents
  // -------------------------------------------------------------------------

  lemma IndexOfAfter(before: string, c: char, after: string)
    requires c !in before
    ensures IndexOf(before + [c] + after, c) == Some(|before|)
  {
    var s := before + [c] + after;
    assert s[|before|] == c && forall i :: 0 <= i < |before| ==> s[i] == before[i];
  }

  lemma KeyIsSolid(key: string)
    requires ValidKey(key)
    ensures Solid(key) && ':' !in key && Trim(key) == key
  {
    assert IsAlnum(key[0]) || key[0] == '_';
    assert IsAlnum(key[|key| - 1]) || key[|key| - 1] == '_';
    assert forall i :: 0 <= i < |key| ==> IsAlnum(key[i]) || key[i] == '_';
    TrimKeeps(key);
  }

  lemma LineTrip(n: Numbers, f: Field, fields: seq<Field>)
    requires Lawful(n) && (f.value.Real? ==> !IsNan(f.value.float))
    requires ValidKey(f.key) && !HasKey(fields, f.key)
    ensures ParseLine(n, WriteField(n, f), fields) == Ok(Field(f.key, NormalValue(f.value)))
    ensures '\n' !in WriteField(n, f) && WriteField(n, f) != FENCE
  {
    hide ParseValue, WriteValue, NormalValue, Trim, IndexOf, HasKey, Lawful;
    var line, w := WriteField(n, f), WriteValue(n, f.value);
    KeyIsSolid(f.key);
    ValueIsSolid(n, f.value);
    ValueTrip(n, f.value);
    TrimSpace(w);
    assert line == f.key + [':'] + (" " + w);
    IndexOfAfter(f.key, ':', " " + w);
    assert line[..|f.key|] == f.key && line[|f.key| + 1..] == " " + w;
    assert line[|f.key|] == ':' && ':' !in FENCE;
  }

  lemma HasKeyMore(fields: seq<Field>, f: Field, key: string)
    ensures HasKey(fields + [f], key) <==> HasKey(fields, key) || f.key == key
  {
    var more := fields + [f];
    assert more[|fields|] == f && forall i :: 0 <= i < |fields| ==> more[i] == fields[i];
    if HasKey(fields, key) {
      var i :| 0 <= i < |fields| && fields[i].key == key;
      assert more[i].key == key;
    }
  }

  lemma ParseFieldLine(n: Numbers, line: string, next: string, fields: seq<Field>, f: Field)
    requires '\n' !in line && line != FENCE && ParseLine(n, line, fields) == Ok(f)
    ensures ParseFields(n, line + "\n" + next, fields) == ParseFields(n, next, fields + [f])
  {
    var rest := line + ['\n'] + next;
    IndexOfAfter(line, '\n', next);
    assert rest == line + "\n" + next;
    assert rest[..|line|] == line && rest[|line| + 1..] == next;
  }

  lemma ParseFence(n: Numbers, body: string, fields: seq<Field>)
    ensures ParseFields(n, FENCE + "\n" + body, fields) == Ok(Document(fields, body))
  {
    var rest := FENCE + ['\n'] + body;
    IndexOfAfter(FENCE, '\n', body);
    assert rest == FENCE + "\n" + body;
    assert rest[..|FENCE|] == FENCE && rest[|FENCE| + 1..] == body;
  }

  lemma WriteFieldsUnfold(n: Numbers, fields: seq<Field>, body: string)
    requires fields != []
    ensures WriteFields(n, fields) + FENCE + "\n" + body
         == WriteField(n, fields[0]) + "\n" + (WriteFields(n, fields[1..]) + FENCE + "\n" + body)
  {
    hide WriteField;
  }

  lemma NormalFieldsUnfold(done: seq<Field>, fields: seq<Field>)
    requires fields != []
    ensures done + [Field(fields[0].key, NormalValue(fields[0].value))] + NormalFields(fields[1..])
      == done + NormalFields(fields)
  {
    hide NormalValue;
  }

  /** What the fields still to come look like once the first is read. */
  lemma RestIsGood(done: seq<Field>, todo: seq<Field>, f: Field)
    requires todo != [] && GoodKeys(todo) && NoNans(todo) && f.key == todo[0].key
    requires forall i :: 0 <= i < |todo| ==> !HasKey(done, todo[i].key)
    ensures GoodKeys(todo[1..]) && NoNans(todo[1..])
    ensures forall i :: 0 <= i < |todo[1..]| ==> !HasKey(done + [f], todo[1..][i].key)
  {
    hide HasKey;
    forall i | 0 <= i < |todo[1..]| ensures !HasKey(done + [f], todo[1..][i].key) {
      assert todo[1..][i] == todo[i + 1];
      HasKeyMore(done, f, todo[i + 1].key);
    }
  }

  lemma {:induction false} FieldsTrip(n: Numbers, done: seq<Field>, todo: seq<Field>, body: string)
    requires Lawful(n) && GoodKeys(todo) && NoNans(todo)
    requires forall i :: 0 <= i < |todo| ==> !HasKey(done, todo[i].key)
    ensures ParseFields(n, WriteFields(n, todo) + FENCE + "\n" + body, done)
      == Ok(Document(done + NormalFields(todo), body))
    decreases |todo|
  {
    hide ParseFields, WriteField, NormalValue, HasKey, Lawful, ParseLine, ValidKey;
    if todo == [] {
      assert WriteFields(n, todo) + FENCE + "\n" + body == FENCE + "\n" + body;
      ParseFence(n, body, done);
      assert done + NormalFields(todo) == done;
    } else {
      var f' := Field(todo[0].key, NormalValue(todo[0].value));
      var next := WriteFields(n, todo[1..]) + FENCE + "\n" + body;
      LineTrip(n, todo[0], done);
      WriteFieldsUnfold(n, todo, body);
      ParseFieldLine(n, WriteField(n, todo[0]), next, done, f');
      RestIsGood(done, todo, f');
      FieldsTrip(n, done + [f'], todo[1..], body);
      NormalFieldsUnfold(done, todo);
    }
  }

  /**
   * Parsing a serialized document returns the same fields in the same order and the identical body,
   * for all distinct valid keys, all strings and lists (carriage returns come back as newlines) and
   * all numbers but NaN.
   */
  lemma ParseSerialize(n: Numbers, doc: Document)
    requires Lawful(n) && GoodKeys(doc.fields) && NoNans(doc.fields)
    ensures Parse(n, Serialize(n, doc)) == Ok(Document(NormalFields(doc.fields), doc.body))
  {
    hide ParseFields, WriteFields, Lawful, GoodKeys, NoNans;
    var text := Serialize(n, doc);
    var rest := WriteFields(n, doc.fields) + FENCE + "\n" + doc.body;
    assert text == FENCE + "\n" + rest;
    assert text[..4] == FENCE + "\n" && text[4..] == rest;
    FieldsTrip(n, [], doc.fields, doc.body);
    assert [] + NormalFields(doc.fields) == NormalFields(doc.fields);
  }

  // -------------------------------------------------------------------------
  // Whatever parses can be written and read again
  // -------------------------------------------------------------------------

  lemma OneMoreGoodKey(fields: seq<Field>, f: Field)
    requires GoodKeys(fields) && ValidKey(f.key) && !HasKey(fields, f.key)
    ensures GoodKeys(fields + [f])
  {
  }

  lemma ParsedLineKey(n: Numbers, line: string, fields: seq<Field>)
    requires ParseLine(n, line, fields).Ok?
    ensures var f := ParseLine(n, line, fields).value; ValidKey(f.key) && !HasKey(fields, f.key)
  {
    hide ParseValue, ValidKey, HasKey, Trim;
  }

  lemma {:induction false} ParsedKeysAreGood(n: Numbers, rest: string, fields: seq<Field>)
    requires GoodKeys(fields) && ParseFields(n, rest, fields).Ok?
    ensures GoodKeys(ParseFields(n, rest, fields).value.fields)
    decreases |rest|
  {
    hide GoodKeys, ParseLine, ValidKey, HasKey;
    var i := IndexOf(rest, '\n').value;
    var line, next := rest[..i], rest[i + 1..];
    if line != FENCE {
      var f := ParseLine(n, line, fields).value;
      ParsedLineKey(n, line, fields);
      OneMoreGoodKey(fields, f);
      ParsedKeysAreGood(n, next, fields + [f]);
    }
  }

  /** Any text that parses, to no NaN, is read back unchanged (up to carriage returns) from its own rewriting. */
  lemma RewriteIsStable(n: Numbers, text: string)
    requires Lawful(n) && Parse(n, text).Ok? && NoNans(Parse(n, text).value.fields)
    ensures var doc := Parse(n, text).value;
      GoodKeys(doc.fields) && Parse(n, Serialize(n, doc)) == Ok(Document(NormalFields(doc.fields), doc.body))
  {
    ParsedKeysAreGood(n, text[4..], []);
    ParseSerialize(n, Parse(n, text).value);
  }
}
