/** The codec's loops, each proved to compute the function that specifies it. */
module FrontmatterCode {
  import opened Prelude
  import opened Frontmatter

  lemma TakeOneMore(s: string, i: nat)
    requires i < |s|
    ensures s[..i + 1] == s[..i] + [s[i]] && s[i..] == [s[i]] + s[i + 1..]
  {
  }

  // -------------------------------------------------------------------------
  // Quoting
  // -------------------------------------------------------------------------

  lemma EscapeOneMore(out: string, s: string, i: nat)
    requires i < |s|
    ensures out + EscapeChar(s[i]) + Escape(s[i + 1..]) == out + Escape(s[i..])
  {
    assert s[i..][1..] == s[i + 1..];
  }

  method QuoteText(s: string) returns (out: string)
    ensures out == Quote(s)
  {
    hide Escape;
    out := "\"";
    var i := 0;
    assert s[0..] == s;
    while i < |s|
      invariant 0 <= i <= |s|
      invariant out + Escape(s[i..]) == "\"" + Escape(s)
    {
      var c := s[i];
      EscapeOneMore(out, s, i);
      if c == '\\' {
        out := out + "\\\\";
      } else if c == '"' {
        out := out + "\\\"";
      } else if c == '\n' {
        out := out + "\\n";
      } else if c == '\r' {
        out := out + "\\n";
      } else {
        out := out + [c];
      }
      i := i + 1;
    }
    EscapeNothing(s, out);
    out := out + "\"";
  }

  lemma EscapeNothing(s: string, out: string)
    ensures out + Escape(s[|s|..]) == out
  {
    assert s[|s|..] == "";
  }

  /** What a scan that has read `out` makes of the rest. */
  function Onto(out: string, rest: Result<string>): Result<string> {
    match rest
    case Ok(s) => Ok(out + s)
    case Err => Err
  }

  lemma OntoNothing(out: string, rest: Result<string>)
    ensures Onto("", rest) == rest && Onto(out, Ok("")) == Ok(out)
  {
    if rest.Ok? {
      assert "" + rest.value == rest.value;
    }
    assert out + "" == out;
  }

  lemma OntoPrepend(out: string, c: char, rest: Result<string>)
    ensures Onto(out, Prepend(c, rest)) == Onto(out + [c], rest)
  {
    if rest.Ok? {
      assert out + ([c] + rest.value) == out + [c] + rest.value;
    }
  }

  method UnquoteText(raw: string) returns (r: Result<string>)
    ensures r == Unquote(raw)
  {
    if |raw| < 2 || raw[0] != '"' || raw[|raw| - 1] != '"' {
      return Err;
    }
    var inner := raw[1..|raw| - 1];
    var out, i := "", 0;
    assert inner[0..] == inner;
    OntoNothing("", Unescape(inner));
    while i < |inner|
      invariant 0 <= i <= |inner|
      invariant Onto(out, Unescape(inner[i..])) == Unescape(inner)
    {
      var c := inner[i];
      TakeOneMore(inner, i);
      if c == '\\' {
        if i + 1 == |inner| {
          return Err;
        }
        var d := inner[i + 1];
        assert inner[i..][2..] == inner[i + 2..];
        if d == '\\' {
          OntoPrepend(out, '\\', Unescape(inner[i + 2..]));
          out := out + "\\";
        } else if d == '"' {
          OntoPrepend(out, '"', Unescape(inner[i + 2..]));
          out := out + "\"";
        } else if d == 'n' {
          OntoPrepend(out, '\n', Unescape(inner[i + 2..]));
          out := out + "\n";
        } else {
          return Err;
        }
        i := i + 2;
      } else if c == '"' {
        return Err;
      } else {
        OntoPrepend(out, c, Unescape(inner[i + 1..]));
        out := out + [c];
        i := i + 1;
      }
    }
    assert inner[i..] == "";
    OntoNothing(out, Ok(""));
    r := Ok(out);
  }

  // -------------------------------------------------------------------------
  // Lists
  // -------------------------------------------------------------------------

  function After(parts: seq<string>, rest: Result<seq<string>>): Result<seq<string>> {
    match rest
    case Ok(more) => Ok(parts + more)
    case Err => Err
  }

  method Split(s: string) returns (r: Result<seq<string>>)
    ensures r == SplitTopLevel(s)
  {
    var parts: seq<string>, cur := [], "";
    var inQuote, escaped := false, false;
    var i := 0;
    assert s[0..] == s;
    AfterNothing(parts, SplitTopLevel(s));
    while i < |s|
      invariant 0 <= i <= |s| && (escaped ==> inQuote)
      invariant After(parts, SplitFrom(s[i..], if escaped then Escaped else if inQuote then Inside else Outside, cur))
        == SplitTopLevel(s)
    {
      var c := s[i];
      TakeOneMore(s, i);
      ghost var rest := s[i + 1..];
      if inQuote {
        cur := cur + [c];
        if escaped {
          escaped := false;
        } else if c == '\\' {
          escaped := true;
        } else if c == '"' {
          inQuote := false;
        }
      } else if c == '"' {
        inQuote := true;
        cur := cur + [c];
      } else if c == ',' {
        AfterComma(parts, cur, SplitFrom(rest, Outside, ""));
        parts := parts + [cur];
        cur := "";
      } else {
        cur := cur + [c];
      }
      i := i + 1;
    }
    assert s[i..] == "";
    if inQuote {
      return Err;
    }
    r := Ok(parts + [cur]);
  }

  lemma AfterNothing(parts: seq<string>, rest: Result<seq<string>>)
    requires parts == []
    ensures After(parts, rest) == rest
  {
    if rest.Ok? {
      assert [] + rest.value == rest.value;
    }
  }

  lemma AfterComma(parts: seq<string>, cur: string, rest: Result<seq<string>>)
    ensures After(parts, After([cur], rest)) == After(parts + [cur], rest)
  {
    if rest.Ok? {
      assert parts + ([cur] + rest.value) == parts + [cur] + rest.value;
    }
  }

  method ReadList(raw: string) returns (r: Result<seq<string>>)
    ensures r == ParseList(raw)
  {
    if |raw| < 2 || raw[0] != '[' || raw[|raw| - 1] != ']' {
      return Err;
    }
    var inner := Trim(raw[1..|raw| - 1]);
    if inner == "" {
      return Ok([]);
    }
    var split := Split(inner);
    if split.Err? {
      return Err;
    }
    var parts := split.value;
    var items: seq<string>, i := [], 0;
    assert parts[0..] == parts;
    AfterNothing(items, ParseItems(parts));
    while i < |parts|
      invariant 0 <= i <= |parts|
      invariant After(items, ParseItems(parts[i..])) == ParseItems(parts)
    {
      var part := Trim(parts[i]);
      assert parts[i..][1..] == parts[i + 1..];
      var item := part;
      if part != "" && part[0] == '"' {
        var unquoted := UnquoteText(part);
        if unquoted.Err? {
          return Err;
        }
        item := unquoted.value;
      }
      AfterComma(items, item, ParseItems(parts[i + 1..]));
      items := items + [item];
      i := i + 1;
    }
    assert parts[i..] == [];
    assert items + [] == items;
    r := Ok(items);
  }

  // -------------------------------------------------------------------------
  // Documents
  // -------------------------------------------------------------------------

  method ReadScalar(n: Numbers, raw: string) returns (r: Result<Value>)
    ensures r == ParseScalar(n, raw)
  {
    if raw != "" && raw[0] == '"' {
      var s := UnquoteText(raw);
      return if s.Ok? then Ok(Str(s.value)) else Err;
    }
    var num := n.parseInt(raw);
    if num.Some? {
      return Ok(Int(num.value));
    }
    var float := n.parseFloat(raw);
    return if float.Some? then Ok(Real(float.value)) else Ok(Str(raw));
  }

  method KeyTaken(fields: seq<Field>, key: string) returns (taken: bool)
    ensures taken == HasKey(fields, key)
  {
    for i := 0 to |fields|
      invariant forall j :: 0 <= j < i ==> fields[j].key != key
    {
      if fields[i].key == key {
        return true;
      }
    }
    taken := false;
  }

  method ReadLine(n: Numbers, line: string, fields: seq<Field>) returns (r: Result<Field>)
    ensures r == ParseLine(n, line, fields)
  {
    hide ParseScalar, ParseList, HasKey, ValidKey, Trim;
    var colon := IndexOf(line, ':');
    if colon.None? {
      return Err;
    }
    var key := Trim(line[..colon.value]);
    if !ValidKey(key) {
      return Err;
    }
    var taken := KeyTaken(fields, key);
    if taken {
      return Err;
    }
    var raw := Trim(line[colon.value + 1..]);
    if raw == "" || raw[0] == '{' {
      return Err;
    }
    if raw[0] == '[' {
      var items := ReadList(raw);
      return if items.Ok? then Ok(Field(key, List(items.value))) else Err;
    }
    var value := ReadScalar(n, raw);
    return if value.Ok? then Ok(Field(key, value.value)) else Err;
  }

  /** What the parser does with the line at hand. */
  lemma ParseFieldsStep(n: Numbers, rest: string, pos: nat, fields: seq<Field>, found: Option<nat>)
    requires pos <= |rest| && found == IndexOf(rest[pos..], '\n')
    ensures found.None? ==> ParseFields(n, rest[pos..], fields) == Err
    ensures found.Some? ==>
      && pos + found.value < |rest|
      && var line, next := rest[pos..pos + found.value], rest[pos + found.value + 1..];
      ParseFields(n, rest[pos..], fields) ==
        if line == FENCE then Ok(Document(fields, next))
        else if ParseLine(n, line, fields).Err? then Err
        else ParseFields(n, next, fields + [ParseLine(n, line, fields).value])
  {
    hide ParseLine, IndexOf;
    if found.Some? {
      assert rest[pos..][..found.value] == rest[pos..pos + found.value];
      assert rest[pos..][found.value + 1..] == rest[pos + found.value + 1..];
    }
  }

  /** Read a document: a cursor moves line by line to the closing fence. */
  method ParseText(n: Numbers, text: string) returns (r: Result<Document>)
    ensures r == Parse(n, text)
  {
    hide ParseLine, IndexOf, ParseFields;
    if |text| < 4 || text[..4] != FENCE + "\n" {
      return Err;
    }
    var rest := text[4..];
    var fields: seq<Field>, pos := [], 0;
    assert rest[0..] == rest;
    while true
      invariant 0 <= pos <= |rest|
      invariant ParseFields(n, rest[pos..], fields) == ParseFields(n, rest, [])
      decreases |rest| - pos
    {
      var found := IndexOf(rest[pos..], '\n');
      ParseFieldsStep(n, rest, pos, fields, found);
      if found.None? {
        return Err;
      }
      var lineEnd := pos + found.value;
      var line := rest[pos..lineEnd];
      pos := lineEnd + 1;
      if line == FENCE {
        break;
      }
      var field := ReadLine(n, line, fields);
      if field.Err? {
        return Err;
      }
      fields := fields + [field.value];
    }
    r := Ok(Document(fields, rest[pos..]));
  }

  method WriteScalarText(n: Numbers, s: string) returns (out: string)
    ensures out == WriteScalar(n, s)
  {
    if NeedsQuoting(n, s) {
      out := QuoteText(s);
    } else {
      out := s;
    }
  }

  method WriteListText(n: Numbers, items: seq<string>) returns (out: string)
    ensures out == "[" + WriteItems(n, items) + "]"
  {
    hide WriteScalar, WriteItems;
    out := "[";
    NothingBefore(n, items);
    for i := 0 to |items|
      invariant out == "[" + ItemsBefore(n, items, i)
    {
      if i > 0 {
        out := out + ", ";
      }
      var item := WriteScalarText(n, items[i]);
      out := out + item;
      ItemPushes(n, items, i);
    }
    EveryItemBefore(n, items);
    out := out + "]";
  }

  /** The first items of a list as the loop has pushed them: each but the first after a comma. */
  function ItemsBefore(n: Numbers, items: seq<string>, i: nat): string
    requires i <= |items|
  {
    if i == 0 then "" else ItemsBefore(n, items, i - 1) + (if i > 1 then ", " else "") + WriteScalar(n, items[i - 1])
  }

  lemma NothingBefore(n: Numbers, items: seq<string>)
    ensures "[" + ItemsBefore(n, items, 0) == "["
  {
  }

  lemma ItemPushes(n: Numbers, items: seq<string>, i: nat)
    requires i < |items|
    ensures var before := "[" + ItemsBefore(n, items, i);
      (if i > 0 then before + ", " else before) + WriteScalar(n, items[i]) == "[" + ItemsBefore(n, items, i + 1)
  {
    hide WriteScalar;
  }

  lemma {:induction false} EveryItemBefore(n: Numbers, items: seq<string>)
    ensures ItemsBefore(n, items, |items|) == WriteItems(n, items)
  {
    hide WriteScalar;
    if items != [] {
      ItemsFrom(n, items, 1);
      assert ItemsBefore(n, items, 0) == "";
      assert items[1..] == [] || WriteItems(n, items) == WriteScalar(n, items[0]) + ", " + WriteItems(n, items[1..]);
      assert ItemsBefore(n, items, 1) == "" + "" + WriteScalar(n, items[0]);
    }
  }

  /** What is pushed after the first `i` items is what writing the rest gives. */
  lemma {:induction false} ItemsFrom(n: Numbers, items: seq<string>, i: nat)
    requires 0 < i <= |items|
    ensures ItemsBefore(n, items, |items|) ==
      if i == |items| then ItemsBefore(n, items, i) else ItemsBefore(n, items, i) + ", " + WriteItems(n, items[i..])
    decreases |items| - i
  {
    hide WriteScalar;
    if i < |items| {
      ItemsFrom(n, items, i + 1);
      assert items[i..][1..] == items[i + 1..];
      var before, item := ItemsBefore(n, items, i), WriteScalar(n, items[i]);
      assert ItemsBefore(n, items, i + 1) == before + ", " + item;
      if i + 1 < |items| {
        var rest := WriteItems(n, items[i + 1..]);
        assert WriteItems(n, items[i..]) == item + ", " + rest;
        assert before + ", " + item + ", " + rest == before + ", " + (item + ", " + rest);
      }
    }
  }

  method WriteValueText(n: Numbers, v: Value) returns (out: string)
    ensures out == WriteValue(n, v)
  {
    match v
    case Str(s) =>
      out := WriteScalarText(n, s);
    case Int(num) =>
      out := n.showInt(num);
    case Real(f) =>
      out := n.showFloat(f);
      if n.parseInt(out).Some? {
        out := n.showFixed(f);
      }
    case List(items) =>
      out := WriteListText(n, items);
  }

  /** Write a document field by field. */
  method SerializeText(n: Numbers, doc: Document) returns (out: string)
    ensures out == Serialize(n, doc)
  {
    hide WriteValue, WriteFields;
    out := FENCE + "\n";
    var fields := doc.fields;
    assert fields[0..] == fields;
    for i := 0 to |fields|
      invariant out + WriteFields(n, fields[i..]) == FENCE + "\n" + WriteFields(n, fields)
    {
      FieldsUnfold(n, fields, i, out);
      var value := WriteValueText(n, fields[i].value);
      FieldPushes(n, fields[i], out, value);
      out := out + fields[i].key;
      out := out + ": ";
      out := out + value;
      out := out + "\n";
    }
    NoFieldsLeft(n, fields, out);
    out := out + FENCE + "\n" + doc.body;
  }

  lemma FieldPushes(n: Numbers, f: Field, out: string, value: string)
    requires value == WriteValue(n, f.value)
    ensures out + f.key + ": " + value + "\n" == out + WriteField(n, f) + "\n"
  {
    assert out + (f.key + ": " + value) == out + f.key + ": " + value;
  }

  lemma NoFieldsLeft(n: Numbers, fields: seq<Field>, out: string)
    ensures out + WriteFields(n, fields[|fields|..]) == out
  {
    assert fields[|fields|..] == [];
  }

  lemma FieldsUnfold(n: Numbers, fields: seq<Field>, i: nat, out: string)
    requires i < |fields|
    ensures out + WriteFields(n, fields[i..]) == out + WriteField(n, fields[i]) + "\n" + WriteFields(n, fields[i + 1..])
  {
    hide WriteField;
    assert fields[i..][1..] == fields[i + 1..];
  }
}
