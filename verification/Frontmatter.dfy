/**
 * The strict flat frontmatter codec, as functions on strings; FrontmatterCode.dfy has the loops
 * that compute them.
 */
module Frontmatter {
  import opened Prelude

  /** Sixty-four bits, as the number they spell. */
  type Bits = b: nat | b < 0x1_0000_0000_0000_0000

  /** A 64-bit float by its bit pattern. */
  datatype Float = Float(bits: Bits)

  const TWO_TO_THE_52: nat := 0x10_0000_0000_0000

  predicate IsNan(f: Float) {
    (f.bits / TWO_TO_THE_52) % 2048 == 2047 && f.bits % TWO_TO_THE_52 != 0
  }

  const I64_MIN: int := -0x8000_0000_0000_0000
  const I64_MAX: int := 0x7fff_ffff_ffff_ffff

  newtype i64 = x: int | I64_MIN <= x <= I64_MAX

  /** Number text: the parsers of `i64` and `f64`, decimal printing, and printing with one decimal. */
  datatype Numbers = Numbers(
    parseInt: string -> Option<i64>,
    showInt: i64 -> string,
    parseFloat: string -> Option<Float>,
    showFloat: Float -> string,
    showFixed: Float -> string)

  datatype Value =
    | Str(text: string)
    | Int(num: i64)
    | Real(float: Float)
    | List(items: seq<string>)

  datatype Field = Field(key: string, value: Value)

  datatype Document = Document(fields: seq<Field>, body: string)

  // -------------------------------------------------------------------------
  // Characters
  // -------------------------------------------------------------------------

  /** The Unicode property White_Space, which `trim` strips. */
  predicate IsWhite(c: char) {
    var n := c as int;
    || 0x09 <= n <= 0x0d || n == 0x20 || n == 0x85 || n == 0xa0 || n == 0x1680
    || 0x2000 <= n <= 0x200a || n == 0x2028 || n == 0x2029 || n == 0x202f || n == 0x205f || n == 0x3000
  }

  function TrimStart(s: string): string {
    if s == "" || !IsWhite(s[0]) then s else TrimStart(s[1..])
  }

  function TrimEnd(s: string): string {
    if s == "" || !IsWhite(s[|s| - 1]) then s else TrimEnd(s[..|s| - 1])
  }

  function Trim(s: string): string {
    TrimEnd(TrimStart(s))
  }

  predicate IsDigit(c: char) {
    '0' <= c <= '9'
  }

  predicate IsAlnum(c: char) {
    IsDigit(c) || 'a' <= c <= 'z' || 'A' <= c <= 'Z'
  }

  predicate ValidKey(key: string) {
    && key != "" && !IsDigit(key[0])
    && forall i :: 0 <= i < |key| ==> IsAlnum(key[i]) || key[i] == '_'
  }

  /** Characters that force a string into quotes. */
  predicate IsSpecial(c: char) {
    c in "\"[],:\\\n\r{#"
  }

  function IndexOf(s: string, c: char): (r: Option<nat>)
    ensures match r
      case Some(i) => i < |s| && s[i] == c && forall j :: 0 <= j < i ==> s[j] != c
      case None => c !in s
  {
    if s == "" then None
    else if s[0] == c then Some(0)
    else
      match IndexOf(s[1..], c)
      case Some(i) => Some(i + 1)
      case None => None
  }

  // -------------------------------------------------------------------------
  // Quoting
  // -------------------------------------------------------------------------

  function EscapeChar(c: char): string {
    if c == '\\' then "\\\\"
    else if c == '"' then "\\\""
    else if c == '\n' || c == '\r' then "\\n"
    else [c]
  }

  function Escape(s: string): string {
    if s == "" then "" else EscapeChar(s[0]) + Escape(s[1..])
  }

  function Quote(s: string): string {
    "\"" + Escape(s) + "\""
  }

  function Unescape(s: string): Result<string> {
    if s == "" then Ok("")
    else if s[0] == '"' then Err
    else if s[0] != '\\' then Prepend(s[0], Unescape(s[1..]))
    else if |s| == 1 then Err
    else if s[1] == '\\' then Prepend('\\', Unescape(s[2..]))
    else if s[1] == '"' then Prepend('"', Unescape(s[2..]))
    else if s[1] == 'n' then Prepend('\n', Unescape(s[2..]))
    else Err
  }

  function Prepend(c: char, r: Result<string>): Result<string> {
    match r
    case Ok(s) => Ok([c] + s)
    case Err => Err
  }

  function Unquote(raw: string): Result<string> {
    if |raw| >= 2 && raw[0] == '"' && raw[|raw| - 1] == '"' then Unescape(raw[1..|raw| - 1]) else Err
  }

  predicate NeedsQuoting(n: Numbers, s: string) {
    || s == "" || Trim(s) != s
    || n.parseInt(s).Some? || n.parseFloat(s).Some?
    || exists i :: 0 <= i < |s| && IsSpecial(s[i])
  }

  function WriteScalar(n: Numbers, s: string): string {
    if NeedsQuoting(n, s) then Quote(s) else s
  }

  // -------------------------------------------------------------------------
  // Lists
  // -------------------------------------------------------------------------

  /** Where the splitting scan stands: outside quotes, inside, or just after a backslash inside. */
  datatype Scan = Outside | Inside | Escaped

  /** Split on commas outside quotes, from scan state `at` with `cur` collected so far. */
  function SplitFrom(s: string, at: Scan, cur: string): Result<seq<string>>
    decreases |s|
  {
    if s == "" then
      if at == Outside then Ok([cur]) else Err
    else
      var c, rest := s[0], s[1..];
      match at
      case Escaped => SplitFrom(rest, Inside, cur + [c])
      case Inside => SplitFrom(rest, if c == '\\' then Escaped else if c == '"' then Outside else Inside, cur + [c])
      case Outside =>
        if c == '"' then SplitFrom(rest, Inside, cur + [c])
        else if c == ',' then
          match SplitFrom(rest, Outside, "")
          case Ok(parts) => Ok([cur] + parts)
          case Err => Err
        else SplitFrom(rest, Outside, cur + [c])
  }

  function SplitTopLevel(s: string): Result<seq<string>> {
    SplitFrom(s, Outside, "")
  }

  function ParseItem(part: string): Result<string> {
    var item := Trim(part);
    if item != "" && item[0] == '"' then Unquote(item) else Ok(item)
  }

  function ParseItems(parts: seq<string>): Result<seq<string>> {
    if parts == [] then Ok([])
    else
      match (ParseItem(parts[0]), ParseItems(parts[1..]))
      case (Ok(item), Ok(items)) => Ok([item] + items)
      case _ => Err
  }

  function ParseList(raw: string): Result<seq<string>> {
    if |raw| >= 2 && raw[0] == '[' && raw[|raw| - 1] == ']' then
      var inner := Trim(raw[1..|raw| - 1]);
      if inner == "" then Ok([])
      else
        match SplitTopLevel(inner)
        case Ok(parts) => ParseItems(parts)
        case Err => Err
    else Err
  }

  function WriteItems(n: Numbers, items: seq<string>): string {
    if items == [] then ""
    else if |items| == 1 then WriteScalar(n, items[0])
    else WriteScalar(n, items[0]) + ", " + WriteItems(n, items[1..])
  }

  // -------------------------------------------------------------------------
  // Values, lines, documents
  // -------------------------------------------------------------------------

  function ParseScalar(n: Numbers, raw: string): Result<Value> {
    if raw != "" && raw[0] == '"' then
      match Unquote(raw)
      case Ok(s) => Ok(Str(s))
      case Err => Err
    else if n.parseInt(raw).Some? then Ok(Int(n.parseInt(raw).value))
    else if n.parseFloat(raw).Some? then Ok(Real(n.parseFloat(raw).value))
    else Ok(Str(raw))
  }

  function ParseValue(n: Numbers, raw: string): Result<Value> {
    if raw == "" || raw[0] == '{' then Err
    else if raw[0] == '[' then
      match ParseList(raw)
      case Ok(items) => Ok(List(items))
      case Err => Err
    else ParseScalar(n, raw)
  }

  predicate HasKey(fields: seq<Field>, key: string) {
    exists i :: 0 <= i < |fields| && fields[i].key == key
  }

  function ParseLine(n: Numbers, line: string, fields: seq<Field>): Result<Field> {
    match IndexOf(line, ':')
    case None => Err
    case Some(i) =>
      var key := Trim(line[..i]);
      if !ValidKey(key) || HasKey(fields, key) then Err
      else
        match ParseValue(n, Trim(line[i + 1..]))
        case Ok(value) => Ok(Field(key, value))
        case Err => Err
  }

  const FENCE := "---"

  /** Lines up to the closing fence, on top of the fields read so far. */
  function ParseFields(n: Numbers, rest: string, fields: seq<Field>): Result<Document>
    decreases |rest|
  {
    match IndexOf(rest, '\n')
    case None => Err
    case Some(i) =>
      var line, next := rest[..i], rest[i + 1..];
      if line == FENCE then Ok(Document(fields, next))
      else
        match ParseLine(n, line, fields)
        case Ok(field) => ParseFields(n, next, fields + [field])
        case Err => Err
  }

  function Parse(n: Numbers, text: string): Result<Document> {
    if |text| >= 4 && text[..4] == FENCE + "\n" then ParseFields(n, text[4..], []) else Err
  }

  function WriteFloat(n: Numbers, f: Float): string {
    if n.parseInt(n.showFloat(f)).Some? then n.showFixed(f) else n.showFloat(f)
  }

  function WriteValue(n: Numbers, v: Value): string {
    match v
    case Str(s) => WriteScalar(n, s)
    case Int(i) => n.showInt(i)
    case Real(f) => WriteFloat(n, f)
    case List(items) => "[" + WriteItems(n, items) + "]"
  }

  function WriteField(n: Numbers, f: Field): string {
    f.key + ": " + WriteValue(n, f.value)
  }

  function WriteFields(n: Numbers, fields: seq<Field>): string {
    if fields == [] then "" else WriteField(n, fields[0]) + "\n" + WriteFields(n, fields[1..])
  }

  function Serialize(n: Numbers, doc: Document): string {
    FENCE + "\n" + WriteFields(n, doc.fields) + FENCE + "\n" + doc.body
  }

  // -------------------------------------------------------------------------
  // What survives the trip
  // -------------------------------------------------------------------------

  /** Carriage returns come back as newlines. */
  function Normal(s: string): string {
    if s == "" then "" else [if s[0] == '\r' then '\n' else s[0]] + Normal(s[1..])
  }

  function NormalItems(items: seq<string>): seq<string> {
    if items == [] then [] else [Normal(items[0])] + NormalItems(items[1..])
  }

  function NormalValue(v: Value): Value {
    match v
    case Str(s) => Str(Normal(s))
    case List(items) => List(NormalItems(items))
    case _ => v
  }

  function NormalFields(fields: seq<Field>): seq<Field> {
    if fields == [] then []
    else [Field(fields[0].key, NormalValue(fields[0].value))] + NormalFields(fields[1..])
  }

  /** Text a line keeps whole: not empty, no blank at either end, no newline. */
  predicate Solid(s: string) {
    && s != "" && !IsWhite(s[0]) && !IsWhite(s[|s| - 1])
    && '\n' !in s
  }

  /** What printing and parsing numbers promise: they undo each other, and number text is plain. */
  ghost predicate Lawful(n: Numbers) {
    && (forall i :: n.parseInt(n.showInt(i)) == Some(i) && Plain(n.showInt(i)))
    && (forall f :: !IsNan(f) ==>
          var text := WriteFloat(n, f);
          n.parseInt(text) == None && n.parseFloat(text) == Some(f) && Plain(text))
  }

  predicate Plain(s: string) {
    Solid(s) && forall i :: 0 <= i < |s| ==> !IsSpecial(s[i])
  }

  /** Keys a document can carry: valid and distinct. */
  predicate GoodKeys(fields: seq<Field>) {
    && (forall i :: 0 <= i < |fields| ==> ValidKey(fields[i].key))
    && (forall i, j :: 0 <= i < j < |fields| ==> fields[i].key != fields[j].key)
  }

  predicate NoNans(fields: seq<Field>) {
    forall i :: 0 <= i < |fields| && fields[i].value.Real? ==> !IsNan(fields[i].value.float)
  }
}
