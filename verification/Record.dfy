/** Scopes and their text form. */
module Scopes {
  import opened Prelude
  import opened Frontmatter

  datatype Scope = Agent(id: string) | Project(id: string) | User | Org

  predicate IsIdChar(c: char) {
    IsAlnum(c) || c == '.' || c == '_' || c == '-'
  }

  /** One to 64 characters, starting with a letter or digit. */
  predicate ValidId(id: string) {
    && id != "" && IsAlnum(id[0]) && |id| <= 64
    && forall i :: 0 <= i < |id| ==> IsIdChar(id[i])
  }

  const AGENT := "agent:"
  const PROJECT := "project:"

  function ParseScope(s: string): Result<Scope> {
    if s == "user" then Ok(User)
    else if s == "org" then Ok(Org)
    else if AGENT <= s then (if ValidId(s[|AGENT|..]) then Ok(Agent(s[|AGENT|..])) else Err)
    else if PROJECT <= s then (if ValidId(s[|PROJECT|..]) then Ok(Project(s[|PROJECT|..])) else Err)
    else Err
  }

  function ShowScope(scope: Scope): string {
    match scope
    case Agent(id) => AGENT + id
    case Project(id) => PROJECT + id
    case User => "user"
    case Org => "org"
  }

  predicate ValidScope(scope: Scope) {
    (scope.Agent? || scope.Project?) ==> ValidId(scope.id)
  }

  /** An id: 1 to 64 letters, digits, dots, underscores and dashes, a letter or digit in front. */
  lemma IdIs(id: string)
    ensures ValidId(id) <==>
      1 <= |id| < 65 && id[0] !in "._-" && forall c :: c in id ==> IsAlnum(c) || c in "._-"
  {
    if ValidId(id) {
      assert forall i :: 0 <= i < |id| ==> IsIdChar(id[i]);
    }
    if 1 <= |id| && forall c :: c in id ==> IsAlnum(c) || c in "._-" {
      assert forall i :: 0 <= i < |id| ==> id[i] in id;
    }
  }

  /** A scope's text parses back to it exactly when its id is one a scope may have. */
  lemma ScopeTrip(scope: Scope)
    ensures ParseScope(ShowScope(scope)) == Ok(scope) <==> ValidScope(scope)
  {
    var s := ShowScope(scope);
    match scope
    case Agent(id) =>
      assert s[|AGENT|..] == id && s[0] == 'a';
    case Project(id) =>
      assert s[|PROJECT|..] == id && s[0] == 'p' && AGENT[0] == 'a';
    case User =>
    case Org =>
  }

  /** Every accepted text is the text of the scope it stands for. */
  lemma ParsedScopeShows(s: string)
    requires ParseScope(s).Ok?
    ensures ShowScope(ParseScope(s).value) == s && ValidScope(ParseScope(s).value)
  {
    if AGENT <= s {
      assert s == AGENT + s[|AGENT|..];
    } else if PROJECT <= s {
      assert s == PROJECT + s[|PROJECT|..];
    }
  }
}

/** Memory records and their Markdown form: frontmatter fields in a fixed order, then the body. */
module Records {
  import opened Prelude
  import opened Frontmatter
  import opened FrontmatterTrip
  import opened FrontmatterCode
  import opened Scopes

  datatype Kind = Episodic | Semantic | Procedural | Skill | Profile

  function ShowKind(kind: Kind): string {
    match kind
    case Episodic => "episodic"
    case Semantic => "semantic"
    case Procedural => "procedural"
    case Skill => "skill"
    case Profile => "profile"
  }

  function ParseKind(s: string): Result<Kind> {
    if s == "episodic" then Ok(Episodic)
    else if s == "semantic" then Ok(Semantic)
    else if s == "procedural" then Ok(Procedural)
    else if s == "skill" then Ok(Skill)
    else if s == "profile" then Ok(Profile)
    else Err
  }

  const YEAR_ZERO: int := -62_167_219_200_000
  const END_OF_9999: int := 253_402_300_799_999

  /** A point in time, in milliseconds since 1970, within the four-digit years RFC 3339 can write. */
  type Time = t: int | YEAR_ZERO <= t <= END_OF_9999

  datatype Record = Record(
    id: string,
    kind: Kind,
    scope: Scope,
    author: string,
    createdAt: Time,
    validAt: Time,
    invalidAt: Option<Time>,
    supersedes: Option<string>,
    entities: seq<string>,
    tags: seq<string>,
    trust: Float,
    uses: i64,
    successes: Float,
    lastUsed: Option<Time>,
    version: Option<i64>,
    trigger: Option<string>,
    body: string)

  /** Number text, RFC 3339 timestamp text and the conversion of an integer to a float. */
  datatype Formats = Formats(
    numbers: Numbers,
    showTime: Time -> string,
    parseTime: string -> Option<Time>,
    toFloat: i64 -> Float)

  ghost predicate LawfulFormats(c: Formats) {
    && Lawful(c.numbers)
    && forall t: Time :: c.parseTime(c.showTime(t)) == Some(t) && '\r' !in c.showTime(t)
  }

  /** `valid_at <= t < invalid_at`. */
  predicate IsValidAt(r: Record, t: Time) {
    r.validAt <= t && (r.invalidAt.Some? ==> t < r.invalidAt.value)
  }

  // -------------------------------------------------------------------------
  // Writing
  // -------------------------------------------------------------------------

  const NAMES := [
    "id", "type", "scope", "author", "created_at", "valid_at", "invalid_at", "supersedes",
    "entities", "tags", "trust", "uses", "successes", "last_used", "version", "trigger"]

  function OptionalTime(c: Formats, t: Option<Time>): Option<Value> {
    match t case Some(at) => Some(Str(c.showTime(at))) case None => None
  }

  function OptionalText(s: Option<string>): Option<Value> {
    match s case Some(text) => Some(Str(text)) case None => None
  }

  function OptionalInt(i: Option<i64>): Option<Value> {
    match i case Some(num) => Some(Int(num)) case None => None
  }

  /** A record's value for each field name, in the order of `NAMES`. */
  function Slots(c: Formats, r: Record): (slots: seq<Option<Value>>)
    ensures |slots| == |NAMES|
  {
    [Some(Str(r.id)), Some(Str(ShowKind(r.kind))), Some(Str(ShowScope(r.scope))), Some(Str(r.author)),
     Some(Str(c.showTime(r.createdAt))), Some(Str(c.showTime(r.validAt))),
     OptionalTime(c, r.invalidAt), OptionalText(r.supersedes),
     Some(List(r.entities)), Some(List(r.tags)), Some(Real(r.trust)), Some(Int(r.uses)), Some(Real(r.successes)),
     OptionalTime(c, r.lastUsed), OptionalInt(r.version), OptionalText(r.trigger)]
  }

  function Pushed(fields: seq<Field>, name: string, value: Option<Value>): seq<Field> {
    if value.Some? then fields + [Field(name, value.value)] else fields
  }

  /** The fields the first `k` slots contribute. */
  function Present(names: seq<string>, slots: seq<Option<Value>>, k: nat): seq<Field>
    requires k <= |names| == |slots|
  {
    if k == 0 then [] else Pushed(Present(names, slots, k - 1), names[k - 1], slots[k - 1])
  }

  function RecordFields(c: Formats, r: Record): seq<Field> {
    Present(NAMES, Slots(c, r), |NAMES|)
  }

  function ToMarkdown(c: Formats, r: Record): string {
    Serialize(c.numbers, Document(RecordFields(c, r), r.body))
  }

  lemma SlotsInOrder(c: Formats, r: Record)
    ensures var s := Slots(c, r);
      && s[0] == Some(Str(r.id)) && s[1] == Some(Str(ShowKind(r.kind))) && s[2] == Some(Str(ShowScope(r.scope)))
      && s[3] == Some(Str(r.author)) && s[4] == Some(Str(c.showTime(r.createdAt)))
        && s[5] == Some(Str(c.showTime(r.validAt)))
      && s[6] == OptionalTime(c, r.invalidAt) && s[7] == OptionalText(r.supersedes)
      && s[8] == Some(List(r.entities)) && s[9] == Some(List(r.tags)) && s[10] == Some(Real(r.trust))
      && s[11] == Some(Int(r.uses)) && s[12] == Some(Real(r.successes))
      && s[13] == OptionalTime(c, r.lastUsed) && s[14] == OptionalInt(r.version) && s[15] == OptionalText(r.trigger)
  {
  }

  lemma NoneYet(slots: seq<Option<Value>>)
    requires |slots| == |NAMES|
    ensures Present(NAMES, slots, 0) == []
  {
  }

  /** Push a record's fields one by one, then serialize them. */
  method ToMarkdownText(c: Formats, r: Record) returns (text: string)
    ensures text == ToMarkdown(c, r)
  {
    hide Serialize, Present, Slots, OptionalTime, OptionalText, OptionalInt;
    ghost var slots := Slots(c, r);
    SlotsInOrder(c, r);
    NoneYet(slots);
    var f: seq<Field> := [];
    f := Push(f, "id", Some(Str(r.id)), slots, 0);
    f := Push(f, "type", Some(Str(ShowKind(r.kind))), slots, 1);
    f := Push(f, "scope", Some(Str(ShowScope(r.scope))), slots, 2);
    f := Push(f, "author", Some(Str(r.author)), slots, 3);
    f := Push(f, "created_at", Some(Str(c.showTime(r.createdAt))), slots, 4);
    f := Push(f, "valid_at", Some(Str(c.showTime(r.validAt))), slots, 5);
    f := Push(f, "invalid_at", OptionalTime(c, r.invalidAt), slots, 6);
    f := Push(f, "supersedes", OptionalText(r.supersedes), slots, 7);
    f := Push(f, "entities", Some(List(r.entities)), slots, 8);
    f := Push(f, "tags", Some(List(r.tags)), slots, 9);
    f := Push(f, "trust", Some(Real(r.trust)), slots, 10);
    f := Push(f, "uses", Some(Int(r.uses)), slots, 11);
    f := Push(f, "successes", Some(Real(r.successes)), slots, 12);
    f := Push(f, "last_used", OptionalTime(c, r.lastUsed), slots, 13);
    f := Push(f, "version", OptionalInt(r.version), slots, 14);
    f := Push(f, "trigger", OptionalText(r.trigger), slots, 15);
    text := SerializeText(c.numbers, Document(f, r.body));
  }

  method Push(f: seq<Field>, name: string, value: Option<Value>, ghost slots: seq<Option<Value>>, ghost k: nat)
    returns (f': seq<Field>)
    requires |slots| == |NAMES| && k < |NAMES|
    requires NAMES[k] == name && slots[k] == value && f == Present(NAMES, slots, k)
    ensures f' == Present(NAMES, slots, k + 1)
  {
    f' := f;
    if value.Some? {
      f' := f + [Field(name, value.value)];
    }
  }

  // -------------------------------------------------------------------------
  // Reading
  // -------------------------------------------------------------------------

  function Get(fields: seq<Field>, key: string): Option<Value> {
    if fields == [] then None
    else if fields[0].key == key then Some(fields[0].value)
    else Get(fields[1..], key)
  }

  function ReqStr(c: Formats, fields: seq<Field>, key: string): Result<string> {
    match Get(fields, key)
    case Some(Str(s)) => Ok(s)
    case Some(Int(i)) => Ok(c.numbers.showInt(i))
    case Some(Real(f)) => Ok(c.numbers.showFloat(f))
    case Some(List(_)) => Err
    case None => Err
  }

  function OptStr(c: Formats, fields: seq<Field>, key: string): Result<Option<string>> {
    if Get(fields, key).None? then Ok(None)
    else
      match ReqStr(c, fields, key)
      case Ok(s) => Ok(Some(s))
      case Err => Err
  }

  function GetList(fields: seq<Field>, key: string): Result<seq<string>> {
    match Get(fields, key)
    case Some(List(items)) => Ok(items)
    case None => Ok([])
    case Some(_) => Err
  }

  function GetNum(c: Formats, fields: seq<Field>, key: string, default: Float): Result<Float> {
    match Get(fields, key)
    case Some(Real(f)) => Ok(f)
    case Some(Int(i)) => Ok(c.toFloat(i))
    case None => Ok(default)
    case Some(_) => Err
  }

  function GetInt(fields: seq<Field>, key: string): Result<Option<i64>> {
    match Get(fields, key)
    case Some(Int(i)) => Ok(Some(i))
    case None => Ok(None)
    case Some(_) => Err
  }

  function ReqTime(c: Formats, fields: seq<Field>, key: string): Result<Time> {
    var s :- ReqStr(c, fields, key);
    match c.parseTime(s)
    case Some(t) => Ok(t)
    case None => Err
  }

  function OptTime(c: Formats, fields: seq<Field>, key: string): Result<Option<Time>> {
    if Get(fields, key).None? then Ok(None)
    else
      var t :- ReqTime(c, fields, key);
      Ok(Some(t))
  }

  /** The floats one half and zero. */
  const HALF := Float(0x3fe0_0000_0000_0000)
  const ZERO := Float(0)

  function FromDocument(c: Formats, doc: Document): Result<Record> {
    var f := doc.fields;
    var id :- ReqStr(c, f, "id");
    var kindText :- ReqStr(c, f, "type");
    var kind :- ParseKind(kindText);
    var scopeText :- ReqStr(c, f, "scope");
    var scope :- ParseScope(scopeText);
    var author :- ReqStr(c, f, "author");
    var createdAt :- ReqTime(c, f, "created_at");
    var validAt :- ReqTime(c, f, "valid_at");
    var invalidAt :- OptTime(c, f, "invalid_at");
    var supersedes :- OptStr(c, f, "supersedes");
    var entities :- GetList(f, "entities");
    var tags :- GetList(f, "tags");
    var trust :- GetNum(c, f, "trust", HALF);
    var uses :- GetInt(f, "uses");
    var successes :- GetNum(c, f, "successes", ZERO);
    var lastUsed :- OptTime(c, f, "last_used");
    var version :- GetInt(f, "version");
    var trigger :- OptStr(c, f, "trigger");
    Ok(Record(id, kind, scope, author, createdAt, validAt, invalidAt, supersedes, entities, tags, trust,
              if uses.Some? then uses.value else 0, successes, lastUsed, version, trigger, doc.body))
  }

  function FromMarkdown(c: Formats, text: string): Result<Record> {
    var doc :- Parse(c.numbers, text);
    FromDocument(c, doc)
  }

  // -------------------------------------------------------------------------
  // The round trip
  // -------------------------------------------------------------------------

  predicate Distinct(names: seq<string>) {
    forall i, j :: 0 <= i < j < |names| ==> names[i] != names[j]
  }

  lemma {:induction false} GetMore(fields: seq<Field>, f: Field, key: string)
    ensures Get(fields + [f], key) ==
      if Get(fields, key).Some? then Get(fields, key) else if f.key == key then Some(f.value) else None
  {
    if fields == [] {
      assert fields + [f] == [f] && [f][1..] == [];
    } else {
      assert (fields + [f])[1..] == fields[1..] + [f];
      GetMore(fields[1..], f, key);
    }
  }

  /** Looking a name up among the present fields finds its slot. */
  lemma {:induction false} PresentGet(names: seq<string>, slots: seq<Option<Value>>, k: nat, i: nat)
    requires k <= |names| == |slots| && i < |names| && Distinct(names)
    ensures Get(Present(names, slots, k), names[i]) == if i < k then slots[i] else None
  {
    if k > 0 {
      PresentGet(names, slots, k - 1, i);
      if slots[k - 1].Some? {
        GetMore(Present(names, slots, k - 1), Field(names[k - 1], slots[k - 1].value), names[i]);
      }
    }
  }

  predicate NanFree(v: Value) {
    v.Real? ==> !IsNan(v.float)
  }

  function NormalSlot(slot: Option<Value>): Option<Value> {
    match slot case Some(v) => Some(NormalValue(v)) case None => None
  }

  function NormalSlots(slots: seq<Option<Value>>): seq<Option<Value>> {
    seq(|slots|, i requires 0 <= i < |slots| => NormalSlot(slots[i]))
  }

  lemma {:induction false} NormalFieldsMore(fields: seq<Field>, f: Field)
    ensures NormalFields(fields + [f]) == NormalFields(fields) + [Field(f.key, NormalValue(f.value))]
  {
    hide NormalValue;
    if fields == [] {
      assert fields + [f] == [f] && [f][1..] == [];
    } else {
      assert (fields + [f])[1..] == fields[1..] + [f];
      NormalFieldsMore(fields[1..], f);
    }
  }

  lemma {:induction false} NormalPresent(names: seq<string>, slots: seq<Option<Value>>, k: nat)
    requires k <= |names| == |slots|
    ensures NormalFields(Present(names, slots, k)) == Present(names, NormalSlots(slots), k)
  {
    hide NormalValue;
    if k > 0 {
      NormalPresent(names, slots, k - 1);
      if slots[k - 1].Some? {
        NormalFieldsMore(Present(names, slots, k - 1), Field(names[k - 1], slots[k - 1].value));
      }
    }
  }

  lemma {:induction false} PresentIsGood(names: seq<string>, slots: seq<Option<Value>>, k: nat)
    requires k <= |names| == |slots| && Distinct(names)
    requires forall i :: 0 <= i < |names| ==> ValidKey(names[i])
    requires forall i :: 0 <= i < |slots| && slots[i].Some? ==> NanFree(slots[i].value)
    ensures GoodKeys(Present(names, slots, k)) && NoNans(Present(names, slots, k))
    ensures forall i :: 0 <= i < |Present(names, slots, k)| ==>
      exists j :: 0 <= j < k && Present(names, slots, k)[i].key == names[j]
  {
    hide ValidKey;
    if k > 0 {
      PresentIsGood(names, slots, k - 1);
      if slots[k - 1].Some? {
        var before, f := Present(names, slots, k - 1), Field(names[k - 1], slots[k - 1].value);
        assert Present(names, slots, k) == before + [f];
        assert !HasKey(before, f.key);
        OneMoreGoodKey(before, f);
        assert f.key == names[k - 1];
      }
    }
  }

  lemma NamesAreGood()
    ensures Distinct(NAMES) && forall i :: 0 <= i < |NAMES| ==> ValidKey(NAMES[i])
  {
    assert "type"[0] != "uses"[0] && "type"[1] != "tags"[1] && "tags"[0] != "uses"[0];
    assert "scope"[0] != "trust"[0] && "valid_at"[0] != "entities"[0];
    assert "created_at"[0] != "invalid_at"[0] && "created_at"[0] != "supersedes"[0]
      && "invalid_at"[0] != "supersedes"[0];
    assert "successes"[0] != "last_used"[0] && "version"[0] != "trigger"[0];
  }

  /** What the format needs of a record: a scope with a valid id and no NaN. */
  predicate Storable(r: Record) {
    ValidScope(r.scope) && !IsNan(r.trust) && !IsNan(r.successes)
  }

  function NormalText(s: Option<string>): Option<string> {
    match s case Some(text) => Some(Normal(text)) case None => None
  }

  /** A record as it comes back from disk: carriage returns in its fields are newlines; the body is untouched. */
  function NormalRecord(r: Record): Record {
    r.(id := Normal(r.id), author := Normal(r.author), supersedes := NormalText(r.supersedes),
       entities := NormalItems(r.entities), tags := NormalItems(r.tags), trigger := NormalText(r.trigger))
  }

  lemma KindTrip(kind: Kind)
    ensures '\r' !in ShowKind(kind) && ParseKind(ShowKind(kind)) == Ok(kind)
  {
  }

  lemma ScopeTextIsPlain(scope: Scope)
    requires ValidScope(scope)
    ensures '\r' !in ShowScope(scope)
  {
    if scope.Agent? || scope.Project? {
      assert forall i :: 0 <= i < |scope.id| ==> IsIdChar(scope.id[i]);
    }
  }

  lemma TimeTextIsPlain(c: Formats, t: Time)
    requires LawfulFormats(c)
    ensures Normal(c.showTime(t)) == c.showTime(t)
  {
    NormalKeeps(c.showTime(t));
  }

  lemma SlotsHaveNoNan(c: Formats, r: Record)
    requires Storable(r)
    ensures forall i :: 0 <= i < |Slots(c, r)| && Slots(c, r)[i].Some? ==> NanFree(Slots(c, r)[i].value)
  {
    hide Slots, IsNan;
    SlotsInOrder(c, r);
  }

  /** Normalizing the slots of a record gives the slots of the normalized record. */
  lemma SlotsNormalize(c: Formats, r: Record)
    requires LawfulFormats(c) && Storable(r)
    ensures NormalSlots(Slots(c, r)) == Slots(c, NormalRecord(r))
  {
    hide Slots, NormalSlots, NormalRecord, Normal, LawfulFormats, ShowKind, ShowScope;
    KindTrip(r.kind);
    ScopeTextIsPlain(r.scope);
    NormalKeeps(ShowKind(r.kind));
    NormalKeeps(ShowScope(r.scope));
    forall t: Time ensures Normal(c.showTime(t)) == c.showTime(t) {
      TimeTextIsPlain(c, t);
    }
    NormalSlotsInOrder(c, r);
  }

  lemma NormalSlotsInOrder(c: Formats, r: Record)
    requires forall t: Time :: Normal(c.showTime(t)) == c.showTime(t)
    requires Normal(ShowKind(r.kind)) == ShowKind(r.kind) && Normal(ShowScope(r.scope)) == ShowScope(r.scope)
    ensures NormalSlots(Slots(c, r)) == Slots(c, NormalRecord(r))
  {
    hide Slots, ShowKind, ShowScope, Normal;
    SlotsInOrder(c, r);
    SlotsInOrder(c, NormalRecord(r));
  }

  /** The serialized fields parse back as those of the normalized record. */
  lemma FieldsSurvive(c: Formats, r: Record)
    requires LawfulFormats(c) && Storable(r)
    ensures Parse(c.numbers, ToMarkdown(c, r)) == Ok(Document(RecordFields(c, NormalRecord(r)), r.body))
  {
    hide Slots, Present, NanFree, Parse, Serialize, ValidKey, Lawful, NormalSlots, NormalRecord, NormalFields;
    NamesAreGood();
    SlotsNormalize(c, r);
    SlotsHaveNoNan(c, r);
    PresentIsGood(NAMES, Slots(c, r), |NAMES|);
    NormalPresent(NAMES, Slots(c, r), |NAMES|);
    ParseSerialize(c.numbers, Document(RecordFields(c, r), r.body));
  }

  lemma FieldAt(c: Formats, r: Record, i: nat)
    requires i < |NAMES|
    ensures Get(RecordFields(c, r), NAMES[i]) == Slots(c, r)[i]
  {
    hide Slots, Get, Present;
    NamesAreGood();
    PresentGet(NAMES, Slots(c, r), |NAMES|, i);
  }

  /** Every name finds its own value. */
  lemma FieldsInPlace(c: Formats, r: Record)
    ensures var f := RecordFields(c, r);
      && Get(f, "id") == Some(Str(r.id)) && Get(f, "type") == Some(Str(ShowKind(r.kind)))
      && Get(f, "scope") == Some(Str(ShowScope(r.scope))) && Get(f, "author") == Some(Str(r.author))
      && Get(f, "created_at") == Some(Str(c.showTime(r.createdAt)))
        && Get(f, "valid_at") == Some(Str(c.showTime(r.validAt)))
      && Get(f, "invalid_at") == OptionalTime(c, r.invalidAt) && Get(f, "supersedes") == OptionalText(r.supersedes)
      && Get(f, "entities") == Some(List(r.entities)) && Get(f, "tags") == Some(List(r.tags))
      && Get(f, "trust") == Some(Real(r.trust)) && Get(f, "uses") == Some(Int(r.uses))
      && Get(f, "successes") == Some(Real(r.successes)) && Get(f, "last_used") == OptionalTime(c, r.lastUsed)
      && Get(f, "version") == OptionalInt(r.version) && Get(f, "trigger") == OptionalText(r.trigger)
  {
    hide Slots, Get, RecordFields, OptionalTime, OptionalText, OptionalInt;
    SlotsInOrder(c, r);
    forall i: nat | i < |NAMES| ensures Get(RecordFields(c, r), NAMES[i]) == Slots(c, r)[i] {
      FieldAt(c, r, i);
    }
    assert NAMES[0] == "id" && NAMES[1] == "type" && NAMES[2] == "scope" && NAMES[3] == "author";
    assert NAMES[4] == "created_at" && NAMES[5] == "valid_at" && NAMES[6] == "invalid_at" && NAMES[7] == "supersedes";
    assert NAMES[8] == "entities" && NAMES[9] == "tags" && NAMES[10] == "trust" && NAMES[11] == "uses";
    assert NAMES[12] == "successes" && NAMES[13] == "last_used" && NAMES[14] == "version" && NAMES[15] == "trigger";
  }

  /** Reading the fields a record writes gives the record, body included. */
  lemma FromOwnFields(c: Formats, r: Record)
    requires LawfulFormats(c) && Storable(r)
    ensures FromDocument(c, Document(RecordFields(c, r), r.body)) == Ok(r)
  {
    hide Get, RecordFields, ShowKind, ParseKind, ShowScope, ParseScope, Lawful;
    FieldsInPlace(c, r);
    KindTrip(r.kind);
    ScopeTrip(r.scope);
  }

  /**
   * A record written as Markdown reads back as the same record, every field present or absent and the
   * body byte for byte, up to carriage returns in its fields.
   */
  lemma RecordTrip(c: Formats, r: Record)
    requires LawfulFormats(c) && Storable(r)
    ensures FromMarkdown(c, ToMarkdown(c, r)) == Ok(NormalRecord(r))
  {
    hide Parse, ToMarkdown, FromDocument, RecordFields, LawfulFormats;
    FieldsSurvive(c, r);
    FromOwnFields(c, NormalRecord(r));
  }

  predicate NoReturns(items: seq<string>) {
    forall i :: 0 <= i < |items| ==> '\r' !in items[i]
  }

  /** No field string holds a carriage return. */
  predicate Clean(r: Record) {
    && '\r' !in r.id && '\r' !in r.author && NoReturns(r.entities) && NoReturns(r.tags)
    && (r.supersedes.Some? ==> '\r' !in r.supersedes.value)
    && (r.trigger.Some? ==> '\r' !in r.trigger.value)
  }

  lemma {:induction false} NormalIsFixed(s: string)
    ensures Normal(s) == s <==> '\r' !in s
  {
    if s != "" {
      NormalIsFixed(s[1..]);
      assert s == [s[0]] + s[1..];
      assert Normal(s)[1..] == Normal(s[1..]);
    }
  }

  lemma {:induction false} NormalItemsFixed(items: seq<string>)
    ensures NormalItems(items) == items <==> NoReturns(items)
  {
    if items != [] {
      NormalIsFixed(items[0]);
      NormalItemsFixed(items[1..]);
      assert items == [items[0]] + items[1..];
      assert NormalItems(items)[1..] == NormalItems(items[1..]);
      assert NoReturns(items) <==> '\r' !in items[0] && NoReturns(items[1..]) by {
        assert forall i :: 0 <= i < |items[1..]| ==> items[1..][i] == items[i + 1];
      }
    }
  }

  /** The trip changes nothing at all exactly when no field string holds a carriage return. */
  lemma CleanRecordTrip(c: Formats, r: Record)
    requires LawfulFormats(c) && Storable(r)
    ensures FromMarkdown(c, ToMarkdown(c, r)) == Ok(r) <==> Clean(r)
  {
    hide FromMarkdown, ToMarkdown, Normal, NormalItems, NoReturns;
    RecordTrip(c, r);
    NormalIsFixed(r.id);
    NormalIsFixed(r.author);
    NormalItemsFixed(r.entities);
    NormalItemsFixed(r.tags);
    if r.supersedes.Some? {
      NormalIsFixed(r.supersedes.value);
    }
    if r.trigger.Some? {
      NormalIsFixed(r.trigger.value);
    }
  }
}
