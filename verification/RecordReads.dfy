/** What a document has to hold to read as a record, and what a field left out comes to. */
module RecordReads {
  import opened Prelude
  import opened Frontmatter
  import opened Scopes
  import opened Records

  /** Exactly these texts are scopes, each of one scope. */
  lemma ScopeReadsIff(text: string, scope: Scope)
    ensures ParseScope(text) == Ok(scope) <==>
      match scope
      case User => text == "user"
      case Org => text == "org"
      case Agent(id) => text == "agent:" + id && ValidId(id)
      case Project(id) => text == "project:" + id && ValidId(id)
  {
    hide ValidId;
    if ParseScope(text) == Ok(scope) {
      ParsedScopeShows(text);
    }
    if text == ShowScope(scope) && ValidScope(scope) {
      ScopeTrip(scope);
    }
  }

  /** Exactly these texts are kinds. */
  lemma KindReadsIff(text: string, kind: Kind)
    ensures ParseKind(text) == Ok(kind) <==>
      match kind
      case Episodic => text == "episodic"
      case Semantic => text == "semantic"
      case Procedural => text == "procedural"
      case Skill => text == "skill"
      case Profile => text == "profile"
  {
    KindTrip(kind);
  }

  predicate ScalarField(fields: seq<Field>, key: string) {
    Get(fields, key).Some? && !Get(fields, key).value.List?
  }

  predicate OptionalScalar(fields: seq<Field>, key: string) {
    Get(fields, key).Some? ==> !Get(fields, key).value.List?
  }

  /** A list field: its items, or none if it is left out. */
  predicate ReadsList(fields: seq<Field>, key: string, items: seq<string>) {
    Get(fields, key) == Some(List(items)) || (Get(fields, key).None? && items == [])
  }

  /** A number field: a float, an integer taken as one, or the default if it is left out. */
  predicate ReadsNumber(c: Formats, fields: seq<Field>, key: string, default: Float, f: Float) {
    || Get(fields, key) == Some(Real(f))
    || (Get(fields, key).None? && f == default)
    || (exists v :: v == Get(fields, key) && v.Some? && v.value.Int? && f == c.toFloat(v.value.num))
  }

  /** An integer field, or nothing if it is left out. */
  predicate ReadsInt(fields: seq<Field>, key: string, i: Option<i64>) {
    (i.Some? && Get(fields, key) == Some(Int(i.value))) || (i.None? && Get(fields, key).None?)
  }

  lemma ListReads(fields: seq<Field>, key: string)
    ensures GetList(fields, key).Ok? ==> ReadsList(fields, key, GetList(fields, key).value)
    ensures GetList(fields, key).Err? ==> Get(fields, key).Some? && !Get(fields, key).value.List?
  {
  }

  lemma NumberReads(c: Formats, fields: seq<Field>, key: string, default: Float)
    ensures GetNum(c, fields, key, default).Ok? ==>
      ReadsNumber(c, fields, key, default, GetNum(c, fields, key, default).value)
    ensures GetNum(c, fields, key, default).Err? ==>
      Get(fields, key).Some? && !Get(fields, key).value.Real? && !Get(fields, key).value.Int?
  {
  }

  lemma IntReads(fields: seq<Field>, key: string)
    ensures GetInt(fields, key).Ok? ==> ReadsInt(fields, key, GetInt(fields, key).value)
    ensures GetInt(fields, key).Err? ==> Get(fields, key).Some? && !Get(fields, key).value.Int?
  {
  }

  lemma ScalarReads(c: Formats, fields: seq<Field>, key: string)
    ensures ReqStr(c, fields, key).Ok? <==> ScalarField(fields, key)
    ensures ReqTime(c, fields, key).Ok? ==> ScalarField(fields, key)
    ensures OptStr(c, fields, key).Ok? <==> OptionalScalar(fields, key)
    ensures OptTime(c, fields, key).Ok? ==> OptionalScalar(fields, key)
    ensures OptStr(c, fields, key) == Ok(None) || OptTime(c, fields, key) == Ok(None) ==> Get(fields, key).None?
    ensures Get(fields, key).None? ==> OptStr(c, fields, key) == Ok(None) && OptTime(c, fields, key) == Ok(None)
  {
  }

  /** The sixteen fields, each read by itself. */
  predicate PartsOk(c: Formats, f: seq<Field>) {
    && ReqStr(c, f, "id").Ok? && ReqStr(c, f, "type").Ok? && ParseKind(ReqStr(c, f, "type").value).Ok?
    && ReqStr(c, f, "scope").Ok? && ParseScope(ReqStr(c, f, "scope").value).Ok? && ReqStr(c, f, "author").Ok?
    && ReqTime(c, f, "created_at").Ok? && ReqTime(c, f, "valid_at").Ok? && OptTime(c, f, "invalid_at").Ok?
    && OptStr(c, f, "supersedes").Ok? && GetList(f, "entities").Ok? && GetList(f, "tags").Ok?
    && GetNum(c, f, "trust", HALF).Ok? && GetInt(f, "uses").Ok? && GetNum(c, f, "successes", ZERO).Ok?
    && OptTime(c, f, "last_used").Ok? && GetInt(f, "version").Ok? && OptStr(c, f, "trigger").Ok?
  }

  function PartsRecord(c: Formats, f: seq<Field>, body: string): Record
    requires PartsOk(c, f)
  {
    Record(ReqStr(c, f, "id").value, ParseKind(ReqStr(c, f, "type").value).value,
           ParseScope(ReqStr(c, f, "scope").value).value, ReqStr(c, f, "author").value,
           ReqTime(c, f, "created_at").value, ReqTime(c, f, "valid_at").value, OptTime(c, f, "invalid_at").value,
           OptStr(c, f, "supersedes").value, GetList(f, "entities").value, GetList(f, "tags").value,
           GetNum(c, f, "trust", HALF).value,
           if GetInt(f, "uses").value.Some? then GetInt(f, "uses").value.value else 0,
           GetNum(c, f, "successes", ZERO).value, OptTime(c, f, "last_used").value, GetInt(f, "version").value,
           OptStr(c, f, "trigger").value, body)
  }

  lemma DocumentByParts(c: Formats, doc: Document)
    ensures FromDocument(c, doc).Ok? <==> PartsOk(c, doc.fields)
    ensures PartsOk(c, doc.fields) ==> FromDocument(c, doc) == Ok(PartsRecord(c, doc.fields, doc.body))
  {
    hide ReqStr, OptStr, OptTime, ReqTime, GetList, GetNum, GetInt, ParseKind, ParseScope;
  }

  /**
   * A document that reads has the six required fields, each field of its kind, and reads as what they say:
   * a missing trust is one half, missing counts are zero, missing lists are empty, the rest is absent.
   */
  lemma ReadDocument(c: Formats, doc: Document)
    requires FromDocument(c, doc).Ok?
    ensures var f, r := doc.fields, FromDocument(c, doc).value;
      && ScalarField(f, "id") && ScalarField(f, "type") && ScalarField(f, "scope") && ScalarField(f, "author")
      && ScalarField(f, "created_at") && ScalarField(f, "valid_at")
      && OptionalScalar(f, "invalid_at") && OptionalScalar(f, "supersedes")
      && OptionalScalar(f, "last_used") && OptionalScalar(f, "trigger")
      && ReadsList(f, "entities", r.entities) && ReadsList(f, "tags", r.tags)
      && ReadsNumber(c, f, "trust", HALF, r.trust) && ReadsNumber(c, f, "successes", ZERO, r.successes)
      && ReadsInt(f, "version", r.version)
      && (ReadsInt(f, "uses", Some(r.uses)) || (Get(f, "uses").None? && r.uses == 0))
      && (r.invalidAt.None? <==> Get(f, "invalid_at").None?) && (r.lastUsed.None? <==> Get(f, "last_used").None?)
      && (r.supersedes.None? <==> Get(f, "supersedes").None?) && (r.trigger.None? <==> Get(f, "trigger").None?)
      && r.body == doc.body
  {
    hide FromDocument, ReqStr, OptStr, OptTime, ReqTime, GetList, GetNum, GetInt, Get, ReadsList, ReadsNumber, ReadsInt,
      ScalarField, OptionalScalar, ParseKind, ParseScope;
    var f := doc.fields;
    DocumentByParts(c, doc);
    ScalarReads(c, f, "id");
    ScalarReads(c, f, "type");
    ScalarReads(c, f, "scope");
    ScalarReads(c, f, "author");
    ScalarReads(c, f, "created_at");
    ScalarReads(c, f, "valid_at");
    ScalarReads(c, f, "invalid_at");
    ScalarReads(c, f, "supersedes");
    ScalarReads(c, f, "last_used");
    ScalarReads(c, f, "trigger");
    ListReads(f, "entities");
    ListReads(f, "tags");
    NumberReads(c, f, "trust", HALF);
    NumberReads(c, f, "successes", ZERO);
    IntReads(f, "uses");
    IntReads(f, "version");
    NoIntIsAbsent(f, "uses");
  }

  lemma NoIntIsAbsent(fields: seq<Field>, key: string)
    ensures ReadsInt(fields, key, None) ==> Get(fields, key).None?
  {
  }

  /** The six required fields are enough, and everything else then has its default. */
  lemma RequiredIsEnough(c: Formats, doc: Document, id: string, kind: Kind, scope: Scope, author: string, created: Time,
                         valid: Time)
    requires LawfulFormats(c) && ValidScope(scope)
    requires Get(doc.fields, "id") == Some(Str(id)) && Get(doc.fields, "author") == Some(Str(author))
    requires Get(doc.fields, "type") == Some(Str(ShowKind(kind)))
    requires Get(doc.fields, "scope") == Some(Str(ShowScope(scope)))
    requires Get(doc.fields, "created_at") == Some(Str(c.showTime(created)))
    requires Get(doc.fields, "valid_at") == Some(Str(c.showTime(valid)))
    requires Get(doc.fields, "invalid_at").None? && Get(doc.fields, "supersedes").None?
    requires Get(doc.fields, "entities").None? && Get(doc.fields, "tags").None? && Get(doc.fields, "trust").None?
    requires Get(doc.fields, "uses").None? && Get(doc.fields, "successes").None? && Get(doc.fields, "last_used").None?
    requires Get(doc.fields, "version").None? && Get(doc.fields, "trigger").None?
    ensures FromDocument(c, doc) ==
      Ok(Record(id, kind, scope, author, created, valid, None, None, [], [], HALF, 0, ZERO, None, None, None, doc.body))
  {
    hide FromDocument, Get, ParseKind, ParseScope, ShowKind, ShowScope, ReqStr, ReqTime, OptStr, OptTime, GetList,
      GetNum, GetInt, LawfulFormats;
    var f := doc.fields;
    KindTrip(kind);
    ScopeTrip(scope);
    TextReads(c, f, "id", id);
    TextReads(c, f, "author", author);
    TextReads(c, f, "type", ShowKind(kind));
    TextReads(c, f, "scope", ShowScope(scope));
    TimeReads(c, f, "created_at", created);
    TimeReads(c, f, "valid_at", valid);
    AbsentReads(c, f, "invalid_at");
    AbsentReads(c, f, "supersedes");
    AbsentReads(c, f, "entities");
    AbsentReads(c, f, "tags");
    AbsentReads(c, f, "trust");
    AbsentReads(c, f, "uses");
    AbsentReads(c, f, "successes");
    AbsentReads(c, f, "last_used");
    AbsentReads(c, f, "version");
    AbsentReads(c, f, "trigger");
    DocumentByParts(c, doc);
  }

  lemma TextReads(c: Formats, f: seq<Field>, key: string, text: string)
    requires Get(f, key) == Some(Str(text))
    ensures ReqStr(c, f, key) == Ok(text)
  {
    hide Get;
  }

  lemma TimeReads(c: Formats, f: seq<Field>, key: string, t: Time)
    requires LawfulFormats(c) && Get(f, key) == Some(Str(c.showTime(t)))
    ensures ReqTime(c, f, key) == Ok(t)
  {
    hide Get;
  }

  lemma AbsentReads(c: Formats, f: seq<Field>, key: string)
    requires Get(f, key).None?
    ensures OptStr(c, f, key) == Ok(None) && OptTime(c, f, key) == Ok(None)
    ensures GetList(f, key) == Ok([]) && GetInt(f, key) == Ok(None)
    ensures forall default :: GetNum(c, f, key, default) == Ok(default)
  {
    hide Get;
  }
}
