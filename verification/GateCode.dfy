/** The objects behind the gate: record files, the index tables, and the gate with its review queue. */
module GateCode {
  import opened Prelude
  import opened Frontmatter
  import opened FrontmatterTrip
  import opened Scopes
  import opened Records
  import opened GateModel
  import opened GateSafety
  import opened GateRuns
  import opened GateMeaning

  /** Where a record's file lies: its scope's directory, and its id as file name. */
  datatype Place = Place(scope: Scope, id: Id)

  function PlaceOf(r: Record): Place {
    Place(r.scope, r.id)
  }

  /** The file reads as a record that belongs where it lies. */
  predicate Holds(c: Formats, text: string, p: Place) {
    && FromMarkdown(c, text).Ok?
    && var r := FromMarkdown(c, text).value;
    && Storable(r) && Clean(r) && PlaceOf(r) == p
  }

  predicate Filed(c: Formats, files: map<Place, string>) {
    && (forall p :: p in files ==> Holds(c, files[p], p))
    && (forall p, q :: p in files && q in files && p.id == q.id ==> p == q)
  }

  /** The records a well-kept directory holds, by id. */
  function RecordsIn(c: Formats, files: map<Place, string>): map<Id, Record>
    requires Filed(c, files)
  {
    map p | p in files :: p.id := FromMarkdown(c, files[p]).value
  }

  lemma RecordAt(c: Formats, files: map<Place, string>, p: Place)
    requires Filed(c, files) && p in files
    ensures p.id in RecordsIn(c, files) && RecordsIn(c, files)[p.id] == FromMarkdown(c, files[p]).value
  {
  }

  lemma PlaceFor(c: Formats, files: map<Place, string>, id: Id)
    requires Filed(c, files) && id in RecordsIn(c, files)
    ensures var r := RecordsIn(c, files)[id];
      && PlaceOf(r) in files && r.id == id && Storable(r) && Clean(r) && FromMarkdown(c, files[PlaceOf(r)]) == Ok(r)
  {
    var p :| p in files && p.id == id;
    assert Holds(c, files[p], p);
  }

  lemma {:induction false} NormalTextIsClean(s: string)
    ensures '\r' !in Normal(s)
  {
    if s != "" {
      NormalTextIsClean(s[1..]);
    }
  }

  lemma {:induction false} NormalItemsAreClean(items: seq<string>)
    ensures NoReturns(NormalItems(items))
  {
    if items != [] {
      NormalTextIsClean(items[0]);
      NormalItemsAreClean(items[1..]);
    }
  }

  lemma NormalRecordIsClean(r: Record)
    ensures Clean(NormalRecord(r))
  {
    hide Normal, NormalItems, NoReturns;
    NormalTextIsClean(r.id);
    NormalTextIsClean(r.author);
    NormalItemsAreClean(r.entities);
    NormalItemsAreClean(r.tags);
    if r.supersedes.Some? {
      NormalTextIsClean(r.supersedes.value);
    }
    if r.trigger.Some? {
      NormalTextIsClean(r.trigger.value);
    }
  }

  /** What is read back from a record's own file. */
  lemma OwnFileHolds(c: Formats, r: Record)
    requires LawfulFormats(c) && Storable(r) && CleanText(r.id)
    ensures Holds(c, ToMarkdown(c, r), PlaceOf(r)) && FromMarkdown(c, ToMarkdown(c, r)) == Ok(NormalRecord(r))
  {
    hide FromMarkdown, ToMarkdown, LawfulFormats, Clean, NormalItems, Normal;
    RecordTrip(c, r);
    NormalIsFixed(r.id);
    NormalRecordIsClean(r);
    NormalIsStorable(r);
  }

  lemma FilesStayFiled(c: Formats, files: map<Place, string>, p: Place, text: string)
    requires Filed(c, files) && Holds(c, text, p)
    requires forall q :: q in files && q.id == p.id ==> q == p
    ensures Filed(c, files[p := text])
  {
    hide Holds;
  }

  /** The directory after one file is written, by id. */
  lemma RecordsAfter(c: Formats, files: map<Place, string>, p: Place, text: string)
    requires Filed(c, files) && Filed(c, files[p := text]) && Holds(c, text, p)
    ensures RecordsIn(c, files[p := text]) == RecordsIn(c, files)[p.id := FromMarkdown(c, text).value]
  {
    hide FromMarkdown;
    var files' := files[p := text];
    assert Holds(c, files'[p], p);
    var a, b := RecordsIn(c, files'), RecordsIn(c, files)[p.id := FromMarkdown(c, text).value];
    forall id ensures Lookup(a, id) == Lookup(b, id) {
      if q :| q in files' && q.id == id {
        RecordAt(c, files', q);
        if q != p {
          RecordAt(c, files, q);
        }
      } else {
        assert id !in a && id !in b;
      }
    }
    SameLookups(a, b);
  }

  lemma SamePlace(c: Formats, files: map<Place, string>, r: Record)
    requires Filed(c, files)
    requires r.id in RecordsIn(c, files) ==> RecordsIn(c, files)[r.id].scope == r.scope
    ensures forall q :: q in files && q.id == r.id ==> q == PlaceOf(r)
  {
    hide FromMarkdown;
    forall q | q in files && q.id == r.id ensures q == PlaceOf(r) {
      RecordAt(c, files, q);
      assert Holds(c, files[q], q);
    }
  }

  /** Writing a record's file adds it, as it will read back, or replaces it. */
  lemma WriteFiles(c: Formats, files: map<Place, string>, r: Record)
    requires LawfulFormats(c) && Filed(c, files) && Storable(r) && CleanText(r.id)
    requires r.id in RecordsIn(c, files) ==> RecordsIn(c, files)[r.id].scope == r.scope
    ensures var files' := files[PlaceOf(r) := ToMarkdown(c, r)];
      Filed(c, files') && RecordsIn(c, files') == RecordsIn(c, files)[r.id := NormalRecord(r)]
  {
    hide FromMarkdown, ToMarkdown, LawfulFormats, Storable, NormalRecord, Holds, Filed, RecordsIn;
    OwnFileHolds(c, r);
    SamePlace(c, files, r);
    FilesStayFiled(c, files, PlaceOf(r), ToMarkdown(c, r));
    RecordsAfter(c, files, PlaceOf(r), ToMarkdown(c, r));
  }

  /** A record written under another scope than its id is filed under leaves two files with that id. */
  lemma SplitFiles(c: Formats, files: map<Place, string>, r: Record)
    requires Filed(c, files) && r.id in RecordsIn(c, files) && RecordsIn(c, files)[r.id].scope != r.scope
    ensures !Filed(c, files[PlaceOf(r) := ToMarkdown(c, r)])
  {
    hide FromMarkdown, ToMarkdown, Holds;
    PlaceFor(c, files, r.id);
    var p := PlaceOf(RecordsIn(c, files)[r.id]);
    assert p in files && p.id == PlaceOf(r).id && p != PlaceOf(r);
  }

  lemma NormalIsStorable(r: Record)
    requires Storable(r)
    ensures Storable(NormalRecord(r))
  {
  }

  lemma RemoveFile(c: Formats, files: map<Place, string>, p: Place)
    requires Filed(c, files) && p in files
    ensures Filed(c, files - {p}) && RecordsIn(c, files - {p}) == RecordsIn(c, files) - {p.id}
  {
    hide FromMarkdown, Holds;
    var a, b := RecordsIn(c, files - {p}), RecordsIn(c, files) - {p.id};
    forall id ensures Lookup(a, id) == Lookup(b, id) {
      if q :| q in files - {p} && q.id == id {
        RecordAt(c, files, q);
        RecordAt(c, files - {p}, q);
      } else {
        assert id !in a && id !in b;
      }
    }
    SameLookups(a, b);
  }

  /** The records a walk has listed once it has visited the places of `done`. */
  ghost predicate Walked(c: Formats, files: map<Place, string>, all: seq<Record>, done: set<Place>)
    requires Filed(c, files)
  {
    && (forall i :: 0 <= i < |all| ==>
          PlaceOf(all[i]) in done && Lookup(RecordsIn(c, files), all[i].id) == Some(all[i]))
    && (forall i, j :: 0 <= i < j < |all| ==> PlaceOf(all[i]) != PlaceOf(all[j]))
    && (forall p :: p in done ==> exists i :: 0 <= i < |all| && PlaceOf(all[i]) == p)
  }

  lemma WalkOneMore(c: Formats, files: map<Place, string>, all: seq<Record>, done: set<Place>, p: Place)
    requires Filed(c, files) && p in files && p !in done && Walked(c, files, all, done)
    ensures Holds(c, files[p], p)
    ensures Walked(c, files, all + [FromMarkdown(c, files[p]).value], done + {p})
  {
    hide FromMarkdown, RecordsIn;
    RecordAt(c, files, p);
    assert Holds(c, files[p], p);
    var r := FromMarkdown(c, files[p]).value;
    var all' := all + [r];
    assert all'[|all|] == r && forall i :: 0 <= i < |all| ==> all'[i] == all[i];
    forall q | q in done + {p} ensures exists i :: 0 <= i < |all'| && PlaceOf(all'[i]) == q {
      if q in done {
        var i :| 0 <= i < |all| && PlaceOf(all[i]) == q;
        assert PlaceOf(all'[i]) == q;
      } else {
        assert PlaceOf(all'[|all|]) == q;
      }
    }
  }

  /** A finished walk lists every record once. */
  predicate Lists(records: map<Id, Record>, all: seq<Record>) {
    && (forall i :: 0 <= i < |all| ==> Lookup(records, all[i].id) == Some(all[i]))
    && (forall i, j :: 0 <= i < j < |all| ==> all[i].id != all[j].id)
    && (forall id :: id in records ==> exists i :: 0 <= i < |all| && all[i].id == id)
  }

  lemma WalkLists(c: Formats, files: map<Place, string>, all: seq<Record>)
    requires Filed(c, files) && Walked(c, files, all, files.Keys)
    ensures Lists(RecordsIn(c, files), all)
  {
    hide FromMarkdown;
    var records := RecordsIn(c, files);
    forall id | id in records ensures exists i :: 0 <= i < |all| && all[i].id == id {
      PlaceFor(c, files, id);
      var i :| 0 <= i < |all| && PlaceOf(all[i]) == PlaceOf(records[id]);
    }
  }

  /** The records of a listing, up to its `k`-th. */
  function FromList(all: seq<Record>, k: nat): map<Id, Record>
    requires k <= |all|
  {
    if k == 0 then map[] else FromList(all, k - 1)[all[k - 1].id := all[k - 1]]
  }

  lemma {:induction false} ListedIn(all: seq<Record>, k: nat, id: Id)
    requires k <= |all|
    ensures id in FromList(all, k) <==> exists j :: 0 <= j < k && all[j].id == id
    ensures id in FromList(all, k) ==> exists j :: 0 <= j < k && all[j].id == id && FromList(all, k)[id] == all[j]
  {
    if k > 0 {
      ListedIn(all, k - 1, id);
      if all[k - 1].id == id {
        assert FromList(all, k)[id] == all[k - 1];
      } else if id in FromList(all, k - 1) {
        var j :| 0 <= j < k - 1 && all[j].id == id && FromList(all, k - 1)[id] == all[j];
        assert FromList(all, k)[id] == all[j];
      }
    }
  }

  lemma {:induction false} ListCounts(all: seq<Record>, k: nat)
    requires k <= |all| && forall i, j :: 0 <= i < j < |all| ==> all[i].id != all[j].id
    ensures |FromList(all, k)| == k
  {
    if k > 0 {
      ListCounts(all, k - 1);
      ListedIn(all, k - 1, all[k - 1].id);
    }
  }

  lemma ListIsRecords(records: map<Id, Record>, all: seq<Record>)
    requires Lists(records, all)
    ensures FromList(all, |all|) == records && |all| == |records|
  {
    hide FromList;
    ListCounts(all, |all|);
    forall id ensures Lookup(FromList(all, |all|), id) == Lookup(records, id) {
      ListedIn(all, |all|, id);
    }
    SameLookups(FromList(all, |all|), records);
  }

  // -------------------------------------------------------------------------
  // The vault
  // -------------------------------------------------------------------------

  class RecordVault {
    const formats: Formats
    var files: map<Place, string>

    ghost predicate Valid()
      reads this
    {
      LawfulFormats(formats) && Filed(formats, files)
    }

    ghost function Records(): map<Id, Record>
      requires Valid()
      reads this
    {
      RecordsIn(formats, files)
    }

    constructor (formats: Formats)
      requires LawfulFormats(formats)
      ensures Valid() && Records() == map[]
    {
      this.formats, this.files := formats, map[];
    }

    /** Walk the tree for the file named after the id. */
    method FindPath(id: Id) returns (place: Option<Place>)
      requires Valid()
      ensures match place
        case Some(p) => p in files && p.id == id
        case None => id !in Records()
    {
      var todo := files.Keys;
      while todo != {}
        invariant todo <= files.Keys
        invariant forall p :: p in files && p !in todo ==> p.id != id
        decreases |todo|
      {
        var p :| p in todo;
        if p.id == id {
          return Some(p);
        }
        todo := todo - {p};
      }
      place := None;
    }

    method Get(id: Id) returns (r: Option<Record>)
      requires Valid()
      ensures r == Lookup(Records(), id)
      ensures r.Some? ==> r.value.id == id && Storable(r.value) && Clean(r.value)
    {
      var place := FindPath(id);
      if place.None? {
        return None;
      }
      RecordAt(formats, files, place.value);
      PlaceFor(formats, files, id);
      r := Some(FromMarkdown(formats, files[place.value]).value);
    }

    /**
     * Write a record's file, new or replacing its own. An id then still stands for one record exactly
     * when it was not yet filed under another scope.
     */
    method Write(r: Record)
      requires Valid() && Storable(r) && CleanText(r.id)
      modifies this
      ensures files == old(files)[PlaceOf(r) := ToMarkdown(formats, r)]
      ensures Valid() <==> (r.id in old(Records()) ==> old(Records())[r.id].scope == r.scope)
      ensures Valid() ==> Records() == old(Records())[r.id := NormalRecord(r)]
    {
      hide LawfulFormats, FromMarkdown, Storable, NormalRecord, Filed, RecordsIn;
      if r.id in Records() && Records()[r.id].scope != r.scope {
        SplitFiles(formats, files, r);
      } else {
        WriteFiles(formats, files, r);
      }
      var text := ToMarkdownText(formats, r);
      files := files[PlaceOf(r) := text];
    }

    /** End a record's validity, its body untouched. */
    method Invalidate(id: Id, at: Time) returns (r: Option<Record>)
      requires Valid()
      modifies this
      ensures Valid() && r.Some? == (id in old(Records()))
      ensures r.Some? ==>
        r.value == old(Records())[id].(invalidAt := Some(at)) && Records() == old(Records())[id := r.value]
      ensures r.None? ==> Records() == old(Records())
    {
      hide FromMarkdown, NoReturns;
      var found := Get(id);
      if found.None? {
        return None;
      }
      var rec := found.value.(invalidAt := Some(at));
      RowsAgreeWhenClean(rec);
      Write(rec);
      r := Some(rec);
    }

    /** Write `r` as superseding `target`, then invalidate that; nothing happens if it is not there. */
    method Supersede(r: Record, target: Id, at: Time) returns (linked: Option<Record>)
      requires Valid() && Storable(r) && CleanText(r.id) && r.id !in Records()
      modifies this
      ensures Valid() && linked.Some? == (target in old(Records()))
      ensures linked.None? ==> Records() == old(Records())
      ensures linked.Some? ==>
        && linked == Some(r.(supersedes := Some(target)))
        && var ended := old(Records())[target].(invalidAt := Some(at));
        && Records() == old(Records())[r.id := NormalRecord(linked.value)][target := ended]
    {
      hide FromMarkdown, Clean, NormalRecord;
      var found := Get(target);
      if found.None? {
        return None;
      }
      var rec := r.(supersedes := Some(target));
      Write(rec);
      var ended := Invalidate(target, at);
      linked := Some(rec);
    }

    method UpdateTelemetry(id: Id, t: Telemetry) returns (r: Option<Record>)
      requires Valid() && !IsNan(t.successes)
      modifies this
      ensures Valid() && r.Some? == (id in old(Records()))
      ensures r.Some? ==> r.value == WithTelemetry(old(Records())[id], t) && Records() == old(Records())[id := r.value]
      ensures r.None? ==> Records() == old(Records())
    {
      hide FromMarkdown, NoReturns;
      var found := Get(id);
      if found.None? {
        return None;
      }
      var rec := WithTelemetry(found.value, t);
      RowsAgreeWhenClean(rec);
      Write(rec);
      r := Some(rec);
    }

    method Forget(id: Id) returns (ok: bool)
      requires Valid()
      modifies this
      ensures Valid() && ok == (id in old(Records())) && Records() == old(Records()) - {id}
    {
      hide FromMarkdown, Filed, RecordsIn;
      var place := FindPath(id);
      if place.None? {
        NothingToRemove(Records(), id);
        return false;
      }
      RecordAt(formats, files, place.value);
      RemoveFile(formats, files, place.value);
      files := files - {place.value};
      ok := true;
    }

    lemma NothingToRemove(records: map<Id, Record>, id: Id)
      requires id !in records
      ensures records - {id} == records
    {
    }

    /** All records, each once. */
    method Walk() returns (all: seq<Record>)
      requires Valid()
      ensures Lists(Records(), all)
    {
      hide FromMarkdown, Walked, Halves, RecordsIn, Lists, Holds;
      all := [];
      var todo := files.Keys;
      ghost var done := {};
      LoopEnds(files.Keys);
      WalkStarts(formats, files);
      while todo != {}
        invariant Halves(files.Keys, todo, done)
        invariant Walked(formats, files, all, done)
        decreases |todo|
      {
        var p :| p in todo;
        OneMoreDone(files.Keys, todo, done, p);
        WalkOneMore(formats, files, all, done, p);
        HoldsRecord(formats, files[p], p);
        all := all + [FromMarkdown(formats, files[p]).value];
        todo, done := todo - {p}, done + {p};
      }
      WalkLists(formats, files, all);
    }
  }

  lemma HoldsRecord(c: Formats, text: string, p: Place)
    requires Holds(c, text, p)
    ensures FromMarkdown(c, text).Ok?
  {
  }

  lemma WalkStarts(c: Formats, files: map<Place, string>)
    requires Filed(c, files)
    ensures Walked(c, files, [], {})
  {
  }

  // -------------------------------------------------------------------------
  // The index
  // -------------------------------------------------------------------------

  /** The index is what a rebuild would give, but perhaps for one id. */
  ghost predicate AgreesBut(ix: Index, records: map<Id, Record>, id: Id) {
    forall i :: i != id ==>
      && Lookup(ix.rows, i) == Lookup(Rebuilt(records).rows, i)
      && Lookup(ix.texts, i) == Lookup(Rebuilt(records).texts, i)
  }

  lemma SameIndex(a: Index, b: Index)
    requires forall i :: Lookup(a.rows, i) == Lookup(b.rows, i) && Lookup(a.texts, i) == Lookup(b.texts, i)
    ensures a == b
  {
    SameLookups(a.rows, b.rows);
    SameLookups(a.texts, b.texts);
  }

  lemma AgreesWith(ix: Index, records: map<Id, Record>, r: Record)
    requires AgreesBut(ix, records, r.id) && r.id in records && records[r.id] == r
    ensures Ingest(ix, r) == Rebuilt(records)
  {
    hide RowOf, TextOf;
    var a, b := Ingest(ix, r), Rebuilt(records);
    forall i ensures Lookup(a.rows, i) == Lookup(b.rows, i) && Lookup(a.texts, i) == Lookup(b.texts, i) {
      assert i != r.id ==> Lookup(a.rows, i) == Lookup(ix.rows, i) && Lookup(a.texts, i) == Lookup(ix.texts, i);
    }
    SameIndex(a, b);
  }

  lemma AgreesWithout(ix: Index, records: map<Id, Record>, id: Id)
    requires AgreesBut(ix, records, id)
    ensures Without(ix, id) == Rebuilt(records) <==> id !in records
  {
    hide RowOf, TextOf;
    var a, b := Without(ix, id), Rebuilt(records);
    if id in records {
      assert id in b.rows && id !in a.rows;
    } else {
      forall i ensures Lookup(a.rows, i) == Lookup(b.rows, i) && Lookup(a.texts, i) == Lookup(b.texts, i) {
        assert i != id ==> Lookup(a.rows, i) == Lookup(ix.rows, i) && Lookup(a.texts, i) == Lookup(ix.texts, i);
      }
      SameIndex(a, b);
    }
  }

  lemma NothingBuilt(all: seq<Record>)
    ensures Rebuilt(FromList(all, 0)) == Index(map[], map[])
  {
  }

  class Indexer {
    var rows: map<Id, Row>
    var texts: map<Id, Text>

    function AsIndex(): Index
      reads this
    {
      Index(rows, texts)
    }

    constructor ()
      ensures AsIndex() == Index(map[], map[])
    {
      rows, texts := map[], map[];
    }

    method IngestRecord(r: Record)
      modifies this
      ensures AsIndex() == Ingest(old(AsIndex()), r)
    {
      rows := rows[r.id := RowOf(r)];
      texts := texts - {r.id};
      texts := texts[r.id := TextOf(r)];
    }

    method Remove(id: Id)
      modifies this
      ensures AsIndex() == Without(old(AsIndex()), id)
    {
      rows := rows - {id};
      texts := texts - {id};
    }

    /** Wipe the tables and walk the vault. */
    method Rebuild(vault: RecordVault) returns (count: nat)
      requires vault.Valid()
      modifies this
      ensures AsIndex() == Rebuilt(vault.Records()) && count == |vault.Records()|
    {
      hide FromMarkdown, Rebuilt, Ingest, Lists, RecordsIn;
      var all := vault.Walk();
      rows, texts := map[], map[];
      NothingBuilt(all);
      for i := 0 to |all|
        invariant AsIndex() == Rebuilt(FromList(all, i))
      {
        IngestIsRebuild(FromList(all, i), all[i]);
        IngestRecord(all[i]);
      }
      ListIsRecords(vault.Records(), all);
      count := |all|;
    }

    /**
     * Look at one place again: its id leaves the tables if no file is there, else takes the file's row. That
     * makes up for a change at the id exactly unless the record now lies at another place.
     */
    method RefreshPath(vault: RecordVault, p: Place)
      requires vault.Valid() && AgreesBut(AsIndex(), vault.Records(), p.id)
      modifies this
      ensures p in vault.files || p.id !in vault.Records() <==> AsIndex() == Rebuilt(vault.Records())
    {
      hide FromMarkdown, RecordsIn, RowOf, TextOf;
      if p !in vault.files {
        Remove(p.id);
        AgreesWithout(old(AsIndex()), vault.Records(), p.id);
        return;
      }
      RecordAt(vault.formats, vault.files, p);
      assert Holds(vault.formats, vault.files[p], p);
      var r := FromMarkdown(vault.formats, vault.files[p]).value;
      IngestRecord(r);
      AgreesWith(old(AsIndex()), vault.Records(), r);
    }

    /** One valid row of the scope with this body hash, if there is any. */
    method FirstValid(scope: Scope, hash: string) returns (id: Option<Id>)
      ensures match id
        case Some(found) => found in FindValid(AsIndex(), scope, hash)
        case None => FindValid(AsIndex(), scope, hash) == {}
    {
      var todo := rows.Keys;
      while todo != {}
        invariant todo <= rows.Keys
        invariant forall i :: i in rows && i !in todo ==> i !in FindValid(AsIndex(), scope, hash)
        decreases |todo|
      {
        var i :| i in todo;
        if rows[i].meta.scope == scope && rows[i].bodyHash == hash && rows[i].meta.invalidAt.None? {
          return Some(i);
        }
        todo := todo - {i};
      }
      id := None;
    }
  }

  // -------------------------------------------------------------------------
  // The gate
  // -------------------------------------------------------------------------

  /** Candidates the vault can store: a scope with a valid id, no NaN trust. */
  predicate Acceptable(cand: Candidate) {
    ValidScope(cand.scope) && !IsNan(cand.trust)
  }

  class Gate {
    const vault: RecordVault
    const indexer: Indexer
    const rules: Policies
    var queue: seq<QueueItem>

    ghost predicate Valid()
      reads this, vault
    {
      vault.Valid() && forall i :: 0 <= i < |queue| ==> Acceptable(queue[i].candidate)
    }

    ghost function AsStore(): Store
      requires Valid()
      reads this, vault, indexer
    {
      Store(vault.Records(), indexer.AsIndex(), queue)
    }

    constructor (vault: RecordVault, indexer: Indexer, rules: Policies)
      requires vault.Valid()
      ensures Valid() && queue == [] && this.vault == vault && this.indexer == indexer && this.rules == rules
    {
      this.vault, this.indexer, this.rules := vault, indexer, rules;
      this.queue := [];
    }

    /** First matching rule, else review for the org scope and auto for the rest. */
    method PolicyOf(scope: Scope) returns (policy: Policy)
      ensures policy == PolicyFor(rules, scope) && Rules(rules, scope, policy)
    {
      PolicyIs(rules, scope, PolicyFor(rules, scope));
      assert rules[0..] == rules;
      for i := 0 to |rules|
        invariant PolicyFor(rules[i..], scope) == PolicyFor(rules, scope)
      {
        if rules[i].0(scope) {
          return rules[i].1;
        }
        assert rules[i..][1..] == rules[i + 1..];
      }
      assert rules[|rules|..] == [];
      policy := if scope == Org then Review else Auto;
    }

    /** Write the record, end what it corrects, ingest both. */
    method CommitRecord(cand: Candidate, author: string, stamp: Stamp) returns (outcome: Outcome)
      requires Valid() && Acceptable(cand) && CleanText(stamp.id) && stamp.id !in vault.Records()
      modifies vault, indexer
      ensures Valid() && Step(AsStore(), outcome) == Commit(old(AsStore()), cand, author, stamp)
      ensures CommitsAsTold(old(AsStore()), cand, author, stamp, Step(AsStore(), outcome))
      ensures !outcome.RejectedDuplicate?
    {
      hide CommitsAsTold, NormalRecord, Clean, FromMarkdown, Filed, RecordsIn, LawfulFormats, Ingest;
      CommitMeans(AsStore(), cand, author, stamp);
      var rec := NewRecord(cand, author, stamp);
      ZeroIsNoNan();
      if cand.corrects.Some? {
        var linked := vault.Supersede(rec, cand.corrects.value, stamp.at);
        if linked.None? {
          return Failed;
        }
        indexer.IngestRecord(linked.value);
        var ended := vault.Get(cand.corrects.value);
        indexer.IngestRecord(ended.value);
        return SupersededExisting(stamp.id, cand.corrects.value);
      }
      vault.Write(rec);
      indexer.IngestRecord(rec);
      outcome := Committed(stamp.id);
    }

    lemma ZeroIsNoNan()
      ensures !IsNan(ZERO)
    {
    }

    /** Exact dedup, probe, policy, then commit or queue. */
    method SubmitCandidate(cand: Candidate, likely: Option<Id>, author: string, qid: string, stamp: Stamp)
      returns (outcome: Outcome, existing: Option<Id>)
      requires Valid() && Acceptable(cand) && CleanText(stamp.id) && stamp.id !in vault.Records()
      modifies this, vault, indexer
      ensures Valid() && Step(AsStore(), outcome) == Submit(old(AsStore()), rules, cand, likely, author, qid, stamp)
      ensures outcome == RejectedDuplicate ==>
        existing.Some? && existing.value in FindValid(indexer.AsIndex(), cand.scope, BodyHash(cand.body))
      ensures SubmitsAsTold(old(AsStore()), rules, cand, likely, author, qid, stamp, Step(AsStore(), outcome))
    {
      hide SubmitsAsTold, CommitsAsTold, Commit, RecordsIn, BodyHash, Filed, LawfulFormats, FindValid;
      SubmitMeans(AsStore(), rules, cand, likely, author, qid, stamp);
      existing := indexer.FirstValid(cand.scope, BodyHash(cand.body));
      if existing.Some? {
        return RejectedDuplicate, existing;
      }
      var probed := cand;
      if cand.corrects.None? && likely.Some? && likely.value in indexer.rows {
        var row := indexer.rows[likely.value].meta;
        if row.scope == cand.scope && row.invalidAt.None? {
          var top := vault.Get(likely.value);
          if top.Some? {
            probed := cand.(corrects := likely);
          }
        }
      }
      assert probed == Probed(AsStore(), cand, likely);
      var policy := Review;
      if cand.kind != Skill {
        policy := PolicyOf(cand.scope);
      }
      if policy == Auto {
        outcome := CommitRecord(probed, author, stamp);
        return outcome, None;
      }
      queue := queue + [QueueItem(qid, author, stamp.made, probed)];
      outcome := Queued(qid);
    }

    /** Take the item off the queue; on approval re-check for a duplicate, then commit. */
    method ReviewItem(qid: string, approve: bool, stamp: Stamp) returns (outcome: Outcome)
      requires Valid() && CleanText(stamp.id) && stamp.id !in vault.Records()
      modifies this, vault, indexer
      ensures Valid() && Step(AsStore(), outcome) == Reviewed(old(AsStore()), qid, approve, stamp)
      ensures ReviewsAsTold(old(AsStore()), qid, approve, stamp, Step(AsStore(), outcome))
    {
      hide ReviewsAsTold, CommitsAsTold, Commit, RecordsIn, BodyHash, Trim, Filed, LawfulFormats, FindValid;
      ReviewMeans(AsStore(), qid, approve, stamp);
      var at := Position(queue, qid);
      if at.None? {
        return Failed;
      }
      var item := queue[at.value];
      queue := queue[..at.value] + queue[at.value + 1..];
      if !approve {
        return Dropped;
      }
      var existing := indexer.FirstValid(item.candidate.scope, BodyHash(item.candidate.body));
      if existing.Some? {
        return RejectedDuplicate;
      }
      outcome := CommitRecord(item.candidate, item.author, stamp);
    }

    /** Feedback on a record: telemetry to the vault, the updated record to the index. */
    method Feedback(id: Id, t: Telemetry) returns (outcome: Outcome)
      requires Valid() && !IsNan(t.successes)
      modifies vault, indexer
      ensures Valid() && Step(AsStore(), outcome) == FedBack(old(AsStore()), id, t)
    {
      hide RecordsIn, RowOf, TextOf;
      var updated := vault.UpdateTelemetry(id, t);
      if updated.None? {
        return Failed;
      }
      indexer.IngestRecord(updated.value);
      outcome := Committed(id);
    }

    method ForgetRecord(id: Id) returns (outcome: Outcome)
      requires Valid()
      modifies vault, indexer
      ensures Valid() && Step(AsStore(), outcome) == Forgotten(old(AsStore()), id)
    {
      hide RecordsIn, Filed, LawfulFormats, Without;
      var ok := vault.Forget(id);
      if !ok {
        return Failed;
      }
      indexer.Remove(id);
      outcome := Dropped;
    }

    /** The markers already on queue items or records. */
    method TakenMarkers(all: seq<Record>) returns (taken: set<string>)
      requires Valid() && Lists(vault.Records(), all)
      ensures taken == Marked(AsStore())
    {
      hide RecordsIn, Filed, LawfulFormats, FromTags, Lists, FromMarkdown;
      taken := {};
      for i := 0 to |queue|
        invariant forall m :: m in taken <==> exists j :: 0 <= j < i && m in FromTags(queue[j].candidate.tags)
      {
        taken := taken + FromTags(queue[i].candidate.tags);
      }
      ghost var queued := taken;
      for i := 0 to |all|
        invariant forall m :: m in taken <==> m in queued || exists j :: 0 <= j < i && m in FromTags(all[j].tags)
      {
        taken := taken + FromTags(all[i].tags);
      }
      forall m ensures m in taken <==> m in Marked(AsStore()) {
        ListedMarkers(vault.Records(), all, m);
      }
    }

    lemma ListedMarkers(records: map<Id, Record>, all: seq<Record>, m: string)
      requires Lists(records, all)
      ensures (exists j :: 0 <= j < |all| && m in FromTags(all[j].tags)) <==>
        (exists id :: id in records && m in FromTags(records[id].tags))
    {
      hide FromTags;
      if j :| 0 <= j < |all| && m in FromTags(all[j].tags) {
        assert Lookup(records, all[j].id) == Some(all[j]);
      }
      if id :| id in records && m in FromTags(records[id].tags) {
        var i :| 0 <= i < |all| && all[i].id == id;
        assert Lookup(records, all[i].id) == Some(all[i]);
      }
    }

    /** Scan all records for procedures that have proven themselves and submit each as a skill. */
    method GraduateScan(cfg: Graduation, draw: Record -> Draw) returns (order: seq<Record>, outcomes: seq<Outcome>)
      requires Valid()
      requires forall r :: CleanText(draw(r).stamp.id) && draw(r).stamp.id !in vault.Records()
      modifies this, vault, indexer
      ensures Valid() && Lists(old(vault.Records()), order)
      ensures AsStore() == Graduate(old(AsStore()), rules, cfg, order, draw)
      ensures vault.Records() == old(vault.Records())
      ensures forall i :: 0 <= i < |outcomes| ==> outcomes[i].Queued? || outcomes[i].RejectedDuplicate?
    {
      hide RecordsIn, Filed, LawfulFormats, Lists, FromMarkdown, GraduateAll, Submit, Marked;
      ghost var start := AsStore();
      order := vault.Walk();
      var taken := TakenMarkers(order);
      outcomes := [];
      assert order[0..] == order;
      for i := 0 to |order|
        invariant Valid() && vault.Records() == start.records
        invariant forall k :: 0 <= k < |outcomes| ==> outcomes[k].Queued? || outcomes[k].RejectedDuplicate?
        invariant GraduateAll(AsStore(), rules, cfg, order[i..], taken, draw)
          == GraduateAll(start, rules, cfg, order, taken, draw)
      {
        var r := order[i];
        ListedIsStorable(order, i);
        ScanUnfold(AsStore(), rules, cfg, order, i, taken, draw);
        if Graduates(cfg, r, taken) {
          var d := draw(r);
          SkillIsQueued(AsStore(), rules, GraduationOf(cfg, r), d.likely, r.author, d.qid, d.stamp);
          var outcome, existing := SubmitCandidate(GraduationOf(cfg, r), d.likely, r.author, d.qid, d.stamp);
          outcomes := outcomes + [outcome];
        }
      }
      ScanEnds(AsStore(), rules, cfg, order, taken, draw);
    }

    lemma ListedIsStorable(all: seq<Record>, i: nat)
      requires vault.Valid() && Lists(vault.Records(), all) && i < |all|
      ensures Storable(all[i])
    {
      hide FromMarkdown;
      assert Lookup(vault.Records(), all[i].id) == Some(all[i]);
      PlaceFor(vault.formats, vault.files, all[i].id);
    }

    lemma ScanUnfold(s: Store, rules: Policies, cfg: Graduation, order: seq<Record>, i: nat, taken: set<string>,
                     draw: Record -> Draw)
      requires i < |order|
      ensures var r := order[i];
        var s' := if Graduates(cfg, r, taken)
                  then Submit(s, rules, GraduationOf(cfg, r), draw(r).likely, r.author, draw(r).qid,
                              draw(r).stamp).store
                  else s;
        GraduateAll(s, rules, cfg, order[i..], taken, draw) == GraduateAll(s', rules, cfg, order[i + 1..], taken, draw)
    {
      hide Submit;
      assert order[i..][0] == order[i] && order[i..][1..] == order[i + 1..];
    }

    lemma ScanEnds(s: Store, rules: Policies, cfg: Graduation, order: seq<Record>, taken: set<string>,
                   draw: Record -> Draw)
      ensures GraduateAll(s, rules, cfg, order[|order|..], taken, draw) == s
    {
      assert order[|order|..] == [];
    }
  }
}
