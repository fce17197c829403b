/**
 * The gate, the review queue, the vault's records and the index that caches them: what each
 * operation does to all of them at once. GateCode.dfy has the objects that carry it out.
 */
module GateModel {
  import opened Prelude
  import opened Frontmatter
  import opened Scopes
  import opened Records

  type Id = string

  // -------------------------------------------------------------------------
  // The index
  // -------------------------------------------------------------------------

  /** A row of the records table: every column but the body, and the hash of the trimmed body. */
  datatype Row = Row(meta: Record, bodyHash: string)

  /** A row of the full-text table. */
  datatype Text = Text(body: string, entities: seq<string>, tags: seq<string>)

  datatype Index = Index(rows: map<Id, Row>, texts: map<Id, Text>)

  /** A collision-free hash of the trimmed body is the trimmed body. */
  function BodyHash(body: string): string {
    Trim(body)
  }

  function RowOf(r: Record): Row {
    Row(r.(body := ""), BodyHash(r.body))
  }

  function TextOf(r: Record): Text {
    Text(r.body, r.entities, r.tags)
  }

  function Ingest(ix: Index, r: Record): Index {
    Index(ix.rows[r.id := RowOf(r)], ix.texts[r.id := TextOf(r)])
  }

  function Without(ix: Index, id: Id): Index {
    Index(ix.rows - {id}, ix.texts - {id})
  }

  /** What a walk of the vault gives. */
  function Rebuilt(records: map<Id, Record>): Index {
    Index(map id | id in records :: RowOf(records[id]), map id | id in records :: TextOf(records[id]))
  }

  /** Valid rows of a scope with a given body hash. */
  function FindValid(ix: Index, scope: Scope, hash: string): set<Id> {
    set id | id in ix.rows && ix.rows[id].meta.scope == scope && ix.rows[id].bodyHash == hash
      && ix.rows[id].meta.invalidAt.None?
  }

  // -------------------------------------------------------------------------
  // State
  // -------------------------------------------------------------------------

  datatype Candidate = Candidate(
    kind: Kind,
    scope: Scope,
    body: string,
    tags: seq<string>,
    entities: seq<string>,
    trust: Float,
    corrects: Option<Id>,
    trigger: Option<string>,
    version: Option<i64>)

  datatype QueueItem = QueueItem(qid: string, author: string, submittedAt: Time, candidate: Candidate)

  datatype Store = Store(records: map<Id, Record>, index: Index, queue: seq<QueueItem>)

  datatype Policy = Auto | Review

  /** Scope patterns with their policies; the first that matches decides. */
  type Policies = seq<(Scope -> bool, Policy)>

  function PolicyFor(rules: Policies, scope: Scope): Policy {
    if rules == [] then (if scope == Org then Review else Auto)
    else if rules[0].0(scope) then rules[0].1
    else PolicyFor(rules[1..], scope)
  }

  datatype Outcome =
    | Committed(id: Id)
    | SupersededExisting(id: Id, superseded: Id)
    | RejectedDuplicate
    | Queued(qid: string)
    | Dropped
    | Failed

  /** What an operation leaves and what it answers. */
  datatype Step = Step(store: Store, outcome: Outcome)

  /** A commit's fresh id and its two readings of the clock: for the record, then for what it supersedes. */
  datatype Stamp = Stamp(id: Id, made: Time, at: Time)

  // -------------------------------------------------------------------------
  // Writing records
  // -------------------------------------------------------------------------

  /**
   * Write a record, superseding another if asked: the vault keeps what reads back from disk, the index
   * takes the record as it was in memory, then the superseded one as re-read.
   */
  function Written(s: Store, rec: Record, corrects: Option<Id>, at: Time): Result<Store> {
    match corrects
    case None => Ok(s.(records := s.records[rec.id := NormalRecord(rec)], index := Ingest(s.index, rec)))
    case Some(prior) =>
      if prior !in s.records then Err
      else
        var new' := rec.(supersedes := Some(prior));
        var prior' := s.records[prior].(invalidAt := Some(at));
        Ok(s.(records := s.records[rec.id := NormalRecord(new')][prior := prior'],
              index := Ingest(Ingest(s.index, new'), prior')))
  }

  function NewRecord(cand: Candidate, author: string, stamp: Stamp): Record {
    Record(stamp.id, cand.kind, cand.scope, author, stamp.made, stamp.made, None, None,
           cand.entities, cand.tags, cand.trust, 0, ZERO, None,
           if cand.version.Some? then cand.version else if cand.kind == Skill then Some(1) else None,
           cand.trigger, cand.body)
  }

  function Commit(s: Store, cand: Candidate, author: string, stamp: Stamp): Step {
    match Written(s, NewRecord(cand, author, stamp), cand.corrects, stamp.at)
    case Err => Step(s, Failed)
    case Ok(s') =>
      Step(s', if cand.corrects.Some? then SupersededExisting(stamp.id, cand.corrects.value) else Committed(stamp.id))
  }

  // -------------------------------------------------------------------------
  // The gate
  // -------------------------------------------------------------------------

  /** What the near-duplicate probe may point at: a valid row of the scope whose file is there. */
  predicate Likely(s: Store, scope: Scope, id: Id) {
    && id in s.records && id in s.index.rows
    && s.index.rows[id].meta.scope == scope && s.index.rows[id].meta.invalidAt.None?
  }

  /** The candidate after the probe, whose pick `likely` is used only if nothing explicit is corrected. */
  function Probed(s: Store, cand: Candidate, likely: Option<Id>): Candidate {
    if cand.corrects.None? && likely.Some? && Likely(s, cand.scope, likely.value) then cand.(corrects := likely)
    else cand
  }

  predicate IsDuplicate(s: Store, cand: Candidate) {
    FindValid(s.index, cand.scope, BodyHash(cand.body)) != {}
  }

  function Submit(s: Store, rules: Policies, cand: Candidate, likely: Option<Id>, author: string, qid: string,
                  stamp: Stamp): Step {
    if IsDuplicate(s, cand) then Step(s, RejectedDuplicate)
    else
      var probed := Probed(s, cand, likely);
      if cand.kind != Skill && PolicyFor(rules, cand.scope) == Auto then Commit(s, probed, author, stamp)
      else Step(s.(queue := s.queue + [QueueItem(qid, author, stamp.made, probed)]), Queued(qid))
  }

  function Position(queue: seq<QueueItem>, qid: string): (r: Option<nat>)
    ensures r.Some? ==> r.value < |queue| && queue[r.value].qid == qid
    ensures r.None? ==> forall i :: 0 <= i < |queue| ==> queue[i].qid != qid
  {
    if queue == [] then None
    else if queue[0].qid == qid then Some(0)
    else
      match Position(queue[1..], qid)
      case Some(i) => Some(i + 1)
      case None => None
  }

  /** Approve or reject a queued item; it leaves the queue before anything can go wrong. */
  function Reviewed(s: Store, qid: string, approve: bool, stamp: Stamp): Step {
    match Position(s.queue, qid)
    case None => Step(s, Failed)
    case Some(i) =>
      var item := s.queue[i];
      var s' := s.(queue := s.queue[..i] + s.queue[i + 1..]);
      if !approve then Step(s', Dropped)
      else if IsDuplicate(s', item.candidate) then Step(s', RejectedDuplicate)
      else Commit(s', item.candidate, item.author, stamp)
  }

  // -------------------------------------------------------------------------
  // Graduation
  // -------------------------------------------------------------------------

  /** Thresholds, and the text derived from a record, as the functions they are. */
  datatype Graduation = Graduation(proven: Record -> bool, body: Record -> string, trigger: Record -> string)

  const FROM := "from:"

  function Marker(id: Id): string {
    FROM + id
  }

  function FromTags(tags: seq<string>): set<string> {
    set i | 0 <= i < |tags| && FROM <= tags[i] :: tags[i]
  }

  /** Markers on queue items and on records. */
  function Marked(s: Store): set<string> {
    (set i, m | 0 <= i < |s.queue| && m in FromTags(s.queue[i].candidate.tags) :: m) +
    (set id, m | id in s.records && m in FromTags(s.records[id].tags) :: m)
  }

  predicate Graduates(cfg: Graduation, r: Record, already: set<string>) {
    r.kind == Procedural && r.invalidAt.None? && cfg.proven(r) && Marker(r.id) !in already
  }

  function GraduationOf(cfg: Graduation, r: Record): Candidate {
    Candidate(Skill, r.scope, cfg.body(r), ["graduated", Marker(r.id)], r.entities, r.trust, None, Some(cfg.trigger(r)),
              Some(1))
  }

  /** One reading of clock and queue-id generator per submission, and the probe's pick for it. */
  datatype Draw = Draw(qid: string, likely: Option<Id>, stamp: Stamp)

  /** Submit the graduation of each listed record that qualifies. */
  function GraduateAll(s: Store, rules: Policies, cfg: Graduation, order: seq<Record>, already: set<string>,
                       draw: Record -> Draw): Store
    decreases |order|
  {
    if order == [] then s
    else
      var r := order[0];
      var d := draw(r);
      var s' := if Graduates(cfg, r, already)
                then Submit(s, rules, GraduationOf(cfg, r), d.likely, r.author, d.qid, d.stamp).store
                else s;
      GraduateAll(s', rules, cfg, order[1..], already, draw)
  }

  function Graduate(s: Store, rules: Policies, cfg: Graduation, order: seq<Record>, draw: Record -> Draw): Store {
    GraduateAll(s, rules, cfg, order, Marked(s), draw)
  }

  // -------------------------------------------------------------------------
  // Feedback and forgetting
  // -------------------------------------------------------------------------

  /** Telemetry after an update: the sums are computed by the caller. */
  datatype Telemetry = Telemetry(uses: i64, successes: Float, at: Time)

  function WithTelemetry(r: Record, t: Telemetry): Record {
    r.(uses := t.uses, successes := t.successes, lastUsed := Some(t.at))
  }

  function FedBack(s: Store, id: Id, t: Telemetry): Step {
    if id !in s.records then Step(s, Failed)
    else
      var r := WithTelemetry(s.records[id], t);
      Step(s.(records := s.records[id := r], index := Ingest(s.index, r)), Committed(id))
  }

  function Forgotten(s: Store, id: Id): Step {
    if id !in s.records then Step(s, Failed)
    else Step(s.(records := s.records - {id}, index := Without(s.index, id)), Dropped)
  }
}
