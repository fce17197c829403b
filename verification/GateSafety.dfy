/** What holds of vault, index and queue over whole runs of the gate. */
module GateSafety {
  import opened Prelude
  import opened Frontmatter
  import opened Scopes
  import opened Records
  import opened GateModel

  // -------------------------------------------------------------------------
  // The index is the cache of a rebuild
  // -------------------------------------------------------------------------

  predicate OwnKeys(records: map<Id, Record>) {
    forall id :: id in records ==> records[id].id == id
  }

  predicate Indexed(s: Store) {
    OwnKeys(s.records) && s.index == Rebuilt(s.records)
  }

  lemma IngestIsRebuild(records: map<Id, Record>, r: Record)
    ensures Ingest(Rebuilt(records), r) == Rebuilt(records[r.id := r])
  {
    hide RowOf, TextOf;
    var a, b := Ingest(Rebuilt(records), r), Rebuilt(records[r.id := r]);
    assert a.rows == b.rows;
    assert a.texts == b.texts;
  }

  lemma RemoveIsRebuild(records: map<Id, Record>, id: Id)
    ensures Without(Rebuilt(records), id) == Rebuilt(records - {id})
  {
    hide RowOf, TextOf;
    var a, b := Without(Rebuilt(records), id), Rebuilt(records - {id});
    assert a.rows == b.rows;
    assert a.texts == b.texts;
  }

  /** A fresh record's row is what a rebuild would give exactly when no field string holds a carriage return. */
  lemma RowsAgreeWhenClean(r: Record)
    ensures RowOf(r) == RowOf(NormalRecord(r)) <==> Clean(r)
    ensures Clean(r) ==> NormalRecord(r) == r
  {
    hide Normal, NormalItems, NoReturns, Trim;
    NormalIsFixed(r.id);
    NormalIsFixed(r.author);
    NormalItemsFixed(r.entities);
    NormalItemsFixed(r.tags);
    if r.supersedes.Some? {
      NormalIsFixed(r.supersedes.value);
    }
    if r.trigger.Some? {
      NormalIsFixed(r.trigger.value);
    }
  }

  /** The record a write adds, with the link it is given. */
  function Linking(rec: Record, corrects: Option<Id>): Record {
    if corrects.Some? then rec.(supersedes := corrects) else rec
  }

  /** A write keeps the index equal to a rebuild exactly when the new record's field strings are clean. */
  lemma WriteKeepsIndex(s: Store, rec: Record, corrects: Option<Id>, at: Time)
    requires Indexed(s) && rec.id !in s.records
    requires Written(s, rec, corrects, at).Ok?
    ensures Indexed(Written(s, rec, corrects, at).value) <==> Clean(Linking(rec, corrects))
  {
    var s' := Written(s, rec, corrects, at).value;
    var r := Linking(rec, corrects);
    RowsAgreeWhenClean(r);
    if Clean(r) {
      IngestIsRebuild(s.records, r);
      if corrects.Some? {
        IngestIsRebuild(s.records[r.id := r], s.records[corrects.value].(invalidAt := Some(at)));
      }
    } else {
      assert s'.index.rows[rec.id] == RowOf(r);
      assert Rebuilt(s'.records).rows[rec.id] == RowOf(NormalRecord(r));
    }
  }

  lemma FeedbackKeepsIndex(s: Store, id: Id, t: Telemetry)
    requires Indexed(s)
    ensures Indexed(FedBack(s, id, t).store)
  {
    if id in s.records {
      IngestIsRebuild(s.records, WithTelemetry(s.records[id], t));
    }
  }

  lemma ForgetKeepsIndex(s: Store, id: Id)
    requires Indexed(s)
    ensures Indexed(Forgotten(s, id).store)
  {
    RemoveIsRebuild(s.records, id);
  }

  // -------------------------------------------------------------------------
  // No duplicates among valid records
  // -------------------------------------------------------------------------

  /** No two valid records of one scope have the same trimmed body. */
  predicate NoDuplicates(records: map<Id, Record>) {
    forall a, b :: a in records && b in records && a != b
      && records[a].invalidAt.None? && records[b].invalidAt.None? && records[a].scope == records[b].scope
      ==> Trim(records[a].body) != Trim(records[b].body)
  }

  /** The vault holds what a candidate says: a valid record of its scope with its trimmed body. */
  predicate Remembers(records: map<Id, Record>, cand: Candidate) {
    exists id :: id in records && Says(records[id], cand)
  }

  predicate Says(r: Record, cand: Candidate) {
    r.scope == cand.scope && r.invalidAt.None? && Trim(r.body) == Trim(cand.body)
  }

  /** The index answers the duplicate question exactly as the vault would. */
  lemma DuplicateIsExact(s: Store, cand: Candidate)
    requires Indexed(s)
    ensures IsDuplicate(s, cand) <==> Remembers(s.records, cand)
  {
    hide Trim;
    var found := FindValid(s.index, cand.scope, BodyHash(cand.body));
    if id :| id in s.records && Says(s.records[id], cand) {
      assert id in found;
    }
    if found != {} {
      var id :| id in found;
      assert id in s.records;
    }
  }

  lemma CommitKeepsNoDuplicates(s: Store, cand: Candidate, author: string, stamp: Stamp)
    requires Indexed(s) && NoDuplicates(s.records) && stamp.id !in s.records && !IsDuplicate(s, cand)
    ensures NoDuplicates(Commit(s, cand, author, stamp).store.records)
  {
    hide Trim, NormalItems, Normal;
    DuplicateIsExact(s, cand);
  }

  /** A write that skips the gate keeps bodies distinct exactly when no valid record it leaves standing has its body. */
  lemma WriteKeepsNoDuplicates(s: Store, rec: Record, corrects: Option<Id>, at: Time)
    requires NoDuplicates(s.records) && rec.id !in s.records && rec.invalidAt.None?
    requires OwnKeys(s.records) && Written(s, rec, corrects, at).Ok?
    ensures NoDuplicates(Written(s, rec, corrects, at).value.records) <==>
      forall id :: id in s.records && Some(id) != corrects
                   && s.records[id].invalidAt.None? && s.records[id].scope == rec.scope
                   ==> Trim(s.records[id].body) != Trim(rec.body)
  {
    hide Trim, Normal, NormalItems;
    var records' := Written(s, rec, corrects, at).value.records;
    assert forall id :: id in s.records && Some(id) != corrects ==> id in records' && records'[id] == s.records[id];
    assert rec.id in records' && records'[rec.id].body == rec.body && records'[rec.id].scope == rec.scope;
  }

  // -------------------------------------------------------------------------
  // What an approval leaves
  // -------------------------------------------------------------------------

  /** The record a candidate corrects is not there. */
  predicate TargetGone(records: map<Id, Record>, cand: Candidate) {
    cand.corrects.Some? && cand.corrects.value !in records
  }

  /** The queue without its `i`-th item. */
  function Unqueued(s: Store, i: nat): Store
    requires i < |s.queue|
  {
    s.(queue := s.queue[..i] + s.queue[i + 1..])
  }

  /**
   * An approval fails with the item gone from the queue, and nothing else changed, if and only if the
   * item is there, is no duplicate, and corrects a record that is not.
   */
  lemma ApprovalLosesItemIff(s: Store, qid: string, stamp: Stamp)
    ensures var r := Reviewed(s, qid, true, stamp);
      var at := Position(s.queue, qid);
      && (r.outcome == Failed && r.store != s <==>
            at.Some? && !IsDuplicate(s, s.queue[at.value].candidate)
              && TargetGone(s.records, s.queue[at.value].candidate))
      && (r.outcome == Failed && r.store != s ==> r.store == Unqueued(s, at.value))
  {
    hide IsDuplicate;
    var at := Position(s.queue, qid);
    if at.Some? {
      SameButQueue(s, Unqueued(s, at.value), s.queue[at.value].candidate);
      assert |Unqueued(s, at.value).queue| < |s.queue|;
    }
  }

  /** Whether a candidate is a duplicate does not depend on the queue. */
  lemma SameButQueue(s: Store, s': Store, cand: Candidate)
    requires s' == s.(queue := s'.queue)
    ensures IsDuplicate(s', cand) == IsDuplicate(s, cand)
  {
  }

  /** A fresh record says what its candidate says, whatever it corrects. */
  lemma CommitRemembers(s: Store, cand: Candidate, author: string, stamp: Stamp)
    requires stamp.id !in s.records && !TargetGone(s.records, cand)
    ensures Remembers(Commit(s, cand, author, stamp).store.records, cand)
  {
    hide Trim, Normal, NormalItems;
    var records' := Commit(s, cand, author, stamp).store.records;
    assert stamp.id in records' && Says(records'[stamp.id], cand);
  }

  /**
   * Once an item is approved the vault holds what it says, as a new record or as one it already had,
   * except where the approval lost it.
   */
  lemma ApprovedIsHeldUnlessLost(s: Store, qid: string, stamp: Stamp)
    requires Indexed(s) && stamp.id !in s.records && Position(s.queue, qid).Some?
    ensures var r := Reviewed(s, qid, true, stamp);
      var cand := s.queue[Position(s.queue, qid).value].candidate;
      Remembers(r.store.records, cand) <==> Remembers(s.records, cand) || !TargetGone(s.records, cand)
  {
    hide IsDuplicate, Remembers, Commit;
    var i := Position(s.queue, qid).value;
    var cand := s.queue[i].candidate;
    SameButQueue(s, Unqueued(s, i), cand);
    DuplicateIsExact(s, cand);
    if !IsDuplicate(s, cand) {
      if TargetGone(s.records, cand) {
        LostCommit(Unqueued(s, i), cand, s.queue[i].author, stamp);
      } else {
        CommitRemembers(Unqueued(s, i), cand, s.queue[i].author, stamp);
      }
    }
  }

  lemma LostCommit(s: Store, cand: Candidate, author: string, stamp: Stamp)
    requires TargetGone(s.records, cand)
    ensures Commit(s, cand, author, stamp) == Step(s, Failed)
  {
  }

  // -------------------------------------------------------------------------
  // Graduation markers
  // -------------------------------------------------------------------------

  predicate NoShared(a: seq<string>, b: seq<string>) {
    FromTags(a) !! FromTags(b)
  }

  /** Each marker is on at most one of all queue items and records. */
  predicate MarkedOnce(s: Store) {
    && (forall i, j :: 0 <= i < j < |s.queue| ==> NoShared(s.queue[i].candidate.tags, s.queue[j].candidate.tags))
    && (forall a, b :: a in s.records && b in s.records && a != b ==> NoShared(s.records[a].tags, s.records[b].tags))
    && (forall i, a :: 0 <= i < |s.queue| && a in s.records ==> NoShared(s.queue[i].candidate.tags, s.records[a].tags))
  }

  /** Tags none of whose markers is taken. */
  predicate Unmarked(s: Store, tags: seq<string>) {
    && (forall i :: 0 <= i < |s.queue| ==> NoShared(s.queue[i].candidate.tags, tags))
    && (forall a :: a in s.records ==> NoShared(s.records[a].tags, tags))
  }

  lemma UnmarkedIs(s: Store, tags: seq<string>)
    ensures Unmarked(s, tags) <==> Marked(s) !! FromTags(tags)
  {
    hide FromTags;
    if Marked(s) !! FromTags(tags) {
      forall i | 0 <= i < |s.queue| ensures NoShared(s.queue[i].candidate.tags, tags) {
        assert FromTags(s.queue[i].candidate.tags) <= Marked(s);
      }
      forall a | a in s.records ensures NoShared(s.records[a].tags, tags) {
        assert FromTags(s.records[a].tags) <= Marked(s);
      }
    }
    if Unmarked(s, tags) {
      forall m | m in Marked(s) ensures m !in FromTags(tags) {
        if i :| 0 <= i < |s.queue| && m in FromTags(s.queue[i].candidate.tags) {
          assert NoShared(s.queue[i].candidate.tags, tags);
        } else {
          var a :| a in s.records && m in FromTags(s.records[a].tags);
          assert NoShared(s.records[a].tags, tags);
        }
      }
    }
  }

  lemma QueueKeepsMarks(s: Store, item: QueueItem)
    requires MarkedOnce(s) && Unmarked(s, item.candidate.tags)
    ensures MarkedOnce(s.(queue := s.queue + [item]))
  {
    hide FromTags, NoShared;
    var queue' := s.queue + [item];
    forall i, j | 0 <= i < j < |queue'| ensures NoShared(queue'[i].candidate.tags, queue'[j].candidate.tags) {
      assert NoShared(s.queue[i].candidate.tags,
                      if j < |s.queue| then s.queue[j].candidate.tags else item.candidate.tags);
    }
    forall i, a | 0 <= i < |queue'| && a in s.records ensures NoShared(queue'[i].candidate.tags, s.records[a].tags) {
      SharedEitherWay(queue'[i].candidate.tags, s.records[a].tags);
    }
  }

  lemma SharedEitherWay(a: seq<string>, b: seq<string>)
    ensures NoShared(a, b) <==> NoShared(b, a)
  {
  }

  /** Taking an item off the queue frees its markers and disturbs no other. */
  lemma UnqueueKeepsMarks(s: Store, i: nat)
    requires MarkedOnce(s) && i < |s.queue|
    ensures var s' := s.(queue := s.queue[..i] + s.queue[i + 1..]);
      MarkedOnce(s') && Unmarked(s', s.queue[i].candidate.tags)
  {
    hide FromTags, NoShared;
    var queue' := s.queue[..i] + s.queue[i + 1..];
    forall j | 0 <= j < |queue'|
      ensures queue'[j] == s.queue[if j < i then j else j + 1]
        && NoShared(queue'[j].candidate.tags, s.queue[i].candidate.tags)
    {
      SharedEitherWay(queue'[j].candidate.tags, s.queue[i].candidate.tags);
    }
    forall a | a in s.records ensures NoShared(s.records[a].tags, s.queue[i].candidate.tags) {
      SharedEitherWay(s.records[a].tags, s.queue[i].candidate.tags);
    }
  }

  /** What a write leaves in the vault: every record but the new one keeps its tags. */
  lemma WriteTags(s: Store, rec: Record, corrects: Option<Id>, at: Time)
    requires rec.id !in s.records && Clean(Linking(rec, corrects)) && Written(s, rec, corrects, at).Ok?
    ensures var s' := Written(s, rec, corrects, at).value;
      && s'.queue == s.queue && s'.records.Keys == s.records.Keys + {rec.id}
      && forall id :: id in s'.records ==> s'.records[id].tags == if id == rec.id then rec.tags else s.records[id].tags
  {
    hide Clean, NormalRecord;
    RowsAgreeWhenClean(Linking(rec, corrects));
  }

  lemma WriteKeepsMarks(s: Store, rec: Record, corrects: Option<Id>, at: Time)
    requires MarkedOnce(s) && Unmarked(s, rec.tags) && rec.id !in s.records && Clean(Linking(rec, corrects))
    requires Written(s, rec, corrects, at).Ok?
    ensures MarkedOnce(Written(s, rec, corrects, at).value)
  {
    hide FromTags, NoShared, Clean, NormalRecord, Written;
    WriteTags(s, rec, corrects, at);
    var records' := Written(s, rec, corrects, at).value.records;
    forall a, b | a in records' && b in records' && a != b ensures NoShared(records'[a].tags, records'[b].tags) {
      SharedEitherWay(records'[a].tags, records'[b].tags);
    }
  }

  // -------------------------------------------------------------------------
  // Time
  // -------------------------------------------------------------------------

  /** Nothing recorded lies in the future. */
  predicate Timely(records: map<Id, Record>, now: Time) {
    forall id :: id in records ==>
      records[id].validAt <= now && (records[id].invalidAt.Some? ==> records[id].invalidAt.value <= now)
  }

  /** A record that supersedes another took over no later than the other ended. */
  predicate Linked(records: map<Id, Record>) {
    forall id :: id in records && records[id].supersedes.Some? && records[id].supersedes.value in records ==>
      var prior := records[records[id].supersedes.value];
      prior.invalidAt.Some? && records[id].validAt <= prior.invalidAt.value
  }

  /** An id never used: no record has it or points at it. */
  predicate Fresh(records: map<Id, Record>, id: Id) {
    id !in records && forall r :: r in records ==> records[r].supersedes != Some(id)
  }

  lemma WriteKeepsTime(s: Store, rec: Record, corrects: Option<Id>, at: Time, now: Time)
    requires Timely(s.records, now) && Linked(s.records) && Fresh(s.records, rec.id)
    requires rec.invalidAt.None? && rec.supersedes.None? && now <= rec.validAt <= at && Clean(Linking(rec, corrects))
    requires Written(s, rec, corrects, at).Ok?
    ensures var s' := Written(s, rec, corrects, at).value;
      Timely(s'.records, at) && Linked(s'.records)
  {
    hide Clean, NormalRecord;
    RowsAgreeWhenClean(Linking(rec, corrects));
  }

  /** The records valid at a given time. */
  function ValidAt(records: map<Id, Record>, t: Time): set<Id> {
    set id | id in records && IsValidAt(records[id], t)
  }

  /** Ending the record now would make it valid again at `t`, after its recorded end. */
  predicate ReopensAt(r: Record, t: Time) {
    r.validAt <= t && r.invalidAt.Some? && r.invalidAt.value <= t
  }

  /** What a write adds to the answer about an earlier time: its target, if it had ended by then. */
  lemma WriteAdds(s: Store, rec: Record, corrects: Option<Id>, at: Time, t: Time)
    requires rec.id !in s.records && t < rec.validAt <= at && Written(s, rec, corrects, at).Ok?
    ensures ValidAt(Written(s, rec, corrects, at).value.records, t) ==
      ValidAt(s.records, t) + if corrects.Some? && ReopensAt(s.records[corrects.value], t) then {corrects.value} else {}
  {
    hide Normal, NormalItems;
    var records' := Written(s, rec, corrects, at).value.records;
    assert forall id :: id in records' <==> id in s.records || id == rec.id;
  }

  /** A correction that does not reopen a stretch in which its target was already invalid. */
  predicate ReopensNothing(s: Store, corrects: Option<Id>, made: Time) {
    corrects.Some? && corrects.value in s.records ==>
      var prior := s.records[corrects.value];
      prior.invalidAt.None? || made <= prior.invalidAt.value || made <= prior.validAt
  }

  /**
   * Bitemporal history is stable: a write changes no answer about any time before it exactly when
   * its target was still valid (or the write reopens no past stretch of it).
   */
  lemma HistoryIsStable(s: Store, rec: Record, corrects: Option<Id>, at: Time)
    requires rec.id !in s.records && rec.invalidAt.None? && rec.validAt <= at
    requires Written(s, rec, corrects, at).Ok?
    ensures (forall t: Time :: t < rec.validAt ==>
             ValidAt(Written(s, rec, corrects, at).value.records, t) == ValidAt(s.records, t))
      <==> ReopensNothing(s, corrects, rec.validAt)
  {
    var records' := Written(s, rec, corrects, at).value.records;
    if ReopensNothing(s, corrects, rec.validAt) {
      forall t: Time | t < rec.validAt ensures ValidAt(records', t) == ValidAt(s.records, t) {
        SameAnswers(s, rec, corrects, at, t);
      }
    } else {
      var prior := s.records[corrects.value];
      var t := if prior.validAt <= prior.invalidAt.value then prior.invalidAt.value else prior.validAt;
      assert corrects.value in ValidAt(records', t) && corrects.value !in ValidAt(s.records, t);
    }
  }

  /** The probe only ever corrects a record that is still valid, so it reopens nothing. */
  lemma ProbeReopensNothing(s: Store, cand: Candidate, likely: Option<Id>, made: Time)
    requires Indexed(s) && cand.corrects.None?
    ensures ReopensNothing(s, Probed(s, cand, likely).corrects, made)
  {
  }

  lemma SameAnswers(s: Store, rec: Record, corrects: Option<Id>, at: Time, t: Time)
    requires rec.id !in s.records && rec.validAt <= at && t < rec.validAt
    requires Written(s, rec, corrects, at).Ok? && ReopensNothing(s, corrects, rec.validAt)
    ensures ValidAt(Written(s, rec, corrects, at).value.records, t) == ValidAt(s.records, t)
  {
    hide Normal, NormalItems;
    var records' := Written(s, rec, corrects, at).value.records;
    forall id ensures id in ValidAt(records', t) <==> id in ValidAt(s.records, t) {
      assert id in records' <==> id in s.records || id == rec.id;
    }
  }

  /** `chain[i + 1]` supersedes `chain[i]`, and all are still there. */
  predicate Chain(records: map<Id, Record>, chain: seq<Id>) {
    && chain != []
    && (forall i :: 0 <= i < |chain| ==> chain[i] in records)
    && (forall i :: 0 <= i < |chain| - 1 ==> records[chain[i + 1]].supersedes == Some(chain[i]))
  }

  /** Along a chain some member is valid at every time from its first member's start to its last one's end. */
  lemma {:induction false} ChainCovers(records: map<Id, Record>, chain: seq<Id>, t: Time)
    requires Linked(records) && Chain(records, chain) && records[chain[0]].validAt <= t
    requires var end := records[chain[|chain| - 1]].invalidAt; end.Some? ==> t < end.value
    ensures exists i :: 0 <= i < |chain| && IsValidAt(records[chain[i]], t)
  {
    var k := LatestStarted(records, chain, t, |chain| - 1);
    if k + 1 < |chain| {
      assert records[chain[k + 1]].supersedes == Some(chain[k]);
    }
    assert IsValidAt(records[chain[k]], t);
  }

  /** The last member up to `k` to have started by `t`. */
  lemma {:induction false} LatestStarted(records: map<Id, Record>, chain: seq<Id>, t: Time, k: nat) returns (i: nat)
    requires Chain(records, chain) && k < |chain| && records[chain[0]].validAt <= t
    requires k + 1 < |chain| ==> t < records[chain[k + 1]].validAt
    ensures i <= k && records[chain[i]].validAt <= t
    ensures i + 1 < |chain| ==> t < records[chain[i + 1]].validAt
    decreases k
  {
    if records[chain[k]].validAt <= t {
      i := k;
    } else {
      i := LatestStarted(records, chain, t, k - 1);
    }
  }
}
