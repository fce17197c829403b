/** What each operation of the gate means for vault and queue, in the caller's terms. */
module GateMeaning {
  import opened Prelude
  import opened Frontmatter
  import opened Scopes
  import opened Records
  import opened GateModel
  import opened GateSafety

  // -------------------------------------------------------------------------
  // Policy
  // -------------------------------------------------------------------------

  /** Rule `i` is the first whose pattern matches the scope. */
  predicate FirstMatch(rules: Policies, scope: Scope, i: nat) {
    i < |rules| && rules[i].0(scope) && forall j :: 0 <= j < i ==> !rules[j].0(scope)
  }

  predicate NoMatch(rules: Policies, scope: Scope) {
    forall i :: 0 <= i < |rules| ==> !rules[i].0(scope)
  }

  /** The first matching rule says `policy`; or none matches, and org is reviewed and the rest is not. */
  ghost predicate Rules(rules: Policies, scope: Scope, policy: Policy) {
    || (exists i: nat :: FirstMatch(rules, scope, i) && rules[i].1 == policy)
    || (NoMatch(rules, scope) && (policy == Review <==> scope.Org?))
  }

  lemma {:induction false} FirstMatchDecides(rules: Policies, scope: Scope, i: nat)
    requires FirstMatch(rules, scope, i)
    ensures PolicyFor(rules, scope) == rules[i].1
    decreases i
  {
    if i > 0 {
      assert rules[1..][i - 1] == rules[i] && forall j :: 0 <= j < i - 1 ==> rules[1..][j] == rules[j + 1];
      FirstMatchDecides(rules[1..], scope, i - 1);
    }
  }

  lemma {:induction false} NoMatchDefaults(rules: Policies, scope: Scope)
    requires NoMatch(rules, scope)
    ensures PolicyFor(rules, scope) == if scope.Org? then Review else Auto
    decreases |rules|
  {
    if rules != [] {
      assert forall j :: 0 <= j < |rules[1..]| ==> rules[1..][j] == rules[j + 1];
      NoMatchDefaults(rules[1..], scope);
    }
  }

  lemma {:induction false} SomeMatchIsFirst(rules: Policies, scope: Scope, k: nat)
    requires k <= |rules| && forall j :: 0 <= j < k ==> !rules[j].0(scope)
    ensures NoMatch(rules, scope) || exists i: nat :: FirstMatch(rules, scope, i)
    decreases |rules| - k
  {
    if k < |rules| {
      if rules[k].0(scope) {
        assert FirstMatch(rules, scope, k);
      } else {
        SomeMatchIsFirst(rules, scope, k + 1);
      }
    }
  }

  /** The policy for a scope is the one the rules give, and no other. */
  lemma PolicyIs(rules: Policies, scope: Scope, policy: Policy)
    ensures PolicyFor(rules, scope) == policy <==> Rules(rules, scope, policy)
  {
    SomeMatchIsFirst(rules, scope, 0);
    if i: nat :| FirstMatch(rules, scope, i) {
      FirstMatchDecides(rules, scope, i);
      forall j: nat | FirstMatch(rules, scope, j) ensures rules[j].1 == rules[i].1 {
        FirstMatchDecides(rules, scope, j);
      }
    } else {
      NoMatchDefaults(rules, scope);
    }
  }

  // -------------------------------------------------------------------------
  // Committing
  // -------------------------------------------------------------------------

  /** A record tells what a candidate said, up to carriage returns in its field strings. */
  predicate Tells(r: Record, cand: Candidate, author: string, stamp: Stamp) {
    && r.id == Normal(stamp.id) && r.kind == cand.kind && r.scope == cand.scope && r.author == Normal(author)
    && r.createdAt == stamp.made && r.validAt == stamp.made && r.invalidAt.None?
    && r.supersedes == NormalText(cand.corrects)
    && r.entities == NormalItems(cand.entities) && r.tags == NormalItems(cand.tags) && r.trust == cand.trust
    && r.uses == 0 && r.successes == ZERO && r.lastUsed.None?
    && (if cand.version.Some? then r.version == cand.version
        else if cand.kind.Skill? then r.version == Some(1) else r.version.None?)
    && r.trigger == NormalText(cand.trigger) && r.body == cand.body
  }

  /** What a commit leaves of the other records: the corrected one ends now, the rest stay. */
  predicate OthersAfter(records: map<Id, Record>, records': map<Id, Record>, cand: Candidate, stamp: Stamp) {
    && records'.Keys == records.Keys + {stamp.id}
    && forall id :: id in records && id != stamp.id ==>
         records'[id] == if cand.corrects == Some(id) then records[id].(invalidAt := Some(stamp.at)) else records[id]
  }

  /** A commit fails exactly on a missing target, and otherwise adds one record that tells what the candidate said. */
  predicate CommitsAsTold(s: Store, cand: Candidate, author: string, stamp: Stamp, r: Step) {
    && r.store.queue == s.queue
    && (TargetGone(s.records, cand) ==> r == Step(s, Failed))
    && (!TargetGone(s.records, cand) ==>
          && r.outcome == (if cand.corrects.Some? then SupersededExisting(stamp.id, cand.corrects.value)
                           else Committed(stamp.id))
          && stamp.id in r.store.records && Tells(r.store.records[stamp.id], cand, author, stamp)
          && OthersAfter(s.records, r.store.records, cand, stamp))
  }

  lemma CommitMeans(s: Store, cand: Candidate, author: string, stamp: Stamp)
    requires stamp.id !in s.records
    ensures CommitsAsTold(s, cand, author, stamp, Commit(s, cand, author, stamp))
  {
    hide Normal, NormalItems, RowOf, TextOf;
  }

  // -------------------------------------------------------------------------
  // Submitting
  // -------------------------------------------------------------------------

  /** The record a submission will correct: the one it names, else the probe's pick if that is valid and in scope. */
  function Aim(records: map<Id, Record>, cand: Candidate, likely: Option<Id>): Option<Id> {
    if cand.corrects.Some? then cand.corrects
    else if likely.Some? && likely.value in records && records[likely.value].scope == cand.scope
            && records[likely.value].invalidAt.None? then likely
    else None
  }

  lemma ProbedIs(s: Store, cand: Candidate, likely: Option<Id>)
    requires Indexed(s)
    ensures Probed(s, cand, likely) == cand.(corrects := Aim(s.records, cand, likely))
  {
  }

  /** Skills are reviewed whatever the rules say. */
  ghost predicate NeedsReview(rules: Policies, cand: Candidate) {
    cand.kind.Skill? || Rules(rules, cand.scope, Review)
  }

  /**
   * While the index is that of a rebuild: a submission is rejected exactly when a valid record of the scope
   * has its body; else it is queued, if it needs review, with nothing else changed; else it is committed.
   */
  ghost predicate SubmitsAsTold(s: Store, rules: Policies, cand: Candidate, likely: Option<Id>, author: string,
                                qid: string, stamp: Stamp, r: Step)
  {
    var aimed := cand.(corrects := Aim(s.records, cand, likely));
    Indexed(s) ==>
      if Remembers(s.records, cand) then r == Step(s, RejectedDuplicate)
      else if NeedsReview(rules, cand) then
        r == Step(s.(queue := s.queue + [QueueItem(qid, author, stamp.made, aimed)]), Queued(qid))
      else CommitsAsTold(s, aimed, author, stamp, r)
  }

  lemma SubmitMeans(s: Store, rules: Policies, cand: Candidate, likely: Option<Id>, author: string, qid: string,
                    stamp: Stamp)
    requires stamp.id !in s.records
    ensures SubmitsAsTold(s, rules, cand, likely, author, qid, stamp,
                          Submit(s, rules, cand, likely, author, qid, stamp))
  {
    hide IsDuplicate, Remembers, Probed, Aim, Commit, CommitsAsTold, Indexed, Rules;
    if Indexed(s) {
      DuplicateIsExact(s, cand);
      ProbedIs(s, cand, likely);
      PolicyIs(rules, cand.scope, Review);
      CommitMeans(s, cand.(corrects := Aim(s.records, cand, likely)), author, stamp);
    }
  }

  // -------------------------------------------------------------------------
  // Reviewing
  // -------------------------------------------------------------------------

  predicate FirstItem(queue: seq<QueueItem>, qid: string, i: nat) {
    i < |queue| && queue[i].qid == qid && forall j :: 0 <= j < i ==> queue[j].qid != qid
  }

  lemma {:induction false} PositionIsFirst(queue: seq<QueueItem>, qid: string, i: nat)
    ensures Position(queue, qid) == Some(i) <==> FirstItem(queue, qid, i)
    decreases |queue|
  {
    if queue != [] && queue[0].qid != qid {
      if i > 0 {
        PositionIsFirst(queue[1..], qid, i - 1);
        if FirstItem(queue, qid, i) {
          assert forall j :: 0 <= j < i - 1 ==> queue[1..][j] == queue[j + 1];
        }
        if FirstItem(queue[1..], qid, i - 1) {
          assert forall j :: 0 < j < i ==> queue[j] == queue[1..][j - 1];
        }
      }
    }
  }

  /**
   * A review fails on an unknown id. Else it acts on the first item with the id, which leaves the queue; a
   * rejection does nothing else; an approval, while the index is that of a rebuild, is turned away as a
   * duplicate exactly when a valid record of the scope has the body, and commits what the item says if not.
   */
  ghost predicate ReviewsAsTold(s: Store, qid: string, approve: bool, stamp: Stamp, r: Step) {
    && ((forall i :: 0 <= i < |s.queue| ==> s.queue[i].qid != qid) ==> r == Step(s, Failed))
    && forall i: nat :: FirstItem(s.queue, qid, i) ==>
         var s' := Unqueued(s, i);
         var item := s.queue[i];
         if !approve then r == Step(s', Dropped)
         else Indexed(s) ==>
                if Remembers(s.records, item.candidate) then r == Step(s', RejectedDuplicate)
                else CommitsAsTold(s', item.candidate, item.author, stamp, r)
  }

  lemma ReviewMeans(s: Store, qid: string, approve: bool, stamp: Stamp)
    requires stamp.id !in s.records
    ensures ReviewsAsTold(s, qid, approve, stamp, Reviewed(s, qid, approve, stamp))
  {
    hide IsDuplicate, Remembers, Commit, CommitsAsTold, Indexed;
    forall i: nat | FirstItem(s.queue, qid, i)
      ensures Position(s.queue, qid) == Some(i)
      ensures CommitsAsTold(Unqueued(s, i), s.queue[i].candidate, s.queue[i].author, stamp,
                      Commit(Unqueued(s, i), s.queue[i].candidate, s.queue[i].author, stamp))
      ensures IsDuplicate(Unqueued(s, i), s.queue[i].candidate) == IsDuplicate(s, s.queue[i].candidate)
      ensures Indexed(s) ==> (IsDuplicate(s, s.queue[i].candidate) <==> Remembers(s.records, s.queue[i].candidate))
    {
      PositionIsFirst(s.queue, qid, i);
      SameButQueue(s, Unqueued(s, i), s.queue[i].candidate);
      CommitMeans(Unqueued(s, i), s.queue[i].candidate, s.queue[i].author, stamp);
      if Indexed(s) {
        DuplicateIsExact(s, s.queue[i].candidate);
      }
    }
  }

  // -------------------------------------------------------------------------
  // Graduating
  // -------------------------------------------------------------------------

  /** A marker taken by a queue item or a record. */
  predicate MarkerTaken(s: Store, m: string) {
    && "from:" <= m
    && (|| (exists i :: 0 <= i < |s.queue| && m in s.queue[i].candidate.tags)
        || (exists id :: id in s.records && m in s.records[id].tags))
  }

  lemma TakenIs(s: Store, m: string)
    ensures m in Marked(s) <==> MarkerTaken(s, m)
  {
    forall tags: seq<string> ensures m in FromTags(tags) <==> "from:" <= m && m in tags {
    }
  }

  /** A valid procedure that has proven itself and was not graduated before. */
  predicate Qualifies(cfg: Graduation, r: Record, taken: set<string>) {
    r.kind.Procedural? && r.invalidAt.None? && cfg.proven(r) && "from:" + r.id !in taken
  }

  /** The skill a record graduates to: its scope, entities and trust, marked with where it comes from. */
  function SkillOf(cfg: Graduation, r: Record): Candidate {
    Candidate(Skill, r.scope, cfg.body(r), ["graduated", "from:" + r.id], r.entities, r.trust, None,
              Some(cfg.trigger(r)), Some(1))
  }

  /** The items a scan should queue: one per qualifying record, in order, but for bodies the vault already holds. */
  function Offers(records: map<Id, Record>, cfg: Graduation, order: seq<Record>, taken: set<string>,
                  draw: Record -> Draw): seq<QueueItem>
    decreases |order|
  {
    if order == [] then []
    else
      var r, d := order[0], draw(order[0]);
      (if Qualifies(cfg, r, taken) && !Remembers(records, SkillOf(cfg, r))
       then [QueueItem(d.qid, r.author, d.stamp.made,
                       SkillOf(cfg, r).(corrects := Aim(records, SkillOf(cfg, r), d.likely)))]
       else [])
      + Offers(records, cfg, order[1..], taken, draw)
  }

  lemma OfferOne(s: Store, rules: Policies, cfg: Graduation, r: Record, taken: set<string>, d: Draw)
    requires Indexed(s)
    ensures Graduates(cfg, r, taken) <==> Qualifies(cfg, r, taken)
    ensures var s' := Submit(s, rules, GraduationOf(cfg, r), d.likely, r.author, d.qid, d.stamp).store;
      s' == if Remembers(s.records, SkillOf(cfg, r)) then s
            else s.(queue := s.queue + [QueueItem(d.qid, r.author, d.stamp.made,
                   SkillOf(cfg, r).(corrects := Aim(s.records, SkillOf(cfg, r), d.likely)))])
  {
    hide IsDuplicate, Remembers, Probed, Aim, Commit, Indexed;
    DuplicateIsExact(s, SkillOf(cfg, r));
    ProbedIs(s, SkillOf(cfg, r), d.likely);
  }

  /** A scan queues exactly what it should offer, and does nothing else. */
  lemma {:induction false} ScanMeans(s: Store, rules: Policies, cfg: Graduation, order: seq<Record>, taken: set<string>,
                                     draw: Record -> Draw)
    requires Indexed(s)
    ensures GraduateAll(s, rules, cfg, order, taken, draw) ==
      s.(queue := s.queue + Offers(s.records, cfg, order, taken, draw))
    decreases |order|
  {
    hide Submit, Graduates, Qualifies, Remembers, Aim;
    if order == [] {
      assert s.queue + [] == s.queue;
    } else {
      var r, d := order[0], draw(order[0]);
      OfferOne(s, rules, cfg, r, taken, d);
      var s' := if Graduates(cfg, r, taken)
                then Submit(s, rules, GraduationOf(cfg, r), d.likely, r.author, d.qid, d.stamp).store
                else s;
      ScanMeans(s', rules, cfg, order[1..], taken, draw);
      assert s'.queue + Offers(s.records, cfg, order[1..], taken, draw)
          == s.queue + Offers(s.records, cfg, order, taken, draw);
    }
  }

  /** The scan as it is run: the markers to avoid are those queue items and records carry when it starts. */
  lemma GraduateMeans(s: Store, rules: Policies, cfg: Graduation, order: seq<Record>, taken: set<string>,
                      draw: Record -> Draw)
    requires Indexed(s) && forall m :: m in taken <==> MarkerTaken(s, m)
    ensures Graduate(s, rules, cfg, order, draw) == s.(queue := s.queue + Offers(s.records, cfg, order, taken, draw))
  {
    hide Marked, MarkerTaken, GraduateAll, Offers, Indexed;
    forall m ensures m in taken <==> m in Marked(s) {
      TakenIs(s, m);
    }
    assert taken == Marked(s);
    ScanMeans(s, rules, cfg, order, taken, draw);
  }

  // -------------------------------------------------------------------------
  // What the index tells
  // -------------------------------------------------------------------------

  /** An up-to-date index has one row and one text per record, with all of its columns and words. */
  lemma IndexTells(s: Store, id: Id)
    requires Indexed(s)
    ensures id in s.index.rows <==> id in s.records
    ensures id in s.index.texts <==> id in s.records
    ensures id in s.records ==>
      var r := s.records[id];
      && s.index.rows[id].meta.(body := r.body) == r && s.index.rows[id].bodyHash == Trim(r.body)
      && s.index.texts[id].body == r.body && s.index.texts[id].entities == r.entities
      && s.index.texts[id].tags == r.tags
  {
    hide Trim;
  }

  // -------------------------------------------------------------------------
  // Feedback and forgetting
  // -------------------------------------------------------------------------

  /** Feedback fails on a missing record; else it sets that record's telemetry, in vault and index, and nothing else. */
  lemma FeedbackMeans(s: Store, id: Id, t: Telemetry)
    requires Indexed(s)
    ensures var r := FedBack(s, id, t);
      && (id !in s.records ==> r == Step(s, Failed))
      && (id in s.records ==>
            && r.outcome == Committed(id) && r.store.queue == s.queue && Indexed(r.store)
            && r.store.records.Keys == s.records.Keys
            && (forall e :: e in s.records && e != id ==> r.store.records[e] == s.records[e])
            && var was, now := s.records[id], r.store.records[id];
            && now.uses == t.uses && now.successes == t.successes && now.lastUsed == Some(t.at)
            && now.(uses := was.uses, successes := was.successes, lastUsed := was.lastUsed) == was)
  {
    FeedbackKeepsIndex(s, id, t);
  }

  /** Forgetting fails on a missing record; else that record leaves vault and index, and nothing else does. */
  lemma ForgetMeans(s: Store, id: Id)
    requires Indexed(s)
    ensures var r := Forgotten(s, id);
      && (id !in s.records ==> r == Step(s, Failed))
      && (id in s.records ==>
            && r.outcome == Dropped && r.store.queue == s.queue && Indexed(r.store)
            && r.store.records == map e | e in s.records && e != id :: s.records[e])
  {
    ForgetKeepsIndex(s, id);
  }
}
