/** The gate's invariants over every run of its operations. */
module GateRuns {
  import opened Prelude
  import opened Frontmatter
  import opened Scopes
  import opened Records
  import opened GateModel
  import opened GateSafety

  datatype Action =
    | Submits(cand: Candidate, likely: Option<Id>, author: string, qid: string, stamp: Stamp)
    | Reviews(qid: string, approve: bool, stamp: Stamp)
    | Scans(order: seq<Record>, draw: Record -> Draw)
    | FeedsBack(id: Id, telemetry: Telemetry)
    | Forgets(id: Id)
    | Writes(rec: Record, corrects: Option<Id>, at: Time)
    | Rebuilds

  function After(s: Store, rules: Policies, cfg: Graduation, a: Action): Store {
    match a
    case Submits(cand, likely, author, qid, stamp) => Submit(s, rules, cand, likely, author, qid, stamp).store
    case Reviews(qid, approve, stamp) => Reviewed(s, qid, approve, stamp).store
    case Scans(order, draw) => Graduate(s, rules, cfg, order, draw)
    case FeedsBack(id, telemetry) => FedBack(s, id, telemetry).store
    case Forgets(id) => Forgotten(s, id).store
    case Writes(rec, corrects, at) => (match Written(s, rec, corrects, at) case Ok(s') => s' case Err => s)
    case Rebuilds => s.(index := Rebuilt(s.records))
  }

  /** The clock once the action is over. */
  function Clock(now: Time, a: Action): Time {
    match a
    case Submits(_, _, _, _, stamp) => stamp.at
    case Reviews(_, _, stamp) => stamp.at
    case Writes(_, _, at) => at
    case _ => now
  }

  predicate CleanText(s: string) {
    '\r' !in s
  }

  predicate CleanCandidate(cand: Candidate) {
    NoReturns(cand.tags) && NoReturns(cand.entities) && (cand.trigger.Some? ==> CleanText(cand.trigger.value))
  }

  /** A commit's id was never used, and its clock readings follow the last ones. */
  predicate FreshStamp(s: Store, now: Time, stamp: Stamp) {
    Fresh(s.records, stamp.id) && CleanText(stamp.id) && now <= stamp.made <= stamp.at
  }

  /** What a run may do: fresh ids, a clock that does not go back, no carriage returns, no hand-made markers. */
  predicate Allowed(s: Store, now: Time, a: Action) {
    match a
    case Submits(cand, _, author, _, stamp) =>
      CleanCandidate(cand) && CleanText(author) && FromTags(cand.tags) == {} && FreshStamp(s, now, stamp)
    case Reviews(_, _, stamp) => FreshStamp(s, now, stamp)
    case Scans(order, _) => Listed(s, order)
    case Writes(rec, corrects, at) =>
      && Fresh(s.records, rec.id) && Clean(rec) && FromTags(rec.tags) == {}
      && rec.invalidAt.None? && rec.supersedes.None? && now <= rec.validAt <= at
    case _ => true
  }

  /** A listing of the vault's records, each once. */
  predicate Listed(s: Store, order: seq<Record>) {
    && (forall i :: 0 <= i < |order| ==> order[i].id in s.records && s.records[order[i].id] == order[i])
    && (forall i, j :: 0 <= i < j < |order| ==> order[i].id != order[j].id)
  }

  ghost predicate CleanTriggers(cfg: Graduation) {
    forall r :: CleanText(cfg.trigger(r))
  }

  predicate CleanQueue(queue: seq<QueueItem>) {
    forall i :: 0 <= i < |queue| ==> CleanCandidate(queue[i].candidate) && CleanText(queue[i].author)
  }

  predicate CleanVault(records: map<Id, Record>) {
    forall id :: id in records ==> Clean(records[id])
  }

  predicate Core(s: Store, now: Time) {
    && Indexed(s) && CleanVault(s.records) && CleanQueue(s.queue)
    && MarkedOnce(s) && Timely(s.records, now) && Linked(s.records)
  }

  // -------------------------------------------------------------------------
  // One action
  // -------------------------------------------------------------------------

  lemma LinkingIsClean(s: Store, rec: Record, corrects: Option<Id>, at: Time)
    requires OwnKeys(s.records) && CleanVault(s.records) && Clean(rec) && Written(s, rec, corrects, at).Ok?
    ensures Clean(Linking(rec, corrects))
  {
    if corrects.Some? {
      assert Clean(s.records[corrects.value]);
    }
  }

  lemma WriteKeepsClean(s: Store, rec: Record, corrects: Option<Id>, at: Time)
    requires CleanVault(s.records) && Clean(Linking(rec, corrects)) && Written(s, rec, corrects, at).Ok?
    ensures CleanVault(Written(s, rec, corrects, at).value.records)
  {
    hide NoReturns, NormalRecord;
    RowsAgreeWhenClean(Linking(rec, corrects));
  }

  lemma WriteKeepsCore(s: Store, rec: Record, corrects: Option<Id>, at: Time, now: Time)
    requires Core(s, now) && Fresh(s.records, rec.id) && Clean(rec) && Unmarked(s, rec.tags)
    requires rec.invalidAt.None? && rec.supersedes.None? && now <= rec.validAt <= at
    requires Written(s, rec, corrects, at).Ok?
    ensures Core(Written(s, rec, corrects, at).value, at)
  {
    hide Clean, MarkedOnce, Unmarked, Linked, Timely, Indexed, CleanQueue, CleanVault;
    assert OwnKeys(s.records) by { IndexedHasOwnKeys(s); }
    LinkingIsClean(s, rec, corrects, at);
    WriteKeepsIndex(s, rec, corrects, at);
    WriteKeepsClean(s, rec, corrects, at);
    WriteKeepsMarks(s, rec, corrects, at);
    WriteKeepsTime(s, rec, corrects, at, now);
  }

  lemma IndexedHasOwnKeys(s: Store)
    requires Indexed(s)
    ensures OwnKeys(s.records)
  {
  }

  lemma LaterIsTimely(records: map<Id, Record>, now: Time, later: Time)
    requires Timely(records, now) && now <= later
    ensures Timely(records, later)
  {
  }

  lemma NewRecordIsClean(cand: Candidate, author: string, stamp: Stamp)
    requires CleanCandidate(cand) && CleanText(author) && CleanText(stamp.id)
    ensures Clean(NewRecord(cand, author, stamp))
  {
  }

  lemma CommitKeepsCore(s: Store, cand: Candidate, author: string, stamp: Stamp, now: Time)
    requires Core(s, now) && FreshStamp(s, now, stamp)
    requires CleanCandidate(cand) && CleanText(author) && Unmarked(s, cand.tags)
    ensures Core(Commit(s, cand, author, stamp).store, stamp.at)
  {
    hide Clean, MarkedOnce, Unmarked, Linked, Indexed, CleanQueue, CleanVault, Written, Timely, Fresh;
    var rec := NewRecord(cand, author, stamp);
    NewRecordIsClean(cand, author, stamp);
    LaterIsTimely(s.records, now, stamp.at);
    if Written(s, rec, cand.corrects, stamp.at).Ok? {
      WriteKeepsCore(s, rec, cand.corrects, stamp.at, now);
    }
  }

  lemma NoMarkersIsUnmarked(s: Store, tags: seq<string>)
    requires FromTags(tags) == {}
    ensures Unmarked(s, tags)
  {
  }

  lemma QueueKeepsCore(s: Store, item: QueueItem, now: Time)
    requires Core(s, now) && CleanCandidate(item.candidate) && CleanText(item.author)
      && Unmarked(s, item.candidate.tags)
    ensures Core(s.(queue := s.queue + [item]), now)
  {
    hide MarkedOnce, Unmarked, Linked, Timely, CleanVault, CleanCandidate;
    QueueKeepsMarks(s, item);
  }

  lemma SubmitKeepsCore(s: Store, rules: Policies, cand: Candidate, likely: Option<Id>, author: string, qid: string,
                        stamp: Stamp, now: Time)
    requires Core(s, now) && FreshStamp(s, now, stamp)
    requires CleanCandidate(cand) && CleanText(author) && Unmarked(s, cand.tags)
    ensures Core(Submit(s, rules, cand, likely, author, qid, stamp).store, stamp.at)
  {
    hide MarkedOnce, Unmarked, Linked, Indexed, CleanQueue, CleanVault, Timely, Fresh, IsDuplicate, Commit, Likely;
    LaterIsTimely(s.records, now, stamp.at);
    var probed := Probed(s, cand, likely);
    CommitKeepsCore(s, probed, author, stamp, now);
    QueueKeepsCore(s, QueueItem(qid, author, stamp.made, probed), now);
  }

  lemma UnqueueKeepsCore(s: Store, i: nat, now: Time)
    requires Core(s, now) && i < |s.queue|
    ensures var s' := s.(queue := s.queue[..i] + s.queue[i + 1..]);
      && Core(s', now) && Unmarked(s', s.queue[i].candidate.tags)
      && CleanCandidate(s.queue[i].candidate) && CleanText(s.queue[i].author)
  {
    hide MarkedOnce, Unmarked, Linked, Timely, CleanVault, CleanCandidate, CleanText;
    UnqueueKeepsMarks(s, i);
  }

  lemma ReviewKeepsCore(s: Store, qid: string, approve: bool, stamp: Stamp, now: Time)
    requires Core(s, now) && FreshStamp(s, now, stamp)
    ensures Core(Reviewed(s, qid, approve, stamp).store, stamp.at)
  {
    hide MarkedOnce, Unmarked, Linked, Indexed, CleanQueue, CleanVault, Timely, Fresh, IsDuplicate, Commit;
    LaterIsTimely(s.records, now, stamp.at);
    var at := Position(s.queue, qid);
    if at.Some? {
      var i := at.value;
      var s' := s.(queue := s.queue[..i] + s.queue[i + 1..]);
      UnqueueKeepsCore(s, i, now);
      CommitKeepsCore(s', s.queue[i].candidate, s.queue[i].author, stamp, now);
    }
  }

  lemma ShapeKeepsMarks(s: Store, s': Store)
    requires MarkedOnce(s) && s'.queue == s.queue && s'.records.Keys == s.records.Keys
    requires forall id :: id in s.records ==> s'.records[id].tags == s.records[id].tags
    ensures MarkedOnce(s')
  {
    hide FromTags;
  }

  lemma ShapeKeepsTime(records: map<Id, Record>, records': map<Id, Record>, now: Time)
    requires Timely(records, now) && Linked(records) && records'.Keys == records.Keys
    requires forall id :: id in records ==>
      && records'[id].validAt == records[id].validAt && records'[id].invalidAt == records[id].invalidAt
      && records'[id].supersedes == records[id].supersedes
    ensures Timely(records', now) && Linked(records')
  {
  }

  lemma TelemetryIsClean(r: Record, t: Telemetry)
    requires Clean(r)
    ensures Clean(WithTelemetry(r, t))
  {
  }

  lemma FeedbackKeepsCore(s: Store, id: Id, t: Telemetry, now: Time)
    requires Core(s, now)
    ensures Core(FedBack(s, id, t).store, now)
  {
    hide MarkedOnce, Timely, Linked, CleanQueue, Clean, Indexed;
    FeedbackKeepsIndex(s, id, t);
    if id in s.records {
      TelemetryIsClean(s.records[id], t);
      ShapeKeepsMarks(s, FedBack(s, id, t).store);
      ShapeKeepsTime(s.records, FedBack(s, id, t).store.records, now);
    }
  }

  lemma FewerKeepMarks(s: Store, id: Id)
    requires MarkedOnce(s)
    ensures MarkedOnce(s.(records := s.records - {id}, index := Without(s.index, id)))
  {
    hide FromTags, NoShared;
  }

  lemma ForgetKeepsCore(s: Store, id: Id, now: Time)
    requires Core(s, now)
    ensures Core(Forgotten(s, id).store, now)
  {
    hide MarkedOnce, CleanQueue, Clean, Indexed;
    ForgetKeepsIndex(s, id);
    FewerKeepMarks(s, id);
  }

  // -------------------------------------------------------------------------
  // The graduation scan
  // -------------------------------------------------------------------------

  lemma GraduationMarker(cfg: Graduation, r: Record)
    ensures FromTags(GraduationOf(cfg, r).tags) == {Marker(r.id)}
  {
    var tags := GraduationOf(cfg, r).tags;
    assert tags[1] == Marker(r.id) && FROM <= tags[1];
    assert tags[0][0] == 'g';
  }

  lemma GraduationIsClean(cfg: Graduation, r: Record)
    requires CleanTriggers(cfg) && Clean(r)
    ensures CleanCandidate(GraduationOf(cfg, r))
  {
    var tags := GraduationOf(cfg, r).tags;
    assert '\r' !in tags[0] && '\r' !in tags[1];
  }

  /** A skill candidate is queued or turned away, never committed. */
  lemma SkillIsQueued(s: Store, rules: Policies, cand: Candidate, likely: Option<Id>, author: string, qid: string,
                      stamp: Stamp)
    requires cand.kind == Skill
    ensures var s' := Submit(s, rules, cand, likely, author, qid, stamp).store;
      && s'.records == s.records && s'.index == s.index
      && (s' == s || s' == s.(queue := s.queue + [QueueItem(qid, author, stamp.made, Probed(s, cand, likely))]))
      && (var o := Submit(s, rules, cand, likely, author, qid, stamp).outcome; o.Queued? || o.RejectedDuplicate?)
      && Probed(s, cand, likely).tags == cand.tags && CleanCandidate(Probed(s, cand, likely)) == CleanCandidate(cand)
  {
    hide IsDuplicate, Likely;
  }

  /** Markers still to be given out are not taken yet. */
  predicate Untaken(s: Store, order: seq<Record>, already: set<string>) {
    forall i :: 0 <= i < |order| && Marker(order[i].id) !in already ==> Marker(order[i].id) !in Marked(s)
  }

  lemma MarkersDiffer(a: Id, b: Id)
    ensures Marker(a) == Marker(b) <==> a == b
  {
    assert Marker(a)[|FROM|..] == a && Marker(b)[|FROM|..] == b;
  }

  lemma MarkedMore(s: Store, item: QueueItem, m: string)
    requires m !in FromTags(item.candidate.tags) && m !in Marked(s)
    ensures m !in Marked(s.(queue := s.queue + [item]))
  {
    hide FromTags;
    var s' := s.(queue := s.queue + [item]);
    forall i | 0 <= i < |s'.queue| ensures m !in FromTags(s'.queue[i].candidate.tags) {
      if i < |s.queue| {
        assert FromTags(s.queue[i].candidate.tags) <= Marked(s);
      }
    }
    forall id | id in s.records ensures m !in FromTags(s.records[id].tags) {
      assert FromTags(s.records[id].tags) <= Marked(s);
    }
  }

  /** One submission of the scan. */
  lemma ScanOne(s: Store, rules: Policies, cfg: Graduation, order: seq<Record>, already: set<string>, d: Draw,
                now: Time)
    requires Core(s, now) && CleanTriggers(cfg) && order != [] && Listed(s, order) && Untaken(s, order, already)
    requires Graduates(cfg, order[0], already)
    ensures var s' := Submit(s, rules, GraduationOf(cfg, order[0]), d.likely, order[0].author, d.qid, d.stamp).store;
      Core(s', now) && s'.records == s.records && Untaken(s', order[1..], already)
  {
    hide MarkedOnce, Linked, Indexed, CleanQueue, Timely, Submit, Marked, Unmarked, FromTags, Clean, NoReturns;
    var r := order[0];
    var cand := GraduationOf(cfg, r);
    assert Clean(r);
    AuthorIsClean(r);
    GraduationIsClean(cfg, r);
    GraduationMarker(cfg, r);
    UnmarkedIs(s, cand.tags);
    SkillIsQueued(s, rules, cand, d.likely, r.author, d.qid, d.stamp);
    var s' := Submit(s, rules, cand, d.likely, r.author, d.qid, d.stamp).store;
    if s' != s {
      var c := Probed(s, cand, d.likely);
      QueueKeepsCore(s, QueueItem(d.qid, r.author, d.stamp.made, c), now);
      forall i | 0 <= i < |order[1..]| && Marker(order[1..][i].id) !in already
        ensures Marker(order[1..][i].id) !in Marked(s') {
        assert order[1..][i] == order[i + 1];
        MarkersDiffer(r.id, order[i + 1].id);
        MarkedMore(s, QueueItem(d.qid, r.author, d.stamp.made, c), Marker(order[i + 1].id));
      }
    } else {
      UntakenTail(s, order, already);
    }
  }

  lemma AuthorIsClean(r: Record)
    requires Clean(r)
    ensures CleanText(r.author)
  {
  }

  lemma UntakenTail(s: Store, order: seq<Record>, already: set<string>)
    requires order != [] && Untaken(s, order, already)
    ensures Untaken(s, order[1..], already)
  {
    hide Marked;
    forall i | 0 <= i < |order[1..]| ensures order[1..][i] == order[i + 1] {
    }
  }

  lemma ListedTail(s: Store, s': Store, order: seq<Record>)
    requires order != [] && Listed(s, order) && s'.records == s.records
    ensures Listed(s', order[1..])
  {
    forall i | 0 <= i < |order[1..]| ensures order[1..][i] == order[i + 1] {
    }
  }

  lemma {:induction false} ScanKeepsCore(s: Store, rules: Policies, cfg: Graduation, order: seq<Record>,
                                         already: set<string>,
                                         draw: Record -> Draw, now: Time)
    requires Core(s, now) && CleanTriggers(cfg) && Listed(s, order) && Untaken(s, order, already)
    ensures var s' := GraduateAll(s, rules, cfg, order, already, draw); Core(s', now) && s'.records == s.records
    decreases |order|
  {
    hide Core, CleanTriggers, Listed, Untaken, Submit, Graduates;
    if order != [] {
      var r := order[0];
      var s' := s;
      if Graduates(cfg, r, already) {
        ScanOne(s, rules, cfg, order, already, draw(r), now);
        s' := Submit(s, rules, GraduationOf(cfg, r), draw(r).likely, r.author, draw(r).qid, draw(r).stamp).store;
      } else {
        UntakenTail(s, order, already);
      }
      ListedTail(s, s', order);
      ScanKeepsCore(s', rules, cfg, order[1..], already, draw, now);
    }
  }

  // -------------------------------------------------------------------------
  // Every action
  // -------------------------------------------------------------------------

  lemma ActionKeepsCore(s: Store, rules: Policies, cfg: Graduation, now: Time, a: Action)
    requires Core(s, now) && CleanTriggers(cfg) && Allowed(s, now, a)
    ensures Core(After(s, rules, cfg, a), Clock(now, a))
  {
    hide Submit, Reviewed, FedBack, Forgotten, Written, GraduateAll, MarkedOnce, Linked, Timely, CleanQueue, CleanVault,
      Unmarked, FromTags;
    match a
    case Submits(cand, likely, author, qid, stamp) =>
      NoMarkersIsUnmarked(s, cand.tags);
      SubmitKeepsCore(s, rules, cand, likely, author, qid, stamp, now);
    case Reviews(qid, approve, stamp) => ReviewKeepsCore(s, qid, approve, stamp, now);
    case Scans(order, draw) => ScanKeepsCore(s, rules, cfg, order, Marked(s), draw, now);
    case FeedsBack(id, telemetry) => FeedbackKeepsCore(s, id, telemetry, now);
    case Forgets(id) => ForgetKeepsCore(s, id, now);
    case Writes(rec, corrects, at) =>
      NoMarkersIsUnmarked(s, rec.tags);
      LaterIsTimely(s.records, now, at);
      if Written(s, rec, corrects, at).Ok? {
        WriteKeepsCore(s, rec, corrects, at, now);
      }
    case Rebuilds =>
  }

  lemma ActionKeepsNoDuplicates(s: Store, rules: Policies, cfg: Graduation, now: Time, a: Action)
    requires Core(s, now) && CleanTriggers(cfg) && Allowed(s, now, a) && NoDuplicates(s.records) && !a.Writes?
    ensures NoDuplicates(After(s, rules, cfg, a).records)
  {
    hide CleanQueue, CleanVault, MarkedOnce, Timely, Linked, IsDuplicate, Likely, FromTags, Commit, Listed;
    match a
    case Submits(cand, likely, author, qid, stamp) =>
      ProbeKeepsDuplicate(s, cand, likely);
      if !IsDuplicate(s, cand) {
        CommitKeepsNoDuplicates(s, Probed(s, cand, likely), author, stamp);
      }
    case Reviews(qid, approve, stamp) =>
      var at := Position(s.queue, qid);
      if at.Some? {
        var s' := s.(queue := s.queue[..at.value] + s.queue[at.value + 1..]);
        var item := s.queue[at.value];
        if !IsDuplicate(s', item.candidate) {
          CommitKeepsNoDuplicates(s', item.candidate, item.author, stamp);
        }
      }
    case Scans(order, draw) => ScanStandsStill(s, rules, cfg, order, draw, now);
    case _ =>
  }

  lemma ScanStandsStill(s: Store, rules: Policies, cfg: Graduation, order: seq<Record>, draw: Record -> Draw, now: Time)
    requires Core(s, now) && CleanTriggers(cfg) && Listed(s, order)
    ensures Graduate(s, rules, cfg, order, draw).records == s.records
  {
    hide Core, GraduateAll;
    ScanKeepsCore(s, rules, cfg, order, Marked(s), draw, now);
  }

  lemma ProbeKeepsDuplicate(s: Store, cand: Candidate, likely: Option<Id>)
    ensures IsDuplicate(s, Probed(s, cand, likely)) == IsDuplicate(s, cand)
  {
  }

  // -------------------------------------------------------------------------
  // Runs
  // -------------------------------------------------------------------------

  predicate LegalRun(s: Store, rules: Policies, cfg: Graduation, now: Time, actions: seq<Action>)
    decreases |actions|
  {
    actions == [] ||
    (Allowed(s, now, actions[0]) && LegalRun(After(s, rules, cfg, actions[0]), rules, cfg, Clock(now, actions[0]),
                                             actions[1..]))
  }

  function RunOf(s: Store, rules: Policies, cfg: Graduation, actions: seq<Action>): Store
    decreases |actions|
  {
    if actions == [] then s else RunOf(After(s, rules, cfg, actions[0]), rules, cfg, actions[1..])
  }

  predicate Gated(actions: seq<Action>) {
    forall i :: 0 <= i < |actions| ==> !actions[i].Writes?
  }

  lemma {:induction false} RunKeeps(s: Store, rules: Policies, cfg: Graduation, now: Time, actions: seq<Action>)
    returns (later: Time)
    requires Core(s, now) && CleanTriggers(cfg) && LegalRun(s, rules, cfg, now, actions)
    ensures Core(RunOf(s, rules, cfg, actions), later)
    ensures NoDuplicates(s.records) && Gated(actions) ==> NoDuplicates(RunOf(s, rules, cfg, actions).records)
    decreases |actions|
  {
    hide Core, CleanTriggers, Allowed, After, NoDuplicates;
    later := now;
    if actions != [] {
      ActionKeepsCore(s, rules, cfg, now, actions[0]);
      if NoDuplicates(s.records) && Gated(actions) {
        ActionKeepsNoDuplicates(s, rules, cfg, now, actions[0]);
      }
      later := RunKeeps(After(s, rules, cfg, actions[0]), rules, cfg, Clock(now, actions[0]), actions[1..]);
    }
  }

  const EMPTY := Store(map[], Index(map[], map[]), [])

  /**
   * After any run of submissions, reviews, graduation scans, feedback, forgets, direct writes and
   * rebuilds, from an empty vault: the index is exactly what a rebuild would give, each graduation
   * marker is on at most one queue item or record, and every supersession hands over without a gap;
   * without direct writes no two valid records of a scope have the same trimmed body.
   */
  lemma AfterAnyRun(rules: Policies, cfg: Graduation, now: Time, actions: seq<Action>)
    requires CleanTriggers(cfg) && LegalRun(EMPTY, rules, cfg, now, actions)
    ensures var s := RunOf(EMPTY, rules, cfg, actions);
      && s.index == Rebuilt(s.records) && MarkedOnce(s) && Linked(s.records)
      && (Gated(actions) ==> NoDuplicates(s.records))
  {
    hide LegalRun, RunOf, MarkedOnce, Linked, NoDuplicates;
    EmptyIsCore(now);
    var later := RunKeeps(EMPTY, rules, cfg, now, actions);
    CoreMeans(RunOf(EMPTY, rules, cfg, actions), later);
  }

  lemma EmptyIsCore(now: Time)
    ensures Core(EMPTY, now) && NoDuplicates(EMPTY.records)
  {
    assert Rebuilt(map[]) == Index(map[], map[]);
  }

  lemma CoreMeans(s: Store, now: Time)
    requires Core(s, now)
    ensures s.index == Rebuilt(s.records) && MarkedOnce(s) && Linked(s.records)
  {
    hide MarkedOnce, Linked, Rebuilt;
  }

  // -------------------------------------------------------------------------
  // History over runs
  // -------------------------------------------------------------------------

  /** The record whose end the action moves, if it corrects one. */
  function Corrected(s: Store, rules: Policies, a: Action): (r: Option<Id>)
    ensures r.Some? ==> r.value in s.records
  {
    var target := match a
      case Submits(cand, likely, _, _, _) =>
        if IsDuplicate(s, cand) || cand.kind == Skill || PolicyFor(rules, cand.scope) != Auto then None
        else Probed(s, cand, likely).corrects
      case Reviews(qid, approve, _) =>
        var at := Position(s.queue, qid);
        if !approve || at.None? || IsDuplicate(s, s.queue[at.value].candidate) then None
        else s.queue[at.value].candidate.corrects
      case Writes(_, corrects, _) => corrects
      case _ => None;
    if target.Some? && target.value in s.records then target else None
  }

  /** The action makes a record valid again at `t`, a time it had already ended by. */
  predicate Reopens(s: Store, rules: Policies, a: Action, t: Time) {
    var target := Corrected(s, rules, a);
    target.Some? && ReopensAt(s.records[target.value], t)
  }

  predicate NeverReopens(s: Store, rules: Policies, cfg: Graduation, actions: seq<Action>, t: Time)
    decreases |actions|
  {
    actions == [] ||
    (!Reopens(s, rules, actions[0], t) && NeverReopens(After(s, rules, cfg, actions[0]), rules, cfg, actions[1..], t))
  }

  predicate ForgetsNothing(actions: seq<Action>) {
    forall i :: 0 <= i < |actions| ==> !actions[i].Forgets?
  }

  lemma CommitAdds(s: Store, cand: Candidate, author: string, stamp: Stamp, t: Time)
    requires stamp.id !in s.records && t < stamp.made <= stamp.at
    ensures ValidAt(Commit(s, cand, author, stamp).store.records, t) ==
      ValidAt(s.records, t) +
      if cand.corrects.Some? && cand.corrects.value in s.records && ReopensAt(s.records[cand.corrects.value], t)
      then {cand.corrects.value} else {}
  {
    hide Written, ReopensAt, ValidAt;
    var rec := NewRecord(cand, author, stamp);
    if Written(s, rec, cand.corrects, stamp.at).Ok? {
      WriteAdds(s, rec, cand.corrects, stamp.at, t);
    }
    NoTargetNoCommit(s, rec, cand.corrects, stamp.at);
  }

  lemma NoTargetNoCommit(s: Store, rec: Record, corrects: Option<Id>, at: Time)
    ensures Written(s, rec, corrects, at).Ok? <==> (corrects.Some? ==> corrects.value in s.records)
  {
    hide NormalRecord, Ingest;
  }

  lemma FeedbackKeepsAnswers(s: Store, id: Id, telemetry: Telemetry, t: Time)
    ensures ValidAt(FedBack(s, id, telemetry).store.records, t) == ValidAt(s.records, t)
  {
  }

  /** What one action adds to the answer about an earlier time: the record it reopens there, if any. */
  lemma ActionAdds(s: Store, rules: Policies, cfg: Graduation, now: Time, a: Action, t: Time)
    requires Core(s, now) && CleanTriggers(cfg) && Allowed(s, now, a) && !a.Forgets? && t < now
    ensures ValidAt(After(s, rules, cfg, a).records, t) ==
      ValidAt(s.records, t) + if Reopens(s, rules, a, t) then {Corrected(s, rules, a).value} else {}
  {
    hide Core, ValidAt, ReopensAt, IsDuplicate, Likely, Commit, Written, GraduateAll, Listed, FromTags, Clean;
    match a
    case Submits(cand, likely, author, qid, stamp) => CommitAdds(s, Probed(s, cand, likely), author, stamp, t);
    case Reviews(qid, approve, stamp) =>
      var at := Position(s.queue, qid);
      if at.Some? {
        var cand := s.queue[at.value].candidate;
        SameButQueue(s, Unqueued(s, at.value), cand);
        CommitAdds(Unqueued(s, at.value), cand, s.queue[at.value].author, stamp, t);
      }
    case Scans(order, draw) => ScanStandsStill(s, rules, cfg, order, draw, now);
    case FeedsBack(id, telemetry) => FeedbackKeepsAnswers(s, id, telemetry, t);
    case Writes(rec, corrects, at) =>
      NoTargetNoCommit(s, rec, corrects, at);
      if Written(s, rec, corrects, at).Ok? {
        WriteAdds(s, rec, corrects, at, t);
      }
    case Rebuilds =>
  }

  /** What is reopened was not an answer before. */
  lemma ReopenedIsNew(s: Store, rules: Policies, a: Action, t: Time)
    requires Reopens(s, rules, a, t)
    ensures Corrected(s, rules, a).value !in ValidAt(s.records, t)
  {
    hide Corrected;
  }

  lemma ClockAdvances(s: Store, now: Time, a: Action)
    requires Allowed(s, now, a)
    ensures now <= Clock(now, a)
  {
  }

  /**
   * Bitemporal history over runs: while nothing is forgotten, the records valid at a time before the run
   * only ever become more, and they stay the same if and only if no correction reopens one there.
   */
  lemma {:induction false} HistoryOverRun(s: Store, rules: Policies, cfg: Graduation, now: Time, actions: seq<Action>,
                                          t: Time)
    requires Core(s, now) && CleanTriggers(cfg) && LegalRun(s, rules, cfg, now, actions)
    requires ForgetsNothing(actions) && t < now
    ensures ValidAt(s.records, t) <= ValidAt(RunOf(s, rules, cfg, actions).records, t)
    ensures ValidAt(RunOf(s, rules, cfg, actions).records, t) == ValidAt(s.records, t) <==>
              NeverReopens(s, rules, cfg, actions, t)
    decreases |actions|
  {
    hide Core, CleanTriggers, Allowed, After, ValidAt, Reopens, Corrected;
    if actions != [] {
      var s' := After(s, rules, cfg, actions[0]);
      ActionKeepsCore(s, rules, cfg, now, actions[0]);
      ActionAdds(s, rules, cfg, now, actions[0], t);
      ClockAdvances(s, now, actions[0]);
      HistoryOverRun(s', rules, cfg, Clock(now, actions[0]), actions[1..], t);
      if Reopens(s, rules, actions[0], t) {
        ReopenedIsNew(s, rules, actions[0], t);
      }
    }
  }

  /** After any run from an empty vault a chain of supersessions covers its whole stretch of time. */
  lemma ChainCoversAfterAnyRun(rules: Policies, cfg: Graduation, now: Time, actions: seq<Action>, chain: seq<Id>,
                               t: Time)
    requires CleanTriggers(cfg) && LegalRun(EMPTY, rules, cfg, now, actions)
    requires var records := RunOf(EMPTY, rules, cfg, actions).records;
      && Chain(records, chain) && records[chain[0]].validAt <= t
      && var end := records[chain[|chain| - 1]].invalidAt; end.Some? ==> t < end.value
    ensures var records := RunOf(EMPTY, rules, cfg, actions).records;
      exists i :: 0 <= i < |chain| && chain[i] in records && IsValidAt(records[chain[i]], t)
  {
    hide LegalRun, RunOf, Linked, MarkedOnce;
    AfterAnyRun(rules, cfg, now, actions);
    ChainCovers(RunOf(EMPTY, rules, cfg, actions).records, chain, t);
  }

  // -------------------------------------------------------------------------
  // A run that loses an approved item
  // -------------------------------------------------------------------------

  const FACT := Candidate(Semantic, User, "a", [], [], ZERO, None, None, None)
  const CORRECTION := Candidate(Semantic, Org, "b", [], [], ZERO, Some("old"), None, None)

  /** A fact is committed, a correction of it is queued for review, and the fact is forgotten meanwhile. */
  const OVERTAKEN := [
    Submits(FACT, None, "", "", Stamp("old", 0, 0)),
    Submits(CORRECTION, None, "", "q", Stamp("new", 0, 0)),
    Forgets("old")]

  lemma FactIsCommitted(cfg: Graduation) returns (s: Store)
    ensures s == After(EMPTY, [], cfg, OVERTAKEN[0]) && s.queue == []
    ensures s.records.Keys == {"old"} && s.records["old"].supersedes.None?
    ensures s.index.rows.Keys == {"old"} && s.index.texts.Keys == {"old"} && s.index.rows["old"].meta.scope == User
  {
    hide Trim, Normal, NormalItems;
    s := After(EMPTY, [], cfg, OVERTAKEN[0]);
    assert FindValid(EMPTY.index, User, BodyHash("a")) == {};
  }

  lemma CorrectionIsQueued(cfg: Graduation, s: Store)
    requires s.index.rows.Keys == {"old"} && s.index.rows["old"].meta.scope == User && s.queue == []
    ensures After(s, [], cfg, OVERTAKEN[1]) == s.(queue := [QueueItem("q", "", 0, CORRECTION)])
  {
    hide Trim, Commit;
    assert FindValid(s.index, Org, BodyHash("b")) == {};
  }

  lemma FactIsForgotten(cfg: Graduation, s: Store)
    requires s.records.Keys == {"old"} && s.index.rows.Keys == {"old"} && s.index.texts.Keys == {"old"}
    ensures After(s, [], cfg, OVERTAKEN[2]) == EMPTY.(queue := s.queue)
  {
    assert s.records - {"old"} == map[] && Without(s.index, "old") == Index(map[], map[]);
  }

  lemma ApprovalFails(s: Store)
    requires s == EMPTY.(queue := [QueueItem("q", "", 0, CORRECTION)])
    ensures Reviewed(s, "q", true, Stamp("new", 0, 0)) == Step(EMPTY, Failed)
  {
    hide Trim, IsDuplicate;
    assert FindValid(s.index, Org, BodyHash("b")) == {} && !IsDuplicate(EMPTY, CORRECTION) by {
      NoDuplicateOfNothing(s, CORRECTION);
      NoDuplicateOfNothing(EMPTY, CORRECTION);
    }
    assert s.queue[..0] + s.queue[1..] == [];
    assert TargetGone(EMPTY.records, CORRECTION);
    LostCommit(EMPTY, CORRECTION, "", Stamp("new", 0, 0));
  }

  lemma NoDuplicateOfNothing(s: Store, cand: Candidate)
    requires s.index == Index(map[], map[])
    ensures !IsDuplicate(s, cand) && FindValid(s.index, cand.scope, BodyHash(cand.body)) == {}
  {
    hide Trim;
    assert FindValid(s.index, cand.scope, BodyHash(cand.body)) == {};
  }

  /** Four steps of a run. */
  lemma FourActions(s: Store, cfg: Graduation, actions: seq<Action>, last: Action, s1: Store, s2: Store, s3: Store)
    requires |actions| == 3 && Allowed(s, 0, actions[0]) && s1 == After(s, [], cfg, actions[0])
      && Clock(0, actions[0]) == 0
    requires Allowed(s1, 0, actions[1]) && s2 == After(s1, [], cfg, actions[1]) && Clock(0, actions[1]) == 0
    requires Allowed(s2, 0, actions[2]) && s3 == After(s2, [], cfg, actions[2]) && Clock(0, actions[2]) == 0
    requires Allowed(s3, 0, last)
    ensures LegalRun(s, [], cfg, 0, actions + [last]) && RunOf(s, [], cfg, actions) == s3
  {
    hide Allowed, After, Clock;
    var all := actions + [last];
    assert all[3..] == [last] && LegalRun(s3, [], cfg, 0, all[3..]) && RunOf(s3, [], cfg, actions[3..]) == s3;
    assert all[2..][1..] == all[3..] && actions[2..][1..] == actions[3..];
    assert LegalRun(s2, [], cfg, 0, all[2..]) && RunOf(s2, [], cfg, actions[2..]) == s3;
    assert all[1..][1..] == all[2..] && actions[1..][1..] == actions[2..];
    assert LegalRun(s1, [], cfg, 0, all[1..]) && RunOf(s1, [], cfg, actions[1..]) == s3;
  }

  /** Approving the correction then fails, and the correction is nowhere any more. */
  lemma LostApprovalIsReachable(cfg: Graduation)
    ensures LegalRun(EMPTY, [], cfg, 0, OVERTAKEN + [Reviews("q", true, Stamp("new", 0, 0))])
    ensures var s := RunOf(EMPTY, [], cfg, OVERTAKEN);
      && s == EMPTY.(queue := [QueueItem("q", "", 0, CORRECTION)])
      && Reviewed(s, "q", true, Stamp("new", 0, 0)) == Step(EMPTY, Failed)
  {
    hide After, LegalRun, RunOf, Reviewed, FromTags;
    var s1 := FactIsCommitted(cfg);
    CorrectionIsQueued(cfg, s1);
    var s2 := After(s1, [], cfg, OVERTAKEN[1]);
    FactIsForgotten(cfg, s2);
    var s3 := After(s2, [], cfg, OVERTAKEN[2]);
    ApprovalFails(s3);
    NoMarkersHere();
    FourActions(EMPTY, cfg, OVERTAKEN, Reviews("q", true, Stamp("new", 0, 0)), s1, s2, s3);
  }

  lemma NoMarkersHere()
    ensures FromTags([]) == {}
  {
  }
}
