/** Keys across rotations, and what repeated cycles reach once local edits stop. */
module SyncConvergence {
  import opened Prelude
  import opened SyncCrypto
  import opened SyncModel
  import opened SyncPhases
  import opened SyncAgreement
  import opened SyncCalls
  import opened SyncSafety
  import opened SyncWorld

  // -------------------------------------------------------------------------
  // Which key a device will use
  // -------------------------------------------------------------------------

  /** A session that device `id` opens now goes by the master key `rmk`. */
  predicate Uses(w: World, id: DeviceId, rmk: Rmk)
    requires id in w.devices
  {
    CallerKey(w, id).Some? && CallerKey(w, id).value.rmk == rmk
  }

  /** One key is current: every device uses it. */
  predicate Keyed(w: World, rmk: Rmk) {
    forall id :: id in w.devices ==> Uses(w, id, rmk)
  }

  lemma KeyedCaller(w: World, rmk: Rmk, id: DeviceId)
    requires Keyed(w, rmk) && id in w.devices
    ensures CallerKey(w, id).Some? && CallerKey(w, id).value.rmk == rmk && OpensManifest(w.shared.blobs, rmk, w.repo)
  {
    assert Uses(w, id, rmk);
    OpensWithCallerKey(w, id);
  }

  lemma FoundedIsKeyed(repo: string, founder: DeviceId, disk: map<Path, Bytes>, rmk: Rmk)
    ensures Keyed(Founded(repo, founder, disk, rmk), rmk)
  {
  }

  /** A newcomer's phrase does no harm: there is none, it spells the key in use, or a manifest will show it wrong. */
  predicate RightPhrase(w: World, id: DeviceId, phrase: Option<Rmk>)
    requires id in w.devices
  {
    phrase.Some? && CallerKey(w, id).Some? ==> Manifest in w.shared.blobs || phrase.value == CallerKey(w, id).value.rmk
  }

  /** A step that leaves the current key alone: no rotation, and no wrong phrase. */
  predicate Ordinary(w: World, step: Step)
    requires Enabled(w, step)
  {
    !step.Revoke? && (step.Approve? ==> RightPhrase(w, step.id, step.phrase))
  }

  /** Only a rotation or a wrong phrase changes the key in use. */
  lemma StepKeepsKey(w: World, rmk: Rmk, step: Step)
    requires Inv(w) && Keyed(w, rmk) && Enabled(w, step) && Prudent(w, step) && Ordinary(w, step)
    ensures Keyed(Apply(w, step), rmk)
  {
    hide Inv, Keyed, CallerKey, OpensManifest, CycleOf;
    var w' := Apply(w, step);
    CallKeepsStore(w, rmk, step);
    forall e | e in w'.devices ensures Uses(w', e, rmk) {
      if e in w.devices {
        KeyedCaller(w, rmk, e);
        CallKeepsKeys(w, rmk, step, e);
        UsesStays(w, w', rmk, e);
      } else {
        NewcomerUses(w, rmk, step);
      }
    }
    KeyedByEach(w', rmk);
  }

  lemma KeyedByEach(w: World, rmk: Rmk)
    requires forall e :: e in w.devices ==> Uses(w, e, rmk)
    ensures Keyed(w, rmk)
  {
  }

  lemma CallKeepsStore(w: World, rmk: Rmk, step: Step)
    requires Inv(w) && Keyed(w, rmk) && Enabled(w, step) && Prudent(w, step) && !step.Revoke?
    ensures var w' := Apply(w, step);
      && (Manifest in w.shared.blobs ==> Manifest in w'.shared.blobs)
      && OpensManifest(w'.shared.blobs, rmk, w.repo) && w'.repo == w.repo
  {
    hide Keyed, CloudTable, CloudView, Synced, InStep, Healthy, OpensManifest, CycleIn, PushOnlyIn, PullAllIn;
    KeyedCaller(w, rmk, step.id);
    var s := Session(w.repo, step.id, CallerKey(w, step.id).value);
    match step
    case RunCycle(id, draw) => CycleKeepsInv(w, id, draw);
    case RunPush(id, draw) => PushOnlyStaysInStep(w.shared, s, draw, w.devices[id]);
    case RunPull(id) => PullAllStaysInStep(w.shared, s, w.devices[id]);
    case _ =>
  }

  /** A device that kept its key, or took one of the same master key, uses that still. */
  lemma UsesStays(w: World, w': World, rmk: Rmk, e: DeviceId)
    requires e in w.devices && e in w'.devices && Uses(w, e, rmk)
    requires w'.repo == w.repo && Lookup(w'.wraps, e) == Lookup(w.wraps, e)
    requires (Manifest in w.shared.blobs ==> Manifest in w'.shared.blobs) && OpensManifest(w'.shared.blobs, rmk, w.repo)
    requires w'.devices[e].key == w.devices[e].key || HoldsKey(w'.devices[e], rmk)
    ensures Uses(w', e, rmk)
  {
  }

  predicate HoldsKey(d: Device, rmk: Rmk) {
    d.key.Some? && d.key.value.rmk == rmk
  }

  /** Taking on a call's outcome leaves other devices' keys and all wraps alone. */
  lemma OutcomeKeepsKeys(w: World, id: DeviceId, o: Outcome, rmk: Rmk, e: DeviceId)
    requires e in w.devices && id in w.devices && Uses(w, id, rmk) && (o.Done? ==> HoldsKey(o.device, rmk))
    ensures var w' := WithOutcome(w, id, o);
      && e in w'.devices && w'.wraps == w.wraps
      && (w'.devices[e].key == w.devices[e].key || HoldsKey(w'.devices[e], rmk))
  {
    hide CallerKey;
  }

  /** Every call that reaches the cloud ends holding the key it used. */
  lemma CallStoresKey(w: World, rmk: Rmk, step: Step)
    requires Inv(w) && Keyed(w, rmk) && Enabled(w, step) && Prudent(w, step)
    requires step.RunCycle? || step.RunPush? || step.RunPull?
    ensures var o := OutcomeOf(w, step);
      Apply(w, step) == WithOutcome(w, step.id, o) && (o.Done? ==> HoldsKey(o.device, rmk))
  {
    KeyedCaller(w, rmk, step.id);
    var s := Session(w.repo, step.id, CallerKey(w, step.id).value);
    match step
    case RunCycle(id, draw) => CycleSyncs(w.shared, s, draw, w.devices[id]);
    case RunPush(id, draw) => PushOnlyStaysInStep(w.shared, s, draw, w.devices[id]);
    case RunPull(id) => PullAllStaysInStep(w.shared, s, w.devices[id]);
  }

  /** How a cycle, push or pull ends. */
  function OutcomeOf(w: World, step: Step): Outcome
    requires step.id in w.devices && (step.RunCycle? || step.RunPush? || step.RunPull?)
  {
    var d, wrap := w.devices[step.id], Lookup(w.wraps, step.id);
    match step
    case RunCycle(id, draw) => CycleOf(w, id, draw)
    case RunPush(id, draw) => PushOnly(w.shared, w.repo, id, wrap, draw, d)
    case RunPull(id) => PullAll(w.shared, w.repo, id, wrap, d)
  }

  /** Calls store the key they used; every other device keeps its key and its wrap. */
  lemma CallKeepsKeys(w: World, rmk: Rmk, step: Step, e: DeviceId)
    requires Inv(w) && Keyed(w, rmk) && Enabled(w, step) && Prudent(w, step) && !step.Revoke?
    requires e in w.devices
    ensures var w' := Apply(w, step);
      && e in w'.devices && Lookup(w'.wraps, e) == Lookup(w.wraps, e)
      && (w'.devices[e].key == w.devices[e].key || HoldsKey(w'.devices[e], rmk))
  {
    hide Inv, Keyed, CallerKey, OpensManifest, CycleOf;
    KeyedCaller(w, rmk, step.id);
    if step.RunCycle? || step.RunPush? || step.RunPull? {
      CallStoresKey(w, rmk, step);
      OutcomeKeepsKeys(w, step.id, OutcomeOf(w, step), rmk, e);
    }
  }

  /** An approved newcomer's wrap, and its phrase if it is right, are of the key in use. */
  lemma NewcomerUses(w: World, rmk: Rmk, step: Step)
    requires Keyed(w, rmk) && Enabled(w, step) && Ordinary(w, step)
    ensures forall e :: e in Apply(w, step).devices && e !in w.devices ==> Uses(Apply(w, step), e, rmk)
  {
    hide Keyed, CycleOf;
    KeyedCaller(w, rmk, step.id);
  }

  /** An approval with a phrase keeps the key current exactly when the phrase is right. */
  lemma ApprovalKeepsKeyed(w: World, rmk: Rmk, id: DeviceId, newcomer: DeviceId, disk: map<Path, Bytes>,
                           phrase: Option<Rmk>)
    requires Inv(w) && Keyed(w, rmk) && Enabled(w, Approve(id, newcomer, disk, phrase)) && newcomer !in w.devices
    ensures Keyed(Apply(w, Approve(id, newcomer, disk, phrase)), rmk) <==> RightPhrase(w, id, phrase)
  {
    hide Inv;
    var w' := Apply(w, Approve(id, newcomer, disk, phrase));
    KeyedCaller(w, rmk, id);
    if RightPhrase(w, id, phrase) {
      StepKeepsKey(w, rmk, Approve(id, newcomer, disk, phrase));
    } else {
      assert newcomer in w'.devices && !Uses(w', newcomer, rmk);
    }
  }

  /** A rotation that reaches every survivor: a manifest was there to re-seal, or nobody else held a key yet. */
  predicate ReachesAll(w: World, id: DeviceId, target: DeviceId) {
    || Manifest in w.shared.blobs
    || (forall e :: e in w.devices && e != id && e != target ==> w.devices[e].key.None?)
  }

  /** A rotation that goes through makes the new key current exactly when it reaches all, whatever was before. */
  lemma RotationKeepsKeyed(w: World, id: DeviceId, target: DeviceId, newRmk: Rmk)
    requires Enabled(w, Revoke(id, target, newRmk)) && CallerKey(w, id).Some?
    ensures Keyed(Apply(w, Revoke(id, target, newRmk)), newRmk) <==> ReachesAll(w, id, target)
  {
    hide CurrentRmk;
    var w' := Apply(w, Revoke(id, target, newRmk));
    SurvivorsUnchanged(w, id, target, newRmk);
    RotatorUses(w, id, target, newRmk);
    forall e | e in w'.devices && e != id
      ensures Uses(w', e, newRmk) <==> Manifest in w.shared.blobs || w.devices[e].key.None?
    {
      SurvivorUses(w, id, target, newRmk, e);
    }
    if Keyed(w', newRmk) && Manifest !in w.shared.blobs {
      forall e | e in w.devices && e != id && e != target ensures w.devices[e].key.None? {
        assert Uses(w', e, newRmk);
      }
    }
  }

  lemma RotatorUses(w: World, id: DeviceId, target: DeviceId, newRmk: Rmk)
    requires id in w.devices && id != target
    ensures var w' := Rotated(w, id, target, newRmk); id in w'.devices && Uses(w', id, newRmk)
  {
  }

  lemma SurvivorParts(w: World, id: DeviceId, target: DeviceId, newRmk: Rmk, e: DeviceId)
    requires id in w.devices && id != target && e in w.devices && e != id && e != target
    ensures var w' := Rotated(w, id, target, newRmk);
      && e in w'.devices && w'.devices[e] == w.devices[e] && w'.repo == w.repo
      && Lookup(w'.wraps, e) == Some(KeyGen(newRmk, w.generation + 1))
      && Lookup(w'.shared.blobs, Manifest) ==
           if Manifest in w.shared.blobs then Some(SealedTable(newRmk, w.repo, CloudTable(w.shared.blobs, w.repo)))
           else None
  {
    hide CloudTable;
  }

  /** A survivor holds no key, or another than the new one; its wrap is of the new one. */
  lemma SurvivorUses(w: World, id: DeviceId, target: DeviceId, newRmk: Rmk, e: DeviceId)
    requires Enabled(w, Revoke(id, target, newRmk)) && e in w.devices && e != id && e != target
    ensures var w' := Rotated(w, id, target, newRmk);
      && e in w'.devices && (Uses(w', e, newRmk) <==> Manifest in w.shared.blobs || w.devices[e].key.None?)
  {
    hide CloudTable, Rotated;
    SurvivorParts(w, id, target, newRmk, e);
  }

  /** Whether one key is current after a step: the last rotation decides, and each phrase typed since. */
  predicate StaysSafe(w: World, step: Step, safe: bool)
    requires Enabled(w, step)
  {
    if step.Revoke? && CallerKey(w, step.id).Some? then ReachesAll(w, step.id, step.target)
    else safe && (step.Approve? ==> RightPhrase(w, step.id, step.phrase))
  }

  /** The last rotation of a run reached everyone, and every phrase typed since was right. */
  predicate KeySafeRun(w: World, steps: seq<Step>, safe: bool)
    requires Legal(w, steps)
    decreases |steps|
  {
    if steps == [] then safe
    else KeySafeRun(Apply(w, steps[0]), steps[1..], StaysSafe(w, steps[0], safe))
  }

  /** What one step does to the key in use, if there is one. */
  lemma StepKeepsSafe(w: World, rmk: Rmk, step: Step, safe: bool) returns (rmk': Rmk)
    requires Inv(w) && Enabled(w, step) && Prudent(w, step) && (safe ==> Keyed(w, rmk))
    ensures StaysSafe(w, step, safe) ==> Keyed(Apply(w, step), rmk')
  {
    hide Inv, Keyed, CallerKey, ReachesAll, RightPhrase;
    rmk' := rmk;
    if StaysSafe(w, step, safe) {
      if step.Revoke? {
        if CallerKey(w, step.id).Some? {
          RotationKeepsKeyed(w, step.id, step.target, step.newRmk);
          rmk' := step.newRmk;
        } else {
          KeyedCaller(w, rmk, step.id);
        }
      } else {
        StepKeepsKey(w, rmk, step);
      }
    }
  }

  lemma {:induction false} RunKeepsKeyed(w: World, rmk: Rmk, steps: seq<Step>, safe: bool) returns (rmk': Rmk)
    requires Inv(w) && Legal(w, steps) && (safe ==> Keyed(w, rmk))
    ensures KeySafeRun(w, steps, safe) ==> Keyed(Run(w, steps), rmk')
    decreases |steps|
  {
    hide Inv, Keyed, StaysSafe, Apply, Enabled, Prudent;
    rmk' := rmk;
    if steps != [] {
      rmk' := StepKeepsSafe(w, rmk, steps[0], safe);
      StepKeepsInv(w, steps[0]);
      rmk' := RunKeepsKeyed(Apply(w, steps[0]), rmk', steps[1..], StaysSafe(w, steps[0], safe));
    }
  }

  /** When the last rotation reached everyone, no cycle is refused: each one succeeds and agrees. */
  lemma CycleIsNeverRefused(repo: string, founder: DeviceId, disk: map<Path, Bytes>, rmk: Rmk,
                            steps: seq<Step>, id: DeviceId, draw: nat)
    requires Legal(Founded(repo, founder, disk, rmk), steps)
    requires KeySafeRun(Founded(repo, founder, disk, rmk), steps, true)
    requires id in Run(Founded(repo, founder, disk, rmk), steps).devices
    ensures var w := Run(Founded(repo, founder, disk, rmk), steps);
      CycleOf(w, id, draw).Done? && InAgreement(Apply(w, RunCycle(id, draw)), id)
  {
    hide Inv, Keyed, Legal, Run, KeySafeRun, CycleOf, InAgreement;
    var w0 := Founded(repo, founder, disk, rmk);
    FoundedIsConsistent(repo, founder, disk, rmk);
    FoundedIsKeyed(repo, founder, disk, rmk);
    var rmk' := RunKeepsKeyed(w0, rmk, steps, true);
    KeyedCaller(Run(w0, steps), rmk', id);
    CycleAfterAnyRunAgrees(repo, founder, disk, rmk, steps, id, draw);
  }

  // -------------------------------------------------------------------------
  // Settling
  // -------------------------------------------------------------------------

  function LocalOf(d: Device): Local {
    Local(d.disk, RecordsOf(d).files)
  }

  /** Nothing on this device waits to be pushed, and it has caught up with the current generation. */
  predicate Settled(d: Device, rmk: Rmk) {
    && HoldsKey(d, rmk) && d.state.Some? && d.state.value.generation == d.key.value.generation
    && Changed(LocalOf(d)) == {} && Deleted(LocalOf(d)) == {}
  }

  lemma SyncedIsSettled(l: Local, t: Table, view: map<Path, Bytes>)
    requires Synced(l.disk, l.files, t, view)
    ensures Changed(l) == {} && Deleted(l) == {}
  {
  }

  lemma CleanSlot(l: Local, t: Table, view: map<Path, Bytes>, n: Net, p: Path)
    requires Changed(l) == {} && Deleted(l) == {}
    requires p in l.files ==> l.files[p].blob in n.del || p in t
    ensures var l' := PullLocal(l, t, view, n); p !in Changed(l') && p !in Deleted(l')
  {
    var l' := PullLocal(l, t, view, n);
    assert p !in Changed(l) && p !in Deleted(l);
    assert Lookup(l'.disk, p) == PullSlot(p, SlotAt(l, p), t, view, n).file;
    assert Lookup(l'.files, p) == PullSlot(p, SlotAt(l, p), t, view, n).known;
  }

  lemma CleanSlots(l: Local, t: Table, view: map<Path, Bytes>, n: Net)
    requires Changed(l) == {} && Deleted(l) == {}
    requires Tracks(l.files, t, view, n.put, n.del)
    ensures var l' := PullLocal(l, t, view, n); Changed(l') == {} && Deleted(l') == {}
  {
    var l' := PullLocal(l, t, view, n);
    forall p ensures p !in Changed(l') && p !in Deleted(l') {
      CleanSlot(l, t, view, n, p);
    }
  }

  /** A clean device stays clean through a pull: it follows the cloud and keeps nothing of its own. */
  lemma PullKeepsSettled(shared: Shared, s: Session, disk: map<Path, Bytes>, state: SyncState)
    requires Healthy(shared, s.repo) && OpensManifest(shared.blobs, s.key.rmk, s.repo)
    requires state.cursor <= |shared.ops|
    requires var n := Collapse(OpsSince(shared.ops, state.cursor), s.device);
      Tracks(state.files, CloudTable(shared.blobs, s.repo), CloudView(shared.blobs, s.repo), n.put, n.del)
    requires Changed(Local(disk, state.files)) == {} && Deleted(Local(disk, state.files)) == {}
    ensures Pull(shared, s, disk, state).Ok?
    ensures var r := Pull(shared, s, disk, state).value;
      Changed(Local(r.disk, r.state.files)) == {} && Deleted(Local(r.disk, r.state.files)) == {}
  {
    PullReadies(shared, s, disk, state);
    PullShape(shared, s, disk, state);
    FetchedTable(shared.blobs, s);
    CleanSlots(Local(disk, state.files), CloudTable(shared.blobs, s.repo), CloudView(shared.blobs, s.repo),
               Collapse(OpsSince(shared.ops, state.cursor), s.device));
  }

  lemma NothingToPush(shared: Shared, s: Session, draw: nat, l: Local, generation: int, cached: Option<Table>)
    requires Changed(l) == {} && Deleted(l) == {} && generation == s.key.generation
    ensures Push(shared, s, draw, l, generation, cached) == Ok(Pushed(shared, l.files, NOTHING_DONE))
  {
  }

  lemma CycleFromParts(shared: Shared, s: Session, draw: nat, d: Device, start: Pulled, pulled: Pulled, pushed: Pushed)
    requires StartState(shared, s, d) == Ok(start)
    requires Pull(shared, s, start.disk, start.state) == Ok(pulled)
    requires Push(shared, s, draw, Local(pulled.disk, pulled.state.files), pulled.state.generation, pulled.cached)
      == Ok(pushed)
    ensures CycleIn(shared, s, draw, d) ==
      Done(pushed.shared,
           Device(pulled.disk, Some(SyncState(pulled.state.cursor, s.key.generation, pushed.files)), Some(s.key)),
           Plus(Plus(start.report, pulled.report), pushed.report))
  {
  }

  lemma PlusNothing(r: Report)
    ensures Plus(Plus(NOTHING_DONE, r), NOTHING_DONE) == r
  {
  }

  lemma IdlePushCycle(shared: Shared, s: Session, draw: nat, d: Device, r: Pulled)
    requires d.state.Some? && Pull(shared, s, d.disk, d.state.value) == Ok(r)
    requires Push(shared, s, draw, Local(r.disk, r.state.files), r.state.generation, r.cached)
          == Ok(Pushed(shared, r.state.files, NOTHING_DONE))
    requires r.state.generation == s.key.generation
    ensures CycleIn(shared, s, draw, d) == Done(shared, Device(r.disk, Some(r.state), Some(s.key)), r.report)
  {
    PlusNothing(r.report);
    CycleFromParts(shared, s, draw, d, Pulled(d.disk, d.state.value, None, NOTHING_DONE), r,
                   Pushed(shared, r.state.files, NOTHING_DONE));
  }

  /** A pull that leaves nothing to push makes a cycle that only pulls. */
  lemma PullOnlyCycle(shared: Shared, s: Session, draw: nat, d: Device, r: Pulled)
    requires d.state.Some? && Pull(shared, s, d.disk, d.state.value) == Ok(r)
    requires Changed(Local(r.disk, r.state.files)) == {} && Deleted(Local(r.disk, r.state.files)) == {}
    requires r.state.generation == s.key.generation
    ensures CycleIn(shared, s, draw, d) == Done(shared, Device(r.disk, Some(r.state), Some(s.key)), r.report)
  {
    NothingToPush(shared, s, draw, Local(r.disk, r.state.files), r.state.generation, r.cached);
    IdlePushCycle(shared, s, draw, d, r);
  }

  /** A settled device's sessions go by the key it holds. */
  lemma SettledKey(w: World, rmk: Rmk, id: DeviceId)
    requires Keyed(w, rmk) && id in w.devices && HoldsKey(w.devices[id], rmk)
    ensures CallerKey(w, id) == w.devices[id].key
  {
    KeyedCaller(w, rmk, id);
  }

  /** A cycle of a settled device writes nothing to the cloud. */
  lemma SettledCycleWritesNothing(shared: Shared, s: Session, draw: nat, d: Device)
    requires Healthy(shared, s.repo) && OpensManifest(shared.blobs, s.key.rmk, s.repo)
    requires InStep(shared, s.repo, s.device, d) && Settled(d, s.key.rmk) && d.key == Some(s.key)
    ensures var o := CycleIn(shared, s, draw, d);
      o.Done? && o.shared == shared && o.report.pushed == 0 && o.report.deletedRemote == 0
  {
    PullKeepsSettled(shared, s, d.disk, d.state.value);
    PullReadies(shared, s, d.disk, d.state.value);
    PullReports(shared, s, d.disk, d.state.value);
    PullOnlyCycle(shared, s, draw, d, Pull(shared, s, d.disk, d.state.value).value);
  }

  /** A pull uploads and tombstones nothing. */
  lemma PullReports(shared: Shared, s: Session, disk: map<Path, Bytes>, state: SyncState)
    requires Pull(shared, s, disk, state).Ok?
    ensures var r := Pull(shared, s, disk, state).value; r.report.pushed == 0 && r.report.deletedRemote == 0
  {
  }

  /** Nothing left to read either: the next cycle is a no-op. */
  predicate Idle(shared: Shared, repo: string, d: Device, rmk: Rmk) {
    && Settled(d, rmk) && d.state.value.cursor == |shared.ops|
    && Synced(d.disk, d.state.value.files, CloudTable(shared.blobs, repo), CloudView(shared.blobs, repo))
  }

  /** An idle device's cycle changes nothing anywhere and reports nothing done. */
  lemma IdleCycleIsNoop(shared: Shared, s: Session, draw: nat, d: Device)
    requires Settled(d, s.key.rmk) && d.key == Some(s.key) && d.state.value.cursor == |shared.ops|
    ensures CycleIn(shared, s, draw, d) == Done(shared, d, NOTHING_DONE)
  {
    NothingToPull(shared, s, d.disk, d.state.value);
    PullOnlyCycle(shared, s, draw, d, Pulled(d.disk, d.state.value, None, NOTHING_DONE));
  }

  // -------------------------------------------------------------------------
  // Rounds of cycles
  // -------------------------------------------------------------------------

  datatype Turn = Turn(id: DeviceId, draw: nat)

  predicate AllEnrolled(w: World, turns: seq<Turn>) {
    forall i :: 0 <= i < |turns| ==> turns[i].id in w.devices
  }

  /** Every device gets at least one turn. */
  predicate FullRound(w: World, turns: seq<Turn>) {
    && AllEnrolled(w, turns)
    && forall id :: id in w.devices ==> exists i :: 0 <= i < |turns| && turns[i].id == id
  }

  function Cycles(w: World, turns: seq<Turn>): (r: World)
    requires AllEnrolled(w, turns)
    ensures r.devices.Keys == w.devices.Keys
    decreases |turns|
  {
    if turns == [] then w
    else
      var w' := Apply(w, RunCycle(turns[0].id, turns[0].draw));
      assert w'.devices.Keys == w.devices.Keys;
      Cycles(w', turns[1..])
  }

  predicate HadTurn(turns: seq<Turn>, id: DeviceId) {
    exists i :: 0 <= i < |turns| && turns[i].id == id
  }

  /** One turn settles its device and disturbs no other device. */
  lemma TurnSettles(w: World, rmk: Rmk, turn: Turn)
    requires Inv(w) && Keyed(w, rmk) && turn.id in w.devices
    ensures var w' := Apply(w, RunCycle(turn.id, turn.draw));
      && Inv(w') && Keyed(w', rmk) && w'.devices.Keys == w.devices.Keys
      && Settled(w'.devices[turn.id], rmk)
      && (forall e :: e in w.devices && e != turn.id ==> w'.devices[e] == w.devices[e])
  {
    hide Inv, Keyed, CallerKey, CloudTable, CloudView, Synced, Changed, Deleted;
    KeyedCaller(w, rmk, turn.id);
    CycleKeepsInv(w, turn.id, turn.draw);
    StepKeepsKey(w, rmk, RunCycle(turn.id, turn.draw));
    var w' := Apply(w, RunCycle(turn.id, turn.draw));
    SyncedIsSettled(LocalOf(w'.devices[turn.id]), CloudTable(w'.shared.blobs, w.repo),
                    CloudView(w'.shared.blobs, w.repo));
  }

  /** First round: every device that had a turn, or was settled before, ends settled. */
  lemma {:induction false} RoundSettles(w: World, rmk: Rmk, turns: seq<Turn>)
    requires Inv(w) && Keyed(w, rmk) && AllEnrolled(w, turns)
    ensures var w' := Cycles(w, turns);
      && Inv(w') && Keyed(w', rmk)
      && forall id :: id in w.devices && (HadTurn(turns, id) || Settled(w.devices[id], rmk)) ==>
        Settled(w'.devices[id], rmk)
    decreases |turns|
  {
    hide Inv, Keyed, Settled, CycleOf, Opened, InAgreement;
    if turns != [] {
      TurnSettles(w, rmk, turns[0]);
      var w1 := Apply(w, RunCycle(turns[0].id, turns[0].draw));
      RoundSettles(w1, rmk, turns[1..]);
      SettledCarriesOver(w, w1, rmk, turns);
    }
  }

  /** Whoever is due after the first turn was due before it, or has just settled. */
  lemma SettledCarriesOver(w: World, w1: World, rmk: Rmk, turns: seq<Turn>)
    requires turns != [] && w1.devices.Keys == w.devices.Keys && AllEnrolled(w, turns)
    requires Settled(w1.devices[turns[0].id], rmk)
    requires forall e :: e in w.devices && e != turns[0].id ==> w1.devices[e] == w.devices[e]
    ensures forall id :: id in w.devices && (HadTurn(turns, id) || Settled(w.devices[id], rmk)) ==>
              HadTurn(turns[1..], id) || Settled(w1.devices[id], rmk)
  {
    forall id | id in w.devices && id != turns[0].id && HadTurn(turns, id) ensures HadTurn(turns[1..], id) {
      LaterTurn(turns, id);
    }
  }

  lemma LaterTurn(turns: seq<Turn>, id: DeviceId)
    requires HadTurn(turns, id) && turns[0].id != id
    ensures HadTurn(turns[1..], id)
  {
    var i :| 0 <= i < |turns| && turns[i].id == id;
    assert turns[1..][i - 1].id == id;
  }

  predicate AllSettled(w: World, rmk: Rmk) {
    forall id :: id in w.devices ==> Settled(w.devices[id], rmk)
  }

  lemma CycleUsesCallerKey(w: World, id: DeviceId, draw: nat, key: KeyGen)
    requires id in w.devices && CallerKey(w, id) == Some(key)
    ensures CycleOf(w, id, draw) == CycleIn(w.shared, Session(w.repo, id, key), draw, w.devices[id])
  {
  }

  lemma SettledOutcome(w: World, rmk: Rmk, id: DeviceId, draw: nat)
    requires Healthy(w.shared, w.repo) && id in w.devices && InStep(w.shared, w.repo, id, w.devices[id])
    requires CallerKey(w, id) == w.devices[id].key && Settled(w.devices[id], rmk)
    ensures CycleOf(w, id, draw).Done? && CycleOf(w, id, draw).shared == w.shared
  {
    var key := w.devices[id].key.value;
    OpensWithCallerKey(w, id);
    CycleUsesCallerKey(w, id, draw, key);
    SettledCycleWritesNothing(w.shared, Session(w.repo, id, key), draw, w.devices[id]);
  }

  /** A settled device's turn leaves the cloud alone. */
  lemma SettledTurnKeepsCloud(w: World, rmk: Rmk, turn: Turn)
    requires Inv(w) && Keyed(w, rmk) && turn.id in w.devices && Settled(w.devices[turn.id], rmk)
    ensures Apply(w, RunCycle(turn.id, turn.draw)).shared == w.shared
  {
    SettledKey(w, rmk, turn.id);
    SettledOutcome(w, rmk, turn.id, turn.draw);
  }

  /** A turn that leaves the cloud alone makes its device idle. */
  lemma QuietTurnIdles(w: World, rmk: Rmk, turn: Turn)
    requires Inv(w) && Keyed(w, rmk) && turn.id in w.devices
    requires Apply(w, RunCycle(turn.id, turn.draw)).shared == w.shared
    ensures var w' := Apply(w, RunCycle(turn.id, turn.draw)); Idle(w.shared, w.repo, w'.devices[turn.id], rmk)
  {
    KeyedCaller(w, rmk, turn.id);
    TurnSettles(w, rmk, turn);
    CycleKeepsInv(w, turn.id, turn.draw);
  }

  /** Among settled devices a turn leaves the cloud alone and makes its device idle. */
  lemma SettledTurn(w: World, rmk: Rmk, turn: Turn)
    requires Inv(w) && Keyed(w, rmk) && AllSettled(w, rmk) && turn.id in w.devices
    ensures var w' := Apply(w, RunCycle(turn.id, turn.draw));
      && w'.shared == w.shared && w'.repo == w.repo && AllSettled(w', rmk)
      && Idle(w.shared, w.repo, w'.devices[turn.id], rmk)
  {
    hide Inv, Keyed, Settled, CycleOf, InAgreement, CallerKey, CloudTable, CloudView, Synced;
    SettledTurnKeepsCloud(w, rmk, turn);
    QuietTurnIdles(w, rmk, turn);
    TurnSettles(w, rmk, turn);
  }

  /** Second round: the cloud stands still and everyone who had a turn catches up with it. */
  lemma {:induction false} RoundCatchesUp(w: World, rmk: Rmk, turns: seq<Turn>)
    requires Inv(w) && Keyed(w, rmk) && AllSettled(w, rmk) && AllEnrolled(w, turns)
    ensures var w' := Cycles(w, turns);
      && Inv(w') && Keyed(w', rmk) && AllSettled(w', rmk) && w'.shared == w.shared && w'.repo == w.repo
      && forall id :: id in w.devices && (HadTurn(turns, id) || Idle(w.shared, w.repo, w.devices[id], rmk)) ==>
                        Idle(w.shared, w.repo, w'.devices[id], rmk)
    decreases |turns|
  {
    hide Inv, Keyed, Idle, Settled, CycleOf, InAgreement;
    if turns != [] {
      TurnSettles(w, rmk, turns[0]);
      SettledTurn(w, rmk, turns[0]);
      var w1 := Apply(w, RunCycle(turns[0].id, turns[0].draw));
      RoundCatchesUp(w1, rmk, turns[1..]);
      forall id | id in w.devices && id != turns[0].id && HadTurn(turns, id) ensures HadTurn(turns[1..], id) {
        LaterTurn(turns, id);
      }
    }
  }

  predicate AllIdle(w: World, rmk: Rmk) {
    forall id :: id in w.devices ==> Idle(w.shared, w.repo, w.devices[id], rmk)
  }

  lemma SameOutcome(w: World, id: DeviceId, o: Outcome)
    requires id in w.devices && o.Done? && o.shared == w.shared && o.device == w.devices[id]
    ensures WithOutcome(w, id, o) == w
  {
    assert w.devices[id := w.devices[id]] == w.devices;
  }

  lemma IdleTurn(w: World, rmk: Rmk, turn: Turn)
    requires Keyed(w, rmk) && turn.id in w.devices && Idle(w.shared, w.repo, w.devices[turn.id], rmk)
    ensures CycleOf(w, turn.id, turn.draw) == Done(w.shared, w.devices[turn.id], NOTHING_DONE)
  {
    var key := w.devices[turn.id].key.value;
    SettledKey(w, rmk, turn.id);
    CycleUsesCallerKey(w, turn.id, turn.draw, key);
    IdleCycleIsNoop(w.shared, Session(w.repo, turn.id, key), turn.draw, w.devices[turn.id]);
  }

  lemma IdleStep(w: World, rmk: Rmk, turn: Turn)
    requires Keyed(w, rmk) && turn.id in w.devices && Idle(w.shared, w.repo, w.devices[turn.id], rmk)
    ensures Apply(w, RunCycle(turn.id, turn.draw)) == w
  {
    IdleTurn(w, rmk, turn);
    SameOutcome(w, turn.id, CycleOf(w, turn.id, turn.draw));
  }

  /** Once everyone is idle, cycles in any order change nothing at all. */
  lemma {:induction false} IdleForever(w: World, rmk: Rmk, turns: seq<Turn>)
    requires Keyed(w, rmk) && AllIdle(w, rmk) && AllEnrolled(w, turns)
    ensures Cycles(w, turns) == w
    decreases |turns|
  {
    if turns != [] {
      IdleStep(w, rmk, turns[0]);
      IdleForever(w, rmk, turns[1..]);
    }
  }

  /**
   * Once local edits stop, two rounds in any order and interleaving make every vault equal to the
   * cloud, hence to each other; from then on every cycle is a no-op that writes nothing.
   */
  lemma TwoRoundsConverge(w: World, rmk: Rmk, first: seq<Turn>, second: seq<Turn>)
    requires Inv(w) && Keyed(w, rmk) && FullRound(w, first) && FullRound(w, second)
    ensures var v := Cycles(Cycles(w, first), second);
      && v.devices.Keys == w.devices.Keys
      && (forall id :: id in v.devices ==> v.devices[id].disk == CloudView(v.shared.blobs, v.repo))
      && (forall id, draw :: id in v.devices ==> CycleOf(v, id, draw) == Done(v.shared, v.devices[id], NOTHING_DONE))
      && (forall later :: AllEnrolled(v, later) ==> Cycles(v, later) == v)
  {
    var w1 := Cycles(w, first);
    RoundSettles(w, rmk, first);
    assert AllSettled(w1, rmk) by {
      forall id | id in w1.devices ensures Settled(w1.devices[id], rmk) { assert HadTurn(first, id); }
    }
    RoundCatchesUp(w1, rmk, second);
    var v := Cycles(w1, second);
    assert AllIdle(v, rmk) by {
      forall id | id in v.devices ensures Idle(v.shared, v.repo, v.devices[id], rmk) { assert HadTurn(second, id); }
    }
    forall id, draw | id in v.devices ensures CycleOf(v, id, draw) == Done(v.shared, v.devices[id], NOTHING_DONE) {
      IdleTurn(v, rmk, Turn(id, draw));
    }
    forall later | AllEnrolled(v, later) ensures Cycles(v, later) == v {
      IdleForever(v, rmk, later);
    }
  }

  /** The same after any run from the founding of a repo whose last rotation reached everyone. */
  lemma RunThenTwoRoundsConverge(repo: string, founder: DeviceId, disk: map<Path, Bytes>, rmk: Rmk, steps: seq<Step>,
                                 first: seq<Turn>, second: seq<Turn>)
    requires Legal(Founded(repo, founder, disk, rmk), steps)
    requires KeySafeRun(Founded(repo, founder, disk, rmk), steps, true)
    requires var w := Run(Founded(repo, founder, disk, rmk), steps); FullRound(w, first) && FullRound(w, second)
    ensures var w := Run(Founded(repo, founder, disk, rmk), steps);
      var v := Cycles(Cycles(w, first), second);
      && v.devices.Keys == w.devices.Keys
      && (forall id :: id in v.devices ==> v.devices[id].disk == CloudView(v.shared.blobs, v.repo))
      && (forall id, draw :: id in v.devices ==> CycleOf(v, id, draw) == Done(v.shared, v.devices[id], NOTHING_DONE))
      && (forall later :: AllEnrolled(v, later) ==> Cycles(v, later) == v)
  {
    hide Inv, Keyed, Legal, Run, KeySafeRun, FullRound, CycleOf, CloudView;
    var w0 := Founded(repo, founder, disk, rmk);
    FoundedIsConsistent(repo, founder, disk, rmk);
    FoundedIsKeyed(repo, founder, disk, rmk);
    RunKeepsInv(w0, steps);
    var rmk' := RunKeepsKeyed(w0, rmk, steps, true);
    TwoRoundsConverge(Run(w0, steps), rmk', first, second);
  }
}
