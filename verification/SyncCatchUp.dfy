/** Re-keying after rotations: when a call renames rows, what the manual calls leave for the next cycle, and runs. */
module SyncCatchUp {
  import opened Prelude
  import opened SyncCrypto
  import opened SyncModel
  import opened SyncPhases
  import opened SyncAgreement
  import opened SyncCalls
  import opened SyncSafety
  import opened SyncWorld
  import opened SyncConvergence
  import opened SyncMerge
  import opened SyncLockout

  // -------------------------------------------------------------------------
  // When a push renames
  // -------------------------------------------------------------------------

  /** A row keeps its name and key through a push exactly if the push need not re-key, or it has its name already. */
  lemma RowKeepsNameIff(t: Table, shared: Shared, s: Session, draw: nat, l: Local, generation: int, p: Path)
    requires FetchOrEmpty(shared.blobs, s) == Ok(t) && PushTable(t, shared, s, draw, l, generation).Ok?
    requires p in t && p !in Deleted(l)
    ensures var t' := CloudTable(PushTable(t, shared, s, draw, l, generation).value.shared.blobs, s.repo);
      && p in t'
      && (t'[p] == t[p] <==> !Behind(generation, s) || t[p].blob == BlobName(s.key.rmk, p))
      && (t'[p] != t[p] ==> t'[p] == Minted(s.key.rmk, draw, p))
  {
    PushManifestStays(t, shared, s, draw, l, generation);
    PushEntry(t, s, draw, l, generation, p);
  }

  /** The row of `p` is named by the session's key. */
  predicate NamedNow(t: Table, s: Session, p: Path) {
    p in t && t[p].blob == BlobName(s.key.rmk, p)
  }

  lemma NamesByRows(shared: Shared, s: Session)
    requires NoOrphans(shared.blobs, CloudTable(shared.blobs, s.repo))
    ensures CurrentNamesOnly(shared, s) <==>
      forall p :: p in CloudTable(shared.blobs, s.repo) ==> NamedNow(CloudTable(shared.blobs, s.repo), s, p)
  {
    hide CloudTable;
  }

  /** All rows that are still there after the call had current names before it. */
  predicate KeptAreNamed(t: Table, t': Table, s: Session) {
    forall p :: p in t && p in t' ==> NamedNow(t, s, p)
  }

  lemma RowsNamed(t: Table, s: Session, draw: nat, l: Local, generation: int)
    ensures var t' := PushedTable(t, s, draw, l, generation);
      (forall p :: p in t' ==> NamedNow(t', s, p)) <==> Behind(generation, s) || KeptAreNamed(t, t', s)
  {
    hide PushedTable, Changed, Deleted;
    var t' := PushedTable(t, s, draw, l, generation);
    forall p ensures p in t' ==> (NamedNow(t', s, p) <==> Behind(generation, s) || p !in t || NamedNow(t, s, p)) {
      PushEntry(t, s, draw, l, generation, p);
    }
    if (forall p :: p in t' ==> NamedNow(t', s, p)) && !Behind(generation, s) {
      forall p | p in t && p in t' ensures NamedNow(t, s, p) {
        assert NamedNow(t', s, p);
      }
    }
  }

  /** After a push all names are current exactly if it had to re-key or all the rows it kept were current. */
  lemma PushNames(shared: Shared, s: Session, draw: nat, l: Local, generation: int, cached: Option<Table>)
    requires Healthy(shared, s.repo) && FetchOrEmpty(shared.blobs, s).Ok?
    requires cached.None? || FetchOrEmpty(shared.blobs, s) == Ok(cached.value)
    ensures Push(shared, s, draw, l, generation, cached).Ok?
    ensures var shared' := Push(shared, s, draw, l, generation, cached).value.shared;
      CurrentNamesOnly(shared', s) <==>
        Behind(generation, s) || KeptAreNamed(CloudTable(shared.blobs, s.repo), CloudTable(shared'.blobs, s.repo), s)
  {
    hide Push, PushTable, CloudTable, PushedTable, FetchOrEmpty, NamedNow, KeptAreNamed, CurrentNamesOnly, Advances,
      Changed, Deleted, CloudView, Intact, NoOrphans;
    FetchedTable(shared.blobs, s);
    var t := FetchOrEmpty(shared.blobs, s).value;
    PushAdvances(shared, s, draw, l, generation, cached);
    var shared' := Push(shared, s, draw, l, generation, cached).value.shared;
    NamesByRows(shared', s);
    if PushNeeded(l, generation, s) {
      PushNeededIsTable(shared, s, draw, l, generation, cached, t);
      PushManifestStays(t, shared, s, draw, l, generation);
      RowsNamed(t, s, draw, l, generation);
    } else {
      NothingNeededIsIdle(shared, s, draw, l, generation, cached);
      SameTableNamed(t, s);
    }
  }

  lemma SameTableNamed(t: Table, s: Session)
    ensures KeptAreNamed(t, t, s) <==> forall p :: p in t ==> NamedNow(t, s, p)
  {
  }

  // -------------------------------------------------------------------------
  // Whole calls
  // -------------------------------------------------------------------------

  /** The device saved its state under another generation than the session's. */
  predicate DeviceBehind(d: Device, s: Session) {
    d.state.Some? && Behind(d.state.value.generation, s)
  }

  lemma StartAndPull(shared: Shared, s: Session, d: Device)
    requires Healthy(shared, s.repo) && OpensManifest(shared.blobs, s.key.rmk, s.repo)
    requires d.state.Some? ==> InStep(shared, s.repo, s.device, d)
    ensures StartState(shared, s, d).Ok?
    ensures var start := StartState(shared, s, d).value;
      && Pull(shared, s, start.disk, start.state).Ok?
      && var pulled := Pull(shared, s, start.disk, start.state).value;
      && (pulled.cached.None? || FetchOrEmpty(shared.blobs, s) == Ok(pulled.cached.value))
      && FetchOrEmpty(shared.blobs, s).Ok?
      && pulled.state.generation == (if d.state.Some? then d.state.value.generation else s.key.generation)
  {
    hide Pull, Healthy, OpensManifest, CloudTable, CloudView, Tracks, Ready, FetchOrEmpty;
    StartTracks(shared, s, d);
    var start := StartState(shared, s, d).value;
    PullReadies(shared, s, start.disk, start.state);
    if d.state.None? {
      AdoptTracks(shared, s, d.disk);
    }
  }

  /**
   * After a cycle every row and every blob has its current name if and only if the device had to catch up
   * with a rotation, or all the rows that are left were current before.
   */
  lemma CycleNames(shared: Shared, s: Session, draw: nat, d: Device)
    requires Healthy(shared, s.repo) && OpensManifest(shared.blobs, s.key.rmk, s.repo)
    requires d.state.Some? ==> InStep(shared, s.repo, s.device, d)
    ensures var o := CycleIn(shared, s, draw, d);
      && o.Done?
      && (CurrentNamesOnly(o.shared, s) <==>
            DeviceBehind(d, s) || KeptAreNamed(CloudTable(shared.blobs, s.repo), CloudTable(o.shared.blobs, s.repo), s))
  {
    hide Pull, Push, StartState, Healthy, OpensManifest, CloudTable, InStep, KeptAreNamed, CurrentNamesOnly,
      FetchOrEmpty;
    StartAndPull(shared, s, d);
    var start := StartState(shared, s, d).value;
    var pulled := Pull(shared, s, start.disk, start.state).value;
    var l := Local(pulled.disk, pulled.state.files);
    PushNames(shared, s, draw, l, pulled.state.generation, pulled.cached);
    CycleFromParts(shared, s, draw, d, start, pulled,
                   Push(shared, s, draw, l, pulled.state.generation, pulled.cached).value);
  }

  /** A manual push stamps the session's generation and reads nothing; it leaves current names as a cycle does. */
  lemma PushOnlyNames(shared: Shared, s: Session, draw: nat, d: Device)
    requires Healthy(shared, s.repo) && OpensManifest(shared.blobs, s.key.rmk, s.repo)
    ensures var o := PushOnlyIn(shared, s, draw, d);
      && o.Done? && o.device.state.Some?
      && o.device.state.value.generation == s.key.generation && o.device.state.value.cursor == RecordsOf(d).cursor
      && (CurrentNamesOnly(o.shared, s) <==>
            DeviceBehind(d, s) || KeptAreNamed(CloudTable(shared.blobs, s.repo), CloudTable(o.shared.blobs, s.repo), s))
  {
    hide Push, Healthy, OpensManifest, CloudTable, KeptAreNamed, CurrentNamesOnly, FetchOrEmpty;
    var state := SavedOr(d, s.key.generation);
    FetchesWhenItOpens(shared.blobs, s);
    PushNames(shared, s, draw, Local(d.disk, state.files), state.generation, None);
  }

  /**
   * A manual pull takes on the cloud's files and records, and nothing else: where the device had read to, and
   * the generation its state was written under, stay.
   */
  lemma PullAllKeepsMarks(shared: Shared, s: Session, d: Device)
    requires PullAllIn(shared, s, d).Done?
    ensures var o := PullAllIn(shared, s, d);
      && o.device.state.Some? && o.shared == shared
      && o.device.state.value.cursor == RecordsOf(d).cursor
      && o.device.state.value.generation == (if d.state.Some? then d.state.value.generation else s.key.generation)
      && o.report == Report(|CloudView(shared.blobs, s.repo)|, 0, 0, 0)
  {
    hide View;
    if FetchOrEmpty(shared.blobs, s).Ok? {
      FetchedTable(shared.blobs, s);
    }
  }

  /** After a pull no row of the cloud is missing from the disk, so the next cycle drops none. */
  lemma PulledKeepsRows(shared: Shared, s: Session, draw: nat, d: Device)
    requires Healthy(shared, s.repo) && OpensManifest(shared.blobs, s.key.rmk, s.repo)
    requires InStep(shared, s.repo, s.device, d) && PullAllIn(shared, s, d).Done?
    ensures var o := CycleIn(shared, s, draw, PullAllIn(shared, s, d).device);
      o.Done? && CloudTable(shared.blobs, s.repo).Keys <= CloudTable(o.shared.blobs, s.repo).Keys
  {
    hide CycleIn, PullAllIn, Healthy, OpensManifest, InStep, CloudTable, CloudView, Merged, Advances, Synced;
    PullAllStaysInStep(shared, s, d);
    PullAllKeepsMarks(shared, s, d);
    var d' := PullAllIn(shared, s, d).device;
    CycleSyncs(shared, s, draw, d');
    var o := CycleIn(shared, s, draw, d');
    HealthyParts(shared, s.repo);
    IntactView(shared.blobs, s.repo, CloudTable(shared.blobs, s.repo));
    CloudViewIs(shared.blobs, s.repo);
    SyncedKeys(o.device.disk, o.device.state.value.files, CloudTable(o.shared.blobs, s.repo),
               CloudView(o.shared.blobs, s.repo));
    forall p | p in CloudTable(shared.blobs, s.repo) ensures p in CloudTable(o.shared.blobs, s.repo) {
      CycleMerges(shared, s, draw, d', p);
      PresentStays(shared, s, d', p);
    }
  }

  lemma SyncedKeys(disk: map<Path, Bytes>, files: Files, t: Table, view: map<Path, Bytes>)
    requires Synced(disk, files, t, view)
    ensures view.Keys == t.Keys
  {
  }

  lemma PresentStays(shared: Shared, s: Session, d: Device, p: Path)
    requires p in d.disk && p in CloudView(shared.blobs, s.repo)
    ensures NextOf(shared, s.repo, s.device, d, p).Some?
  {
  }

  /**
   * A manual pull does not cost a catch-up: the cycle after it ends with current names only if and only if
   * the device had to catch up, or all names were current.
   */
  lemma PullThenCycleNames(shared: Shared, s: Session, draw: nat, d: Device)
    requires Healthy(shared, s.repo) && OpensManifest(shared.blobs, s.key.rmk, s.repo)
    requires InStep(shared, s.repo, s.device, d) && PullAllIn(shared, s, d).Done?
    ensures var o := CycleIn(shared, s, draw, PullAllIn(shared, s, d).device);
      o.Done? && (CurrentNamesOnly(o.shared, s) <==> DeviceBehind(d, s) || CurrentNamesOnly(shared, s))
  {
    hide CycleIn, PullAllIn, OpensManifest, InStep, CloudTable, CurrentNamesOnly, NamedNow, Intact, NoOrphans;
    var d' := PullAllIn(shared, s, d).device;
    PullAllStaysInStep(shared, s, d);
    PullAllKeepsMarks(shared, s, d);
    PulledKeepsRows(shared, s, draw, d);
    CycleNames(shared, s, draw, d');
    NamesByRows(shared, s);
  }

  // -------------------------------------------------------------------------
  // Runs
  // -------------------------------------------------------------------------

  predicate DatedKey(key: Option<KeyGen>, generation: int) {
    key.Some? ==> 1 <= key.value.generation <= generation
  }

  predicate DatedDevice(d: Device, generation: int) {
    DatedKey(d.key, generation) && (d.state.Some? ==> 1 <= d.state.value.generation <= generation)
  }

  /** No saved state, stored key or wrap is from generation 0 or from the future. */
  predicate Dated(w: World) {
    && 1 <= w.generation
    && (forall e :: e in w.devices ==> DatedDevice(w.devices[e], w.generation))
    && (forall e :: e in w.wraps ==> DatedKey(Some(w.wraps[e]), w.generation))
  }

  lemma CallerIsDated(w: World, id: DeviceId)
    requires Dated(w) && id in w.devices
    ensures DatedKey(CallerKey(w, id), w.generation)
  {
    assert DatedDevice(w.devices[id], w.generation);
  }

  /** However a call ends, the state it leaves is from the session's generation or the one it was from. */
  lemma OutcomeIsDated(w: World, step: Step)
    requires Inv(w) && Dated(w) && Enabled(w, step) && (step.RunCycle? || step.RunPush? || step.RunPull?)
    ensures OutcomeOf(w, step).Done? ==> DatedDevice(OutcomeOf(w, step).device, w.generation)
  {
    hide Inv, CallerKey, CycleIn, PushOnlyIn, PullAllIn, Healthy, InStep, OpensManifest, CloudTable, CurrentNamesOnly,
      KeptAreNamed, DeviceBehind;
    CallerIsDated(w, step.id);
    assert DatedDevice(w.devices[step.id], w.generation);
    InvGives(w, step.id);
    var d := w.devices[step.id];
    if CallerKey(w, step.id).Some? {
      OpensWithCallerKey(w, step.id);
      var s := Session(w.repo, step.id, CallerKey(w, step.id).value);
      OutcomeIsIn(w, step, s);
      match step
      case RunCycle(_, draw) => CycleSyncs(w.shared, s, draw, d);
      case RunPush(_, draw) =>
        PushOnlyNames(w.shared, s, draw, d);
        PushOnlyStaysInStep(w.shared, s, draw, d);
      case RunPull(_) =>
        PullAllStaysInStep(w.shared, s, d);
        if PullAllIn(w.shared, s, d).Done? {
          PullAllKeepsMarks(w.shared, s, d);
        }
    } else {
      NoKeyNoOutcome(w, step);
    }
  }

  lemma OutcomeIsIn(w: World, step: Step, s: Session)
    requires step.id in w.devices && (step.RunCycle? || step.RunPush? || step.RunPull?)
    requires CallerKey(w, step.id) == Some(s.key) && s == Session(w.repo, step.id, s.key)
    ensures OutcomeOf(w, step) == match step
      case RunCycle(id, draw) => CycleIn(w.shared, s, draw, w.devices[id])
      case RunPush(id, draw) => PushOnlyIn(w.shared, s, draw, w.devices[id])
      case _ => PullAllIn(w.shared, s, w.devices[step.id])
  {
    hide CycleIn, PushOnlyIn, PullAllIn;
  }

  lemma NoKeyNoOutcome(w: World, step: Step)
    requires step.id in w.devices && (step.RunCycle? || step.RunPush? || step.RunPull?) && CallerKey(w, step.id).None?
    ensures OutcomeOf(w, step) == Refused
  {
    hide CycleIn, PushOnlyIn, PullAllIn;
  }

  lemma StepKeepsDated(w: World, step: Step)
    requires Inv(w) && Dated(w) && Enabled(w, step)
    ensures Dated(Apply(w, step))
  {
    hide Inv, CallerKey, CycleOf, OutcomeOf, DatedKey, Rotated;
    CallerIsDated(w, step.id);
    assert DatedDevice(w.devices[step.id], w.generation);
    if step.RunCycle? || step.RunPush? || step.RunPull? {
      OutcomeIsDated(w, step);
      ApplyIsOutcome(w, step);
      OutcomeKeepsDated(w, step.id, OutcomeOf(w, step));
    } else if step.Revoke? {
      RotationKeepsDated(w, step.id, step.target, step.newRmk);
    } else if step.Approve? {
      PhraseIsDated(step.phrase, w.generation);
    }
  }

  lemma ApplyIsOutcome(w: World, step: Step)
    requires Enabled(w, step) && (step.RunCycle? || step.RunPush? || step.RunPull?)
    ensures Apply(w, step) == WithOutcome(w, step.id, OutcomeOf(w, step))
  {
    hide CycleOf, PushOnly, PullAll;
  }

  lemma OutcomeKeepsDated(w: World, id: DeviceId, o: Outcome)
    requires Dated(w) && id in w.devices && DatedKey(CallerKey(w, id), w.generation)
    requires o.Done? ==> DatedDevice(o.device, w.generation)
    ensures Dated(WithOutcome(w, id, o))
  {
    hide CallerKey;
    assert DatedDevice(w.devices[id], w.generation);
  }

  lemma PhraseIsDated(phrase: Option<Rmk>, generation: int)
    requires 1 <= generation
    ensures DatedKey(FromPhrase(phrase), generation) && DatedKey(None, generation)
  {
  }

  lemma RotationKeepsDated(w: World, id: DeviceId, target: DeviceId, newRmk: Rmk)
    requires Dated(w) && id in w.devices && id != target
    ensures Dated(Rotated(w, id, target, newRmk))
  {
    hide CloudTable;
    var w' := Rotated(w, id, target, newRmk);
    forall e | e in w'.devices ensures DatedDevice(w'.devices[e], w'.generation) {
      assert DatedDevice(w.devices[e], w.generation);
    }
  }

  lemma {:induction false} RunKeepsDated(w: World, steps: seq<Step>)
    requires Inv(w) && Dated(w) && Legal(w, steps)
    ensures Inv(Run(w, steps)) && Dated(Run(w, steps))
    decreases |steps|
  {
    hide Inv, Dated, Apply, Enabled, Prudent;
    if steps != [] {
      StepKeepsInv(w, steps[0]);
      StepKeepsDated(w, steps[0]);
      RunKeepsDated(Apply(w, steps[0]), steps[1..]);
    }
  }

  /** A turn of a device that is behind ends with current names only. */
  lemma BehindTurnCatchesUp(w: World, id: DeviceId, draw: nat)
    requires Inv(w) && id in w.devices && CallerKey(w, id).Some?
    requires DeviceBehind(w.devices[id], Session(w.repo, id, CallerKey(w, id).value))
    ensures CurrentNamesOnly(Apply(w, RunCycle(id, draw)).shared, Session(w.repo, id, CallerKey(w, id).value))
  {
    hide Inv, CallerKey, CycleIn, CycleOf, Healthy, InStep, OpensManifest, CloudTable, CurrentNamesOnly, KeptAreNamed,
      DeviceBehind;
    InvGives(w, id);
    OpensWithCallerKey(w, id);
    CycleUsesCallerKey(w, id, draw, CallerKey(w, id).value);
    CycleNames(w.shared, Session(w.repo, id, CallerKey(w, id).value), draw, w.devices[id]);
  }

  /**
   * After any run from the founding of a repo, a cycle of a device whose state was saved under another
   * generation than its session's leaves no row and no blob under a name of another key.
   */
  lemma CatchUpAfterAnyRun(repo: string, founder: DeviceId, disk: map<Path, Bytes>, rmk: Rmk, steps: seq<Step>,
                           id: DeviceId, draw: nat)
    requires Legal(Founded(repo, founder, disk, rmk), steps)
    requires var w := Run(Founded(repo, founder, disk, rmk), steps);
      && id in w.devices && CallerKey(w, id).Some? && w.devices[id].state.Some?
      && w.devices[id].state.value.generation != CallerKey(w, id).value.generation
    ensures var w := Run(Founded(repo, founder, disk, rmk), steps);
      CurrentNamesOnly(Apply(w, RunCycle(id, draw)).shared, Session(w.repo, id, CallerKey(w, id).value))
  {
    hide Inv, Legal, Run, CallerKey, Apply, CurrentNamesOnly;
    var w0 := Founded(repo, founder, disk, rmk);
    FoundedIsConsistent(repo, founder, disk, rmk);
    RunKeepsDated(w0, steps);
    assert DatedDevice(Run(w0, steps).devices[id], Run(w0, steps).generation);
    BehindTurnCatchesUp(Run(w0, steps), id, draw);
  }

  // -------------------------------------------------------------------------
  // A revocation is carried out
  // -------------------------------------------------------------------------

  lemma RotationKey(w: World, id: DeviceId, target: DeviceId, newRmk: Rmk, e: DeviceId)
    requires Enabled(w, Revoke(id, target, newRmk)) && CallerKey(w, id).Some? && Manifest in w.shared.blobs
    requires e in w.devices && e != target
    ensures var w' := Apply(w, Revoke(id, target, newRmk));
      && e in w'.devices && w'.devices[e].state == w.devices[e].state && w'.repo == w.repo
      && CallerKey(w', e) == Some(KeyGen(newRmk, w.generation + 1))
  {
    hide CloudTable;
    var w' := Apply(w, Revoke(id, target, newRmk));
    if e != id {
      SurvivorParts(w, id, target, newRmk, e);
    }
  }

  /**
   * A revocation that found a manifest is carried out by the first cycle of any survivor that had synced
   * before: nothing in the store is then named by a key the revoked device knew.
   */
  lemma RevocationIsCarriedOut(repo: string, founder: DeviceId, disk: map<Path, Bytes>, rmk: Rmk, steps: seq<Step>,
                               id: DeviceId, target: DeviceId, newRmk: Rmk, e: DeviceId, draw: nat)
    requires Legal(Founded(repo, founder, disk, rmk), steps)
    requires var w := Run(Founded(repo, founder, disk, rmk), steps);
      && Enabled(w, Revoke(id, target, newRmk)) && CallerKey(w, id).Some? && Manifest in w.shared.blobs
      && e in w.devices && e != target && w.devices[e].state.Some?
    ensures var w := Run(Founded(repo, founder, disk, rmk), steps);
      var w' := Apply(w, Revoke(id, target, newRmk));
      && e in w'.devices
      && CurrentNamesOnly(Apply(w', RunCycle(e, draw)).shared, Session(w.repo, e, KeyGen(newRmk, w.generation + 1)))
  {
    hide Inv, Legal, Run, CallerKey, Apply, CurrentNamesOnly;
    var w0 := Founded(repo, founder, disk, rmk);
    FoundedIsConsistent(repo, founder, disk, rmk);
    RunKeepsDated(w0, steps);
    var w := Run(w0, steps);
    assert DatedDevice(w.devices[e], w.generation);
    StepKeepsInv(w, Revoke(id, target, newRmk));
    RotationKey(w, id, target, newRmk, e);
    BehindTurnCatchesUp(Apply(w, Revoke(id, target, newRmk)), e, draw);
  }

  // -------------------------------------------------------------------------
  // Old names do not come back
  // -------------------------------------------------------------------------

  lemma SameKeySameNames(shared: Shared, s: Session, s': Session)
    requires s.repo == s'.repo && s.key.rmk == s'.key.rmk
    ensures CurrentNamesOnly(shared, s) <==> CurrentNamesOnly(shared, s')
  {
    hide CloudTable;
  }

  lemma NamesKept(shared: Shared, shared': Shared, s: Session)
    requires CurrentNamesOnly(shared, s)
    ensures KeptAreNamed(CloudTable(shared.blobs, s.repo), CloudTable(shared'.blobs, s.repo), s)
  {
    hide CloudTable;
  }

  lemma CallKeepsNames(w: World, step: Step, s: Session)
    requires Inv(w) && Enabled(w, step) && (step.RunCycle? || step.RunPush? || step.RunPull?)
    requires CallerKey(w, step.id) == Some(s.key) && s == Session(w.repo, step.id, s.key)
    requires CurrentNamesOnly(w.shared, s)
    ensures CurrentNamesOnly(Apply(w, step).shared, s)
  {
    hide Inv, CallerKey, CycleIn, PushOnlyIn, PullAllIn, Healthy, InStep, OpensManifest, CloudTable, CurrentNamesOnly,
      KeptAreNamed, DeviceBehind;
    InvGives(w, step.id);
    OpensWithCallerKey(w, step.id);
    OutcomeIsIn(w, step, s);
    ApplyIsOutcome(w, step);
    NamesKept(w.shared, OutcomeShared(w, step), s);
    match step
    case RunCycle(_, draw) => CycleNames(w.shared, s, draw, w.devices[step.id]);
    case RunPush(_, draw) => PushOnlyNames(w.shared, s, draw, w.devices[step.id]);
    case RunPull(_) => PullAllStaysInStep(w.shared, s, w.devices[step.id]);
  }

  function OutcomeShared(w: World, step: Step): Shared
    requires step.id in w.devices && (step.RunCycle? || step.RunPush? || step.RunPull?)
  {
    var o := OutcomeOf(w, step);
    if o.Done? then o.shared else w.shared
  }

  lemma StepKeepsNames(w: World, rmk: Rmk, step: Step, s: Session)
    requires Inv(w) && Keyed(w, rmk) && Enabled(w, step) && !step.Revoke?
    requires s.repo == w.repo && s.key.rmk == rmk && CurrentNamesOnly(w.shared, s)
    ensures CurrentNamesOnly(Apply(w, step).shared, s) && Apply(w, step).repo == w.repo
  {
    hide Inv, Keyed, CallerKey, CurrentNamesOnly, CycleOf, OutcomeOf;
    KeyedCaller(w, rmk, step.id);
    if step.RunCycle? || step.RunPush? || step.RunPull? {
      var s' := Session(w.repo, step.id, CallerKey(w, step.id).value);
      SameKeySameNames(w.shared, s, s');
      CallKeepsNames(w, step, s');
      SameKeySameNames(Apply(w, step).shared, s, s');
    }
  }

  /** Once nothing is named by another key, nothing will be before the next rotation or wrong phrase. */
  lemma {:induction false} CurrentNamesStay(w: World, rmk: Rmk, steps: seq<Step>, s: Session)
    requires Inv(w) && Keyed(w, rmk) && Legal(w, steps) && OrdinaryRun(w, steps)
    requires s.repo == w.repo && s.key.rmk == rmk && CurrentNamesOnly(w.shared, s)
    ensures CurrentNamesOnly(Run(w, steps).shared, s)
    decreases |steps|
  {
    hide Inv, Keyed, Apply, Enabled, Prudent, Ordinary, CurrentNamesOnly;
    if steps != [] {
      OrdinaryIsNoRotation(w, steps[0]);
      StepKeepsNames(w, rmk, steps[0], s);
      StepKeepsInv(w, steps[0]);
      StepKeepsKey(w, rmk, steps[0]);
      CurrentNamesStay(Apply(w, steps[0]), rmk, steps[1..], s);
    }
  }

  lemma OrdinaryIsNoRotation(w: World, step: Step)
    requires Enabled(w, step) && Ordinary(w, step)
    ensures !step.Revoke?
  {
  }
}
