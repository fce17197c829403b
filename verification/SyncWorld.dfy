/** The whole system: any number of devices, one cloud, any interleaving of calls. */
module SyncWorld {
  import opened Prelude
  import opened SyncCrypto
  import opened SyncModel
  import opened SyncPhases
  import opened SyncAgreement
  import opened SyncCalls

  datatype World = World(
    repo: string,
    shared: Shared,
    wraps: map<DeviceId, KeyGen>,
    generation: int,
    devices: map<DeviceId, Device>)

  datatype Step =
    | Edit(id: DeviceId, rel: Path, bytes: Bytes)
    | Erase(id: DeviceId, rel: Path)
    | RunCycle(id: DeviceId, draw: nat)
    | RunPush(id: DeviceId, draw: nat)
    | RunPull(id: DeviceId)
    | Approve(id: DeviceId, newcomer: DeviceId, disk: map<Path, Bytes>, phrase: Option<Rmk>)
    | Revoke(id: DeviceId, target: DeviceId, newRmk: Rmk)
    | TurnedDown(id: DeviceId)

  /** A repo as its founder creates it: one device, its key stored locally, no wrap, nothing pushed. */
  function Founded(repo: string, founder: DeviceId, disk: map<Path, Bytes>, rmk: Rmk): World {
    World(repo, Shared([], map[]), map[], 1, map[founder := Device(disk, None, Some(KeyGen(rmk, 1)))])
  }

  function CallerKey(w: World, id: DeviceId): Option<KeyGen>
    requires id in w.devices
  {
    CurrentRmk(w.devices[id].key, Lookup(w.wraps, id), w.shared.blobs, w.repo)
  }

  function CycleOf(w: World, id: DeviceId, draw: nat): Outcome
    requires id in w.devices
  {
    Cycle(w.shared, w.repo, id, Lookup(w.wraps, id), draw, w.devices[id])
  }

  /** The key a device starts with: what its recovery phrase spells, if it enrolled with one. */
  function FromPhrase(phrase: Option<Rmk>): Option<KeyGen> {
    if phrase.Some? then Some(KeyGen(phrase.value, 1)) else None
  }

  /** Opening a session stores the key it found; without one nothing changes. */
  function Opened(w: World, id: DeviceId): World
    requires id in w.devices
  {
    var key := CallerKey(w, id);
    if key.Some? then w.(devices := w.devices[id := w.devices[id].(key := key)]) else w
  }

  /** A call that gets no further than its session has still opened that. */
  function WithOutcome(w: World, id: DeviceId, o: Outcome): World
    requires id in w.devices
  {
    if o.Done? then w.(shared := o.shared, devices := w.devices[id := o.device]) else Opened(w, id)
  }

  /** Rotation: the manifest is re-sealed under the fresh key, every survivor but the caller gets a wrap. */
  function Rotated(w: World, id: DeviceId, target: DeviceId, newRmk: Rmk): World
    requires id in w.devices && id != target
  {
    var key := KeyGen(newRmk, w.generation + 1);
    var devices := w.devices - {target};
    World(w.repo,
          if Manifest in w.shared.blobs
          then Shared(w.shared.ops + [Op(id, 1, {}, {}, true)],
                      w.shared.blobs[Manifest := SealedTable(newRmk, w.repo, CloudTable(w.shared.blobs, w.repo))])
          else w.shared,
          w.wraps + map e | e in devices && e != id :: key,
          w.generation + 1,
          devices[id := devices[id].(key := Some(key))])
  }

  predicate Authored(ops: seq<Op>, id: DeviceId) {
    exists i :: 0 <= i < |ops| && ops[i].device == id
  }

  /** A step the system can take: its caller is enrolled; newcomers are new; rotations draw a new key. */
  predicate Enabled(w: World, step: Step) {
    && step.id in w.devices
    && (step.Approve? ==> step.newcomer !in w.devices && !Authored(w.shared.ops, step.newcomer))
    && (step.Revoke? ==> step.target in w.devices && step.target != step.id
                         && forall e :: e in w.devices && w.devices[e].key.Some? ==>
                           w.devices[e].key.value.rmk != step.newRmk)
  }

  function Apply(w: World, step: Step): World
    requires Enabled(w, step)
  {
    var d := w.devices[step.id];
    match step
    case Edit(id, rel, bytes) => w.(devices := w.devices[id := d.(disk := d.disk[rel := bytes])])
    case Erase(id, rel) => w.(devices := w.devices[id := d.(disk := d.disk - {rel})])
    case RunCycle(id, draw) => WithOutcome(w, id, CycleOf(w, id, draw))
    case RunPush(id, draw) => WithOutcome(w, id, PushOnly(w.shared, w.repo, id, Lookup(w.wraps, id), draw, d))
    case RunPull(id) => WithOutcome(w, id, PullAll(w.shared, w.repo, id, Lookup(w.wraps, id), d))
    case Approve(id, newcomer, disk, phrase) =>
      (match CallerKey(w, id)
       case None => w
       case Some(key) => w.(wraps := w.wraps[newcomer := key],
                            devices := Opened(w, id).devices[newcomer := Device(disk, None, FromPhrase(phrase))]))
    case Revoke(id, target, newRmk) =>
      if CallerKey(w, id).Some? then Rotated(w, id, target, newRmk) else w
    case TurnedDown(id) => Opened(w, id)
  }

  // -------------------------------------------------------------------------
  // The global invariant
  // -------------------------------------------------------------------------

  const NEWCOMER := Device(map[], None, None)

  /** The cloud is consistent and every device, present or yet to come, is in step with it. */
  ghost predicate Inv(w: World) {
    && Healthy(w.shared, w.repo)
    && (forall id :: id in w.devices ==> InStep(w.shared, w.repo, id, w.devices[id]))
    && (forall id :: !Authored(w.shared.ops, id) ==> InStep(w.shared, w.repo, id, NEWCOMER))
  }

  lemma InvGives(w: World, id: DeviceId)
    requires Inv(w) && id in w.devices
    ensures Healthy(w.shared, w.repo) && InStep(w.shared, w.repo, id, w.devices[id])
  {
  }

  lemma FoundedIsConsistent(repo: string, founder: DeviceId, disk: map<Path, Bytes>, rmk: Rmk)
    ensures Inv(Founded(repo, founder, disk, rmk))
  {
  }

  /** A manual push runs only where it is safe (see `SafePush`). */
  predicate Prudent(w: World, step: Step)
    requires Enabled(w, step)
  {
    step.RunPush? ==>
      var key := CallerKey(w, step.id);
      key.Some? ==> SafePush(w.shared, Session(w.repo, step.id, key.value), w.devices[step.id])
  }

  /** One device moved the cloud by a described change and is itself in step afterwards. */
  lemma MovedKeepsInv(w: World, w': World, id: DeviceId)
    requires Inv(w) && id in w.devices && w'.repo == w.repo
    requires w'.devices.Keys <= w.devices.Keys && id in w'.devices
    requires forall e :: e in w'.devices && e != id ==> w'.devices[e] == w.devices[e]
    requires Healthy(w'.shared, w.repo) && Advances(w.shared, w'.shared, w.repo, id)
    requires InStep(w'.shared, w.repo, id, w'.devices[id])
    ensures Inv(w')
  {
    hide Healthy, InStep, Advances;
    forall e | e in w'.devices ensures InStep(w'.shared, w.repo, e, w'.devices[e]) {
      if e != id {
        AdvanceKeepsOthers(w.shared, w'.shared, w.repo, id, e, w.devices[e]);
      }
    }
    forall e | !Authored(w'.shared.ops, e) ensures InStep(w'.shared, w.repo, e, NEWCOMER) {
      NewcomerStays(w.shared, w'.shared, w.repo, id, e);
    }
  }

  lemma NewcomerStays(shared: Shared, shared': Shared, repo: string, id: DeviceId, e: DeviceId)
    requires Advances(shared, shared', repo, id) && !Authored(shared'.ops, e)
    requires !Authored(shared.ops, e) ==> InStep(shared, repo, e, NEWCOMER)
    ensures InStep(shared', repo, e, NEWCOMER)
  {
    forall i | 0 <= i < |shared.ops| ensures shared.ops[i].device != e {
      assert shared.ops[i] == shared'.ops[i];
    }
    if shared'.ops == shared.ops {
      var n := Pending(shared, e, NEWCOMER);
      DescribedChangeIsTracked(map[], {}, {}, n.put, n.del,
        CloudTable(shared.blobs, repo), CloudView(shared.blobs, repo),
        CloudTable(shared'.blobs, repo), CloudView(shared'.blobs, repo));
      assert n.put + {} - {} == n.put && n.del - {} + {} == n.del;
    } else {
      assert shared'.ops[|shared.ops|].device != e;
      AdvanceKeepsOthers(shared, shared', repo, id, e, NEWCOMER);
    }
  }

  // -------------------------------------------------------------------------
  // Every step keeps it
  // -------------------------------------------------------------------------

  lemma OpensWithCallerKey(w: World, id: DeviceId)
    requires id in w.devices && CallerKey(w, id).Some?
    ensures OpensManifest(w.shared.blobs, CallerKey(w, id).value.rmk, w.repo)
  {
  }

  lemma EditKeepsInv(w: World, id: DeviceId, disk: map<Path, Bytes>)
    requires Inv(w) && id in w.devices
    ensures Inv(w.(devices := w.devices[id := w.devices[id].(disk := disk)]))
  {
    hide Healthy, InStep;
    SameRecords(w.shared, w.repo, id, w.devices[id], w.devices[id].(disk := disk));
  }

  /**
   * A cycle is refused only for want of a key; otherwise it succeeds, keeps the invariant,
   * and leaves its device in agreement with the cloud.
   */
  lemma CycleKeepsInv(w: World, id: DeviceId, draw: nat)
    requires Inv(w) && id in w.devices
    ensures var w' := Apply(w, RunCycle(id, draw));
      && Inv(w')
      && (CallerKey(w, id).None? ==> CycleOf(w, id, draw) == Refused && w' == w)
      && (CallerKey(w, id).Some? ==>
            && CycleOf(w, id, draw).Done?
            && InAgreement(w', id)
            && w'.devices[id].state.value.cursor == |w.shared.ops|
            && w'.devices[id].state.value.generation == CallerKey(w, id).value.generation
            && w'.devices[id].key == CallerKey(w, id)
            && OpensManifest(w'.shared.blobs, CallerKey(w, id).value.rmk, w.repo)
            && (Manifest in w.shared.blobs ==> Manifest in w'.shared.blobs))
  {
    hide Healthy, InStep, Synced, Advances, CycleIn, CloudTable, CloudView, OpensManifest;
    if CallerKey(w, id).Some? {
      var s := Session(w.repo, id, CallerKey(w, id).value);
      var d := w.devices[id];
      OpensWithCallerKey(w, id);
      CycleSyncs(w.shared, s, draw, d);
      var o := CycleIn(w.shared, s, draw, d);
      assert CycleOf(w, id, draw) == o;
      SyncedIsInStep(w.shared, o.shared, w.repo, id, o.device);
      MovedKeepsInv(w, WithOutcome(w, id, o), id);
    }
  }

  /** The device's files are exactly what the cloud decrypts to, and its state records exactly that. */
  predicate InAgreement(w: World, id: DeviceId) {
    && id in w.devices && w.devices[id].state.Some?
    && Synced(w.devices[id].disk, w.devices[id].state.value.files,
              CloudTable(w.shared.blobs, w.repo), CloudView(w.shared.blobs, w.repo))
  }

  lemma PushKeepsInv(w: World, id: DeviceId, draw: nat)
    requires Inv(w) && id in w.devices && Prudent(w, RunPush(id, draw))
    ensures Inv(Apply(w, RunPush(id, draw)))
  {
    hide Healthy, InStep, Advances, PushOnlyIn, SafePush, OpensManifest;
    if CallerKey(w, id).Some? {
      var s := Session(w.repo, id, CallerKey(w, id).value);
      OpensWithCallerKey(w, id);
      PushOnlyStaysInStep(w.shared, s, draw, w.devices[id]);
      var o := PushOnlyIn(w.shared, s, draw, w.devices[id]);
      assert PushOnly(w.shared, w.repo, id, Lookup(w.wraps, id), draw, w.devices[id]) == o;
      MovedKeepsInv(w, WithOutcome(w, id, o), id);
    }
  }

  lemma OpenedKeepsInv(w: World, id: DeviceId)
    requires Inv(w) && id in w.devices
    ensures Inv(Opened(w, id))
  {
    hide Healthy, InStep, CallerKey;
    SameRecords(w.shared, w.repo, id, w.devices[id], w.devices[id].(key := CallerKey(w, id)));
  }

  lemma PullKeepsInv(w: World, id: DeviceId)
    requires Inv(w) && id in w.devices
    ensures Inv(Apply(w, RunPull(id)))
  {
    hide Healthy, InStep, Advances, PullAllIn, OpensManifest;
    if CallerKey(w, id).Some? {
      var s := Session(w.repo, id, CallerKey(w, id).value);
      OpensWithCallerKey(w, id);
      PullAllStaysInStep(w.shared, s, w.devices[id]);
      var o := PullAllIn(w.shared, s, w.devices[id]);
      if o.Done? {
        NothingAdvances(w.shared, w.repo, id);
        MovedKeepsInv(w, WithOutcome(w, id, o), id);
      }
    }
    OpenedKeepsInv(w, id);
  }

  /** A device is in step by its records alone. */
  lemma SameRecords(shared: Shared, repo: string, id: DeviceId, d: Device, d': Device)
    requires InStep(shared, repo, id, d) && RecordsOf(d) == RecordsOf(d')
    ensures InStep(shared, repo, id, d')
  {
  }

  lemma ApproveKeepsInv(w: World, id: DeviceId, newcomer: DeviceId, disk: map<Path, Bytes>, phrase: Option<Rmk>)
    requires Inv(w) && Enabled(w, Approve(id, newcomer, disk, phrase))
    ensures Inv(Apply(w, Approve(id, newcomer, disk, phrase)))
  {
    hide Healthy, InStep, CurrentRmk;
    OpenedKeepsInv(w, id);
    SameRecords(w.shared, w.repo, newcomer, NEWCOMER, Device(disk, None, FromPhrase(phrase)));
  }

  /** Re-sealing the manifest changes no row and nothing a row decrypts to. */
  lemma ResealKeepsView(w: World, id: DeviceId, target: DeviceId, newRmk: Rmk)
    requires Healthy(w.shared, w.repo) && id in w.devices && id != target
    ensures var w' := Rotated(w, id, target, newRmk);
      && CloudTable(w'.shared.blobs, w.repo) == CloudTable(w.shared.blobs, w.repo)
      && CloudView(w'.shared.blobs, w.repo) == CloudView(w.shared.blobs, w.repo)
      && Healthy(w'.shared, w.repo)
      && Advances(w.shared, w'.shared, w.repo, id)
  {
    var t := CloudTable(w.shared.blobs, w.repo);
    var w' := Rotated(w, id, target, newRmk);
    forall p ensures Lookup(View(w'.shared.blobs, w.repo, t), p) == Lookup(View(w.shared.blobs, w.repo, t), p) {
    }
    SameLookups(View(w'.shared.blobs, w.repo, t), View(w.shared.blobs, w.repo, t));
    assert CloudTable(w'.shared.blobs, w.repo) == t;
    assert forall p :: p in t ==> Read(w'.shared.blobs, w.repo, p, t[p]) == Read(w.shared.blobs, w.repo, p, t[p]);
  }

  /** The rotating device itself only gains an op of its own and a key. */
  lemma RotatorStaysInStep(w: World, id: DeviceId, target: DeviceId, newRmk: Rmk)
    requires Healthy(w.shared, w.repo) && id in w.devices && id != target
    requires InStep(w.shared, w.repo, id, w.devices[id])
    ensures var w' := Rotated(w, id, target, newRmk); InStep(w'.shared, w.repo, id, w'.devices[id])
  {
    hide Healthy, Advances, Tracks, Collapse, OpenTable;
    var w' := Rotated(w, id, target, newRmk);
    ResealKeepsView(w, id, target, newRmk);
    OwnOpIsSkipped(w.shared, w'.shared, w.repo, id, RecordsOf(w.devices[id]).cursor);
    assert RecordsOf(w'.devices[id]) == RecordsOf(w.devices[id]);
  }

  lemma SurvivorsUnchanged(w: World, id: DeviceId, target: DeviceId, newRmk: Rmk)
    requires id in w.devices && id != target
    ensures var w' := Rotated(w, id, target, newRmk);
      && w'.devices.Keys == w.devices.Keys - {target}
      && forall e :: e in w'.devices && e != id ==> w'.devices[e] == w.devices[e]
  {
  }

  lemma SameRepo(w: World, id: DeviceId, target: DeviceId, newRmk: Rmk)
    requires id in w.devices && id != target
    ensures Rotated(w, id, target, newRmk).repo == w.repo
  {
  }

  lemma RotatedKeepsInv(w: World, id: DeviceId, target: DeviceId, newRmk: Rmk)
    requires Inv(w) && id in w.devices && id != target
    ensures Inv(Rotated(w, id, target, newRmk))
  {
    hide Healthy, Advances, InStep, Rotated;
    SameRepo(w, id, target, newRmk);
    var w' := Rotated(w, id, target, newRmk);
    SurvivorsUnchanged(w, id, target, newRmk);
    ResealKeepsView(w, id, target, newRmk);
    RotatorStaysInStep(w, id, target, newRmk);
    MovedKeepsInv(w, w', id);
  }

  lemma RevokeKeepsInv(w: World, id: DeviceId, target: DeviceId, newRmk: Rmk)
    requires Inv(w) && Enabled(w, Revoke(id, target, newRmk))
    ensures Inv(Apply(w, Revoke(id, target, newRmk)))
  {
    hide Inv, CurrentRmk;
    RotatedKeepsInv(w, id, target, newRmk);
  }

  lemma StepKeepsInv(w: World, step: Step)
    requires Inv(w) && Enabled(w, step) && Prudent(w, step)
    ensures Inv(Apply(w, step))
  {
    match step
    case Edit(id, rel, bytes) => EditKeepsInv(w, id, w.devices[id].disk[rel := bytes]);
    case Erase(id, rel) => EditKeepsInv(w, id, w.devices[id].disk - {rel});
    case RunCycle(id, draw) => CycleKeepsInv(w, id, draw);
    case RunPush(id, draw) => PushKeepsInv(w, id, draw);
    case RunPull(id) => PullKeepsInv(w, id);
    case Approve(id, newcomer, disk, phrase) => ApproveKeepsInv(w, id, newcomer, disk, phrase);
    case Revoke(id, target, newRmk) => RevokeKeepsInv(w, id, target, newRmk);
    case TurnedDown(id) => OpenedKeepsInv(w, id);
  }

  // -------------------------------------------------------------------------
  // Runs
  // -------------------------------------------------------------------------

  /** A run of enabled, prudent steps. */
  predicate Legal(w: World, steps: seq<Step>)
    decreases |steps|
  {
    steps == [] || (Enabled(w, steps[0]) && Prudent(w, steps[0]) && Legal(Apply(w, steps[0]), steps[1..]))
  }

  function Run(w: World, steps: seq<Step>): World
    requires Legal(w, steps)
    decreases |steps|
  {
    if steps == [] then w else Run(Apply(w, steps[0]), steps[1..])
  }

  lemma {:induction false} RunKeepsInv(w: World, steps: seq<Step>)
    requires Inv(w) && Legal(w, steps)
    ensures Inv(Run(w, steps))
    decreases |steps|
  {
    if steps != [] {
      StepKeepsInv(w, steps[0]);
      RunKeepsInv(Apply(w, steps[0]), steps[1..]);
    }
  }

  /**
   * After any run from the founding of a repo, a cycle by any device is either refused, for want of
   * a key and without touching anything, or succeeds; and right after it succeeds that device's
   * files are exactly the plaintext of the cloud and its state records exactly that.
   */
  lemma CycleAfterAnyRunAgrees(repo: string, founder: DeviceId, disk: map<Path, Bytes>, rmk: Rmk,
                               steps: seq<Step>, id: DeviceId, draw: nat)
    requires Legal(Founded(repo, founder, disk, rmk), steps)
    requires id in Run(Founded(repo, founder, disk, rmk), steps).devices
    ensures var w := Run(Founded(repo, founder, disk, rmk), steps);
      if CallerKey(w, id).None? then CycleOf(w, id, draw) == Refused
      else CycleOf(w, id, draw).Done? && InAgreement(Apply(w, RunCycle(id, draw)), id)
  {
    FoundedIsConsistent(repo, founder, disk, rmk);
    RunKeepsInv(Founded(repo, founder, disk, rmk), steps);
    CycleKeepsInv(Run(Founded(repo, founder, disk, rmk), steps), id, draw);
  }
}
