/** Where a rotation costs a device its key: the exact condition, and a run that gets there. */
module SyncLockout {
  import opened Prelude
  import opened SyncCrypto
  import opened SyncModel
  import opened SyncPhases
  import opened SyncAgreement
  import opened SyncCalls
  import opened SyncSafety
  import opened SyncWorld
  import opened SyncConvergence

  // -------------------------------------------------------------------------
  // Rotations after which no cycle is refused
  // -------------------------------------------------------------------------

  /** Every enrolled device's next cycle goes through. */
  ghost predicate AllServed(w: World) {
    forall id, draw :: id in w.devices ==> CycleOf(w, id, draw).Done?
  }

  /** A run without rotations and without wrong phrases. */
  predicate OrdinaryRun(w: World, steps: seq<Step>)
    requires Legal(w, steps)
    decreases |steps|
  {
    steps == [] || (Ordinary(w, steps[0]) && OrdinaryRun(Apply(w, steps[0]), steps[1..]))
  }

  /** However the system goes on until the next rotation or wrong phrase, no cycle is refused. */
  ghost predicate ServedUntilRotation(w: World) {
    forall steps :: Legal(w, steps) && OrdinaryRun(w, steps) ==> AllServed(Run(w, steps))
  }

  lemma KeyedIsServed(w: World, rmk: Rmk)
    requires Inv(w) && Keyed(w, rmk)
    ensures AllServed(w)
  {
    hide Inv, Keyed, CycleOf;
    forall id, draw | id in w.devices ensures CycleOf(w, id, draw).Done? {
      KeyedCaller(w, rmk, id);
      CycleKeepsInv(w, id, draw);
    }
  }

  lemma {:induction false} OrdinaryKeepsKeyed(w: World, rmk: Rmk, steps: seq<Step>)
    requires Inv(w) && Keyed(w, rmk) && Legal(w, steps) && OrdinaryRun(w, steps)
    ensures Inv(Run(w, steps)) && Keyed(Run(w, steps), rmk)
    decreases |steps|
  {
    hide Inv, Keyed, Apply, Enabled, Prudent, Ordinary;
    if steps != [] {
      StepKeepsInv(w, steps[0]);
      StepKeepsKey(w, rmk, steps[0]);
      OrdinaryKeepsKeyed(Apply(w, steps[0]), rmk, steps[1..]);
    }
  }

  lemma KeyedStaysServed(w: World, rmk: Rmk)
    requires Inv(w) && Keyed(w, rmk)
    ensures ServedUntilRotation(w)
  {
    hide Inv, Keyed, Legal, Run, OrdinaryRun, AllServed;
    forall steps | Legal(w, steps) && OrdinaryRun(w, steps) ensures AllServed(Run(w, steps)) {
      OrdinaryKeepsKeyed(w, rmk, steps);
      KeyedIsServed(Run(w, steps), rmk);
    }
  }

  // -------------------------------------------------------------------------
  // Two keys about before the first push
  // -------------------------------------------------------------------------

  lemma {:induction false} LongerThanAll(names: set<string>) returns (n: nat)
    ensures forall s :: s in names ==> |s| < n
    decreases |names|
  {
    n := 0;
    if names != {} {
      var s :| s in names;
      n := LongerThanAll(names - {s});
      n := n + |s| + 1;
    }
  }

  /** There is always a name not taken yet. */
  lemma UnusedName(names: set<string>) returns (s: string)
    ensures s !in names
  {
    var n := LongerThanAll(names);
    s := seq(n, i => 'a');
  }

  lemma UnusedDevice(w: World) returns (id: DeviceId)
    ensures id !in w.devices && !Authored(w.shared.ops, id)
  {
    var authors := set i | 0 <= i < |w.shared.ops| :: w.shared.ops[i].device;
    id := UnusedName(w.devices.Keys + authors);
    forall i | 0 <= i < |w.shared.ops| ensures w.shared.ops[i].device != id {
      assert w.shared.ops[i].device in authors;
    }
  }

  /** Nothing is pushed yet; a newcomer holds nothing but a wrap of `key`, while `other` uses another key. */
  predicate KeysApart(w: World, newcomer: DeviceId, key: Rmk, other: DeviceId, old': KeyGen) {
    && newcomer in w.devices && other in w.devices && newcomer != other
    && w.devices[newcomer].key.None? && newcomer in w.wraps && w.wraps[newcomer].rmk == key
    && CallerKey(w, other) == Some(old') && key != old'.rmk && Manifest !in w.shared.blobs
  }

  lemma ApartParts(w: World, newcomer: DeviceId, key: Rmk, other: DeviceId, old': KeyGen)
    requires KeysApart(w, newcomer, key, other, old')
    ensures newcomer in w.devices && newcomer != other && w.devices[newcomer].key.None?
    ensures newcomer in w.wraps && w.wraps[newcomer].rmk == key
  {
  }

  lemma LetIn(w: World, id: DeviceId, newcomer: DeviceId, other: DeviceId)
    requires id in w.devices && CallerKey(w, id).Some? && other in w.devices && CallerKey(w, other).Some?
    requires newcomer !in w.devices && Enabled(w, Approve(id, newcomer, map[], None)) && Manifest !in w.shared.blobs
    requires CallerKey(w, id).value.rmk != CallerKey(w, other).value.rmk
    ensures var w' := Apply(w, Approve(id, newcomer, map[], None));
      && KeysApart(w', newcomer, CallerKey(w, id).value.rmk, other, CallerKey(w, other).value)
      && id in w'.devices && w'.devices[id].key == CallerKey(w, id) && Lookup(w'.wraps, id) == Lookup(w.wraps, id)
      && RightPhrase(w, id, None)
  {
  }

  /** A file the device has never recorded. */
  predicate Unrecorded(w: World, id: DeviceId, rel: Path) {
    id in w.devices && rel in w.devices[id].disk && rel !in RecordsOf(w.devices[id]).files
  }

  lemma NewFile(w: World, newcomer: DeviceId, key: Rmk, other: DeviceId, old': KeyGen, rel: Path)
    requires KeysApart(w, newcomer, key, other, old') && rel !in RecordsOf(w.devices[other]).files
    ensures var w' := Apply(w, Edit(other, rel, []));
      KeysApart(w', newcomer, key, other, old') && Unrecorded(w', other, rel)
  {
  }

  /** Then `other` pushes first, and seals the manifest with its key. */
  lemma OldKeySeals(w: World, newcomer: DeviceId, key: Rmk, other: DeviceId, old': KeyGen, rel: Path)
    requires Inv(w) && KeysApart(w, newcomer, key, other, old') && Unrecorded(w, other, rel)
    ensures var w' := Apply(w, RunCycle(other, 0));
      && Manifest in w'.shared.blobs && OpenTable(w'.shared.blobs[Manifest], old'.rmk, w.repo).Some?
      && w'.repo == w.repo && w'.wraps == w.wraps
      && w'.devices.Keys == w.devices.Keys && forall e :: e in w.devices && e != other ==> w'.devices[e] == w.devices[e]
  {
    hide Inv, CycleIn, Healthy, InStep, Synced, CloudView, OpenTable, CycleOf, CallerKey;
    CycleUsesCallerKey(w, other, 0, old');
    CycleKeepsInv(w, other, 0);
    LocalWins(w.shared, Session(w.repo, other, old'), 0, w.devices[other], rel);
    HasView(Apply(w, RunCycle(other, 0)).shared.blobs, w.repo, rel);
  }

  lemma HasView(blobs: map<Name, Blob>, repo: string, p: Path)
    requires p in CloudView(blobs, repo)
    ensures Manifest in blobs
  {
  }

  /** A device is refused when the manifest opens neither with its key nor with its wrap. */
  lemma LockedOut(w: World, id: DeviceId, sealedWith: Rmk, draw: nat)
    requires id in w.devices && Manifest in w.shared.blobs
      && OpenTable(w.shared.blobs[Manifest], sealedWith, w.repo).Some?
    requires w.devices[id].key.Some? ==> w.devices[id].key.value.rmk != sealedWith
    requires Lookup(w.wraps, id).Some? ==> Lookup(w.wraps, id).value.rmk != sealedWith
    ensures CycleOf(w, id, draw) == Refused
  {
    hide CycleIn;
  }

  /** Approve a newcomer, make a file on `other`, let `other` cycle. */
  function Overtaking(id: DeviceId, newcomer: DeviceId, other: DeviceId, rel: Path): seq<Step> {
    [Approve(id, newcomer, map[], None), Edit(other, rel, []), RunCycle(other, 0)]
  }

  lemma ThreeSteps(w0: World, steps: seq<Step>, w1: World, w2: World, w3: World)
    requires |steps| == 3 && forall i :: 0 <= i < 3 ==> !steps[i].RunPush?
    requires Enabled(w0, steps[0]) && w1 == Apply(w0, steps[0]) && Enabled(w1, steps[1]) && w2 == Apply(w1, steps[1])
    requires Enabled(w2, steps[2]) && w3 == Apply(w2, steps[2])
    ensures Legal(w0, steps) && Run(w0, steps) == w3
  {
    hide Enabled, Apply;
    assert Legal(w3, steps[3..]) && Run(w3, steps[3..]) == w3;
    assert steps[2..][1..] == steps[3..] && Legal(w2, steps[2..]) && Run(w2, steps[2..]) == w3;
    assert steps[1..][1..] == steps[2..] && Legal(w1, steps[1..]) && Run(w1, steps[1..]) == w3;
  }

  lemma OvertakingIsOrdinary(w0: World, steps: seq<Step>)
    requires |steps| == 3 && Legal(w0, steps) && steps[0].Approve? && steps[0].phrase.None?
    requires !steps[1].Approve? && !steps[1].Revoke? && !steps[2].Approve? && !steps[2].Revoke?
    ensures OrdinaryRun(w0, steps)
  {
    hide Apply, Prudent;
    var w1 := Apply(w0, steps[0]);
    var w2 := Apply(w1, steps[1..][0]);
    assert steps[1..][1..] == steps[2..] && steps[2..][1..] == steps[3..] == [];
    assert OrdinaryRun(w2, steps[2..]);
    assert OrdinaryRun(w1, steps[1..]);
  }

  /**
   * With nothing pushed yet and two keys in use, three ordinary steps make the newcomer's next cycle a
   * refused one, and that of the device that let it in too, if it has no wrap of the other key.
   */
  lemma OvertakingLocksOut(w: World, id: DeviceId, other: DeviceId) returns (newcomer: DeviceId, rel: Path)
    requires Inv(w) && id in w.devices && CallerKey(w, id).Some? && other in w.devices && CallerKey(w, other).Some?
    requires CallerKey(w, id).value.rmk != CallerKey(w, other).value.rmk && Manifest !in w.shared.blobs
    ensures Legal(w, Overtaking(id, newcomer, other, rel)) && OrdinaryRun(w, Overtaking(id, newcomer, other, rel))
    ensures var w' := Run(w, Overtaking(id, newcomer, other, rel));
      && newcomer in w'.devices && id in w'.devices
      && (forall draw :: CycleOf(w', newcomer, draw) == Refused)
      && (Lookup(w.wraps, id).None? || Lookup(w.wraps, id).value.rmk != CallerKey(w, other).value.rmk ==>
            forall draw :: CycleOf(w', id, draw) == Refused)
  {
    hide Inv, CycleOf, CallerKey, OpenTable, KeysApart, Unrecorded;
    var key, old' := CallerKey(w, id).value.rmk, CallerKey(w, other).value;
    newcomer := UnusedDevice(w);
    var w1 := Apply(w, Approve(id, newcomer, map[], None));
    StepKeepsInv(w, Approve(id, newcomer, map[], None));
    LetIn(w, id, newcomer, other);
    rel := UnusedName(RecordsOf(w1.devices[other]).files.Keys);
    var w2 := Apply(w1, Edit(other, rel, []));
    StepKeepsInv(w1, Edit(other, rel, []));
    NewFile(w1, newcomer, key, other, old', rel);
    var w3 := Apply(w2, RunCycle(other, 0));
    OldKeySeals(w2, newcomer, key, other, old', rel);
    ThreeSteps(w, Overtaking(id, newcomer, other, rel), w1, w2, w3);
    OvertakingIsOrdinary(w, Overtaking(id, newcomer, other, rel));
    ApartParts(w2, newcomer, key, other, old');
    forall draw {
      LockedOut(w3, newcomer, old'.rmk, draw);
    }
    if Lookup(w.wraps, id).None? || Lookup(w.wraps, id).value.rmk != old'.rmk {
      forall draw {
        LockedOut(w3, id, old'.rmk, draw);
      }
    }
  }

  // -------------------------------------------------------------------------
  // The exact conditions
  // -------------------------------------------------------------------------

  lemma NoKeyIsRefused(w: World, id: DeviceId)
    requires id in w.devices && CallerKey(w, id).None?
    ensures !ServedUntilRotation(w)
  {
    hide CycleIn;
    assert Legal(w, []) && OrdinaryRun(w, []) && Run(w, []) == w;
    assert CycleOf(w, id, 0) == Refused;
  }

  /** Once there is a manifest, no two devices can use different keys. */
  lemma ManifestDecides(w: World, id: DeviceId, other: DeviceId)
    requires Manifest in w.shared.blobs && id in w.devices && other in w.devices
    requires CallerKey(w, id).Some? && CallerKey(w, other).Some?
    ensures CallerKey(w, id).value.rmk == CallerKey(w, other).value.rmk
  {
  }

  lemma TwoKeysRefuse(w: World, id: DeviceId, other: DeviceId)
    requires Inv(w) && id in w.devices && CallerKey(w, id).Some? && other in w.devices && CallerKey(w, other).Some?
    requires CallerKey(w, id).value.rmk != CallerKey(w, other).value.rmk
    ensures !ServedUntilRotation(w)
  {
    hide Inv, CycleOf, Legal, Run, CallerKey, OrdinaryRun;
    if Manifest in w.shared.blobs {
      ManifestDecides(w, id, other);
    }
    var newcomer, rel := OvertakingLocksOut(w, id, other);
    var steps := Overtaking(id, newcomer, other, rel);
    assert CycleOf(Run(w, steps), newcomer, 0) == Refused;
    assert !AllServed(Run(w, steps));
  }

  /**
   * However it came about, no cycle is refused before the next rotation if and only if all devices use
   * one key.
   */
  lemma ServedIffKeyed(w: World)
    requires Inv(w)
    ensures ServedUntilRotation(w) <==> exists rmk :: Keyed(w, rmk)
  {
    hide Inv, CallerKey, ServedUntilRotation;
    if rmk :| Keyed(w, rmk) {
      KeyedStaysServed(w, rmk);
    } else {
      assert !Keyed(w, Rmk(0));
      var id :| id in w.devices;
      if CallerKey(w, id).None? {
        NoKeyIsRefused(w, id);
      } else {
        var rmk := CallerKey(w, id).value.rmk;
        assert !Keyed(w, rmk);
        var other :| other in w.devices && !Uses(w, other, rmk);
        if CallerKey(w, other).None? {
          NoKeyIsRefused(w, other);
        } else {
          TwoKeysRefuse(w, id, other);
        }
      }
    }
  }

  /** The same after any run from the founding of a repo, rotations of every kind among its steps. */
  lemma ServedAfterAnyRunIff(repo: string, founder: DeviceId, disk: map<Path, Bytes>, rmk: Rmk, steps: seq<Step>)
    requires Legal(Founded(repo, founder, disk, rmk), steps)
    ensures var w := Run(Founded(repo, founder, disk, rmk), steps);
      ServedUntilRotation(w) <==> exists rmk' :: Keyed(w, rmk')
  {
    hide Inv, Keyed, Legal, Run, ServedUntilRotation;
    FoundedIsConsistent(repo, founder, disk, rmk);
    RunKeepsInv(Founded(repo, founder, disk, rmk), steps);
    ServedIffKeyed(Run(Founded(repo, founder, disk, rmk), steps));
  }

  /**
   * After a rotation no cycle is refused until the next one, whatever went before, if and only if the
   * caller had a key that opened its session, and there was a manifest to re-seal or no survivor but the
   * caller held a key yet.
   */
  lemma RotationServesIff(w: World, id: DeviceId, target: DeviceId, newRmk: Rmk)
    requires Inv(w) && Enabled(w, Revoke(id, target, newRmk))
    ensures ServedUntilRotation(Apply(w, Revoke(id, target, newRmk))) <==>
      CallerKey(w, id).Some? && ReachesAll(w, id, target)
  {
    hide Inv, CallerKey, ServedUntilRotation, ReachesAll, Keyed, Rotated;
    var w' := Apply(w, Revoke(id, target, newRmk));
    StepKeepsInv(w, Revoke(id, target, newRmk));
    ServedIffKeyed(w');
    if CallerKey(w, id).Some? {
      RotationKeepsKeyed(w, id, target, newRmk);
      RotatorUses(w, id, target, newRmk);
      forall rmk | Keyed(w', rmk) ensures rmk == newRmk {
        KeyedCaller(w', rmk, id);
      }
    } else {
      NoKeyIsRefused(w, id);
    }
  }

  /** The same for a rotation at the end of any run. */
  lemma RotationServesAfterRun(repo: string, founder: DeviceId, disk: map<Path, Bytes>, rmk: Rmk, steps: seq<Step>,
                               id: DeviceId, target: DeviceId, newRmk: Rmk)
    requires Legal(Founded(repo, founder, disk, rmk), steps)
    requires Enabled(Run(Founded(repo, founder, disk, rmk), steps), Revoke(id, target, newRmk))
    ensures var w := Run(Founded(repo, founder, disk, rmk), steps);
      ServedUntilRotation(Apply(w, Revoke(id, target, newRmk))) <==> CallerKey(w, id).Some? && ReachesAll(w, id, target)
  {
    hide Inv, Legal, Run, Apply, ServedUntilRotation, CallerKey, ReachesAll;
    FoundedIsConsistent(repo, founder, disk, rmk);
    RunKeepsInv(Founded(repo, founder, disk, rmk), steps);
    RotationServesIff(Run(Founded(repo, founder, disk, rmk), steps), id, target, newRmk);
  }

  /** Letting in a device that brings a recovery phrase leaves no cycle refused if and only if the phrase is right. */
  lemma PhraseServesIff(w: World, rmk: Rmk, id: DeviceId, newcomer: DeviceId, disk: map<Path, Bytes>,
                        phrase: Option<Rmk>)
    requires Inv(w) && Keyed(w, rmk) && Enabled(w, Approve(id, newcomer, disk, phrase)) && newcomer !in w.devices
    ensures ServedUntilRotation(Apply(w, Approve(id, newcomer, disk, phrase))) <==> RightPhrase(w, id, phrase)
  {
    hide Inv, Keyed, CallerKey, RightPhrase, ServedUntilRotation;
    var step := Approve(id, newcomer, disk, phrase);
    var w' := Apply(w, step);
    KeyedCaller(w, rmk, id);
    StepKeepsInv(w, step);
    ServedIffKeyed(w');
    ApprovalKeepsKeyed(w, rmk, id, newcomer, disk, phrase);
    ApproverUses(w, rmk, step);
    forall rmk' | Keyed(w', rmk') ensures rmk' == rmk {
      KeyedCaller(w', rmk', id);
    }
  }

  lemma ApproverUses(w: World, rmk: Rmk, step: Step)
    requires Enabled(w, step) && step.Approve? && Uses(w, step.id, rmk)
    ensures step.id in Apply(w, step).devices && Uses(Apply(w, step), step.id, rmk)
  {
  }

  /**
   * A revoked device gets no wrap, and once there is a manifest neither its stored key nor its old wrap opens
   * a session any more.
   */
  lemma RevokedIsShutOut(w: World, id: DeviceId, target: DeviceId, newRmk: Rmk)
    requires Enabled(w, Revoke(id, target, newRmk)) && CallerKey(w, id).Some?
    requires target in w.wraps ==> w.wraps[target].rmk != newRmk
    ensures var w' := Apply(w, Revoke(id, target, newRmk));
      && target !in w'.devices && Lookup(w'.wraps, target) == Lookup(w.wraps, target)
      && (Manifest in w.shared.blobs ==>
            CurrentRmk(w.devices[target].key, Lookup(w'.wraps, target), w'.shared.blobs, w.repo).None?)
  {
    hide CloudTable;
  }

  /** What a rotation before the first push leaves with a device that held another key. */
  lemma RotationParts(w: World, id: DeviceId, target: DeviceId, newRmk: Rmk, other: DeviceId)
    requires Enabled(w, Revoke(id, target, newRmk)) && CallerKey(w, id).Some? && Manifest !in w.shared.blobs
    requires other in w.devices && other != id && other != target && w.devices[other].key.Some?
    ensures var w' := Apply(w, Revoke(id, target, newRmk));
      && Manifest !in w'.shared.blobs && id in w'.devices && other in w'.devices
      && CallerKey(w', id) == Some(KeyGen(newRmk, w.generation + 1))
      && CallerKey(w', other) == w.devices[other].key && w.devices[other].key.value.rmk != newRmk
      && Lookup(w'.wraps, id) == Lookup(w.wraps, id)
  {
    hide OpenTable;
    SurvivorsUnchanged(w, id, target, newRmk);
  }

  /**
   * Without the condition the rotator itself is locked out as soon as an old key holder pushes first,
   * unless it has a wrap of the old key; a founder has none.
   */
  lemma EarlyRotationStrands(w: World, id: DeviceId, target: DeviceId, newRmk: Rmk, other: DeviceId)
    returns (steps: seq<Step>)
    requires Inv(w) && Enabled(w, Revoke(id, target, newRmk)) && CallerKey(w, id).Some? && Manifest !in w.shared.blobs
    requires other in w.devices && other != id && other != target && w.devices[other].key.Some?
    requires Lookup(w.wraps, id).None? || Lookup(w.wraps, id).value.rmk != w.devices[other].key.value.rmk
    ensures var w' := Apply(w, Revoke(id, target, newRmk));
      && Legal(w', steps) && OrdinaryRun(w', steps) && id in Run(w', steps).devices
      && forall draw :: CycleOf(Run(w', steps), id, draw) == Refused
  {
    hide Inv, CycleOf, Legal, Run, CallerKey, OrdinaryRun;
    var w' := Apply(w, Revoke(id, target, newRmk));
    StepKeepsInv(w, Revoke(id, target, newRmk));
    RotationParts(w, id, target, newRmk, other);
    var newcomer, rel := OvertakingLocksOut(w', id, other);
    steps := Overtaking(id, newcomer, other, rel);
  }

  // -------------------------------------------------------------------------
  // A run that gets there
  // -------------------------------------------------------------------------

  /** A founder without a wrap, nothing pushed, another holder of the key: two approvals and a cycle get there. */
  lemma EarlyRotationIsReachable(repo: string, rmk: Rmk)
    ensures var steps := [Approve("a", "b", map[], None), Approve("a", "c", map[], None), RunCycle("b", 0)];
      var w0 := Founded(repo, "a", map[], rmk);
      && Legal(w0, steps)
      && var w := Run(w0, steps);
      && w.shared == Shared([], map[]) && "a" !in w.wraps
      && w.devices.Keys == {"a", "b", "c"} && w.devices["b"].key == Some(KeyGen(rmk, 1))
  {
    hide CycleIn, PushOnly, PullAll, Rotated, InStep, Healthy;
    var s1, s2, s3 := Approve("a", "b", map[], None), Approve("a", "c", map[], None), RunCycle("b", 0);
    var w0 := Founded(repo, "a", map[], rmk);
    var w1 := Apply(w0, s1);
    var w2 := Apply(w1, s2);
    EmptyCycle(repo, "b", KeyGen(rmk, 1), 0);
    var w3 := Apply(w2, s3);
    assert [s1, s2, s3][1..] == [s2, s3] && [s2, s3][1..] == [s3] && [s3][1..] == [];
    assert Legal(w3, []) && Legal(w2, [s3]) && Legal(w1, [s2, s3]);
    assert Run(w2, [s3]) == Run(w3, []) == w3;
  }

  /** A call by newcomer "b" that leaves nothing behind but the key it stored. */
  predicate OnlyOpens(step: Step) {
    || step == RunPull("b") || step == TurnedDown("b")
    || (step.Approve? && step.id == "b" && step.newcomer == "d" && step.phrase.None?)
  }

  /** Founder "a" lets "b" and "c" in; "b" makes such a call; "a" revokes "c". */
  function StoringSteps(disk: map<Path, Bytes>, third: Step, newRmk: Rmk): seq<Step> {
    [Approve("a", "b", disk, None), Approve("a", "c", map[], None), third, Revoke("a", "c", newRmk)]
  }

  /** Before the revocation "b" holds the key, and nothing is pushed. */
  predicate KeyStored(w: World, rmk: Rmk) {
    && {"a", "b", "c"} <= w.devices.Keys && w.shared == Shared([], map[]) && CallerKey(w, "a").Some?
    && w.devices["b"].key == Some(KeyGen(rmk, 1))
    && forall e :: e in w.devices && w.devices[e].key.Some? ==> w.devices[e].key.value.rmk == rmk
  }

  lemma BothLetIn(repo: string, rmk: Rmk, disk: map<Path, Bytes>) returns (w1: World, w2: World)
    ensures var w0 := Founded(repo, "a", map[], rmk);
      && Enabled(w0, Approve("a", "b", disk, None)) && w1 == Apply(w0, Approve("a", "b", disk, None))
      && Enabled(w1, Approve("a", "c", map[], None)) && w2 == Apply(w1, Approve("a", "c", map[], None))
      && w2.shared == Shared([], map[]) && w2.devices.Keys == {"a", "b", "c"} && w2.devices["b"].key.None?
      && w2.devices["a"].key == Some(KeyGen(rmk, 1)) && w2.devices["c"].key.None?
      && Lookup(w2.wraps, "b") == Some(KeyGen(rmk, 1))
  {
    w1 := Apply(Founded(repo, "a", map[], rmk), Approve("a", "b", disk, None));
    w2 := Apply(w1, Approve("a", "c", map[], None));
  }

  lemma ThirdStores(w: World, rmk: Rmk, third: Step)
    requires w.shared == Shared([], map[]) && w.devices.Keys == {"a", "b", "c"} && w.devices["b"].key.None?
    requires w.devices["a"].key == Some(KeyGen(rmk, 1)) && w.devices["c"].key.None?
    requires Lookup(w.wraps, "b") == Some(KeyGen(rmk, 1)) && OnlyOpens(third)
    ensures Enabled(w, third) && KeyStored(Apply(w, third), rmk)
  {
  }

  lemma FourSteps(w0: World, steps: seq<Step>, w1: World, w2: World, w3: World, w4: World)
    requires |steps| == 4 && forall i :: 0 <= i < 4 ==> !steps[i].RunPush?
    requires Enabled(w0, steps[0]) && w1 == Apply(w0, steps[0]) && Enabled(w1, steps[1]) && w2 == Apply(w1, steps[1])
    requires Enabled(w2, steps[2]) && w3 == Apply(w2, steps[2]) && Enabled(w3, steps[3]) && w4 == Apply(w3, steps[3])
    requires forall safe :: !StaysSafe(w3, steps[3], safe)
    ensures Legal(w0, steps) && Run(w0, steps) == w4
    ensures forall safe :: !KeySafeRun(w0, steps, safe)
  {
    hide Enabled, Apply, StaysSafe;
    assert steps[3..][1..] == [] && Legal(w4, []) && Run(w4, []) == w4;
    assert Legal(w3, steps[3..]) && Run(w3, steps[3..]) == w4;
    assert forall safe :: !KeySafeRun(w3, steps[3..], safe);
    assert steps[2..][1..] == steps[3..] && Legal(w2, steps[2..]) && Run(w2, steps[2..]) == w4;
    assert forall safe :: !KeySafeRun(w2, steps[2..], safe);
    assert steps[1..][1..] == steps[2..] && Legal(w1, steps[1..]) && Run(w1, steps[1..]) == w4;
    assert forall safe :: !KeySafeRun(w1, steps[1..], safe);
  }

  /**
   * A manual pull before the first push, an approval, or a call the account turns down: any of them stores
   * the key, and makes a founder's revocation before the first push one that leaves some cycle refused.
   */
  lemma StoredKeyIsEnough(repo: string, rmk: Rmk, disk: map<Path, Bytes>, third: Step, newRmk: Rmk)
    requires newRmk != rmk && OnlyOpens(third)
    ensures var w0 := Founded(repo, "a", map[], rmk);
      var steps := StoringSteps(disk, third, newRmk);
      && Legal(w0, steps) && !KeySafeRun(w0, steps, true) && !ServedUntilRotation(Run(w0, steps))
  {
    hide Inv, Apply, ServedUntilRotation, CallerKey, KeySafeRun, Legal, Run;
    var w0 := Founded(repo, "a", map[], rmk);
    var w1, w2 := BothLetIn(repo, rmk, disk);
    ThirdStores(w2, rmk, third);
    var w3 := Apply(w2, third);
    var last := Revoke("a", "c", newRmk);
    assert "b" in w3.devices && !ReachesAll(w3, "a", "c");
    FourSteps(w0, StoringSteps(disk, third, newRmk), w1, w2, w3, Apply(w3, last));
    FoundedIsConsistent(repo, "a", map[], rmk);
    StepKeepsInv(w0, Approve("a", "b", disk, None));
    StepKeepsInv(w1, Approve("a", "c", map[], None));
    StepKeepsInv(w2, third);
    RotationServesIff(w3, "a", "c", newRmk);
  }

  lemma NoView(repo: string)
    ensures View(map[], repo, map[]) == map[]
  {
  }

  /** With nothing anywhere, a cycle only stores the key. */
  lemma EmptyCycle(repo: string, id: DeviceId, key: KeyGen, draw: nat)
    ensures var o := Cycle(Shared([], map[]), repo, id, Some(key), draw, Device(map[], None, None));
      o.Done? && o.shared == Shared([], map[]) && o.device.key == Some(key) && o.device.disk == map[]
  {
    hide CycleIn, Push, Pull, Adopt;
    var s := Session(repo, id, key);
    var start := Pulled(map[], SyncState(0, key.generation, map[]), None, NOTHING_DONE);
    EmptyAdopt(s);
    NothingToPull(Shared([], map[]), s, map[], start.state);
    EmptyPush(s, draw);
    CycleByParts(Shared([], map[]), s, draw, Device(map[], None, None), start, start,
                 Pushed(Shared([], map[]), map[], NOTHING_DONE));
  }

  lemma CycleByParts(shared: Shared, s: Session, draw: nat, d: Device, start: Pulled, pulled: Pulled, pushed: Pushed)
    requires d.state.None? && Adopt(shared, s, d.disk) == Ok(start)
    requires Pull(shared, s, start.disk, start.state) == Ok(pulled)
    requires Push(shared, s, draw, Local(pulled.disk, pulled.state.files), pulled.state.generation, pulled.cached)
      == Ok(pushed)
    ensures CycleIn(shared, s, draw, d) ==
      Done(pushed.shared,
           Device(pulled.disk, Some(SyncState(pulled.state.cursor, s.key.generation, pushed.files)), Some(s.key)),
           Plus(Plus(start.report, pulled.report), pushed.report))
  {
    hide Pull, Push, Adopt;
  }

  lemma EmptyAdopt(s: Session)
    ensures Adopt(Shared([], map[]), s, map[])
      == Ok(Pulled(map[], SyncState(0, s.key.generation, map[]), None, NOTHING_DONE))
  {
    NoView(s.repo);
  }

  lemma EmptyPush(s: Session, draw: nat)
    ensures Push(Shared([], map[]), s, draw, Local(map[], map[]), s.key.generation, None)
         == Ok(Pushed(Shared([], map[]), map[], NOTHING_DONE))
  {
    hide PushTable;
    assert Changed(Local(map[], map[])) == {} && Deleted(Local(map[], map[])) == {};
  }
}
