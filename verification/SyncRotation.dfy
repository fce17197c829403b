/** Key rotation as the sequence of effects it is: revoke, re-seal, announce, store, re-wrap the survivors. */
module SyncRotation {
  import opened Prelude
  import opened SyncCrypto
  import opened SyncModel
  import opened SyncPhases
  import opened SyncWorker
  import opened SyncWorld

  /** The wraps once every device of `done` but the caller has been given `key`. */
  function Wrapped(before: map<DeviceId, KeyGen>, done: set<DeviceId>, id: DeviceId, key: KeyGen)
    : map<DeviceId, KeyGen>
  {
    before + map e | e in done - {id} :: key
  }

  function Others(done: set<DeviceId>, id: DeviceId): nat {
    |done - {id}|
  }

  /** The account's side of a repo: its approved devices, their wraps of the key, the key's generation. */
  class Directory {
    var approved: set<DeviceId>
    var wraps: map<DeviceId, KeyGen>
    var generation: int

    /** Strike a device off and count up the generation; refused for a device that is not approved. */
    method Revoke(target: DeviceId) returns (generation': Option<int>)
      modifies `approved, `generation
      ensures generation'.Some? <==> target in old(approved)
      ensures generation'.Some? ==>
        approved == old(approved) - {target} && generation == old(generation) + 1 && generation' == Some(generation)
      ensures generation'.None? ==> approved == old(approved) && generation == old(generation)
    {
      if target !in approved {
        return None;
      }
      approved := approved - {target};
      generation := generation + 1;
      generation' := Some(generation);
    }

    /** Approve a pending device with its wrap of the key; any other is turned down. */
    method Approve(newcomer: DeviceId, pending: bool, key: KeyGen) returns (ok: bool)
      modifies `approved, `wraps
      ensures ok == pending
      ensures ok ==> approved == old(approved) + {newcomer} && wraps == old(wraps)[newcomer := key]
      ensures !ok ==> approved == old(approved) && wraps == old(wraps)
    {
      ok := pending;
      if pending {
        approved := approved + {newcomer};
        wraps := wraps[newcomer := key];
      }
    }

    /** Re-wrap the key for every approved device but the caller. */
    method RewrapAll(id: DeviceId, key: KeyGen) returns (rewrapped: nat)
      modifies `wraps
      ensures wraps == Wrapped(old(wraps), approved, id, key) && rewrapped == Others(approved, id)
    {
      hide Halves, Wrapped, Others;
      var todo := approved;
      ghost var before, done := wraps, {};
      rewrapped := 0;
      LoopEnds(approved);
      NobodyWrapped(wraps, id, key);
      while todo != {}
        invariant Halves(approved, todo, done)
        invariant wraps == Wrapped(before, done, id, key) && rewrapped == Others(done, id)
        decreases |todo|
      {
        var e :| e in todo;
        OneMoreDone(approved, todo, done, e);
        OneMoreWrapped(before, done, id, e, key);
        OneMoreOther(done, id, e);
        if e != id {
          wraps := wraps[e := key];
          rewrapped := rewrapped + 1;
        }
        todo, done := todo - {e}, done + {e};
      }
    }
  }

  lemma NobodyWrapped(before: map<DeviceId, KeyGen>, id: DeviceId, key: KeyGen)
    ensures Wrapped(before, {}, id, key) == before && Others({}, id) == 0
  {
  }

  lemma OneMoreOther(done: set<DeviceId>, id: DeviceId, e: DeviceId)
    requires e !in done
    ensures Others(done + {e}, id) == Others(done, id) + if e == id then 0 else 1
  {
    assert done + {e} - {id} == if e == id then done - {id} else done - {id} + {e};
  }

  lemma OneMoreWrapped(before: map<DeviceId, KeyGen>, done: set<DeviceId>, id: DeviceId, e: DeviceId, key: KeyGen)
    requires e !in done
    ensures Wrapped(before, done + {e}, id, key)
         == if e == id then Wrapped(before, done, id, key) else Wrapped(before, done, id, key)[e := key]
  {
    var now, next := Wrapped(before, done, id, key), Wrapped(before, done + {e}, id, key);
    forall d ensures Lookup(next, d) == if d == e && e != id then Some(key) else Lookup(now, d) {
    }
    SameLookups(next, if e == id then now else now[e := key]);
  }

  /** Who has which wrap afterwards: the devices of `done` but the caller the new one, all others what they had. */
  lemma WrappedAt(before: map<DeviceId, KeyGen>, done: set<DeviceId>, id: DeviceId, key: KeyGen, e: DeviceId)
    ensures Lookup(Wrapped(before, done, id, key), e) == if e in done && e != id then Some(key) else Lookup(before, e)
  {
  }

  /** The cloud, the account and the caller's vault show the world as it stands. */
  ghost predicate Shows(w: World, id: DeviceId, cloud: Cloud, directory: Directory, vault: Vault)
    reads cloud, directory, vault
  {
    && w.shared == cloud.Contents() && w.wraps == directory.wraps && w.generation == directory.generation
    && w.devices.Keys == directory.approved && id in w.devices && w.devices[id].key == vault.key
  }

  /** What a rotation leaves of the cloud. */
  function Resealed(shared: Shared, t: Option<Table>, repo: string, id: DeviceId, newRmk: Rmk): Shared {
    if t.Some? then Shared(shared.ops + [Op(id, 1, {}, {}, true)],
                           shared.blobs[Manifest := SealedTable(newRmk, repo, t.value)])
    else shared
  }

  /** The manifest's table, if there is a manifest. */
  function SharedTable(shared: Shared, repo: string): Option<Table> {
    if Manifest in shared.blobs then Some(CloudTable(shared.blobs, repo)) else None
  }

  /** A rotation of the world, part by part. */
  lemma RotatedParts(w: World, id: DeviceId, target: DeviceId, newRmk: Rmk)
    requires id in w.devices && id != target
    ensures var w' := Rotated(w, id, target, newRmk);
      && w'.shared == Resealed(w.shared, SharedTable(w.shared, w.repo), w.repo, id, newRmk)
      && w'.wraps == Wrapped(w.wraps, w.devices.Keys - {target}, id, KeyGen(newRmk, w.generation + 1))
      && w'.generation == w.generation + 1
      && w'.devices.Keys == w.devices.Keys - {target} && w'.devices[id].key == Some(KeyGen(newRmk, w.generation + 1))
  {
    assert (w.devices - {target}).Keys == w.devices.Keys - {target};
    assert id in w.devices.Keys - {target};
  }

  /** Re-seal the manifest, if there is one, and announce that it changed. */
  method Reseal(cloud: Cloud, t: Option<Table>, repo: string, id: DeviceId, newRmk: Rmk)
    modifies cloud
    ensures cloud.Contents() == Resealed(old(cloud.Contents()), t, repo, id, newRmk)
  {
    if t.Some? {
      var table := new KeyTable(t.value);
      var sealed := table.Seal(newRmk, repo);
      cloud.Put(Manifest, sealed);
      cloud.Append(Op(id, 1, {}, {}, true));
    }
  }

  lemma KeyOpensManifest(w: World, id: DeviceId)
    requires id in w.devices && CallerKey(w, id).Some?
    ensures FetchTable(w.shared.blobs, Session(w.repo, id, CallerKey(w, id).value)) == Ok(SharedTable(w.shared, w.repo))
  {
  }

  /**
   * Revoke a device and rotate. Without a key that opens the manifest nothing happens, and for a device
   * that is not approved nothing but opening the session. Otherwise the device is struck off, the manifest
   * re-sealed and announced, the new key stored and every survivor but the caller given it; for a caller
   * that revokes another device this is the rotation step of the world.
   */
  method RevokeRun(cloud: Cloud, directory: Directory, vault: Vault, repo: string, id: DeviceId, target: DeviceId,
                   newRmk: Rmk, ghost w: World)
    returns (rewrapped: Option<nat>)
    requires w.repo == repo && Shows(w, id, cloud, directory, vault)
    modifies cloud, directory, vault`key
    ensures rewrapped.Some? <==> CallerKey(w, id).Some? && target in w.devices
    ensures rewrapped.None? ==>
      Shows(Opened(w, id), id, cloud, directory, vault)
    ensures rewrapped.Some? ==>
      && cloud.Contents() == Resealed(w.shared, SharedTable(w.shared, repo), repo, id, newRmk)
      && directory.approved == w.devices.Keys - {target} && directory.generation == w.generation + 1
      && directory.wraps == Wrapped(w.wraps, w.devices.Keys - {target}, id, KeyGen(newRmk, w.generation + 1))
      && vault.key == Some(KeyGen(newRmk, w.generation + 1))
      && rewrapped.value == Others(w.devices.Keys - {target}, id)
    ensures rewrapped.Some? && target != id ==> Shows(Rotated(w, id, target, newRmk), id, cloud, directory, vault)
  {
    hide CurrentRmk, FetchTable, Rotated, Resealed, Wrapped, Others, SharedTable;
    var session := OpenSession(cloud, vault, repo, id, Lookup(directory.wraps, id));
    if session.None? {
      return None;
    }
    KeyOpensManifest(w, id);
    if target != id {
      RotatedParts(w, id, target, newRmk);
    }
    var fetched := FetchManifest(cloud, session.value);
    var generation := directory.Revoke(target);
    if generation.None? {
      return None;
    }
    Reseal(cloud, fetched.value, repo, id, newRmk);
    vault.key := Some(KeyGen(newRmk, generation.value));
    var n := directory.RewrapAll(id, KeyGen(newRmk, generation.value));
    rewrapped := Some(n);
  }

  /**
   * Approve a device. Without a key that opens the manifest nothing happens; a device that is not pending,
   * or not the one whose fingerprint was typed, is turned down once the session is open; otherwise it is
   * enrolled with a wrap of the caller's key. Either way the step of the world.
   */
  method ApproveRun(cloud: Cloud, directory: Directory, vault: Vault, repo: string, id: DeviceId, newcomer: DeviceId,
                    pending: bool, ghost disk: map<Path, Bytes>, ghost phrase: Option<Rmk>, ghost w: World)
    returns (ok: bool)
    requires w.repo == repo && Shows(w, id, cloud, directory, vault)
    requires pending ==> Enabled(w, Step.Approve(id, newcomer, disk, phrase))
    modifies directory, vault`key
    ensures ok <==> CallerKey(w, id).Some? && pending
    ensures Shows(Apply(w, if ok then Step.Approve(id, newcomer, disk, phrase) else TurnedDown(id)),
                  id, cloud, directory, vault)
  {
    hide CurrentRmk;
    var session := OpenSession(cloud, vault, repo, id, Lookup(directory.wraps, id));
    if session.None? {
      return false;
    }
    ok := directory.Approve(newcomer, pending, session.value.key);
  }
}
