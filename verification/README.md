# A verified model of tuskd's vault, journal, gate and multi-device sync

tuskd keeps a vault of Markdown memory records. This project models, in Dafny, the parts of it whose
correctness is a property of many steps together, and proves those properties:

* **Multi-device sync** (`Sync*.dfy`). Any number of devices share a cloud that holds an op log, a blob store
  and a sealed manifest. A cycle collapses foreign ops into net puts and deletes, applies them under "local
  wins", diffs disk against its saved state, uploads, tombstones, re-keys names after a key rotation and
  announces one op. `SyncModel` says path by path what a cycle computes; `SyncWorker` is the worker itself, its
  loops working on a cloud, a vault, a key table and a ledger that change in place, and each phase is proved to
  leave exactly what `SyncModel` says. `SyncPhases`, `SyncAgreement` and `SyncCalls` prove what one call does to
  its device, to the cloud and to every other device; `SyncRotation` is the key rotation; `SyncWorld` and
  `SyncConvergence` lift all of it to every run; `SyncMerge` shows a cycle to be a three-way merge of disk, records
  and cloud, and its report to be true; `SyncCatchUp` says when names follow a rotation; `SyncNews` says what a
  batch of ops comes to and what makes a call fail; `SyncSafety` holds what is true whatever the cloud contains;
  `SyncFaults` and `SyncLockout` show where the guarantees end, and that runs get there.
* **The change journal** (`Journal.dfy`, `JournalSafety.dfy`, `Reconcile.dfy`). A hash-chained file of bytes:
  the scan that verifies it and drops a torn tail, appends, the fold into live state, reconciliation with the
  memory files; recovery from a crash at any byte, and exactly which edits the chain reveals.
* **The record format** (`Frontmatter*.dfy`, `Record*.dfy`). The frontmatter parser and printer down to quotes,
  escapes and list splitting, scopes, and the record codec on top: that what is written reads back, and that
  nothing else reads (`FrontmatterReads`, `RecordReads`).
* **The gate** (`Gate*.dfy`). Submission, review, graduation, feedback and forgetting over record files, an
  index that caches them, and a review queue; `GateMeaning` says in the caller's terms what each leaves.
* **Replay of unanswered requests** (`Stdio.dfy`).

`Prelude.dfy` holds the shared vocabulary.

## How the model stands for the code

* Encryption is ideal: a ciphertext is a term that opens only with the key, repo and path it was sealed for.
  Hashes are collision-free: a digest is its preimage. A blob name is a term over key and path, so no two paths
  share one and none is `manifest`. Each DEK is a random draw made for one path. Only `KeyTable::entry` makes
  manifest rows, so a row is named after its own path (the types `Table` and `Files`).
* An op's sequence number is its position in the log, and a batch is everything past the cursor. A whole call
  (cycle, push, pull, approve, revoke) is one step of a run, and stores the key its session found whether or not
  it goes further; `TurnedDown` is an approval or revocation the account refuses. Blob lists in an op are sets.
* Networks, clocks, random draws and fresh ids are parameters. JSON and RFC 3339 texts, `i64` and `f64` texts
  enter as functions with the laws `ChangeJournal.Lawful`, `Frontmatter.Lawful` and `Records.LawfulFormats`
  (decoding undoes encoding, an encoded entry is one line, number text is plain); NaN is excluded. Points in time
  are whole milliseconds within the four-digit years that RFC 3339 text can hold.
* Iteration order of sorted maps and of directory walks is left open: loops over them take an arbitrary next
  element, and the results are proved not to depend on it.
* A record's file lies at its scope and id. `uses` and `successes` after a feedback are handed in as sums.
* Policy patterns, the graduation threshold and the texts a graduation derives are functions; the
  near-duplicate probe may pick any valid record of the scope.

## What turned out not to hold

* A manual `push` of a device that has not read a foreign upload yet, while it also has to re-key, renames the
  row away under that upload. Push and next cycle succeed, yet the device keeps its old bytes. `SyncCalls.SafePush`
  is the exact condition: `SyncFaults.PushThenCycleAgrees` proves that the cycle ends with disk and cloud equal if
  and only if it held, and `UnsafePushIsReachable` gives a run from a new repo where it does not. Runs are therefore
  over pushes for which `SafePush` holds (`SyncWorld.Prudent`).
* `revoke` before the first push hands the new key only to devices that read their wrap. A device that already
  stored the old key seals the first manifest under it; whoever has nothing but the new key is then refused.
  `SyncLockout.RotationServesIff` proves, whatever went before, that no cycle is refused before the next revocation
  if and only if the caller had an opening key and there was a manifest to re-seal or no other survivor held a key.
  `EarlyRotationStrands` shows the rotating device itself locked out, `EarlyRotationIsReachable` that a new repo
  gets there; any call that opens a session is enough, even one that fails (`StoredKeyIsEnough`).
* A recovery phrase is stored unchecked. Typed wrong before the first push it is the same trap; `PhraseServesIff`
  is the exact condition.
* An edit to the last journal line is accepted exactly when it still is an entry with the same `prev`.
* The index differs from a rebuild exactly when a committed record's field strings hold a carriage return,
  which the format turns into a newline.
* A correction whose target was already invalid moves the target's end and so rewrites past answers;
  `HistoryIsStable` says for one write, and `HistoryOverRun` for a whole run, exactly when that does not happen.
* An item approved in review leaves the queue before its commit, and is lost if that fails. `ApprovalLosesItemIff`
  says exactly when: the item is no duplicate and the record it corrects is not there any more.
  `LostApprovalIsReachable` gives the run.
* A replay cut short by a failed write loses the unsent rest (`CutReplayLoses`).

## Model

| member | source | states |
|---|---|---|
| SyncCrypto.ObjectAadInjective | crates/tusk-sync/src/crypto.rs:87-95 | the zero separator keeps repo id and path apart: equal associated data means equal repo and equal path |
| SyncCrypto.KeyTable.Entry | crates/tusk-sync/src/crypto.rs:298-308 | an existing row is returned untouched; a missing one is minted under the current key's name for that path and nothing else changes |
| SyncCrypto.KeyTable.Remove | crates/tusk-sync/src/crypto.rs:314-316 | the removed row is handed back and only that path leaves the table |
| SyncCrypto.KeyTable.Seal | crates/tusk-sync/src/crypto.rs:333-346 | the sealed table opens to the same rows with the same key and repo, and with nothing else |
| SyncWorker.OpenSession | crates/tuskd/src/sync_cloud.rs:133-166 | the local key is used while it opens the manifest; otherwise the device's wrap, if that opens it, is stored; otherwise nothing is touched |
| SyncRotation.RevokeRun | crates/tuskd/src/sync_cloud.rs:905-976 | for any target: without an opening key nothing happens, and for a device that is not approved nothing but opening the session; else the device is struck off, the manifest re-sealed and announced if there is one, the key stored, every survivor but the caller re-wrapped; for a target other than the caller the effects add up to the rotation step of the runs |
| SyncRotation.ApproveRun | crates/tuskd/src/sync_cloud.rs:786-827 | an approval is the step of the runs: the session stores its key, and a pending device is enrolled with a wrap of that key, any other turned down |
| SyncRotation.Directory.RewrapAll | crates/tuskd/src/sync_cloud.rs:948-970 | the loop gives every approved device but the caller the new wrap, and counts them |
| SyncWorker.Ledger.RelForBlob | crates/tuskd/src/sync_state.rs:43-48 | the search finds a recorded path carrying the name, and none only if none carries it |
| SyncWorker.CollapseBatch | crates/tuskd/src/sync_worker.rs:310-347 | one pass yields the net puts, deletes and manifest flag of the foreign ops, later ops overriding earlier ones, own ops skipped, the cursor past all of them; it fails exactly on a foreign op of another version |
| SyncWorker.ApplyPut | crates/tuskd/src/sync_worker.rs:358-406 | a put rewrites a clean or missing file, only records one that agrees, and leaves a diverged one alone; it fails exactly when the blob does not decrypt |
| SyncWorker.ApplyPuts | crates/tuskd/src/sync_worker.rs:354-406 | the put loop reaches the pulled state of all puts, in any order, or stops at one that does not decrypt having applied exactly the ones before |
| SyncWorker.ApplyDels | crates/tuskd/src/sync_worker.rs:408-434 | the tombstone loop removes clean files and forgets dirty ones, skipping paths the manifest has again, in any order |
| SyncWorker.ForgetAll | crates/tuskd/src/sync_worker.rs:436-452 | after a foreign manifest write exactly the recorded, present, undeleted paths it dropped are forgotten |
| SyncWorker.PullPhase | crates/tuskd/src/sync_worker.rs:299-455 | the loops compute disk, records, cursor and report of the pull path by path; on success and on failure no unsynced file is touched |
| SyncWorker.InitialSync | crates/tuskd/src/sync_worker.rs:248-283 | first contact fills gaps, records every row at its remote hash, fast-forwards the cursor and saves; a failure saves nothing; no file that was there changes |
| SyncWorker.UploadChanged | crates/tuskd/src/sync_worker.rs:504-525 | every changed file is sealed under its row's key and name and recorded; the names put and the dirty flag are exactly those of the new rows |
| SyncWorker.TombstoneDeleted | crates/tuskd/src/sync_worker.rs:527-535 | every vanished path loses row, blob and record; names and counts are those of the rows that existed |
| SyncWorker.RekeyStale | crates/tuskd/src/sync_worker.rs:537-577 | each stale row is re-encrypted under a fresh key at its current name, its old blob deleted; it fails exactly when a stale row cannot be read, and never touches the manifest |
| SyncWorker.PushPhase | crates/tuskd/src/sync_worker.rs:458-603 | the loops compute the pushed store, op, records and report; a failed push appends no op and leaves the manifest as it was |
| SyncWorker.CycleRun | crates/tuskd/src/sync_worker.rs:158-173 | a whole cycle leaves cloud, vault, saved state and report exactly as the model's cycle, and unsynced files survive even a failed one |
| SyncWorker.CycleWith | crates/tuskd/src/sync_worker.rs:158-173 | within a session, what a failed cycle may have saved is only the first contact |
| SyncWorker.PushOnlyRun | crates/tuskd/src/sync_worker.rs:181-195 | the manual push is the push half from the saved or empty state; a failure saves nothing but the key |
| SyncWorker.PullAllRun | crates/tuskd/src/sync_worker.rs:206-240 | a whole manual pull: refused without an opening key; else the key is stored whatever follows; it overwrites every manifest file, records it and counts it, or fails without a manifest, leaving the files alone, or on an unreadable row, saving nothing |
| SyncModel.PullSlot | crates/tuskd/src/sync_worker.rs:351-452 | pulling keeps each record named after its own path and creates nothing the manifest does not name |
| SyncModel.Resealed | crates/tuskd/src/sync_worker.rs:550-568 | re-keying writes, for each path, its old plaintext under a fresh key at the current key's name, and no other blob |
| SyncModel.ContentTable | crates/tuskd/src/sync_worker.rs:504-535 | after uploads and tombstones the manifest has the old and changed paths but the vanished ones, old rows unchanged |
| SyncPhases.UploadedRow | crates/tuskd/src/sync_worker.rs:504-525 | uploading overrides what the uploaded paths decrypt to, and no other path |
| SyncPhases.TombstonedRow | crates/tuskd/src/sync_worker.rs:527-535 | tombstoning removes exactly the named paths from what the store decrypts to |
| SyncPhases.RekeyedRow | crates/tuskd/src/sync_worker.rs:537-577 | re-keying keeps what every path decrypts to |
| SyncPhases.PushView | crates/tuskd/src/sync_worker.rs:458-603 | after a push each path decrypts to the local bytes if changed here, to nothing if deleted here, and as before otherwise |
| SyncPhases.PushOrphans | crates/tuskd/src/sync_worker.rs:458-603 | a push leaves no blob that the new manifest does not name |
| SyncAgreement.DescribedChangeIsTracked | crates/tuskd/src/sync_worker.rs:310-347 | an op that accounts for every changed row keeps any other device in step, whatever it has not read yet |
| SyncAgreement.PushIsDescribed | crates/tuskd/src/sync_worker.rs:591-599 | the op a push announces accounts for every row and every plaintext the push changed |
| SyncAgreement.PullReadies | crates/tuskd/src/sync_worker.rs:299-455 | from records in step with a consistent cloud a pull succeeds, reads everything, and leaves only local changes |
| SyncAgreement.PushSettles | crates/tuskd/src/sync_worker.rs:458-603 | from there a push succeeds and ends with disk, records, manifest and blobs saying the same |
| SyncCalls.AdvanceKeepsOthers | crates/tuskd/src/sync_worker.rs:315-344 | any call's effect on the cloud keeps every other device in step |
| SyncCalls.PushAdvances | crates/tuskd/src/sync_worker.rs:458-603 | a push on a consistent cloud succeeds, keeps it consistent and openable, and its op describes it |
| SyncCalls.CycleSyncs | crates/tuskd/src/sync_worker.rs:158-173 | one cycle of a device in step: success, agreement of disk, records and cloud, a described op, a consistent cloud |
| SyncCalls.PushOnlyStaysInStep | crates/tuskd/src/sync_worker.rs:181-195 | a manual push succeeds, serves the other devices, and keeps its own device in step if and only if it renames no unread upload; what that means for the files is SyncFaults.PushThenCycleAgrees |
| SyncCalls.PullAllStaysInStep | crates/tuskd/src/sync_worker.rs:206-240 | a manual pull succeeds exactly when something was pushed, ends with the cloud view over the disk, and stays in step |
| SyncWorld.StepKeepsInv | crates/tuskd/src/sync_worker.rs:158-195 | edits, deletions, cycles, manual pushes and pulls, approvals, rotations and refused calls each keep the cloud consistent and every device, present or future, in step |
| SyncWorld.ResealKeepsView | crates/tuskd/src/sync_cloud.rs:926-945 | a rotation re-seals the manifest without changing a row or what a row decrypts to |
| SyncWorld.RunKeepsInv | crates/tuskd/src/sync_worker.rs:158-195 | the invariant holds after every run |
| SyncWorld.CycleAfterAnyRunAgrees | crates/tuskd/src/sync_worker.rs:158-173 | after any run from a new repo, a cycle is refused for want of a key, touching nothing, or succeeds; and then that device's files are exactly what the cloud decrypts to and its state records exactly each hash and name |
| SyncMerge.CycleMerges | crates/tuskd/src/sync_worker.rs:158-173 | a cycle of a device in step leaves each path, on disk and in the cloud alike, as the three-way merge: a local edit wins, a local deletion stands unless the cloud has an unread version, else the cloud decides; without records local files win over the cloud |
| SyncMerge.CycleAfterAnyRunMerges | crates/tuskd/src/sync_worker.rs:158-173 | the same for any device after any run from a new repo |
| SyncMerge.DeletionIsCarriedOut | crates/tuskd/src/sync_worker.rs:484-535 | a recorded file the user deletes is gone from device and cloud after the next cycle if and only if the cloud has no version of it the device had not read |
| SyncMerge.ErasedEverywhere | crates/tuskd/src/sync_worker.rs:408-434 | after any run: erase and cycle, and the file is gone from the cloud, and from any other device that has not edited its copy once that cycles |
| SyncMerge.CycleReportIsTrue | crates/tuskd/src/sync_worker.rs:51-62 | whatever the store contains, a cycle reports as many pulls as files it wrote, local deletions as files it removed, pushes as names its op announces, remote deletions as rows the manifest lost |
| SyncNews.CollapseMeans | crates/tuskd/src/sync_worker.rs:310-347 | a batch comes to what the last foreign op says of each name, and touches the manifest exactly if a foreign op does |
| SyncNews.PullFailsIff | crates/tuskd/src/sync_worker.rs:324-394 | while the manifest opens, a pull fails exactly on an unread foreign op of another version or an unread upload whose row does not decrypt |
| SyncNews.WholeReadsFailIff | crates/tuskd/src/sync_worker.rs:206-283 | first contact fails exactly on a row that does not decrypt; the manual pull on that or without a manifest |
| SyncNews.PushFailsIff | crates/tuskd/src/sync_worker.rs:537-577 | a push fails exactly on a row it has to re-key, neither uploads nor drops, and cannot read |
| SyncNews.PushOpIs | crates/tuskd/src/sync_worker.rs:579-599 | the op of a push is the device's own, of version 1, its flag telling exactly whether a row changed; no row changes without an op |
| SyncCatchUp.RowKeepsNameIff | crates/tuskd/src/sync_worker.rs:490-577 | a row that stays keeps name and key exactly if the saved generation is 0 or the session's, or its name is current; else both are minted anew |
| SyncCatchUp.CycleNames | crates/tuskd/src/sync_worker.rs:158-173 | after a cycle every row and blob has its current name if and only if the saved generation differed from the session's and was not 0, or all the rows left were current |
| SyncCatchUp.PushOnlyNames | crates/tuskd/src/sync_worker.rs:181-194 | the same for a manual push, which stamps the session's generation and leaves the cursor |
| SyncCatchUp.PullAllKeepsMarks | crates/tuskd/src/sync_worker.rs:206-239 | a manual pull keeps the saved generation and cursor, or starts with the session's and zero, and reports the files of the manifest |
| SyncCatchUp.PullThenCycleNames | crates/tuskd/src/sync_worker.rs:206-239 | a pull costs no catch-up: the cycle after it ends with current names only if and only if the device was behind or all names were current |
| SyncCatchUp.CatchUpAfterAnyRun | crates/tuskd/src/sync_worker.rs:490-577 | after any run, a cycle of a device saved under another generation than its session's leaves no name of another key |
| SyncCatchUp.RevocationIsCarriedOut | crates/tuskd/src/sync_cloud.rs:905-976 | after any run, a revocation that finds a manifest is carried out by the first cycle of any survivor that had synced: no row or blob keeps a name of an older key |
| SyncCatchUp.CurrentNamesStay | crates/tuskd/src/sync_worker.rs:504-577 | once no name of another key is left, none comes back before the next rotation or wrong phrase |
| SyncConvergence.RotationKeepsKeyed | crates/tuskd/src/sync_cloud.rs:905-976 | whatever was current before, a rotation that goes through makes all survivors use the new key if and only if there was a manifest to re-seal or no survivor but the caller held a key |
| SyncConvergence.StepKeepsKey | crates/tuskd/src/sync_cloud.rs:133-166 | no step but a rotation or a wrong phrase changes the master key that all devices use, whatever keys it stores |
| SyncConvergence.CycleIsNeverRefused | crates/tuskd/src/sync_cloud.rs:133-166 | when the last rotation of a run reached the survivors and no wrong phrase was typed since, its cycles are not refused: each succeeds and agrees |
| SyncConvergence.SettledCycleWritesNothing | crates/tuskd/src/sync_worker.rs:490-494 | a device with nothing of its own to push changes nothing in the cloud |
| SyncConvergence.RunThenTwoRoundsConverge | crates/tuskd/src/sync_worker.rs:158-173 | after any run from a new repo whose last rotation reached everyone, no wrong phrase typed since, two rounds of cycles over all devices in any order make all vaults identical to the cloud view, and every later cycle writes no blob, no manifest and no op |
| SyncConvergence.TwoRoundsConverge | crates/tuskd/src/sync_worker.rs:158-173 | the same from any state with a consistent cloud, devices in step and one master key in use |
| SyncConvergence.IdleForever | crates/tuskd/src/sync_worker.rs:490-494 | from then on any number of cycles in any order leaves the whole system as it is |
| SyncSafety.LocalWins | crates/tuskd/src/sync_worker.rs:358-434 | whatever the op log, manifest and blobs contain, a successful cycle keeps every unsynced local file and the cloud then decrypts its path to exactly those bytes |
| SyncSafety.PullKeepsUnsynced | crates/tuskd/src/sync_worker.rs:372-434 | a pull keeps an unsynced file and leaves it to be pushed, unless the cloud has the same bytes |
| SyncSafety.PushDelivers | crates/tuskd/src/sync_worker.rs:477-525 | after a push every changed path decrypts to its local bytes |
| SyncSafety.OnlyOwnDeletionsLeave | crates/tuskd/src/sync_worker.rs:484-535 | a path leaves the cloud view in a push only if this device had recorded it and no longer has it |
| SyncSafety.FirstCycleMerges | crates/tuskd/src/sync_worker.rs:242-283 | a device with no state ends its first cycle with disk and cloud both equal to the old cloud view overridden by its files, deleting no blob |
| SyncSafety.PushKeepsBlobs | crates/tuskd/src/sync_worker.rs:504-577 | a push with nothing to tombstone or re-key deletes no blob |
| SyncSafety.ClobberedPathReturns | crates/tuskd/src/sync_worker.rs:436-452 | a recorded, present path that a foreign manifest write dropped without a delete is back in the cloud view, with this device's bytes, after the same cycle |
| SyncSafety.PullRerunCompletes | crates/tuskd/src/sync_worker.rs:299-455 | a pull stopped after any of its file writes and deletes, its state unsaved, ends on rerun with the same disk, records and cursor |
| SyncSafety.AdoptRerunCompletes | crates/tuskd/src/sync_worker.rs:248-283 | so does a first contact stopped after any of its file writes |
| SyncSteps.LoopsStopMidway | crates/tuskd/src/sync_worker.rs:358-434 | wherever the put and tombstone loops stand, the disk is that of the whole pull stopped part way |
| SyncSafety.RekeyKeepsView | crates/tuskd/src/sync_worker.rs:537-577 | a push whose saved generation is neither 0 nor the session's, and that has nothing else to do, leaves the decrypted view of every path unchanged |
| SyncSafety.RekeyLeavesCurrentNames | crates/tuskd/src/sync_worker.rs:537-577 | after any push whose saved generation is neither 0 nor the session's every manifest name is the current key's derivation and no old name remains in the store |
| SyncSafety.RekeyAgainIsNoop | crates/tuskd/src/sync_worker.rs:537-541 | re-keying again, on this or another device, changes nothing and announces nothing |
| SyncFaults.PushThenCycleAgrees | crates/tuskd/src/sync_worker.rs:181-195 | on any consistent cloud a device in step can push, and cycle next; the cycle ends with its files equal to what the cloud decrypts to if and only if the push renamed no unread upload of other bytes |
| SyncFaults.PushAfterAnyRunAgrees | crates/tuskd/src/sync_worker.rs:181-195 | the same equivalence for a push by any device that has a key, after any run from a new repo |
| SyncFaults.UnsafePushDiverges | crates/tuskd/src/sync_worker.rs:537-577 | for every row renamed under an unread upload: after push and cycle the device has the bytes it had, the cloud the ones it had, and they differ |
| SyncFaults.UnsafePushIsReachable | crates/tuskd/src/sync_worker.rs:181-195 | two approvals, the founder's and the newcomer's first cycles and a revocation lead from a new repo to such a push, after which the founder keeps its own bytes and the cloud the newcomer's |
| SyncLockout.RotationServesIff | crates/tuskd/src/sync_cloud.rs:905-976 | after a revocation no device's cycle is refused, however the system goes on until the next one or a wrong phrase, if and only if the caller had an opening key and there was a manifest to re-seal or no survivor but the caller held a key; earlier revocations do not matter |
| SyncLockout.RotationServesAfterRun | crates/tuskd/src/sync_cloud.rs:905-976 | the same equivalence for a revocation after any run from a new repo |
| SyncLockout.ServedAfterAnyRunIff | crates/tuskd/src/sync_cloud.rs:133-166 | after any run, unsafe rotations included, no cycle is refused until the next rotation or wrong phrase if and only if all devices' sessions go by one master key |
| SyncLockout.PhraseServesIff | crates/tuskd/src/sync_cloud.rs:605-621 | letting in a device that brings a recovery phrase leaves no cycle refused if and only if there is a manifest or the phrase spells the key in use |
| SyncLockout.RevokedIsShutOut | crates/tuskd/src/sync_cloud.rs:905-976 | a revoked device keeps the wrap it had and gets no other; with a manifest re-sealed neither its stored key nor that wrap opens a session |
| SyncLockout.EarlyRotationStrands | crates/tuskd/src/sync_cloud.rs:133-166 | without the condition some legal continuation gets the rotating device's own cycles refused, unless it has a wrap of the old key |
| SyncLockout.EarlyRotationIsReachable | crates/tuskd/src/sync_cloud.rs:434-475 | that situation arises from a new repo by two approvals and one cycle |
| SyncLockout.StoredKeyIsEnough | crates/tuskd/src/sync_worker.rs:206-213 | from a new repo, a newcomer's pull that fails for want of a manifest, its approval of another device or a call turned down stores the key, so that the founder's revocation then leaves some cycle refused; such a run does not count as key-safe |
| ChangeJournal.Journal.Open | crates/tusk-core/src/sync.rs:159-209 | opening succeeds exactly when every complete line is an entry chained from this vault's genesis; it then keeps exactly the complete lines and cuts the torn tail; a failure leaves the file alone |
| ChangeJournal.Journal.Append | crates/tusk-core/src/sync.rs:217-246 | appending adds one line chained to the last and keeps the file verifiable |
| ChangeJournal.Journal.Entries | crates/tusk-core/src/sync.rs:250-261 | re-parsing yields the entry of each complete line in order |
| ChangeJournal.Journal.LiveState | crates/tusk-core/src/sync.rs:265-281 | the loop computes each path's latest hash, none after a tombstone |
| ChangeJournal.LinesMakeUpFile | crates/tusk-core/src/sync.rs:173-194 | a file is its complete lines, each with its newline, and a tail without one |
| ChangeJournal.LinesOfText | crates/tusk-core/src/sync.rs:173-194 | splitting lines written one per newline gives those lines back |
| JournalSafety.WholeWithinIsExact | crates/tusk-core/src/sync.rs:195-203 | the count of surviving lines is exact: their text fits in the cut, the next line's newline does not |
| JournalSafety.CrashHeals | crates/tusk-core/src/sync.rs:159-209 | a cut at any byte leaves a file that reopens with exactly its surviving whole lines |
| JournalSafety.RunKeepsChain | crates/tusk-core/src/sync.rs:127-134 | over every run of appends and crashes at any byte the file stays sound and holds exactly the lines whose newline survived, later appends chaining onto them |
| JournalSafety.LastHashCommits | crates/tusk-core/src/sync.rs:149-153 | two files accepted for one vault whose last lines hash alike have identical complete lines |
| JournalSafety.EditedLineIsRejected | crates/tusk-core/src/sync.rs:182-188 | a line with a later line cannot be changed: the chain holds if and only if the line is unchanged |
| JournalSafety.LastLineEditIsAccepted | crates/tusk-core/src/sync.rs:182-188 | an edit to the last line is accepted if and only if it is an entry with the same `prev` |
| JournalSafety.OtherVaultIsRejected | crates/tusk-core/src/sync.rs:147-153 | a non-empty journal is rejected under any other vault id |
| Reconcile.Vault.Save | crates/tusk-core/src/vault.rs:131-150 | a write or metadata change puts the file and appends one entry of that kind, path and hash, chained to the last; a journal in step with the disk stays in step |
| Reconcile.Vault.Forget | crates/tusk-core/src/vault.rs:255-260 | a forget removes the file and appends one tombstone for that path, exactly when the file was there; a journal in step stays in step |
| Reconcile.Vault.Reconcile | crates/tusk-core/src/sync.rs:291-334 | whatever happened, the folded journal ends equal to path-to-hash of the files, with exactly one entry per differing path, a put or a tombstone; with none differing the file is untouched |
| Reconcile.ReconcileTwice | crates/tusk-core/src/sync.rs:288-290 | a second reconcile appends nothing |
| Reconcile.Recover | crates/tusk-core/src/sync.rs:159-209 | opening and reconciling after a crash succeeds exactly when the complete lines chain, ends in step with the files on disk, and only extends what survived |
| Reconcile.LifeKeepsSound | crates/tusk-core/src/sync.rs:127-134 | over any sequence of saves, forgets, reconciliations, offline edits and crashes at any byte the journal stays one sound chain, and so does what one more crash leaves |
| Reconcile.RecoverAfterAnyLife | crates/tusk-core/src/sync.rs:159-209 | hence recovery after any such life and any crash succeeds and ends in step with whatever is on disk |
| FrontmatterCode.QuoteText | crates/tusk-core/src/frontmatter.rs:202-216 | the escaping loop writes the quoted form |
| FrontmatterCode.UnquoteText | crates/tusk-core/src/frontmatter.rs:159-182 | the unescaping loop reads it, failing on bad escapes and stray quotes |
| FrontmatterCode.Split | crates/tusk-core/src/frontmatter.rs:128-157 | the scan splits on commas outside quotes and fails on an open quote |
| FrontmatterCode.ParseText | crates/tusk-core/src/frontmatter.rs:40-90 | the line cursor computes the parsed document, with every rejection of the grammar |
| FrontmatterCode.SerializeText | crates/tusk-core/src/frontmatter.rs:227-260 | the writing loop computes the document's text |
| FrontmatterTrip.TrimKeeps | crates/tusk-core/src/frontmatter.rs:184-190 | trimming changes nothing exactly when neither end is blank |
| FrontmatterTrip.UnquoteQuote | crates/tusk-core/src/frontmatter.rs:159-216 | quoting and unquoting undo each other, up to carriage returns |
| FrontmatterTrip.ScalarTrip | crates/tusk-core/src/frontmatter.rs:92-103 | every string parses back from its scalar form as a string, numeric-looking, empty and padded ones included |
| FrontmatterTrip.SplitSkipsQuoted | crates/tusk-core/src/frontmatter.rs:128-157 | inside quotes the list scan runs to the closing quote, over commas and escapes |
| FrontmatterTrip.ListTrip | crates/tusk-core/src/frontmatter.rs:105-126 | every list of strings parses back item by item |
| FrontmatterTrip.ValueTrip | crates/tusk-core/src/frontmatter.rs:92-126 | every value but a NaN parses back from what is written for it |
| FrontmatterTrip.ParseSerialize | crates/tusk-core/src/frontmatter.rs:40-90 | parsing a serialized document returns the same ordered fields (carriage returns as newlines) and the identical body, for all distinct valid keys |
| FrontmatterTrip.RewriteIsStable | crates/tusk-core/src/frontmatter.rs:227-260 | whatever text parses, if it holds no NaN, its rewriting parses to the same document with carriage returns in values as newlines |
| FrontmatterReads.ParseReads | crates/tusk-core/src/frontmatter.rs:40-90 | a text that parses is a fence, one line for each field in order, a fence and the body, each line read after the ones before |
| FrontmatterReads.ReadableParses | crates/tusk-core/src/frontmatter.rs:40-90 | every text of that shape parses, to those fields and that body |
| FrontmatterReads.UnquoteIff | crates/tusk-core/src/frontmatter.rs:159-182 | a one-line text unquotes to `v` if and only if it is how `v` is quoted and `v` holds no carriage return |
| FrontmatterReads.SplitIs | crates/tusk-core/src/frontmatter.rs:128-157 | splitting fails exactly on a text that ends inside quotes; else the parts join with commas to the text, and no comma of a part lies outside quotes |
| FrontmatterReads.TrimIs | crates/tusk-core/src/frontmatter.rs:40-90 | trimming takes off all the blanks at both ends and nothing else |
| FrontmatterReads.LineIs | crates/tusk-core/src/frontmatter.rs:55-88 | a line reads as a field if and only if it is a valid key not used before, the first colon and a value, with blanks around both |
| FrontmatterReads.ValueIs | crates/tusk-core/src/frontmatter.rs:75-112 | no value is empty or a nested map; brackets make a list, quotes a string, and anything else an integer, a float or a bare string in that order |
| Scopes.ScopeTrip | crates/tusk-core/src/scope.rs:27-81 | a scope's text parses back to it if and only if its id is valid |
| Scopes.ParsedScopeShows | crates/tusk-core/src/scope.rs:27-81 | every accepted text is the text of the scope it stands for |
| Records.ToMarkdownText | crates/tusk-core/src/record.rs:132-162 | pushing the fields one by one gives the present fields in their fixed order |
| Records.PresentGet | crates/tusk-core/src/record.rs:164-167 | looking a name up among the present fields finds its own value, or nothing if absent |
| Records.RecordTrip | crates/tusk-core/src/record.rs:132-241 | a record written as Markdown reads back as itself, every optional field and the body included, up to carriage returns in fields |
| Records.CleanRecordTrip | crates/tusk-core/src/record.rs:132-241 | it reads back exactly as it was if and only if no field string holds a carriage return |
| RecordReads.ReadDocument | crates/tusk-core/src/record.rs:164-241 | a document that reads has the six required scalars and each field of its kind, and reads as what they say: an integer taken as a number, a missing trust as one half, missing counts as zero, missing lists as empty |
| RecordReads.RequiredIsEnough | crates/tusk-core/src/record.rs:164-241 | the six required fields alone read as a record with every default |
| RecordReads.ScopeReadsIff | crates/tusk-core/src/scope.rs:27-81 | exactly `user`, `org`, `agent:` or `project:` with a valid id read as scopes, each as the one it names |
| GateCode.RecordVault.Get | crates/tusk-core/src/vault.rs:159-187 | walking for the id's file and parsing it finds exactly the record with that id |
| GateCode.RecordVault.Write | crates/tusk-core/src/vault.rs:131-150 | the record's own file gets its text and no other file changes; the vault then still holds one record per id, the written one as it will read back, if and only if the id was not filed under another scope |
| GateCode.RecordVault.Invalidate | crates/tusk-core/src/vault.rs:216-222 | only the end of validity changes |
| GateCode.RecordVault.Supersede | crates/tusk-core/src/vault.rs:226-233 | the new record links the old one, which ends at the given time; nothing is written if it is not there |
| GateCode.RecordVault.Walk | crates/tusk-core/src/vault.rs:189-212 | a walk lists every record once |
| GateCode.Indexer.Rebuild | crates/tusk-core/src/index.rs:169-180 | wiping and re-walking gives the index of the vault's records and their number, whatever it held before |
| GateCode.Indexer.RefreshPath | crates/tusk-core/src/index.rs:185-198 | re-indexing one path makes up for a change at its id, unless the file is gone and the record lies at another path |
| GateCode.Indexer.FirstValid | crates/tusk-core/src/index.rs:213-228 | a hit is a valid row of the scope with the hash, and no hit means there is none |
| GateCode.Gate.PolicyOf | crates/tusk-core/src/gate.rs:31-43 | the policy of the first rule that matches; with no match review for the org scope and auto for the rest |
| GateCode.Gate.CommitRecord | crates/tusk-core/src/gate.rs:249-291 | files and index change as one commit: a missing target fails and changes nothing; else one record is added that tells what the candidate said, and its target alone ends |
| GateCode.Gate.SubmitCandidate | crates/tusk-core/src/gate.rs:189-245 | dedup, probe and policy decide between rejection, commit and queue; a rejection names a valid record of the scope with that body; what is queued or committed tells what the candidate said |
| GateCode.Gate.ReviewItem | crates/tusk-core/src/gate.rs:331-361 | the first item with the id leaves the queue; a rejection does nothing else; an approved, still unique one is committed as it was queued |
| GateCode.Gate.GraduateScan | crates/tusk-core/src/gate.rs:365-413 | the scan submits each qualifying procedure once, each is queued or turned away as a duplicate, and no record changes |
| GateCode.Gate.Feedback | crates/tusk-mcp/src/tools.rs:346-378 | telemetry reaches file and index alike |
| GateCode.Gate.ForgetRecord | crates/tusk-mcp/src/tools.rs:380-395 | a forgotten record leaves files and index |
| GateSafety.RowsAgreeWhenClean | crates/tusk-core/src/index.rs:470-503 | the row of a record in memory equals the row of the record as re-read if and only if its field strings hold no carriage return |
| GateSafety.WriteKeepsIndex | crates/tusk-core/src/gate.rs:270-283 | a write keeps the index equal to a rebuild if and only if the new record is clean |
| GateSafety.DuplicateIsExact | crates/tusk-core/src/index.rs:213-228 | the indexed duplicate query answers exactly as a search of the vault would |
| GateSafety.CommitKeepsNoDuplicates | crates/tusk-core/src/gate.rs:189-199 | a commit after the duplicate check keeps the valid bodies of each scope distinct |
| GateSafety.WriteKeepsNoDuplicates | crates/tusk-mcp/src/tools.rs:178-229 | a direct write keeps them distinct if and only if no valid record it leaves standing in the scope has its body |
| GateSafety.ApprovalLosesItemIff | crates/tusk-core/src/gate.rs:331-361 | an approval fails with the item gone from the queue and nothing else changed if and only if the item is there, is no duplicate and corrects a record that is not there |
| GateSafety.ApprovedIsHeldUnlessLost | crates/tusk-core/src/gate.rs:331-361 | after an approval the vault holds a valid record with the item's scope and body if and only if it did before or the item corrects no missing record |
| GateSafety.HistoryIsStable | crates/tusk-core/src/vault.rs:224-233 | a write changes no answer to "valid at t" for any earlier t if and only if its target was still valid, or had not begun, or ended no earlier than the write |
| GateSafety.ProbeReopensNothing | crates/tusk-core/src/gate.rs:201-216 | a correction found by the probe never rewrites history |
| GateMeaning.PolicyIs | crates/tusk-core/src/gate.rs:31-43 | the policy for a scope is the one of the first matching rule, or with no match review for org and auto otherwise, and no other |
| GateMeaning.CommitMeans | crates/tusk-core/src/gate.rs:249-291 | a commit fails exactly on a missing target; else the new record has the candidate's kind, scope, author, entities, tags, trust, trigger and body, the version given or 1 for a skill, and supersedes exactly the target, which alone of the others changes, ending then |
| GateMeaning.SubmitMeans | crates/tusk-core/src/gate.rs:189-245 | with the index up to date: rejected exactly if a valid record of the scope has the body; else queued, with nothing else changed, if a skill or the rules say review; else committed; it corrects what it names, else the probe's pick if that is valid and in scope |
| GateMeaning.ReviewMeans | crates/tusk-core/src/gate.rs:331-361 | an unknown id fails; else the first item with the id goes, a rejection does nothing more, an approval is turned away as a duplicate or commits what the item says |
| GateMeaning.GraduateMeans | crates/tusk-core/src/gate.rs:365-413 | a scan queues, in order, a skill for each valid proven procedure not marked before whose body the vault does not hold, with its scope, entities, trust and marker, and does nothing else |
| GateMeaning.FeedbackMeans | crates/tusk-mcp/src/tools.rs:346-378 | feedback fails on a missing record; else telemetry of that record changes, in vault and index, and nothing else |
| GateMeaning.ForgetMeans | crates/tusk-mcp/src/tools.rs:380-395 | forgetting fails on a missing record; else that record leaves vault and index, and nothing else does |
| GateMeaning.IndexTells | crates/tusk-core/src/index.rs:470-503 | an up-to-date index has exactly one row and one text per record, with all its columns, its trimmed body's hash, and its words |
| GateSafety.ChainCovers | crates/tusk-core/src/record.rs:115-118 | along a supersession chain some member is valid at every time from the first member's start to the last one's end |
| GateRuns.ScanKeepsCore | crates/tusk-core/src/gate.rs:365-413 | a graduation scan gives out no marker twice and commits nothing |
| GateRuns.ActionKeepsCore | crates/tusk-core/src/gate.rs:189-361 | every operation keeps the index, the markers, the timeline and the supersession links right |
| GateRuns.ActionKeepsNoDuplicates | crates/tusk-core/src/gate.rs:350-360 | every operation but a direct write keeps valid bodies distinct within a scope |
| GateRuns.AfterAnyRun | crates/tusk-core/src/gate.rs:189-413 | after any run the index is what a rebuild would give, each graduation marker is on at most one queue item or record, supersessions hand over without a gap, and without direct writes no two valid records of a scope share a body |
| GateRuns.HistoryOverRun | crates/tusk-core/src/record.rs:115-118 | over any run that forgets nothing the records valid at an earlier time only become more, and stay the same if and only if no correction reopens one at that time |
| GateRuns.ChainCoversAfterAnyRun | crates/tusk-core/src/record.rs:115-118 | after any run from an empty vault every supersession chain covers its whole stretch of time |
| GateRuns.LostApprovalIsReachable | crates/tusk-core/src/gate.rs:331-361 | committing a fact, queuing its correction, forgetting the fact and approving the correction is a legal run, fails, and leaves the correction nowhere |
| Stdio.InFlight.MarkSent | crates/tuskd/src/stdio.rs:83-87 | a request with an id is appended; a notification is not |
| Stdio.InFlight.MarkAnswered | crates/tuskd/src/stdio.rs:88-95 | exactly the entries with the response's id leave, the rest keep their order |
| Stdio.InFlight.Drain | crates/tuskd/src/stdio.rs:96-98 | all lines are handed over in order and the list is empty |
| Stdio.InFlight.Resend | crates/tuskd/src/stdio.rs:182-194 | the replay is marked line by line before each write and stops at the first failed one |
| Stdio.NothingIsLost | crates/tuskd/src/stdio.rs:46-67 | over any sequence of daemon deaths and embedded takeovers, the proxy's list followed by what is still to be replayed is exactly the client's unanswered requests in send order, and a death replays exactly those |
| Stdio.CutReplayLoses | crates/tuskd/src/stdio.rs:188-194 | a replay cut by a failed write hands on everything outstanding if and only if the failing line was its last |

## Left out

- Paging of `ops_since`: a batch is everything past the cursor, so the clobber check sees every delete. With pages it would see only those of its page.
- Overlapping cycles of two devices, and rerunning a push that was interrupted: the code promises neither. The old blob is deleted before the manifest that drops it is written.
- Op signatures, enrolment and authentication: every op is taken to verify; an approval adds a device, its wrap and what its recovery phrase spelled. A device that enrols twice over the same vault, keeping its sync state, is not modelled. A revoked device drops out of the run, so a device revoking itself is covered by SyncRotation.RevokeRun but is no step of the runs.
- The internals of XChaCha20, HKDF, HMAC, X25519, BIP39 and SHA-256, the HTTP client, presigned URLs and account sign-in.
- Failed network calls: a call fails only where the stored data makes it fail. For a pull stopped at any point see SyncSafety.PullRerunCompletes.
- Listing the provider and checking blob names' characters: no property here depends on them.
- JSON, RFC 3339, `i64` and `f64` text: functions with inverse laws. NaN is excluded from the format's round trip.
- A journal append whose `write_all` fails half way while the process lives on: the next append would follow a torn line. Only crashes followed by a reopen are modelled.
- Directory walks, dot-files and files that are not Markdown: the memory tree is a map from path to bytes.
- Files edited by hand inside the gate's vault: GateCode's vault holds files it wrote itself, at their canonical place. Reconcile.Recover covers hand edits for the journal.
- Ranking and full-text matching of `search`, and its as-of filter on timestamp text: the probe may pick any valid record of the scope.
- Skill files written beside a committed skill, access grants, keyring, dashboard, command line, watcher, archives.
- GateCode.RecordVault.UpdateTelemetry: takes the new `uses` and `successes` instead of adding to the old ones, so overflow and float rounding are not modelled.
- Stdio: sockets, threads and timers. A client is taken not to reuse the id of a request it still awaits (section 4 of the JSON-RPC 2.0 Specification), and a server to answer only what it was sent.
