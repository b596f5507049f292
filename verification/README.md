# Verified model of the Elydora sync service and its client stores

This project models, in Dafny, the parts of the browser's sync backend and of its native
client where several steps have to add up to one guarantee, and proves the guarantees.

## What is modelled

**Snapshot storage** (`SyncTables`, `SnapshotUpload`, `StorageRetirement`,
`StorageProtocol`). A device uploads a snapshot in separate steps: it claims a ledger row
with a lease and a write token, puts the object into R2, and commits a batch of four
statements, or abandons its claim. At the same time collectors claim rows, erase objects and
mark rows deleted, stall, and are superseded; resets and account deletions fence rows;
rotation cleanups retire what an older vault key sealed; inventory passes re-arm orphans;
downloads resolve a token, fetch the object and look again. The tables are values, with
the constraints and triggers of the migrations that can change or abort one of these
statements. Among them are the checks between two times, which stop a request that began
before what it finds was written: `updated_at >= created_at` of a ledger row,
`cleanup_started_at >= completed_at` and `storage_cleaned_at >= cleanup_started_at` of a
rotation. Each D1 statement or batch is one step of a state machine and each R2 call another, any number
of processes are in flight, and a call to R2 may take effect long after its worker gave up.
A run is any sequence of enabled steps.

The invariant (`SyncInvariant`, `ProtocolInvariant`) is proved for every statement in
`UploadInvariant`, `RetirementInvariant` and `CleanupInvariant`, for every step in
`ProtocolInvariant`, and for every run in `ProtocolRuns`. `LedgerTransitions`, `HeadChain`,
`ResetFence`, `ClaimTimes`, `VaultHistory`, `RotationRecords`, `DownloadSafety` and
`CleanupSafety` derive the guarantees that a user of the service relies on. No run needs a
clock that agrees with another: a commit compares its lease with the time its request began,
and the ledger's states do the work. Only `ClaimTimes` needs that no write token is drawn
twice.

**The workers** (`SyncService`, with `GarbageCollection`, `CleanupRuns`, `UploadFlow`). The
statements, batches and loops in the form the workers run them: a class whose methods change
the tables and the bucket in place, deletes that fire their trigger row by row, a batch that
rolls back, loops that an R2 failure can end at any point.

**Device and vault membership** (`VaultMembership`, `RotationRecords`, `RevocationRecords`). Registration,
bootstrap, approval, revocation of a pending device, and rotation, as guarded statements,
with the triggers that finalize a rotation and a revocation and the records that later answer
a repeated request. Sessions belong to it: a registration binds its session in a statement of its own,
after its batch and after it has read the device back, and a revocation signs out the
sessions bound by then.

**Signed messages** (`CanonicalEncoding`, `ProofLayouts`, `RevocationRequest`,
`ClientProofs`). The length-prefixed encoding, the worker's seven layouts that use it, the
parsing of the envelope list of a rotation, and the client's side of the five messages it
signs: its own field lists, pushed into a buffer one after the other.

**Client stores** (`BearerToken`, `BearerStore`, `PermissionStore`, `PermissionRuns`,
`PresentedSurfaces`). The bearer token store with a fault or a crash possible at every
keychain and file step; the permission store of the Servo host; the recycling of presented
IOSurfaces.

## What turned out false, and exactly when

- A repeated rotation request can be refused although no other rotation followed: a
  registration of the device that stalled before its last statement binds its session after
  the device was rotated out. `LateBindingWitness.LateBindingIsReachable` is a run that does
  it, `RotationRecords.RepeatedRotation` says exactly when a repetition is accepted,
  `RotationRecords.LateBinding` where such a session comes from, and
  `RotationRecords.SettledRotation` that no registration left to finish at the rotation rules
  it out.
- The repeated revocation of a pending device fails for the same reason:
  `RevocationRecords.LateSessionIsReachable` is a run, `RevocationRecords.RepeatedRevocation`
  gives the condition, and `RevocationRecords.LateSession` and
  `RevocationRecords.SettledRevocation` say where it comes from.
- A download can report `sync_snapshot_payload_missing` for an account that changes its
  region: `ProtocolWitnesses.PayloadMissingIsReachable` is a run that does it.
  `DownloadSafety.MissingMeansAnotherRegion` says what must have happened; an account that is
  neither reset nor deleted between the two looks (`DownloadSafety.MissingNeedsReset`), or
  whose uploads name one region (`DownloadSafety.OneRegionNeverLosesAPayload`), never gets it.
- The scheduled finalizer can mark a rotation's storage clean before its metadata batch has
  run: `ProtocolWitnesses.CleanTooEarlyIsReachable` is a run,
  `CleanupSafety.FinalizerMarksExactly` gives the condition.
- A cleanup can end without marking its rotation although everything the rotation staged is
  deleted: `LateMarkWitness.LateMarkIsReachable` is a run in which a retry of the upload,
  begun a second later, had started the cleanup first. `CleanupSafety.CleanMeansDeleted` gives
  the condition, that the cleanup was started no later than the request that marks it.
- Other requests fail for the same kind of reason, each exactly when a row is younger than the
  request: a claim that takes over a reserved row (`SyncService.Service.ClaimSnapshotWrite`), a
  collection that marks a row deleted (`SyncService.Service.CollectGarbage`), a reset that
  starts a cleanup (`SyncService.Service.ResetSync`), the start of a cleanup after an upload
  (`SyncService.Service.CleanupRotatedStorage`) and an inventory pass that re-arms a deleted
  row (`GarbageCollection.PassGoesThrough`). A commit never does
  (`ClaimTimes.CommitIsNeverLate`).
- A conditional clear of a bearer token that is still in a legacy file signs out whoever that
  file names: `BearerStore.ConditionalClearMisses` gives the condition and
  `BearerStore.ConditionalClearExample` a case.
- An allow-once grant can be used twice if it is dropped and sent again as a plain decision:
  `PermissionRuns.HonouredTwiceExample` is a run, `PermissionRuns.BecomesUsable` and
  `PermissionRuns.HonouredTwiceOnlyIfRegranted` show that nothing else does it.

## Assumptions

- SHA-256 is injective: a key holds the account and the digest themselves, and an envelope
  derived by a rotation is keyed by the rotation and the recipient.
- D1 runs a statement or a batch atomically and restores every table when it aborts. That the
  upload and rotation batches are all or nothing is proved, not assumed.
- A deleted account's identifier is never issued again.
- The deployment starts without accounts, except for payload objects that the retired push
  protocol left, each referenced and stored.
- Saving and clearing a keychain entry, and renaming a file, either happen or do not; the
  store's lock makes its operations exclusive.
- The swap chain hands out only surfaces that it owns.

## Model

| member | source | states |
|---|---|---|
| VaultMembership.RecipientsAreApproved | cloudflare/src/sync_vault_sql.ts:61-92 | the devices holding an envelope at the current vault key are exactly the approved ones |
| VaultMembership.RegisterKeepsMembers | cloudflare/src/devices.ts:53-73 | registering, first device approved and later ones pending, keeps the membership invariant |
| VaultMembership.BootstrapResult | cloudflare/src/sync_vault_sql.ts:43-92 | the two bootstrap inserts create the vault with the caller's envelope exactly for an approved device of an account without a vault, and otherwise change nothing |
| VaultMembership.ApproveTakesEffect | cloudflare/src/device_approval.ts:62-100 | when the guards hold, the envelope, the record of the approval and the approved status are stored together |
| VaultMembership.ApproveIsRefused | cloudflare/src/device_approval.ts:62-100 | when they do not, neither a device nor an envelope changes, and a record is added only for an envelope that is already there |
| VaultMembership.ApproveKeepsMembers | cloudflare/src/device_approval.ts:185-215 | the approval batch keeps envelope holders and approved devices equal |
| VaultMembership.RevokePendingKeepsMembers | cloudflare/migrations/0011_sync_vault_rotation.sql:132-180 | revoking a pending device keeps the invariant |
| VaultMembership.RevokePendingResult | cloudflare/migrations/0011_sync_vault_rotation.sql:132-180 | the insert and the update that completes it take effect exactly if the target waits, the approver is another, approved device and the identifier is new: then the target alone is revoked, its sessions alone end, and the record names both; a used identifier changes nothing, anything else aborts |
| VaultMembership.ItemsNameRemaining | cloudflare/migrations/0011_sync_vault_rotation.sql:181-322 | the trigger's counts and its two containment checks together say that the items name each remaining approved device exactly once |
| VaultMembership.RotationAllOrNothing | cloudflare/src/device_revocation_store.ts:67-98 | insert, envelope inserts and finalize take effect together exactly when the request fits the account, do nothing for a replayed identifier, and abort otherwise |
| VaultMembership.RotationKeepsMembers | cloudflare/migrations/0011_sync_vault_rotation.sql:324-373 | after a rotation the new key's envelopes are held by exactly the devices that stay approved |
| VaultMembership.RotationDelivers | cloudflare/migrations/0011_sync_vault_rotation.sql:324-373 | a rotation makes the new key current, gives each recipient of the request the envelope sent for it from the approver, keeps every earlier envelope, revokes the target alone, and records the request with the keys it staged |
| SyncInvariant.ReferencedIffUsed | cloudflare/migrations/0013_sync_r2_gc.sql:227-276 | a key is `referenced` in the ledger exactly while a snapshot or object row uses it, so superseded keys do not leak |
| SyncInvariant.UsedIsLookup | cloudflare/src/sync_r2_gc.ts:294-307 | the scans over all accounts that guard collection find exactly the row of the one account the key names |
| SnapshotUpload.StoreReleases | cloudflare/migrations/0013_sync_r2_gc.sql:247-261 | replacing a snapshot row makes the key it held collectable and touches no other row |
| SnapshotUpload.CommitAllOrNothing | cloudflare/src/sync_snapshot_sql.ts:52-316 | the commit changes one row in each of four tables exactly when lease, vault key, device, base, clock and staging guards hold and the row is not younger than the request; a lost lease gives four zero counts, any other failure a rollback, whose error tells a young row from a head conflict |
| UploadInvariant.CommitKeepsDatabase | cloudflare/src/sync_snapshot_sql.ts:52-316 | a commit keeps every table invariant: references backed, head joined, revisions and generations ordered, staging protected |
| UploadInvariant.ClaimKeepsDatabase | cloudflare/src/sync_r2_gc.ts:14-82 | a claim keeps the tables consistent and revives no retired key |
| UploadInvariant.AbandonKeepsDatabase | cloudflare/src/sync_r2_gc.ts:109-123 | an abandon keeps the tables consistent and unreferences nothing in use |
| RetirementInvariant.RetiringKeepsDatabase | cloudflare/src/sync_r2_gc.ts:275-320 | statements that only move rows into retired states keep every reference |
| RetirementInvariant.ResetExactly | cloudflare/src/sync_reset.ts:222-253 | after the reset batch with its triggers the account has lost exactly its head, snapshots, encryption rows and objects; each of its rotations has its cleanup started, by this reset if not before; its referenced keys are ready and due, its claims fenced; no other account or ledger row has changed |
| RetirementInvariant.EraseExactly | cloudflare/src/account_deletion.ts:313-355 | the deletion batch with its triggers removes the account, fences its keys and takes its name off its own ledger rows, and changes no other account or row |
| CleanupInvariant.RotationKeepsDatabase | cloudflare/migrations/0011_sync_vault_rotation.sql:181-373 | a rotation stages everything the account stores, all of it sealed under an older key |
| CleanupInvariant.MetadataResult | cloudflare/src/sync_vault_rotation_cleanup.ts:52-115 | the metadata batch removes every row that refers to a staged key, and those rows only |
| ProtocolInvariant.CommitMoves | cloudflare/src/sync_snapshot.ts:178-215 | a key still reserved at commit has the object its upload stored, whatever collectors did in between |
| ProtocolRuns.StepKeeps | cloudflare/src/sync_r2_gc.ts:165-320 | every step of every process keeps the invariant and erases objects only under retired keys |
| ProtocolRuns.Reachable | cloudflare/src/sync_r2_gc.ts:165-320 | the invariant holds in every state of every run |
| ProtocolRuns.NoLiveObjectIsLost | cloudflare/src/sync_r2_gc.ts:232-320 | under any interleaving each row's object is in R2 with the digest that its key ends in |
| ProtocolRuns.RetiredForGood | cloudflare/src/sync_r2_gc.ts:73-136 | a key that became ready, deleting or deleted is never reserved, referenced or used again |
| ProtocolRuns.CommittedOnce | cloudflare/src/sync_r2_gc.ts:83-92 | no key is committed twice |
| ProtocolRuns.ErasesAreHarmless | cloudflare/src/sync_r2_gc.ts:262-271 | however late an erase reaches R2, no row uses its key then or afterwards |
| LedgerTransitions.GuardNeverFires | cloudflare/migrations/0013_sync_r2_gc.sql:110-123 | every ledger row only takes moves the state transition guard allows, from each statement of a batch to the next and from each state to the next, so the guard never aborts a statement |
| HeadChain.HeadsFormAChain | cloudflare/src/sync_snapshot_sql.ts:69-128 | until a reset the head's revision counts the commits, its clock rises with each and its vault generation never falls |
| HeadChain.LaterCommitBuildsOnEarlier | cloudflare/src/sync_snapshot_sql.ts:226-316 | of two commits without a reset between them the later builds on the head of the earlier, so of uploads sharing a base at most one commits |
| HeadChain.StatusNeverFails | cloudflare/src/sync_status.ts:201-211 | the status report's cross-check of snapshot count and joined head passes in every reachable state |
| ResetFence.EarlierClaimNeverCommits | cloudflare/src/sync_reset.ts:222-253 | a key claimed before a reset or account deletion is never committed after it |
| ResetFence.CommitNeedsFreshClaim | cloudflare/src/sync_r2_gc.ts:93-102 | a commit after a reset belongs to an upload that itself claimed its key after it |
| ResetFence.RowsEmptyUntilClaimed | cloudflare/src/account_deletion.ts:313-355 | after a reset or deletion head, snapshots and encryption rows stay empty until such a claim |
| ClaimTimes.CommitIsNeverLate | cloudflare/src/sync_r2_gc.ts:83-92 | as long as no write token is drawn twice, the row's time never stops a commit whose guards hold |
| ResetFence.OwnAbandonStillWorks | cloudflare/src/sync_r2_gc.ts:103-123 | however long after the reset or deletion, the worker holding a fenced claim can abandon it exactly while its row is `ready`, also on the anonymous row |
| VaultHistory.ExactlyApprovedDevicesOpenTheVault | cloudflare/src/sync_vault_sql.ts:7-92 | in every reachable state exactly the approved devices open the vault, nobody before it exists, and an account with devices is never locked out |
| VaultHistory.RevocationIsFinal | cloudflare/src/device_approval.ts:83-100 | a revoked device stays revoked and receives no further envelope, and the vault's generation never falls |
| VaultHistory.RotatedOutForGood | cloudflare/src/device_revocation_store.ts:90-98 | the device a rotation removed never holds an envelope of the new generation or a later one |
| VaultHistory.RevokedWhileWaiting | cloudflare/src/pending_device_revocation.ts:73-149 | a device that was turned away while it waited is revoked from then on and never holds an envelope of the key current then or of a later one |
| RotationRecords.RecordsAreSound | cloudflare/migrations/0011_sync_vault_rotation.sql:240-373 | in every reachable state each rotation row is complete, its target is revoked, and the envelopes and staged keys it counts are all there |
| RotationRecords.ReplayDecides | cloudflare/src/device_revocation.ts:210-243 | for a repeated request the counts of items, envelopes and staged keys cannot fail: an unused identifier has no record, and else its content, the present key and the sessions of the revoked device decide |
| RotationRecords.RepeatedRotation | cloudflare/src/device_revocation.ts:113-129 | however the run goes on, a repeated rotation is answered as completed exactly while no further rotation took effect and no session is bound to the revoked device, as an invalid result otherwise, and as a mismatch if its target, approver, keys, request hash or number of envelopes differ |
| RotationRecords.LateBinding | cloudflare/src/devices.ts:194-206 | a session of a device that was rotated out was bound by a registration that had confirmed the device before the rotation |
| RotationRecords.SettledRotation | cloudflare/src/device_revocation.ts:113-129 | if no registration of the device was left to finish at the rotation, its repetition is answered as completed exactly until the next rotation takes effect |
| RotationRecords.SignedOutForGood | cloudflare/src/devices.ts:104-113 | a session that was signed out is gone until it is signed in again: no later binding brings it back |
| LateBindingWitness.LateBindingIsReachable | cloudflare/src/devices.ts:203-206 | a run in which a late binding makes the repetition of the latest rotation fail |
| RevocationRecords.RepeatedRevocation | cloudflare/src/pending_device_revocation.ts:152-192 | until the account is deleted the repeated revocation of a device that was turned away is a mismatch for another target, approver or request hash, and else is answered as completed exactly while no session is bound to the device |
| RevocationRecords.LateSession | cloudflare/src/devices.ts:194-206 | such a session was bound by a registration that had read the device back before it was turned away |
| RevocationRecords.SettledRevocation | cloudflare/src/pending_device_revocation.ts:81-91 | with no registration of the device left to finish the repeated request is always answered as completed |
| RevocationRecords.LateSessionIsReachable | cloudflare/src/devices.ts:203-206 | a run in which a late binding makes the repeated request fail |
| ProtocolInvariant.NobodyChanges | cloudflare/src/devices.ts:53-73 | no membership batch writes a row for an account that is gone; a registration finds no session |
| VaultHistory.ErasedForGood | cloudflare/src/account_deletion.ts:313-355 | a deleted account's rows never come back, also through requests still on their way |
| DownloadSafety.MissingMeansAnotherRegion | cloudflare/src/sync_snapshot.ts:425-436 | when the missing-payload error is given, the account was reset or deleted after the download resolved its token, and the same head was committed again under another region's key |
| DownloadSafety.MissingNeedsReset | cloudflare/src/sync_snapshot.ts:232-270 | a download between whose two looks the account was neither reset nor deleted never gets the error, whatever the regions |
| DownloadSafety.OneRegionNeverLosesAPayload | cloudflare/src/sync_snapshot.ts:232-270 | an account whose uploads name one region never gets the missing-payload error |
| ProtocolWitnesses.PayloadMissingIsReachable | cloudflare/src/sync_snapshot.ts:425-436 | a run with a change of region in which the error is given |
| CleanupSafety.CleanupRemovesStagedRows | cloudflare/src/sync_vault_rotation_cleanup.ts:52-115 | a cleanup's metadata batch removes exactly the rows of staged keys; the head, its snapshot and its encryption row survive |
| CleanupSafety.CleanMeansDeleted | cloudflare/src/sync_vault_rotation_cleanup.ts:116-139 | a cleanup sets `storage_cleaned_at` exactly when every staged key is `deleted` in the ledger and the cleanup was started no later than this request; with every key deleted and a later start it ends with an error |
| CleanupSafety.AttemptMarksExactly | cloudflare/src/sync_vault_rotation_cleanup.ts:116-139 | the attempt to mark changes no more than one mark, and sets it exactly if the cleanup has started, no later than the attempt's request, and each staged key is deleted or still referenced |
| LateMarkWitness.LateMarkIsReachable | cloudflare/src/sync_vault_rotation_cleanup.ts:172-216 | a run in which every staged key is deleted and the mark still aborts |
| CleanupSafety.FinalizerMarksExactly | cloudflare/src/sync_vault_rotation_cleanup.ts:140-162 | the scheduled finalizer marks a started cleanup exactly when each staged key is deleted or still referenced, whatever the time |
| CleanupSafety.FinalizerOvertakesCleanup | cloudflare/src/sync_vault_rotation_cleanup.ts:218-231 | run before the metadata batch it marks the rotation while every staged object is live, and until the account is deleted no cleanup lists it again |
| ProtocolWitnesses.CleanTooEarlyIsReachable | cloudflare/src/sync_vault_rotation_cleanup.ts:140-162 | a run in which that happens |
| GarbageCollection.DeleteOneMoreSnapshot | cloudflare/migrations/0013_sync_r2_gc.sql:263-276 | firing the delete trigger row by row releases the same keys as one look at the end |
| GarbageCollection.ResetMakesEligible | cloudflare/src/sync_r2_gc.ts:93-102 | right after a reset each used key is eligible for collection, a key under an unexpired lease is not |
| GarbageCollection.CollectableExactly | cloudflare/src/sync_r2_gc.ts:275-320 | a key is eligible exactly if no snapshot or object row uses it, no rotation that awaits its cleanup staged it, and its row is reserved or ready with a lease that has run out, or has been deleting for a minute |
| GarbageCollection.LeftoverIsRetried | cloudflare/src/sync_r2_gc.ts:244-292 | a row that a broken-off collection left deleting is, while unused and unprotected, eligible again exactly from sixty seconds after that collection, or at once if that was at time zero |
| GarbageCollection.RetryFinishes | cloudflare/src/sync_r2_gc.ts:232-273 | an undisturbed collection from then on with room for all ends with all of these rows deleted and their objects erased |
| GarbageCollection.PassAccountsForAll | cloudflare/src/sync_r2_inventory.ts:74-120 | after a complete paged pass over a prefix every object stored under it is used, protected, or has a ledger row that is not `deleted` |
| GarbageCollection.PassGoesThrough | cloudflare/migrations/0013_sync_r2_gc.sql:20 | a pass is complete exactly when no deleted row that it re-arms was created after the scan of its page |
| GarbageCollection.RearmedIsEligible | cloudflare/src/sync_r2_inventory.ts:17-53 | an object that nothing accounts for is collectable once its page was scanned; a new row belongs to nobody and dates from the scan, an old one keeps its user and its date |
| UploadFlow.ClaimedCanCommit | cloudflare/src/sync_r2_gc.ts:14-82 | with nothing in between, an upload whose claim was granted and whose clock is newer commits, in time for its row |
| UploadFlow.ClaimFitsExactly | cloudflare/src/sync_r2_gc.ts:14-82 | the guards of a claim are that the vault key is current, the base is the head, the device approved and the key free or reserved for the user |
| UploadFlow.MatchMeans | cloudflare/src/sync_snapshot.ts:360-378 | the head counts as the upload itself exactly if every field but the storage time agrees |
| CleanupRuns.MarkReadyStartsAll | cloudflare/src/sync_vault_rotation_cleanup.ts:10-35 | with the current key at the head the first statement starts the cleanup of every rotation that waits for one, naming the snapshot and the time, and is rolled back exactly if one of them was completed later |
| CleanupRuns.UnlinkedIsDue | cloudflare/src/sync_vault_rotation_cleanup.ts:52-66 | a staged key that was in use is due for collection as soon as the metadata batch has run, unless another rotation that awaits its cleanup staged it too |
| SyncService.Service.PutVerified | cloudflare/src/storage.ts:105-124 | an object is stored exactly if its digest is the one its key ends in and R2 answers; without an answer nothing but that object can have arrived |
| SyncService.Service.ClaimSnapshotWrite | cloudflare/src/sync_r2_gc.ts:165-192 | a claim is granted exactly when its guards hold and the row it takes over is not younger than the request, and fails with an error when only the row's time is in the way; the row is then reserved for the user under the token for 600 seconds, so every other token's lease ends; no other key is touched |
| SyncService.Service.AbandonWrite | cloudflare/src/sync_r2_gc.ts:212-230 | afterwards the token can never commit and the key it held is due for collection; no reference is lost, no other token's claim ends and no other key is touched |
| SyncService.Service.ReleaseFailedWrite | cloudflare/src/sync_snapshot_write.ts:76-105 | a failed upload ends its claim and claims up to five of the owner's collectable keys, whatever R2 answers |
| SyncService.Service.RunCommit | cloudflare/src/sync_snapshot_sql.ts:52-316 | the statements run one after the other, with rollback, give the batch's result |
| SyncService.Service.CommitUpload | cloudflare/src/sync_snapshot.ts:178-215 | the upload commits exactly when the guards hold and its row is old enough, completely or not at all |
| SyncService.Service.DeleteSnapshotRows | cloudflare/migrations/0013_sync_r2_gc.sql:263-276 | deleting rows one by one with their triggers equals the set-wise delete |
| SyncService.Service.CollectGarbage | cloudflare/src/sync_r2_gc.ts:232-273 | claims as many eligible rows as the limit allows, each with the time of the claim; it finishes exactly if R2 answers and none of them is younger than the collection, and then exactly those end deleted and erased; otherwise the objects of all rows marked deleted are erased, the rest stay claimed and nothing else moves |
| SyncService.Service.CollectInBatches | cloudflare/src/sync_reset.ts:255-269 | ceil(n/100)+1 batches of a hundred collect all of up to n eligible rows and leave none, exactly if R2 answers and none of them is younger than the request; cut short, what was not erased stays claimed |
| SyncService.Service.ResetSync | cloudflare/src/sync_reset.ts:222-253 | behind the gate the statements in order give the reset batch's result, exactly if no rotation that the reset starts on was completed after the request began; otherwise nothing changes |
| SyncService.Service.ResetAndCollect | cloudflare/src/sync_reset.ts:106-173 | exactly if R2 answers and no eligible row is younger than the reset, the collection finishes: every object the account used is deleted and no eligible row is left, while an upload with an unexpired lease keeps its object under a fenced key |
| SyncService.Service.DeleteAccount | cloudflare/src/account_deletion.ts:313-355 | behind the gate the statements in order give the deletion batch's result |
| SyncService.Service.UnlinkStaged | cloudflare/src/sync_vault_rotation_cleanup.ts:233-261 | the metadata statements in order give the batch's result |
| SyncService.Service.CleanRotation | cloudflare/src/sync_vault_rotation_cleanup.ts:195-214 | one turn of the loop leaves no row for the staged keys and marks the rotation exactly if all of them are deleted and the cleanup was started in time; it ends with an error only if R2 does not answer or something is younger than the request |
| SyncService.Service.CleanupRotatedStorage | cloudflare/src/sync_vault_rotation_cleanup.ts:172-216 | nothing happens if a rotation it would start on was completed after the request began; the head survives; when R2 answers and nothing is younger than the request it finishes, and then each ready rotation has no row for its staged keys and is marked only if all of them are deleted, which for the current head is every rotation of the account |
| SyncService.Service.PersistClaimed | cloudflare/src/sync_snapshot.ts:163-216 | a claimed upload commits exactly when its object was stored, the guards hold and its row is old enough; otherwise it changes no account; either way its lease is over |
| SyncService.Service.FinishUpload | cloudflare/src/sync_snapshot.ts:409-423 | an overtaken upload succeeds only if the head is what it asked for, and one stopped by its row's time alone fails; behind each success runs the cleanup, which leaves nothing to clean under the current key or is reported as failed |
| SyncService.Service.UploadSnapshot | cloudflare/src/sync_snapshot.ts:102-230 | success means the head is this upload; a retry of the current head changes no head; otherwise the key is refused exactly if it is not current, the clock exactly if key and base are current and it is not newer, the head exactly if the key is current and the base is not or the write is fenced, a server error comes exactly when only the row's time is in the way, and success or a storage failure in every other case; a storage failure means an unanswered call or a wrong digest; a plain success means that the cleanup finished, a failed cleanup that R2 did not answer or something was younger than the request |
| SyncService.Service.InventoryPage | cloudflare/src/sync_r2_inventory.ts:74-120 | one page of the bucket's listing: every stored object on it is accounted for afterwards, and the cursor advances or returns to the start; it is rolled back, cursor included, exactly when it would re-arm a row younger than the scan |
| SyncService.Service.RegisterDevice | cloudflare/src/devices.ts:128-213 | the first device is approved, later ones wait, nobody else's status changes, and a new device is accepted exactly if its session could be bound; a taken device or key changes nothing, and is accepted exactly for a session bound to that device under the same idempotency key, unless it was revoked |
| SyncService.Service.BootstrapVault | cloudflare/src/sync_vault.ts:193-232 | a vault is created exactly for an approved device of an account without one, and then that device alone can open it |
| SyncService.Service.ApprovePending | cloudflare/src/device_approval.ts:185-215 | at most this device changes its status, exactly when the guards hold, and exactly then it gets the envelope sent |
| SyncService.Service.RevokePendingDevice | cloudflare/src/pending_device_revocation.ts:98-129 | the statements of the revocation take effect together, exactly for a waiting target, an approved approver and a new identifier, and otherwise change nothing |
| SyncService.Service.RotateVault | cloudflare/src/device_revocation_store.ts:144-191 | the statements of a rotation take effect together exactly when the request fits the account |
| CanonicalEncoding.DecodesExactly | cloudflare/src/device_revocation_schema.ts:248-254 | a decoder accepts bytes as a list of texts exactly when they are that list's encoding |
| CanonicalEncoding.UniquelyDecodable | cloudflare/src/device_approval_proof.ts:59-65 | no two lists of texts have the same bytes |
| ProofLayouts.DomainsSeparate | cloudflare/src/recent_device_action_proof.ts:132-154 | messages under different domain strings never have the same bytes |
| ProofLayouts.BytesDetermineMessage | cloudflare/src/device_revocation_schema.ts:139-167 | signed bytes determine the kind of message and every field, the envelope list with its length and order included |
| RevocationRequest.RevocationEnvelopes | cloudflare/src/device_revocation_schema.ts:209-234 | the list is accepted exactly with 1 to 128 distinct recipients other than the target, and comes back sorted and unchanged otherwise |
| RevocationRequest.OrderDoesNotMatter | cloudflare/src/device_revocation_schema.ts:209-234 | every permutation of the input is parsed to the same list |
| RevocationRequest.SameBytesSameEnvelopes | cloudflare/src/device_revocation_schema.ts:139-167 | two accepted requests have the same proof bytes exactly when they list the same envelopes |
| RevocationRequest.ExactRecipients | cloudflare/src/device_revocation.ts:306-311 | the element-wise check accepts exactly when recipients and remaining devices are equal as sets |
| ClientProofs.RegistrationProof | crates/ely_sync_client/src/device_proof.rs:25-47 | the bytes that the client pushes field by field are those of the worker's registration layout |
| ClientProofs.BootstrapProof | crates/ely_sync_client/src/vault_bootstrap.rs:51-90 | and of its bootstrap layout |
| ClientProofs.ApprovalProof | crates/ely_sync_client/src/device_api.rs:180-210 | and of its approval layout |
| ClientProofs.PendingRevocationProof | crates/ely_sync_client/src/device_revocation.rs:123-141 | and of its layout for the revocation of a pending device |
| ClientProofs.RevocationProof | crates/ely_sync_client/src/device_revocation.rs:232-276 | and of its layout for a rotation, with the loop over the envelopes |
| ClientProofs.PendingRevocationVector | crates/ely_sync_client/src/device_revocation.rs:293-305 | the bytes of the test vector that client and worker share |
| ClientProofs.ValidateAndSort | crates/ely_sync_client/src/device_revocation.rs:206-229 | the client sorts and compares neighbours, the worker looks each recipient up and sorts last: they accept the same lists and come to the same one |
| ClientProofs.ApprovedRotation | crates/ely_sync_client/src/device_revocation.rs:53-99 | whatever the order of the envelopes, the list the client sends is the one the worker parses it to, and the bytes it signs are those the worker checks |
| BearerToken.ParseAccepts | crates/ely_sync_client/src/auth.rs:47-67 | parsing accepts exactly a well-formed token between blanks |
| BearerToken.TokenShape | crates/ely_sync_client/src/auth.rs:47-67 | a token is 32 to 2560 characters of the allowed alphabet |
| BearerStore.RegisterReads | crates/ely_sync_client/src/auth.rs:185-225 | a token is signed in exactly if the keychain names it, or, with neither a keychain entry nor a marker, the first legacy file there is names it within 2561 bytes |
| BearerStore.Store.Load | crates/ely_sync_client/src/auth.rs:185-225 | every intermediate, failed or crashed state shows the same signed-in token; a successful load returns it and leaves no legacy file; without a fault a load fails exactly when it is blocked |
| BearerStore.Store.Save | crates/ely_sync_client/src/auth.rs:163-175 | an interrupted save shows the old token, the new one, or nobody if the keychain was empty; success shows the new one with every legacy file gone, and without a fault a save fails only on an invalid marker or a legacy file that cannot be removed |
| BearerStore.Store.Clear | crates/ely_sync_client/src/auth.rs:177-183 | an interrupted clear shows the old token or nobody; success shows nobody, leaves the marker and no legacy file, and without a fault a clear fails only as a save does |
| BearerStore.Store.ClearIfMatches | crates/ely_sync_client/src/auth.rs:135-150 | clears exactly if the keychain names the token or nothing, and else keeps what the keychain names; either way the legacy files go and the marker stays; it fails only on a fault, an invalid marker, a keychain entry that is no token, or a legacy file that cannot be removed |
| BearerStore.Store.ClearLegacyFiles | crates/ely_sync_client/src/auth.rs:152-154 | the register keeps its value exactly if it was migrated or no legacy file named a token; success leaves no legacy file, and it fails only on a fault or a file that cannot be removed |
| BearerStore.Store.FilesNeverMatter | crates/ely_sync_client/src/auth.rs:195-198 | once the marker is valid no sequence of calls, faults and crashes gives legacy files a say again: the register shows what it showed, a token saved since, or nobody |
| BearerStore.ConditionalClearMisses | crates/ely_sync_client/src/auth.rs:135-150 | a conditional clear signs out somebody else exactly when the token shown is still in a legacy file |
| BearerStore.ConditionalClearExample | crates/ely_sync_client/src/auth.rs:135-150 | a case of it |
| PermissionStore.Store.ReplaceDecisions | crates/ely_servo_host/src/runtime_permissions.rs:39-97 | an accepted snapshot replaces one profile's entries, keeps consumed grants consumed and logs transfers it fails closed |
| PermissionStore.Store.TakeDecision | crates/ely_servo_host/src/runtime_permissions.rs:111-139 | an allow-once grant is answered and logged once, and asking again gives nothing; other decisions stay, and no other key's answer changes |
| PermissionStore.Store.DrainConsumed | crates/ely_servo_host/src/runtime_permissions.rs:141-143 | every pending event is handed out once, in order, and no answer changes |
| PermissionStore.Store.ReplacePermissions | crates/ely_servo_host/src/runtime.rs:356-388 | a snapshot that names a key twice is refused and changes nothing |
| PermissionRuns.SnapshotDecides | crates/ely_servo_host/src/runtime_permissions.rs:39-97 | after an accepted snapshot a key of its profile is answered by the last entry for it: a lasting decision as sent, an allow-once grant unless that revision was spent, a transferred one only if the store held it unspent, and nothing if there is none |
| PermissionRuns.OlderSnapshotIgnored | crates/ely_servo_host/src/runtime_permissions.rs:46-48 | a snapshot of an older generation changes nothing |
| PermissionRuns.AnswerStands | crates/ely_servo_host/src/runtime_permissions.rs:111-139 | until the next accepted snapshot of its profile every answer stands, however often it is asked for, except that an allow-once grant is answered once |
| PermissionRuns.DecisionStands | crates/ely_servo_host/src/runtime_permissions.rs:39-139 | a site that a snapshot allows or denies for good is answered so until the next accepted snapshot of its profile |
| PermissionRuns.BecomesUsable | crates/ely_servo_host/src/runtime_permissions.rs:55-64 | a grant becomes usable exactly by an accepted snapshot that sends it as a plain decision while the store does not hold it |
| PermissionRuns.HonouredTwiceOnlyIfRegranted | crates/ely_servo_host/src/runtime_permissions.rs:39-139 | between two uses of a grant in any run it was dropped and sent again |
| PermissionRuns.RegrantIsHonoured | crates/ely_servo_host/src/runtime_permissions.rs:111-139 | and then it can be used again |
| PermissionRuns.HonouredTwiceExample | crates/ely_servo_host/src/runtime_permissions.rs:39-139 | a run that does it |
| PermissionRuns.TransferNeverArms | crates/ely_servo_host/src/runtime_permissions.rs:65-90 | a transferred grant is usable afterwards exactly if it was before |
| PermissionRuns.LogIsConserved | crates/ely_servo_host/src/runtime_permissions.rs:93-143 | over any run what was drained plus what is pending is what was consumed, in order |
| PermissionRuns.LoggedExactly | crates/ely_servo_host/src/runtime_permissions.rs:76-83 | a snapshot logs exactly the transfers that it fails closed |
| PermissionRuns.LoggedInOrder | crates/ely_servo_host/src/runtime_permissions.rs:50-92 | the transfers that fail closed are logged in the order of the snapshot |
| PermissionRuns.ProfilesAreIndependent | crates/ely_servo_host/src/runtime_permissions.rs:45-97 | a profile's entries and its part of the log are those of a run of its own takes and non-stale snapshots |
| PresentedSurfaces.Context.RecycleAcknowledged | crates/ely_servo_host/src/hardware_rendering_context.rs:201-221 | the loop looks at each held surface once and hands back exactly the finished ones |
| PresentedSurfaces.Context.Acknowledge | crates/ely_servo_host/src/hardware_rendering_context.rs:168-178 | the reported surfaces are marked and the loop runs |
| PresentedSurfaces.Context.Capture | crates/ely_servo_host/src/hardware_rendering_context.rs:180-199 | the pending surface is held unacknowledged and becomes the current one |
| PresentedSurfaces.Context.Present | crates/ely_servo_host/src/hardware_rendering_context.rs:105-120 | the current surface stays held through both recycles, and a failed swap leaves none |
| PresentedSurfaces.Context.Resize | crates/ely_servo_host/src/hardware_rendering_context.rs:90-103 | a real resize destroys every held surface, any other call changes nothing |
| PresentedSurfaces.Context.NeverRecycledEarly | crates/ely_servo_host/src/hardware_rendering_context.rs:90-221 | over any sequence of calls the current surface stays held, none is lost, and each one handed back was acknowledged, not current and not in use at that moment |
| PresentedSurfaces.NothingIsLost | crates/ely_servo_host/src/hardware_rendering_context.rs:208-220 | the surfaces looked at are split into retained and recycled without loss or duplicate |
| PresentedSurfaces.OnlyFinishedSurfacesGo | crates/ely_servo_host/src/hardware_rendering_context.rs:210-214 | a surface is handed back exactly if it was acknowledged, is not current and was not in use when looked at |

## Left out

- HTTP routing, JSON and field validation, rate limits, Better Auth, audit events and the documents returned to clients: plumbing around the steps modelled here.
- Ed25519, SHA-256, HPKE and random numbers: digests are compared, signatures are not modelled, and tokens are any values.
- Proof freshness and the destructive-action gate: a reset or deletion needs an approved device here, and nothing else of the gate is modelled, not even the session it asks for.
- The challenge that binds a later session: an approved device can bind any free session of its account at any time.
- Other timestamps (`referenced_at`, `ready_at`, `deleted_at`, and `updated_at` and `storage_cleaned_at` beyond the checks on them), and the bound of revisions and clocks at 2^53 - 1: no guard of a modelled statement reads them.
- Legacy snapshots of encryption version 1 and device keys of protocol version 1: an approved device here is one that may write.
- The retired push and pull protocol, its change log and its tombstones: payload objects are only a set of references that shrinks.
- Session tokens, expiry and the session cache: a session is an identifier that can be signed out at any time.
- Liveness: no claim is made that a collector or a cleanup is ever scheduled again.
- `SyncService` is one worker at a time; interleaving is the subject of `StorageProtocol`, whose steps are the same functions.
- StorageProtocol: an upload may claim at any time, also without the checks its request makes first, so the machine allows more than the workers do.
- SyncService.Service.CollectGarbage: takes any eligible rows up to the limit, where the query takes those least recently updated; it erases them in any order.
- SyncService.Service.CleanupRotatedStorage: takes the ready rotations in any order, where the query lists older generations first.
- SyncService.Service.InventoryPage: the choice among several prefixes that are due for a scan is left to the caller.
- ClientProofs.ApprovedRotation: the checks of single fields (identifier shapes, key identifiers, generations, the wire form of an envelope) that precede each message are field validation.
- CanonicalEncoding.UniquelyDecodable: texts are byte sequences; a text with a lone surrogate, which UTF-8 encoding replaces, is not one.
- RotationRecords.RepeatedRotation: the audit row and the revocation's time, which the check also compares, are written once by the rotation itself and are not part of the accounts modelled here.
- RevocationRecords.RepeatedRevocation: likewise for the audit row and the time of that revocation.
- GarbageCollection.PassAccountsForAll: the bucket and its listing stay fixed during the pass, since it is claimed only with nothing else running.
- BearerStore.Store.Load: the checks of file ownership and permissions are one case, a file that can be neither read nor removed; the marker's temporary file is part of the step that writes the marker.
- PresentedSurfaces.Context.Acknowledge: a report names surfaces by identifier, so a late report for an earlier presentation of a reused surface counts for the present one, as in the program.
- GL calls, Mach ports, drawing, keyrings and directory permissions.
