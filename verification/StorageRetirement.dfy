/** The statements that retire storage: garbage collection, reset, account deletion,
    rotation cleanup and the inventory's re-arming. */
module StorageRetirement {
  import opened Wrappers
  import opened SyncTables

  const DELETE_RETRY_SECONDS := 60

  // ---------------------------------------------------------------- collection

  datatype Scope = Everyone | OfUser(user: UserId) | OfOwner(owner: UserId)

  predicate InScope(ledger: Ledger, k: R2Key, scope: Scope)
    requires k in ledger
  {
    match scope
    case Everyone => true
    case OfUser(u) => ledger[k].user == Some(u)
    case OfOwner(u) => k.owner == u
  }

  function RetryBefore(now: nat): nat {
    if now >= DELETE_RETRY_SECONDS then now - DELETE_RETRY_SECONDS else 0
  }

  predicate Due(row: LedgerRow, now: nat) {
    || ((row.state.Reserved? || row.state.Ready?) && row.lease <= now)
    || (row.state.Deleting? && row.deleteStartedAt.Some? && row.deleteStartedAt.value <= RetryBefore(now))
  }

  /** The candidates of one claim.  A head joins its own snapshot row, so the query's
      clause about heads is part of `Used`. */
  predicate Collectable(db: Database, k: R2Key, now: nat, scope: Scope) {
    && k in db.ledger
    && Due(db.ledger[k], now)
    && InScope(db.ledger, k, scope)
    && !Used(db, k)
    && !Protected(db, k)
  }

  function ClaimGarbage(ledger: Ledger, chosen: set<R2Key>, token: Token, now: nat): Ledger {
    map k | k in ledger ::
      if k in chosen
      then ledger[k].(state := Deleting, gcToken := Some(token), deleteStartedAt := Some(now))
      else ledger[k]
  }

  predicate ClaimedBy(ledger: Ledger, k: R2Key, token: Token) {
    k in ledger && ledger[k].state.Deleting? && ledger[k].gcToken == Some(token)
  }

  /** The mark aborts on a row created after the collection began. */
  predicate MayMarkDeleted(ledger: Ledger, k: R2Key, token: Token, now: nat) {
    ClaimedBy(ledger, k, token) && CreatedBy(ledger, k, now)
  }

  function MarkDeleted(ledger: Ledger, k: R2Key, token: Token, now: nat): Ledger {
    if MayMarkDeleted(ledger, k, token, now) then ledger[k := ledger[k].(state := Deleted)] else ledger
  }

  // ---------------------------------------------------------------- rows that let go of keys

  function ReleaseAll(db: Database, keys: set<R2Key>): Database {
    db.(ledger := map k | k in db.ledger ::
          if k in keys && db.ledger[k].state.Referenced? && !Used(db, k)
          then db.ledger[k].(state := Ready) else db.ledger[k])
  }

  function DeleteSnapshots(db: Database, u: UserId, sids: set<SnapshotId>): Database {
    var a := AccountOf(db, u);
    ReleaseAll(SetAccount(db, u, a.(snapshots := a.snapshots - sids)),
               set sid | sid in sids && sid in a.snapshots :: a.snapshots[sid].key)
  }

  function DeleteObjects(db: Database, u: UserId, oids: set<ObjectId>): Database {
    var a := AccountOf(db, u);
    ReleaseAll(SetAccount(db, u, a.(objects := a.objects - oids)),
               set oid | oid in oids && oid in a.objects :: a.objects[oid])
  }

  // ---------------------------------------------------------------- reset and account deletion

  function FenceUser(ledger: Ledger, u: UserId, now: nat): Ledger {
    map k | k in ledger ::
      if ledger[k].user == Some(u) && ledger[k].state.Reserved? then ledger[k].(state := Ready)
      else if ledger[k].user == Some(u) && ledger[k].state.Referenced? then ledger[k].(state := Ready, lease := now)
      else ledger[k]
  }

  function Anonymize(ledger: Ledger, u: UserId): Ledger {
    map k | k in ledger ::
      if ledger[k].user == Some(u) && k.owner == u then ledger[k].(user := None) else ledger[k]
  }

  predicate ResetStarts(row: Rotation) {
    row.completed && row.cleanup.None? && !row.storageCleaned
  }

  function StartAllCleanups(a: Account, now: nat): Account {
    a.(rotations := map rid | rid in a.rotations ::
         if ResetStarts(a.rotations[rid]) then a.rotations[rid].(cleanup := Some(SyncReset(now))) else a.rotations[rid])
  }

  /** `CHECK (cleanup_started_at >= completed_at)`: a reset that began before a rotation it
      would start on was completed is rolled back. */
  predicate ResetInTime(a: Account, now: nat) {
    forall rid :: rid in a.rotations && ResetStarts(a.rotations[rid]) ==> a.rotations[rid].completedAt <= now
  }

  /** The reset batch after its gate, in the order of its statements. */
  function ResetBatch(db: Database, u: UserId, now: nat): Database {
    var d1 := db.(ledger := FenceUser(db.ledger, u, now));
    var d2 := SetAccount(d1, u, StartAllCleanups(AccountOf(d1, u), now));
    var d3 := SetAccount(d2, u, AccountOf(d2, u).(head := None));
    var d4 := SetAccount(d3, u, AccountOf(d3, u).(encryption := map[]));
    var d5 := DeleteSnapshots(d4, u, AccountOf(d4, u).snapshots.Keys);
    DeleteObjects(d5, u, AccountOf(d5, u).objects.Keys)
  }

  /** The account deletion batch after its gate.  Deleting the vault and the devices
      cascades to rotations, envelopes and revocations. */
  function EraseBatch(db: Database, u: UserId, now: nat): Database {
    var d1 := db.(ledger := FenceUser(db.ledger, u, now));
    var d2 := SetAccount(d1, u, AccountOf(d1, u).(head := None));
    var d3 := SetAccount(d2, u, AccountOf(d2, u).(encryption := map[]));
    var d4 := DeleteSnapshots(d3, u, AccountOf(d3, u).snapshots.Keys);
    var d5 := DeleteObjects(d4, u, AccountOf(d4, u).objects.Keys);
    d5.(accounts := d5.accounts - {u}, ledger := Anonymize(d5.ledger, u), erased := d5.erased + {u})
  }

  // ---------------------------------------------------------------- rotation cleanup

  /** The head of the account is the given snapshot, encrypted under the current key. */
  predicate HeadIsCurrent(a: Account, sid: SnapshotId, key: VaultKey) {
    && a.vault == Some(key)
    && a.head.Some? && a.head.value.snapshotId == sid
    && sid in a.snapshots && sid in a.encryption
    && a.snapshots[sid].revision == a.head.value.revision
    && a.snapshots[sid].payloadHash == a.head.value.payloadHash
    && a.encryption[sid].key == key
  }

  predicate SnapshotStarts(row: Rotation, key: VaultKey) {
    ResetStarts(row) && row.next.generation <= key.generation
  }

  function MarkCleanupReady(a: Account, sid: SnapshotId, key: VaultKey, now: nat): Account {
    if !HeadIsCurrent(a, sid, key) then a
    else a.(rotations := map rid | rid in a.rotations ::
              if SnapshotStarts(a.rotations[rid], key)
              then a.rotations[rid].(cleanup := Some(NewSnapshot(sid, now))) else a.rotations[rid])
  }

  /** The same CHECK: one rotation completed after the upload began aborts the statement. */
  predicate ReadyInTime(a: Account, sid: SnapshotId, key: VaultKey, now: nat) {
    HeadIsCurrent(a, sid, key) ==>
      forall rid :: rid in a.rotations && SnapshotStarts(a.rotations[rid], key) ==> a.rotations[rid].completedAt <= now
  }

  predicate ReadyForCleanup(a: Account, rid: RotationId) {
    rid in a.rotations && a.rotations[rid].cleanup.Some? && !a.rotations[rid].storageCleaned
  }

  function StagedBy(a: Account, rid: RotationId): set<R2Key> {
    if rid in a.rotations then a.rotations[rid].staged else {}
  }

  function FenceStaged(ledger: Ledger, staged: set<R2Key>, now: nat): Ledger {
    map k | k in ledger ::
      if k in staged && ledger[k].state.Referenced? then ledger[k].(state := Ready, lease := now) else ledger[k]
  }

  predicate IsHead(a: Account, sid: SnapshotId) {
    a.head.Some? && a.head.value.snapshotId == sid
  }

  function StaleEncryption(a: Account, staged: set<R2Key>, key: VaultKey): set<SnapshotId> {
    set sid | sid in a.encryption && a.encryption[sid].key != key && !IsHead(a, sid)
      && sid in a.snapshots && a.snapshots[sid].key in staged
  }

  function StaleSnapshots(a: Account, staged: set<R2Key>): set<SnapshotId> {
    set sid | sid in a.snapshots && !IsHead(a, sid) && a.snapshots[sid].key in staged && sid !in a.encryption
  }

  function StagedObjects(a: Account, staged: set<R2Key>): set<ObjectId> {
    set oid | oid in a.objects && a.objects[oid] in staged
  }

  /** The metadata batch of one rotation, in the order of its statements. */
  function MetadataBatch(db: Database, u: UserId, rid: RotationId, key: VaultKey, now: nat): Database {
    if u !in db.accounts then db else
    var staged := StagedBy(AccountOf(db, u), rid);
    var d1 := db.(ledger := FenceStaged(db.ledger, staged, now));
    var d2 := DeleteObjects(d1, u, StagedObjects(AccountOf(d1, u), staged));
    var a2 := AccountOf(d2, u);
    var d3 := SetAccount(d2, u, a2.(encryption := a2.encryption - StaleEncryption(a2, staged, key)));
    DeleteSnapshots(d3, u, StaleSnapshots(AccountOf(d3, u), staged))
  }

  /** A staged key that no row uses and that is not yet deleted. */
  predicate StillStored(db: Database, k: R2Key) {
    !ObjectUses(db, k) && !SnapshotUses(db, k) && !(k in db.ledger && db.ledger[k].state.Deleted?)
  }

  predicate MayMarkClean(db: Database, a: Account, rid: RotationId) {
    ReadyForCleanup(a, rid) && forall k :: k in a.rotations[rid].staged ==> !StillStored(db, k)
  }

  /** `CHECK (storage_cleaned_at >= cleanup_started_at)` */
  predicate StartedBy(row: Rotation, now: nat) {
    row.cleanup.Some? ==> row.cleanup.value.startedAt <= now
  }

  /** The mark would be earlier than the start of the cleanup, so the statement aborts. */
  predicate MarkAborts(db: Database, a: Account, rid: RotationId, now: nat) {
    MayMarkClean(db, a, rid) && !StartedBy(a.rotations[rid], now)
  }

  function MarkStorageClean(db: Database, u: UserId, rid: RotationId, now: nat): Database {
    var a := AccountOf(db, u);
    if MayMarkClean(db, a, rid) && StartedBy(a.rotations[rid], now)
    then SetAccount(db, u, a.(rotations := a.rotations[rid := a.rotations[rid].(storageCleaned := true)]))
    else db
  }

  /** The finalizer never aborts: it writes the later of its own time and the start. */
  function FinalizeAccount(db: Database, a: Account): Account {
    a.(rotations := map rid | rid in a.rotations ::
         if MayMarkClean(db, a, rid) then a.rotations[rid].(storageCleaned := true) else a.rotations[rid])
  }

  function FinalizeStorageClean(db: Database): Database {
    db.(accounts := map u | u in db.accounts :: FinalizeAccount(db, db.accounts[u]))
  }

  // ---------------------------------------------------------------- inventory

  predicate Rearms(db: Database, k: R2Key) {
    !Used(db, k) && !Protected(db, k) && (k in db.ledger ==> db.ledger[k].state.Deleted?)
  }

  /** One statement per listed object: a fresh ready row, or a deleted row made ready. */
  function Rearm(db: Database, listed: set<R2Key>, now: nat): Database {
    db.(ledger := map k | k in db.ledger.Keys + listed && (k in db.ledger || Rearms(db, k)) ::
          if k !in listed || !Rearms(db, k) then db.ledger[k]
          else if k in db.ledger
          then db.ledger[k].(state := Ready, lease := now, gcToken := None, deleteStartedAt := None)
          else LedgerRow(None, Ready, None, now, None, None, now))
  }

  /** A page whose objects include a deleted row created after the scan began is rolled back. */
  predicate PageInTime(db: Database, listed: set<R2Key>, now: nat) {
    forall k :: k in listed && Rearms(db, k) ==> CreatedBy(db.ledger, k, now)
  }
}
