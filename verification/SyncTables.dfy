/** The tables of the sync service as values, and the few facts about rows that every
    statement shares.

    Identifiers, hashes and tokens are only ever compared for equality, so each is a
    `nat`.  A key holds the account itself where the service holds the SHA-256 of the
    account: the hash is taken to be injective. */
module SyncTables {
  import opened Wrappers

  type UserId = nat
  type DeviceId = nat
  type SnapshotId = nat
  type ObjectId = nat
  type RotationId = nat
  type SessionId = nat
  type Region = nat
  type Hash = nat
  type KeyId = nat
  type Token = nat
  type Wrapped = nat

  /** A content-addressed R2 key: its last segment is the digest of what it stores. */
  datatype R2Key =
    | SnapshotKey(region: Region, owner: UserId, snapshotId: SnapshotId, payloadHash: Hash)
    | PayloadKey(region: Region, owner: UserId, objectId: ObjectId, payloadHash: Hash)

  /** A client sends its own idempotency keys; a rotation derives one per recipient. */
  datatype IdempotencyKey = Client(text: nat) | Derived(rotation: RotationId, recipient: DeviceId)

  datatype VaultKey = VaultKey(keyId: KeyId, generation: nat)

  datatype DeviceStatus = Pending | Approved | Revoked
  datatype Device = Device(status: DeviceStatus, idempotencyKey: IdempotencyKey)

  datatype EnvelopeId = EnvelopeId(recipient: DeviceId, key: VaultKey)
  datatype Envelope = Envelope(approver: DeviceId, wrapped: Wrapped, idempotencyKey: IdempotencyKey)

  datatype Approval = Approval(device: DeviceId, requester: DeviceId)
  datatype PendingRevocation = PendingRevocation(target: DeviceId, approver: DeviceId, requestHash: Hash)

  /** Why, and since when, a finished rotation may release the storage it staged. */
  datatype CleanupCause = NewSnapshot(snapshotId: SnapshotId, startedAt: nat) | SyncReset(startedAt: nat)

  /** A rotation is created and completed by one request, at one time. */
  datatype Rotation = Rotation(
    target: DeviceId,
    approver: DeviceId,
    previous: VaultKey,
    next: VaultKey,
    requestHash: Hash,
    envelopeCount: nat,
    r2ObjectCount: nat,
    items: map<DeviceId, Wrapped>,
    completed: bool,
    completedAt: nat,
    staged: set<R2Key>,
    cleanup: Option<CleanupCause>,
    storageCleaned: bool)

  datatype HeadRef = HeadRef(revision: nat, snapshotId: SnapshotId, payloadHash: Hash)

  datatype SnapshotRow = SnapshotRow(
    key: R2Key,
    payloadHash: Hash,
    schemaRev: nat,
    clock: nat,
    device: DeviceId,
    size: nat,
    createdAt: nat,
    revision: nat,
    base: Option<HeadRef>)

  datatype EncryptionRow = EncryptionRow(key: VaultKey, contentHash: Hash)

  /** Every row that carries one account's identifier.  A signed-in session is listed with
      the device it is bound to. */
  datatype Account = Account(
    devices: map<DeviceId, Device>,
    vault: Option<VaultKey>,
    envelopes: map<EnvelopeId, Envelope>,
    approvals: map<IdempotencyKey, Approval>,
    pendingRevocations: map<IdempotencyKey, PendingRevocation>,
    rotations: map<RotationId, Rotation>,
    snapshots: map<SnapshotId, SnapshotRow>,
    encryption: map<SnapshotId, EncryptionRow>,
    head: Option<HeadRef>,
    objects: map<ObjectId, R2Key>,
    sessions: map<SessionId, Option<DeviceId>>)

  datatype LedgerState = Reserved | Referenced | Ready | Deleting | Deleted

  /** A row of `sync_r2_gc_candidates`.  `Reserved` is its `pending` state. */
  datatype LedgerRow = LedgerRow(
    user: Option<UserId>,
    state: LedgerState,
    writeToken: Option<Token>,
    lease: nat,
    gcToken: Option<Token>,
    deleteStartedAt: Option<nat>,
    createdAt: nat)

  type Ledger = map<R2Key, LedgerRow>

  /** What R2 holds: the digest of the object stored under each key. */
  type Bucket = map<R2Key, Hash>

  datatype Database = Database(accounts: map<UserId, Account>, ledger: Ledger, erased: set<UserId>)

  const NO_ACCOUNT := Account(map[], None, map[], map[], map[], map[], map[], map[], None, map[], map[])

  function AccountOf(db: Database, u: UserId): Account {
    if u in db.accounts then db.accounts[u] else NO_ACCOUNT
  }

  function SetAccount(db: Database, u: UserId, a: Account): Database {
    db.(accounts := db.accounts[u := a])
  }

  /** Statements that changed no row leave no trace, also for an account that is gone. */
  function Settle(db: Database, u: UserId, a: Account): Database {
    if a == AccountOf(db, u) then db else SetAccount(db, u, a)
  }

  predicate HasStatus(a: Account, d: DeviceId, status: DeviceStatus) {
    d in a.devices && a.devices[d].status == status
  }

  /** A state from which a key never returns to the two states that allow a reference. */
  predicate Retired(state: LedgerState) {
    state.Ready? || state.Deleting? || state.Deleted?
  }

  predicate IsReferenced(ledger: Ledger, k: R2Key) {
    k in ledger && ledger[k].state.Referenced?
  }

  predicate IsReserved(ledger: Ledger, k: R2Key) {
    k in ledger && ledger[k].state.Reserved?
  }

  predicate IsRetired(ledger: Ledger, k: R2Key) {
    k in ledger && Retired(ledger[k].state)
  }

  /** `CHECK (updated_at >= created_at)`: a statement that writes its time into the row
      aborts unless the row was created by then. */
  predicate CreatedBy(ledger: Ledger, k: R2Key, now: nat) {
    k in ledger ==> ledger[k].createdAt <= now
  }

  /** `EXISTS (SELECT 1 FROM sync_snapshots WHERE r2_key = k)` */
  predicate SnapshotUses(db: Database, k: R2Key) {
    exists u, sid :: u in db.accounts && sid in db.accounts[u].snapshots
      && db.accounts[u].snapshots[sid].key == k
  }

  /** `EXISTS (SELECT 1 FROM sync_objects WHERE payload_r2_key = k)` */
  predicate ObjectUses(db: Database, k: R2Key) {
    exists u, oid :: u in db.accounts && oid in db.accounts[u].objects
      && db.accounts[u].objects[oid] == k
  }

  predicate Used(db: Database, k: R2Key) {
    SnapshotUses(db, k) || ObjectUses(db, k)
  }

  /** A rotation whose cleanup has not started still protects the keys it staged. */
  predicate Protected(db: Database, k: R2Key) {
    exists u, rid :: u in db.accounts && rid in db.accounts[u].rotations
      && db.accounts[u].rotations[rid].cleanup.None?
      && k in db.accounts[u].rotations[rid].staged
  }

  /** A rotation of this account whose cleanup has started staged the key. */
  predicate StagedForCleanup(a: Account, k: R2Key) {
    exists rid :: rid in a.rotations && a.rotations[rid].cleanup.Some? && k in a.rotations[rid].staged
  }

  function SnapshotKeys(a: Account): set<R2Key> {
    set sid | sid in a.snapshots :: a.snapshots[sid].key
  }

  function ObjectKeys(a: Account): set<R2Key> {
    set oid | oid in a.objects :: a.objects[oid]
  }

  function CurrentKeys(a: Account): set<R2Key> {
    SnapshotKeys(a) + ObjectKeys(a)
  }
}
