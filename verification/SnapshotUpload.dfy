/** Claiming a key and committing an upload: each statement of the commit batch with the
    constraints and triggers that can abort it, and what the batch as a whole amounts to. */
module SnapshotUpload {
  import opened Wrappers
  import opened SyncTables
  import opened VaultMembership
  import opened SyncInvariant

  const WRITE_LEASE_SECONDS := 600

  /** A parsed upload request of one device. */
  datatype Upload = Upload(
    user: UserId,
    device: DeviceId,
    snapshotId: SnapshotId,
    key: R2Key,
    payloadHash: Hash,
    vaultKey: VaultKey,
    contentHash: Hash,
    schemaRev: nat,
    clock: nat,
    revision: nat,
    base: Option<HeadRef>,
    size: nat)

  /** What parsing guarantees: the key is derived from the request, and a base names the
      revision just below the new one. */
  predicate Parsed(up: Upload) {
    && up.key == SnapshotKey(up.key.region, up.user, up.snapshotId, up.payloadHash)
    && up.revision >= 1
    && (up.base.None? ==> up.revision == 1)
    && (up.base.Some? ==> up.base.value.revision >= 1 && up.revision == up.base.value.revision + 1)
  }

  function Ref(up: Upload): HeadRef {
    HeadRef(up.revision, up.snapshotId, up.payloadHash)
  }

  function Row(up: Upload, now: nat): SnapshotRow {
    SnapshotRow(up.key, up.payloadHash, up.schemaRev, up.clock, up.device, up.size, now, up.revision, up.base)
  }

  // ---------------------------------------------------------------- the claim

  /** The base named by the request is the present head. */
  predicate BaseIsHead(a: Account, up: Upload) {
    || (up.revision == 1 && up.base.None? && a.head.None?)
    || (up.base.Some? && up.revision == up.base.value.revision + 1 && a.head == up.base)
  }

  predicate MayWrite(a: Account, up: Upload) {
    HasStatus(a, up.device, Approved) && a.vault == Some(up.vaultKey)
  }

  /** The guards of the claim. */
  predicate ClaimFits(db: Database, up: Upload) {
    && MayWrite(AccountOf(db, up.user), up)
    && BaseIsHead(AccountOf(db, up.user), up)
    && (up.key in db.ledger ==>
          db.ledger[up.key].user == Some(up.user) && db.ledger[up.key].state.Reserved?)
  }

  /** A claim aborts if it would take over a row that was created after its request began. */
  predicate ClaimGranted(db: Database, up: Upload, now: nat) {
    ClaimFits(db, up) && CreatedBy(db.ledger, up.key, now)
  }

  /** One insert that takes over a reserved row of the same user; otherwise no row changes
      and the worker reports the write as fenced, or fails if the statement aborted. */
  function ClaimWrite(db: Database, up: Upload, token: Token, now: nat): Database {
    if !ClaimGranted(db, up, now) then db
    else if up.key in db.ledger then
      db.(ledger := db.ledger[up.key := db.ledger[up.key].(writeToken := Some(token), lease := now + WRITE_LEASE_SECONDS)])
    else
      db.(ledger := db.ledger[up.key :=
        LedgerRow(Some(up.user), Reserved, Some(token), now + WRITE_LEASE_SECONDS, None, None, now)])
  }

  // ---------------------------------------------------------------- the abandon

  predicate MayAbandon(db: Database, up: Upload, token: Token) {
    && up.key in db.ledger
    && (db.ledger[up.key].user == Some(up.user) || db.ledger[up.key].user.None?)
    && (db.ledger[up.key].state.Reserved? || db.ledger[up.key].state.Ready?)
    && db.ledger[up.key].writeToken == Some(token)
    && !Used(db, up.key)
  }

  function Abandon(db: Database, up: Upload, token: Token, now: nat): Database {
    if MayAbandon(db, up, token)
    then db.(ledger := db.ledger[up.key := db.ledger[up.key].(state := Ready, lease := now)])
    else db
  }

  // ---------------------------------------------------------------- the statements of the commit

  predicate LeaseHeld(db: Database, up: Upload, token: Token, now: nat) {
    && up.key in db.ledger
    && db.ledger[up.key].user == Some(up.user)
    && db.ledger[up.key].state.Reserved?
    && db.ledger[up.key].writeToken == Some(token)
    && db.ledger[up.key].lease >= now
  }

  /** The `sync_r2_..._fence` triggers: the row's key is reserved for the account. */
  predicate Fenced(ledger: Ledger, u: UserId, k: R2Key) {
    !(k in ledger && ledger[k].user == Some(u) && ledger[k].state.Reserved? && ledger[k].writeToken.Some?)
  }

  /** The compare-and-swap shared by the statement and by the candidate triggers. */
  predicate BaseFits(a: Account, up: Upload) {
    || (up.revision == 1 && up.base.None? && a.head.None?)
    || (&& up.base.Some?
        && up.revision == up.base.value.revision + 1
        && a.head == up.base
        && up.base.value.snapshotId in a.snapshots
        && a.snapshots[up.base.value.snapshotId].payloadHash == up.base.value.payloadHash
        && up.clock > a.snapshots[up.base.value.snapshotId].clock)
  }

  predicate CandidateGuard(a: Account, up: Upload) {
    BaseFits(a, up) && (up.base.Some? ==> up.revision > 1)
  }

  predicate RevisionTaken(a: Account, up: Upload) {
    exists sid :: sid in a.snapshots && sid != up.snapshotId && a.snapshots[sid].revision == up.revision
  }

  /** The triggers that run after a snapshot row lets go of a key. */
  function Release(db: Database, k: R2Key): Database {
    if IsReferenced(db.ledger, k) && !Used(db, k)
    then db.(ledger := db.ledger[k := db.ledger[k].(state := Ready)])
    else db
  }

  function StoreSnapshot(db: Database, up: Upload, now: nat): Database {
    var a := AccountOf(db, up.user);
    var after := SetAccount(db, up.user, a.(snapshots := a.snapshots[up.snapshotId := Row(up, now)]));
    if up.snapshotId in a.snapshots && a.snapshots[up.snapshotId].key != up.key
    then Release(after, a.snapshots[up.snapshotId].key) else after
  }

  function UpsertSnapshot(db: Database, up: Upload, token: Token, now: nat): Outcome<Database> {
    var a := AccountOf(db, up.user);
    if !(BaseFits(a, up) && MayWrite(a, up) && LeaseHeld(db, up, token, now) && !StagedForCleanup(a, up.key))
    then Done(db, 0)
    else if Fenced(db.ledger, up.user, up.key) || !CandidateGuard(a, up) || RevisionTaken(a, up) then Aborted
    else Done(StoreSnapshot(db, up, now), 1)
  }

  function UpsertEncryption(db: Database, up: Upload, token: Token, now: nat): Outcome<Database> {
    var a := AccountOf(db, up.user);
    if up.snapshotId in a.snapshots && a.snapshots[up.snapshotId] == Row(up, now)
       && MayWrite(a, up) && LeaseHeld(db, up, token, now) && !StagedForCleanup(a, up.key)
    then Done(SetAccount(db, up.user,
                a.(encryption := a.encryption[up.snapshotId := EncryptionRow(up.vaultKey, up.contentHash)])), 1)
    else Done(db, 0)
  }

  /** The row the new head would point at, with its encryption row, is current. */
  predicate HeadRowLive(a: Account, up: Upload) {
    && up.snapshotId in a.snapshots
    && up.snapshotId in a.encryption
    && var row := a.snapshots[up.snapshotId];
       && row.payloadHash == up.payloadHash && row.revision == up.revision
       && a.vault == Some(a.encryption[up.snapshotId].key)
       && HasStatus(a, row.device, Approved)
       && !StagedForCleanup(a, row.key)
  }

  predicate HeadFenced(db: Database, a: Account, up: Upload) {
    || up.snapshotId !in a.snapshots
    || a.snapshots[up.snapshotId].revision != up.revision
    || a.snapshots[up.snapshotId].payloadHash != up.payloadHash
    || Fenced(db.ledger, up.user, a.snapshots[up.snapshotId].key)
  }

  predicate HeadInsertGuard(a: Account, up: Upload) {
    && HeadRowLive(a, up)
    && a.snapshots[up.snapshotId].revision == 1
    && a.snapshots[up.snapshotId].base.None?
  }

  predicate HeadUpdateGuard(a: Account, up: Upload) {
    && a.head.Some?
    && up.revision == a.head.value.revision + 1
    && HeadRowLive(a, up)
    && a.snapshots[up.snapshotId].base == a.head
  }

  function WriteHead(db: Database, up: Upload, token: Token, now: nat): Outcome<Database> {
    var a := AccountOf(db, up.user);
    var after := SetAccount(db, up.user, a.(head := Some(Ref(up))));
    if !LeaseHeld(db, up, token, now) then Done(db, 0)
    else if up.base.None? then
      if a.head.Some? || HeadFenced(db, a, up) || !HeadInsertGuard(a, up) then Aborted else Done(after, 1)
    else if a.head.None? then Done(db, 0)
    else if HeadFenced(db, a, up) || !HeadUpdateGuard(a, up) then Aborted
    else Done(after, 1)
  }

  /** `sync_r2_snapshot_mark_referenced_guard`: the head's row stores this key. */
  predicate HeadStores(a: Account, k: R2Key) {
    && a.head.Some?
    && a.head.value.snapshotId in a.snapshots
    && var row := a.snapshots[a.head.value.snapshotId];
       && row.revision == a.head.value.revision
       && row.payloadHash == a.head.value.payloadHash
       && row.key == k
  }

  function MarkReferenced(db: Database, up: Upload, token: Token, now: nat): Outcome<Database> {
    if !LeaseHeld(db, up, token, now) then Done(db, 0)
    else if !HeadStores(AccountOf(db, up.user), up.key) || !CreatedBy(db.ledger, up.key, now) then Aborted
    else Done(db.(ledger := db.ledger[up.key := db.ledger[up.key].(state := Referenced, lease := now)]), 1)
  }

  /** The error of an abort of that statement: a head conflict, which the trigger reports
      first, or the row's time. */
  predicate MarkIsLate(db: Database, up: Upload, now: nat) {
    HeadStores(AccountOf(db, up.user), up.key) && !CreatedBy(db.ledger, up.key, now)
  }

  /** What the worker sees of the batch: the four counts it compares with one, or an abort,
      which restores every table; `late` tells the row's time from a head conflict. */
  datatype BatchResult = Ran(state: Database, counts: seq<nat>) | RolledBack(late: bool)

  function CommitBatch(db: Database, up: Upload, token: Token, now: nat): BatchResult {
    match UpsertSnapshot(db, up, token, now)
    case Aborted => RolledBack(false)
    case Done(d1, n1) =>
      match UpsertEncryption(d1, up, token, now)
      case Aborted => RolledBack(false)
      case Done(d2, n2) =>
        match WriteHead(d2, up, token, now)
        case Aborted => RolledBack(false)
        case Done(d3, n3) =>
          match MarkReferenced(d3, up, token, now)
          case Aborted => RolledBack(MarkIsLate(d3, up, now))
          case Done(d4, n4) => Ran(d4, [n1, n2, n3, n4])
  }

  // ---------------------------------------------------------------- what the batch amounts to

  predicate CommitFits(db: Database, up: Upload, token: Token, now: nat) {
    && LeaseHeld(db, up, token, now)
    && MayWrite(AccountOf(db, up.user), up)
    && BaseFits(AccountOf(db, up.user), up)
    && !StagedForCleanup(AccountOf(db, up.user), up.key)
  }

  predicate CommitApplies(db: Database, up: Upload, token: Token, now: nat) {
    CommitFits(db, up, token, now) && CreatedBy(db.ledger, up.key, now)
  }

  /** Only the row's time is in the way. */
  predicate CommitLate(db: Database, up: Upload, token: Token, now: nat) {
    CommitFits(db, up, token, now) && !CreatedBy(db.ledger, up.key, now)
  }

  function CommittedAccount(a: Account, up: Upload, now: nat): Account {
    a.(snapshots := a.snapshots[up.snapshotId := Row(up, now)],
       encryption := a.encryption[up.snapshotId := EncryptionRow(up.vaultKey, up.contentHash)],
       head := Some(Ref(up)))
  }

  /** The key that the same snapshot identifier held before becomes collectable. */
  function ReleasePrior(a: Account, ledger: Ledger, up: Upload): Ledger {
    if up.snapshotId in a.snapshots && a.snapshots[up.snapshotId].key in ledger
    then var prior := a.snapshots[up.snapshotId].key; ledger[prior := ledger[prior].(state := Ready)]
    else ledger
  }

  function With(db: Database, u: UserId, a: Account, ledger: Ledger): Database {
    SetAccount(db, u, a).(ledger := ledger)
  }

  function CommittedLedger(a: Account, ledger: Ledger, up: Upload, now: nat): Ledger
    requires up.key in ledger
  {
    ReleasePrior(a, ledger, up)[up.key := ledger[up.key].(state := Referenced, lease := now)]
  }

  function Committed(db: Database, up: Upload, now: nat): Database
    requires up.key in db.ledger
  {
    var a := AccountOf(db, up.user);
    With(db, up.user, CommittedAccount(a, up, now), CommittedLedger(a, db.ledger, up, now))
  }

  lemma ReservedIsUnused(db: Database, up: Upload)
    requires DatabaseOk(db) && IsReserved(db.ledger, up.key)
    ensures forall sid :: sid in AccountOf(db, up.user).snapshots ==>
              AccountOf(db, up.user).snapshots[sid].key != up.key
              && ReferencedFor(db.ledger, AccountOf(db, up.user).snapshots[sid].key, up.user)
  {
  }

  /** Storing the row releases the key it replaces, because no other row can hold it. */
  lemma StoreReleases(db: Database, up: Upload, now: nat)
    requires DatabaseOk(db) && Parsed(up) && IsReserved(db.ledger, up.key)
    ensures var a := AccountOf(db, up.user);
            StoreSnapshot(db, up, now) ==
              With(db, up.user, a.(snapshots := a.snapshots[up.snapshotId := Row(up, now)]),
                   ReleasePrior(a, db.ledger, up))
  {
    var a := AccountOf(db, up.user);
    AccountOfOk(db, up.user);
    ReservedIsUnused(db, up);
    if up.snapshotId in a.snapshots {
      var prior := a.snapshots[up.snapshotId].key;
      var b := a.(snapshots := a.snapshots[up.snapshotId := Row(up, now)]);
      var after := SetAccount(db, up.user, b);
      assert RowShape(up.user, up.snapshotId, a.snapshots[up.snapshotId]);
      forall u | u in after.accounts
        ensures ShapesOk(u, after.accounts[u])
      {
        if u != up.user { assert AccountOk(u, db.accounts[u], db.ledger); }
      }
      UsedIsLookup(after, prior);
      assert !Holds(after, prior);
    }
  }

  lemma NewRevisionIsFree(db: Database, up: Upload)
    requires DatabaseOk(db) && Parsed(up) && BaseFits(AccountOf(db, up.user), up)
    ensures !RevisionTaken(AccountOf(db, up.user), up)
  {
    AccountOfOk(db, up.user);
  }

  lemma SnapshotStatement(db: Database, up: Upload, token: Token, now: nat)
    requires DatabaseOk(db) && Parsed(up) && CommitFits(db, up, token, now)
    ensures var a := AccountOf(db, up.user);
            UpsertSnapshot(db, up, token, now) ==
              Done(With(db, up.user, a.(snapshots := a.snapshots[up.snapshotId := Row(up, now)]),
                        ReleasePrior(a, db.ledger, up)), 1)
            && up.key in ReleasePrior(a, db.ledger, up)
            && ReleasePrior(a, db.ledger, up)[up.key] == db.ledger[up.key]
  {
    ReservedIsUnused(db, up);
    NewRevisionIsFree(db, up);
    assert LedgerRowOk(up.key, db.ledger[up.key]);
    StoreReleases(db, up, now);
  }

  /** The three statements after the first, once the snapshot row is in place. */
  lemma LaterStatements(d: Database, a: Account, up: Upload, token: Token, now: nat)
    requires Parsed(up) && AccountOf(d, up.user) == a && LeaseHeld(d, up, token, now)
    requires up.snapshotId in a.snapshots && a.snapshots[up.snapshotId] == Row(up, now)
    requires MayWrite(a, up) && !StagedForCleanup(a, up.key)
    requires a.head == up.base
    ensures var b := a.(encryption := a.encryption[up.snapshotId := EncryptionRow(up.vaultKey, up.contentHash)],
                        head := Some(Ref(up)));
            var d2 := SetAccount(d, up.user, a.(encryption := b.encryption));
            var d3 := SetAccount(d2, up.user, b);
            && UpsertEncryption(d, up, token, now) == Done(d2, 1)
            && WriteHead(d2, up, token, now) == Done(d3, 1)
            && (if CreatedBy(d.ledger, up.key, now)
                then MarkReferenced(d3, up, token, now)
                       == Done(With(d, up.user, b, d.ledger[up.key := d.ledger[up.key].(state := Referenced, lease := now)]), 1)
                else MarkReferenced(d3, up, token, now).Aborted? && MarkIsLate(d3, up, now))
  {
    var a2 := a.(encryption := a.encryption[up.snapshotId := EncryptionRow(up.vaultKey, up.contentHash)]);
    var d2 := SetAccount(d, up.user, a2);
    assert AccountOf(d2, up.user) == a2;
    assert StagedForCleanup(a2, up.key) <==> StagedForCleanup(a, up.key);
    var b := a2.(head := Some(Ref(up)));
    var d3 := SetAccount(d2, up.user, b);
    assert AccountOf(d3, up.user) == b;
    assert d3.accounts == d.accounts[up.user := b];
  }

  lemma BatchAfterSnapshot(db: Database, up: Upload, token: Token, now: nat, ledger: Ledger)
    requires Parsed(up) && CommitFits(db, up, token, now)
    requires up.key in ledger && ledger[up.key] == db.ledger[up.key]
    requires var a := AccountOf(db, up.user);
             UpsertSnapshot(db, up, token, now) ==
               Done(With(db, up.user, a.(snapshots := a.snapshots[up.snapshotId := Row(up, now)]), ledger), 1)
    ensures CommitBatch(db, up, token, now) ==
            if CreatedBy(db.ledger, up.key, now)
            then Ran(With(db, up.user, CommittedAccount(AccountOf(db, up.user), up, now),
                          ledger[up.key := db.ledger[up.key].(state := Referenced, lease := now)]), [1, 1, 1, 1])
            else RolledBack(true)
  {
    var a := AccountOf(db, up.user);
    var a1 := a.(snapshots := a.snapshots[up.snapshotId := Row(up, now)]);
    var d1 := With(db, up.user, a1, ledger);
    assert AccountOf(d1, up.user) == a1;
    assert StagedForCleanup(a1, up.key) <==> StagedForCleanup(a, up.key);
    LaterStatements(d1, a1, up, token, now);
    var b := CommittedAccount(a, up, now);
    assert d1.accounts[up.user := b] == db.accounts[up.user := b];
  }

  /** When the four guards hold, each statement changes its one row, unless the last one
      comes too late. */
  lemma CommitTakesEffect(db: Database, up: Upload, token: Token, now: nat)
    requires DatabaseOk(db) && Parsed(up) && CommitFits(db, up, token, now)
    ensures CommitBatch(db, up, token, now) ==
            if CreatedBy(db.ledger, up.key, now) then Ran(Committed(db, up, now), [1, 1, 1, 1]) else RolledBack(true)
  {
    SnapshotStatement(db, up, token, now);
    BatchAfterSnapshot(db, up, token, now, ReleasePrior(AccountOf(db, up.user), db.ledger, up));
  }

  /** With the lease held but another guard failing, a trigger rolls the batch back. */
  lemma CommitIsRolledBack(db: Database, up: Upload, token: Token, now: nat)
    requires DatabaseOk(db) && Parsed(up) && LeaseHeld(db, up, token, now)
    requires !CommitFits(db, up, token, now)
    ensures CommitBatch(db, up, token, now) == RolledBack(false)
  {
    var a := AccountOf(db, up.user);
    ReservedIsUnused(db, up);
    AccountOfOk(db, up.user);
    assert UpsertSnapshot(db, up, token, now) == Done(db, 0);
    assert UpsertEncryption(db, up, token, now) == Done(db, 0);
    if WriteHead(db, up, token, now).Done? {
      assert WriteHead(db, up, token, now) == Done(db, 0);
      assert !HeadStores(a, up.key);
    }
  }

  /** The commit batch either changes one row in each of the four tables, exactly when its
      guards hold, or changes nothing: four zero counts once the lease is lost, a rollback
      otherwise, whose error tells a late row from a head conflict.  No partial commit exists. */
  lemma CommitAllOrNothing(db: Database, up: Upload, token: Token, now: nat)
    requires DatabaseOk(db) && Parsed(up)
    ensures CommitBatch(db, up, token, now) ==
            if CommitApplies(db, up, token, now) then Ran(Committed(db, up, now), [1, 1, 1, 1])
            else if LeaseHeld(db, up, token, now) then RolledBack(CommitLate(db, up, token, now))
            else Ran(db, [0, 0, 0, 0])
  {
    if CommitFits(db, up, token, now) {
      CommitTakesEffect(db, up, token, now);
    } else if LeaseHeld(db, up, token, now) {
      CommitIsRolledBack(db, up, token, now);
    }
  }
}
