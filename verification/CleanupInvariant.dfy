/** Membership changes and rotation cleanup keep the tables consistent, and what the
    cleanup's metadata batch amounts to. */
module CleanupInvariant {
  import opened Wrappers
  import opened SyncTables
  import opened VaultMembership
  import opened SyncInvariant
  import opened SnapshotUpload
  import opened UploadInvariant
  import opened StorageRetirement
  import opened RetirementInvariant

  // ---------------------------------------------------------------- membership

  ghost predicate SameStorage(a: Account, b: Account) {
    && b.snapshots == a.snapshots && b.encryption == a.encryption && b.head == a.head && b.objects == a.objects
  }

  /** The vault's generation never falls, so rows stay no newer than the vault. */
  ghost predicate VaultAdvances(a: Account, b: Account) {
    a.vault.Some? ==> b.vault.Some? && b.vault.value.generation >= a.vault.value.generation
  }

  lemma MembershipChangeOk(u: UserId, a: Account, b: Account, ledger: Ledger)
    requires AccountOk(u, a, ledger) && MembersOk(b)
    requires SameStorage(a, b) && b.rotations == a.rotations && VaultAdvances(a, b)
    ensures AccountOk(u, b, ledger)
  {
  }

  lemma MembershipKeepsDatabase(db: Database, u: UserId, b: Account)
    requires DatabaseOk(db) && u !in db.erased && MembersOk(b)
    requires var a := AccountOf(db, u);
             SameStorage(a, b) && b.rotations == a.rotations && VaultAdvances(a, b)
    ensures DatabaseOk(SetAccount(db, u, b))
  {
    AccountOfOk(db, u);
    MembershipChangeOk(u, AccountOf(db, u), b, db.ledger);
    SameLedger(db, u, b);
  }

  lemma SameLedger(db: Database, u: UserId, b: Account)
    requires DatabaseOk(db) && u !in db.erased && AccountOk(u, b, db.ledger)
    requires var a := AccountOf(db, u); b.snapshots == a.snapshots && b.objects == a.objects
    ensures DatabaseOk(SetAccount(db, u, b))
  {
  }

  // ---------------------------------------------------------------- rotation

  lemma CurrentKeysReferenced(u: UserId, a: Account, ledger: Ledger)
    requires ShapesOk(u, a) && RowsReferenced(u, a, ledger)
    ensures forall k :: k in CurrentKeys(a) ==> k.owner == u && ReferencedFor(ledger, k, u)
  {
  }

  /** A rotation stages what the account stores now, all of it under an older key. */
  lemma RotationStaging(u: UserId, a: Account, b: Account, id: RotationId, ledger: Ledger)
    requires ShapesOk(u, a) && RowsReferenced(u, a, ledger) && GenerationsOk(a) && StagingOk(u, a, ledger)
    requires SameStorage(a, b) && a.vault.Some? && id in b.rotations
    requires b.rotations == a.rotations[id := b.rotations[id]]
    requires b.rotations[id].staged == CurrentKeys(a) && b.rotations[id].cleanup.None? && !b.rotations[id].storageCleaned
    requires b.rotations[id].next.generation > a.vault.value.generation
    ensures StagingOk(u, b, ledger)
  {
    CurrentKeysReferenced(u, a, ledger);
  }

  lemma RotatedKeepsStorage(a: Account, r: RotationRequest)
    requires r.target in a.devices
    ensures var b := Rotated(a, r);
            && SameStorage(a, b) && b.vault == Some(r.next) && r.rotation in b.rotations
            && b.rotations == a.rotations[r.rotation := b.rotations[r.rotation]]
            && b.rotations[r.rotation].staged == CurrentKeys(a)
            && b.rotations[r.rotation].cleanup.None? && !b.rotations[r.rotation].storageCleaned
            && b.rotations[r.rotation].next == r.next
  {
  }

  lemma RotationKeepsDatabase(db: Database, u: UserId, r: RotationRequest)
    requires DatabaseOk(db) && RotationApplies(AccountOf(db, u), r)
    ensures DatabaseOk(SetAccount(db, u, Rotated(AccountOf(db, u), r)))
  {
    var a := AccountOf(db, u);
    AccountOfOk(db, u);
    RotationKeepsMembers(a, r);
    RotatedKeepsStorage(a, r);
    RotationStaging(u, a, Rotated(a, r), r.rotation, db.ledger);
    RotatedAccountOk(u, a, Rotated(a, r), db.ledger);
    SameLedger(db, u, Rotated(a, r));
  }

  lemma RotatedAccountOk(u: UserId, a: Account, b: Account, ledger: Ledger)
    requires AccountOk(u, a, ledger) && MembersOk(b) && StagingOk(u, b, ledger)
    requires SameStorage(a, b) && VaultAdvances(a, b)
    ensures AccountOk(u, b, ledger)
  {
  }

  // ---------------------------------------------------------------- starting a cleanup

  /** Cleanup changes nothing of a rotation but its two progress marks. */
  ghost predicate OnlyProgress(a: Account, b: Account) {
    && b == a.(rotations := b.rotations)
    && b.rotations.Keys == a.rotations.Keys
    && (forall rid :: rid in a.rotations ==>
          b.rotations[rid] ==
            a.rotations[rid].(cleanup := b.rotations[rid].cleanup, storageCleaned := b.rotations[rid].storageCleaned))
  }

  lemma ProgressKeepsMembers(a: Account, b: Account)
    requires MembersOk(a) && OnlyProgress(a, b)
    ensures MembersOk(b)
  {
    assert forall d, s :: HasStatus(b, d, s) <==> HasStatus(a, d, s);
  }

  lemma ProgressOk(u: UserId, a: Account, b: Account, ledger: Ledger)
    requires AccountOk(u, a, ledger) && OnlyProgress(a, b) && StagingOk(u, b, ledger)
    ensures AccountOk(u, b, ledger)
  {
    ProgressKeepsMembers(a, b);
  }

  /** Rotations that only progress keep what is known of their staged keys, if the head's key
      is not among those of a cleanup that has started. */
  lemma StagingFollows(u: UserId, a: Account, b: Account, ledger: Ledger)
    requires StagingOk(u, a, ledger) && b == a.(rotations := b.rotations) && b.rotations.Keys == a.rotations.Keys
    requires forall rid :: rid in a.rotations ==>
               && b.rotations[rid].staged == a.rotations[rid].staged && b.rotations[rid].next == a.rotations[rid].next
               && (b.rotations[rid].storageCleaned ==> b.rotations[rid].cleanup.Some?)
    requires a.head.Some? && a.head.value.snapshotId in a.snapshots ==>
               forall rid :: rid in b.rotations && b.rotations[rid].cleanup.Some? ==>
                 a.snapshots[a.head.value.snapshotId].key !in a.rotations[rid].staged
    ensures StagingOk(u, b, ledger)
  {
  }

  /** The head of a started cleanup is newer than anything the rotation staged. */
  lemma MarkReadyStaging(u: UserId, a: Account, sid: SnapshotId, key: VaultKey, ledger: Ledger, now: nat)
    requires StagingOk(u, a, ledger)
    ensures StagingOk(u, MarkCleanupReady(a, sid, key, now), ledger)
  {
    if HeadIsCurrent(a, sid, key) {
      MarkReadyKeepsRotations(a, sid, key, now);
      MarkReadySparesHead(u, a, sid, key, ledger, now);
      StagingFollows(u, a, MarkCleanupReady(a, sid, key, now), ledger);
    }
  }

  lemma MarkReadyKeepsRotations(a: Account, sid: SnapshotId, key: VaultKey, now: nat)
    ensures var b := MarkCleanupReady(a, sid, key, now);
            && b == a.(rotations := b.rotations) && b.rotations.Keys == a.rotations.Keys
            && (forall rid :: rid in a.rotations ==>
                  && b.rotations[rid].staged == a.rotations[rid].staged && b.rotations[rid].next == a.rotations[rid].next
                  && b.rotations[rid].storageCleaned == a.rotations[rid].storageCleaned
                  && (a.rotations[rid].cleanup.Some? ==> b.rotations[rid].cleanup.Some?))
  {
  }

  lemma MarkReadySparesHead(u: UserId, a: Account, sid: SnapshotId, key: VaultKey, ledger: Ledger, now: nat)
    requires StagingOk(u, a, ledger) && HeadIsCurrent(a, sid, key)
    ensures var b := MarkCleanupReady(a, sid, key, now);
            forall rid :: rid in b.rotations && b.rotations[rid].cleanup.Some? ==> a.snapshots[sid].key !in a.rotations[rid].staged
  {
    var b := MarkCleanupReady(a, sid, key, now);
    forall rid | rid in b.rotations && b.rotations[rid].cleanup.Some?
      ensures a.snapshots[sid].key !in a.rotations[rid].staged
    {
      assert a.rotations[rid].cleanup.None? ==> a.rotations[rid].next.generation <= a.encryption[sid].key.generation;
    }
  }

  lemma MarkReadyOk(u: UserId, a: Account, sid: SnapshotId, key: VaultKey, ledger: Ledger, now: nat)
    requires AccountOk(u, a, ledger)
    ensures AccountOk(u, MarkCleanupReady(a, sid, key, now), ledger)
  {
    MarkReadyStaging(u, a, sid, key, ledger, now);
    ProgressOk(u, a, MarkCleanupReady(a, sid, key, now), ledger);
  }

  lemma MarkReadyKeepsDatabase(db: Database, u: UserId, sid: SnapshotId, key: VaultKey, now: nat)
    requires DatabaseOk(db) && u in db.accounts
    ensures DatabaseOk(SetAccount(db, u, MarkCleanupReady(db.accounts[u], sid, key, now)))
  {
    AccountOfOk(db, u);
    MarkReadyOk(u, db.accounts[u], sid, key, db.ledger, now);
    MarkReadyKeepsRotations(db.accounts[u], sid, key, now);
    SameLedger(db, u, MarkCleanupReady(db.accounts[u], sid, key, now));
  }

  // ---------------------------------------------------------------- the metadata batch

  function StagedSnapshots(a: Account, staged: set<R2Key>): set<SnapshotId> {
    set sid | sid in a.snapshots && a.snapshots[sid].key in staged
  }

  /** The account without the rows that refer to a staged key. */
  function Cleaned(a: Account, staged: set<R2Key>): Account {
    a.(snapshots := a.snapshots - StagedSnapshots(a, staged),
       encryption := a.encryption - StagedSnapshots(a, staged),
       objects := a.objects - StagedObjects(a, staged))
  }

  ghost predicate CleanupStarted(a: Account, rid: RotationId) {
    rid in a.rotations && a.rotations[rid].cleanup.Some?
  }

  /** Every staged row is stale: it is not the head's and was sealed under an older key. */
  lemma StagedRowsAreStale(u: UserId, a: Account, rid: RotationId, ledger: Ledger)
    requires AccountOk(u, a, ledger) && CleanupStarted(a, rid)
    ensures var staged := a.rotations[rid].staged;
            forall sid :: sid in StagedSnapshots(a, staged) ==>
              sid in a.encryption && a.encryption[sid].key != a.rotations[rid].next && !IsHead(a, sid)
  {
  }

  lemma MetadataSteps(db: Database, u: UserId, rid: RotationId, key: VaultKey, now: nat)
    requires u in db.accounts
    requires var a := db.accounts[u];
             var staged := StagedBy(a, rid);
             && (forall sid :: sid in StagedSnapshots(a, staged) ==>
                   sid in a.encryption && a.encryption[sid].key != key && !IsHead(a, sid))
             && (forall sid :: sid in a.snapshots ==> sid in a.encryption)
    ensures MetadataBatch(db, u, rid, key, now) ==
            With(db, u, Cleaned(db.accounts[u], StagedBy(db.accounts[u], rid)),
                 FenceStaged(db.ledger, StagedBy(db.accounts[u], rid), now))
  {
    var a := db.accounts[u];
    var staged := StagedBy(a, rid);
    var fenced := FenceStaged(db.ledger, staged, now);
    assert forall k :: k in staged ==> !IsReferenced(fenced, k);
    var d1 := db.(ledger := fenced);
    var a2 := a.(objects := a.objects - StagedObjects(a, staged));
    var d2 := SetAccount(d1, u, a2);
    NothingToRelease(d2, set oid | oid in StagedObjects(a, staged) && oid in a.objects :: a.objects[oid]);
    assert DeleteObjects(d1, u, StagedObjects(a, staged)) == d2;
    assert StaleEncryption(a2, staged, key) == StagedSnapshots(a, staged);
    var a3 := a2.(encryption := a2.encryption - StagedSnapshots(a, staged));
    var d3 := SetAccount(d2, u, a3);
    assert StaleSnapshots(a3, staged) == StagedSnapshots(a, staged);
    var d4 := SetAccount(d3, u, a3.(snapshots := a3.snapshots - StagedSnapshots(a, staged)));
    NothingToRelease(d4, set sid | sid in StagedSnapshots(a, staged) && sid in a3.snapshots :: a3.snapshots[sid].key);
    assert d4.accounts == db.accounts[u := Cleaned(a, staged)];
  }

  /** For a rotation whose cleanup has started, the batch removes every row that refers to
      a staged key, and those rows only. */
  lemma MetadataResult(db: Database, u: UserId, rid: RotationId, now: nat)
    requires DatabaseOk(db) && u in db.accounts && CleanupStarted(db.accounts[u], rid)
    ensures var a := db.accounts[u];
            MetadataBatch(db, u, rid, a.rotations[rid].next, now) ==
              With(db, u, Cleaned(a, a.rotations[rid].staged), FenceStaged(db.ledger, a.rotations[rid].staged, now))
  {
    assert AccountOk(u, db.accounts[u], db.ledger);
    StagedRowsAreStale(u, db.accounts[u], rid, db.ledger);
    MetadataSteps(db, u, rid, db.accounts[u].rotations[rid].next, now);
  }

  lemma CleanedRows(u: UserId, a: Account, rid: RotationId, ledger: Ledger, now: nat)
    requires ShapesOk(u, a) && RowsReferenced(u, a, ledger) && rid in a.rotations
    ensures var staged := a.rotations[rid].staged;
            ShapesOk(u, Cleaned(a, staged)) && RowsReferenced(u, Cleaned(a, staged), FenceStaged(ledger, staged, now))
  {
  }

  lemma CleanedHeadOk(u: UserId, a: Account, rid: RotationId, ledger: Ledger)
    requires AccountOk(u, a, ledger) && CleanupStarted(a, rid)
    ensures var b := Cleaned(a, a.rotations[rid].staged);
            HeadOk(b) && GenerationsOk(b) && StagingOk(u, b, ledger)
  {
    StagedRowsAreStale(u, a, rid, ledger);
    if a.head.Some? { assert a.head.value.snapshotId !in StagedSnapshots(a, a.rotations[rid].staged); }
    CleanedHead(a, a.rotations[rid].staged);
    CleanedStaging(u, a, a.rotations[rid].staged, ledger);
  }

  lemma CleanedHead(a: Account, staged: set<R2Key>)
    requires HeadOk(a) && GenerationsOk(a) && (a.head.Some? ==> a.head.value.snapshotId !in StagedSnapshots(a, staged))
    ensures HeadOk(Cleaned(a, staged)) && GenerationsOk(Cleaned(a, staged))
  {
    assert Cleaned(a, staged).encryption.Keys == Cleaned(a, staged).snapshots.Keys;
  }

  lemma CleanedStaging(u: UserId, a: Account, staged: set<R2Key>, ledger: Ledger)
    requires StagingOk(u, a, ledger)
    ensures StagingOk(u, Cleaned(a, staged), ledger)
  {
  }

  lemma FenceStagedFences(ledger: Ledger, u: UserId, staged: set<R2Key>, now: nat)
    requires forall k: R2Key :: k in staged ==> k.owner == u
    ensures Fences(ledger, FenceStaged(ledger, staged, now), u)
  {
  }

  lemma StagingSurvives(u: UserId, a: Account, before: Ledger, after: Ledger)
    requires StagingOk(u, a, before) && Evolves(before, after)
    ensures StagingOk(u, a, after)
  {
  }

  lemma CleanedAccountOk(u: UserId, a: Account, rid: RotationId, ledger: Ledger, now: nat)
    requires AccountOk(u, a, ledger) && LedgerOk(ledger) && CleanupStarted(a, rid)
    ensures var staged := a.rotations[rid].staged;
            var after := FenceStaged(ledger, staged, now);
            && AccountOk(u, Cleaned(a, staged), after)
            && Evolves(ledger, after) && LedgerOk(after)
            && (forall v :: v != u ==> KeepsReferences(ledger, after, v))
  {
    var staged := a.rotations[rid].staged;
    var after := FenceStaged(ledger, staged, now);
    FenceStagedFences(ledger, u, staged, now);
    FencingEvolves(ledger, after, u);
    CleanedRows(u, a, rid, ledger, now);
    CleanedHeadOk(u, a, rid, ledger);
    StagingSurvives(u, Cleaned(a, staged), ledger, after);
    SameMembers(a, Cleaned(a, staged));
  }

  lemma MetadataKeepsDatabase(db: Database, u: UserId, rid: RotationId, now: nat)
    requires DatabaseOk(db) && u in db.accounts && CleanupStarted(db.accounts[u], rid)
    ensures var after := MetadataBatch(db, u, rid, db.accounts[u].rotations[rid].next, now);
            DatabaseOk(after) && Evolves(db.ledger, after.ledger)
  {
    var a := db.accounts[u];
    MetadataResult(db, u, rid, now);
    assert AccountOk(u, a, db.ledger);
    CleanedAccountOk(u, a, rid, db.ledger, now);
    var staged := a.rotations[rid].staged;
    var after := FenceStaged(db.ledger, staged, now);
    forall k | IsReferenced(after, k)
      ensures if k.owner == u then AccountHolds(Cleaned(a, staged), k) else IsReferenced(db.ledger, k)
    {
      assert IsReferenced(db.ledger, k) && k !in staged;
      assert Holds(db, k);
    }
    OneAccountChanged(db, u, Cleaned(a, staged), after);
  }

  // ---------------------------------------------------------------- marking storage clean

  /** Only a rotation whose cleanup has started is ever marked. */
  lemma CleanFlagsOk(u: UserId, a: Account, b: Account, ledger: Ledger)
    requires AccountOk(u, a, ledger) && OnlyProgress(a, b)
    requires forall rid :: rid in a.rotations ==>
               b.rotations[rid].cleanup == a.rotations[rid].cleanup
               && (b.rotations[rid].storageCleaned ==> a.rotations[rid].storageCleaned || a.rotations[rid].cleanup.Some?)
    ensures AccountOk(u, b, ledger)
  {
    FlagsKeepStaging(u, a, b, ledger);
    ProgressOk(u, a, b, ledger);
  }

  lemma FlagsKeepStaging(u: UserId, a: Account, b: Account, ledger: Ledger)
    requires StagingOk(u, a, ledger) && OnlyProgress(a, b)
    requires forall rid :: rid in a.rotations ==>
               b.rotations[rid].cleanup == a.rotations[rid].cleanup
               && (b.rotations[rid].storageCleaned ==> a.rotations[rid].storageCleaned || a.rotations[rid].cleanup.Some?)
    ensures StagingOk(u, b, ledger)
  {
    forall rid | rid in b.rotations
      ensures b.rotations[rid].staged == a.rotations[rid].staged && b.rotations[rid].next == a.rotations[rid].next
    {
    }
  }

  lemma MarkCleanKeepsDatabase(db: Database, u: UserId, rid: RotationId, now: nat)
    requires DatabaseOk(db)
    ensures DatabaseOk(MarkStorageClean(db, u, rid, now))
  {
    var a := AccountOf(db, u);
    if MayMarkClean(db, a, rid) && StartedBy(a.rotations[rid], now) {
      AccountOfOk(db, u);
      FlaggedOk(u, a, rid, db.ledger);
      SameLedger(db, u, a.(rotations := a.rotations[rid := a.rotations[rid].(storageCleaned := true)]));
    }
  }

  lemma FlaggedOk(u: UserId, a: Account, rid: RotationId, ledger: Ledger)
    requires AccountOk(u, a, ledger) && CleanupStarted(a, rid)
    ensures AccountOk(u, a.(rotations := a.rotations[rid := a.rotations[rid].(storageCleaned := true)]), ledger)
  {
    CleanFlagsOk(u, a, a.(rotations := a.rotations[rid := a.rotations[rid].(storageCleaned := true)]), ledger);
  }

  lemma FinalizeAccountOk(db: Database, u: UserId)
    requires u in db.accounts && AccountOk(u, db.accounts[u], db.ledger)
    ensures AccountOk(u, FinalizeAccount(db, db.accounts[u]), db.ledger)
  {
    CleanFlagsOk(u, db.accounts[u], FinalizeAccount(db, db.accounts[u]), db.ledger);
  }

  lemma FinalizeKeepsDatabase(db: Database)
    requires DatabaseOk(db)
    ensures DatabaseOk(FinalizeStorageClean(db))
  {
    var after := FinalizeStorageClean(db);
    forall u | u in after.accounts
      ensures AccountOk(u, after.accounts[u], after.ledger)
    {
      FinalizeAccountOk(db, u);
    }
    forall k | IsReferenced(after.ledger, k)
      ensures Holds(after, k)
    {
      assert Holds(db, k);
    }
  }
}
