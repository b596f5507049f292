/** One cleanup call as a whole: what its loop over the ready rotations leaves behind. */
module CleanupRuns {
  import opened Wrappers
  import opened SyncTables
  import opened SyncInvariant
  import opened StorageRetirement
  import opened CleanupInvariant
  import opened ProtocolInvariant
  import opened ProtocolHistory
  import opened CleanupSafety
  import opened GarbageCollection

  ghost predicate DeletedStays(before: Ledger, after: Ledger) {
    forall k :: IsDeleted(before, k) ==> IsDeleted(after, k)
  }

  /** Rows only go, the head's rows stay, and of the rotations only marks move. */
  ghost predicate OnlyLosesRows(a: Account, b: Account) {
    && b == a.(snapshots := b.snapshots, encryption := b.encryption, objects := b.objects, rotations := b.rotations)
    && HeadOf(b) == HeadOf(a)
    && (forall sid :: sid in b.snapshots ==> sid in a.snapshots && b.snapshots[sid] == a.snapshots[sid])
    && (forall oid :: oid in b.objects ==> oid in a.objects && b.objects[oid] == a.objects[oid])
  }

  ghost predicate OnlyMarks(a: Account, b: Account, rids: set<RotationId>) {
    && b.rotations.Keys == a.rotations.Keys
    && (forall r :: r in a.rotations ==>
          b.rotations[r] == if r in rids then a.rotations[r].(storageCleaned := b.rotations[r].storageCleaned) else a.rotations[r])
  }

  /** No ledger row appears or goes, and none changes its age. */
  ghost predicate SameAges(before: Ledger, after: Ledger) {
    after.Keys == before.Keys && forall k :: k in before ==> after[k].createdAt == before[k].createdAt
  }

  /** Nothing that the cleanup reads was written after its request began. */
  ghost predicate NothingYounger(db: Database, u: UserId, now: nat) {
    && (forall k :: k in db.ledger ==> db.ledger[k].createdAt <= now)
    && (forall rid :: rid in AccountOf(db, u).rotations ==>
          AccountOf(db, u).rotations[rid].completedAt <= now && StartedBy(AccountOf(db, u).rotations[rid], now))
  }

  /** What any part of a cleanup does to the tables. */
  ghost predicate Cleaning(db: Database, after: Database, u: UserId, rids: set<RotationId>) {
    && u in db.accounts && u in after.accounts
    && after.accounts == db.accounts[u := after.accounts[u]] && after.erased == db.erased
    && Evolves(db.ledger, after.ledger) && DeletedStays(db.ledger, after.ledger) && SameAges(db.ledger, after.ledger)
    && OnlyLosesRows(db.accounts[u], after.accounts[u])
    && OnlyMarks(db.accounts[u], after.accounts[u], rids)
  }

  /** Nothing refers to what the rotation staged, and it is marked clean only if all of that
      is deleted. */
  ghost predicate CleanedUp(a: Account, ledger: Ledger, rid: RotationId) {
    && rid in a.rotations
    && (forall sid :: sid in a.snapshots ==> a.snapshots[sid].key !in a.rotations[rid].staged)
    && (forall oid :: oid in a.objects ==> a.objects[oid] !in a.rotations[rid].staged)
    && StagedRetired(a, ledger, rid)
    && (a.rotations[rid].storageCleaned ==> AllDeleted(a, rid, ledger))
  }

  lemma CleaningTwice(first: Database, second: Database, third: Database, u: UserId, r: set<RotationId>, q: set<RotationId>)
    requires Cleaning(first, second, u, r) && Cleaning(second, third, u, q)
    ensures Cleaning(first, third, u, r + q)
  {
    assert first.accounts[u := second.accounts[u]][u := third.accounts[u]] == first.accounts[u := third.accounts[u]];
  }

  /** Cleaning up one rotation does not undo the cleanup of another. */
  lemma CleanedUpStays(db: Database, after: Database, u: UserId, rids: set<RotationId>, rid: RotationId)
    requires Cleaning(db, after, u, rids) && CleanedUp(db.accounts[u], db.ledger, rid) && rid !in rids
    ensures CleanedUp(after.accounts[u], after.ledger, rid)
  {
    var a, b := db.accounts[u], after.accounts[u];
    forall k | k in b.rotations[rid].staged
      ensures IsRetired(after.ledger, k)
    {
      assert IsRetired(db.ledger, k);
    }
  }

  lemma CleaningKeepsTimes(db: Database, after: Database, u: UserId, rids: set<RotationId>, now: nat)
    requires Cleaning(db, after, u, rids) && NothingYounger(db, u, now)
    ensures NothingYounger(after, u, now)
  {
    forall rid | rid in after.accounts[u].rotations
      ensures after.accounts[u].rotations[rid].completedAt <= now && StartedBy(after.accounts[u].rotations[rid], now)
    {
      assert rid in db.accounts[u].rotations;
      assert AccountOf(db, u).rotations[rid].completedAt <= now && StartedBy(AccountOf(db, u).rotations[rid], now);
    }
  }

  lemma ClaimsInTimeOf(db: Database, u: UserId, now: nat, claimed: set<R2Key>)
    requires NothingYounger(db, u, now)
    ensures InTime(db.ledger, claimed, now)
  {
  }

  ghost predicate AllStarted(a: Account) {
    forall rid :: rid in a.rotations ==> a.rotations[rid].cleanup.Some?
  }

  /** Every rotation's cleanup has been started, and each was either marked clean or leaves no
      row that refers to what it staged. */
  ghost predicate AllCleaned(a: Account, ledger: Ledger) {
    forall rid :: rid in a.rotations ==>
      a.rotations[rid].cleanup.Some? && (a.rotations[rid].storageCleaned || CleanedUp(a, ledger, rid))
  }

  /** The mark that precedes the loop starts the cleanup of every rotation that waits for it,
      unless one of them was completed later. */
  lemma MarkReadyStartsAll(u: UserId, a: Account, ledger: Ledger, sid: SnapshotId, key: VaultKey, now: nat)
    requires AccountOk(u, a, ledger) && HeadIsCurrent(a, sid, key)
    ensures var b := MarkCleanupReady(a, sid, key, now);
            b.rotations.Keys == a.rotations.Keys
            && forall rid :: rid in a.rotations ==>
                 b.rotations[rid] == if a.rotations[rid].cleanup.Some? then a.rotations[rid]
                                     else a.rotations[rid].(cleanup := Some(NewSnapshot(sid, now)))
    ensures ReadyInTime(a, sid, key, now) <==>
              forall rid :: rid in a.rotations && a.rotations[rid].cleanup.None? ==> a.rotations[rid].completedAt <= now
  {
    forall rid | rid in a.rotations
      ensures a.rotations[rid].completed && a.rotations[rid].next.generation <= key.generation
      ensures a.rotations[rid].storageCleaned ==> a.rotations[rid].cleanup.Some?
    {
    }
  }

  lemma MarkReadyTimes(db: Database, u: UserId, sid: SnapshotId, key: VaultKey, now: nat)
    requires u in db.accounts && NothingYounger(db, u, now)
    ensures ReadyInTime(db.accounts[u], sid, key, now)
    ensures NothingYounger(SetAccount(db, u, MarkCleanupReady(db.accounts[u], sid, key, now)), u, now)
  {
    var a, b := AccountOf(db, u), MarkCleanupReady(db.accounts[u], sid, key, now);
    forall rid | rid in b.rotations
      ensures rid in a.rotations && a.rotations[rid].completedAt <= now
      ensures b.rotations[rid].completedAt <= now && StartedBy(b.rotations[rid], now)
    {
      assert rid in a.rotations && a.rotations[rid].completedAt <= now && StartedBy(a.rotations[rid], now);
    }
    assert forall rid :: rid in a.rotations ==> rid in b.rotations;
  }

  /** When the loop has been through all that were ready, nothing is left to clean. */
  lemma LoopCleansAll(db: Database, after: Database, u: UserId, ready: set<RotationId>)
    requires Cleaning(db, after, u, ready)
    requires AllStarted(db.accounts[u])
    requires ready == set r | r in db.accounts[u].rotations && ReadyForCleanup(db.accounts[u], r)
    requires forall r :: r in ready ==> CleanedUp(after.accounts[u], after.ledger, r)
    ensures AllCleaned(after.accounts[u], after.ledger)
  {
    forall rid | rid in after.accounts[u].rotations
      ensures after.accounts[u].rotations[rid].cleanup.Some?
      ensures after.accounts[u].rotations[rid].storageCleaned || CleanedUp(after.accounts[u], after.ledger, rid)
    {
      assert rid in db.accounts[u].rotations;
      if rid !in ready { assert !ReadyForCleanup(db.accounts[u], rid); }
    }
  }

  lemma ReadyStartsAll(db: Database, u: UserId, sid: SnapshotId, key: VaultKey, now: nat)
    requires DatabaseOk(db) && u in db.accounts && HeadIsCurrent(db.accounts[u], sid, key)
    ensures AllStarted(MarkCleanupReady(db.accounts[u], sid, key, now))
  {
    MarkReadyStartsAll(u, db.accounts[u], db.ledger, sid, key, now);
  }

  /** A collection with room for all leaves nothing of the user's that could be collected. */
  lemma CollectionDrains(db: Database, after: Ledger, claimed: set<R2Key>, now: nat, scope: Scope, limit: nat)
    requires TakesUpTo(Eligible(db, now, scope), claimed, limit) && |Eligible(db, now, scope)| <= limit
    requires SweptOnly(db.ledger, after, claimed)
    ensures Eligible(db.(ledger := after), now, scope) == {}
  {
    SubsetCounts(claimed, Eligible(db, now, scope));
    EligibleAfterSweep(db, after, claimed, now, scope);
  }

  lemma MarkKeepsEligible(db: Database, u: UserId, rid: RotationId, now: nat, scope: Scope)
    ensures Eligible(MarkStorageClean(db, u, rid, now), now, scope) == Eligible(db, now, scope)
  {
    var d := MarkStorageClean(db, u, rid, now);
    forall k
      ensures Collectable(d, k, now, scope) <==> Collectable(db, k, now, scope)
    {
      MarkKeepsUse(db, u, rid, now, k);
    }
  }

  lemma MarkKeepsUse(db: Database, u: UserId, rid: RotationId, now: nat, k: R2Key)
    ensures var d := MarkStorageClean(db, u, rid, now); (Used(d, k) <==> Used(db, k)) && (Protected(d, k) <==> Protected(db, k))
  {
    var d := MarkStorageClean(db, u, rid, now);
    if d != db {
      MarkKeepsRows(db, u, rid, now);
      SameUse(db, d, k);
      SameProtection(db, d, k);
      SameProtection(d, db, k);
    }
  }

  ghost predicate SameStaging(a: Account, b: Account) {
    a.rotations.Keys == b.rotations.Keys
    && forall r :: r in a.rotations ==> a.rotations[r].cleanup == b.rotations[r].cleanup && a.rotations[r].staged == b.rotations[r].staged
  }

  lemma MarkKeepsRows(db: Database, u: UserId, rid: RotationId, now: nat)
    requires MarkStorageClean(db, u, rid, now) != db
    ensures var d := MarkStorageClean(db, u, rid, now);
            && d.accounts.Keys == db.accounts.Keys
            && (forall v :: v in db.accounts ==>
                  && d.accounts[v].snapshots == db.accounts[v].snapshots && d.accounts[v].objects == db.accounts[v].objects
                  && SameStaging(db.accounts[v], d.accounts[v]))
  {
    var d := MarkStorageClean(db, u, rid, now);
    assert u in db.accounts;
    assert SameStaging(db.accounts[u], d.accounts[u]);
    forall v | v in db.accounts
      ensures SameStaging(db.accounts[v], d.accounts[v])
    {
      if v != u { assert d.accounts[v] == db.accounts[v]; }
    }
  }

  lemma SameProtection(d: Database, e: Database, k: R2Key)
    requires d.accounts.Keys == e.accounts.Keys
    requires forall v :: v in d.accounts ==> SameStaging(d.accounts[v], e.accounts[v])
    ensures Protected(d, k) ==> Protected(e, k)
  {
    if Protected(d, k) {
      var v, r :| v in d.accounts && r in d.accounts[v].rotations
        && d.accounts[v].rotations[r].cleanup.None? && k in d.accounts[v].rotations[r].staged;
      assert SameStaging(d.accounts[v], e.accounts[v]);
      assert e.accounts[v].rotations[r].cleanup.None? && k in e.accounts[v].rotations[r].staged;
    }
  }

  lemma SameUse(d: Database, e: Database, k: R2Key)
    requires d.accounts.Keys == e.accounts.Keys
    requires forall v :: v in d.accounts ==> d.accounts[v].snapshots == e.accounts[v].snapshots && d.accounts[v].objects == e.accounts[v].objects
    ensures Used(d, k) <==> Used(e, k)
  {
    SameSnapshotsSameUse(d, e, k);
    SameObjectsSameUse(d, e, k);
  }

  // ---------------------------------------------------------------- the three steps of one rotation

  /** Between its collection and its mark: nothing refers to what the rotation staged. */
  ghost predicate Unlinked(db: Database, mid: Database, u: UserId, rid: RotationId) {
    && Cleaning(db, mid, u, {rid}) && rid in db.accounts[u].rotations
    && mid.accounts[u].rotations == db.accounts[u].rotations
    && StagedRetired(mid.accounts[u], mid.ledger, rid)
    && RemovesExactly(db.accounts[u], mid.accounts[u], db.accounts[u].rotations[rid].staged)
  }

  lemma FencedKeepsDeleted(ledger: Ledger, staged: set<R2Key>, now: nat)
    ensures DeletedStays(ledger, FenceStaged(ledger, staged, now)) && SameAges(ledger, FenceStaged(ledger, staged, now))
  {
  }

  lemma UnlinkCleans(db: Database, u: UserId, rid: RotationId, now: nat)
    requires DatabaseOk(db) && u in db.accounts && CleanupStarted(db.accounts[u], rid)
    ensures var after := MetadataBatch(db, u, rid, db.accounts[u].rotations[rid].next, now);
            Unlinked(db, after, u, rid)
  {
    MetadataResult(db, u, rid, now);
    MetadataKeepsDatabase(db, u, rid, now);
    MetadataRetires(db, u, rid, now);
    BatchRemovesExactly(db, u, rid, now);
    FencedKeepsDeleted(db.ledger, db.accounts[u].rotations[rid].staged, now);
  }

  lemma FencedIsReady(ledger: Ledger, staged: set<R2Key>, now: nat, k: R2Key)
    requires k in staged && IsReferenced(ledger, k)
    ensures var fenced := FenceStaged(ledger, staged, now);
            k in fenced && fenced[k] == ledger[k].(state := Ready, lease := now)
  {
  }

  lemma StagedIsOwn(db: Database, u: UserId, rid: RotationId, k: R2Key)
    requires DatabaseOk(db) && u in db.accounts && rid in db.accounts[u].rotations
    requires k in db.accounts[u].rotations[rid].staged && IsReferenced(db.ledger, k)
    ensures db.ledger[k].user == Some(u)
  {
    assert StagingOk(u, db.accounts[u], db.ledger);
    assert LedgerRowOk(k, db.ledger[k]);
  }

  lemma RetiredIsUnused(db: Database, k: R2Key)
    requires DatabaseOk(db) && IsRetired(db.ledger, k)
    ensures !Used(db, k)
  {
    ReferencedIffUsed(db, k);
  }

  lemma ReadyIsDue(db: Database, u: UserId, now: nat, k: R2Key)
    requires k in db.ledger && db.ledger[k].state.Ready? && db.ledger[k].lease == now && db.ledger[k].user == Some(u) && !Used(db, k)
    ensures k in Eligible(db, now, OfUser(u)) <==> !Protected(db, k)
  {
  }

  /** What the rotation staged and a row still used is due as soon as the metadata batch has
      removed that row, unless another rotation that awaits its cleanup staged it as well. */
  lemma UnlinkedIsDue(db: Database, u: UserId, rid: RotationId, now: nat, k: R2Key)
    requires DatabaseOk(db) && u in db.accounts && CleanupStarted(db.accounts[u], rid)
    requires k in db.accounts[u].rotations[rid].staged && IsReferenced(db.ledger, k)
    ensures var after := MetadataBatch(db, u, rid, db.accounts[u].rotations[rid].next, now);
            k in Eligible(after, now, OfUser(u)) <==> !Protected(after, k)
  {
    var after := MetadataBatch(db, u, rid, db.accounts[u].rotations[rid].next, now);
    assert after.ledger == FenceStaged(db.ledger, db.accounts[u].rotations[rid].staged, now) by { MetadataResult(db, u, rid, now); }
    FencedIsReady(db.ledger, db.accounts[u].rotations[rid].staged, now, k);
    StagedIsOwn(db, u, rid, k);
    assert !Used(after, k) by {
      MetadataKeepsDatabase(db, u, rid, now);
      RetiredIsUnused(after, k);
    }
    ReadyIsDue(after, u, now, k);
  }

  lemma CollectCleans(db: Database, after: Ledger, claimed: set<R2Key>, u: UserId, now: nat, scope: Scope)
    requires u in db.accounts && claimed <= Eligible(db, now, scope) && Claims(db.ledger, after, claimed, now)
    ensures Cleaning(db, db.(ledger := after), u, {})
  {
    ClaimsRetire(db, after, claimed, now, scope);
  }

  lemma MarkCleans(db: Database, u: UserId, rid: RotationId, now: nat)
    requires u in db.accounts && rid in db.accounts[u].rotations
    ensures Cleaning(db, MarkStorageClean(db, u, rid, now), u, {rid})
  {
    if !MayMarkClean(db, db.accounts[u], rid) {
      assert db.accounts[u := db.accounts[u]] == db.accounts;
    }
  }

  lemma MarkedIsCleanedUp(db: Database, u: UserId, rid: RotationId, now: nat)
    requires DatabaseOk(db) && u in db.accounts && rid in db.accounts[u].rotations
    requires StagedRetired(db.accounts[u], db.ledger, rid) && !db.accounts[u].rotations[rid].storageCleaned
    requires forall sid :: sid in db.accounts[u].snapshots ==> db.accounts[u].snapshots[sid].key !in db.accounts[u].rotations[rid].staged
    requires forall oid :: oid in db.accounts[u].objects ==> db.accounts[u].objects[oid] !in db.accounts[u].rotations[rid].staged
    ensures var after := MarkStorageClean(db, u, rid, now);
            u in after.accounts && CleanedUp(after.accounts[u], after.ledger, rid)
  {
    RetiredAndStored(db, db.accounts[u], rid);
    FinishMarksOnly(db, u, rid, now);
  }

  ghost predicate TablesOk(db: Database, bucket: Bucket) {
    DatabaseOk(db) && BucketOk(db.ledger, bucket)
  }

  lemma UnlinkKeepsStored(db: Database, u: UserId, rid: RotationId, now: nat, stored: Bucket)
    requires TablesOk(db, stored) && u in db.accounts && CleanupStarted(db.accounts[u], rid)
    ensures TablesOk(MetadataBatch(db, u, rid, db.accounts[u].rotations[rid].next, now), stored)
  {
    MetadataKeepsDatabase(db, u, rid, now);
    MetadataResult(db, u, rid, now);
  }

  lemma UnlinkIsSafe(db: Database, u: UserId, rid: RotationId, now: nat, stored: Bucket)
    requires TablesOk(db, stored) && u in db.accounts && ReadyForCleanup(db.accounts[u], rid)
    ensures var after := MetadataBatch(db, u, rid, db.accounts[u].rotations[rid].next, now);
            TablesOk(after, stored) && Unlinked(db, after, u, rid)
  {
    UnlinkCleans(db, u, rid, now);
    UnlinkKeepsStored(db, u, rid, now, stored);
  }

  lemma RetiredThroughCollection(db: Database, after: Database, u: UserId, rid: RotationId)
    requires Cleaning(db, after, u, {}) && rid in db.accounts[u].rotations && StagedRetired(db.accounts[u], db.ledger, rid)
    ensures rid in after.accounts[u].rotations && StagedRetired(after.accounts[u], after.ledger, rid)
  {
    forall k | k in after.accounts[u].rotations[rid].staged
      ensures IsRetired(after.ledger, k)
    {
      assert IsRetired(db.ledger, k);
    }
  }

  /** The collection that follows the metadata batch of a rotation. */
  lemma CollectedAfterUnlink(db: Database, d: Database, stored: Bucket, u: UserId, rid: RotationId, now: nat,
                             ledger: Ledger, claimed: set<R2Key>, gone: set<R2Key>, scope: Scope)
    requires TablesOk(d, stored) && Unlinked(db, d, u, rid)
    requires gone <= claimed <= Eligible(d, now, scope) && Claims(d.ledger, ledger, claimed, now)
    ensures TablesOk(d.(ledger := ledger), stored - gone) && Unlinked(db, d.(ledger := ledger), u, rid)
  {
    CollectionKeepsOk(d, stored, ledger, claimed, gone, now, scope);
    CollectCleans(d, ledger, claimed, u, now, scope);
    CleaningTwice(db, d, d.(ledger := ledger), u, {rid}, {});
    assert {rid} + {} == {rid};
    RetiredThroughCollection(d, d.(ledger := ledger), u, rid);
  }

  /** What a metadata batch unlinked stays unlinked, and the tables consistent. */
  ghost predicate UnlinkedKept(d: Database, stored: Bucket, after: Database, bucket: Bucket, u: UserId) {
    forall start, rid :: TablesOk(d, stored) && Unlinked(start, d, u, rid) ==> TablesOk(after, bucket) && Unlinked(start, after, u, rid)
  }

  /** With room for all, the collection leaves nothing of the user's to collect. */
  lemma CollectionOfUnlinked(d: Database, stored: Bucket, u: UserId, now: nat, ledger: Ledger,
                             claimed: set<R2Key>, gone: set<R2Key>, answered: bool, finished: bool)
    requires TakesUpTo(Eligible(d, now, OfUser(u)), claimed, 100) && gone <= claimed && Claims(d.ledger, ledger, claimed, now)
    requires (finished <==> answered && InTime(d.ledger, claimed, now)) && (finished ==> SweptOnly(d.ledger, ledger, claimed))
    ensures UnlinkedKept(d, stored, d.(ledger := ledger), stored - gone, u)
    ensures answered && NothingYounger(d, u, now) ==> finished
    ensures finished && |Eligible(d, now, OfUser(u))| <= 100 ==> Eligible(d.(ledger := ledger), now, OfUser(u)) == {}
  {
    forall start, rid | TablesOk(d, stored) && Unlinked(start, d, u, rid)
      ensures TablesOk(d.(ledger := ledger), stored - gone) && Unlinked(start, d.(ledger := ledger), u, rid)
    {
      CollectedAfterUnlink(start, d, stored, u, rid, now, ledger, claimed, gone, OfUser(u));
    }
    if NothingYounger(d, u, now) { ClaimsInTimeOf(d, u, now, claimed); }
    if finished && |Eligible(d, now, OfUser(u))| <= 100 { CollectionDrains(d, ledger, claimed, now, OfUser(u), 100); }
  }

  /** The mark is set if everything staged is deleted, unless it would be too early. */
  ghost predicate MarkedInTime(a: Account, ledger: Ledger, rid: RotationId, now: nat) {
    rid in a.rotations && (a.rotations[rid].storageCleaned <==> AllDeleted(a, rid, ledger) && StartedBy(a.rotations[rid], now))
  }

  lemma MarkIsExact(db: Database, u: UserId, rid: RotationId, now: nat)
    requires DatabaseOk(db) && u in db.accounts && ReadyForCleanup(db.accounts[u], rid)
    requires StagedRetired(db.accounts[u], db.ledger, rid)
    ensures var after := MarkStorageClean(db, u, rid, now);
            && u in after.accounts && MarkedInTime(after.accounts[u], after.ledger, rid, now)
            && (MarkAborts(db, db.accounts[u], rid, now) ==> !after.accounts[u].rotations[rid].storageCleaned)
  {
    RetiredAndStored(db, db.accounts[u], rid);
    FinishMarksOnly(db, u, rid, now);
  }

  lemma MarkedAfterCollecting(db: Database, mid: Database, stored: Bucket, u: UserId, rid: RotationId, now: nat)
    requires TablesOk(mid, stored) && Unlinked(db, mid, u, rid) && ReadyForCleanup(db.accounts[u], rid)
    ensures var after := MarkStorageClean(mid, u, rid, now);
            TablesOk(after, stored) && Cleaning(db, after, u, {rid}) && CleanedUp(after.accounts[u], after.ledger, rid)
            && MarkedInTime(after.accounts[u], after.ledger, rid, now)
            && (MarkAborts(mid, mid.accounts[u], rid, now) ==> !after.accounts[u].rotations[rid].storageCleaned)
  {
    MarkIsExact(mid, u, rid, now);
    MarkCleanKeepsDatabase(mid, u, rid, now);
    MarkCleans(mid, u, rid, now);
    CleaningTwice(db, mid, MarkStorageClean(mid, u, rid, now), u, {rid}, {rid});
    assert {rid} + {rid} == {rid};
    MarkedIsCleanedUp(mid, u, rid, now);
  }

  /** After the rotations in `done`, with `rest` still to come. */
  ghost predicate Halfway(db: Database, after: Database, u: UserId, done: set<RotationId>, rest: set<RotationId>) {
    && Cleaning(db, after, u, done)
    && done !! rest
    && (forall r :: r in rest ==> ReadyForCleanup(after.accounts[u], r))
    && (forall r :: r in done ==> CleanedUp(after.accounts[u], after.ledger, r))
  }

  lemma OneFurther(db: Database, mid: Database, after: Database, u: UserId, done: set<RotationId>, rest: set<RotationId>, rid: RotationId)
    requires Halfway(db, mid, u, done, rest) && rid in rest
    requires Cleaning(mid, after, u, {rid}) && CleanedUp(after.accounts[u], after.ledger, rid)
    ensures Halfway(db, after, u, done + {rid}, rest - {rid})
  {
    CleaningTwice(db, mid, after, u, done, {rid});
    forall r | r in done
      ensures CleanedUp(after.accounts[u], after.ledger, r)
    {
      CleanedUpStays(mid, after, u, {rid}, r);
    }
  }

  /** The loop's state: complete for the rotations done, or given up at the first failure. */
  ghost predicate LoopOk(db: Database, after: Database, u: UserId, ready: set<RotationId>, rest: set<RotationId>, finished: bool) {
    rest <= ready && if finished then Halfway(db, after, u, ready - rest, rest) else Cleaning(db, after, u, ready)
  }

  lemma LoopStarts(db: Database, u: UserId, ready: set<RotationId>)
    requires u in db.accounts && forall r :: r in ready ==> ReadyForCleanup(db.accounts[u], r)
    ensures LoopOk(db, db, u, ready, ready, true)
  {
    assert db.accounts[u := db.accounts[u]] == db.accounts;
  }

  lemma OneLess(s: set<RotationId>, r: RotationId)
    requires r in s
    ensures |s - {r}| < |s|
  {
  }

  lemma LoopNext(db: Database, after: Database, u: UserId, ready: set<RotationId>, rest: set<RotationId>, rid: RotationId)
    requires LoopOk(db, after, u, ready, rest, true) && rid in rest
    ensures u in after.accounts && ReadyForCleanup(after.accounts[u], rid)
  {
  }

  lemma LoopStep(db: Database, mid: Database, after: Database, u: UserId, ready: set<RotationId>, rest: set<RotationId>, rid: RotationId, finished: bool)
    requires LoopOk(db, mid, u, ready, rest, true) && rid in rest && Cleaning(mid, after, u, {rid})
    requires finished ==> CleanedUp(after.accounts[u], after.ledger, rid)
    ensures LoopOk(db, after, u, ready, if finished then rest - {rid} else rest, finished)
  {
    if finished {
      OneFurther(db, mid, after, u, ready - rest, rest, rid);
      assert ready - rest + {rid} == ready - (rest - {rid});
    } else {
      CleaningTwice(db, mid, after, u, ready - rest, {rid});
    }
  }

  lemma LoopEnds(db: Database, after: Database, u: UserId, ready: set<RotationId>, rest: set<RotationId>, finished: bool)
    requires LoopOk(db, after, u, ready, rest, finished) && (rest == {} || !finished)
    ensures Cleaning(db, after, u, ready)
    ensures finished ==> forall r :: r in ready ==> CleanedUp(after.accounts[u], after.ledger, r)
  {
    assert finished ==> ready - rest == ready;
  }
}
