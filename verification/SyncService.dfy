/** The workers' side of the protocol: statements and batches that change the tables in
    place, and the loops that run them, each proved against the functions on values. */
module SyncService {
  import opened Wrappers
  import opened SyncTables
  import opened VaultMembership
  import opened SyncInvariant
  import opened SnapshotUpload
  import opened UploadInvariant
  import opened StorageRetirement
  import opened CleanupInvariant
  import opened ProtocolInvariant
  import opened GarbageCollection
  import opened CleanupRuns
  import opened UploadFlow

  class Service {
    var accounts: map<UserId, Account>
    var ledger: Ledger
    var erased: set<UserId>
    var bucket: Bucket

    constructor ()
      ensures Tables() == Database(map[], map[], {}) && bucket == map[] && TablesOk(Tables(), bucket)
    {
      accounts, ledger, erased, bucket := map[], map[], {}, map[];
    }

    function Tables(): Database
      reads this
    {
      Database(accounts, ledger, erased)
    }

    // -------------------------------------------------------------- storage

    /** The object's digest is compared with the one its key ends in before it is sent. */
    method PutVerified(k: R2Key, digest: Hash) returns (stored: bool, answered: bool)
      modifies this`bucket
      ensures stored <==> answered && digest == k.payloadHash
      ensures stored ==> bucket == old(bucket)[k := digest]
      ensures !stored ==> bucket == old(bucket) || (digest == k.payloadHash && bucket == old(bucket)[k := digest])
    {
      answered := *;
      if digest != k.payloadHash { return false, answered; }
      var arrives: bool := *;
      answered := answered && arrives;
      if arrives { bucket := bucket[k := digest]; }
      stored := answered;
    }

    method DeleteObject(k: R2Key) returns (answered: bool)
      modifies this`bucket
      ensures answered ==> bucket == old(bucket) - {k}
      ensures !answered ==> bucket == old(bucket) || bucket == old(bucket) - {k}
    {
      var arrives: bool := *;
      if arrives { bucket := bucket - {k}; }
      answered := *;
      answered := answered && arrives;
    }

    // -------------------------------------------------------------- claim and abandon

    /** A granted claim holds its lease for ten minutes and takes it from whoever held it
        before, but not if the row is younger than this request; no other key is touched. */
    method ClaimSnapshotWrite(up: Upload, token: Token, now: nat) returns (granted: bool, aborted: bool)
      modifies this`ledger
      ensures granted == ClaimGranted(old(Tables()), up, now)
      ensures aborted <==> ClaimFits(old(Tables()), up) && up.key in old(ledger) && old(ledger)[up.key].createdAt > now
      ensures Tables() == ClaimWrite(old(Tables()), up, token, now)
      ensures granted ==> forall t, later: nat :: LeaseHeld(Tables(), up, t, later) <==> t == token && later <= now + 600
      ensures granted ==>
                RowOf(ledger, up.key) == Some(
                  if up.key in old(ledger) then old(ledger)[up.key].(writeToken := Some(token), lease := now + 600)
                  else LedgerRow(Some(up.user), Reserved, Some(token), now + 600, None, None, now))
      ensures forall k :: k != up.key ==> RowOf(ledger, k) == RowOf(old(ledger), k)
    {
      granted, aborted := ClaimFits(Tables(), up), false;
      if granted {
        if up.key in ledger {
          aborted := ledger[up.key].createdAt > now;
          granted := !aborted;
          if aborted { return; }
          ledger := ledger[up.key := ledger[up.key].(writeToken := Some(token), lease := now + WRITE_LEASE_SECONDS)];
        } else {
          ledger := ledger[up.key := LedgerRow(Some(up.user), Reserved, Some(token), now + WRITE_LEASE_SECONDS, None, None, now)];
        }
      }
    }

    /** Afterwards the token cannot commit, and its key is free to be collected at once; no
        reference is lost, no other key touched and no other claim ended. */
    method AbandonWrite(up: Upload, token: Token, now: nat)
      modifies this`ledger
      ensures Tables() == Abandon(old(Tables()), up, token, now)
      ensures DatabaseOk(old(Tables())) ==> forall later :: !LeaseHeld(Tables(), up, token, later)
      ensures forall k :: IsReferenced(ledger, k) <==> IsReferenced(old(ledger), k)
      ensures forall k :: k != up.key ==> RowOf(ledger, k) == RowOf(old(ledger), k)
      ensures DatabaseOk(old(Tables())) ==> AbandonFrees(old(Tables()), up, token, now, Tables())
    {
      if DatabaseOk(Tables()) {
        AbandonEndsLease(Tables(), up, token, now);
        AbandonedIsEligible(Tables(), up, token, now);
      }
      if MayAbandon(Tables(), up, token) {
        ledger := ledger[up.key := ledger[up.key].(state := Ready, lease := now)];
      }
    }

    // -------------------------------------------------------------- the commit batch

    /** The trigger that follows a row's letting go of its key. */
    method FireRelease(k: R2Key)
      modifies this`ledger
      ensures Tables() == Release(old(Tables()), k)
    {
      if IsReferenced(ledger, k) && !Used(Tables(), k) {
        ledger := ledger[k := ledger[k].(state := Ready)];
      }
    }

    method StoreSnapshotRow(up: Upload, token: Token, now: nat) returns (changes: nat, aborted: bool)
      modifies this`accounts, this`ledger
      ensures var o := UpsertSnapshot(old(Tables()), up, token, now);
              aborted == o.Aborted? && (o.Done? ==> Tables() == o.state && changes == o.changes)
    {
      var a := AccountOf(Tables(), up.user);
      changes, aborted := 0, false;
      if BaseFits(a, up) && MayWrite(a, up) && LeaseHeld(Tables(), up, token, now) && !StagedForCleanup(a, up.key) {
        if Fenced(ledger, up.user, up.key) || !CandidateGuard(a, up) || RevisionTaken(a, up) {
          aborted := true;
          return;
        }
        accounts := accounts[up.user := a.(snapshots := a.snapshots[up.snapshotId := Row(up, now)])];
        if up.snapshotId in a.snapshots && a.snapshots[up.snapshotId].key != up.key {
          FireRelease(a.snapshots[up.snapshotId].key);
        }
        changes := 1;
      }
    }

    method StoreEncryptionRow(up: Upload, token: Token, now: nat) returns (changes: nat)
      modifies this`accounts
      ensures UpsertEncryption(old(Tables()), up, token, now) == Done(Tables(), changes)
    {
      var a := AccountOf(Tables(), up.user);
      changes := 0;
      if up.snapshotId in a.snapshots && a.snapshots[up.snapshotId] == Row(up, now) && MayWrite(a, up)
         && LeaseHeld(Tables(), up, token, now) && !StagedForCleanup(a, up.key) {
        accounts := accounts[up.user :=
          a.(encryption := a.encryption[up.snapshotId := EncryptionRow(up.vaultKey, up.contentHash)])];
        changes := 1;
      }
    }

    method StoreHeadRow(up: Upload, token: Token, now: nat) returns (changes: nat, aborted: bool)
      modifies this`accounts
      ensures var o := WriteHead(old(Tables()), up, token, now);
              aborted == o.Aborted? && (o.Done? ==> Tables() == o.state && changes == o.changes)
    {
      var a := AccountOf(Tables(), up.user);
      changes, aborted := 0, false;
      if !LeaseHeld(Tables(), up, token, now) { return; }
      if up.base.None? {
        aborted := a.head.Some? || HeadFenced(Tables(), a, up) || !HeadInsertGuard(a, up);
      } else if a.head.None? {
        return;
      } else {
        aborted := HeadFenced(Tables(), a, up) || !HeadUpdateGuard(a, up);
      }
      if !aborted {
        accounts := accounts[up.user := a.(head := Some(Ref(up)))];
        changes := 1;
      }
    }

    method MarkKeyReferenced(up: Upload, token: Token, now: nat) returns (changes: nat, aborted: bool, late: bool)
      modifies this`ledger
      ensures var o := MarkReferenced(old(Tables()), up, token, now);
              aborted == o.Aborted? && (o.Done? ==> Tables() == o.state && changes == o.changes)
              && (aborted ==> late == MarkIsLate(old(Tables()), up, now))
    {
      changes, aborted, late := 0, false, false;
      if !LeaseHeld(Tables(), up, token, now) { return; }
      if !HeadStores(AccountOf(Tables(), up.user), up.key) {
        aborted := true;
        return;
      }
      if ledger[up.key].createdAt > now {
        aborted, late := true, true;
        return;
      }
      ledger := ledger[up.key := ledger[up.key].(state := Referenced, lease := now)];
      changes := 1;
    }

    /** The four statements in order, with the rollback of D1 when one aborts. */
    method RunCommit(up: Upload, token: Token, now: nat) returns (counts: seq<nat>, aborted: bool, late: bool)
      modifies this`accounts, this`ledger
      ensures var r := CommitBatch(old(Tables()), up, token, now);
              && aborted == r.RolledBack?
              && (r.Ran? ==> Tables() == r.state && counts == r.counts)
              && (r.RolledBack? ==> Tables() == old(Tables()) && late == r.late)
    {
      var savedAccounts, savedLedger := accounts, ledger;
      counts, late := [], false;
      var n1, n2, n3, n4 := 0, 0, 0, 0;
      n1, aborted := StoreSnapshotRow(up, token, now);
      if !aborted {
        n2 := StoreEncryptionRow(up, token, now);
        n3, aborted := StoreHeadRow(up, token, now);
        if !aborted {
          n4, aborted, late := MarkKeyReferenced(up, token, now);
          counts := [n1, n2, n3, n4];
        }
      }
      if aborted { accounts, ledger := savedAccounts, savedLedger; }
    }

    /** One row changes in each of the four tables, exactly when the guards hold, or nothing
        changes at all. */
    method CommitUpload(up: Upload, token: Token, now: nat) returns (committed: bool, late: bool)
      requires DatabaseOk(Tables()) && Parsed(up)
      modifies this`accounts, this`ledger
      ensures committed == CommitApplies(old(Tables()), up, token, now)
      ensures late == CommitLate(old(Tables()), up, token, now)
      ensures Tables() == if committed then Committed(old(Tables()), up, now) else old(Tables())
      ensures DatabaseOk(Tables())
    {
      CommitAllOrNothing(Tables(), up, token, now);
      if CommitApplies(Tables(), up, token, now) { CommitKeepsDatabase(Tables(), up, token, now); }
      var counts, aborted;
      counts, aborted, late := RunCommit(up, token, now);
      late := aborted && late;
      committed := !aborted && counts == [1, 1, 1, 1];
    }

    // -------------------------------------------------------------- garbage collection

    /** 32 random bytes: a token that no row carries yet. */
    method RandomToken() returns (token: Token)
      ensures TokenUnused(ledger, token)
    {
      UnusedTokenExists(ledger);
      token :| TokenUnused(ledger, token);
    }

    method ClaimEligible(now: nat, scope: Scope, limit: nat, token: Token) returns (claimed: set<R2Key>)
      modifies this`ledger
      ensures TakesUpTo(Eligible(old(Tables()), now, scope), claimed, limit)
      ensures ledger == ClaimGarbage(old(ledger), claimed, token, now)
    {
      var eligible := Eligible(Tables(), now, scope);
      var count := if limit < |eligible| then limit else |eligible|;
      SubsetOfSize(eligible, count);
      claimed :| claimed <= eligible && |claimed| == count;
      ledger := ClaimGarbage(ledger, claimed, token, now);
    }

    /** A row that does not change, or a mark that aborts, ends the collection. */
    method EraseAndMark(k: R2Key, token: Token, now: nat) returns (answered: bool, finished: bool)
      modifies this`ledger, this`bucket
      ensures finished <==>
                answered && k in old(ledger) && old(ledger)[k].state.Deleting? && old(ledger)[k].gcToken == Some(token)
                && old(ledger)[k].createdAt <= now
      ensures bucket == old(bucket) - {k} || (!answered && bucket == old(bucket))
      ensures ledger == if finished then MarkDeleted(old(ledger), k, token, now) else old(ledger)
    {
      answered := DeleteObject(k);
      finished := answered && MayMarkDeleted(ledger, k, token, now);
      if finished { ledger := ledger[k := ledger[k].(state := Deleted)]; }
    }

    /** Erases and marks claimed rows one by one.  An R2 failure, or a row younger than the
        collection, ends it: the objects in `gone` are erased, the rows in `marked` marked. */
    method EraseClaimed(claimed: set<R2Key>, token: Token, now: nat)
      returns (marked: set<R2Key>, gone: set<R2Key>, answered: bool, finished: bool)
      requires forall k :: k in claimed ==> ClaimedBy(ledger, k, token)
      modifies this`ledger, this`bucket
      ensures marked <= gone <= claimed && (finished ==> marked == claimed)
      ensures finished <==> answered && InTime(old(ledger), claimed, now)
      ensures bucket == old(bucket) - gone
      ensures MarkedOnly(old(ledger), ledger, marked)
    {
      var rest := claimed;
      marked, gone, answered, finished := {}, {}, true, true;
      while rest != {}
        invariant rest <= claimed && marked == claimed - rest && gone == marked && answered && finished
        invariant bucket == old(bucket) - gone
        invariant MarkedOnly(old(ledger), ledger, marked) && InTime(old(ledger), marked, now)
        decreases |rest|
      {
        var k :| k in rest;
        ErasedTwice(old(bucket), gone, {k});
        if CreatedBy(ledger, k, now) { SweepsOn(old(ledger), ledger, marked, k, token, now); }
        answered, finished := EraseAndMark(k, token, now);
        if !finished {
          if k !in bucket { gone := gone + {k}; }
          break;
        }
        rest, marked, gone := rest - {k}, marked + {k}, gone + {k};
      }
    }

    /** Claims up to `limit` eligible rows and erases them; an R2 failure, or a row younger
        than this collection, leaves the rest claimed for a later one. */
    method CollectGarbage(now: nat, scope: Scope, limit: nat)
      returns (claimed: set<R2Key>, gone: set<R2Key>, answered: bool, finished: bool)
      modifies this`ledger, this`bucket
      ensures TakesUpTo(Eligible(old(Tables()), now, scope), claimed, limit)
      ensures Claims(old(ledger), ledger, claimed, now) && gone <= claimed && bucket == old(bucket) - gone
      ensures finished <==> answered && InTime(old(ledger), claimed, now)
      ensures finished ==> SweptOnly(old(ledger), ledger, claimed) && gone == claimed
      ensures MarksErased(ledger, claimed, gone)
    {
      var token := RandomToken();
      claimed := ClaimEligible(now, scope, limit, token);
      ghost var mid := ledger;
      var listed := set k | k in ledger && ClaimedBy(ledger, k, token);
      assert listed == claimed;
      var marked;
      marked, gone, answered, finished := EraseClaimed(listed, token, now);
      ClaimedThenSwept(old(ledger), mid, ledger, claimed, marked, token, now);
    }

    /** At most ceil(n / 100) + 1 batches of a hundred.  When R2 answers, no row is younger
        than the request and nothing else runs, n candidates are never too many for them. */
    method CollectInBatches(now: nat, scope: Scope, candidates: nat)
      returns (ghost claimed: set<R2Key>, ghost gone: set<R2Key>, answered: bool, finished: bool)
      modifies this`ledger, this`bucket
      ensures Collected(old(Tables()), old(bucket), now, scope, candidates, answered, finished, Tables(), bucket, claimed, gone)
    {
      var maxBatches := (candidates + 99) / 100 + 1;
      var batch := 0;
      claimed, gone, answered, finished := {}, {}, true, true;
      ghost var start, stored := Tables(), bucket;
      assert Eligible(start, now, scope) - {} == Eligible(start, now, scope);
      assert start.(ledger := ledger) == start && stored - {} == stored;
      while batch < maxBatches
        invariant batch <= maxBatches && |claimed| == 100 * batch && gone == claimed
        invariant answered && finished && InTime(start.ledger, claimed, now)
        invariant Progress(start, stored, ledger, bucket, claimed, now, scope)
      {
        label Before:
        var taken, lost;
        taken, lost, answered, finished := CollectGarbage(now, scope, 100);
        InTimeTogether(start.ledger, old@Before(ledger), claimed, taken, now);
        OneMoreBatch(start, stored, old@Before(ledger), old@Before(bucket), claimed, ledger, taken, lost, 100, now, scope);
        if finished { BatchCompletes(start, stored, old@Before(ledger), old@Before(bucket), claimed, ledger, taken, now, scope); }
        claimed, gone := claimed + taken, gone + lost;
        if !finished || |taken| < 100 { return; }
        batch := batch + 1;
      }
      SubsetCounts(claimed, Eligible(start, now, scope));
    }

    // -------------------------------------------------------------- rows and their triggers

    /** A delete fires its trigger after every single row. */
    method DeleteSnapshotRows(u: UserId, sids: set<SnapshotId>)
      requires u in accounts
      modifies this`accounts, this`ledger
      ensures Tables() == DeleteSnapshots(old(Tables()), u, sids)
    {
      var a := accounts[u];
      var own := set sid | sid in sids && sid in a.snapshots;
      var rest := own;
      NothingDeletedYet(Tables(), u);
      assert own - rest == {};
      while rest != {}
        invariant rest <= own && Tables() == DeleteSnapshots(old(Tables()), u, own - rest)
        decreases |rest|
      {
        var sid :| sid in rest;
        OneTaken(own, rest, sid);
        DeleteOneMoreSnapshot(old(Tables()), u, own - rest, sid);
        DeleteSnapshotRow(u, sid, a.snapshots[sid].key);
        rest := rest - {sid};
      }
      assert own - rest == own;
      OnlyOwnSnapshots(old(Tables()), u, sids);
    }

    method DeleteSnapshotRow(u: UserId, sid: SnapshotId, key: R2Key)
      modifies this`accounts, this`ledger
      ensures var a := AccountOf(old(Tables()), u);
              Tables() == Release(SetAccount(old(Tables()), u, a.(snapshots := a.snapshots - {sid})), key)
    {
      var a := AccountOf(Tables(), u);
      accounts := accounts[u := a.(snapshots := a.snapshots - {sid})];
      FireRelease(key);
    }

    method DeleteObjectRows(u: UserId, oids: set<ObjectId>)
      requires u in accounts
      modifies this`accounts, this`ledger
      ensures Tables() == DeleteObjects(old(Tables()), u, oids)
    {
      var a := accounts[u];
      var own := set oid | oid in oids && oid in a.objects;
      var rest := own;
      NothingDeletedYet(Tables(), u);
      assert own - rest == {};
      while rest != {}
        invariant rest <= own && Tables() == DeleteObjects(old(Tables()), u, own - rest)
        decreases |rest|
      {
        var oid :| oid in rest;
        OneTaken(own, rest, oid);
        DeleteOneMoreObject(old(Tables()), u, own - rest, oid);
        DeleteObjectRow(u, oid, a.objects[oid]);
        rest := rest - {oid};
      }
      assert own - rest == own;
      OnlyOwnObjects(old(Tables()), u, oids);
    }

    method DeleteObjectRow(u: UserId, oid: ObjectId, key: R2Key)
      modifies this`accounts, this`ledger
      ensures var a := AccountOf(old(Tables()), u);
              Tables() == Release(SetAccount(old(Tables()), u, a.(objects := a.objects - {oid})), key)
    {
      var a := AccountOf(Tables(), u);
      accounts := accounts[u := a.(objects := a.objects - {oid})];
      FireRelease(key);
    }

    // -------------------------------------------------------------- reset and account deletion

    method WriteAccount(u: UserId, a: Account)
      modifies this`accounts
      ensures Tables() == SetAccount(old(Tables()), u, a)
    {
      accounts := accounts[u := a];
    }

    method StartCleanups(u: UserId, now: nat) returns (aborted: bool)
      modifies this`accounts
      ensures aborted == !ResetInTime(AccountOf(old(Tables()), u), now)
      ensures Tables() == if aborted then old(Tables())
                          else SetAccount(old(Tables()), u, StartAllCleanups(AccountOf(old(Tables()), u), now))
    {
      var a := AccountOf(Tables(), u);
      aborted := exists rid :: rid in a.rotations && ResetStarts(a.rotations[rid]) && a.rotations[rid].completedAt > now;
      if !aborted { WriteAccount(u, StartAllCleanups(a, now)); }
    }

    /** The gate lets an approved device through; then the statements of the batch, which are
        rolled back if a rotation was completed after this request began. */
    method ResetSync(u: UserId, device: DeviceId, now: nat) returns (done: bool)
      modifies this`accounts, this`ledger
      ensures var a := AccountOf(old(Tables()), u);
              done <==> HasStatus(a, device, Approved) && NoneCompletedAfter(a, now)
      ensures Tables() == if done then ResetBatch(old(Tables()), u, now) else old(Tables())
    {
      done := HasStatus(AccountOf(Tables(), u), device, Approved);
      if done {
        var saved := ledger;
        ledger := FenceUser(ledger, u, now);
        var aborted := StartCleanups(u, now);
        if aborted {
          ledger := saved;
          return false;
        }
        WriteAccount(u, AccountOf(Tables(), u).(head := None));
        WriteAccount(u, AccountOf(Tables(), u).(encryption := map[]));
        DeleteSnapshotRows(u, accounts[u].snapshots.Keys);
        DeleteObjectRows(u, accounts[u].objects.Keys);
      }
    }

    method DeleteAccount(u: UserId, device: DeviceId, now: nat) returns (done: bool)
      modifies this`accounts, this`ledger, this`erased
      ensures done == HasStatus(AccountOf(old(Tables()), u), device, Approved)
      ensures Tables() == if done then EraseBatch(old(Tables()), u, now) else old(Tables())
    {
      done := HasStatus(AccountOf(Tables(), u), device, Approved);
      if done {
        ledger := FenceUser(ledger, u, now);
        WriteAccount(u, AccountOf(Tables(), u).(head := None));
        WriteAccount(u, AccountOf(Tables(), u).(encryption := map[]));
        DeleteSnapshotRows(u, accounts[u].snapshots.Keys);
        DeleteObjectRows(u, accounts[u].objects.Keys);
        accounts := accounts - {u};
        ledger := Anonymize(ledger, u);
        erased := erased + {u};
      }
    }

    /** A reset and its collection.  When R2 answers and no row is too young, every object the
        account used is gone; an upload whose lease has not expired keeps its object, but under
        a fenced key. */
    method ResetAndCollect(u: UserId, device: DeviceId, now: nat) returns (done: bool, answered: bool, finished: bool)
      requires TablesOk(Tables(), bucket)
      modifies this`accounts, this`ledger, this`bucket
      ensures var a := AccountOf(old(Tables()), u);
              done <==> HasStatus(a, device, Approved) && NoneCompletedAfter(a, now)
      ensures !done ==> Tables() == old(Tables()) && bucket == old(bucket)
      ensures done ==> ResetOutcome(old(Tables()), old(bucket), u, now, answered, finished, Tables(), bucket)
    {
      var candidates := |Candidates(ledger, u)|;
      done := ResetSync(u, device, now);
      answered, finished := false, false;
      if done {
        ghost var claimed, gone;
        claimed, gone, answered, finished := CollectInBatches(now, OfUser(u), candidates);
        ResetOutcomeHolds(old(Tables()), old(bucket), u, now, candidates, answered, finished, Tables(), bucket, claimed, gone);
      }
    }

    // -------------------------------------------------------------- rotation cleanup

    /** The metadata batch of one rotation, statement by statement. */
    method UnlinkStaged(u: UserId, rid: RotationId, key: VaultKey, now: nat)
      modifies this`accounts, this`ledger
      ensures Tables() == MetadataBatch(old(Tables()), u, rid, key, now)
    {
      if u !in accounts { return; }
      var staged := StagedBy(accounts[u], rid);
      ledger := FenceStaged(ledger, staged, now);
      DeleteObjectRows(u, StagedObjects(accounts[u], staged));
      var a := AccountOf(Tables(), u);
      WriteAccount(u, a.(encryption := a.encryption - StaleEncryption(a, staged, key)));
      DeleteSnapshotRows(u, StaleSnapshots(accounts[u], staged));
    }

    method MarkClean(u: UserId, rid: RotationId, now: nat) returns (aborted: bool)
      modifies this`accounts
      ensures Tables() == MarkStorageClean(old(Tables()), u, rid, now)
      ensures aborted == MarkAborts(old(Tables()), AccountOf(old(Tables()), u), rid, now)
    {
      var a := AccountOf(Tables(), u);
      aborted := false;
      if MayMarkClean(Tables(), a, rid) {
        aborted := a.rotations[rid].cleanup.value.startedAt > now;
        if aborted { return; }
        WriteAccount(u, a.(rotations := a.rotations[rid := a.rotations[rid].(storageCleaned := true)]));
      }
    }

    method UnlinkReady(u: UserId, rid: RotationId, now: nat)
      requires TablesOk(Tables(), bucket) && u in accounts && ReadyForCleanup(accounts[u], rid)
      modifies this`accounts, this`ledger
      ensures TablesOk(Tables(), bucket) && Unlinked(old(Tables()), Tables(), u, rid)
      ensures Tables() == MetadataBatch(old(Tables()), u, rid, old(accounts)[u].rotations[rid].next, now)
    {
      UnlinkIsSafe(Tables(), u, rid, now, bucket);
      UnlinkStaged(u, rid, accounts[u].rotations[rid].next, now);
    }

    /** Up to a hundred of the user's keys, after a metadata batch. */
    method CollectUnlinked(u: UserId, now: nat) returns (answered: bool, finished: bool)
      modifies this`ledger, this`bucket
      ensures UnlinkedKept(old(Tables()), old(bucket), Tables(), bucket, u)
      ensures (finished ==> answered) && (answered && NothingYounger(old(Tables()), u, now) ==> finished)
      ensures finished && |Eligible(old(Tables()), now, OfUser(u))| <= 100 ==> Eligible(Tables(), now, OfUser(u)) == {}
    {
      var claimed, gone;
      claimed, gone, answered, finished := CollectGarbage(now, OfUser(u), 100);
      CollectionOfUnlinked(old(Tables()), old(bucket), u, now, ledger, claimed, gone, answered, finished);
    }

    method MarkUnlinked(ghost start: Database, u: UserId, rid: RotationId, now: nat) returns (aborted: bool)
      requires TablesOk(Tables(), bucket) && Unlinked(start, Tables(), u, rid) && ReadyForCleanup(start.accounts[u], rid)
      modifies this`accounts
      ensures TablesOk(Tables(), bucket) && Cleaning(start, Tables(), u, {rid}) && CleanedUp(accounts[u], ledger, rid)
      ensures MarkedInTime(accounts[u], ledger, rid, now) && (aborted ==> !accounts[u].rotations[rid].storageCleaned)
      ensures NothingYounger(old(Tables()), u, now) ==> !aborted
      ensures Eligible(Tables(), now, OfUser(u)) == Eligible(old(Tables()), now, OfUser(u))
    {
      MarkedAfterCollecting(start, Tables(), bucket, u, rid, now);
      MarkKeepsEligible(Tables(), u, rid, now, OfUser(u));
      aborted := MarkClean(u, rid, now);
    }

    /** One rotation of the loop; an R2 failure, or a mark that aborts, leaves it unmarked.  With
        room for all, nothing of the user's is left that could be collected. */
    method CleanRotation(u: UserId, rid: RotationId, now: nat) returns (answered: bool, finished: bool)
      requires TablesOk(Tables(), bucket) && u in accounts && ReadyForCleanup(accounts[u], rid)
      modifies this`accounts, this`ledger, this`bucket
      ensures TablesOk(Tables(), bucket) && Cleaning(old(Tables()), Tables(), u, {rid})
      ensures finished ==> CleanedUp(accounts[u], ledger, rid) && MarkedInTime(accounts[u], ledger, rid, now)
      ensures !finished ==> !accounts[u].rotations[rid].storageCleaned
      ensures (finished ==> answered) && (answered && NothingYounger(old(Tables()), u, now) ==> finished)
      ensures var unlinked := MetadataBatch(old(Tables()), u, rid, old(accounts)[u].rotations[rid].next, now);
              finished && |Eligible(unlinked, now, OfUser(u))| <= 100 ==> Eligible(Tables(), now, OfUser(u)) == {}
    {
      ghost var start := Tables();
      UnlinkReady(u, rid, now);
      if NothingYounger(start, u, now) { CleaningKeepsTimes(start, Tables(), u, {rid}, now); }
      answered, finished := CollectUnlinked(u, now);
      if NothingYounger(start, u, now) { CleaningKeepsTimes(start, Tables(), u, {rid}, now); }
      if finished {
        var aborted := MarkUnlinked(start, u, rid, now);
        finished := !aborted;
      }
    }

    method MarkReady(u: UserId, sid: SnapshotId, key: VaultKey, now: nat) returns (aborted: bool)
      requires TablesOk(Tables(), bucket) && u in accounts
      modifies this`accounts
      ensures TablesOk(Tables(), bucket)
      ensures aborted == !ReadyInTime(old(accounts)[u], sid, key, now)
      ensures Tables() == if aborted then old(Tables())
                          else SetAccount(old(Tables()), u, MarkCleanupReady(old(accounts)[u], sid, key, now))
      ensures NothingYounger(old(Tables()), u, now) ==> !aborted && NothingYounger(Tables(), u, now)
      ensures !aborted && HeadIsCurrent(old(accounts)[u], sid, key) ==> AllStarted(accounts[u])
    {
      if NothingYounger(Tables(), u, now) { MarkReadyTimes(Tables(), u, sid, key, now); }
      if HeadIsCurrent(accounts[u], sid, key) { ReadyStartsAll(Tables(), u, sid, key, now); }
      MarkReadyKeepsDatabase(Tables(), u, sid, key, now);
      aborted := !ReadyInTime(accounts[u], sid, key, now);
      if !aborted { WriteAccount(u, MarkCleanupReady(accounts[u], sid, key, now)); }
    }

    method CleanNextRotation(ghost start: Database, u: UserId, ghost ready: set<RotationId>, rest: set<RotationId>, now: nat)
      returns (answered: bool, finished: bool, left: set<RotationId>)
      requires TablesOk(Tables(), bucket) && LoopOk(start, Tables(), u, ready, rest, true) && rest != {}
      modifies this`accounts, this`ledger, this`bucket
      ensures TablesOk(Tables(), bucket) && (finished ==> |left| < |rest|)
      ensures LoopOk(start, Tables(), u, ready, left, finished)
      ensures (finished ==> answered) && (answered && NothingYounger(old(Tables()), u, now) ==> finished)
      ensures NothingYounger(old(Tables()), u, now) ==> NothingYounger(Tables(), u, now)
    {
      var rid :| rid in rest;
      OneLess(rest, rid);
      LoopNext(start, Tables(), u, ready, rest, rid);
      answered, finished := CleanRotation(u, rid, now);
      if NothingYounger(old(Tables()), u, now) { CleaningKeepsTimes(old(Tables()), Tables(), u, {rid}, now); }
      LoopStep(start, old(Tables()), Tables(), u, ready, rest, rid, finished);
      left := if finished then rest - {rid} else rest;
    }

    method CleanReadyRotations(u: UserId, now: nat)
      returns (ghost ready: set<RotationId>, answered: bool, finished: bool)
      requires TablesOk(Tables(), bucket) && u in accounts
      modifies this`accounts, this`ledger, this`bucket
      ensures TablesOk(Tables(), bucket) && Cleaning(old(Tables()), Tables(), u, ready)
      ensures finished ==> forall r :: r in ready ==> CleanedUp(accounts[u], ledger, r)
      ensures finished && AllStarted(old(accounts)[u]) ==> AllCleaned(accounts[u], ledger)
      ensures ready == set r | r in old(accounts)[u].rotations && ReadyForCleanup(old(accounts)[u], r)
      ensures (finished ==> answered) && (answered && NothingYounger(old(Tables()), u, now) ==> finished)
    {
      ghost var start := Tables();
      var rest := set r | r in accounts[u].rotations && ReadyForCleanup(accounts[u], r);
      ready, answered, finished := rest, true, true;
      LoopStarts(start, u, ready);
      while rest != {}
        invariant answered && finished && TablesOk(Tables(), bucket) && LoopOk(start, Tables(), u, ready, rest, true)
        invariant NothingYounger(start, u, now) ==> NothingYounger(Tables(), u, now)
        decreases |rest|
      {
        answered, finished, rest := CleanNextRotation(start, u, ready, rest, now);
        if !finished { break; }
      }
      LoopEnds(start, Tables(), u, ready, rest, finished);
      if finished && AllStarted(start.accounts[u]) { LoopCleansAll(start, Tables(), u, ready); }
    }

    /** The cleanup that follows a committed snapshot.  It ends at once if a rotation it would
        start on was completed after this request began.  The head is never touched; it finishes
        when R2 answers and nothing is younger than the request, and then each rotation that was
        ready is cleaned up, which for the current head is every rotation. */
    method CleanupRotatedStorage(u: UserId, sid: SnapshotId, key: VaultKey, now: nat)
      returns (ghost ready: set<RotationId>, answered: bool, finished: bool)
      requires TablesOk(Tables(), bucket) && u in accounts
      modifies this`accounts, this`ledger, this`bucket
      ensures TablesOk(Tables(), bucket)
      ensures !ReadyInTime(old(accounts)[u], sid, key, now) ==> Tables() == old(Tables()) && bucket == old(bucket) && !finished
      ensures var marked := MarkCleanupReady(old(accounts)[u], sid, key, now);
              ReadyInTime(old(accounts)[u], sid, key, now) ==>
                && ready == (set r | r in marked.rotations && ReadyForCleanup(marked, r))
                && Cleaning(SetAccount(old(Tables()), u, marked), Tables(), u, ready)
      ensures finished ==> u in accounts && forall r :: r in ready ==> CleanedUp(accounts[u], ledger, r)
      ensures finished && HeadIsCurrent(old(accounts)[u], sid, key) ==> AllCleaned(accounts[u], ledger)
      ensures (finished ==> answered) && (answered && NothingYounger(old(Tables()), u, now) ==> finished)
    {
      var aborted := MarkReady(u, sid, key, now);
      ready, answered, finished := {}, true, false;
      if !aborted {
        ready, answered, finished := CleanReadyRotations(u, now);
      }
    }

    // -------------------------------------------------------------- an upload as a whole

    method Abandoned(up: Upload, token: Token, now: nat)
      requires TablesOk(Tables(), bucket)
      modifies this`ledger
      ensures TablesOk(Tables(), bucket) && OnlyLedgerMoves(old(Tables()), Tables())
      ensures Tables() == Abandon(old(Tables()), up, token, now)
      ensures forall later :: !LeaseHeld(Tables(), up, token, later)
    {
      AbandonIsSafe(Tables(), bucket, up, token, now);
      AbandonWrite(up, token, now);
    }

    method CollectSome(now: nat, scope: Scope, limit: nat) returns (ghost claimed: set<R2Key>)
      requires TablesOk(Tables(), bucket)
      modifies this`ledger, this`bucket
      ensures TablesOk(Tables(), bucket) && OnlyLedgerMoves(old(Tables()), Tables())
      ensures TakesUpTo(Eligible(old(Tables()), now, scope), claimed, limit) && Claims(old(ledger), ledger, claimed, now)
    {
      var chosen, gone, answered, finished := CollectGarbage(now, scope, limit);
      claimed := chosen;
      CollectIsSafe(old(Tables()), old(bucket), ledger, claimed, gone, now, scope);
    }

    /** What a worker does with a claim it cannot use: it ends the claim and collects up to five
        of the owner's keys, and whatever happens in R2 is ignored. */
    method ReleaseFailedWrite(up: Upload, token: Token, now: nat) returns (ghost claimed: set<R2Key>)
      requires TablesOk(Tables(), bucket)
      modifies this`ledger, this`bucket
      ensures TablesOk(Tables(), bucket) && OnlyLedgerMoves(old(Tables()), Tables())
      ensures forall later :: !LeaseHeld(Tables(), up, token, later)
      ensures SameAges(old(ledger), ledger)
      ensures var abandoned := Abandon(old(Tables()), up, token, now);
              && TakesUpTo(Eligible(abandoned, now, OfOwner(up.user)), claimed, 5)
              && Claims(abandoned.ledger, ledger, claimed, now)
    {
      Abandoned(up, token, now);
      ghost var mid := Tables();
      claimed := CollectSome(now, OfOwner(up.user), 5);
      ReleasedWrite(old(Tables()), mid, Tables(), up, token, claimed, now);
    }

    method CommitStored(up: Upload, token: Token, now: nat) returns (committed: bool, late: bool)
      requires TablesOk(Tables(), bucket) && Parsed(up) && up.key in bucket
      modifies this`accounts, this`ledger
      ensures TablesOk(Tables(), bucket)
      ensures committed == CommitApplies(old(Tables()), up, token, now)
      ensures late == CommitLate(old(Tables()), up, token, now)
      ensures Tables() == if committed then Committed(old(Tables()), up, now) else old(Tables())
      ensures committed ==> forall later :: !LeaseHeld(Tables(), up, token, later)
    {
      committed, late := CommitUpload(up, token, now);
      if committed {
        CommitIsSafe(old(Tables()), bucket, up, token, now);
        CommitEndsLease(old(Tables()), up, token, now);
      }
    }

    method PutUpload(up: Upload, digest: Hash) returns (stored: bool, answered: bool)
      requires TablesOk(Tables(), bucket) && Parsed(up)
      modifies this`bucket
      ensures TablesOk(Tables(), bucket) && (stored ==> up.key in bucket)
      ensures stored <==> answered && digest == up.payloadHash
    {
      stored, answered := PutVerified(up.key, digest);
    }

    /** From the claim on, whatever other workers did to the tables since: the upload commits
        exactly when its object was stored and the guards hold, and otherwise leaves every
        account as it was and gives up its claim. */
    method PersistClaimed(up: Upload, digest: Hash, token: Token, now: nat)
      returns (stored: bool, answered: bool, committed: bool, late: bool)
      requires TablesOk(Tables(), bucket) && Parsed(up)
      modifies this`accounts, this`ledger, this`bucket
      ensures TablesOk(Tables(), bucket)
      ensures committed == (stored && CommitApplies(old(Tables()), up, token, now))
      ensures late == (stored && CommitLate(old(Tables()), up, token, now))
      ensures committed ==> Tables() == Committed(old(Tables()), up, now)
      ensures !committed ==> OnlyLedgerMoves(old(Tables()), Tables()) && SameAges(old(ledger), ledger)
      ensures forall later :: !LeaseHeld(Tables(), up, token, later)
      ensures stored <==> answered && digest == up.payloadHash
    {
      stored, answered := PutUpload(up, digest);
      committed, late := false, false;
      if stored { committed, late := CommitStored(up, token, now); }
      if !committed { ghost var claimed := ReleaseFailedWrite(up, token, now); }
    }

    method CleanupAfterSnapshot(up: Upload, now: nat) returns (answered: bool, answer: UploadAnswer)
      requires TablesOk(Tables(), bucket) && HeadMatches(AccountOf(Tables(), up.user), up)
      modifies this`accounts, this`ledger, this`bucket
      ensures TablesOk(Tables(), bucket) && SameHead(old(Tables()), Tables(), up.user)
      ensures Success(answer) && CleanedFor(old(Tables()), up, now, answered, answer, Tables())
    {
      MatchedHeadSurvives(Tables(), up);
      if AccountOf(Tables(), up.user).vault == Some(up.vaultKey) { MatchedHeadIsCurrent(AccountOf(Tables(), up.user), up); }
      ghost var ready;
      var finished;
      ready, answered, finished := CleanupRotatedStorage(up.user, up.snapshotId, up.vaultKey, now);
      if ReadyInTime(old(accounts)[up.user], up.snapshotId, up.vaultKey, now) {
        CleaningKeepsHead(old(Tables()), Tables(), up, ready, now);
      }
      answer := if finished then Saved else CleanupFailed;
    }

    /** From the claim to the answer.  An upload that finds itself overtaken still succeeds if
        the head is what it asked for. */
    method FinishUpload(up: Upload, digest: Hash, token: Token, now: nat) returns (stored: bool, answered: bool, answer: UploadAnswer)
      requires TablesOk(Tables(), bucket) && Parsed(up)
      modifies this`accounts, this`ledger, this`bucket
      ensures TablesOk(Tables(), bucket)
      ensures Finished(old(Tables()), up, token, now, stored, answered, answer, Tables())
      ensures if stored then digest == up.payloadHash else !answered || digest != up.payloadHash
    {
      var committed, late;
      stored, answered, committed, late := PersistClaimed(up, digest, token, now);
      ghost var mid := Tables();
      if !stored { return stored, answered, StorageFailed; }
      if late { return stored, answered, ServerFault; }
      if committed { CommitMatches(old(Tables()), up, token, now); }
      if !committed && !HeadMatches(AccountOf(Tables(), up.user), up) { return stored, answered, HeadConflict; }
      answered, answer := CleanupAfterSnapshot(up, now);
      CleanupFinishes(old(Tables()), mid, up, token, now, answered, answer, Tables());
    }

    method ClaimAndFinish(up: Upload, digest: Hash, now: nat) returns (answered: bool, answer: UploadAnswer)
      requires TablesOk(Tables(), bucket) && Parsed(up) && !HeadMatches(AccountOf(Tables(), up.user), up)
      requires !RefusedAtOnce(AccountOf(Tables(), up.user), up)
      modifies this`accounts, this`ledger, this`bucket
      ensures TablesOk(Tables(), bucket)
      ensures UploadOutcome(old(Tables()), up, now, answered, answer, Tables())
      ensures StoredByDigest(up, digest, answered, answer)
    {
      var token: Token := *;
      if ClaimFits(Tables(), up) { ClaimAllows(Tables(), up); }
      var granted, aborted := ClaimSnapshotWrite(up, token, now);
      if granted {
        ClaimIsSafe(old(Tables()), bucket, up, token, now);
        var stored;
        stored, answered, answer := FinishUpload(up, digest, token, now);
        ClaimThenFinish(old(Tables()), up, digest, token, now, stored, answered, answer, Tables());
      } else {
        ClaimRefused(old(Tables()), up, token, now);
        answered, answer := true, if aborted then ServerFault else HeadConflict;
      }
    }

    /** A retry of the upload that the head already is. */
    method AnswerRetry(up: Upload, now: nat) returns (answered: bool, answer: UploadAnswer)
      requires TablesOk(Tables(), bucket) && HeadMatches(AccountOf(Tables(), up.user), up)
      modifies this`accounts, this`ledger, this`bucket
      ensures TablesOk(Tables(), bucket)
      ensures UploadOutcome(old(Tables()), up, now, answered, answer, Tables())
    {
      answered, answer := true, Saved;
      if AccountOf(Tables(), up.user).vault == Some(up.vaultKey) { answered, answer := CleanupAfterSnapshot(up, now); }
      StillMatches(old(Tables()), Tables(), up);
    }

    /** The upload request.  It succeeds at once when the head already is the upload; else its
        claim, its commit and its cleanup follow.  `answered` is false if R2 left a call of it
        unanswered. */
    method UploadSnapshot(up: Upload, digest: Hash, now: nat) returns (answered: bool, answer: UploadAnswer)
      requires TablesOk(Tables(), bucket) && Parsed(up)
      modifies this`accounts, this`ledger, this`bucket
      ensures TablesOk(Tables(), bucket)
      ensures UploadOutcome(old(Tables()), up, now, answered, answer, Tables())
      ensures !HeadMatches(AccountOf(old(Tables()), up.user), up) ==> StoredByDigest(up, digest, answered, answer)
    {
      var a := AccountOf(Tables(), up.user);
      if HeadMatches(a, up) {
        answered, answer := AnswerRetry(up, now);
        return;
      }
      if RefusedAtOnce(a, up) {
        RefusalHolds(Tables(), up, now);
        return true, if a.vault != Some(up.vaultKey) then KeyNotCurrent else if up.base != a.head then HeadConflict else ClockStale;
      }
      answered, answer := ClaimAndFinish(up, digest, now);
    }

    // -------------------------------------------------------------- inventory

    method ScanPage(listing: seq<Listed>, cursor: nat, end: nat, now: nat) returns (aborted: bool)
      requires cursor <= end <= |listing|
      modifies this`ledger
      ensures aborted == !PageInTime(old(Tables()), KnownKeys(listing[cursor..end]), now)
      ensures !aborted ==> Tables() == Rearm(old(Tables()), KnownKeys(listing[cursor..end]), now)
    {
      var i := cursor;
      aborted := false;
      PageStarts(Tables(), now);
      while i < end
        invariant cursor <= i <= end
        invariant !aborted && PageInTime(old(Tables()), KnownKeys(listing[cursor..i]), now)
        invariant Tables() == Rearm(old(Tables()), KnownKeys(listing[cursor..i]), now)
      {
        PageGrows(old(Tables()), listing, cursor, i, now);
        if listing[i].Known? { aborted := PutCandidate(listing[i].key, now); }
        if aborted {
          LatePage(old(Tables()), listing, cursor, i + 1, end, now);
          return;
        }
        i := i + 1;
      }
    }

    /** One scheduled page: every known object the page lists is put to the ledger, and the
        cursor moves on, or back to the start when the listing is complete.  If a row that it
        would re-arm is younger than the scan, the page is rolled back. */
    method InventoryPage(prefix: Prefix, listing: seq<Listed>, cursor: nat, limit: nat, now: nat) returns (next: nat, aborted: bool)
      requires Lists(listing, bucket, prefix) && cursor <= |listing| && limit >= 1
      modifies this`ledger
      ensures aborted == !PageInTime(old(Tables()), KnownKeys(listing[cursor..PageEnd(listing, cursor, limit)]), now)
      ensures aborted ==> Tables() == old(Tables()) && next == cursor
      ensures !aborted ==>
                && Tables() == Rearm(old(Tables()), KnownKeys(listing[cursor..PageEnd(listing, cursor, limit)]), now)
                && next == if cursor + limit < |listing| then cursor + limit else 0
      ensures !aborted ==>
                forall k :: Known(k) in listing[cursor..PageEnd(listing, cursor, limit)] ==> k in bucket && Accounted(Tables(), k)
    {
      var end := PageEnd(listing, cursor, limit);
      var saved := ledger;
      aborted := ScanPage(listing, cursor, end, now);
      if aborted {
        ledger := saved;
        return cursor, true;
      }
      next := if end == |listing| then 0 else end;
      PageIsAccounted(old(Tables()), listing, cursor, end, now);
    }

    /** The upsert of one listed object. */
    method PutCandidate(k: R2Key, now: nat) returns (aborted: bool)
      modifies this`ledger
      ensures aborted == !PageInTime(old(Tables()), {k}, now)
      ensures !aborted ==> Tables() == Rearm(old(Tables()), {k}, now)
    {
      aborted := false;
      if Rearms(Tables(), k) {
        if k in ledger {
          aborted := ledger[k].createdAt > now;
          if aborted { return; }
          ledger := ledger[k := ledger[k].(state := Ready, lease := now, gcToken := None, deleteStartedAt := None)];
        } else {
          ledger := ledger[k := LedgerRow(None, Ready, None, now, None, None, now)];
        }
      }
      assert Tables().ledger == Rearm(old(Tables()), {k}, now).ledger;
    }

    // -------------------------------------------------------------- membership

    /** The registration batch: one insert behind the guards on session, device and key. */
    method InsertDevice(u: UserId, x: SessionId, d: DeviceId, idem: IdempotencyKey) returns (inserted: bool)
      modifies this`accounts
      ensures inserted == Registers(AccountOf(old(Tables()), u), x, d, idem)
      ensures AccountOf(Tables(), u) == Register(AccountOf(old(Tables()), u), x, d, idem)
      ensures OnlyAccount(old(Tables()), Tables(), u)
    {
      var a := AccountOf(Tables(), u);
      inserted := Registers(a, x, d, idem);
      if inserted {
        var status := if a.devices == map[] then Approved else Pending;
        WriteAccount(u, a.(devices := a.devices[d := Device(status, idem)]));
      }
    }

    method BindContext(u: UserId, x: SessionId, d: DeviceId) returns (bound: bool)
      modifies this`accounts
      ensures bound == Binds(AccountOf(old(Tables()), u), x, d)
      ensures AccountOf(Tables(), u) == BindSession(AccountOf(old(Tables()), u), x, d)
      ensures OnlyAccount(old(Tables()), Tables(), u)
    {
      var a := AccountOf(Tables(), u);
      bound := Binds(a, x, d);
      if bound { WriteAccount(u, a.(sessions := a.sessions[x := Some(d)])); }
    }

    /** A registration with nothing in between.  The first device of an account is approved,
        every later one waits; nobody else's status, no envelope and no key changes; and a
        device that was not there before is accepted exactly if its session could be bound.  A
        repeated one is accepted exactly for a session that is bound to it, under the same
        idempotency key, unless the device was revoked. */
    method RegisterDevice(u: UserId, x: SessionId, context: Option<DeviceId>, d: DeviceId, idem: IdempotencyKey)
      returns (accepted: bool)
      modifies this`accounts
      ensures Registered(AccountOf(old(Tables()), u), AccountOf(Tables(), u), x, context, d, idem, accepted)
      ensures OnlyAccount(old(Tables()), Tables(), u)
    {
      RegistrationIs(AccountOf(Tables(), u), x, context, d, idem);
      if context.Some? && context.value != d { return false; }
      var inserted := InsertDevice(u, x, d, idem);
      var a := AccountOf(Tables(), u);
      if !(d in a.devices && a.devices[d].idempotencyKey == idem) { return false; }
      if !inserted { return context.Some? && !a.devices[d].status.Revoked?; }
      accepted := BindContext(u, x, d);
    }

    method StoreEnvelope(u: UserId, d: DeviceId, status: DeviceStatus, approver: DeviceId, key: VaultKey, wrapped: Wrapped, idem: IdempotencyKey)
      requires u in accounts
      modifies this`accounts
      ensures Tables() == SetAccount(old(Tables()), u, InsertEnvelope(old(accounts)[u], d, status, approver, key, wrapped, idem))
    {
      var a := accounts[u];
      if a.vault == Some(key) && HasStatus(a, d, status) && HasStatus(a, approver, Approved)
         && EnvelopeId(d, key) !in a.envelopes && !EnvelopeKeyTaken(a, idem) {
        a := a.(envelopes := a.envelopes[EnvelopeId(d, key) := Envelope(approver, wrapped, idem)]);
      }
      WriteAccount(u, a);
    }

    /** A vault is created exactly for an approved device of an account that has none, and
        then that device alone can open it. */
    method BootstrapVault(u: UserId, d: DeviceId, keyId: KeyId, wrapped: Wrapped, idem: IdempotencyKey)
      modifies this`accounts
      ensures Tables() == Settle(old(Tables()), u, Bootstrap(AccountOf(old(Tables()), u), d, keyId, wrapped, idem))
      ensures MembersOk(AccountOf(old(Tables()), u)) ==>
                Bootstrapped(AccountOf(old(Tables()), u), AccountOf(Tables(), u), d, VaultKey(keyId, 1), wrapped)
    {
      if u !in accounts { return; }
      BootstrapIs(accounts[u], d, keyId, wrapped, idem);
      var key := VaultKey(keyId, 1);
      var a := accounts[u];
      if HasStatus(a, d, Approved) && a.vault.None? { a := a.(vault := Some(key)); }
      WriteAccount(u, a);
      StoreEnvelope(u, d, Approved, d, key, wrapped, idem);
      SettledRows(old(Tables()), u, accounts[u], Tables());
    }

    method ApproveRows(u: UserId, d: DeviceId, approver: DeviceId, key: VaultKey, wrapped: Wrapped, idem: IdempotencyKey)
      requires u in accounts
      modifies this`accounts
      ensures Tables() == SetAccount(old(Tables()), u, Approve(old(accounts)[u], d, approver, key, wrapped, idem))
    {
      StoreEnvelope(u, d, Pending, approver, key, wrapped, idem);
      var a := accounts[u];
      if HoldsEnvelope(a, d, approver, key, wrapped, idem) && idem !in a.approvals {
        a := a.(approvals := a.approvals[idem := Approval(d, approver)]);
      }
      if HasStatus(a, d, Pending) && HoldsEnvelope(a, d, approver, key, wrapped, idem) {
        a := a.(devices := a.devices[d := a.devices[d].(status := Approved)]);
      }
      WriteAccount(u, a);
    }

    /** The three statements of an approval: at most this device changes its status, from
        pending to approved, and exactly then it is given the envelope that opens the vault. */
    method ApprovePending(u: UserId, d: DeviceId, approver: DeviceId, key: VaultKey, wrapped: Wrapped, idem: IdempotencyKey)
      modifies this`accounts
      ensures Tables() == Settle(old(Tables()), u, Approve(AccountOf(old(Tables()), u), d, approver, key, wrapped, idem))
      ensures MembersOk(AccountOf(old(Tables()), u)) ==>
                Admitted(AccountOf(old(Tables()), u), AccountOf(Tables(), u), d, approver, key, wrapped, idem)
    {
      ApproveIs(AccountOf(Tables(), u), d, approver, key, wrapped, idem);
      if u !in accounts { return; }
      ApproveRows(u, d, approver, key, wrapped, idem);
      SettledRows(old(Tables()), u, accounts[u], Tables());
    }

    /** The insert and the update whose trigger carries the revocation out, or aborts. */
    method RunRevocation(u: UserId, idem: IdempotencyKey, target: DeviceId, approver: DeviceId, hash: Hash) returns (changes: nat, aborted: bool)
      requires target != approver && idem !in AccountOf(Tables(), u).pendingRevocations
      requires target in AccountOf(Tables(), u).devices && approver in AccountOf(Tables(), u).devices
      modifies this`accounts
      ensures OnlyAccount(old(Tables()), Tables(), u)
      ensures var a := AccountOf(old(Tables()), u);
              && aborted == RevokePending(a, idem, target, approver, hash).Aborted?
              && (aborted ==> Tables() == old(Tables()) && changes == 0)
              && (!aborted ==> RevokePending(a, idem, target, approver, hash) == Done(AccountOf(Tables(), u), changes))
    {
      var a := AccountOf(Tables(), u);
      var saved := accounts;
      WriteAccount(u, a.(pendingRevocations := a.pendingRevocations[idem := PendingRevocation(target, approver, hash)]));
      changes, aborted := 0, !HasStatus(a, approver, Approved) || !HasStatus(a, target, Pending);
      if aborted {
        accounts := saved;
      } else {
        WriteAccount(u, accounts[u].(sessions := EndSessions(a.sessions, target)));
        WriteAccount(u, accounts[u].(devices := a.devices[target := a.devices[target].(status := Revoked)]));
        changes := 1;
      }
    }

    /** A waiting device is turned away: the record is inserted, and the update that completes
        it revokes the device and signs it out.  All of that takes effect, exactly if the device
        waits, the approver is approved and the identifier is new, or none of it. */
    method RevokePendingDevice(u: UserId, idem: IdempotencyKey, target: DeviceId, approver: DeviceId, hash: Hash)
      returns (changes: nat, aborted: bool)
      modifies this`accounts
      ensures OnlyAccount(old(Tables()), Tables(), u)
      ensures var a, b := AccountOf(old(Tables()), u), AccountOf(Tables(), u);
              && (aborted || changes == 0 ==> b == a)
              && (!aborted ==> RevokePending(a, idem, target, approver, hash) == Done(b, changes))
              && (!aborted && changes == 1 <==> RevocationApplies(a, idem, target, approver))
              && (changes == 1 ==> !aborted && RevokedExactly(a, b, idem, target, approver, hash))
              && (!aborted && changes == 0 <==> target != approver && idem in a.pendingRevocations)
              && (MembersOk(a) ==> MembersOk(b))
    {
      var a := AccountOf(Tables(), u);
      RevocationIs(a, idem, target, approver, hash);
      changes, aborted := 0, target == approver;
      if !aborted && idem !in a.pendingRevocations {
        aborted := target !in a.devices || approver !in a.devices;
        if !aborted { changes, aborted := RunRevocation(u, idem, target, approver, hash); }
      }
    }

    /** One statement per envelope of the request. */
    method StoreItems(u: UserId, r: RotationRequest) returns (aborted: bool)
      requires u in accounts
      modifies this`accounts
      ensures var o := InsertItems(old(accounts)[u], r, r.envelopes);
              && aborted == o.Aborted?
              && (o.Done? ==> accounts == old(accounts)[u := o.state])
    {
      ghost var start := accounts[u];
      aborted := false;
      var i := 0;
      while i < |r.envelopes|
        invariant i <= |r.envelopes| && u in accounts && accounts == old(accounts)[u := accounts[u]]
        invariant InsertItems(start, r, r.envelopes) == InsertItems(accounts[u], r, r.envelopes[i..])
      {
        assert r.envelopes[i..][0] == r.envelopes[i] && r.envelopes[i..][1..] == r.envelopes[i + 1..];
        match InsertItem(accounts[u], r, r.envelopes[i]) {
          case Aborted => return true;
          case Done(a, _) => accounts := accounts[u := a];
        }
        i := i + 1;
      }
    }

    method OpenRotation(u: UserId, r: RotationRequest) returns (aborted: bool)
      requires u in accounts
      modifies this`accounts
      ensures var o := InsertRotation(old(accounts)[u], r);
              aborted == o.Aborted? && (o.Done? ==> accounts == old(accounts)[u := o.state])
    {
      var o := InsertRotation(accounts[u], r);
      aborted := o.Aborted?;
      if !aborted { accounts := accounts[u := o.state]; }
    }

    method FinishRotation(u: UserId, r: RotationRequest) returns (changes: nat, aborted: bool)
      requires u in accounts
      modifies this`accounts
      ensures var o := FinalizeRotation(old(accounts)[u], r);
              aborted == o.Aborted? && (o.Done? ==> accounts == old(accounts)[u := o.state] && changes == o.changes)
    {
      var o := FinalizeRotation(accounts[u], r);
      changes, aborted := 0, o.Aborted?;
      if !aborted {
        accounts := accounts[u := o.state];
        changes := o.changes;
      }
    }

    method OpenWithItems(u: UserId, r: RotationRequest) returns (aborted: bool)
      requires u in accounts
      modifies this`accounts
      ensures var a := old(accounts)[u];
              var o := if InsertRotation(a, r).Done? then InsertItems(InsertRotation(a, r).state, r, r.envelopes) else Aborted;
              aborted == o.Aborted? && (o.Done? ==> accounts == old(accounts)[u := o.state])
    {
      aborted := OpenRotation(u, r);
      if !aborted { aborted := StoreItems(u, r); }
    }

    method RunRotation(u: UserId, r: RotationRequest) returns (changes: nat, aborted: bool)
      requires u in accounts
      modifies this`accounts
      ensures var o := RotationBatch(old(accounts)[u], r);
              aborted == o.Aborted? && (o.Done? ==> accounts == old(accounts)[u := o.state] && changes == o.changes)
    {
      changes := 0;
      aborted := OpenWithItems(u, r);
      if aborted { return; }
      ghost var mid := accounts[u];
      changes, aborted := FinishRotation(u, r);
      if !aborted { SetTwice(old(accounts), u, mid, FinalizeRotation(mid, r).state); }
    }

    /** The rotation batch: the row, one item per envelope and the finalizing update, which
        take effect together, exactly when the request fits the account, or not at all. */
    method RotateVault(u: UserId, r: RotationRequest) returns (rotated: bool)
      requires u in accounts && MembersOk(accounts[u])
      modifies this`accounts
      ensures rotated == RotationApplies(old(accounts)[u], r)
      ensures accounts == if rotated then old(accounts)[u := Rotated(old(accounts)[u], r)] else old(accounts)
    {
      RotationAllOrNothing(accounts[u], r);
      var saved := accounts;
      assert saved[u := saved[u]] == saved;
      var changes, aborted := RunRotation(u, r);
      if aborted { accounts := saved; }
      rotated := !aborted && changes == 1;
    }
  }

  function RowOf(ledger: Ledger, k: R2Key): Option<LedgerRow> {
    if k in ledger then Some(ledger[k]) else None
  }

  /** No rotation that still waits for its cleanup was completed later than that. */
  ghost predicate NoneCompletedAfter(a: Account, now: nat) {
    forall rid :: rid in a.rotations && a.rotations[rid].completed && a.rotations[rid].cleanup.None? && !a.rotations[rid].storageCleaned ==>
      a.rotations[rid].completedAt <= now
  }

  /** The claim of this token is over and its key due; a claim of another token goes on. */
  ghost predicate AbandonFrees(db: Database, up: Upload, token: Token, now: nat, after: Database) {
    && (IsReserved(db.ledger, up.key) && db.ledger[up.key].user == Some(up.user) && db.ledger[up.key].writeToken == Some(token) ==>
          up.key in Eligible(after, now, OfUser(up.user)) || Protected(after, up.key))
    && (IsReserved(db.ledger, up.key) && db.ledger[up.key].writeToken != Some(token) ==> after == db)
  }

  lemma AbandonedIsEligible(db: Database, up: Upload, token: Token, now: nat)
    requires DatabaseOk(db)
    ensures AbandonFrees(db, up, token, now, Abandon(db, up, token, now))
  {
    if IsReserved(db.ledger, up.key) { ReferencedIffUsed(db, up.key); }
    assert Used(Abandon(db, up, token, now), up.key) <==> Used(db, up.key);
  }

  ghost predicate OnlyAccount(db: Database, after: Database, u: UserId) {
    && after.ledger == db.ledger && after.erased == db.erased
    && forall v :: v != u ==> AccountOf(after, v) == AccountOf(db, v)
  }

  lemma AbandonEndsLease(db: Database, up: Upload, token: Token, now: nat)
    requires DatabaseOk(db)
    ensures forall later :: !LeaseHeld(Abandon(db, up, token, now), up, token, later)
  {
    if IsReserved(db.ledger, up.key) { ReferencedIffUsed(db, up.key); }
  }

  /** A page is late as soon as a part of it is. */
  lemma LatePage(db: Database, listing: seq<Listed>, cursor: nat, i: nat, end: nat, now: nat)
    requires cursor <= i <= end <= |listing| && !PageInTime(db, KnownKeys(listing[cursor..i]), now)
    ensures !PageInTime(db, KnownKeys(listing[cursor..end]), now)
  {
    var part, page := listing[cursor..i], listing[cursor..end];
    forall k | k in KnownKeys(part)
      ensures k in KnownKeys(page)
    {
      var j :| 0 <= j < |part| && part[j] == Known(k);
      assert page[j] == Known(k);
    }
  }

  lemma PageIsAccounted(db: Database, listing: seq<Listed>, cursor: nat, end: nat, now: nat)
    requires cursor <= end <= |listing|
    ensures forall k :: Known(k) in listing[cursor..end] ==>
              Known(k) in listing && Accounted(Rearm(db, KnownKeys(listing[cursor..end]), now), k)
  {
    var page := listing[cursor..end];
    forall k | Known(k) in page
      ensures Known(k) in listing && Accounted(Rearm(db, KnownKeys(page), now), k)
    {
      var i :| 0 <= i < |page| && page[i] == Known(k);
      assert listing[cursor + i] == Known(k);
      RearmAccounts(db, KnownKeys(page), now, k);
    }
  }

  // ---------------------------------------------------------------- what membership calls do

  ghost predicate SameOtherStatus(a: Account, b: Account, d: DeviceId) {
    forall e :: e != d ==> (e in b.devices <==> e in a.devices) && (e in a.devices ==> b.devices[e] == a.devices[e])
  }

  ghost predicate Registered(a: Account, b: Account, x: SessionId, context: Option<DeviceId>, d: DeviceId,
                             idem: IdempotencyKey, accepted: bool) {
    && b == a.(devices := b.devices, sessions := b.sessions) && SameOtherStatus(a, b, d)
    && (MembersOk(a) ==> MembersOk(b))
    && (accepted ==> d in b.devices && b.devices[d].idempotencyKey == idem && !b.devices[d].status.Revoked?)
    && (if Registers(a, x, d, idem) && (context.Some? ==> context.value == d) then
          && HasStatus(b, d, if a.devices == map[] then Approved else Pending)
          && accepted == a.sessions[x].None?
          && b.sessions == if accepted then a.sessions[x := Some(d)] else a.sessions
        else
          && b == a
          && accepted == (context == Some(d) && d in a.devices && a.devices[d].idempotencyKey == idem && !a.devices[d].status.Revoked?))
  }

  predicate Binds(a: Account, x: SessionId, d: DeviceId) {
    x in a.sessions && a.sessions[x].None? && d in a.devices
  }

  lemma NewDeviceRows(a: Account, x: SessionId, d: DeviceId, idem: IdempotencyKey)
    requires Registers(a, x, d, idem)
    ensures var b := BindSession(Register(a, x, d, idem), x, d);
            && b == a.(devices := a.devices[d := Device(if a.devices == map[] then Approved else Pending, idem)],
                       sessions := if a.sessions[x].None? then a.sessions[x := Some(d)] else a.sessions)
            && Binds(Register(a, x, d, idem), x, d) == a.sessions[x].None?
  {
  }

  lemma BoundMembers(a: Account, x: SessionId, d: DeviceId, idem: IdempotencyKey)
    requires MembersOk(a)
    ensures MembersOk(BindSession(Register(a, x, d, idem), x, d))
  {
    RegisterKeepsMembers(a, x, d, idem);
    var b := Register(a, x, d, idem);
    SessionsMove(b, BindSession(b, x, d).sessions);
  }

  lemma RegistrationIs(a: Account, x: SessionId, context: Option<DeviceId>, d: DeviceId, idem: IdempotencyKey)
    ensures var b, fits := Register(a, x, d, idem), context.Some? ==> context.value == d;
            if Registers(a, x, d, idem) && fits
            then Registered(a, BindSession(b, x, d), x, context, d, idem, Binds(b, x, d))
            else b == a || !fits
  {
    if Registers(a, x, d, idem) {
      NewDeviceRows(a, x, d, idem);
      if MembersOk(a) { BoundMembers(a, x, d, idem); }
    }
  }

  lemma SettledRows(db: Database, u: UserId, a: Account, after: Database)
    requires u in db.accounts && after == SetAccount(db, u, a)
    ensures after == Settle(db, u, a)
  {
    if a == db.accounts[u] { assert db.accounts[u := a] == db.accounts; }
  }

  ghost predicate Bootstrapped(a: Account, b: Account, d: DeviceId, key: VaultKey, wrapped: Wrapped) {
    && MembersOk(b)
    && (if a.vault.None? && HasStatus(a, d, Approved) then
          && b == a.(vault := Some(key), envelopes := b.envelopes)
          && Recipients(b) == {d} && b.envelopes[EnvelopeId(d, key)].wrapped == wrapped
        else b == a)
  }

  lemma BootstrapIs(a: Account, d: DeviceId, keyId: KeyId, wrapped: Wrapped, idem: IdempotencyKey)
    ensures MembersOk(a) ==> Bootstrapped(a, Bootstrap(a, d, keyId, wrapped, idem), d, VaultKey(keyId, 1), wrapped)
  {
    if MembersOk(a) {
      BootstrapResult(a, d, keyId, wrapped, idem);
      BootstrapKeepsMembers(a, d, keyId, wrapped, idem);
    }
  }

  /** The device is approved exactly if it was pending, the approver approved, the key current
      and the idempotency key unused; and then it holds the envelope sent. */
  ghost predicate Admitted(a: Account, b: Account, d: DeviceId, approver: DeviceId, key: VaultKey, wrapped: Wrapped, idem: IdempotencyKey) {
    && MembersOk(b) && SameOtherStatus(a, b, d) && b.vault == a.vault
    && (if ApprovalApplies(a, d, approver, key, idem) then
          && HasStatus(b, d, Approved)
          && b.envelopes == a.envelopes[EnvelopeId(d, key) := Envelope(approver, wrapped, idem)]
        else b.devices == a.devices && b.envelopes == a.envelopes)
  }

  lemma ApproveIs(a: Account, d: DeviceId, approver: DeviceId, key: VaultKey, wrapped: Wrapped, idem: IdempotencyKey)
    ensures MembersOk(a) ==> Admitted(a, Approve(a, d, approver, key, wrapped, idem), d, approver, key, wrapped, idem)
    ensures Approve(NO_ACCOUNT, d, approver, key, wrapped, idem) == NO_ACCOUNT
  {
    if MembersOk(a) {
      ApproveKeepsMembers(a, d, approver, key, wrapped, idem);
      ApproveKeepsStorage(a, d, approver, key, wrapped, idem);
      AdmitsOne(a, d, approver, key, wrapped, idem);
    }
  }

  lemma AdmitsOne(a: Account, d: DeviceId, approver: DeviceId, key: VaultKey, wrapped: Wrapped, idem: IdempotencyKey)
    requires MembersOk(a)
    ensures var b := Approve(a, d, approver, key, wrapped, idem);
            if ApprovalApplies(a, d, approver, key, idem) then
              && b.devices == a.devices[d := a.devices[d].(status := Approved)]
              && b.envelopes == a.envelopes[EnvelopeId(d, key) := Envelope(approver, wrapped, idem)]
            else b.devices == a.devices && b.envelopes == a.envelopes
  {
    if HasStatus(a, d, Pending) { PendingHoldsNothing(a, d); }
    if ApprovalApplies(a, d, approver, key, idem) {
      ApproveTakesEffect(a, d, approver, key, wrapped, idem);
    } else {
      ApproveIsRefused(a, d, approver, key, wrapped, idem);
    }
  }

  lemma RevocationIs(a: Account, idem: IdempotencyKey, target: DeviceId, approver: DeviceId, hash: Hash)
    ensures RevocationApplies(a, idem, target, approver) ==>
              RevokedExactly(a, RevokePending(a, idem, target, approver, hash).state, idem, target, approver, hash)
    ensures RevokePending(a, idem, target, approver, hash).Done? && MembersOk(a) ==> MembersOk(RevokePending(a, idem, target, approver, hash).state)
  {
    RevokePendingResult(a, idem, target, approver, hash);
    if MembersOk(a) && RevokePending(a, idem, target, approver, hash).Done? { RevokePendingKeepsMembers(a, idem, target, approver, hash); }
  }

  lemma SetTwice(accounts: map<UserId, Account>, u: UserId, a: Account, b: Account)
    ensures accounts[u := a][u := b] == accounts[u := b]
  {
  }
}
