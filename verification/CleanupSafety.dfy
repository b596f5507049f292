/** What a rotation cleanup removes, what it leaves, and what it may report as clean. */
module CleanupSafety {
  import opened SyncTables
  import opened SyncInvariant
  import opened StorageRetirement
  import opened CleanupInvariant
  import opened StorageProtocol
  import opened ProtocolInvariant
  import opened ProtocolRuns
  import opened ProtocolHistory
  import opened VaultHistory
  import opened RotationRecords

  /** The account before and after a metadata batch for the given staged keys. */
  ghost predicate RemovesExactly(a: Account, b: Account, staged: set<R2Key>) {
    && HeadOf(b) == HeadOf(a) && b.head == a.head
    && (a.head.Some? ==> HeadOf(a).Head? && HeadOf(a).row.key !in staged)
    && (forall sid :: sid in b.snapshots <==> sid in a.snapshots && a.snapshots[sid].key !in staged)
    && (forall sid :: sid in b.snapshots ==>
          sid in b.encryption && sid in a.encryption
          && b.snapshots[sid] == a.snapshots[sid] && b.encryption[sid] == a.encryption[sid])
    && (forall oid :: oid in b.objects <==> oid in a.objects && a.objects[oid] !in staged)
    && (forall oid :: oid in b.objects ==> b.objects[oid] == a.objects[oid])
    && b.encryption.Keys == b.snapshots.Keys
  }

  lemma CleanedRemovesExactly(u: UserId, a: Account, rid: RotationId, ledger: Ledger)
    requires AccountOk(u, a, ledger) && CleanupStarted(a, rid)
    ensures RemovesExactly(a, Cleaned(a, a.rotations[rid].staged), a.rotations[rid].staged)
  {
  }

  predicate HasJob(s: State, p: ProcessId) {
    && p in s.cleaners
    && s.cleaners[p].next < |s.cleaners[p].jobs|
    && s.cleaners[p].user in s.db.accounts
  }

  function JobRotation(s: State, p: ProcessId): RotationId
    requires HasJob(s, p)
  {
    s.cleaners[p].jobs[s.cleaners[p].next].rotation
  }

  function JobAccount(s: State, p: ProcessId): Account
    requires HasJob(s, p)
  {
    s.db.accounts[s.cleaners[p].user]
  }

  lemma JobIsStarted(s: State, p: ProcessId)
    requires StateOk(s) && HasJob(s, p)
    ensures CleanupStarted(JobAccount(s, p), JobRotation(s, p))
    ensures var c := s.cleaners[p];
            c.jobs[c.next].key == JobAccount(s, p).rotations[JobRotation(s, p)].next
    ensures AccountOk(s.cleaners[p].user, JobAccount(s, p), s.db.ledger)
    ensures s.cleaners[p].phase.Collecting? ==> StagedRetired(JobAccount(s, p), s.db.ledger, JobRotation(s, p))
  {
    var c := s.cleaners[p];
    assert CleanerOk(s.db, c);
    assert JobOk(s.db.accounts[c.user], c.jobs[c.next]);
  }

  lemma BatchRemovesExactly(db: Database, u: UserId, rid: RotationId, now: nat)
    requires DatabaseOk(db) && u in db.accounts && CleanupStarted(db.accounts[u], rid)
    ensures var a := db.accounts[u];
            var after := MetadataBatch(db, u, rid, a.rotations[rid].next, now);
            && u in after.accounts
            && RemovesExactly(a, after.accounts[u], a.rotations[rid].staged)
            && after.accounts == db.accounts[u := after.accounts[u]]
  {
    MetadataResult(db, u, rid, now);
    assert AccountOk(u, db.accounts[u], db.ledger);
    CleanedRemovesExactly(u, db.accounts[u], rid, db.ledger);
  }

  lemma UnlinkRemovesStagedRows(s: State, p: ProcessId)
    requires StateOk(s) && HasJob(s, p)
    ensures var u, a, after := s.cleaners[p].user, JobAccount(s, p), UnlinkStep(s, p).db;
            && JobRotation(s, p) in a.rotations && u in after.accounts
            && RemovesExactly(a, after.accounts[u], a.rotations[JobRotation(s, p)].staged)
            && after.accounts == s.db.accounts[u := after.accounts[u]]
  {
    JobIsStarted(s, p);
    BatchRemovesExactly(s.db, s.cleaners[p].user, JobRotation(s, p), s.cleaners[p].now);
  }

  // ---------------------------------------------------------------- reporting storage clean

  predicate IsDeleted(ledger: Ledger, k: R2Key) {
    k in ledger && ledger[k].state.Deleted?
  }

  lemma StillStoredMeans(db: Database, k: R2Key)
    requires DatabaseOk(db)
    ensures StillStored(db, k) <==> !IsReferenced(db.ledger, k) && !IsDeleted(db.ledger, k)
  {
  }

  ghost predicate AllDeleted(a: Account, rid: RotationId, ledger: Ledger)
    requires rid in a.rotations
  {
    forall k :: k in a.rotations[rid].staged ==> IsDeleted(ledger, k)
  }

  lemma RetiredAndStored(db: Database, a: Account, rid: RotationId)
    requires DatabaseOk(db) && rid in a.rotations && StagedRetired(a, db.ledger, rid)
    ensures MayMarkClean(db, a, rid) <==> ReadyForCleanup(a, rid) && AllDeleted(a, rid, db.ledger)
  {
  }

  lemma FinishMarksOnly(db: Database, u: UserId, rid: RotationId, now: nat)
    requires u in db.accounts && rid in db.accounts[u].rotations
    ensures var b := MarkStorageClean(db, u, rid, now);
            && u in b.accounts && rid in b.accounts[u].rotations
            && b.ledger == db.ledger
            && b.accounts[u].rotations[rid].staged == db.accounts[u].rotations[rid].staged
            && (b.accounts[u].rotations[rid].storageCleaned <==>
                  || db.accounts[u].rotations[rid].storageCleaned
                  || (MayMarkClean(db, db.accounts[u], rid) && StartedBy(db.accounts[u].rotations[rid], now)))
  {
  }

  /** Every staged key is deleted, but the cleanup began after this cleaner's request. */
  ghost predicate DeletedTooEarly(a: Account, rid: RotationId, ledger: Ledger, now: nat) {
    && ReadyForCleanup(a, rid) && AllDeleted(a, rid, ledger)
    && a.rotations[rid].cleanup.value.startedAt > now
  }

  lemma FinishMeansDeleted(s: State, p: ProcessId)
    requires StateOk(s) && HasJob(s, p) && s.cleaners[p].phase.Collecting?
    ensures var c, rid, a, after := s.cleaners[p], JobRotation(s, p), JobAccount(s, p), FinishStep(s, p).db;
            && CleanupStarted(a, rid) && c.user in after.accounts && rid in after.accounts[c.user].rotations
            && (after.accounts[c.user].rotations[rid].storageCleaned <==>
                  || a.rotations[rid].storageCleaned
                  || (AllDeleted(after.accounts[c.user], rid, after.ledger)
                      && a.rotations[rid].cleanup.value.startedAt <= c.now))
    ensures FinishStep(s, p).cleaners[p].phase.Halted? <==>
              DeletedTooEarly(JobAccount(s, p), JobRotation(s, p), s.db.ledger, s.cleaners[p].now)
  {
    JobIsStarted(s, p);
    RetiredAndStored(s.db, JobAccount(s, p), JobRotation(s, p));
    FinishMarksOnly(s.db, s.cleaners[p].user, JobRotation(s, p), s.cleaners[p].now);
  }

  /** The row of one rotation before and after the attempt to mark it. */
  ghost predicate MarksExactly(db: Database, after: Database, u: UserId, rid: RotationId, now: nat)
    requires u in db.accounts && rid in db.accounts[u].rotations
  {
    var a := db.accounts[u];
    var row := a.rotations[rid];
    var marked := row.storageCleaned
      || (row.cleanup.Some? && row.cleanup.value.startedAt <= now
          && forall k :: k in row.staged ==> IsReferenced(db.ledger, k) || IsDeleted(db.ledger, k));
    after == SetAccount(db, u, a.(rotations := a.rotations[rid := row.(storageCleaned := marked)]))
  }

  /** The attempt at the end of a cleanup changes no more than this rotation's mark, and sets it
      exactly if the cleanup has started, by the time that the attempt carries, and each staged
      key is deleted or still in use. */
  lemma AttemptMarksExactly(db: Database, u: UserId, rid: RotationId, now: nat)
    requires DatabaseOk(db) && u in db.accounts && rid in db.accounts[u].rotations
    ensures MarksExactly(db, MarkStorageClean(db, u, rid, now), u, rid, now)
  {
    var a := db.accounts[u];
    forall k | k in a.rotations[rid].staged
      ensures StillStored(db, k) <==> !IsReferenced(db.ledger, k) && !IsDeleted(db.ledger, k)
    {
      StillStoredMeans(db, k);
    }
    assert a.rotations[rid := a.rotations[rid]] == a.rotations;
    assert db.accounts[u := a] == db.accounts;
  }

  // ---------------------------------------------------------------- the scheduled finalizer

  /** The scheduled finalizer is weaker: it marks a started cleanup clean exactly when each
      staged key is deleted or still referenced, whatever the time. */
  lemma FinalizerMarksExactly(db: Database, u: UserId, rid: RotationId)
    requires DatabaseOk(db) && u in db.accounts && rid in db.accounts[u].rotations
    ensures var a, b := db.accounts[u], FinalizeStorageClean(db).accounts[u];
            && rid in b.rotations
            && (b.rotations[rid].storageCleaned <==>
                  || a.rotations[rid].storageCleaned
                  || (a.rotations[rid].cleanup.Some?
                      && forall k :: k in a.rotations[rid].staged ==>
                           IsReferenced(db.ledger, k) || IsDeleted(db.ledger, k)))
  {
    forall k | k in db.accounts[u].rotations[rid].staged
      ensures StillStored(db, k) <==> !IsReferenced(db.ledger, k) && !IsDeleted(db.ledger, k)
    {
      StillStoredMeans(db, k);
    }
  }

  lemma FinalizerLeavesLiveKeys(db: Database, u: UserId, rid: RotationId, k: R2Key)
    requires DatabaseOk(db) && u in db.accounts && ReadyForCleanup(db.accounts[u], rid)
    requires forall x :: x in db.accounts[u].rotations[rid].staged ==> IsReferenced(db.ledger, x)
    requires k in db.accounts[u].rotations[rid].staged
    ensures StorageCleaned(AccountOf(FinalizeStorageClean(db), u), rid) && Used(FinalizeStorageClean(db), k)
  {
    FinalizerMarksExactly(db, u, rid);
    FinalizeKeepsDatabase(db);
    ReferencedIffUsed(FinalizeStorageClean(db), k);
  }

  // ---------------------------------------------------------------- over runs

  lemma RunUnlinks(states: seq<State>, events: seq<Event>, i: nat, p: ProcessId)
    requires Run(states, events) && i < |events| && events[i] == CleanupUnlink(p) && HasJob(states[i], p)
    ensures states[i + 1] == UnlinkStep(states[i], p)
  {
    assert MovesAt(states, events, i);
  }

  lemma RunFinishes(states: seq<State>, events: seq<Event>, i: nat, p: ProcessId)
    requires Run(states, events) && i < |events| && events[i] == CleanupFinish(p) && HasJob(states[i], p)
    ensures states[i].cleaners[p].phase.Collecting? && states[i + 1] == FinishStep(states[i], p)
  {
    assert MovesAt(states, events, i);
  }

  /** The metadata batch of a cleanup removes every row that refers to a staged key and no
      other; the head and its two rows are never among them. */
  lemma CleanupRemovesStagedRows(states: seq<State>, events: seq<Event>, i: nat, p: ProcessId)
    requires Run(states, events) && i < |events| && events[i] == CleanupUnlink(p) && HasJob(states[i], p)
    ensures var u, a, after := states[i].cleaners[p].user, JobAccount(states[i], p), states[i + 1].db;
            && JobRotation(states[i], p) in a.rotations && u in after.accounts
            && RemovesExactly(a, after.accounts[u], a.rotations[JobRotation(states[i], p)].staged)
            && after.accounts == states[i].db.accounts[u := after.accounts[u]]
  {
    Reachable(states, events, i);
    RunUnlinks(states, events, i, p);
    UnlinkRemovesStagedRows(states[i], p);
  }

  /** The last statement of a cleanup sets `storage_cleaned_at` exactly when every key that
      the rotation staged is deleted in the ledger and the cleanup was started no later than
      this request.  If it was started later the statement aborts, and with every key deleted
      the cleanup ends there. */
  lemma CleanMeansDeleted(states: seq<State>, events: seq<Event>, i: nat, p: ProcessId)
    requires Run(states, events) && i < |events| && events[i] == CleanupFinish(p) && HasJob(states[i], p)
    ensures var c, rid, a, after := states[i].cleaners[p], JobRotation(states[i], p), JobAccount(states[i], p), states[i + 1].db;
            && CleanupStarted(a, rid) && c.user in after.accounts && rid in after.accounts[c.user].rotations
            && (after.accounts[c.user].rotations[rid].storageCleaned <==>
                  || a.rotations[rid].storageCleaned
                  || (AllDeleted(after.accounts[c.user], rid, after.ledger)
                      && a.rotations[rid].cleanup.value.startedAt <= c.now))
    ensures p in states[i + 1].cleaners
            && (states[i + 1].cleaners[p].phase.Halted? <==>
                  DeletedTooEarly(JobAccount(states[i], p), JobRotation(states[i], p), states[i].db.ledger, states[i].cleaners[p].now))
  {
    Reachable(states, events, i);
    RunFinishes(states, events, i, p);
    FinishMeansDeleted(states[i], p);
  }

  lemma RunFinalizes(states: seq<State>, events: seq<Event>, i: nat)
    requires Run(states, events) && i < |events| && events[i].FinalizeRotations?
    ensures DatabaseOk(states[i].db) && states[i + 1].db == FinalizeStorageClean(states[i].db)
  {
    Reachable(states, events, i);
    assert MovesAt(states, events, i);
  }

  lemma NeverListedAgain(states: seq<State>, events: seq<Event>, i: nat, j: nat, u: UserId, rid: RotationId)
    requires Run(states, events) && i <= j < |states| && NotErased(events, u, i, j)
    requires StorageCleaned(AccountOf(states[i].db, u), rid)
    ensures !ReadyForCleanup(AccountOf(states[j].db, u), rid)
  {
    CleanedForGood(states, events, u, i, j, rid);
  }

  /** The scheduled finalizer can overtake a cleanup: run after the cleanup has started and
      before its metadata batch, it reports storage as clean while every staged object is
      live, and until the account is deleted no cleanup lists the rotation again. */
  lemma FinalizerOvertakesCleanup(states: seq<State>, events: seq<Event>, i: nat, j: nat, u: UserId, rid: RotationId, k: R2Key)
    requires Run(states, events) && i < j < |states| && events[i].FinalizeRotations? && NotErased(events, u, i + 1, j)
    requires u in states[i].db.accounts && ReadyForCleanup(states[i].db.accounts[u], rid)
    requires forall x :: x in states[i].db.accounts[u].rotations[rid].staged ==> IsReferenced(states[i].db.ledger, x)
    requires k in states[i].db.accounts[u].rotations[rid].staged
    ensures StorageCleaned(AccountOf(states[i + 1].db, u), rid) && Used(states[i + 1].db, k)
    ensures !ReadyForCleanup(AccountOf(states[j].db, u), rid)
  {
    RunFinalizes(states, events, i);
    FinalizerLeavesLiveKeys(states[i].db, u, rid, k);
    NeverListedAgain(states, events, i + 1, j, u, rid);
  }
}
