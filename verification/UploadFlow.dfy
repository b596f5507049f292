/** An upload request from its first check to its answer, on values. */
module UploadFlow {
  import opened Wrappers
  import opened SyncTables
  import opened SyncInvariant
  import opened SnapshotUpload
  import opened UploadInvariant
  import opened StorageRetirement
  import opened ProtocolInvariant
  import opened ProtocolHistory
  import opened HeadChain
  import opened GarbageCollection
  import opened CleanupRuns

  /** The accounts stay as they are while the ledger moves on. */
  ghost predicate OnlyLedgerMoves(db: Database, after: Database) {
    after == db.(ledger := after.ledger) && Evolves(db.ledger, after.ledger)
  }

  lemma MovesTwice(first: Database, second: Database, third: Database)
    requires OnlyLedgerMoves(first, second) && OnlyLedgerMoves(second, third)
    ensures OnlyLedgerMoves(first, third)
  {
  }

  lemma AbandonIsSafe(db: Database, stored: Bucket, up: Upload, token: Token, now: nat)
    requires TablesOk(db, stored)
    ensures TablesOk(Abandon(db, up, token, now), stored) && OnlyLedgerMoves(db, Abandon(db, up, token, now))
  {
    AbandonKeepsDatabase(db, up, token, now);
  }

  lemma CollectIsSafe(db: Database, stored: Bucket, after: Ledger, claimed: set<R2Key>, gone: set<R2Key>, now: nat, scope: Scope)
    requires TablesOk(db, stored)
    requires gone <= claimed <= Eligible(db, now, scope) && Claims(db.ledger, after, claimed, now)
    ensures TablesOk(db.(ledger := after), stored - gone) && OnlyLedgerMoves(db, db.(ledger := after))
  {
    CollectionKeepsOk(db, stored, after, claimed, gone, now, scope);
    ClaimsRetire(db, after, claimed, now, scope);
  }

  /** The claim is given up; what is collected afterwards does not bring its lease back. */
  lemma ReleasedWrite(db: Database, mid: Database, after: Database, up: Upload, token: Token, claimed: set<R2Key>, now: nat)
    requires mid == Abandon(db, up, token, now) && OnlyLedgerMoves(db, mid) && OnlyLedgerMoves(mid, after)
    requires Claims(mid.ledger, after.ledger, claimed, now)
    requires forall later :: !LeaseHeld(mid, up, token, later)
    ensures OnlyLedgerMoves(db, after) && SameAges(db.ledger, after.ledger)
    ensures forall later :: !LeaseHeld(after, up, token, later)
  {
    MovesTwice(db, mid, after);
    forall later
      ensures !LeaseHeld(after, up, token, later)
    {
      assert !LeaseHeld(mid, up, token, later);
    }
  }

  lemma CommitEndsLease(db: Database, up: Upload, token: Token, now: nat)
    requires CommitApplies(db, up, token, now)
    ensures forall t, later :: !LeaseHeld(Committed(db, up, now), up, t, later)
  {
  }

  lemma CommitIsSafe(db: Database, stored: Bucket, up: Upload, token: Token, now: nat)
    requires TablesOk(db, stored) && Parsed(up) && up.key in stored && CommitApplies(db, up, token, now)
    ensures TablesOk(Committed(db, up, now), stored)
  {
    CommitKeepsDatabase(db, up, token, now);
    forall k | IsReferenced(Committed(db, up, now).ledger, k)
      ensures k in stored
    {
      NewReferences(db, up, now, k);
    }
  }

  // ---------------------------------------------------------------- answers

  /** `ServerFault` is an error that no handler translates. */
  datatype UploadAnswer = Saved | CleanupFailed | KeyNotCurrent | HeadConflict | ClockStale | StorageFailed | ServerFault

  /** `snapshotMatchesUpload`: the head is this very upload, whenever it was stored. */
  predicate HeadMatches(a: Account, up: Upload) {
    var h := HeadOf(a);
    && h.Head? && h.ref == Ref(up)
    && h.row == Row(up, h.row.createdAt)
    && h.encryption == EncryptionRow(up.vaultKey, up.contentHash)
  }

  /** The comparison field by field: of the row at the head only its time is not compared. */
  lemma MatchMeans(a: Account, up: Upload)
    ensures HeadMatches(a, up) <==>
              && HeadOf(a).Head?
              && var row := HeadOf(a).row;
              && HeadOf(a).ref.snapshotId == up.snapshotId && HeadOf(a).ref.revision == up.revision && HeadOf(a).ref.payloadHash == up.payloadHash
              && row.key == up.key && row.payloadHash == up.payloadHash && row.schemaRev == up.schemaRev && row.clock == up.clock
              && row.device == up.device && row.size == up.size && row.revision == up.revision && row.base == up.base
              && HeadOf(a).encryption.key == up.vaultKey && HeadOf(a).encryption.contentHash == up.contentHash
  {
  }

  /** The head, if there is one, is older than the upload. */
  predicate ClockNewer(a: Account, up: Upload) {
    HeadOf(a).Head? ==> up.clock > HeadOf(a).row.clock
  }

  /** The claim is refused: the device may not write, or the key is not this user's to claim. */
  predicate WriteFenced(db: Database, up: Upload) {
    || !HasStatus(AccountOf(db, up.user), up.device, Approved)
    || (up.key in db.ledger && (db.ledger[up.key].user != Some(up.user) || !db.ledger[up.key].state.Reserved?))
  }

  /** What the request needs of the tables to get its claim and commit, in time. */
  predicate UploadAllowed(db: Database, up: Upload) {
    var a := AccountOf(db, up.user);
    a.vault == Some(up.vaultKey) && a.head == up.base && ClockNewer(a, up) && !WriteFenced(db, up)
  }

  /** The claim's own guards are that the key is current, the base the head and the write not
      fenced. */
  lemma ClaimFitsExactly(db: Database, up: Upload)
    requires Parsed(up)
    ensures var a := AccountOf(db, up.user);
            ClaimFits(db, up) <==> a.vault == Some(up.vaultKey) && a.head == up.base && !WriteFenced(db, up)
  {
  }

  ghost predicate SameHead(db: Database, after: Database, u: UserId) {
    HeadOf(AccountOf(after, u)) == HeadOf(AccountOf(db, u))
  }

  lemma MatchedHeadSurvives(db: Database, up: Upload)
    requires HeadMatches(AccountOf(db, up.user), up)
    ensures up.user in db.accounts
  {
  }

  lemma CleaningKeepsHead(db: Database, after: Database, up: Upload, ready: set<RotationId>, now: nat)
    requires up.user in db.accounts
    requires Cleaning(SetAccount(db, up.user, MarkCleanupReady(db.accounts[up.user], up.snapshotId, up.vaultKey, now)), after, up.user, ready)
    ensures SameHead(db, after, up.user)
  {
    var a := db.accounts[up.user];
    SameStorageSameHead(a, MarkCleanupReady(a, up.snapshotId, up.vaultKey, now));
  }

  lemma StillMatches(db: Database, after: Database, up: Upload)
    requires SameHead(db, after, up.user)
    ensures HeadMatches(AccountOf(after, up.user), up) == HeadMatches(AccountOf(db, up.user), up)
  {
  }

  lemma CommitMatches(db: Database, up: Upload, token: Token, now: nat)
    requires DatabaseOk(db) && Parsed(up) && CommitApplies(db, up, token, now)
    ensures HeadMatches(AccountOf(Committed(db, up, now), up.user), up)
    ensures HeadOf(AccountOf(Committed(db, up, now), up.user)).row.createdAt == now
    ensures Continues(HeadOf(AccountOf(db, up.user)), HeadOf(AccountOf(Committed(db, up, now), up.user)))
  {
    AccountOfOk(db, up.user);
    CommittedHead(up.user, AccountOf(db, up.user), db.ledger, up, now);
    assert AccountOf(Committed(db, up, now), up.user) == CommittedAccount(AccountOf(db, up.user), up, now);
  }

  predicate Success(answer: UploadAnswer) {
    answer.Saved? || answer.CleanupFailed?
  }

  /** A success is `Saved` if the cleanup behind it finished, which under the present key leaves
      nothing to clean; it fails only when R2 does not answer or something is younger than the
      request. */
  ghost predicate CleanedFor(db: Database, up: Upload, now: nat, answered: bool, answer: UploadAnswer, after: Database) {
    && (answer.Saved? ==> answered)
    && (answer.Saved? && AccountOf(after, up.user).vault == Some(up.vaultKey) ==> AllCleaned(AccountOf(after, up.user), after.ledger))
    && (answer.CleanupFailed? ==> !answered || !NothingYounger(db, up.user, now))
  }

  lemma MatchedHeadIsCurrent(a: Account, up: Upload)
    requires HeadMatches(a, up) && a.vault == Some(up.vaultKey)
    ensures HeadIsCurrent(a, up.snapshotId, up.vaultKey)
  {
  }

  lemma CommitKeepsTimes(db: Database, up: Upload, now: nat)
    requires up.key in db.ledger && NothingYounger(db, up.user, now)
    ensures NothingYounger(Committed(db, up, now), up.user, now)
  {
    assert AccountOf(Committed(db, up, now), up.user).rotations == AccountOf(db, up.user).rotations;
  }

  lemma ClaimKeepsTimes(db: Database, up: Upload, token: Token, now: nat)
    requires NothingYounger(db, up.user, now)
    ensures NothingYounger(ClaimWrite(db, up, token, now), up.user, now)
  {
  }

  lemma PersistKeepsTimes(db: Database, mid: Database, up: Upload, now: nat, committed: bool)
    requires committed ==> up.key in db.ledger && mid == Committed(db, up, now)
    requires !committed ==> mid == db.(ledger := mid.ledger) && SameAges(db.ledger, mid.ledger)
    ensures NothingYounger(db, up.user, now) ==> NothingYounger(mid, up.user, now)
  {
    if NothingYounger(db, up.user, now) {
      if committed { CommitKeepsTimes(db, up, now); } else { LedgerKeepsTimes(db, mid, up.user, now); }
    }
  }

  lemma LedgerKeepsTimes(db: Database, mid: Database, u: UserId, now: nat)
    requires mid == db.(ledger := mid.ledger) && SameAges(db.ledger, mid.ledger) && NothingYounger(db, u, now)
    ensures NothingYounger(mid, u, now)
  {
    assert AccountOf(mid, u) == AccountOf(db, u);
  }

  /** The cleanup that follows a commit, or that finds the head to be the upload already. */
  lemma CleanupFinishes(db: Database, mid: Database, up: Upload, token: Token, now: nat, answered: bool, answer: UploadAnswer, after: Database)
    requires if CommitApplies(db, up, token, now) then up.key in db.ledger && mid == Committed(db, up, now)
             else OnlyLedgerMoves(db, mid) && SameAges(db.ledger, mid.ledger) && !CommitLate(db, up, token, now)
    requires HeadMatches(AccountOf(mid, up.user), up) && SameHead(mid, after, up.user)
    requires CommitApplies(db, up, token, now) ==> Continues(HeadOf(AccountOf(db, up.user)), HeadOf(AccountOf(mid, up.user)))
    requires Success(answer) && CleanedFor(mid, up, now, answered, answer, after)
    ensures Finished(db, up, token, now, true, answered, answer, after)
  {
    PersistKeepsTimes(db, mid, up, now, CommitApplies(db, up, token, now));
    CleanedForEarlier(db, mid, up, now, answered, answer, after);
    StillMatches(mid, after, up);
  }

  lemma CleanedForEarlier(db: Database, mid: Database, up: Upload, now: nat, answered: bool, answer: UploadAnswer, after: Database)
    requires NothingYounger(db, up.user, now) ==> NothingYounger(mid, up.user, now)
    requires CleanedFor(mid, up, now, answered, answer, after)
    ensures CleanedFor(db, up, now, answered, answer, after)
  {
  }

  /** What an upload that holds, or held, its claim comes to. */
  ghost predicate Finished(db: Database, up: Upload, token: Token, now: nat, stored: bool, answered: bool, answer: UploadAnswer, after: Database) {
    var h, later := HeadOf(AccountOf(db, up.user)), HeadOf(AccountOf(after, up.user));
    CleanedFor(db, up, now, answered, answer, after) &&
    if !stored then answer.StorageFailed? && OnlyLedgerMoves(db, after)
    else if CommitApplies(db, up, token, now) then
      Success(answer) && HeadMatches(AccountOf(after, up.user), up) && Continues(h, later)
    else if CommitLate(db, up, token, now) then answer.ServerFault? && OnlyLedgerMoves(db, after)
    else if HeadMatches(AccountOf(db, up.user), up) then Success(answer) && later == h
    else answer.HeadConflict? && OnlyLedgerMoves(db, after)
  }

  /** What the request as a whole comes to. */
  ghost predicate UploadOutcome(db: Database, up: Upload, now: nat, answered: bool, answer: UploadAnswer, after: Database) {
    var a := AccountOf(db, up.user);
    var h, later := HeadOf(a), HeadOf(AccountOf(after, up.user));
    && CleanedFor(db, up, now, answered, answer, after)
    && (Success(answer) ==> HeadMatches(AccountOf(after, up.user), up))
    && (!Success(answer) ==> OnlyLedgerMoves(db, after))
    && (if HeadMatches(AccountOf(db, up.user), up) then Success(answer) && later == h
        else
          && (Success(answer) ==> Continues(h, later))
          && (answer.KeyNotCurrent? <==> a.vault != Some(up.vaultKey))
          && (answer.HeadConflict? <==> a.vault == Some(up.vaultKey) && (a.head != up.base || (ClockNewer(a, up) && WriteFenced(db, up))))
          && (answer.ClockStale? <==> a.vault == Some(up.vaultKey) && a.head == up.base && !ClockNewer(a, up))
          && (Success(answer) || answer.StorageFailed? <==> UploadAllowed(db, up) && CreatedBy(db.ledger, up.key, now))
          && (answer.ServerFault? <==> UploadAllowed(db, up) && !CreatedBy(db.ledger, up.key, now)))
  }

  lemma ClaimIsSafe(db: Database, stored: Bucket, up: Upload, token: Token, now: nat)
    requires TablesOk(db, stored) && Parsed(up)
    ensures TablesOk(ClaimWrite(db, up, token, now), stored) && OnlyLedgerMoves(db, ClaimWrite(db, up, token, now))
  {
    ClaimKeepsDatabase(db, up, token, now);
    ClaimOnlyReserves(db, up, token, now);
  }

  lemma NotStaged(u: UserId, a: Account, ledger: Ledger, k: R2Key)
    requires StagingOk(u, a, ledger) && IsReserved(ledger, k)
    ensures !StagedForCleanup(a, k)
  {
  }

  lemma ClaimHoldsLease(db: Database, up: Upload, token: Token, now: nat)
    requires ClaimGranted(db, up, now)
    ensures var after := ClaimWrite(db, up, token, now);
            LeaseHeld(after, up, token, now) && CreatedBy(after.ledger, up.key, now) && after.accounts == db.accounts
  {
  }

  lemma NewerFits(a: Account, up: Upload)
    requires Parsed(up) && HeadOk(a) && BaseIsHead(a, up) && (HeadOf(a).Head? ==> up.clock > HeadOf(a).row.clock)
    ensures BaseFits(a, up)
  {
  }

  /** With nothing in between, an upload that got its claim commits. */
  lemma ClaimedCanCommit(db: Database, up: Upload, token: Token, now: nat)
    requires DatabaseOk(db) && Parsed(up) && UploadAllowed(db, up) && CreatedBy(db.ledger, up.key, now)
    ensures CommitApplies(ClaimWrite(db, up, token, now), up, token, now)
  {
    var after := ClaimWrite(db, up, token, now);
    var a := AccountOf(db, up.user);
    ClaimHoldsLease(db, up, token, now);
    assert AccountOk(up.user, a, after.ledger) by {
      ClaimKeepsDatabase(db, up, token, now);
      AccountOfOk(after, up.user);
    }
    NewerFits(a, up);
    NotStaged(up.user, a, after.ledger, up.key);
  }

  /** The answers that a request gets before its claim. */
  predicate RefusedAtOnce(a: Account, up: Upload) {
    a.vault != Some(up.vaultKey) || up.base != a.head || (HeadOf(a).Head? && up.clock <= HeadOf(a).row.clock)
  }

  /** The key is compared first, then the base, then the clock. */
  function Refusal(a: Account, up: Upload): UploadAnswer {
    if a.vault != Some(up.vaultKey) then KeyNotCurrent else if up.base != a.head then HeadConflict else ClockStale
  }

  lemma RefusalHolds(db: Database, up: Upload, now: nat)
    requires DatabaseOk(db) && Parsed(up) && RefusedAtOnce(AccountOf(db, up.user), up)
    requires !HeadMatches(AccountOf(db, up.user), up)
    ensures UploadOutcome(db, up, now, true, Refusal(AccountOf(db, up.user), up), db)
  {
  }

  lemma ClaimAllows(db: Database, up: Upload)
    requires Parsed(up) && ClaimFits(db, up) && !RefusedAtOnce(AccountOf(db, up.user), up)
    ensures UploadAllowed(db, up)
  {
    ClaimFitsExactly(db, up);
  }

  /** Nothing changed, and the answer says whether the row's age or a guard was the reason. */
  lemma ClaimRefused(db: Database, up: Upload, token: Token, now: nat)
    requires Parsed(up) && !ClaimGranted(db, up, now)
    requires !HeadMatches(AccountOf(db, up.user), up) && !RefusedAtOnce(AccountOf(db, up.user), up)
    ensures ClaimWrite(db, up, token, now) == db
    ensures UploadOutcome(db, up, now, true, if ClaimFits(db, up) then ServerFault else HeadConflict, db)
  {
    ClaimFitsExactly(db, up);
  }

  /** It fails to be stored only for want of an answer or for a digest that is not its key's. */
  predicate StoredByDigest(up: Upload, digest: Hash, answered: bool, answer: UploadAnswer) {
    (answer.StorageFailed? ==> !answered || digest != up.payloadHash) && (Success(answer) ==> digest == up.payloadHash)
  }

  lemma ClaimThenFinish(db: Database, up: Upload, digest: Hash, token: Token, now: nat, stored: bool, answered: bool, answer: UploadAnswer, after: Database)
    requires DatabaseOk(db) && Parsed(up) && !HeadMatches(AccountOf(db, up.user), up)
    requires UploadAllowed(db, up) && CreatedBy(db.ledger, up.key, now)
    requires Finished(ClaimWrite(db, up, token, now), up, token, now, stored, answered, answer, after)
    requires if stored then digest == up.payloadHash else !answered || digest != up.payloadHash
    ensures UploadOutcome(db, up, now, answered, answer, after) && StoredByDigest(up, digest, answered, answer)
  {
    if NothingYounger(db, up.user, now) { ClaimKeepsTimes(db, up, token, now); }
    CleanedForEarlier(db, ClaimWrite(db, up, token, now), up, now, answered, answer, after);
    ClaimedCanCommit(db, up, token, now);
    ClaimKeepsDatabase(db, up, token, now);
    FinishAfterClaim(db, ClaimWrite(db, up, token, now), up, token, now, stored, answered, answer, after);
  }

  lemma FinishAfterClaim(db: Database, claimed: Database, up: Upload, token: Token, now: nat, stored: bool, answered: bool, answer: UploadAnswer, after: Database)
    requires OnlyLedgerMoves(db, claimed) && CommitApplies(claimed, up, token, now)
    requires UploadAllowed(db, up) && CreatedBy(db.ledger, up.key, now) && !HeadMatches(AccountOf(db, up.user), up)
    requires Finished(claimed, up, token, now, stored, answered, answer, after) && CleanedFor(db, up, now, answered, answer, after)
    ensures UploadOutcome(db, up, now, answered, answer, after)
  {
    if !stored { MovesTwice(db, claimed, after); }
  }
}
