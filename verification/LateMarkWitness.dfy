/** A run, step by step, of a cleanup whose last statement aborts although everything that the
    rotation staged is deleted: a retry of the upload, begun a second later, had started the
    cleanup first. */
module LateMarkWitness {
  import opened Wrappers
  import opened SyncTables
  import opened SyncInvariant
  import opened StorageRetirement
  import opened CleanupInvariant
  import opened CleanupSafety
  import opened StorageProtocol
  import opened ProtocolInvariant
  import opened ProtocolRuns
  import opened ProtocolWitnesses

  const STARTED_ROW := ROTATED_ROW.(cleanup := Some(NewSnapshot(6, 1)))

  const JOBS := [Job(1, NEXT_KEY)]

  /** One account, one rotation whose cleanup the retry started, and the staged key's row. */
  ghost predicate Staged(db: Database, state: LedgerState) {
    && db.accounts.Keys == {1} && db.accounts[1].rotations == map[1 := STARTED_ROW]
    && HERE in db.ledger
    && var row := db.ledger[HERE];
       row.user == Some(1) && row.state == state && row.lease == 0 && row.createdAt == 0
  }

  ghost predicate Reached(s: State) {
    exists t :: Reaches(t, s)
  }

  lemma ReachNext(s: State, e: Event, next: State)
    requires Reached(s) && Moves(s, e, next)
    ensures Reached(next)
  {
    var t :| Reaches(t, s);
    var longer := Extend(t, s, e, next);
  }

  lemma ReachedState(s: State)
    requires Reached(s)
    ensures StateOk(s)
  {
    var t :| Reaches(t, s);
    ReachedIsOk(t, s);
  }

  // ---------------------------------------------------------------- the steps of the machine

  lemma ByCleanupMark(s: State, p: ProcessId, now: nat)
    requires p !in s.cleaners && 1 in s.db.accounts && ReadyInTime(s.db.accounts[1], 6, NEXT_KEY, now)
    ensures Moves(s, CleanupMark(p, 1, 6, NEXT_KEY, now), CleanupMarkStep(s, p, 1, 6, NEXT_KEY, now))
  {
  }

  lemma ByCleanupList(s: State)
    requires 0 in s.cleaners && s.cleaners[0].phase.Listing? && ListsReady(AccountOf(s.db, s.cleaners[0].user), JOBS)
    ensures Moves(s, CleanupList(0, JOBS), CleanupListStep(s, 0, JOBS))
  {
  }

  lemma ByUnlink(s: State)
    requires 0 in s.cleaners && s.cleaners[0].phase.Unlinking? && s.cleaners[0].next < |s.cleaners[0].jobs|
    ensures Moves(s, CleanupUnlink(0), UnlinkStep(s, 0))
  {
  }

  lemma ByFinish(s: State)
    requires 0 in s.cleaners && s.cleaners[0].phase.Collecting? && s.cleaners[0].next < |s.cleaners[0].jobs|
    ensures Moves(s, CleanupFinish(0), FinishStep(s, 0))
  {
  }

  // ---------------------------------------------------------------- two requests mark the rotation

  lemma RetryStarts()
    ensures var a := Saved3().db.accounts[1];
            ReadyInTime(a, 6, NEXT_KEY, 1) && MarkCleanupReady(a, 6, NEXT_KEY, 1).rotations == map[1 := STARTED_ROW]
  {
    assert HeadIsCurrent(RENEWED, 6, NEXT_KEY) && RENEWED.rotations == map[1 := ROTATED_ROW];
  }

  lemma StartedOnce(a: Account)
    requires a.rotations == map[1 := STARTED_ROW]
    ensures ReadyInTime(a, 6, NEXT_KEY, 0) && MarkCleanupReady(a, 6, NEXT_KEY, 0).rotations == a.rotations
  {
  }

  lemma ListsIt(a: Account)
    requires a.rotations == map[1 := STARTED_ROW]
    ensures ListsReady(a, JOBS)
  {
    assert ReadyForCleanup(a, 1) && JOBS[0].rotation == 1;
  }

  function Retried(): State {
    CleanupMarkStep(Saved3(), 1, 1, 6, NEXT_KEY, 1)
  }

  function Marked(): State {
    CleanupMarkStep(Retried(), 0, 1, 6, NEXT_KEY, 0)
  }

  function Listed(): State
    requires 0 in Marked().cleaners
  {
    CleanupListStep(Marked(), 0, JOBS)
  }

  ghost predicate HereReferenced(db: Database) {
    && db.accounts.Keys == {1} && HERE in db.ledger
    && var row := db.ledger[HERE]; row.user == Some(1) && row.state.Referenced? && row.lease == 0 && row.createdAt == 0
  }

  lemma MarkStages(s: State, p: ProcessId, now: nat)
    requires HereReferenced(s.db) && MarkCleanupReady(s.db.accounts[1], 6, NEXT_KEY, now).rotations == map[1 := STARTED_ROW]
    ensures var t := CleanupMarkStep(s, p, 1, 6, NEXT_KEY, now);
            && Staged(t.db, Referenced) && HereReferenced(t.db) && t.collectors == s.collectors
            && t.cleaners == s.cleaners[p := Cleaner(1, now, Listing, [], 0)]
  {
  }

  lemma SavedHere()
    ensures HereReferenced(Saved3().db) && Saved3().collectors == map[] && Saved3().cleaners == map[]
  {
  }

  lemma RetriedStaged()
    ensures Staged(Retried().db, Referenced) && HereReferenced(Retried().db)
    ensures Retried().collectors == map[] && Retried().cleaners.Keys == {1}
  {
    SavedHere();
    RetryStarts();
    MarkStages(Saved3(), 1, 1);
  }

  lemma MarkedStaged()
    ensures Staged(Marked().db, Referenced) && Marked().collectors == map[]
    ensures 0 in Marked().cleaners && Marked().cleaners[0] == Cleaner(1, 0, Listing, [], 0)
  {
    RetriedStaged();
    StartedOnce(Retried().db.accounts[1]);
    MarkStages(Retried(), 0, 0);
  }

  lemma RetriedReached()
    ensures Reached(Retried())
  {
    var t := UntilRenewed();
    SavedHere();
    RetryStarts();
    ByCleanupMark(Saved3(), 1, 1);
    ReachNext(Saved3(), CleanupMark(1, 1, 6, NEXT_KEY, 1), Retried());
  }

  lemma MarkedReached()
    ensures Reached(Marked())
  {
    RetriedReached();
    RetriedStaged();
    StartedOnce(Retried().db.accounts[1]);
    ByCleanupMark(Retried(), 0, 0);
    ReachNext(Retried(), CleanupMark(0, 1, 6, NEXT_KEY, 0), Marked());
  }

  lemma ListedReached()
    ensures 0 in Marked().cleaners && Reached(Listed()) && Ready0(Listed())
  {
    MarkedReached();
    MarkedStaged();
    ListsIt(Marked().db.accounts[1]);
    ByCleanupList(Marked());
    ReachNext(Marked(), CleanupList(0, JOBS), Listed());
  }

  // ---------------------------------------------------------------- the metadata batch and the collection

  /** What the later steps need of the state before the metadata batch. */
  ghost predicate Ready0(s: State) {
    && Staged(s.db, Referenced) && s.collectors == map[]
    && 0 in s.cleaners && s.cleaners[0] == Cleaner(1, 0, Unlinking, JOBS, 0)
  }

  ghost predicate Unlinked0(s: State, state: LedgerState) {
    && Staged(s.db, state)
    && 0 in s.cleaners && s.cleaners[0] == Cleaner(1, 0, Collecting, JOBS, 0)
  }

  lemma UnlinkFences(s: State)
    requires StateOk(s) && Ready0(s)
    ensures Unlinked0(UnlinkStep(s, 0), LedgerState.Ready) && UnlinkStep(s, 0).collectors == map[]
  {
    MetadataResult(s.db, 1, 1, 0);
  }

  lemma StagedIsCollectable(db: Database)
    requires DatabaseOk(db) && Staged(db, LedgerState.Ready)
    ensures Collectable(db, HERE, 0, OfUser(1))
  {
    ReferencedIffUsed(db, HERE);
  }

  lemma ClaimStages(s: State)
    requires Unlinked0(s, LedgerState.Ready)
    ensures var t := CollectClaimStep(s, 0, 0, 0, {HERE});
            && Unlinked0(t, Deleting) && ClaimedBy(t.db.ledger, HERE, 0)
            && 0 in t.collectors && t.collectors[0] == Collector(0, 0, Claiming, [], 0)
  {
  }

  ghost predicate Erasing0(s: State, phase: CollectPhase) {
    && Unlinked0(s, Deleting) && ClaimedBy(s.db.ledger, HERE, 0)
    && 0 in s.collectors && s.collectors[0] == Collector(0, 0, phase, [HERE], 0)
  }

  lemma MarkDeletes(s: State)
    requires Erasing0(s, ToMark)
    ensures Unlinked0(CollectMarkStep(s, 0), Deleted)
  {
  }

  lemma ByClaim(s: State)
    requires s.collectors == map[] && Collectable(s.db, HERE, 0, OfUser(1))
    ensures Moves(s, CollectClaim(0, 0, 0, OfUser(1), {HERE}), CollectClaimStep(s, 0, 0, 0, {HERE}))
  {
    ByCollection(s, CollectClaim(0, 0, 0, OfUser(1), {HERE}), CollectClaimStep(s, 0, 0, 0, {HERE}));
  }

  lemma ListIt(s: State)
    requires 0 in s.collectors && s.collectors[0].phase.Claiming? && ClaimedBy(s.db.ledger, HERE, s.collectors[0].token)
    ensures Moves(s, CollectList(0, [HERE]), CollectListStep(s, 0, [HERE]))
  {
    ByCollection(s, CollectList(0, [HERE]), CollectListStep(s, 0, [HERE]));
  }

  lemma EraseIt(s: State)
    requires Erasing0(s, ToErase)
    ensures Moves(s, CollectErase(0), CollectEraseStep(s, 0)) && Erasing0(CollectEraseStep(s, 0), ToMark)
  {
    ByCollection(s, CollectErase(0), CollectEraseStep(s, 0));
  }

  lemma ClaimAndErase(s: State) returns (erased: State)
    requires Reached(s) && StateOk(s) && Unlinked0(s, LedgerState.Ready) && s.collectors == map[]
    ensures Reached(erased) && Erasing0(erased, ToMark)
  {
    StagedIsCollectable(s.db);
    ClaimStages(s);
    ByClaim(s);
    var claimed := CollectClaimStep(s, 0, 0, 0, {HERE});
    ReachNext(s, CollectClaim(0, 0, 0, OfUser(1), {HERE}), claimed);
    ListIt(claimed);
    var listed := CollectListStep(claimed, 0, [HERE]);
    ReachNext(claimed, CollectList(0, [HERE]), listed);
    EraseIt(listed);
    erased := CollectEraseStep(listed, 0);
    ReachNext(listed, CollectErase(0), erased);
  }

  lemma UnlinkAndCollect(s: State) returns (collected: State)
    requires Reached(s) && Ready0(s)
    ensures Reached(collected) && Unlinked0(collected, Deleted)
  {
    ReachedState(s);
    UnlinkFences(s);
    ByUnlink(s);
    ReachNext(s, CleanupUnlink(0), UnlinkStep(s, 0));
    ReachedState(UnlinkStep(s, 0));
    var erased := ClaimAndErase(UnlinkStep(s, 0));
    collected := CollectMarkStep(erased, 0);
    MarkDeletes(erased);
    ByCollection(erased, CollectMark(0), collected);
    ReachNext(erased, CollectMark(0), collected);
  }

  // ---------------------------------------------------------------- the mark

  ghost predicate HaltedUnmarked(s: State) {
    && 0 in s.cleaners && s.cleaners[0].phase.Halted?
    && 1 in s.db.accounts && 1 in s.db.accounts[1].rotations
    && !s.db.accounts[1].rotations[1].storageCleaned
    && AllDeleted(s.db.accounts[1], 1, s.db.ledger)
  }

  lemma FinishHalts(s: State)
    requires StateOk(s) && Unlinked0(s, Deleted)
    ensures HaltedUnmarked(FinishStep(s, 0))
  {
    FinishMeansDeleted(s, 0);
    FinishMarksOnly(s.db, 1, 1, 0);
  }

  /** An upload that began at 0 cleans up after itself, but its retry, begun at 1, has already
      marked the rotation: the mark aborts, the cleanup ends with an error and the rotation
      stays unmarked although all it staged is deleted. */
  lemma LateMarkIsReachable() returns (s: State)
    ensures Reached(s) && HaltedUnmarked(s)
  {
    ListedReached();
    var collected := UnlinkAndCollect(Listed());
    ReachedState(collected);
    FinishHalts(collected);
    ByFinish(collected);
    s := FinishStep(collected, 0);
    ReachNext(collected, CleanupFinish(0), s);
  }
}
