/** The ledger's state machine: every step of the service takes one of the moves that
    `sync_r2_gc_state_transition_guard` allows, so that trigger never aborts a statement. */
module LedgerTransitions {
  import opened Wrappers
  import opened SyncTables
  import opened SyncInvariant
  import opened SnapshotUpload
  import opened StorageRetirement
  import opened RetirementInvariant
  import opened CleanupInvariant
  import opened StorageProtocol
  import opened ProtocolInvariant
  import opened ProtocolRuns

  predicate LegalMove(before: LedgerState, after: LedgerState) {
    || before == after
    || (before.Reserved? && (after.Referenced? || after.Ready? || after.Deleting?))
    || (before.Referenced? && after.Ready?)
    || (before.Ready? && after.Deleting?)
    || (before.Deleting? && after.Deleted?)
    || (before.Deleted? && after.Ready?)
  }

  ghost predicate Legal(before: Ledger, after: Ledger) {
    forall k :: k in before && k in after ==> LegalMove(before[k].state, after[k].state)
  }

  /** A retired row keeps its write token, and its user stays or is forgotten. */
  ghost predicate TokensStay(before: Ledger, after: Ledger) {
    forall k | IsRetired(before, k) ::
      && k in after && after[k].writeToken == before[k].writeToken
      && (after[k].user == before[k].user || after[k].user.None?)
  }

  ghost predicate Transits(before: Ledger, after: Ledger) {
    Legal(before, after) && TokensStay(before, after)
  }

  // ---------------------------------------------------------------- statements

  lemma ClaimIsLegal(db: Database, up: Upload, token: Token, now: nat)
    ensures Transits(db.ledger, ClaimWrite(db, up, token, now).ledger)
  {
  }

  lemma AbandonIsLegal(db: Database, up: Upload, token: Token, now: nat)
    ensures Transits(db.ledger, Abandon(db, up, token, now).ledger)
  {
  }

  lemma CommitIsLegal(u: UserId, a: Account, ledger: Ledger, up: Upload, now: nat)
    requires RowsReferenced(u, a, ledger) && IsReserved(ledger, up.key)
    ensures Transits(ledger, CommittedLedger(a, ledger, up, now))
  {
  }

  lemma CollectionIsLegal(db: Database, chosen: set<R2Key>, token: Token, now: nat, scope: Scope)
    requires forall k :: k in chosen ==> Collectable(db, k, now, scope)
    ensures Transits(db.ledger, ClaimGarbage(db.ledger, chosen, token, now))
  {
    forall k | k in chosen
      ensures Due(db.ledger[k], now)
    {
      assert Collectable(db, k, now, scope);
    }
  }

  lemma MarkIsLegal(ledger: Ledger, k: R2Key, token: Token, now: nat)
    ensures Transits(ledger, MarkDeleted(ledger, k, token, now))
  {
  }

  lemma FencesAreLegal(ledger: Ledger, u: UserId, staged: set<R2Key>, now: nat)
    ensures Transits(ledger, FenceUser(ledger, u, now)) && Transits(ledger, FenceStaged(ledger, staged, now))
    ensures Transits(ledger, Anonymize(FenceUser(ledger, u, now), u))
  {
  }

  lemma RearmIsLegal(db: Database, found: set<R2Key>, now: nat)
    ensures Transits(db.ledger, Rearm(db, found, now).ledger)
  {
  }

  // ---------------------------------------------------------------- steps

  lemma SameLedgerIsLegal(s: State, t: State)
    requires t.db.ledger == s.db.ledger
    ensures Transits(s.db.ledger, t.db.ledger)
  {
  }

  lemma MembershipKeepsLedger(s: State, e: Event)
    requires MembershipEvent(e) && MembershipEnabled(s, e)
    ensures MembershipStep(s, e).db.ledger == s.db.ledger
  {
  }

  lemma SessionsKeepLedger(s: State, e: Event)
    requires SessionEvent(e) && SessionEnabled(s, e)
    ensures SessionStep(s, e).db.ledger == s.db.ledger
  {
  }

  lemma CommitStepIsLegal(s: State, p: ProcessId, heard: bool)
    requires StateOk(s) && p in s.uploaders && s.uploaders[p].phase.Stored?
    ensures Transits(s.db.ledger, CommitStep(s, p, heard).db.ledger)
  {
    var w := s.uploaders[p];
    CommitResult(s, p);
    AccountOfOk(s.db, w.up.user);
    if CommitApplies(s.db, w.up, w.token, w.now) {
      CommitIsLegal(w.up.user, AccountOf(s.db, w.up.user), s.db.ledger, w.up, w.now);
    }
  }

  lemma UploadIsLegal(s: State, e: Event)
    requires StateOk(s) && UploadEvent(e) && UploadEnabled(s, e)
    ensures Transits(s.db.ledger, UploadStep(s, e).db.ledger)
  {
    match e
    case UploadClaim(p, up, token, now) => ClaimIsLegal(s.db, up, token, now);
    case UploadStored(p) => SameLedgerIsLegal(s, UploadStep(s, e));
    case UploadLands(p) => SameLedgerIsLegal(s, UploadStep(s, e));
    case UploadFails(p) => SameLedgerIsLegal(s, UploadStep(s, e));
    case UploadCommit(p, heard) => CommitStepIsLegal(s, p, heard);
    case UploadAbandon(p) => AbandonIsLegal(s.db, s.uploaders[p].up, s.uploaders[p].token, s.uploaders[p].now);
  }

  lemma CollectIsLegal(s: State, e: Event)
    requires CollectEvent(e) && CollectEnabled(s, e)
    ensures Transits(s.db.ledger, CollectStep(s, e).db.ledger)
  {
    match e
    case CollectClaim(p, token, now, scope, chosen) => CollectionIsLegal(s.db, chosen, token, now, scope);
    case CollectList(_, _) => SameLedgerIsLegal(s, CollectStep(s, e));
    case CollectErase(_) => SameLedgerIsLegal(s, CollectStep(s, e));
    case CollectEraseLands(_, _) => SameLedgerIsLegal(s, CollectStep(s, e));
    case CollectMark(p) =>
      MarkIsLegal(s.db.ledger, s.collectors[p].listed[s.collectors[p].next], s.collectors[p].token, s.collectors[p].now);
  }

  lemma UnlinkIsLegal(s: State, p: ProcessId)
    requires StateOk(s) && p in s.cleaners && s.cleaners[p].next < |s.cleaners[p].jobs|
    ensures Transits(s.db.ledger, UnlinkStep(s, p).db.ledger)
  {
    var c := s.cleaners[p];
    var job := c.jobs[c.next];
    assert CleanerOk(s.db, c);
    if c.user in s.db.accounts {
      assert JobOk(s.db.accounts[c.user], job);
      MetadataResult(s.db, c.user, job.rotation, c.now);
      FencesAreLegal(s.db.ledger, c.user, s.db.accounts[c.user].rotations[job.rotation].staged, c.now);
    }
  }

  lemma CleanupIsLegal(s: State, e: Event)
    requires StateOk(s) && CleanupEvent(e) && CleanupEnabled(s, e)
    ensures Transits(s.db.ledger, CleanupStep(s, e).db.ledger)
  {
    if e.CleanupUnlink? { UnlinkIsLegal(s, e.p); } else { SameLedgerIsLegal(s, CleanupStep(s, e)); }
  }

  lemma ResetIsLegal(db: Database, u: UserId, now: nat)
    requires DatabaseOk(db) && u in db.accounts
    ensures Transits(db.ledger, ResetBatch(db, u, now).ledger) && Transits(db.ledger, EraseBatch(db, u, now).ledger)
  {
    ResetResult(db, u, now);
    EraseResult(db, u, now);
    FencesAreLegal(db.ledger, u, {}, now);
  }

  lemma WipeIsLegal(s: State, e: Event)
    requires StateOk(s) && WipeEvent(e) && WipeEnabled(s, e)
    ensures Transits(s.db.ledger, WipeStep(s, e).db.ledger)
  {
    ResetIsLegal(s.db, e.user, e.now);
  }

  lemma DownloadsKeepLedger(s: State, e: Event)
    requires DownloadEvent(e) && DownloadEnabled(s, e)
    ensures DownloadStep(s, e).db.ledger == s.db.ledger
  {
  }

  lemma StepIsLegal(s: State, e: Event)
    requires StateOk(s) && Enabled(s, e)
    ensures Transits(s.db.ledger, Step(s, e).db.ledger)
  {
    if MembershipEvent(e) { MembershipKeepsLedger(s, e); SameLedgerIsLegal(s, MembershipStep(s, e)); }
    else if SessionEvent(e) { SessionsKeepLedger(s, e); SameLedgerIsLegal(s, SessionStep(s, e)); }
    else if UploadEvent(e) { UploadIsLegal(s, e); }
    else if CollectEvent(e) { CollectIsLegal(s, e); }
    else if CleanupEvent(e) { CleanupIsLegal(s, e); }
    else if WipeEvent(e) { WipeIsLegal(s, e); }
    else if DownloadEvent(e) { DownloadsKeepLedger(s, e); SameLedgerIsLegal(s, DownloadStep(s, e)); }
    else { RearmIsLegal(s.db, e.found, e.now); }
  }

  // ---------------------------------------------------------------- inside a batch

  /** The ledger as each statement of a commit leaves it, up to the one that aborts. */
  function CommitLedgers(db: Database, up: Upload, token: Token, now: nat): (ledgers: seq<Ledger>)
    ensures |ledgers| >= 1 && ledgers[0] == db.ledger
    ensures CommitBatch(db, up, token, now).Ran? ==>
              ledgers[|ledgers| - 1] == CommitBatch(db, up, token, now).state.ledger
  {
    match UpsertSnapshot(db, up, token, now)
    case Aborted => [db.ledger]
    case Done(d1, _) =>
      match UpsertEncryption(d1, up, token, now)
      case Aborted => [db.ledger, d1.ledger]
      case Done(d2, _) =>
        match WriteHead(d2, up, token, now)
        case Aborted => [db.ledger, d1.ledger, d2.ledger]
        case Done(d3, _) =>
          match MarkReferenced(d3, up, token, now)
          case Aborted => [db.ledger, d1.ledger, d2.ledger, d3.ledger]
          case Done(d4, _) => [db.ledger, d1.ledger, d2.ledger, d3.ledger, d4.ledger]
  }

  function ResetLedgers(db: Database, u: UserId, now: nat): (ledgers: seq<Ledger>)
    ensures |ledgers| == 7 && ledgers[0] == db.ledger && ledgers[6] == ResetBatch(db, u, now).ledger
  {
    var d1 := db.(ledger := FenceUser(db.ledger, u, now));
    var d2 := SetAccount(d1, u, StartAllCleanups(AccountOf(d1, u), now));
    var d3 := SetAccount(d2, u, AccountOf(d2, u).(head := None));
    var d4 := SetAccount(d3, u, AccountOf(d3, u).(encryption := map[]));
    var d5 := DeleteSnapshots(d4, u, AccountOf(d4, u).snapshots.Keys);
    [db.ledger, d1.ledger, d2.ledger, d3.ledger, d4.ledger, d5.ledger,
     DeleteObjects(d5, u, AccountOf(d5, u).objects.Keys).ledger]
  }

  function EraseLedgers(db: Database, u: UserId, now: nat): (ledgers: seq<Ledger>)
    ensures |ledgers| == 7 && ledgers[0] == db.ledger && ledgers[6] == EraseBatch(db, u, now).ledger
  {
    var d1 := db.(ledger := FenceUser(db.ledger, u, now));
    var d2 := SetAccount(d1, u, AccountOf(d1, u).(head := None));
    var d3 := SetAccount(d2, u, AccountOf(d2, u).(encryption := map[]));
    var d4 := DeleteSnapshots(d3, u, AccountOf(d3, u).snapshots.Keys);
    var d5 := DeleteObjects(d4, u, AccountOf(d4, u).objects.Keys);
    [db.ledger, d1.ledger, d2.ledger, d3.ledger, d4.ledger, d5.ledger, Anonymize(d5.ledger, u)]
  }

  function MetadataLedgers(db: Database, u: UserId, rid: RotationId, key: VaultKey, now: nat): (ledgers: seq<Ledger>)
    ensures |ledgers| >= 1 && ledgers[0] == db.ledger
    ensures ledgers[|ledgers| - 1] == MetadataBatch(db, u, rid, key, now).ledger
  {
    if u !in db.accounts then [db.ledger] else
    var staged := StagedBy(AccountOf(db, u), rid);
    var d1 := db.(ledger := FenceStaged(db.ledger, staged, now));
    var d2 := DeleteObjects(d1, u, StagedObjects(AccountOf(d1, u), staged));
    var a2 := AccountOf(d2, u);
    var d3 := SetAccount(d2, u, a2.(encryption := a2.encryption - StaleEncryption(a2, staged, key)));
    [db.ledger, d1.ledger, d2.ledger, d3.ledger, DeleteSnapshots(d3, u, StaleSnapshots(AccountOf(d3, u), staged)).ledger]
  }

  ghost predicate LegalThroughout(ledgers: seq<Ledger>) {
    forall i :: 0 <= i < |ledgers| - 1 ==> Legal(ledgers[i], ledgers[i + 1])
  }

  /** The triggers that let go of a key, fired for one row or for all rows of a delete. */
  lemma ReleasesAreLegal(db: Database, k: R2Key, keys: set<R2Key>)
    ensures Legal(db.ledger, Release(db, k).ledger) && Legal(db.ledger, ReleaseAll(db, keys).ledger)
  {
  }

  lemma UpsertIsLegal(db: Database, up: Upload, token: Token, now: nat)
    ensures UpsertSnapshot(db, up, token, now).Done? ==>
              Legal(db.ledger, UpsertSnapshot(db, up, token, now).state.ledger)
  {
    var a := AccountOf(db, up.user);
    var after := SetAccount(db, up.user, a.(snapshots := a.snapshots[up.snapshotId := Row(up, now)]));
    if up.snapshotId in a.snapshots { ReleasesAreLegal(after, a.snapshots[up.snapshotId].key, {}); }
  }

  lemma OtherCommitStatementsAreLegal(db: Database, up: Upload, token: Token, now: nat)
    ensures UpsertEncryption(db, up, token, now).Done? ==> UpsertEncryption(db, up, token, now).state.ledger == db.ledger
    ensures WriteHead(db, up, token, now).Done? ==> WriteHead(db, up, token, now).state.ledger == db.ledger
    ensures MarkReferenced(db, up, token, now).Done? ==> Legal(db.ledger, MarkReferenced(db, up, token, now).state.ledger)
  {
  }

  lemma CommitIsLegalThroughout(db: Database, up: Upload, token: Token, now: nat)
    ensures LegalThroughout(CommitLedgers(db, up, token, now))
  {
    UpsertIsLegal(db, up, token, now);
    match UpsertSnapshot(db, up, token, now)
    case Aborted =>
    case Done(d1, _) =>
      OtherCommitStatementsAreLegal(d1, up, token, now);
      match UpsertEncryption(d1, up, token, now)
      case Aborted =>
      case Done(d2, _) =>
        OtherCommitStatementsAreLegal(d2, up, token, now);
        match WriteHead(d2, up, token, now)
        case Aborted =>
        case Done(d3, _) => OtherCommitStatementsAreLegal(d3, up, token, now);
  }

  lemma DeletesAreLegal(db: Database, u: UserId, sids: set<SnapshotId>, oids: set<ObjectId>)
    ensures Legal(db.ledger, DeleteSnapshots(db, u, sids).ledger) && Legal(db.ledger, DeleteObjects(db, u, oids).ledger)
  {
  }

  lemma ChainIsLegal(l0: Ledger, l1: Ledger, l4: Ledger, l5: Ledger, l6: Ledger)
    requires Legal(l0, l1) && Legal(l1, l4) && Legal(l4, l5) && Legal(l5, l6)
    ensures LegalThroughout([l0, l1, l1, l1, l4, l5, l6])
  {
  }

  lemma ResetIsLegalThroughout(db: Database, u: UserId, now: nat)
    ensures LegalThroughout(ResetLedgers(db, u, now))
  {
    var d1 := db.(ledger := FenceUser(db.ledger, u, now));
    var d2 := SetAccount(d1, u, StartAllCleanups(AccountOf(d1, u), now));
    var d3 := SetAccount(d2, u, AccountOf(d2, u).(head := None));
    var d4 := SetAccount(d3, u, AccountOf(d3, u).(encryption := map[]));
    var d5 := DeleteSnapshots(d4, u, AccountOf(d4, u).snapshots.Keys);
    FencesAreLegal(db.ledger, u, {}, now);
    DeletesAreLegal(d4, u, AccountOf(d4, u).snapshots.Keys, {});
    DeletesAreLegal(d5, u, {}, AccountOf(d5, u).objects.Keys);
    ChainIsLegal(db.ledger, d1.ledger, d1.ledger, d5.ledger, DeleteObjects(d5, u, AccountOf(d5, u).objects.Keys).ledger);
  }

  lemma AnonymizingIsLegal(ledger: Ledger, u: UserId)
    ensures Legal(ledger, Anonymize(ledger, u))
  {
  }

  lemma EraseIsLegalThroughout(db: Database, u: UserId, now: nat)
    ensures LegalThroughout(EraseLedgers(db, u, now))
  {
    var d1 := db.(ledger := FenceUser(db.ledger, u, now));
    var d2 := SetAccount(d1, u, AccountOf(d1, u).(head := None));
    var d3 := SetAccount(d2, u, AccountOf(d2, u).(encryption := map[]));
    var d4 := DeleteSnapshots(d3, u, AccountOf(d3, u).snapshots.Keys);
    var d5 := DeleteObjects(d4, u, AccountOf(d4, u).objects.Keys);
    FencesAreLegal(db.ledger, u, {}, now);
    DeletesAreLegal(d3, u, AccountOf(d3, u).snapshots.Keys, {});
    DeletesAreLegal(d4, u, {}, AccountOf(d4, u).objects.Keys);
    AnonymizingIsLegal(d5.ledger, u);
    ChainIsLegal(db.ledger, d1.ledger, d4.ledger, d5.ledger, Anonymize(d5.ledger, u));
  }

  lemma MetadataIsLegalThroughout(db: Database, u: UserId, rid: RotationId, key: VaultKey, now: nat)
    ensures LegalThroughout(MetadataLedgers(db, u, rid, key, now))
  {
    if u in db.accounts {
      var staged := StagedBy(AccountOf(db, u), rid);
      var d1 := db.(ledger := FenceStaged(db.ledger, staged, now));
      var d2 := DeleteObjects(d1, u, StagedObjects(AccountOf(d1, u), staged));
      var a2 := AccountOf(d2, u);
      var d3 := SetAccount(d2, u, a2.(encryption := a2.encryption - StaleEncryption(a2, staged, key)));
      FencesAreLegal(db.ledger, u, staged, now);
      DeletesAreLegal(d1, u, {}, StagedObjects(AccountOf(d1, u), staged));
      DeletesAreLegal(d3, u, StaleSnapshots(AccountOf(d3, u), staged), {});
    }
  }

  /** Every ledger that a statement of the step sees or leaves. */
  ghost function LedgersOf(s: State, e: Event): seq<Ledger>
    requires Enabled(s, e)
  {
    if e.UploadCommit? then CommitLedgers(s.db, s.uploaders[e.p].up, s.uploaders[e.p].token, s.uploaders[e.p].now)
    else if e.CleanupUnlink? then
      var c := s.cleaners[e.p];
      MetadataLedgers(s.db, c.user, c.jobs[c.next].rotation, c.jobs[c.next].key, c.now)
    else if e.ResetSync? then ResetLedgers(s.db, e.user, e.now)
    else if e.DeleteAccount? then EraseLedgers(s.db, e.user, e.now)
    else [s.db.ledger, Step(s, e).db.ledger]
  }

  lemma CommitSteps(s: State, p: ProcessId)
    requires p in s.uploaders
    ensures var w := s.uploaders[p]; LegalThroughout(CommitLedgers(s.db, w.up, w.token, w.now))
  {
    CommitIsLegalThroughout(s.db, s.uploaders[p].up, s.uploaders[p].token, s.uploaders[p].now);
  }

  lemma UnlinkSteps(s: State, p: ProcessId)
    requires p in s.cleaners && s.cleaners[p].next < |s.cleaners[p].jobs|
    ensures var c := s.cleaners[p];
            LegalThroughout(MetadataLedgers(s.db, c.user, c.jobs[c.next].rotation, c.jobs[c.next].key, c.now))
  {
    var c := s.cleaners[p];
    MetadataIsLegalThroughout(s.db, c.user, c.jobs[c.next].rotation, c.jobs[c.next].key, c.now);
  }

  lemma OneStatement(before: Ledger, after: Ledger)
    requires Legal(before, after)
    ensures LegalThroughout([before, after])
  {
  }

  lemma LegalBetweenStatements(s: State, e: Event)
    requires StateOk(s) && Enabled(s, e)
    ensures LegalThroughout(LedgersOf(s, e))
  {
    if e.UploadCommit? {
      StepIsUpload(s, e);
      CommitSteps(s, e.p);
    } else if e.CleanupUnlink? {
      StepIsCleanup(s, e);
      UnlinkSteps(s, e.p);
    } else if e.ResetSync? {
      ResetIsLegalThroughout(s.db, e.user, e.now);
    } else if e.DeleteAccount? {
      EraseIsLegalThroughout(s.db, e.user, e.now);
    } else {
      StepIsLegal(s, e);
      OneStatement(s.db.ledger, Step(s, e).db.ledger);
    }
  }

  lemma RunTransits(states: seq<State>, events: seq<Event>, i: nat)
    requires Run(states, events) && i < |events|
    ensures Transits(states[i].db.ledger, states[i + 1].db.ledger)
  {
    Reachable(states, events, i);
    assert MovesAt(states, events, i);
    StepIsLegal(states[i], events[i]);
  }

  /** Over every run each ledger row only ever takes legal moves, between any two statements
      of a batch and from each state to the next. */
  lemma GuardNeverFires(states: seq<State>, events: seq<Event>, i: nat)
    requires Run(states, events) && i < |events|
    ensures Enabled(states[i], events[i]) && LegalThroughout(LedgersOf(states[i], events[i]))
    ensures Legal(states[i].db.ledger, states[i + 1].db.ledger)
  {
    RunTransits(states, events, i);
    Reachable(states, events, i);
    assert MovesAt(states, events, i);
    LegalBetweenStatements(states[i], events[i]);
  }
}
