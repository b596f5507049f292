/** What whole runs do to one account: the chain of heads, who can open the vault, and what
    resets and deletions end. */
module ProtocolHistory {
  import opened SyncTables
  import opened VaultMembership
  import opened SyncInvariant
  import opened SnapshotUpload
  import opened StorageRetirement
  import opened CleanupInvariant
  import opened StorageProtocol
  import opened ProtocolInvariant
  import opened ProtocolRuns

  /** The head with the two rows it joins. */
  datatype Head = NoHead | Head(ref: HeadRef, row: SnapshotRow, encryption: EncryptionRow)

  function HeadOf(a: Account): Head {
    if a.head.Some? && a.head.value.snapshotId in a.snapshots && a.head.value.snapshotId in a.encryption
       && a.snapshots[a.head.value.snapshotId].revision == a.head.value.revision
       && a.snapshots[a.head.value.snapshotId].payloadHash == a.head.value.payloadHash
    then Head(a.head.value, a.snapshots[a.head.value.snapshotId], a.encryption[a.head.value.snapshotId])
    else NoHead
  }

  function HeadIn(s: State, u: UserId): Head {
    HeadOf(AccountOf(s.db, u))
  }

  /** A revoked device stays revoked and is never given another envelope. */
  ghost predicate RevokedStayOut(a: Account, b: Account) {
    forall d :: HasStatus(a, d, Revoked) ==>
      && HasStatus(b, d, Revoked)
      && (forall key :: EnvelopeId(d, key) in b.envelopes ==> EnvelopeId(d, key) in a.envelopes)
  }

  /** The record of a device that was turned away stays as it was written. */
  ghost predicate RecordsStay(a: Account, b: Account) {
    forall id :: id in a.pendingRevocations ==> id in b.pendingRevocations && b.pendingRevocations[id] == a.pendingRevocations[id]
  }

  ghost predicate MembersAdvance(a: Account, b: Account) {
    RevokedStayOut(a, b) && VaultAdvances(a, b) && RecordsStay(a, b)
  }

  // ---------------------------------------------------------------- single changes

  lemma ApproveAdvances(a: Account, d: DeviceId, approver: DeviceId, key: VaultKey, wrapped: Wrapped, idem: IdempotencyKey)
    requires MembersOk(a)
    ensures MembersAdvance(a, Approve(a, d, approver, key, wrapped, idem))
  {
    if ApprovalApplies(a, d, approver, key, idem) {
      ApproveTakesEffect(a, d, approver, key, wrapped, idem);
    } else {
      if HasStatus(a, d, Pending) { PendingHoldsNothing(a, d); }
      ApproveIsRefused(a, d, approver, key, wrapped, idem);
    }
  }

  lemma RevokeAdvances(a: Account, idem: IdempotencyKey, target: DeviceId, approver: DeviceId, hash: Hash)
    requires RevokePending(a, idem, target, approver, hash).Done?
    ensures MembersAdvance(a, RevokePending(a, idem, target, approver, hash).state)
  {
  }

  lemma FinishStaysOut(a: Account, id: RotationId, row: Rotation)
    requires row.target in a.devices && row.items.Keys == ApprovedDevices(a) - {row.target}
    ensures RevokedStayOut(a, Finish(a, id, row))
  {
    var b := Finish(a, id, row);
    forall d | HasStatus(a, d, Revoked)
      ensures HasStatus(b, d, Revoked)
      ensures forall key :: EnvelopeId(d, key) in b.envelopes ==> EnvelopeId(d, key) in a.envelopes
    {
      assert d !in row.items;
      FinishedEnvelope(a, id, row, d);
    }
  }

  lemma FinishedEnvelope(a: Account, id: RotationId, row: Rotation, d: DeviceId)
    requires row.target in a.devices && d !in row.items
    ensures forall key :: EnvelopeId(d, key) in Finish(a, id, row).envelopes ==> EnvelopeId(d, key) in a.envelopes
  {
  }

  lemma RotationAdvances(a: Account, r: RotationRequest)
    requires RotationApplies(a, r)
    ensures MembersAdvance(a, Rotated(a, r))
  {
    RotatedItems(a, r);
    FinishStaysOut(a, r.rotation, OpenedRow(r));
  }

  lemma SameMembersAdvance(a: Account, b: Account)
    requires b.devices == a.devices && b.vault == a.vault && b.envelopes == a.envelopes && b.pendingRevocations == a.pendingRevocations
    ensures MembersAdvance(a, b)
  {
  }

  lemma SameStorageSameHead(a: Account, b: Account)
    requires SameStorage(a, b)
    ensures HeadOf(b) == HeadOf(a)
  {
  }

  /** The metadata batch leaves the head, its row and its encryption row alone. */
  lemma HeadSurvivesCleanup(u: UserId, a: Account, rid: RotationId, ledger: Ledger)
    requires AccountOk(u, a, ledger) && CleanupStarted(a, rid)
    ensures HeadOf(Cleaned(a, a.rotations[rid].staged)) == HeadOf(a)
  {
  }

  // ---------------------------------------------------------------- single steps

  /** What a step that neither commits an upload nor erases rows does to an account. */
  ghost predicate Undisturbed(s: State, t: State, u: UserId) {
    && (u in s.db.accounts ==> u in t.db.accounts)
    && MembersAdvance(AccountOf(s.db, u), AccountOf(t.db, u))
    && HeadIn(t, u) == HeadIn(s, u)
  }

  lemma NothingDisturbed(s: State, t: State, u: UserId)
    requires AccountOf(t.db, u) == AccountOf(s.db, u) && (u in s.db.accounts ==> u in t.db.accounts)
    ensures Undisturbed(s, t, u)
  {
  }

  lemma OneAccountDisturbed(s: State, v: UserId, b: Account, u: UserId)
    requires var a := AccountOf(s.db, v); MembersAdvance(a, b) && HeadOf(b) == HeadOf(a)
    ensures Undisturbed(s, WithAccount(s, v, b), u)
  {
  }

  lemma RegisterAdvances(a: Account, x: SessionId, d: DeviceId, idem: IdempotencyKey)
    ensures MembersAdvance(a, Register(a, x, d, idem))
  {
  }

  lemma BootstrapAdvances(a: Account, d: DeviceId, keyId: KeyId, wrapped: Wrapped, idem: IdempotencyKey)
    requires MembersOk(a)
    ensures MembersAdvance(a, Bootstrap(a, d, keyId, wrapped, idem))
  {
    BootstrapResult(a, d, keyId, wrapped, idem);
  }

  lemma RotationHead(a: Account, r: RotationRequest)
    requires r.target in a.devices
    ensures HeadOf(Rotated(a, r)) == HeadOf(a)
  {
  }

  lemma RotateAdvances(a: Account, r: RotationRequest)
    requires MembersOk(a)
    ensures MembersAdvance(a, RotatedAccount(a, r)) && HeadOf(RotatedAccount(a, r)) == HeadOf(a)
  {
    RotatedOrSame(a, r);
    if RotationApplies(a, r) {
      RotationAdvances(a, r);
      RotationHead(a, r);
    } else {
      SameMembersAdvance(a, a);
    }
  }

  lemma BatchAdvances(a: Account, e: Event)
    requires MembersOk(a) && MembershipEvent(e)
    ensures MembersAdvance(a, MembersAfter(a, e))
  {
    match e
    case RegisterDevice(_, _, x, d, idem) => RegisterAdvances(a, x, d, idem);
    case BootstrapVault(_, d, keyId, wrapped, idem) => BootstrapAdvances(a, d, keyId, wrapped, idem);
    case ApprovePending(_, d, approver, key, wrapped, idem) => ApproveAdvances(a, d, approver, key, wrapped, idem);
    case RevokePendingDevice(_, idem, d, approver, hash) =>
      if RevokePending(a, idem, d, approver, hash).Done? { RevokeAdvances(a, idem, d, approver, hash); } else { SameMembersAdvance(a, a); }
    case RotateVault(_, r) => RotateAdvances(a, r);
  }

  lemma BatchKeepsHead(a: Account, e: Event)
    requires MembersOk(a) && MembershipEvent(e)
    ensures HeadOf(MembersAfter(a, e)) == HeadOf(a)
  {
    if e.RotateVault? {
      RotateAdvances(a, e.request);
    } else {
      MembersMoveBy(a, e);
      SameStorageSameHead(a, MembersAfter(a, e));
    }
  }

  lemma MembershipDisturbsNothing(s: State, e: Event, u: UserId)
    requires StateOk(s) && MembershipEvent(e) && MembershipEnabled(s, e)
    ensures Undisturbed(s, MembershipStep(s, e), u)
  {
    MembershipTables(s, e);
    if e.user in s.db.accounts {
      MembersOf(s, e.user);
      BatchAdvances(s.db.accounts[e.user], e);
      BatchKeepsHead(s.db.accounts[e.user], e);
      OneAccountDisturbed(s, e.user, MembersAfter(s.db.accounts[e.user], e), u);
    } else {
      NothingDisturbed(s, MembershipStep(s, e), u);
    }
  }

  lemma SessionFrame(s: State, e: Event, u: UserId)
    requires SessionEvent(e) && SessionEnabled(s, e)
    ensures AccountOf(SessionStep(s, e).db, u)
         == AccountOf(s.db, u).(sessions := AccountOf(SessionStep(s, e).db, u).sessions)
    ensures u in s.db.accounts ==> u in SessionStep(s, e).db.accounts
  {
    SessionTables(s, e);
  }

  lemma SessionsDisturbNothing(s: State, e: Event, u: UserId)
    requires SessionEvent(e) && SessionEnabled(s, e)
    ensures Undisturbed(s, SessionStep(s, e), u)
  {
    SessionTables(s, e);
    SessionFrame(s, e, u);
    SameMembersAdvance(AccountOf(s.db, u), AccountOf(SessionStep(s, e).db, u));
  }

  lemma SameAccountsUndisturbed(s: State, t: State, u: UserId)
    requires t.db.accounts == s.db.accounts
    ensures Undisturbed(s, t, u)
  {
  }

  lemma UploadKeepsAccounts(s: State, e: Event)
    requires UploadEvent(e) && UploadEnabled(s, e) && !e.UploadCommit?
    ensures UploadStep(s, e).db.accounts == s.db.accounts
  {
  }

  lemma CommittedAccounts(db: Database, up: Upload, now: nat, u: UserId)
    requires up.key in db.ledger
    ensures AccountOf(Committed(db, up, now), u) ==
            if u == up.user then CommittedAccount(AccountOf(db, u), up, now) else AccountOf(db, u)
    ensures u in db.accounts ==> u in Committed(db, up, now).accounts
  {
  }

  lemma CommitTables(s: State, p: ProcessId, heard: bool)
    requires StateOk(s) && p in s.uploaders
    ensures var w := s.uploaders[p];
            CommitStep(s, p, heard).db ==
              if CommitApplies(s.db, w.up, w.token, w.now) then Committed(s.db, w.up, w.now) else s.db
  {
    CommitResult(s, p);
  }

  lemma CommitChangesOne(s: State, p: ProcessId, heard: bool, u: UserId)
    requires StateOk(s) && p in s.uploaders
    ensures var w, t := s.uploaders[p], CommitStep(s, p, heard);
            && (u in s.db.accounts ==> u in t.db.accounts)
            && AccountOf(t.db, u) ==
                 if u == w.up.user && CommitApplies(s.db, w.up, w.token, w.now)
                 then CommittedAccount(AccountOf(s.db, u), w.up, w.now) else AccountOf(s.db, u)
  {
    var w := s.uploaders[p];
    CommitTables(s, p, heard);
    if CommitApplies(s.db, w.up, w.token, w.now) { CommittedAccounts(s.db, w.up, w.now, u); }
  }

  lemma UploadDisturbsNothing(s: State, e: Event, u: UserId)
    requires StateOk(s) && UploadEvent(e) && UploadEnabled(s, e)
    requires !CommitsFor(s, e, u)
    ensures Undisturbed(s, UploadStep(s, e), u)
  {
    if e.UploadCommit? {
      CommitChangesOne(s, e.p, e.heard, u);
      NothingDisturbed(s, CommitStep(s, e.p, e.heard), u);
    } else {
      UploadKeepsAccounts(s, e);
      SameAccountsUndisturbed(s, UploadStep(s, e), u);
    }
  }

  lemma CollectMarkKeepsAccounts(s: State, p: ProcessId)
    requires p in s.collectors && s.collectors[p].next < |s.collectors[p].listed|
    ensures CollectMarkStep(s, p).db.accounts == s.db.accounts
  {
  }

  lemma CollectKeepsAccounts(s: State, e: Event)
    requires CollectEvent(e) && CollectEnabled(s, e)
    ensures CollectStep(s, e).db.accounts == s.db.accounts
  {
    if e.CollectMark? { CollectMarkKeepsAccounts(s, e.p); }
  }

  lemma MarkReadyDisturbsNothing(s: State, v: UserId, sid: SnapshotId, key: VaultKey, now: nat, u: UserId)
    ensures Undisturbed(s, WithAccount(s, v, MarkCleanupReady(AccountOf(s.db, v), sid, key, now)), u)
  {
  }

  lemma MetadataDisturbsNothing(s: State, t: State, v: UserId, rid: RotationId, now: nat, u: UserId)
    requires DatabaseOk(s.db) && v in s.db.accounts && CleanupStarted(s.db.accounts[v], rid)
    requires t.db == MetadataBatch(s.db, v, rid, s.db.accounts[v].rotations[rid].next, now)
    ensures Undisturbed(s, t, u)
  {
    var a := s.db.accounts[v];
    var b := Cleaned(a, a.rotations[rid].staged);
    MetadataResult(s.db, v, rid, now);
    if u == v {
      assert AccountOk(v, a, s.db.ledger);
      HeadSurvivesCleanup(v, a, rid, s.db.ledger);
      SameMembersAdvance(a, b);
    } else {
      NothingDisturbed(s, t, u);
    }
  }

  lemma UnlinkDisturbsNothing(s: State, p: ProcessId, u: UserId)
    requires StateOk(s) && p in s.cleaners && s.cleaners[p].next < |s.cleaners[p].jobs|
    ensures Undisturbed(s, UnlinkStep(s, p), u)
  {
    var c := s.cleaners[p];
    var job := c.jobs[c.next];
    assert CleanerOk(s.db, c);
    if c.user in s.db.accounts {
      assert JobOk(s.db.accounts[c.user], job);
      MetadataDisturbsNothing(s, UnlinkStep(s, p), c.user, job.rotation, c.now, u);
    } else {
      NothingDisturbed(s, UnlinkStep(s, p), u);
    }
  }

  lemma FlagsDisturbNothing(s: State, t: State, u: UserId)
    requires var a, b := AccountOf(s.db, u), AccountOf(t.db, u); b == a.(rotations := b.rotations)
    requires u in s.db.accounts ==> u in t.db.accounts
    ensures Undisturbed(s, t, u)
  {
  }

  lemma FinishFlags(s: State, p: ProcessId, u: UserId)
    requires p in s.cleaners && s.cleaners[p].next < |s.cleaners[p].jobs|
    ensures var a, b := AccountOf(s.db, u), AccountOf(FinishStep(s, p).db, u); b == a.(rotations := b.rotations)
    ensures u in s.db.accounts ==> u in FinishStep(s, p).db.accounts
  {
    var c := s.cleaners[p];
    assert FinishStep(s, p).db == MarkStorageClean(s.db, c.user, c.jobs[c.next].rotation, c.now);
    MarkFlags(s.db, c.user, c.jobs[c.next].rotation, c.now, u);
  }

  lemma MarkFlags(db: Database, v: UserId, rid: RotationId, now: nat, u: UserId)
    ensures var a, b := AccountOf(db, u), AccountOf(MarkStorageClean(db, v, rid, now), u); b == a.(rotations := b.rotations)
    ensures u in db.accounts ==> u in MarkStorageClean(db, v, rid, now).accounts
  {
  }

  lemma CleanupDisturbsNothing(s: State, e: Event, u: UserId)
    requires StateOk(s) && CleanupEvent(e) && CleanupEnabled(s, e)
    ensures Undisturbed(s, CleanupStep(s, e), u)
  {
    match e
    case CleanupMark(p, v, sid, key, now) => MarkReadyDisturbsNothing(s, v, sid, key, now, u);
    case CleanupList(_, _) => SameAccountsUndisturbed(s, CleanupStep(s, e), u);
    case CleanupUnlink(p) => UnlinkDisturbsNothing(s, p, u);
    case CleanupFinish(p) =>
      FinishFlags(s, p, u);
      FlagsDisturbNothing(s, FinishStep(s, p), u);
    case FinalizeRotations =>
      FlagsDisturbNothing(s, s.(db := FinalizeStorageClean(s.db)), u);
  }

  /** The steps that end an account's present rows. */
  predicate Wipes(e: Event, u: UserId) {
    WipeEvent(e) && e.user == u
  }

  ghost predicate CommitsFor(s: State, e: Event, u: UserId) {
    e.UploadCommit? && e.p in s.uploaders && s.uploaders[e.p].up.user == u && Commits(s, e, s.uploaders[e.p].up)
  }

  lemma OtherReset(db: Database, v: UserId, now: nat, u: UserId)
    requires DatabaseOk(db) && v in db.accounts && u != v
    ensures var after := ResetBatch(db, v, now);
            AccountOf(after, u) == AccountOf(db, u) && (u in db.accounts ==> u in after.accounts)
  {
  }

  lemma OtherErasure(db: Database, v: UserId, now: nat, u: UserId)
    requires DatabaseOk(db) && v in db.accounts && u != v
    ensures var after := EraseBatch(db, v, now);
            AccountOf(after, u) == AccountOf(db, u) && (u in db.accounts ==> u in after.accounts)
  {
  }

  lemma ResetDisturbsOthers(s: State, v: UserId, now: nat, u: UserId)
    requires StateOk(s) && v in s.db.accounts && u != v
    ensures Undisturbed(s, s.(db := ResetBatch(s.db, v, now)), u)
  {
    OtherReset(s.db, v, now, u);
    NothingDisturbed(s, s.(db := ResetBatch(s.db, v, now)), u);
  }

  lemma ErasureDisturbsOthers(s: State, v: UserId, now: nat, u: UserId)
    requires StateOk(s) && v in s.db.accounts && u != v
    ensures Undisturbed(s, s.(db := EraseBatch(s.db, v, now)), u)
  {
    OtherErasure(s.db, v, now, u);
    NothingDisturbed(s, s.(db := EraseBatch(s.db, v, now)), u);
  }

  lemma WipedAccountExists(s: State, e: Event)
    requires WipeEvent(e) && WipeEnabled(s, e)
    ensures e.user in s.db.accounts
  {
  }

  lemma OtherWipe(s: State, e: Event, u: UserId)
    requires StateOk(s) && WipeEvent(e) && WipeEnabled(s, e) && e.user != u
    ensures Undisturbed(s, WipeStep(s, e), u)
  {
    WipedAccountExists(s, e);
    if e.ResetSync? { ResetDisturbsOthers(s, e.user, e.now, u); } else { ErasureDisturbsOthers(s, e.user, e.now, u); }
  }

  /** The step is a rotation of this account that takes effect. */
  ghost predicate Rotates(s: State, e: Event, u: UserId) {
    e.RotateVault? && e.user == u && RotationApplies(AccountOf(s.db, u), e.request)
  }

  lemma RotationTakesEffect(s: State, e: Event, u: UserId)
    requires StateOk(s) && MembershipEvent(e) && MembershipEnabled(s, e) && Rotates(s, e, u)
    ensures MembersOk(AccountOf(s.db, u))
    ensures AccountOf(MembershipStep(s, e).db, u) == Rotated(AccountOf(s.db, u), e.request)
  {
    MembersOf(s, u);
    MembershipTables(s, e);
    RotatedOrSame(AccountOf(s.db, u), e.request);
  }

  /** Nothing but its own commits, resets and deletion touches an account's head, and no
      step readmits a revoked device. */
  lemma StepDisturbsNothing(s: State, e: Event, u: UserId)
    requires StateOk(s) && Enabled(s, e) && !Wipes(e, u) && !CommitsFor(s, e, u)
    ensures Undisturbed(s, Step(s, e), u)
  {
    if MembershipEvent(e) { MembershipDisturbsNothing(s, e, u); }
    else if SessionEvent(e) { SessionsDisturbNothing(s, e, u); }
    else if UploadEvent(e) { UploadFrame(s, e, u); }
    else { MaintenanceFrame(s, e, u); }
  }

  lemma UploadFrame(s: State, e: Event, u: UserId)
    requires StateOk(s) && Enabled(s, e) && UploadEvent(e) && !CommitsFor(s, e, u)
    ensures Undisturbed(s, Step(s, e), u)
  {
    StepIsUpload(s, e);
    UploadDisturbsNothing(s, e, u);
  }

  lemma MaintenanceFrame(s: State, e: Event, u: UserId)
    requires StateOk(s) && Enabled(s, e) && !Wipes(e, u)
    requires !MembershipEvent(e) && !SessionEvent(e) && !UploadEvent(e)
    ensures Undisturbed(s, Step(s, e), u)
  {
    if CleanupEvent(e) {
      StepIsCleanup(s, e);
      CleanupDisturbsNothing(s, e, u);
    } else if WipeEvent(e) {
      StepIsWipe(s, e);
      OtherWipe(s, e, u);
    } else {
      AccountsStay(s, e);
      SameAccountsUndisturbed(s, Step(s, e), u);
    }
  }

  lemma AccountsStay(s: State, e: Event)
    requires Enabled(s, e) && (CollectEvent(e) || DownloadEvent(e) || e.TakeInventory?)
    ensures Step(s, e).db.accounts == s.db.accounts
  {
    if CollectEvent(e) {
      StepIsCollection(s, e);
      CollectKeepsAccounts(s, e);
    } else if DownloadEvent(e) {
      StepIsDownload(s, e);
      DownloadKeepsTables(s, e);
    }
  }

  lemma DownloadKeepsTables(s: State, e: Event)
    requires DownloadEvent(e) && DownloadEnabled(s, e)
    ensures DownloadStep(s, e).db == s.db
  {
  }
}
