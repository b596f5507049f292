/** What the record of a finished rotation says later: when a repeated request is answered
    from it, and when it is refused. */
module RotationRecords {
  import opened Wrappers
  import opened SyncTables
  import opened VaultMembership
  import opened SyncInvariant
  import opened SnapshotUpload
  import opened StorageRetirement
  import opened RetirementInvariant
  import opened CleanupInvariant
  import opened StorageProtocol
  import opened ProtocolInvariant
  import opened ProtocolRuns
  import opened ProtocolHistory
  import opened VaultHistory

  /** The vault still holds the envelope that the rotation derived for the recipient. */
  predicate Persisted(a: Account, id: RotationId, row: Rotation, d: DeviceId) {
    && d in row.items
    && EnvelopeId(d, row.next) in a.envelopes
    && a.envelopes[EnvelopeId(d, row.next)] == Envelope(row.approver, row.items[d], Derived(id, d))
  }

  function PersistedCount(a: Account, id: RotationId, row: Rotation): nat {
    |set d | d in row.items && Persisted(a, id, row, d)|
  }

  predicate SameRequest(row: Rotation, r: RotationRequest) {
    && row.target == r.target && row.approver == r.approver
    && row.previous == r.previous && row.next == r.next
    && row.requestHash == r.requestHash && row.envelopeCount == |r.envelopes|
  }

  /** `NoRecord` lets the request go on as a new one; the other three answer it. */
  datatype ReplayAnswer = NoRecord | ReplayMismatch | ResultInvalid | Completed

  /** `assertRotationResult` on what the result query reads. */
  function Replay(a: Account, r: RotationRequest): ReplayAnswer {
    if r.rotation !in a.rotations then NoRecord else
    var row := a.rotations[r.rotation];
    if !SameRequest(row, r) then ReplayMismatch
    else if row.completed && a.vault == Some(r.next) && HasStatus(a, row.target, Revoked)
            && |row.items| == |r.envelopes| && row.r2ObjectCount == |row.staged|
            && PersistedCount(a, r.rotation, row) == |r.envelopes| && |SessionsOf(a, row.target)| == 0
    then Completed else ResultInvalid
  }

  // ---------------------------------------------------------------- sound records

  ghost predicate Recorded(a: Account, id: RotationId, row: Rotation) {
    && row.completed
    && HasStatus(a, row.target, Revoked)
    && |row.items| == row.envelopeCount
    && |row.staged| == row.r2ObjectCount
    && (forall d :: d in row.items ==> Persisted(a, id, row, d))
  }

  ghost predicate RecordsOk(a: Account) {
    forall id :: id in a.rotations ==> Recorded(a, id, a.rotations[id])
  }

  lemma AllPersisted(a: Account, id: RotationId, row: Rotation)
    requires Recorded(a, id, row)
    ensures PersistedCount(a, id, row) == |row.items|
  {
    assert (set d | d in row.items && Persisted(a, id, row, d)) == row.items.Keys;
    assert |row.items| == |row.items.Keys|;
  }

  /** With sound records the counts of items, envelopes and staged keys cannot fail: what
      refuses a repeated request is another content, a vault that has moved on, or a session
      of the revoked device. */
  lemma ReplayDecides(a: Account, r: RotationRequest)
    requires RecordsOk(a)
    ensures Replay(a, r) ==
            if r.rotation !in a.rotations then NoRecord
            else if !SameRequest(a.rotations[r.rotation], r) then ReplayMismatch
            else if a.vault == Some(r.next) && SessionsOf(a, r.target) == {} then Completed
            else ResultInvalid
  {
    if r.rotation in a.rotations { AllPersisted(a, r.rotation, a.rotations[r.rotation]); }
  }

  // ---------------------------------------------------------------- changes that keep records

  /** Envelopes stay, revoked devices stay revoked, the vault keeps its key, and of the
      rotations only the two progress marks of a cleanup move. */
  ghost predicate Extends(a: Account, b: Account) {
    && (forall e :: e in a.envelopes ==> e in b.envelopes && b.envelopes[e] == a.envelopes[e])
    && (forall d :: HasStatus(a, d, Revoked) ==> HasStatus(b, d, Revoked))
    && (a.vault.Some? ==> b.vault == a.vault)
    && SameRecords(a, b)
  }

  /** Of the two marks the one that ends a cleanup is never taken back. */
  ghost predicate SameRecords(a: Account, b: Account) {
    && b.rotations.Keys == a.rotations.Keys
    && (forall id :: id in a.rotations ==>
          && b.rotations[id] ==
               a.rotations[id].(cleanup := b.rotations[id].cleanup, storageCleaned := b.rotations[id].storageCleaned)
          && (a.rotations[id].storageCleaned ==> b.rotations[id].storageCleaned))
  }

  /** No session appeared or became bound to a device. */
  ghost predicate NoneBound(a: Account, b: Account) {
    && (forall x :: x in b.sessions ==> x in a.sessions)
    && (forall x, d :: BoundTo(b, x, d) ==> BoundTo(a, x, d))
  }

  ghost predicate Follows(a: Account, b: Account) {
    Extends(a, b) && NoneBound(a, b)
  }

  lemma ExtendedRecords(a: Account, b: Account)
    requires RecordsOk(a) && Extends(a, b)
    ensures RecordsOk(b)
  {
    forall id | id in b.rotations
      ensures Recorded(b, id, b.rotations[id])
    {
      var row := a.rotations[id];
      assert Recorded(a, id, row);
      forall d | d in row.items
        ensures Persisted(b, id, b.rotations[id], d)
      {
        assert Persisted(a, id, row, d);
      }
    }
  }

  lemma ExtendsTwice(a: Account, b: Account, c: Account)
    requires Extends(a, b) && Extends(b, c)
    ensures Extends(a, c)
  {
  }

  lemma SameRowsFollow(a: Account, b: Account)
    requires b.envelopes == a.envelopes && b.devices == a.devices && b.vault == a.vault && b.sessions == a.sessions
    requires SameRecords(a, b)
    ensures Follows(a, b)
  {
  }

  lemma AdmittingExtends(a: Account, b: Account, d: DeviceId, e: Envelope)
    requires a.vault.Some? && b.vault == a.vault && HasStatus(a, d, Pending) && b.rotations == a.rotations
    requires b.devices == a.devices[d := a.devices[d].(status := Approved)]
    requires EnvelopeId(d, a.vault.value) !in a.envelopes
    requires b.envelopes == a.envelopes[EnvelopeId(d, a.vault.value) := e]
    ensures Extends(a, b)
  {
  }

  lemma ApproveFollows(a: Account, d: DeviceId, approver: DeviceId, key: VaultKey, wrapped: Wrapped, idem: IdempotencyKey)
    requires MembersOk(a)
    ensures Follows(a, Approve(a, d, approver, key, wrapped, idem))
  {
    if HasStatus(a, d, Pending) { PendingHoldsNothing(a, d); }
    ApproveKeepsStorage(a, d, approver, key, wrapped, idem);
    if ApprovalApplies(a, d, approver, key, idem) {
      ApproveTakesEffect(a, d, approver, key, wrapped, idem);
      AdmittingExtends(a, Approve(a, d, approver, key, wrapped, idem), d, Envelope(approver, wrapped, idem));
    } else {
      ApproveIsRefused(a, d, approver, key, wrapped, idem);
      SameRowsFollow(a, Approve(a, d, approver, key, wrapped, idem));
    }
  }

  lemma RegisterFollows(a: Account, x: SessionId, d: DeviceId, idem: IdempotencyKey)
    ensures Follows(a, Register(a, x, d, idem))
  {
  }

  lemma BootstrapFollows(a: Account, d: DeviceId, keyId: KeyId, wrapped: Wrapped, idem: IdempotencyKey)
    requires MembersOk(a)
    ensures Follows(a, Bootstrap(a, d, keyId, wrapped, idem))
  {
    BootstrapResult(a, d, keyId, wrapped, idem);
  }

  lemma RevokeFollows(a: Account, idem: IdempotencyKey, d: DeviceId, approver: DeviceId, hash: Hash)
    ensures Follows(a, RevokedAccount(a, idem, d, approver, hash))
  {
  }

  lemma RotateFollows(a: Account, r: RotationRequest)
    requires MembersOk(a) && !RotationApplies(a, r)
    ensures Follows(a, RotatedAccount(a, r))
  {
    RotatedOrSame(a, r);
    SameRowsFollow(a, a);
  }

  lemma BatchFollows(a: Account, e: Event)
    requires MembersOk(a) && MembershipEvent(e) && (e.RotateVault? ==> !RotationApplies(a, e.request))
    ensures Follows(a, MembersAfter(a, e))
  {
    match e
    case RegisterDevice(_, _, x, d, idem) => RegisterFollows(a, x, d, idem);
    case BootstrapVault(_, d, keyId, wrapped, idem) => BootstrapFollows(a, d, keyId, wrapped, idem);
    case ApprovePending(_, d, approver, key, wrapped, idem) => ApproveFollows(a, d, approver, key, wrapped, idem);
    case RevokePendingDevice(_, idem, d, approver, hash) => RevokeFollows(a, idem, d, approver, hash);
    case RotateVault(_, r) => RotateFollows(a, r);
  }

  // ---------------------------------------------------------------- a new record

  lemma EarlierEnvelopeKept(a: Account, id: RotationId, row: Rotation, e: EnvelopeId)
    requires row.target in a.devices && e in a.envelopes && e.key != row.next
    ensures e in Finish(a, id, row).envelopes && Finish(a, id, row).envelopes[e] == a.envelopes[e]
  {
  }

  lemma EarlierPersisted(a: Account, id: RotationId, row: Rotation, earlier: RotationId, d: DeviceId)
    requires row.target in a.devices && earlier in a.rotations && Persisted(a, earlier, a.rotations[earlier], d)
    requires EnvelopeId(d, row.next) !in a.envelopes
    ensures Persisted(Finish(a, id, row), earlier, a.rotations[earlier], d)
  {
    EarlierEnvelopeKept(a, id, row, EnvelopeId(d, a.rotations[earlier].next));
  }

  lemma EarlierRecordKept(a: Account, id: RotationId, row: Rotation, earlier: RotationId)
    requires row.target in a.devices && earlier in a.rotations && earlier != id
    requires Recorded(a, earlier, a.rotations[earlier]) && forall d :: EnvelopeId(d, row.next) !in a.envelopes
    ensures Recorded(Finish(a, id, row), earlier, Finish(a, id, row).rotations[earlier])
  {
    var kept := a.rotations[earlier];
    forall d | d in kept.items
      ensures Persisted(Finish(a, id, row), earlier, kept, d)
    {
      EarlierPersisted(a, id, row, earlier, d);
    }
  }

  lemma NewRecord(a: Account, id: RotationId, row: Rotation)
    requires row.target in a.devices && row.staged == {} && |row.items| == row.envelopeCount
    requires |CurrentKeys(a)| == row.r2ObjectCount
    ensures Recorded(Finish(a, id, row), id, Finish(a, id, row).rotations[id])
  {
    var b := Finish(a, id, row);
    assert row.staged + CurrentKeys(a) == CurrentKeys(a);
    forall d | d in row.items
      ensures Persisted(b, id, b.rotations[id], d)
    {
      assert EnvelopeId(d, row.next) in DerivedEnvelopes(id, row);
    }
  }

  lemma ItemCount(items: seq<RotationItem>)
    requires DistinctRecipients(items)
    ensures |ItemMap(items)| == |items|
  {
    ItemMapKeys(items);
    DistinctByCount(items);
    assert |ItemMap(items)| == |ItemMap(items).Keys|;
  }

  lemma RotationRecordsOk(a: Account, r: RotationRequest)
    requires MembersOk(a) && RecordsOk(a) && RotationApplies(a, r)
    ensures RecordsOk(Rotated(a, r))
  {
    NewKeyIsFresh(a, r);
    ItemCount(r.envelopes);
    NewRecord(a, r.rotation, OpenedRow(r));
    forall id | id in Rotated(a, r).rotations && id != r.rotation
      ensures Recorded(Rotated(a, r), id, Rotated(a, r).rotations[id])
    {
      EarlierRecordKept(a, r.rotation, OpenedRow(r), id);
    }
  }

  lemma RotatedBindsNone(a: Account, r: RotationRequest)
    requires r.target in a.devices
    ensures NoneBound(a, Rotated(a, r)) && SessionsOf(Rotated(a, r), r.target) == {}
    ensures HasStatus(Rotated(a, r), r.target, Revoked)
  {
  }

  // ---------------------------------------------------------------- steps

  ghost predicate FollowsIn(s: State, t: State, u: UserId) {
    Follows(AccountOf(s.db, u), AccountOf(t.db, u))
  }

  lemma SameAccountFollows(s: State, t: State, u: UserId)
    requires AccountOf(t.db, u) == AccountOf(s.db, u)
    ensures FollowsIn(s, t, u)
  {
  }

  lemma OneAccountFollows(s: State, v: UserId, b: Account, u: UserId)
    requires Follows(AccountOf(s.db, v), b)
    ensures FollowsIn(s, WithAccount(s, v, b), u)
  {
    if u != v { SameAccountFollows(s, WithAccount(s, v, b), u); }
  }

  lemma MembershipFollows(s: State, e: Event, u: UserId)
    requires StateOk(s) && MembershipEvent(e) && MembershipEnabled(s, e) && !Rotates(s, e, u)
    ensures FollowsIn(s, MembershipStep(s, e), u)
  {
    MembershipTables(s, e);
    if u == e.user && u in s.db.accounts {
      MembersOf(s, u);
      BatchFollows(s.db.accounts[u], e);
    } else {
      SameAccountFollows(s, MembershipStep(s, e), u);
    }
  }

  lemma CommitFollows(s: State, p: ProcessId, heard: bool, u: UserId)
    requires StateOk(s) && p in s.uploaders
    ensures FollowsIn(s, CommitStep(s, p, heard), u)
  {
    CommitChangesOne(s, p, heard, u);
    SameRowsFollow(AccountOf(s.db, u), AccountOf(CommitStep(s, p, heard).db, u));
  }

  lemma UploadFollows(s: State, e: Event, u: UserId)
    requires StateOk(s) && UploadEvent(e) && UploadEnabled(s, e)
    ensures FollowsIn(s, UploadStep(s, e), u)
  {
    if e.UploadCommit? {
      CommitFollows(s, e.p, e.heard, u);
    } else {
      UploadKeepsAccounts(s, e);
      SameAccountFollows(s, UploadStep(s, e), u);
    }
  }

  lemma CleanedFollows(db: Database, v: UserId, staged: set<R2Key>, ledger: Ledger, u: UserId)
    requires v in db.accounts
    ensures Follows(AccountOf(db, u), AccountOf(With(db, v, Cleaned(db.accounts[v], staged), ledger), u))
  {
    SameRowsFollow(AccountOf(db, u), AccountOf(With(db, v, Cleaned(db.accounts[v], staged), ledger), u));
  }

  lemma MetadataFollows(db: Database, v: UserId, rid: RotationId, now: nat, u: UserId)
    requires DatabaseOk(db) && v in db.accounts && CleanupStarted(db.accounts[v], rid)
    ensures Follows(AccountOf(db, u), AccountOf(MetadataBatch(db, v, rid, db.accounts[v].rotations[rid].next, now), u))
  {
    var staged := db.accounts[v].rotations[rid].staged;
    MetadataResult(db, v, rid, now);
    CleanedFollows(db, v, staged, FenceStaged(db.ledger, staged, now), u);
  }

  lemma UnlinkFollows(s: State, p: ProcessId, u: UserId)
    requires StateOk(s) && p in s.cleaners && s.cleaners[p].next < |s.cleaners[p].jobs|
    ensures FollowsIn(s, UnlinkStep(s, p), u)
  {
    var c := s.cleaners[p];
    var job := c.jobs[c.next];
    assert CleanerOk(s.db, c);
    if c.user in s.db.accounts {
      assert JobOk(s.db.accounts[c.user], job);
      MetadataFollows(s.db, c.user, job.rotation, c.now, u);
    } else {
      SameAccountFollows(s, UnlinkStep(s, p), u);
    }
  }

  lemma MarkReadyFollows(s: State, v: UserId, sid: SnapshotId, key: VaultKey, now: nat, u: UserId)
    ensures FollowsIn(s, WithAccount(s, v, MarkCleanupReady(AccountOf(s.db, v), sid, key, now)), u)
  {
    var a := AccountOf(s.db, v);
    SameRowsFollow(a, MarkCleanupReady(a, sid, key, now));
    OneAccountFollows(s, v, MarkCleanupReady(a, sid, key, now), u);
  }

  lemma FinishFollows(s: State, p: ProcessId, u: UserId)
    requires p in s.cleaners && s.cleaners[p].next < |s.cleaners[p].jobs|
    ensures FollowsIn(s, FinishStep(s, p), u)
  {
    SameRowsFollow(AccountOf(s.db, u), AccountOf(FinishStep(s, p).db, u));
  }

  lemma FinalizeFollows(db: Database, u: UserId)
    ensures Follows(AccountOf(db, u), AccountOf(FinalizeStorageClean(db), u))
  {
    SameRowsFollow(AccountOf(db, u), AccountOf(FinalizeStorageClean(db), u));
  }

  lemma CleanupFollows(s: State, e: Event, u: UserId)
    requires StateOk(s) && CleanupEvent(e) && CleanupEnabled(s, e)
    ensures FollowsIn(s, CleanupStep(s, e), u)
  {
    match e
    case CleanupMark(p, v, sid, key, now) => MarkReadyFollows(s, v, sid, key, now, u);
    case CleanupList(_, _) => SameAccountFollows(s, CleanupStep(s, e), u);
    case CleanupUnlink(p) => UnlinkFollows(s, p, u);
    case CleanupFinish(p) => FinishFollows(s, p, u);
    case FinalizeRotations => FinalizeFollows(s.db, u);
  }

  lemma EmptiedFollows(a: Account, now: nat)
    ensures Follows(a, Emptied(StartAllCleanups(a, now)))
  {
    SameRowsFollow(a, Emptied(StartAllCleanups(a, now)));
  }

  lemma ResetFollows(db: Database, v: UserId, now: nat, u: UserId)
    requires DatabaseOk(db) && v in db.accounts
    ensures Follows(AccountOf(db, u), AccountOf(ResetBatch(db, v, now), u))
  {
    ResetResult(db, v, now);
    if u == v { EmptiedFollows(db.accounts[v], now); } else { SameRowsFollow(AccountOf(db, u), AccountOf(db, u)); }
  }

  lemma OtherErasureFollows(db: Database, v: UserId, now: nat, u: UserId)
    requires DatabaseOk(db) && v in db.accounts && u != v
    ensures Follows(AccountOf(db, u), AccountOf(EraseBatch(db, v, now), u))
  {
    OtherErasure(db, v, now, u);
    SameRowsFollow(AccountOf(db, u), AccountOf(db, u));
  }

  lemma WipeFollows(s: State, e: Event, u: UserId)
    requires StateOk(s) && WipeEvent(e) && WipeEnabled(s, e) && !Erases(e, u)
    ensures FollowsIn(s, WipeStep(s, e), u)
  {
    WipedAccountExists(s, e);
    if e.ResetSync? { ResetFollows(s.db, e.user, e.now, u); } else { OtherErasureFollows(s.db, e.user, e.now, u); }
  }

  lemma OtherFollows(s: State, e: Event, u: UserId)
    requires Enabled(s, e) && !MembershipEvent(e) && !SessionEvent(e) && !UploadEvent(e) && !CollectEvent(e)
    requires !CleanupEvent(e) && !WipeEvent(e)
    ensures FollowsIn(s, Step(s, e), u)
  {
    SameAccountFollows(s, Step(s, e), u);
  }

  lemma CollectFollows(s: State, e: Event, u: UserId)
    requires CollectEvent(e) && CollectEnabled(s, e)
    ensures FollowsIn(s, CollectStep(s, e), u)
  {
    CollectKeepsAccounts(s, e);
    SameAccountFollows(s, CollectStep(s, e), u);
  }

  /** Only a rotation that takes effect, the account's deletion and its sessions do more. */
  lemma StepFollows(s: State, e: Event, u: UserId)
    requires StateOk(s) && Enabled(s, e) && !Erases(e, u) && !Rotates(s, e, u) && !SessionEvent(e)
    ensures FollowsIn(s, Step(s, e), u)
  {
    if MembershipEvent(e) { MembershipFollows(s, e, u); }
    else if UploadEvent(e) { UploadFollows(s, e, u); }
    else if CollectEvent(e) { CollectFollows(s, e, u); }
    else if CleanupEvent(e) { CleanupFollows(s, e, u); }
    else if WipeEvent(e) { WipeFollows(s, e, u); }
    else { OtherFollows(s, e, u); }
  }

  lemma SessionsExtend(s: State, e: Event, u: UserId)
    requires SessionEvent(e) && SessionEnabled(s, e)
    ensures Extends(AccountOf(s.db, u), AccountOf(SessionStep(s, e).db, u))
  {
    SessionFrame(s, e, u);
    SameRowsFollow(AccountOf(s.db, u), AccountOf(SessionStep(s, e).db, u).(sessions := AccountOf(s.db, u).sessions));
  }

  lemma StepExtends(s: State, e: Event, u: UserId)
    requires StateOk(s) && Enabled(s, e) && !Erases(e, u) && !Rotates(s, e, u)
    ensures Extends(AccountOf(s.db, u), AccountOf(Step(s, e).db, u))
  {
    if SessionEvent(e) { SessionsExtend(s, e, u); } else { StepFollows(s, e, u); }
  }

  lemma ErasureLeavesNothing(s: State, e: Event, u: UserId)
    requires StateOk(s) && WipeEvent(e) && WipeEnabled(s, e) && Erases(e, u)
    ensures AccountOf(WipeStep(s, e).db, u) == NO_ACCOUNT
  {
    WipedAccountExists(s, e);
    EraseResult(s.db, u, e.now);
  }

  lemma StepRecords(s: State, e: Event, u: UserId)
    requires StateOk(s) && Enabled(s, e) && RecordsOk(AccountOf(s.db, u))
    ensures RecordsOk(AccountOf(Step(s, e).db, u))
  {
    if Erases(e, u) {
      ErasureLeavesNothing(s, e, u);
    } else if Rotates(s, e, u) {
      RotationTakesEffect(s, e, u);
      RotationRecordsOk(AccountOf(s.db, u), e.request);
    } else {
      StepExtends(s, e, u);
      ExtendedRecords(AccountOf(s.db, u), AccountOf(Step(s, e).db, u));
    }
  }

  // ---------------------------------------------------------------- late bindings

  /** A registration of the device with this session that has only its binding left to do. */
  predicate BindsFor(s: State, p: ProcessId, u: UserId, x: SessionId, d: DeviceId) {
    && p in s.registrars && s.registrars[p].phase.Confirmed?
    && s.registrars[p].user == u && s.registrars[p].session == x && s.registrars[p].device == d
  }

  /** A device that is revoked gets a session only from a registration that found it
      unrevoked before. */
  lemma SessionBinds(s: State, e: Event, u: UserId, x: SessionId, d: DeviceId)
    requires SessionEvent(e) && SessionEnabled(s, e) && HasStatus(AccountOf(s.db, u), d, Revoked)
    ensures BoundTo(AccountOf(SessionStep(s, e).db, u), x, d) ==>
              BoundTo(AccountOf(s.db, u), x, d) || (e.RegisterBind? && BindsFor(s, e.p, u, x, d))
  {
  }

  lemma StepBindsNone(s: State, e: Event, u: UserId)
    requires StateOk(s) && Enabled(s, e) && !Erases(e, u) && !SessionEvent(e)
    ensures NoneBound(AccountOf(s.db, u), AccountOf(Step(s, e).db, u))
  {
    if Rotates(s, e, u) {
      RotationTakesEffect(s, e, u);
      RotatedBindsNone(AccountOf(s.db, u), e.request);
    } else {
      StepFollows(s, e, u);
    }
  }

  /** Only a sign-in brings a session, and a sign-out ends it. */
  ghost predicate SignsIn(a: Account, b: Account, e: Event, u: UserId, x: SessionId) {
    x in b.sessions ==> (x in a.sessions || e == SignIn(u, x)) && e != SignOut(u, x)
  }

  lemma NoneNew(a: Account, b: Account, e: Event, u: UserId, x: SessionId)
    requires NoneBound(a, b) && !SessionEvent(e)
    ensures SignsIn(a, b, e, u, x)
  {
  }

  lemma SessionSignsIn(s: State, e: Event, u: UserId, x: SessionId)
    requires SessionEvent(e) && SessionEnabled(s, e)
    ensures SignsIn(AccountOf(s.db, u), AccountOf(SessionStep(s, e).db, u), e, u, x)
  {
  }

  lemma ErasureSignsIn(s: State, e: Event, u: UserId, x: SessionId)
    requires StateOk(s) && WipeEvent(e) && WipeEnabled(s, e) && Erases(e, u)
    ensures SignsIn(AccountOf(s.db, u), AccountOf(WipeStep(s, e).db, u), e, u, x)
  {
    ErasureLeavesNothing(s, e, u);
  }

  lemma StepSignsIn(s: State, e: Event, u: UserId, x: SessionId)
    requires StateOk(s) && Enabled(s, e)
    ensures SignsIn(AccountOf(s.db, u), AccountOf(Step(s, e).db, u), e, u, x)
  {
    if SessionEvent(e) {
      StepIsSession(s, e);
      SessionSignsIn(s, e, u, x);
    } else if Erases(e, u) {
      StepIsWipe(s, e);
      ErasureSignsIn(s, e, u, x);
    } else {
      StepBindsNone(s, e, u);
      NoneNew(AccountOf(s.db, u), AccountOf(Step(s, e).db, u), e, u, x);
    }
  }

  lemma StepBinds(s: State, e: Event, u: UserId, x: SessionId, d: DeviceId)
    requires StateOk(s) && Enabled(s, e) && !Erases(e, u) && HasStatus(AccountOf(s.db, u), d, Revoked)
    ensures BoundTo(AccountOf(Step(s, e).db, u), x, d) ==>
              BoundTo(AccountOf(s.db, u), x, d) || (e.RegisterBind? && BindsFor(s, e.p, u, x, d))
  {
    if SessionEvent(e) { SessionBinds(s, e, u, x, d); } else { StepBindsNone(s, e, u); }
  }

  lemma MembershipKeepsRegistrars(s: State, e: Event)
    requires MembershipEvent(e) && MembershipEnabled(s, e) && !e.RegisterDevice?
    ensures MembershipStep(s, e).registrars == s.registrars
  {
  }

  lemma UploadKeepsRegistrars(s: State, e: Event)
    requires UploadEvent(e) && UploadEnabled(s, e)
    ensures UploadStep(s, e).registrars == s.registrars
  {
  }

  lemma CollectKeepsRegistrars(s: State, e: Event)
    requires CollectEvent(e) && CollectEnabled(s, e)
    ensures CollectStep(s, e).registrars == s.registrars
  {
  }

  lemma CleanupKeepsRegistrars(s: State, e: Event)
    requires CleanupEvent(e) && CleanupEnabled(s, e)
    ensures CleanupStep(s, e).registrars == s.registrars
  {
  }

  lemma OthersKeepRegistrars(s: State, e: Event)
    requires Enabled(s, e) && !SessionEvent(e) && !e.RegisterDevice?
    ensures Step(s, e).registrars == s.registrars
  {
    if MembershipEvent(e) {
      StepIsMembership(s, e);
      MembershipKeepsRegistrars(s, e);
    } else if UploadEvent(e) {
      StepIsUpload(s, e);
      UploadKeepsRegistrars(s, e);
    } else if CollectEvent(e) {
      StepIsCollection(s, e);
      CollectKeepsRegistrars(s, e);
    } else if CleanupEvent(e) {
      StepIsCleanup(s, e);
      CleanupKeepsRegistrars(s, e);
    }
  }

  lemma RegisterAddsInserted(s: State, e: Event)
    requires Enabled(s, e) && e.RegisterDevice?
    ensures e.p !in s.registrars
    ensures Step(s, e).registrars == s.registrars[e.p := Step(s, e).registrars[e.p]]
    ensures !Step(s, e).registrars[e.p].phase.Confirmed?
  {
  }

  lemma SessionConfirms(s: State, e: Event, p: ProcessId, u: UserId, x: SessionId, d: DeviceId)
    requires SessionEvent(e) && SessionEnabled(s, e) && BindsFor(SessionStep(s, e), p, u, x, d)
    ensures BindsFor(s, p, u, x, d) || !HasStatus(AccountOf(s.db, u), d, Revoked)
  {
  }

  lemma StepConfirms(s: State, e: Event, p: ProcessId, u: UserId, x: SessionId, d: DeviceId)
    requires Enabled(s, e) && BindsFor(Step(s, e), p, u, x, d)
    ensures BindsFor(s, p, u, x, d) || (SessionEvent(e) && !HasStatus(AccountOf(s.db, u), d, Revoked))
  {
    if SessionEvent(e) { SessionConfirms(s, e, p, u, x, d); }
    else if e.RegisterDevice? { RegisterAddsInserted(s, e); }
    else { OthersKeepRegistrars(s, e); }
  }

  // ---------------------------------------------------------------- runs

  /** In every reachable state each rotation row is complete, with the envelopes and the
      staged keys that it counts. */
  lemma {:induction false} RecordsAreSound(states: seq<State>, events: seq<Event>, i: nat, u: UserId)
    requires Run(states, events) && i < |states|
    ensures RecordsOk(AccountOf(states[i].db, u))
  {
    if i > 0 {
      RecordsAreSound(states, events, i - 1, u);
      Reachable(states, events, i - 1);
      assert MovesAt(states, events, i - 1);
      StepRecords(states[i - 1], events[i - 1], u);
    }
  }

  lemma RunSignsIn(states: seq<State>, events: seq<Event>, m: nat, u: UserId, x: SessionId)
    requires Run(states, events) && m < |events|
    ensures SignsIn(AccountOf(states[m].db, u), AccountOf(states[m + 1].db, u), events[m], u, x)
  {
    Reachable(states, events, m);
    assert MovesAt(states, events, m);
    StepSignsIn(states[m], events[m], u, x);
  }

  /** A session that was signed out is gone until it is signed in again: no step binds it or
      brings it back. */
  lemma {:induction false} SignedOutForGood(states: seq<State>, events: seq<Event>, u: UserId, x: SessionId, i: nat, j: nat)
    requires Run(states, events) && i < j < |states| && events[i] == SignOut(u, x)
    requires forall m :: i < m < j ==> events[m] != SignIn(u, x)
    ensures x !in AccountOf(states[j].db, u).sessions
    decreases j - i
  {
    RunSignsIn(states, events, j - 1, u, x);
    if j > i + 1 { SignedOutForGood(states, events, u, x, i, j - 1); }
  }

  ghost predicate NotRotated(states: seq<State>, events: seq<Event>, u: UserId, i: nat, j: nat)
    requires |states| == |events| + 1
  {
    forall m :: i <= m < j && m < |events| ==> !Rotates(states[m], events[m], u)
  }

  lemma {:induction false} ExtendsUntilRotated(states: seq<State>, events: seq<Event>, u: UserId, i: nat, j: nat)
    requires Run(states, events) && i <= j < |states|
    requires NotErased(events, u, i, j) && NotRotated(states, events, u, i, j)
    ensures Extends(AccountOf(states[i].db, u), AccountOf(states[j].db, u))
    decreases j - i
  {
    if i == j {
      SameRowsFollow(AccountOf(states[i].db, u), AccountOf(states[j].db, u));
    } else {
      ExtendsUntilRotated(states, events, u, i, j - 1);
      Reachable(states, events, j - 1);
      assert MovesAt(states, events, j - 1);
      StepExtends(states[j - 1], events[j - 1], u);
      ExtendsTwice(AccountOf(states[i].db, u), AccountOf(states[j - 1].db, u), AccountOf(states[j].db, u));
    }
  }

  /** The account keeps a record of the request. */
  ghost predicate RecordsRequest(a: Account, r: RotationRequest) {
    r.rotation in a.rotations && SameRequest(a.rotations[r.rotation], r)
  }

  lemma RotatedKeepsRecord(a: Account, q: RotationRequest, r: RotationRequest)
    requires q.target in a.devices && RecordsRequest(a, r) && q.rotation !in a.rotations
    ensures RecordsRequest(Rotated(a, q), r)
  {
  }

  lemma ExtendedKeepsRecord(a: Account, b: Account, r: RotationRequest)
    requires SameRecords(a, b) && RecordsRequest(a, r)
    ensures RecordsRequest(b, r)
  {
  }

  lemma StepKeepsRecord(s: State, e: Event, u: UserId, r: RotationRequest)
    requires StateOk(s) && Enabled(s, e) && !Erases(e, u) && RecordsRequest(AccountOf(s.db, u), r)
    ensures RecordsRequest(AccountOf(Step(s, e).db, u), r)
  {
    if Rotates(s, e, u) {
      RotationTakesEffect(s, e, u);
      RotatedKeepsRecord(AccountOf(s.db, u), e.request, r);
    } else {
      StepExtends(s, e, u);
      ExtendedKeepsRecord(AccountOf(s.db, u), AccountOf(Step(s, e).db, u), r);
    }
  }

  lemma {:induction false} RecordStays(states: seq<State>, events: seq<Event>, u: UserId, i: nat, j: nat, r: RotationRequest)
    requires Run(states, events) && i <= j < |states| && NotErased(events, u, i, j)
    requires RecordsRequest(AccountOf(states[i].db, u), r)
    ensures RecordsRequest(AccountOf(states[j].db, u), r)
    decreases j - i
  {
    if i < j {
      RecordStays(states, events, u, i, j - 1, r);
      Reachable(states, events, j - 1);
      assert MovesAt(states, events, j - 1);
      StepKeepsRecord(states[j - 1], events[j - 1], u, r);
    }
  }

  lemma RotatedRecords(a: Account, r: RotationRequest)
    requires RotationApplies(a, r)
    ensures RecordsRequest(Rotated(a, r), r) && Rotated(a, r).vault == Some(r.next)
    ensures a.vault.Some? && r.next.generation == a.vault.value.generation + 1
  {
  }

  lemma RotationRaisesVault(states: seq<State>, events: seq<Event>, m: nat, u: UserId)
    requires Run(states, events) && m < |events| && Rotates(states[m], events[m], u)
    ensures var a, b, r := AccountOf(states[m].db, u), AccountOf(states[m + 1].db, u), events[m].request;
            && RecordsRequest(b, r) && b.vault == Some(r.next)
            && a.vault.Some? && r.next.generation == a.vault.value.generation + 1
            && HasStatus(b, r.target, Revoked) && SessionsOf(b, r.target) == {}
  {
    Reachable(states, events, m);
    assert MovesAt(states, events, m);
    RotationTakesEffect(states[m], events[m], u);
    RotatedRecords(AccountOf(states[m].db, u), events[m].request);
    RotatedBindsNone(AccountOf(states[m].db, u), events[m].request);
  }

  lemma VaultNeverFalls(states: seq<State>, events: seq<Event>, u: UserId, i: nat, j: nat)
    requires Run(states, events) && i <= j < |states| && NotErased(events, u, i, j)
    ensures VaultAdvances(AccountOf(states[i].db, u), AccountOf(states[j].db, u))
  {
    RevocationIsFinal(states, events, u, i, j);
  }

  lemma VaultRises(states: seq<State>, events: seq<Event>, u: UserId, i: nat, m: nat)
    requires Run(states, events) && i < m < |events| && NotErased(events, u, i, m)
    requires Rotates(states[i], events[i], u) && Rotates(states[m], events[m], u)
    ensures var later := AccountOf(states[m + 1].db, u).vault;
            later.Some? && later.value.generation > events[i].request.next.generation
  {
    RotationRaisesVault(states, events, i, u);
    RotationRaisesVault(states, events, m, u);
    VaultNeverFalls(states, events, u, i + 1, m);
  }

  lemma VaultMovedOn(states: seq<State>, events: seq<Event>, u: UserId, i: nat, m: nat, j: nat)
    requires Run(states, events) && i < m < j < |states| && NotErased(events, u, i, j)
    requires Rotates(states[i], events[i], u) && Rotates(states[m], events[m], u)
    ensures AccountOf(states[j].db, u).vault != Some(events[i].request.next)
  {
    VaultRises(states, events, u, i, m);
    VaultNeverFalls(states, events, u, m + 1, j);
  }

  /** A rotation that took effect is answered from its record, however the run goes on, until
      the account is deleted: as completed exactly as long as no further rotation has taken
      effect and no session is bound to the device it revoked, as an invalid result
      otherwise, and as a mismatch for any other request under its identifier. */
  lemma RepeatedRotation(states: seq<State>, events: seq<Event>, u: UserId, i: nat, j: nat, again: RotationRequest)
    requires Run(states, events) && i < j < |states| && NotErased(events, u, i, j)
    requires Rotates(states[i], events[i], u) && again.rotation == events[i].request.rotation
    ensures var r, a := events[i].request, AccountOf(states[j].db, u);
            Replay(a, again) ==
              if again != r.(r2ObjectCount := again.r2ObjectCount, now := again.now, envelopes := again.envelopes)
                 || |again.envelopes| != |r.envelopes| then ReplayMismatch
              else if NotRotated(states, events, u, i + 1, j) && SessionsOf(a, r.target) == {} then Completed
              else ResultInvalid
  {
    var r := events[i].request;
    RotationRaisesVault(states, events, i, u);
    RecordStays(states, events, u, i + 1, j, r);
    RecordsAreSound(states, events, j, u);
    ReplayDecides(AccountOf(states[j].db, u), again);
    if NotRotated(states, events, u, i + 1, j) {
      ExtendsUntilRotated(states, events, u, i + 1, j);
    } else {
      var m :| i + 1 <= m < j && m < |events| && Rotates(states[m], events[m], u);
      VaultMovedOn(states, events, u, i, m, j);
    }
  }

  /** While a device stays revoked, every registration that will bind a session to it was
      confirmed before. */
  lemma {:induction false} ConfirmedBefore(states: seq<State>, events: seq<Event>, u: UserId, i: nat, j: nat,
                                           p: ProcessId, x: SessionId, d: DeviceId)
    requires Run(states, events) && i <= j < |states| && NotErased(events, u, i, j)
    requires HasStatus(AccountOf(states[i].db, u), d, Revoked) && BindsFor(states[j], p, u, x, d)
    ensures BindsFor(states[i], p, u, x, d)
    decreases j - i
  {
    if i < j {
      RevocationIsFinal(states, events, u, i, j - 1);
      assert MovesAt(states, events, j - 1);
      StepConfirms(states[j - 1], events[j - 1], p, u, x, d);
      ConfirmedBefore(states, events, u, i, j - 1, p, x, d);
    }
  }

  lemma {:induction false} BoundByRegistration(states: seq<State>, events: seq<Event>, u: UserId, i: nat, j: nat,
                                               x: SessionId, d: DeviceId) returns (m: nat, p: ProcessId)
    requires Run(states, events) && i <= j < |states| && NotErased(events, u, i, j)
    requires HasStatus(AccountOf(states[i].db, u), d, Revoked) && !BoundTo(AccountOf(states[i].db, u), x, d)
    requires BoundTo(AccountOf(states[j].db, u), x, d)
    ensures i <= m < j && events[m] == RegisterBind(p) && BindsFor(states[i], p, u, x, d)
    decreases j - i
  {
    if BoundTo(AccountOf(states[j - 1].db, u), x, d) {
      m, p := BoundByRegistration(states, events, u, i, j - 1, x, d);
    } else {
      RevocationIsFinal(states, events, u, i, j - 1);
      Reachable(states, events, j - 1);
      assert MovesAt(states, events, j - 1);
      StepBinds(states[j - 1], events[j - 1], u, x, d);
      m, p := j - 1, events[j - 1].p;
      ConfirmedBefore(states, events, u, i, m, p, x, d);
    }
  }

  lemma RotationConfirmsNone(states: seq<State>, events: seq<Event>, i: nat, p: ProcessId, u: UserId, x: SessionId, d: DeviceId)
    requires Run(states, events) && i < |events| && events[i].RotateVault? && BindsFor(states[i + 1], p, u, x, d)
    ensures BindsFor(states[i], p, u, x, d)
  {
    assert MovesAt(states, events, i);
    StepConfirms(states[i], events[i], p, u, x, d);
  }

  /** Where a session of the revoked device comes from: a registration that had confirmed the
      device before the rotation and bound its session after it. */
  lemma LateBinding(states: seq<State>, events: seq<Event>, u: UserId, i: nat, j: nat, x: SessionId)
    requires Run(states, events) && i < j < |states| && NotErased(events, u, i, j)
    requires Rotates(states[i], events[i], u)
    requires BoundTo(AccountOf(states[j].db, u), x, events[i].request.target)
    ensures exists m, p :: i < m < j && events[m] == RegisterBind(p) && BindsFor(states[i], p, u, x, events[i].request.target)
  {
    var d := events[i].request.target;
    RotationRaisesVault(states, events, i, u);
    assert x !in SessionsOf(AccountOf(states[i + 1].db, u), d);
    var m, p := BoundByRegistration(states, events, u, i + 1, j, x, d);
    RotationConfirmsNone(states, events, i, p, u, x, d);
  }

  /** So a rotation of a device whose registrations have all ended is answered as completed
      exactly until the next rotation takes effect. */
  lemma SettledRotation(states: seq<State>, events: seq<Event>, u: UserId, i: nat, j: nat)
    requires Run(states, events) && i < j < |states| && NotErased(events, u, i, j)
    requires Rotates(states[i], events[i], u)
    requires forall p, x :: !BindsFor(states[i], p, u, x, events[i].request.target)
    ensures Replay(AccountOf(states[j].db, u), events[i].request) ==
            if NotRotated(states, events, u, i + 1, j) then Completed else ResultInvalid
  {
    var r, a := events[i].request, AccountOf(states[j].db, u);
    RepeatedRotation(states, events, u, i, j, r);
    if x :| x in SessionsOf(a, r.target) {
      LateBinding(states, events, u, i, j, x);
    }
  }

  // ---------------------------------------------------------------- a finished cleanup

  predicate StorageCleaned(a: Account, id: RotationId) {
    id in a.rotations && a.rotations[id].storageCleaned
  }

  lemma RotatedKeepsMark(a: Account, r: RotationRequest, id: RotationId)
    requires RotationApplies(a, r) && StorageCleaned(a, id)
    ensures StorageCleaned(Rotated(a, r), id)
  {
  }

  lemma ExtendedKeepsMark(a: Account, b: Account, id: RotationId)
    requires SameRecords(a, b) && StorageCleaned(a, id)
    ensures StorageCleaned(b, id)
  {
  }

  lemma MarkStays(s: State, e: Event, u: UserId, id: RotationId)
    requires StateOk(s) && Enabled(s, e) && !Erases(e, u) && StorageCleaned(AccountOf(s.db, u), id)
    ensures StorageCleaned(AccountOf(Step(s, e).db, u), id)
  {
    if Rotates(s, e, u) {
      RotationTakesEffect(s, e, u);
      RotatedKeepsMark(AccountOf(s.db, u), e.request, id);
    } else {
      StepExtends(s, e, u);
      ExtendedKeepsMark(AccountOf(s.db, u), AccountOf(Step(s, e).db, u), id);
    }
  }

  lemma StepKeepsMark(states: seq<State>, events: seq<Event>, u: UserId, m: nat, id: RotationId)
    requires Run(states, events) && m < |events| && !Erases(events[m], u) && StorageCleaned(AccountOf(states[m].db, u), id)
    ensures StorageCleaned(AccountOf(states[m + 1].db, u), id)
  {
    Reachable(states, events, m);
    assert MovesAt(states, events, m);
    MarkStays(states[m], events[m], u, id);
  }

  /** The mark that ends a cleanup is never taken back. */
  lemma {:induction false} CleanedForGood(states: seq<State>, events: seq<Event>, u: UserId, i: nat, j: nat, id: RotationId)
    requires Run(states, events) && i <= j < |states| && NotErased(events, u, i, j)
    requires StorageCleaned(AccountOf(states[i].db, u), id)
    ensures StorageCleaned(AccountOf(states[j].db, u), id)
    decreases j - i
  {
    if i < j {
      CleanedForGood(states, events, u, i, j - 1, id);
      StepKeepsMark(states, events, u, j - 1, id);
    }
  }
}
