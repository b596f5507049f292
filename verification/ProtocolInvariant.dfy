/** The invariant of the whole service: every reference is backed by its object, under any
    interleaving of the processes. */
module ProtocolInvariant {
  import opened Wrappers
  import opened SyncTables
  import opened VaultMembership
  import opened SyncInvariant
  import opened SnapshotUpload
  import opened UploadInvariant
  import opened StorageRetirement
  import opened RetirementInvariant
  import opened CleanupInvariant
  import opened StorageProtocol

  /** Objects match the digest in their key, and every referenced key has its object. */
  ghost predicate BucketOk(ledger: Ledger, bucket: Bucket) {
    && (forall k :: k in bucket ==> bucket[k] == k.payloadHash)
    && (forall k :: IsReferenced(ledger, k) ==> k in bucket)
  }

  /** Between its write and its commit an upload's object stays, unless its key was fenced. */
  predicate UploaderOk(ledger: Ledger, bucket: Bucket, w: Uploader) {
    && Parsed(w.up)
    && w.up.key in ledger
    && (w.phase.Stored? && IsReserved(ledger, w.up.key) ==> w.up.key in bucket)
  }

  /** A collector only ever erases keys that can no longer be referenced. */
  predicate CollectorOk(ledger: Ledger, c: Collector) {
    && c.next <= |c.listed|
    && (forall i :: 0 <= i < |c.listed| ==> IsRetired(ledger, c.listed[i]))
  }

  ghost predicate JobOk(a: Account, job: Job) {
    CleanupStarted(a, job.rotation) && a.rotations[job.rotation].next == job.key
  }

  ghost predicate StagedRetired(a: Account, ledger: Ledger, rid: RotationId) {
    rid in a.rotations ==> forall k :: k in a.rotations[rid].staged ==> IsRetired(ledger, k)
  }

  ghost predicate CleanerOk(db: Database, c: Cleaner) {
    && c.next <= |c.jobs|
    && (c.user in db.accounts || c.user in db.erased)
    && (c.user in db.accounts ==>
          && (forall i :: 0 <= i < |c.jobs| ==> JobOk(db.accounts[c.user], c.jobs[i]))
          && (c.phase.Collecting? && c.next < |c.jobs| ==>
                StagedRetired(db.accounts[c.user], db.ledger, c.jobs[c.next].rotation)))
  }

  predicate ReaderOk(ledger: Ledger, r: Reader) {
    && r.key == SnapshotKey(r.key.region, r.user, r.token.snapshotId, r.token.payloadHash)
    && r.key in ledger && !IsReserved(ledger, r.key)
    && (r.phase.Missing? || r.phase.PayloadMissing? ==> IsRetired(ledger, r.key))
  }

  ghost predicate UploadersOk(s: State) {
    forall p :: p in s.uploaders ==> UploaderOk(s.db.ledger, s.bucket, s.uploaders[p])
  }

  ghost predicate CollectorsOk(s: State) {
    forall p :: p in s.collectors ==> CollectorOk(s.db.ledger, s.collectors[p])
  }

  ghost predicate CleanersOk(s: State) {
    forall p :: p in s.cleaners ==> CleanerOk(s.db, s.cleaners[p])
  }

  ghost predicate ReadersOk(s: State) {
    forall p :: p in s.readers ==> ReaderOk(s.db.ledger, s.readers[p])
  }

  ghost predicate StateOk(s: State) {
    && DatabaseOk(s.db)
    && BucketOk(s.db.ledger, s.bucket)
    && UploadersOk(s)
    && CollectorsOk(s)
    && CleanersOk(s)
    && ReadersOk(s)
  }

  // ---------------------------------------------------------------- what every step leaves standing

  /** A cleanup that has started stays started, with the same keys. */
  ghost predicate CleanupsStay(a: Account, b: Account) {
    forall rid | CleanupStarted(a, rid) ::
      && CleanupStarted(b, rid)
      && b.rotations[rid].next == a.rotations[rid].next
      && b.rotations[rid].staged == a.rotations[rid].staged
  }

  ghost predicate CleanupsContinue(before: Database, after: Database) {
    && before.erased <= after.erased
    && (forall u :: u in before.accounts ==>
          if u in after.accounts then CleanupsStay(before.accounts[u], after.accounts[u]) else u in after.erased)
  }

  /** Objects disappear only under retired keys. */
  ghost predicate BucketKeeps(ledger: Ledger, before: Bucket, after: Bucket) {
    forall k :: k in before && k !in after ==> IsRetired(ledger, k)
  }

  ghost predicate Advances(before: Database, after: Database) {
    Evolves(before.ledger, after.ledger) && CleanupsContinue(before, after)
  }

  lemma UploadersFollow(s: State, ledger: Ledger, bucket: Bucket)
    requires UploadersOk(s) && Evolves(s.db.ledger, ledger) && BucketKeeps(s.db.ledger, s.bucket, bucket)
    ensures forall p :: p in s.uploaders ==> UploaderOk(ledger, bucket, s.uploaders[p])
  {
  }

  lemma CleanersFollow(s: State, db: Database)
    requires CleanersOk(s) && Advances(s.db, db)
    requires s.db.accounts.Keys !! s.db.erased && db.accounts.Keys !! db.erased
    ensures forall p :: p in s.cleaners ==> CleanerOk(db, s.cleaners[p])
  {
  }

  lemma RetiredFollow(s: State, ledger: Ledger)
    requires CollectorsOk(s) && ReadersOk(s) && Evolves(s.db.ledger, ledger)
    ensures forall p :: p in s.collectors ==> CollectorOk(ledger, s.collectors[p])
    ensures forall p :: p in s.readers ==> ReaderOk(ledger, s.readers[p])
  {
  }

  /** Every process survives a change of the tables and of R2 that keeps to the frame. */
  lemma OthersFollow(s: State, db: Database, bucket: Bucket)
    requires StateOk(s) && DatabaseOk(db) && BucketOk(db.ledger, bucket)
    requires Advances(s.db, db) && BucketKeeps(s.db.ledger, s.bucket, bucket)
    ensures StateOk(s.(db := db, bucket := bucket))
  {
    UploadersFollow(s, db.ledger, bucket);
    CleanersFollow(s, db);
    RetiredFollow(s, db.ledger);
  }

  /** The common case: R2 is untouched and no key becomes referenced. */
  lemma TablesFollow(s: State, db: Database)
    requires StateOk(s) && DatabaseOk(db) && Advances(s.db, db)
    requires forall k :: IsReferenced(db.ledger, k) ==> IsReferenced(s.db.ledger, k)
    ensures StateOk(s.(db := db))
  {
    OthersFollow(s, db, s.bucket);
  }

  /** What is proved of each step: the invariant again, and the frame. */
  ghost predicate Keeps(s: State, t: State) {
    StateOk(t) && Advances(s.db, t.db) && BucketKeeps(s.db.ledger, s.bucket, t.bucket)
  }

  // ---------------------------------------------------------------- membership steps

  /** What registering, bootstrapping, approving and revoking a pending device leave alone. */
  ghost predicate MembersMove(a: Account, b: Account) {
    MembersOk(b) && SameStorage(a, b) && b.rotations == a.rotations && VaultAdvances(a, b)
  }

  lemma SameRotationsAdvance(db: Database, u: UserId, b: Account)
    requires b.rotations == AccountOf(db, u).rotations
    ensures Advances(db, SetAccount(db, u, b))
  {
  }

  lemma MemberStep(s: State, u: UserId, b: Account)
    requires StateOk(s) && u !in s.db.erased && MembersMove(AccountOf(s.db, u), b)
    ensures Keeps(s, WithAccount(s, u, b))
  {
    MembershipKeepsDatabase(s.db, u, b);
    SameRotationsAdvance(s.db, u, b);
    TablesFollow(s, SetAccount(s.db, u, b));
  }

  lemma MembersOf(s: State, u: UserId)
    requires StateOk(s)
    ensures MembersOk(AccountOf(s.db, u))
    ensures u in s.db.accounts ==> u !in s.db.erased
  {
  }

  lemma RegisterMoves(a: Account, x: SessionId, d: DeviceId, idem: IdempotencyKey)
    requires MembersOk(a)
    ensures MembersMove(a, Register(a, x, d, idem))
  {
    RegisterKeepsMembers(a, x, d, idem);
  }

  lemma BootstrapMoves(a: Account, d: DeviceId, keyId: KeyId, wrapped: Wrapped, idem: IdempotencyKey)
    requires MembersOk(a)
    ensures MembersMove(a, Bootstrap(a, d, keyId, wrapped, idem))
  {
    BootstrapResult(a, d, keyId, wrapped, idem);
    BootstrapKeepsMembers(a, d, keyId, wrapped, idem);
  }

  lemma ApproveKeepsStorage(a: Account, d: DeviceId, approver: DeviceId, key: VaultKey, wrapped: Wrapped, idem: IdempotencyKey)
    ensures var b := Approve(a, d, approver, key, wrapped, idem);
            SameStorage(a, b) && b.rotations == a.rotations && b.vault == a.vault
  {
    var a1 := InsertEnvelope(a, d, Pending, approver, key, wrapped, idem);
    assert a1 == a.(envelopes := a1.envelopes);
    var a2 := InsertApproval(a1, d, approver, key, wrapped, idem);
    assert a2 == a1.(approvals := a2.approvals);
    var a3 := ApproveDevice(a2, d, approver, key, wrapped, idem);
    assert a3 == a2.(devices := a3.devices);
  }

  lemma ApproveMoves(a: Account, d: DeviceId, approver: DeviceId, key: VaultKey, wrapped: Wrapped, idem: IdempotencyKey)
    requires MembersOk(a)
    ensures MembersMove(a, Approve(a, d, approver, key, wrapped, idem))
  {
    ApproveKeepsMembers(a, d, approver, key, wrapped, idem);
    ApproveKeepsStorage(a, d, approver, key, wrapped, idem);
  }

  lemma RevokeMoves(a: Account, idem: IdempotencyKey, target: DeviceId, approver: DeviceId, hash: Hash)
    requires MembersOk(a) && RevokePending(a, idem, target, approver, hash).Done?
    ensures MembersMove(a, RevokePending(a, idem, target, approver, hash).state)
  {
    RevokePendingKeepsMembers(a, idem, target, approver, hash);
  }

  lemma NothingMoves(s: State)
    requires StateOk(s)
    ensures Keeps(s, s)
  {
  }

  lemma SetSame(s: State, u: UserId)
    requires u in s.db.accounts
    ensures WithAccount(s, u, AccountOf(s.db, u)) == s
  {
  }

  lemma MembersMoveBy(a: Account, e: Event)
    requires MembersOk(a) && MembershipEvent(e) && !e.RotateVault?
    ensures MembersMove(a, MembersAfter(a, e))
  {
    match e
    case RegisterDevice(_, _, x, d, idem) => RegisterMoves(a, x, d, idem);
    case BootstrapVault(_, d, keyId, wrapped, idem) => BootstrapMoves(a, d, keyId, wrapped, idem);
    case ApprovePending(_, d, approver, key, wrapped, idem) => ApproveMoves(a, d, approver, key, wrapped, idem);
    case RevokePendingDevice(_, idem, d, approver, hash) =>
      if RevokePending(a, idem, d, approver, hash).Done? { RevokeMoves(a, idem, d, approver, hash); }
  }

  /** No batch writes a row for an account that does not exist. */
  lemma NobodyChanges(e: Event)
    requires MembershipEvent(e)
    ensures MembersAfter(NO_ACCOUNT, e) == NO_ACCOUNT
  {
    if e.RotateVault? { assert InsertRotation(NO_ACCOUNT, e.request).Aborted?; }
  }

  lemma SettledPresent(s: State, u: UserId, a: Account)
    requires u in s.db.accounts
    ensures Settled(s, u, a) == WithAccount(s, u, a)
  {
    SetSame(s, u);
  }

  lemma SettledSame(s: State, u: UserId)
    ensures Settled(s, u, AccountOf(s.db, u)) == s
    ensures u in s.db.accounts ==> WithAccount(s, u, AccountOf(s.db, u)) == s
  {
    if u in s.db.accounts { SetSame(s, u); }
  }

  /** The tables after a batch. */
  lemma MembershipTables(s: State, e: Event)
    requires MembershipEvent(e) && MembershipEnabled(s, e)
    ensures var t := if e.user in s.db.accounts then WithAccount(s, e.user, MembersAfter(s.db.accounts[e.user], e)) else s;
            MembershipStep(s, e) == t.(registrars := MembershipStep(s, e).registrars)
  {
    var a := AccountOf(s.db, e.user);
    if e.user in s.db.accounts { SettledPresent(s, e.user, MembersAfter(a, e)); } else { NobodyChanges(e); }
  }

  lemma RegistrarsDoNotMatter(s: State, t: State, registrars: map<ProcessId, Registrar>)
    requires Keeps(s, t)
    ensures Keeps(s, t.(registrars := registrars))
  {
  }

  /** A change of one account moves no reference and keeps its started cleanups. */
  lemma OneAccountAdvances(db: Database, u: UserId, b: Account, ledger: Ledger)
    requires u in db.accounts && CleanupsStay(db.accounts[u], b) && Evolves(db.ledger, ledger)
    ensures Advances(db, With(db, u, b, ledger))
  {
  }

  lemma SameLedgerAdvances(db: Database, u: UserId, b: Account)
    requires u in db.accounts && CleanupsStay(db.accounts[u], b)
    ensures Advances(db, SetAccount(db, u, b))
  {
  }

  lemma RotatedStays(a: Account, r: RotationRequest)
    requires r.target in a.devices && r.rotation !in a.rotations
    ensures CleanupsStay(a, Rotated(a, r))
  {
    RotatedKeepsStorage(a, r);
    NewRotationStays(a, Rotated(a, r), r.rotation);
  }

  lemma NewRotationStays(a: Account, b: Account, id: RotationId)
    requires id !in a.rotations && id in b.rotations && b.rotations == a.rotations[id := b.rotations[id]]
    ensures CleanupsStay(a, b)
  {
  }

  lemma RotatedMoves(s: State, u: UserId, r: RotationRequest)
    requires StateOk(s) && u in s.db.accounts && RotationApplies(AccountOf(s.db, u), r)
    ensures Keeps(s, WithAccount(s, u, Rotated(AccountOf(s.db, u), r)))
  {
    RotationKeepsDatabase(s.db, u, r);
    RotatedStays(AccountOf(s.db, u), r);
    SameLedgerAdvances(s.db, u, Rotated(AccountOf(s.db, u), r));
    TablesFollow(s, SetAccount(s.db, u, Rotated(AccountOf(s.db, u), r)));
  }

  lemma RotatedOrSame(a: Account, r: RotationRequest)
    requires MembersOk(a)
    ensures RotatedAccount(a, r) == if RotationApplies(a, r) then Rotated(a, r) else a
  {
    RotationAllOrNothing(a, r);
  }

  lemma RotateKeeps(s: State, u: UserId, r: RotationRequest)
    requires StateOk(s) && u in s.db.accounts
    ensures Keeps(s, WithAccount(s, u, RotatedAccount(AccountOf(s.db, u), r)))
  {
    MembersOf(s, u);
    RotatedOrSame(AccountOf(s.db, u), r);
    if RotationApplies(AccountOf(s.db, u), r) {
      RotatedMoves(s, u, r);
    } else {
      SetSame(s, u);
      NothingMoves(s);
    }
  }

  lemma MembersKeep(s: State, e: Event)
    requires StateOk(s) && MembershipEvent(e) && e.user in s.db.accounts
    ensures Keeps(s, WithAccount(s, e.user, MembersAfter(s.db.accounts[e.user], e)))
  {
    if e.RotateVault? {
      RotateKeeps(s, e.user, e.request);
    } else {
      MembersOf(s, e.user);
      MembersMoveBy(s.db.accounts[e.user], e);
      MemberStep(s, e.user, MembersAfter(s.db.accounts[e.user], e));
    }
  }

  lemma MembershipStepKeeps(s: State, e: Event)
    requires StateOk(s) && MembershipEvent(e) && MembershipEnabled(s, e)
    ensures Keeps(s, MembershipStep(s, e))
  {
    var registrars := MembershipStep(s, e).registrars;
    MembershipTables(s, e);
    if e.user in s.db.accounts {
      MembersKeep(s, e);
      RegistrarsDoNotMatter(s, WithAccount(s, e.user, MembersAfter(s.db.accounts[e.user], e)), registrars);
    } else {
      NothingMoves(s);
      RegistrarsDoNotMatter(s, s, registrars);
    }
  }

  // ---------------------------------------------------------------- session steps

  lemma OneAccount(s: State, u: UserId, a: Account)
    ensures AccountOf(WithAccount(s, u, a).db, u) == a
  {
  }

  lemma BindTables(s: State, u: UserId, b: Account, sessions: map<SessionId, Option<DeviceId>>)
    requires b == AccountOf(s.db, u).(sessions := sessions) && (u !in s.db.accounts ==> b == NO_ACCOUNT)
    ensures Settled(s, u, b) == if u in s.db.accounts then WithAccount(s, u, b) else s
    ensures AccountOf(Settled(s, u, b).db, u) == b
  {
    if u in s.db.accounts { SettledPresent(s, u, b); }
  }

  ghost function SessionUser(s: State, e: Event): UserId
    requires SessionEvent(e) && SessionEnabled(s, e)
  {
    if e.RegisterConfirm? || e.RegisterBind? then s.registrars[e.p].user else e.user
  }

  /** A session step touches the sessions of one account and registrations in flight, no more. */
  lemma SessionTables(s: State, e: Event)
    requires SessionEvent(e) && SessionEnabled(s, e)
    ensures var u, t := SessionUser(s, e), SessionStep(s, e);
            var a := AccountOf(s.db, u).(sessions := AccountOf(t.db, u).sessions);
            t == (if u in s.db.accounts || e.CreateUser? then WithAccount(s, u, a) else s).(registrars := t.registrars)
  {
    match e
    case CreateUser(u) => OneAccount(s, u, NO_ACCOUNT);
    case SignIn(u, x) => OneAccount(s, u, SignedIn(AccountOf(s.db, u), x));
    case SignOut(u, x) => OneAccount(s, u, SignedOut(AccountOf(s.db, u), x));
    case RebindSession(u, x, d) => BindTables(s, u, Rebind(AccountOf(s.db, u), x, d), Rebind(AccountOf(s.db, u), x, d).sessions);
    case RegisterConfirm(p) => SettledSame(s, s.registrars[p].user);
    case RegisterBind(p) =>
      var r := s.registrars[p];
      var b := BindSession(AccountOf(s.db, r.user), r.session, r.device);
      BindTables(s, r.user, b, b.sessions);
  }

  lemma SessionsMove(a: Account, sessions: map<SessionId, Option<DeviceId>>)
    requires MembersOk(a)
    ensures MembersMove(a, a.(sessions := sessions))
  {
    assert forall d, st :: HasStatus(a.(sessions := sessions), d, st) <==> HasStatus(a, d, st);
  }

  lemma SessionStepKeeps(s: State, e: Event)
    requires StateOk(s) && SessionEvent(e) && SessionEnabled(s, e)
    ensures Keeps(s, SessionStep(s, e))
  {
    var u, t := SessionUser(s, e), SessionStep(s, e);
    var sessions := AccountOf(t.db, u).sessions;
    SessionTables(s, e);
    MembersOf(s, u);
    if u in s.db.accounts || e.CreateUser? {
      SessionsMove(AccountOf(s.db, u), sessions);
      MemberStep(s, u, AccountOf(s.db, u).(sessions := sessions));
      RegistrarsDoNotMatter(s, WithAccount(s, u, AccountOf(s.db, u).(sessions := sessions)), t.registrars);
    } else {
      NothingMoves(s);
      RegistrarsDoNotMatter(s, s, t.registrars);
    }
  }

  // ---------------------------------------------------------------- upload steps

  lemma ClaimOnlyReserves(db: Database, up: Upload, token: Token, now: nat)
    ensures var after := ClaimWrite(db, up, token, now);
            && after.accounts == db.accounts && after.erased == db.erased
            && (forall k :: IsReferenced(after.ledger, k) ==> IsReferenced(db.ledger, k))
            && (ClaimGranted(db, up, now) ==> up.key in after.ledger)
  {
  }

  lemma ClaimMoves(s: State, up: Upload, token: Token, now: nat)
    requires StateOk(s) && Parsed(up)
    ensures Keeps(s, s.(db := ClaimWrite(s.db, up, token, now)))
  {
    ClaimKeepsDatabase(s.db, up, token, now);
    ClaimOnlyReserves(s.db, up, token, now);
    TablesFollow(s, ClaimWrite(s.db, up, token, now));
  }

  lemma UploaderAdded(s: State, p: ProcessId, w: Uploader)
    requires StateOk(s) && UploaderOk(s.db.ledger, s.bucket, w)
    ensures StateOk(s.(uploaders := s.uploaders[p := w]))
  {
  }

  lemma ClaimStepKeeps(s: State, p: ProcessId, up: Upload, token: Token, now: nat)
    requires StateOk(s) && Parsed(up) && ClaimGranted(s.db, up, now)
    ensures Keeps(s, ClaimStep(s, p, up, token, now))
  {
    ClaimMoves(s, up, token, now);
    ClaimOnlyReserves(s.db, up, token, now);
    UploaderAdded(s.(db := ClaimWrite(s.db, up, token, now)), p, Uploader(up, token, now, Claimed));
  }

  lemma PutStepKeeps(s: State, p: ProcessId)
    requires StateOk(s) && p in s.uploaders
    ensures Keeps(s, PutStep(s, p))
  {
  }

  lemma StoreStepKeeps(s: State, p: ProcessId)
    requires StateOk(s) && p in s.uploaders
    ensures Keeps(s, SetUploader(PutStep(s, p), p, Stored))
  {
  }

  /** Any phase but `Stored` promises nothing about R2. */
  lemma PhaseKeeps(s: State, p: ProcessId, phase: UploadPhase)
    requires StateOk(s) && p in s.uploaders && !phase.Stored?
    ensures StateOk(SetUploader(s, p, phase))
  {
  }

  lemma NewReferences(db: Database, up: Upload, now: nat, k: R2Key)
    requires up.key in db.ledger && IsReferenced(Committed(db, up, now).ledger, k)
    ensures k == up.key || IsReferenced(db.ledger, k)
  {
  }

  lemma CommitContinues(db: Database, up: Upload, now: nat)
    requires up.key in db.ledger
    ensures CleanupsContinue(db, Committed(db, up, now))
  {
  }

  lemma CommitAdvances(db: Database, up: Upload, token: Token, now: nat)
    requires DatabaseOk(db) && Parsed(up) && CommitApplies(db, up, token, now)
    ensures Advances(db, Committed(db, up, now))
  {
    AccountOfOk(db, up.user);
    CommittedLedgerEvolves(AccountOf(db, up.user), db.ledger, up, now);
    CommitContinues(db, up, now);
  }

  /** The committed key was reserved, so the object that its upload stored is still there. */
  lemma CommitMoves(s: State, p: ProcessId)
    requires StateOk(s) && p in s.uploaders && s.uploaders[p].phase.Stored?
    requires var w := s.uploaders[p]; CommitApplies(s.db, w.up, w.token, w.now)
    ensures var w := s.uploaders[p]; Keeps(s, s.(db := Committed(s.db, w.up, w.now)))
  {
    var w := s.uploaders[p];
    assert UploaderOk(s.db.ledger, s.bucket, w);
    CommitKeepsDatabase(s.db, w.up, w.token, w.now);
    CommitAdvances(s.db, w.up, w.token, w.now);
    var db := Committed(s.db, w.up, w.now);
    forall k | IsReferenced(db.ledger, k)
      ensures k in s.bucket
    {
      NewReferences(s.db, w.up, w.now, k);
    }
    OthersFollow(s, db, s.bucket);
  }

  lemma RefusedCommitKeeps(s: State, p: ProcessId, heard: bool, result: BatchResult)
    requires StateOk(s) && p in s.uploaders
    requires result.RolledBack? || result == Ran(s.db, [0, 0, 0, 0])
    ensures Keeps(s, AfterBatch(s, p, heard, result))
  {
  }

  lemma MadeCommitKeeps(s: State, p: ProcessId, heard: bool, db: Database)
    requires p in s.uploaders && Keeps(s, s.(db := db))
    ensures Keeps(s, AfterBatch(s, p, heard, Ran(db, [1, 1, 1, 1])))
  {
  }

  lemma CommitResult(s: State, p: ProcessId)
    requires StateOk(s) && p in s.uploaders
    ensures var w := s.uploaders[p];
            CommitBatch(s.db, w.up, w.token, w.now) ==
              if CommitApplies(s.db, w.up, w.token, w.now) then Ran(Committed(s.db, w.up, w.now), [1, 1, 1, 1])
              else if LeaseHeld(s.db, w.up, w.token, w.now) then RolledBack(CommitLate(s.db, w.up, w.token, w.now))
              else Ran(s.db, [0, 0, 0, 0])
  {
    var w := s.uploaders[p];
    assert UploaderOk(s.db.ledger, s.bucket, w);
    CommitAllOrNothing(s.db, w.up, w.token, w.now);
  }

  lemma CommitStepKeeps(s: State, p: ProcessId, heard: bool)
    requires StateOk(s) && p in s.uploaders && s.uploaders[p].phase.Stored?
    ensures Keeps(s, CommitStep(s, p, heard))
  {
    var w := s.uploaders[p];
    CommitResult(s, p);
    if CommitApplies(s.db, w.up, w.token, w.now) {
      CommitMoves(s, p);
      MadeCommitKeeps(s, p, heard, Committed(s.db, w.up, w.now));
    } else {
      RefusedCommitKeeps(s, p, heard, CommitBatch(s.db, w.up, w.token, w.now));
    }
  }

  lemma SameAccountsAdvance(db: Database, after: Database)
    requires after.accounts == db.accounts && after.erased == db.erased && Evolves(db.ledger, after.ledger)
    ensures Advances(db, after)
  {
  }

  lemma AbandonReserves(db: Database, up: Upload, token: Token, now: nat)
    ensures var after := Abandon(db, up, token, now);
            && after.accounts == db.accounts && after.erased == db.erased
            && (forall k :: IsReferenced(after.ledger, k) ==> IsReferenced(db.ledger, k))
  {
  }

  lemma AbandonMoves(s: State, up: Upload, token: Token, now: nat)
    requires StateOk(s)
    ensures Keeps(s, s.(db := Abandon(s.db, up, token, now)))
  {
    AbandonKeepsDatabase(s.db, up, token, now);
    AbandonReserves(s.db, up, token, now);
    SameAccountsAdvance(s.db, Abandon(s.db, up, token, now));
    TablesFollow(s, Abandon(s.db, up, token, now));
  }

  lemma AbandonStepKeeps(s: State, p: ProcessId)
    requires StateOk(s) && p in s.uploaders
    ensures Keeps(s, AbandonStep(s, p))
  {
    var w := s.uploaders[p];
    AbandonMoves(s, w.up, w.token, w.now);
    PhaseKeeps(s.(db := Abandon(s.db, w.up, w.token, w.now)), p, Answered);
  }

  // ---------------------------------------------------------------- collection steps

  lemma RetiringMoves(s: State, ledger: Ledger)
    requires StateOk(s) && OnlyRetires(s.db.ledger, ledger)
    ensures Keeps(s, s.(db := s.db.(ledger := ledger)))
  {
    RetiringKeepsDatabase(s.db, ledger);
    SameAccountsAdvance(s.db, s.db.(ledger := ledger));
    TablesFollow(s, s.db.(ledger := ledger));
  }

  lemma CollectorAdded(s: State, p: ProcessId, c: Collector)
    requires StateOk(s) && CollectorOk(s.db.ledger, c)
    ensures StateOk(SetCollector(s, p, c))
  {
  }

  lemma CollectClaimKeeps(s: State, p: ProcessId, token: Token, now: nat, scope: Scope, chosen: set<R2Key>)
    requires StateOk(s) && forall k :: k in chosen ==> Collectable(s.db, k, now, scope)
    ensures Keeps(s, CollectClaimStep(s, p, token, now, chosen))
  {
    forall k | k in chosen
      ensures k in s.db.ledger && Due(s.db.ledger[k], now)
    {
      assert Collectable(s.db, k, now, scope);
    }
    var ledger := ClaimGarbage(s.db.ledger, chosen, token, now);
    ClaimGarbageRetires(s.db.ledger, chosen, token, now, now);
    RetiringMoves(s, ledger);
    CollectorAdded(s.(db := s.db.(ledger := ledger)), p, Collector(token, now, Claiming, [], 0));
  }

  lemma CollectListKeeps(s: State, p: ProcessId, listed: seq<R2Key>)
    requires StateOk(s) && p in s.collectors
    requires forall i :: 0 <= i < |listed| ==> ClaimedBy(s.db.ledger, listed[i], s.collectors[p].token)
    ensures Keeps(s, CollectListStep(s, p, listed))
  {
  }

  lemma CollectEraseKeeps(s: State, p: ProcessId)
    requires StateOk(s) && p in s.collectors && s.collectors[p].next < |s.collectors[p].listed|
    ensures Keeps(s, CollectEraseStep(s, p))
  {
  }

  /** An erase may reach R2 long after the call that issued it was given up. */
  lemma EraseLandsKeeps(s: State, p: ProcessId, i: nat)
    requires StateOk(s) && p in s.collectors && i < |s.collectors[p].listed|
    ensures Keeps(s, s.(bucket := Forget(s.bucket, s.collectors[p].listed[i])))
  {
  }

  lemma MarkMoves(s: State, p: ProcessId)
    requires StateOk(s) && p in s.collectors && s.collectors[p].next < |s.collectors[p].listed|
    ensures var c := s.collectors[p];
            var t := s.(db := s.db.(ledger := MarkDeleted(s.db.ledger, c.listed[c.next], c.token, c.now)));
            Keeps(s, t) && CollectorOk(t.db.ledger, AtNext(c.(next := c.next + 1)))
  {
    var c := s.collectors[p];
    var k := c.listed[c.next];
    MarkDeletedRetires(s.db.ledger, k, c.token, c.now);
    RetiringMoves(s, MarkDeleted(s.db.ledger, k, c.token, c.now));
    var t := s.(db := s.db.(ledger := MarkDeleted(s.db.ledger, k, c.token, c.now)));
    assert CollectorOk(t.db.ledger, t.collectors[p]);
  }

  lemma CollectMarkKeeps(s: State, p: ProcessId)
    requires StateOk(s) && p in s.collectors && s.collectors[p].next < |s.collectors[p].listed|
    ensures Keeps(s, CollectMarkStep(s, p))
  {
    var c := s.collectors[p];
    var k := c.listed[c.next];
    assert CollectorOk(s.db.ledger, c);
    if MayMarkDeleted(s.db.ledger, k, c.token, c.now) {
      MarkMoves(s, p);
      CollectorAdded(s.(db := s.db.(ledger := MarkDeleted(s.db.ledger, k, c.token, c.now))), p, AtNext(c.(next := c.next + 1)));
    } else {
      NothingMoves(s);
      CollectorAdded(s, p, c.(phase := Stopped));
    }
  }

  // ---------------------------------------------------------------- cleanup steps

  lemma CleanerAdded(s: State, p: ProcessId, c: Cleaner)
    requires StateOk(s) && CleanerOk(s.db, c)
    ensures StateOk(SetCleaner(s, p, c))
  {
  }

  lemma MarkReadyStays(a: Account, sid: SnapshotId, key: VaultKey, now: nat)
    ensures CleanupsStay(a, MarkCleanupReady(a, sid, key, now))
  {
  }

  lemma MarkReadyMoves(s: State, u: UserId, sid: SnapshotId, key: VaultKey, now: nat)
    requires StateOk(s) && u in s.db.accounts
    ensures Keeps(s, WithAccount(s, u, MarkCleanupReady(s.db.accounts[u], sid, key, now)))
  {
    MarkReadyKeepsDatabase(s.db, u, sid, key, now);
    MarkReadyStays(s.db.accounts[u], sid, key, now);
    SameLedgerAdvances(s.db, u, MarkCleanupReady(s.db.accounts[u], sid, key, now));
    TablesFollow(s, SetAccount(s.db, u, MarkCleanupReady(s.db.accounts[u], sid, key, now)));
  }

  lemma CleanupMarkKeeps(s: State, p: ProcessId, u: UserId, sid: SnapshotId, key: VaultKey, now: nat)
    requires StateOk(s) && u in s.db.accounts
    ensures Keeps(s, CleanupMarkStep(s, p, u, sid, key, now))
  {
    MarkReadyMoves(s, u, sid, key, now);
    CleanerAdded(WithAccount(s, u, MarkCleanupReady(s.db.accounts[u], sid, key, now)), p, Cleaner(u, now, Listing, [], 0));
  }

  lemma CleanupListKeeps(s: State, p: ProcessId, jobs: seq<Job>)
    requires StateOk(s) && p in s.cleaners && ListsReady(AccountOf(s.db, s.cleaners[p].user), jobs)
    ensures Keeps(s, CleanupListStep(s, p, jobs))
  {
  }

  /** After the metadata batch no staged key can be referenced any more. */
  lemma UnlinkedIsRetired(u: UserId, a: Account, rid: RotationId, ledger: Ledger, now: nat)
    requires StagingOk(u, a, ledger) && rid in a.rotations
    ensures forall k :: k in a.rotations[rid].staged ==> IsRetired(FenceStaged(ledger, a.rotations[rid].staged, now), k)
  {
  }

  lemma MetadataAdvances(db: Database, u: UserId, rid: RotationId, now: nat)
    requires u in db.accounts && CleanupStarted(db.accounts[u], rid)
    requires var a := db.accounts[u]; Evolves(db.ledger, FenceStaged(db.ledger, a.rotations[rid].staged, now))
    ensures var a := db.accounts[u];
            var ledger := FenceStaged(db.ledger, a.rotations[rid].staged, now);
            && Advances(db, With(db, u, Cleaned(a, a.rotations[rid].staged), ledger))
            && (forall k :: IsReferenced(ledger, k) ==> IsReferenced(db.ledger, k))
  {
  }

  lemma MetadataMoves(s: State, u: UserId, rid: RotationId, now: nat)
    requires StateOk(s) && u in s.db.accounts && CleanupStarted(s.db.accounts[u], rid)
    ensures Keeps(s, s.(db := MetadataBatch(s.db, u, rid, s.db.accounts[u].rotations[rid].next, now)))
  {
    MetadataKeepsDatabase(s.db, u, rid, now);
    MetadataResult(s.db, u, rid, now);
    MetadataAdvances(s.db, u, rid, now);
    TablesFollow(s, MetadataBatch(s.db, u, rid, s.db.accounts[u].rotations[rid].next, now));
  }

  lemma MetadataRetires(db: Database, u: UserId, rid: RotationId, now: nat)
    requires DatabaseOk(db) && u in db.accounts && CleanupStarted(db.accounts[u], rid)
    ensures var after := MetadataBatch(db, u, rid, db.accounts[u].rotations[rid].next, now);
            && u in after.accounts
            && after.accounts[u].rotations == db.accounts[u].rotations
            && StagedRetired(after.accounts[u], after.ledger, rid)
  {
    MetadataResult(db, u, rid, now);
    assert AccountOk(u, db.accounts[u], db.ledger);
    UnlinkedIsRetired(u, db.accounts[u], rid, db.ledger, now);
  }

  lemma UnlinkMoves(s: State, c: Cleaner)
    requires StateOk(s) && CleanerOk(s.db, c) && c.next < |c.jobs| && c.user in s.db.accounts
    ensures var job := c.jobs[c.next];
            var t := s.(db := MetadataBatch(s.db, c.user, job.rotation, job.key, c.now));
            Keeps(s, t) && CleanerOk(t.db, c.(phase := Collecting))
  {
    var job := c.jobs[c.next];
    assert JobOk(s.db.accounts[c.user], job);
    MetadataMoves(s, c.user, job.rotation, c.now);
    MetadataRetires(s.db, c.user, job.rotation, c.now);
    UnlinkedCleaner(s.db, MetadataBatch(s.db, c.user, job.rotation, job.key, c.now), c);
  }

  lemma UnlinkedCleaner(db: Database, after: Database, c: Cleaner)
    requires CleanerOk(db, c) && c.next < |c.jobs| && c.user in db.accounts && c.user in after.accounts
    requires after.accounts[c.user].rotations == db.accounts[c.user].rotations
    requires StagedRetired(after.accounts[c.user], after.ledger, c.jobs[c.next].rotation)
    ensures CleanerOk(after, c.(phase := Collecting))
  {
    forall i | 0 <= i < |c.jobs|
      ensures JobOk(after.accounts[c.user], c.jobs[i])
    {
      assert JobOk(db.accounts[c.user], c.jobs[i]);
    }
  }

  lemma CleanupUnlinkKeeps(s: State, p: ProcessId)
    requires StateOk(s) && p in s.cleaners && s.cleaners[p].next < |s.cleaners[p].jobs|
    ensures Keeps(s, UnlinkStep(s, p))
  {
    var c := s.cleaners[p];
    var job := c.jobs[c.next];
    assert CleanerOk(s.db, c);
    if c.user in s.db.accounts {
      UnlinkMoves(s, c);
      CleanerAdded(s.(db := MetadataBatch(s.db, c.user, job.rotation, job.key, c.now)), p, c.(phase := Collecting));
    } else {
      NothingMoves(s);
      CleanerAdded(s, p, c.(phase := Collecting));
    }
  }

  lemma MarkCleanAdvances(db: Database, u: UserId, rid: RotationId, now: nat)
    ensures Advances(db, MarkStorageClean(db, u, rid, now)) && MarkStorageClean(db, u, rid, now).ledger == db.ledger
  {
  }

  lemma MarkCleanMoves(s: State, u: UserId, rid: RotationId, now: nat)
    requires StateOk(s)
    ensures Keeps(s, s.(db := MarkStorageClean(s.db, u, rid, now)))
  {
    MarkCleanKeepsDatabase(s.db, u, rid, now);
    MarkCleanAdvances(s.db, u, rid, now);
    TablesFollow(s, MarkStorageClean(s.db, u, rid, now));
  }

  lemma CleanupFinishKeeps(s: State, p: ProcessId)
    requires StateOk(s) && p in s.cleaners && s.cleaners[p].next < |s.cleaners[p].jobs|
    ensures Keeps(s, FinishStep(s, p))
  {
    var c := s.cleaners[p];
    MarkCleanMoves(s, c.user, c.jobs[c.next].rotation, c.now);
    var t := s.(db := MarkedTables(s.db, c));
    assert CleanerOk(t.db, t.cleaners[p]);
    MarkedCleanerOk(t.db, c, FinishAborts(s.db, c));
    CleanerAdded(t, p, AfterMark(c, FinishAborts(s.db, c)));
  }

  lemma MarkedCleanerOk(db: Database, c: Cleaner, aborted: bool)
    requires CleanerOk(db, c) && c.next < |c.jobs|
    ensures CleanerOk(db, AfterMark(c, aborted))
  {
  }

  lemma FinalizeAdvances(db: Database)
    ensures Advances(db, FinalizeStorageClean(db)) && FinalizeStorageClean(db).ledger == db.ledger
  {
  }

  lemma FinalizeKeepsState(s: State)
    requires StateOk(s)
    ensures Keeps(s, s.(db := FinalizeStorageClean(s.db)))
  {
    FinalizeKeepsDatabase(s.db);
    FinalizeAdvances(s.db);
    TablesFollow(s, FinalizeStorageClean(s.db));
  }

  // ---------------------------------------------------------------- reset, deletion, inventory

  lemma ResetStays(a: Account, now: nat)
    ensures CleanupsStay(a, Emptied(StartAllCleanups(a, now)))
  {
  }

  lemma FencedReferences(ledger: Ledger, u: UserId, now: nat)
    ensures forall k :: IsReferenced(FenceUser(ledger, u, now), k) ==> IsReferenced(ledger, k)
  {
  }

  lemma ResetAdvances(db: Database, u: UserId, now: nat)
    requires DatabaseOk(db) && u in db.accounts
    ensures Advances(db, ResetBatch(db, u, now))
    ensures forall k :: IsReferenced(ResetBatch(db, u, now).ledger, k) ==> IsReferenced(db.ledger, k)
  {
    ResetKeepsDatabase(db, u, now);
    ResetResult(db, u, now);
    ResetStays(db.accounts[u], now);
    OneAccountAdvances(db, u, Emptied(StartAllCleanups(db.accounts[u], now)), FenceUser(db.ledger, u, now));
    FencedReferences(db.ledger, u, now);
  }

  lemma ResetKeepsState(s: State, u: UserId, now: nat)
    requires StateOk(s) && u in s.db.accounts
    ensures Keeps(s, s.(db := ResetBatch(s.db, u, now)))
  {
    ResetKeepsDatabase(s.db, u, now);
    ResetAdvances(s.db, u, now);
    TablesFollow(s, ResetBatch(s.db, u, now));
  }

  lemma DroppedAccountAdvances(db: Database, u: UserId, after: Database)
    requires after.accounts == db.accounts - {u} && after.erased == db.erased + {u} && Evolves(db.ledger, after.ledger)
    ensures Advances(db, after)
  {
  }

  lemma ErasedReferences(ledger: Ledger, u: UserId, now: nat)
    ensures forall k :: IsReferenced(Anonymize(FenceUser(ledger, u, now), u), k) ==> IsReferenced(ledger, k)
  {
  }

  lemma EraseAdvances(db: Database, u: UserId, now: nat)
    requires DatabaseOk(db) && u in db.accounts
    ensures Advances(db, EraseBatch(db, u, now))
    ensures forall k :: IsReferenced(EraseBatch(db, u, now).ledger, k) ==> IsReferenced(db.ledger, k)
  {
    EraseKeepsDatabase(db, u, now);
    EraseResult(db, u, now);
    DroppedAccountAdvances(db, u, EraseBatch(db, u, now));
    ErasedReferences(db.ledger, u, now);
  }

  lemma EraseKeepsState(s: State, u: UserId, now: nat)
    requires StateOk(s) && u in s.db.accounts
    ensures Keeps(s, s.(db := EraseBatch(s.db, u, now)))
  {
    EraseKeepsDatabase(s.db, u, now);
    EraseAdvances(s.db, u, now);
    TablesFollow(s, EraseBatch(s.db, u, now));
  }

  lemma InventoryKeepsState(s: State, found: set<R2Key>, now: nat)
    requires StateOk(s)
    ensures Keeps(s, s.(db := Rearm(s.db, found, now)))
  {
    RearmRetires(s.db, found, now);
    RetiringMoves(s, Rearm(s.db, found, now).ledger);
  }

  // ---------------------------------------------------------------- download steps

  lemma ReaderAdded(s: State, p: ProcessId, r: Reader)
    requires StateOk(s) && ReaderOk(s.db.ledger, r)
    ensures StateOk(SetReader(s, p, r))
  {
  }

  lemma ResolveKeeps(s: State, p: ProcessId, u: UserId, token: HeadRef)
    requires StateOk(s) && HeadServes(AccountOf(s.db, u), token)
    ensures Keeps(s, ResolveStep(s, p, u, token))
  {
    NothingMoves(s);
    var a := AccountOf(s.db, u);
    AccountOfOk(s.db, u);
    assert RowShape(u, token.snapshotId, a.snapshots[token.snapshotId]);
    assert ReferencedFor(s.db.ledger, a.snapshots[token.snapshotId].key, u);
    ReaderAdded(s, p, Reader(u, token, a.snapshots[token.snapshotId].key, Resolved));
  }

  /** An object is missing only after its key was retired. */
  lemma GetKeeps(s: State, p: ProcessId)
    requires StateOk(s) && p in s.readers
    ensures Keeps(s, GetStep(s, p))
  {
  }

  lemma RereadKeeps(s: State, p: ProcessId)
    requires StateOk(s) && p in s.readers && s.readers[p].phase.Missing?
    ensures Keeps(s, RereadStep(s, p))
  {
  }
}
