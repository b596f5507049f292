/** The sync service as a state machine: every D1 statement or batch is one step, every R2
    call another, and any number of uploads, collections, cleanups and downloads are in
    flight.  A process that stalls or crashes just takes no further step, and a first batch
    that is rolled back is no step at all. */
module StorageProtocol {
  import opened Wrappers
  import opened SyncTables
  import opened VaultMembership
  import opened SyncInvariant
  import opened SnapshotUpload
  import opened StorageRetirement

  type ProcessId = nat

  datatype UploadPhase = Claimed | Stored | Failed | Answered
  datatype Uploader = Uploader(up: Upload, token: Token, now: nat, phase: UploadPhase)

  datatype CollectPhase = Claiming | ToErase | ToMark | Stopped
  datatype Collector = Collector(token: Token, now: nat, phase: CollectPhase, listed: seq<R2Key>, next: nat)

  datatype Job = Job(rotation: RotationId, key: VaultKey)
  /** `Halted` is a cleanup that ended with an error. */
  datatype CleanPhase = Listing | Unlinking | Collecting | Halted
  datatype Cleaner = Cleaner(user: UserId, now: nat, phase: CleanPhase, jobs: seq<Job>, next: nat)

  datatype ReadPhase = Resolved | Missing | Served | TokenStale | PayloadMissing
  datatype Reader = Reader(user: UserId, token: HeadRef, key: R2Key, phase: ReadPhase)

  /** A registration: its batch has run, or it has also read its device back and will bind
      its session next. */
  datatype RegisterPhase = Inserted | Confirmed | Ended
  datatype Registrar = Registrar(user: UserId, session: SessionId, device: DeviceId, idem: IdempotencyKey, phase: RegisterPhase)

  datatype State = State(
    db: Database,
    bucket: Bucket,
    uploaders: map<ProcessId, Uploader>,
    collectors: map<ProcessId, Collector>,
    cleaners: map<ProcessId, Cleaner>,
    readers: map<ProcessId, Reader>,
    registrars: map<ProcessId, Registrar>)

  datatype Event =
    | CreateUser(user: UserId)
    | SignIn(user: UserId, session: SessionId)
    | SignOut(user: UserId, session: SessionId)
    | RebindSession(user: UserId, session: SessionId, device: DeviceId)
    | RegisterDevice(p: ProcessId, user: UserId, session: SessionId, device: DeviceId, idem: IdempotencyKey)
    | RegisterConfirm(p: ProcessId)
    | RegisterBind(p: ProcessId)
    | BootstrapVault(user: UserId, device: DeviceId, keyId: KeyId, wrapped: Wrapped, idem: IdempotencyKey)
    | ApprovePending(user: UserId, device: DeviceId, approver: DeviceId, key: VaultKey, wrapped: Wrapped, idem: IdempotencyKey)
    | RevokePendingDevice(user: UserId, idem: IdempotencyKey, device: DeviceId, approver: DeviceId, requestHash: Hash)
    | RotateVault(user: UserId, request: RotationRequest)
    | UploadClaim(p: ProcessId, up: Upload, token: Token, now: nat)
    | UploadStored(p: ProcessId)
    | UploadLands(p: ProcessId)
    | UploadFails(p: ProcessId)
    | UploadCommit(p: ProcessId, heard: bool)
    | UploadAbandon(p: ProcessId)
    | CollectClaim(p: ProcessId, token: Token, now: nat, scope: Scope, chosen: set<R2Key>)
    | CollectList(p: ProcessId, listed: seq<R2Key>)
    | CollectErase(p: ProcessId)
    | CollectEraseLands(p: ProcessId, index: nat)
    | CollectMark(p: ProcessId)
    | CleanupMark(p: ProcessId, user: UserId, snapshotId: SnapshotId, key: VaultKey, now: nat)
    | CleanupList(p: ProcessId, jobs: seq<Job>)
    | CleanupUnlink(p: ProcessId)
    | CleanupFinish(p: ProcessId)
    | FinalizeRotations
    | ResetSync(user: UserId, device: DeviceId, now: nat)
    | DeleteAccount(user: UserId, device: DeviceId, now: nat)
    | TakeInventory(found: set<R2Key>, now: nat)
    | DownloadResolve(p: ProcessId, user: UserId, head: HeadRef)
    | DownloadGet(p: ProcessId)
    | DownloadReread(p: ProcessId)

  // ---------------------------------------------------------------- membership steps

  function WithAccount(s: State, u: UserId, a: Account): State {
    s.(db := SetAccount(s.db, u, a))
  }

  function Settled(s: State, u: UserId, a: Account): State {
    s.(db := Settle(s.db, u, a))
  }

  function SetRegistrar(s: State, p: ProcessId, r: Registrar): State {
    s.(registrars := s.registrars[p := r])
  }

  function RegistrarOf(a: Account, u: UserId, x: SessionId, d: DeviceId, idem: IdempotencyKey): Registrar {
    Registrar(u, x, d, idem, if Registers(a, x, d, idem) then Inserted else Ended)
  }

  ghost function RotatedAccount(a: Account, r: RotationRequest): Account {
    match RotationBatch(a, r)
    case Aborted => a
    case Done(b, _) => b
  }

  function RevokedAccount(a: Account, idem: IdempotencyKey, target: DeviceId, approver: DeviceId, hash: Hash): Account {
    match RevokePending(a, idem, target, approver, hash)
    case Aborted => a
    case Done(b, _) => b
  }

  // ---------------------------------------------------------------- session steps

  function SignedIn(a: Account, x: SessionId): Account {
    a.(sessions := a.sessions[x := None])
  }

  function SignedOut(a: Account, x: SessionId): Account {
    a.(sessions := a.sessions - {x})
  }

  /** The registered row is found again and not revoked. */
  predicate Confirms(a: Account, r: Registrar) {
    && r.device in a.devices
    && a.devices[r.device].idempotencyKey == r.idem
    && !a.devices[r.device].status.Revoked?
  }

  function ConfirmStep(s: State, p: ProcessId): State
    requires p in s.registrars
  {
    var r := s.registrars[p];
    SetRegistrar(s, p, r.(phase := if Confirms(AccountOf(s.db, r.user), r) then Confirmed else Ended))
  }

  function BindStep(s: State, p: ProcessId): State
    requires p in s.registrars
  {
    var r := s.registrars[p];
    SetRegistrar(Settled(s, r.user, BindSession(AccountOf(s.db, r.user), r.session, r.device)), p, r.(phase := Ended))
  }

  // ---------------------------------------------------------------- upload steps

  function SetUploader(s: State, p: ProcessId, phase: UploadPhase): State
    requires p in s.uploaders
  {
    s.(uploaders := s.uploaders[p := s.uploaders[p].(phase := phase)])
  }

  function ClaimStep(s: State, p: ProcessId, up: Upload, token: Token, now: nat): State {
    s.(db := ClaimWrite(s.db, up, token, now), uploaders := s.uploaders[p := Uploader(up, token, now, Claimed)])
  }

  /** The object is written with the digest its key ends in; the digest is checked first. */
  function PutStep(s: State, p: ProcessId): State
    requires p in s.uploaders
  {
    s.(bucket := s.bucket[s.uploaders[p].up.key := s.uploaders[p].up.payloadHash])
  }

  predicate FourChanges(counts: seq<nat>) {
    counts == [1, 1, 1, 1]
  }

  /** `heard` is false when the batch took effect but its answer was lost. */
  function AfterBatch(s: State, p: ProcessId, heard: bool, result: BatchResult): State
    requires p in s.uploaders
  {
    match result
    case RolledBack(_) => SetUploader(s, p, Failed)
    case Ran(d, counts) =>
      SetUploader(s.(db := d), p, if heard && FourChanges(counts) then Answered else Failed)
  }

  ghost function CommitStep(s: State, p: ProcessId, heard: bool): State
    requires p in s.uploaders
  {
    var w := s.uploaders[p];
    AfterBatch(s, p, heard, CommitBatch(s.db, w.up, w.token, w.now))
  }

  ghost function AbandonStep(s: State, p: ProcessId): State
    requires p in s.uploaders
  {
    var w := s.uploaders[p];
    SetUploader(s.(db := Abandon(s.db, w.up, w.token, w.now)), p, Answered)
  }

  // ---------------------------------------------------------------- collection steps

  function SetCollector(s: State, p: ProcessId, c: Collector): State {
    s.(collectors := s.collectors[p := c])
  }

  function CollectClaimStep(s: State, p: ProcessId, token: Token, now: nat, chosen: set<R2Key>): State {
    SetCollector(s.(db := s.db.(ledger := ClaimGarbage(s.db.ledger, chosen, token, now))), p,
                 Collector(token, now, Claiming, [], 0))
  }

  function Forget(b: Bucket, k: R2Key): Bucket {
    b - {k}
  }

  function AtNext(c: Collector): Collector {
    c.(phase := if c.next < |c.listed| then ToErase else Stopped)
  }

  function CollectListStep(s: State, p: ProcessId, listed: seq<R2Key>): State
    requires p in s.collectors
  {
    SetCollector(s, p, AtNext(s.collectors[p].(listed := listed, next := 0)))
  }

  function CollectEraseStep(s: State, p: ProcessId): State
    requires p in s.collectors && s.collectors[p].next < |s.collectors[p].listed|
  {
    var c := s.collectors[p];
    SetCollector(s.(bucket := Forget(s.bucket, c.listed[c.next])), p, c.(phase := ToMark))
  }

  /** An unchanged row means another collector took it over, or the row is younger than this
      collection: this one gives up. */
  function CollectMarkStep(s: State, p: ProcessId): State
    requires p in s.collectors && s.collectors[p].next < |s.collectors[p].listed|
  {
    var c := s.collectors[p];
    var k := c.listed[c.next];
    if MayMarkDeleted(s.db.ledger, k, c.token, c.now)
    then SetCollector(s.(db := s.db.(ledger := MarkDeleted(s.db.ledger, k, c.token, c.now))), p, AtNext(c.(next := c.next + 1)))
    else SetCollector(s, p, c.(phase := Stopped))
  }

  // ---------------------------------------------------------------- cleanup steps

  function SetCleaner(s: State, p: ProcessId, c: Cleaner): State {
    s.(cleaners := s.cleaners[p := c])
  }

  /** The jobs listed are the rotations ready for cleanup, with their new keys. */
  predicate ListsReady(a: Account, jobs: seq<Job>) {
    && (forall i :: 0 <= i < |jobs| ==>
          ReadyForCleanup(a, jobs[i].rotation) && jobs[i].key == a.rotations[jobs[i].rotation].next)
    && (forall rid :: rid in a.rotations && ReadyForCleanup(a, rid) ==> exists i :: 0 <= i < |jobs| && jobs[i].rotation == rid)
  }

  function CleanupMarkStep(s: State, p: ProcessId, u: UserId, sid: SnapshotId, key: VaultKey, now: nat): State {
    SetCleaner(WithAccount(s, u, MarkCleanupReady(AccountOf(s.db, u), sid, key, now)), p, Cleaner(u, now, Listing, [], 0))
  }

  function CleanupListStep(s: State, p: ProcessId, jobs: seq<Job>): State
    requires p in s.cleaners
  {
    SetCleaner(s, p, s.cleaners[p].(phase := Unlinking, jobs := jobs, next := 0))
  }

  ghost function UnlinkStep(s: State, p: ProcessId): State
    requires p in s.cleaners && s.cleaners[p].next < |s.cleaners[p].jobs|
  {
    var c := s.cleaners[p];
    var job := c.jobs[c.next];
    SetCleaner(s.(db := MetadataBatch(s.db, c.user, job.rotation, job.key, c.now)), p, c.(phase := Collecting))
  }

  ghost predicate FinishAborts(db: Database, c: Cleaner)
    requires c.next < |c.jobs|
  {
    MarkAborts(db, AccountOf(db, c.user), c.jobs[c.next].rotation, c.now)
  }

  ghost function MarkedTables(db: Database, c: Cleaner): Database
    requires c.next < |c.jobs|
  {
    MarkStorageClean(db, c.user, c.jobs[c.next].rotation, c.now)
  }

  function AfterMark(c: Cleaner, aborted: bool): Cleaner {
    if aborted then c.(phase := Halted) else c.(phase := Unlinking, next := c.next + 1)
  }

  ghost function FinishStep(s: State, p: ProcessId): State
    requires p in s.cleaners && s.cleaners[p].next < |s.cleaners[p].jobs|
  {
    var c := s.cleaners[p];
    SetCleaner(s.(db := MarkedTables(s.db, c)), p, AfterMark(c, FinishAborts(s.db, c)))
  }

  // ---------------------------------------------------------------- download steps

  function SetReader(s: State, p: ProcessId, r: Reader): State {
    s.(readers := s.readers[p := r])
  }

  predicate HeadServes(a: Account, token: HeadRef) {
    && a.head == Some(token)
    && token.snapshotId in a.snapshots && token.snapshotId in a.encryption
    && a.snapshots[token.snapshotId].revision == token.revision
    && a.snapshots[token.snapshotId].payloadHash == token.payloadHash
  }

  function ResolveStep(s: State, p: ProcessId, u: UserId, token: HeadRef): State
    requires HeadServes(AccountOf(s.db, u), token)
  {
    SetReader(s, p, Reader(u, token, AccountOf(s.db, u).snapshots[token.snapshotId].key, Resolved))
  }

  function GetStep(s: State, p: ProcessId): State
    requires p in s.readers
  {
    var r := s.readers[p];
    SetReader(s, p, r.(phase :=
      if r.key in s.bucket && s.bucket[r.key] == r.token.payloadHash then Served else Missing))
  }

  /** After a missing payload the head is read again: only an unchanged head is an error. */
  function RereadStep(s: State, p: ProcessId): State
    requires p in s.readers
  {
    var r := s.readers[p];
    SetReader(s, p, r.(phase := if HeadServes(AccountOf(s.db, r.user), r.token) then PayloadMissing else TokenStale))
  }

  // ---------------------------------------------------------------- the machine

  predicate MembershipEvent(e: Event) {
    e.RegisterDevice? || e.BootstrapVault? || e.ApprovePending? || e.RevokePendingDevice? || e.RotateVault?
  }

  predicate SessionEvent(e: Event) {
    e.CreateUser? || e.SignIn? || e.SignOut? || e.RebindSession? || e.RegisterConfirm? || e.RegisterBind?
  }

  predicate UploadEvent(e: Event) {
    e.UploadClaim? || e.UploadStored? || e.UploadLands? || e.UploadFails? || e.UploadCommit? || e.UploadAbandon?
  }

  predicate CollectEvent(e: Event) {
    e.CollectClaim? || e.CollectList? || e.CollectErase? || e.CollectEraseLands? || e.CollectMark?
  }

  predicate WipeEvent(e: Event) {
    e.ResetSync? || e.DeleteAccount?
  }

  predicate DownloadEvent(e: Event) {
    e.DownloadResolve? || e.DownloadGet? || e.DownloadReread?
  }

  predicate CleanupEvent(e: Event) {
    e.CleanupMark? || e.CleanupList? || e.CleanupUnlink? || e.CleanupFinish? || e.FinalizeRotations?
  }

  /** A request may reach its batch for any account; the batch checks its own guards. */
  predicate MembershipEnabled(s: State, e: Event)
    requires MembershipEvent(e)
  {
    e.RegisterDevice? ==> e.p !in s.registrars
  }

  /** A new user has an identifier that was never issued before. */
  predicate SessionEnabled(s: State, e: Event)
    requires SessionEvent(e)
  {
    match e
    case CreateUser(u) => u !in s.db.accounts && u !in s.db.erased
    case SignIn(u, x) => u in s.db.accounts && x !in AccountOf(s.db, u).sessions
    case SignOut(u, _) => u in s.db.accounts
    case RebindSession(_, _, _) => true
    case RegisterConfirm(p) => p in s.registrars && s.registrars[p].phase.Inserted?
    case RegisterBind(p) => p in s.registrars && s.registrars[p].phase.Confirmed?
  }

  predicate UploadEnabled(s: State, e: Event)
    requires UploadEvent(e)
  {
    match e
    case UploadClaim(p, up, _, now) => p !in s.uploaders && Parsed(up) && ClaimGranted(s.db, up, now)
    case UploadStored(p) => p in s.uploaders && s.uploaders[p].phase.Claimed?
    case UploadLands(p) => p in s.uploaders
    case UploadFails(p) => p in s.uploaders && s.uploaders[p].phase.Claimed?
    case UploadCommit(p, _) => p in s.uploaders && s.uploaders[p].phase.Stored?
    case UploadAbandon(p) => p in s.uploaders && s.uploaders[p].phase.Failed?
  }

  ghost predicate CollectEnabled(s: State, e: Event)
    requires CollectEvent(e)
  {
    match e
    case CollectClaim(p, _, now, scope, chosen) =>
      p !in s.collectors && forall k :: k in chosen ==> Collectable(s.db, k, now, scope)
    case CollectList(p, listed) =>
      p in s.collectors && s.collectors[p].phase.Claiming?
      && (forall i :: 0 <= i < |listed| ==> ClaimedBy(s.db.ledger, listed[i], s.collectors[p].token))
    case CollectErase(p) =>
      p in s.collectors && s.collectors[p].phase.ToErase? && s.collectors[p].next < |s.collectors[p].listed|
    case CollectEraseLands(p, i) => p in s.collectors && i < |s.collectors[p].listed|
    case CollectMark(p) =>
      p in s.collectors && s.collectors[p].phase.ToMark? && s.collectors[p].next < |s.collectors[p].listed|
  }

  predicate CleanupEnabled(s: State, e: Event)
    requires CleanupEvent(e)
  {
    match e
    case CleanupMark(p, u, sid, key, now) =>
      p !in s.cleaners && u in s.db.accounts && ReadyInTime(AccountOf(s.db, u), sid, key, now)
    case CleanupList(p, jobs) =>
      p in s.cleaners && s.cleaners[p].phase.Listing? && ListsReady(AccountOf(s.db, s.cleaners[p].user), jobs)
    case CleanupUnlink(p) =>
      p in s.cleaners && s.cleaners[p].phase.Unlinking? && s.cleaners[p].next < |s.cleaners[p].jobs|
    case CleanupFinish(p) =>
      p in s.cleaners && s.cleaners[p].phase.Collecting? && s.cleaners[p].next < |s.cleaners[p].jobs|
    case FinalizeRotations => true
  }

  /** The two destructive batches run behind a gate that an approved device has to pass. */
  predicate WipeEnabled(s: State, e: Event)
    requires WipeEvent(e)
  {
    && HasStatus(AccountOf(s.db, e.user), e.device, Approved)
    && (e.ResetSync? ==> ResetInTime(AccountOf(s.db, e.user), e.now))
  }

  predicate DownloadEnabled(s: State, e: Event)
    requires DownloadEvent(e)
  {
    match e
    case DownloadResolve(p, u, token) => p !in s.readers && HeadServes(AccountOf(s.db, u), token)
    case DownloadGet(p) => p in s.readers && s.readers[p].phase.Resolved?
    case DownloadReread(p) => p in s.readers && s.readers[p].phase.Missing?
  }

  ghost predicate Enabled(s: State, e: Event) {
    if MembershipEvent(e) then MembershipEnabled(s, e)
    else if SessionEvent(e) then SessionEnabled(s, e)
    else if UploadEvent(e) then UploadEnabled(s, e)
    else if CollectEvent(e) then CollectEnabled(s, e)
    else if CleanupEvent(e) then CleanupEnabled(s, e)
    else if WipeEvent(e) then WipeEnabled(s, e)
    else if DownloadEvent(e) then DownloadEnabled(s, e)
    else e.TakeInventory? && PageInTime(s.db, e.found, e.now)
  }

  ghost function MembersAfter(a: Account, e: Event): Account
    requires MembershipEvent(e)
  {
    match e
    case RegisterDevice(_, _, x, d, idem) => Register(a, x, d, idem)
    case BootstrapVault(_, d, keyId, wrapped, idem) => Bootstrap(a, d, keyId, wrapped, idem)
    case ApprovePending(_, d, approver, key, wrapped, idem) => Approve(a, d, approver, key, wrapped, idem)
    case RevokePendingDevice(_, idem, d, approver, hash) => RevokedAccount(a, idem, d, approver, hash)
    case RotateVault(_, r) => RotatedAccount(a, r)
  }

  ghost function MembershipStep(s: State, e: Event): State
    requires MembershipEvent(e) && MembershipEnabled(s, e)
  {
    var a := AccountOf(s.db, e.user);
    var t := Settled(s, e.user, MembersAfter(a, e));
    if e.RegisterDevice? then SetRegistrar(t, e.p, RegistrarOf(a, e.user, e.session, e.device, e.idem)) else t
  }

  function SessionStep(s: State, e: Event): State
    requires SessionEvent(e) && SessionEnabled(s, e)
  {
    match e
    case CreateUser(u) => WithAccount(s, u, NO_ACCOUNT)
    case SignIn(u, x) => WithAccount(s, u, SignedIn(AccountOf(s.db, u), x))
    case SignOut(u, x) => WithAccount(s, u, SignedOut(AccountOf(s.db, u), x))
    case RebindSession(u, x, d) => Settled(s, u, Rebind(AccountOf(s.db, u), x, d))
    case RegisterConfirm(p) => ConfirmStep(s, p)
    case RegisterBind(p) => BindStep(s, p)
  }

  ghost function UploadStep(s: State, e: Event): State
    requires UploadEvent(e) && UploadEnabled(s, e)
  {
    match e
    case UploadClaim(p, up, token, now) => ClaimStep(s, p, up, token, now)
    case UploadStored(p) => SetUploader(PutStep(s, p), p, Stored)
    case UploadLands(p) => PutStep(s, p)
    case UploadFails(p) => SetUploader(s, p, Failed)
    case UploadCommit(p, heard) => CommitStep(s, p, heard)
    case UploadAbandon(p) => AbandonStep(s, p)
  }

  ghost function CollectStep(s: State, e: Event): State
    requires CollectEvent(e) && CollectEnabled(s, e)
  {
    match e
    case CollectClaim(p, token, now, _, chosen) => CollectClaimStep(s, p, token, now, chosen)
    case CollectList(p, listed) => CollectListStep(s, p, listed)
    case CollectErase(p) => CollectEraseStep(s, p)
    case CollectEraseLands(p, i) => s.(bucket := Forget(s.bucket, s.collectors[p].listed[i]))
    case CollectMark(p) => CollectMarkStep(s, p)
  }

  ghost function CleanupStep(s: State, e: Event): State
    requires CleanupEvent(e) && CleanupEnabled(s, e)
  {
    match e
    case CleanupMark(p, u, sid, key, now) => CleanupMarkStep(s, p, u, sid, key, now)
    case CleanupList(p, jobs) => CleanupListStep(s, p, jobs)
    case CleanupUnlink(p) => UnlinkStep(s, p)
    case CleanupFinish(p) => FinishStep(s, p)
    case FinalizeRotations => s.(db := FinalizeStorageClean(s.db))
  }

  function WipeStep(s: State, e: Event): State
    requires WipeEvent(e)
  {
    s.(db := if e.ResetSync? then ResetBatch(s.db, e.user, e.now) else EraseBatch(s.db, e.user, e.now))
  }

  function DownloadStep(s: State, e: Event): State
    requires DownloadEvent(e) && DownloadEnabled(s, e)
  {
    match e
    case DownloadResolve(p, u, token) => ResolveStep(s, p, u, token)
    case DownloadGet(p) => GetStep(s, p)
    case DownloadReread(p) => RereadStep(s, p)
  }

  ghost function Step(s: State, e: Event): State
    requires Enabled(s, e)
  {
    if MembershipEvent(e) then MembershipStep(s, e)
    else if SessionEvent(e) then SessionStep(s, e)
    else if UploadEvent(e) then UploadStep(s, e)
    else if CollectEvent(e) then CollectStep(s, e)
    else if CleanupEvent(e) then CleanupStep(s, e)
    else if WipeEvent(e) then WipeStep(s, e)
    else if DownloadEvent(e) then DownloadStep(s, e)
    else s.(db := Rearm(s.db, e.found, e.now))
  }

  lemma StepIsMembership(s: State, e: Event)
    requires Enabled(s, e) && MembershipEvent(e)
    ensures MembershipEnabled(s, e) && Step(s, e) == MembershipStep(s, e)
  {
  }

  lemma StepIsSession(s: State, e: Event)
    requires Enabled(s, e) && SessionEvent(e)
    ensures SessionEnabled(s, e) && Step(s, e) == SessionStep(s, e)
  {
  }

  lemma StepIsUpload(s: State, e: Event)
    requires Enabled(s, e) && UploadEvent(e)
    ensures UploadEnabled(s, e) && Step(s, e) == UploadStep(s, e)
  {
  }

  lemma StepIsCollection(s: State, e: Event)
    requires Enabled(s, e) && CollectEvent(e)
    ensures CollectEnabled(s, e) && Step(s, e) == CollectStep(s, e)
  {
  }

  lemma StepIsCleanup(s: State, e: Event)
    requires Enabled(s, e) && CleanupEvent(e)
    ensures CleanupEnabled(s, e) && Step(s, e) == CleanupStep(s, e)
  {
  }

  lemma StepIsWipe(s: State, e: Event)
    requires Enabled(s, e) && WipeEvent(e)
    ensures WipeEnabled(s, e) && Step(s, e) == WipeStep(s, e)
  {
  }

  lemma StepIsDownload(s: State, e: Event)
    requires Enabled(s, e) && DownloadEvent(e)
    ensures DownloadEnabled(s, e) && Step(s, e) == DownloadStep(s, e)
  {
  }

  /** A deployment in which nothing has happened since the push protocol was retired: the
      payloads it left are the only rows, each referenced and stored. */
  ghost predicate Init(s: State) {
    && s.uploaders == map[] && s.collectors == map[] && s.cleaners == map[] && s.readers == map[]
    && s.registrars == map[]
    && s.db.erased == {}
    && (forall u :: u in s.db.accounts ==>
          && s.db.accounts[u] == NO_ACCOUNT.(objects := s.db.accounts[u].objects)
          && ShapesOk(u, s.db.accounts[u])
          && RowsReferenced(u, s.db.accounts[u], s.db.ledger))
    && (forall k :: k in s.db.ledger ==>
          s.db.ledger[k].state.Referenced? && s.db.ledger[k].user == Some(k.owner) && Holds(s.db, k))
    && s.bucket.Keys == s.db.ledger.Keys
    && (forall k :: k in s.bucket ==> s.bucket[k] == k.payloadHash)
  }
}
