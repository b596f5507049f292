/** Two runs, step by step, of what the service does not rule out. */
module ProtocolWitnesses {
  import opened Wrappers
  import opened SyncTables
  import opened VaultMembership
  import opened SyncInvariant
  import opened SnapshotUpload
  import opened StorageRetirement
  import opened RetirementInvariant
  import opened CleanupSafety
  import opened StorageProtocol
  import opened ProtocolInvariant
  import opened ProtocolRuns

  datatype Trace = Trace(states: seq<State>, events: seq<Event>)

  ghost predicate Reaches(t: Trace, s: State) {
    Run(t.states, t.events) && t.states[|t.events|] == s
  }

  lemma Extend(t: Trace, s: State, e: Event, next: State) returns (longer: Trace)
    requires Reaches(t, s) && Moves(s, e, next)
    ensures Reaches(longer, next)
    ensures longer.events == t.events + [e] && longer.states == t.states + [next]
  {
    longer := Trace(t.states + [next], t.events + [e]);
    forall i | 0 <= i < |longer.events|
      ensures MovesAt(longer.states, longer.events, i)
    {
      if i < |t.events| { assert MovesAt(t.states, t.events, i); }
    }
  }

  lemma ReachedIsOk(t: Trace, s: State)
    requires Reaches(t, s)
    ensures StateOk(s)
  {
    Reachable(t.states, t.events, |t.events|);
  }

  // ---------------------------------------------------------------- one device, one snapshot

  const FIRST_KEY := VaultKey(7, 1)
  const HERE := SnapshotKey(0, 1, 5, 9)
  const FIRST_UPLOAD := Upload(1, 1, 5, HERE, 9, FIRST_KEY, 3, 1, 1, 1, None, 0)
  const FIRST_HEAD := HeadRef(1, 5, 9)

  const SIGNED_IN := NO_ACCOUNT.(sessions := map[0 := None])
  const REGISTERED := SIGNED_IN.(devices := map[1 := Device(Approved, Client(0))])
  const BOOTSTRAPPED := REGISTERED.(vault := Some(FIRST_KEY), envelopes := map[EnvelopeId(1, FIRST_KEY) := Envelope(1, 0, Client(1))])
  const SAVED := CommittedAccount(BOOTSTRAPPED, FIRST_UPLOAD, 0)

  function Start(): State {
    State(Database(map[], map[], {}), map[], map[], map[], map[], map[], map[])
  }

  function Created(a: Account): State {
    Start().(db := Database(map[1 := a], map[], {}))
  }

  function WithOne(a: Account): State {
    Created(a).(registrars := map[0 := Registrar(1, 0, 1, Client(0), Inserted)])
  }

  function Claimed1(a: Account): State {
    WithOne(a).(db := Database(map[1 := a], map[HERE := LedgerRow(Some(1), Reserved, Some(0), 600, None, None, 0)], {}),
                uploaders := map[0 := Uploader(FIRST_UPLOAD, 0, 0, Claimed)])
  }

  function Stored1(a: Account): State {
    Claimed1(a).(bucket := map[HERE := 9], uploaders := map[0 := Uploader(FIRST_UPLOAD, 0, 0, Stored)])
  }

  function Saved1(): State {
    Stored1(BOOTSTRAPPED).(
      db := Database(map[1 := SAVED], map[HERE := LedgerRow(Some(1), Referenced, Some(0), 0, None, None, 0)], {}),
      uploaders := map[0 := Uploader(FIRST_UPLOAD, 0, 0, Answered)])
  }

  lemma CreateFirst()
    ensures Moves(Start(), CreateUser(1), Created(NO_ACCOUNT))
  {
  }

  lemma SignInFirst()
    ensures Moves(Created(NO_ACCOUNT), SignIn(1, 0), Created(SIGNED_IN))
  {
    assert NO_ACCOUNT.sessions[0 := None] == SIGNED_IN.sessions;
    assert Created(NO_ACCOUNT).db.accounts[1 := SIGNED_IN] == map[1 := SIGNED_IN];
  }

  lemma ByMembership(s: State, e: Event, next: State)
    requires MembershipEvent(e) && MembershipEnabled(s, e) && next == MembershipStep(s, e)
    ensures Moves(s, e, next)
  {
  }

  lemma RegisterFirst()
    ensures Moves(Created(SIGNED_IN), RegisterDevice(0, 1, 0, 1, Client(0)), WithOne(REGISTERED))
  {
    assert Registers(SIGNED_IN, 0, 1, Client(0));
    assert SIGNED_IN.devices[1 := Device(Approved, Client(0))] == REGISTERED.devices;
    assert Created(SIGNED_IN).db.accounts[1 := REGISTERED] == map[1 := REGISTERED];
    ByMembership(Created(SIGNED_IN), RegisterDevice(0, 1, 0, 1, Client(0)), WithOne(REGISTERED));
  }

  lemma BootstrapFirst()
    ensures Moves(WithOne(REGISTERED), BootstrapVault(1, 1, 7, 0, Client(1)), WithOne(BOOTSTRAPPED))
  {
    assert BOOTSTRAPPED.envelopes == REGISTERED.envelopes[EnvelopeId(1, FIRST_KEY) := Envelope(1, 0, Client(1))];
  }

  lemma ClaimFirst()
    ensures Moves(WithOne(BOOTSTRAPPED), UploadClaim(0, FIRST_UPLOAD, 0, 0), Claimed1(BOOTSTRAPPED))
  {
  }

  lemma StoreFirst()
    ensures Moves(Claimed1(BOOTSTRAPPED), UploadStored(0), Stored1(BOOTSTRAPPED))
  {
  }

  lemma FirstCommitFits()
    ensures CommitApplies(Stored1(BOOTSTRAPPED).db, FIRST_UPLOAD, 0, 0)
    ensures Committed(Stored1(BOOTSTRAPPED).db, FIRST_UPLOAD, 0) == Saved1().db
  {
    assert AccountOf(Stored1(BOOTSTRAPPED).db, 1) == BOOTSTRAPPED;
  }

  lemma ByUpload(s: State, e: Event, next: State)
    requires UploadEvent(e) && UploadEnabled(s, e) && next == UploadStep(s, e)
    ensures Moves(s, e, next)
  {
  }

  lemma ByCollection(s: State, e: Event, next: State)
    requires CollectEvent(e) && CollectEnabled(s, e) && next == CollectStep(s, e)
    ensures Moves(s, e, next)
  {
  }

  lemma CommitStepTo(s: State, p: ProcessId, db: Database)
    requires p in s.uploaders && s.uploaders[p].phase.Stored?
    requires CommitBatch(s.db, s.uploaders[p].up, s.uploaders[p].token, s.uploaders[p].now) == Ran(db, [1, 1, 1, 1])
    ensures Moves(s, UploadCommit(p, true), SetUploader(s.(db := db), p, UploadPhase.Answered))
  {
    ByUpload(s, UploadCommit(p, true), SetUploader(s.(db := db), p, UploadPhase.Answered));
  }

  lemma CommitMovesTo(s: State, p: ProcessId)
    requires StateOk(s) && p in s.uploaders && s.uploaders[p].phase.Stored?
    requires CommitApplies(s.db, s.uploaders[p].up, s.uploaders[p].token, s.uploaders[p].now)
    ensures var db := Committed(s.db, s.uploaders[p].up, s.uploaders[p].now);
            Moves(s, UploadCommit(p, true), SetUploader(s.(db := db), p, UploadPhase.Answered))
  {
    CommitResult(s, p);
    CommitStepTo(s, p, Committed(s.db, s.uploaders[p].up, s.uploaders[p].now));
  }

  lemma FirstAnswer()
    ensures SetUploader(Stored1(BOOTSTRAPPED).(db := Saved1().db), 0, UploadPhase.Answered) == Saved1()
  {
  }

  lemma SaveFirst()
    requires StateOk(Stored1(BOOTSTRAPPED))
    ensures Moves(Stored1(BOOTSTRAPPED), UploadCommit(0, true), Saved1())
  {
    FirstCommitFits();
    FirstAnswer();
    CommitMovesTo(Stored1(BOOTSTRAPPED), 0);
  }

  lemma FirstSteps() returns (t: Trace)
    ensures Reaches(t, Saved1())
  {
    t := Trace([Start()], []);
    CreateFirst();
    t := Extend(t, Start(), CreateUser(1), Created(NO_ACCOUNT));
    SignInFirst();
    t := Extend(t, Created(NO_ACCOUNT), SignIn(1, 0), Created(SIGNED_IN));
    RegisterFirst();
    t := Extend(t, Created(SIGNED_IN), RegisterDevice(0, 1, 0, 1, Client(0)), WithOne(REGISTERED));
    BootstrapFirst();
    t := Extend(t, WithOne(REGISTERED), BootstrapVault(1, 1, 7, 0, Client(1)), WithOne(BOOTSTRAPPED));
    ClaimFirst();
    t := Extend(t, WithOne(BOOTSTRAPPED), UploadClaim(0, FIRST_UPLOAD, 0, 0), Claimed1(BOOTSTRAPPED));
    StoreFirst();
    t := Extend(t, Claimed1(BOOTSTRAPPED), UploadStored(0), Stored1(BOOTSTRAPPED));
    ReachedIsOk(t, Stored1(BOOTSTRAPPED));
    SaveFirst();
    t := Extend(t, Stored1(BOOTSTRAPPED), UploadCommit(0, true), Saved1());
  }

  // ---------------------------------------------------------------- a head that comes back in another region

  const THERE := SnapshotKey(1, 1, 5, 9)
  const MOVED_UPLOAD := FIRST_UPLOAD.(key := THERE)
  const MOVED := CommittedAccount(BOOTSTRAPPED, MOVED_UPLOAD, 0)

  function Reading(): State {
    Saved1().(readers := map[0 := Reader(1, FIRST_HEAD, HERE, Resolved)])
  }

  function Wiped(): State {
    Reading().(db := Database(map[1 := BOOTSTRAPPED], map[HERE := LedgerRow(Some(1), Ready, Some(0), 0, None, None, 0)], {}))
  }

  function Collecting0(): State {
    Wiped().(db := Database(map[1 := BOOTSTRAPPED], map[HERE := LedgerRow(Some(1), Deleting, Some(0), 0, Some(0), Some(0), 0)], {}),
             collectors := map[0 := Collector(0, 0, Claiming, [], 0)])
  }

  function Listed0(): State {
    Collecting0().(collectors := map[0 := Collector(0, 0, ToErase, [HERE], 0)])
  }

  function Erased0(): State {
    Listed0().(bucket := map[], collectors := map[0 := Collector(0, 0, ToMark, [HERE], 0)])
  }

  function Missed(): State {
    Erased0().(readers := map[0 := Reader(1, FIRST_HEAD, HERE, Missing)])
  }

  function MovedLedger(row: LedgerRow): Ledger {
    map[HERE := LedgerRow(Some(1), Deleting, Some(0), 0, Some(0), Some(0), 0), THERE := row]
  }

  function Claimed2(): State {
    Missed().(db := Database(map[1 := BOOTSTRAPPED], MovedLedger(LedgerRow(Some(1), Reserved, Some(1), 600, None, None, 0)), {}),
              uploaders := map[0 := Uploader(FIRST_UPLOAD, 0, 0, UploadPhase.Answered), 1 := Uploader(MOVED_UPLOAD, 1, 0, Claimed)])
  }

  function Stored2(): State {
    Claimed2().(bucket := map[THERE := 9],
                uploaders := map[0 := Uploader(FIRST_UPLOAD, 0, 0, UploadPhase.Answered), 1 := Uploader(MOVED_UPLOAD, 1, 0, Stored)])
  }

  function Saved2(): State {
    Stored2().(db := Database(map[1 := MOVED], MovedLedger(LedgerRow(Some(1), Referenced, Some(1), 0, None, None, 0)), {}),
               uploaders := map[0 := Uploader(FIRST_UPLOAD, 0, 0, UploadPhase.Answered), 1 := Uploader(MOVED_UPLOAD, 1, 0, UploadPhase.Answered)])
  }

  function Misled(): State {
    Saved2().(readers := map[0 := Reader(1, FIRST_HEAD, HERE, PayloadMissing)])
  }

  lemma ByResolve(s: State, p: ProcessId, u: UserId, token: HeadRef)
    requires p !in s.readers && HeadServes(AccountOf(s.db, u), token)
    ensures Moves(s, DownloadResolve(p, u, token), ResolveStep(s, p, u, token))
  {
  }

  lemma ResolveFirst()
    ensures Moves(Saved1(), DownloadResolve(0, 1, FIRST_HEAD), Reading())
  {
    assert AccountOf(Saved1().db, 1) == SAVED;
    ByResolve(Saved1(), 0, 1, FIRST_HEAD);
  }

  lemma WipedTables()
    ensures Emptied(StartAllCleanups(SAVED, 0)) == BOOTSTRAPPED
    ensures FenceUser(Reading().db.ledger, 1, 0) == Wiped().db.ledger
  {
  }

  lemma ByReset(s: State, u: UserId, d: DeviceId, now: nat, next: State)
    requires HasStatus(AccountOf(s.db, u), d, Approved) && ResetInTime(AccountOf(s.db, u), now)
    requires next == s.(db := ResetBatch(s.db, u, now))
    ensures Moves(s, ResetSync(u, d, now), next)
  {
  }

  lemma NothingReferenced(k: R2Key)
    ensures !IsReferenced(FenceUser(Reading().db.ledger, 1, 0), k)
  {
    WipedTables();
  }

  lemma WithWiped()
    ensures With(Reading().db, 1, BOOTSTRAPPED, Wiped().db.ledger) == Wiped().db
  {
    assert Reading().db.accounts[1 := BOOTSTRAPPED] == map[1 := BOOTSTRAPPED];
  }

  lemma WipeResult()
    ensures ResetBatch(Reading().db, 1, 0) ==
            With(Reading().db, 1, Emptied(StartAllCleanups(SAVED, 0)), FenceUser(Reading().db.ledger, 1, 0))
  {
    forall k
      ensures !IsReferenced(FenceUser(Reading().db.ledger, 1, 0), k)
    {
      NothingReferenced(k);
    }
    ResetSteps(Reading().db, 1, 0);
  }

  lemma WipeMoves()
    ensures Moves(Reading(), ResetSync(1, 1, 0), Wiped())
  {
    WipeResult();
    WipedTables();
    WithWiped();
    assert AccountOf(Reading().db, 1) == SAVED;
    ByReset(Reading(), 1, 1, 0, Wiped());
  }

  lemma CollectableNow()
    ensures Collectable(Wiped().db, HERE, 0, Everyone)
    ensures ClaimGarbage(Wiped().db.ledger, {HERE}, 0, 0) == Collecting0().db.ledger
  {
    assert !Used(Wiped().db, HERE) && !Protected(Wiped().db, HERE);
  }

  lemma ClaimGarbageMoves()
    ensures Moves(Wiped(), CollectClaim(0, 0, 0, Everyone, {HERE}), Collecting0())
  {
    CollectableNow();
    ByCollection(Wiped(), CollectClaim(0, 0, 0, Everyone, {HERE}), Collecting0());
  }

  lemma ListMoves()
    ensures Moves(Collecting0(), CollectList(0, [HERE]), Listed0())
  {
    ByCollection(Collecting0(), CollectList(0, [HERE]), Listed0());
  }

  lemma EraseGives()
    ensures CollectEnabled(Listed0(), CollectErase(0)) && CollectStep(Listed0(), CollectErase(0)) == Erased0()
  {
    assert Forget(Listed0().bucket, HERE) == map[];
  }

  lemma EraseMoves()
    ensures Moves(Listed0(), CollectErase(0), Erased0())
  {
    EraseGives();
    ByCollection(Listed0(), CollectErase(0), Erased0());
  }

  lemma ByDownload(s: State, e: Event)
    requires DownloadEvent(e) && DownloadEnabled(s, e)
    ensures Moves(s, e, DownloadStep(s, e))
  {
  }

  lemma NothingThere()
    ensures 0 in Erased0().readers && GetStep(Erased0(), 0) == Missed()
  {
  }

  lemma GetMoves()
    ensures Moves(Erased0(), DownloadGet(0), Missed())
  {
    NothingThere();
    ByDownload(Erased0(), DownloadGet(0));
  }

  lemma MovedClaim()
    ensures ClaimGranted(Missed().db, MOVED_UPLOAD, 0) && ClaimStep(Missed(), 1, MOVED_UPLOAD, 1, 0) == Claimed2()
  {
    assert AccountOf(Missed().db, 1) == BOOTSTRAPPED;
    assert Missed().db.ledger[THERE := LedgerRow(Some(1), Reserved, Some(1), 600, None, None, 0)] == Claimed2().db.ledger;
  }

  lemma ClaimAgain()
    ensures Moves(Missed(), UploadClaim(1, MOVED_UPLOAD, 1, 0), Claimed2())
  {
    MovedClaim();
    ByUpload(Missed(), UploadClaim(1, MOVED_UPLOAD, 1, 0), Claimed2());
  }

  lemma StoreAgain()
    ensures Moves(Claimed2(), UploadStored(1), Stored2())
  {
    assert Claimed2().bucket[THERE := 9] == Stored2().bucket;
    assert Claimed2().uploaders[1 := Uploader(MOVED_UPLOAD, 1, 0, Stored)] == Stored2().uploaders;
    ByUpload(Claimed2(), UploadStored(1), Stored2());
  }

  lemma SecondCommitFits()
    ensures CommitApplies(Stored2().db, MOVED_UPLOAD, 1, 0)
  {
    assert AccountOf(Stored2().db, 1) == BOOTSTRAPPED;
  }

  lemma SecondCommitGives()
    ensures Committed(Stored2().db, MOVED_UPLOAD, 0) == Saved2().db
  {
    assert AccountOf(Stored2().db, 1) == BOOTSTRAPPED;
  }

  lemma SecondAnswer()
    ensures SetUploader(Stored2().(db := Saved2().db), 1, UploadPhase.Answered) == Saved2()
  {
  }

  lemma SaveAgain()
    requires StateOk(Stored2())
    ensures Moves(Stored2(), UploadCommit(1, true), Saved2())
  {
    SecondCommitFits();
    SecondCommitGives();
    SecondAnswer();
    CommitMovesTo(Stored2(), 1);
  }

  lemma StillTheHead()
    ensures 0 in Saved2().readers && Saved2().readers[0].phase.Missing? && RereadStep(Saved2(), 0) == Misled()
  {
    assert AccountOf(Saved2().db, 1) == MOVED;
    assert HeadServes(MOVED, FIRST_HEAD);
  }

  lemma RereadMoves()
    ensures Moves(Saved2(), DownloadReread(0), Misled())
  {
    StillTheHead();
    ByDownload(Saved2(), DownloadReread(0));
  }

  lemma UntilMissed() returns (t: Trace)
    ensures Reaches(t, Missed())
  {
    t := FirstSteps();
    ResolveFirst();
    t := Extend(t, Saved1(), DownloadResolve(0, 1, FIRST_HEAD), Reading());
    WipeMoves();
    t := Extend(t, Reading(), ResetSync(1, 1, 0), Wiped());
    ClaimGarbageMoves();
    ListMoves();
    t := Extend(t, Wiped(), CollectClaim(0, 0, 0, Everyone, {HERE}), Collecting0());
    t := Extend(t, Collecting0(), CollectList(0, [HERE]), Listed0());
    EraseMoves();
    GetMoves();
    t := Extend(t, Listed0(), CollectErase(0), Erased0());
    t := Extend(t, Erased0(), DownloadGet(0), Missed());
  }

  /** `sync_snapshot_payload_missing` can be reached by an account that changes its region:
      a download resolves its token, a reset and a collection remove the object, the same
      snapshot is committed again elsewhere, and the second look finds the token current. */
  lemma PayloadMissingIsReachable() returns (t: Trace)
    ensures Reaches(t, Misled()) && Misled().readers[0].phase.PayloadMissing?
  {
    t := UntilMissed();
    ClaimAgain();
    t := Extend(t, Missed(), UploadClaim(1, MOVED_UPLOAD, 1, 0), Claimed2());
    StoreAgain();
    t := Extend(t, Claimed2(), UploadStored(1), Stored2());
    ReachedIsOk(t, Stored2());
    SaveAgain();
    t := Extend(t, Stored2(), UploadCommit(1, true), Saved2());
    RereadMoves();
    t := Extend(t, Saved2(), DownloadReread(0), Misled());
  }

  // ---------------------------------------------------------------- a rotation reported clean too early

  const NEXT_KEY := VaultKey(8, 2)
  const ROTATION := RotationRequest(1, 2, 1, FIRST_KEY, NEXT_KEY, [RotationItem(1, 0)], 0, 1, 0)
  const NEWER := SnapshotKey(0, 1, 6, 4)
  const NEWER_UPLOAD := Upload(1, 1, 6, NEWER, 4, NEXT_KEY, 3, 1, 2, 2, Some(FIRST_HEAD), 0)

  const TWO_DEVICES := SAVED.(devices := map[1 := Device(Approved, Client(0)), 2 := Device(Pending, Client(2))])
  const ROTATED_ROW := Rotation(2, 1, FIRST_KEY, NEXT_KEY, 0, 1, 1, map[1 := 0], true, 0, {HERE}, None, false)
  const ROTATED := TWO_DEVICES.(
    devices := map[1 := Device(Approved, Client(0)), 2 := Device(Revoked, Client(2))],
    vault := Some(NEXT_KEY),
    envelopes := map[EnvelopeId(1, FIRST_KEY) := Envelope(1, 0, Client(1)), EnvelopeId(1, NEXT_KEY) := Envelope(1, 0, Derived(1, 1))],
    rotations := map[1 := ROTATED_ROW])
  const RENEWED := CommittedAccount(ROTATED, NEWER_UPLOAD, 0)
  const CLEANING := RENEWED.(rotations := map[1 := ROTATED_ROW.(cleanup := Some(NewSnapshot(6, 0)))])

  const REGISTRARS := map[0 := Registrar(1, 0, 1, Client(0), Inserted), 1 := Registrar(1, 0, 2, Client(2), Inserted)]

  function Account2(a: Account): State {
    Saved1().(db := Saved1().db.(accounts := map[1 := a]), registrars := REGISTRARS)
  }

  function RenewedLedger(row: LedgerRow): Ledger {
    map[HERE := LedgerRow(Some(1), Referenced, Some(0), 0, None, None, 0), NEWER := row]
  }

  function Uploading2(phase: UploadPhase): map<ProcessId, Uploader> {
    map[0 := Uploader(FIRST_UPLOAD, 0, 0, UploadPhase.Answered), 1 := Uploader(NEWER_UPLOAD, 1, 0, phase)]
  }

  function Claimed3(): State {
    Account2(ROTATED).(db := Database(map[1 := ROTATED], RenewedLedger(LedgerRow(Some(1), Reserved, Some(1), 600, None, None, 0)), {}),
                       uploaders := Uploading2(Claimed))
  }

  function Stored3(): State {
    Claimed3().(bucket := map[HERE := 9, NEWER := 4], uploaders := Uploading2(Stored))
  }

  function Saved3(): State {
    Stored3().(db := Database(map[1 := RENEWED], RenewedLedger(LedgerRow(Some(1), Referenced, Some(1), 0, None, None, 0)), {}),
               uploaders := Uploading2(UploadPhase.Answered))
  }

  function Cleaning3(): State {
    Saved3().(db := Saved3().db.(accounts := map[1 := CLEANING]), cleaners := map[0 := Cleaner(1, 0, Listing, [], 0)])
  }

  lemma RegisterSecond()
    ensures Moves(Saved1(), RegisterDevice(1, 1, 0, 2, Client(2)), Account2(TWO_DEVICES))
  {
    assert AccountOf(Saved1().db, 1) == SAVED;
    assert Registers(SAVED, 0, 2, Client(2));
    assert SAVED.devices[2 := Device(Pending, Client(2))] == TWO_DEVICES.devices;
    assert Saved1().db.accounts[1 := TWO_DEVICES] == map[1 := TWO_DEVICES];
    assert Saved1().registrars[1 := Registrar(1, 0, 2, Client(2), Inserted)] == REGISTRARS;
    ByMembership(Saved1(), RegisterDevice(1, 1, 0, 2, Client(2)), Account2(TWO_DEVICES));
  }

  lemma OneStored()
    ensures CurrentKeys(TWO_DEVICES) == {HERE} && ApprovedDevices(TWO_DEVICES) - {2} == {1}
  {
    assert TWO_DEVICES.snapshots[5].key == HERE;
  }

  lemma RotationFits()
    ensures RotationApplies(TWO_DEVICES, ROTATION)
  {
    OneStored();
    assert ROTATION.envelopes[0].recipient == 1;
    assert ItemRecipients(ROTATION.envelopes) == {1};
  }

  lemma RotationRow()
    ensures OpenedRow(ROTATION).(completed := true, staged := OpenedRow(ROTATION).staged + CurrentKeys(TWO_DEVICES)) == ROTATED_ROW
  {
    OneStored();
    assert ItemMap(ROTATION.envelopes) == map[1 := 0];
    assert {} + CurrentKeys(TWO_DEVICES) == {HERE};
  }

  lemma RotationDerives()
    ensures DerivedEnvelopes(1, OpenedRow(ROTATION)) == map[EnvelopeId(1, NEXT_KEY) := Envelope(1, 0, Derived(1, 1))]
  {
    var row := OpenedRow(ROTATION);
    assert ItemMap(ROTATION.envelopes) == map[1 := 0];
    assert forall e :: e in DerivedEnvelopes(1, row) <==> e == EnvelopeId(1, NEXT_KEY);
  }

  lemma TwoEntries(k: EnvelopeId, v: Envelope, l: EnvelopeId, w: Envelope)
    requires k != l
    ensures map[k := v] + map[l := w] == map[k := v, l := w]
  {
  }

  lemma SecondReplaced(a: Device, b: Device, c: Device)
    ensures map[1 := a, 2 := b][2 := c] == map[1 := a, 2 := c]
  {
  }

  lemma RotatedDevices()
    ensures TWO_DEVICES.devices[2 := Device(Revoked, Client(2))] == ROTATED.devices
    ensures EndSessions(TWO_DEVICES.sessions, 2) == ROTATED.sessions
    ensures TWO_DEVICES.rotations[1 := ROTATED_ROW] == ROTATED.rotations
  {
    SecondReplaced(Device(Approved, Client(0)), Device(Pending, Client(2)), Device(Revoked, Client(2)));
  }

  lemma RotatedEnvelopes()
    ensures TWO_DEVICES.envelopes + DerivedEnvelopes(1, OpenedRow(ROTATION)) == ROTATED.envelopes
  {
    RotationDerives();
    TwoEntries(EnvelopeId(1, FIRST_KEY), Envelope(1, 0, Client(1)), EnvelopeId(1, NEXT_KEY), Envelope(1, 0, Derived(1, 1)));
  }

  lemma FinishFields(a: Account, id: RotationId, row: Rotation, b: Account)
    requires row.target in a.devices
    requires a.rotations[id := row.(completed := true, staged := row.staged + CurrentKeys(a))] == b.rotations
    requires a.envelopes + DerivedEnvelopes(id, row) == b.envelopes && b.vault == Some(row.next)
    requires a.devices[row.target := a.devices[row.target].(status := Revoked)] == b.devices
    requires EndSessions(a.sessions, row.target) == b.sessions
    requires b == a.(rotations := b.rotations, envelopes := b.envelopes, vault := b.vault, devices := b.devices, sessions := b.sessions)
    ensures Finish(a, id, row) == b
  {
  }

  lemma RotationGives()
    ensures Rotated(TWO_DEVICES, ROTATION) == ROTATED
  {
    RotationRow();
    RotatedEnvelopes();
    RotatedDevices();
    FinishFields(TWO_DEVICES, 1, OpenedRow(ROTATION), ROTATED);
  }

  lemma ByRotation(s: State, u: UserId, r: RotationRequest, a: Account)
    requires u in s.db.accounts && RotationBatch(s.db.accounts[u], r) == Done(a, 1)
    ensures Moves(s, RotateVault(u, r), WithAccount(s, u, a))
  {
    RotatedTo(s, u, r, a);
    ByMembership(s, RotateVault(u, r), WithAccount(s, u, a));
  }

  lemma RotatedTo(s: State, u: UserId, r: RotationRequest, a: Account)
    requires u in s.db.accounts && RotationBatch(s.db.accounts[u], r) == Done(a, 1)
    ensures MembershipStep(s, RotateVault(u, r)) == WithAccount(s, u, a)
  {
    MembershipTables(s, RotateVault(u, r));
    assert RotatedAccount(s.db.accounts[u], r) == a;
  }

  lemma RotationResult()
    requires MembersOk(TWO_DEVICES)
    ensures RotationBatch(TWO_DEVICES, ROTATION) == Done(ROTATED, 1)
  {
    RotationFits();
    RotationGives();
    RotationAllOrNothing(TWO_DEVICES, ROTATION);
  }

  lemma AccountsApart(a: Account, b: Account)
    ensures Account2(a).db.accounts == map[1 := a] && WithAccount(Account2(a), 1, b) == Account2(b)
  {
    assert Account2(a).db.accounts[1 := b] == map[1 := b];
  }

  lemma RotateMoves()
    requires RotationBatch(TWO_DEVICES, ROTATION) == Done(ROTATED, 1)
    ensures Moves(Account2(TWO_DEVICES), RotateVault(1, ROTATION), Account2(ROTATED))
  {
    AccountsApart(TWO_DEVICES, ROTATED);
    ByRotation(Account2(TWO_DEVICES), 1, ROTATION, ROTATED);
  }

  lemma NewerClaim()
    ensures ClaimGranted(Account2(ROTATED).db, NEWER_UPLOAD, 0) && ClaimStep(Account2(ROTATED), 1, NEWER_UPLOAD, 1, 0) == Claimed3()
  {
    assert AccountOf(Account2(ROTATED).db, 1) == ROTATED;
    assert Account2(ROTATED).db.ledger[NEWER := LedgerRow(Some(1), Reserved, Some(1), 600, None, None, 0)] == Claimed3().db.ledger;
  }

  lemma ClaimNewer()
    ensures Moves(Account2(ROTATED), UploadClaim(1, NEWER_UPLOAD, 1, 0), Claimed3())
  {
    NewerClaim();
    ByUpload(Account2(ROTATED), UploadClaim(1, NEWER_UPLOAD, 1, 0), Claimed3());
  }

  lemma StoreNewer()
    ensures Moves(Claimed3(), UploadStored(1), Stored3())
  {
    assert Claimed3().bucket[NEWER := 4] == Stored3().bucket;
    assert Claimed3().uploaders[1 := Uploader(NEWER_UPLOAD, 1, 0, Stored)] == Stored3().uploaders;
    ByUpload(Claimed3(), UploadStored(1), Stored3());
  }

  lemma NewerCommitFits()
    ensures CommitApplies(Stored3().db, NEWER_UPLOAD, 1, 0)
  {
    assert AccountOf(Stored3().db, 1) == ROTATED;
  }

  lemma NewerLedger()
    ensures CommittedLedger(ROTATED, Stored3().db.ledger, NEWER_UPLOAD, 0) == Saved3().db.ledger
  {
  }

  lemma NewerCommitGives()
    ensures Committed(Stored3().db, NEWER_UPLOAD, 0) == Saved3().db
  {
    NewerLedger();
    assert AccountOf(Stored3().db, 1) == ROTATED;
    assert Stored3().db.accounts[1 := RENEWED] == map[1 := RENEWED];
  }

  lemma NewerAnswer()
    ensures SetUploader(Stored3().(db := Saved3().db), 1, UploadPhase.Answered) == Saved3()
  {
  }

  lemma SaveNewer()
    requires StateOk(Stored3())
    ensures Moves(Stored3(), UploadCommit(1, true), Saved3())
  {
    NewerCommitFits();
    NewerCommitGives();
    NewerAnswer();
    CommitMovesTo(Stored3(), 1);
  }

  lemma ByMark(s: State, a: Account, sid: SnapshotId, key: VaultKey, b: Account)
    requires s.cleaners == map[] && s.db.accounts == map[1 := a] && ReadyInTime(a, sid, key, 0)
    requires b == MarkCleanupReady(a, sid, key, 0)
    ensures Moves(s, CleanupMark(0, 1, sid, key, 0),
                  s.(db := s.db.(accounts := map[1 := b]), cleaners := map[0 := Cleaner(1, 0, Listing, [], 0)]))
  {
    assert s.db.accounts[1 := b] == map[1 := b];
  }

  lemma MarkedAccount()
    ensures MarkCleanupReady(RENEWED, 6, NEXT_KEY, 0) == CLEANING
  {
    assert MarkCleanupReady(RENEWED, 6, NEXT_KEY, 0).rotations == CLEANING.rotations;
  }

  lemma MarkMoves()
    ensures Moves(Saved3(), CleanupMark(0, 1, 6, NEXT_KEY, 0), Cleaning3())
  {
    MarkedAccount();
    ByMark(Saved3(), RENEWED, 6, NEXT_KEY, CLEANING);
  }

  lemma MembersThere(t: Trace)
    requires Reaches(t, Account2(TWO_DEVICES))
    ensures MembersOk(TWO_DEVICES)
  {
    ReachedIsOk(t, Account2(TWO_DEVICES));
    MembersOf(Account2(TWO_DEVICES), 1);
  }

  lemma UntilRotated() returns (t: Trace)
    ensures Reaches(t, Account2(ROTATED))
  {
    t := FirstSteps();
    RegisterSecond();
    t := Extend(t, Saved1(), RegisterDevice(1, 1, 0, 2, Client(2)), Account2(TWO_DEVICES));
    MembersThere(t);
    RotationResult();
    RotateMoves();
    t := Extend(t, Account2(TWO_DEVICES), RotateVault(1, ROTATION), Account2(ROTATED));
  }

  lemma UntilRenewed() returns (t: Trace)
    ensures Reaches(t, Saved3())
  {
    t := UntilRotated();
    ClaimNewer();
    t := Extend(t, Account2(ROTATED), UploadClaim(1, NEWER_UPLOAD, 1, 0), Claimed3());
    StoreNewer();
    t := Extend(t, Claimed3(), UploadStored(1), Stored3());
    ReachedIsOk(t, Stored3());
    SaveNewer();
    t := Extend(t, Stored3(), UploadCommit(1, true), Saved3());
  }

  lemma UntilCleaning() returns (t: Trace)
    ensures Reaches(t, Cleaning3())
  {
    t := UntilRenewed();
    MarkMoves();
    t := Extend(t, Saved3(), CleanupMark(0, 1, 6, NEXT_KEY, 0), Cleaning3());
  }

  function TooEarly(): State {
    Cleaning3().(db := FinalizeStorageClean(Cleaning3().db))
  }

  lemma ByFinalizer(s: State)
    ensures Moves(s, FinalizeRotations, s.(db := FinalizeStorageClean(s.db)))
  {
  }

  lemma StagedIsLive(db: Database, a: Account, k: R2Key)
    requires DatabaseOk(db) && db.accounts == map[1 := a]
    requires ReadyForCleanup(a, 1) && a.rotations[1].staged == {k} && IsReferenced(db.ledger, k)
    ensures var after := FinalizeStorageClean(db);
            && after.accounts[1].rotations[1].storageCleaned && k in after.accounts[1].rotations[1].staged
            && Used(after, k)
  {
    FinalizerLeavesLiveKeys(db, 1, 1, k);
    FinalizerKeepsStaged(db, a);
  }

  lemma FinalizerKeepsStaged(db: Database, a: Account)
    requires db.accounts == map[1 := a] && 1 in a.rotations
    ensures var after := FinalizeStorageClean(db);
            && AccountOf(after, 1) == after.accounts[1] && 1 in after.accounts[1].rotations
            && after.accounts[1].rotations[1].staged == a.rotations[1].staged
  {
  }

  lemma CleaningFacts()
    ensures Cleaning3().db.accounts == map[1 := CLEANING] && IsReferenced(Cleaning3().db.ledger, HERE)
    ensures ReadyForCleanup(CLEANING, 1) && CLEANING.rotations[1].staged == {HERE}
  {
  }

  /** The scheduled finalizer runs between the two halves of a cleanup: the rotation counts
      as clean although the snapshot it staged, and its object, are still there. */
  lemma CleanTooEarlyIsReachable() returns (t: Trace)
    ensures Reaches(t, TooEarly())
    ensures var after := TooEarly().db;
            && after.accounts[1].rotations[1].storageCleaned && HERE in after.accounts[1].rotations[1].staged
            && Used(after, HERE)
  {
    t := UntilCleaning();
    ReachedIsOk(t, Cleaning3());
    CleaningFacts();
    StagedIsLive(Cleaning3().db, CLEANING, HERE);
    ByFinalizer(Cleaning3());
    t := Extend(t, Cleaning3(), FinalizeRotations, TooEarly());
  }
}
