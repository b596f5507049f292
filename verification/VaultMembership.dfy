/** Devices, the vault and its envelopes: the batches that register, bootstrap, approve,
    revoke and rotate, statement by statement, with the constraints and triggers that
    can abort them. */
module VaultMembership {
  import opened Wrappers
  import opened SyncTables

  /** What a statement or a batch did: the new rows and the count of changed rows, or an
      abort, after which D1 restores every table. */
  datatype Outcome<+T> = Done(state: T, changes: nat) | Aborted

  datatype RotationItem = RotationItem(recipient: DeviceId, wrapped: Wrapped)

  datatype RotationRequest = RotationRequest(
    rotation: RotationId,
    target: DeviceId,
    approver: DeviceId,
    previous: VaultKey,
    next: VaultKey,
    envelopes: seq<RotationItem>,
    requestHash: Hash,
    r2ObjectCount: nat,
    now: nat)

  function ApprovedDevices(a: Account): set<DeviceId> {
    set d | d in a.devices && a.devices[d].status.Approved?
  }

  /** Devices that can open the vault at its present key. */
  function Recipients(a: Account): set<DeviceId> {
    if a.vault.None? then {}
    else set e | e in a.envelopes && e.key == a.vault.value :: e.recipient
  }

  predicate EnvelopeKeyTaken(a: Account, key: IdempotencyKey) {
    exists e :: e in a.envelopes && a.envelopes[e].idempotencyKey == key
  }

  // ---------------------------------------------------------------- sessions

  predicate BoundTo(a: Account, x: SessionId, d: DeviceId) {
    x in a.sessions && a.sessions[x] == Some(d)
  }

  function SessionsOf(a: Account, d: DeviceId): set<SessionId> {
    set x | x in a.sessions && BoundTo(a, x, d)
  }

  /** Revoking a device signs out the sessions bound to it. */
  function EndSessions(sessions: map<SessionId, Option<DeviceId>>, d: DeviceId): map<SessionId, Option<DeviceId>> {
    map x | x in sessions && sessions[x] != Some(d) :: sessions[x]
  }

  /** A session is bound once, and the statement does not look at the device's status. */
  function BindSession(a: Account, x: SessionId, d: DeviceId): Account {
    if x in a.sessions && a.sessions[x].None? && d in a.devices
    then a.(sessions := a.sessions[x := Some(d)]) else a
  }

  /** A later session is bound by a challenge that only an approved device can answer. */
  function Rebind(a: Account, x: SessionId, d: DeviceId): Account {
    if HasStatus(a, d, Approved) then BindSession(a, x, d) else a
  }

  // ---------------------------------------------------------------- registration

  predicate Registers(a: Account, x: SessionId, d: DeviceId, key: IdempotencyKey) {
    x in a.sessions && d !in a.devices && forall e :: e in a.devices ==> a.devices[e].idempotencyKey != key
  }

  /** The first device of an account is approved, every later one waits. */
  function Register(a: Account, x: SessionId, d: DeviceId, key: IdempotencyKey): Account {
    if Registers(a, x, d, key)
    then a.(devices := a.devices[d := Device(if a.devices == map[] then Approved else Pending, key)]) else a
  }

  // ---------------------------------------------------------------- envelopes

  function InsertEnvelope(a: Account, d: DeviceId, status: DeviceStatus, approver: DeviceId,
                          key: VaultKey, wrapped: Wrapped, idem: IdempotencyKey): Account {
    if a.vault == Some(key) && HasStatus(a, d, status) && HasStatus(a, approver, Approved)
       && EnvelopeId(d, key) !in a.envelopes && !EnvelopeKeyTaken(a, idem)
    then a.(envelopes := a.envelopes[EnvelopeId(d, key) := Envelope(approver, wrapped, idem)])
    else a
  }

  function InsertVault(a: Account, d: DeviceId, key: VaultKey): Account {
    if HasStatus(a, d, Approved) && a.vault.None? then a.(vault := Some(key)) else a
  }

  function Bootstrap(a: Account, d: DeviceId, keyId: KeyId, wrapped: Wrapped, idem: IdempotencyKey): Account {
    var key := VaultKey(keyId, 1);
    InsertEnvelope(InsertVault(a, d, key), d, Approved, d, key, wrapped, idem)
  }

  // ---------------------------------------------------------------- approval

  predicate HoldsEnvelope(a: Account, d: DeviceId, approver: DeviceId, key: VaultKey,
                          wrapped: Wrapped, idem: IdempotencyKey) {
    && a.vault == Some(key)
    && EnvelopeId(d, key) in a.envelopes
    && a.envelopes[EnvelopeId(d, key)] == Envelope(approver, wrapped, idem)
  }

  function InsertApproval(a: Account, d: DeviceId, approver: DeviceId, key: VaultKey,
                          wrapped: Wrapped, idem: IdempotencyKey): Account {
    if HoldsEnvelope(a, d, approver, key, wrapped, idem) && idem !in a.approvals
    then a.(approvals := a.approvals[idem := Approval(d, approver)]) else a
  }

  function ApproveDevice(a: Account, d: DeviceId, approver: DeviceId, key: VaultKey,
                         wrapped: Wrapped, idem: IdempotencyKey): Account {
    if HasStatus(a, d, Pending) && HoldsEnvelope(a, d, approver, key, wrapped, idem)
    then a.(devices := a.devices[d := a.devices[d].(status := Approved)]) else a
  }

  function Approve(a: Account, d: DeviceId, approver: DeviceId, key: VaultKey,
                   wrapped: Wrapped, idem: IdempotencyKey): Account {
    var a1 := InsertEnvelope(a, d, Pending, approver, key, wrapped, idem);
    var a2 := InsertApproval(a1, d, approver, key, wrapped, idem);
    ApproveDevice(a2, d, approver, key, wrapped, idem)
  }

  // ---------------------------------------------------------------- pending revocation

  /** The insert and the finalizing update whose trigger re-checks both devices. */
  function RevokePending(a: Account, idem: IdempotencyKey, target: DeviceId, approver: DeviceId, hash: Hash): Outcome<Account> {
    if target == approver then Aborted
    else if idem in a.pendingRevocations then Done(a, 0)
    else if target !in a.devices || approver !in a.devices then Aborted
    else if !HasStatus(a, approver, Approved) || !HasStatus(a, target, Pending) then Aborted
    else Done(a.(pendingRevocations := a.pendingRevocations[idem := PendingRevocation(target, approver, hash)],
                 devices := a.devices[target := a.devices[target].(status := Revoked)],
                 sessions := EndSessions(a.sessions, target)), 1)
  }

  // ---------------------------------------------------------------- rotation

  /** The CHECK clauses of `sync_vault_rotations`. */
  predicate RotationRowValid(r: RotationRequest) {
    && r.target != r.approver
    && r.previous.generation >= 1
    && r.next.generation == r.previous.generation + 1
    && r.next.keyId != r.previous.keyId
    && 1 <= |r.envelopes| <= MAX_ROTATION_ENVELOPES
  }

  function InsertRotation(a: Account, r: RotationRequest): Outcome<Account> {
    if !RotationRowValid(r) then Aborted
    else if r.rotation in a.rotations then Done(a, 0)
    else if a.vault.None? || r.target !in a.devices || r.approver !in a.devices then Aborted
    else
      var row := Rotation(r.target, r.approver, r.previous, r.next, r.requestHash, |r.envelopes|,
                          r.r2ObjectCount, map[], false, r.now, {}, None, false);
      Done(a.(rotations := a.rotations[r.rotation := row]), 1)
  }

  predicate OpenFor(a: Account, r: RotationRequest) {
    && r.rotation in a.rotations
    && var row := a.rotations[r.rotation];
       && !row.completed && row.target == r.target && row.approver == r.approver
       && row.previous == r.previous && row.next == r.next && row.requestHash == r.requestHash
  }

  function InsertItem(a: Account, r: RotationRequest, item: RotationItem): Outcome<Account> {
    if !OpenFor(a, r) || item.recipient in a.rotations[r.rotation].items then Done(a, 0)
    else if item.recipient !in a.devices then Aborted
    else
      var row := a.rotations[r.rotation];
      Done(a.(rotations := a.rotations[r.rotation := row.(items := row.items[item.recipient := item.wrapped])]), 1)
  }

  function InsertItems(a: Account, r: RotationRequest, items: seq<RotationItem>): Outcome<Account>
    decreases |items|
  {
    if items == [] then Done(a, 0)
    else
      match InsertItem(a, r, items[0])
      case Aborted => Aborted
      case Done(b, _) => InsertItems(b, r, items[1..])
  }

  /** The guard of the `finalize_sync_vault_rotation` trigger, after it staged the keys. */
  predicate FinalizeGuard(a: Account, row: Rotation, staged: set<R2Key>) {
    var remaining := ApprovedDevices(a) - {row.target};
    && a.vault == Some(row.previous)
    && HasStatus(a, row.approver, Approved)
    && (HasStatus(a, row.target, Pending) || HasStatus(a, row.target, Approved))
    && |row.items| == row.envelopeCount
    && |remaining| == row.envelopeCount
    && (forall d :: d in row.items ==> d in remaining)
    && (forall d :: d in remaining ==> d in row.items)
    && |staged| == row.r2ObjectCount
    && |CurrentKeys(a)| == row.r2ObjectCount
    && staged <= CurrentKeys(a)
    && CurrentKeys(a) <= staged
  }

  function DerivedEnvelopes(id: RotationId, row: Rotation): map<EnvelopeId, Envelope> {
    map e | e in (set d | d in row.items :: EnvelopeId(d, row.next))
      :: Envelope(row.approver, row.items[e.recipient], Derived(id, e.recipient))
  }

  /** The trigger's insert would break the primary key or the idempotency key. */
  predicate EnvelopeClash(a: Account, id: RotationId, row: Rotation) {
    exists d :: d in row.items
      && (EnvelopeId(d, row.next) in a.envelopes || EnvelopeKeyTaken(a, Derived(id, d)))
  }

  /** The effects of the trigger and of the update that fires it. */
  function Finish(a: Account, id: RotationId, row: Rotation): Account
    requires row.target in a.devices
  {
    a.(rotations := a.rotations[id := row.(completed := true, staged := row.staged + CurrentKeys(a))],
       envelopes := a.envelopes + DerivedEnvelopes(id, row),
       vault := Some(row.next),
       devices := a.devices[row.target := a.devices[row.target].(status := Revoked)],
       sessions := EndSessions(a.sessions, row.target))
  }

  function FinalizeRotation(a: Account, r: RotationRequest): Outcome<Account> {
    if !OpenFor(a, r) || a.rotations[r.rotation].envelopeCount != |r.envelopes|
       || a.rotations[r.rotation].r2ObjectCount != r.r2ObjectCount
    then Done(a, 0)
    else
      var row := a.rotations[r.rotation];
      var staged := row.staged + CurrentKeys(a);
      if !FinalizeGuard(a, row, staged) then Aborted
      else if EnvelopeClash(a, r.rotation, row) then Aborted
      else Done(Finish(a, r.rotation, row.(completedAt := r.now)), 1)
  }

  /** The whole batch; `changes` is the count the worker reads from its last statement. */
  function RotationBatch(a: Account, r: RotationRequest): Outcome<Account> {
    match InsertRotation(a, r)
    case Aborted => Aborted
    case Done(b, _) =>
      match InsertItems(b, r, r.envelopes)
      case Aborted => Aborted
      case Done(c, _) => FinalizeRotation(c, r)
  }

  // ---------------------------------------------------------------- what the batch amounts to

  function ItemMap(items: seq<RotationItem>): map<DeviceId, Wrapped> {
    if items == [] then map[] else ItemMap(items[1..])[items[0].recipient := items[0].wrapped]
  }

  function ItemRecipients(items: seq<RotationItem>): set<DeviceId> {
    set i | 0 <= i < |items| :: items[i].recipient
  }

  predicate DistinctRecipients(items: seq<RotationItem>) {
    forall i, j :: 0 <= i < j < |items| ==> items[i].recipient != items[j].recipient
  }

  /** Exactly the requests that a fresh rotation row completes. */
  ghost predicate RotationApplies(a: Account, r: RotationRequest) {
    && r.target != r.approver
    && r.previous.generation >= 1 && r.next.generation == r.previous.generation + 1 && r.next.keyId != r.previous.keyId
    && 1 <= |r.envelopes| <= 128
    && r.rotation !in a.rotations
    && a.vault == Some(r.previous)
    && HasStatus(a, r.approver, Approved)
    && (HasStatus(a, r.target, Pending) || HasStatus(a, r.target, Approved))
    && DistinctRecipients(r.envelopes)
    && ItemRecipients(r.envelopes) == ApprovedDevices(a) - {r.target}
    && r.r2ObjectCount == |CurrentKeys(a)|
    && (forall d :: d in ItemRecipients(r.envelopes) ==> !EnvelopeKeyTaken(a, Derived(r.rotation, d)))
  }

  function OpenedRow(r: RotationRequest): Rotation {
    Rotation(r.target, r.approver, r.previous, r.next, r.requestHash, |r.envelopes|,
             r.r2ObjectCount, ItemMap(r.envelopes), false, r.now, {}, None, false)
  }

  function Rotated(a: Account, r: RotationRequest): Account
    requires r.target in a.devices
  {
    Finish(a, r.rotation, OpenedRow(r))
  }

  // ---------------------------------------------------------------- the invariant

  /** Before the vault exists there is no envelope and no rotation, and at most one
      device is approved. */
  ghost predicate UnbornVaultOk(a: Account) {
    a.vault.None? ==>
      && a.envelopes == map[]
      && a.rotations == map[]
      && (forall d, e :: HasStatus(a, d, Approved) && HasStatus(a, e, Approved) ==> d == e)
  }

  /** The envelopes at the current key are held by exactly the approved devices. */
  ghost predicate EnvelopesOk(a: Account) {
    a.vault.Some? ==>
      && a.vault.value.generation >= 1
      && (forall d :: EnvelopeId(d, a.vault.value) in a.envelopes <==> HasStatus(a, d, Approved))
      && (forall e :: e in a.envelopes ==> e.key.generation <= a.vault.value.generation)
      && (forall r :: r in a.rotations ==> a.rotations[r].next.generation <= a.vault.value.generation)
  }

  /** Somebody can always open the vault: an account with devices has an approved one. */
  ghost predicate NeverLockedOut(a: Account) {
    && (a.vault.Some? ==> a.devices != map[])
    && (a.devices != map[] ==> exists d :: HasStatus(a, d, Approved))
  }

  ghost predicate MembersOk(a: Account) {
    && UnbornVaultOk(a)
    && EnvelopesOk(a)
    && NeverLockedOut(a)
    && (forall r :: r in a.rotations ==> a.rotations[r].completed)
  }

  lemma RecipientsAreApproved(a: Account)
    requires MembersOk(a) && a.vault.Some?
    ensures Recipients(a) == ApprovedDevices(a)
  {
    forall d
      ensures d in Recipients(a) <==> d in ApprovedDevices(a)
    {
      assert HasStatus(a, d, Approved) <==> d in ApprovedDevices(a);
      if d in Recipients(a) {
        var e :| e in a.envelopes && e.key == a.vault.value && e.recipient == d;
        assert e == EnvelopeId(d, a.vault.value);
      } else {
        assert EnvelopeId(d, a.vault.value) !in a.envelopes;
      }
    }
  }

  lemma RegisterKeepsMembers(a: Account, x: SessionId, d: DeviceId, key: IdempotencyKey)
    requires MembersOk(a)
    ensures MembersOk(Register(a, x, d, key))
  {
    var b := Register(a, x, d, key);
    if b != a {
      assert HasStatus(b, d, b.devices[d].status);
      assert forall e :: e != d ==> (HasStatus(b, e, Approved) <==> HasStatus(a, e, Approved));
      if a.devices != map[] {
        var w :| HasStatus(a, w, Approved);
        assert HasStatus(b, w, Approved);
        assert !HasStatus(b, d, Approved) && !HasStatus(a, d, Approved);
      }
    }
  }

  /** With a vault in place bootstrapping again changes nothing. */
  lemma BootstrapResult(a: Account, d: DeviceId, keyId: KeyId, wrapped: Wrapped, idem: IdempotencyKey)
    requires MembersOk(a)
    ensures Bootstrap(a, d, keyId, wrapped, idem) ==
            if a.vault.None? && HasStatus(a, d, Approved)
            then a.(vault := Some(VaultKey(keyId, 1)),
                    envelopes := map[EnvelopeId(d, VaultKey(keyId, 1)) := Envelope(d, wrapped, idem)])
            else a
  {
  }

  lemma BootstrapKeepsMembers(a: Account, d: DeviceId, keyId: KeyId, wrapped: Wrapped, idem: IdempotencyKey)
    requires MembersOk(a)
    ensures MembersOk(Bootstrap(a, d, keyId, wrapped, idem))
  {
    BootstrapResult(a, d, keyId, wrapped, idem);
    var b := Bootstrap(a, d, keyId, wrapped, idem);
    assert forall x :: HasStatus(b, x, Approved) <==> HasStatus(a, x, Approved);
    if b != a {
      forall x
        ensures EnvelopeId(x, b.vault.value) in b.envelopes <==> HasStatus(b, x, Approved)
      {
      }
    }
  }

  /** An approval takes effect as a whole or not at all: the envelope is stored and the
      device approved together, and exactly under this condition. */
  ghost predicate ApprovalApplies(a: Account, d: DeviceId, approver: DeviceId, key: VaultKey, idem: IdempotencyKey) {
    && a.vault == Some(key)
    && HasStatus(a, d, Pending)
    && HasStatus(a, approver, Approved)
    && !EnvelopeKeyTaken(a, idem)
  }

  lemma PendingHoldsNothing(a: Account, d: DeviceId)
    requires MembersOk(a) && HasStatus(a, d, Pending)
    ensures a.vault.Some? ==> EnvelopeId(d, a.vault.value) !in a.envelopes
  {
  }

  lemma ApproveTakesEffect(a: Account, d: DeviceId, approver: DeviceId, key: VaultKey, wrapped: Wrapped, idem: IdempotencyKey)
    requires ApprovalApplies(a, d, approver, key, idem) && EnvelopeId(d, key) !in a.envelopes
    ensures var b := Approve(a, d, approver, key, wrapped, idem);
            b == a.(devices := a.devices[d := a.devices[d].(status := Approved)],
                    envelopes := a.envelopes[EnvelopeId(d, key) := Envelope(approver, wrapped, idem)],
                    approvals := if idem in a.approvals then a.approvals else a.approvals[idem := Approval(d, approver)])
  {
    var a1 := InsertEnvelope(a, d, Pending, approver, key, wrapped, idem);
    assert a1 == a.(envelopes := a.envelopes[EnvelopeId(d, key) := Envelope(approver, wrapped, idem)]);
    var a2 := InsertApproval(a1, d, approver, key, wrapped, idem);
    assert a2 == a1.(approvals := if idem in a.approvals then a.approvals else a.approvals[idem := Approval(d, approver)]);
    assert HoldsEnvelope(a2, d, approver, key, wrapped, idem);
  }

  lemma ApproveIsRefused(a: Account, d: DeviceId, approver: DeviceId, key: VaultKey, wrapped: Wrapped, idem: IdempotencyKey)
    requires !ApprovalApplies(a, d, approver, key, idem)
    requires a.vault == Some(key) && HasStatus(a, d, Pending) ==> EnvelopeId(d, key) !in a.envelopes
    ensures var b := Approve(a, d, approver, key, wrapped, idem);
            && b == a.(approvals := b.approvals)
            && b.approvals ==
                 if idem !in a.approvals && a.vault == Some(key) && EnvelopeId(d, key) in a.envelopes
                    && a.envelopes[EnvelopeId(d, key)] == Envelope(approver, wrapped, idem)
                 then a.approvals[idem := Approval(d, approver)] else a.approvals
  {
    assert InsertEnvelope(a, d, Pending, approver, key, wrapped, idem) == a;
    ApprovalRecorded(a, d, approver, key, wrapped, idem);
    WaitsWithout(a, InsertApproval(a, d, approver, key, wrapped, idem), d, approver, key, wrapped, idem);
  }

  lemma WaitsWithout(a: Account, b: Account, d: DeviceId, approver: DeviceId, key: VaultKey, wrapped: Wrapped, idem: IdempotencyKey)
    requires a.vault == Some(key) && HasStatus(a, d, Pending) ==> EnvelopeId(d, key) !in a.envelopes
    requires b == a.(approvals := b.approvals)
    ensures ApproveDevice(b, d, approver, key, wrapped, idem) == b
  {
  }

  lemma ApprovalRecorded(a: Account, d: DeviceId, approver: DeviceId, key: VaultKey, wrapped: Wrapped, idem: IdempotencyKey)
    ensures var b := InsertApproval(a, d, approver, key, wrapped, idem);
            b == a.(approvals :=
              if idem !in a.approvals && a.vault == Some(key) && EnvelopeId(d, key) in a.envelopes
                 && a.envelopes[EnvelopeId(d, key)] == Envelope(approver, wrapped, idem)
              then a.approvals[idem := Approval(d, approver)] else a.approvals)
  {
  }

  lemma ApproveKeepsMembers(a: Account, d: DeviceId, approver: DeviceId, key: VaultKey, wrapped: Wrapped, idem: IdempotencyKey)
    requires MembersOk(a)
    ensures MembersOk(Approve(a, d, approver, key, wrapped, idem))
  {
    if HasStatus(a, d, Pending) { PendingHoldsNothing(a, d); }
    var b := Approve(a, d, approver, key, wrapped, idem);
    if ApprovalApplies(a, d, approver, key, idem) {
      ApproveTakesEffect(a, d, approver, key, wrapped, idem);
      AdmittingKeepsMembers(a, b, d, Envelope(approver, wrapped, idem));
    } else {
      ApproveIsRefused(a, d, approver, key, wrapped, idem);
      assert forall x, s :: HasStatus(b, x, s) <==> HasStatus(a, x, s);
    }
  }

  lemma AdmittingKeepsMembers(a: Account, b: Account, d: DeviceId, e: Envelope)
    requires MembersOk(a) && a.vault.Some? && d in a.devices
    requires b.devices == a.devices[d := a.devices[d].(status := Approved)]
    requires b.envelopes == a.envelopes[EnvelopeId(d, a.vault.value) := e]
    requires b.vault == a.vault && b.rotations == a.rotations
    ensures MembersOk(b)
  {
  }

  /** Exactly the requests that revoke a device that still waits. */
  predicate RevocationApplies(a: Account, idem: IdempotencyKey, target: DeviceId, approver: DeviceId) {
    && target != approver && idem !in a.pendingRevocations
    && HasStatus(a, target, Pending) && HasStatus(a, approver, Approved)
  }

  /** The device is revoked, its sessions are gone, the request is on record and nothing else
      has changed. */
  ghost predicate RevokedExactly(a: Account, b: Account, idem: IdempotencyKey, target: DeviceId, approver: DeviceId, hash: Hash) {
    && OnlyRevokes(a, b, target)
    && b.pendingRevocations == a.pendingRevocations[idem := PendingRevocation(target, approver, hash)]
    && b == a.(devices := b.devices, sessions := b.sessions, pendingRevocations := b.pendingRevocations)
  }

  /** The batch revokes exactly a waiting device of an approved one's account; an identifier
      used before changes nothing, and anything else aborts. */
  lemma RevokePendingResult(a: Account, idem: IdempotencyKey, target: DeviceId, approver: DeviceId, hash: Hash)
    ensures var o := RevokePending(a, idem, target, approver, hash);
            if RevocationApplies(a, idem, target, approver)
            then o.Done? && o.changes == 1 && RevokedExactly(a, o.state, idem, target, approver, hash)
            else if target != approver && idem in a.pendingRevocations then o == Done(a, 0)
            else o == Aborted
  {
  }

  lemma RevokePendingKeepsMembers(a: Account, idem: IdempotencyKey, target: DeviceId, approver: DeviceId, hash: Hash)
    requires MembersOk(a) && RevokePending(a, idem, target, approver, hash).Done?
    ensures MembersOk(RevokePending(a, idem, target, approver, hash).state)
  {
    var b := RevokePending(a, idem, target, approver, hash).state;
    assert forall x :: HasStatus(b, x, Approved) <==> HasStatus(a, x, Approved);
    if a.devices != map[] {
      var w :| HasStatus(a, w, Approved);
      assert HasStatus(b, w, Approved);
    }
  }

  // ---------------------------------------------------------------- rotation is all or nothing

  lemma {:induction false} ItemMapKeys(items: seq<RotationItem>)
    ensures ItemMap(items).Keys == ItemRecipients(items)
  {
    if items != [] {
      ItemMapKeys(items[1..]);
      assert forall i :: 1 <= i < |items| ==> items[i] == items[1..][i - 1];
    }
  }

  lemma {:induction false} DistinctByCount(items: seq<RotationItem>)
    ensures |ItemRecipients(items)| <= |items|
    ensures |ItemRecipients(items)| == |items| <==> DistinctRecipients(items)
  {
    if items == [] {
      assert ItemRecipients(items) == {};
    } else {
      var last := |items| - 1;
      var front := items[..last];
      DistinctByCount(front);
      assert forall i :: 0 <= i < last ==> front[i] == items[i];
      assert ItemRecipients(items) == ItemRecipients(front) + {items[last].recipient};
      if items[last].recipient in ItemRecipients(front) {
        assert ItemRecipients(items) == ItemRecipients(front);
        assert !DistinctRecipients(items);
      } else if DistinctRecipients(front) {
        assert DistinctRecipients(items);
      }
    }
  }

  function WithItems(a: Account, id: RotationId, items: map<DeviceId, Wrapped>): Account
    requires id in a.rotations
  {
    a.(rotations := a.rotations[id := a.rotations[id].(items := items)])
  }

  lemma InsertItemResult(a: Account, r: RotationRequest, item: RotationItem)
    requires OpenFor(a, r)
    ensures var items := a.rotations[r.rotation].items;
            InsertItem(a, r, item).Done? ==>
              InsertItem(a, r, item).state
                == WithItems(a, r.rotation, map[item.recipient := item.wrapped] + items)
  {
    var items := a.rotations[r.rotation].items;
    if item.recipient in items {
      assert map[item.recipient := item.wrapped] + items == items;
      assert a.rotations[r.rotation := a.rotations[r.rotation]] == a.rotations;
    } else {
      assert map[item.recipient := item.wrapped] + items == items[item.recipient := item.wrapped];
    }
  }

  lemma WithItemsTwice(a: Account, id: RotationId, first: map<DeviceId, Wrapped>, second: map<DeviceId, Wrapped>)
    requires id in a.rotations
    ensures WithItems(WithItems(a, id, first), id, second) == WithItems(a, id, second)
  {
  }

  lemma ItemMapHead(items: seq<RotationItem>, stored: map<DeviceId, Wrapped>)
    requires items != []
    ensures ItemMap(items[1..]) + (map[items[0].recipient := items[0].wrapped] + stored) == ItemMap(items) + stored
    ensures ItemRecipients(items) == ItemRecipients(items[1..]) + {items[0].recipient}
  {
  }

  lemma {:induction false} InsertItemsResult(a: Account, r: RotationRequest, items: seq<RotationItem>)
    requires OpenFor(a, r) && a.rotations[r.rotation].items.Keys <= a.devices.Keys
    ensures InsertItems(a, r, items) ==
            if ItemRecipients(items) <= a.devices.Keys
            then Done(WithItems(a, r.rotation, ItemMap(items) + a.rotations[r.rotation].items), 0)
            else Aborted
    decreases |items|
  {
    var stored := a.rotations[r.rotation].items;
    if items == [] {
      assert ItemMap(items) + stored == stored;
      assert a.rotations[r.rotation := a.rotations[r.rotation]] == a.rotations;
    } else {
      var head, rest := items[0], items[1..];
      ItemMapHead(items, stored);
      match InsertItem(a, r, head)
      case Aborted =>
        assert head.recipient !in a.devices;
      case Done(b, _) =>
        InsertItemResult(a, r, head);
        var one := map[head.recipient := head.wrapped] + stored;
        InsertItemsResult(b, r, rest);
        WithItemsTwice(a, r.rotation, one, ItemMap(rest) + one);
        assert InsertItems(a, r, items) == InsertItems(b, r, rest);
        assert head.recipient in a.devices;
    }
  }

  /** An identifier that was used before changes nothing, whatever the request says. */
  lemma {:induction false} ReplayedRotation(a: Account, r: RotationRequest, items: seq<RotationItem>)
    requires !OpenFor(a, r)
    ensures InsertItems(a, r, items) == Done(a, 0)
    decreases |items|
  {
    if items != [] { ReplayedRotation(a, r, items[1..]); }
  }

  /** What the account looks like when the finalizing statement runs on a fresh row. */
  lemma FreshRotation(a: Account, r: RotationRequest)
    requires RotationRowValid(r) && r.rotation !in a.rotations && a.vault.Some?
    requires r.target in a.devices && r.approver in a.devices
    ensures RotationBatch(a, r) ==
            if ItemRecipients(r.envelopes) <= a.devices.Keys
            then FinalizeRotation(a.(rotations := a.rotations[r.rotation := OpenedRow(r)]), r)
            else Aborted
  {
    var b := InsertRotation(a, r).state;
    InsertItemsResult(b, r, r.envelopes);
    if InsertItems(b, r, r.envelopes).Done? {
      assert ItemMap(r.envelopes) + map[] == ItemMap(r.envelopes);
      assert b.rotations[r.rotation := OpenedRow(r)] == a.rotations[r.rotation := OpenedRow(r)];
    }
  }

  /** The two quantified comparisons and the three counts of the trigger say that the
      items name each remaining device once. */
  lemma ItemsNameRemaining(items: seq<RotationItem>, remaining: set<DeviceId>)
    ensures (&& |ItemMap(items)| == |items| && |remaining| == |items|
             && (forall d :: d in ItemMap(items) ==> d in remaining)
             && (forall d :: d in remaining ==> d in ItemMap(items)))
       <==> DistinctRecipients(items) && ItemRecipients(items) == remaining
  {
    ItemMapKeys(items);
    DistinctByCount(items);
    var keys := ItemMap(items).Keys;
    assert |ItemMap(items)| == |keys|;
    assert (forall d :: d in ItemMap(items) ==> d in remaining) <==> keys <= remaining;
    assert (forall d :: d in remaining ==> d in ItemMap(items)) <==> remaining <= keys;
  }

  lemma SameCurrentKeys(a: Account, b: Account)
    requires b.snapshots == a.snapshots && b.objects == a.objects
    ensures CurrentKeys(b) == CurrentKeys(a)
  {
  }

  lemma SameApproved(a: Account, b: Account)
    requires b.devices == a.devices
    ensures ApprovedDevices(b) == ApprovedDevices(a)
  {
  }

  lemma UpdatedTwice(rows: map<RotationId, Rotation>, id: RotationId, first: Rotation, second: Rotation)
    ensures rows[id := first][id := second] == rows[id := second]
  {
  }

  lemma FinalizeGuardMeaning(a: Account, b: Account, r: RotationRequest)
    requires b == a.(rotations := b.rotations)
    ensures FinalizeGuard(b, OpenedRow(r), {} + CurrentKeys(b)) <==>
              && a.vault == Some(r.previous)
              && HasStatus(a, r.approver, Approved)
              && (HasStatus(a, r.target, Pending) || HasStatus(a, r.target, Approved))
              && DistinctRecipients(r.envelopes)
              && ItemRecipients(r.envelopes) == ApprovedDevices(a) - {r.target}
              && r.r2ObjectCount == |CurrentKeys(a)|
  {
    SameApproved(a, b);
    SameCurrentKeys(a, b);
    assert {} + CurrentKeys(b) == CurrentKeys(a);
    ItemsNameRemaining(r.envelopes, ApprovedDevices(a) - {r.target});
  }

  lemma NewKeyIsFresh(a: Account, r: RotationRequest)
    requires MembersOk(a) && RotationRowValid(r)
    ensures a.vault == Some(r.previous) ==> forall d :: EnvelopeId(d, r.next) !in a.envelopes
  {
  }

  lemma FinishIgnoresOpenRow(a: Account, b: Account, id: RotationId, row: Rotation)
    requires b == a.(rotations := a.rotations[id := row]) && row.target in a.devices
    ensures Finish(b, id, row) == Finish(a, id, row)
  {
    SameCurrentKeys(a, b);
    UpdatedTwice(a.rotations, id, row, row.(completed := true, staged := row.staged + CurrentKeys(a)));
  }

  lemma FinalizeResult(a: Account, b: Account, r: RotationRequest)
    requires RotationRowValid(r)
    requires b == a.(rotations := a.rotations[r.rotation := OpenedRow(r)])
    requires FinalizeGuard(b, OpenedRow(r), {} + CurrentKeys(b))
    requires !EnvelopeClash(b, r.rotation, OpenedRow(r))
    ensures r.target in a.devices && FinalizeRotation(b, r) == Done(Rotated(a, r), 1)
  {
    assert b.rotations[r.rotation] == OpenedRow(r);
    assert OpenFor(b, r);
    assert OpenedRow(r).staged + CurrentKeys(b) == {} + CurrentKeys(b);
    FinishIgnoresOpenRow(a, b, r.rotation, OpenedRow(r));
  }

  lemma AppliedRotation(a: Account, r: RotationRequest)
    requires MembersOk(a) && RotationApplies(a, r)
    ensures RotationBatch(a, r) == Done(Rotated(a, r), 1)
  {
    assert ItemRecipients(r.envelopes) <= a.devices.Keys;
    FreshRotation(a, r);
    var b := a.(rotations := a.rotations[r.rotation := OpenedRow(r)]);
    FinalizeGuardMeaning(a, b, r);
    ItemMapKeys(r.envelopes);
    NewKeyIsFresh(a, r);
    assert !EnvelopeClash(b, r.rotation, OpenedRow(r)) by {
      forall d | d in ItemMap(r.envelopes)
        ensures EnvelopeId(d, r.next) !in b.envelopes && !EnvelopeKeyTaken(b, Derived(r.rotation, d))
      {
        assert EnvelopeKeyTaken(b, Derived(r.rotation, d)) ==> EnvelopeKeyTaken(a, Derived(r.rotation, d));
      }
    }
    FinalizeResult(a, b, r);
  }

  lemma RefusedRotation(a: Account, r: RotationRequest)
    requires !RotationApplies(a, r) && RotationRowValid(r) && r.rotation !in a.rotations
    ensures RotationBatch(a, r) == Aborted
  {
    if a.vault.Some? && r.target in a.devices && r.approver in a.devices
       && ItemRecipients(r.envelopes) <= a.devices.Keys {
      FreshRotation(a, r);
      var row := OpenedRow(r);
      var b := a.(rotations := a.rotations[r.rotation := row]);
      FinalizeGuardMeaning(a, b, r);
      ItemMapKeys(r.envelopes);
      if FinalizeGuard(b, row, row.staged + CurrentKeys(b)) {
        var d :| d in ItemRecipients(r.envelopes) && EnvelopeKeyTaken(a, Derived(r.rotation, d));
        assert d in row.items && EnvelopeKeyTaken(b, Derived(r.rotation, d));
      }
    } else if a.vault.Some? && r.target in a.devices && r.approver in a.devices {
      FreshRotation(a, r);
    }
  }

  /** The three kinds of statement of a rotation batch either all take effect, exactly
      when the request fits the present account, or leave every table as it was. */
  lemma RotationAllOrNothing(a: Account, r: RotationRequest)
    requires MembersOk(a)
    ensures RotationBatch(a, r) ==
            if RotationApplies(a, r) then Done(Rotated(a, r), 1)
            else if RotationRowValid(r) && r.rotation in a.rotations then Done(a, 0)
            else Aborted
  {
    if !RotationRowValid(r) {
    } else if r.rotation in a.rotations {
      assert !OpenFor(a, r);
      ReplayedRotation(a, r, r.envelopes);
    } else if RotationApplies(a, r) {
      AppliedRotation(a, r);
    } else {
      RefusedRotation(a, r);
    }
  }

  lemma RotatedItems(a: Account, r: RotationRequest)
    requires RotationApplies(a, r)
    ensures OpenedRow(r).items.Keys == ApprovedDevices(a) - {r.target}
  {
    ItemMapKeys(r.envelopes);
  }

  lemma FinishedEnvelopes(a: Account, id: RotationId, row: Rotation)
    requires row.target in a.devices
    requires row.items.Keys == ApprovedDevices(a) - {row.target}
    requires forall d :: EnvelopeId(d, row.next) !in a.envelopes
    ensures forall d :: EnvelopeId(d, row.next) in Finish(a, id, row).envelopes <==> HasStatus(Finish(a, id, row), d, Approved)
    ensures forall e :: e in Finish(a, id, row).envelopes ==> e in a.envelopes || e.key == row.next
  {
    var b := Finish(a, id, row);
    forall d
      ensures EnvelopeId(d, row.next) in b.envelopes <==> HasStatus(b, d, Approved)
    {
      assert EnvelopeId(d, row.next) in DerivedEnvelopes(id, row) <==> d in row.items;
      assert d in ApprovedDevices(a) - {row.target} <==> HasStatus(b, d, Approved);
    }
  }

  /** Replacing the current key keeps the invariant when the new envelopes go to exactly
      the devices that stay approved. */
  lemma RekeyedOk(a: Account, b: Account, next: VaultKey)
    requires MembersOk(a) && a.vault.Some? && b.vault == Some(next)
    requires next.generation == a.vault.value.generation + 1
    requires b.devices != map[] && exists d :: HasStatus(b, d, Approved)
    requires forall d :: EnvelopeId(d, next) in b.envelopes <==> HasStatus(b, d, Approved)
    requires forall e :: e in b.envelopes ==> e in a.envelopes || e.key == next
    requires forall i :: i in b.rotations ==>
               (b.rotations[i].completed && b.rotations[i].next == next)
               || (i in a.rotations && b.rotations[i] == a.rotations[i])
    ensures MembersOk(b)
  {
  }

  lemma FinishKeepsMembers(a: Account, id: RotationId, row: Rotation)
    requires MembersOk(a) && a.vault.Some? && row.next.generation == a.vault.value.generation + 1
    requires row.target in a.devices && row.approver != row.target && HasStatus(a, row.approver, Approved)
    requires row.items.Keys == ApprovedDevices(a) - {row.target}
    requires forall d :: EnvelopeId(d, row.next) !in a.envelopes
    ensures MembersOk(Finish(a, id, row))
  {
    FinishedEnvelopes(a, id, row);
    var b := Finish(a, id, row);
    assert HasStatus(b, row.approver, Approved);
    RekeyedOk(a, b, row.next);
  }

  lemma RotationKeepsMembers(a: Account, r: RotationRequest)
    requires MembersOk(a) && RotationApplies(a, r)
    ensures MembersOk(Rotated(a, r))
  {
    RotatedItems(a, r);
    NewKeyIsFresh(a, r);
    FinishKeepsMembers(a, r.rotation, OpenedRow(r));
  }

  // ---------------------------------------------------------------- what a rotation delivers

  /** What a request sends to a recipient. */
  predicate Sends(r: RotationRequest, d: DeviceId, wrapped: Wrapped) {
    exists i :: 0 <= i < |r.envelopes| && r.envelopes[i] == RotationItem(d, wrapped)
  }

  lemma {:induction false} ItemMapSends(items: seq<RotationItem>, i: nat)
    requires i < |items| && DistinctRecipients(items)
    ensures items[i].recipient in ItemMap(items) && ItemMap(items)[items[i].recipient] == items[i].wrapped
  {
    if i > 0 { ItemMapSends(items[1..], i - 1); }
  }

  /** Each remaining device holds the envelope that the request sent for it, and older
      envelopes stay. */
  ghost predicate Delivered(before: map<EnvelopeId, Envelope>, after: map<EnvelopeId, Envelope>, r: RotationRequest) {
    && (forall d, w :: Sends(r, d, w) ==>
          EnvelopeId(d, r.next) in after && after[EnvelopeId(d, r.next)] == Envelope(r.approver, w, Derived(r.rotation, d)))
    && (forall e :: e in after ==> e in before || (e.key == r.next && exists w :: Sends(r, e.recipient, w)))
    && (forall e :: e in before ==> e in after && after[e] == before[e])
  }

  /** Of the devices and the sessions only the target's change. */
  ghost predicate OnlyRevokes(a: Account, b: Account, target: DeviceId) {
    && HasStatus(b, target, Revoked)
    && b.devices.Keys == a.devices.Keys && (forall d :: d in a.devices && d != target ==> b.devices[d] == a.devices[d])
    && (forall x :: x in b.sessions <==> x in a.sessions && !BoundTo(a, x, target))
    && (forall x :: x in b.sessions ==> b.sessions[x] == a.sessions[x])
  }

  /** One of the account's rows stores this key. */
  ghost predicate StoredUnder(a: Account, k: R2Key) {
    || (exists sid :: sid in a.snapshots && a.snapshots[sid].key == k)
    || (exists oid :: oid in a.objects && a.objects[oid] == k)
  }

  /** The row of the rotation: its parties and keys, complete, with every stored key staged. */
  ghost predicate RotationRecorded(a: Account, b: Account, r: RotationRequest) {
    && b.rotations.Keys == a.rotations.Keys + {r.rotation}
    && (forall id :: id in a.rotations && id != r.rotation ==> b.rotations[id] == a.rotations[id])
    && var row := b.rotations[r.rotation];
       && row.target == r.target && row.approver == r.approver && row.previous == r.previous && row.next == r.next
       && row.requestHash == r.requestHash && row.envelopeCount == |r.envelopes| && row.r2ObjectCount == r.r2ObjectCount
       && row.completed && row.completedAt == r.now && row.cleanup.None? && !row.storageCleaned
       && (forall k :: k in row.staged <==> StoredUnder(a, k))
       && (forall d, w :: Sends(r, d, w) ==> d in row.items && row.items[d] == w)
  }

  lemma SentItems(r: RotationRequest)
    requires DistinctRecipients(r.envelopes)
    ensures forall d, w :: Sends(r, d, w) <==> d in ItemMap(r.envelopes) && ItemMap(r.envelopes)[d] == w
  {
    ItemMapKeys(r.envelopes);
    forall i | 0 <= i < |r.envelopes|
      ensures r.envelopes[i].recipient in ItemMap(r.envelopes)
      ensures ItemMap(r.envelopes)[r.envelopes[i].recipient] == r.envelopes[i].wrapped
    {
      ItemMapSends(r.envelopes, i);
    }
    forall d, w | d in ItemMap(r.envelopes) && ItemMap(r.envelopes)[d] == w
      ensures Sends(r, d, w)
    {
      assert d in ItemRecipients(r.envelopes);
      var i :| 0 <= i < |r.envelopes| && r.envelopes[i].recipient == d;
      assert r.envelopes[i] == RotationItem(d, w);
    }
  }

  lemma EnvelopesDelivered(before: map<EnvelopeId, Envelope>, r: RotationRequest)
    requires DistinctRecipients(r.envelopes) && forall d :: EnvelopeId(d, r.next) !in before
    ensures Delivered(before, before + DerivedEnvelopes(r.rotation, OpenedRow(r)), r)
  {
    SentItems(r);
    var row := OpenedRow(r);
    var derived := DerivedEnvelopes(r.rotation, row);
    forall d, w | Sends(r, d, w)
      ensures EnvelopeId(d, r.next) in derived && derived[EnvelopeId(d, r.next)] == Envelope(r.approver, w, Derived(r.rotation, d))
    {
      assert d in row.items;
    }
    forall e | e in derived
      ensures e.key == r.next && Sends(r, e.recipient, row.items[e.recipient])
    {
      assert e.recipient in row.items;
    }
  }

  lemma RotatedRow(a: Account, r: RotationRequest)
    requires r.target in a.devices && DistinctRecipients(r.envelopes)
    ensures RotationRecorded(a, Rotated(a, r), r)
  {
    SentItems(r);
    var row := OpenedRow(r);
    assert Rotated(a, r).rotations == a.rotations[r.rotation := row.(completed := true, staged := {} + CurrentKeys(a))];
    forall k
      ensures k in {} + CurrentKeys(a) <==> StoredUnder(a, k)
    {
      StagedKeys(a, k);
    }
  }

  lemma StagedKeys(a: Account, k: R2Key)
    ensures k in CurrentKeys(a) <==> StoredUnder(a, k)
  {
  }

  /** A rotation that takes effect delivers every envelope that was sent, revokes the target
      alone and stages everything the account stores. */
  lemma RotationDelivers(a: Account, r: RotationRequest)
    requires MembersOk(a) && RotationApplies(a, r)
    ensures var b := Rotated(a, r);
            && b.vault == Some(r.next) && Delivered(a.envelopes, b.envelopes, r) && OnlyRevokes(a, b, r.target) && RotationRecorded(a, b, r)
            && b == a.(vault := b.vault, envelopes := b.envelopes, devices := b.devices, sessions := b.sessions, rotations := b.rotations)
  {
    EnvelopesDelivered(a.envelopes, r) by { NewKeyIsFresh(a, r); }
    RotatedRow(a, r);
    RotatedOthers(a, r);
  }

  lemma RotatedOthers(a: Account, r: RotationRequest)
    requires r.target in a.devices
    ensures var b := Rotated(a, r);
            && b.vault == Some(r.next) && OnlyRevokes(a, b, r.target)
            && b.envelopes == a.envelopes + DerivedEnvelopes(r.rotation, OpenedRow(r))
            && b == a.(vault := b.vault, envelopes := b.envelopes, devices := b.devices, sessions := b.sessions, rotations := b.rotations)
  {
  }
}
