/** A run, step by step, in which a repeated rotation is refused although no other rotation
    followed it. */
module LateBindingWitness {
  import opened Wrappers
  import opened SyncTables
  import opened VaultMembership
  import opened StorageProtocol
  import opened ProtocolInvariant
  import opened ProtocolRuns
  import opened ProtocolHistory
  import opened RotationRecords
  import opened ProtocolWitnesses

  const ADMITTED := TWO_DEVICES.(
    devices := map[1 := Device(Approved, Client(0)), 2 := Device(Approved, Client(2))],
    envelopes := TWO_DEVICES.envelopes[EnvelopeId(2, FIRST_KEY) := Envelope(1, 0, Client(3))],
    approvals := map[Client(3) := Approval(2, 1)])

  const CONFIRMED := REGISTRARS[1 := Registrar(1, 0, 2, Client(2), Confirmed)]

  function Confirmed2(a: Account): State {
    Account2(a).(registrars := CONFIRMED)
  }

  function RotatedOut(): Account {
    Rotated(ADMITTED, ROTATION)
  }

  function Bound(): State {
    BindStep(Confirmed2(RotatedOut()), 1)
  }

  lemma BySession(s: State, e: Event)
    requires SessionEvent(e) && SessionEnabled(s, e)
    ensures Moves(s, e, SessionStep(s, e))
  {
  }

  lemma ConfirmSecond()
    ensures Moves(Account2(TWO_DEVICES), RegisterConfirm(1), Confirmed2(TWO_DEVICES))
  {
    var s := Account2(TWO_DEVICES);
    assert AccountOf(s.db, 1) == TWO_DEVICES;
    assert Confirms(TWO_DEVICES, s.registrars[1]);
    BySession(s, RegisterConfirm(1));
  }

  lemma ApprovalGives()
    ensures Approve(TWO_DEVICES, 2, 1, FIRST_KEY, 0, Client(3)) == ADMITTED
  {
    ApproveTakesEffect(TWO_DEVICES, 2, 1, FIRST_KEY, 0, Client(3));
    assert TWO_DEVICES.devices[2 := Device(Approved, Client(2))] == ADMITTED.devices;
  }

  lemma BatchWrites(s: State, e: Event)
    requires MembershipEvent(e) && !e.RegisterDevice? && e.user in s.db.accounts
    ensures MembershipStep(s, e) == WithAccount(s, e.user, MembersAfter(s.db.accounts[e.user], e))
  {
    MembershipTables(s, e);
  }

  lemma ConfirmedApart(a: Account, b: Account)
    ensures Confirmed2(a).db.accounts == map[1 := a] && WithAccount(Confirmed2(a), 1, b) == Confirmed2(b)
  {
    assert Confirmed2(a).db.accounts[1 := b] == map[1 := b];
  }

  lemma ByBatch(s: State, e: Event, a: Account, b: Account)
    requires MembershipEvent(e) && !e.RegisterDevice? && e.user == 1 && s == Confirmed2(a)
    requires MembersAfter(a, e) == b
    ensures Moves(s, e, Confirmed2(b))
  {
    BatchWrites(s, e);
    ConfirmedApart(a, b);
    ByMembership(s, e, Confirmed2(b));
  }

  lemma ApproveSecond()
    ensures Moves(Confirmed2(TWO_DEVICES), ApprovePending(1, 2, 1, FIRST_KEY, 0, Client(3)), Confirmed2(ADMITTED))
  {
    ApprovalGives();
    ByBatch(Confirmed2(TWO_DEVICES), ApprovePending(1, 2, 1, FIRST_KEY, 0, Client(3)), TWO_DEVICES, ADMITTED);
  }

  lemma StillOneStored()
    ensures CurrentKeys(ADMITTED) == {HERE} && ApprovedDevices(ADMITTED) - {2} == {1}
  {
    assert ADMITTED.snapshots[5].key == HERE;
  }

  lemma AdmittedRotationFits()
    ensures RotationApplies(ADMITTED, ROTATION)
  {
    StillOneStored();
    assert ROTATION.envelopes[0].recipient == 1;
    assert ItemRecipients(ROTATION.envelopes) == {1};
  }

  lemma RotateSecond()
    requires MembersOk(ADMITTED)
    ensures Moves(Confirmed2(ADMITTED), RotateVault(1, ROTATION), Confirmed2(RotatedOut()))
  {
    AdmittedRotationFits();
    RotatedOrSame(ADMITTED, ROTATION);
    ByBatch(Confirmed2(ADMITTED), RotateVault(1, ROTATION), ADMITTED, RotatedOut());
  }

  lemma RotatedSessions(a: Account, r: RotationRequest)
    requires r.target in a.devices
    ensures Rotated(a, r).sessions == EndSessions(a.sessions, r.target) && r.target in Rotated(a, r).devices
  {
  }

  /** The session was not bound yet, so the rotation could not end it. */
  lemma SessionSurvives()
    ensures RotatedOut().sessions == map[0 := None] && 2 in RotatedOut().devices
  {
    RotatedSessions(ADMITTED, ROTATION);
    assert EndSessions(ADMITTED.sessions, 2) == map[0 := None];
  }

  lemma BindsSecond(a: Account)
    requires a.sessions == map[0 := None] && 2 in a.devices
    ensures BindSession(a, 0, 2) == a.(sessions := map[0 := Some(2)])
  {
    assert a.sessions[0 := Some(2)] == map[0 := Some(2)];
  }

  lemma BindGives(a: Account)
    requires a.sessions == map[0 := None] && 2 in a.devices
    ensures AccountOf(BindStep(Confirmed2(a), 1).db, 1) == a.(sessions := map[0 := Some(2)])
  {
    BindsSecond(a);
  }

  lemma BindMoves(a: Account)
    ensures Moves(Confirmed2(a), RegisterBind(1), BindStep(Confirmed2(a), 1))
  {
    BySession(Confirmed2(a), RegisterBind(1));
  }

  lemma BoundSecond()
    ensures AccountOf(Bound().db, 1).sessions == map[0 := Some(2)]
  {
    SessionSurvives();
    BindGives(RotatedOut());
  }

  lemma BindIsNoRotation(t: Trace, i: nat)
    requires |t.states| == |t.events| + 1 && i + 2 == |t.events| && t.events[i + 1].RegisterBind?
    ensures NotRotated(t.states, t.events, 1, i + 1, |t.events|)
  {
  }

  lemma BoundIsRefused(t: Trace, i: nat)
    requires Run(t.states, t.events) && i + 2 == |t.events| && t.events[i + 1].RegisterBind?
    requires Rotates(t.states[i], t.events[i], 1)
    requires BoundTo(AccountOf(t.states[i + 2].db, 1), 0, t.events[i].request.target)
    ensures Replay(AccountOf(t.states[i + 2].db, 1), t.events[i].request) == ResultInvalid
  {
    assert 0 in SessionsOf(AccountOf(t.states[i + 2].db, 1), t.events[i].request.target);
    RepeatedRotation(t.states, t.events, 1, i, i + 2, t.events[i].request);
  }

  lemma AdmittedRotates()
    ensures Rotates(Confirmed2(ADMITTED), RotateVault(1, ROTATION), 1)
  {
    AdmittedRotationFits();
    assert AccountOf(Confirmed2(ADMITTED).db, 1) == ADMITTED;
  }

  lemma UntilAdmitted() returns (t: Trace)
    ensures Reaches(t, Confirmed2(ADMITTED))
  {
    t := FirstSteps();
    RegisterSecond();
    t := Extend(t, Saved1(), RegisterDevice(1, 1, 0, 2, Client(2)), Account2(TWO_DEVICES));
    ConfirmSecond();
    t := Extend(t, Account2(TWO_DEVICES), RegisterConfirm(1), Confirmed2(TWO_DEVICES));
    ApproveSecond();
    t := Extend(t, Confirmed2(TWO_DEVICES), ApprovePending(1, 2, 1, FIRST_KEY, 0, Client(3)), Confirmed2(ADMITTED));
  }

  lemma MembersAdmitted(t: Trace)
    requires Reaches(t, Confirmed2(ADMITTED))
    ensures MembersOk(ADMITTED)
  {
    ReachedIsOk(t, Confirmed2(ADMITTED));
    MembersOf(Confirmed2(ADMITTED), 1);
  }

  /** A registration of a device stalls before it binds its session; the device is approved
      and rotated out; then the session is bound.  The rotation took effect, no other one
      did, and its repetition is refused. */
  lemma LateBindingIsReachable() returns (t: Trace, i: nat)
    ensures Reaches(t, Bound()) && i + 2 == |t.events|
    ensures Rotates(t.states[i], t.events[i], 1) && t.events[i].request == ROTATION
    ensures NotRotated(t.states, t.events, 1, i + 1, |t.events|)
    ensures Replay(AccountOf(Bound().db, 1), ROTATION) == ResultInvalid
  {
    t := UntilAdmitted();
    i := |t.events|;
    MembersAdmitted(t);
    RotateSecond();
    t := Extend(t, Confirmed2(ADMITTED), RotateVault(1, ROTATION), Confirmed2(RotatedOut()));
    BindMoves(RotatedOut());
    t := Extend(t, Confirmed2(RotatedOut()), RegisterBind(1), Bound());
    AdmittedRotates();
    BindIsNoRotation(t, i);
    BoundSecond();
    BoundIsRefused(t, i);
  }
}
