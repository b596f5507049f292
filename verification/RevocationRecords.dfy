/** What the record of a device that was turned away while it waited says later: when the
    repeated request is answered from it, and when it is refused. */
module RevocationRecords {
  import opened SyncTables
  import opened VaultMembership
  import opened StorageProtocol
  import opened ProtocolRuns
  import opened VaultHistory
  import opened RotationRecords
  import opened ProtocolWitnesses
  import opened LateBindingWitness

  /** `completedPendingDocument` on what the result query reads. */
  function ReplayRevocation(a: Account, idem: IdempotencyKey, target: DeviceId, approver: DeviceId, hash: Hash): ReplayAnswer {
    if idem !in a.pendingRevocations then NoRecord else
    var row := a.pendingRevocations[idem];
    if row.target != target || row.approver != approver || row.requestHash != hash then ReplayMismatch
    else if HasStatus(a, row.target, Revoked) && |SessionsOf(a, row.target)| == 0 then Completed
    else ResultInvalid
  }

  /** This event turned a waiting device away. */
  ghost predicate TurnsAway(s: State, e: Event) {
    e.RevokePendingDevice? && RevocationApplies(AccountOf(s.db, e.user), e.idem, e.device, e.approver)
  }

  lemma TurnedAway(states: seq<State>, events: seq<Event>, i: nat)
    requires Run(states, events) && i < |events| && TurnsAway(states[i], events[i])
    ensures var e, b := events[i], AccountOf(states[i + 1].db, events[i].user);
            && HasStatus(b, e.device, Revoked) && SessionsOf(b, e.device) == {}
            && e.idem in b.pendingRevocations
            && b.pendingRevocations[e.idem] == PendingRevocation(e.device, e.approver, e.requestHash)
  {
    RunPendingRevocation(states, events, i);
  }

  /** Until the account is deleted, the repeated request is refused for any other content, and
      answered as completed exactly while no session is bound to the device. */
  lemma RepeatedRevocation(states: seq<State>, events: seq<Event>, i: nat, j: nat, target: DeviceId, approver: DeviceId, hash: Hash)
    requires Run(states, events) && i < j < |states| && TurnsAway(states[i], events[i])
    requires NotErased(events, events[i].user, i + 1, j)
    ensures var e, b := events[i], AccountOf(states[j].db, events[i].user);
            ReplayRevocation(b, e.idem, target, approver, hash) ==
              if target != e.device || approver != e.approver || hash != e.requestHash then ReplayMismatch
              else if forall x :: !BoundTo(b, x, e.device) then Completed
              else ResultInvalid
  {
    var u, d := events[i].user, events[i].device;
    TurnedAway(states, events, i);
    RevocationIsFinal(states, events, u, i + 1, j);
    SessionsByCount(AccountOf(states[j].db, u), d);
  }

  lemma SessionsByCount(a: Account, d: DeviceId)
    ensures |SessionsOf(a, d)| == 0 <==> forall x :: !BoundTo(a, x, d)
  {
    if |SessionsOf(a, d)| == 0 {
      forall x
        ensures !BoundTo(a, x, d)
      {
        assert x !in SessionsOf(a, d);
      }
    }
  }

  /** A session of such a device was bound by a registration that had read the device back
      before it was turned away. */
  lemma LateSession(states: seq<State>, events: seq<Event>, i: nat, j: nat, x: SessionId)
    requires Run(states, events) && i < j < |states| && TurnsAway(states[i], events[i])
    requires NotErased(events, events[i].user, i + 1, j)
    requires BoundTo(AccountOf(states[j].db, events[i].user), x, events[i].device)
    ensures exists m, p :: i < m < j && events[m] == RegisterBind(p) && BindsFor(states[i], p, events[i].user, x, events[i].device)
  {
    var u, d := events[i].user, events[i].device;
    TurnedAway(states, events, i);
    assert x !in SessionsOf(AccountOf(states[i + 1].db, u), d);
    var m, p := BoundByRegistration(states, events, u, i + 1, j, x, d);
    assert MovesAt(states, events, i);
    StepConfirms(states[i], events[i], p, u, x, d);
  }

  /** With no registration of the device left to finish, the repeated request is answered as
      completed for as long as the account exists. */
  lemma SettledRevocation(states: seq<State>, events: seq<Event>, i: nat, j: nat)
    requires Run(states, events) && i < j < |states| && TurnsAway(states[i], events[i])
    requires NotErased(events, events[i].user, i + 1, j)
    requires forall p, x :: !BindsFor(states[i], p, events[i].user, x, events[i].device)
    ensures var e := events[i];
            ReplayRevocation(AccountOf(states[j].db, e.user), e.idem, e.device, e.approver, e.requestHash) == Completed
  {
    var e, b := events[i], AccountOf(states[j].db, events[i].user);
    RepeatedRevocation(states, events, i, j, e.device, e.approver, e.requestHash);
    if x :| BoundTo(b, x, e.device) { LateSession(states, events, i, j, x); }
  }

  // ---------------------------------------------------------------- a run with a late binding

  const TURNED_AWAY := TWO_DEVICES.(
    devices := map[1 := Device(Approved, Client(0)), 2 := Device(Revoked, Client(2))],
    pendingRevocations := map[Client(9) := PendingRevocation(2, 1, 7)])

  lemma RevocationGives()
    ensures RevocationApplies(TWO_DEVICES, Client(9), 2, 1)
    ensures RevokedAccount(TWO_DEVICES, Client(9), 2, 1, 7) == TURNED_AWAY
  {
    assert TWO_DEVICES.devices[2 := Device(Revoked, Client(2))] == TURNED_AWAY.devices;
    assert EndSessions(TWO_DEVICES.sessions, 2) == TURNED_AWAY.sessions;
  }

  lemma UntilConfirmed() returns (t: Trace)
    ensures Reaches(t, Confirmed2(TWO_DEVICES))
  {
    t := FirstSteps();
    RegisterSecond();
    t := Extend(t, Saved1(), RegisterDevice(1, 1, 0, 2, Client(2)), Account2(TWO_DEVICES));
    ConfirmSecond();
    t := Extend(t, Account2(TWO_DEVICES), RegisterConfirm(1), Confirmed2(TWO_DEVICES));
  }

  const TURN_AWAY := RevokePendingDevice(1, Client(9), 2, 1, 7)

  function LateBound(): State {
    BindStep(Confirmed2(TURNED_AWAY), 1)
  }

  lemma SecondIsTurnedAway()
    ensures Moves(Confirmed2(TWO_DEVICES), TURN_AWAY, Confirmed2(TURNED_AWAY))
    ensures TurnsAway(Confirmed2(TWO_DEVICES), TURN_AWAY)
  {
    RevocationGives();
    ByBatch(Confirmed2(TWO_DEVICES), TURN_AWAY, TWO_DEVICES, TURNED_AWAY);
    assert AccountOf(Confirmed2(TWO_DEVICES).db, 1) == TWO_DEVICES;
  }

  lemma LateBoundIsRefused()
    ensures ReplayRevocation(AccountOf(LateBound().db, 1), Client(9), 2, 1, 7) == ResultInvalid
  {
    BindGives(TURNED_AWAY);
    assert 0 in SessionsOf(AccountOf(LateBound().db, 1), 2);
  }

  /** A registration stalls before it binds its session; the device is turned away; then the
      session is bound, and the repeated request is refused. */
  lemma LateSessionIsReachable() returns (t: Trace, i: nat)
    ensures Reaches(t, LateBound()) && i + 2 == |t.events|
    ensures TurnsAway(t.states[i], t.events[i]) && t.events[i] == RevokePendingDevice(1, Client(9), 2, 1, 7)
    ensures ReplayRevocation(AccountOf(LateBound().db, 1), Client(9), 2, 1, 7) == ResultInvalid
  {
    t := UntilConfirmed();
    i := |t.events|;
    SecondIsTurnedAway();
    t := Extend(t, Confirmed2(TWO_DEVICES), TURN_AWAY, Confirmed2(TURNED_AWAY));
    BindMoves(TURNED_AWAY);
    t := Extend(t, Confirmed2(TURNED_AWAY), RegisterBind(1), LateBound());
    LateBoundIsRefused();
  }
}
