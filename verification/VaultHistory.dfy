/** Who can open the vault, in every reachable state and over whole runs. */
module VaultHistory {
  import opened SyncTables
  import opened VaultMembership
  import opened SyncInvariant
  import opened StorageRetirement
  import opened RetirementInvariant
  import opened StorageProtocol
  import opened ProtocolInvariant
  import opened ProtocolRuns
  import opened ProtocolHistory

  /** The devices that hold an envelope at the current key are exactly the approved ones;
      before the vault exists nobody holds one and at most one device is approved; and an
      account with devices always has an approved one. */
  lemma ExactlyApprovedDevicesOpenTheVault(states: seq<State>, events: seq<Event>, i: nat, u: UserId)
    requires Run(states, events) && i < |states|
    ensures var a := AccountOf(states[i].db, u);
            && (a.vault.Some? ==> Recipients(a) == ApprovedDevices(a) && ApprovedDevices(a) != {})
            && (a.vault.None? ==> a.envelopes == map[] && |ApprovedDevices(a)| <= 1)
            && (a.devices != map[] ==> ApprovedDevices(a) != {})
  {
    Reachable(states, events, i);
    AccountOfOk(states[i].db, u);
    ApprovedNeverEmpty(AccountOf(states[i].db, u));
  }

  lemma ApprovedNeverEmpty(a: Account)
    requires MembersOk(a)
    ensures a.vault.Some? ==> Recipients(a) == ApprovedDevices(a) && ApprovedDevices(a) != {}
    ensures a.vault.None? ==> |ApprovedDevices(a)| <= 1
    ensures a.devices != map[] ==> ApprovedDevices(a) != {}
  {
    if a.devices != map[] {
      var d :| HasStatus(a, d, Approved);
      assert d in ApprovedDevices(a);
    }
    if a.vault.Some? {
      RecipientsAreApproved(a);
    } else if ApprovedDevices(a) != {} {
      var d :| d in ApprovedDevices(a);
      assert forall e :: e in ApprovedDevices(a) ==> HasStatus(a, e, Approved);
      assert ApprovedDevices(a) == {d};
    }
  }

  // ---------------------------------------------------------------- over runs

  lemma EmptiedMembers(a: Account, now: nat)
    ensures MembersAdvance(a, Emptied(StartAllCleanups(a, now)))
  {
  }

  lemma ResetMembers(db: Database, u: UserId, now: nat)
    requires DatabaseOk(db) && u in db.accounts
    ensures MembersAdvance(AccountOf(db, u), AccountOf(ResetBatch(db, u, now), u))
  {
    ResetResult(db, u, now);
    EmptiedMembers(db.accounts[u], now);
  }

  lemma CommitMembers(s: State, e: Event, u: UserId)
    requires StateOk(s) && Enabled(s, e) && CommitsFor(s, e, u)
    ensures MembersAdvance(AccountOf(s.db, u), AccountOf(Step(s, e).db, u))
  {
    CommitChangesOne(s, e.p, e.heard, u);
    SameMembersAdvance(AccountOf(s.db, u), AccountOf(CommitStep(s, e.p, e.heard).db, u));
  }

  predicate Erases(e: Event, u: UserId) {
    e.DeleteAccount? && e.user == u
  }

  lemma ResetStepMembers(s: State, e: Event)
    requires StateOk(s) && e.ResetSync? && WipeEnabled(s, e)
    ensures MembersAdvance(AccountOf(s.db, e.user), AccountOf(WipeStep(s, e).db, e.user))
  {
    WipedAccountExists(s, e);
    ResetMembers(s.db, e.user, e.now);
  }

  lemma StepMembers(s: State, e: Event, u: UserId)
    requires StateOk(s) && Enabled(s, e) && !Erases(e, u)
    ensures MembersAdvance(AccountOf(s.db, u), AccountOf(Step(s, e).db, u))
  {
    if CommitsFor(s, e, u) {
      CommitMembers(s, e, u);
    } else if Wipes(e, u) {
      ResetStepMembers(s, e);
    } else {
      StepDisturbsNothing(s, e, u);
    }
  }

  lemma RunStepMembers(states: seq<State>, events: seq<Event>, m: nat, u: UserId)
    requires Run(states, events) && m < |events| && !Erases(events[m], u)
    ensures MembersAdvance(AccountOf(states[m].db, u), AccountOf(states[m + 1].db, u))
  {
    Reachable(states, events, m);
    assert MovesAt(states, events, m);
    StepMembers(states[m], events[m], u);
  }

  lemma AdvanceTwice(a: Account, b: Account, c: Account)
    requires MembersAdvance(a, b) && MembersAdvance(b, c)
    ensures MembersAdvance(a, c)
  {
  }

  ghost predicate NotErased(events: seq<Event>, u: UserId, i: nat, j: nat) {
    forall m :: i <= m < j && m < |events| ==> !Erases(events[m], u)
  }

  /** Until the account is deleted, a revoked device stays revoked and is given no envelope
      at all, and the vault's generation never falls. */
  lemma {:induction false} RevocationIsFinal(states: seq<State>, events: seq<Event>, u: UserId, i: nat, j: nat)
    requires Run(states, events) && i <= j < |states| && NotErased(events, u, i, j)
    ensures MembersAdvance(AccountOf(states[i].db, u), AccountOf(states[j].db, u))
    decreases j - i
  {
    if i == j {
      SameMembersAdvance(AccountOf(states[i].db, u), AccountOf(states[j].db, u));
    } else {
      RevocationIsFinal(states, events, u, i, j - 1);
      RunStepMembers(states, events, j - 1, u);
      AdvanceTwice(AccountOf(states[i].db, u), AccountOf(states[j - 1].db, u), AccountOf(states[j].db, u));
    }
  }

  /** A rotation that took effect: its target is revoked and has no envelope of the new
      generation or a later one. */
  lemma RotationShutsOut(a: Account, r: RotationRequest)
    requires MembersOk(a) && RotationApplies(a, r)
    ensures HasStatus(Rotated(a, r), r.target, Revoked)
    ensures forall key: VaultKey :: key.generation >= r.next.generation ==> EnvelopeId(r.target, key) !in Rotated(a, r).envelopes
  {
    RotatedItems(a, r);
    var b := Rotated(a, r);
    forall key: VaultKey | key.generation >= r.next.generation
      ensures EnvelopeId(r.target, key) !in b.envelopes
    {
      assert EnvelopeId(r.target, key) !in a.envelopes;
      assert r.target !in OpenedRow(r).items;
    }
  }

  lemma RunRotation(states: seq<State>, events: seq<Event>, i: nat)
    requires Run(states, events) && i < |events| && events[i].RotateVault?
    requires RotationApplies(AccountOf(states[i].db, events[i].user), events[i].request)
    ensures var r, b := events[i].request, AccountOf(states[i + 1].db, events[i].user);
            && HasStatus(b, r.target, Revoked)
            && (forall key: VaultKey :: key.generation >= r.next.generation ==> EnvelopeId(r.target, key) !in b.envelopes)
  {
    Reachable(states, events, i);
    assert MovesAt(states, events, i);
    RotationTakesEffect(states[i], events[i], events[i].user);
    RotationShutsOut(AccountOf(states[i].db, events[i].user), events[i].request);
  }

  /** However the run goes on, the device a rotation removed never opens the new vault. */
  lemma RotatedOutForGood(states: seq<State>, events: seq<Event>, i: nat, j: nat)
    requires Run(states, events) && i < j < |states| && events[i].RotateVault?
    requires RotationApplies(AccountOf(states[i].db, events[i].user), events[i].request)
    requires NotErased(events, events[i].user, i + 1, j)
    ensures var r, b := events[i].request, AccountOf(states[j].db, events[i].user);
            && HasStatus(b, r.target, Revoked)
            && (forall key: VaultKey :: key.generation >= r.next.generation ==> EnvelopeId(r.target, key) !in b.envelopes)
  {
    RunRotation(states, events, i);
    RevocationIsFinal(states, events, events[i].user, i + 1, j);
  }

  /** A waiting device holds no envelope of the present key or of a later generation. */
  lemma WaitingHoldsNothing(a: Account, d: DeviceId, key: VaultKey)
    requires MembersOk(a) && HasStatus(a, d, Pending)
    requires a.vault.Some? ==> key == a.vault.value || key.generation > a.vault.value.generation
    ensures EnvelopeId(d, key) !in a.envelopes
  {
    if EnvelopeId(d, key) in a.envelopes { PendingHoldsNothing(a, d); }
  }

  lemma RunPendingRevocation(states: seq<State>, events: seq<Event>, i: nat)
    requires Run(states, events) && i < |events| && events[i].RevokePendingDevice?
    requires var e := events[i]; RevocationApplies(AccountOf(states[i].db, e.user), e.idem, e.device, e.approver)
    ensures var e := events[i];
            && MembersOk(AccountOf(states[i].db, e.user))
            && RevokedExactly(AccountOf(states[i].db, e.user), AccountOf(states[i + 1].db, e.user), e.idem, e.device, e.approver, e.requestHash)
  {
    var e := events[i];
    Reachable(states, events, i);
    assert MovesAt(states, events, i);
    MembersOf(states[i], e.user);
    MembershipTables(states[i], e);
    RevokePendingResult(AccountOf(states[i].db, e.user), e.idem, e.device, e.approver, e.requestHash);
  }

  /** A device that was revoked while it waited is never approved: it stays revoked and is never
      given an envelope of the key of that time or a later one. */
  lemma RevokedWhileWaiting(states: seq<State>, events: seq<Event>, i: nat, j: nat, key: VaultKey)
    requires Run(states, events) && i < j < |states| && events[i].RevokePendingDevice?
    requires var e := events[i]; RevocationApplies(AccountOf(states[i].db, e.user), e.idem, e.device, e.approver)
    requires NotErased(events, events[i].user, i + 1, j)
    requires var vault := AccountOf(states[i].db, events[i].user).vault;
             vault.Some? ==> key == vault.value || key.generation > vault.value.generation
    ensures var e, b := events[i], AccountOf(states[j].db, events[i].user);
            HasStatus(b, e.device, Revoked) && EnvelopeId(e.device, key) !in b.envelopes
  {
    RunPendingRevocation(states, events, i);
    WaitingHoldsNothing(AccountOf(states[i].db, events[i].user), events[i].device, key);
    RevocationIsFinal(states, events, events[i].user, i + 1, j);
  }

  lemma RunStepErased(states: seq<State>, events: seq<Event>, m: nat)
    requires Run(states, events) && m < |events|
    ensures states[m].db.erased <= states[m + 1].db.erased
  {
    Reachable(states, events, m);
    assert MovesAt(states, events, m);
    StepKeeps(states[m], events[m]);
  }

  /** A deleted account never comes back. */
  lemma {:induction false} ErasedForGood(states: seq<State>, events: seq<Event>, u: UserId, i: nat, j: nat)
    requires Run(states, events) && i <= j < |states| && u in states[i].db.erased
    ensures u in states[j].db.erased && u !in states[j].db.accounts
    decreases j - i
  {
    Reachable(states, events, j);
    if i < j {
      ErasedForGood(states, events, u, i, j - 1);
      RunStepErased(states, events, j - 1);
    }
  }
}
