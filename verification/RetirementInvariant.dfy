/** Every statement that retires storage keeps the tables consistent, and what each of the
    longer batches amounts to. */
module RetirementInvariant {
  import opened Wrappers
  import opened SyncTables
  import opened VaultMembership
  import opened SyncInvariant
  import opened SnapshotUpload
  import opened StorageRetirement

  // ---------------------------------------------------------------- ledger-only statements

  /** Rows only move into the retired states, and no reference moves. */
  ghost predicate OnlyRetires(before: Ledger, after: Ledger) {
    && (forall k :: k in before ==> k in after)
    && (forall k | k in after ::
          if k in before
          then after[k] == before[k] || (Retired(after[k].state) && !before[k].state.Referenced?)
          else Retired(after[k].state))
  }

  lemma RetiringKeepsDatabase(db: Database, after: Ledger)
    requires DatabaseOk(db) && OnlyRetires(db.ledger, after)
    ensures DatabaseOk(db.(ledger := after)) && Evolves(db.ledger, after)
  {
    forall k | k in after
      ensures LedgerRowOk(k, after[k])
    {
      if k in db.ledger { assert LedgerRowOk(k, db.ledger[k]); }
    }
    OnlyLedgerChanged(db, after);
  }

  lemma ClaimGarbageRetires(ledger: Ledger, chosen: set<R2Key>, token: Token, now: nat, at: nat)
    requires forall k :: k in chosen ==> k in ledger && Due(ledger[k], at)
    ensures OnlyRetires(ledger, ClaimGarbage(ledger, chosen, token, now))
  {
  }

  lemma MarkDeletedRetires(ledger: Ledger, k: R2Key, token: Token, now: nat)
    ensures OnlyRetires(ledger, MarkDeleted(ledger, k, token, now))
  {
  }

  lemma RearmRetires(db: Database, listed: set<R2Key>, now: nat)
    ensures OnlyRetires(db.ledger, Rearm(db, listed, now).ledger)
  {
  }

  // ---------------------------------------------------------------- one account lets go

  /** References of the account move to a retired state or stay. */
  ghost predicate Fences(before: Ledger, after: Ledger, u: UserId) {
    && after.Keys == before.Keys
    && (forall k | k in before ::
          after[k] == before[k] || (k.owner == u && Retired(after[k].state)))
  }

  lemma FencingEvolves(before: Ledger, after: Ledger, u: UserId)
    requires LedgerOk(before) && Fences(before, after, u)
    ensures Evolves(before, after) && LedgerOk(after)
    ensures forall v :: v != u ==> KeepsReferences(before, after, v)
  {
  }

  lemma FenceUserFences(ledger: Ledger, u: UserId, now: nat)
    requires LedgerOk(ledger)
    ensures Fences(ledger, FenceUser(ledger, u, now), u)
    ensures forall k :: k in ledger && k.owner == u ==> Retired(FenceUser(ledger, u, now)[k].state)
  {
  }

  /** Deleting rows whose keys were fenced before leaves nothing for the triggers to do. */
  lemma NothingToRelease(db: Database, keys: set<R2Key>)
    requires forall k :: k in keys ==> !IsReferenced(db.ledger, k)
    ensures ReleaseAll(db, keys) == db
  {
  }

  function Emptied(a: Account): Account {
    a.(head := None, encryption := map[], snapshots := map[], objects := map[])
  }

  lemma NotReferencedOnceFenced(u: UserId, a: Account, ledger: Ledger, now: nat)
    requires AccountOk(u, a, ledger)
    ensures forall sid :: sid in a.snapshots ==> !IsReferenced(FenceUser(ledger, u, now), a.snapshots[sid].key)
    ensures forall oid :: oid in a.objects ==> !IsReferenced(FenceUser(ledger, u, now), a.objects[oid])
  {
  }

  lemma SnapshotsDeleted(db: Database, u: UserId)
    requires u in db.accounts
    requires var a := db.accounts[u]; forall sid :: sid in a.snapshots ==> !IsReferenced(db.ledger, a.snapshots[sid].key)
    ensures var a := db.accounts[u];
            DeleteSnapshots(db, u, a.snapshots.Keys) == SetAccount(db, u, a.(snapshots := map[]))
  {
    var a := db.accounts[u];
    assert a.snapshots - a.snapshots.Keys == map[];
    NothingToRelease(SetAccount(db, u, a.(snapshots := map[])),
                     set sid | sid in a.snapshots.Keys && sid in a.snapshots :: a.snapshots[sid].key);
  }

  lemma ObjectsDeleted(db: Database, u: UserId)
    requires u in db.accounts
    requires var a := db.accounts[u]; forall oid :: oid in a.objects ==> !IsReferenced(db.ledger, a.objects[oid])
    ensures var a := db.accounts[u];
            DeleteObjects(db, u, a.objects.Keys) == SetAccount(db, u, a.(objects := map[]))
  {
    var a := db.accounts[u];
    assert a.objects - a.objects.Keys == map[];
    NothingToRelease(SetAccount(db, u, a.(objects := map[])),
                     set oid | oid in a.objects.Keys && oid in a.objects :: a.objects[oid]);
  }

  /** The deletes at the end of both destructive batches, on fenced keys. */
  lemma DeletesEmpty(db: Database, u: UserId)
    requires u in db.accounts
    requires var a := db.accounts[u];
             && (forall sid :: sid in a.snapshots ==> !IsReferenced(db.ledger, a.snapshots[sid].key))
             && (forall oid :: oid in a.objects ==> !IsReferenced(db.ledger, a.objects[oid]))
    ensures var a := db.accounts[u];
            var d1 := DeleteSnapshots(db, u, a.snapshots.Keys);
            && d1 == SetAccount(db, u, a.(snapshots := map[]))
            && DeleteObjects(d1, u, AccountOf(d1, u).objects.Keys)
                 == SetAccount(db, u, a.(snapshots := map[], objects := map[]))
  {
    var a := db.accounts[u];
    SnapshotsDeleted(db, u);
    var d1 := SetAccount(db, u, a.(snapshots := map[]));
    ObjectsDeleted(d1, u);
    assert d1.accounts[u := a.(snapshots := map[], objects := map[])]
        == db.accounts[u := a.(snapshots := map[], objects := map[])];
  }

  /** A reset empties the account's rows and fences its keys: the triggers that follow the
      deletes find every key already fenced. */
  lemma ResetResult(db: Database, u: UserId, now: nat)
    requires DatabaseOk(db) && u in db.accounts
    ensures ResetBatch(db, u, now) ==
            With(db, u, Emptied(StartAllCleanups(db.accounts[u], now)), FenceUser(db.ledger, u, now))
  {
    NotReferencedOnceFenced(u, db.accounts[u], db.ledger, now);
    ResetSteps(db, u, now);
  }

  /** What fencing makes of one row: references and claims end, and what was referenced is due. */
  function FencedRow(row: LedgerRow, u: UserId, now: nat): LedgerRow {
    if row.user != Some(u) then row
    else match row.state
      case Referenced => row.(state := Ready, lease := now)
      case Reserved => row.(state := Ready)
      case _ => row
  }

  ghost predicate FencedRows(before: Ledger, after: Ledger, u: UserId, now: nat) {
    after.Keys == before.Keys && forall k :: k in before ==> after[k] == FencedRow(before[k], u, now)
  }

  lemma FencesRows(ledger: Ledger, u: UserId, now: nat)
    ensures FencedRows(ledger, FenceUser(ledger, u, now), u, now)
  {
  }

  /** Every cleanup that had not started starts with the reset. */
  ghost predicate StartedRows(a: Account, b: Account, now: nat) {
    b.rotations.Keys == a.rotations.Keys
    && forall rid :: rid in a.rotations ==>
         b.rotations[rid] == if a.rotations[rid].cleanup.Some? then a.rotations[rid]
                             else a.rotations[rid].(cleanup := Some(SyncReset(now)))
  }

  lemma StartsRows(a: Account, now: nat)
    requires MembersOk(a) && forall rid :: rid in a.rotations && a.rotations[rid].storageCleaned ==> a.rotations[rid].cleanup.Some?
    ensures StartedRows(a, Emptied(StartAllCleanups(a, now)), now)
  {
  }

  /** Of a reset account devices, vault and envelopes stay; every rotation's cleanup has been
      started, at the reset if not before; and no other account or ledger row changes. */
  lemma ResetExactly(db: Database, u: UserId, now: nat)
    requires DatabaseOk(db) && u in db.accounts
    ensures var after := ResetBatch(db, u, now);
            && after.erased == db.erased && u in after.accounts && after.accounts == db.accounts[u := after.accounts[u]]
            && after.accounts[u] == db.accounts[u].(head := None, snapshots := map[], encryption := map[], objects := map[],
                                                    rotations := after.accounts[u].rotations)
            && StartedRows(db.accounts[u], after.accounts[u], now)
            && FencedRows(db.ledger, after.ledger, u, now)
  {
    ResetResult(db, u, now);
    StartsRows(db.accounts[u], now);
    FencesRows(db.ledger, u, now);
  }

  lemma ResetSteps(db: Database, u: UserId, now: nat)
    requires u in db.accounts
    requires var a, fenced := db.accounts[u], FenceUser(db.ledger, u, now);
             && (forall sid :: sid in a.snapshots ==> !IsReferenced(fenced, a.snapshots[sid].key))
             && (forall oid :: oid in a.objects ==> !IsReferenced(fenced, a.objects[oid]))
    ensures ResetBatch(db, u, now) ==
            With(db, u, Emptied(StartAllCleanups(db.accounts[u], now)), FenceUser(db.ledger, u, now))
  {
    var a := StartAllCleanups(db.accounts[u], now);
    var d1 := db.(ledger := FenceUser(db.ledger, u, now));
    var d2 := SetAccount(d1, u, a);
    var d3 := SetAccount(d2, u, a.(head := None));
    var d4 := SetAccount(d3, u, a.(head := None, encryption := map[]));
    DeletesEmpty(d4, u);
    assert d4.accounts[u := Emptied(a)] == db.accounts[u := Emptied(a)];
  }

  lemma EraseResult(db: Database, u: UserId, now: nat)
    requires DatabaseOk(db) && u in db.accounts
    ensures EraseBatch(db, u, now) ==
            Database(db.accounts - {u}, Anonymize(FenceUser(db.ledger, u, now), u), db.erased + {u})
  {
    NotReferencedOnceFenced(u, db.accounts[u], db.ledger, now);
    EraseSteps(db, u, now);
  }

  /** The rows are fenced, and those under the user's own keys no longer name the user. */
  ghost predicate AnonymousRows(before: Ledger, after: Ledger, u: UserId, now: nat) {
    after.Keys == before.Keys
    && forall k :: k in before ==>
         after[k] == if k.owner == u && before[k].user == Some(u) then FencedRow(before[k], u, now).(user := None)
                     else FencedRow(before[k], u, now)
  }

  lemma AnonymizesRows(before: Ledger, fenced: Ledger, u: UserId, now: nat)
    requires FencedRows(before, fenced, u, now)
    ensures AnonymousRows(before, Anonymize(fenced, u), u, now)
  {
  }

  /** Nothing of a deleted account is left, its identifier is never used again, and no other
      account or ledger row changes. */
  lemma EraseExactly(db: Database, u: UserId, now: nat)
    requires DatabaseOk(db) && u in db.accounts
    ensures var after := EraseBatch(db, u, now);
            && after.accounts.Keys == db.accounts.Keys - {u} && after.erased == db.erased + {u}
            && (forall v :: v in after.accounts ==> after.accounts[v] == db.accounts[v])
            && AnonymousRows(db.ledger, after.ledger, u, now)
  {
    EraseResult(db, u, now);
    FencesRows(db.ledger, u, now);
    AnonymizesRows(db.ledger, FenceUser(db.ledger, u, now), u, now);
  }

  lemma EraseSteps(db: Database, u: UserId, now: nat)
    requires u in db.accounts
    requires var a, fenced := db.accounts[u], FenceUser(db.ledger, u, now);
             && (forall sid :: sid in a.snapshots ==> !IsReferenced(fenced, a.snapshots[sid].key))
             && (forall oid :: oid in a.objects ==> !IsReferenced(fenced, a.objects[oid]))
    ensures EraseBatch(db, u, now) ==
            Database(db.accounts - {u}, Anonymize(FenceUser(db.ledger, u, now), u), db.erased + {u})
  {
    var a := db.accounts[u];
    var d1 := db.(ledger := FenceUser(db.ledger, u, now));
    var d2 := SetAccount(d1, u, a.(head := None));
    var d3 := SetAccount(d2, u, a.(head := None, encryption := map[]));
    DeletesEmpty(d3, u);
    assert d3.accounts[u := Emptied(a)] - {u} == db.accounts - {u};
  }

  lemma EmptiedMembersOk(a: Account, now: nat)
    requires MembersOk(a)
    ensures MembersOk(Emptied(StartAllCleanups(a, now)))
  {
    var b := Emptied(StartAllCleanups(a, now));
    assert forall d, s :: HasStatus(b, d, s) <==> HasStatus(a, d, s);
  }

  lemma EmptiedStaging(u: UserId, a: Account, before: Ledger, after: Ledger, now: nat)
    requires StagingOk(u, a, before) && Evolves(before, after)
    ensures StagingOk(u, Emptied(StartAllCleanups(a, now)), after)
  {
    var b := Emptied(StartAllCleanups(a, now));
    forall rid, k | rid in b.rotations && k in b.rotations[rid].staged
      ensures k.owner == u && k in after && !after[k].state.Reserved?
    {
      assert k in a.rotations[rid].staged;
    }
  }

  lemma EmptiedOk(u: UserId, a: Account, before: Ledger, after: Ledger, now: nat)
    requires AccountOk(u, a, before) && Evolves(before, after)
    ensures AccountOk(u, Emptied(StartAllCleanups(a, now)), after)
  {
    EmptiedMembersOk(a, now);
    EmptiedStaging(u, a, before, after, now);
  }

  lemma ResetKeepsDatabase(db: Database, u: UserId, now: nat)
    requires DatabaseOk(db) && u in db.accounts
    ensures DatabaseOk(ResetBatch(db, u, now)) && Evolves(db.ledger, ResetBatch(db, u, now).ledger)
  {
    ResetResult(db, u, now);
    var after := FenceUser(db.ledger, u, now);
    FenceUserFences(db.ledger, u, now);
    FencingEvolves(db.ledger, after, u);
    EmptiedOk(u, db.accounts[u], db.ledger, after, now);
    OneAccountChanged(db, u, Emptied(StartAllCleanups(db.accounts[u], now)), after);
  }

  lemma AccountDropped(db: Database, u: UserId, after: Ledger)
    requires DatabaseOk(db) && Evolves(db.ledger, after) && LedgerOk(after)
    requires forall v :: v != u ==> KeepsReferences(db.ledger, after, v)
    requires forall k: R2Key :: IsReferenced(after, k) ==> k.owner != u && IsReferenced(db.ledger, k)
    ensures DatabaseOk(Database(db.accounts - {u}, after, db.erased + {u}))
  {
    var d := Database(db.accounts - {u}, after, db.erased + {u});
    forall v | v in d.accounts
      ensures AccountOk(v, d.accounts[v], after)
    {
      UntouchedAccountOk(v, db.accounts[v], db.ledger, after);
    }
    forall k | IsReferenced(after, k)
      ensures Holds(d, k)
    {
      assert Holds(db, k);
    }
  }

  lemma ErasedLedger(ledger: Ledger, u: UserId, now: nat)
    requires LedgerOk(ledger)
    ensures var after := Anonymize(FenceUser(ledger, u, now), u);
            && Evolves(ledger, after) && LedgerOk(after)
            && (forall v :: v != u ==> KeepsReferences(ledger, after, v))
            && (forall k: R2Key :: IsReferenced(after, k) ==> k.owner != u && IsReferenced(ledger, k))
  {
  }

  lemma EraseKeepsDatabase(db: Database, u: UserId, now: nat)
    requires DatabaseOk(db) && u in db.accounts
    ensures DatabaseOk(EraseBatch(db, u, now)) && Evolves(db.ledger, EraseBatch(db, u, now).ledger)
  {
    EraseResult(db, u, now);
    ErasedLedger(db.ledger, u, now);
    AccountDropped(db, u, Anonymize(FenceUser(db.ledger, u, now), u));
  }
}
