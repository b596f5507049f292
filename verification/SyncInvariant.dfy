/** What every statement of the sync service keeps true of its tables. */
module SyncInvariant {
  import opened Wrappers
  import opened SyncTables
  import opened VaultMembership

  /** A stored key names the account and the row that store it. */
  predicate RowShape(u: UserId, sid: SnapshotId, row: SnapshotRow) {
    && row.key.SnapshotKey? && row.key.owner == u && row.key.snapshotId == sid
    && row.key.payloadHash == row.payloadHash
  }

  ghost predicate ShapesOk(u: UserId, a: Account) {
    && (forall sid :: sid in a.snapshots ==> RowShape(u, sid, a.snapshots[sid]))
    && (forall oid :: oid in a.objects ==>
          a.objects[oid].PayloadKey? && a.objects[oid].owner == u && a.objects[oid].objectId == oid)
  }

  predicate ReferencedFor(ledger: Ledger, k: R2Key, u: UserId) {
    k in ledger && ledger[k].state.Referenced? && ledger[k].user == Some(u)
  }

  ghost predicate RowsReferenced(u: UserId, a: Account, ledger: Ledger) {
    && (forall sid :: sid in a.snapshots ==> ReferencedFor(ledger, a.snapshots[sid].key, u))
    && (forall oid :: oid in a.objects ==> ReferencedFor(ledger, a.objects[oid], u))
  }

  /** The head joins its snapshot row; without a head there is no snapshot at all. */
  ghost predicate HeadOk(a: Account) {
    && a.encryption.Keys == a.snapshots.Keys
    && (a.head.None? ==> a.snapshots == map[])
    && (a.head.Some? ==>
          var h := a.head.value;
          && h.snapshotId in a.snapshots
          && a.snapshots[h.snapshotId].revision == h.revision
          && a.snapshots[h.snapshotId].payloadHash == h.payloadHash
          && h.revision >= 1
          && forall sid :: sid in a.snapshots && sid != h.snapshotId ==> a.snapshots[sid].revision < h.revision)
  }

  ghost predicate GenerationsOk(a: Account) {
    && (a.snapshots != map[] ==> a.vault.Some?)
    && (forall sid :: sid in a.encryption && a.vault.Some? ==>
          a.encryption[sid].key.generation <= a.vault.value.generation)
  }

  /** What a finished rotation staged was committed before it, under an older key. */
  ghost predicate StagingOk(u: UserId, a: Account, ledger: Ledger) {
    && (forall rid :: rid in a.rotations && a.rotations[rid].storageCleaned ==> a.rotations[rid].cleanup.Some?)
    && (forall rid, k :: rid in a.rotations && k in a.rotations[rid].staged ==>
          k.owner == u && k in ledger && !ledger[k].state.Reserved?)
    && (forall rid, sid | rid in a.rotations && sid in a.snapshots && sid in a.encryption ::
          a.snapshots[sid].key in a.rotations[rid].staged ==>
            a.encryption[sid].key.generation < a.rotations[rid].next.generation)
    && (a.head.Some? && a.head.value.snapshotId in a.snapshots ==>
          forall rid :: rid in a.rotations && a.rotations[rid].cleanup.Some? ==>
            a.snapshots[a.head.value.snapshotId].key !in a.rotations[rid].staged)
  }

  ghost predicate AccountOk(u: UserId, a: Account, ledger: Ledger) {
    && MembersOk(a)
    && ShapesOk(u, a)
    && RowsReferenced(u, a, ledger)
    && HeadOk(a)
    && GenerationsOk(a)
    && StagingOk(u, a, ledger)
  }

  predicate LedgerRowOk(k: R2Key, row: LedgerRow) {
    && (row.state.Reserved? ==> k.SnapshotKey? && row.writeToken.Some?)
    && (row.state.Reserved? || row.state.Referenced? ==> row.user == Some(k.owner))
  }

  /** The account a key names holds the row that refers to it: a plain lookup. */
  predicate AccountHolds(a: Account, k: R2Key) {
    match k
    case SnapshotKey(_, _, sid, _) => sid in a.snapshots && a.snapshots[sid].key == k
    case PayloadKey(_, _, oid, _) => oid in a.objects && a.objects[oid] == k
  }

  predicate Holds(db: Database, k: R2Key) {
    k.owner in db.accounts && AccountHolds(db.accounts[k.owner], k)
  }

  ghost predicate LedgerOk(ledger: Ledger) {
    forall k :: k in ledger ==> LedgerRowOk(k, ledger[k])
  }

  /** Nothing is kept as referenced without a row that refers to it. */
  ghost predicate NothingLeaks(db: Database) {
    forall k :: IsReferenced(db.ledger, k) ==> Holds(db, k)
  }

  ghost predicate AccountsOk(db: Database) {
    forall u :: u in db.accounts ==> AccountOk(u, db.accounts[u], db.ledger)
  }

  ghost predicate DatabaseOk(db: Database) {
    && LedgerOk(db.ledger)
    && NothingLeaks(db)
    && AccountsOk(db)
    && db.accounts.Keys !! db.erased
  }

  lemma AccountOfOk(db: Database, u: UserId)
    requires DatabaseOk(db)
    ensures AccountOk(u, AccountOf(db, u), db.ledger)
  {
  }

  // ---------------------------------------------------------------- scans are lookups

  ghost predicate AllShapesOk(db: Database) {
    forall u :: u in db.accounts ==> ShapesOk(u, db.accounts[u])
  }

  /** The two scans over every account that guard collection find exactly the row of the
      one account the key names. */
  lemma UsedIsLookup(db: Database, k: R2Key)
    requires AllShapesOk(db)
    ensures Used(db, k) <==> Holds(db, k)
  {
  }

  /** A key is marked `referenced` exactly while a row refers to it. */
  lemma ReferencedIffUsed(db: Database, k: R2Key)
    requires DatabaseOk(db)
    ensures IsReferenced(db.ledger, k) <==> Used(db, k)
  {
  }

  // ---------------------------------------------------------------- framing

  /** No statement drops a ledger row, revives a retired key or reserves a referenced one. */
  ghost predicate Evolves(before: Ledger, after: Ledger) {
    forall k | k in before ::
      && k in after
      && (after[k].state.Reserved? ==> before[k].state.Reserved?)
      && (after[k].state.Referenced? ==> before[k].state.Reserved? || before[k].state.Referenced?)
  }

  /** References of one account stay in place. */
  ghost predicate KeepsReferences(before: Ledger, after: Ledger, u: UserId) {
    forall k: R2Key :: k.owner == u && ReferencedFor(before, k, u) ==> ReferencedFor(after, k, u)
  }

  lemma UntouchedAccountOk(u: UserId, a: Account, before: Ledger, after: Ledger)
    requires AccountOk(u, a, before)
    requires Evolves(before, after) && KeepsReferences(before, after, u)
    ensures AccountOk(u, a, after)
  {
  }

  /** A statement that rewrites one account and moves only that account's references. */
  lemma OneAccountChanged(db: Database, u: UserId, a: Account, ledger: Ledger)
    requires DatabaseOk(db) && u !in db.erased
    requires Evolves(db.ledger, ledger) && LedgerOk(ledger)
    requires forall v :: v != u ==> KeepsReferences(db.ledger, ledger, v)
    requires AccountOk(u, a, ledger)
    requires forall k :: IsReferenced(ledger, k) ==>
               if k.owner == u then AccountHolds(a, k) else IsReferenced(db.ledger, k)
    ensures DatabaseOk(SetAccount(db, u, a).(ledger := ledger))
  {
    var after := SetAccount(db, u, a).(ledger := ledger);
    forall v | v in after.accounts
      ensures AccountOk(v, after.accounts[v], ledger)
    {
      if v != u { UntouchedAccountOk(v, db.accounts[v], db.ledger, ledger); }
    }
    forall k | IsReferenced(ledger, k)
      ensures Holds(after, k)
    {
      if k.owner != u { assert Holds(db, k); }
    }
  }

  /** A statement that touches the ledger alone and moves no reference. */
  lemma OnlyLedgerChanged(db: Database, ledger: Ledger)
    requires DatabaseOk(db)
    requires Evolves(db.ledger, ledger) && LedgerOk(ledger)
    requires forall v :: KeepsReferences(db.ledger, ledger, v)
    requires forall k :: IsReferenced(ledger, k) ==> IsReferenced(db.ledger, k)
    ensures DatabaseOk(db.(ledger := ledger))
  {
    var after := db.(ledger := ledger);
    forall v | v in after.accounts
      ensures AccountOk(v, after.accounts[v], ledger)
    {
      UntouchedAccountOk(v, db.accounts[v], db.ledger, ledger);
    }
    forall k | IsReferenced(ledger, k)
      ensures Holds(after, k)
    {
      assert Holds(db, k);
    }
  }
}
