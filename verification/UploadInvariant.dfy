/** Claims, commits and abandons keep the tables consistent. */
module UploadInvariant {
  import opened Wrappers
  import opened SyncTables
  import opened VaultMembership
  import opened SyncInvariant
  import opened SnapshotUpload

  lemma CommittedLedgerEvolves(a: Account, ledger: Ledger, up: Upload, now: nat)
    requires Parsed(up) && ShapesOk(up.user, a) && RowsReferenced(up.user, a, ledger)
    requires LedgerOk(ledger) && IsReserved(ledger, up.key)
    ensures var after := CommittedLedger(a, ledger, up, now);
            && Evolves(ledger, after) && LedgerOk(after)
            && (forall v :: v != up.user ==> KeepsReferences(ledger, after, v))
  {
  }

  lemma CommittedRowsReferenced(a: Account, ledger: Ledger, up: Upload, now: nat)
    requires Parsed(up) && ShapesOk(up.user, a) && RowsReferenced(up.user, a, ledger)
    requires up.key in ledger && ledger[up.key].user == Some(up.user)
    ensures var b := CommittedAccount(a, up, now);
            ShapesOk(up.user, b) && RowsReferenced(up.user, b, CommittedLedger(a, ledger, up, now))
  {
  }

  lemma CommittedHeadOk(a: Account, up: Upload, now: nat)
    requires Parsed(up) && HeadOk(a) && GenerationsOk(a) && BaseFits(a, up) && MayWrite(a, up)
    ensures HeadOk(CommittedAccount(a, up, now)) && GenerationsOk(CommittedAccount(a, up, now))
  {
  }

  lemma CommittedStagingOk(a: Account, ledger: Ledger, up: Upload, now: nat)
    requires StagingOk(up.user, a, ledger) && IsReserved(ledger, up.key)
    requires Evolves(ledger, CommittedLedger(a, ledger, up, now))
    ensures StagingOk(up.user, CommittedAccount(a, up, now), CommittedLedger(a, ledger, up, now))
  {
  }

  lemma SameMembers(a: Account, b: Account)
    requires MembersOk(a)
    requires b.devices == a.devices && b.vault == a.vault && b.envelopes == a.envelopes && b.rotations == a.rotations
    ensures MembersOk(b)
  {
    assert forall d, s :: HasStatus(b, d, s) <==> HasStatus(a, d, s);
  }

  lemma CommittedReferences(a: Account, ledger: Ledger, up: Upload, now: nat, k: R2Key)
    requires Parsed(up) && ShapesOk(up.user, a) && up.key in ledger
    requires RowsReferenced(up.user, a, ledger)
    requires IsReferenced(CommittedLedger(a, ledger, up, now), k)
    requires IsReferenced(ledger, k) && k.owner == up.user ==> AccountHolds(a, k)
    ensures if k.owner == up.user then AccountHolds(CommittedAccount(a, up, now), k) else IsReferenced(ledger, k)
  {
  }

  lemma CommitKeepsDatabase(db: Database, up: Upload, token: Token, now: nat)
    requires DatabaseOk(db) && Parsed(up) && CommitApplies(db, up, token, now)
    ensures DatabaseOk(Committed(db, up, now))
  {
    var a, ledger := AccountOf(db, up.user), db.ledger;
    AccountOfOk(db, up.user);
    CommittedLedgerEvolves(a, ledger, up, now);
    CommittedRowsReferenced(a, ledger, up, now);
    CommittedHeadOk(a, up, now);
    CommittedStagingOk(a, ledger, up, now);
    SameMembers(a, CommittedAccount(a, up, now));
    var after := CommittedLedger(a, ledger, up, now);
    forall k | IsReferenced(after, k)
      ensures if k.owner == up.user then AccountHolds(CommittedAccount(a, up, now), k) else IsReferenced(ledger, k)
    {
      assert IsReferenced(ledger, k) ==> Holds(db, k);
      CommittedReferences(a, ledger, up, now, k);
    }
    OneAccountChanged(db, up.user, CommittedAccount(a, up, now), after);
  }

  /** A claim or an abandon moves one ledger row, and no referenced one. */
  lemma OneRowMoved(ledger: Ledger, k: R2Key, row: LedgerRow)
    requires LedgerOk(ledger) && LedgerRowOk(k, row) && !row.state.Referenced?
    requires k in ledger ==> !ledger[k].state.Referenced?
    requires k in ledger && row.state.Reserved? ==> ledger[k].state.Reserved?
    ensures var after := ledger[k := row];
            && Evolves(ledger, after) && LedgerOk(after)
            && (forall v :: KeepsReferences(ledger, after, v))
            && (forall x :: IsReferenced(after, x) ==> IsReferenced(ledger, x))
  {
  }

  lemma ClaimKeepsDatabase(db: Database, up: Upload, token: Token, now: nat)
    requires DatabaseOk(db) && Parsed(up)
    ensures DatabaseOk(ClaimWrite(db, up, token, now))
    ensures Evolves(db.ledger, ClaimWrite(db, up, token, now).ledger)
  {
    if ClaimGranted(db, up, now) {
      var after := ClaimWrite(db, up, token, now).ledger;
      OneRowMoved(db.ledger, up.key, after[up.key]);
      OnlyLedgerChanged(db, after);
    }
  }

  lemma AbandonKeepsDatabase(db: Database, up: Upload, token: Token, now: nat)
    requires DatabaseOk(db)
    ensures DatabaseOk(Abandon(db, up, token, now))
    ensures Evolves(db.ledger, Abandon(db, up, token, now).ledger)
  {
    if MayAbandon(db, up, token) {
      var after := Abandon(db, up, token, now).ledger;
      OneRowMoved(db.ledger, up.key, after[up.key]);
      OnlyLedgerChanged(db, after);
    }
  }
}
