/** What one garbage collection, a reset's repeated collections and a full inventory pass
    amount to, as functions of the tables. */
module GarbageCollection {
  import opened Wrappers
  import opened SyncTables
  import opened SyncInvariant
  import opened SnapshotUpload
  import opened StorageRetirement
  import opened RetirementInvariant
  import opened ProtocolInvariant

  // ---------------------------------------------------------------- one collection

  function Eligible(db: Database, now: nat, scope: Scope): set<R2Key> {
    set k | k in db.ledger && Collectable(db, k, now, scope)
  }

  /** What can be collected, at which time and for whom: a key that no row uses and that no
      rotation still protects, once its lease has run out or, after a collection that was
      broken off, a minute after that began. */
  lemma CollectableExactly(db: Database, now: nat, scope: Scope, k: R2Key)
    ensures k in Eligible(db, now, scope) <==>
              && k in db.ledger
              && (forall u, sid :: u in db.accounts && sid in db.accounts[u].snapshots ==> db.accounts[u].snapshots[sid].key != k)
              && (forall u, oid :: u in db.accounts && oid in db.accounts[u].objects ==> db.accounts[u].objects[oid] != k)
              && (forall u, rid :: u in db.accounts && rid in db.accounts[u].rotations ==>
                    k !in db.accounts[u].rotations[rid].staged || db.accounts[u].rotations[rid].cleanup.Some?)
              && (scope.OfUser? ==> db.ledger[k].user == Some(scope.user)) && (scope.OfOwner? ==> k.owner == scope.owner)
              && match db.ledger[k].state {
                   case Reserved => db.ledger[k].lease <= now
                   case Ready => db.ledger[k].lease <= now
                   case Deleting => db.ledger[k].deleteStartedAt.Some? && (db.ledger[k].deleteStartedAt.value == 0 || db.ledger[k].deleteStartedAt.value + 60 <= now)
                   case Referenced => false
                   case Deleted => false
                 }
  {
  }

  /** Of a row a collection changes no more than its state and the marks of the deletion. */
  predicate Retouched(row: LedgerRow, next: LedgerRow) {
    next == row.(state := next.state, gcToken := next.gcToken, deleteStartedAt := next.deleteStartedAt)
  }

  /** The chosen rows ended as deleted, every other row is as it was. */
  ghost predicate SweptOnly(before: Ledger, after: Ledger, swept: set<R2Key>) {
    && after.Keys == before.Keys
    && (forall k :: k in before ==>
          if k in swept then after[k].state.Deleted? && Retouched(before[k], after[k]) else after[k] == before[k])
  }

  lemma InTimeTogether(first: Ledger, mid: Ledger, swept: set<R2Key>, claimed: set<R2Key>, now: nat)
    requires SweptOnly(first, mid, swept) && claimed !! swept && InTime(first, swept, now)
    ensures InTime(first, swept + claimed, now) <==> InTime(mid, claimed, now)
  {
    forall k | k in claimed
      ensures CreatedBy(first, k, now) <==> CreatedBy(mid, k, now)
    {
    }
    if InTime(first, swept + claimed, now) {
      assert forall k :: k in claimed ==> k in swept + claimed;
    }
  }

  /** Some of the claimed rows ended as deleted, the others are still being deleted. */
  ghost predicate Claims(before: Ledger, after: Ledger, claimed: set<R2Key>, now: nat) {
    && after.Keys == before.Keys
    && (forall k :: k in before ==>
          if k in claimed
          then ClaimedAt(after[k], now) && Retouched(before[k], after[k])
          else after[k] == before[k])
  }

  predicate ClaimedAt(row: LedgerRow, now: nat) {
    (row.state.Deleting? || row.state.Deleted?) && row.deleteStartedAt == Some(now)
  }

  /** Only rows that were due can have been claimed, so nothing referenced is touched. */
  lemma ClaimsRetire(db: Database, after: Ledger, claimed: set<R2Key>, now: nat, scope: Scope)
    requires claimed <= Eligible(db, now, scope) && Claims(db.ledger, after, claimed, now)
    ensures OnlyRetires(db.ledger, after)
    ensures forall k :: k in claimed ==> IsRetired(after, k)
    ensures forall k :: IsReferenced(after, k) <==> IsReferenced(db.ledger, k)
    ensures forall k :: k in db.ledger && db.ledger[k].state.Deleted? ==> after[k] == db.ledger[k]
  {
  }

  /** A collection, complete or not, keeps the tables consistent and every reference stored. */
  lemma CollectionKeepsOk(db: Database, stored: Bucket, after: Ledger, claimed: set<R2Key>, gone: set<R2Key>, now: nat, scope: Scope)
    requires DatabaseOk(db) && BucketOk(db.ledger, stored)
    requires gone <= claimed <= Eligible(db, now, scope) && Claims(db.ledger, after, claimed, now)
    ensures DatabaseOk(db.(ledger := after)) && BucketOk(after, stored - gone)
  {
    ClaimsRetire(db, after, claimed, now, scope);
    RetiringKeepsDatabase(db, after);
  }

  /** What is left to collect after a sweep is what was not swept. */
  lemma EligibleAfterSweep(db: Database, after: Ledger, swept: set<R2Key>, now: nat, scope: Scope)
    requires SweptOnly(db.ledger, after, swept)
    ensures Eligible(db.(ledger := after), now, scope) == Eligible(db, now, scope) - swept
  {
    var d := db.(ledger := after);
    forall k | k in db.ledger
      ensures Collectable(d, k, now, scope) <==> Collectable(db, k, now, scope) && k !in swept
    {
      assert Used(d, k) <==> Used(db, k);
      assert Protected(d, k) <==> Protected(db, k);
    }
  }

  lemma SweptTwice(first: Ledger, second: Ledger, third: Ledger, a: set<R2Key>, b: set<R2Key>)
    requires SweptOnly(first, second, a) && SweptOnly(second, third, b)
    ensures SweptOnly(first, third, a + b)
  {
  }

  lemma {:induction false} SubsetOfSize(s: set<R2Key>, n: nat)
    requires n <= |s|
    ensures exists t: set<R2Key> :: t <= s && |t| == n
  {
    if n == 0 {
      var none: set<R2Key> := {};
      assert none <= s && |none| == 0;
    } else {
      var k :| k in s;
      SubsetOfSize(s - {k}, n - 1);
      var t: set<R2Key> :| t <= s - {k} && |t| == n - 1;
      assert t + {k} <= s && |t + {k}| == n;
    }
  }

  lemma {:induction false} SubsetCounts(a: set<R2Key>, b: set<R2Key>)
    requires a <= b
    ensures |a| <= |b| && (|a| == |b| ==> a == b)
  {
    if a != {} {
      var k :| k in a;
      SubsetCounts(a - {k}, b - {k});
    }
  }

  /** A batch of a hundred that comes back short has taken everything that was left. */
  lemma ShortBatchDrains(eligible: set<R2Key>, swept: set<R2Key>, claimed: set<R2Key>, limit: nat)
    requires swept <= eligible && claimed <= eligible - swept
    requires |claimed| == if limit < |eligible - swept| then limit else |eligible - swept|
    ensures |swept + claimed| == |swept| + |claimed|
    ensures |claimed| < limit ==> swept + claimed == eligible
  {
    SubsetCounts(claimed, eligible - swept);
    assert swept !! claimed;
  }

  /** The erased rows are marked, every other row is as it was. */
  ghost predicate MarkedOnly(before: Ledger, after: Ledger, marked: set<R2Key>) {
    && after.Keys == before.Keys
    && (forall k :: k in before ==> after[k] == if k in marked then before[k].(state := Deleted) else before[k])
  }

  lemma ClaimedThenSwept(before: Ledger, mid: Ledger, after: Ledger, claimed: set<R2Key>, marked: set<R2Key>, token: Token, now: nat)
    requires mid == ClaimGarbage(before, claimed, token, now) && marked <= claimed && MarkedOnly(mid, after, marked)
    ensures Claims(before, after, claimed, now)
    ensures marked == claimed ==> SweptOnly(before, after, claimed)
    ensures forall k :: k in claimed && k in after && after[k].state.Deleted? ==> k in marked
  {
  }

  /** Claims on top of claims are claims of the rows that were there at first. */
  lemma ClaimsTwice(first: Ledger, mid: Ledger, after: Ledger, a: set<R2Key>, b: set<R2Key>, now: nat)
    requires Claims(first, mid, a, now) && Claims(mid, after, b, now)
    ensures Claims(first, after, a + b, now)
  {
  }

  /** What is marked as deleted has been erased. */
  predicate MarksErased(ledger: Ledger, claimed: set<R2Key>, gone: set<R2Key>) {
    forall k :: k in claimed && k in ledger && ledger[k].state.Deleted? ==> k in gone
  }

  /** Where repeated collections stand after some complete batches. */
  ghost predicate Progress(start: Database, stored: Bucket, ledger: Ledger, bucket: Bucket, claimed: set<R2Key>, now: nat, scope: Scope) {
    && claimed <= Eligible(start, now, scope)
    && SweptOnly(start.ledger, ledger, claimed) && Claims(start.ledger, ledger, claimed, now)
    && bucket == stored - claimed
    && Eligible(start.(ledger := ledger), now, scope) == Eligible(start, now, scope) - claimed
  }

  /** No row of these was created after the collection began. */
  predicate InTime(ledger: Ledger, keys: set<R2Key>, now: nat) {
    forall k :: k in keys ==> CreatedBy(ledger, k, now)
  }

  predicate TakesUpTo(left: set<R2Key>, taken: set<R2Key>, limit: nat) {
    taken <= left && |taken| == if limit < |left| then limit else |left|
  }

  /** One more batch, complete or cut short by R2. */
  lemma OneMoreBatch(start: Database, stored: Bucket, mid: Ledger, midBucket: Bucket, claimed: set<R2Key>,
                     after: Ledger, taken: set<R2Key>, gone: set<R2Key>, limit: nat, now: nat, scope: Scope)
    requires Progress(start, stored, mid, midBucket, claimed, now, scope)
    requires TakesUpTo(Eligible(start, now, scope) - claimed, taken, limit)
    requires Claims(mid, after, taken, now) && gone <= taken
    ensures Claims(start.ledger, after, claimed + taken, now) && midBucket - gone == stored - (claimed + gone)
    ensures claimed + taken <= Eligible(start, now, scope) && |claimed + taken| == |claimed| + |taken|
    ensures |taken| < limit ==> claimed + taken == Eligible(start, now, scope)
  {
    ClaimsTwice(start.ledger, mid, after, claimed, taken, now);
    ShortBatchDrains(Eligible(start, now, scope), claimed, taken, limit);
    ErasedTwice(stored, claimed, gone);
  }

  lemma ErasedTwice(stored: Bucket, first: set<R2Key>, second: set<R2Key>)
    ensures (stored - first) - second == stored - (first + second)
  {
  }

  lemma BatchCompletes(start: Database, stored: Bucket, mid: Ledger, midBucket: Bucket, claimed: set<R2Key>,
                       after: Ledger, taken: set<R2Key>, now: nat, scope: Scope)
    requires Progress(start, stored, mid, midBucket, claimed, now, scope)
    requires taken <= Eligible(start, now, scope) - claimed && SweptOnly(mid, after, taken) && Claims(mid, after, taken, now)
    ensures Progress(start, stored, after, midBucket - taken, claimed + taken, now, scope)
  {
    SweptTwice(start.ledger, mid, after, claimed, taken);
    ClaimsTwice(start.ledger, mid, after, claimed, taken, now);
    EligibleAfterSweep(start, after, claimed + taken, now, scope);
  }

  lemma {:induction false} UpperBound(s: set<nat>) returns (bound: nat)
    ensures forall x :: x in s ==> x < bound
    decreases |s|
  {
    if s == {} {
      bound := 0;
    } else {
      var x :| x in s;
      var rest := UpperBound(s - {x});
      bound := if x < rest then rest else x + 1;
      assert forall y :: y in s ==> y == x || y in s - {x};
    }
  }

  predicate TokenUnused(ledger: Ledger, token: Token) {
    forall k :: k in ledger ==> ledger[k].gcToken != Some(token)
  }

  lemma UnusedTokenExists(ledger: Ledger)
    ensures exists token :: TokenUnused(ledger, token)
  {
    var tokens := set k | k in ledger && ledger[k].gcToken.Some? :: ledger[k].gcToken.value;
    var bound := UpperBound(tokens);
    forall k | k in ledger
      ensures ledger[k].gcToken != Some(bound)
    {
      if ledger[k].gcToken.Some? { assert ledger[k].gcToken.value in tokens; }
    }
    assert TokenUnused(ledger, bound);
  }

  /** What repeated collections did: some eligible rows were claimed and some of their
      objects erased; with R2 answering, no row too young and few enough candidates, all of
      them. */
  ghost predicate Collected(start: Database, stored: Bucket, now: nat, scope: Scope, candidates: nat, answered: bool, finished: bool,
                            after: Database, bucket: Bucket, claimed: set<R2Key>, gone: set<R2Key>) {
    && after == start.(ledger := after.ledger) && bucket == stored - gone
    && gone <= claimed <= Eligible(start, now, scope)
    && Claims(start.ledger, after.ledger, claimed, now) && MarksErased(after.ledger, claimed, gone)
    && (finished <==> answered && InTime(start.ledger, claimed, now))
    && (finished && |Eligible(start, now, scope)| <= candidates ==>
          && claimed == gone == Eligible(start, now, scope)
          && SweptOnly(start.ledger, after.ledger, claimed)
          && Eligible(after, now, scope) == {})
  }

  // ---------------------------------------------------------------- a collection that was broken off

  /** A row that a collection claimed and did not finish is claimable again, while no row uses
      its key and no rotation protects it, from a minute after that collection began; the
      threshold never falls below zero, so one that began at time zero is retried at once. */
  lemma LeftoverIsRetried(before: Ledger, after: Ledger, claimed: set<R2Key>, now: nat, db: Database, later: nat, scope: Scope, k: R2Key)
    requires Claims(before, after, claimed, now) && k in claimed && k in before && after[k].state.Deleting?
    requires k in db.ledger && db.ledger[k] == after[k] && !Used(db, k) && !Protected(db, k)
    requires InScope(db.ledger, k, scope)
    ensures k in Eligible(db, later, scope) <==> later >= now + 60 || now == 0
  {
  }

  /** The next collection of the same scope, undisturbed, in time and with room for all, deletes
      and erases everything that the first left. */
  lemma RetryFinishes(db: Database, mid: Ledger, after: Ledger, claimed: set<R2Key>, now: nat, later: nat, scope: Scope,
                      taken: set<R2Key>, limit: nat, stored: Bucket)
    requires claimed <= Eligible(db, now, scope) && Claims(db.ledger, mid, claimed, now) && later >= now + 60
    requires TakesUpTo(Eligible(db.(ledger := mid), later, scope), taken, limit)
    requires |Eligible(db.(ledger := mid), later, scope)| <= limit && SweptOnly(mid, after, taken)
    ensures forall k :: k in claimed ==> k in after && after[k].state.Deleted?
    ensures forall k :: k in claimed && mid[k].state.Deleting? ==> k !in stored - taken
  {
    var d := db.(ledger := mid);
    SubsetCounts(taken, Eligible(d, later, scope));
    forall k | k in claimed && mid[k].state.Deleting?
      ensures k in taken
    {
      assert Collectable(db, k, now, scope);
      assert Used(d, k) <==> Used(db, k);
      assert Protected(d, k) <==> Protected(db, k);
      assert Collectable(d, k, later, scope);
    }
  }

  // ---------------------------------------------------------------- rows deleted one at a time

  function RowKeys(a: Account, sids: set<SnapshotId>): set<R2Key> {
    set sid | sid in sids && sid in a.snapshots :: a.snapshots[sid].key
  }

  lemma SameObjectsSameUse(d: Database, e: Database, k: R2Key)
    requires d.accounts.Keys == e.accounts.Keys
    requires forall v :: v in d.accounts ==> d.accounts[v].objects == e.accounts[v].objects
    ensures ObjectUses(d, k) <==> ObjectUses(e, k)
  {
  }

  lemma FewerSnapshotUses(early: Database, late: Database, u: UserId, sid: SnapshotId, k: R2Key)
    requires u in early.accounts && sid in early.accounts[u].snapshots
    requires late == SetAccount(early, u, early.accounts[u].(snapshots := early.accounts[u].snapshots - {sid}))
    ensures SnapshotUses(late, k) ==> SnapshotUses(early, k)
  {
    if SnapshotUses(late, k) {
      var v, x :| v in late.accounts && x in late.accounts[v].snapshots && late.accounts[v].snapshots[x].key == k;
      assert x in early.accounts[v].snapshots && early.accounts[v].snapshots[x].key == k;
    }
  }

  lemma OtherSnapshotUses(early: Database, late: Database, u: UserId, sid: SnapshotId, k: R2Key)
    requires u in early.accounts && sid in early.accounts[u].snapshots
    requires late == SetAccount(early, u, early.accounts[u].(snapshots := early.accounts[u].snapshots - {sid}))
    ensures SnapshotUses(early, k) && k != early.accounts[u].snapshots[sid].key ==> SnapshotUses(late, k)
  {
    if SnapshotUses(early, k) && k != early.accounts[u].snapshots[sid].key {
      var v, x :| v in early.accounts && x in early.accounts[v].snapshots && early.accounts[v].snapshots[x].key == k;
      assert x in late.accounts[v].snapshots && late.accounts[v].snapshots[x].key == k;
    }
  }

  /** Removing one row can only free the key that the row held. */
  lemma SnapshotLetsGo(early: Database, late: Database, u: UserId, sid: SnapshotId, k: R2Key)
    requires u in early.accounts && sid in early.accounts[u].snapshots
    requires late == SetAccount(early, u, early.accounts[u].(snapshots := early.accounts[u].snapshots - {sid}))
    ensures Used(late, k) ==> Used(early, k)
    ensures Used(early, k) && k != early.accounts[u].snapshots[sid].key ==> Used(late, k)
  {
    SameObjectsSameUse(early, late, k);
    FewerSnapshotUses(early, late, u, sid, k);
    OtherSnapshotUses(early, late, u, sid, k);
  }

  /** Releasing a set of keys now, and one more key after one more row is gone, releases what
      looking at all of them at the end releases. */
  lemma ReleaseOneMore(before: Ledger, early: Database, late: Database, keys: set<R2Key>, key: R2Key)
    requires early.ledger == before && late.ledger == before
    requires forall k :: Used(late, k) ==> Used(early, k)
    requires forall k :: Used(early, k) && k != key ==> Used(late, k)
    ensures Release(late.(ledger := ReleaseAll(early, keys).ledger), key) == ReleaseAll(late, keys + {key})
  {
    var d := late.(ledger := ReleaseAll(early, keys).ledger);
    assert forall k :: Used(d, k) <==> Used(late, k);
    assert Release(d, key).ledger == ReleaseAll(late, keys + {key}).ledger;
  }

  /** Firing the trigger row by row releases the same keys as looking once at the end. */
  lemma DeleteOneMoreSnapshot(db: Database, u: UserId, gone: set<SnapshotId>, sid: SnapshotId)
    requires u in db.accounts && sid in db.accounts[u].snapshots && sid !in gone
    ensures var d := DeleteSnapshots(db, u, gone);
            var a := AccountOf(d, u);
            && sid in a.snapshots
            && DeleteSnapshots(db, u, gone + {sid})
                 == Release(SetAccount(d, u, a.(snapshots := a.snapshots - {sid})), db.accounts[u].snapshots[sid].key)
  {
    var a := db.accounts[u];
    var key := a.snapshots[sid].key;
    assert (a.snapshots - gone) - {sid} == a.snapshots - (gone + {sid});
    assert RowKeys(a, gone + {sid}) == RowKeys(a, gone) + {key};
    var early := SetAccount(db, u, a.(snapshots := a.snapshots - gone));
    var late := SetAccount(db, u, a.(snapshots := a.snapshots - (gone + {sid})));
    assert late.accounts == early.accounts[u := late.accounts[u]];
    forall k
      ensures Used(late, k) ==> Used(early, k)
      ensures Used(early, k) && k != key ==> Used(late, k)
    {
      SnapshotLetsGo(early, late, u, sid, k);
    }
    ReleaseOneMore(db.ledger, early, late, RowKeys(a, gone), key);
    assert DeleteSnapshots(db, u, gone) == ReleaseAll(early, RowKeys(a, gone));
    var d := DeleteSnapshots(db, u, gone);
    assert SetAccount(d, u, d.accounts[u].(snapshots := d.accounts[u].snapshots - {sid}))
        == late.(ledger := ReleaseAll(early, RowKeys(a, gone)).ledger);
  }

  function PayloadKeys(a: Account, oids: set<ObjectId>): set<R2Key> {
    set oid | oid in oids && oid in a.objects :: a.objects[oid]
  }

  lemma SameSnapshotsSameUse(d: Database, e: Database, k: R2Key)
    requires d.accounts.Keys == e.accounts.Keys
    requires forall v :: v in d.accounts ==> d.accounts[v].snapshots == e.accounts[v].snapshots
    ensures SnapshotUses(d, k) <==> SnapshotUses(e, k)
  {
  }

  lemma FewerObjectUses(early: Database, late: Database, u: UserId, oid: ObjectId, k: R2Key)
    requires u in early.accounts && oid in early.accounts[u].objects
    requires late == SetAccount(early, u, early.accounts[u].(objects := early.accounts[u].objects - {oid}))
    ensures ObjectUses(late, k) ==> ObjectUses(early, k)
  {
    if ObjectUses(late, k) {
      var v, x :| v in late.accounts && x in late.accounts[v].objects && late.accounts[v].objects[x] == k;
      assert x in early.accounts[v].objects && early.accounts[v].objects[x] == k;
    }
  }

  lemma OtherObjectUses(early: Database, late: Database, u: UserId, oid: ObjectId, k: R2Key)
    requires u in early.accounts && oid in early.accounts[u].objects
    requires late == SetAccount(early, u, early.accounts[u].(objects := early.accounts[u].objects - {oid}))
    ensures ObjectUses(early, k) && k != early.accounts[u].objects[oid] ==> ObjectUses(late, k)
  {
    if ObjectUses(early, k) && k != early.accounts[u].objects[oid] {
      var v, x :| v in early.accounts && x in early.accounts[v].objects && early.accounts[v].objects[x] == k;
      assert x in late.accounts[v].objects && late.accounts[v].objects[x] == k;
    }
  }

  lemma ObjectLetsGo(early: Database, late: Database, u: UserId, oid: ObjectId, k: R2Key)
    requires u in early.accounts && oid in early.accounts[u].objects
    requires late == SetAccount(early, u, early.accounts[u].(objects := early.accounts[u].objects - {oid}))
    ensures Used(late, k) ==> Used(early, k)
    ensures Used(early, k) && k != early.accounts[u].objects[oid] ==> Used(late, k)
  {
    SameSnapshotsSameUse(early, late, k);
    FewerObjectUses(early, late, u, oid, k);
    OtherObjectUses(early, late, u, oid, k);
  }

  lemma DeleteOneMoreObject(db: Database, u: UserId, gone: set<ObjectId>, oid: ObjectId)
    requires u in db.accounts && oid in db.accounts[u].objects && oid !in gone
    ensures var d := DeleteObjects(db, u, gone);
            var a := AccountOf(d, u);
            && oid in a.objects
            && DeleteObjects(db, u, gone + {oid})
                 == Release(SetAccount(d, u, a.(objects := a.objects - {oid})), db.accounts[u].objects[oid])
  {
    var a := db.accounts[u];
    var key := a.objects[oid];
    assert (a.objects - gone) - {oid} == a.objects - (gone + {oid});
    assert PayloadKeys(a, gone + {oid}) == PayloadKeys(a, gone) + {key};
    var early := SetAccount(db, u, a.(objects := a.objects - gone));
    var late := SetAccount(db, u, a.(objects := a.objects - (gone + {oid})));
    assert late.accounts == early.accounts[u := late.accounts[u]];
    forall k
      ensures Used(late, k) ==> Used(early, k)
      ensures Used(early, k) && k != key ==> Used(late, k)
    {
      ObjectLetsGo(early, late, u, oid, k);
    }
    ReleaseOneMore(db.ledger, early, late, PayloadKeys(a, gone), key);
    assert DeleteObjects(db, u, gone) == ReleaseAll(early, PayloadKeys(a, gone));
    var d := DeleteObjects(db, u, gone);
    assert SetAccount(d, u, d.accounts[u].(objects := d.accounts[u].objects - {oid}))
        == late.(ledger := ReleaseAll(early, PayloadKeys(a, gone)).ledger);
  }

  /** Taking one element more, for loops that pick elements of a set in any order. */
  lemma OneTaken<T>(all: set<T>, rest: set<T>, x: T)
    requires rest <= all && x in rest
    ensures all - (rest - {x}) == (all - rest) + {x} && x !in all - rest && |rest - {x}| < |rest|
  {
  }

  lemma NothingDeletedYet(db: Database, u: UserId)
    requires u in db.accounts
    ensures DeleteSnapshots(db, u, {}) == db && DeleteObjects(db, u, {}) == db
  {
    var a := db.accounts[u];
    assert a.snapshots - {} == a.snapshots && a.objects - {} == a.objects;
    assert db.accounts[u := a] == db.accounts;
    assert RowKeys(a, {}) == {} && PayloadKeys(a, {}) == {};
    NothingToRelease(db, {});
  }

  /** Identifiers that name no row do not matter. */
  lemma OnlyOwnSnapshots(db: Database, u: UserId, sids: set<SnapshotId>)
    requires u in db.accounts
    ensures DeleteSnapshots(db, u, set sid | sid in sids && sid in db.accounts[u].snapshots) == DeleteSnapshots(db, u, sids)
  {
    var a := db.accounts[u];
    var own := set sid | sid in sids && sid in a.snapshots;
    assert a.snapshots - own == a.snapshots - sids;
    assert RowKeys(a, own) == RowKeys(a, sids);
  }

  lemma OnlyOwnObjects(db: Database, u: UserId, oids: set<ObjectId>)
    requires u in db.accounts
    ensures DeleteObjects(db, u, set oid | oid in oids && oid in db.accounts[u].objects) == DeleteObjects(db, u, oids)
  {
    var a := db.accounts[u];
    var own := set oid | oid in oids && oid in a.objects;
    assert a.objects - own == a.objects - oids;
    assert PayloadKeys(a, own) == PayloadKeys(a, oids);
  }

  // ---------------------------------------------------------------- what a reset leaves to collect

  lemma StartedUnprotects(u: UserId, a: Account, ledger: Ledger, now: nat)
    requires AccountOk(u, a, ledger)
    ensures forall rid :: rid in StartAllCleanups(a, now).rotations ==> StartAllCleanups(a, now).rotations[rid].cleanup.Some?
  {
  }

  lemma Unprotected(after: Database, u: UserId, k: R2Key)
    requires k.owner == u
    requires forall v, rid | v in after.accounts && rid in after.accounts[v].rotations ::
               if v == u then after.accounts[v].rotations[rid].cleanup.Some?
               else forall x: R2Key :: x in after.accounts[v].rotations[rid].staged ==> x.owner == v
    ensures !Protected(after, k)
  {
  }

  lemma StagesItsOwn(v: UserId, a: Account, ledger: Ledger, rid: RotationId)
    requires StagingOk(v, a, ledger) && rid in a.rotations
    ensures forall x: R2Key :: x in a.rotations[rid].staged ==> x.owner == v
  {
  }

  lemma ResetUnprotects(db: Database, u: UserId, now: nat, k: R2Key)
    requires DatabaseOk(db) && u in db.accounts && k.owner == u
    ensures !Protected(ResetBatch(db, u, now), k)
  {
    ResetResult(db, u, now);
    var after := ResetBatch(db, u, now);
    assert AccountOk(u, db.accounts[u], db.ledger);
    StartedUnprotects(u, db.accounts[u], db.ledger, now);
    forall v, rid | v in after.accounts && rid in after.accounts[v].rotations && v != u
      ensures forall x: R2Key :: x in after.accounts[v].rotations[rid].staged ==> x.owner == v
    {
      assert AccountOk(v, db.accounts[v], db.ledger);
      StagesItsOwn(v, db.accounts[v], db.ledger, rid);
    }
    Unprotected(after, u, k);
  }

  lemma ResetFreesKey(db: Database, u: UserId, now: nat, k: R2Key)
    requires DatabaseOk(db) && u in db.accounts && k in db.ledger && k.owner == u
    ensures !Used(ResetBatch(db, u, now), k) && ResetBatch(db, u, now).ledger == FenceUser(db.ledger, u, now)
  {
    ResetKeepsDatabase(db, u, now);
    ResetResult(db, u, now);
    FenceUserFences(db.ledger, u, now);
    ReferencedIffUsed(ResetBatch(db, u, now), k);
  }

  lemma FencedIsDue(ledger: Ledger, u: UserId, now: nat, k: R2Key)
    requires k in ledger && LedgerRowOk(k, ledger[k]) && k.owner == u
    ensures var row := FenceUser(ledger, u, now)[k];
            && (IsReferenced(ledger, k) ==> Due(row, now) && row.user == Some(u))
            && (IsReserved(ledger, k) ==> row.user == Some(u) && (Due(row, now) <==> ledger[k].lease <= now))
  {
  }

  lemma FreeIsEligible(db: Database, now: nat, u: UserId, k: R2Key)
    requires k in db.ledger && db.ledger[k].user == Some(u) && !Used(db, k) && !Protected(db, k)
    ensures k in Eligible(db, now, OfUser(u)) <==> Due(db.ledger[k], now)
  {
  }

  /** Right after a reset each key the account used is eligible at once; a key still reserved
      by an unexpired lease is not. */
  lemma ResetMakesEligible(db: Database, u: UserId, now: nat, k: R2Key)
    requires DatabaseOk(db) && u in db.accounts && k in db.ledger && k.owner == u
    ensures IsReferenced(db.ledger, k) ==> k in Eligible(ResetBatch(db, u, now), now, OfUser(u))
    ensures IsReserved(db.ledger, k) ==>
              (k in Eligible(ResetBatch(db, u, now), now, OfUser(u)) <==> db.ledger[k].lease <= now)
  {
    ResetUnprotects(db, u, now, k);
    ResetFreesKey(db, u, now, k);
    FencedIsDue(db.ledger, u, now, k);
    if IsReferenced(db.ledger, k) || IsReserved(db.ledger, k) { FreeIsEligible(ResetBatch(db, u, now), now, u, k); }
  }

  /** The rows counted before a reset: those of the user that are not deleted. */
  function Candidates(ledger: Ledger, u: UserId): set<R2Key> {
    set k | k in ledger && ledger[k].user == Some(u) && !ledger[k].state.Deleted?
  }

  lemma EligibleAreCandidates(before: Ledger, after: Database, u: UserId, now: nat)
    requires after.ledger == FenceUser(before, u, now)
    ensures |Eligible(after, now, OfUser(u))| <= |Candidates(before, u)|
  {
    SubsetCounts(Eligible(after, now, OfUser(u)), Candidates(before, u));
  }

  lemma ResetKeepsStored(db: Database, u: UserId, now: nat, stored: Bucket)
    requires DatabaseOk(db) && u in db.accounts && BucketOk(db.ledger, stored)
    ensures BucketOk(ResetBatch(db, u, now).ledger, stored)
  {
    ResetResult(db, u, now);
  }

  /** A reset followed by an undisturbed collection, key by key. */
  lemma ResetThenSwept(db: Database, u: UserId, now: nat, after: Ledger, k: R2Key)
    requires DatabaseOk(db) && u in db.accounts && k in db.ledger && k.owner == u
    requires SweptOnly(FenceUser(db.ledger, u, now), after, Eligible(ResetBatch(db, u, now), now, OfUser(u)))
    ensures k in after
    ensures IsReferenced(db.ledger, k) ==> after[k].state.Deleted?
    ensures IsReserved(db.ledger, k) && db.ledger[k].lease > now ==>
              after[k] == db.ledger[k].(state := Ready) && k !in Eligible(ResetBatch(db, u, now), now, OfUser(u))
  {
    ResetMakesEligible(db, u, now, k);
    assert LedgerRowOk(k, db.ledger[k]);
  }

  /** What a reset with an undisturbed collection leaves of a key of the account. */
  predicate FreedByReset(before: Ledger, stored: Bucket, now: nat, after: Ledger, bucket: Bucket, k: R2Key) {
    && (IsReferenced(before, k) ==> k in after && after[k].state.Deleted? && k !in bucket)
    && (IsReserved(before, k) && before[k].lease > now ==>
          k in after && after[k] == before[k].(state := Ready) && (k in bucket <==> k in stored))
  }

  lemma KeyFreedByReset(db: Database, stored: Bucket, u: UserId, now: nat, after: Ledger, k: R2Key)
    requires DatabaseOk(db) && u in db.accounts && k.owner == u
    requires SweptOnly(FenceUser(db.ledger, u, now), after, Eligible(ResetBatch(db, u, now), now, OfUser(u)))
    ensures FreedByReset(db.ledger, stored, now, after, stored - Eligible(ResetBatch(db, u, now), now, OfUser(u)), k)
  {
    if k in db.ledger {
      ResetThenSwept(db, u, now, after, k);
      ResetMakesEligible(db, u, now, k);
    }
  }

  lemma ResetCollected(db: Database, stored: Bucket, u: UserId, now: nat, after: Ledger, claimed: set<R2Key>)
    requires DatabaseOk(db) && u in db.accounts && claimed == Eligible(ResetBatch(db, u, now), now, OfUser(u))
    requires SweptOnly(ResetBatch(db, u, now).ledger, after, claimed)
    ensures forall k: R2Key :: k.owner == u ==> FreedByReset(db.ledger, stored, now, after, stored - claimed, k)
  {
    assert ResetBatch(db, u, now).ledger == FenceUser(db.ledger, u, now) by { ResetResult(db, u, now); }
    forall k: R2Key | k.owner == u
      ensures FreedByReset(db.ledger, stored, now, after, stored - claimed, k)
    {
      KeyFreedByReset(db, stored, u, now, after, k);
    }
  }

  lemma ResetCollectionOk(db: Database, stored: Bucket, u: UserId, now: nat, after: Ledger, claimed: set<R2Key>, gone: set<R2Key>)
    requires DatabaseOk(db) && BucketOk(db.ledger, stored) && u in db.accounts
    requires gone <= claimed <= Eligible(ResetBatch(db, u, now), now, OfUser(u))
    requires Claims(ResetBatch(db, u, now).ledger, after, claimed, now)
    ensures DatabaseOk(ResetBatch(db, u, now).(ledger := after)) && BucketOk(after, stored - gone)
  {
    ResetKeepsDatabase(db, u, now);
    ResetKeepsStored(db, u, now, stored);
    CollectionKeepsOk(ResetBatch(db, u, now), stored, after, claimed, gone, now, OfUser(u));
  }

  lemma CandidatesSuffice(db: Database, u: UserId, now: nat)
    requires DatabaseOk(db) && u in db.accounts
    ensures |Eligible(ResetBatch(db, u, now), now, OfUser(u))| <= |Candidates(db.ledger, u)|
  {
    ResetResult(db, u, now);
    EligibleAreCandidates(db.ledger, ResetBatch(db, u, now), u, now);
  }

  /** A reset with its collection: the tables of the reset batch, and, if R2 answered every
      erase and no row to collect was created after the reset began, nothing left to collect
      and each key of the account freed. */
  ghost predicate ResetOutcome(db: Database, stored: Bucket, u: UserId, now: nat, answered: bool, finished: bool, after: Database, bucket: Bucket) {
    && DatabaseOk(after) && BucketOk(after.ledger, bucket)
    && after == ResetBatch(db, u, now).(ledger := after.ledger)
    && (finished <==> answered && InTime(db.ledger, Eligible(ResetBatch(db, u, now), now, OfUser(u)), now))
    && (finished ==>
          && Eligible(after, now, OfUser(u)) == {}
          && forall k: R2Key :: k.owner == u ==> FreedByReset(db.ledger, stored, now, after.ledger, bucket, k))
  }

  lemma ResetOutcomeHolds(db: Database, stored: Bucket, u: UserId, now: nat, candidates: nat, answered: bool, finished: bool,
                          after: Database, bucket: Bucket, claimed: set<R2Key>, gone: set<R2Key>)
    requires DatabaseOk(db) && BucketOk(db.ledger, stored) && u in db.accounts
    requires candidates == |Candidates(db.ledger, u)|
    requires Collected(ResetBatch(db, u, now), stored, now, OfUser(u), candidates, answered, finished, after, bucket, claimed, gone)
    ensures ResetOutcome(db, stored, u, now, answered, finished, after, bucket)
  {
    ResetCollectionOk(db, stored, u, now, after.ledger, claimed, gone);
    CandidatesSuffice(db, u, now);
    ResetTimes(db, u, now, claimed);
    if finished { ResetCollected(db, stored, u, now, after.ledger, claimed); }
  }

  lemma ResetTimes(db: Database, u: UserId, now: nat, claimed: set<R2Key>)
    requires DatabaseOk(db) && u in db.accounts && claimed <= Eligible(ResetBatch(db, u, now), now, OfUser(u))
    ensures var eligible := Eligible(ResetBatch(db, u, now), now, OfUser(u));
            && (InTime(db.ledger, eligible, now) ==> InTime(ResetBatch(db, u, now).ledger, claimed, now))
            && (claimed == eligible && InTime(ResetBatch(db, u, now).ledger, claimed, now) ==> InTime(db.ledger, eligible, now))
  {
    ResetResult(db, u, now);
    FenceKeepsTimes(db.ledger, u, now);
  }

  lemma FenceKeepsTimes(ledger: Ledger, u: UserId, now: nat)
    ensures forall k :: CreatedBy(FenceUser(ledger, u, now), k, now) <==> CreatedBy(ledger, k, now)
  {
  }

  lemma SweepsOn(before: Ledger, ledger: Ledger, swept: set<R2Key>, k: R2Key, token: Token, now: nat)
    requires MarkedOnly(before, ledger, swept) && ClaimedBy(before, k, token) && CreatedBy(before, k, now) && k !in swept
    ensures MarkedOnly(before, MarkDeleted(ledger, k, token, now), swept + {k})
  {
  }

  // ---------------------------------------------------------------- inventory

  /** One object as R2 lists it: a key of this service, or a name it does not know. */
  datatype Listed = Known(key: R2Key) | Foreign(name: nat)

  datatype Prefix = Payloads | Snapshots

  predicate Under(k: R2Key, prefix: Prefix) {
    match prefix
    case Payloads => k.PayloadKey?
    case Snapshots => k.SnapshotKey?
  }

  /** The listing names the stored objects under the prefix, all of them, and possibly others
      whose names are not keys of this service. */
  ghost predicate Lists(listing: seq<Listed>, stored: Bucket, prefix: Prefix) {
    forall k :: Known(k) in listing <==> k in stored && Under(k, prefix)
  }

  function KnownKeys(page: seq<Listed>): set<R2Key> {
    set i | 0 <= i < |page| && page[i].Known? :: page[i].key
  }

  function PageEnd(listing: seq<Listed>, from: nat, limit: nat): nat
    requires from <= |listing|
  {
    if from + limit < |listing| then from + limit else |listing|
  }

  /** The remaining pages of a pass, each its own step at its own time, up to a page that is
      rolled back. */
  function Pass(db: Database, listing: seq<Listed>, from: nat, limit: nat, clock: nat -> nat): Option<Database>
    requires from <= |listing| && limit >= 1
    decreases |listing| - from
  {
    var end := PageEnd(listing, from, limit);
    var page := KnownKeys(listing[from..end]);
    if !PageInTime(db, page, clock(from)) then None
    else if end == |listing| then Some(Rearm(db, page, clock(from)))
    else Pass(Rearm(db, page, clock(from)), listing, end, limit, clock)
  }

  /** A stored object that the ledger answers for. */
  predicate Accounted(db: Database, k: R2Key) {
    Used(db, k) || Protected(db, k) || (k in db.ledger && !db.ledger[k].state.Deleted?)
  }

  lemma RearmAccounts(db: Database, listed: set<R2Key>, now: nat, k: R2Key)
    ensures k in listed || Accounted(db, k) ==> Accounted(Rearm(db, listed, now), k)
  {
    var after := Rearm(db, listed, now);
    assert Used(after, k) <==> Used(db, k);
    assert Protected(after, k) <==> Protected(db, k);
  }

  lemma {:induction false} PassAccountsForListed(db: Database, listing: seq<Listed>, from: nat, limit: nat, clock: nat -> nat, k: R2Key)
    requires from <= |listing| && limit >= 1
    requires Accounted(db, k) || exists i :: from <= i < |listing| && listing[i] == Known(k)
    requires Pass(db, listing, from, limit, clock).Some?
    ensures Accounted(Pass(db, listing, from, limit, clock).value, k)
    decreases |listing| - from
  {
    var end := PageEnd(listing, from, limit);
    var page := listing[from..end];
    RearmAccounts(db, KnownKeys(page), clock(from), k);
    if !Accounted(db, k) {
      var i :| from <= i < |listing| && listing[i] == Known(k);
      if i < end { assert page[i - from] == Known(k); }
    }
    if end < |listing| {
      PassAccountsForListed(Rearm(db, KnownKeys(page), clock(from)), listing, end, limit, clock, k);
    }
  }

  /** After a complete pass over a prefix every object stored under it is used, protected, or
      has a ledger row from which it can be collected: an object written after its key was
      deleted is always found again. */
  lemma PassAccountsForAll(db: Database, stored: Bucket, prefix: Prefix, listing: seq<Listed>, limit: nat, clock: nat -> nat)
    requires Lists(listing, stored, prefix) && limit >= 1
    ensures var after := Pass(db, listing, 0, limit, clock);
            after.Some? ==> forall k :: k in stored && Under(k, prefix) ==> Accounted(after.value, k)
  {
    if Pass(db, listing, 0, limit, clock).Some? {
      forall k | k in stored && Under(k, prefix)
        ensures Accounted(Pass(db, listing, 0, limit, clock).value, k)
      {
        assert Known(k) in listing;
        PassAccountsForListed(db, listing, 0, limit, clock, k);
      }
    }
  }

  /** Where the page of an object starts. */
  function PageOf(from: nat, limit: nat, i: nat): nat
    requires from <= i && limit >= 1
    decreases i - from
  {
    if i < from + limit then from else PageOf(from + limit, limit, i)
  }

  /** R2 lists an object once. */
  predicate ListedOnce(listing: seq<Listed>, from: nat) {
    forall i, j :: from <= i < j < |listing| ==> listing[i] != listing[j]
  }

  /** The row that an object's page would re-arm is not younger than the page's scan. */
  predicate ObjectInTime(db: Database, listing: seq<Listed>, from: nat, limit: nat, clock: nat -> nat, i: nat)
    requires from <= i < |listing| && limit >= 1
  {
    listing[i].Known? && Rearms(db, listing[i].key) ==> CreatedBy(db.ledger, listing[i].key, clock(PageOf(from, limit, i)))
  }

  lemma FirstPageInTime(db: Database, listing: seq<Listed>, from: nat, limit: nat, clock: nat -> nat)
    requires from <= |listing| && limit >= 1
    ensures var end := PageEnd(listing, from, limit);
            PageInTime(db, KnownKeys(listing[from..end]), clock(from)) <==>
              forall i :: from <= i < end ==> ObjectInTime(db, listing, from, limit, clock, i)
  {
    var end := PageEnd(listing, from, limit);
    var page := listing[from..end];
    if PageInTime(db, KnownKeys(page), clock(from)) {
      forall i | from <= i < end
        ensures ObjectInTime(db, listing, from, limit, clock, i)
      {
        assert page[i - from] == listing[i];
      }
    }
    if forall i :: from <= i < end ==> ObjectInTime(db, listing, from, limit, clock, i) {
      forall k | k in KnownKeys(page) && Rearms(db, k)
        ensures CreatedBy(db.ledger, k, clock(from))
      {
        var j :| 0 <= j < |page| && page[j] == Known(k);
        assert listing[from + j] == Known(k) && ObjectInTime(db, listing, from, limit, clock, from + j);
      }
    }
  }

  /** Re-arming one page leaves the objects of later pages as they are. */
  lemma LaterObject(db: Database, listing: seq<Listed>, from: nat, limit: nat, clock: nat -> nat, i: nat)
    requires limit >= 1 && from + limit <= i < |listing| && ListedOnce(listing, from)
    ensures var end := PageEnd(listing, from, limit);
            var after := Rearm(db, KnownKeys(listing[from..end]), clock(from));
            ObjectInTime(after, listing, end, limit, clock, i) <==> ObjectInTime(db, listing, from, limit, clock, i)
  {
    var page := listing[from..from + limit];
    if listing[i].Known? {
      assert forall j :: 0 <= j < |page| ==> page[j] == listing[from + j] != listing[i];
      RearmSpares(db, KnownKeys(page), clock(from), listing[i].key);
    }
  }

  lemma RearmSpares(db: Database, listed: set<R2Key>, now: nat, k: R2Key)
    requires k !in listed
    ensures var after := Rearm(db, listed, now);
            (Rearms(after, k) <==> Rearms(db, k)) && forall t :: CreatedBy(after.ledger, k, t) <==> CreatedBy(db.ledger, k, t)
  {
    var after := Rearm(db, listed, now);
    assert Used(after, k) <==> Used(db, k);
    assert Protected(after, k) <==> Protected(db, k);
  }

  /** A pass goes through exactly when no deleted row that it re-arms was created after the
      scan of the object's page. */
  lemma {:induction false} PassGoesThrough(db: Database, listing: seq<Listed>, from: nat, limit: nat, clock: nat -> nat)
    requires from <= |listing| && limit >= 1 && ListedOnce(listing, from)
    ensures Pass(db, listing, from, limit, clock).Some? <==>
              forall i :: from <= i < |listing| ==> ObjectInTime(db, listing, from, limit, clock, i)
    decreases |listing| - from
  {
    var end := PageEnd(listing, from, limit);
    FirstPageInTime(db, listing, from, limit, clock);
    if end < |listing| {
      var after := Rearm(db, KnownKeys(listing[from..end]), clock(from));
      PassGoesThrough(after, listing, end, limit, clock);
      forall i | end <= i < |listing|
        ensures ObjectInTime(after, listing, end, limit, clock, i) <==> ObjectInTime(db, listing, from, limit, clock, i)
      {
        LaterObject(db, listing, from, limit, clock, i);
      }
    }
  }

  /** An object that nothing accounts for can be collected from the moment its page was
      scanned; a row that is new belongs to nobody and dates from the scan. */
  lemma RearmedIsEligible(db: Database, listed: set<R2Key>, now: nat, k: R2Key)
    requires k in listed && !Accounted(db, k)
    ensures var after := Rearm(db, listed, now);
            && k in Eligible(after, now, Everyone)
            && (if k in db.ledger then after.ledger[k].createdAt == db.ledger[k].createdAt && after.ledger[k].user == db.ledger[k].user
                else after.ledger[k].createdAt == now && after.ledger[k].user.None?)
  {
    var after := Rearm(db, listed, now);
    assert Used(after, k) <==> Used(db, k);
    assert Protected(after, k) <==> Protected(db, k);
  }

  // ---------------------------------------------------------------- one page, object by object

  /** One more object's statement: it aborts exactly when the longer page is not in time. */
  lemma PageTimesGrow(db: Database, listed: set<R2Key>, k: R2Key, now: nat)
    ensures var mid := Rearm(db, listed, now);
            PageInTime(db, listed + {k}, now) <==> PageInTime(db, listed, now) && PageInTime(mid, {k}, now)
  {
    var mid := Rearm(db, listed, now);
    if k in listed {
      assert listed + {k} == listed;
      RearmedOnce(db, listed, k, now);
    } else {
      RearmSpares(db, listed, now, k);
      assert PageInTime(mid, {k}, now) <==> (Rearms(db, k) ==> CreatedBy(db.ledger, k, now));
    }
  }

  lemma RearmedOnce(db: Database, listed: set<R2Key>, k: R2Key, now: nat)
    requires k in listed
    ensures !Rearms(Rearm(db, listed, now), k)
  {
    var after := Rearm(db, listed, now);
    assert Used(after, k) <==> Used(db, k);
    assert Protected(after, k) <==> Protected(db, k);
  }

  lemma PageStarts(db: Database, now: nat)
    ensures Rearm(db, KnownKeys([]), now) == db
  {
    assert Rearm(db, KnownKeys([]), now).ledger == db.ledger;
  }

  lemma RearmOneMore(db: Database, listed: set<R2Key>, k: R2Key, now: nat)
    ensures Rearm(Rearm(db, listed, now), {k}, now) == Rearm(db, listed + {k}, now)
  {
    var mid := Rearm(db, listed, now);
    assert Used(mid, k) <==> Used(db, k);
    assert Protected(mid, k) <==> Protected(db, k);
    assert Rearm(mid, {k}, now).ledger == Rearm(db, listed + {k}, now).ledger;
  }

  lemma OneMoreListed(page: seq<Listed>, x: Listed)
    ensures KnownKeys(page + [x]) == KnownKeys(page) + if x.Known? then {x.key} else {}
  {
    forall k
      ensures k in KnownKeys(page + [x]) <==> k in KnownKeys(page) || x == Known(k)
    {
      if k in KnownKeys(page) {
        var i :| 0 <= i < |page| && page[i] == Known(k);
        assert (page + [x])[i] == Known(k);
      }
      if x == Known(k) { assert (page + [x])[|page|] == Known(k); }
    }
  }

  lemma PageGrows(db: Database, listing: seq<Listed>, from: nat, i: nat, now: nat)
    requires from <= i < |listing|
    ensures var before := Rearm(db, KnownKeys(listing[from..i]), now);
            Rearm(db, KnownKeys(listing[from..i + 1]), now) ==
              if listing[i].Known? then Rearm(before, {listing[i].key}, now) else before
    ensures PageInTime(db, KnownKeys(listing[from..i + 1]), now) <==>
              && PageInTime(db, KnownKeys(listing[from..i]), now)
              && (listing[i].Known? ==> PageInTime(Rearm(db, KnownKeys(listing[from..i]), now), {listing[i].key}, now))
  {
    var page, longer := listing[from..i], listing[from..i + 1];
    assert longer == page + [listing[i]];
    OneMoreListed(page, listing[i]);
    if listing[i].Known? {
      RearmOneMore(db, KnownKeys(page), listing[i].key, now);
      PageTimesGrow(db, KnownKeys(page), listing[i].key, now);
    }
  }
}
