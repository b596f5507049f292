/** Runs of the service: the invariant holds in every reachable state. */
module ProtocolRuns {
  import opened Wrappers
  import opened SyncTables
  import opened SyncInvariant
  import opened SnapshotUpload
  import opened StorageProtocol
  import opened ProtocolInvariant

  lemma UploadFailsKeeps(s: State, p: ProcessId)
    requires StateOk(s) && p in s.uploaders
    ensures Keeps(s, SetUploader(s, p, Failed))
  {
  }

  lemma UploadEventKeeps(s: State, e: Event)
    requires StateOk(s) && UploadEvent(e) && UploadEnabled(s, e)
    ensures Keeps(s, UploadStep(s, e))
  {
    match e
    case UploadClaim(p, up, token, now) => ClaimStepKeeps(s, p, up, token, now);
    case UploadStored(p) => StoreStepKeeps(s, p);
    case UploadLands(p) => PutStepKeeps(s, p);
    case UploadFails(p) => UploadFailsKeeps(s, p);
    case UploadCommit(p, heard) => CommitStepKeeps(s, p, heard);
    case UploadAbandon(p) => AbandonStepKeeps(s, p);
  }

  lemma CollectEventKeeps(s: State, e: Event)
    requires StateOk(s) && CollectEvent(e) && CollectEnabled(s, e)
    ensures Keeps(s, CollectStep(s, e))
  {
    match e
    case CollectClaim(p, token, now, scope, chosen) => CollectClaimKeeps(s, p, token, now, scope, chosen);
    case CollectList(p, listed) => CollectListKeeps(s, p, listed);
    case CollectErase(p) => CollectEraseKeeps(s, p);
    case CollectEraseLands(p, i) => EraseLandsKeeps(s, p, i);
    case CollectMark(p) => CollectMarkKeeps(s, p);
  }

  lemma CleanupEventKeeps(s: State, e: Event)
    requires StateOk(s) && CleanupEvent(e) && CleanupEnabled(s, e)
    ensures Keeps(s, CleanupStep(s, e))
  {
    match e
    case CleanupMark(p, u, sid, key, now) => CleanupMarkKeeps(s, p, u, sid, key, now);
    case CleanupList(p, jobs) => CleanupListKeeps(s, p, jobs);
    case CleanupUnlink(p) => CleanupUnlinkKeeps(s, p);
    case CleanupFinish(p) => CleanupFinishKeeps(s, p);
    case FinalizeRotations => FinalizeKeepsState(s);
  }

  lemma WipeStepKeeps(s: State, e: Event)
    requires StateOk(s) && WipeEvent(e) && WipeEnabled(s, e)
    ensures Keeps(s, WipeStep(s, e))
  {
    match e
    case ResetSync(u, _, now) => ResetKeepsState(s, u, now);
    case DeleteAccount(u, _, now) => EraseKeepsState(s, u, now);
  }

  lemma DownloadStepKeeps(s: State, e: Event)
    requires StateOk(s) && DownloadEvent(e) && DownloadEnabled(s, e)
    ensures Keeps(s, DownloadStep(s, e))
  {
    match e
    case DownloadResolve(p, u, token) => ResolveKeeps(s, p, u, token);
    case DownloadGet(p) => GetKeeps(s, p);
    case DownloadReread(p) => RereadKeeps(s, p);
  }

  /** Every enabled step of every process keeps the invariant and the frame. */
  lemma StepKeeps(s: State, e: Event)
    requires StateOk(s) && Enabled(s, e)
    ensures Keeps(s, Step(s, e))
  {
    if MembershipEvent(e) { MembershipStepKeeps(s, e); }
    else if SessionEvent(e) { SessionStepKeeps(s, e); }
    else if UploadEvent(e) { UploadEventKeeps(s, e); }
    else if CollectEvent(e) { CollectEventKeeps(s, e); }
    else if CleanupEvent(e) { CleanupEventKeeps(s, e); }
    else if WipeEvent(e) { WipeStepKeeps(s, e); }
    else if DownloadEvent(e) { DownloadStepKeeps(s, e); }
    else { InventoryKeepsState(s, e.found, e.now); }
  }

  lemma OnlyPayloadsOk(u: UserId, a: Account, ledger: Ledger)
    requires a == NO_ACCOUNT.(objects := a.objects) && ShapesOk(u, a) && RowsReferenced(u, a, ledger)
    ensures AccountOk(u, a, ledger)
  {
  }

  lemma InitDatabaseOk(s: State)
    requires Init(s)
    ensures DatabaseOk(s.db)
  {
    forall u | u in s.db.accounts
      ensures AccountOk(u, s.db.accounts[u], s.db.ledger)
    {
      OnlyPayloadsOk(u, s.db.accounts[u], s.db.ledger);
    }
  }

  lemma InitBucketOk(s: State)
    requires Init(s)
    ensures BucketOk(s.db.ledger, s.bucket)
  {
  }

  lemma InitKeeps(s: State)
    requires Init(s)
    ensures StateOk(s)
  {
    InitDatabaseOk(s);
    InitBucketOk(s);
  }

  // ---------------------------------------------------------------- runs

  ghost predicate Moves(s: State, e: Event, t: State) {
    Enabled(s, e) && t == Step(s, e)
  }

  ghost predicate MovesAt(states: seq<State>, events: seq<Event>, i: nat)
    requires |states| == |events| + 1 && i < |events|
  {
    Moves(states[i], events[i], states[i + 1])
  }

  ghost predicate Run(states: seq<State>, events: seq<Event>) {
    && |states| == |events| + 1
    && Init(states[0])
    && forall i :: 0 <= i < |events| ==> MovesAt(states, events, i)
  }

  lemma {:induction false} Reachable(states: seq<State>, events: seq<Event>, i: nat)
    requires Run(states, events) && i < |states|
    ensures StateOk(states[i])
  {
    if i == 0 {
      InitKeeps(states[0]);
    } else {
      Reachable(states, events, i - 1);
      assert MovesAt(states, events, i - 1);
      StepKeeps(states[i - 1], events[i - 1]);
    }
  }

  lemma RunStepEvolves(states: seq<State>, events: seq<Event>, m: nat)
    requires Run(states, events) && m < |events|
    ensures Evolves(states[m].db.ledger, states[m + 1].db.ledger)
  {
    Reachable(states, events, m);
    assert MovesAt(states, events, m);
    StepKeeps(states[m], events[m]);
  }

  lemma EvolvesTwice(first: Ledger, second: Ledger, third: Ledger)
    requires Evolves(first, second) && Evolves(second, third)
    ensures Evolves(first, third)
  {
  }

  lemma {:induction false} LedgerEvolves(states: seq<State>, events: seq<Event>, i: nat, j: nat)
    requires Run(states, events) && i <= j < |states|
    ensures Evolves(states[i].db.ledger, states[j].db.ledger)
    decreases j - i
  {
    if i < j {
      LedgerEvolves(states, events, i, j - 1);
      RunStepEvolves(states, events, j - 1);
      EvolvesTwice(states[i].db.ledger, states[j - 1].db.ledger, states[j].db.ledger);
    }
  }

  // ---------------------------------------------------------------- no live object is lost

  lemma RowsAreStored(s: State, u: UserId)
    requires StateOk(s) && u in s.db.accounts
    ensures var a := s.db.accounts[u];
            && (forall sid :: sid in a.snapshots ==>
                  a.snapshots[sid].key in s.bucket && s.bucket[a.snapshots[sid].key] == a.snapshots[sid].payloadHash)
            && (forall oid :: oid in a.objects ==>
                  a.objects[oid] in s.bucket && s.bucket[a.objects[oid]] == a.objects[oid].payloadHash)
  {
    var a := s.db.accounts[u];
    assert AccountOk(u, a, s.db.ledger);
    forall sid | sid in a.snapshots
      ensures a.snapshots[sid].key in s.bucket && s.bucket[a.snapshots[sid].key] == a.snapshots[sid].payloadHash
    {
      assert RowShape(u, sid, a.snapshots[sid]);
      assert ReferencedFor(s.db.ledger, a.snapshots[sid].key, u);
    }
    forall oid | oid in a.objects
      ensures a.objects[oid] in s.bucket && s.bucket[a.objects[oid]] == a.objects[oid].payloadHash
    {
      assert ReferencedFor(s.db.ledger, a.objects[oid], u);
    }
  }

  /** Under every interleaving, each row's object is in R2 and has the digest the row
      promises. */
  lemma NoLiveObjectIsLost(states: seq<State>, events: seq<Event>, i: nat, u: UserId)
    requires Run(states, events) && i < |states| && u in states[i].db.accounts
    ensures var a, bucket := states[i].db.accounts[u], states[i].bucket;
            && (forall sid :: sid in a.snapshots ==>
                  a.snapshots[sid].key in bucket && bucket[a.snapshots[sid].key] == a.snapshots[sid].payloadHash)
            && (forall oid :: oid in a.objects ==>
                  a.objects[oid] in bucket && bucket[a.objects[oid]] == a.objects[oid].payloadHash)
  {
    Reachable(states, events, i);
    RowsAreStored(states[i], u);
  }

  // ---------------------------------------------------------------- the life of a key

  /** Retirement is final: a key that left the two live states is never used again. */
  lemma RetiredForGood(states: seq<State>, events: seq<Event>, i: nat, j: nat, k: R2Key)
    requires Run(states, events) && i <= j < |states| && IsRetired(states[i].db.ledger, k)
    ensures IsRetired(states[j].db.ledger, k) && !Used(states[j].db, k)
  {
    LedgerEvolves(states, events, i, j);
    Reachable(states, events, j);
    ReferencedIffUsed(states[j].db, k);
  }

  /** The step commits this upload. */
  ghost predicate Commits(s: State, e: Event, up: Upload) {
    && e.UploadCommit? && e.p in s.uploaders && s.uploaders[e.p].up == up
    && CommitApplies(s.db, up, s.uploaders[e.p].token, s.uploaders[e.p].now)
  }

  lemma CommitReferences(s: State, e: Event, up: Upload)
    requires StateOk(s) && Enabled(s, e) && Commits(s, e, up)
    ensures IsReserved(s.db.ledger, up.key) && IsReferenced(Step(s, e).db.ledger, up.key)
  {
    CommitResult(s, e.p);
  }

  lemma RunCommit(states: seq<State>, events: seq<Event>, i: nat, up: Upload)
    requires Run(states, events) && i < |events| && Commits(states[i], events[i], up)
    ensures IsReserved(states[i].db.ledger, up.key) && IsReferenced(states[i + 1].db.ledger, up.key)
  {
    Reachable(states, events, i);
    assert MovesAt(states, events, i);
    CommitReferences(states[i], events[i], up);
  }

  /** No key is committed twice, by the same upload or by two. */
  lemma CommittedOnce(states: seq<State>, events: seq<Event>, i: nat, j: nat, first: Upload, second: Upload)
    requires Run(states, events) && i < j < |events|
    requires Commits(states[i], events[i], first) && Commits(states[j], events[j], second)
    ensures first.key != second.key
  {
    RunCommit(states, events, i, first);
    RunCommit(states, events, j, second);
    LedgerEvolves(states, events, i + 1, j);
  }

  /** The object that an erase removes when it reaches R2. */
  function ErasedKey(s: State, e: Event): Option<R2Key> {
    match e
    case CollectErase(p) =>
      if p in s.collectors && s.collectors[p].next < |s.collectors[p].listed|
      then Some(s.collectors[p].listed[s.collectors[p].next]) else None
    case CollectEraseLands(p, i) =>
      if p in s.collectors && i < |s.collectors[p].listed| then Some(s.collectors[p].listed[i]) else None
    case _ => None
  }

  /** However late an erase lands, no row uses its key then or ever after. */
  lemma ErasesAreHarmless(states: seq<State>, events: seq<Event>, i: nat, j: nat, k: R2Key)
    requires Run(states, events) && i < |events| && i <= j < |states|
    requires ErasedKey(states[i], events[i]) == Some(k)
    ensures !Used(states[j].db, k)
  {
    Reachable(states, events, i);
    assert CollectorOk(states[i].db.ledger, states[i].collectors[events[i].p]);
    RetiredForGood(states, events, i, j, k);
  }
}
