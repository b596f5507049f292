/** A reset or an account deletion ends every upload that claimed its key before. */
module ResetFence {
  import opened Wrappers
  import opened SyncTables
  import opened SyncInvariant
  import opened SnapshotUpload
  import opened StorageRetirement
  import opened RetirementInvariant
  import opened StorageProtocol
  import opened ProtocolInvariant
  import opened ProtocolRuns
  import opened ProtocolHistory
  import opened HeadChain
  import opened LedgerTransitions

  lemma AllRetired(ledger: Ledger, u: UserId, now: nat)
    requires LedgerOk(ledger)
    ensures forall k: R2Key :: k in ledger && k.owner == u ==> IsRetired(FenceUser(ledger, u, now), k)
    ensures forall k: R2Key :: k in ledger && k.owner == u ==> IsRetired(Anonymize(FenceUser(ledger, u, now), u), k)
  {
  }

  ghost predicate Wiped(s: State, t: State, u: UserId) {
    && AccountOf(t.db, u).snapshots == map[] && AccountOf(t.db, u).objects == map[]
    && HeadIn(t, u) == NoHead && t.uploaders == s.uploaders
    && (forall k: R2Key :: k in s.db.ledger && k.owner == u ==> IsRetired(t.db.ledger, k))
  }

  lemma ResetWipes(s: State, u: UserId, now: nat)
    requires DatabaseOk(s.db) && u in s.db.accounts
    ensures Wiped(s, s.(db := ResetBatch(s.db, u, now)), u)
  {
    AllRetired(s.db.ledger, u, now);
    ResetResult(s.db, u, now);
  }

  lemma ErasureWipes(s: State, u: UserId, now: nat)
    requires DatabaseOk(s.db) && u in s.db.accounts
    ensures Wiped(s, s.(db := EraseBatch(s.db, u, now)), u)
  {
    AllRetired(s.db.ledger, u, now);
    EraseResult(s.db, u, now);
  }

  /** Afterwards the account has no rows and each of its present keys is retired. */
  lemma WipeRetiresAll(s: State, e: Event, u: UserId)
    requires StateOk(s) && WipeEvent(e) && WipeEnabled(s, e) && e.user == u
    ensures Wiped(s, WipeStep(s, e), u)
  {
    WipedAccountExists(s, e);
    if e.ResetSync? { ResetWipes(s, u, e.now); } else { ErasureWipes(s, u, e.now); }
  }

  lemma RunWipeStep(states: seq<State>, events: seq<Event>, i: nat)
    requires Run(states, events) && i < |events| && WipeEvent(events[i])
    ensures StateOk(states[i]) && WipeEnabled(states[i], events[i]) && states[i + 1] == WipeStep(states[i], events[i])
  {
    Reachable(states, events, i);
    assert MovesAt(states, events, i);
    StepIsWipe(states[i], events[i]);
  }

  lemma RunWipe(states: seq<State>, events: seq<Event>, i: nat, u: UserId)
    requires Run(states, events) && i < |events| && Wipes(events[i], u)
    ensures Wiped(states[i], states[i + 1], u)
  {
    RunWipeStep(states, events, i);
    WipeRetiresAll(states[i], events[i], u);
  }

  lemma UploadKeyIsListed(states: seq<State>, events: seq<Event>, i: nat, p: ProcessId)
    requires Run(states, events) && i < |states| && p in states[i].uploaders
    ensures var up := states[i].uploaders[p].up; up.key in states[i].db.ledger && up.key.owner == up.user
  {
    Reachable(states, events, i);
    assert UploaderOk(states[i].db.ledger, states[i].bucket, states[i].uploaders[p]);
  }

  /** An upload in flight at the reset never commits after it, whatever token it holds and
      whoever retries it. */
  lemma EarlierClaimNeverCommits(states: seq<State>, events: seq<Event>, i: nat, j: nat, p: ProcessId, up: Upload)
    requires Run(states, events) && i < j < |events|
    requires p in states[i].uploaders && Wipes(events[i], states[i].uploaders[p].up.user)
    requires Commits(states[j], events[j], up)
    ensures up.key != states[i].uploaders[p].up.key
  {
    var first := states[i].uploaders[p].up;
    UploadKeyIsListed(states, events, i, p);
    RunWipe(states, events, i, first.user);
    LedgerEvolves(states, events, i + 1, j);
    RunCommit(states, events, j, up);
  }

  // ---------------------------------------------------------------- a fresh claim is needed

  /** Uploads keep their request and their token. */
  predicate SameUpload(w: Uploader, v: Uploader) {
    w.up == v.up && w.token == v.token && w.now == v.now
  }

  lemma CollectKeepsUploaders(s: State, e: Event)
    requires CollectEvent(e) && CollectEnabled(s, e)
    ensures CollectStep(s, e).uploaders == s.uploaders
  {
  }

  lemma CleanupKeepsUploaders(s: State, e: Event)
    requires CleanupEvent(e) && CleanupEnabled(s, e)
    ensures CleanupStep(s, e).uploaders == s.uploaders
  {
  }

  lemma MembershipKeepsUploaders(s: State, e: Event)
    requires MembershipEvent(e) && MembershipEnabled(s, e)
    ensures MembershipStep(s, e).uploaders == s.uploaders
  {
  }

  lemma SessionsKeepUploaders(s: State, e: Event)
    requires SessionEvent(e) && SessionEnabled(s, e)
    ensures SessionStep(s, e).uploaders == s.uploaders
  {
  }

  lemma OthersKeepUploaders(s: State, e: Event)
    requires Enabled(s, e) && !UploadEvent(e)
    ensures Step(s, e).uploaders == s.uploaders
  {
    if MembershipEvent(e) {
      StepIsMembership(s, e);
      MembershipKeepsUploaders(s, e);
    } else if SessionEvent(e) {
      StepIsSession(s, e);
      SessionsKeepUploaders(s, e);
    } else if CollectEvent(e) {
      StepIsCollection(s, e);
      CollectKeepsUploaders(s, e);
    } else if CleanupEvent(e) {
      StepIsCleanup(s, e);
      CleanupKeepsUploaders(s, e);
    }
  }

  lemma AnswerKeepsRequests(s: State, q: ProcessId, heard: bool, result: BatchResult, p: ProcessId)
    requires q in s.uploaders && p in AfterBatch(s, q, heard, result).uploaders
    ensures p in s.uploaders && SameUpload(s.uploaders[p], AfterBatch(s, q, heard, result).uploaders[p])
  {
  }

  lemma CommitKeepsRequests(s: State, q: ProcessId, heard: bool, p: ProcessId)
    requires q in s.uploaders && p in CommitStep(s, q, heard).uploaders
    ensures p in s.uploaders && SameUpload(s.uploaders[p], CommitStep(s, q, heard).uploaders[p])
  {
    var w := s.uploaders[q];
    AnswerKeepsRequests(s, q, heard, CommitBatch(s.db, w.up, w.token, w.now), p);
  }

  lemma UploadKeepsRequests(s: State, e: Event, p: ProcessId)
    requires UploadEvent(e) && UploadEnabled(s, e) && p in UploadStep(s, e).uploaders
    ensures (e.UploadClaim? && e.p == p && UploadStep(s, e).uploaders[p] == Uploader(e.up, e.token, e.now, Claimed))
         || (p in s.uploaders && SameUpload(s.uploaders[p], UploadStep(s, e).uploaders[p]))
  {
    if e.UploadCommit? { CommitKeepsRequests(s, e.p, e.heard, p); }
  }

  lemma UploadersOnlyFromClaims(s: State, e: Event, p: ProcessId)
    requires Enabled(s, e) && p in Step(s, e).uploaders
    ensures (e.UploadClaim? && e.p == p && Step(s, e).uploaders[p] == Uploader(e.up, e.token, e.now, Claimed))
         || (p in s.uploaders && SameUpload(s.uploaders[p], Step(s, e).uploaders[p]))
  {
    if UploadEvent(e) {
      StepIsUpload(s, e);
      UploadKeepsRequests(s, e, p);
    } else {
      OthersKeepUploaders(s, e);
    }
  }

  lemma {:induction false} ClaimedSince(states: seq<State>, events: seq<Event>, i: nat, j: nat, p: ProcessId)
    requires Run(states, events) && i <= j < |states| && p in states[j].uploaders
    ensures (p in states[i].uploaders && SameUpload(states[i].uploaders[p], states[j].uploaders[p]))
         || (exists m :: i <= m < j && events[m].UploadClaim? && events[m].p == p && events[m].up == states[j].uploaders[p].up)
    decreases j
  {
    if i < j {
      assert MovesAt(states, events, j - 1);
      UploadersOnlyFromClaims(states[j - 1], events[j - 1], p);
      if !(events[j - 1].UploadClaim? && events[j - 1].p == p) { ClaimedSince(states, events, i, j - 1, p); }
    }
  }

  ghost predicate ClaimedBetween(events: seq<Event>, u: UserId, i: nat, j: nat) {
    exists m :: i <= m < j && m < |events| && events[m].UploadClaim? && events[m].up.user == u
  }

  /** A commit after the reset belongs to an upload that claimed its key after it. */
  lemma CommitNeedsFreshClaim(states: seq<State>, events: seq<Event>, u: UserId, i: nat, j: nat)
    requires Run(states, events) && i < j < |events| && Wipes(events[i], u)
    requires CommitsFor(states[j], events[j], u)
    ensures exists m :: i < m < j && events[m].UploadClaim? && events[m].p == events[j].p
                        && events[m].up == states[j].uploaders[events[j].p].up
  {
    var p := events[j].p;
    ClaimedSince(states, events, i + 1, j, p);
    if p in states[i + 1].uploaders && SameUpload(states[i + 1].uploaders[p], states[j].uploaders[p]) {
      RunWipe(states, events, i, u);
      EarlierClaimNeverCommits(states, events, i, j, p, states[j].uploaders[p].up);
    }
  }

  lemma RunWipeEndsHead(states: seq<State>, events: seq<Event>, u: UserId, m: nat)
    requires Run(states, events) && m < |events| && !CommitsFor(states[m], events[m], u)
    requires HeadIn(states[m], u) == NoHead
    ensures HeadIn(states[m + 1], u) == NoHead
  {
    if Wipes(events[m], u) {
      RunWipe(states, events, m, u);
    } else {
      Reachable(states, events, m);
      assert MovesAt(states, events, m);
      StepDisturbsNothing(states[m], events[m], u);
    }
  }

  /** The head stays empty until a commit whose claim came after the reset. */
  lemma {:induction false} HeadEmptyUntilClaimed(states: seq<State>, events: seq<Event>, u: UserId, i: nat, j: nat)
    requires Run(states, events) && i < j <= |events| && Wipes(events[i], u)
    ensures HeadIn(states[j], u) == NoHead || ClaimedBetween(events, u, i + 1, j)
    decreases j
  {
    if j == i + 1 {
      RunWipe(states, events, i, u);
    } else {
      HeadEmptyUntilClaimed(states, events, u, i, j - 1);
      if ClaimedBetween(events, u, i + 1, j - 1) {
        assert ClaimedBetween(events, u, i + 1, j);
      } else if CommitsFor(states[j - 1], events[j - 1], u) {
        CommitNeedsFreshClaim(states, events, u, i, j - 1);
      } else {
        RunWipeEndsHead(states, events, u, j - 1);
      }
    }
  }

  /** The snapshot and encryption tables stay empty until a fresh claim. */
  lemma RowsEmptyUntilClaimed(states: seq<State>, events: seq<Event>, u: UserId, i: nat, j: nat)
    requires Run(states, events) && i < j <= |events| && Wipes(events[i], u)
    requires !ClaimedBetween(events, u, i + 1, j)
    ensures var a := AccountOf(states[j].db, u);
            a.head.None? && a.snapshots == map[] && a.encryption == map[]
  {
    HeadEmptyUntilClaimed(states, events, u, i, j);
    Reachable(states, events, j);
    AccountOfOk(states[j].db, u);
    HeadIsJoined(u, AccountOf(states[j].db, u), states[j].db.ledger);
  }

  // ---------------------------------------------------------------- the abandon still works

  ghost predicate HoldsClaim(db: Database, w: Uploader) {
    IsReserved(db.ledger, w.up.key) && db.ledger[w.up.key].writeToken == Some(w.token)
  }

  /** The key's row is retired; it still carries the token, and no other account's name. */
  ghost predicate KeepsToken(ledger: Ledger, w: Uploader) {
    && IsRetired(ledger, w.up.key)
    && ledger[w.up.key].writeToken == Some(w.token)
    && (ledger[w.up.key].user == Some(w.up.user) || ledger[w.up.key].user.None?)
  }

  lemma FencedRow(ledger: Ledger, now: nat, w: Uploader)
    requires LedgerOk(ledger) && w.up.key.owner == w.up.user
    requires IsReserved(ledger, w.up.key) && ledger[w.up.key].writeToken == Some(w.token)
    ensures var fenced := FenceUser(ledger, w.up.user, now); KeepsToken(fenced, w) && fenced[w.up.key].state.Ready?
    ensures var fenced := Anonymize(FenceUser(ledger, w.up.user, now), w.up.user);
            KeepsToken(fenced, w) && fenced[w.up.key].state.Ready?
  {
  }

  lemma WipedClaim(s: State, e: Event, w: Uploader)
    requires StateOk(s) && WipeEvent(e) && WipeEnabled(s, e) && e.user == w.up.user
    requires w.up.key.owner == w.up.user && HoldsClaim(s.db, w)
    ensures KeepsToken(WipeStep(s, e).db.ledger, w) && WipeStep(s, e).db.ledger[w.up.key].state.Ready?
  {
    WipedAccountExists(s, e);
    FencedRow(s.db.ledger, e.now, w);
    if e.ResetSync? { ResetResult(s.db, e.user, e.now); } else { EraseResult(s.db, e.user, e.now); }
  }

  lemma RunWipedClaim(states: seq<State>, events: seq<Event>, i: nat, p: ProcessId)
    requires Run(states, events) && i < |events| && p in states[i].uploaders
    requires Wipes(events[i], states[i].uploaders[p].up.user) && HoldsClaim(states[i].db, states[i].uploaders[p])
    ensures var w, ledger := states[i].uploaders[p], states[i + 1].db.ledger;
            KeepsToken(ledger, w) && ledger[w.up.key].state.Ready?
  {
    RunWipeStep(states, events, i);
    UploadKeyIsListed(states, events, i, p);
    WipedClaim(states[i], events[i], states[i].uploaders[p]);
  }

  lemma TokenKept(before: Ledger, after: Ledger, w: Uploader)
    requires KeepsToken(before, w) && TokensStay(before, after) && IsRetired(after, w.up.key)
    ensures KeepsToken(after, w)
  {
  }

  lemma {:induction false} TokenStays(states: seq<State>, events: seq<Event>, i: nat, j: nat, w: Uploader)
    requires Run(states, events) && i <= j < |states| && KeepsToken(states[i].db.ledger, w)
    ensures KeepsToken(states[j].db.ledger, w)
    decreases j
  {
    if i < j {
      TokenStays(states, events, i, j - 1, w);
      RunTransits(states, events, j - 1);
      RetiredForGood(states, events, j - 1, j, w.up.key);
      TokenKept(states[j - 1].db.ledger, states[j].db.ledger, w);
    }
  }

  /** However the run goes on after the reset or the deletion, the worker that held the claim
      can abandon it exactly while the row waits for collection, also on the anonymous row
      that a deletion leaves behind. */
  lemma OwnAbandonStillWorks(states: seq<State>, events: seq<Event>, i: nat, j: nat, p: ProcessId)
    requires Run(states, events) && i < j < |states| && p in states[i].uploaders
    requires Wipes(events[i], states[i].uploaders[p].up.user) && HoldsClaim(states[i].db, states[i].uploaders[p])
    ensures var w, db := states[i].uploaders[p], states[j].db;
            && w.up.key in db.ledger
            && (MayAbandon(db, w.up, w.token) <==> db.ledger[w.up.key].state.Ready?)
    ensures j == i + 1 ==> MayAbandon(states[j].db, states[i].uploaders[p].up, states[i].uploaders[p].token)
  {
    var w := states[i].uploaders[p];
    RunWipedClaim(states, events, i, p);
    TokenStays(states, events, i + 1, j, w);
    RetiredForGood(states, events, i + 1, j, w.up.key);
  }
}
