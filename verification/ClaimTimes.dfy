/** Why a commit's time is never in its way: the row that it marks was claimed by the same
    request, and that claim went through only if the row was not younger. */
module ClaimTimes {
  import opened SyncTables
  import opened SnapshotUpload
  import opened StorageRetirement
  import opened RetirementInvariant
  import opened CleanupInvariant
  import opened StorageProtocol
  import opened ProtocolInvariant
  import opened ProtocolRuns
  import opened LedgerTransitions
  import opened ResetFence

  predicate SameClaim(row: LedgerRow, next: LedgerRow) {
    row.state.Reserved? && next.writeToken == row.writeToken && next.createdAt == row.createdAt
  }

  /** No claim was made: what is reserved was so before, by the same token. */
  ghost predicate NoNewClaims(before: Ledger, after: Ledger) {
    forall k | IsReserved(after, k) :: k in before && SameClaim(before[k], after[k])
  }

  // ---------------------------------------------------------------- statements

  lemma SameLedgerClaims(before: Ledger, after: Ledger)
    requires after == before
    ensures NoNewClaims(before, after)
  {
  }

  lemma FencesClaimNothing(ledger: Ledger, u: UserId, staged: set<R2Key>, now: nat)
    ensures NoNewClaims(ledger, FenceUser(ledger, u, now)) && NoNewClaims(ledger, FenceStaged(ledger, staged, now))
    ensures NoNewClaims(ledger, Anonymize(FenceUser(ledger, u, now), u))
  {
  }

  lemma CollectionClaimsNothing(ledger: Ledger, chosen: set<R2Key>, token: Token, now: nat)
    ensures NoNewClaims(ledger, ClaimGarbage(ledger, chosen, token, now))
  {
  }

  lemma MarkClaimsNothing(ledger: Ledger, k: R2Key, token: Token, now: nat)
    ensures NoNewClaims(ledger, MarkDeleted(ledger, k, token, now))
  {
  }

  lemma RearmClaimsNothing(db: Database, found: set<R2Key>, now: nat)
    ensures NoNewClaims(db.ledger, Rearm(db, found, now).ledger)
  {
  }

  lemma CommittedClaimsNothing(a: Account, ledger: Ledger, up: Upload, now: nat)
    requires up.key in ledger
    ensures NoNewClaims(ledger, CommittedLedger(a, ledger, up, now))
  {
  }

  lemma AbandonClaimsNothing(db: Database, up: Upload, token: Token, now: nat)
    ensures NoNewClaims(db.ledger, Abandon(db, up, token, now).ledger)
  {
  }

  // ---------------------------------------------------------------- steps

  lemma CommitClaimsNothing(s: State, p: ProcessId, heard: bool)
    requires StateOk(s) && p in s.uploaders && s.uploaders[p].phase.Stored?
    ensures NoNewClaims(s.db.ledger, CommitStep(s, p, heard).db.ledger)
  {
    var w := s.uploaders[p];
    CommitResult(s, p);
    if CommitApplies(s.db, w.up, w.token, w.now) {
      CommittedClaimsNothing(AccountOf(s.db, w.up.user), s.db.ledger, w.up, w.now);
    } else {
      SameLedgerClaims(s.db.ledger, s.db.ledger);
    }
  }

  lemma UploadClaimsNothing(s: State, e: Event)
    requires StateOk(s) && UploadEvent(e) && UploadEnabled(s, e) && !e.UploadClaim?
    ensures NoNewClaims(s.db.ledger, UploadStep(s, e).db.ledger)
  {
    if e.UploadCommit? {
      CommitClaimsNothing(s, e.p, e.heard);
    } else if e.UploadAbandon? {
      AbandonClaimsNothing(s.db, s.uploaders[e.p].up, s.uploaders[e.p].token, s.uploaders[e.p].now);
    } else {
      SameLedgerClaims(s.db.ledger, UploadStep(s, e).db.ledger);
    }
  }

  lemma CollectClaimsNothing(s: State, e: Event)
    requires CollectEvent(e) && CollectEnabled(s, e)
    ensures NoNewClaims(s.db.ledger, CollectStep(s, e).db.ledger)
  {
    if e.CollectClaim? {
      CollectionClaimsNothing(s.db.ledger, e.chosen, e.token, e.now);
    } else if e.CollectMark? {
      var c := s.collectors[e.p];
      MarkClaimsNothing(s.db.ledger, c.listed[c.next], c.token, c.now);
    } else {
      SameLedgerClaims(s.db.ledger, CollectStep(s, e).db.ledger);
    }
  }

  lemma UnlinkClaimsNothing(s: State, p: ProcessId)
    requires StateOk(s) && p in s.cleaners && s.cleaners[p].next < |s.cleaners[p].jobs|
    ensures NoNewClaims(s.db.ledger, UnlinkStep(s, p).db.ledger)
  {
    var c := s.cleaners[p];
    var job := c.jobs[c.next];
    assert CleanerOk(s.db, c);
    if c.user in s.db.accounts {
      assert JobOk(s.db.accounts[c.user], job);
      MetadataResult(s.db, c.user, job.rotation, c.now);
      FencesClaimNothing(s.db.ledger, c.user, s.db.accounts[c.user].rotations[job.rotation].staged, c.now);
    }
  }

  lemma CleanupClaimsNothing(s: State, e: Event)
    requires StateOk(s) && CleanupEvent(e) && CleanupEnabled(s, e)
    ensures NoNewClaims(s.db.ledger, CleanupStep(s, e).db.ledger)
  {
    if e.CleanupUnlink? { UnlinkClaimsNothing(s, e.p); } else { SameLedgerClaims(s.db.ledger, CleanupStep(s, e).db.ledger); }
  }

  lemma WipeClaimsNothing(s: State, e: Event)
    requires StateOk(s) && WipeEvent(e) && WipeEnabled(s, e)
    ensures NoNewClaims(s.db.ledger, WipeStep(s, e).db.ledger)
  {
    ResetResult(s.db, e.user, e.now);
    EraseResult(s.db, e.user, e.now);
    FencesClaimNothing(s.db.ledger, e.user, {}, e.now);
  }

  /** Only a claim reserves a key or changes the token that holds it. */
  lemma OnlyClaimsClaim(s: State, e: Event)
    requires StateOk(s) && Enabled(s, e) && !e.UploadClaim?
    ensures NoNewClaims(s.db.ledger, Step(s, e).db.ledger)
  {
    if MembershipEvent(e) { MembershipKeepsLedger(s, e); SameLedgerClaims(s.db.ledger, Step(s, e).db.ledger); }
    else if SessionEvent(e) { SessionsKeepLedger(s, e); SameLedgerClaims(s.db.ledger, Step(s, e).db.ledger); }
    else if UploadEvent(e) { UploadClaimsNothing(s, e); }
    else { MaintenanceClaimsNothing(s, e); }
  }

  lemma MaintenanceClaimsNothing(s: State, e: Event)
    requires StateOk(s) && Enabled(s, e) && !MembershipEvent(e) && !SessionEvent(e) && !UploadEvent(e)
    ensures NoNewClaims(s.db.ledger, Step(s, e).db.ledger)
  {
    if CollectEvent(e) { StepIsCollection(s, e); CollectClaimsNothing(s, e); }
    else if CleanupEvent(e) { StepIsCleanup(s, e); CleanupClaimsNothing(s, e); }
    else if WipeEvent(e) { StepIsWipe(s, e); WipeClaimsNothing(s, e); }
    else if DownloadEvent(e) { DownloadsKeepLedger(s, e); SameLedgerClaims(s.db.ledger, Step(s, e).db.ledger); }
    else { RearmClaimsNothing(s.db, e.found, e.now); }
  }

  // ---------------------------------------------------------------- over runs

  /** A claim that is still held was made by a request that began after the row was created. */
  ghost predicate ClaimsInTime(s: State) {
    forall p :: p in s.uploaders && HoldsClaim(s.db, s.uploaders[p]) ==>
      CreatedBy(s.db.ledger, s.uploaders[p].up.key, s.uploaders[p].now)
  }

  predicate Drawn(events: seq<Event>, j: nat, token: Token) {
    exists m :: 0 <= m < j && m < |events| && events[m].UploadClaim? && events[m].token == token
  }

  /** Each claim draws its own 32 random bytes. */
  predicate DistinctTokens(events: seq<Event>) {
    forall m, n :: 0 <= m < n < |events| && events[m].UploadClaim? && events[n].UploadClaim? ==> events[m].token != events[n].token
  }

  ghost predicate TokensDrawn(s: State, events: seq<Event>, j: nat) {
    forall p :: p in s.uploaders ==> Drawn(events, j, s.uploaders[p].token)
  }

  /** A claim by a new token ends every other hold on its key. */
  lemma ClaimTimes(s: State, p: ProcessId, up: Upload, token: Token, now: nat)
    requires ClaimsInTime(s) && ClaimGranted(s.db, up, now) && p !in s.uploaders
    requires forall q :: q in s.uploaders ==> s.uploaders[q].token != token
    ensures ClaimsInTime(ClaimStep(s, p, up, token, now))
  {
    var t := ClaimStep(s, p, up, token, now);
    forall q | q in t.uploaders && HoldsClaim(t.db, t.uploaders[q])
      ensures CreatedBy(t.db.ledger, t.uploaders[q].up.key, t.uploaders[q].now)
    {
      if q != p { assert HoldsClaim(s.db, s.uploaders[q]); }
    }
  }

  lemma OtherTimes(s: State, t: State)
    requires ClaimsInTime(s) && NoNewClaims(s.db.ledger, t.db.ledger)
    requires forall p :: p in t.uploaders ==> p in s.uploaders && SameUpload(s.uploaders[p], t.uploaders[p])
    ensures ClaimsInTime(t)
  {
    forall p | p in t.uploaders && HoldsClaim(t.db, t.uploaders[p])
      ensures CreatedBy(t.db.ledger, t.uploaders[p].up.key, t.uploaders[p].now)
    {
      assert SameUpload(s.uploaders[p], t.uploaders[p]);
      assert HoldsClaim(s.db, s.uploaders[p]);
    }
  }

  lemma DrawnStays(events: seq<Event>, i: nat, j: nat, token: Token)
    requires i <= j && Drawn(events, i, token)
    ensures Drawn(events, j, token)
  {
  }

  lemma NextTokens(s: State, t: State, events: seq<Event>, j: nat)
    requires j < |events| && TokensDrawn(s, events, j) && Enabled(s, events[j]) && t == Step(s, events[j])
    ensures TokensDrawn(t, events, j + 1)
  {
    forall p | p in t.uploaders
      ensures Drawn(events, j + 1, t.uploaders[p].token)
    {
      UploadersOnlyFromClaims(s, events[j], p);
      if p in s.uploaders && SameUpload(s.uploaders[p], t.uploaders[p]) { DrawnStays(events, j, j + 1, t.uploaders[p].token); }
    }
  }

  lemma FreshToken(s: State, events: seq<Event>, j: nat)
    requires j < |events| && events[j].UploadClaim? && DistinctTokens(events) && TokensDrawn(s, events, j)
    ensures forall q :: q in s.uploaders ==> s.uploaders[q].token != events[j].token
  {
  }

  lemma NextTimes(s: State, e: Event)
    requires StateOk(s) && ClaimsInTime(s) && Enabled(s, e)
    requires e.UploadClaim? ==> forall q :: q in s.uploaders ==> s.uploaders[q].token != e.token
    ensures ClaimsInTime(Step(s, e))
  {
    if e.UploadClaim? {
      StepIsUpload(s, e);
      ClaimTimes(s, e.p, e.up, e.token, e.now);
    } else {
      OnlyClaimsClaim(s, e);
      forall p | p in Step(s, e).uploaders
        ensures p in s.uploaders && SameUpload(s.uploaders[p], Step(s, e).uploaders[p])
      {
        UploadersOnlyFromClaims(s, e, p);
      }
      OtherTimes(s, Step(s, e));
    }
  }

  lemma {:induction false} HeldInTime(states: seq<State>, events: seq<Event>, j: nat)
    requires Run(states, events) && j < |states| && DistinctTokens(events)
    ensures ClaimsInTime(states[j]) && TokensDrawn(states[j], events, j)
    decreases j
  {
    if j > 0 {
      HeldInTime(states, events, j - 1);
      RunNextTimes(states, events, j - 1);
    }
  }

  lemma RunNextTimes(states: seq<State>, events: seq<Event>, j: nat)
    requires Run(states, events) && j < |events| && DistinctTokens(events)
    requires ClaimsInTime(states[j]) && TokensDrawn(states[j], events, j)
    ensures ClaimsInTime(states[j + 1]) && TokensDrawn(states[j + 1], events, j + 1)
  {
    Reachable(states, events, j);
    assert MovesAt(states, events, j);
    if events[j].UploadClaim? { FreshToken(states[j], events, j); }
    NextTimes(states[j], events[j]);
    NextTokens(states[j], states[j + 1], events, j);
  }

  /** As long as no token is drawn twice, the time of the row never stops a commit: a commit
      whose guards hold is made. */
  lemma CommitIsNeverLate(states: seq<State>, events: seq<Event>, i: nat)
    requires Run(states, events) && i < |events| && events[i].UploadCommit? && DistinctTokens(events)
    ensures events[i].p in states[i].uploaders
    ensures var w := states[i].uploaders[events[i].p];
            CommitFits(states[i].db, w.up, w.token, w.now) ==> CommitApplies(states[i].db, w.up, w.token, w.now)
  {
    HeldInTime(states, events, i);
    assert MovesAt(states, events, i);
    StepIsUpload(states[i], events[i]);
  }
}
