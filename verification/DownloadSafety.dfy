/** What a download can run into when the object behind its token has gone. */
module DownloadSafety {
  import opened SyncTables
  import opened SyncInvariant
  import opened StorageProtocol
  import opened ProtocolInvariant
  import opened ProtocolRuns
  import opened ProtocolHistory
  import opened HeadChain
  import opened ResetFence

  lemma ServedKeyIsReferenced(s: State, u: UserId, token: HeadRef)
    requires StateOk(s) && HeadServes(AccountOf(s.db, u), token)
    ensures IsReferenced(s.db.ledger, AccountOf(s.db, u).snapshots[token.snapshotId].key)
    ensures AccountOf(s.db, u).snapshots[token.snapshotId].key.SnapshotKey?
    ensures HeadIn(s, u).Head? && HeadIn(s, u).row == AccountOf(s.db, u).snapshots[token.snapshotId]
  {
    AccountOfOk(s.db, u);
    assert ReferencedFor(s.db.ledger, AccountOf(s.db, u).snapshots[token.snapshotId].key, u);
    assert RowShape(u, token.snapshotId, AccountOf(s.db, u).snapshots[token.snapshotId]);
  }

  lemma RereadMeansAnotherRegion(s: State, p: ProcessId)
    requires StateOk(s) && p in s.readers && s.readers[p].phase.Missing?
    requires RereadStep(s, p).readers[p].phase.PayloadMissing?
    ensures var r := s.readers[p];
            && HeadServes(AccountOf(s.db, r.user), r.token)
            && AccountOf(s.db, r.user).snapshots[r.token.snapshotId].key.region != r.key.region
  {
    var r := s.readers[p];
    assert ReaderOk(s.db.ledger, r);
    ServedKeyIsReferenced(s, r.user, r.token);
    AccountOfOk(s.db, r.user);
    assert RowShape(r.user, r.token.snapshotId, AccountOf(s.db, r.user).snapshots[r.token.snapshotId]);
  }

  // ---------------------------------------------------------------- one region per account

  ghost predicate ClaimsInRegion(events: seq<Event>, u: UserId, region: Region) {
    forall m :: 0 <= m < |events| && events[m].UploadClaim? && events[m].up.user == u ==> events[m].up.key.region == region
  }

  predicate UploadInRegion(w: Uploader, u: UserId, region: Region) {
    w.up.user == u ==> w.up.key.region == region
  }

  predicate ReadInRegion(r: Reader, u: UserId, region: Region) {
    r.user == u ==> r.key.region == region && !r.phase.PayloadMissing?
  }

  predicate HeadInRegion(h: Head, region: Region) {
    h.Head? ==> h.row.key.region == region
  }

  ghost predicate Regional(s: State, u: UserId, region: Region) {
    && (forall p :: p in s.uploaders ==> UploadInRegion(s.uploaders[p], u, region))
    && (forall p :: p in s.readers ==> ReadInRegion(s.readers[p], u, region))
    && HeadInRegion(HeadIn(s, u), region)
  }

  lemma MembershipKeepsReaders(s: State, e: Event)
    requires MembershipEvent(e) && MembershipEnabled(s, e)
    ensures MembershipStep(s, e).readers == s.readers
  {
  }

  lemma SessionsKeepReaders(s: State, e: Event)
    requires SessionEvent(e) && SessionEnabled(s, e)
    ensures SessionStep(s, e).readers == s.readers
  {
  }

  lemma UploadKeepsReaders(s: State, e: Event)
    requires UploadEvent(e) && UploadEnabled(s, e)
    ensures UploadStep(s, e).readers == s.readers
  {
  }

  lemma CollectKeepsReaders(s: State, e: Event)
    requires CollectEvent(e) && CollectEnabled(s, e)
    ensures CollectStep(s, e).readers == s.readers
  {
  }

  lemma CleanupKeepsReaders(s: State, e: Event)
    requires CleanupEvent(e) && CleanupEnabled(s, e)
    ensures CleanupStep(s, e).readers == s.readers
  {
  }

  lemma OthersKeepReaders(s: State, e: Event)
    requires Enabled(s, e) && !DownloadEvent(e)
    ensures Step(s, e).readers == s.readers
  {
    if MembershipEvent(e) {
      StepIsMembership(s, e);
      MembershipKeepsReaders(s, e);
    } else if SessionEvent(e) {
      StepIsSession(s, e);
      SessionsKeepReaders(s, e);
    } else if UploadEvent(e) {
      StepIsUpload(s, e);
      UploadKeepsReaders(s, e);
    } else if CollectEvent(e) {
      StepIsCollection(s, e);
      CollectKeepsReaders(s, e);
    } else if CleanupEvent(e) {
      StepIsCleanup(s, e);
      CleanupKeepsReaders(s, e);
    }
  }

  lemma ResolveInRegion(s: State, p: ProcessId, v: UserId, token: HeadRef, u: UserId, region: Region)
    requires StateOk(s) && HeadServes(AccountOf(s.db, v), token) && HeadInRegion(HeadIn(s, u), region)
    ensures ReadInRegion(ResolveStep(s, p, v, token).readers[p], u, region)
  {
    ServedKeyIsReferenced(s, v, token);
  }

  lemma RereadInRegion(s: State, p: ProcessId, u: UserId, region: Region)
    requires StateOk(s) && p in s.readers && s.readers[p].phase.Missing?
    requires ReadInRegion(s.readers[p], u, region) && HeadInRegion(HeadIn(s, u), region)
    ensures ReadInRegion(RereadStep(s, p).readers[p], u, region)
  {
  }

  lemma GetInRegion(s: State, p: ProcessId, u: UserId, region: Region)
    requires p in s.readers && ReadInRegion(s.readers[p], u, region)
    ensures ReadInRegion(GetStep(s, p).readers[p], u, region)
  {
  }

  lemma DownloadInRegion(s: State, e: Event, u: UserId, region: Region)
    requires StateOk(s) && DownloadEvent(e) && DownloadEnabled(s, e) && HeadInRegion(HeadIn(s, u), region)
    requires e.p in s.readers ==> ReadInRegion(s.readers[e.p], u, region)
    ensures e.p in DownloadStep(s, e).readers && ReadInRegion(DownloadStep(s, e).readers[e.p], u, region)
    ensures DownloadStep(s, e).readers == s.readers[e.p := DownloadStep(s, e).readers[e.p]]
  {
    match e
    case DownloadResolve(p, v, token) => ResolveInRegion(s, p, v, token, u, region);
    case DownloadGet(p) => GetInRegion(s, p, u, region);
    case DownloadReread(p) => RereadInRegion(s, p, u, region);
  }

  lemma ReadersStayInRegion(s: State, e: Event, u: UserId, region: Region)
    requires StateOk(s) && Enabled(s, e) && Regional(s, u, region)
    ensures forall p :: p in Step(s, e).readers ==> ReadInRegion(Step(s, e).readers[p], u, region)
  {
    if DownloadEvent(e) {
      StepIsDownload(s, e);
      DownloadInRegion(s, e, u, region);
    } else {
      OthersKeepReaders(s, e);
    }
  }

  lemma UploadersStayInRegion(s: State, e: Event, u: UserId, region: Region)
    requires Enabled(s, e) && Regional(s, u, region)
    requires e.UploadClaim? && e.up.user == u ==> e.up.key.region == region
    ensures forall p :: p in Step(s, e).uploaders ==> UploadInRegion(Step(s, e).uploaders[p], u, region)
  {
    forall p | p in Step(s, e).uploaders
      ensures UploadInRegion(Step(s, e).uploaders[p], u, region)
    {
      UploadersOnlyFromClaims(s, e, p);
    }
  }

  lemma HeadStaysInRegion(s: State, e: Event, u: UserId, region: Region)
    requires StateOk(s) && Enabled(s, e) && Regional(s, u, region)
    ensures HeadInRegion(HeadIn(Step(s, e), u), region)
  {
    if CommitsFor(s, e, u) {
      assert UploadInRegion(s.uploaders[e.p], u, region);
      CommitContinuesHead(s, e, u);
    } else if Wipes(e, u) {
      StepIsWipe(s, e);
      WipeRetiresAll(s, e, u);
    } else {
      StepDisturbsNothing(s, e, u);
    }
  }

  lemma RunStepRegional(states: seq<State>, events: seq<Event>, u: UserId, region: Region, m: nat)
    requires Run(states, events) && ClaimsInRegion(events, u, region) && m < |events| && Regional(states[m], u, region)
    ensures Regional(states[m + 1], u, region)
  {
    Reachable(states, events, m);
    assert MovesAt(states, events, m);
    ReadersStayInRegion(states[m], events[m], u, region);
    UploadersStayInRegion(states[m], events[m], u, region);
    HeadStaysInRegion(states[m], events[m], u, region);
  }

  lemma InitRegional(s: State, u: UserId, region: Region)
    requires Init(s)
    ensures Regional(s, u, region)
  {
  }

  lemma {:induction false} StaysRegional(states: seq<State>, events: seq<Event>, u: UserId, region: Region, i: nat)
    requires Run(states, events) && ClaimsInRegion(events, u, region) && i < |states|
    ensures Regional(states[i], u, region)
  {
    if i == 0 {
      InitRegional(states[0], u, region);
    } else {
      StaysRegional(states, events, u, region, i - 1);
      RunStepRegional(states, events, u, region, i - 1);
    }
  }

  /** An account whose uploads all name one region never sees `sync_snapshot_payload_missing`:
      a missing payload always turns out to be a stale token, even if the head moved away
      and came back. */
  lemma OneRegionNeverLosesAPayload(states: seq<State>, events: seq<Event>, u: UserId, region: Region, i: nat, p: ProcessId)
    requires Run(states, events) && ClaimsInRegion(events, u, region) && i < |states|
    requires p in states[i].readers && states[i].readers[p].user == u
    ensures !states[i].readers[p].phase.PayloadMissing?
  {
    StaysRegional(states, events, u, region, i);
    assert ReadInRegion(states[i].readers[p], u, region);
  }

  // ---------------------------------------------------------------- what the error takes

  predicate SameDownload(r: Reader, q: Reader) {
    r.user == q.user && r.token == q.token && r.key == q.key
  }

  /** The head that this download resolved its token from. */
  ghost predicate ResolvedFrom(s: State, r: Reader) {
    && HeadServes(AccountOf(s.db, r.user), r.token)
    && AccountOf(s.db, r.user).snapshots[r.token.snapshotId].key == r.key
  }

  lemma DownloadReader(s: State, e: Event, p: ProcessId)
    requires DownloadEvent(e) && DownloadEnabled(s, e) && p in DownloadStep(s, e).readers
    ensures var r := DownloadStep(s, e).readers[p];
            || (p in s.readers && SameDownload(s.readers[p], r))
            || (e == DownloadResolve(p, r.user, r.token) && ResolvedFrom(s, r))
  {
  }

  lemma StepReader(s: State, e: Event, p: ProcessId)
    requires Enabled(s, e) && p in Step(s, e).readers
    ensures var r := Step(s, e).readers[p];
            || (p in s.readers && SameDownload(s.readers[p], r))
            || (e == DownloadResolve(p, r.user, r.token) && ResolvedFrom(s, r))
  {
    if DownloadEvent(e) {
      StepIsDownload(s, e);
      DownloadReader(s, e, p);
    } else {
      OthersKeepReaders(s, e);
    }
  }

  lemma {:induction false} ResolvedBefore(states: seq<State>, events: seq<Event>, i: nat, p: ProcessId) returns (m: nat)
    requires Run(states, events) && i < |states| && p in states[i].readers
    ensures var r := states[i].readers[p];
            m < i && events[m] == DownloadResolve(p, r.user, r.token) && ResolvedFrom(states[m], r)
  {
    if i == 0 {
      assert false;
    } else {
      assert MovesAt(states, events, i - 1);
      StepReader(states[i - 1], events[i - 1], p);
      if p in states[i - 1].readers && SameDownload(states[i - 1].readers[p], states[i].readers[p]) {
        m := ResolvedBefore(states, events, i - 1, p);
      } else {
        m := i - 1;
      }
    }
  }

  lemma ServedHead(s: State, r: Reader)
    requires ResolvedFrom(s, r)
    ensures HeadIn(s, r.user).Head? && HeadIn(s, r.user).ref == r.token && HeadIn(s, r.user).row.key == r.key
  {
  }

  /** Without a reset or a deletion in between, a head with the same reference is the same row. */
  lemma SameRefSameKey(states: seq<State>, events: seq<Event>, m: nat, i: nat, r: Reader)
    requires Run(states, events) && m <= i <= |events| && NoWipe(events, r.user, m, i)
    requires ResolvedFrom(states[m], r) && HeadServes(AccountOf(states[i].db, r.user), r.token)
    ensures AccountOf(states[i].db, r.user).snapshots[r.token.snapshotId].key == r.key
  {
    var now := r.(key := AccountOf(states[i].db, r.user).snapshots[r.token.snapshotId].key);
    ServedHead(states[m], r);
    ServedHead(states[i], now);
    HeadsFormAChain(states, events, r.user, m, i);
  }

  lemma RunReread(states: seq<State>, events: seq<Event>, i: nat, p: ProcessId)
    requires Run(states, events) && i < |events| && events[i] == DownloadReread(p)
    ensures StateOk(states[i]) && p in states[i].readers && states[i].readers[p].phase.Missing?
    ensures states[i + 1] == RereadStep(states[i], p)
  {
    Reachable(states, events, i);
    assert MovesAt(states, events, i);
    StepIsDownload(states[i], events[i]);
  }

  lemma StepKeepsReader(s: State, e: Event, p: ProcessId)
    requires Enabled(s, e) && p in s.readers
    ensures p in Step(s, e).readers
  {
    if DownloadEvent(e) { StepIsDownload(s, e); } else { OthersKeepReaders(s, e); }
  }

  lemma {:induction false} ReaderStays(states: seq<State>, events: seq<Event>, m: nat, i: nat, p: ProcessId)
    requires Run(states, events) && m <= i < |states| && p in states[m].readers
    ensures p in states[i].readers
    decreases i
  {
    if m < i {
      ReaderStays(states, events, m, i - 1, p);
      assert MovesAt(states, events, i - 1);
      StepKeepsReader(states[i - 1], events[i - 1], p);
    }
  }

  lemma RunResolve(states: seq<State>, events: seq<Event>, m: nat, p: ProcessId)
    requires Run(states, events) && m < |events| && events[m].DownloadResolve? && events[m].p == p
    ensures p !in states[m].readers && p in states[m + 1].readers
  {
    assert MovesAt(states, events, m);
    StepIsDownload(states[m], events[m]);
  }

  /** A process resolves one token. */
  lemma OneResolve(states: seq<State>, events: seq<Event>, m: nat, n: nat, i: nat, p: ProcessId)
    requires Run(states, events) && m < i < |states| && n < i
    requires events[m].DownloadResolve? && events[m].p == p && events[n].DownloadResolve? && events[n].p == p
    ensures m == n
  {
    RunResolve(states, events, m, p);
    RunResolve(states, events, n, p);
    if m < n { ReaderStays(states, events, m + 1, n, p); }
    if n < m { ReaderStays(states, events, n + 1, m, p); }
  }

  /** Whatever the regions, a download between whose two looks the account was neither reset
      nor deleted never gets the error. */
  lemma MissingNeedsReset(states: seq<State>, events: seq<Event>, m: nat, i: nat, p: ProcessId, u: UserId, token: HeadRef)
    requires Run(states, events) && m < i < |events|
    requires events[m] == DownloadResolve(p, u, token) && events[i] == DownloadReread(p) && NoWipe(events, u, m, i)
    ensures p in states[i + 1].readers && !states[i + 1].readers[p].phase.PayloadMissing?
  {
    RunReread(states, events, i, p);
    var r := states[i].readers[p];
    var n := ResolvedBefore(states, events, i, p);
    OneResolve(states, events, m, n, i, p);
    if RereadStep(states[i], p).readers[p].phase.PayloadMissing? {
      RereadMeansAnotherRegion(states[i], p);
      SameRefSameKey(states, events, m, i, r);
    }
  }

  /** The download resolved its token, and later the account was reset or deleted. */
  ghost predicate WipedSinceResolve(events: seq<Event>, p: ProcessId, r: Reader, i: nat) {
    exists m: nat, n: nat :: m < n < i && i <= |events|
      && events[m] == DownloadResolve(p, r.user, r.token) && Wipes(events[n], r.user)
  }

  lemma WipeAfterResolve(events: seq<Event>, p: ProcessId, r: Reader, m: nat, i: nat)
    requires m < i <= |events| && events[m] == DownloadResolve(p, r.user, r.token) && !NoWipe(events, r.user, m, i)
    ensures WipedSinceResolve(events, p, r, i)
  {
    var n :| m <= n < i && n < |events| && Wipes(events[n], r.user);
    assert n != m;
  }

  lemma ErrorFollowsWipe(states: seq<State>, events: seq<Event>, i: nat, p: ProcessId)
    requires Run(states, events) && i < |events| && events[i] == DownloadReread(p)
    ensures p in states[i].readers && p in states[i + 1].readers
    ensures states[i + 1].readers[p].phase.PayloadMissing? ==> WipedSinceResolve(events, p, states[i].readers[p], i)
  {
    RunReread(states, events, i, p);
    var r := states[i].readers[p];
    var m := ResolvedBefore(states, events, i, p);
    if NoWipe(events, r.user, m, i) {
      MissingNeedsReset(states, events, m, i, p, r.user, r.token);
    } else {
      WipeAfterResolve(events, p, r, m, i);
    }
  }

  lemma RereadFails(s: State, p: ProcessId)
    requires StateOk(s) && p in s.readers && s.readers[p].phase.Missing?
    ensures p in RereadStep(s, p).readers
    ensures var r, a := s.readers[p], AccountOf(s.db, s.readers[p].user);
            && (RereadStep(s, p).readers[p].phase.PayloadMissing? <==> HeadServes(a, r.token))
            && (HeadServes(a, r.token) ==>
                  && a.snapshots[r.token.snapshotId].key.SnapshotKey?
                  && a.snapshots[r.token.snapshotId].key.region != r.key.region
                  && IsRetired(s.db.ledger, r.key))
  {
    var r := s.readers[p];
    assert ReaderOk(s.db.ledger, r);
    if HeadServes(AccountOf(s.db, r.user), r.token) {
      RereadMeansAnotherRegion(s, p);
      ServedKeyIsReferenced(s, r.user, r.token);
    }
  }

  /** When the error is given, the head that was read again equals the token but was committed
      anew, under another region's key, after a reset or deletion that followed the first
      look. */
  lemma MissingMeansAnotherRegion(states: seq<State>, events: seq<Event>, i: nat, p: ProcessId)
    requires Run(states, events) && i < |events| && events[i] == DownloadReread(p)
    ensures p in states[i].readers && p in states[i + 1].readers
    ensures var r, a := states[i].readers[p], AccountOf(states[i].db, states[i].readers[p].user);
            && (states[i + 1].readers[p].phase.PayloadMissing? <==> HeadServes(a, r.token))
            && (states[i + 1].readers[p].phase.PayloadMissing? ==>
                  && a.snapshots[r.token.snapshotId].key.SnapshotKey?
                  && a.snapshots[r.token.snapshotId].key.region != r.key.region
                  && IsRetired(states[i].db.ledger, r.key)
                  && WipedSinceResolve(events, p, r, i))
  {
    RunReread(states, events, i, p);
    RereadFails(states[i], p);
    ErrorFollowsWipe(states, events, i, p);
  }
}
