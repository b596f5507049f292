/** Between resets the heads of an account form one chain. */
module HeadChain {
  import opened Wrappers
  import opened SyncTables
  import opened SyncInvariant
  import opened SnapshotUpload
  import opened StorageProtocol
  import opened ProtocolInvariant
  import opened ProtocolRuns
  import opened ProtocolHistory

  function RevisionOf(h: Head): nat {
    if h.NoHead? then 0 else h.ref.revision
  }

  /** A head of the account that was not there before continues the old one. */
  ghost predicate Continues(h: Head, next: Head) {
    && next.Head?
    && RevisionOf(next) == RevisionOf(h) + 1
    && next.row.base == (if h.NoHead? then None else Some(h.ref))
    && (h.Head? ==>
          && next.row.clock > h.row.clock
          && next.encryption.key.generation >= h.encryption.key.generation)
  }

  lemma HeadIsJoined(u: UserId, a: Account, ledger: Ledger)
    requires AccountOk(u, a, ledger)
    ensures HeadOf(a).NoHead? <==> a.head.None?
    ensures a.head.Some? ==> HeadOf(a).ref == a.head.value
  {
  }

  lemma CommittedHead(u: UserId, a: Account, ledger: Ledger, up: Upload, now: nat)
    requires AccountOk(u, a, ledger) && Parsed(up) && BaseFits(a, up) && MayWrite(a, up)
    ensures var next := HeadOf(CommittedAccount(a, up, now));
            && Continues(HeadOf(a), next)
            && next == Head(Ref(up), Row(up, now), EncryptionRow(up.vaultKey, up.contentHash))
            && up.base == (if HeadOf(a).NoHead? then None else Some(HeadOf(a).ref))
  {
  }

  lemma CommitContinuesHead(s: State, e: Event, u: UserId)
    requires StateOk(s) && Enabled(s, e) && CommitsFor(s, e, u)
    ensures var up := s.uploaders[e.p].up;
            && Continues(HeadIn(s, u), HeadIn(Step(s, e), u))
            && HeadIn(Step(s, e), u).ref == Ref(up)
            && HeadIn(Step(s, e), u).row.clock == up.clock
            && HeadIn(Step(s, e), u).row.key == up.key
            && HeadIn(Step(s, e), u).encryption.key == up.vaultKey
            && up.base == (if HeadIn(s, u).NoHead? then None else Some(HeadIn(s, u).ref))
  {
    var w := s.uploaders[e.p];
    CommittedHeadIn(s, e.p, u);
    StepIsUpload(s, e);
    CommitChangesOne(s, e.p, e.heard, u);
  }

  lemma CommittedHeadIn(s: State, p: ProcessId, u: UserId)
    requires StateOk(s) && p in s.uploaders && s.uploaders[p].up.user == u
    requires CommitApplies(s.db, s.uploaders[p].up, s.uploaders[p].token, s.uploaders[p].now)
    ensures var w := s.uploaders[p];
            var next := HeadOf(CommittedAccount(AccountOf(s.db, u), w.up, w.now));
            && Continues(HeadIn(s, u), next)
            && next == Head(Ref(w.up), Row(w.up, w.now), EncryptionRow(w.up.vaultKey, w.up.contentHash))
            && w.up.base == (if HeadIn(s, u).NoHead? then None else Some(HeadIn(s, u).ref))
  {
    var w := s.uploaders[p];
    AccountOfOk(s.db, u);
    assert UploaderOk(s.db.ledger, s.bucket, w);
    CommittedHead(u, AccountOf(s.db, u), s.db.ledger, w.up, w.now);
  }

  ghost predicate NoWipe(events: seq<Event>, u: UserId, i: nat, j: nat) {
    forall m :: i <= m < j && m < |events| ==> !Wipes(events[m], u)
  }

  ghost function CommitCount(states: seq<State>, events: seq<Event>, u: UserId, i: nat, j: nat): nat
    requires |states| == |events| + 1 && i <= j <= |events|
    decreases j
  {
    if i == j then 0
    else CommitCount(states, events, u, i, j - 1) + if CommitsFor(states[j - 1], events[j - 1], u) then 1 else 0
  }

  /** What commits and everything else in between leave of a head. */
  ghost predicate Grew(h: Head, later: Head, commits: nat) {
    && RevisionOf(later) == RevisionOf(h) + commits
    && (commits == 0 ==> later == h)
    && (h.Head? ==>
          && later.Head?
          && later.row.clock >= h.row.clock + commits
          && later.encryption.key.generation >= h.encryption.key.generation)
  }

  lemma GrewByNothing(h: Head)
    ensures Grew(h, h, 0)
  {
  }

  lemma GrewTwice(h: Head, mid: Head, later: Head, m: nat, n: nat)
    requires Grew(h, mid, m) && Grew(mid, later, n)
    ensures Grew(h, later, m + n)
  {
  }

  lemma StepGrows(s: State, e: Event, u: UserId)
    requires StateOk(s) && Enabled(s, e) && !Wipes(e, u)
    ensures Grew(HeadIn(s, u), HeadIn(Step(s, e), u), if CommitsFor(s, e, u) then 1 else 0)
  {
    if CommitsFor(s, e, u) { CommitContinuesHead(s, e, u); } else { StepDisturbsNothing(s, e, u); }
  }

  lemma RunStepGrows(states: seq<State>, events: seq<Event>, u: UserId, m: nat)
    requires Run(states, events) && m < |events| && !Wipes(events[m], u)
    ensures Grew(HeadIn(states[m], u), HeadIn(states[m + 1], u), if CommitsFor(states[m], events[m], u) then 1 else 0)
  {
    Reachable(states, events, m);
    assert MovesAt(states, events, m);
    StepGrows(states[m], events[m], u);
  }

  lemma ChainGrows(states: seq<State>, events: seq<Event>, u: UserId, i: nat, m: nat, commits: nat)
    requires Run(states, events) && i <= m < |events| && !Wipes(events[m], u)
    requires Grew(HeadIn(states[i], u), HeadIn(states[m], u), commits)
    ensures Grew(HeadIn(states[i], u), HeadIn(states[m + 1], u),
                 commits + if CommitsFor(states[m], events[m], u) then 1 else 0)
  {
    RunStepGrows(states, events, u, m);
    GrewTwice(HeadIn(states[i], u), HeadIn(states[m], u), HeadIn(states[m + 1], u), commits,
              if CommitsFor(states[m], events[m], u) then 1 else 0);
  }

  /** Until the account is reset or deleted, the head's revision counts the commits, its
      clock rises with each of them, and its vault generation never falls. */
  lemma {:induction false} HeadsFormAChain(states: seq<State>, events: seq<Event>, u: UserId, i: nat, j: nat)
    requires Run(states, events) && i <= j <= |events| && NoWipe(events, u, i, j)
    ensures Grew(HeadIn(states[i], u), HeadIn(states[j], u), CommitCount(states, events, u, i, j))
    decreases j
  {
    if i == j {
      GrewByNothing(HeadIn(states[i], u));
    } else {
      HeadsFormAChain(states, events, u, i, j - 1);
      ChainGrows(states, events, u, i, j - 1, CommitCount(states, events, u, i, j - 1));
    }
  }

  ghost function CommittedUpload(s: State, e: Event): Upload
    requires e.UploadCommit? && e.p in s.uploaders
  {
    s.uploaders[e.p].up
  }

  lemma RunCommitContinues(states: seq<State>, events: seq<Event>, u: UserId, m: nat)
    requires Run(states, events) && m < |events| && CommitsFor(states[m], events[m], u)
    ensures var up := CommittedUpload(states[m], events[m]);
            && Continues(HeadIn(states[m], u), HeadIn(states[m + 1], u))
            && HeadIn(states[m + 1], u).ref == Ref(up)
            && HeadIn(states[m + 1], u).row.clock == up.clock
            && HeadIn(states[m + 1], u).encryption.key == up.vaultKey
            && up.base == (if HeadIn(states[m], u).NoHead? then None else Some(HeadIn(states[m], u).ref))
  {
    Reachable(states, events, m);
    assert MovesAt(states, events, m);
    CommitContinuesHead(states[m], events[m], u);
  }

  /** Of two commits without a reset between them, the later one builds on the earlier: its
      base is the head the earlier one made, or a head made after that. */
  lemma LaterCommitBuildsOnEarlier(states: seq<State>, events: seq<Event>, u: UserId, i: nat, j: nat)
    requires Run(states, events) && i < j < |events| && NoWipe(events, u, i, j)
    requires CommitsFor(states[i], events[i], u) && CommitsFor(states[j], events[j], u)
    ensures var first, second := CommittedUpload(states[i], events[i]), CommittedUpload(states[j], events[j]);
            && second.base.Some? && second.base != first.base
            && second.clock > first.clock
            && second.vaultKey.generation >= first.vaultKey.generation
            && second.revision == first.revision + 1 + CommitCount(states, events, u, i + 1, j)
            && (CommitCount(states, events, u, i + 1, j) == 0 ==> second.base == Some(Ref(first)))
  {
    RunCommitContinues(states, events, u, i);
    HeadsFormAChain(states, events, u, i + 1, j);
    RunCommitContinues(states, events, u, j);
  }

  // ---------------------------------------------------------------- the status report

  /** Snapshots that the status query counts: those with an encryption row. */
  function CountedSnapshots(a: Account): nat {
    |set sid | sid in a.snapshots && sid in a.encryption|
  }

  lemma CountIsZero(a: Account)
    requires a.encryption.Keys == a.snapshots.Keys
    ensures CountedSnapshots(a) == 0 <==> a.snapshots == map[]
  {
    var counted := set sid | sid in a.snapshots && sid in a.encryption;
    assert counted == a.snapshots.Keys;
    if a.snapshots != map[] {
      var sid :| sid in a.snapshots;
      assert sid in counted;
    }
  }

  /** The report's cross-check always passes: there is a joined head exactly when the count
      is not zero, and the head joins its own snapshot and encryption rows. */
  lemma StatusNeverFails(states: seq<State>, events: seq<Event>, i: nat, u: UserId)
    requires Run(states, events) && i < |states|
    ensures var a := AccountOf(states[i].db, u);
            && (CountedSnapshots(a) == 0 <==> HeadOf(a).NoHead?)
            && (a.head.Some? ==> HeadOf(a).Head? && HeadOf(a).ref == a.head.value)
            && (forall sid :: sid in a.snapshots ==> a.snapshots[sid].revision <= RevisionOf(HeadOf(a)))
  {
    Reachable(states, events, i);
    AccountOfOk(states[i].db, u);
    HeadIsJoined(u, AccountOf(states[i].db, u), states[i].db.ledger);
    CountIsZero(AccountOf(states[i].db, u));
  }
}
