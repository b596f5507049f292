/** What whole runs of the permission store guarantee: a grant is used once, nothing is lost
    from the log, and profiles do not see each other. */
module PermissionRuns {
  import opened Wrappers
  import opened PermissionStore

  function RunState(s: State, events: seq<Event>): State {
    if events == [] then s else Apply(RunState(s, events[..|events| - 1]), events[|events| - 1])
  }

  function StateAt(s: State, events: seq<Event>, i: nat): State
    requires i <= |events|
  {
    RunState(s, events[..i])
  }

  lemma StateAfter(s: State, events: seq<Event>, i: nat)
    requires i < |events|
    ensures StateAt(s, events, i + 1) == Apply(StateAt(s, events, i), events[i])
  {
    assert events[..i + 1][..i] == events[..i];
  }

  // ---------------------------------------------------------------- what a snapshot says of a key

  function LastEntry(profile: ProfileId, snapshot: seq<Entry>, k: Key): Option<Entry> {
    if snapshot == [] then None
    else if KeyOf(profile, snapshot[|snapshot| - 1]) == k then Some(snapshot[|snapshot| - 1])
    else LastEntry(profile, snapshot[..|snapshot| - 1], k)
  }

  lemma {:induction false} ReplacementAt(s: State, profile: ProfileId, snapshot: seq<Entry>, k: Key)
    ensures var r := Replacements(s, profile, snapshot);
            && (k in r <==> LastEntry(profile, snapshot, k).Some?)
            && (k in r ==> k.profile == profile && r[k] == StoredFor(s, profile, LastEntry(profile, snapshot, k).value))
    ensures LastEntry(profile, snapshot, k).Some? ==> KeyOf(profile, LastEntry(profile, snapshot, k).value) == k
  {
    if snapshot != [] { ReplacementAt(s, profile, snapshot[..|snapshot| - 1], k); }
  }

  /** The snapshot is not older than the last one accepted for its profile. */
  predicate Accepted(s: State, e: Event, p: ProfileId) {
    e.Replace? && e.profile == p && (p in s.generations ==> e.generation >= s.generations[p])
  }

  /** What a request is answered right after an accepted snapshot, by the last entry for its key:
      the decision sent; for an allow-once grant only if the store does not know it as used; for
      a transferred grant only if the store knows it as unused. */
  lemma SnapshotDecides(s: State, e: Event, k: Key)
    requires Accepted(s, e, k.profile)
    ensures var entry := LastEntry(e.profile, e.snapshot, k);
            Answer(Apply(s, e), k) ==
              if entry.None? then None
              else if entry.value.state == Decided(AllowAlways) then Some(AllowAlways)
              else if entry.value.state == Decided(DenyAlways) then Some(DenyAlways)
              else if entry.value.state == Decided(AllowOnce) then
                if k in s.entries && s.entries[k] == Stored(AllowOnce, entry.value.revision, true) then None else Some(AllowOnce)
              else
                if k in s.entries && s.entries[k] == Stored(AllowOnce, entry.value.revision, false) then Some(AllowOnce) else None
    ensures Apply(s, e).generations == s.generations[k.profile := e.generation]
  {
    ReplacementAt(s, e.profile, e.snapshot, k);
  }

  /** A snapshot that is older than the last accepted one is ignored. */
  lemma OlderSnapshotIgnored(s: State, e: Event)
    requires e.Replace? && e.profile in s.generations && e.generation < s.generations[e.profile]
    ensures Apply(s, e) == s
  {
    assert s.consumed + [] == s.consumed;
  }

  predicate TakenBetween(events: seq<Event>, k: Key, i: nat, j: nat) {
    exists m :: i <= m < j && m < |events| && events[m] == Take(k)
  }

  ghost predicate NoneAccepted(s: State, events: seq<Event>, p: ProfileId, i: nat, j: nat)
    requires i <= j <= |events|
  {
    forall m :: i <= m < j ==> !Accepted(StateAt(s, events, m), events[m], p)
  }

  /** One event that is no accepted snapshot of the profile leaves an answer as it is, unless it
      takes an allow-once grant. */
  lemma AnswerStays(s: State, e: Event, k: Key)
    requires !Accepted(s, e, k.profile)
    ensures Answer(Apply(s, e), k) == if e == Take(k) && Answer(s, k) == Some(AllowOnce) then None else Answer(s, k)
  {
    if e.Replace? {
      if e.profile != k.profile { ReplacementAt(s, e.profile, e.snapshot, k); } else { OlderSnapshotIgnored(s, e); }
    }
  }

  /** Until the next accepted snapshot of its profile every answer stands: a lasting decision, or
      none, however often it is asked for, and an allow-once grant until it is taken. */
  lemma {:induction false} AnswerStands(s: State, events: seq<Event>, k: Key, i: nat, j: nat)
    requires i <= j <= |events| && NoneAccepted(s, events, k.profile, i, j)
    ensures var first := Answer(StateAt(s, events, i), k);
            Answer(StateAt(s, events, j), k) == if first == Some(AllowOnce) && TakenBetween(events, k, i, j) then None else first
    decreases j - i
  {
    if i < j {
      AnswerStands(s, events, k, i, j - 1);
      StateAfter(s, events, j - 1);
      AnswerStays(StateAt(s, events, j - 1), events[j - 1], k);
      assert TakenBetween(events, k, i, j) <==> TakenBetween(events, k, i, j - 1) || events[j - 1] == Take(k);
    }
  }

  /** A site that an accepted snapshot allows or denies for good is answered so on every request
      until the next accepted snapshot of the profile. */
  lemma DecisionStands(s: State, events: seq<Event>, k: Key, i: nat, j: nat, entry: Entry)
    requires i < j <= |events| && Accepted(StateAt(s, events, i), events[i], k.profile)
    requires LastEntry(k.profile, events[i].snapshot, k) == Some(entry)
    requires entry.state.Decided? && !entry.state.decision.AllowOnce?
    requires NoneAccepted(s, events, k.profile, i + 1, j)
    ensures Answer(StateAt(s, events, j), k) == Some(entry.state.decision)
  {
    StateAfter(s, events, i);
    SnapshotDecides(StateAt(s, events, i), events[i], k);
    AnswerStands(s, events, k, i + 1, j);
  }

  // ---------------------------------------------------------------- a grant is honoured once

  /** The event answers a request with this allow-once grant. */
  predicate Honours(s: State, e: Event, k: Key, revision: nat) {
    e == Take(k) && Usable(s, k, revision)
  }

  /** An accepted snapshot sends the grant as a plain decision when the store does not hold
      it, so the store cannot know that it was used. */
  predicate Regrants(s: State, e: Event, k: Key, revision: nat) {
    && e.Replace? && !Stale(s, e.profile, e.generation)
    && LastEntry(e.profile, e.snapshot, k).Some?
    && LastEntry(e.profile, e.snapshot, k).value.state == Decided(AllowOnce)
    && LastEntry(e.profile, e.snapshot, k).value.revision == revision
    && !Holds(s, k, revision)
  }

  /** Nothing else makes a grant usable. */
  lemma BecomesUsable(s: State, e: Event, k: Key, revision: nat)
    requires !Usable(s, k, revision)
    ensures Usable(Apply(s, e), k, revision) <==> Regrants(s, e, k, revision)
  {
    if e.Replace? { ReplacementAt(s, e.profile, e.snapshot, k); }
  }

  lemma {:induction false} UsableAgain(s: State, events: seq<Event>, k: Key, revision: nat, i: nat, j: nat)
    requires i <= j <= |events|
    requires !Usable(StateAt(s, events, i), k, revision) && Usable(StateAt(s, events, j), k, revision)
    ensures exists m :: i <= m < j && Regrants(StateAt(s, events, m), events[m], k, revision)
    decreases j - i
  {
    StateAfter(s, events, j - 1);
    if Usable(StateAt(s, events, j - 1), k, revision) {
      UsableAgain(s, events, k, revision, i, j - 1);
    } else {
      BecomesUsable(StateAt(s, events, j - 1), events[j - 1], k, revision);
    }
  }

  /** Between two uses of one grant it was dropped and sent again as a plain decision. */
  lemma HonouredTwiceOnlyIfRegranted(s: State, events: seq<Event>, k: Key, revision: nat, i: nat, j: nat)
    requires i < j < |events|
    requires Honours(StateAt(s, events, i), events[i], k, revision)
    requires Honours(StateAt(s, events, j), events[j], k, revision)
    ensures exists m :: i < m < j && Regrants(StateAt(s, events, m), events[m], k, revision)
  {
    StateAfter(s, events, i);
    UsableAgain(s, events, k, revision, i + 1, j);
  }

  /** And then a second use is really possible. */
  lemma RegrantIsHonoured(s: State, e: Event, k: Key, revision: nat)
    requires Regrants(s, e, k, revision)
    ensures Honours(Apply(s, e), Take(k), k, revision) && Answer(Apply(s, e), k) == Some(AllowOnce)
  {
    BecomesUsable(s, e, k, revision);
  }

  /** A run that does it: granted, used, dropped, granted again, used again. */
  lemma HonouredTwiceExample()
    ensures exists events: seq<Event>, k ::
              && |events| == 5
              && Honours(StateAt(EMPTY, events, 1), events[1], k, 7)
              && Honours(StateAt(EMPTY, events, 4), events[4], k, 7)
  {
    var k := Key(1, 2, 3);
    var grant := Entry(2, 3, Decided(AllowOnce), 7);
    var events := [Replace(1, 0, [grant]), Take(k), Replace(1, 1, []), Replace(1, 2, [grant]), Take(k)];
    assert KeyOf(1, grant) == k;
    StateAfter(EMPTY, events, 0);
    StateAfter(EMPTY, events, 1);
    StateAfter(EMPTY, events, 2);
    StateAfter(EMPTY, events, 3);
    assert LastEntry(1, [grant], k) == Some(grant);
    var s0, s1, s2, s3 := EMPTY, StateAt(EMPTY, events, 1), StateAt(EMPTY, events, 2), StateAt(EMPTY, events, 3);
    BecomesUsable(s0, events[0], k, 7);
    ReplacementAt(s2, 1, [], k);
    assert !Holds(s3, k, 7);
    BecomesUsable(s3, events[3], k, 7);
    assert Honours(StateAt(EMPTY, events, 1), events[1], k, 7);
    assert Honours(StateAt(EMPTY, events, 4), events[4], k, 7);
  }

  /** A transferred grant is usable afterwards exactly if it was before. */
  lemma TransferNeverArms(s: State, e: Event, k: Key, revision: nat, entry: Entry)
    requires e.Replace? && !Stale(s, e.profile, e.generation)
    requires LastEntry(e.profile, e.snapshot, k) == Some(entry) && entry.state.TransferredAllowOnce?
    ensures Usable(Apply(s, e), k, revision) <==> revision == entry.revision && Usable(s, k, revision)
  {
    ReplacementAt(s, e.profile, e.snapshot, k);
  }

  // ---------------------------------------------------------------- the log is conserved

  function RunLog(s: State, events: seq<Event>): seq<Consumed> {
    if events == [] then []
    else
      var before := events[..|events| - 1];
      RunLog(s, before) + Logged(RunState(s, before), events[|events| - 1])
  }

  function RunDrained(s: State, events: seq<Event>): seq<Consumed> {
    if events == [] then []
    else
      var before := events[..|events| - 1];
      RunDrained(s, before) + Drained(RunState(s, before), events[|events| - 1])
  }

  lemma OneMoreEvent(drained: seq<Consumed>, pending: seq<Consumed>, start: seq<Consumed>, log: seq<Consumed>,
                     out: seq<Consumed>, left: seq<Consumed>, added: seq<Consumed>)
    requires drained + pending == start + log && out + left == pending + added
    ensures (drained + out) + left == start + (log + added)
  {
    assert (drained + out) + left == drained + (out + left);
    assert drained + (pending + added) == (drained + pending) + added;
    assert (start + log) + added == start + (log + added);
  }

  lemma EventConservesLog(s: State, e: Event)
    ensures Drained(s, e) + Apply(s, e).consumed == s.consumed + Logged(s, e)
  {
  }

  /** What was drained, with what is pending, is what was consumed, in order. */
  lemma {:induction false} LogIsConserved(s: State, events: seq<Event>)
    ensures RunDrained(s, events) + RunState(s, events).consumed == s.consumed + RunLog(s, events)
  {
    if events != [] {
      var before, e := events[..|events| - 1], events[|events| - 1];
      LogIsConserved(s, before);
      var mid := RunState(s, before);
      EventConservesLog(mid, e);
      OneMoreEvent(RunDrained(s, before), mid.consumed, s.consumed, RunLog(s, before),
                   Drained(mid, e), Apply(mid, e).consumed, Logged(mid, e));
    }
  }

  /** The entry transfers this grant and the store does not hold it, used or not. */
  predicate TransfersUnknown(s: State, profile: ProfileId, entry: Entry, c: Consumed) {
    && entry.state == TransferredAllowOnce
    && c == Consumed(Key(profile, entry.origin, entry.feature), entry.revision)
    && (c.key in s.entries ==> s.entries[c.key].decision != AllowOnce || s.entries[c.key].revision != c.revision)
  }

  /** One snapshot logs the transfers it fails closed, in their order, and nothing else. */
  lemma {:induction false} LoggedExactly(s: State, profile: ProfileId, snapshot: seq<Entry>, c: Consumed)
    ensures c in FreshlyConsumed(s, profile, snapshot) <==>
              exists i :: 0 <= i < |snapshot| && TransfersUnknown(s, profile, snapshot[i], c)
  {
    if snapshot != [] {
      var n := |snapshot| - 1;
      LoggedExactly(s, profile, snapshot[..n], c);
      assert forall i :: 0 <= i < n ==> snapshot[..n][i] == snapshot[i];
    }
  }

  /** The log of a snapshot follows its entries: what the first part logs comes first. */
  lemma {:induction false} LoggedInOrder(s: State, profile: ProfileId, first: seq<Entry>, rest: seq<Entry>)
    ensures FreshlyConsumed(s, profile, first + rest) == FreshlyConsumed(s, profile, first) + FreshlyConsumed(s, profile, rest)
  {
    if rest == [] {
      assert first + rest == first;
    } else {
      var n := |rest| - 1;
      assert (first + rest)[..|first| + n] == first + rest[..n];
      LoggedInOrder(s, profile, first, rest[..n]);
    }
  }

  // ---------------------------------------------------------------- profiles do not see each other

  predicate BelongsTo(e: Event, p: ProfileId) {
    (e.Replace? && e.profile == p) || (e.Take? && e.key.profile == p)
  }

  /** The profile's own takes and the snapshots of it that were not stale. */
  predicate Relevant(s: State, e: Event, p: ProfileId) {
    BelongsTo(e, p) && (e.Replace? ==> !Stale(s, e.profile, e.generation))
  }

  function Own(s: State, events: seq<Event>, p: ProfileId): seq<Event> {
    if events == [] then []
    else
      var before := events[..|events| - 1];
      Own(s, before, p) + if Relevant(RunState(s, before), events[|events| - 1], p) then [events[|events| - 1]] else []
  }

  function LogOf(log: seq<Consumed>, p: ProfileId): seq<Consumed> {
    if log == [] then []
    else LogOf(log[..|log| - 1], p) + if log[|log| - 1].key.profile == p then [log[|log| - 1]] else []
  }

  /** Two stores that a profile cannot tell apart. */
  ghost predicate Alike(s: State, t: State, p: ProfileId) {
    && (p in s.generations <==> p in t.generations)
    && (p in s.generations ==> s.generations[p] == t.generations[p])
    && (forall k: Key :: k.profile == p ==>
          (k in s.entries <==> k in t.entries) && (k in s.entries ==> s.entries[k] == t.entries[k]))
  }

  lemma {:induction false} SnapshotsAlike(s: State, t: State, p: ProfileId, snapshot: seq<Entry>)
    requires Alike(s, t, p)
    ensures Replacements(s, p, snapshot) == Replacements(t, p, snapshot)
    ensures FreshlyConsumed(s, p, snapshot) == FreshlyConsumed(t, p, snapshot)
    ensures forall k :: k in Replacements(s, p, snapshot) ==> k.profile == p
    ensures forall c :: c in FreshlyConsumed(s, p, snapshot) ==> c.key.profile == p
  {
    if snapshot != [] {
      SnapshotsAlike(s, t, p, snapshot[..|snapshot| - 1]);
      assert KeyOf(p, snapshot[|snapshot| - 1]).profile == p;
    }
  }

  lemma OwnEventAlike(s: State, t: State, e: Event, p: ProfileId)
    requires Alike(s, t, p) && BelongsTo(e, p)
    ensures Alike(Apply(s, e), Apply(t, e), p) && Logged(s, e) == Logged(t, e)
    ensures forall c :: c in Logged(s, e) ==> c.key.profile == p
  {
    if e.Replace? { SnapshotsAlike(s, t, p, e.snapshot); }
  }

  lemma ForeignEventAlike(s: State, e: Event, p: ProfileId)
    requires !Relevant(s, e, p)
    ensures Alike(s, Apply(s, e), p)
    ensures forall c :: c in Logged(s, e) ==> c.key.profile != p
  {
    if e.Replace? { SnapshotsAlike(s, s, e.profile, e.snapshot); }
  }

  lemma {:induction false} LogOfAppend(a: seq<Consumed>, b: seq<Consumed>, p: ProfileId)
    ensures LogOf(a + b, p) == LogOf(a, p) + LogOf(b, p)
  {
    if b == [] {
      assert a + b == a;
    } else {
      var n := |b| - 1;
      assert (a + b)[..|a + b| - 1] == a + b[..n];
      LogOfAppend(a, b[..n], p);
    }
  }

  lemma {:induction false} LogOfUniform(log: seq<Consumed>, p: ProfileId)
    ensures (forall c :: c in log ==> c.key.profile == p) ==> LogOf(log, p) == log
    ensures (forall c :: c in log ==> c.key.profile != p) ==> LogOf(log, p) == []
  {
    if log != [] {
      var n := |log| - 1;
      LogOfUniform(log[..n], p);
      assert log[n] in log && forall c :: c in log[..n] ==> c in log;
      assert log == log[..n] + [log[n]];
    }
  }

  /** A profile's entries, and its part of the log, are those of a run of its own events. */
  lemma {:induction false} ProfilesAreIndependent(s: State, events: seq<Event>, p: ProfileId)
    ensures Alike(RunState(s, events), RunState(s, Own(s, events, p)), p)
    ensures LogOf(RunLog(s, events), p) == RunLog(s, Own(s, events, p))
  {
    if events != [] {
      var before, e := events[..|events| - 1], events[|events| - 1];
      ProfilesAreIndependent(s, before, p);
      var mid, own := RunState(s, before), Own(s, before, p);
      LogOfAppend(RunLog(s, before), Logged(mid, e), p);
      LogOfUniform(Logged(mid, e), p);
      if Relevant(mid, e, p) {
        assert (own + [e])[..|own + [e]| - 1] == own;
        OwnEventAlike(mid, RunState(s, own), e, p);
      } else {
        assert Own(s, events, p) == own;
        ForeignEventAlike(mid, e, p);
      }
    }
  }
}
