/** Site permissions in the Servo host: allow-once grants, snapshots that replace a profile's
    decisions, and the log of consumed grants. */
module PermissionStore {
  import opened Wrappers

  type ProfileId = nat
  type Origin = nat
  type Feature = nat

  datatype Key = Key(profile: ProfileId, origin: Origin, feature: Feature)

  datatype Decision = AllowOnce | AllowAlways | DenyAlways

  datatype Stored = Stored(decision: Decision, revision: nat, consumed: bool)

  datatype Consumed = Consumed(key: Key, revision: nat)

  datatype EntryState = Decided(decision: Decision) | TransferredAllowOnce

  datatype Entry = Entry(origin: Origin, feature: Feature, state: EntryState, revision: nat)

  datatype State = State(entries: map<Key, Stored>, generations: map<ProfileId, nat>, consumed: seq<Consumed>)

  const EMPTY := State(map[], map[], [])

  // ---------------------------------------------------------------- a snapshot

  function KeyOf(profile: ProfileId, entry: Entry): Key {
    Key(profile, entry.origin, entry.feature)
  }

  /** The store holds this very allow-once grant. */
  predicate Holds(s: State, k: Key, revision: nat) {
    k in s.entries && s.entries[k].decision.AllowOnce? && s.entries[k].revision == revision
  }

  predicate Spent(s: State, k: Key, revision: nat) {
    Holds(s, k, revision) && s.entries[k].consumed
  }

  predicate Usable(s: State, k: Key, revision: nat) {
    Holds(s, k, revision) && !s.entries[k].consumed
  }

  function StoredFor(s: State, profile: ProfileId, entry: Entry): Stored {
    var k := KeyOf(profile, entry);
    match entry.state
    case Decided(decision) => Stored(decision, entry.revision, decision.AllowOnce? && Spent(s, k, entry.revision))
    case TransferredAllowOnce => Stored(AllowOnce, entry.revision, !Usable(s, k, entry.revision))
  }

  /** A transferred grant that the store does not hold counts as consumed on arrival. */
  predicate FailsClosed(s: State, profile: ProfileId, entry: Entry) {
    entry.state.TransferredAllowOnce? && !Holds(s, KeyOf(profile, entry), entry.revision)
  }

  /** Later entries for a key replace earlier ones. */
  function Replacements(s: State, profile: ProfileId, entries: seq<Entry>): map<Key, Stored> {
    if entries == [] then map[]
    else
      var last := entries[|entries| - 1];
      Replacements(s, profile, entries[..|entries| - 1])[KeyOf(profile, last) := StoredFor(s, profile, last)]
  }

  function FreshlyConsumed(s: State, profile: ProfileId, entries: seq<Entry>): seq<Consumed> {
    if entries == [] then []
    else
      var last := entries[|entries| - 1];
      FreshlyConsumed(s, profile, entries[..|entries| - 1])
        + if FailsClosed(s, profile, last) then [Consumed(KeyOf(profile, last), last.revision)] else []
  }

  predicate Stale(s: State, profile: ProfileId, generation: nat) {
    profile in s.generations && generation < s.generations[profile]
  }

  function OthersOnly(entries: map<Key, Stored>, profile: ProfileId): map<Key, Stored> {
    map k | k in entries && k.profile != profile :: entries[k]
  }

  // ---------------------------------------------------------------- events

  datatype Event =
    | Replace(profile: ProfileId, generation: nat, snapshot: seq<Entry>)
    | Take(key: Key)
    | Drain

  function Logged(s: State, e: Event): seq<Consumed> {
    match e
    case Replace(p, generation, snapshot) => if Stale(s, p, generation) then [] else FreshlyConsumed(s, p, snapshot)
    case Take(k) =>
      if k in s.entries && s.entries[k].decision.AllowOnce? && !s.entries[k].consumed
      then [Consumed(k, s.entries[k].revision)] else []
    case Drain => []
  }

  function Drained(s: State, e: Event): seq<Consumed> {
    if e.Drain? then s.consumed else []
  }

  function Answer(s: State, k: Key): Option<Decision> {
    if k !in s.entries || (s.entries[k].decision.AllowOnce? && s.entries[k].consumed) then None
    else Some(s.entries[k].decision)
  }

  function EntriesAfter(s: State, e: Event): map<Key, Stored> {
    match e
    case Replace(p, generation, snapshot) =>
      if Stale(s, p, generation) then s.entries else OthersOnly(s.entries, p) + Replacements(s, p, snapshot)
    case Take(k) => if Logged(s, e) == [] then s.entries else s.entries[k := s.entries[k].(consumed := true)]
    case Drain => s.entries
  }

  function GenerationsAfter(s: State, e: Event): map<ProfileId, nat> {
    if e.Replace? && !Stale(s, e.profile, e.generation) then s.generations[e.profile := e.generation] else s.generations
  }

  function Apply(s: State, e: Event): State {
    State(EntriesAfter(s, e), GenerationsAfter(s, e), if e.Drain? then [] else s.consumed + Logged(s, e))
  }

  // ---------------------------------------------------------------- the store itself

  class Store {
    var entries: map<Key, Stored>
    var generations: map<ProfileId, nat>
    var consumed: seq<Consumed>

    constructor ()
      ensures Now() == EMPTY
    {
      entries, generations, consumed := map[], map[], [];
    }

    function Now(): State
      reads this
    {
      State(entries, generations, consumed)
    }

    method ReplaceDecisions(profile: ProfileId, generation: nat, snapshot: seq<Entry>)
      modifies this
      ensures Now() == Apply(old(Now()), Replace(profile, generation, snapshot))
    {
      if profile in generations && generation < generations[profile] { return; }
      var freshlyConsumed := [];
      var replacements: map<Key, Stored> := map[];
      var i := 0;
      while i < |snapshot|
        invariant i <= |snapshot|
        invariant replacements == Replacements(old(Now()), profile, snapshot[..i])
        invariant freshlyConsumed == FreshlyConsumed(old(Now()), profile, snapshot[..i])
      {
        var entry := snapshot[i];
        assert snapshot[..i + 1][..i] == snapshot[..i];
        var key := KeyOf(profile, entry);
        var stored;
        match entry.state {
          case Decided(decision) =>
            var spent := decision.AllowOnce? && key in entries && entries[key].decision.AllowOnce?
              && entries[key].revision == entry.revision && entries[key].consumed;
            stored := Stored(decision, entry.revision, spent);
          case TransferredAllowOnce =>
            if key in entries && entries[key].decision.AllowOnce? && entries[key].revision == entry.revision {
              stored := Stored(AllowOnce, entries[key].revision, entries[key].consumed);
            } else {
              freshlyConsumed := freshlyConsumed + [Consumed(key, entry.revision)];
              stored := Stored(AllowOnce, entry.revision, true);
            }
        }
        replacements := replacements[key := stored];
        i := i + 1;
      }
      assert snapshot[..i] == snapshot;
      entries := (map k | k in entries && k.profile != profile :: entries[k]) + replacements;
      consumed := consumed + freshlyConsumed;
      generations := generations[profile := generation];
    }

    /** An allow-once grant is answered once: it is logged, and asking again gives nothing.  Any
        other decision stays, and no other key's answer changes. */
    method TakeDecision(k: Key) returns (answer: Option<Decision>)
      modifies this
      ensures answer == Answer(old(Now()), k)
      ensures Now() == Apply(old(Now()), Take(k))
      ensures answer == Some(AllowOnce) ==> Answer(Now(), k) == None && consumed == old(consumed) + [Consumed(k, old(entries)[k].revision)]
      ensures answer != Some(AllowOnce) ==> Now() == old(Now())
      ensures forall j :: j != k ==> Answer(Now(), j) == Answer(old(Now()), j)
    {
      if k !in entries { return None; }
      var stored := entries[k];
      if stored.decision.AllowOnce? {
        if stored.consumed { return None; }
        entries := entries[k := stored.(consumed := true)];
        consumed := consumed + [Consumed(k, stored.revision)];
      }
      answer := Some(stored.decision);
    }

    /** Every pending event is handed out, in order, and a second drain finds only what came
        later; no answer changes. */
    method DrainConsumed() returns (drained: seq<Consumed>)
      modifies this
      ensures drained == Drained(old(Now()), Drain)
      ensures Now() == Apply(old(Now()), Drain)
      ensures drained + consumed == old(consumed) && Drained(Now(), Drain) == []
      ensures forall k :: Answer(Now(), k) == Answer(old(Now()), k)
    {
      drained := consumed;
      consumed := [];
    }

    /** The host's entry point: a snapshot that names a key twice changes nothing. */
    method ReplacePermissions(profile: ProfileId, generation: nat, snapshot: seq<Entry>) returns (accepted: bool)
      modifies this
      ensures accepted == DistinctKeys(profile, snapshot)
      ensures Now() == if accepted then Apply(old(Now()), Replace(profile, generation, snapshot)) else old(Now())
    {
      var keys: set<Key> := {};
      var i := 0;
      while i < |snapshot|
        invariant i <= |snapshot| && DistinctKeys(profile, snapshot[..i])
        invariant keys == set j | 0 <= j < i :: KeyOf(profile, snapshot[j])
        invariant Now() == old(Now())
      {
        var key := KeyOf(profile, snapshot[i]);
        if key in keys { return false; }
        keys := keys + {key};
        i := i + 1;
      }
      assert snapshot[..i] == snapshot;
      ReplaceDecisions(profile, generation, snapshot);
      accepted := true;
    }
  }

  predicate DistinctKeys(profile: ProfileId, snapshot: seq<Entry>) {
    forall i, j :: 0 <= i < j < |snapshot| ==> KeyOf(profile, snapshot[i]) != KeyOf(profile, snapshot[j])
  }
}
