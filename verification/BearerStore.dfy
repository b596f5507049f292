/** The bearer token store: a keychain entry, a migration marker and legacy files, changed
    by steps each of which can fail, or fail after taking effect, or be the last before a
    crash. */
module BearerStore {
  import opened Wrappers
  import opened BearerToken

  type Path = nat

  /** What bytes a secret or a file holds, and the file states that reading rejects. */
  datatype Content = Text(text: string) | NotUtf8 | Symlink | Hardlinked

  datatype Marker = Absent | Valid | Invalid

  datatype Snapshot = Snapshot(keychain: Option<Content>, marker: Marker, files: map<Path, Content>)

  /** Who is signed in.  `Unreadable` is a state that `load` reports as an error. */
  datatype View = Nobody | SignedIn(token: string) | Unreadable

  function ParsedView(text: string): View {
    match Parse(text)
    case Token(token) => SignedIn(token)
    case Malformed => Unreadable
  }

  function SecretView(secret: Content): View {
    if secret.Text? then ParsedView(secret.text) else Unreadable
  }

  function FileView(file: Content): View {
    if file.Text? && Utf8Length(file.text) <= MAX_LEGACY_LENGTH then ParsedView(file.text) else Unreadable
  }

  /** The first legacy file that exists decides. */
  function LegacyView(files: map<Path, Content>, legacy: seq<Path>): View {
    if legacy == [] then Nobody
    else if legacy[0] in files then FileView(files[legacy[0]])
    else LegacyView(files, legacy[1..])
  }

  /** The single register that the store stands for. */
  function ViewOf(s: Snapshot, legacy: seq<Path>): View {
    match s.keychain
    case Some(secret) => SecretView(secret)
    case None =>
      match s.marker
      case Valid => Nobody
      case Invalid => Unreadable
      case Absent => LegacyView(s.files, legacy)
  }

  function LoadedView(token: Option<string>): View {
    if token.Some? then SignedIn(token.value) else Nobody
  }

  predicate FilesWent(before: map<Path, Content>, after: map<Path, Content>) {
    after.Keys <= before.Keys && forall p :: p in after ==> after[p] == before[p]
  }

  /** The comparison of a conditional clear: an empty keychain matches every token. */
  predicate ClearsFor(keychain: Option<Content>, token: string) {
    keychain.Some? ==> SecretView(keychain.value) == SignedIn(token)
  }

  datatype Result<+T> = Ok(value: T) | Failed

  /** Something in the files that makes removing them fail every time. */
  predicate Unremovable(files: map<Path, Content>, p: Path) {
    p in files && files[p].Hardlinked?
  }

  /** One call to the store. */
  datatype Call = Loading | Saving(token: string) | Clearing | ClearingIf(token: string) | ClearingFiles

  /** What a migrated register can show after these calls, whatever fails on the way. */
  function Shows(view: View, calls: seq<Call>): set<View> {
    {view, Nobody} + set c | c in calls && c.Saving? :: SignedIn(c.token)
  }

  /** From this point of a history on the register shows one of these views. */
  predicate ShowsFrom(history: seq<Snapshot>, from: nat, legacy: seq<Path>, views: set<View>) {
    forall i :: from <= i < |history| ==> ViewOf(history[i], legacy) in views
  }

  predicate MarkerFrom(history: seq<Snapshot>, from: nat) {
    forall i :: from <= i < |history| ==> history[i].marker.Valid?
  }

  /** Two stretches of a history make one. */
  lemma JoinStretches(first: seq<Snapshot>, whole: seq<Snapshot>, from: nat, legacy: seq<Path>, views: set<View>)
    requires first <= whole && from <= |first|
    requires ShowsFrom(first, from, legacy, views) && ShowsFrom(whole, |first|, legacy, views)
    ensures ShowsFrom(whole, from, legacy, views)
  {
    forall i | from <= i < |whole|
      ensures ViewOf(whole[i], legacy) in views
    {
      assert i < |first| ==> whole[i] == first[i];
    }
  }

  /** The states that a migration passes: the file alone, the file and the keychain, and
      both with a marker. */
  predicate Underway(s: Snapshot, files: map<Path, Content>, token: string) {
    && s.files == files
    && (s.keychain == Some(Text(token)) || (s.keychain.None? && s.marker.Absent?))
  }

  /** In each of them the register shows the token or what the files say, which agree. */
  lemma UnderwayShows(s: Snapshot, files: map<Path, Content>, legacy: seq<Path>, token: string)
    requires Underway(s, files, token) && ValidToken(token)
    ensures ViewOf(s, legacy) == if s.keychain.Some? then SignedIn(token) else LegacyView(files, legacy)
  {
    ParseOfToken(token);
  }

  lemma AllUnderwayShow(history: seq<Snapshot>, from: nat, files: map<Path, Content>, legacy: seq<Path>, token: string)
    requires ValidToken(token) && LegacyView(files, legacy) == SignedIn(token)
    requires forall i :: from <= i < |history| ==> Underway(history[i], files, token)
    ensures ShowsFrom(history, from, legacy, {SignedIn(token)})
  {
    forall i | from <= i < |history|
      ensures ViewOf(history[i], legacy) == SignedIn(token)
    {
      UnderwayShows(history[i], files, legacy, token);
    }
  }

  class Store {
    var keychain: Option<Content>
    var marker: Marker
    var files: map<Path, Content>
    const legacy: seq<Path>
    const temporary: Path -> Path

    /** Every state the store went through: a crash can leave any of them behind. */
    ghost var history: seq<Snapshot>
    /** How many steps failed that would have succeeded on another day. */
    ghost var faults: nat

    constructor (legacy: seq<Path>, temporary: Path -> Path, files: map<Path, Content>)
      ensures this.legacy == legacy && this.temporary == temporary && faults == 0
      ensures Now() == Snapshot(None, Absent, files) && history == []
    {
      this.legacy, this.temporary, this.files := legacy, temporary, files;
      keychain, marker, history, faults := None, Absent, [], 0;
    }

    function Now(): Snapshot
      reads this
    {
      Snapshot(keychain, marker, files)
    }

    function Shown(): View
      reads this
    {
      ViewOf(Now(), legacy)
    }

    /** Since a point in the history the register has always shown one of these. */
    ghost predicate Showed(from: nat, views: set<View>)
      reads this
    {
      ShowsFrom(history, from, legacy, views)
    }

    /** A valid marker is never removed. */
    ghost predicate MarkerKept(from: nat, was: Marker)
      reads this
    {
      was.Valid? ==> marker.Valid? && MarkerFrom(history, from)
    }

    /** The register does not depend on the files. */
    predicate Migrated()
      reads this
    {
      keychain.Some? || !marker.Absent?
    }

    // -------------------------------------------------------------- steps that can fail

    method KeychainLoad() returns (r: Result<Option<Content>>)
      modifies this`faults
      ensures r.Ok? ==> r.value == keychain && faults == old(faults)
      ensures r.Failed? ==> faults > old(faults)
    {
      var works: bool := *;
      if works { return Ok(keychain); }
      faults := faults + 1;
      return Failed;
    }

    method KeychainWrite(secret: Option<Content>) returns (ok: bool)
      modifies this`keychain, this`history, this`faults
      ensures keychain == secret || (!ok && keychain == old(keychain))
      ensures history == old(history) + [Now()]
      ensures if ok then faults == old(faults) else faults > old(faults)
    {
      var takesEffect: bool := *;
      ok := *;
      ok := ok && takesEffect;
      if takesEffect { keychain := secret; }
      if !ok { faults := faults + 1; }
      history := history + [Now()];
    }

    method MarkerExists() returns (r: Result<bool>)
      modifies this`faults
      ensures r.Ok? ==> marker == (if r.value then Valid else Absent) && faults == old(faults)
      ensures r.Failed? ==> marker.Invalid? || faults > old(faults)
      ensures faults >= old(faults)
    {
      var works: bool := *;
      if !works {
        faults := faults + 1;
        return Failed;
      }
      return match marker case Absent => Ok(false) case Valid => Ok(true) case Invalid => Failed;
    }

    /** Writes a temporary file and renames it; the rename can have happened although the
        step reports an error. */
    method EnsureMarker() returns (ok: bool)
      modifies this`marker, this`history, this`faults
      ensures marker == old(marker) || (old(marker).Absent? && marker.Valid?)
      ensures ok ==> marker.Valid? && faults == old(faults)
      ensures !ok ==> old(marker).Invalid? || faults > old(faults)
      ensures history == old(history) + [Now()]
    {
      ok := false;
      var works: bool := *;
      var renamed: bool := *;
      if marker.Absent? && (works || renamed) { marker := Valid; }
      if works { ok := marker.Valid?; } else { faults := faults + 1; }
      history := history + [Now()];
    }

    method ReadLegacy(p: Path) returns (r: Result<Option<string>>)
      modifies this`faults
      ensures r.Ok? && r.value.None? ==> p !in files
      ensures r.Ok? && r.value.Some? ==> p in files && FileView(files[p]) == SignedIn(r.value.value) && ValidToken(r.value.value)
      ensures r.Ok? ==> faults == old(faults)
      ensures r.Failed? ==> faults > old(faults) || (p in files && FileView(files[p]).Unreadable?)
    {
      var works: bool := *;
      if !works {
        faults := faults + 1;
        return Failed;
      }
      if p !in files { return Ok(None); }
      match FileView(files[p])
      case SignedIn(token) => return Ok(Some(token));
      case Unreadable => return Failed;
    }

    method Remove(p: Path) returns (ok: bool)
      modifies this`files, this`history, this`faults
      ensures files == old(files) - {p} || (!ok && files == old(files))
      ensures history == old(history) + [Now()]
      ensures ok ==> faults == old(faults) && !Unremovable(old(files), p)
      ensures !ok ==> faults > old(faults) || Unremovable(old(files), p)
      ensures Unremovable(old(files), p) ==> files == old(files)
    {
      var takesEffect: bool := *;
      ok := *;
      ok := ok && takesEffect;
      if Unremovable(files, p) {
        ok := false;
      } else {
        if takesEffect { files := files - {p}; }
        if !ok { faults := faults + 1; }
      }
      history := history + [Now()];
    }

    // -------------------------------------------------------------- loops over the legacy paths

    predicate Gone(p: Path)
      reads this`files
    {
      p !in files && temporary(p) !in files
    }

    predicate Stuck(p: Path)
      reads this`files
    {
      Unremovable(files, p) || Unremovable(files, temporary(p))
    }

    /** No legacy file and no temporary sibling of one is left. */
    predicate AllGone()
      reads this`files
    {
      forall i :: 0 <= i < |legacy| ==> Gone(legacy[i])
    }

    predicate AnyStuck()
      reads this`files
    {
      exists i :: 0 <= i < |legacy| && Stuck(legacy[i])
    }

    function LegacyPaths(): set<Path> {
      (set i | 0 <= i < |legacy| :: legacy[i]) + (set i | 0 <= i < |legacy| :: temporary(legacy[i]))
    }

    /** Only legacy files and their siblings may have changed. */
    predicate OthersKept(before: map<Path, Content>)
      reads this`files
    {
      files - LegacyPaths() == before - LegacyPaths()
    }

    /** Since a point in the history only files went. */
    ghost predicate OnlyFilesWent(from: nat, before: map<Path, Content>)
      reads this
    {
      && FilesWent(before, files)
      && forall i :: from <= i < |history| ==>
           history[i].keychain == keychain && history[i].marker == marker && FilesWent(before, history[i].files)
    }

    method RemoveOwn(p: Path) returns (ok: bool)
      requires p in LegacyPaths()
      modifies this`files, this`history, this`faults
      ensures old(history) <= history && OnlyFilesWent(|old(history)|, old(files)) && OthersKept(old(files))
      ensures ok ==> faults == old(faults) && p !in files && !Unremovable(old(files), p)
      ensures !ok ==> faults > old(faults) || Unremovable(old(files), p)
      ensures UnremovableStay(old(files))
    {
      ok := Remove(p);
      assert (old(files) - {p}) - LegacyPaths() == old(files) - LegacyPaths();
    }

    ghost predicate UnremovableStay(before: map<Path, Content>)
      reads this`files
    {
      forall p :: Unremovable(before, p) ==> Unremovable(files, p)
    }

    method RemoveWithSibling(i: nat) returns (ok: bool)
      requires i < |legacy|
      modifies this`files, this`history, this`faults
      ensures old(history) <= history && OnlyFilesWent(|old(history)|, old(files)) && OthersKept(old(files))
      ensures ok ==> faults == old(faults) && Gone(legacy[i]) && !old(Stuck(legacy[i]))
      ensures !ok ==> faults > old(faults) || old(Stuck(legacy[i]))
      ensures UnremovableStay(old(files))
    {
      ok := RemoveOwn(legacy[i]);
      if ok { ok := RemoveOwn(temporary(legacy[i])); }
    }

    /** Every legacy file and its temporary sibling, in order, up to the first that stays. */
    method CleanupLegacy() returns (ok: bool)
      modifies this`files, this`history, this`faults
      ensures old(history) <= history && OnlyFilesWent(|old(history)|, old(files)) && OthersKept(old(files))
      ensures ok ==> faults == old(faults) && AllGone() && !old(AnyStuck())
      ensures !ok ==> faults > old(faults) || old(AnyStuck())
    {
      ok := true;
      var i := 0;
      while i < |legacy|
        invariant i <= |legacy| && faults == old(faults)
        invariant old(history) <= history && OnlyFilesWent(|old(history)|, old(files))
        invariant forall j :: 0 <= j < i ==> Gone(legacy[j]) && old(!Stuck(legacy[j]))
        invariant OthersKept(old(files)) && UnremovableStay(old(files))
      {
        ok := RemoveWithSibling(i);
        if !ok { return; }
        i := i + 1;
      }
    }

    method CleanupTemporaries() returns (ok: bool)
      modifies this`files, this`history, this`faults
      ensures old(history) <= history && OnlyFilesWent(|old(history)|, old(files)) && OthersKept(old(files))
      ensures ok ==> faults == old(faults) && forall i :: 0 <= i < |legacy| ==>
                       temporary(legacy[i]) !in files && !Unremovable(old(files), temporary(legacy[i]))
      ensures !ok ==> faults > old(faults) || old(AnyStuck())
    {
      ok := true;
      var i := 0;
      while i < |legacy|
        invariant i <= |legacy| && faults == old(faults)
        invariant old(history) <= history && OnlyFilesWent(|old(history)|, old(files))
        invariant forall j :: 0 <= j < i ==> temporary(legacy[j]) !in files && !Unremovable(old(files), temporary(legacy[j]))
        invariant OthersKept(old(files)) && UnremovableStay(old(files))
      {
        ok := RemoveOwn(temporary(legacy[i]));
        if !ok { return; }
        i := i + 1;
      }
    }

    method FindLegacy() returns (r: Result<Option<string>>)
      modifies this`faults
      ensures r.Ok? ==> faults == old(faults) && LegacyView(files, legacy) == LoadedView(r.value)
      ensures r.Ok? && r.value.None? ==> forall i :: 0 <= i < |legacy| ==> legacy[i] !in files
      ensures r.Ok? && r.value.Some? ==> ValidToken(r.value.value)
      ensures r.Failed? ==> faults > old(faults) || LegacyView(files, legacy).Unreadable?
    {
      var i := 0;
      while i < |legacy|
        invariant i <= |legacy| && faults == old(faults)
        invariant forall j :: 0 <= j < i ==> legacy[j] !in files
        invariant LegacyView(files, legacy) == LegacyView(files, legacy[i..])
      {
        r := ReadLegacy(legacy[i]);
        if r.Failed? || r.value.Some? { return; }
        i := i + 1;
      }
      r := Ok(None);
    }

    // -------------------------------------------------------------- load

    /** What keeps a load from succeeding however often it is tried. */
    predicate Blocked()
      reads this
    {
      || Shown().Unreadable?
      || (keychain.Some? && marker.Invalid?)
      || AnyStuck()
    }

    /** The register through which every crash and error is seen: it never moves. */
    ghost predicate Steady(from: nat, view: View)
      reads this
    {
      Shown() == view && Showed(from, {view})
    }

    method FinishMigrated() returns (ok: bool)
      requires Migrated()
      modifies this`files, this`history, this`faults
      ensures old(history) <= history && MarkerKept(|old(history)|, old(marker))
      ensures Steady(|old(history)|, old(Shown()))
      ensures ok ==> faults == old(faults) && AllGone() && !old(AnyStuck())
      ensures !ok ==> faults > old(faults) || old(AnyStuck())
      ensures OthersKept(old(files))
    {
      ok := CleanupLegacy();
    }

    method KeepMarker() returns (ok: bool)
      requires keychain.Some?
      modifies this`marker, this`history, this`faults
      ensures old(history) <= history && MarkerKept(|old(history)|, old(marker))
      ensures Steady(|old(history)|, old(Shown()))
      ensures ok ==> marker.Valid? && faults == old(faults) && !old(marker).Invalid?
      ensures !ok ==> old(marker).Invalid? || faults > old(faults)
    {
      ok := EnsureMarker();
    }

    /** The keychain entry wins over every file; a migration that crashed is finished here. */
    method FinishFromKeychain() returns (ok: bool)
      requires keychain.Some?
      modifies this`marker, this`files, this`history, this`faults
      ensures old(history) <= history && MarkerKept(|old(history)|, old(marker))
      ensures Steady(|old(history)|, old(Shown()))
      ensures ok ==> marker.Valid? && AllGone() && faults == old(faults) && !old(marker).Invalid? && !old(AnyStuck())
      ensures !ok ==> faults > old(faults) || old(marker).Invalid? || old(AnyStuck())
      ensures OthersKept(old(files))
    {
      ok := KeepMarker();
      if ok {
        ghost var kept := history;
        ok := FinishMigrated();
        JoinStretches(kept, history, |old(history)|, legacy, {old(Shown())});
      }
    }

    /** In the middle of a migration: no marker yet, and the keychain, if it is written,
        holds the file's token. */
    predicate Migrating(token: string)
      reads this
    {
      marker.Absent? && Underway(Now(), files, token)
    }

    /** Since a point in the history the store has been underway with this token. */
    ghost predicate WentThrough(from: nat, token: string)
      reads this
    {
      && Underway(Now(), files, token)
      && forall i :: from <= i < |history| ==> Underway(history[i], files, token)
    }

    /** One keychain write of a migration, forward or back. */
    method WriteMigrating(secret: Option<Content>, ghost token: string) returns (ok: bool)
      requires Migrating(token) && (secret == None || secret == Some(Text(token)))
      modifies this`keychain, this`history, this`faults
      ensures Migrating(token) && old(history) <= history && WentThrough(|old(history)|, token)
      ensures if ok then keychain == secret && faults == old(faults) else faults > old(faults)
    {
      ok := KeychainWrite(secret);
    }

    /** Undoes the first half of a migration while the legacy file is still the authority. */
    method Rollback(ghost token: string)
      requires Migrating(token)
      modifies this`keychain, this`history, this`faults
      ensures Migrating(token) && old(history) <= history && WentThrough(|old(history)|, token)
      ensures faults >= old(faults)
    {
      var ok := WriteMigrating(None, token);
    }

    method StoreMigrated(token: string) returns (ok: bool)
      requires Migrating(token)
      modifies this`keychain, this`history, this`faults
      ensures Migrating(token) && old(history) <= history && WentThrough(|old(history)|, token)
      ensures ok ==> keychain == Some(Text(token)) && faults == old(faults)
      ensures !ok ==> faults > old(faults)
    {
      ok := WriteMigrating(Some(Text(token)), token);
      if !ok { return; }
      var stored := KeychainLoad();
      if stored != Ok(Some(Text(token))) {
        ok := false;
        Rollback(token);
      }
    }

    method MarkMigrated(token: string) returns (ok: bool)
      requires Migrating(token) && keychain.Some?
      modifies this`keychain, this`marker, this`history, this`faults
      ensures old(history) <= history && WentThrough(|old(history)|, token)
      ensures ok ==> keychain == Some(Text(token)) && marker.Valid? && faults == old(faults)
      ensures !ok ==> faults > old(faults)
    {
      ok := EnsureMarker();
      if !ok {
        var present := MarkerExists();
        if present == Ok(false) { Rollback(token); }
      }
    }

    method MoveToKeychain(token: string) returns (ok: bool)
      requires Migrating(token)
      modifies this`keychain, this`marker, this`history, this`faults
      ensures old(history) <= history && WentThrough(|old(history)|, token)
      ensures ok ==> keychain == Some(Text(token)) && marker.Valid? && faults == old(faults)
      ensures !ok ==> faults > old(faults)
    {
      ok := StoreMigrated(token);
      if ok { ok := MarkMigrated(token); }
    }

    method Migrate(token: string) returns (r: Result<Option<string>>)
      requires keychain.None? && marker.Absent? && LegacyView(files, legacy) == SignedIn(token) && ValidToken(token)
      modifies this`keychain, this`marker, this`files, this`history, this`faults
      ensures old(history) <= history && MarkerKept(|old(history)|, old(marker))
      ensures Steady(|old(history)|, SignedIn(token))
      ensures r.Ok? ==> r.value == Some(token) && keychain == Some(Text(token)) && marker.Valid?
                        && AllGone() && faults == old(faults) && !old(AnyStuck())
      ensures r.Failed? ==> faults > old(faults) || old(AnyStuck())
      ensures OthersKept(old(files))
    {
      var ok := MoveToKeychain(token);
      UnderwayShows(Now(), files, legacy, token);
      AllUnderwayShow(history, |old(history)|, files, legacy, token);
      ghost var moved := history;
      if ok {
        ok := FinishMigrated();
        JoinStretches(moved, history, |old(history)|, legacy, {SignedIn(token)});
      }
      r := if ok then Ok(Some(token)) else Failed;
    }

    method DropTemporaries() returns (r: Result<Option<string>>)
      requires keychain.None? && marker.Absent? && forall i :: 0 <= i < |legacy| ==> legacy[i] !in files
      modifies this`files, this`history, this`faults
      ensures old(history) <= history && MarkerKept(|old(history)|, old(marker))
      ensures Steady(|old(history)|, Nobody)
      ensures r.Ok? ==> r.value.None? && AllGone() && faults == old(faults) && !old(AnyStuck())
      ensures r.Failed? ==> faults > old(faults) || old(AnyStuck())
      ensures OthersKept(old(files))
    {
      ghost var before := files;
      AbsentShowsNobody(files, legacy);
      var ok := CleanupTemporaries();
      forall after: map<Path, Content> | FilesWent(before, after)
        ensures LegacyView(after, legacy) == Nobody
      {
        AbsentShowsNobody(after, legacy);
      }
      r := if ok then Ok(None) else Failed;
    }

    method LoadLegacy() returns (r: Result<Option<string>>)
      requires keychain.None? && marker.Absent?
      modifies this`keychain, this`marker, this`files, this`history, this`faults
      ensures old(history) <= history && MarkerKept(|old(history)|, old(marker))
      ensures Steady(|old(history)|, old(Shown()))
      ensures r.Ok? ==> old(Shown()) == LoadedView(r.value)
      ensures r.Ok? ==> AllGone() && faults == old(faults) && !old(Blocked())
      ensures r.Ok? && r.value.Some? ==> keychain.Some? && marker.Valid?
      ensures r.Ok? && r.value.None? ==> keychain.None? && marker == old(marker)
      ensures r.Failed? ==> faults > old(faults) || old(Blocked())
      ensures OthersKept(old(files))
    {
      r := FindLegacy();
      if r.Ok? {
        if r.value.Some? { r := Migrate(r.value.value); } else { r := DropTemporaries(); }
      }
    }

    method LoadWithoutKeychain() returns (r: Result<Option<string>>)
      requires keychain.None?
      modifies this`keychain, this`marker, this`files, this`history, this`faults
      ensures old(history) <= history && MarkerKept(|old(history)|, old(marker))
      ensures Steady(|old(history)|, old(Shown()))
      ensures r.Ok? ==> old(Shown()) == LoadedView(r.value)
      ensures r.Ok? ==> AllGone() && faults == old(faults) && !old(Blocked())
      ensures r.Ok? && r.value.Some? ==> keychain.Some? && marker.Valid?
      ensures r.Ok? && r.value.None? ==> keychain.None? && marker == old(marker)
      ensures r.Failed? ==> faults > old(faults) || old(Blocked())
      ensures OthersKept(old(files))
    {
      var migrated := MarkerExists();
      if migrated.Failed? {
        r := Failed;
      } else if migrated.value {
        var ok := FinishMigrated();
        r := if ok then Ok(None) else Failed;
      } else {
        r := LoadLegacy();
      }
    }

    /** Whatever fails or crashes, every state on the way shows the same register, and a
        successful load returns it and leaves no legacy file.  A load without faults fails
        exactly when it is blocked. */
    method Load() returns (r: Result<Option<string>>)
      modifies this`keychain, this`marker, this`files, this`history, this`faults
      ensures old(history) <= history && MarkerKept(|old(history)|, old(marker))
      ensures Steady(|old(history)|, old(Shown()))
      ensures r.Ok? ==> old(Shown()) == LoadedView(r.value)
      ensures r.Ok? ==> AllGone() && faults == old(faults) && !old(Blocked())
      ensures r.Ok? && r.value.Some? ==> keychain.Some? && marker.Valid?
      ensures r.Ok? && r.value.None? ==> keychain.None? && marker == old(marker)
      ensures r.Failed? ==> faults > old(faults) || old(Blocked())
      ensures OthersKept(old(files))
    {
      var stored := KeychainLoad();
      if stored.Failed? {
        r := Failed;
      } else if stored.value.None? {
        r := LoadWithoutKeychain();
      } else {
        match SecretView(stored.value.value)
        case SignedIn(token) =>
          var ok := FinishFromKeychain();
          r := if ok then Ok(Some(token)) else Failed;
        case Unreadable => r := Failed;
      }
    }

    // -------------------------------------------------------------- save and clear

    /** The marker, the clean-up and one keychain write, which save and both clears share.
        Until the write the register shows what it did, or nobody if only a file said more. */
    method Replace(secret: Option<Content>) returns (ok: bool)
      modifies this`keychain, this`marker, this`files, this`history, this`faults
      ensures old(history) <= history && MarkerKept(|old(history)|, old(marker))
      ensures var next := ViewOf(Snapshot(secret, Valid, map[]), legacy);
              var views := {old(Shown()), next} + if old(keychain).None? then {Nobody} else {};
              Showed(|old(history)|, views) && Shown() in views
      ensures ok ==> keychain == secret && marker.Valid? && AllGone() && faults == old(faults)
      ensures !ok ==> faults > old(faults) || old(marker).Invalid? || old(AnyStuck())
      ensures OthersKept(old(files))
    {
      ok := RetireLegacy();
      if ok { ok := KeychainWrite(secret); }
    }

    method RetireLegacy() returns (ok: bool)
      modifies this`marker, this`files, this`history, this`faults
      ensures old(history) <= history && MarkerKept(|old(history)|, old(marker))
      ensures var views := {old(Shown())} + if keychain.None? then {Nobody} else {};
              Showed(|old(history)|, views) && Shown() in views
      ensures ok ==> marker.Valid? && faults == old(faults) && AllGone() && !old(marker).Invalid? && !old(AnyStuck())
      ensures !ok ==> faults > old(faults) || old(marker).Invalid? || old(AnyStuck())
      ensures OthersKept(old(files))
    {
      ok := EnsureMarker();
      if ok { ok := FinishMigrated(); }
    }

    method Save(token: string) returns (ok: bool)
      requires ValidToken(token)
      modifies this`keychain, this`marker, this`files, this`history, this`faults
      ensures old(history) <= history && MarkerKept(|old(history)|, old(marker))
      ensures ok ==> keychain == Some(Text(token)) && Shown() == SignedIn(token) && marker.Valid? && AllGone() && faults == old(faults)
      ensures !ok ==> faults > old(faults) || old(marker).Invalid? || old(AnyStuck())
      ensures OthersKept(old(files))
      ensures var views := {old(Shown()), SignedIn(token)} + if old(keychain).None? then {Nobody} else {};
              Showed(|old(history)|, views) && Shown() in views
    {
      ParseOfToken(token);
      ok := Replace(Some(Text(token)));
    }

    /** An interrupted clear leaves the old register or nobody. */
    method Clear() returns (ok: bool)
      modifies this`keychain, this`marker, this`files, this`history, this`faults
      ensures old(history) <= history && MarkerKept(|old(history)|, old(marker))
      ensures ok ==> keychain.None? && Shown() == Nobody && marker.Valid? && AllGone() && faults == old(faults)
      ensures !ok ==> faults > old(faults) || old(marker).Invalid? || old(AnyStuck())
      ensures OthersKept(old(files))
      ensures Showed(|old(history)|, {old(Shown()), Nobody}) && Shown() in {old(Shown()), Nobody}
    {
      ok := Replace(None);
    }

    method ClearKeychain() returns (r: Result<bool>)
      requires marker.Valid?
      modifies this`keychain, this`history, this`faults
      ensures old(history) <= history && MarkerKept(|old(history)|, old(marker))
      ensures Showed(|old(history)|, {old(Shown()), Nobody}) && Shown() in {old(Shown()), Nobody}
      ensures r.Ok? ==> r.value && keychain.None? && Shown() == Nobody && faults == old(faults)
      ensures r.Failed? ==> faults > old(faults)
    {
      var ok := KeychainWrite(None);
      r := if ok then Ok(true) else Failed;
    }

    /** The keychain holds something that is not a token. */
    predicate Garbled()
      reads this`keychain
    {
      keychain.Some? && SecretView(keychain.value).Unreadable?
    }

    method KeychainToken() returns (r: Result<Option<string>>)
      modifies this`faults
      ensures r.Ok? ==> (keychain.None? <==> r.value.None?)
      ensures r.Ok? ==> forall token :: ClearsFor(keychain, token) <==> r.value.None? || r.value.value == token
      ensures r.Ok? ==> faults == old(faults) && !Garbled()
      ensures r.Failed? ==> faults > old(faults) || Garbled()
    {
      var stored := KeychainLoad();
      if stored.Failed? { return Failed; }
      if stored.value.None? { return Ok(None); }
      match SecretView(stored.value.value)
      case SignedIn(token) => return Ok(Some(token));
      case Unreadable => return Failed;
    }

    method ClearUnless(kept: bool) returns (r: Result<bool>)
      requires marker.Valid?
      modifies this`keychain, this`history, this`faults
      ensures old(history) <= history && MarkerKept(|old(history)|, old(marker))
      ensures Showed(|old(history)|, {old(Shown()), Nobody}) && Shown() in {old(Shown()), Nobody}
      ensures r.Ok? ==> r.value == !kept && keychain == (if kept then old(keychain) else None) && faults == old(faults)
      ensures r.Ok? ==> Shown() == if kept then old(Shown()) else Nobody
      ensures r.Failed? ==> faults > old(faults)
    {
      if kept { r := Ok(false); } else { r := ClearKeychain(); }
    }

    method RetireAndClear(kept: bool) returns (r: Result<bool>)
      requires kept ==> keychain.Some?
      modifies this`keychain, this`marker, this`files, this`history, this`faults
      ensures old(history) <= history && MarkerKept(|old(history)|, old(marker))
      ensures Showed(|old(history)|, {old(Shown()), Nobody}) && Shown() in {old(Shown()), Nobody}
      ensures r.Ok? ==> r.value == !kept && keychain == (if kept then old(keychain) else None)
      ensures r.Ok? ==> Shown() == if kept then old(Shown()) else Nobody
      ensures r.Ok? ==> marker.Valid? && AllGone() && faults == old(faults)
      ensures r.Failed? ==> faults > old(faults) || old(marker).Invalid? || old(AnyStuck())
      ensures OthersKept(old(files))
    {
      var ok := RetireLegacy();
      if !ok { return Failed; }
      ghost var retired := history;
      r := ClearUnless(kept);
      JoinStretches(retired, history, |old(history)|, legacy, {old(Shown()), Nobody});
    }

    /** Clears unless the keychain holds another token.  Without a fault it fails only on an
        unreadable entry, an invalid marker or a legacy file that cannot be removed. */
    method ClearIfMatches(token: string) returns (r: Result<bool>)
      modifies this`keychain, this`marker, this`files, this`history, this`faults
      ensures old(history) <= history && MarkerKept(|old(history)|, old(marker))
      ensures Showed(|old(history)|, {old(Shown()), Nobody}) && Shown() in {old(Shown()), Nobody}
      ensures r.Ok? ==> (r.value <==> old(keychain).None? || SecretView(old(keychain).value) == SignedIn(token))
      ensures r.Ok? ==> keychain == (if r.value then None else old(keychain)) && Shown() == if r.value then Nobody else old(Shown())
      ensures r.Ok? ==> marker.Valid? && AllGone() && faults == old(faults) && !old(Garbled())
      ensures r.Failed? ==> faults > old(faults) || old(marker).Invalid? || old(Garbled()) || old(AnyStuck())
      ensures OthersKept(old(files))
    {
      var current := KeychainToken();
      if current.Failed? { return Failed; }
      assert ClearsFor(keychain, token) <==> current.value.None? || current.value.value == token;
      r := RetireAndClear(current.value.Some? && current.value.value != token);
    }

    /** Removes the legacy files without a marker. */
    method ClearLegacyFiles() returns (ok: bool)
      modifies this`files, this`history, this`faults
      ensures old(history) <= history && MarkerKept(|old(history)|, old(marker))
      ensures ok ==> (Shown() == old(Shown()) <==> old(Migrated()) || LegacyView(old(files), legacy) == Nobody)
      ensures old(Migrated()) ==> Steady(|old(history)|, old(Shown()))
      ensures ok ==> AllGone() && faults == old(faults) && !old(AnyStuck())
      ensures !ok ==> faults > old(faults) || old(AnyStuck())
      ensures OthersKept(old(files))
    {
      ok := CleanupLegacy();
      if ok && !Migrated() { AbsentShowsNobody(files, legacy); }
    }

    // -------------------------------------------------------------- any sequence of calls

    method Answer(call: Call)
      requires call.Saving? ==> ValidToken(call.token)
      modifies this`keychain, this`marker, this`files, this`history, this`faults
      ensures old(history) <= history && MarkerKept(|old(history)|, old(marker))
      ensures old(marker).Valid? ==> Shown() in Shows(old(Shown()), [call]) && Showed(|old(history)|, Shows(old(Shown()), [call]))
    {
      match call {
        case Loading => var r := Load();
        case Saving(token) =>
          assert call in [call];
          var ok := Save(token);
        case Clearing => var ok := Clear();
        case ClearingIf(token) => var r := ClearIfMatches(token);
        case ClearingFiles => var ok := ClearLegacyFiles();
      }
    }

    /** In no state from here on would other files have shown another register. */
    ghost predicate FilesIgnored(from: nat)
      reads this
    {
      && (forall others :: ViewOf(Now().(files := others), legacy) == Shown())
      && (forall i, others :: from <= i < |history| ==>
            ViewOf(history[i].(files := others), legacy) == ViewOf(history[i], legacy))
    }

    /** Once the marker is valid no sequence of calls, and no fault or crash in the middle of
        one, gives the legacy files a say again: the register shows what it showed, a token
        saved since, or nobody. */
    method FilesNeverMatter(calls: seq<Call>)
      requires marker.Valid? && forall c :: c in calls && c.Saving? ==> ValidToken(c.token)
      modifies this`keychain, this`marker, this`files, this`history, this`faults
      ensures old(history) <= history && MarkerKept(|old(history)|, old(marker)) && FilesIgnored(|old(history)|)
      ensures Shown() in Shows(old(Shown()), calls) && Showed(|old(history)|, Shows(old(Shown()), calls))
    {
      var i := 0;
      while i < |calls|
        invariant i <= |calls| && marker.Valid?
        invariant old(history) <= history && MarkerKept(|old(history)|, old(marker))
        invariant Shown() in Shows(old(Shown()), calls) && Showed(|old(history)|, Shows(old(Shown()), calls))
      {
        MoreShown(old(Shown()), Shown(), calls, i);
        Answer(calls[i]);
        i := i + 1;
      }
    }
  }

  lemma MoreShown(start: View, view: View, calls: seq<Call>, i: nat)
    requires i < |calls| && view in Shows(start, calls)
    ensures Shows(view, [calls[i]]) <= Shows(start, calls)
  {
    assert calls[i] in calls;
    forall c | c in [calls[i]]
      ensures c in calls
    {
    }
  }

  lemma {:induction false} AbsentShowsNobody(files: map<Path, Content>, legacy: seq<Path>)
    requires forall i :: 0 <= i < |legacy| ==> legacy[i] !in files
    ensures LegacyView(files, legacy) == Nobody
  {
    if legacy != [] { AbsentShowsNobody(files, legacy[1..]); }
  }

  /** The text is this token, with nothing but white space around it. */
  ghost predicate Names(text: string, token: string) {
    ValidToken(token) && exists before, after :: Surrounded(text, before, token, after)
  }

  /** This legacy file is the first that exists. */
  predicate FirstFile(files: map<Path, Content>, legacy: seq<Path>, i: nat) {
    i < |legacy| && legacy[i] in files && forall j :: 0 <= j < i ==> legacy[j] !in files
  }

  lemma {:induction false} FirstFileDecides(files: map<Path, Content>, legacy: seq<Path>, i: nat)
    requires FirstFile(files, legacy, i)
    ensures LegacyView(files, legacy) == FileView(files[legacy[i]])
  {
    if i > 0 { FirstFileDecides(files, legacy[1..], i - 1); }
  }

  lemma {:induction false} SomeFileDecides(files: map<Path, Content>, legacy: seq<Path>)
    requires LegacyView(files, legacy) != Nobody
    ensures exists i: nat :: FirstFile(files, legacy, i)
  {
    if legacy[0] in files {
      assert FirstFile(files, legacy, 0);
    } else {
      SomeFileDecides(files, legacy[1..]);
      var i: nat :| FirstFile(files, legacy[1..], i);
      assert forall j :: 1 <= j < |legacy| ==> legacy[j] == legacy[1..][j - 1];
      assert FirstFile(files, legacy, i + 1);
    }
  }

  /** Who is signed in: whoever the keychain entry names; without an entry and a marker whoever
      the first legacy file names, if it has at most 2561 bytes. */
  lemma RegisterReads(s: Snapshot, legacy: seq<Path>, token: string)
    ensures ViewOf(s, legacy) == SignedIn(token) <==>
              || (s.keychain.Some? && s.keychain.value.Text? && Names(s.keychain.value.text, token))
              || (s.keychain.None? && s.marker.Absent? && exists i: nat ::
                    && FirstFile(s.files, legacy, i) && s.files[legacy[i]].Text?
                    && Names(s.files[legacy[i]].text, token) && Utf8Length(s.files[legacy[i]].text) <= 2561)
  {
    if s.keychain.Some? {
      if s.keychain.value.Text? { ParseAccepts(s.keychain.value.text, token); }
    } else if s.marker.Absent? {
      LegacyReads(s.files, legacy, token);
    }
  }

  lemma LegacyReads(files: map<Path, Content>, legacy: seq<Path>, token: string)
    ensures LegacyView(files, legacy) == SignedIn(token) <==>
              exists i: nat :: FirstFile(files, legacy, i) && files[legacy[i]].Text?
                && Names(files[legacy[i]].text, token) && Utf8Length(files[legacy[i]].text) <= 2561
  {
    forall i: nat | FirstFile(files, legacy, i)
      ensures LegacyView(files, legacy) == FileView(files[legacy[i]])
      ensures files[legacy[i]].Text? ==> (Parse(files[legacy[i]].text) == Token(token) <==> Names(files[legacy[i]].text, token))
    {
      FirstFileDecides(files, legacy, i);
      if files[legacy[i]].Text? { ParseAccepts(files[legacy[i]].text, token); }
    }
    if LegacyView(files, legacy) != Nobody { SomeFileDecides(files, legacy); }
  }

  /** A conditional clear that goes through while somebody else is signed in. */
  predicate ClearsSomeoneElse(s: Snapshot, legacy: seq<Path>, token: string) {
    && ClearsFor(s.keychain, token) && !s.marker.Invalid?
    && ViewOf(s, legacy) != Nobody && ViewOf(s, legacy) != SignedIn(token)
  }

  /** That happens exactly when the one signed in is still in a legacy file. */
  lemma ConditionalClearMisses(s: Snapshot, legacy: seq<Path>, token: string)
    ensures ClearsSomeoneElse(s, legacy, token) <==>
              && s.keychain.None? && s.marker.Absent?
              && LegacyView(s.files, legacy) != Nobody && LegacyView(s.files, legacy) != SignedIn(token)
  {
  }

  /** It does happen: a legacy file with one token, a clear for another. */
  lemma ConditionalClearExample()
    ensures exists s, legacy, token :: ValidToken(token) && ClearsSomeoneElse(s, legacy, token)
  {
    var mine := seq(MIN_TOKEN_LENGTH, _ => 'a');
    var other := seq(MIN_TOKEN_LENGTH, _ => 'b');
    var s := Snapshot(None, Absent, map[0 := Text(mine)]);
    ParseOfToken(mine);
    AsciiLength(mine);
    assert FileView(Text(mine)) == SignedIn(mine) && mine[0] != other[0];
    assert LegacyView(s.files, [0]) == SignedIn(mine);
    assert ClearsSomeoneElse(s, [0], other);
  }
}
