/** The older profile tools, returning booleans and an optional profile, over
    "data/user_profile.json". `save_profile` does not create the data directory. */
module LegacyProfile {
  import opened Wrappers
  import opened Json
  import opened Schemas
  import opened ProfileFile

  class LegacyProfileStore {
    var dataDir: bool
    var file: FileState

    /** The store's invariant: a file only exists inside an existing data directory.
        The constructor establishes it and `SaveProfile` keeps it; the readers look
        only at the file and do not depend on it. */
    ghost predicate Valid()
      reads this
    {
      !file.Absent? ==> dataDir
    }

    constructor (dataDir: bool, file: FileState)
      requires !file.Absent? ==> dataDir
      ensures Valid() && this.dataDir == dataDir && this.file == file
    {
      this.dataDir := dataDir;
      this.file := file;
    }

    /** `check_profile_exists()`: true exactly when the file opens, decodes and
        validates; a missing, malformed or invalid file gives false. */
    method CheckProfileExists() returns (found: bool)
      ensures found <==> file.Parsed? && Validate(file.value).Some?
    {
      match file
      case Absent =>
        found := false;
      case Malformed =>
        found := false;
      case Parsed(data) =>
        var profile := Validate(data);
        found := profile.Some?;
    }

    /** `save_profile(data)`: false, with nothing written, for invalid data or a
        missing data directory; otherwise the file becomes the dump of the
        validated profile and the result is true. */
    method SaveProfile(data: Value) returns (ok: bool)
      requires Valid()
      modifies this
      ensures Valid() && dataDir == old(dataDir)
      ensures ok <==> Validate(data).Some? && dataDir
      ensures ok ==> file == Parsed(Dump(Validate(data).value))
      ensures !ok ==> file == old(file)
    {
      var profile := Validate(data);
      if profile.None? {
        return false;
      }
      if !dataDir {
        // open(..., "w") raises FileNotFoundError: there is no mkdir
        return false;
      }
      file := Parsed(Dump(profile.value));
      ok := true;
    }

    /** `load_profile()` as written: a missing file makes `open` raise, and an
        existing one reaches `json.loads(file)`, which is handed the file object
        instead of its text and raises; either error is swallowed. */
    method LoadProfile() returns (r: Option<UserProfile>)
      ensures r == None
    {
      if file.Absent? {
        return None;
      }
      // json.loads rejects a file object with TypeError, whatever the file holds
      r := None;
    }

    /** `load_profile()` with `json.load(file)`, as evidently intended: the validated
        profile of a file that decodes and validates, and `None` otherwise. */
    method LoadProfileIntended() returns (r: Option<UserProfile>)
      ensures file.Parsed? ==> r == Validate(file.value)
      ensures !file.Parsed? ==> r == None
    {
      match file
      case Absent =>
        r := None;
      case Malformed =>
        r := None;
      case Parsed(data) =>
        r := Validate(data);
    }
  }

  /** A successful save is seen by the check; the loader as written still returns
      `None`, while the intended loader returns the validated profile. */
  method SaveThenLoad(store: LegacyProfileStore, data: Value)
    returns (saved: bool, found: bool, asWritten: Option<UserProfile>, intended: Option<UserProfile>)
    requires store.Valid() && store.dataDir && Validate(data).Some?
    modifies store
    ensures saved && found
    ensures asWritten == None
    ensures intended == Validate(data)
  {
    saved := store.SaveProfile(data);
    RevalidateDump(data);
    found := store.CheckProfileExists();
    asWritten := store.LoadProfile();
    intended := store.LoadProfileIntended();
  }
}
