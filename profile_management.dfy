/** The profile tools: `check_profile_exists`, `save_profile` and `load_profile`
    over the one profile file under the data directory. Each returns a message;
    a reply datatype stands for each message, its `Text()` the literal string. */
module ProfileManagement {
  import opened Wrappers
  import opened Json
  import opened Schemas
  import opened ProfileFile

  /** The replies of `check_profile_exists`. */
  datatype CheckReply = NoProfile | EmptyProfile | ProfileValid | CorruptedProfile | ValidationFailed {
    /** The message; the exception text after "Profile validation failed: " is not modelled. */
    function Text(): string {
      match this
      case NoProfile => "No profile found. User needs to create a profile."
      case EmptyProfile => "Profile file is empty. User needs to create a profile."
      case ProfileValid => "Profile exists and is valid."
      case CorruptedProfile => "Profile file is corrupted. User needs to create a new profile."
      case ValidationFailed => "Profile validation failed: "
    }
  }

  /** The replies of `save_profile`. */
  datatype SaveReply = Saved | SaveFailed {
    /** The message; the exception text after "Failed to save profile: " is not modelled. */
    function Text(): string {
      match this
      case Saved => "Profile saved successfully."
      case SaveFailed => "Failed to save profile: "
    }
  }

  /** The replies of `load_profile`. `Loaded` carries the dumped profile that the
      tool returns as indented JSON text. */
  datatype LoadReply = NotFound | LoadCorrupted | Loaded(profile: Value) | LoadFailed {
    /** The message for the error replies; the exception text after
        "Failed to load profile: " is not modelled. */
    function Text(): string
      requires !Loaded?
    {
      match this
      case NotFound => "No profile found. Please create a profile first."
      case LoadCorrupted => "Profile file is corrupted. Please create a new profile."
      case LoadFailed => "Failed to load profile: "
    }
  }

  /** The reply `check_profile_exists` gives for each state of the file. */
  function CheckReplyFor(f: FileState): (r: CheckReply)
    ensures r == NoProfile <==> f.Absent?
    ensures r == CorruptedProfile <==> f.Malformed?
    ensures r == EmptyProfile <==> f.Parsed? && Falsy(f.value)
    ensures r == ProfileValid <==> f.Parsed? && Validate(f.value).Some?
  {
    match f
    case Absent => NoProfile
    case Malformed => CorruptedProfile
    case Parsed(data) =>
      if Falsy(data) then EmptyProfile
      else if Validate(data).Some? then ProfileValid
      else ValidationFailed
  }

  /** The reply `load_profile` gives for each state of the file. There is no check
      for an empty value: it fails validation like any other invalid value. What it
      loads validates to the same profile as the file. */
  function LoadReplyFor(f: FileState): (r: LoadReply)
    ensures r == NotFound <==> f.Absent?
    ensures r == LoadCorrupted <==> f.Malformed?
    ensures r.Loaded? <==> f.Parsed? && Validate(f.value).Some?
    ensures r.Loaded? ==> r.profile == Dump(Validate(f.value).value)
    ensures r.Loaded? ==> Validate(r.profile) == Validate(f.value)
  {
    match f
    case Absent => NotFound
    case Malformed => LoadCorrupted
    case Parsed(data) =>
      match Validate(data)
      case None => LoadFailed
      case Some(p) =>
        RevalidateDump(data);
        Loaded(Dump(p))
  }

  /** The store: whether the data directory exists, and the state of the profile
      file in it. */
  class ProfileStore {
    var dataDir: bool
    var file: FileState

    /** The store's invariant: a file only exists inside an existing data directory.
        The constructor establishes it and `SaveProfile` keeps it; the readers look
        only at the file and do not depend on it. */
    ghost predicate Valid()
      reads this
    {
      !file.Absent? ==> dataDir
    }

    constructor (dataDir: bool, file: FileState)
      requires !file.Absent? ==> dataDir
      ensures Valid() && this.dataDir == dataDir && this.file == file
    {
      this.dataDir := dataDir;
      this.file := file;
    }

    /** `check_profile_exists()`. */
    method CheckProfileExists() returns (r: CheckReply)
      ensures r == CheckReplyFor(file)
    {
      if file.Absent? {
        return NoProfile;
      }
      match file
      case Malformed =>
        r := CorruptedProfile;
      case Parsed(data) =>
        if Falsy(data) {
          r := EmptyProfile;
        } else {
          var profile := Validate(data);
          r := if profile.Some? then ProfileValid else ValidationFailed;
        }
    }

    /** `save_profile(data)`: validation comes first, so invalid data changes
        nothing, not even the directory; valid data creates the directory if needed
        and replaces the whole file with the dump of the validated profile. */
    method SaveProfile(data: Value) returns (r: SaveReply)
      requires Valid()
      modifies this
      ensures Valid()
      ensures r == Saved <==> Validate(data).Some?
      ensures r == SaveFailed ==> file == old(file) && dataDir == old(dataDir)
      ensures r == Saved ==> dataDir && file == Parsed(Dump(Validate(data).value))
    {
      var profile := Validate(data);
      if profile.None? {
        return SaveFailed;
      }
      dataDir := true;
      file := Parsed(Dump(profile.value));
      r := Saved;
    }

    /** `load_profile()`. */
    method LoadProfile() returns (r: LoadReply)
      ensures r == LoadReplyFor(file)
    {
      if file.Absent? {
        return NotFound;
      }
      match file
      case Malformed =>
        r := LoadCorrupted;
      case Parsed(data) =>
        var profile := Validate(data);
        match profile
        case None =>
          r := LoadFailed;
        case Some(p) =>
          RevalidateDump(data);
          r := Loaded(Dump(p));
    }
  }

  /** After saving valid data, checking reports a valid profile and loading returns
      the dump of the validated data, defaults filled in. */
  lemma SaveLoadRoundTrip(data: Value)
    requires Validate(data).Some?
    ensures CheckReplyFor(Parsed(Dump(Validate(data).value))) == ProfileValid
    ensures LoadReplyFor(Parsed(Dump(Validate(data).value))) == Loaded(Dump(Validate(data).value))
  {
    RevalidateDump(data);
  }

  /** A saved profile reads back as the profile that was saved. */
  method SaveThenLoad(store: ProfileStore, data: Value) returns (saved: SaveReply, checked: CheckReply, loaded: LoadReply)
    requires store.Valid() && Validate(data).Some?
    modifies store
    ensures saved == Saved && checked == ProfileValid
    ensures loaded == Loaded(Dump(Validate(data).value))
    ensures loaded.Loaded? && Validate(loaded.profile) == Validate(data)
  {
    saved := store.SaveProfile(data);
    SaveLoadRoundTrip(data);
    checked := store.CheckProfileExists();
    loaded := store.LoadProfile();
    RevalidateDump(data);
  }

  /** For an empty or falsy file, checking says the file is empty but loading
      reports a failed load. */
  lemma EmptyFileReplies(v: Value)
    requires Falsy(v)
    ensures CheckReplyFor(Parsed(v)) == EmptyProfile
    ensures LoadReplyFor(Parsed(v)) == LoadFailed
  {
  }

  /** The two readers agree on when a stored profile is usable. */
  lemma ReadersAgree(f: FileState)
    ensures CheckReplyFor(f) == ProfileValid <==> LoadReplyFor(f).Loaded?
  {
  }

  /** A profile whose holding follows a documented example of `save_profile` but not
      the schema: only `total_value` with "Index Fund", only a `quantity`, only a
      `total_value` and `notes`, or `current_holdings` set to null. */
  function DocumentedExample(f: map<string, Value>, which: nat): Value
    requires which < 4
  {
    var holding :=
      if which == 0 then
        JObject(map["security_type" := JString("Index Fund"), "ticker" := JString("SPY"),
                    "total_value" := JNumber(10000.0)])
      else if which == 1 then
        JObject(map["security_type" := JString("Stock"), "ticker" := JString("TSLA"),
                    "quantity" := JNumber(100.0)])
      else if which == 2 then
        JObject(map["security_type" := JString("Cryptocurrency"), "ticker" := JString("BTC"),
                    "total_value" := JNumber(5000.0), "notes" := JString("bought last year")])
      else JNull;
    JObject(f["current_holdings" := holding])
  }

  /** Whatever the other fields, saving a documented example fails and leaves the
      file as it was. */
  lemma DocumentedExamplesRejected(f: map<string, Value>, which: nat)
    requires which < 4
    ensures Validate(DocumentedExample(f, which)).None?
  {
    var v := DocumentedExample(f, which);
    assert v.fields["current_holdings"] == DocumentedExample(map[], which).fields["current_holdings"];
  }
}
