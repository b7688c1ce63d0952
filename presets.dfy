/** The preset store of gnomefavs and the desktop settings it drives, as
    functions over one value, `Host`, that holds everything the program can
    observe or change: what kind of thing sits at each of its four paths,
    what the presets file holds, the live favourites list and whether the
    `gsettings` utility answers. Each function is one function of the
    program; it returns the new host and the outcome. */
module Presets {

  datatype Option<T> = None | Some(value: T)

  /** What `get_path_type` reports for a path. */
  datatype PathType = Nonexistent | File | Dir

  /** The exceptions the program lets escape. */
  datatype Error =
    | PathIsNone      // TypeError: HOME is unset, so the home path is None
    | HomeNotFound    // FileNotFoundError from the home directory check
    | ConfigNotFound  // FileNotFoundError from the config directory check
    | FileError       // OSError from mkdir or open: missing file, a directory where a file is expected, ...
    | Malformed       // the presets file does not hold a JSON object
    | KeyNotFound     // KeyError: the preset name is absent
    | CommandFailed   // CalledProcessError / missing gsettings

  datatype Result<T> = Ok(value: T) | Err(error: Error)

  datatype Host = Host(
    home: Option<PathType>,                 // $HOME; None when the variable is unset
    config: PathType,                       // $HOME/.config
    presetsDir: PathType,                   // $HOME/.config/gnomefavs
    presetsFile: PathType,                  // $HOME/.config/gnomefavs/gnomefavs.json
    contents: Option<map<string, string>>,  // the file's JSON object (string values); None when it is not an object
    live: string,                           // the favourites as `gsettings get` prints them, stripped
    gsettingsOk: bool)                      // whether `gsettings` runs and exits with status 0

  /** The host after an operation, and what the operation returned or raised. */
  datatype Step<T> = Step(host: Host, result: Result<T>)

  /** A path under something that is not a directory does not exist. The
      home path is not tied to the config path: an empty HOME is reported
      missing while `/.config` may still be a directory. */
  predicate Consistent(h: Host) {
    && (h.config != Dir ==> h.presetsDir == Nonexistent)
    && (h.presetsDir != Dir ==> h.presetsFile == Nonexistent)
  }

  /** `get_path_type` for a path that is not None: the directory test comes
      before the regular-file test, and a path that passes neither is
      reported as not existing. The rest of the model stores the answer this
      gives for each path, so this function stands alone to record the order
      of the two tests. */
  function GetPathType(isDir: bool, isFile: bool): (t: PathType)
    ensures t == Dir <==> isDir
    ensures t == File <==> !isDir && isFile
    ensures t == Nonexistent <==> !isDir && !isFile
  {
    if isDir then Dir else if isFile then File else Nonexistent
  }

  /** `path_is_dir`, which raises TypeError on a None path. */
  function PathIsDir(p: Option<PathType>): (r: Result<bool>)
    ensures r.Err? <==> p.None?
    ensures r.Err? ==> r.error == PathIsNone
    ensures r.Ok? ==> (r.value <==> p.value == Dir)
  {
    match p
    case None => Err(PathIsNone)
    case Some(t) => Ok(t == Dir)
  }

  /** `os.mkdir` of the presets directory: it fails unless its parent, the
      config directory, is a directory. */
  function MakeDir(h: Host): (s: Step<()>)
    ensures s.result.Ok? <==> h.config == Dir
    ensures s.result.Ok? ==> s.host.presetsDir == Dir
    ensures s.host.(presetsDir := h.presetsDir) == h
  {
    if h.config == Dir then Step(h.(presetsDir := Dir), Ok(()))
    else Step(h, Err(FileError))
  }

  /** `read_presets_to_dict`: open the file, parse it as a JSON object. */
  function ReadPresets(h: Host): (r: Result<map<string, string>>)
    ensures r.Ok? <==> h.presetsFile == File && h.contents.Some?
    ensures r.Ok? ==> r.value == h.contents.value
    ensures r.Err? && h.presetsFile != File ==> r.error == FileError
    ensures r.Err? && h.presetsFile == File ==> r.error == Malformed
  {
    if h.presetsFile != File then Err(FileError)
    else match h.contents
      case None => Err(Malformed)
      case Some(m) => Ok(m)
  }

  /** `write_presets`: open the file for writing (creating or truncating it)
      and dump the whole mapping. Opening fails when the presets directory is
      not a directory or the file path is one. */
  function WritePresets(h: Host, m: map<string, string>): (s: Step<()>)
    ensures s.result.Ok? <==> h.presetsDir == Dir && h.presetsFile != Dir
    ensures s.result.Ok? ==> ReadPresets(s.host) == Ok(m)
    ensures s.result.Err? ==> s.host == h
    ensures s.host.(presetsFile := h.presetsFile, contents := h.contents) == h
  {
    if h.presetsDir == Dir && h.presetsFile != Dir then
      Step(h.(presetsFile := File, contents := Some(m)), Ok(()))
    else
      Step(h, Err(FileError))
  }

  /** `create_presets_file`: write the text `{}`, the empty JSON object. */
  function CreatePresetsFile(h: Host): (s: Step<()>)
    ensures s.result.Ok? <==> h.presetsDir == Dir && h.presetsFile != Dir
    ensures s.result.Ok? ==> ReadPresets(s.host) == Ok(map[])
    ensures s.host.(presetsFile := h.presetsFile, contents := h.contents) == h
  {
    WritePresets(h, map[])
  }

  /** `create_gnomefavs_dir_and_presets_file`: make the directory if it is
      reported missing, then create the file if it is reported missing. */
  function CreateDirAndPresetsFile(h: Host): (s: Step<()>)
    ensures h.presetsDir != Nonexistent && h.presetsFile != Nonexistent ==> s == Step(h, Ok(()))
    ensures s.result.Ok? ==> s.host.presetsDir != Nonexistent && s.host.presetsFile != Nonexistent
    ensures s.result.Ok? && h.presetsFile == Nonexistent ==> ReadPresets(s.host) == Ok(map[])
    ensures s.host.(presetsDir := h.presetsDir, presetsFile := h.presetsFile, contents := h.contents) == h
  {
    var made := if h.presetsDir == Nonexistent then MakeDir(h) else Step(h, Ok(()));
    if made.result.Err? then made
    else if made.host.presetsFile == Nonexistent then CreatePresetsFile(made.host)
    else made
  }

  /** `validate_paths`: home check, then config check, then setup. */
  function ValidatePaths(h: Host): (s: Step<()>)
    ensures s.result.Ok? ==> h.home == Some(Dir) && h.config == Dir
    ensures s.result.Ok? ==> s.host.presetsDir != Nonexistent && s.host.presetsFile != Nonexistent
    ensures s.host.(presetsDir := h.presetsDir, presetsFile := h.presetsFile, contents := h.contents) == h
  {
    match PathIsDir(h.home)
    case Err(e) => Step(h, Err(e))
    case Ok(homeIsDir) =>
      if !homeIsDir then Step(h, Err(HomeNotFound))
      else if h.config != Dir then Step(h, Err(ConfigNotFound))
      else CreateDirAndPresetsFile(h)
  }

  /** `write_preset`: read the whole mapping, set one key, write it back. */
  function WritePreset(h: Host, key: string, value: string): (s: Step<()>)
    ensures s.result.Ok? ==> ReadPresets(h).Ok? && ReadPresets(s.host) == Ok(ReadPresets(h).value[key := value])
    ensures s.result.Err? ==> s.host == h
    ensures s.host.live == h.live
  {
    match ReadPresets(h)
    case Err(e) => Step(h, Err(e))
    case Ok(m) => WritePresets(h, m[key := value])
  }

  /** `get_gnome_favorites`. */
  function GetFavorites(h: Host): (r: Result<string>)
    ensures r.Ok? <==> h.gsettingsOk
    ensures r.Ok? ==> r.value == h.live
    ensures r.Err? ==> r.error == CommandFailed
  {
    if h.gsettingsOk then Ok(h.live) else Err(CommandFailed)
  }

  /** `set_gnome_favorites`: `str` of a string is the string itself, so the
      stored value is handed to `gsettings set` unchanged. */
  function SetFavorites(h: Host, favorites: string): (s: Step<()>)
    ensures s.result.Ok? <==> h.gsettingsOk
    ensures s.result.Ok? ==> s.host.live == favorites
    ensures s.result.Err? ==> s.host == h && s.result.error == CommandFailed
    ensures s.host.(live := h.live) == h
  {
    if h.gsettingsOk then Step(h.(live := favorites), Ok(()))
    else Step(h, Err(CommandFailed))
  }

  /** `save_preset`: setup, then the live favourites (fetched before the file
      is read, as the argument of `write_preset`), then the upsert. */
  function SavePreset(h: Host, key: string): (s: Step<()>)
    ensures s.result.Ok? ==>
      h.gsettingsOk && ReadPresets(s.host).Ok? &&
      key in ReadPresets(s.host).value && ReadPresets(s.host).value[key] == h.live
    ensures s.host.live == h.live
  {
    var v := ValidatePaths(h);
    if v.result.Err? then v
    else match GetFavorites(v.host)
      case Err(e) => Step(v.host, Err(e))
      case Ok(favorites) => WritePreset(v.host, key, favorites)
  }

  /** `load_preset`: setup, read, then apply the stored value or raise KeyError. */
  function LoadPreset(h: Host, key: string): (s: Step<()>)
    ensures s.result.Ok? ==>
      ReadPresets(s.host).Ok? && key in ReadPresets(s.host).value &&
      s.host.live == ReadPresets(s.host).value[key]
    ensures s.result.Err? ==> s.host.live == h.live
  {
    var v := ValidatePaths(h);
    if v.result.Err? then v
    else match ReadPresets(v.host)
      case Err(e) => Step(v.host, Err(e))
      case Ok(m) =>
        if key in m then SetFavorites(v.host, m[key])
        else Step(v.host, Err(KeyNotFound))
  }

  /** `remove_preset`: setup, read, `pop` (KeyError when absent), write back. */
  function RemovePreset(h: Host, key: string): (s: Step<()>)
    ensures s.result.Ok? ==> ReadPresets(s.host).Ok? && key !in ReadPresets(s.host).value
    ensures s.host.live == h.live
  {
    var v := ValidatePaths(h);
    if v.result.Err? then v
    else match ReadPresets(v.host)
      case Err(e) => Step(v.host, Err(e))
      case Ok(m) =>
        if key !in m then Step(v.host, Err(KeyNotFound))
        else WritePresets(v.host, m - {key})
  }

  /** The file and directory fields of two hosts agree. */
  predicate SameFiles(a: Host, b: Host) {
    a.presetsDir == b.presetsDir && a.presetsFile == b.presetsFile && a.contents == b.contents
  }

  // ---------------------------------------------------------------------
  // Setup

  /** The home check comes first, the config check second, and nothing is
      created unless both pass. */
  lemma ValidatePathsCheckOrder(h: Host)
    ensures h.home.None? ==> ValidatePaths(h) == Step(h, Err(PathIsNone))
    ensures h.home.Some? && h.home.value != Dir ==> ValidatePaths(h) == Step(h, Err(HomeNotFound))
    ensures h.home == Some(Dir) && h.config != Dir ==> ValidatePaths(h) == Step(h, Err(ConfigNotFound))
    ensures ValidatePaths(h).host != h ==> h.home == Some(Dir) && h.config == Dir
  {
  }

  /** Setup succeeds exactly when home and config are directories and the
      presets directory path is not taken by a regular file; afterwards the
      directory exists and the file path is taken, and only a file that was
      missing has been created, as an empty mapping. Nothing but the
      directory and file fields changes (see ValidatePathsFrame). */
  lemma ValidatePathsOutcome(h: Host)
    requires Consistent(h)
    ensures var s := ValidatePaths(h);
      && (s.result.Ok? <==> h.home == Some(Dir) && h.config == Dir && h.presetsDir != File)
      && (s.result.Ok? ==> s.host.presetsDir == Dir && s.host.presetsFile != Nonexistent)
      && (s.result.Ok? && h.presetsFile == Nonexistent ==>
            s.host.presetsFile == File && s.host.contents == Some(map[]))
  {
  }

  /** Existing presets are never cleared: when the presets file path is
      already taken, setup changes nothing. */
  lemma ValidatePathsKeepsExistingFile(h: Host)
    requires Consistent(h)
    requires h.presetsFile != Nonexistent
    ensures ValidatePaths(h).host == h
  {
  }

  /** Setup is idempotent: running it on its own result changes nothing and
      gives the same outcome. */
  lemma ValidatePathsIdempotent(h: Host)
    requires Consistent(h)
    ensures var s := ValidatePaths(h); ValidatePaths(s.host) == s
  {
  }

  /** Setup changes only the presets directory and file: the environment,
      the live favourites and the settings utility are left alone. */
  lemma ValidatePathsFrame(h: Host)
    ensures var s := ValidatePaths(h);
      s.host.(presetsDir := h.presetsDir, presetsFile := h.presetsFile, contents := h.contents) == h
  {
  }

  /** Setup keeps the host consistent. */
  lemma ValidatePathsConsistent(h: Host)
    requires Consistent(h)
    ensures Consistent(ValidatePaths(h).host)
  {
  }

  // ---------------------------------------------------------------------
  // The mapping operations

  /** Upsert: after `write_preset(k, v)` the mapping holds `k -> v`, every
      other entry is as before, and the live favourites are untouched. It
      fails exactly when the file cannot be read. */
  lemma WritePresetUpserts(h: Host, key: string, value: string)
    requires Consistent(h)
    ensures var s := WritePreset(h, key, value);
      && (s.result.Ok? <==> ReadPresets(h).Ok?)
      && (s.result.Err? ==> s.host == h && s.result.error == ReadPresets(h).error)
      && (s.result.Ok? ==>
            && ReadPresets(s.host).Ok?
            && key in ReadPresets(s.host).value && ReadPresets(s.host).value[key] == value
            && (forall j :: j != key ==>
                  (j in ReadPresets(s.host).value <==> j in ReadPresets(h).value)
                  && (j in ReadPresets(h).value ==> ReadPresets(s.host).value[j] == ReadPresets(h).value[j]))
            && s.host == h.(contents := Some(ReadPresets(h).value[key := value])))
  {
  }

  /** Remove: a missing name raises KeyError after setup and the mapping is
      not rewritten; a present name is the only entry that goes. The live
      favourites are never touched. */
  lemma RemovePresetDeletes(h: Host, key: string)
    requires Consistent(h)
    ensures var v := ValidatePaths(h); var s := RemovePreset(h, key);
      && s.host.live == h.live
      && (v.result.Ok? && ReadPresets(v.host).Ok? && key !in ReadPresets(v.host).value ==>
            s == Step(v.host, Err(KeyNotFound)))
      && (v.result.Ok? && ReadPresets(v.host).Ok? && key in ReadPresets(v.host).value ==>
            s.result.Ok? && ReadPresets(s.host) == Ok(ReadPresets(v.host).value - {key}))
  {
  }

  /** Load: a missing name raises KeyError and leaves the live favourites
      as they were; a present name sets them to the stored string verbatim.
      The presets file is never changed by a load beyond setup. */
  lemma LoadPresetApplies(h: Host, key: string)
    ensures var v := ValidatePaths(h); var s := LoadPreset(h, key);
      && SameFiles(s.host, v.host)
      && (v.result.Ok? && ReadPresets(v.host).Ok? && key !in ReadPresets(v.host).value ==>
            s.result == Err(KeyNotFound) && s.host.live == h.live)
      && (v.result.Ok? && ReadPresets(v.host).Ok? && key in ReadPresets(v.host).value && h.gsettingsOk ==>
            s.result.Ok? && s.host.live == ReadPresets(v.host).value[key])
  {
  }

  /** Replaying what `gsettings get` printed through `gsettings set` leaves
      the live favourites as they were. This follows from the model's
      assumption that `set` stores the string verbatim; GSettings' own
      parsing and normalisation of the value is not modelled. */
  lemma SetOfGetIsNoOp(h: Host)
    requires GetFavorites(h).Ok?
    ensures SetFavorites(h, GetFavorites(h).value) == Step(h, Ok(()))
  {
  }

  // ---------------------------------------------------------------------
  // Round trips between commands

  /** Save then load: whatever the live favourites have become since a
      successful save of `key`, loading `key` puts back exactly the
      favourites that were saved, and nothing else differs from the state
      right after the save. */
  lemma SaveThenLoad(h: Host, key: string, later: string)
    requires Consistent(h)
    requires SavePreset(h, key).result.Ok?
    ensures var saved := SavePreset(h, key).host;
      LoadPreset(saved.(live := later), key) == Step(saved, Ok(()))
  {
  }

  /** Save then remove: removing a name right after saving it succeeds and
      leaves the mapping as setup found it, minus that name. */
  lemma SaveThenRemove(h: Host, key: string)
    requires Consistent(h)
    requires SavePreset(h, key).result.Ok?
    ensures var v := ValidatePaths(h);
      var s := RemovePreset(SavePreset(h, key).host, key);
      && s.result.Ok?
      && ReadPresets(s.host) == Ok(ReadPresets(v.host).value - {key})
  {
    var v := ValidatePaths(h);
    ValidatePathsOutcome(h);
    ValidatePathsFrame(h);
    var saved := SavePreset(h, key).host;
    assert saved.presetsFile == File && saved.presetsDir == Dir;
    ValidatePathsKeepsExistingFile(saved);
    var m := ReadPresets(v.host).value;
    assert ReadPresets(saved) == Ok(m[key := h.live]);
    assert m[key := h.live] - {key} == m - {key};
  }

  /** Every command keeps the host consistent. */
  lemma CommandsConsistent(h: Host, key: string)
    requires Consistent(h)
    ensures Consistent(SavePreset(h, key).host)
    ensures Consistent(LoadPreset(h, key).host)
    ensures Consistent(RemovePreset(h, key).host)
  {
  }
}
