/** The gnomefavs program: what each action does to the host, and the
    object that runs it by updating the presets file and the live
    favourites in place. */
module Tool {
  import opened Dispatch
  import opened Presets

  /** What the program prints when an action completes. */
  datatype Output =
    | HelpText
    | Names(names: set<string>)  // `list_presets`: one line per key
    | Saved(name: string)
    | Loaded(name: string)
    | Removed(name: string)
    | Silent

  /** An action's effect and output, given the outcome of the function it runs. */
  function Reported(s: Step<()>, out: Output): Step<Output> {
    match s.result
    case Err(e) => Step(s.host, Err(e))
    case Ok(_) => Step(s.host, Ok(out))
  }

  /** What running `action` does to the host. Listing reads the file without
      running setup first. */
  function Execute(h: Host, action: Action): (s: Step<Output>)
    ensures action.Help? ==> s == Step(h, Ok(HelpText))
    ensures action.Nothing? ==> s == Step(h, Ok(Silent))
    ensures action.List? ==> s.host == h && (s.result.Ok? <==> ReadPresets(h).Ok?)
    ensures !action.Load? ==> s.host.live == h.live
    ensures s.result.Ok? && !action.Help? && !action.Nothing? ==> ReadPresets(s.host).Ok?
    ensures s.result.Ok? && action.Remove? ==> action.name !in ReadPresets(s.host).value
  {
    match action
    case Help => Step(h, Ok(HelpText))
    case List =>
      (match ReadPresets(h)
       case Err(e) => Step(h, Err(e))
       case Ok(m) => Step(h, Ok(Names(m.Keys))))
    case Save(k) => Reported(SavePreset(h, k), Saved(k))
    case Load(k) => Reported(LoadPreset(h, k), Loaded(k))
    case Remove(k) => Reported(RemovePreset(h, k), Removed(k))
    case Nothing => Step(h, Ok(Silent))
  }

  /** No arguments, or one argument other than `--list` (a name flag
      without its name included), prints help and changes nothing. */
  lemma HelpChangesNothing(h: Host, argv: seq<string>)
    requires |argv| == 0 || (|argv| == 1 && argv[0] != "--list")
    ensures Execute(h, ActionFor(argv)) == Step(h, Ok(HelpText))
  {
  }

  /** An unknown first argument followed by anything prints nothing at all
      and changes nothing. */
  lemma UnknownFlagIsSilent(h: Host, argv: seq<string>)
    requires |argv| >= 2 && argv[0] != "--list" && !IsNameFlag(argv[0])
    ensures Execute(h, ActionFor(argv)) == Step(h, Ok(Silent))
  {
  }

  /** `--list` never runs setup: it changes nothing, fails exactly when the
      file cannot be read (so a missing file is an error, not an empty
      listing), and otherwise reports exactly the stored names. */
  lemma ListDoesNotSetUp(h: Host, rest: seq<string>)
    ensures var s := Execute(h, ActionFor(["--list"] + rest));
      && s.host == h
      && (s.result.Err? <==> h.presetsFile != File || h.contents.None?)
      && (h.presetsFile == Nonexistent ==> s.result == Err(FileError))
      && (s.result.Ok? ==> s.result.value == Names(h.contents.value.Keys))
  {
  }

  /** Saving and removing never touch the live favourites, and every action
      keeps the host consistent. */
  lemma ExecuteFrame(h: Host, action: Action)
    requires Consistent(h)
    ensures Consistent(Execute(h, action).host)
    ensures !action.Load? ==> Execute(h, action).host.live == h.live
  {
  }

  /** No two printed lines are the same. */
  predicate NoDuplicates(s: seq<string>) {
    forall i, j :: 0 <= i < j < |s| ==> s[i] != s[j]
  }

  /** The program's state: the fields of `Host`, updated in place. */
  class PresetStore {
    var home: Option<PathType>
    var config: PathType
    var presetsDir: PathType
    var presetsFile: PathType
    var contents: Option<map<string, string>>
    var live: string
    var gsettingsOk: bool

    function State(): Host
      reads this
    {
      Host(home, config, presetsDir, presetsFile, contents, live, gsettingsOk)
    }

    predicate Valid()
      reads this
    {
      Consistent(State())
    }

    constructor (h: Host)
      ensures State() == h
    {
      home, config, presetsDir, presetsFile := h.home, h.config, h.presetsDir, h.presetsFile;
      contents, live, gsettingsOk := h.contents, h.live, h.gsettingsOk;
    }

    method MakeDir() returns (r: Result<()>)
      modifies this`presetsDir
      ensures Step(State(), r) == Presets.MakeDir(old(State()))
    {
      if config == Dir {
        presetsDir := Dir;
        r := Ok(());
      } else {
        r := Err(FileError);
      }
    }

    method WritePresets(m: map<string, string>) returns (r: Result<()>)
      modifies this`presetsFile, this`contents
      ensures Step(State(), r) == Presets.WritePresets(old(State()), m)
    {
      if presetsDir == Dir && presetsFile != Dir {
        presetsFile := File;
        contents := Some(m);
        r := Ok(());
      } else {
        r := Err(FileError);
      }
    }

    method CreatePresetsFile() returns (r: Result<()>)
      modifies this`presetsFile, this`contents
      ensures Step(State(), r) == Presets.CreatePresetsFile(old(State()))
    {
      r := WritePresets(map[]);
    }

    method CreateDirAndPresetsFile() returns (r: Result<()>)
      modifies this`presetsDir, this`presetsFile, this`contents
      ensures Step(State(), r) == Presets.CreateDirAndPresetsFile(old(State()))
    {
      r := Ok(());
      if presetsDir == Nonexistent {
        r := MakeDir();
        if r.Err? {
          return;
        }
      }
      if presetsFile == Nonexistent {
        r := CreatePresetsFile();
      }
    }

    method ValidatePaths() returns (r: Result<()>)
      modifies this`presetsDir, this`presetsFile, this`contents
      ensures Step(State(), r) == Presets.ValidatePaths(old(State()))
    {
      var homeIsDir := PathIsDir(home);
      if homeIsDir.Err? {
        r := Err(homeIsDir.error);
      } else if !homeIsDir.value {
        r := Err(HomeNotFound);
      } else if config != Dir {
        r := Err(ConfigNotFound);
      } else {
        r := CreateDirAndPresetsFile();
      }
    }

    method WritePreset(key: string, value: string) returns (r: Result<()>)
      modifies this`presetsFile, this`contents
      ensures Step(State(), r) == Presets.WritePreset(old(State()), key, value)
    {
      var presets := ReadPresets(State());
      if presets.Err? {
        r := Err(presets.error);
        return;
      }
      var m := presets.value;
      m := m[key := value];
      r := WritePresets(m);
    }

    method SetFavorites(favorites: string) returns (r: Result<()>)
      modifies this`live
      ensures Step(State(), r) == Presets.SetFavorites(old(State()), favorites)
    {
      if gsettingsOk {
        live := favorites;
        r := Ok(());
      } else {
        r := Err(CommandFailed);
      }
    }

    /** Saving never changes the live favourites: they are not in its frame. */
    method SavePreset(key: string) returns (r: Result<()>)
      modifies this`presetsDir, this`presetsFile, this`contents
      ensures Step(State(), r) == Presets.SavePreset(old(State()), key)
    {
      r := ValidatePaths();
      if r.Err? {
        return;
      }
      var favorites := GetFavorites(State());
      if favorites.Err? {
        r := Err(favorites.error);
        return;
      }
      r := WritePreset(key, favorites.value);
    }

    /** Loading never rewrites the presets file beyond setup. */
    method LoadPreset(key: string) returns (r: Result<()>)
      modifies this`presetsDir, this`presetsFile, this`contents, this`live
      ensures Step(State(), r) == Presets.LoadPreset(old(State()), key)
    {
      r := ValidatePaths();
      if r.Err? {
        return;
      }
      var presets := ReadPresets(State());
      if presets.Err? {
        r := Err(presets.error);
      } else if key in presets.value {
        r := SetFavorites(presets.value[key]);
      } else {
        r := Err(KeyNotFound);
      }
    }

    /** Removing never changes the live favourites: they are not in its frame. */
    method RemovePreset(key: string) returns (r: Result<()>)
      modifies this`presetsDir, this`presetsFile, this`contents
      ensures Step(State(), r) == Presets.RemovePreset(old(State()), key)
    {
      r := ValidatePaths();
      if r.Err? {
        return;
      }
      var presets := ReadPresets(State());
      if presets.Err? {
        r := Err(presets.error);
        return;
      }
      var m := presets.value;
      if key !in m {
        r := Err(KeyNotFound);
        return;
      }
      m := m - {key};
      r := WritePresets(m);
    }

    /** `list_presets`: the lines it prints, in the order the keys are met.
        It fails exactly as reading the file does; otherwise every stored
        name is printed once and nothing else is. */
    method ListPresets() returns (r: Result<seq<string>>)
      ensures r.Err? <==> ReadPresets(State()).Err?
      ensures r.Err? ==> r.error == ReadPresets(State()).error
      ensures r.Ok? ==> NoDuplicates(r.value)
      ensures r.Ok? ==> forall k :: k in r.value <==> k in ReadPresets(State()).value
      ensures r.Ok? ==> |r.value| == |ReadPresets(State()).value|
    {
      var presets := ReadPresets(State());
      if presets.Err? {
        return Err(presets.error);
      }
      var m := presets.value;
      var rest := m.Keys;
      var names: seq<string> := [];
      while rest != {}
        invariant rest <= m.Keys
        invariant forall k :: k in names <==> k in m && k !in rest
        invariant NoDuplicates(names)
        invariant |names| + |rest| == |m|
        decreases |rest|
      {
        var k :| k in rest;
        names := names + [k];
        rest := rest - {k};
      }
      r := Ok(names);
    }

    /** `main`: pick the action for `argv` and run it. */
    method Run(argv: seq<string>) returns (r: Result<Output>)
      requires Valid()
      modifies this`presetsDir, this`presetsFile, this`contents, this`live
      ensures Valid()
      ensures Step(State(), r) == Execute(old(State()), ActionFor(argv))
    {
      ExecuteFrame(State(), ActionFor(argv));
      var action := ActionFor(argv);
      match action {
        case Help =>
          r := Ok(HelpText);
        case List =>
          var names := ListPresets();
          if names.Err? {
            r := Err(names.error);
          } else {
            var printed := set k | k in names.value;
            assert printed == ReadPresets(State()).value.Keys;
            r := Ok(Names(printed));
          }
        case Save(k) =>
          var saved := SavePreset(k);
          r := if saved.Ok? then Ok(Saved(k)) else Err(saved.error);
        case Load(k) =>
          var loaded := LoadPreset(k);
          r := if loaded.Ok? then Ok(Loaded(k)) else Err(loaded.error);
        case Remove(k) =>
          var removed := RemovePreset(k);
          r := if removed.Ok? then Ok(Removed(k)) else Err(removed.error);
        case Nothing =>
          r := Ok(Silent);
      }
    }
  }
}
