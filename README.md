# gnomefavs in Dafny

gnomefavs saves and restores the GNOME Shell "favorite apps" list as named
presets. The presets live in one JSON object, `~/.config/gnomefavs/gnomefavs.json`,
that maps a preset name to the favourites string exactly as `gsettings get
org.gnome.shell favorite-apps` printed it. The command line offers `--list`,
`-s/--save NAME`, `-l/--load NAME` and `-r/--remove NAME`.

The model has three modules:

- `Dispatch` (dispatch.dfy) is the argument table of `main`. It is a pure
  function `ActionFor` from the argument list to an `Action`: help, list,
  save, load, remove, or silent nothing.
- `Presets` (presets.dfy) describes everything the program can observe or
  change as one value, `Host`:
  - what `get_path_type` reports for `$HOME`, `$HOME/.config`, the presets
    directory and the presets file; `$HOME` may also be unset;
  - the file's JSON object, or none when the file holds something else;
  - the live favourites string;
  - whether `gsettings` runs successfully.

  Each Python function is a function from a `Host` to the new `Host` and its
  outcome (`Ok` or the exception it raises). The lemmas state what each
  operation promises and how the operations combine.
- `Tool` (tool.dfy) holds two things:
  - `Execute`, the effect and output of each action;
  - the class `PresetStore`, whose fields are those of `Host`. Its methods
    update the fields in place, following the Python functions statement by
    statement. Each method's `modifies` clause is its frame: save and remove
    cannot touch the live favourites. Each method's `ensures` ties its effect
    to the matching `Presets` function. `ListPresets` is the loop of
    `list_presets`. `Run` is `main`.

Help is printed only for an empty argument list or a single argument other
than `--list`. An unknown first argument followed by anything else runs
nothing and prints nothing (`Dispatch.ActionFor`, `Tool.UnknownFlagIsSilent`).

## Model

| member | source | states |
|---|---|---|
| `Dispatch.ActionFor` | gnomefavs.py:150-175 | for each action, exactly which argument lists select it: help iff the list is empty or is one argument other than `--list`; list iff the first argument is `--list`, whatever follows; save/load/remove iff there are at least two arguments and the first is that action's short or long flag, with the name taken from the second argument; nothing iff there are at least two arguments and the first is none of the flags |
| `Dispatch.IgnoresTrailingArguments` | gnomefavs.py:165-175 | arguments after the second never change the action |
| `Dispatch.TableQuirks` | gnomefavs.py:153-175 | a lone name flag gives help; `--list` followed by anything gives list; an unknown flag followed by any second argument and anything after it gives nothing |
| `Presets.GetPathType` | gnomefavs.py:23-34 | a path is reported as a directory iff `isdir` holds, as a file iff it is not a directory but `isfile` holds, and as nonexistent otherwise; the host stores this answer per path, so the function records the order of the two tests |
| `Presets.PathIsDir` | gnomefavs.py:23-38 | a None path raises TypeError, and only a None path does; otherwise the answer is true iff the path is a directory |
| `Presets.ReadPresets` | gnomefavs.py:73-75 | reading succeeds iff the file path is a regular file holding a JSON object, and then yields that object; a missing file or a directory is an OS error; any other content is malformed |
| `Presets.MakeDir` | gnomefavs.py:50-51 | `mkdir` succeeds iff the config directory is a directory, and then the presets directory exists; nothing else changes |
| `Presets.WritePresets` | gnomefavs.py:78-80 | writing succeeds iff the directory is a directory and the file path is not one; reading back afterwards yields exactly the written mapping; on failure nothing changes; only the file fields can change (partner: `Presets.WritePresetUpserts`) |
| `Presets.CreatePresetsFile` | gnomefavs.py:68-70 | on success, reading back yields the empty mapping; only the file fields can change |
| `Presets.CreateDirAndPresetsFile` | gnomefavs.py:49-54 | when the directory and file paths are both taken it changes nothing; on success both paths are taken; a file that was missing reads back as the empty mapping (partners: `Presets.ValidatePathsOutcome`, `Presets.ValidatePathsIdempotent`) |
| `Presets.ValidatePaths` | gnomefavs.py:57-65 | success implies home and config are directories and the presets directory and file paths are taken; only the directory and file fields can change (partners: `Presets.ValidatePathsCheckOrder`, `Presets.ValidatePathsOutcome`, `Presets.ValidatePathsIdempotent`) |
| `Presets.WritePreset` | gnomefavs.py:83-88 | on success the file was readable and now reads back as the old mapping with key set to value; on failure nothing changes; the live favourites never change (partner: `Presets.WritePresetUpserts`) |
| `Presets.GetFavorites` | gnomefavs.py:90-92 | succeeds iff `gsettings` runs, and then returns the live favourites; otherwise raises the command error (partner: `Presets.SetOfGetIsNoOp`) |
| `Presets.SetFavorites` | gnomefavs.py:95-97 | succeeds iff `gsettings` runs, and then the live favourites are the given string verbatim; on failure nothing changes; nothing but the live favourites changes (partner: `Presets.SetOfGetIsNoOp`) |
| `Presets.SavePreset` | gnomefavs.py:100-103 | on success the file reads back with the name mapped to the favourites live before the call; the live favourites never change (partners: `Presets.SaveThenLoad`, `Presets.SaveThenRemove`) |
| `Presets.LoadPreset` | gnomefavs.py:106-114 | on success the name is stored and the live favourites equal its stored value; on failure the live favourites are unchanged (partners: `Presets.LoadPresetApplies`, `Presets.SaveThenLoad`) |
| `Presets.RemovePreset` | gnomefavs.py:117-122 | on success the file reads back without the name; the live favourites never change (partners: `Presets.RemovePresetDeletes`, `Presets.SaveThenRemove`) |
| `Tool.Execute` | gnomefavs.py:150-175 | help and the silent fall-through change nothing; listing changes nothing and succeeds iff the file reads; only load can change the live favourites; a successful command leaves a readable file, and a successful remove leaves it without the name (partners: `Tool.HelpChangesNothing`, `Tool.UnknownFlagIsSilent`, `Tool.ListDoesNotSetUp`, `Tool.ExecuteFrame`) |
| `Presets.ValidatePathsCheckOrder` | gnomefavs.py:57-65 | unset HOME raises TypeError first; then a non-directory home raises the home error, whatever the config directory is; then the config check; on any of these errors nothing changes; the host changes only if both checks pass |
| `Presets.ValidatePathsOutcome` | gnomefavs.py:49-70 | setup succeeds iff home and config are directories and the presets directory path is not a regular file; afterwards the directory exists and the file path is taken; a file that was missing is created as an empty mapping |
| `Presets.ValidatePathsKeepsExistingFile` | gnomefavs.py:49-54 | when the presets file path is already taken, setup changes nothing, so existing presets are never cleared |
| `Presets.ValidatePathsIdempotent` | gnomefavs.py:49-70 | running setup on the result of setup changes nothing and gives the same outcome |
| `Presets.ValidatePathsFrame` | gnomefavs.py:49-70 | setup changes only the presets directory, the presets file and its contents |
| `Presets.ValidatePathsConsistent` | gnomefavs.py:49-70 | setup never creates a path under something that is not a directory |
| `Presets.WritePresetUpserts` | gnomefavs.py:83-88 | upsert fails iff the file cannot be read, and then changes nothing; on success the mapping holds key to value, every other key keeps its presence and value, and nothing but the file contents changes |
| `Presets.RemovePresetDeletes` | gnomefavs.py:117-122 | after setup, an absent name raises KeyError and the file is not rewritten; a present name is the only entry removed; the live favourites never change |
| `Presets.LoadPresetApplies` | gnomefavs.py:106-114 | after setup, an absent name raises KeyError and leaves the live favourites as they were; a present name sets them to the stored string verbatim; the file is never changed beyond setup |
| `Presets.SetOfGetIsNoOp` | gnomefavs.py:90-97 | setting the favourites to what `gsettings get` returned leaves the host unchanged |
| `Presets.SaveThenLoad` | gnomefavs.py:100-114 | after a successful save, whatever the live favourites become, loading the same name restores exactly the saved favourites and the state right after the save |
| `Presets.SaveThenRemove` | gnomefavs.py:100-122 | removing a name right after saving it succeeds and leaves the mapping that setup found, minus that name |
| `Presets.CommandsConsistent` | gnomefavs.py:100-122 | save, load and remove never create a path under something that is not a directory |
| `Tool.HelpChangesNothing` | gnomefavs.py:150-163 | an empty argument list, or one argument other than `--list`, prints help and changes neither the file nor the live favourites |
| `Tool.UnknownFlagIsSilent` | gnomefavs.py:165-175 | an unknown first argument followed by more arguments prints nothing and changes nothing |
| `Tool.ListDoesNotSetUp` | gnomefavs.py:125-128 | `--list` changes nothing and runs no setup: a missing file is an error rather than an empty listing; it fails iff the file cannot be read, and otherwise reports exactly the stored names |
| `Tool.ExecuteFrame` | gnomefavs.py:150-175 | every action keeps paths consistent; only load can change the live favourites |
| `Tool.PresetStore.MakeDir` | gnomefavs.py:50-51 | `mkdir` creates the presets directory iff the config directory is a directory, and otherwise raises |
| `Tool.PresetStore.WritePresets` | gnomefavs.py:78-80 | the file becomes a regular file holding exactly the given mapping, unless the directory is not a directory or the file path is a directory; only the file fields change |
| `Tool.PresetStore.CreatePresetsFile` | gnomefavs.py:68-70 | the file is written as the empty mapping |
| `Tool.PresetStore.CreateDirAndPresetsFile` | gnomefavs.py:49-54 | the directory is made only if it is missing, then the file only if it is missing |
| `Tool.PresetStore.ValidatePaths` | gnomefavs.py:57-65 | the new state and the outcome are those of `Presets.ValidatePaths`, which the lemmas above characterise |
| `Tool.PresetStore.WritePreset` | gnomefavs.py:83-88 | the new file contents are the old mapping with key set to value; only the file fields are in the frame |
| `Tool.PresetStore.SetFavorites` | gnomefavs.py:95-97 | the live favourites become the given string verbatim when `gsettings` succeeds; only `live` is in the frame |
| `Tool.PresetStore.SavePreset` | gnomefavs.py:100-103 | setup, then fetch the favourites, then upsert them; the live favourites are outside the frame |
| `Tool.PresetStore.LoadPreset` | gnomefavs.py:106-114 | setup, read, then apply the stored value or raise KeyError |
| `Tool.PresetStore.RemovePreset` | gnomefavs.py:117-122 | setup, read, then drop the name or raise KeyError; the live favourites are outside the frame |
| `Tool.PresetStore.ListPresets` | gnomefavs.py:125-128 | fails exactly as reading the file does; otherwise prints every stored name exactly once and nothing else, one line per key, and changes nothing |
| `Tool.PresetStore.Run` | gnomefavs.py:150-175 | runs the action `ActionFor` picks; the new state and output are those of `Execute`; the paths stay consistent |

## Left out

- `run_bash_command`, `get_gnome_favorites` and `set_gnome_favorites` are not run. The live favourites are a string field, and whether `gsettings` succeeds is a boolean field.
- SetFavorites: stores the string verbatim and assumes `gsettings set` accepts any stored string. A value `gsettings` cannot parse would make the real command fail. GSettings' own normalisation of the value is not modelled either.
- JSON parsing and serialisation are not modelled. The file holds either a mapping from string to string or "not a JSON object", which raises the malformed error. Non-string values that a hand-edited file might hold are not modelled; `str()` would render them.
- Paths are abstracted to what `get_path_type` reports for them. Special files (sockets, FIFOs, dangling symlinks) are reported as nonexistent by the source, and their later effect on `open` is not modelled. Permission errors are not modelled either.
- The `HOME` lookup and the path constants, the help text and the confirmation messages are not modelled. The printed output is only the `Output` value. `sys.argv` slicing is left out too.
- ListPresets: the map is unordered, so the printed order is any order. Python prints keys in insertion order.
- Concurrent invocations and last-writer-wins on the presets file are not modelled; the source has no locking.
