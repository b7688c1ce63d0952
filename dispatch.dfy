/** The command-line decision table of gnomefavs: which action an argument
    list (the process arguments without the program name) selects. */
module Dispatch {

  /** The six outcomes of the table. `Nothing` is the silent fall-through:
      no action is run and no help text is printed. */
  datatype Action =
    | Help
    | List
    | Save(name: string)
    | Load(name: string)
    | Remove(name: string)
    | Nothing

  predicate IsSaveFlag(flag: string) { flag == "-s" || flag == "--save" }

  predicate IsLoadFlag(flag: string) { flag == "-l" || flag == "--load" }

  predicate IsRemoveFlag(flag: string) { flag == "-r" || flag == "--remove" }

  /** A flag that takes a preset name as the second argument. */
  predicate IsNameFlag(flag: string) { IsSaveFlag(flag) || IsLoadFlag(flag) || IsRemoveFlag(flag) }

  /** The action `main` runs for `argv`. The tests are made in `main`'s
      order: empty list, then `--list`, then "fewer than two", then the flags. */
  function ActionFor(argv: seq<string>): (a: Action)
    ensures a.Help? <==> |argv| == 0 || (|argv| == 1 && argv[0] != "--list")
    ensures a.List? <==> |argv| >= 1 && argv[0] == "--list"
    ensures a.Save? <==> |argv| >= 2 && IsSaveFlag(argv[0])
    ensures a.Load? <==> |argv| >= 2 && IsLoadFlag(argv[0])
    ensures a.Remove? <==> |argv| >= 2 && IsRemoveFlag(argv[0])
    ensures a.Nothing? <==> |argv| >= 2 && argv[0] != "--list" && !IsNameFlag(argv[0])
    ensures (a.Save? || a.Load? || a.Remove?) ==> a.name == argv[1]
  {
    if |argv| < 1 then Help
    else if argv[0] == "--list" then List
    else if |argv| < 2 then Help
    else if IsSaveFlag(argv[0]) then Save(argv[1])
    else if IsLoadFlag(argv[0]) then Load(argv[1])
    else if IsRemoveFlag(argv[0]) then Remove(argv[1])
    else Nothing
  }

  /** Only the first two arguments are ever looked at. */
  lemma IgnoresTrailingArguments(argv: seq<string>, extra: seq<string>)
    requires |argv| >= 2
    ensures ActionFor(argv + extra) == ActionFor(argv[..2])
  {
  }

  /** A name flag given alone falls back to help, and `--list` wins over
      whatever follows it, even a name flag. */
  lemma TableQuirks(flag: string, name: string, rest: seq<string>)
    ensures IsNameFlag(flag) ==> ActionFor([flag]) == Help
    ensures ActionFor(["--list"] + rest) == List
    ensures flag != "--list" && !IsNameFlag(flag) ==> ActionFor([flag, name] + rest) == Nothing
  {
  }
}
