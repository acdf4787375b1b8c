/** The command line: the flags the program defines, how the flag package
    fills them, and the choice between serving, rendering a directory and
    rendering a single file. */
module Cli {
  import opened Common
  import opened Paths
  import FsModel
  import Os
  import Config
  import Containers
  import ComposeTemplate

  /** The configuration file the program loads at start-up. */
  const ConfigFile: string := "config.yml"

  // ---------------------------------------------------------------------
  // Flags

  /** The three flag variables; "-d", "-f" and "-h" are second names for
      "-dir", "-file" and "-help" and share their variables. */
  datatype Flags = Flags(dir: string, file: string, help: bool)

  const NoFlags: Flags := Flags("", "", false)

  datatype Variable = DirVar | FileVar | HelpVar

  function Lookup(name: string): (v: Option<Variable>)
    ensures v == Some(DirVar) <==> name == "dir" || name == "d"
    ensures v == Some(FileVar) <==> name == "file" || name == "f"
    ensures v == Some(HelpVar) <==> name == "help" || name == "h"
  {
    if name == "dir" || name == "d" then Some(DirVar)
    else if name == "file" || name == "f" then Some(FileVar)
    else if name == "help" || name == "h" then Some(HelpVar)
    else None
  }

  /** strconv.ParseBool. */
  function ParseBool(s: string): Option<bool> {
    if s in ["1", "t", "T", "TRUE", "true", "True"] then Some(true)
    else if s in ["0", "f", "F", "FALSE", "false", "False"] then Some(false)
    else None
  }

  /** A flag's text split at its first '=' into the name and the value. */
  function SplitFlag(s: string): (r: (string, Option<string>))
    ensures '=' !in r.0
    ensures r.1.None? ==> r.0 == s
    ensures r.1.Some? ==> s == r.0 + "=" + r.1.value
  {
    if s == [] then ([], None)
    else if s[0] == '=' then ([], Some(s[1..]))
    else
      var (name, value) := SplitFlag(s[1..]);
      ([s[0]] + name, value)
  }

  /** One step of the flag package's loop over the arguments. */
  datatype Step = Stop | Next(rest: seq<string>, flags: Flags) | Bad(flag: string)

  function Assign(f: Flags, v: Variable, value: string): Flags
    requires v != HelpVar
  {
    if v == DirVar then f.(dir := value) else f.(file := value)
  }

  /** flag.FlagSet.parseOne: parsing stops at the first argument that is not
      a flag and after "--"; a string flag takes the text after '=' or else
      the next argument; a bool flag takes the text after '=' or is set. */
  function ParseOne(args: seq<string>, f: Flags): (r: Step)
    ensures r.Next? ==> |r.rest| < |args|
  {
    if args == [] then Stop
    else
      var s := args[0];
      if |s| < 2 || s[0] != '-' || s == "--" then Stop
      else
        var body := if s[1] == '-' then s[2..] else s[1..];
        if body == "" || body[0] == '-' || body[0] == '=' then Bad(s)
        else
          var (name, value) := SplitFlag(body);
          match Lookup(name)
          case None => Bad(name)
          case Some(HelpVar) =>
            if value.None? then Next(args[1..], f.(help := true))
            else if ParseBool(value.value).None? then Bad(name)
            else Next(args[1..], f.(help := ParseBool(value.value).value))
          case Some(v) =>
            if value.Some? then Next(args[1..], Assign(f, v, value.value))
            else if |args| >= 2 then Next(args[2..], Assign(f, v, args[1]))
            else Bad(name)
  }

  /** flag.Parse: steps until parsing stops; a bad flag ends the process. */
  function ParseFlags(args: seq<string>, f: Flags): (r: Result<Flags>)
    ensures !r.Fail?
    decreases |args|
  {
    match ParseOne(args, f)
    case Stop => Ok(f)
    case Bad(x) => Abort(BadFlag(x))
    case Next(rest, g) => ParseFlags(rest, g)
  }

  /** parseCommandLineArgs: the directory and the file asked for, both empty
      when help is asked for. */
  function CommandLine(args: seq<string>): (r: Result<(string, string)>)
    ensures !r.Fail?
  {
    var parsed := ParseFlags(args, NoFlags);
    if parsed.Ok? then Ok(if parsed.value.help then ("", "") else (parsed.value.dir, parsed.value.file))
    else Abort(parsed.fault)
  }

  /** parseCommandLineArgs, with flag.Parse's loop filling the variables. */
  method ParseCommandLineArgs(args: seq<string>) returns (r: Result<(string, string)>)
    ensures r == CommandLine(args)
  {
    var dir, file, help := "", "", false;
    var rest := args;
    while true
      invariant ParseFlags(rest, Flags(dir, file, help)) == ParseFlags(args, NoFlags)
      decreases |rest|
    {
      var step := ParseOne(rest, Flags(dir, file, help));
      match step
      case Stop =>
        break;
      case Bad(x) =>
        return Abort(BadFlag(x));
      case Next(next, g) =>
        rest := next;
        dir, file, help := g.dir, g.file, g.help;
    }
    if help {
      return Ok(("", ""));
    }
    return Ok((dir, file));
  }

  /** After an argument that is not a flag, nothing more is parsed. */
  lemma StopsAtPositional(args: seq<string>, f: Flags)
    requires args != [] && (|args[0]| < 2 || args[0][0] != '-' || args[0] == "--")
    ensures ParseFlags(args, f) == Ok(f)
  {
  }

  /** The short and the long name of a flag, with one dash or two, with the
      value attached or following, all set the same variable. */
  lemma SpellingsAgree(short: string, long: string, x: string, rest: seq<string>, f: Flags)
    requires (short, long) in [("d", "dir"), ("f", "file")]
    ensures ParseFlags(["-" + short, x] + rest, f) == ParseFlags(["-" + long, x] + rest, f)
    ensures ParseFlags(["-" + short, x] + rest, f) == ParseFlags(["--" + long + "=" + x] + rest, f)
    ensures ParseFlags(["-" + short, x] + rest, f) == ParseFlags(["-" + short + "=" + x] + rest, f)
  {
    var v := if short == "d" then DirVar else FileVar;
    assert Lookup(short) == Some(v) && Lookup(long) == Some(v);
    SeparateValue("-" + short, short, v, x, rest, f);
    SeparateValue("-" + long, long, v, x, rest, f);
    AttachedValue("--" + long + "=" + x, long, v, x, rest, f);
    AttachedValue("-" + short + "=" + x, short, v, x, rest, f);
  }

  /** A string flag followed by its value as the next argument. */
  lemma SeparateValue(s: string, name: string, v: Variable, x: string, rest: seq<string>, f: Flags)
    requires s == "-" + name || s == "--" + name
    requires name != "" && name[0] != '-' && '=' !in name
    requires Lookup(name) == Some(v) && v != HelpVar
    ensures ParseFlags([s, x] + rest, f) == ParseFlags(rest, Assign(f, v, x))
  {
    var args := [s, x] + rest;
    assert args[0] == s && args[1] == x && args[2..] == rest;
    assert s[1] == '-' ==> s[2..] == name;
    assert s[1] != '-' ==> s[1..] == name;
    SplitNoEquals(name);
    assert ParseOne(args, f) == Next(rest, Assign(f, v, x));
  }

  /** A string flag with its value attached after '='. */
  lemma AttachedValue(s: string, name: string, v: Variable, x: string, rest: seq<string>, f: Flags)
    requires s == "-" + name + "=" + x || s == "--" + name + "=" + x
    requires name != "" && name[0] != '-' && '=' !in name
    requires Lookup(name) == Some(v) && v != HelpVar
    ensures ParseFlags([s] + rest, f) == ParseFlags(rest, Assign(f, v, x))
  {
    var args := [s] + rest;
    assert args[0] == s && args[1..] == rest;
    assert s[1] == '-' ==> s[2..] == name + "=" + x;
    assert s[1] != '-' ==> s[1..] == name + "=" + x;
    SplitFirstEquals(name, x);
    assert ParseOne(args, f) == Next(rest, Assign(f, v, x));
  }

  lemma {:induction false} SplitNoEquals(name: string)
    requires '=' !in name
    ensures SplitFlag(name) == (name, None)
    decreases |name|
  {
    if name != [] {
      SplitNoEquals(name[1..]);
      assert [name[0]] + name[1..] == name;
    }
  }

  lemma {:induction false} SplitFirstEquals(name: string, value: string)
    requires '=' !in name
    ensures SplitFlag(name + "=" + value) == (name, Some(value))
    decreases |name|
  {
    var s := name + "=" + value;
    if name == [] {
      assert s[0] == '=' && s[1..] == value;
    } else {
      assert s[1..] == name[1..] + "=" + value;
      SplitFirstEquals(name[1..], value);
      assert [name[0]] + name[1..] == name;
    }
  }

  /** `s` is one of the four spellings of a string flag naming `v`: its
      short or long name after one dash or two. */
  predicate Spells(s: string, name: string, v: Variable) {
    && (s == "-" + name || s == "--" + name)
    && name in ["d", "dir", "f", "file"] && Lookup(name) == Some(v)
  }

  /** A later setting of a variable replaces an earlier one, whichever
      spellings the two settings use. */
  lemma LaterFlagWins(first: string, n1: string, second: string, n2: string, v: Variable,
                      a: string, b: string, rest: seq<string>, f: Flags)
    requires Spells(first, n1, v) && Spells(second, n2, v)
    ensures v != HelpVar
    ensures ParseFlags([first, a, second, b] + rest, f) == ParseFlags(rest, Assign(f, v, b))
  {
    var tail := [second, b] + rest;
    assert [first, a, second, b] + rest == [first, a] + tail;
    SeparateValue(first, n1, v, a, tail, f);
    SeparateValue(second, n2, v, b, rest, Assign(f, v, a));
  }

  /** Asking for help gives an empty directory and file, whatever else is
      given. */
  lemma HelpClearsBoth(args: seq<string>)
    requires ParseFlags(args, NoFlags).Ok? && ParseFlags(args, NoFlags).value.help
    ensures CommandLine(args) == Ok(("", ""))
  {
  }

  // ---------------------------------------------------------------------
  // Mode selection

  datatype Mode = Server | Directory(dir: string) | SingleFile(file: string) | Unrecognized

  /** main's dispatch: no arguments at all serve; otherwise a directory
      takes precedence over a file, and neither is fatal. */
  function SelectMode(argCount: nat, dir: string, file: string): (m: Mode)
    ensures m == Server <==> argCount == 1
    ensures argCount != 1 && dir != "" ==> m == Directory(dir)
    ensures m.SingleFile? <==> argCount != 1 && dir == "" && file != ""
    ensures m.SingleFile? ==> m.file == file
    ensures m == Unrecognized <==> argCount != 1 && dir == "" && file == ""
  {
    if argCount == 1 then Server
    else if dir != "" then Directory(dir)
    else if file != "" then SingleFile(file)
    else Unrecognized
  }

  /** The mode os.Args selects, after flag parsing. */
  function ModeOf(osArgs: seq<string>): Result<Mode>
    requires |osArgs| >= 1
  {
    var cl := CommandLine(osArgs[1..]);
    if cl.Ok? then Ok(SelectMode(|osArgs|, cl.value.0, cl.value.1)) else Abort(cl.fault)
  }

  /** "-h" with the help printed falls through to the fatal branch. */
  lemma HelpIsUnknownArguments(program: string)
    ensures ModeOf([program, "-h"]) == Ok(Unrecognized)
    ensures ModeOf([program, "-help"]) == Ok(Unrecognized)
  {
    assert [program, "-h"][1..] == ["-h"];
    assert ["-h"][1..] == [];
    assert "-h"[1..] == "h";
    SplitNoEquals("h");
    assert [program, "-help"][1..] == ["-help"];
    assert ["-help"][1..] == [];
    assert "-help"[1..] == "help";
    SplitNoEquals("help");
  }

  /** With both given, the directory is rendered and the file is ignored. */
  lemma DirectoryBeforeFile(program: string, dir: string, file: string)
    requires dir != ""
    ensures ModeOf([program, "-f", file, "-d", dir]) == Ok(Directory(dir))
  {
    var args := ["-f", file, "-d", dir];
    assert [program, "-f", file, "-d", dir][1..] == args;
    assert args[2..] == ["-d", dir] && ["-d", dir][2..] == [];
    assert "-f"[1..] == "f" && "-d"[1..] == "d";
    SplitNoEquals("f");
    SplitNoEquals("d");
    assert ParseOne(args, NoFlags) == Next(["-d", dir], NoFlags.(file := file));
    assert ParseOne(["-d", dir], NoFlags.(file := file)) == Next([], Flags(dir, file, false));
    assert ParseFlags([], Flags(dir, file, false)) == Ok(Flags(dir, file, false));
    assert ParseFlags(["-d", dir], NoFlags.(file := file)) == Ok(Flags(dir, file, false));
    assert ParseFlags(args, NoFlags) == Ok(Flags(dir, file, false));
  }

  // ---------------------------------------------------------------------
  // Single-file output

  /** The string with its trailing slashes removed. */
  function TrimTrailingSlashes(s: string): (r: string)
    ensures |r| <= |s| && r == s[..|r|]
    ensures forall i :: |r| <= i < |s| ==> s[i] == '/'
    ensures r == [] || r[|r| - 1] != '/'
  {
    if s == [] || s[|s| - 1] != '/' then s else TrimTrailingSlashes(s[..|s| - 1])
  }

  /** The text after the last slash: a suffix without slashes that is the
      whole string or follows a slash. */
  function LastElement(s: string): (r: string)
    ensures '/' !in r
    ensures |r| <= |s| && r == s[|s| - |r|..]
    ensures |r| == |s| || s[|s| - |r| - 1] == '/'
  {
    if s == [] || s[|s| - 1] == '/' then []
    else
      var t := s[..|s| - 1];
      var r := LastElement(t) + [s[|s| - 1]];
      assert s[|s| - |r|..] == t[|t| - |r| + 1..] + [s[|s| - 1]];
      r
  }

  /** filepath.Base: "." for the empty string, "/" for a string of slashes,
      and otherwise the last element once trailing slashes are removed. */
  function BaseName(s: string): (r: string)
    ensures r != ""
    ensures s == "" ==> r == "."
    ensures s != "" && TrimTrailingSlashes(s) == "" ==> r == "/"
    ensures var t := TrimTrailingSlashes(s);
      t != "" ==> '/' !in r && |r| <= |t| && r == t[|t| - |r|..] && (|r| == |t| || t[|t| - |r| - 1] == '/')
  {
    if s == "" then "."
    else
      var t := TrimTrailingSlashes(s);
      if t == "" then "/" else LastElement(t)
  }

  /** The path single-file mode writes: the output directory joined with the
      input's base name. */
  function SingleFileOutput(outputDir: string, file: string): Path {
    JoinString(ParsePath(outputDir), BaseName(file))
  }

  /** For a file named by a plain name after any directory part, the output
      is that name directly in the output directory. */
  lemma SingleFileOutputPlain(outputDir: string, dirPart: string, name: string)
    requires PlainName(name)
    ensures BaseName(dirPart + "/" + name) == name && BaseName(name) == name
    ensures SingleFileOutput(outputDir, dirPart + "/" + name) == Extend(ParsePath(outputDir), [name])
    ensures Extend(ParsePath(outputDir), [name]) == Child(ParsePath(outputDir), name)
  {
    var file := dirPart + "/" + name;
    EndsInName(dirPart, name);
    BaseNameOfPlain(file, name);
    BaseNameOfPlain(name, name);
    JoinPlain(ParsePath(outputDir), name);
  }

  lemma EndsInName(dirPart: string, name: string)
    ensures var file := dirPart + "/" + name;
      |name| < |file| && file[|file| - |name|..] == name && file[|file| - |name| - 1] == '/'
  {
    var file := dirPart + "/" + name;
    assert file[|file| - |name|..] == name;
  }

  /** A string ending in a plain name after a slash, or that is one, has it
      as its base name. */
  lemma BaseNameOfPlain(s: string, name: string)
    requires PlainName(name)
    requires s == name || (|name| < |s| && s[|s| - |name|..] == name && s[|s| - |name| - 1] == '/')
    ensures BaseName(s) == name
  {
    assert s[|s| - 1] == name[|name| - 1];
    assert TrimTrailingSlashes(s) == s;
    LastOfPlain(s, name);
  }

  /** Single-file mode writes the base name, as one component, into the
      output directory. */
  lemma SingleFileOutputIsChild(outputDir: string, file: string)
    requires PlainName(BaseName(file))
    ensures SingleFileOutput(outputDir, file) == Child(ParsePath(outputDir), BaseName(file))
  {
    JoinPlain(ParsePath(outputDir), BaseName(file));
  }

  /** A slash-free suffix that is the whole string or follows a slash is the
      last element. */
  lemma LastOfPlain(s: string, name: string)
    requires '/' !in name
    requires |name| <= |s| && s[|s| - |name|..] == name
    requires |name| < |s| ==> s[|s| - |name| - 1] == '/'
    ensures LastElement(s) == name
  {
    var r := LastElement(s);
    if |r| < |name| {
      assert false;
    } else if |name| < |r| {
      assert false;
    }
  }

  // ---------------------------------------------------------------------
  // main

  /** How the process ends: serving requests, finished, or exited through a
      fatal error or a panic. */
  datatype Exit = Serving(config: Config.Config) | Finished | Exited(fault: Fault)

  /** main.LoadConfig: the same steps and defaults as config.LoadConfig. */
  method LoadConfig(fs: Os.FileSystem, parse: Bytes -> Option<Config.Config>) returns (cfg: Config.Config, err: Option<Fault>)
    ensures (cfg, err) == Config.LoadOutcome(fs.State(), fs.cwd, ConfigFile, parse)
  {
    cfg, err := Config.LoadConfig(fs, ConfigFile, parse);
  }

  /** How server mode ends, given the scan, the runtime and the registry
      before and after: a failed scan, an unreachable runtime or a nameless
      container is fatal and leaves the registry alone; otherwise the
      registry is the scan merged with the live containers, and the server
      runs. */
  predicate Served(scan: Result<Containers.ComposeMap>, reachable: bool, live: seq<Containers.Summary>,
                   before: Containers.ComposeMap, after: Containers.ComposeMap, config: Config.Config, exit: Exit) {
    if !scan.Ok? then exit == Exited(scan.fault) && after == before
    else if !reachable then exit == Exited(ListContainers) && after == before
    else if !Containers.Named(live) then exit == Exited(MissingName) && after == before
    else exit == Serving(config) && after == Containers.MergeAll(scan.value, live)
  }

  /** Server mode on a templates root that cannot be stat'ed, such as a
      missing default "/compose-templates", exits through log.Fatal with
      that error before the registry is touched. */
  lemma MissingTemplatesRootIsFatal(s: FsModel.FsState, cwd: Loc, config: Config.Config, walk: seq<ComposeTemplate.WalkEntry>,
                                    reachable: bool, live: seq<Containers.Summary>,
                                    before: Containers.ComposeMap, after: Containers.ComposeMap, exit: Exit)
    requires ComposeTemplate.WalkOf(s, cwd, config.templatesDir, walk)
    requires ComposeTemplate.StatName(s, cwd, config.templatesDir).Failed?
    requires Served(ComposeTemplate.ScanFold(cwd, config.templatesDir, walk), reachable, live, before, after, config, exit)
    ensures exit == Exited(WalkFailed(ComposeTemplate.StatName(s, cwd, config.templatesDir).error)) && after == before
  {
    ComposeTemplate.ScanMissingRootFatal(s, cwd, config.templatesDir, walk);
  }

  /** How a rendering mode ends: the process finishes when the rendering
      returned no error and exits otherwise. */
  function Rendered(r: Result<()>): Exit {
    if r.Ok? then Finished else Exited(r.fault)
  }

  /** Server mode: scan the templates, merge the live containers in, serve. */
  method ServerMode(cwd: Loc, config: Config.Config, client: Containers.Containers, walk: seq<ComposeTemplate.WalkEntry>)
    returns (exit: Exit)
    modifies client
    ensures Served(ComposeTemplate.ScanFold(cwd, config.templatesDir, walk), client.runtime.reachable,
                   client.runtime.containers, old(client.containerMap), client.containerMap, config, exit)
  {
    var scan := ComposeTemplate.ScanDir(cwd, config.templatesDir, walk);
    if !scan.Ok? {
      return Exited(scan.fault);
    }
    var merged := client.CreateContainerMap(scan.value);
    if !merged.Ok? {
      return Exited(merged.fault);
    }
    exit := Serving(config);
  }

  /** Directory mode: render the tree into the output directory. */
  method DirectoryMode(fs: Os.FileSystem, engine: ComposeTemplate.Engine, dir: string, config: Config.Config,
                       walk: seq<ComposeTemplate.WalkEntry>) returns (exit: Exit)
    requires fs.Valid() && ComposeTemplate.Within(ParsePath(dir), walk)
    modifies fs
    ensures fs.Valid()
    ensures var (r, s1) := ComposeTemplate.ProcessDirSpec(old(fs.State()), fs.cwd, engine, dir, ParsePath(config.outputDir), walk);
      fs.State() == s1 && exit == Rendered(r)
  {
    var r := ComposeTemplate.ProcessDir(fs, engine, dir, ParsePath(config.outputDir), walk);
    exit := if r.Ok? then Finished else Exited(r.fault);
  }

  /** Single-file mode: render one template into the output directory. */
  method SingleFileMode(fs: Os.FileSystem, engine: ComposeTemplate.Engine, file: string, config: Config.Config)
    returns (exit: Exit)
    requires fs.Valid()
    modifies fs
    ensures fs.Valid()
    ensures var (r, s1) := ComposeTemplate.ProcessFileSpec(old(fs.State()), fs.cwd, engine, ParsePath(file),
                                                            NamesDirectory(file), SingleFileOutput(config.outputDir, file));
      fs.State() == s1 && exit == Rendered(r)
  {
    var out := SingleFileOutput(config.outputDir, file);
    var r := ComposeTemplate.ProcessFile(fs, engine, ParsePath(file), NamesDirectory(file), out);
    exit := if r.Ok? then Finished else Exited(r.fault);
  }

  /** main: load the configuration (its error is only logged), parse the
      flags, and run the selected mode. `walkOf` is filepath.Walk of a
      root; constructing the Docker client is not modelled, `client` is the
      one main would construct. */
  method Run(osArgs: seq<string>, fs: Os.FileSystem, engine: ComposeTemplate.Engine, client: Containers.Containers,
             walkOf: string -> seq<ComposeTemplate.WalkEntry>, parse: Bytes -> Option<Config.Config>)
    returns (exit: Exit)
    requires |osArgs| >= 1 && fs.Valid()
    requires var mode := ModeOf(osArgs);
      mode.Ok? && mode.value.Directory? ==> ComposeTemplate.Within(ParsePath(mode.value.dir), walkOf(mode.value.dir))
    modifies fs, client
    ensures fs.Valid()
    ensures var mode := ModeOf(osArgs);
      var config := Config.LoadOutcome(old(fs.State()), fs.cwd, ConfigFile, parse).0;
      && (mode.Ok? && mode.value.Server? ==> fs.State() == old(fs.State()))
      && (mode.Ok? && mode.value.Server? ==>
            Served(ComposeTemplate.ScanFold(fs.cwd, config.templatesDir, walkOf(config.templatesDir)),
                   client.runtime.reachable, client.runtime.containers, old(client.containerMap), client.containerMap, config, exit))
      && (mode.Ok? && mode.value.Directory? ==>
            var (r, s1) := ComposeTemplate.ProcessDirSpec(old(fs.State()), fs.cwd, engine, mode.value.dir,
                                                           ParsePath(config.outputDir), walkOf(mode.value.dir));
            fs.State() == s1 && exit == Rendered(r))
      && (mode.Ok? && mode.value.SingleFile? ==>
            var (r, s1) := ComposeTemplate.ProcessFileSpec(old(fs.State()), fs.cwd, engine, ParsePath(mode.value.file),
                                                            NamesDirectory(mode.value.file),
                                                            SingleFileOutput(config.outputDir, mode.value.file));
            fs.State() == s1 && exit == Rendered(r))
      && (mode.Ok? && !mode.value.Server? ==> client.containerMap == old(client.containerMap))
      && (mode == Ok(Unrecognized) ==> exit == Exited(UnknownArguments) && fs.State() == old(fs.State()))
      && (!mode.Ok? ==> exit == Exited(mode.fault) && fs.State() == old(fs.State()))
  {
    var config, err := LoadConfig(fs, parse);
    var cl := ParseCommandLineArgs(osArgs[1..]);
    if !cl.Ok? {
      return Exited(cl.fault);
    }
    var (dir, file) := cl.value;
    var mode := SelectMode(|osArgs|, dir, file);
    match mode
    case Server =>
      exit := ServerMode(fs.cwd, config, client, walkOf(config.templatesDir));
    case Directory(d) =>
      exit := DirectoryMode(fs, engine, d, config, walkOf(d));
    case SingleFile(f) =>
      exit := SingleFileMode(fs, engine, f, config);
    case Unrecognized =>
      exit := Exited(UnknownArguments);
  }
}
