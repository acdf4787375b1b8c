/** The service configuration: the defaults, the fill-in of missing fields,
    and loading from a YAML file whose absence is not an error. */
module Config {
  import opened Common
  import opened Paths
  import FsModel
  import Os

  datatype Config = Config(
    port: int,
    templatesDir: string,
    outputDir: string,
    environmentFile: string,
    dockerHost: string,
    useRemoteDocker: bool)

  const DefaultPort: int := 9843
  const DefaultTemplatesDir: string := "/compose-templates"
  const DefaultOutputDir: string := "/tmp/compose-output"
  const DefaultEnvironmentFile: string := "/environment"

  const Default: Config :=
    Config(DefaultPort, DefaultTemplatesDir, DefaultOutputDir, DefaultEnvironmentFile, "", false)

  function OrString(s: string, fallback: string): string {
    if s == "" then fallback else s
  }

  /** The configuration a parsed file yields: every zero or empty field takes
      its default, and remote Docker is used exactly when a host is given. */
  function WithDefaults(c: Config): (r: Config)
    ensures r.port != 0 && r.templatesDir != "" && r.outputDir != "" && r.environmentFile != ""
    ensures c.port != 0 ==> r.port == c.port
    ensures c.templatesDir != "" ==> r.templatesDir == c.templatesDir
    ensures c.outputDir != "" ==> r.outputDir == c.outputDir
    ensures c.environmentFile != "" ==> r.environmentFile == c.environmentFile
    ensures c.port == 0 ==> r.port == Default.port
    ensures c.templatesDir == "" ==> r.templatesDir == Default.templatesDir
    ensures c.outputDir == "" ==> r.outputDir == Default.outputDir
    ensures c.environmentFile == "" ==> r.environmentFile == Default.environmentFile
    ensures r.dockerHost == c.dockerHost
    ensures r.useRemoteDocker <==> c.dockerHost != ""
  {
    Config(
      if c.port == 0 then DefaultPort else c.port,
      OrString(c.templatesDir, DefaultTemplatesDir),
      OrString(c.outputDir, DefaultOutputDir),
      OrString(c.environmentFile, DefaultEnvironmentFile),
      c.dockerHost,
      c.dockerHost != "")
  }

  /** What loading `filename` gives: the configuration and the error, if any.
      A missing file gives the defaults and no error; any other failure gives
      the defaults together with the error. */
  function LoadOutcome(s: FsModel.FsState, cwd: Loc, filename: string, parse: Bytes -> Option<Config>): (Config, Option<Fault>) {
    var l := Resolve(cwd, ParsePath(filename));
    var dirOnly := NamesDirectory(filename);
    if filename == "" then (Default, None)
    else match FsModel.Stat(s, l, dirOnly)
      case Failed(NotExist) => (Default, None)
      case Failed(e) => (Default, Some(Io(e)))
      case Done(_) =>
        match FsModel.ReadFile(s, l, dirOnly)
        case Failed(e) => (Default, Some(Io(e)))
        case Done(data) =>
          match parse(data)
          case None => (Default, Some(ParseConfig))
          case Some(c) => (WithDefaults(c), None)
  }

  // ---------------------------------------------------------------------
  // Lemmas

  /** Filling in defaults a second time changes nothing. */
  lemma WithDefaultsIdempotent(c: Config)
    ensures WithDefaults(WithDefaults(c)) == WithDefaults(c)
  {
  }

  /** The defaults are what an empty file yields. */
  lemma DefaultIsFilledEmpty()
    ensures WithDefaults(Config(0, "", "", "", "", true)) == Default
  {
  }

  /** Every error comes with the default configuration, and every loaded
      configuration has its port and paths set and uses remote Docker
      exactly when a host is named. */
  lemma LoadOutcomeShape(s: FsModel.FsState, cwd: Loc, filename: string, parse: Bytes -> Option<Config>)
    ensures var (c, err) := LoadOutcome(s, cwd, filename, parse);
      && (err.Some? ==> c == Default)
      && c.port != 0 && c.templatesDir != "" && c.outputDir != "" && c.environmentFile != ""
      && (c.useRemoteDocker <==> c.dockerHost != "")
  {
  }

  /** A file that is not there is not an error; os.IsNotExist holds only
      when nothing on the way to it is a regular file. */
  lemma MissingFileGivesDefaults(s: FsModel.FsState, cwd: Loc, filename: string, parse: Bytes -> Option<Config>)
    requires var l := Resolve(cwd, ParsePath(filename));
      l !in s.denied && !FsModel.IsDir(s, l) && l !in s.files && !FsModel.UnderFile(s, l)
    ensures LoadOutcome(s, cwd, filename, parse) == (Default, None)
  {
  }

  /** A name that runs through a regular file, or that insists on a
      directory where a regular file is, fails os.Stat with "not a
      directory", which os.IsNotExist rejects: the defaults come back
      together with that error. */
  lemma NotADirectoryIsAnError(s: FsModel.FsState, cwd: Loc, filename: string, parse: Bytes -> Option<Config>)
    requires filename != ""
    requires var l := Resolve(cwd, ParsePath(filename));
      && l !in s.denied && !FsModel.IsDir(s, l)
      && (if l in s.files then NamesDirectory(filename) else FsModel.UnderFile(s, l))
    ensures LoadOutcome(s, cwd, filename, parse) == (Default, Some(Io(NotADirectory)))
  {
  }

  /** A readable file that parses yields its own values, defaults filled in. */
  lemma ReadableFileIsUsed(s: FsModel.FsState, cwd: Loc, filename: string, parse: Bytes -> Option<Config>, c: Config)
    requires filename != "" && !NamesDirectory(filename)
    requires var l := Resolve(cwd, ParsePath(filename));
      l !in s.denied && !FsModel.IsDir(s, l) && l in s.files && parse(s.files[l]) == Some(c)
    ensures LoadOutcome(s, cwd, filename, parse) == (WithDefaults(c), None)
  {
  }

  /** config.LoadConfig: stat, read, parse, then fill in the missing fields
      one at a time. `parse` is yaml.Unmarshal into the record. */
  method LoadConfig(fs: Os.FileSystem, filename: string, parse: Bytes -> Option<Config>) returns (cfg: Config, err: Option<Fault>)
    ensures (cfg, err) == LoadOutcome(fs.State(), fs.cwd, filename, parse)
  {
    if filename == "" {
      return Default, None;
    }
    var p := ParsePath(filename);
    var info := fs.Stat(p, NamesDirectory(filename));
    if info.Failed? {
      if info.error == NotExist {
        return Default, None;
      }
      return Default, Some(Io(info.error));
    }
    var data := fs.ReadFile(p, NamesDirectory(filename));
    if data.Failed? {
      return Default, Some(Io(data.error));
    }
    var parsed := parse(data.value);
    if parsed.None? {
      return Default, Some(ParseConfig);
    }
    var config := parsed.value;
    if config.port == 0 {
      config := config.(port := Default.port);
    }
    if config.templatesDir == "" {
      config := config.(templatesDir := Default.templatesDir);
    }
    if config.outputDir == "" {
      config := config.(outputDir := Default.outputDir);
    }
    if config.environmentFile == "" {
      config := config.(environmentFile := Default.environmentFile);
    }
    if config.dockerHost == "" {
      config := config.(dockerHost := Default.dockerHost, useRemoteDocker := false);
    } else {
      config := config.(useRemoteDocker := true);
    }
    cfg, err := config, None;
  }
}
