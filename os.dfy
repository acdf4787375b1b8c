/** The process's view of the operating system: one filesystem object whose
    methods are the calls the core makes, each proved to act as the
    corresponding FsModel function on the current state. */
module Os {
  import opened Common
  import opened Paths
  import FsModel

  class FileSystem {
    var files: map<Loc, Bytes>
    var dirs: set<Loc>
    /** Locations the process has no permission to access. */
    const denied: set<Loc>
    /** The working directory relative paths are resolved against. */
    const cwd: Loc
    /** os.TempDir(). */
    const tempDir: Loc

    function State(): FsModel.FsState
      reads this
    {
      FsModel.FsState(files, dirs, denied)
    }

    ghost predicate Valid()
      reads this
    {
      FsModel.WellFormed(State())
    }

    function Locate(p: Path): Loc
      reads this
    {
      Resolve(cwd, p)
    }

    constructor (initial: FsModel.FsState, cwd: Loc, tempDir: Loc)
      requires FsModel.WellFormed(initial)
      ensures Valid() && State() == initial
      ensures this.cwd == cwd && this.tempDir == tempDir
    {
      files, dirs, denied := initial.files, initial.dirs, initial.denied;
      this.cwd, this.tempDir := cwd, tempDir;
    }

    /** os.Stat of a name whose cleaned path is `p`; `dirOnly` says the name
        insists on a directory. */
    method Stat(p: Path, dirOnly: bool) returns (r: Io<bool>)
      ensures r == FsModel.Stat(State(), Locate(p), dirOnly)
    {
      r := FsModel.Stat(State(), Locate(p), dirOnly);
    }

    /** os.ReadFile, with `p` and `dirOnly` as for Stat. */
    method ReadFile(p: Path, dirOnly: bool) returns (r: Io<Bytes>)
      ensures r == FsModel.ReadFile(State(), Locate(p), dirOnly)
    {
      r := FsModel.ReadFile(State(), Locate(p), dirOnly);
    }

    method MkdirAll(p: Path) returns (r: Io<()>)
      requires Valid()
      modifies this
      ensures Valid()
      ensures (r, State()) == FsModel.MkdirAll(old(State()), Locate(p))
    {
      var next := FsModel.MkdirAll(State(), Locate(p));
      FsModel.MkdirAllEffect(State(), Locate(p));
      FsModel.MkdirAllWellFormed(State(), Locate(p));
      r := next.0;
      files, dirs := next.1.files, next.1.dirs;
    }

    method WriteFile(p: Path, data: Bytes) returns (r: Io<()>)
      requires Valid()
      modifies this
      ensures Valid()
      ensures (r, State()) == FsModel.WriteFile(old(State()), Locate(p), data)
    {
      var next := FsModel.WriteFile(State(), Locate(p), data);
      FsModel.WriteFileWellFormed(State(), Locate(p), data);
      r := next.0;
      files := next.1.files;
    }

    method Mkdir(p: Path) returns (r: Io<()>)
      requires Valid()
      modifies this
      ensures Valid()
      ensures (r, State()) == FsModel.Mkdir(old(State()), Locate(p))
    {
      var next := FsModel.Mkdir(State(), Locate(p));
      FsModel.MkdirWellFormed(State(), Locate(p));
      r := next.0;
      dirs := next.1.dirs;
    }

    /** os.MkdirTemp("", ""): `names` are the random names the OS draws. */
    method MkdirTemp(names: seq<string>) returns (r: Io<Path>)
      requires Valid()
      modifies this
      ensures Valid()
      ensures var next := FsModel.MkdirTemp(old(State()), tempDir, names);
              State() == next.1 &&
              r == (if next.0.Done? then Done(Path(true, next.0.value)) else Failed(next.0.error))
    {
      var next := FsModel.MkdirTemp(State(), tempDir, names);
      FsModel.MkdirTempWellFormed(State(), tempDir, names);
      r := if next.0.Done? then Done(Path(true, next.0.value)) else Failed(next.0.error);
      dirs := next.1.dirs;
    }

    /** os.RemoveAll; the source ignores its error, the model has none. */
    method RemoveAll(p: Path)
      requires Valid()
      modifies this
      ensures Valid()
      ensures State() == FsModel.RemoveAll(old(State()), Locate(p))
    {
      var next := FsModel.RemoveAll(State(), Locate(p));
      FsModel.RemoveAllWellFormed(State(), Locate(p));
      files, dirs := next.files, next.dirs;
    }
  }
}
