/** Rendering a template tree into an output tree, scanning the templates
    root for compose projects, and installing one project. The template
    engine, the YAML parser and filepath.Walk are parameters: the engine and
    the parser as functions, the walk as the sequence of entries it hands to
    its callback. */
module ComposeTemplate {
  import opened Common
  import opened Paths
  import FsModel
  import Os
  import opened TemplateText
  import Containers
  import Config

  /** A parsed YAML document. */
  datatype Yaml = Scalar(text: string) | Sequence(items: seq<Yaml>) | Mapping(entries: map<string, Yaml>)

  /** text/template with its function map, and yaml.Unmarshal.
      `execute(text, values, include)` renders parsed template text with the
      values; `include` is what reading the include file gives, which the
      template's `include` function renders on demand. */
  datatype Engine = Engine(
    parseValues: Bytes -> Option<Yaml>,
    parseTemplate: Bytes -> bool,
    execute: (Bytes, Yaml, Io<Bytes>) -> Option<Bytes>)

  /** One call of a filepath.Walk callback: a visited entry, or the error
      the walk hands over for an entry it could not read. */
  datatype WalkEntry = Visit(path: Path, isDir: bool) | WalkError(path: Path, error: IoError)

  predicate IsFile(e: WalkEntry) {
    e.Visit? && !e.isDir
  }

  /** What filepath.Walk(root) guarantees of the paths it visits: each is the
      root extended by plain names, and only the root itself is visited
      without a name of its own, as a directory. */
  predicate Within(root: Path, walk: seq<WalkEntry>) {
    forall i :: 0 <= i < |walk| ==> WalkedBelow(root, walk[i])
  }

  predicate WalkedBelow(root: Path, e: WalkEntry) {
    e.Visit? ==> Beneath(root, e.path) && (e.isDir || |e.path.parts| > |root.parts|)
  }

  /** os.Stat (or os.Lstat, symlinks aside) of a name as given: the empty
      name does not exist, and a name ending in a slash insists on a
      directory. */
  function StatName(s: FsModel.FsState, cwd: Loc, name: string): Io<bool> {
    if name == "" then Failed(NotExist)
    else FsModel.Stat(s, Resolve(cwd, ParsePath(name)), NamesDirectory(name))
  }

  /** What filepath.Walk(templatesDir) hands its callback when it runs on
      state `s`: the first call is for the root itself, with the error of
      os.Lstat(root) as the only call when that fails; every visited path
      lies beneath the root and agrees with os.Lstat about being a
      directory; and, unless some entry reports an error, every regular
      file at or under the root's location is visited. */
  ghost predicate WalkOf(s: FsModel.FsState, cwd: Loc, templatesDir: string, walk: seq<WalkEntry>) {
    var root := ParsePath(templatesDir);
    && walk != []
    && (match StatName(s, cwd, templatesDir)
        case Done(isDir) => walk[0] == Visit(root, isDir)
        case Failed(e) => walk == [WalkError(root, e)])
    && (forall i :: 0 <= i < |walk| && walk[i].Visit? ==>
          Beneath(root, walk[i].path) && FsModel.Stat(s, Resolve(cwd, walk[i].path), false) == Done(walk[i].isDir))
    && ((forall i :: 0 <= i < |walk| ==> walk[i].Visit?) ==>
          forall l :: l in s.files && IsPrefix(Resolve(cwd, root), l) ==>
            exists i :: 0 <= i < |walk| && walk[i].Visit? && Resolve(cwd, walk[i].path) == l)
  }

  /** A walk of a directory visits the root itself only as a directory. */
  lemma WalkOfWithin(s: FsModel.FsState, cwd: Loc, templatesDir: string, walk: seq<WalkEntry>)
    requires WalkOf(s, cwd, templatesDir, walk) && FsModel.IsDir(s, Resolve(cwd, ParsePath(templatesDir)))
    ensures Within(ParsePath(templatesDir), walk)
  {
    var root := ParsePath(templatesDir);
    forall i | 0 <= i < |walk| ensures WalkedBelow(root, walk[i]) {
      if walk[i].Visit? && |walk[i].path.parts| == |root.parts| {
        assert walk[i].path.parts == walk[i].path.parts[..|root.parts|] == root.parts;
        assert walk[i].path == root;
      }
    }
  }

  // ---------------------------------------------------------------------
  // ProcessFile

  /** The values file: "values.yml" in the template's grandparent directory. */
  function ValuesPath(tpl: Path): Path {
    Child(Dir(Dir(tpl)), ValuesFile)
  }

  /** The include file: "includes.template" beside the values file. */
  function IncludesPath(tpl: Path): Path {
    Child(Dir(Dir(tpl)), IncludesFile)
  }

  /** The rendered text of one template, or the first failure among: reading
      the template, reading the values, parsing the values, parsing the
      stripped template text, executing it. `dirOnly` says the template's
      name as given insists on a directory, as one ending in a slash does. */
  function RenderedOutput(s: FsModel.FsState, cwd: Loc, engine: Engine, tpl: Path, dirOnly: bool): (r: Result<Bytes>)
    ensures !r.Abort?
  {
    match FsModel.ReadFile(s, Resolve(cwd, tpl), dirOnly)
    case Failed(e) => Fail(ReadTemplate(e))
    case Done(text) =>
      match FsModel.ReadFile(s, Resolve(cwd, ValuesPath(tpl)), false)
      case Failed(e) => Fail(ReadValues(e))
      case Done(raw) =>
        match engine.parseValues(raw)
        case None => Fail(ParseValues)
        case Some(values) =>
          var stripped := StripValues(text);
          if !engine.parseTemplate(stripped) then Fail(ParseTemplate)
          else
            match engine.execute(stripped, values, FsModel.ReadFile(s, Resolve(cwd, IncludesPath(tpl)), false))
            case None => Fail(ExecuteTemplate)
            case Some(out) => Ok(out)
  }

  /** ProcessFile(tpl, out) on a filesystem state: render, create the
      output's parent directories, write the output. */
  function ProcessFileSpec(s: FsModel.FsState, cwd: Loc, engine: Engine, tpl: Path, dirOnly: bool, out: Path): (r: (Result<()>, FsModel.FsState))
    ensures !r.0.Abort?
  {
    match RenderedOutput(s, cwd, engine, tpl, dirOnly)
    case Ok(text) =>
      var (made, s1) := FsModel.MkdirAll(s, Resolve(cwd, Dir(out)));
      if made.Failed? then (Fail(CreateDirectory(made.error)), s1)
      else
        var (written, s2) := FsModel.WriteFile(s1, Resolve(cwd, out), text);
        if written.Failed? then (Fail(WriteOutput(written.error)), s2) else (Ok(()), s2)
    case Fail(f) => (Fail(f), s)
    case Abort(f) => (Abort(f), s)
  }

  method ProcessFile(fs: Os.FileSystem, engine: Engine, tpl: Path, dirOnly: bool, out: Path) returns (r: Result<()>)
    requires fs.Valid()
    modifies fs
    ensures fs.Valid()
    ensures (r, fs.State()) == ProcessFileSpec(old(fs.State()), fs.cwd, engine, tpl, dirOnly, out)
  {
    var text := fs.ReadFile(tpl, dirOnly);
    if text.Failed? {
      return Fail(ReadTemplate(text.error));
    }
    var dir := Dir(Dir(tpl));
    var stripped := StripValues(text.value);
    var raw := fs.ReadFile(Child(dir, ValuesFile), false);
    if raw.Failed? {
      return Fail(ReadValues(raw.error));
    }
    var values := engine.parseValues(raw.value);
    if values.None? {
      return Fail(ParseValues);
    }
    if !engine.parseTemplate(stripped) {
      return Fail(ParseTemplate);
    }
    var includeFile := fs.ReadFile(Child(dir, IncludesFile), false);
    var output := engine.execute(stripped, values.value, includeFile);
    if output.None? {
      return Fail(ExecuteTemplate);
    }
    var made := fs.MkdirAll(Dir(out));
    if made.Failed? {
      return Fail(CreateDirectory(made.error));
    }
    var written := fs.WriteFile(out, output.value);
    if written.Failed? {
      return Fail(WriteOutput(written.error));
    }
    r := Ok(());
  }

  // ---------------------------------------------------------------------
  // ProcessDir

  /** Where a walked file goes: the output root joined with its path
      relative to the templates root. */
  function Destination(root: Path, out: Path, p: Path): Path
    requires Beneath(root, p)
  {
    Extend(out, Rel(root, p))
  }

  /** The callback's branch for a file that is not a template: read it,
      create the destination's parent directories, write the same bytes. */
  function CopySpec(s: FsModel.FsState, cwd: Loc, src: Path, dest: Path): (r: (Result<()>, FsModel.FsState))
    ensures !r.0.Abort?
  {
    match FsModel.ReadFile(s, Resolve(cwd, src), false)
    case Failed(err) => (Fail(Io(err)), s)
    case Done(input) =>
      var (made, s1) := FsModel.MkdirAll(s, Resolve(cwd, Dir(dest)));
      if made.Failed? then (Fail(Io(made.error)), s1)
      else
        var (written, s2) := FsModel.WriteFile(s1, Resolve(cwd, dest), input);
        if written.Failed? then (Fail(Io(written.error)), s2) else (Ok(()), s2)
  }

  /** One walk callback: a walk error panics, a directory is passed over, a
      template is rendered and any other file is copied, a failure of either
      panicking. */
  function Step(s: FsModel.FsState, cwd: Loc, engine: Engine, root: Path, out: Path, e: WalkEntry): (r: (Result<()>, FsModel.FsState))
    requires WalkedBelow(root, e)
    ensures !r.0.Fail?
    ensures e.WalkError? ==> r == (Abort(WalkFailed(e.error)), s)
  {
    match e
    case WalkError(_, err) => (Abort(WalkFailed(err)), s)
    case Visit(p, isDir) =>
      if isDir then (Ok(()), s)
      else
        var dest := Destination(root, out, p);
        var (done, s1) :=
          if IsTemplateName(Base(p)) then ProcessFileSpec(s, cwd, engine, p, false, dest) else CopySpec(s, cwd, p, dest);
        (if done.Ok? then Ok(()) else Abort(done.fault), s1)
  }

  /** A walk callback bound to its entry: from the state before it to its
      outcome and the state after it. */
  type Callback = FsModel.FsState -> (Result<()>, FsModel.FsState)

  /** The callbacks filepath.Walk(root) makes, one per walked entry. */
  function Callbacks(cwd: Loc, engine: Engine, root: Path, out: Path, walk: seq<WalkEntry>): (r: seq<Callback>)
    requires Within(root, walk)
    ensures |r| == |walk|
    ensures forall i, t {:trigger Step(t, cwd, engine, root, out, walk[i])} :: 0 <= i < |walk| ==> r[i](t) == Step(t, cwd, engine, root, out, walk[i])
  {
    seq(|walk|, i requires 0 <= i < |walk| => (t: FsModel.FsState) => Step(t, cwd, engine, root, out, walk[i]))
  }

  /** filepath.Walk's loop: the first n callbacks in order, up to the first
      one that does not return normally. */
  function Run(s: FsModel.FsState, cbs: seq<Callback>, n: nat): (Result<()>, FsModel.FsState)
    requires n <= |cbs|
    decreases n
  {
    if n == 0 then (Ok(()), s)
    else
      var (sofar, s1) := Run(s, cbs, n - 1);
      if !sofar.Ok? then (sofar, s1) else cbs[n - 1](s1)
  }

  /** ProcessDir(templatesDir, out): a root that cannot be stat'ed is a
      returned error, a root that is not a directory panics, and otherwise
      the walk runs. */
  function ProcessDirSpec(s: FsModel.FsState, cwd: Loc, engine: Engine, templatesDir: string, out: Path, walk: seq<WalkEntry>): (r: (Result<()>, FsModel.FsState))
    requires Within(ParsePath(templatesDir), walk)
  {
    var root := ParsePath(templatesDir);
    match StatName(s, cwd, templatesDir)
      case Failed(e) => (Fail(Io(e)), s)
      case Done(isDir) =>
        if !isDir then (Abort(RootNotADirectory), s)
        else Run(s, Callbacks(cwd, engine, root, out, walk), |walk|)
  }

  /** Nothing runs after the first callback that does not return normally. */
  lemma {:induction false} RunStops(s: FsModel.FsState, cbs: seq<Callback>, k: nat)
    requires k <= |cbs| && !Run(s, cbs, k).0.Ok?
    ensures Run(s, cbs, |cbs|) == Run(s, cbs, k)
    decreases |cbs| - k
  {
    if k < |cbs| {
      RunStops(s, cbs, k + 1);
    }
  }

  /** After a prefix that returned normally, the walk runs the next callback. */
  lemma RunNext(s: FsModel.FsState, cbs: seq<Callback>, i: nat, before: FsModel.FsState, after: (Result<()>, FsModel.FsState))
    requires i < |cbs| && Run(s, cbs, i) == (Ok(()), before) && cbs[i](before) == after
    ensures Run(s, cbs, i + 1) == after
  {
  }

  /** Callbacks that never return an error make a walk that never does. */
  lemma {:induction false} RunNeverFails(s: FsModel.FsState, cbs: seq<Callback>, n: nat)
    requires n <= |cbs|
    requires forall i, t :: 0 <= i < |cbs| ==> !cbs[i](t).0.Fail?
    ensures !Run(s, cbs, n).0.Fail?
    decreases n
  {
    if n > 0 {
      RunNeverFails(s, cbs, n - 1);
    }
  }

  /** One walk callback on the live filesystem. */
  method WalkStep(fs: Os.FileSystem, engine: Engine, root: Path, out: Path, e: WalkEntry) returns (r: Result<()>)
    requires fs.Valid() && WalkedBelow(root, e)
    modifies fs
    ensures fs.Valid()
    ensures (r, fs.State()) == Step(old(fs.State()), fs.cwd, engine, root, out, e)
  {
    match e
    case WalkError(_, err) =>
      return Abort(WalkFailed(err));
    case Visit(p, isDir) =>
      if isDir {
        return Ok(());
      }
      var dest := Destination(root, out, p);
      if IsTemplateName(Base(p)) {
        var done := ProcessFile(fs, engine, p, false, dest);
        r := if done.Ok? then Ok(()) else Abort(done.fault);
        return;
      }
      var input := fs.ReadFile(p, false);
      if input.Failed? {
        return Abort(Io(input.error));
      }
      var made := fs.MkdirAll(Dir(dest));
      if made.Failed? {
        return Abort(Io(made.error));
      }
      var written := fs.WriteFile(dest, input.value);
      if written.Failed? {
        return Abort(Io(written.error));
      }
      r := Ok(());
  }

  /** filepath.Walk(root, callback): the callbacks in order, stopping at the
      first that does not return normally. */
  method WalkAll(fs: Os.FileSystem, engine: Engine, root: Path, out: Path, walk: seq<WalkEntry>) returns (r: Result<()>)
    requires fs.Valid() && Within(root, walk)
    modifies fs
    ensures fs.Valid()
    ensures (r, fs.State()) == Run(old(fs.State()), Callbacks(fs.cwd, engine, root, out, walk), |walk|)
  {
    ghost var s0 := fs.State();
    ghost var cbs := Callbacks(fs.cwd, engine, root, out, walk);
    var i := 0;
    while i < |walk|
      invariant 0 <= i <= |walk| && fs.Valid()
      invariant Run(s0, cbs, i) == (Ok(()), fs.State())
    {
      ghost var before := fs.State();
      r := WalkStep(fs, engine, root, out, walk[i]);
      RunNext(s0, cbs, i, before, (r, fs.State()));
      if !r.Ok? {
        RunStops(s0, cbs, i + 1);
        return;
      }
      i := i + 1;
    }
    r := Ok(());
  }

  method ProcessDir(fs: Os.FileSystem, engine: Engine, templatesDir: string, out: Path, walk: seq<WalkEntry>) returns (r: Result<()>)
    requires fs.Valid() && Within(ParsePath(templatesDir), walk)
    modifies fs
    ensures fs.Valid()
    ensures (r, fs.State()) == ProcessDirSpec(old(fs.State()), fs.cwd, engine, templatesDir, out, walk)
  {
    if templatesDir == "" {
      return Fail(Io(NotExist));
    }
    var root := ParsePath(templatesDir);
    var info := fs.Stat(root, NamesDirectory(templatesDir));
    if info.Failed? {
      return Fail(Io(info.error));
    }
    if !info.value {
      return Abort(RootNotADirectory);
    }
    r := WalkAll(fs, engine, root, out, walk);
  }

  // ---------------------------------------------------------------------
  // What ProcessDir writes

  /** `s1` differs from `s0` only at or under `o`, apart from directories
      created on the way down to `o`. */
  ghost predicate Frame(s0: FsModel.FsState, s1: FsModel.FsState, o: Loc) {
    && s1.denied == s0.denied
    && s0.dirs <= s1.dirs
    && s0.files.Keys <= s1.files.Keys
    && (forall d :: d in s1.dirs && d !in s0.dirs ==> IsPrefix(o, d) || IsPrefix(d, o))
    && (forall l :: l in s1.files && !IsPrefix(o, l) ==> l in s0.files && s1.files[l] == s0.files[l])
  }

  lemma FrameTrans(s0: FsModel.FsState, s1: FsModel.FsState, s2: FsModel.FsState, o: Loc)
    requires Frame(s0, s1, o) && Frame(s1, s2, o)
    ensures Frame(s0, s2, o)
  {
  }

  /** What one rendering or copy changes: directories only on the way down
      to `dir`, and no file other than `l`. */
  ghost predicate WritesOnly(s0: FsModel.FsState, s1: FsModel.FsState, dir: Loc, l: Loc) {
    && s1.denied == s0.denied
    && s0.dirs <= s1.dirs
    && s0.files.Keys <= s1.files.Keys
    && (forall d :: d in s1.dirs && d !in s0.dirs ==> IsPrefix(d, dir))
    && (forall k :: k in s1.files && k != l ==> k in s0.files && s1.files[k] == s0.files[k])
  }

  lemma PrefixOfExtension(d: Loc, o: Loc, x: Loc)
    requires IsPrefix(d, o + x)
    ensures IsPrefix(o, d) || IsPrefix(d, o)
  {
    if |d| <= |o| {
      assert d == (o + x)[..|d|] == o[..|d|];
    } else {
      assert d[..|o|] == (o + x)[..|o|] == o;
    }
  }

  /** Writing one file below the output root, and creating its parent
      directories, stays within the output root's frame. */
  lemma WritesOnlyFrame(s0: FsModel.FsState, s1: FsModel.FsState, o: Loc, rel: Loc)
    requires rel != [] && WritesOnly(s0, s1, o + rel[..|rel| - 1], o + rel)
    ensures Frame(s0, s1, o)
  {
    forall d | d in s1.dirs && d !in s0.dirs ensures IsPrefix(o, d) || IsPrefix(d, o) {
      PrefixOfExtension(d, o, rel[..|rel| - 1]);
    }
    assert (o + rel)[..|o|] == o;
  }

  /** The non-template branch copies the file's bytes to the destination
      when every step succeeds, and otherwise leaves every file as it was. */
  lemma CopyEffect(s: FsModel.FsState, cwd: Loc, src: Path, dest: Path)
    ensures var (r, s1) := CopySpec(s, cwd, src, dest);
      var input := FsModel.ReadFile(s, Resolve(cwd, src), false);
      && (input.Failed? ==> r == Fail(Io(input.error)) && s1 == s)
      && (r.Ok? ==> input.Done? && s1.files == s.files[Resolve(cwd, dest) := input.value])
      && (!r.Ok? ==> s1.files == s.files)
      && WritesOnly(s, s1, Resolve(cwd, Dir(dest)), Resolve(cwd, dest))
  {
    FsModel.MkdirAllEffect(s, Resolve(cwd, Dir(dest)));
  }

  /** Where the output of a walked file lands, and its parent directory. */
  lemma DestinationLoc(cwd: Loc, root: Path, out: Path, p: Path)
    requires Beneath(root, p) && |p.parts| > |root.parts|
    ensures var rel := Rel(root, p); var o := Resolve(cwd, out);
      && rel != []
      && Resolve(cwd, Destination(root, out, p)) == o + rel
      && Resolve(cwd, Dir(Destination(root, out, p))) == o + rel[..|rel| - 1]
  {
    var rel := Rel(root, p);
    var init := rel[..|rel| - 1];
    RelSplits(root, p);
    ResolveExtend(cwd, out, rel);
    assert Plain(init) by {
      forall i | 0 <= i < |init| ensures PlainName(init[i]) { assert init[i] == rel[i]; }
    }
    ResolveExtend(cwd, out, init);
    assert (out.parts + rel)[..|out.parts + rel| - 1] == out.parts + init;
  }

  /** Whatever its outcome, one callback changes nothing outside the
      output root. */
  lemma StepFrame(s: FsModel.FsState, cwd: Loc, engine: Engine, root: Path, out: Path, e: WalkEntry)
    requires WalkedBelow(root, e)
    ensures Frame(s, Step(s, cwd, engine, root, out, e).1, Resolve(cwd, out))
  {
    if IsFile(e) {
      var p := e.path;
      var dest := Destination(root, out, p);
      DestinationLoc(cwd, root, out, p);
      if IsTemplateName(Base(p)) {
        ProcessFileEffect(s, cwd, engine, p, false, dest);
      } else {
        CopyEffect(s, cwd, p, dest);
      }
      WritesOnlyFrame(s, Step(s, cwd, engine, root, out, e).1, Resolve(cwd, out), Rel(root, p));
    }
  }

  /** What a walked file's output should hold: its rendering for a
      template, its bytes for any other file; None when that cannot be had. */
  function Expected(s: FsModel.FsState, cwd: Loc, engine: Engine, p: Path): Option<Bytes> {
    if IsTemplateName(Base(p)) then
      match RenderedOutput(s, cwd, engine, p, false)
      case Ok(text) => Some(text)
      case _ => None
    else
      match FsModel.ReadFile(s, Resolve(cwd, p), false)
      case Done(input) => Some(input)
      case Failed(_) => None
  }

  /** A callback that returns normally on a file has written exactly its
      expected output to its destination and no other file. */
  lemma StepEffect(s: FsModel.FsState, cwd: Loc, engine: Engine, root: Path, out: Path, e: WalkEntry)
    requires WalkedBelow(root, e) && IsFile(e)
    requires Step(s, cwd, engine, root, out, e).0.Ok?
    ensures Expected(s, cwd, engine, e.path).Some?
    ensures Step(s, cwd, engine, root, out, e).1.files ==
      s.files[Resolve(cwd, out) + Rel(root, e.path) := Expected(s, cwd, engine, e.path).value]
  {
    var p := e.path;
    var dest := Destination(root, out, p);
    DestinationLoc(cwd, root, out, p);
    if IsTemplateName(Base(p)) {
      ProcessFileEffect(s, cwd, engine, p, false, dest);
    } else {
      CopyEffect(s, cwd, p, dest);
    }
  }

  /** The reads a walked file's callback makes. */
  predicate ReadsAvoid(cwd: Loc, p: Path, o: Loc) {
    && Disjoint(Resolve(cwd, p), o)
    && (IsTemplateName(Base(p)) ==>
          Disjoint(Resolve(cwd, ValuesPath(p)), o) && Disjoint(Resolve(cwd, IncludesPath(p)), o))
  }

  /** Whether a regular file lies on the way to a location outside o is
      unaffected by changes confined to o. */
  lemma {:induction false} UnderFileAgree(s0: FsModel.FsState, s1: FsModel.FsState, o: Loc, l: Loc)
    requires Frame(s0, s1, o) && !IsPrefix(o, l)
    ensures FsModel.UnderFile(s1, l) == FsModel.UnderFile(s0, l)
    decreases |l|
  {
    if l != [] {
      var p := FsModel.Parent(l);
      UnderFileAgree(s0, s1, o, p);
    }
  }

  lemma ReadAgree(s0: FsModel.FsState, s1: FsModel.FsState, o: Loc, l: Loc)
    requires Frame(s0, s1, o) && Disjoint(l, o)
    ensures FsModel.ReadFile(s1, l, false) == FsModel.ReadFile(s0, l, false)
  {
    UnderFileAgree(s0, s1, o, l);
  }

  lemma ExpectedAgree(s0: FsModel.FsState, s1: FsModel.FsState, o: Loc, cwd: Loc, engine: Engine, p: Path)
    requires Frame(s0, s1, o) && ReadsAvoid(cwd, p, o)
    ensures Expected(s1, cwd, engine, p) == Expected(s0, cwd, engine, p)
  {
    ReadAgree(s0, s1, o, Resolve(cwd, p));
    if IsTemplateName(Base(p)) {
      ReadAgree(s0, s1, o, Resolve(cwd, ValuesPath(p)));
      ReadAgree(s0, s1, o, Resolve(cwd, IncludesPath(p)));
    }
  }

  /** Callbacks that each stay within o's frame make a walk that does. */
  lemma {:induction false} RunFrame(s: FsModel.FsState, cbs: seq<Callback>, n: nat, o: Loc)
    requires n <= |cbs|
    requires forall i, t :: 0 <= i < |cbs| ==> Frame(t, cbs[i](t).1, o)
    ensures Frame(s, Run(s, cbs, n).1, o)
    decreases n
  {
    if n > 0 {
      RunFrame(s, cbs, n - 1, o);
      var (sofar, s1) := Run(s, cbs, n - 1);
      if sofar.Ok? {
        FrameTrans(s, s1, cbs[n - 1](s1).1, o);
      }
    }
  }

  /** A callback that, run on any state agreeing with s0 outside o and
      returning normally, has written `want` at `target` and changed no other
      file, or, without a target, changed no file at all. */
  ghost predicate Writes(s0: FsModel.FsState, o: Loc, cb: Callback, target: Option<Loc>, want: Option<Bytes>) {
    forall t :: Frame(s0, t, o) && cb(t).0.Ok? ==>
      if target.Some? then want.Some? && cb(t).1.files == t.files[target.value := want.value]
      else cb(t).1.files == t.files
  }

  /** When a walk of such callbacks, with distinct targets, returns
      normally, every target holds what its callback wrote. */
  lemma {:induction false} RunOutputs(s0: FsModel.FsState, cbs: seq<Callback>, o: Loc, targets: seq<Option<Loc>>,
                                      wants: seq<Option<Bytes>>, n: nat, i: nat)
    requires n <= |cbs| && |targets| == |cbs| && |wants| == |cbs|
    requires forall j, t :: 0 <= j < |cbs| ==> Frame(t, cbs[j](t).1, o)
    requires forall j :: 0 <= j < |cbs| ==> Writes(s0, o, cbs[j], targets[j], wants[j])
    requires forall j, k :: 0 <= j < k < |cbs| && targets[j].Some? && targets[k].Some? ==> targets[j] != targets[k]
    requires Run(s0, cbs, n).0.Ok? && i < n && targets[i].Some?
    ensures var files := Run(s0, cbs, n).1.files;
      wants[i].Some? && targets[i].value in files && files[targets[i].value] == wants[i].value
    decreases n
  {
    var (sofar, s1) := Run(s0, cbs, n - 1);
    RunFrame(s0, cbs, n - 1, o);
    assert sofar.Ok?;
    assert Writes(s0, o, cbs[n - 1], targets[n - 1], wants[n - 1]);
    if i < n - 1 {
      RunOutputs(s0, cbs, o, targets, wants, n - 1, i);
    }
  }

  /** When a walk of such callbacks returns normally, the files are the old
      ones with exactly the targets of the callbacks that ran written. */
  lemma {:induction false} RunOnlyTargets(s0: FsModel.FsState, cbs: seq<Callback>, o: Loc, targets: seq<Option<Loc>>,
                                          wants: seq<Option<Bytes>>, n: nat)
    requires n <= |cbs| && |targets| == |cbs| && |wants| == |cbs|
    requires forall j, t :: 0 <= j < |cbs| ==> Frame(t, cbs[j](t).1, o)
    requires forall j :: 0 <= j < |cbs| ==> Writes(s0, o, cbs[j], targets[j], wants[j])
    requires Run(s0, cbs, n).0.Ok?
    ensures var files := Run(s0, cbs, n).1.files;
      && (forall l :: l in files <==> l in s0.files || exists j :: 0 <= j < n && targets[j] == Some(l))
      && (forall l :: l in files && (forall j :: 0 <= j < n ==> targets[j] != Some(l)) ==> files[l] == s0.files[l])
    decreases n
  {
    if n > 0 {
      var (sofar, s1) := Run(s0, cbs, n - 1);
      RunFrame(s0, cbs, n - 1, o);
      assert sofar.Ok?;
      assert Writes(s0, o, cbs[n - 1], targets[n - 1], wants[n - 1]);
      RunOnlyTargets(s0, cbs, o, targets, wants, n - 1);
    }
  }

  /** The walk visits each file once and reads nothing under the output root. */
  predicate SeparateOutput(cwd: Loc, walk: seq<WalkEntry>, o: Loc) {
    && (forall j :: 0 <= j < |walk| && IsFile(walk[j]) ==> ReadsAvoid(cwd, walk[j].path, o))
    && (forall j, k :: 0 <= j < k < |walk| && IsFile(walk[j]) && IsFile(walk[k]) ==> walk[j].path != walk[k].path)
  }

  /** Distinct walked paths have distinct destinations. */
  lemma DistinctDestinations(root: Path, p: Path, q: Path, o: Loc)
    requires Beneath(root, p) && Beneath(root, q) && p != q
    ensures o + Rel(root, p) != o + Rel(root, q)
  {
    RelSplits(root, p);
    RelSplits(root, q);
    assert (o + Rel(root, p))[|o|..] == Rel(root, p);
    assert (o + Rel(root, q))[|o|..] == Rel(root, q);
  }

  /** Every callback of a walk stays within the output root's frame. */
  lemma CallbacksFramed(cwd: Loc, engine: Engine, root: Path, out: Path, walk: seq<WalkEntry>)
    requires Within(root, walk)
    ensures var cbs := Callbacks(cwd, engine, root, out, walk);
      forall j, t :: 0 <= j < |cbs| ==> Frame(t, cbs[j](t).1, Resolve(cwd, out))
  {
    forall j, t | 0 <= j < |walk| ensures Frame(t, Callbacks(cwd, engine, root, out, walk)[j](t).1, Resolve(cwd, out)) {
      StepFrame(t, cwd, engine, root, out, walk[j]);
    }
  }

  /** ProcessDir as a whole: when it returns normally, every walked file's
      output is in place, rendered or copied according to its name. */
  lemma ProcessDirOutputs(s0: FsModel.FsState, cwd: Loc, engine: Engine, templatesDir: string, out: Path, walk: seq<WalkEntry>, i: nat)
    requires Within(ParsePath(templatesDir), walk)
    requires ProcessDirSpec(s0, cwd, engine, templatesDir, out, walk).0.Ok?
    requires SeparateOutput(cwd, walk, Resolve(cwd, out))
    requires i < |walk| && IsFile(walk[i])
    ensures var dest := Resolve(cwd, out) + Rel(ParsePath(templatesDir), walk[i].path);
      var s1 := ProcessDirSpec(s0, cwd, engine, templatesDir, out, walk).1;
      && dest in s1.files
      && (IsTemplateName(Base(walk[i].path)) ==>
            RenderedOutput(s0, cwd, engine, walk[i].path, false) == Ok(s1.files[dest]))
      && (!IsTemplateName(Base(walk[i].path)) ==>
            FsModel.ReadFile(s0, Resolve(cwd, walk[i].path), false) == Done(s1.files[dest]))
  {
    var root := ParsePath(templatesDir);
    var o := Resolve(cwd, out);
    var cbs := Callbacks(cwd, engine, root, out, walk);
    var targets := Targets(o, root, walk);
    var wants := Wants(s0, cwd, engine, walk);
    CallbacksFramed(cwd, engine, root, out, walk);
    CallbacksWrite(s0, cwd, engine, root, out, walk);
    forall j, k | 0 <= j < k < |walk| && targets[j].Some? && targets[k].Some? ensures targets[j] != targets[k] {
      DistinctDestinations(root, walk[j].path, walk[k].path, o);
    }
    assert ProcessDirSpec(s0, cwd, engine, templatesDir, out, walk) == Run(s0, cbs, |walk|);
    RunOutputs(s0, cbs, o, targets, wants, |walk|, i);
  }

  /** Where the callbacks write: each walked file's output, nothing for the
      other entries. */
  function Targets(o: Loc, root: Path, walk: seq<WalkEntry>): (r: seq<Option<Loc>>)
    requires Within(root, walk)
    ensures |r| == |walk|
    ensures forall j :: 0 <= j < |walk| ==> r[j] == if IsFile(walk[j]) then Some(o + Rel(root, walk[j].path)) else None
  {
    seq(|walk|, j requires 0 <= j < |walk| => if IsFile(walk[j]) then Some(o + Rel(root, walk[j].path)) else None)
  }

  /** What the callbacks write: each walked file's expected output. */
  ghost function Wants(s0: FsModel.FsState, cwd: Loc, engine: Engine, walk: seq<WalkEntry>): (r: seq<Option<Bytes>>)
    ensures |r| == |walk|
    ensures forall j :: 0 <= j < |walk| ==> r[j] == if IsFile(walk[j]) then Expected(s0, cwd, engine, walk[j].path) else None
  {
    seq(|walk|, j requires 0 <= j < |walk| => if IsFile(walk[j]) then Expected(s0, cwd, engine, walk[j].path) else None)
  }

  /** A file callback writes its expected output at its target; a directory
      entry writes nothing. */
  lemma CallbacksWrite(s0: FsModel.FsState, cwd: Loc, engine: Engine, root: Path, out: Path, walk: seq<WalkEntry>)
    requires Within(root, walk)
    requires SeparateOutput(cwd, walk, Resolve(cwd, out))
    ensures var cbs := Callbacks(cwd, engine, root, out, walk);
      var targets := Targets(Resolve(cwd, out), root, walk);
      var wants := Wants(s0, cwd, engine, walk);
      forall j :: 0 <= j < |walk| ==> Writes(s0, Resolve(cwd, out), cbs[j], targets[j], wants[j])
  {
    var o := Resolve(cwd, out);
    var cbs := Callbacks(cwd, engine, root, out, walk);
    var targets := Targets(o, root, walk);
    var wants := Wants(s0, cwd, engine, walk);
    forall j | 0 <= j < |walk| ensures Writes(s0, o, cbs[j], targets[j], wants[j]) {
      forall t | Frame(s0, t, o) && cbs[j](t).0.Ok?
        ensures if targets[j].Some? then wants[j].Some? && cbs[j](t).1.files == t.files[targets[j].value := wants[j].value]
                else cbs[j](t).1.files == t.files
      {
        if IsFile(walk[j]) {
          StepEffect(t, cwd, engine, root, out, walk[j]);
          ExpectedAgree(s0, t, o, cwd, engine, walk[j].path);
        }
      }
    }
  }

  /** ProcessDir as a whole, on every file: when it returns normally, the
      files are the old ones with exactly the walked files' outputs written;
      directory entries write nothing of their own. */
  lemma ProcessDirWritesOnlyOutputs(s0: FsModel.FsState, cwd: Loc, engine: Engine, templatesDir: string, out: Path,
                                    walk: seq<WalkEntry>)
    requires Within(ParsePath(templatesDir), walk)
    requires ProcessDirSpec(s0, cwd, engine, templatesDir, out, walk).0.Ok?
    requires SeparateOutput(cwd, walk, Resolve(cwd, out))
    ensures var root := ParsePath(templatesDir);
      var files := ProcessDirSpec(s0, cwd, engine, templatesDir, out, walk).1.files;
      && (forall l :: l in files <==>
            l in s0.files || exists i :: 0 <= i < |walk| && IsFile(walk[i]) && l == Resolve(cwd, out) + Rel(root, walk[i].path))
      && (forall l :: l in files && (forall i :: 0 <= i < |walk| && IsFile(walk[i]) ==> l != Resolve(cwd, out) + Rel(root, walk[i].path)) ==>
            files[l] == s0.files[l])
  {
    var root := ParsePath(templatesDir);
    var o := Resolve(cwd, out);
    var cbs := Callbacks(cwd, engine, root, out, walk);
    var targets := Targets(o, root, walk);
    var wants := Wants(s0, cwd, engine, walk);
    CallbacksFramed(cwd, engine, root, out, walk);
    CallbacksWrite(s0, cwd, engine, root, out, walk);
    assert ProcessDirSpec(s0, cwd, engine, templatesDir, out, walk) == Run(s0, cbs, |walk|);
    RunOnlyTargets(s0, cbs, o, targets, wants, |walk|);
  }

  /** ProcessDir returns an error exactly when the templates root cannot be
      stat'ed, and then has written nothing; a root that is not a directory
      panics before the walk. */
  lemma ProcessDirErrors(s0: FsModel.FsState, cwd: Loc, engine: Engine, templatesDir: string, out: Path, walk: seq<WalkEntry>)
    requires Within(ParsePath(templatesDir), walk)
    ensures var (r, s1) := ProcessDirSpec(s0, cwd, engine, templatesDir, out, walk);
      var st := FsModel.Stat(s0, Resolve(cwd, ParsePath(templatesDir)), NamesDirectory(templatesDir));
      && (r.Fail? <==> templatesDir == "" || st.Failed?)
      && (r.Fail? ==> s1 == s0 && r.fault == if templatesDir == "" then Io(NotExist) else Io(st.error))
      && (templatesDir != "" && st == Done(false) ==> r == Abort(RootNotADirectory) && s1 == s0)
  {
    RunNeverFails(s0, Callbacks(cwd, engine, ParsePath(templatesDir), out, walk), |walk|);
  }

  /** Whatever its outcome, ProcessDir changes nothing outside the output root. */
  lemma ProcessDirFrame(s0: FsModel.FsState, cwd: Loc, engine: Engine, templatesDir: string, out: Path, walk: seq<WalkEntry>)
    requires Within(ParsePath(templatesDir), walk)
    ensures Frame(s0, ProcessDirSpec(s0, cwd, engine, templatesDir, out, walk).1, Resolve(cwd, out))
  {
    var root := ParsePath(templatesDir);
    CallbacksFramed(cwd, engine, root, out, walk);
    RunFrame(s0, Callbacks(cwd, engine, root, out, walk), |walk|, Resolve(cwd, out));
  }

  /** A walk that returned normally met no walk error. */
  lemma RunOkVisits(s: FsModel.FsState, cwd: Loc, engine: Engine, root: Path, out: Path,
                    walk: seq<WalkEntry>, n: nat)
    requires Within(root, walk) && n <= |walk|
    requires Run(s, Callbacks(cwd, engine, root, out, walk), n).0.Ok?
    ensures forall i :: 0 <= i < n ==> walk[i].Visit?
  {
    var cbs := Callbacks(cwd, engine, root, out, walk);
    RunOkEach(s, cbs, n);
    forall i | 0 <= i < n
      ensures walk[i].Visit?
    {
      StepOkVisits(Run(s, cbs, i).1, cwd, engine, root, out, walk, i);
    }
  }

  /** In a walk that returned normally, every callback returned normally. */
  lemma {:induction false} RunOkEach(s: FsModel.FsState, cbs: seq<Callback>, n: nat)
    requires n <= |cbs| && Run(s, cbs, n).0.Ok?
    ensures forall i :: 0 <= i < n ==> cbs[i](Run(s, cbs, i).1).0.Ok?
    decreases n
  {
    if n > 0 {
      assert Run(s, cbs, n - 1).0.Ok?;
      RunOkEach(s, cbs, n - 1);
    }
  }

  /** A walk step that returned normally was a visit. */
  lemma StepOkVisits(t: FsModel.FsState, cwd: Loc, engine: Engine, root: Path, out: Path, walk: seq<WalkEntry>, i: nat)
    requires Within(root, walk) && i < |walk|
    requires Callbacks(cwd, engine, root, out, walk)[i](t).0.Ok?
    ensures walk[i].Visit?
  {
    assert Callbacks(cwd, engine, root, out, walk)[i](t) == Step(t, cwd, engine, root, out, walk[i]);
  }

  /** ProcessDir on a walk of the state it runs on: when it returns
      normally, every regular file under the templates root has its output
      at the same relative location under the output root, holding its
      rendering or, for a file that is not a template, its own bytes. */
  lemma ProcessDirCovers(s0: FsModel.FsState, cwd: Loc, engine: Engine, templatesDir: string, out: Path,
                         walk: seq<WalkEntry>, l: Loc)
    requires FsModel.WellFormed(s0)
    requires Within(ParsePath(templatesDir), walk) && WalkOf(s0, cwd, templatesDir, walk)
    requires ProcessDirSpec(s0, cwd, engine, templatesDir, out, walk).0.Ok?
    requires SeparateOutput(cwd, walk, Resolve(cwd, out))
    requires l in s0.files && IsPrefix(Resolve(cwd, ParsePath(templatesDir)), l)
    ensures var rootLoc := Resolve(cwd, ParsePath(templatesDir));
      var dest := Resolve(cwd, out) + l[|rootLoc|..];
      var s1 := ProcessDirSpec(s0, cwd, engine, templatesDir, out, walk).1;
      && |rootLoc| < |l| && dest in s1.files
      && exists i :: 0 <= i < |walk| && IsFile(walk[i]) && Resolve(cwd, walk[i].path) == l
           && Expected(s0, cwd, engine, walk[i].path) == Some(s1.files[dest])
           && (!IsTemplateName(Base(walk[i].path)) ==> s1.files[dest] == s0.files[l])
  {
    var root := ParsePath(templatesDir);
    var rootLoc := Resolve(cwd, root);
    var o := Resolve(cwd, out);
    var cbs := Callbacks(cwd, engine, root, out, walk);
    var s1 := ProcessDirSpec(s0, cwd, engine, templatesDir, out, walk).1;
    assert FsModel.IsDir(s0, rootLoc);
    assert (ProcessDirSpec(s0, cwd, engine, templatesDir, out, walk).0, s1) == Run(s0, cbs, |walk|);
    RunOkVisits(s0, cwd, engine, root, out, walk, |walk|);
    var i :| 0 <= i < |walk| && walk[i].Visit? && Resolve(cwd, walk[i].path) == l;
    assert FsModel.Stat(s0, l, false) == Done(false);
    ProcessDirOutputs(s0, cwd, engine, templatesDir, out, walk, i);
    ResolveBeneath(cwd, root, walk[i].path);
    assert l[|rootLoc|..] == Rel(root, walk[i].path);
  }

  /** ScanDir on a walk of the state it reads: every regular file under the
      root is visited, and one that registers leaves its key in the map. */
  lemma ScanCovers(s: FsModel.FsState, cwd: Loc, templatesDir: string, walk: seq<WalkEntry>, l: Loc)
    requires FsModel.WellFormed(s)
    requires WalkOf(s, cwd, templatesDir, walk)
    requires ScanFold(cwd, templatesDir, walk).Ok?
    requires l in s.files && IsPrefix(Resolve(cwd, ParsePath(templatesDir)), l)
    ensures exists i :: 0 <= i < |walk| && IsFile(walk[i]) && Resolve(cwd, walk[i].path) == l &&
              (Registers(templatesDir, walk[i]) ==> ProjectName(walk[i]) in ScanFold(cwd, templatesDir, walk).value)
  {
    ScanAbortsOnWalkError(cwd, templatesDir, walk);
    var i :| 0 <= i < |walk| && walk[i].Visit? && Resolve(cwd, walk[i].path) == l;
    assert FsModel.Stat(s, l, false) == Done(false);
    if Registers(templatesDir, walk[i]) {
      var k := ProjectName(walk[i]);
      LastProjectIsLast(templatesDir, walk, k, i);
      ScanAt(cwd, templatesDir, walk, k);
    }
  }

  /** ScanDir of a root that cannot be stat'ed is fatal: filepath.Walk hands
      the callback only that error, and the callback calls log.Fatal. This
      is the default "/compose-templates" when it is missing. */
  lemma ScanMissingRootFatal(s: FsModel.FsState, cwd: Loc, templatesDir: string, walk: seq<WalkEntry>)
    requires WalkOf(s, cwd, templatesDir, walk) && StatName(s, cwd, templatesDir).Failed?
    ensures ScanFold(cwd, templatesDir, walk) == Abort(WalkFailed(StatName(s, cwd, templatesDir).error))
  {
    assert walk[..0] == [];
  }

  // ---------------------------------------------------------------------
  // What ProcessFile reads and writes

  /** For a template two levels below a directory, the values file is
      "values.yml" in that directory and the include file sits beside it. */
  lemma ValuesInGrandparent(absolute: bool, base: seq<string>, sub: string, name: string)
    ensures var tpl := Path(absolute, base + [sub, name]);
      && ValuesPath(tpl) == Path(absolute, base + [ValuesFile])
      && IncludesPath(tpl) == Path(absolute, base + [IncludesFile])
  {
    var parts := base + [sub, name];
    assert parts[..|parts| - 1] == base + [sub];
    assert (base + [sub])[..|base|] == base;
  }

  /** The rendering depends on three files only: the template, the values
      file and the include file. */
  lemma RenderedOutputLocal(s0: FsModel.FsState, s1: FsModel.FsState, cwd: Loc, engine: Engine, tpl: Path, dirOnly: bool)
    requires FsModel.ReadFile(s1, Resolve(cwd, tpl), dirOnly) == FsModel.ReadFile(s0, Resolve(cwd, tpl), dirOnly)
    requires FsModel.ReadFile(s1, Resolve(cwd, ValuesPath(tpl)), false) == FsModel.ReadFile(s0, Resolve(cwd, ValuesPath(tpl)), false)
    requires FsModel.ReadFile(s1, Resolve(cwd, IncludesPath(tpl)), false) == FsModel.ReadFile(s0, Resolve(cwd, IncludesPath(tpl)), false)
    ensures RenderedOutput(s1, cwd, engine, tpl, dirOnly) == RenderedOutput(s0, cwd, engine, tpl, dirOnly)
  {
  }

  /** ProcessFile writes one file, the rendering, at the output location, and
      only when every step succeeds; a failed rendering changes nothing at all,
      and any failure leaves every file as it was. */
  lemma ProcessFileEffect(s: FsModel.FsState, cwd: Loc, engine: Engine, tpl: Path, dirOnly: bool, out: Path)
    ensures var (r, s1) := ProcessFileSpec(s, cwd, engine, tpl, dirOnly, out);
      var rendered := RenderedOutput(s, cwd, engine, tpl, dirOnly);
      && (rendered.Fail? ==> r == Fail(rendered.fault) && s1 == s)
      && (r.Ok? ==> rendered.Ok? && s1.files == s.files[Resolve(cwd, out) := rendered.value])
      && (!r.Ok? ==> s1.files == s.files)
      && WritesOnly(s, s1, Resolve(cwd, Dir(out)), Resolve(cwd, out))
  {
    FsModel.MkdirAllEffect(s, Resolve(cwd, Dir(out)));
  }

  /** Without a values file nothing is rendered or written, whatever the
      engine would have done. */
  lemma MissingValuesFails(s: FsModel.FsState, cwd: Loc, engine: Engine, tpl: Path, dirOnly: bool, out: Path)
    requires FsModel.ReadFile(s, Resolve(cwd, tpl), dirOnly).Done?
    requires Resolve(cwd, ValuesPath(tpl)) !in s.files
    ensures ProcessFileSpec(s, cwd, engine, tpl, dirOnly, out).1 == s
    ensures ProcessFileSpec(s, cwd, engine, tpl, dirOnly, out).0.Fail?
    ensures ProcessFileSpec(s, cwd, engine, tpl, dirOnly, out).0.fault.ReadValues?
  {
  }

  /** A template named so that the OS insists on a directory cannot be read,
      so ProcessFile fails at its first step and changes nothing. */
  lemma DirectoryNamedTemplateFails(s: FsModel.FsState, cwd: Loc, engine: Engine, tpl: Path, out: Path)
    ensures ProcessFileSpec(s, cwd, engine, tpl, true, out).1 == s
    ensures ProcessFileSpec(s, cwd, engine, tpl, true, out).0.Fail?
    ensures ProcessFileSpec(s, cwd, engine, tpl, true, out).0.fault.ReadTemplate?
  {
  }

  // ---------------------------------------------------------------------
  // ScanDir

  /** A walked entry that registers a project: a compose file whose
      directory, as path.Dir writes it, is not the root as given. */
  predicate Registers(templatesDir: string, e: WalkEntry) {
    e.Visit? && !e.isDir && Format(Dir(e.path)) != templatesDir && IsComposeFileName(Base(e.path))
  }

  /** The key: the base name of the directory holding the compose file. */
  function ProjectName(e: WalkEntry): string
    requires e.Visit?
  {
    Base(Dir(e.path))
  }

  /** The record stored: only the name and the absolute template directory. */
  function ProjectRecord(cwd: Loc, e: WalkEntry): Containers.ContainerInfo
    requires e.Visit?
  {
    Containers.EmptyInfo.(name := ProjectName(e), templateDir := FormatLoc(Resolve(cwd, Dir(e.path))))
  }

  /** The walk's callbacks over the project map, up to a fatal walk error. */
  function ScanFold(cwd: Loc, templatesDir: string, walk: seq<WalkEntry>): (r: Result<Containers.ComposeMap>)
    ensures !r.Fail?
    decreases |walk|
  {
    if walk == [] then Ok(map[])
    else
      var sofar := ScanFold(cwd, templatesDir, walk[..|walk| - 1]);
      var e := walk[|walk| - 1];
      if !sofar.Ok? then sofar
      else if e.WalkError? then Abort(WalkFailed(e.error))
      else if Registers(templatesDir, e) then Ok(sofar.value[ProjectName(e) := ProjectRecord(cwd, e)])
      else sofar
  }

  /** `e` registers a project under the name `k`. */
  predicate RegistersAs(templatesDir: string, e: WalkEntry, k: string) {
    Registers(templatesDir, e) && ProjectName(e) == k
  }

  /** The last walked entry registering under `k`. */
  function LastProject(templatesDir: string, walk: seq<WalkEntry>, k: string): (r: Option<nat>)
    ensures r.Some? ==> r.value < |walk| && RegistersAs(templatesDir, walk[r.value], k)
    decreases |walk|
  {
    if walk == [] then None
    else if RegistersAs(templatesDir, walk[|walk| - 1], k) then Some(|walk| - 1)
    else LastProject(templatesDir, walk[..|walk| - 1], k)
  }

  /** No later entry registers under `k`, and none at all when there is no
      last one. */
  lemma {:induction false} LastProjectIsLast(templatesDir: string, walk: seq<WalkEntry>, k: string, j: int)
    requires 0 <= j < |walk| && RegistersAs(templatesDir, walk[j], k)
    ensures LastProject(templatesDir, walk, k).Some?
    ensures j <= LastProject(templatesDir, walk, k).value
    decreases |walk|
  {
    if j < |walk| - 1 && !RegistersAs(templatesDir, walk[|walk| - 1], k) {
      var init := walk[..|walk| - 1];
      assert init[j] == walk[j];
      LastProjectIsLast(templatesDir, init, k, j);
    }
  }

  /** The scan is fatal exactly when the walk reports an error. */
  lemma {:induction false} ScanAbortsOnWalkError(cwd: Loc, templatesDir: string, walk: seq<WalkEntry>)
    ensures ScanFold(cwd, templatesDir, walk).Abort? <==> exists i :: 0 <= i < |walk| && walk[i].WalkError?
    decreases |walk|
  {
    if walk != [] {
      var init := walk[..|walk| - 1];
      ScanAbortsOnWalkError(cwd, templatesDir, init);
      assert forall i :: 0 <= i < |init| ==> init[i] == walk[i];
      if exists i :: 0 <= i < |walk| && walk[i].WalkError? {
        var i :| 0 <= i < |walk| && walk[i].WalkError?;
        if i < |init| {
          assert init[i].WalkError?;
        }
      }
    }
  }

  /** The map the scan builds: a key for every name some compose file's
      directory carries, holding the record of the last such file. */
  lemma {:induction false} ScanAt(cwd: Loc, templatesDir: string, walk: seq<WalkEntry>, k: string)
    requires ScanFold(cwd, templatesDir, walk).Ok?
    ensures var m := ScanFold(cwd, templatesDir, walk).value;
      && (k in m <==> LastProject(templatesDir, walk, k).Some?)
      && (k in m ==> m[k] == ProjectRecord(cwd, walk[LastProject(templatesDir, walk, k).value]))
    decreases |walk|
  {
    if walk != [] {
      var init := walk[..|walk| - 1];
      var e := walk[|walk| - 1];
      var sofar := ScanFold(cwd, templatesDir, init).value;
      ScanAt(cwd, templatesDir, init, k);
      if RegistersAs(templatesDir, e, k) {
        assert ScanFold(cwd, templatesDir, walk).value == sofar[k := ProjectRecord(cwd, e)];
      } else {
        var last := LastProject(templatesDir, init, k);
        assert LastProject(templatesDir, walk, k) == last;
        assert k in ScanFold(cwd, templatesDir, walk).value <==> k in sofar;
        assert k in sofar ==> ScanFold(cwd, templatesDir, walk).value[k] == sofar[k];
        if last.Some? {
          assert walk[last.value] == init[last.value];
        }
      }
    }
  }

  /** Every stored record is keyed by its own name and has no field set but
      the name and an absolute template directory. */
  lemma ScanRecords(cwd: Loc, templatesDir: string, walk: seq<WalkEntry>, k: string)
    requires ScanFold(cwd, templatesDir, walk).Ok?
    requires k in ScanFold(cwd, templatesDir, walk).value
    ensures var info := ScanFold(cwd, templatesDir, walk).value[k];
      && info == Containers.EmptyInfo.(name := k, templateDir := info.templateDir)
      && |info.templateDir| > 0 && info.templateDir[0] == '/'
  {
    ScanAt(cwd, templatesDir, walk, k);
    var e := walk[LastProject(templatesDir, walk, k).value];
    var loc := Resolve(cwd, Dir(e.path));
    if loc != [] {
      JoinedLeadingSlash(loc);
    }
  }

  /** With the root written as path.Clean would write it, a compose file
      directly in the root registers nothing. */
  lemma ScanSkipsRootFiles(templatesDir: string, e: WalkEntry)
    requires templatesDir == Format(ParsePath(templatesDir))
    requires e.Visit? && Dir(e.path) == ParsePath(templatesDir)
    ensures !Registers(templatesDir, e)
  {
  }

  /** The key is the name of the directory that holds the compose file: a
      project laid out as api/values.yml and api/templates/compose.yml is
      registered as "templates", not as "api". */
  lemma ScanKeyIsHoldingDirectory(cwd: Loc)
    ensures var compose := Path(true, ["t", "api", "templates", "compose.yml"]);
      ScanFold(cwd, "/t", [Visit(compose, false)]) ==
        Ok(map["templates" := Containers.EmptyInfo.(name := "templates", templateDir := "/t/api/templates")])
  {
    var walk := [Visit(Path(true, ["t", "api", "templates", "compose.yml"]), false)];
    var three := ["t", "api", "templates"];
    assert Dir(walk[0].path) == Path(true, three);
    assert Joined(three) == "/t/api/templates" by {
      assert three[..2] == ["t", "api"] && three[..2][..1] == ["t"] && ["t"][..0] == [];
      assert Joined(["t"]) == "/t";
      assert Joined(["t", "api"]) == "/t/api";
    }
    assert walk[..0] == [];
    assert Format(Dir(walk[0].path)) == "/t/api/templates";
    assert Registers("/t", walk[0]);
    assert ProjectName(walk[0]) == "templates";
    assert FormatLoc(Resolve(cwd, Dir(walk[0].path))) == "/t/api/templates";
  }

  /** A root given with a trailing slash never equals path.Dir's text, so a
      compose file directly in the root registers the root itself. */
  lemma ScanRootWithSlash(cwd: Loc)
    ensures var walk := [Visit(Path(true, ["t"]), true), Visit(Path(true, ["t", "compose.yml"]), false)];
      ScanFold(cwd, "/t/", walk) ==
        Ok(map["t" := Containers.EmptyInfo.(name := "t", templateDir := "/t")])
  {
    var walk := [Visit(Path(true, ["t"]), true), Visit(Path(true, ["t", "compose.yml"]), false)];
    assert walk[..2] == walk && walk[..2][..1] == walk[..1] && walk[..1][..0] == [];
    assert ["t", "compose.yml"][..1] == ["t"];
    assert Joined(["t"]) == "/t";
    assert ScanFold(cwd, "/t/", walk[..1]) == Ok(map[]);
  }

  /** A root that is itself a compose file is visited as a file, and its
      directory differs from the root, so it registers that directory. */
  lemma ScanFileRoot(cwd: Loc)
    ensures var walk := [Visit(Path(true, ["t", "compose.yml"]), false)];
      ScanFold(cwd, "/t/compose.yml", walk) ==
        Ok(map["t" := Containers.EmptyInfo.(name := "t", templateDir := "/t")])
  {
    var walk := [Visit(Path(true, ["t", "compose.yml"]), false)];
    assert walk[..0] == [];
    assert ["t", "compose.yml"][..1] == ["t"];
    assert Joined(["t"]) == "/t";
  }

  /** ScanDir(templatesDir): the map the walk's callbacks build; a walk error
      is fatal, and otherwise no error is returned. */
  method ScanDir(cwd: Loc, templatesDir: string, walk: seq<WalkEntry>) returns (r: Result<Containers.ComposeMap>)
    ensures r == ScanFold(cwd, templatesDir, walk)
  {
    var containerMap: Containers.ComposeMap := map[];
    var i := 0;
    while i < |walk|
      invariant 0 <= i <= |walk|
      invariant ScanFold(cwd, templatesDir, walk[..i]) == Ok(containerMap)
    {
      assert walk[..i + 1][..i] == walk[..i];
      var e := walk[i];
      if e.WalkError? {
        ScanFoldStops(cwd, templatesDir, walk, i + 1);
        return Abort(WalkFailed(e.error));
      }
      if !e.isDir && Format(Dir(e.path)) != templatesDir && IsComposeFileName(Base(e.path)) {
        var name := Base(Dir(e.path));
        var absPath := FormatLoc(Resolve(cwd, Dir(e.path)));
        containerMap := containerMap[name := Containers.EmptyInfo.(name := name, templateDir := absPath)];
      }
      i := i + 1;
    }
    assert walk[..i] == walk;
    r := Ok(containerMap);
  }

  /** Once the scan is fatal, the rest of the walk does not matter. */
  lemma {:induction false} ScanFoldStops(cwd: Loc, templatesDir: string, walk: seq<WalkEntry>, k: nat)
    requires k <= |walk|
    ensures ScanFold(cwd, templatesDir, walk[..k]).Abort? ==>
      ScanFold(cwd, templatesDir, walk) == ScanFold(cwd, templatesDir, walk[..k])
    decreases |walk| - k
  {
    if k < |walk| {
      ScanFoldStops(cwd, templatesDir, walk, k + 1);
      assert walk[..k + 1][..k] == walk[..k];
    } else {
      assert walk[..k] == walk;
    }
  }

  // ---------------------------------------------------------------------
  // InstallCompose

  /** One run of an external program: its arguments, working directory and
      environment. */
  datatype Command = Command(program: string, args: seq<string>, dir: Path, env: seq<string>)

  /** The deploy script, with the raw string's own line breaks and tabs:
      pull the images, then start the project detached, removing orphans,
      stopping at the first failing step. */
  const DeployScript: string :=
    "\n\t\t\tset -e\n\t\t\tdocker compose --env-file $ENV_FILE pull\n\t\t\tdocker compose --env-file $ENV_FILE up -d --remove-orphans\n\t\t"

  /** The command that deploys the project rendered into `dir`: the process
      environment extended with the Docker host and the environment file. */
  function DeployCommand(dir: Path, environ: seq<string>, config: Config.Config): (c: Command)
    ensures c.program == "bash" && c.args == ["-c", DeployScript] && c.dir == dir
    ensures |c.env| == |environ| + 2
    ensures c.env[..|environ|] == environ
    ensures c.env[|environ|..] == ["DOCKER_HOST=" + config.dockerHost, "ENV_FILE=" + config.environmentFile]
  {
    Command("bash", ["-c", DeployScript], dir, environ + ["DOCKER_HOST=" + config.dockerHost, "ENV_FILE=" + config.environmentFile])
  }

  /** The programs the process starts. Whether a command succeeds is given
      from outside; the shell only records what it was asked to run. */
  class Shell {
    var runs: seq<Command>
    /** os.Environ(). */
    const environ: seq<string>
    const succeeds: Command -> bool

    constructor (environ: seq<string>, succeeds: Command -> bool)
      ensures runs == [] && this.environ == environ && this.succeeds == succeeds
    {
      runs := [];
      this.environ, this.succeeds := environ, succeeds;
    }

    /** exec.Cmd.Run: true when the command exits with status zero. */
    method Run(c: Command) returns (ok: bool)
      modifies this`runs
      ensures runs == old(runs) + [c] && ok == succeeds(c)
    {
      runs := runs + [c];
      ok := succeeds(c);
    }
  }

  /** The template directory the registry holds for `name`; a name not in the
      registry reads as the zero record, whose directory is empty. */
  function TemplateDirOf(m: Containers.ComposeMap, name: string): (d: string)
    ensures name !in m ==> d == ""
    ensures name in m ==> d == m[name].templateDir
  {
    if name in m then m[name].templateDir else ""
  }

  /** What InstallCompose achieves before the deploy command: the outcome so
      far, the workspace it rendered into and the filesystem at that point. */
  function Prepare(s: FsModel.FsState, cwd: Loc, tempDir: Loc, names: seq<string>, engine: Engine,
                   name: string, templateDir: string, walk: seq<WalkEntry>): (r: (Result<()>, Path, FsModel.FsState))
    requires Within(ParsePath(templateDir), walk)
  {
    var (made, s1) := FsModel.MkdirTemp(s, tempDir, names);
    if made.Failed? then (Fail(Io(made.error)), Path(true, tempDir), s1)
    else
      var work := JoinString(Path(true, made.value), name);
      var (sub, s2) := FsModel.Mkdir(s1, Resolve(cwd, work));
      if sub.Failed? then (Fail(Io(sub.error)), work, s2)
      else
        var (rendered, s3) := ProcessDirSpec(s2, cwd, engine, templateDir, work, walk);
        (rendered, work, s3)
  }

  /** A project the registry does not know is never deployed: its empty
      template directory makes ProcessDir fail. */
  lemma UnknownProjectNotDeployed(s: FsModel.FsState, cwd: Loc, tempDir: Loc, names: seq<string>, engine: Engine,
                                  name: string, m: Containers.ComposeMap, walk: seq<WalkEntry>)
    requires name !in m
    requires Within(ParsePath(TemplateDirOf(m, name)), walk)
    ensures Prepare(s, cwd, tempDir, names, engine, name, TemplateDirOf(m, name), walk).0.Fail?
  {
  }

  /** When the deploy command runs, the workspace is a fresh directory inside
      a fresh temporary directory, and it holds what ProcessDir rendered. */
  lemma PreparedWorkspace(s: FsModel.FsState, cwd: Loc, tempDir: Loc, names: seq<string>, engine: Engine,
                          name: string, templateDir: string, walk: seq<WalkEntry>)
    requires Within(ParsePath(templateDir), walk)
    requires Prepare(s, cwd, tempDir, names, engine, name, templateDir, walk).0.Ok?
    requires Plain(Split(name))
    ensures var (_, work, _) := Prepare(s, cwd, tempDir, names, engine, name, templateDir, walk);
      exists i :: 0 <= i < |names| && work == Path(true, tempDir + [names[i]] + Split(name))
  {
    var (made, s1) := FsModel.MkdirTemp(s, tempDir, names);
    ResolveExtend(cwd, Path(true, made.value), Split(name));
  }

  /** Removing a directory that was created fresh, after changes that stayed
      inside it, gives back the state from before it was created. */
  lemma RemoveWorkspace(s1: FsModel.FsState, s3: FsModel.FsState, o: Loc)
    requires FsModel.WellFormed(s1) && o !in s1.dirs && o !in s1.files
    requires FsModel.WellFormed(s1.(dirs := s1.dirs + {o}))
    requires FsModel.WellFormed(s3) && Frame(s1.(dirs := s1.dirs + {o}), s3, o)
    ensures FsModel.RemoveAll(s3, o) == s1
  {
    var s2 := s1.(dirs := s1.dirs + {o});
    var r := FsModel.RemoveAll(s3, o);
    FsModel.NothingUnderMissing(s1, o);
    forall k | k in s3.dirs && !IsPrefix(o, k)
      ensures k in s1.dirs
    {
      if k !in s2.dirs {
        FsModel.AncestorsAreDirs(s2, o, k);
      }
    }
    assert r.dirs == s1.dirs;
    assert r.files == s1.files;
  }

  /** The outcome of the deploy step given what came before it: the command
      runs exactly when the preparation succeeded, and its failure is the
      result's. */
  function DeployResult(prep: Result<()>, deploy: Command, succeeds: Command -> bool): (r: Result<()>)
    ensures r.Ok? <==> prep.Ok? && succeeds(deploy)
    ensures !prep.Ok? ==> r == prep
    ensures prep.Ok? && !succeeds(deploy) ==> r == Fail(DeployFailed)
  {
    if !prep.Ok? then prep else if succeeds(deploy) then Ok(()) else Fail(DeployFailed)
  }

  predicate Deployed(prep: Result<()>, deploy: Command, succeeds: Command -> bool,
                     before: seq<Command>, after: seq<Command>, r: Result<()>) {
    && r == DeployResult(prep, deploy, succeeds)
    && after == if prep.Ok? then before + [deploy] else before
  }

  /** ProcessDir into the workspace, then the deploy command from it. */
  method RenderAndDeploy(fs: Os.FileSystem, shell: Shell, engine: Engine, templateDir: string, work: Path,
                         walk: seq<WalkEntry>, config: Config.Config) returns (r: Result<()>)
    requires fs.Valid() && Within(ParsePath(templateDir), walk)
    modifies fs, shell`runs
    ensures fs.Valid()
    ensures var (rendered, s3) := ProcessDirSpec(old(fs.State()), fs.cwd, engine, templateDir, work, walk);
      && fs.State() == s3
      && Deployed(rendered, DeployCommand(work, shell.environ, config), shell.succeeds, old(shell.runs), shell.runs, r)
  {
    ghost var spec := ProcessDirSpec(fs.State(), fs.cwd, engine, templateDir, work, walk);
    r := ProcessDir(fs, engine, templateDir, work, walk);
    assert (r, fs.State()) == spec;
    if r.Ok? {
      var ok := shell.Run(DeployCommand(work, shell.environ, config));
      r := if ok then Ok(()) else Fail(DeployFailed);
    }
  }

  /** InstallCompose(name): render the project into a fresh directory named
      after it inside a fresh temporary directory, deploy from there, and
      remove both directories whatever happened. */
  method InstallCompose(name: string, client: Containers.Containers, config: Config.Config, fs: Os.FileSystem,
                        shell: Shell, engine: Engine, walk: seq<WalkEntry>, names: seq<string>)
    returns (r: Result<()>)
    requires fs.Valid()
    requires Within(ParsePath(TemplateDirOf(client.containerMap, name)), walk)
    modifies fs, shell`runs
    ensures fs.Valid() && fs.State() == old(fs.State())
    ensures var (prep, work, _) := Prepare(old(fs.State()), fs.cwd, fs.tempDir, names, engine, name,
                                           TemplateDirOf(client.containerMap, name), walk);
      Deployed(prep, DeployCommand(work, shell.environ, config), shell.succeeds, old(shell.runs), shell.runs, r)
  {
    var s0 := fs.State();
    var made := fs.MkdirTemp(names);
    if made.Failed? {
      return Fail(Io(made.error));
    }
    var tmp := made.value;
    var s1 := fs.State();
    var work := JoinString(tmp, name);
    var sub := fs.Mkdir(work);
    if sub.Failed? {
      RemoveWorkspace(s0, s1, tmp.parts);
      fs.RemoveAll(tmp);
      return Fail(Io(sub.error));
    }
    var s2 := fs.State();
    var templateDir := TemplateDirOf(client.GetContainerMap(), name);
    assert Prepare(s0, fs.cwd, fs.tempDir, names, engine, name, templateDir, walk) ==
      (ProcessDirSpec(s2, fs.cwd, engine, templateDir, work, walk).0, work, ProcessDirSpec(s2, fs.cwd, engine, templateDir, work, walk).1);
    r := RenderAndDeploy(fs, shell, engine, templateDir, work, walk, config);
    ProcessDirFrame(s2, fs.cwd, engine, templateDir, work, walk);
    RemoveWorkspace(s1, fs.State(), fs.Locate(work));
    fs.RemoveAll(work);
    RemoveWorkspace(s0, s1, tmp.parts);
    fs.RemoveAll(tmp);
  }
}
