# Seahorse, modelled in Dafny

Seahorse is a small service for docker-compose projects. Each project is a
directory holding `values.yml` (and optionally `includes.template`) plus a
sub-directory of YAML templates. Seahorse does five things:

- It scans a templates root and registers every directory holding a
  `compose.yml` or `docker-compose.yml`.
- It merges those projects with the containers the Docker daemon reports.
- It serves a page with start, stop, restart and install/update actions.
- To install a project, it renders the templates into a fresh temporary
  workspace and runs `docker compose pull` and `docker compose up` there.
- From the command line it can render one directory tree (`-dir`/`-d`) or
  one file (`-file`/`-f`) into the configured output directory.

This project models that sequential logic and proves what it promises.

- `common.dfy` holds the shared types: bytes, locations (`Loc`, a sequence
  of components), I/O errors and faults. `Result` tells a returned error
  (`Fail`) apart from a panic or `log.Fatal` (`Abort`).
- `paths.dfy` covers Go's lexical path handling: `path.Clean`, `path.Dir`,
  `path.Base`, `path.Join`, `filepath.Rel`, and resolution against the
  working directory.
- `fsmodel.dfy` models the filesystem as a value. It is a map from location
  to bytes, a set of directories and a set of locations the OS refuses.
  Each `os` call the core makes is a function from a state to an outcome and
  the next state.
- `os.dfy` is the mutable filesystem object. Its methods are proved to act as
  those functions and to keep the state well formed.
- `text.dfy` covers:
  - the render-or-copy rule for file names;
  - the compose-file names;
  - the `.Values` strip, proved equal to Go's `strings.ReplaceAll`, which
    works by repeated `strings.Index`.
- `compose.dfy` holds `ProcessFile`, `ProcessDir`, `ScanDir` and
  `InstallCompose`.
  - `filepath.Walk` is a parameter: the sequence of entries it hands to the
    callback. `WalkOf` ties such a sequence to a filesystem state: the first
    call is for the root, and is the only one, carrying the stat error,
    when the root cannot be stat'ed; each visit agrees with the state about
    being a directory; and every regular file under the root is visited
    unless the walk reports an error.
  - The template engine and YAML parser are function-valued parameters.
  - The shell is an object that records the commands it is asked to run.
- `containers.dfy` holds the registry (`ContainerInfo`, `ComposeMap`),
  `CreateContainerMap`, and the name-to-ID scan behind `Start` and `Stop`.
  The Docker daemon is an object holding the live list and logging the calls
  made to it.
- `config.dfy` covers loading the configuration and filling in defaults.
- `cli.dfy` covers:
  - the flag package's parsing of `-dir/-d`, `-file/-f` and `-help/-h`;
  - `main`'s choice of mode;
  - the single-file output path;
  - `main` itself.
- `server.dfy` covers:
  - the handlers' POST gate;
  - the start, stop and restart actions, followed by the read-copy-write
    refresh of `State`;
  - the install handler;
  - the routes.

Points where the code's behaviour is easy to misread; the model follows the code:

- **Registry key.** A project is registered under the name of the directory
  that directly holds its compose file (`path.Base(path.Dir(file))`). Its
  template directory is that same directory. For the layout
  `api/values.yml` + `api/templates/compose.yml` the key is therefore
  `templates`, not the project directory `api`. `ScanKeyIsHoldingDirectory`
  states this.
- **Root-level compose files.** The root-level exclusion compares
  `path.Dir`'s text with the root string as given. A root written with a
  trailing slash therefore registers a compose file placed directly in it
  (`ScanRootWithSlash`).
- **Two `LoadConfig` functions.** `main.go` keeps its own copy of
  `LoadConfig` with the same steps and defaults. The model has one
  definition, `Config.LoadConfig`, and `Cli.LoadConfig` calls it on
  `config.yml`.
- **Two `Config` types.**
  - `main.go` declares its own `Config` type, and `main` hands a
    `*main.Config` to `startServer` (main.go:132), which takes a
    `*config.Config`. As written, the two files do not build together.
    `InstallCompose` gets the server's `*config.Config` through the install
    handler (server.go:144,160).
  - The model has one configuration type with a public `useRemoteDocker`.
- **Names the OS reads itself.** `os.Stat` and `os.ReadFile` see the name
  as given, not cleaned. A name that ends in a slash or in "." insists on a
  directory, and a name that runs through a regular file fails with "not a
  directory" (ENOTDIR). `os.IsNotExist` is false for that error, so
  `LoadConfig` returns the defaults together with it
  (`NotADirectoryIsAnError`), and `-file x.yml/` is not read
  (`DirectoryNamedTemplateFails`).
- **Empty file names.** Neither `LoadConfig` nor `ProcessDir` checks for an
  empty name. The model's `""` branches stand for what `os.Stat("")` does,
  which is to fail with "no such file". This is how an unregistered name
  reaches `InstallCompose` and fails there.
- **Failures that are fatal.** A failed container listing in
  `CreateContainerMap` is `log.Fatal` (an `Abort`), not a returned error.
  So is a walk error in `ScanDir`.

## Model

| member | source | states |
|---|---|---|
| Paths.Dir | compose_template/template_handler.go:29 | path.Dir keeps absoluteness, drops exactly the last component, and leaves "/" and "." as they are |
| Paths.Base | compose_template/template_handler.go:162 | path.Base: the last component, "/" for the root and "." for "."; DirBase and BaseOfChild state its meaning |
| Paths.DirBase | compose_template/template_handler.go:162 | path.Dir and path.Base of a path with components are its parent and last name, which put back together give the path |
| Paths.BaseOfChild | compose_template/template_handler.go:162 | the base name of a joined child is the name, and its directory is the parent |
| Paths.RelSplits | compose_template/template_handler.go:110 | filepath.Rel of a walked path is made of plain names, and root + Rel is the path again |
| Paths.Rel | compose_template/template_handler.go:110 | filepath.Rel of a path beneath the root: the components after the root; RelSplits states its meaning |
| Paths.ResolveExtend | compose_template/template_handler.go:115 | filepath.Join of a directory with plain components appends them, and resolves to the directory's location followed by them |
| Paths.Extend | compose_template/template_handler.go:115 | filepath.Join of a directory and relative components, cleaned; ResolveExtend and CleanAppend state its meaning |
| Paths.JoinString | main.go:142 | path.Join and filepath.Join of a directory and any string: the string's pieces cleaned onto the directory; JoinPlain states its meaning |
| Paths.JoinPlain | compose_template/template_handler.go:186 | joining a plain name gives the directory's child of that name |
| Paths.ResolveBeneath | compose_template/template_handler.go:110-115 | a path beneath the root resolves to the root's location followed by its relative path |
| Paths.CleanPlain | compose_template/template_handler.go:115 | cleaning already plain components only appends them |
| Paths.CleanAppend | compose_template/template_handler.go:115 | path cleaning is a left fold: cleaning x + y is cleaning x and then y |
| Paths.SplitJoined | compose_template/template_handler.go:163 | splitting the "/a/b" text of plain components at slashes gives "" followed by the components |
| Paths.FormatLocRoundTrip | compose_template/template_handler.go:163-168 | the absolute text ScanDir stores as TemplateDir parses back to the same location, which is what InstallCompose hands to ProcessDir |
| Paths.NamesDirectoryExample | config/config.go:30 | a plain name followed by a slash insists on a directory, and the plain name alone does not |
| Paths.ParsePath | compose_template/template_handler.go:29 | path.Clean of a name: absolute exactly when it starts with a slash, with "", "." and ".." resolved lexically; CleanAppend, FormatLocRoundTrip and FormatRoundTrip state its meaning |
| Paths.Format | compose_template/template_handler.go:157 | the text path.Clean and path.Dir print: "/" and "." for the empty paths, otherwise the components between slashes; FormatRoundTrip states its meaning |
| Paths.FormatRoundTrip | compose_template/template_handler.go:157 | the printed text of a cleaned path parses back to the same path, so the text path.Dir gives names the directory it came from |
| Paths.SplitUnrooted | compose_template/template_handler.go:157 | splitting the "a/b" text of plain components at slashes gives exactly the components |
| Paths.FormatLoc | compose_template/template_handler.go:163 | the absolute text filepath.Abs returns for a location; FormatLocRoundTrip states its meaning |
| Paths.Resolve | compose_template/template_handler.go:163 | the location a path names from the working directory: an absolute path as is, a relative one cleaned onto the working directory; ResolveExtend and ResolveBeneath state its meaning |
| Paths.NamesDirectory | config/config.go:30 | a name the OS reads as insisting on a directory: non-empty, ending in a slash or a "." component; NamesDirectoryExample states its meaning |
| FsModel.Stat | compose_template/template_handler.go:92 | os.Stat succeeds exactly for an accessible directory, or an accessible file whose name does not insist on a directory, and says which; it reports "no such file" exactly when nothing is there and no regular file lies on the way |
| FsModel.ReadFile | compose_template/template_handler.go:24 | os.ReadFile succeeds exactly for an accessible regular file whose name does not insist on a directory, and returns its bytes; "no such file" exactly as for Stat |
| FsModel.MkdirAll | compose_template/template_handler.go:78 | os.MkdirAll creates the missing ancestors parents first, stops at the first failure, and fails with "not a directory" on a regular file; its effect is stated by MkdirAllEffect |
| FsModel.Mkdir | compose_template/template_handler.go:186 | os.Mkdir succeeds exactly when the entry is new, its parent is a directory and it is not refused; success adds just that directory |
| FsModel.WriteFile | compose_template/template_handler.go:83 | os.WriteFile succeeds exactly for a non-directory under an existing directory; success replaces that file's bytes and nothing else |
| FsModel.RemoveAll | compose_template/template_handler.go:183 | os.RemoveAll removes exactly the files and directories at or under the location |
| FsModel.MkdirTemp | compose_template/template_handler.go:178 | os.MkdirTemp creates one new directory named by one of the drawn names in the temp directory, or changes nothing |
| FsModel.MkdirAllEffect | compose_template/template_handler.go:78 | os.MkdirAll touches no file, only adds ancestors of the location, and on success leaves it a directory |
| FsModel.MkdirAllWellFormed | compose_template/template_handler.go:129 | os.MkdirAll keeps the filesystem well formed: every entry hangs off a directory |
| FsModel.RemoveAllWellFormed | compose_template/template_handler.go:191 | os.RemoveAll keeps the filesystem well formed |
| FsModel.NothingUnderMissing | compose_template/template_handler.go:178-186 | nothing lies under a location that does not exist |
| Os.FileSystem.Stat | compose_template/template_handler.go:92 | the live call on a name insisting on a directory or not answers as FsModel.Stat on the current state |
| Os.FileSystem.ReadFile | compose_template/template_handler.go:24 | the live call answers as FsModel.ReadFile on the current state, with the same flag |
| Os.FileSystem.MkdirAll | compose_template/template_handler.go:78 | the live call has the outcome and the next state of FsModel.MkdirAll, keeping the state well formed |
| Os.FileSystem.WriteFile | compose_template/template_handler.go:83 | the live call has the outcome and the next state of FsModel.WriteFile, keeping the state well formed |
| Os.FileSystem.Mkdir | compose_template/template_handler.go:186 | the live call has the outcome and the next state of FsModel.Mkdir, keeping the state well formed |
| Os.FileSystem.MkdirTemp | compose_template/template_handler.go:178 | the live call has the outcome and the next state of FsModel.MkdirTemp, keeping the state well formed |
| Os.FileSystem.RemoveAll | compose_template/template_handler.go:191 | the live call leaves the state FsModel.RemoveAll gives, keeping it well formed |
| TemplateText.Index | compose_template/template_handler.go:32 | strings.Index finds the first occurrence of ".Values", and reports none exactly when there is none |
| TemplateText.HasSuffix | compose_template/template_handler.go:117 | strings.HasSuffix; HasSuffixIff states its meaning |
| TemplateText.HasSuffixIff | compose_template/template_handler.go:117 | a string has a suffix exactly when it is some text followed by that suffix |
| TemplateText.StripValues | compose_template/template_handler.go:32 | the left-to-right removal of ".Values", never longer than its input; StripIsReplaceAll states that it is strings.ReplaceAll |
| TemplateText.StripIsReplaceAll | compose_template/template_handler.go:32 | the left-to-right strip equals Go's replacement by repeated Index: copy up to the next occurrence, skip it |
| TemplateText.StripIdentityIff | compose_template/template_handler.go:32 | the strip leaves the text unchanged if and only if it contains no ".Values" |
| TemplateText.StripLength | compose_template/template_handler.go:32 | each removal shortens the text by 7 bytes; the count is strings.Count's, positive exactly when the marker occurs |
| TemplateText.ReplaceByIndexLength | compose_template/template_handler.go:32 | the Index-driven replacement is 7 bytes shorter per counted occurrence |
| TemplateText.ReplaceByIndex | compose_template/template_handler.go:32 | strings.ReplaceAll by repeated strings.Index; StripIsReplaceAll and ReplaceByIndexLength state its meaning |
| TemplateText.CountByIndex | compose_template/template_handler.go:32 | the number of replacements strings.ReplaceAll makes; StripLength and ReplaceByIndexLength state its meaning |
| TemplateText.NoMarkerKept | compose_template/template_handler.go:32 | text shorter than the marker comes back unchanged |
| TemplateText.StripCanExposeMarker | compose_template/template_handler.go:32 | removing occurrences can join their neighbours into a new ".Values", so the strip is not idempotent |
| TemplateText.IsTemplateName | compose_template/template_handler.go:117 | a name is rendered exactly when it ends in ".yml" and is not "values.yml"; StepEffect states what each choice writes |
| TemplateText.IsComposeFileName | compose_template/template_handler.go:161 | exactly "docker-compose.yml" and "compose.yml" are compose files |
| ComposeTemplate.ValuesInGrandparent | compose_template/template_handler.go:29-48 | a template at base/sub/name reads base/values.yml and base/includes.template |
| ComposeTemplate.ValuesPath | compose_template/template_handler.go:29-34 | values.yml in the directory two levels above the template; ValuesInGrandparent states its meaning |
| ComposeTemplate.IncludesPath | compose_template/template_handler.go:48 | includes.template beside the values file, in the directory line 29 computes; ValuesInGrandparent states its meaning |
| ComposeTemplate.Destination | compose_template/template_handler.go:110-115 | filepath.Join of the output root and the walked path relative to the templates root; DestinationLoc and DistinctDestinations state its meaning |
| ComposeTemplate.RenderedOutput | compose_template/template_handler.go:24-76 | rendering a template never panics: every failure is a returned error |
| ComposeTemplate.RenderedOutputLocal | compose_template/template_handler.go:24-76 | the rendering depends only on the template, the values file and the include file |
| ComposeTemplate.ProcessFileSpec | compose_template/template_handler.go:23-89 | ProcessFile never panics |
| ComposeTemplate.ProcessFileEffect | compose_template/template_handler.go:23-89 | a failed rendering changes nothing; success writes exactly the rendering at the output; any failure leaves every file as it was; only parent directories of the output are created |
| ComposeTemplate.MissingValuesFails | compose_template/template_handler.go:34-37 | without a values file ProcessFile fails with the values-read error and changes nothing |
| ComposeTemplate.DirectoryNamedTemplateFails | compose_template/template_handler.go:24-27 | a template named so that it insists on a directory is never read: ProcessFile fails with the template-read error and changes nothing |
| ComposeTemplate.ProcessFile | compose_template/template_handler.go:23-89 | reading, stripping, parsing, executing, creating directories and writing on the live filesystem give ProcessFileSpec's outcome and state |
| ComposeTemplate.CopySpec | compose_template/template_handler.go:122-138 | the copy branch never panics on its own: it returns its failures |
| ComposeTemplate.CopyEffect | compose_template/template_handler.go:122-138 | an unreadable source changes nothing; a successful copy writes the source's bytes at the destination; any failure leaves every file as it was |
| ComposeTemplate.Step | compose_template/template_handler.go:101-141 | a walk callback never returns an error: a walk error, a failed rendering or a failed copy panics |
| ComposeTemplate.Callbacks | compose_template/template_handler.go:101 | one callback per walked entry, each the callback applied to its entry |
| ComposeTemplate.Run | compose_template/template_handler.go:101-141 | the first n callbacks in order, up to the first that does not return normally; RunStops, RunNext and WalkAll state this |
| ComposeTemplate.RunStops | compose_template/template_handler.go:101-141 | nothing runs after the first callback that does not return normally |
| ComposeTemplate.RunNext | compose_template/template_handler.go:101 | after a prefix that returned normally, the walk runs the next callback on the state it left |
| ComposeTemplate.RunNeverFails | compose_template/template_handler.go:101-141 | callbacks that never return an error make a walk that never does |
| ComposeTemplate.RunFrame | compose_template/template_handler.go:101-141 | callbacks that each change nothing outside the output root make a walk that does not either |
| ComposeTemplate.RunOutputs | compose_template/template_handler.go:101-141 | in a walk that returns normally, with distinct targets, each target ends up holding what its callback wrote |
| ComposeTemplate.FrameTrans | compose_template/template_handler.go:101-141 | staying within the output root composes over consecutive callbacks |
| ComposeTemplate.WritesOnlyFrame | compose_template/template_handler.go:129-134 | writing one file below the output root, and creating its parents, changes nothing outside the output root |
| ComposeTemplate.DestinationLoc | compose_template/template_handler.go:110-115 | a walked file's output resolves to the output root followed by its relative path, a non-empty path whose parent is the output root followed by all but its last component |
| ComposeTemplate.DistinctDestinations | compose_template/template_handler.go:110-115 | distinct walked paths have distinct outputs |
| ComposeTemplate.StepFrame | compose_template/template_handler.go:106-138 | whatever its outcome, one callback changes nothing outside the output root |
| ComposeTemplate.StepEffect | compose_template/template_handler.go:106-138 | a callback that returns normally on a file has written exactly its expected output (the rendering for a .yml name other than values.yml, the bytes otherwise) at its destination and no other file |
| ComposeTemplate.ReadAgree | compose_template/template_handler.go:124 | a read outside the output root sees the same file before and after writes confined to it |
| ComposeTemplate.ExpectedAgree | compose_template/template_handler.go:117-127 | what a walked file should produce is not changed by writes confined to the output root that its reads avoid |
| ComposeTemplate.CallbacksFramed | compose_template/template_handler.go:101-141 | every callback of a walk stays within the output root |
| ComposeTemplate.WalkStep | compose_template/template_handler.go:101-141 | one callback on the live filesystem gives Step's outcome and state |
| ComposeTemplate.WalkAll | compose_template/template_handler.go:101-141 | filepath.Walk runs the callbacks in order on the live filesystem and stops at the first that does not return normally, with the outcome and state of Run |
| ComposeTemplate.ProcessDir | compose_template/template_handler.go:91-142 | stat, the directory check and the walk on the live filesystem give ProcessDirSpec's outcome and state |
| ComposeTemplate.ProcessDirSpec | compose_template/template_handler.go:91-142 | a failed stat of the name as given is a returned error, a non-directory root panics, otherwise the walk runs; ProcessDirErrors and ProcessDirFrame state this |
| ComposeTemplate.ProcessDirOutputs | compose_template/template_handler.go:106-138 | when ProcessDir returns normally, each walked file's output exists at the output root + its relative path: a .yml name other than values.yml holds the rendering, any other file holds the source's bytes |
| ComposeTemplate.ProcessDirWritesOnlyOutputs | compose_template/template_handler.go:101-138 | when ProcessDir returns normally, the files are the old files plus exactly the walked files' outputs, and every other file keeps its bytes: a directory entry writes nothing |
| ComposeTemplate.RunOnlyTargets | compose_template/template_handler.go:101-141 | in a walk that returns normally, with callbacks confined to the output root that each write at most their target, the files are the old ones plus the targets and every other file is unchanged |
| ComposeTemplate.CallbacksWrite | compose_template/template_handler.go:106-138 | each callback of a walk writes at most its entry's output, and nothing for a directory |
| ComposeTemplate.ProcessDirErrors | compose_template/template_handler.go:92-99 | ProcessDir returns an error exactly when the root cannot be stat'ed, and then has changed nothing; a root that is not a directory panics before the walk and changes nothing |
| ComposeTemplate.ProcessDirFrame | compose_template/template_handler.go:91-142 | whatever its outcome, ProcessDir changes nothing outside the output root |
| ComposeTemplate.WalkOfWithin | compose_template/template_handler.go:101-106 | a walk of a directory, as WalkOf ties it to the state, visits the root itself only as a directory, so the callbacks' assumption holds |
| ComposeTemplate.RunOkVisits | compose_template/template_handler.go:101-104 | a walk that returned normally met no walk error |
| ComposeTemplate.ProcessDirCovers | compose_template/template_handler.go:101-138 | when ProcessDir returns normally on a walk of its own state, every regular file under the templates root has its output at the output root plus its path below the root, holding its rendering, or its own bytes when not a template |
| ComposeTemplate.ScanFold | compose_template/template_handler.go:144-175 | ScanDir never returns an error; a walk error is fatal |
| ComposeTemplate.LastProject | compose_template/template_handler.go:161-168 | the entry found is one that registers under the name |
| ComposeTemplate.LastProjectIsLast | compose_template/template_handler.go:168 | no later entry registers under the same name: a later hit overwrites an earlier one |
| ComposeTemplate.ScanAbortsOnWalkError | compose_template/template_handler.go:148-151 | the scan is fatal if and only if the walk reports an error |
| ComposeTemplate.ScanAt | compose_template/template_handler.go:153-168 | a name is a key exactly when some compose file outside the root lies in a directory of that name, and it holds the record of the last such file |
| ComposeTemplate.ScanRecords | compose_template/template_handler.go:162-168 | every record is keyed by its own name and has only the name and an absolute template directory set |
| ComposeTemplate.ScanSkipsRootFiles | compose_template/template_handler.go:157-159 | with a root written as path.Clean writes it, a compose file directly in the root registers nothing |
| ComposeTemplate.ScanKeyIsHoldingDirectory | compose_template/template_handler.go:161-168 | api/templates/compose.yml registers the key "templates" with template directory /t/api/templates |
| ComposeTemplate.ScanRootWithSlash | compose_template/template_handler.go:157-168 | a root given as "/t/" registers a compose file directly in it, under "t" |
| ComposeTemplate.ScanFoldStops | compose_template/template_handler.go:147-151 | once the scan is fatal the rest of the walk does not matter |
| ComposeTemplate.ScanDir | compose_template/template_handler.go:144-175 | the loop inserting into the map computes ScanFold |
| ComposeTemplate.Registers | compose_template/template_handler.go:153-161 | a visited file registers exactly when it is a compose file and path.Dir of it is not the root as given; ScanAt states its effect |
| ComposeTemplate.ProjectName | compose_template/template_handler.go:162 | the key is path.Base of the holding directory; ScanKeyIsHoldingDirectory shows it |
| ComposeTemplate.ProjectRecord | compose_template/template_handler.go:162-168 | the record holds the name and the absolute holding directory; ScanRecords states its shape |
| ComposeTemplate.ScanCovers | compose_template/template_handler.go:147-168 | on a walk of the state, every regular file under the root is visited, and one that registers leaves its key in the map |
| ComposeTemplate.StatName | compose_template/template_handler.go:92 | os.Stat of a name as given: the empty name does not exist, and a trailing slash insists on a directory; ProcessDirErrors states its use |
| ComposeTemplate.WalkOf | compose_template/template_handler.go:101 | what filepath.Walk hands the callback on a state: the root first, only its stat error when that fails, visits agreeing with the state, and every file under the root unless an error is reported |
| ComposeTemplate.ScanMissingRootFatal | compose_template/template_handler.go:147-151 | on a walk of a root that cannot be stat'ed, the scan ends in log.Fatal with that error |
| ComposeTemplate.ScanFileRoot | compose_template/template_handler.go:147-168 | a root that is itself a compose file "/t/compose.yml" registers "t" with template directory "/t" |
| ComposeTemplate.DeployCommand | compose_template/template_handler.go:199-205 | the deploy command is bash -c with the pull-then-up script exactly as the raw string writes it, runs in the workspace, and has the process environment followed by DOCKER_HOST and ENV_FILE |
| ComposeTemplate.Shell.Run | compose_template/template_handler.go:208 | running a command records it and reports whether it succeeded |
| ComposeTemplate.TemplateDirOf | compose_template/template_handler.go:193 | a registered name gives its template directory, an unregistered one the zero record's empty directory |
| ComposeTemplate.Prepare | compose_template/template_handler.go:177-197 | MkdirTemp, Mkdir of the project directory and ProcessDir in turn, each failure ending the preparation; PreparedWorkspace and UnknownProjectNotDeployed state its results |
| ComposeTemplate.UnknownProjectNotDeployed | compose_template/template_handler.go:177-197 | for an unregistered name the preparation fails, so the deploy command never runs |
| ComposeTemplate.PreparedWorkspace | compose_template/template_handler.go:178-190 | when preparation succeeds the workspace is a fresh temp directory followed by the project name |
| ComposeTemplate.RemoveWorkspace | compose_template/template_handler.go:183-191 | removing a freshly created directory after changes confined to it restores the state from before it was created |
| ComposeTemplate.DeployResult | compose_template/template_handler.go:193-214 | the deploy runs exactly when the preparation succeeded; its failure becomes the result, and an earlier failure is passed on unchanged |
| ComposeTemplate.RenderAndDeploy | compose_template/template_handler.go:193-214 | ProcessDir into the workspace, then the deploy command only if that succeeded, with the outcome DeployResult gives |
| ComposeTemplate.InstallCompose | compose_template/template_handler.go:177-215 | on every return path the filesystem is exactly as before (both directories removed), and the deploy command was run exactly when preparation succeeded, with its outcome as the result |
| Containers.TrimLeftSlashSuffix | containers/containers.go:116 | strings.TrimLeft removes every leading slash, keeps the rest, and leaves no leading slash |
| Containers.TrimLeftSlash | containers/containers.go:116 | strings.TrimLeft(s, "/"); TrimLeftSlashSuffix states its result |
| Containers.PrimaryName | containers/containers.go:116 | a container's name is its first name without leading slashes |
| Containers.Named | containers/containers.go:116 | every live container has a name, so `ctr.Names[0]` here and at lines 149 and 174 does not panic; FindContainerId and CreateContainerMap state what happens otherwise |
| Containers.LastMatch | containers/containers.go:147-152 | the position found is the last live container with that primary name, and none is found exactly when no container has it |
| Containers.MergeAllAt | containers/containers.go:115-133 | after the merge a key is present exactly when it was or a live name matches; a matched name gets the last match's ID, image and state on top of the old entry or an empty record; others are unchanged |
| Containers.MergeKeys | containers/containers.go:115-135 | the keys after the merge are the input keys plus the live primary names |
| Containers.MergeExisting | containers/containers.go:118-123 | an existing entry keeps every field but ID, image and state, which come from the last live container of that name |
| Containers.MergeOrphan | containers/containers.go:124-132 | an unregistered live name becomes a record with only name, ID, image and state, and an empty template directory |
| Containers.MergeUntouched | containers/containers.go:115-135 | entries matching no live container are unchanged |
| Containers.MergeIdempotent | containers/containers.go:115-133 | merging the same live list twice equals merging it once |
| Containers.MergeOne | containers/containers.go:115-133 | one live container's ID, image and state merged into its entry, or a new orphan record; MergeExisting and MergeOrphan state both cases |
| Containers.MergeAll | containers/containers.go:115-135 | the live list merged in order; MergeAllAt characterises it key by key |
| Containers.IdFor | containers/containers.go:147-156 | the last matching container's ID, or ""; IdForFound states when it is found |
| Containers.IdForFound | containers/containers.go:147-156 | the lookup yields an ID exactly when a live container has the name, and the last such one's ID is not empty |
| Containers.FindContainerId | containers/containers.go:147-152 | the loop ends with the last match's ID (or ""), and panics on a container without names |
| Containers.Runtime.ContainerList | containers/containers.go:109 | the list call reports the live containers exactly when the daemon is reachable |
| Containers.Runtime.ContainerStart | containers/containers.go:160 | a start request is logged and nothing else changes |
| Containers.Runtime.ContainerStop | containers/containers.go:187 | a stop request with its timeout is logged and nothing else changes |
| Containers.Containers.CreateContainerMap | containers/containers.go:108-138 | a failed listing is fatal and leaves the registry alone; otherwise the registry becomes the input merged with the live list |
| Containers.Containers.Start | containers/containers.go:140-163 | a failed listing or an unknown name returns an error and sends nothing; otherwise one start request for the last match's ID is sent and nil returned |
| Containers.Containers.Stop | containers/containers.go:165-190 | as Start, with one stop request carrying the 20-second timeout |
| Containers.Containers.GetContainerMap | containers/containers.go:96-98 | the registry's map as it stands; Server.Refresh, which reads the entry through it and writes it back, states its use |
| Containers.Containers.GetContainerStatus | containers/containers.go:100-106 | the daemon's status of the named container; Server.Refresh states its use |
| Config.WithDefaults | config/config.go:51-73 | zero port and empty paths take 9843, /compose-templates, /tmp/compose-output, /environment; given values are kept; UseRemoteDocker is true exactly when a host is given |
| Config.WithDefaultsIdempotent | config/config.go:51-73 | filling in defaults twice is filling them in once |
| Config.DefaultIsFilledEmpty | config/config.go:20-27 | the default configuration is what an empty file yields |
| Config.LoadOutcomeShape | config/config.go:19-76 | an error always comes with the defaults; every result has a port and non-empty paths, and uses remote Docker exactly when a host is named |
| Config.MissingFileGivesDefaults | config/config.go:30-33 | a file that is not there, with no regular file on the way to it, gives the defaults and no error |
| Config.ReadableFileIsUsed | config/config.go:39-75 | a readable file named without a trailing slash that parses gives its values with defaults filled in, and no error |
| Config.LoadConfig | config/config.go:19-76 | the stat and read of the name as given, the parse and the field-by-field fill-in compute LoadOutcome |
| Config.LoadOutcome | config/config.go:19-76 | what LoadConfig returns on a state; LoadOutcomeShape, MissingFileGivesDefaults, NotADirectoryIsAnError and ReadableFileIsUsed state its cases |
| Config.NotADirectoryIsAnError | config/config.go:30-36 | a name through a regular file, or insisting on a directory where a regular file is, gives the defaults together with the "not a directory" error |
| Cli.Lookup | main.go:16-21 | "dir" and "d", "file" and "f", "help" and "h" name the same three variables, and nothing else names a flag |
| Cli.SplitFlag | main.go:22 | a flag's text splits at its first '=' into a name without '=' and the rest |
| Cli.ParseBool | main.go:18-21 | strconv.ParseBool's six true and six false spellings; anything else is a bad value |
| Cli.ParseOne | main.go:22 | one step of flag parsing, consuming at least one argument when it goes on; SeparateValue, AttachedValue and StopsAtPositional state its cases |
| Cli.ParseFlags | main.go:22 | flag.Parse never returns an error: a bad flag ends the process |
| Cli.CommandLine | main.go:15-31 | parseCommandLineArgs never returns an error |
| Cli.ParseCommandLineArgs | main.go:15-31 | the loop filling the flag variables computes CommandLine |
| Cli.StopsAtPositional | main.go:22 | after an argument that is not a flag nothing more is parsed |
| Cli.SpellingsAgree | main.go:16-21 | -d/-dir and -f/-file, one dash or two, with the value attached or following, set the same variable to the same value |
| Cli.SeparateValue | main.go:16-22 | a string flag takes the next argument as its value |
| Cli.AttachedValue | main.go:16-22 | a string flag takes the text after '=' as its value |
| Cli.LaterFlagWins | main.go:16-22 | of two settings of one string variable, under any of its four spellings each, the later one wins |
| Cli.HelpClearsBoth | main.go:24-28 | asking for help yields an empty directory and file |
| Cli.SelectMode | main.go:112-152 | no arguments serve; otherwise a directory wins over a file; neither is the unknown-arguments case |
| Cli.ModeOf | main.go:101-153 | the mode os.Args selects after flag parsing, or the fatal bad-flag outcome; HelpIsUnknownArguments and DirectoryBeforeFile show it |
| Cli.HelpIsUnknownArguments | main.go:24-28 | "-h" and "-help" fall through to the unknown-arguments fatal branch |
| Cli.DirectoryBeforeFile | main.go:133-140 | with both -f and -d given, the directory is rendered |
| Cli.TrimTrailingSlashes | main.go:142 | the result is the string without its run of trailing slashes |
| Cli.LastElement | main.go:142 | the result is the suffix after the last slash: slash-free, and either the whole string or preceded by a slash |
| Cli.BaseName | main.go:142 | filepath.Base is "." for "", "/" for a string of slashes, and otherwise the slash-free suffix after the last slash of the string without its trailing slashes |
| Cli.SingleFileOutputPlain | main.go:142 | for dir/name the single-file output is name directly in the output directory |
| Cli.SingleFileOutput | main.go:142 | OutputDir joined with filepath.Base of the file; SingleFileOutputIsChild states its value |
| Cli.SingleFileOutputIsChild | main.go:142 | whenever the base name is a plain name, the output is that name directly in the output directory |
| Cli.LoadConfig | main.go:42-99 | main's copy of LoadConfig on config.yml computes the same LoadOutcome |
| Cli.ServerMode | main.go:112-132 | a failed scan, an unreachable daemon or a nameless container is fatal and leaves the registry alone; otherwise the registry is the scan merged with the live list and the server runs |
| Cli.MissingTemplatesRootIsFatal | main.go:113 | server mode on a templates directory that cannot be stat'ed, such as a missing default "/compose-templates", exits with that error and leaves the registry alone |
| Cli.DirectoryMode | main.go:133-139 | directory mode renders into OutputDir, finishing exactly when ProcessDir returned normally |
| Cli.SingleFileMode | main.go:140-148 | single-file mode renders the file, read by the name as given, into OutputDir joined with its base name, finishing exactly when ProcessFile succeeded |
| Cli.Rendered | main.go:136-146 | a rendering mode finishes on a normal return and exits with the fault otherwise; DirectoryMode and SingleFileMode state its use |
| Cli.Run | main.go:101-153 | main dispatches by mode; a rendering mode leaves the registry alone; server mode leaves the files alone; unknown arguments and bad flags exit without changing anything; only the directory-mode root's walk is constrained |
| Server.RefreshState | server.go:58-61 | only an existing entry's State changes, to the queried status; the keys and all other entries are unchanged |
| Server.RefreshAbsent | server.go:58-61 | an absent name is not inserted |
| Server.RefreshIdempotent | server.go:58-61 | refreshing twice with the same status is refreshing once |
| Server.RefreshKeepsTemplates | server.go:58-61 | a refresh keeps every entry's name and template directory |
| Server.Refresh | server.go:58-61 | the read-copy-write of the entry computes RefreshState with the client's status |
| Server.ActionCalls | server.go:56 | an action sends at most one request, and one exactly when it reaches a container with that name |
| Server.Act | server.go:56 | a start or stop panics exactly on a nameless container, its error is otherwise ignored, and it sends ActionCalls' requests |
| Server.HandleLifecycle | server.go:41-142 | for the start, stop or restart route: non-POST is 405 and an unreadable body 500, with nothing done; otherwise the route's actions' requests in order, one refresh, and the page |
| Server.RestartCalls | server.go:124-125 | restart sends the stop request and then the start request for the same container |
| Server.HandleInstall | server.go:144-177 | after the POST gate, the body names the project installed; failure exits the process, success renders the page; the registry is untouched |
| Server.InstallResponse | server.go:160-175 | an install error exits the process, success renders the page |
| Server.InstallUnknownExits | server.go:158-165 | installing an unregistered name ends the process without a deploy |
| Server.Route | server.go:180-189 | each of /start, /stop and /restart has its own handler; /install and /update share one; the static handler serves exactly the /public/ subtree; every other path gets the index page |
| Server.Actions | server.go:56-125 | start sends one start, stop one stop, and restart a stop then a start; HandleLifecycle runs its route's actions, and RestartCalls gives restart's calls |

## Left out

- The order `filepath.Walk` visits entries in, symlinks, and entries that
  change during the walk. The walk is a parameter whose entries lie beneath
  the root; `WalkOf` ties it to the state the walk starts on. Every proved
  property holds for any order.
- `text/template` with sprig, and the `include` function's parsing and
  execution. They are a foreign library. The engine is a parameter:
  `parseTemplate` and `execute`, where `execute` receives what reading the
  include file gives.
- YAML parsing of the values file and of the configuration. It is a parse
  function that may fail.
- `bash` and `docker compose`, with stdout and stderr passed through. These
  are external processes. The shell records each command and is told from
  outside whether it succeeds.
- Docker client construction (`NewLocalClient`, `NewRemoteClient`, SSH
  helpers) and the daemon's network calls. These are I/O. The daemon is a
  live list, a reachability flag and a status function.
- Containers.Containers.GetContainerStatus: its panic when inspecting fails
  is not modelled. The status function is total.
- The HTTP server, the embedded files, `html/template` rendering of the
  index page, and response writing. These are transport and UI. A page
  render's own failure (`log.Fatal`) is not modelled.
- `http.ServeMux` details beyond the routes: path cleaning, and the redirect
  of "/public" to "/public/".
- Concurrency between requests. The code has no locking, and the model is
  sequential.
- Log and error message texts, including ProcessFile's `%f` verb. Only the
  kind of each failure is kept.
- Paths.Resolve: `..` is resolved lexically, as `path.Clean` does, and not
  through symlinks. So a name such as `f/..` or `f/../c` with `f` a regular
  file resolves without the "not a directory" error the OS would give.
- FsModel.Stat: file modes and permission bits are reduced to one set of
  refused locations.
- FsModel.RemoveAll: it has no error outcome. The code ignores it.
- FsModel.MkdirTemp: the random names are a finite parameter. The call fails
  when all of them are taken.
- ComposeTemplate.ScanFold: `filepath.Abs` cannot fail in the model. The
  code's check after it compares paths instead of testing the error, and it
  never fires.
- ComposeTemplate.ProcessDirOutputs and
  ComposeTemplate.ProcessDirWritesOnlyOutputs: they assume that the walk
  reads nothing under the output root and visits each file once. The code does not check
  either. The walk itself is any sequence of entries beneath the root;
  ProcessDirCovers adds `WalkOf` to speak of every file of the state.
- Containers.Containers.GetContainerMap returns the map's value, not a
  reference to the registry's own map. The handlers' write-back through that
  reference is modelled as an assignment to the field.
- Cli.Run: process exit codes, and printing of the usage text and of
  "Output written to".
