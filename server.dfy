/** The HTTP handlers' logic: the method gate, the lifecycle actions with
    the registry refresh that follows them, the install action, and the
    routes. Requests and responses are reduced to what the handlers look at
    and what they decide. */
module Server {
  import opened Common
  import opened Paths
  import Os
  import FsModel
  import Config
  import Containers
  import ComposeTemplate

  /** The request method (the verb) and its body, or None when reading it fails. */
  datatype Request = Request(verb: string, body: Option<string>)

  /** Page: the index page is rendered. Status: an error status is written.
      Dropped: the handler panicked and the connection is closed. Exited:
      an error status is written and the process exits. */
  datatype Response = Page | Status(code: int) | Dropped | Exited(fault: Fault)

  const MethodNotAllowed: int := 405
  const InternalServerError: int := 500

  // ---------------------------------------------------------------------
  // The registry refresh

  /** Read the entry, replace its state with the inspected status and write
      it back, when the name is registered. */
  function RefreshState(m: Containers.ComposeMap, name: string, status: string): (r: Containers.ComposeMap)
    ensures r.Keys == m.Keys
    ensures name in m ==> r[name].state == status
    ensures forall k :: k in m ==> r[k] == m[k].(state := r[k].state)
    ensures forall k :: k in m && k != name ==> r[k] == m[k]
  {
    if name in m then m[name := m[name].(state := status)] else m
  }

  /** A refresh for a name the registry does not hold changes nothing. */
  lemma RefreshAbsent(m: Containers.ComposeMap, name: string, status: string)
    requires name !in m
    ensures RefreshState(m, name, status) == m
  {
  }

  /** Refreshing twice with the same status is refreshing once. */
  lemma RefreshIdempotent(m: Containers.ComposeMap, name: string, status: string)
    ensures RefreshState(RefreshState(m, name, status), name, status) == RefreshState(m, name, status)
  {
  }

  /** A refresh after the merge keeps where every project's templates are. */
  lemma RefreshKeepsTemplates(m: Containers.ComposeMap, name: string, status: string, k: string)
    requires k in m
    ensures RefreshState(m, name, status)[k].templateDir == m[k].templateDir
    ensures RefreshState(m, name, status)[k].name == m[k].name
  {
  }

  /** The refresh the lifecycle handlers run on the client's registry. */
  method Refresh(client: Containers.Containers, name: string)
    modifies client`containerMap
    ensures client.containerMap == RefreshState(old(client.containerMap), name, client.GetContainerStatus(name))
  {
    var m := client.GetContainerMap();
    if name in m {
      var entry := m[name];
      entry := entry.(state := client.GetContainerStatus(name));
      client.containerMap := m[name := entry];
    }
  }

  // ---------------------------------------------------------------------
  // Lifecycle handlers

  datatype Action = StartAction | StopAction

  /** The runtime call one action sends: none when the runtime cannot be
      listed or no container carries the name. */
  function ActionCalls(reachable: bool, live: seq<Containers.Summary>, name: string, action: Action): (r: seq<Containers.Call>)
    ensures |r| <= 1
    ensures r != [] <==> reachable && Containers.Named(live) && Containers.IdFor(live, name) != ""
  {
    if reachable && Containers.Named(live) && Containers.IdFor(live, name) != "" then
      var id := Containers.IdFor(live, name);
      [if action == StartAction then Containers.StartCall(id) else Containers.StopCall(id, Containers.StopTimeoutSeconds)]
    else []
  }

  /** Run one action, ignoring the error it returns. */
  method Act(client: Containers.Containers, name: string, action: Action) returns (r: Result<()>)
    modifies client.runtime`calls
    ensures var rt := client.runtime;
      && (r.Abort? <==> rt.reachable && !Containers.Named(rt.containers))
      && rt.calls == old(rt.calls) + ActionCalls(rt.reachable, rt.containers, name, action)
  {
    if action == StartAction {
      r := client.Start(name);
    } else {
      r := client.Stop(name);
    }
  }

  /** What a lifecycle handler did, given the runtime and the registry and
      the calls before and after: a non-POST request or an unreadable body is
      refused before anything happens; a panic drops the connection; and
      otherwise the actions' calls are sent in order, the registry is
      refreshed for the name, and the page is rendered. */
  predicate Handled(req: Request, reachable: bool, live: seq<Containers.Summary>, status: string -> string,
                    actions: seq<Action>, before: Containers.ComposeMap, after: Containers.ComposeMap,
                    callsBefore: seq<Containers.Call>, callsAfter: seq<Containers.Call>, resp: Response)
  {
    if req.verb != "POST" then resp == Status(MethodNotAllowed) && after == before && callsAfter == callsBefore
    else if req.body.None? then resp == Status(InternalServerError) && after == before && callsAfter == callsBefore
    else if reachable && !Containers.Named(live) && actions != [] then
      resp == Dropped && after == before && callsAfter == callsBefore
    else
      var name := req.body.value;
      && resp == Page
      && after == RefreshState(before, name, status(name))
      && callsAfter == callsBefore + AllCalls(reachable, live, name, actions)
  }

  function AllCalls(reachable: bool, live: seq<Containers.Summary>, name: string, actions: seq<Action>): seq<Containers.Call>
    decreases |actions|
  {
    if actions == [] then [] else ActionCalls(reachable, live, name, actions[0]) + AllCalls(reachable, live, name, actions[1..])
  }

  /** The start, stop and restart handlers, each running its route's
      actions: restart is a stop then a start, followed by a single refresh. */
  method HandleLifecycle(client: Containers.Containers, req: Request, h: Handler) returns (resp: Response)
    requires Lifecycle(h)
    modifies client`containerMap, client.runtime`calls
    ensures var rt := client.runtime;
      Handled(req, rt.reachable, rt.containers, rt.status, Actions(h), old(client.containerMap), client.containerMap,
              old(rt.calls), rt.calls, resp)
  {
    var actions := Actions(h);
    if req.verb != "POST" {
      return Status(MethodNotAllowed);
    }
    if req.body.None? {
      return Status(InternalServerError);
    }
    var name := req.body.value;
    ghost var calls0 := client.runtime.calls;
    var i := 0;
    while i < |actions|
      invariant 0 <= i <= |actions|
      invariant client.containerMap == old(client.containerMap)
      invariant client.runtime.calls == calls0 + AllCalls(client.runtime.reachable, client.runtime.containers, name, actions[..i])
      invariant i > 0 ==> !(client.runtime.reachable && !Containers.Named(client.runtime.containers))
    {
      var r := Act(client, name, actions[i]);
      if r.Abort? {
        return Dropped;
      }
      AllCallsStep(client.runtime.reachable, client.runtime.containers, name, actions, i);
      i := i + 1;
    }
    assert actions[..i] == actions;
    Refresh(client, name);
    resp := Page;
  }

  lemma {:induction false} AllCallsStep(reachable: bool, live: seq<Containers.Summary>, name: string, actions: seq<Action>, i: nat)
    requires i < |actions|
    ensures AllCalls(reachable, live, name, actions[..i + 1]) ==
      AllCalls(reachable, live, name, actions[..i]) + ActionCalls(reachable, live, name, actions[i])
    decreases i
  {
    if i == 0 {
      assert actions[..1][1..] == [];
    } else {
      var tail := actions[1..];
      AllCallsStep(reachable, live, name, tail, i - 1);
      assert actions[..i + 1][1..] == tail[..i];
      assert actions[..i][1..] == tail[..i - 1];
      assert actions[..i + 1][0] == actions[0] && actions[..i][0] == actions[0];
      assert tail[i - 1] == actions[i];
    }
  }

  /** Restart sends the stop call and then the start call for the same
      container, when there is one. */
  lemma RestartCalls(reachable: bool, live: seq<Containers.Summary>, name: string)
    requires reachable && Containers.Named(live) && Containers.IdFor(live, name) != ""
    ensures var id := Containers.IdFor(live, name);
      AllCalls(reachable, live, name, [StopAction, StartAction]) ==
        [Containers.StopCall(id, Containers.StopTimeoutSeconds), Containers.StartCall(id)]
  {
    assert [StopAction, StartAction][1..] == [StartAction];
    assert [StartAction][1..] == [];
  }

  // ---------------------------------------------------------------------
  // The install handler

  /** The install handler's answer: the page on success, the crash of the
      process on a returned error, a dropped connection on a panic. */
  function InstallResponse(r: Result<()>): Response {
    match r
    case Ok(_) => Page
    case Fail(f) => Exited(f)
    case Abort(_) => Dropped
  }

  /** The install and update handler: after the method gate and the body,
      install the named project; the registry is not touched. */
  method HandleInstall(client: Containers.Containers, config: Config.Config, fs: Os.FileSystem,
                       shell: ComposeTemplate.Shell, engine: ComposeTemplate.Engine,
                       walkOf: string -> seq<ComposeTemplate.WalkEntry>, names: seq<string>, req: Request)
    returns (resp: Response)
    requires fs.Valid()
    requires req.verb == "POST" && req.body.Some? ==>
      ComposeTemplate.Within(ParsePath(ComposeTemplate.TemplateDirOf(client.containerMap, req.body.value)), walkOf(req.body.value))
    modifies fs, shell`runs
    ensures fs.Valid() && fs.State() == old(fs.State())
    ensures req.verb != "POST" ==> resp == Status(MethodNotAllowed) && shell.runs == old(shell.runs)
    ensures req.verb == "POST" && req.body.None? ==> resp == Status(InternalServerError) && shell.runs == old(shell.runs)
    ensures req.verb == "POST" && req.body.Some? ==>
      var name := req.body.value;
      var (prep, work, _) := ComposeTemplate.Prepare(old(fs.State()), fs.cwd, fs.tempDir, names, engine, name,
                                                     ComposeTemplate.TemplateDirOf(client.containerMap, name), walkOf(name));
      var deploy := ComposeTemplate.DeployCommand(work, shell.environ, config);
      && ComposeTemplate.Deployed(prep, deploy, shell.succeeds, old(shell.runs), shell.runs,
                                  ComposeTemplate.DeployResult(prep, deploy, shell.succeeds))
      && resp == InstallResponse(ComposeTemplate.DeployResult(prep, deploy, shell.succeeds))
  {
    if req.verb != "POST" {
      return Status(MethodNotAllowed);
    }
    if req.body.None? {
      return Status(InternalServerError);
    }
    var name := req.body.value;
    var r := ComposeTemplate.InstallCompose(name, client, config, fs, shell, engine, walkOf(name), names);
    resp := InstallResponse(r);
  }

  /** An installation of a name the registry does not hold fails and the
      process exits, without a deploy command. */
  lemma InstallUnknownExits(s: FsModel.FsState, cwd: Loc, tempDir: Loc, names: seq<string>, engine: ComposeTemplate.Engine,
                            name: string, m: Containers.ComposeMap, walk: seq<ComposeTemplate.WalkEntry>,
                            environ: seq<string>, config: Config.Config, succeeds: ComposeTemplate.Command -> bool)
    requires name !in m
    requires ComposeTemplate.Within(ParsePath(ComposeTemplate.TemplateDirOf(m, name)), walk)
    ensures var (prep, work, _) := ComposeTemplate.Prepare(s, cwd, tempDir, names, engine, name, ComposeTemplate.TemplateDirOf(m, name), walk);
      InstallResponse(ComposeTemplate.DeployResult(prep, ComposeTemplate.DeployCommand(work, environ, config), succeeds)).Exited?
  {
    ComposeTemplate.UnknownProjectNotDeployed(s, cwd, tempDir, names, engine, name, m, walk);
  }

  // ---------------------------------------------------------------------
  // Routes

  datatype Handler = Index | Static | StartHandler | StopHandler | RestartHandler | InstallHandler

  /** The mux: exact paths for the actions, the subtree under "/public/" for
      the static files, and the index page for every other path. */
  function Route(path: string): (h: Handler)
    ensures h == InstallHandler <==> path == "/install" || path == "/update"
    ensures h == Static <==> |path| >= 8 && path[..8] == "/public/"
    ensures h == StartHandler <==> path == "/start"
    ensures h == StopHandler <==> path == "/stop"
    ensures h == RestartHandler <==> path == "/restart"
    ensures h == Index <==>
      && path != "/start" && path != "/stop" && path != "/restart" && path != "/install" && path != "/update"
      && !(|path| >= 8 && path[..8] == "/public/")
  {
    if path == "/start" then StartHandler
    else if path == "/stop" then StopHandler
    else if path == "/restart" then RestartHandler
    else if path == "/install" || path == "/update" then InstallHandler
    else if |path| >= 8 && path[..8] == "/public/" then Static
    else Index
  }

  predicate Lifecycle(h: Handler) {
    h.StartHandler? || h.StopHandler? || h.RestartHandler?
  }

  /** The actions each lifecycle route runs. */
  function Actions(h: Handler): seq<Action>
    requires Lifecycle(h)
  {
    match h
    case StartHandler => [StartAction]
    case StopHandler => [StopAction]
    case RestartHandler => [StopAction, StartAction]
  }
}
