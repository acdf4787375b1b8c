/** The container registry: the records the scanner and the Docker daemon
    contribute, the merge of the live container list into the scanned map,
    and the name-to-ID lookup behind start and stop. The Docker daemon is a
    Runtime object holding the live list and a log of the calls made to it. */
module Containers {
  import opened Common

  datatype HostConfig = HostConfig(networkMode: string, annotations: map<string, string>)

  /** One registry entry: a compose project, a live container, or both. */
  datatype ContainerInfo = ContainerInfo(
    name: string,
    templateDir: string,
    id: string,
    image: string,
    imageId: string,
    command: string,
    created: int,
    sizeRw: int,
    sizeRootFs: int,
    labels: map<string, string>,
    state: string,
    status: string,
    hostConfig: HostConfig)

  type ComposeMap = map<string, ContainerInfo>

  /** The zero value of ContainerInfo. */
  const EmptyInfo: ContainerInfo :=
    ContainerInfo("", "", "", "", "", "", 0, 0, 0, map[], "", "", HostConfig("", map[]))

  /** What the runtime's list call reports about one container. */
  datatype Summary = Summary(names: seq<string>, id: string, image: string, state: string)

  /** A request sent to the runtime. */
  datatype Call = StartCall(id: string) | StopCall(id: string, timeoutSeconds: int)

  /** Seconds Stop gives a container before it is killed. */
  const StopTimeoutSeconds: int := 20

  /** strings.TrimLeft(s, "/"): every leading slash goes, not only the first. */
  function TrimLeftSlash(s: string): string
  {
    if s != [] && s[0] == '/' then TrimLeftSlash(s[1..]) else s
  }

  /** What the trim removes is a run of slashes at the front, and what it
      keeps is the rest of the string, which does not start with one. */
  lemma {:induction false} TrimLeftSlashSuffix(s: string)
    ensures var r := TrimLeftSlash(s);
      && |r| <= |s| && r == s[|s| - |r|..]
      && (forall i :: 0 <= i < |s| - |r| ==> s[i] == '/')
      && (r == [] || r[0] != '/')
    decreases |s|
  {
    if s != [] && s[0] == '/' {
      TrimLeftSlashSuffix(s[1..]);
      var r := TrimLeftSlash(s);
      assert s[1..][|s| - 1 - |r|..] == s[|s| - |r|..];
      forall i | 0 <= i < |s| - |r| ensures s[i] == '/' {
        if i > 0 {
          assert s[1..][i - 1] == s[i];
        }
      }
    }
  }

  predicate Named(live: seq<Summary>) {
    forall i :: 0 <= i < |live| ==> live[i].names != []
  }

  /** The name a container is known by: its first name without leading slashes. */
  function PrimaryName(c: Summary): string
    requires c.names != []
  {
    TrimLeftSlash(c.names[0])
  }

  /** The position of the last live container whose primary name is `name`. */
  function LastMatch(live: seq<Summary>, name: string): (r: Option<nat>)
    requires Named(live)
    ensures r.Some? ==> r.value < |live| && PrimaryName(live[r.value]) == name
    ensures r.Some? ==> forall j :: r.value < j < |live| ==> PrimaryName(live[j]) != name
    ensures r.None? ==> forall j :: 0 <= j < |live| ==> PrimaryName(live[j]) != name
    decreases |live|
  {
    if live == [] then None
    else if PrimaryName(live[|live| - 1]) == name then Some(|live| - 1)
    else LastMatch(live[..|live| - 1], name)
  }

  /** The fields a live container contributes to its registry entry. */
  function Refresh(entry: ContainerInfo, c: Summary): ContainerInfo {
    entry.(id := c.id, image := c.image, state := c.state)
  }

  /** One iteration of the merge loop. */
  function MergeOne(m: ComposeMap, c: Summary): ComposeMap
    requires c.names != []
  {
    var name := PrimaryName(c);
    if name in m then m[name := Refresh(m[name], c)]
    else m[name := Refresh(EmptyInfo.(name := name), c)]
  }

  /** The merge of the whole live list, in list order. */
  function MergeAll(m: ComposeMap, live: seq<Summary>): ComposeMap
    requires Named(live)
    decreases |live|
  {
    if live == [] then m else MergeOne(MergeAll(m, live[..|live| - 1]), live[|live| - 1])
  }

  /** The ID the lookup loop ends with: the last match's, "" without one. */
  function IdFor(live: seq<Summary>, name: string): string
    requires Named(live)
  {
    match LastMatch(live, name)
    case None => ""
    case Some(i) => live[i].id
  }

  // ---------------------------------------------------------------------
  // Properties of the merge

  /** The entry under every key after the merge: names no live container
      carries keep their old entry; a name some live container carries gets
      the last such container's ID, image and state on top of the old entry,
      or on top of an empty record named after it when the name was not
      registered (an orphan, with no template directory). */
  lemma {:induction false} MergeAllAt(m: ComposeMap, live: seq<Summary>, k: string)
    requires Named(live)
    ensures k in MergeAll(m, live) <==> k in m || LastMatch(live, k).Some?
    ensures LastMatch(live, k).None? && k in m ==> MergeAll(m, live)[k] == m[k]
    ensures LastMatch(live, k).Some? ==>
      MergeAll(m, live)[k] == Refresh(if k in m then m[k] else EmptyInfo.(name := k), live[LastMatch(live, k).value])
    decreases |live|
  {
    if live != [] {
      var init := live[..|live| - 1];
      assert Named(init) by {
        forall i | 0 <= i < |init| ensures init[i].names != [] { assert init[i] == live[i]; }
      }
      MergeAllAt(m, init, k);
      var c := live[|live| - 1];
      if PrimaryName(c) != k {
        assert LastMatch(live, k) == LastMatch(init, k);
        if LastMatch(init, k).Some? {
          assert live[LastMatch(init, k).value] == init[LastMatch(init, k).value];
        }
      }
    }
  }

  /** The keys after the merge are the old keys and the live primary names. */
  lemma MergeKeys(m: ComposeMap, live: seq<Summary>)
    requires Named(live)
    ensures forall k :: k in MergeAll(m, live) <==>
      k in m || exists i :: 0 <= i < |live| && PrimaryName(live[i]) == k
  {
    forall k ensures k in MergeAll(m, live) <==> k in m || exists i :: 0 <= i < |live| && PrimaryName(live[i]) == k {
      MergeAllAt(m, live, k);
    }
  }

  /** An existing entry keeps every field but ID, image and state, which come
      from the last live container carrying its name. */
  lemma MergeExisting(m: ComposeMap, live: seq<Summary>, k: string, i: nat)
    requires Named(live) && k in m
    requires i < |live| && PrimaryName(live[i]) == k
    requires forall j :: i < j < |live| ==> PrimaryName(live[j]) != k
    ensures k in MergeAll(m, live)
    ensures MergeAll(m, live)[k] == m[k].(id := live[i].id, image := live[i].image, state := live[i].state)
  {
    MergeAllAt(m, live, k);
  }

  /** A live container with an unregistered name becomes an entry with only
      its name, ID, image and state set. */
  lemma MergeOrphan(m: ComposeMap, live: seq<Summary>, k: string, i: nat)
    requires Named(live) && k !in m
    requires i < |live| && PrimaryName(live[i]) == k
    requires forall j :: i < j < |live| ==> PrimaryName(live[j]) != k
    ensures k in MergeAll(m, live)
    ensures MergeAll(m, live)[k] == EmptyInfo.(name := k, id := live[i].id, image := live[i].image, state := live[i].state)
    ensures MergeAll(m, live)[k].templateDir == ""
  {
    MergeAllAt(m, live, k);
  }

  /** Entries whose name no live container carries are left as they were. */
  lemma MergeUntouched(m: ComposeMap, live: seq<Summary>, k: string)
    requires Named(live) && k in m
    requires forall j :: 0 <= j < |live| ==> PrimaryName(live[j]) != k
    ensures k in MergeAll(m, live) && MergeAll(m, live)[k] == m[k]
  {
    MergeAllAt(m, live, k);
  }

  /** Merging the same live list a second time changes nothing. */
  lemma MergeIdempotent(m: ComposeMap, live: seq<Summary>)
    requires Named(live)
    ensures MergeAll(MergeAll(m, live), live) == MergeAll(m, live)
  {
    var once := MergeAll(m, live);
    var twice := MergeAll(once, live);
    forall k ensures (k in twice <==> k in once) && (k in once ==> twice[k] == once[k]) {
      MergeAllAt(m, live, k);
      MergeAllAt(once, live, k);
    }
  }

  /** The lookup yields an ID exactly when some live container carries the
      name and the last one to do so has a non-empty ID. */
  lemma IdForFound(live: seq<Summary>, name: string)
    requires Named(live)
    ensures IdFor(live, name) != "" <==>
      exists i :: 0 <= i < |live| && PrimaryName(live[i]) == name && live[i].id != "" &&
        forall j :: i < j < |live| ==> PrimaryName(live[j]) != name
  {
    if IdFor(live, name) != "" {
      var i := LastMatch(live, name).value;
      assert PrimaryName(live[i]) == name && live[i].id != "";
    }
  }

  /** One more container seen by a loop over the live list. */
  lemma PrefixStep(live: seq<Summary>, i: nat)
    requires i < |live| && Named(live[..i]) && live[i].names != []
    ensures Named(live[..i + 1]) && live[..i + 1][..i] == live[..i] && live[..i + 1][i] == live[i]
  {
    assert live[..i + 1][..i] == live[..i];
  }

  lemma IdForStep(live: seq<Summary>, i: nat, name: string)
    requires i < |live| && Named(live[..i]) && live[i].names != []
    ensures Named(live[..i + 1])
    ensures IdFor(live[..i + 1], name) == if PrimaryName(live[i]) == name then live[i].id else IdFor(live[..i], name)
  {
    PrefixStep(live, i);
  }

  lemma MergeAllStep(m: ComposeMap, live: seq<Summary>, i: nat)
    requires i < |live| && Named(live[..i]) && live[i].names != []
    ensures Named(live[..i + 1])
    ensures MergeAll(m, live[..i + 1]) == MergeOne(MergeAll(m, live[..i]), live[i])
  {
    PrefixStep(live, i);
  }

  // ---------------------------------------------------------------------
  // The runtime and the registry object

  /** The Docker daemon as the core sees it. */
  class Runtime {
    /** What ContainerList (with All set) reports. */
    var containers: seq<Summary>
    /** Whether the daemon answers list calls. */
    var reachable: bool
    /** Every start and stop request sent, in order. */
    var calls: seq<Call>
    /** ContainerInspect(name).State.Status. */
    var status: string -> string

    constructor (containers: seq<Summary>, reachable: bool, status: string -> string)
      ensures this.containers == containers && this.reachable == reachable
      ensures this.status == status && calls == []
    {
      this.containers, this.reachable, this.status := containers, reachable, status;
      calls := [];
    }

    method ContainerList() returns (r: Option<seq<Summary>>)
      ensures r == if reachable then Some(containers) else None
    {
      r := if reachable then Some(containers) else None;
    }

    /** The daemon's reply is not modelled: the core ignores it. */
    method ContainerStart(id: string)
      modifies this`calls
      ensures calls == old(calls) + [StartCall(id)]
    {
      calls := calls + [StartCall(id)];
    }

    method ContainerStop(id: string, timeoutSeconds: int)
      modifies this`calls
      ensures calls == old(calls) + [StopCall(id, timeoutSeconds)]
    {
      calls := calls + [StopCall(id, timeoutSeconds)];
    }
  }

  /** The lookup loop of Start and Stop: the ID of the last live container
      whose primary name is `name`. A container without names makes the
      loop index past the end of its name list. */
  method FindContainerId(live: seq<Summary>, name: string) returns (r: Result<string>)
    ensures Named(live) ==> r == Ok(IdFor(live, name))
    ensures !Named(live) ==> r == Abort(MissingName)
  {
    var id := "";
    var i := 0;
    while i < |live|
      invariant 0 <= i <= |live|
      invariant Named(live[..i])
      invariant id == IdFor(live[..i], name)
    {
      if live[i].names == [] {
        return Abort(MissingName);
      }
      IdForStep(live, i, name);
      if TrimLeftSlash(live[i].names[0]) == name {
        id := live[i].id;
      }
      i := i + 1;
    }
    assert live[..i] == live;
    r := Ok(id);
  }

  class Containers {
    const runtime: Runtime
    var containerMap: ComposeMap

    constructor (runtime: Runtime)
      ensures this.runtime == runtime && containerMap == map[]
    {
      this.runtime := runtime;
      containerMap := map[];
    }

    function GetContainerMap(): ComposeMap
      reads this
    {
      containerMap
    }

    /** The inspect call's answer for `name`. */
    function GetContainerStatus(name: string): string
      reads this, runtime
    {
      runtime.status(name)
    }

    /** Merge the live list into `input` and make the result the registry.
        A failed list call is fatal and leaves the registry as it was. */
    method CreateContainerMap(input: ComposeMap) returns (r: Result<()>)
      modifies this
      ensures !runtime.reachable ==> r == Abort(ListContainers) && containerMap == old(containerMap)
      ensures runtime.reachable && !Named(runtime.containers) ==>
        r == Abort(MissingName) && containerMap == old(containerMap)
      ensures runtime.reachable && Named(runtime.containers) ==>
        r == Ok(()) && containerMap == MergeAll(input, runtime.containers)
    {
      var listed := runtime.ContainerList();
      if listed.None? {
        return Abort(ListContainers);
      }
      var live := listed.value;
      var m := input;
      var i := 0;
      while i < |live|
        invariant 0 <= i <= |live|
        invariant Named(live[..i])
        invariant m == MergeAll(input, live[..i])
        invariant containerMap == old(containerMap)
      {
        if live[i].names == [] {
          return Abort(MissingName);
        }
        MergeAllStep(input, live, i);
        var name := TrimLeftSlash(live[i].names[0]);
        if name in m {
          var entry := m[name];
          entry := entry.(id := live[i].id, image := live[i].image, state := live[i].state);
          m := m[name := entry];
        } else {
          m := m[name := EmptyInfo.(id := live[i].id, image := live[i].image, state := live[i].state, name := name)];
        }
        i := i + 1;
      }
      assert live[..i] == live;
      containerMap := m;
      r := Ok(());
    }

    /** Start the last live container carrying `name`. */
    method Start(name: string) returns (r: Result<()>)
      modifies runtime`calls
      ensures !runtime.reachable ==> r == Fail(ListContainers) && runtime.calls == old(runtime.calls)
      ensures runtime.reachable && !Named(runtime.containers) ==>
        r == Abort(MissingName) && runtime.calls == old(runtime.calls)
      ensures runtime.reachable && Named(runtime.containers) ==>
        var id := IdFor(runtime.containers, name);
        if id == "" then r == Fail(CannotFind(name)) && runtime.calls == old(runtime.calls)
        else r == Ok(()) && runtime.calls == old(runtime.calls) + [StartCall(id)]
    {
      var listed := runtime.ContainerList();
      if listed.None? {
        return Fail(ListContainers);
      }
      var found := FindContainerId(listed.value, name);
      if !found.Ok? {
        return Abort(found.fault);
      }
      if found.value == "" {
        return Fail(CannotFind(name));
      }
      runtime.ContainerStart(found.value);
      r := Ok(());
    }

    /** Stop the last live container carrying `name`, with a 20 second grace. */
    method Stop(name: string) returns (r: Result<()>)
      modifies runtime`calls
      ensures !runtime.reachable ==> r == Fail(ListContainers) && runtime.calls == old(runtime.calls)
      ensures runtime.reachable && !Named(runtime.containers) ==>
        r == Abort(MissingName) && runtime.calls == old(runtime.calls)
      ensures runtime.reachable && Named(runtime.containers) ==>
        var id := IdFor(runtime.containers, name);
        if id == "" then r == Fail(CannotFind(name)) && runtime.calls == old(runtime.calls)
        else r == Ok(()) && runtime.calls == old(runtime.calls) + [StopCall(id, StopTimeoutSeconds)]
    {
      var listed := runtime.ContainerList();
      if listed.None? {
        return Fail(ListContainers);
      }
      var found := FindContainerId(listed.value, name);
      if !found.Ok? {
        return Abort(found.fault);
      }
      if found.value == "" {
        return Fail(CannotFind(name));
      }
      runtime.ContainerStop(found.value, StopTimeoutSeconds);
      r := Ok(());
    }
  }
}
