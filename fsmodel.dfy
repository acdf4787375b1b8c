/** The filesystem as a value: regular files with their bytes, the set of
    directories, and the locations the operating system refuses to touch.
    Each primitive the core calls (os.Stat, os.ReadFile, os.MkdirAll,
    os.WriteFile, os.Mkdir, os.MkdirTemp, os.RemoveAll) is a function from
    a state to its outcome and the next state. */
module FsModel {
  import opened Common
  import opened Paths

  datatype FsState = FsState(files: map<Loc, Bytes>, dirs: set<Loc>, denied: set<Loc>)

  function Parent(l: Loc): Loc
    requires l != []
  {
    l[..|l| - 1]
  }

  /** The root always exists as a directory. */
  predicate IsDir(s: FsState, l: Loc) {
    l == [] || l in s.dirs
  }

  /** Every entry hangs off an existing directory and no location is both a
      file and a directory. The directory clause is instantiated only for
      locations whose parent is mentioned, so that it cannot walk up the
      ancestors of every directory on its own. */
  ghost predicate WellFormed(s: FsState) {
    && [] !in s.files && [] !in s.dirs
    && (forall l :: l in s.files ==> l !in s.dirs && IsDir(s, Parent(l)))
    && (forall l {:trigger Parent(l)} :: l in s.dirs ==> IsDir(s, Parent(l)))
  }

  /** Some proper ancestor of the location is a regular file, so the OS
      meets a non-directory on the way to it (ENOTDIR). */
  predicate UnderFile(s: FsState, l: Loc)
    decreases |l|
  {
    l != [] && (Parent(l) in s.files || UnderFile(s, Parent(l)))
  }

  /** os.Stat: whether the location is a directory. `dirOnly` says that the
      name as given insists on a directory (it ends in a slash or in "."),
      so that a regular file there is "not a directory". */
  function Stat(s: FsState, l: Loc, dirOnly: bool): (r: Io<bool>)
    ensures r.Done? <==> l !in s.denied && (IsDir(s, l) || (l in s.files && !dirOnly))
    ensures r.Done? ==> (r.value <==> IsDir(s, l))
    ensures r == Failed(NotExist) <==> l !in s.denied && !IsDir(s, l) && l !in s.files && !UnderFile(s, l)
  {
    if l in s.denied then Failed(Permission)
    else if IsDir(s, l) then Done(true)
    else if l in s.files then (if dirOnly then Failed(NotADirectory) else Done(false))
    else if UnderFile(s, l) then Failed(NotADirectory)
    else Failed(NotExist)
  }

  /** os.ReadFile, with `dirOnly` as for Stat. */
  function ReadFile(s: FsState, l: Loc, dirOnly: bool): (r: Io<Bytes>)
    ensures r.Done? <==> l !in s.denied && !IsDir(s, l) && l in s.files && !dirOnly
    ensures r.Done? ==> r.value == s.files[l]
    ensures r == Failed(NotExist) <==> l !in s.denied && !IsDir(s, l) && l !in s.files && !UnderFile(s, l)
  {
    if l in s.denied then Failed(Permission)
    else if IsDir(s, l) then Failed(IsADirectory)
    else if l in s.files then (if dirOnly then Failed(NotADirectory) else Done(s.files[l]))
    else if UnderFile(s, l) then Failed(NotADirectory)
    else Failed(NotExist)
  }

  /** The error for creating an entry whose parent is not a directory. */
  function MissingParent(s: FsState, l: Loc): IoError
    requires l != []
  {
    if UnderFile(s, l) then NotADirectory else NotExist
  }

  /** os.Mkdir: create one directory inside an existing one. */
  function Mkdir(s: FsState, l: Loc): (r: (Io<()>, FsState))
    ensures r.1.files == s.files && r.1.denied == s.denied
    ensures r.0.Done? <==> l != [] && l !in s.dirs && l !in s.files && IsDir(s, Parent(l)) && l !in s.denied
    ensures r.1.dirs == if r.0.Done? then s.dirs + {l} else s.dirs
  {
    if l == [] || l in s.dirs || l in s.files then (Failed(AlreadyExists), s)
    else if !IsDir(s, Parent(l)) then (Failed(MissingParent(s, l)), s)
    else if l in s.denied then (Failed(Permission), s)
    else (Done(()), s.(dirs := s.dirs + {l}))
  }

  /** os.MkdirAll: create the location and every missing ancestor, parents
      first; a failure part-way leaves the ancestors already created. */
  function MkdirAll(s: FsState, l: Loc): (r: (Io<()>, FsState))
    decreases |l|
  {
    if IsDir(s, l) then (Done(()), s)
    else if l in s.files then (Failed(NotADirectory), s)
    else
      var (up, s1) := MkdirAll(s, Parent(l));
      if up.Failed? then (up, s1)
      else
        var (here, s2) := Mkdir(s1, l);
        if here.Failed? && here.error == AlreadyExists then (Done(()), s2) else (here, s2)
  }

  /** os.WriteFile: create or truncate a regular file. */
  function WriteFile(s: FsState, l: Loc, data: Bytes): (r: (Io<()>, FsState))
    ensures r.1.dirs == s.dirs && r.1.denied == s.denied
    ensures r.0.Done? <==> l != [] && l !in s.dirs && l !in s.denied && IsDir(s, Parent(l))
    ensures r.1.files == if r.0.Done? then s.files[l := data] else s.files
  {
    if l == [] || l in s.dirs then (Failed(IsADirectory), s)
    else if l in s.denied then (Failed(Permission), s)
    else if !IsDir(s, Parent(l)) then (Failed(MissingParent(s, l)), s)
    else (Done(()), s.(files := s.files[l := data]))
  }

  /** os.RemoveAll: remove the location and everything under it. */
  function RemoveAll(s: FsState, l: Loc): (r: FsState)
    ensures r.denied == s.denied
    ensures forall k :: k in r.files <==> k in s.files && !IsPrefix(l, k)
    ensures forall k :: k in r.files ==> r.files[k] == s.files[k]
    ensures forall k :: k in r.dirs <==> k in s.dirs && !IsPrefix(l, k)
  {
    var files := map k | k in s.files && !IsPrefix(l, k) :: s.files[k];
    var dirs := set k | k in s.dirs && !IsPrefix(l, k);
    FsState(files, dirs, s.denied)
  }

  /** os.MkdirTemp(dir, ""): create a new directory under `tempDir`, trying
      the random names the OS draws in turn while a name is already taken. */
  function MkdirTemp(s: FsState, tempDir: Loc, names: seq<string>): (r: (Io<Loc>, FsState))
    ensures r.1.files == s.files && r.1.denied == s.denied
    ensures r.0.Done? ==> exists i :: 0 <= i < |names| && r.0.value == tempDir + [names[i]]
    ensures r.0.Done? ==> r.1.dirs == s.dirs + {r.0.value} && r.0.value !in s.dirs && r.0.value !in s.files
    ensures r.0.Failed? ==> r.1 == s
    decreases |names|
  {
    if names == [] then (Failed(AlreadyExists), s)
    else
      var l := tempDir + [names[0]];
      var (made, s1) := Mkdir(s, l);
      if made.Done? then (Done(l), s1)
      else if made.error == AlreadyExists then
        var r := MkdirTemp(s, tempDir, names[1..]);
        assert r.0.Done? ==> exists i :: 0 <= i < |names| && r.0.value == tempDir + [names[i]] by {
          if r.0.Done? {
            var i :| 0 <= i < |names[1..]| && r.0.value == tempDir + [names[1..][i]];
            assert names[1..][i] == names[i + 1];
          }
        }
        r
      else (Failed(made.error), s)
  }

  // ---------------------------------------------------------------------
  // Lemmas

  /** MkdirAll touches no file and only adds directories, each an ancestor
      of (or equal to) the location asked for; on success that location is
      a directory. */
  lemma {:induction false} MkdirAllEffect(s: FsState, l: Loc)
    ensures MkdirAll(s, l).1.files == s.files
    ensures MkdirAll(s, l).1.denied == s.denied
    ensures s.dirs <= MkdirAll(s, l).1.dirs
    ensures forall d :: d in MkdirAll(s, l).1.dirs && d !in s.dirs ==> IsPrefix(d, l)
    ensures MkdirAll(s, l).0.Done? ==> IsDir(MkdirAll(s, l).1, l)
    decreases |l|
  {
    if !IsDir(s, l) && l !in s.files {
      MkdirAllEffect(s, Parent(l));
      var s1 := MkdirAll(s, Parent(l)).1;
      forall d | d in s1.dirs && d !in s.dirs ensures IsPrefix(d, l) {
        assert IsPrefix(d, Parent(l));
        assert l[..|d|] == Parent(l)[..|d|];
      }
    }
  }

  /** Every ancestor of an existing entry is a directory. */
  lemma {:induction false} AncestorsAreDirs(s: FsState, l: Loc, a: Loc)
    requires WellFormed(s)
    requires l in s.files || l in s.dirs
    requires IsPrefix(a, l)
    ensures a == l || IsDir(s, a)
    decreases |l|
  {
    if a != l {
      assert l != [];
      var p := Parent(l);
      assert IsDir(s, p);
      assert IsPrefix(a, p) by { assert p[..|a|] == l[..|a|]; }
      if p != [] {
        AncestorsAreDirs(s, p, a);
      } else {
        assert a == [];
      }
    }
  }

  /** Nothing lies under a location that does not exist. */
  lemma NothingUnderMissing(s: FsState, l: Loc)
    requires WellFormed(s)
    requires !IsDir(s, l) && l !in s.files
    ensures forall k :: IsPrefix(l, k) ==> k !in s.files && k !in s.dirs
  {
    forall k | IsPrefix(l, k) ensures k !in s.files && k !in s.dirs {
      if k in s.files || k in s.dirs {
        AncestorsAreDirs(s, k, l);
      }
    }
  }

  lemma MkdirWellFormed(s: FsState, l: Loc)
    requires WellFormed(s)
    ensures WellFormed(Mkdir(s, l).1)
  {
  }

  lemma {:induction false} MkdirAllWellFormed(s: FsState, l: Loc)
    requires WellFormed(s)
    ensures WellFormed(MkdirAll(s, l).1)
    decreases |l|
  {
    if !IsDir(s, l) && l !in s.files {
      MkdirAllWellFormed(s, Parent(l));
      MkdirAllEffect(s, Parent(l));
      MkdirWellFormed(MkdirAll(s, Parent(l)).1, l);
    }
  }

  lemma WriteFileWellFormed(s: FsState, l: Loc, data: Bytes)
    requires WellFormed(s)
    ensures WellFormed(WriteFile(s, l, data).1)
  {
  }

  lemma RemoveAllWellFormed(s: FsState, l: Loc)
    requires WellFormed(s)
    ensures WellFormed(RemoveAll(s, l))
  {
    var r := RemoveAll(s, l);
    forall k | k in r.files || k in r.dirs ensures IsDir(r, Parent(k)) {
      var p := Parent(k);
      if p != [] {
        assert p in s.dirs;
      }
    }
  }

  lemma {:induction false} MkdirTempWellFormed(s: FsState, tempDir: Loc, names: seq<string>)
    requires WellFormed(s)
    ensures WellFormed(MkdirTemp(s, tempDir, names).1)
    decreases |names|
  {
    if names != [] {
      MkdirWellFormed(s, tempDir + [names[0]]);
      MkdirTempWellFormed(s, tempDir, names[1..]);
    }
  }
}
