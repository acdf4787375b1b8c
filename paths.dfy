/** Slash-separated paths as Go's `path` and `path/filepath` packages treat
    them: split into components, cleaned lexically, joined, and resolved
    against the working directory. */
module Paths {
  import opened Common

  /** A cleaned path: `absolute` says whether it starts at "/"; `parts` are
      its components. Path(false, []) is ".", Path(true, []) is "/". */
  datatype Path = Path(absolute: bool, parts: seq<string>)

  /** A component that names an entry: not empty, not "." or "..", no '/'. */
  predicate PlainName(c: string) {
    c != "" && c != "." && c != ".." && '/' !in c
  }

  predicate Plain(cs: seq<string>) {
    forall i :: 0 <= i < |cs| ==> PlainName(cs[i])
  }

  /** strings.Split(s, "/"): the pieces between slashes, empty ones included. */
  function Split(s: string): (r: seq<string>)
    ensures |r| >= 1
  {
    if s == [] then [""]
    else if s[0] == '/' then [""] + Split(s[1..])
    else
      var t := Split(s[1..]);
      [[s[0]] + t[0]] + t[1..]
  }

  /** One component of path.Clean's scan: drop "" and ".", let ".." remove
      the previous component (at the root it stays, in a relative path with
      nothing left to remove it is kept). */
  function CleanStep(absolute: bool, acc: seq<string>, c: string): seq<string> {
    if c == "" || c == "." then acc
    else if c == ".." then
      if |acc| > 0 && acc[|acc| - 1] != ".." then acc[..|acc| - 1]
      else if absolute then acc
      else acc + [".."]
    else acc + [c]
  }

  /** Clean the components `cs`, appending them to the already clean `acc`. */
  function Clean(absolute: bool, acc: seq<string>, cs: seq<string>): seq<string>
    decreases |cs|
  {
    if cs == [] then acc else Clean(absolute, CleanStep(absolute, acc, cs[0]), cs[1..])
  }

  /** The cleaned path a string denotes. */
  function ParsePath(s: string): Path {
    var absolute := |s| > 0 && s[0] == '/';
    Path(absolute, Clean(absolute, [], Split(s)))
  }

  /** The name, as the OS reads it, insists on a directory: it ends in a
      slash or in a "." component, which cleaning drops. */
  predicate NamesDirectory(s: string) {
    var cs := Split(s);
    s != "" && (cs[|cs| - 1] == "" || cs[|cs| - 1] == ".")
  }

  /** A name with a trailing slash insists on a directory; the same name
      without it does not. */
  lemma NamesDirectoryExample(name: string)
    requires PlainName(name)
    ensures NamesDirectory(name + "/") && !NamesDirectory(name)
  {
    SplitAtSlash(name, "");
    SplitNoSlash(name);
    assert name + "/" == name + "/" + "";
  }

  /** "/a/b" for ["a", "b"]; the empty sequence gives "". */
  function Joined(cs: seq<string>): string {
    if cs == [] then "" else Joined(cs[..|cs| - 1]) + "/" + cs[|cs| - 1]
  }

  /** The text of an absolute location, as filepath.Abs returns it. */
  function FormatLoc(loc: Loc): string {
    if loc == [] then "/" else Joined(loc)
  }

  /** "a/b" for ["a", "b"]. */
  function Unrooted(cs: seq<string>): string
    requires cs != []
  {
    if |cs| == 1 then cs[0] else Unrooted(cs[..|cs| - 1]) + "/" + cs[|cs| - 1]
  }

  /** The text of a cleaned path, as path.Clean and path.Dir return it. */
  function Format(p: Path): string {
    if p.absolute then FormatLoc(p.parts)
    else if p.parts == [] then "."
    else Unrooted(p.parts)
  }

  /** path.Dir: all but the last component. */
  function Dir(p: Path): (d: Path)
    ensures d.absolute == p.absolute
    ensures p.parts != [] ==> |d.parts| == |p.parts| - 1 && p.parts == d.parts + [p.parts[|p.parts| - 1]]
    ensures p.parts == [] ==> d == p
  {
    if p.parts == [] then p else Path(p.absolute, p.parts[..|p.parts| - 1])
  }

  /** path.Base: the last component; "/" for the root and "." for "." */
  function Base(p: Path): string {
    if p.parts != [] then p.parts[|p.parts| - 1]
    else if p.absolute then "/"
    else "."
  }

  /** path.Join(p, name) for a plain file name. */
  function Child(p: Path, name: string): Path {
    Path(p.absolute, p.parts + [name])
  }

  /** filepath.Join(p, rel) for a relative path given by its components. */
  function Extend(p: Path, rel: seq<string>): Path {
    Path(p.absolute, Clean(p.absolute, p.parts, rel))
  }

  /** path.Join(p, s) for any string s. */
  function JoinString(p: Path, s: string): Path {
    Extend(p, Split(s))
  }

  /** The absolute location a path names when the working directory is `cwd`. */
  function Resolve(cwd: Loc, p: Path): Loc {
    if p.absolute then p.parts else Clean(true, cwd, p.parts)
  }

  /** `a` is `b` or one of its ancestors. */
  predicate IsPrefix(a: Loc, b: Loc) {
    |a| <= |b| && b[..|a|] == a
  }

  /** Neither location lies inside the other. */
  predicate Disjoint(a: Loc, b: Loc) {
    !IsPrefix(a, b) && !IsPrefix(b, a)
  }

  /** `p` is `root` extended by plain components, as every path that
      filepath.Walk(root) hands to its callback is. */
  predicate Beneath(root: Path, p: Path) {
    && p.absolute == root.absolute
    && |root.parts| <= |p.parts|
    && p.parts[..|root.parts|] == root.parts
    && Plain(p.parts[|root.parts|..])
  }

  /** filepath.Rel(root, p) for a path beneath root. */
  function Rel(root: Path, p: Path): seq<string>
    requires Beneath(root, p)
  {
    p.parts[|root.parts|..]
  }

  // ---------------------------------------------------------------------
  // Lemmas

  /** The path relative to the root is plain, and the root followed by it
      is the path again. */
  lemma RelSplits(root: Path, p: Path)
    requires Beneath(root, p)
    ensures Plain(Rel(root, p)) && p.parts == root.parts + Rel(root, p)
  {
  }

  /** Cleaning components that are already plain only appends them. */
  lemma {:induction false} CleanPlain(absolute: bool, acc: seq<string>, cs: seq<string>)
    requires Plain(cs)
    ensures Clean(absolute, acc, cs) == acc + cs
    decreases |cs|
  {
    if cs != [] {
      assert Plain(cs[1..]) by {
        forall i | 0 <= i < |cs[1..]| ensures PlainName(cs[1..][i]) { assert cs[1..][i] == cs[i + 1]; }
      }
      CleanPlain(absolute, acc + [cs[0]], cs[1..]);
      assert acc + [cs[0]] + cs[1..] == acc + cs;
    }
  }

  /** Cleaning is a left fold: cleaning x + y is cleaning x, then y. */
  lemma {:induction false} CleanAppend(absolute: bool, acc: seq<string>, x: seq<string>, y: seq<string>)
    ensures Clean(absolute, acc, x + y) == Clean(absolute, Clean(absolute, acc, x), y)
    decreases |x|
  {
    if x != [] {
      assert (x + y)[0] == x[0];
      assert (x + y)[1..] == x[1..] + y;
      CleanAppend(absolute, CleanStep(absolute, acc, x[0]), x[1..], y);
    } else {
      assert x + y == y;
    }
  }

  /** Joining a walk-relative path onto the output directory and resolving
      it gives the output directory's location followed by that path. */
  lemma ResolveExtend(cwd: Loc, p: Path, rel: seq<string>)
    requires Plain(rel)
    ensures Extend(p, rel) == Path(p.absolute, p.parts + rel)
    ensures Resolve(cwd, Extend(p, rel)) == Resolve(cwd, p) + rel
  {
    CleanPlain(p.absolute, p.parts, rel);
    if !p.absolute {
      CleanAppend(true, cwd, p.parts, rel);
      CleanPlain(true, Clean(true, cwd, p.parts), rel);
    }
  }

  /** A path beneath the root resolves beneath the root's location. */
  lemma ResolveBeneath(cwd: Loc, root: Path, p: Path)
    requires Beneath(root, p)
    ensures Resolve(cwd, p) == Resolve(cwd, root) + Rel(root, p)
  {
    var rel := Rel(root, p);
    RelSplits(root, p);
    ResolveExtend(cwd, root, rel);
    assert p == Path(root.absolute, root.parts + rel);
  }

  /** path.Base and path.Dir split a path with components into its parent
      and its last name, and Child puts them back together. */
  lemma DirBase(p: Path)
    requires p.parts != []
    ensures Child(Dir(p), Base(p)) == p
  {
  }

  /** The base name of a child is the name joined, and its directory is the
      parent. */
  lemma BaseOfChild(p: Path, name: string)
    ensures Base(Child(p, name)) == name && Dir(Child(p, name)) == p
  {
    assert (p.parts + [name])[..|p.parts|] == p.parts;
  }

  /** path.Join with a plain name appends it as one component. */
  lemma JoinPlain(p: Path, name: string)
    requires PlainName(name)
    ensures JoinString(p, name) == Extend(p, [name]) == Child(p, name)
  {
    SplitNoSlash(name);
    ResolveExtend([], p, [name]);
  }

  /** Splitting at a slash splits the two sides separately. */
  lemma {:induction false} SplitAtSlash(a: string, b: string)
    ensures Split(a + "/" + b) == Split(a) + Split(b)
    decreases |a|
  {
    if a == [] {
      assert a + "/" + b == "/" + b;
      assert ("/" + b)[1..] == b;
    } else {
      assert (a + "/" + b)[0] == a[0];
      assert (a + "/" + b)[1..] == a[1..] + "/" + b;
      SplitAtSlash(a[1..], b);
    }
  }

  /** A string without slashes is one piece. */
  lemma {:induction false} SplitNoSlash(c: string)
    requires '/' !in c
    ensures Split(c) == [c]
    decreases |c|
  {
    if c != [] {
      assert c[0] in c;
      assert forall ch :: ch in c[1..] ==> ch in c;
      SplitNoSlash(c[1..]);
      assert [c[0]] + c[1..] == c;
    }
  }

  lemma {:induction false} SplitJoined(cs: seq<string>)
    requires Plain(cs)
    ensures Split(Joined(cs)) == [""] + cs
    decreases |cs|
  {
    if cs != [] {
      var init, last := cs[..|cs| - 1], cs[|cs| - 1];
      assert Plain(init) by {
        forall i | 0 <= i < |init| ensures PlainName(init[i]) { assert init[i] == cs[i]; }
      }
      assert PlainName(last);
      SplitJoined(init);
      SplitAtSlash(Joined(init), last);
      SplitNoSlash(last);
      assert cs == init + [last];
    }
  }

  lemma {:induction false} JoinedLeadingSlash(cs: seq<string>)
    requires cs != []
    ensures |Joined(cs)| > 0 && Joined(cs)[0] == '/'
    decreases |cs|
  {
    var init := cs[..|cs| - 1];
    if init != [] {
      JoinedLeadingSlash(init);
    }
  }

  /** The text filepath.Abs produces for a location parses back to that
      location: a template directory recorded as a string by the scanner
      names the same directory when the installer reads it back. */
  lemma FormatLocRoundTrip(loc: Loc)
    requires Plain(loc)
    ensures ParsePath(FormatLoc(loc)) == Path(true, loc)
  {
    if loc == [] {
      assert Split("/") == [""] + Split("");
    } else {
      SplitJoined(loc);
      JoinedLeadingSlash(loc);
      assert Clean(true, [], [""] + loc) == Clean(true, [], loc);
      CleanPlain(true, [], loc);
    }
  }

  lemma {:induction false} SplitUnrooted(cs: seq<string>)
    requires cs != [] && Plain(cs)
    ensures Split(Unrooted(cs)) == cs
    ensures |Unrooted(cs)| > 0 && Unrooted(cs)[0] == cs[0][0]
    decreases |cs|
  {
    if |cs| == 1 {
      SplitNoSlash(cs[0]);
    } else {
      var init, last := cs[..|cs| - 1], cs[|cs| - 1];
      assert Plain(init) by {
        forall i | 0 <= i < |init| ensures PlainName(init[i]) { assert init[i] == cs[i]; }
      }
      assert PlainName(last);
      SplitUnrooted(init);
      SplitAtSlash(Unrooted(init), last);
      SplitNoSlash(last);
      assert cs == init + [last];
    }
  }

  /** The text of a cleaned path, as path.Clean prints it, cleans back to
      the same path: the text path.Dir yields names the directory it came
      from. */
  lemma FormatRoundTrip(p: Path)
    requires Plain(p.parts)
    ensures ParsePath(Format(p)) == p
  {
    if p.absolute {
      FormatLocRoundTrip(p.parts);
    } else if p.parts == [] {
      SplitNoSlash(".");
    } else {
      SplitUnrooted(p.parts);
      assert PlainName(p.parts[0]);
      CleanPlain(false, [], p.parts);
    }
  }
}
