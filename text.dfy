/** The purely textual parts of template handling: the names that decide
    whether a file is rendered or copied, and the `.Values` strip applied to
    template text before it is parsed. */
module TemplateText {
  import opened Common

  const ValuesFile: string := "values.yml"
  const IncludesFile: string := "includes.template"
  const ComposeFile: string := "compose.yml"
  const DockerComposeFile: string := "docker-compose.yml"

  predicate HasSuffix(s: string, suffix: string) {
    |suffix| <= |s| && s[|s| - |suffix|..] == suffix
  }

  /** strings.HasSuffix: `s` is some text followed by `suffix`. */
  lemma HasSuffixIff(s: string, suffix: string)
    ensures HasSuffix(s, suffix) <==> exists t :: s == t + suffix
  {
    if HasSuffix(s, suffix) {
      var t := s[..|s| - |suffix|];
      assert s == t + suffix;
    }
  }

  /** A file is rendered as a template exactly when its base name ends in
      ".yml" and is not "values.yml"; every other file is copied. */
  predicate IsTemplateName(name: string) {
    HasSuffix(name, ".yml") && name != ValuesFile
  }

  /** The file names that mark a directory as a compose project. */
  predicate IsComposeFileName(name: string) {
    name == DockerComposeFile || name == ComposeFile
  }

  /** The bytes of ".Values". */
  const ValuesMarker: Bytes := [0x2E, 0x56, 0x61, 0x6C, 0x75, 0x65, 0x73]
  const MarkerLength: nat := 7

  predicate OccursAt(s: Bytes, i: int) {
    0 <= i && i + MarkerLength <= |s| && s[i..i + MarkerLength] == ValuesMarker
  }

  predicate ContainsMarker(s: Bytes) {
    exists i :: 0 <= i < |s| && OccursAt(s, i)
  }

  /** strings.ReplaceAll(s, ".Values", ""): scanning left to right, every
      occurrence that does not overlap an earlier removed one disappears. */
  function StripValues(s: Bytes): (r: Bytes)
    ensures |r| <= |s|
    decreases |s|
  {
    if OccursAt(s, 0) then StripValues(s[MarkerLength..])
    else if s == [] then []
    else [s[0]] + StripValues(s[1..])
  }

  // ---------------------------------------------------------------------
  // The reference: how Go's strings.Replace proceeds, by repeated Index.

  lemma OccursShift(s: Bytes, j: int)
    requires s != [] && 0 <= j
    ensures OccursAt(s[1..], j) <==> OccursAt(s, j + 1)
  {
    if 0 <= j && j + MarkerLength <= |s[1..]| {
      assert s[1..][j..j + MarkerLength] == s[j + 1..j + 1 + MarkerLength];
    }
  }

  /** strings.Index(s, ".Values"): the first occurrence. */
  function Index(s: Bytes): (r: Option<nat>)
    ensures r.Some? ==> OccursAt(s, r.value) && forall j :: 0 <= j < r.value ==> !OccursAt(s, j)
    ensures r.None? ==> !ContainsMarker(s)
    decreases |s|
  {
    if OccursAt(s, 0) then Some(0)
    else if |s| < MarkerLength then
      assert forall j :: !OccursAt(s, j);
      None
    else
      var rest := Index(s[1..]);
      if rest.None? then
        assert forall j :: !OccursAt(s, j) by {
          forall j ensures !OccursAt(s, j) {
            if j >= 1 { OccursShift(s, j - 1); }
          }
        }
        None
      else
        assert forall j :: 0 <= j < rest.value + 1 ==> !OccursAt(s, j) by {
          forall j | 0 <= j < rest.value + 1 ensures !OccursAt(s, j) {
            if j >= 1 { OccursShift(s, j - 1); }
          }
        }
        OccursShift(s, rest.value);
        Some(rest.value + 1)
  }

  /** Replace by repeated Index: copy up to the next occurrence, skip it. */
  function ReplaceByIndex(s: Bytes): Bytes
    decreases |s|
  {
    match Index(s)
    case None => s
    case Some(j) => s[..j] + ReplaceByIndex(s[j + MarkerLength..])
  }

  /** strings.Count(s, ".Values"): the non-overlapping occurrences. */
  function CountByIndex(s: Bytes): nat
    decreases |s|
  {
    match Index(s)
    case None => 0
    case Some(j) => 1 + CountByIndex(s[j + MarkerLength..])
  }

  lemma OccursSuffix(s: Bytes, k: nat)
    requires k <= |s|
    ensures OccursAt(s[k..], 0) <==> OccursAt(s, k)
  {
    if k + MarkerLength <= |s| {
      assert s[k..][0..MarkerLength] == s[k..k + MarkerLength];
    }
  }

  /** Before the first occurrence the strip copies byte for byte. */
  lemma {:induction false} StripPrefix(s: Bytes, k: nat)
    requires k <= |s|
    requires forall i :: 0 <= i < k ==> !OccursAt(s, i)
    ensures StripValues(s) == s[..k] + StripValues(s[k..])
    decreases k
  {
    if k > 0 {
      StripPrefix(s, k - 1);
      var t := s[k - 1..];
      OccursSuffix(s, k - 1);
      assert t[1..] == s[k..];
      assert StripValues(t) == [s[k - 1]] + StripValues(s[k..]);
      assert s[..k - 1] + [s[k - 1]] == s[..k];
    }
  }

  /** The left-to-right strip is exactly Go's Index-driven replacement. */
  lemma {:induction false} StripIsReplaceAll(s: Bytes)
    ensures StripValues(s) == ReplaceByIndex(s)
    decreases |s|
  {
    match Index(s)
    case None =>
      StripPrefix(s, |s|);
      assert s[..|s|] == s && s[|s|..] == [];
    case Some(j) =>
      StripPrefix(s, j);
      OccursSuffix(s, j);
      assert s[j..][MarkerLength..] == s[j + MarkerLength..];
      StripIsReplaceAll(s[j + MarkerLength..]);
  }

  /** Short inputs cannot hold the marker and come back unchanged. */
  lemma {:induction false} NoMarkerKept(s: Bytes)
    requires |s| < MarkerLength
    ensures StripValues(s) == s
    decreases |s|
  {
    if s != [] {
      NoMarkerKept(s[1..]);
      assert [s[0]] + s[1..] == s;
    }
  }

  lemma {:induction false} ReplaceByIndexLength(s: Bytes)
    ensures |ReplaceByIndex(s)| == |s| - MarkerLength * CountByIndex(s)
    decreases |s|
  {
    match Index(s)
    case None =>
    case Some(j) =>
      ReplaceByIndexLength(s[j + MarkerLength..]);
  }

  /** Text without the marker is left exactly as it is; text with it is
      changed. */
  lemma StripIdentityIff(s: Bytes)
    ensures StripValues(s) == s <==> !ContainsMarker(s)
  {
    StripIsReplaceAll(s);
    StripLength(s);
    if ContainsMarker(s) {
      assert Index(s).Some?;
      assert CountByIndex(s) >= 1;
    }
  }

  /** Each removal shortens the text by the marker's seven bytes, the count
      being the one strings.Count gives. */
  lemma StripLength(s: Bytes)
    ensures |StripValues(s)| == |s| - MarkerLength * CountByIndex(s)
    ensures CountByIndex(s) > 0 <==> ContainsMarker(s)
  {
    StripIsReplaceAll(s);
    ReplaceByIndexLength(s);
  }

  /** Two bytes every occurrence has: the dot first and the 'l' fourth. */
  lemma OccursBytes(s: Bytes, i: int)
    requires OccursAt(s, i)
    ensures s[i] == 0x2E && s[i + 3] == 0x6C
  {
    assert s[i..i + MarkerLength][0] == s[i] && s[i..i + MarkerLength][3] == s[i + 3];
  }

  /** The strip is not idempotent: removing one occurrence can join its
      neighbours into a new one. */
  lemma StripCanExposeMarker()
    ensures var t: Bytes := [0x2E, 0x56, 0x61] + ValuesMarker + [0x6C, 0x75, 0x65, 0x73];
            StripValues(t) == ValuesMarker && StripValues(StripValues(t)) == []
  {
    var head: Bytes := [0x2E, 0x56, 0x61];
    var tail: Bytes := [0x6C, 0x75, 0x65, 0x73];
    var t := head + ValuesMarker + tail;
    assert t[1] == 0x56 && t[2] == 0x61 && t[3] == 0x2E;
    forall i | 0 <= i < 3 ensures !OccursAt(t, i) {
      if OccursAt(t, i) { OccursBytes(t, i); }
    }
    StripPrefix(t, 3);
    var t3 := t[3..];
    assert t3 == ValuesMarker + tail && t[..3] == head;
    assert t3[..MarkerLength] == ValuesMarker && t3[MarkerLength..] == tail;
    NoMarkerKept(tail);
    assert StripValues(t3) == tail;
    assert head + tail == ValuesMarker;
    assert ValuesMarker[..MarkerLength] == ValuesMarker && ValuesMarker[MarkerLength..] == [];
  }
}
