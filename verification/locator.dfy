/** The executable locator of cmd/shell.go: the directories of the search
    path are tried in order, and the first one that exists and whose subtree
    holds a plain file with the wanted name gives the result. */
module Locator {

  import opened Common
  import PathList

  /** One report of a directory walk: an entry (its base name and whether it
      is a directory), or a failure to access a path. */
  datatype WalkItem = Entry(name: string, isDir: bool) | WalkError

  /** What the file system says about one search-path directory: its status
      and the reports a walk of its subtree delivers, in order. */
  datatype Dir = Dir(stat: Stat, walk: seq<WalkItem>)

  type FileSystem = map<string, Dir>

  /** A path the file system does not list is missing, and walking it
      reports a failure straight away. */
  function Lookup(fs: FileSystem, path: string): Dir
  {
    if path in fs then fs[path] else Dir(Missing, [WalkError])
  }

  /** A boolean verdict paired with whether an error came with it. */
  datatype Probe = Probe(holds: bool, failed: bool)

  /** A walk report that counts as finding the executable. */
  predicate Matches(item: WalkItem, executable: string)
  {
    item.Entry? && !item.isDir && item.name == executable
  }

  /** Reference definition of a usable search-path directory: its status
      query did not say "missing", and a plain file with the name is reported
      before any walk failure. */
  predicate Qualifies(fs: FileSystem, dir: string, executable: string)
  {
    var d := Lookup(fs, dir);
    && d.stat != Missing
    && exists i :: 0 <= i < |d.walk| && Matches(d.walk[i], executable) && WalkError !in d.walk[..i]
  }

  /** The status query: present is true, missing is false, any other failure
      is true together with the error. */
  function PathExists(fs: FileSystem, path: string): (r: Probe)
    ensures r.holds <==> Lookup(fs, path).stat != Missing
    ensures r.failed <==> Lookup(fs, path).stat == StatFailure
    ensures !r.holds ==> !r.failed
  {
    match Lookup(fs, path).stat
    case Present => Probe(true, false)
    case Missing => Probe(false, false)
    case StatFailure => Probe(true, true)
  }

  /** The walk callback applied report by report: a failure stops the walk
      and is returned; a plain file with the name sets the result, which no
      later report can clear. */
  function ScanWalk(walk: seq<WalkItem>, executable: string): (r: Probe)
    ensures r.holds <==> exists i :: 0 <= i < |walk| && Matches(walk[i], executable) && WalkError !in walk[..i]
    ensures r.failed <==> WalkError in walk
    decreases |walk|
  {
    if |walk| == 0 then Probe(false, false)
    else match walk[0]
      case WalkError => Probe(false, true)
      case Entry(name, isDir) =>
        var rest := ScanWalk(walk[1..], executable);
        assert forall i :: 1 <= i <= |walk| ==> walk[1..][..i - 1] == walk[1..i];
        if !isDir && name == executable then Probe(true, rest.failed) else rest
  }

  /** Whether the walk of a directory finds the executable, and whether the
      walk failed. */
  function IsInPath(fs: FileSystem, inDir: string, executable: string): (r: Probe)
    ensures r.holds <==> (var w := Lookup(fs, inDir).walk;
                          exists i :: 0 <= i < |w| && Matches(w[i], executable) && WalkError !in w[..i])
    ensures r.failed <==> WalkError in Lookup(fs, inDir).walk
  {
    ScanWalk(Lookup(fs, inDir).walk, executable)
  }

  /** The search loop: both probes are run on each directory in order, their
      errors are ignored, and the first directory where both hold wins. */
  function FirstMatch(dirs: seq<string>, fs: FileSystem, executable: string): (r: Option<string>)
    ensures r.None? <==> forall k :: 0 <= k < |dirs| ==> !Qualifies(fs, dirs[k], executable)
    ensures r.Some? ==> exists k :: 0 <= k < |dirs| && Qualifies(fs, dirs[k], executable)
                          && r.value == Join(dirs[k], executable)
                          && forall j :: 0 <= j < k ==> !Qualifies(fs, dirs[j], executable)
    decreases |dirs|
  {
    if |dirs| == 0 then None
    else
      var pathExists := PathExists(fs, dirs[0]).holds;
      var isInPath := IsInPath(fs, dirs[0], executable).holds;
      if pathExists && isInPath then Some(Join(dirs[0], executable))
      else
        var r := FirstMatch(dirs[1..], fs, executable);
        assert forall k :: 1 <= k < |dirs| ==> dirs[1..][k - 1] == dirs[k];
        r
  }

  datatype ShellError = PathUnset | NotFound

  /** Locating an executable through the search-path variable, which may be
      unset. */
  function SearchShell(pathVar: Option<string>, fs: FileSystem, executable: string): (r: Result<string, ShellError>)
    ensures pathVar.None? ==> r == Failure(PathUnset)
    ensures pathVar == Some("") ==> r == Failure(NotFound)
    ensures pathVar.Some? ==> r != Failure(PathUnset)
    ensures pathVar.Some? ==>
              var dirs := PathList.SplitList(pathVar.value);
              && (r == Failure(NotFound) <==> forall k :: 0 <= k < |dirs| ==> !Qualifies(fs, dirs[k], executable))
              && (r.Success? ==> exists k :: 0 <= k < |dirs| && Qualifies(fs, dirs[k], executable)
                                  && r.value == Join(dirs[k], executable)
                                  && forall j :: 0 <= j < k ==> !Qualifies(fs, dirs[j], executable))
  {
    match pathVar
    case None => Failure(PathUnset)
    case Some(path) =>
      match FirstMatch(PathList.SplitList(path), fs, executable)
      case Some(found) => Success(found)
      case None => Failure(NotFound)
  }

  /** Searching a concatenation of directory lists: the first list decides
      when it holds a match, otherwise the second one does. */
  lemma {:induction false} FirstMatchAppend(a: seq<string>, b: seq<string>, fs: FileSystem, executable: string)
    ensures FirstMatch(a + b, fs, executable)
            == if FirstMatch(a, fs, executable).Some? then FirstMatch(a, fs, executable)
               else FirstMatch(b, fs, executable)
    decreases |a|
  {
    if |a| == 0 {
      assert a + b == b;
    } else {
      assert (a + b)[0] == a[0];
      assert (a + b)[1..] == a[1..] + b;
      FirstMatchAppend(a[1..], b, fs, executable);
    }
  }

  /** When exactly one search-path directory holds the executable, that
      directory joined with the name is the result, wherever in its subtree
      the file sits. */
  lemma UniqueMatch(path: string, fs: FileSystem, executable: string, k: nat)
    requires k < |PathList.SplitList(path)|
    requires Qualifies(fs, PathList.SplitList(path)[k], executable)
    requires forall j :: 0 <= j < |PathList.SplitList(path)| && j != k ==>
               !Qualifies(fs, PathList.SplitList(path)[j], executable)
    ensures SearchShell(Some(path), fs, executable) == Success(Join(PathList.SplitList(path)[k], executable))
  {
  }

  /** A search-path value written from a list of directories is searched in
      exactly that list's order. */
  lemma SearchJoinedPath(dirs: seq<string>, fs: FileSystem, executable: string)
    requires |dirs| >= 1 && PathList.JoinList(dirs) != ""
    requires forall i :: 0 <= i < |dirs| ==> PathList.ListSeparator !in dirs[i]
    ensures SearchShell(Some(PathList.JoinList(dirs)), fs, executable)
            == match FirstMatch(dirs, fs, executable)
               case Some(p) => Success(p)
               case None => Failure(NotFound)
  {
    PathList.JoinSplit(dirs);
  }

  /** What the shell subcommand does: spawn the located shell interactively,
      or stop fatally. */
  datatype ShellRun = Spawned(program: string, args: seq<string>) | ShellFatal(reason: ShellError)

  const Shell: string := "bash"

  function ShellCommand(pathVar: Option<string>, fs: FileSystem): (r: ShellRun)
    ensures pathVar.None? ==> r == ShellFatal(PathUnset)
    ensures r.Spawned? ==> r.args == ["-i"] && pathVar.Some?
                           && exists dir :: dir in PathList.SplitList(pathVar.value)
                                            && Qualifies(fs, dir, Shell) && r.program == Join(dir, Shell)
    ensures r.Spawned? <==> SearchShell(pathVar, fs, Shell).Success?
    ensures r.Spawned? ==> r.program == SearchShell(pathVar, fs, Shell).value
    ensures r.Spawned? ==>
              var dirs := PathList.SplitList(pathVar.value);
              exists k :: 0 <= k < |dirs| && Qualifies(fs, dirs[k], Shell) && r.program == Join(dirs[k], Shell)
                          && forall j :: 0 <= j < k ==> !Qualifies(fs, dirs[j], Shell)
    ensures r.ShellFatal? && pathVar.Some? ==>
              forall dir :: dir in PathList.SplitList(pathVar.value) ==> !Qualifies(fs, dir, Shell)
  {
    match SearchShell(pathVar, fs, Shell)
    case Success(p) => Spawned(p, ["-i"])
    case Failure(e) => ShellFatal(e)
  }
}
