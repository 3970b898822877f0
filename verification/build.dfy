/** The build workflow of cmd/build.go: fetch the package's recipe
    repository, refresh the package database, optionally edit the recipe,
    and build. External commands appear as steps of a trace; their success is
    an input. */
module Build {

  import opened Common
  import Confirm

  const AurPrefix: string := "https://aur.archlinux.org/"
  const GitSuffix: string := ".git"
  const DefaultEditor: string := "vi"
  const Recipe: string := "PKGBUILD"

  /** The address of a package's recipe repository. */
  function AurUrl(pkgName: string): (r: string)
    ensures |r| == |AurPrefix| + |pkgName| + |GitSuffix|
    ensures r[..|AurPrefix|] == AurPrefix
    ensures r[|AurPrefix|..|AurPrefix| + |pkgName|] == pkgName
    ensures r[|AurPrefix| + |pkgName|..] == GitSuffix
  {
    AurPrefix + pkgName + GitSuffix
  }

  /** Reads the package name back out of a recipe repository address. */
  function PackageOfUrl(url: string): (r: Option<string>)
    ensures r.Some? ==> |r.value| + |AurPrefix| + |GitSuffix| == |url|
  {
    if |url| >= |AurPrefix| + |GitSuffix|
       && url[..|AurPrefix|] == AurPrefix
       && url[|url| - |GitSuffix|..] == GitSuffix
    then Some(url[|AurPrefix|..|url| - |GitSuffix|])
    else None
  }

  /** The address is the fixed prefix, the name and the fixed suffix, so the
      name can be read back from it. */
  lemma UrlRoundTrip(pkgName: string)
    ensures PackageOfUrl(AurUrl(pkgName)) == Some(pkgName)
  {
  }

  /** Every address that parses is the address of the name it parses to. */
  lemma UrlParsedRebuilds(url: string)
    requires PackageOfUrl(url).Some?
    ensures AurUrl(PackageOfUrl(url).value) == url
  {
  }

  /** Distinct packages are fetched from distinct addresses. */
  lemma UrlInjective(p: string, q: string)
    requires AurUrl(p) == AurUrl(q)
    ensures p == q
  {
  }

  /** An external effect, in the order the workflow causes it. Stash, Pull
      and Makepkg record the working directory they run in. */
  datatype Step =
    | Clone(url: string, target: string)
    | Chdir(dir: string)
    | Stash(dir: string)
    | Pull(dir: string)
    | Update
    | Edit(editor: string, file: string)
    | Makepkg(dir: string)

  /** Success, an error handed back to the caller, or process termination. */
  datatype Status = Ok | Err | Fatal

  /** Whether each external command succeeds, and what a status query on the
      clone target reports after a successful clone. */
  datatype Tools = Tools(
    cloneOk: bool, statAfterClone: Stat,
    stashOk: bool, pullOk: bool,
    updateOk: bool, editOk: bool, buildOk: bool)

  /** Everything the workflow reads from its surroundings. A status query
      can succeed on a path that a change of directory cannot enter (a plain
      file, a directory without search permission), so the paths that can be
      entered are a separate input. */
  datatype Host = Host(
    fs: map<string, Stat>,
    enterable: set<string>,
    home: Option<string>,
    editorVar: string,
    stdin: seq<Confirm.ReadResult>,
    tools: Tools)

  function StatOf(fs: map<string, Stat>, path: string): Stat
  {
    if path in fs then fs[path] else Missing
  }

  /** Changing directory with the error ignored: the working directory moves
      to an enterable target and stays where it was otherwise. */
  function ChangeDir(enterable: set<string>, cwd: string, dir: string): (r: string)
    ensures dir in enterable ==> r == dir
    ensures dir !in enterable ==> r == cwd
  {
    if dir in enterable then dir else cwd
  }

  predicate NoMakepkgSteps(trace: seq<Step>)
  {
    forall i :: 0 <= i < |trace| ==> !trace[i].Makepkg?
  }

  /** The result of fetching: trace, status, working directory and file
      system afterwards, and the base directory the call ended up with. */
  datatype Fetched = Fetched(trace: seq<Step>, status: Status, cwd: string, fs: map<string, Stat>, baseDir: string)

  /** fetchSources. The working-copy path is fixed from the given base
      directory before the home-directory fallback, so the fallback changes
      nothing but the returned base directory. */
  function FetchSources(pkgName: string, baseDir: string, host: Host, cwd: string): (r: Fetched)
    ensures var repoDir := Join(baseDir, pkgName);
            var fallback := StatOf(host.fs, baseDir) == Missing;
            if fallback && host.home.None? then r.trace == [] && r.status == Fatal && r.cwd == cwd && r.fs == host.fs
            else
              && r.baseDir == (if fallback then host.home.value else baseDir)
              && match StatOf(host.fs, repoDir)
                 case Missing =>
                   && r.trace == [Clone(AurUrl(pkgName), repoDir)]
                   && (r.status == Fatal <==> !host.tools.cloneOk)
                   && (r.status == Ok <==> host.tools.cloneOk && host.tools.statAfterClone == Present)
                   && r.cwd == cwd
                   && r.fs == (if host.tools.cloneOk then host.fs[repoDir := host.tools.statAfterClone] else host.fs)
                 case StatFailure =>
                   r.trace == [] && r.status == Fatal && r.cwd == cwd && r.fs == host.fs
                 case Present =>
                   var moved := if repoDir in host.enterable then repoDir else cwd;
                   && r.trace == [Chdir(repoDir), Stash(moved)] + (if host.tools.stashOk then [Pull(moved)] else [])
                   && (r.status == Ok <==> host.tools.stashOk && host.tools.pullOk)
                   && r.status != Fatal
                   && r.cwd == moved
                   && r.fs == host.fs
    ensures r.status == Ok ==> StatOf(r.fs, Join(baseDir, pkgName)) == Present
    ensures NoMakepkgSteps(r.trace)
  {
    var url := AurUrl(pkgName);
    var repoDir := Join(baseDir, pkgName);
    var fs := host.fs;
    if StatOf(fs, baseDir) == Missing && host.home.None? then
      Fetched([], Fatal, cwd, fs, baseDir)
    else
      var effectiveBase := if StatOf(fs, baseDir) == Missing then host.home.value else baseDir;
      match StatOf(fs, repoDir)
      case Missing =>
        if !host.tools.cloneOk then
          Fetched([Clone(url, repoDir)], Fatal, cwd, fs, effectiveBase)
        else
          var fs' := fs[repoDir := host.tools.statAfterClone];
          Fetched([Clone(url, repoDir)], if StatOf(fs', repoDir) == Present then Ok else Err,
                  cwd, fs', effectiveBase)
      case StatFailure =>
        Fetched([], Fatal, cwd, fs, effectiveBase)
      case Present =>
        var cwd' := ChangeDir(host.enterable, cwd, repoDir);
        if !host.tools.stashOk then
          Fetched([Chdir(repoDir), Stash(cwd')], Err, cwd', fs, effectiveBase)
        else if !host.tools.pullOk then
          Fetched([Chdir(repoDir), Stash(cwd'), Pull(cwd')], Err, cwd', fs, effectiveBase)
        else
          Fetched([Chdir(repoDir), Stash(cwd'), Pull(cwd')], Ok, cwd', fs, effectiveBase)
  }

  /** A trace and a status, for the steps that do not move the working
      directory. */
  datatype Ran = Ran(trace: seq<Step>, status: Status)

  /** updatePacman: one privileged update of the package database. */
  function UpdatePacman(tools: Tools): (r: Ran)
    ensures r.trace == [Update]
    ensures r.status == Ok <==> tools.updateOk
    ensures r.status != Fatal
  {
    Ran([Update], if tools.updateOk then Ok else Err)
  }

  /** maybeEditPkgbuild: the editor is $EDITOR, or vi when that is empty;
      it is run on the recipe only when the prompt, defaulting to no, says
      yes. A failed read is not an error of this step. */
  function MaybeEditPkgbuild(basePath: string, host: Host): (r: Ran)
    ensures var editor := if host.editorVar == "" then DefaultEditor else host.editorVar;
            r.trace == [] || r.trace == [Edit(editor, Join(basePath, Recipe))]
    ensures r.trace == [] ==> r.status == Ok
    ensures r.trace != [] ==> (r.status == Ok <==> host.tools.editOk)
    ensures r.status != Fatal
  {
    var editor := if host.editorVar == "" then DefaultEditor else host.editorVar;
    var editStep := Edit(editor, Join(basePath, Recipe));
    var asked := Confirm.AskConfirmation(host.stdin, false);
    if asked.reply.answer then
      Ran([editStep], if host.tools.editOk then Ok else Err)
    else
      Ran([], Ok)
  }

  /** The user's answer accepts the edit: after any number of unrecognised
      words, the first word that decides is an affirmative one. */
  predicate AcceptsEdit(stdin: seq<Confirm.ReadResult>)
  {
    exists k :: 0 <= k < |stdin| && stdin[k].Line? && stdin[k].text in Confirm.YesAnswers
                && forall j :: 0 <= j < k ==> Confirm.Retry(stdin[j])
  }

  /** The editor runs exactly when the answer accepts the edit. */
  lemma EditIffAccepted(basePath: string, host: Host)
    ensures MaybeEditPkgbuild(basePath, host).trace != [] <==> AcceptsEdit(host.stdin)
  {
  }

  /** A step that also moves the working directory. */
  datatype Moved = Moved(trace: seq<Step>, status: Status, cwd: string)

  /** doBuild: change into the working copy, ignoring a failure to do so,
      then build in the current directory; the build's failure is returned. */
  function DoBuild(repoDir: string, enterable: set<string>, cwd: string, buildOk: bool): (r: Moved)
    ensures repoDir in enterable ==> r.cwd == repoDir
    ensures repoDir !in enterable ==> r.cwd == cwd
    ensures r.trace == [Chdir(repoDir), Makepkg(r.cwd)]
    ensures r.status == Ok <==> buildOk
    ensures r.status != Fatal
  {
    var cwd' := ChangeDir(enterable, cwd, repoDir);
    Moved([Chdir(repoDir), Makepkg(cwd')], if buildOk then Ok else Err, cwd')
  }

  /** The build command: fetch, update, edit, build. Any fetch error, an edit
      error and a build error end the process; an update error is only
      reported. */
  function BuildCommand(pkgName: string, baseDir: string, host: Host, cwd: string): (r: Moved)
    ensures r.status != Err
    ensures var f := FetchSources(pkgName, baseDir, host, cwd);
            f.status != Ok ==> r.trace == f.trace && r.status == Fatal
    ensures var f := FetchSources(pkgName, baseDir, host, cwd);
            f.status == Ok ==> |r.trace| > |f.trace| && r.trace[..|f.trace| + 1] == f.trace + [Update]
    ensures var f := FetchSources(pkgName, baseDir, host, cwd);
            var e := MaybeEditPkgbuild(Join(baseDir, pkgName), host);
            f.status == Ok && e.status != Ok ==>
              r.trace == f.trace + [Update] + e.trace && r.status == Fatal
    ensures var repoDir := Join(baseDir, pkgName);
            var f := FetchSources(pkgName, baseDir, host, cwd);
            var e := MaybeEditPkgbuild(repoDir, host);
            var ran := if repoDir in host.enterable then repoDir else f.cwd;
            f.status == Ok && e.status == Ok ==>
              && r.trace == f.trace + [Update] + e.trace + [Chdir(repoDir), Makepkg(ran)]
              && (r.status == Ok <==> host.tools.buildOk)
              && r.cwd == ran
  {
    var repoDir := Join(baseDir, pkgName);
    var f := FetchSources(pkgName, baseDir, host, cwd);
    if f.status != Ok then Moved(f.trace, Fatal, f.cwd)
    else
      var u := UpdatePacman(host.tools);
      var e := MaybeEditPkgbuild(repoDir, host);
      var soFar := f.trace + u.trace + e.trace;
      if e.status != Ok then Moved(soFar, Fatal, f.cwd)
      else
        var b := DoBuild(repoDir, host.enterable, f.cwd, host.tools.buildOk);
        Moved(soFar + b.trace, if b.status == Ok then Ok else Fatal, b.cwd)
  }

  /** When the working copy can be entered, the build tool, whenever it runs,
      runs inside it. */
  lemma BuildRunsInWorkingCopy(pkgName: string, baseDir: string, host: Host, cwd: string)
    requires Join(baseDir, pkgName) in host.enterable
    ensures var r := BuildCommand(pkgName, baseDir, host, cwd);
            forall i :: 0 <= i < |r.trace| && r.trace[i].Makepkg? ==> r.trace[i].dir == Join(baseDir, pkgName)
  {
  }

  /** When the working copy cannot be entered, both changes of directory
      fail silently, and stash, pull and the build tool all run in the
      directory the command started in. */
  lemma UnenterableRunsInStartDir(pkgName: string, baseDir: string, host: Host, cwd: string)
    requires Join(baseDir, pkgName) !in host.enterable
    ensures var r := BuildCommand(pkgName, baseDir, host, cwd);
            && r.cwd == cwd
            && forall i :: 0 <= i < |r.trace| && (r.trace[i].Makepkg? || r.trace[i].Stash? || r.trace[i].Pull?) ==>
                 r.trace[i].dir == cwd
  {
  }

  /** A failing package-database update changes nothing about the outcome. */
  lemma UpdateFailureIgnored(pkgName: string, baseDir: string, host: Host, cwd: string)
    ensures BuildCommand(pkgName, baseDir, host.(tools := host.tools.(updateOk := false)), cwd)
            == BuildCommand(pkgName, baseDir, host.(tools := host.tools.(updateOk := true)), cwd)
  {
  }

  /** The home directory chosen by the fallback does not influence the
      clone, the stash, the pull or the result of the fetch. */
  lemma FallbackDoesNotMoveWorkingCopy(pkgName: string, baseDir: string, host: Host, cwd: string, h1: string, h2: string)
    requires StatOf(host.fs, baseDir) == Missing
    ensures var r1 := FetchSources(pkgName, baseDir, host.(home := Some(h1)), cwd);
            var r2 := FetchSources(pkgName, baseDir, host.(home := Some(h2)), cwd);
            && r1.trace == r2.trace && r1.status == r2.status && r1.cwd == r2.cwd && r1.fs == r2.fs
            && r1.baseDir == h1 && r2.baseDir == h2
  {
  }

  /** No working copy yet: the package is cloned from its address into
      base/package, then update and build follow in order. */
  lemma FreshCheckout(pkgName: string, baseDir: string, host: Host, cwd: string)
    requires StatOf(host.fs, baseDir) == Present
    requires StatOf(host.fs, Join(baseDir, pkgName)) == Missing
    requires host.tools.cloneOk && host.tools.statAfterClone == Present && host.tools.buildOk
    requires Join(baseDir, pkgName) in host.enterable
    requires host.stdin == []
    ensures BuildCommand(pkgName, baseDir, host, cwd)
            == Moved([Clone(AurUrl(pkgName), Join(baseDir, pkgName)), Update,
                      Chdir(Join(baseDir, pkgName)), Makepkg(Join(baseDir, pkgName))],
                     Ok, Join(baseDir, pkgName))
  {
  }

  /** An existing working copy whose stash fails: the pull never runs and
      the process stops before update, edit and build. */
  lemma StashFailureStops(pkgName: string, baseDir: string, host: Host, cwd: string)
    requires StatOf(host.fs, baseDir) == Present
    requires StatOf(host.fs, Join(baseDir, pkgName)) == Present
    requires !host.tools.stashOk
    ensures var moved := if Join(baseDir, pkgName) in host.enterable then Join(baseDir, pkgName) else cwd;
            BuildCommand(pkgName, baseDir, host, cwd)
            == Moved([Chdir(Join(baseDir, pkgName)), Stash(moved)], Fatal, moved)
  {
  }
}
