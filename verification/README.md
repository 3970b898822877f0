# aurbuilder, modelled in Dafny

aurbuilder is a command-line helper for Arch Linux user repository (AUR) packages.
`aurbuilder build <pkg>` fetches the package's recipe repository, refreshes the
package database, offers to open the `PKGBUILD` in an editor, and runs
`makepkg -s`. `aurbuilder shell` finds `bash` on the search path and starts it
interactively. This project models the decision logic of those commands as pure
functions over immutable inputs:

- `confirm.dfy` (`Confirm`): the yes/no prompt of `utils/utils.go`. The input is a
  finite sequence of read results. When the sequence runs out, that counts as a
  read error (end of input).
- `pathlist.dfy` (`PathList`): how the search-path value is split into directories
  on `:`. An empty value gives no directories, and empty fields are kept.
- `locator.dfy` (`Locator`): `searchShell`, `pathExists` and `isInPath` of
  `cmd/shell.go`, over an abstract file system. Each directory has a status
  (present, missing, or another failure) and the sequence of reports a walk of its
  subtree delivers (entries with a base name and a directory flag, or walk errors).
- `build.dfy` (`Build`): `fetchSources`, `updatePacman`, `maybeEditPkgbuild`,
  `doBuild` and the `build` command's step sequence from `cmd/build.go`. External
  commands become trace steps (`Clone`, `Chdir`, `Stash`, `Pull`, `Update`, `Edit`,
  `Makepkg`). Whether each command succeeds is an input. The outcome is `Ok`, `Err`
  (an error returned to the caller) or `Fatal` (the process exits). The working
  directory is an explicit value that is threaded through the steps. Which paths
  a change of directory can enter is a separate input: a status query also
  succeeds on a plain file or on a directory without search permission, and the
  source ignores a failed `os.Chdir` (cmd/build.go:126, 200), so stash, pull and
  `makepkg` then run wherever the process already was.
- `common.dfy` (`Common`): `Option`, `Result`, the three-way `Stat`, and `Join`.

The home-directory fallback does not move the working copy: `repoDir` is
computed (cmd/build.go:80) before `baseDir` is reassigned (cmd/build.go:93), and
the new value is only logged (`Build.FallbackDoesNotMoveWorkingCopy`).

## Model

| member | source | states |
|---|---|---|
| `Confirm.IsInSlice` | utils/utils.go:28-36 | true exactly when some element equals the word; the match is exact and case-sensitive |
| `Confirm.AskConfirmation` | utils/utils.go:6-26 | every read before the last consumed one was an unrecognised non-empty word; the last read decides: yes-word gives (true, no error), no-word gives (false, no error), empty gives (default, no error), a read error or running out of input gives (default, error) |
| `Confirm.AskLoop` | utils/utils.go:6-26 | the retry recursion run as an unbounded loop returns the same answer and error and reads the same number of lines |
| `Confirm.YesNoDisjoint` | utils/utils.go:9-10 | no word is in both the affirmative and the negative list |
| `Confirm.SkipsUnrecognised` | utils/utils.go:24-25 | any prefix of unrecognised words is discarded: the result is the prompt on the rest of the input, with the skipped reads counted |
| `Confirm.NoReadAhead` | utils/utils.go:11-23 | once a read decides, input after it is never consumed: appending more input leaves the result unchanged |
| `PathList.Split` | cmd/shell.go:39 | at least one field, and no field contains the separator |
| `PathList.SplitList` | cmd/shell.go:39 | an empty search path gives no directories; otherwise joining the directories with `:` gives back the value |
| `PathList.SplitJoin` | cmd/shell.go:39 | joining the split fields restores the string |
| `PathList.JoinSplit` | cmd/shell.go:39 | splitting a joined list of separator-free fields gives the list back |
| `Locator.PathExists` | cmd/shell.go:54-63 | true unless the status query says "missing"; the error flag is set exactly for other failures |
| `Locator.ScanWalk` | cmd/shell.go:67-82 | found exactly when a non-directory entry with the exact name comes before the first walk error; failed exactly when the walk holds an error |
| `Locator.IsInPath` | cmd/shell.go:65-84 | the walk of the directory finds the name before any error; a directory entry with that name never counts |
| `Locator.FirstMatch` | cmd/shell.go:40-46 | none exactly when no directory qualifies; otherwise the directory joined with the name, for a qualifying directory that no earlier one precedes |
| `Locator.SearchShell` | cmd/shell.go:33-52 | an unset path fails before any directory is examined; an empty path fails with not-found; otherwise it returns the first qualifying directory joined with the name, or not-found when none qualifies |
| `Locator.FirstMatchAppend` | cmd/shell.go:40-46 | on a concatenation of lists, the first list decides if it has a match, otherwise the second |
| `Locator.UniqueMatch` | cmd/shell.go:40-46 | when exactly one directory qualifies, the result is that directory joined with the name, wherever the file sits in its subtree |
| `Locator.SearchJoinedPath` | cmd/shell.go:39-46 | a search-path value built from a list of directories is searched in that list's order |
| `Locator.ShellCommand` | cmd/shell.go:19-31 | `bash -i` is spawned exactly when the search succeeds, from the path it returns, the first qualifying search-path directory joined with `bash`; an unset path or a failed search is fatal |
| `Build.AurUrl` | cmd/build.go:74 | the clone address is the fixed prefix `https://aur.archlinux.org/`, then the package name, then `.git` |
| `Build.UrlRoundTrip` | cmd/build.go:74 | the package name can be read back from the address built from it |
| `Build.UrlParsedRebuilds` | cmd/build.go:74 | every address that parses is the address of the name it parses to |
| `Build.UrlInjective` | cmd/build.go:74 | distinct packages get distinct addresses |
| `Build.FetchSources` | cmd/build.go:71-159 | missing base directory and no home directory is fatal. A missing working copy gives exactly one clone of the package address into base/package, and a failed clone is fatal; otherwise the result is the re-check of that path. A present working copy gives chdir, stash, and pull only after a successful stash, with no clone and no fatal outcome; stash and pull run in the working copy when it can be entered and in the previous directory otherwise. Only that branch can move the working directory, and only a successful clone changes the file system. Another status failure is fatal. Success means the working copy is present |
| `Build.UpdatePacman` | cmd/build.go:190-197 | one update step; its status is success exactly when the update command succeeds, and it is never fatal |
| `Build.MaybeEditPkgbuild` | cmd/build.go:161-188 | at most one edit of base/PKGBUILD with `$EDITOR`, or `vi` when it is empty; no edit means success; an edit's result is the editor's |
| `Build.EditIffAccepted` | cmd/build.go:175-187 | the editor runs exactly when the first deciding answer after any unrecognised words is a yes-word; a read error or end of input means no edit |
| `Build.ChangeDir` | cmd/build.go:126 | a change of directory whose error is ignored: the working directory becomes the target when the target can be entered, and stays where it was otherwise |
| `Build.DoBuild` | cmd/build.go:199-221 | changes into the working copy when it can be entered, otherwise stays put; then builds in the resulting directory; the status is the build's |
| `Build.BuildCommand` | cmd/build.go:29-68 | never ends in a plain error; a fetch error is fatal and nothing else runs; after a good fetch the update step follows; an edit failure is fatal and stops before the build; after a good edit the trace is fetch, update, edit, chdir and build, the build running in the working copy when it can be entered and in the directory the fetch left otherwise, and the run ends Ok exactly when the build succeeds |
| `Build.BuildRunsInWorkingCopy` | cmd/build.go:29-68 | when base/package can be entered, the build tool, whenever it runs, runs there |
| `Build.UnenterableRunsInStartDir` | cmd/build.go:125-156 | when base/package cannot be entered, both changes of directory fail silently: stash, pull and the build tool run in the starting directory, where the command also ends |
| `Build.UpdateFailureIgnored` | cmd/build.go:44-51 | a failing update does not change the trace, status or directory of the command |
| `Build.FallbackDoesNotMoveWorkingCopy` | cmd/build.go:80-99 | with a missing base directory, the home directory chosen changes only the returned base directory; trace, status and file system are the same |
| `Build.FreshCheckout` | cmd/build.go:106-119 | with no working copy that becomes enterable after the clone: clone of the package address into base/package, update, chdir and build there, success |
| `Build.StashFailureStops` | cmd/build.go:125-140 | with a working copy whose stash fails: chdir and stash only (in the working copy if it can be entered), no pull, update, edit or build, and a fatal end |

## Left out

- Process execution (`git`, `sudo pacman -Syu --noconfirm`, `makepkg -s`, the editor, `bash -i`): each command is a trace step whose success is an input.
- The real file system and `os.Stat`: a map from path to status stands in for it. A successful clone sets the target's status to an input value (`Tools.statAfterClone`).
- Which paths `os.Chdir` can enter is a fixed input (`Host.enterable`), read as the state when each change of directory runs; the model does not derive it from the file system or from the clone.
- `filepath.Walk` traversal order and `SkipDir` pruning: a walk is the sequence of reports the walk delivers. After a match nothing can clear the result, so pruning after the match does not change it. Walk reports carry only base names, so the depth of a match is invisible.
- `filepath.Join` path cleaning: `Join` concatenates with `/`.
- Relative paths: every path is looked up as written, independent of the working directory, so paths are treated as absolute (the default base directory `<cwd>/store` is absolute). With a relative `--basepath`, the source resolves the editor's file and the `Chdir` of `doBuild` against the directory `fetchSources` moved into (cmd/build.go:126, 170, 200); the model does not express that.
- `fmt.Scanln` tokenising: each read result is taken as given. How the library reports blank lines or lines with several words is not part of this model.
- `homedir.Dir`: its result is an input (`Host.home`). A missing home directory is fatal.
- Logging, console output, and attaching the debug-level output of the clone (cmd/build.go:108-111).
- `log.Fatal`, `panic` and `os.Exit`: they become the `Fatal` outcome.
- cmd/root.go: command-line and configuration wiring, the log-level switch (which only affects verbosity), and the package listing of the bare command. All of these are I/O.
- The unreachable `return absPath` branch of `searchShell` (cmd/shell.go:47-51): `absPath` is never assigned, so the search can only fail with not-found.
