/** The git synchroniser (git.go `gitOps.FetchBranch`, `gitOps.CleanBranch`).
    Each target directory `d` has a bare mirror at `d + ".git"` and a worktree at
    `d`. The disk is a map from directory to mirror and a map from directory to
    worktree files; the git servers are a map from URL to remote repository,
    passed in, since the network is outside the model. I/O failures of the
    local filesystem are explicit fault flags. */
module GitRepo {
  import opened Wrappers
  import opened GitUrl

  /** A full hexadecimal object id. */
  type Hash = h: string | |h| == 40 witness "0000000000000000000000000000000000000000"

  datatype FileData = FileData(mode: int, content: string)

  /** Files by path relative to the worktree root. */
  type Tree = map<string, FileData>

  /** An annotated tag object: its name and the commit it points at. An object
      that cannot be decoded is `Unreadable`. */
  datatype TagObject = Annotated(name: string, target: Hash) | Unreadable

  /** The object store: commit trees and tag objects by hash. */
  datatype Objects = Objects(commits: map<Hash, Tree>, tags: map<Hash, TagObject>)

  /** A repository on a git server: its branches, the branch its HEAD names,
      its tag references (by short name) and its objects. */
  datatype Remote = Remote(
    branches: map<string, Hash>,
    head: string,
    tagRefs: map<string, Hash>,
    objects: Objects)

  /** A local bare mirror. `origin` lists the URLs of the `origin` remote (empty
      when there is no such remote); `remoteBranches` are the `origin/<b>`
      references, `localBranches` the `refs/heads/<b>` ones, `head` the branch
      HEAD names and `index` the paths the index tracks. */
  datatype Mirror = Mirror(
    readable: bool,
    origin: seq<string>,
    remoteBranches: map<string, Hash>,
    localBranches: map<string, Hash>,
    head: string,
    index: set<string>,
    tagRefs: map<string, Hash>,
    objects: Objects)

  /** Mirrors and worktrees by directory. */
  datatype Fs = Fs(mirrors: map<string, Mirror>, worktrees: map<string, Tree>)

  /** An error (if any) and the disk afterwards. */
  datatype Outcome = Outcome(err: Option<string>, fs: Fs)

  /** Local filesystem failures: creating the worktree directory, the hard
      reset, and removing untracked files. */
  datatype IoFaults = IoFaults(mkdirFails: bool, resetFails: bool, cleanFails: bool)

  const NoFaults := IoFaults(false, false, false)
  const IoError := "input/output error"

  function MirrorDir(targetDir: string): string {
    targetDir + ".git"
  }

  /** `os.RemoveAll(path)`: whatever lives at exactly `path` disappears. */
  function RemoveAll(fs: Fs, path: string): Fs {
    Fs(fs.mirrors - {path}, fs.worktrees - {path})
  }

  /** `a` and `b` agree on every mirror and worktree outside `dirs`. */
  ghost predicate SameOutside(a: Fs, b: Fs, dirs: set<string>) {
    && (forall d :: d !in dirs ==>
          (d in a.mirrors <==> d in b.mirrors) && (d in a.mirrors ==> a.mirrors[d] == b.mirrors[d]))
    && (forall d :: d !in dirs ==>
          (d in a.worktrees <==> d in b.worktrees) && (d in a.worktrees ==> a.worktrees[d] == b.worktrees[d]))
  }

  /** A bare clone of `url`: remote branches become `origin/<b>`, the remote's
      HEAD branch becomes the one local branch. */
  function CloneFrom(remotes: map<string, Remote>, url: string): (r: Result<Mirror>)
    ensures r.Ok? ==> r.value.readable && r.value.origin == [url]
    ensures r.Err? ==>
      r.msg == "failed to clone " + url + ": " +
               (if url !in remotes then "repository not found" else "remote repository is empty")
  {
    if url !in remotes then Err("failed to clone " + url + ": repository not found")
    else
      var rm := remotes[url];
      if rm.branches == map[] then Err("failed to clone " + url + ": remote repository is empty")
      else
        var local := if rm.head in rm.branches then map[rm.head := rm.branches[rm.head]] else map[];
        Ok(Mirror(true, [url], rm.branches, local, rm.head, {}, rm.tagRefs, rm.objects))
  }

  /** `remote.Fetch` with all tags, from the first URL of `origin`: references
      and objects are added (nothing is pruned). "Already up to date" is the
      case where nothing changes, and is not an error. */
  function FetchFrom(m: Mirror, remotes: map<string, Remote>): (r: Result<Mirror>)
    requires m.origin != []
    ensures r.Ok? ==> r.value.origin == m.origin && r.value.readable == m.readable
    ensures r.Ok? ==> forall b :: b in m.remoteBranches ==> b in r.value.remoteBranches
  {
    var src := m.origin[0];
    if src !in remotes then Err("repository not found")
    else
      var rm := remotes[src];
      if rm.branches == map[] then Err("remote repository is empty")
      else
        Ok(m.(remoteBranches := m.remoteBranches + rm.branches,
              tagRefs := m.tagRefs + rm.tagRefs,
              objects := Objects(m.objects.commits + rm.objects.commits, m.objects.tags + rm.objects.tags)))
  }

  /** Fetching again from an unchanged remote is "already up to date". */
  lemma FetchFromIdempotent(m: Mirror, remotes: map<string, Remote>)
    requires m.origin != [] && FetchFrom(m, remotes).Ok?
    ensures FetchFrom(FetchFrom(m, remotes).value, remotes) == FetchFrom(m, remotes)
  {
    var rm := remotes[m.origin[0]];
    var m1 := FetchFrom(m, remotes).value;
    assert m1.remoteBranches + rm.branches == m1.remoteBranches;
    assert m1.tagRefs + rm.tagRefs == m1.tagRefs;
    assert m1.objects.commits + rm.objects.commits == m1.objects.commits;
    assert m1.objects.tags + rm.objects.tags == m1.objects.tags;
  }

  /** Hard reset of HEAD's branch to commit `h`: the index becomes the commit's
      paths, tracked files take the commit's content, untracked files stay. */
  function HardReset(m: Mirror, files: Tree, h: Hash): (r: (Mirror, Tree))
    requires h in m.objects.commits
    ensures r.0 == m.(localBranches := m.localBranches[m.head := h], index := m.objects.commits[h].Keys)
    ensures forall p :: p in m.objects.commits[h] ==> p in r.1 && r.1[p] == m.objects.commits[h][p]
    ensures forall p :: p in r.1 && p !in m.objects.commits[h] ==> p in files && p !in m.index && r.1[p] == files[p]
  {
    var tree := m.objects.commits[h];
    var untracked := map p | p in files && p !in m.index && p !in tree :: files[p];
    (m.(localBranches := m.localBranches[m.head := h], index := tree.Keys), tree + untracked)
  }

  /** The checkout AS WRITTEN in git.go, `Checkout` with `Create` and `Force`
      (`CleanBranch` uses the corrected `SwitchBranch`): when `branch` does not
      exist yet and HEAD resolves, `branch` is created at HEAD's commit, HEAD moves to it and
      the worktree is reset to that commit; otherwise it fails and changes
      nothing (the caller ignores the failure). */
  function Checkout(m: Mirror, files: Tree, branch: string): (r: (Mirror, Tree))
    ensures r.0.remoteBranches == m.remoteBranches && r.0.objects == m.objects
    ensures r.0.origin == m.origin && r.0.readable == m.readable && r.0.tagRefs == m.tagRefs
  {
    if branch in m.localBranches || m.head !in m.localBranches then (m, files)
    else
      var c := m.localBranches[m.head];
      if c !in m.objects.commits then (m, files)
      else HardReset(m.(localBranches := m.localBranches[branch := c], head := branch), files, c)
  }

  /** The checkout as intended: HEAD names `branch` afterwards, whether or not
      the branch exists. A missing branch is created at `h`, the resolved
      `origin/<branch>`; the worktree is reset to the branch's commit when the
      store has it. */
  function SwitchBranch(m: Mirror, files: Tree, branch: string, h: Hash): (r: (Mirror, Tree))
    ensures r.0.head == branch && branch in r.0.localBranches
    ensures r.0.remoteBranches == m.remoteBranches && r.0.objects == m.objects
    ensures r.0.origin == m.origin && r.0.readable == m.readable && r.0.tagRefs == m.tagRefs
  {
    var c := if branch in m.localBranches then m.localBranches[branch] else h;
    var m1 := m.(localBranches := m.localBranches[branch := c], head := branch);
    if c in m.objects.commits then HardReset(m1, files, c) else (m1, files)
  }

  /** `Clean` with directories: files the index does not track are removed. */
  function CleanUntracked(m: Mirror, files: Tree): (r: Tree)
    ensures forall p :: p in r <==> p in files && p in m.index
    ensures forall p :: p in r ==> r[p] == files[p]
  {
    map p | p in files && p in m.index :: files[p]
  }

  /** A successful hard reset followed by a clean leaves exactly the commit's files. */
  lemma ResetThenCleanIsCommit(m: Mirror, files: Tree, h: Hash)
    requires h in m.objects.commits
    ensures CleanUntracked(HardReset(m, files, h).0, HardReset(m, files, h).1) == m.objects.commits[h]
  {
    var (m1, f1) := HardReset(m, files, h);
    var r := CleanUntracked(m1, f1);
    assert r.Keys == m.objects.commits[h].Keys;
  }

  /** `CleanBranch(branch, dir)`: create `dir`, open the mirror, resolve
      `origin/<branch>` (an unresolvable reference is returned as is), switch
      HEAD to `branch` (the corrected checkout), hard-reset to the resolved commit (both failures ignored), then
      remove untracked files (a failure is wrapped and returned). */
  function CleanBranchSpec(fs: Fs, branch: string, dir: string, io: IoFaults): (o: Outcome)
    ensures o.fs.mirrors.Keys == fs.mirrors.Keys
    ensures !io.mkdirFails ==> o.fs.worktrees.Keys == fs.worktrees.Keys + {dir}
    ensures forall d :: d in fs.worktrees && d != dir ==> d in o.fs.worktrees && o.fs.worktrees[d] == fs.worktrees[d]
    ensures SameOutside(fs, o.fs, {dir, MirrorDir(dir)})
    ensures o.err.None? ==> dir in o.fs.worktrees
    ensures o.err.None? ==> MirrorDir(dir) in o.fs.mirrors && o.fs.mirrors[MirrorDir(dir)].head == branch
  {
    if io.mkdirFails then Outcome(Some("failed to create " + dir + ": " + IoError), fs)
    else
      var wts := if dir in fs.worktrees then fs.worktrees else fs.worktrees[dir := map[]];
      var gd := MirrorDir(dir);
      if gd !in fs.mirrors || !fs.mirrors[gd].readable then
        Outcome(Some("failed to open repository in " + gd + ": failed to open repository in " + gd +
                     ": repository does not exist"), Fs(fs.mirrors, wts))
      else
        var m := fs.mirrors[gd];
        if branch !in m.remoteBranches then Outcome(Some("reference not found"), Fs(fs.mirrors, wts))
        else
          var h := m.remoteBranches[branch];
          var synced := Synced(m, wts[dir], branch, h, io.resetFails);
          if io.cleanFails then
            Outcome(Some("failed to clean: " + IoError), Fs(fs.mirrors[gd := synced.0], wts[dir := synced.1]))
          else
            Outcome(None, Fs(fs.mirrors[gd := synced.0], wts[dir := CleanUntracked(synced.0, synced.1)]))
  }

  /** The checkout of `branch` and the hard reset to `h` (skipped when it
      fails or the store lacks `h`). */
  function Synced(m: Mirror, files: Tree, branch: string, h: Hash, resetFails: bool): (r: (Mirror, Tree))
    ensures r.0.head == branch && branch in r.0.localBranches
    ensures r.0.remoteBranches == m.remoteBranches && r.0.objects == m.objects
    ensures r.0.origin == m.origin && r.0.readable == m.readable && r.0.tagRefs == m.tagRefs
  {
    var (m1, files1) := SwitchBranch(m, files, branch, h);
    if resetFails || h !in m1.objects.commits then (m1, files1) else HardReset(m1, files1, h)
  }

  /** Only a failed mkdir, a missing or unreadable mirror, an unresolvable
      `origin/<branch>` or a failed clean are errors; checkout and reset
      failures are not. After success with a working reset, the worktree holds
      exactly the files of `origin/<branch>`, and HEAD's branch points there. */
  lemma CleanBranchResult(fs: Fs, branch: string, dir: string, io: IoFaults)
    ensures var o, gd := CleanBranchSpec(fs, branch, dir, io), MirrorDir(dir);
      o.err.Some? <==> (io.mkdirFails || gd !in fs.mirrors || !fs.mirrors[gd].readable ||
                        branch !in fs.mirrors[gd].remoteBranches || io.cleanFails)
    ensures var o, gd := CleanBranchSpec(fs, branch, dir, io), MirrorDir(dir);
      (!io.mkdirFails && gd in fs.mirrors && fs.mirrors[gd].readable &&
       branch !in fs.mirrors[gd].remoteBranches) ==> o.err == Some("reference not found")
    ensures var o, gd := CleanBranchSpec(fs, branch, dir, io), MirrorDir(dir);
      o.err.None? && !io.resetFails && fs.mirrors[gd].remoteBranches[branch] in fs.mirrors[gd].objects.commits ==>
        var h, m := fs.mirrors[gd].remoteBranches[branch], o.fs.mirrors[gd];
        o.fs.worktrees[dir] == fs.mirrors[gd].objects.commits[h] &&
        m.head == branch && m.localBranches[branch] == h
  {
    var gd := MirrorDir(dir);
    if !io.mkdirFails && gd in fs.mirrors && fs.mirrors[gd].readable && branch in fs.mirrors[gd].remoteBranches && !io.resetFails {
      var wts := if dir in fs.worktrees then fs.worktrees else fs.worktrees[dir := map[]];
      var m := fs.mirrors[gd];
      var h := m.remoteBranches[branch];
      var (m1, files1) := SwitchBranch(m, wts[dir], branch, h);
      assert Synced(m, wts[dir], branch, h, io.resetFails) == (if h in m1.objects.commits then HardReset(m1, files1, h) else (m1, files1));
      if h in m1.objects.commits {
        ResetThenCleanIsCommit(m1, files1, h);
      }
    }
  }

  /** The mirror at `targetDir + ".git"` exists and can be opened, but its
      `origin` does not list `url`. */
  predicate Drifted(fs: Fs, url: string, targetDir: string) {
    var dir := MirrorDir(targetDir);
    dir in fs.mirrors && fs.mirrors[dir].readable && fs.mirrors[dir].origin != [] &&
    url !in fs.mirrors[dir].origin
  }

  /** The result of one pass from the `retry:` label of `FetchBranch` up to the
      URL check: go back to `retry`, go on to the fetch, or return an error. */
  datatype Pass = Retry(fs: Fs) | Proceed(fs: Fs) | Stop(err: string, fs: Fs)

  /** One pass AS WRITTEN in git.go: on drift only `targetDir` is removed,
      while the mirror lives at `targetDir + ".git"`. */
  function AsWrittenPass(fs: Fs, remotes: map<string, Remote>, url: string, targetDir: string): Pass {
    var dir := MirrorDir(targetDir);
    if dir !in fs.mirrors then
      match CloneFrom(remotes, url)
      case Err(e) => Stop(e, fs)
      case Ok(m) => Proceed(fs.(mirrors := fs.mirrors[dir := m]))
    else if !fs.mirrors[dir].readable then
      Stop("failed to open existing repository: repository does not exist", fs)
    else if fs.mirrors[dir].origin == [] then Stop("failed to get remote origin: remote not found", fs)
    else if url !in fs.mirrors[dir].origin then Retry(RemoveAll(fs, targetDir))
    else Proceed(fs)
  }

  /** The `goto retry` loop as written, run for at most `fuel` passes; `None`
      when it is still looping. */
  function AsWrittenLoop(fuel: nat, fs: Fs, remotes: map<string, Remote>, url: string, targetDir: string): Option<Pass>
    decreases fuel
  {
    if fuel == 0 then None
    else
      match AsWrittenPass(fs, remotes, url, targetDir)
      case Retry(fs') => AsWrittenLoop(fuel - 1, fs', remotes, url, targetDir)
      case p => Some(p)
  }

  /** On drift, the pass removes `targetDir` only, so the next pass finds the
      same mirror with the same URLs: the state is drifted again. */
  lemma AsWrittenDriftPersists(fs: Fs, remotes: map<string, Remote>, url: string, targetDir: string)
    requires Drifted(fs, url, targetDir)
    ensures AsWrittenPass(fs, remotes, url, targetDir).Retry?
    ensures var next := AsWrittenPass(fs, remotes, url, targetDir).fs;
      Drifted(next, url, targetDir) && next.mirrors[MirrorDir(targetDir)] == fs.mirrors[MirrorDir(targetDir)]
  {
    assert |MirrorDir(targetDir)| == |targetDir| + 4;
  }

  /** Hence the `goto retry` loop as written never finishes on drift, however
      many passes it is given. */
  lemma {:induction false} AsWrittenDriftNeverEnds(fuel: nat, fs: Fs, remotes: map<string, Remote>, url: string, targetDir: string)
    requires Drifted(fs, url, targetDir)
    ensures AsWrittenLoop(fuel, fs, remotes, url, targetDir) == None
    decreases fuel
  {
    if fuel > 0 {
      AsWrittenDriftPersists(fs, remotes, url, targetDir);
      AsWrittenDriftNeverEnds(fuel - 1, AsWrittenPass(fs, remotes, url, targetDir).fs, remotes, url, targetDir);
    }
  }

  /** The clone-or-open phase with the retry bounded as intended: on drift the
      worktree AND the mirror are removed and the repository is cloned afresh,
      once; a fresh clone skips the URL check. */
  function Acquire(fs: Fs, remotes: map<string, Remote>, url: string, targetDir: string): (o: Outcome)
    ensures o.err.None? ==>
      (MirrorDir(targetDir) in o.fs.mirrors &&
       url in o.fs.mirrors[MirrorDir(targetDir)].origin && o.fs.mirrors[MirrorDir(targetDir)].readable)
    ensures !Drifted(fs, url, targetDir) ==> o.fs.worktrees == fs.worktrees
    ensures SameOutside(fs, o.fs, {targetDir, MirrorDir(targetDir)})
  {
    var dir := MirrorDir(targetDir);
    if dir !in fs.mirrors then
      match CloneFrom(remotes, url)
      case Err(e) => Outcome(Some(e), fs)
      case Ok(m) => Outcome(None, fs.(mirrors := fs.mirrors[dir := m]))
    else if !fs.mirrors[dir].readable then
      Outcome(Some("failed to open existing repository: repository does not exist"), fs)
    else if fs.mirrors[dir].origin == [] then
      Outcome(Some("failed to get remote origin: remote not found"), fs)
    else if url !in fs.mirrors[dir].origin then
      var purged := RemoveAll(RemoveAll(fs, targetDir), dir);
      match CloneFrom(remotes, url)
      case Err(e) => Outcome(Some(e), purged)
      case Ok(m) => Outcome(None, purged.(mirrors := purged.mirrors[dir := m]))
    else Outcome(None, fs)
  }

  /** With the retry bounded, a drifted mirror is replaced by a fresh clone
      whose only `origin` URL is the target. */
  lemma DriftIsHealed(fs: Fs, remotes: map<string, Remote>, url: string, targetDir: string)
    requires Drifted(fs, url, targetDir)
    requires url in remotes && remotes[url].branches != map[]
    ensures var o := Acquire(fs, remotes, url, targetDir);
      o.err.None? && o.fs.mirrors[MirrorDir(targetDir)].origin == [url] && targetDir !in o.fs.worktrees
  {
  }

  /** `FetchBranch(repoURL, branch, targetDir)` with the bounded retry: acquire
      the mirror, fetch (any error other than "already up to date" is
      returned before `CleanBranch` runs), then `CleanBranch`. */
  function FetchBranchSpec(fs: Fs, cfg: GitConfig, repo: string, branch: string, targetDir: string,
                           remotes: map<string, Remote>, io: IoFaults): (o: Outcome)
    ensures o.err.None? ==>
      (MirrorDir(targetDir) in o.fs.mirrors && GitURL(cfg, repo) in o.fs.mirrors[MirrorDir(targetDir)].origin)
    ensures o.err.None? ==> targetDir in o.fs.worktrees && o.fs.mirrors[MirrorDir(targetDir)].head == branch
    ensures SameOutside(fs, o.fs, {targetDir, MirrorDir(targetDir)})
  {
    var url, dir := GitURL(cfg, repo), MirrorDir(targetDir);
    var acquired := Acquire(fs, remotes, url, targetDir);
    if acquired.err.Some? then acquired
    else
      match FetchFrom(acquired.fs.mirrors[dir], remotes)
      case Err(e) => Outcome(Some(e), acquired.fs)
      case Ok(m) =>
        var fetched := acquired.fs.(mirrors := acquired.fs.mirrors[dir := m]);
        CleanBranchSpec(fetched, branch, targetDir, io)
  }

  /** A fetch error is returned before `CleanBranch`: no worktree is touched
      unless a drifted mirror was purged. */
  lemma FetchErrorSkipsClean(fs: Fs, cfg: GitConfig, repo: string, branch: string, targetDir: string,
                             remotes: map<string, Remote>, io: IoFaults)
    requires !Drifted(fs, GitURL(cfg, repo), targetDir)
    requires var a := Acquire(fs, remotes, GitURL(cfg, repo), targetDir);
      a.err.None? && FetchFrom(a.fs.mirrors[MirrorDir(targetDir)], remotes).Err?
    ensures FetchBranchSpec(fs, cfg, repo, branch, targetDir, remotes, io).err.Some?
    ensures FetchBranchSpec(fs, cfg, repo, branch, targetDir, remotes, io).fs.worktrees == fs.worktrees
  {
  }

  /** Running `FetchBranch` twice against unchanged remotes without faults: the
      second run reports no error and leaves the worktree as the first left it. */
  lemma FetchBranchIdempotent(fs: Fs, cfg: GitConfig, repo: string, branch: string, targetDir: string,
                              remotes: map<string, Remote>)
    requires var o1 := FetchBranchSpec(fs, cfg, repo, branch, targetDir, remotes, NoFaults);
      o1.err.None? &&
      var m := o1.fs.mirrors[MirrorDir(targetDir)];
      branch in m.remoteBranches && m.remoteBranches[branch] in m.objects.commits
    ensures var o1 := FetchBranchSpec(fs, cfg, repo, branch, targetDir, remotes, NoFaults);
      var o2 := FetchBranchSpec(o1.fs, cfg, repo, branch, targetDir, remotes, NoFaults);
      o2.err.None? && o2.fs.worktrees[targetDir] == o1.fs.worktrees[targetDir]
  {
    var url, dir := GitURL(cfg, repo), MirrorDir(targetDir);
    var a1 := Acquire(fs, remotes, url, targetDir);
    var mf := FetchFrom(a1.fs.mirrors[dir], remotes).value;
    var fetched := a1.fs.(mirrors := a1.fs.mirrors[dir := mf]);
    var o1 := CleanBranchSpec(fetched, branch, targetDir, NoFaults);
    assert o1 == FetchBranchSpec(fs, cfg, repo, branch, targetDir, remotes, NoFaults);
    var m1 := o1.fs.mirrors[dir];
    // The first CleanBranch leaves the fetched references and objects alone.
    assert m1.remoteBranches == mf.remoteBranches && m1.objects == mf.objects && m1.origin == mf.origin;
    assert !Drifted(o1.fs, url, targetDir);
    var a2 := Acquire(o1.fs, remotes, url, targetDir);
    assert a2 == Outcome(None, o1.fs);
    FetchFromIdempotent(a1.fs.mirrors[dir], remotes);
    var mf2 := FetchFrom(m1, remotes).value;
    assert mf2.remoteBranches == m1.remoteBranches && mf2.objects == m1.objects by {
      var rm := remotes[m1.origin[0]];
      assert mf.remoteBranches + rm.branches == mf.remoteBranches;
      assert mf.objects.commits + rm.objects.commits == mf.objects.commits;
      assert mf.objects.tags + rm.objects.tags == mf.objects.tags;
    }
    var h := mf.remoteBranches[branch];
    CleanBranchResult(fetched, branch, targetDir, NoFaults);
    var fetched2 := o1.fs.(mirrors := o1.fs.mirrors[dir := mf2]);
    CleanBranchResult(fetched2, branch, targetDir, NoFaults);
  }

  /** The disk: mirrors and worktrees by directory. */
  class Disk {
    var mirrors: map<string, Mirror>
    var worktrees: map<string, Tree>

    function State(): Fs
      reads this
    {
      Fs(mirrors, worktrees)
    }

    constructor (fs: Fs)
      ensures State() == fs
    {
      mirrors, worktrees := fs.mirrors, fs.worktrees;
    }

    method RemoveAllAt(path: string)
      modifies this
      ensures State() == RemoveAll(old(State()), path)
    {
      mirrors := mirrors - {path};
      worktrees := worktrees - {path};
    }

    method CleanBranch(branch: string, dir: string, io: IoFaults) returns (err: Option<string>)
      modifies this
      ensures Outcome(err, State()) == CleanBranchSpec(old(State()), branch, dir, io)
    {
      if io.mkdirFails {
        return Some("failed to create " + dir + ": " + IoError);
      }
      if dir !in worktrees {
        worktrees := worktrees[dir := map[]];
      }
      var gd := MirrorDir(dir);
      if gd !in mirrors || !mirrors[gd].readable {
        return Some("failed to open repository in " + gd + ": failed to open repository in " + gd +
                    ": repository does not exist");
      }
      var m := mirrors[gd];
      if branch !in m.remoteBranches {
        return Some("reference not found");
      }
      var h := m.remoteBranches[branch];
      var files := worktrees[dir];
      m, files := SwitchBranch(m, files, branch, h).0, SwitchBranch(m, files, branch, h).1;
      if !io.resetFails && h in m.objects.commits {
        m, files := HardReset(m, files, h).0, HardReset(m, files, h).1;
      }
      mirrors := mirrors[gd := m];
      if io.cleanFails {
        worktrees := worktrees[dir := files];
        return Some("failed to clean: " + IoError);
      }
      worktrees := worktrees[dir := CleanUntracked(m, files)];
      return None;
    }

    /** `FetchBranch` with the retry bounded: the `retry` loop runs at most
        twice, because after a purge the mirror is gone and the next clone is
        fresh. */
    method FetchBranch(cfg: GitConfig, repo: string, branch: string, targetDir: string,
                       remotes: map<string, Remote>, io: IoFaults) returns (err: Option<string>)
      modifies this
      ensures Outcome(err, State()) == FetchBranchSpec(old(State()), cfg, repo, branch, targetDir, remotes, io)
    {
      var url := GitURL(cfg, repo);
      var dir := MirrorDir(targetDir);
      var purged := false;
      while true
        invariant purged ==>
          (Drifted(old(State()), url, targetDir) && State() == RemoveAll(RemoveAll(old(State()), targetDir), dir))
        invariant !purged ==> State() == old(State())
        decreases if purged then 0 else 1
      {
        var isFresh := true;
        if dir !in mirrors {
          var cloned := CloneFrom(remotes, url);
          if cloned.Err? {
            return Some(cloned.msg);
          }
          mirrors := mirrors[dir := cloned.value];
        } else {
          isFresh := false;
          if !mirrors[dir].readable {
            return Some("failed to open existing repository: repository does not exist");
          }
        }
        if mirrors[dir].origin == [] {
          return Some("failed to get remote origin: remote not found");
        }
        if !isFresh && url !in mirrors[dir].origin {
          RemoveAllAt(targetDir);
          RemoveAllAt(dir);
          purged := true;
          continue;
        }
        break;
      }
      assert Outcome(None, State()) == Acquire(old(State()), remotes, url, targetDir);
      var fetched := FetchFrom(mirrors[dir], remotes);
      if fetched.Err? {
        return Some(fetched.msg);
      }
      mirrors := mirrors[dir := fetched.value];
      err := CleanBranch(branch, targetDir, io);
    }
  }
}
