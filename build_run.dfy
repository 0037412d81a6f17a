/** One build run (build.go `BuildRun.Run`): fetch the source (and overlay)
    checkout, name the image, build it unless it exists, push it, prune old
    images, update the deploy checkout, commit and push it, and notify the
    outcome. The disk is the `Disk` object; the docker engine, the scripts,
    the YAML library, the git commit and push, and the process environment
    are the `Env` parameter; what the run does to the outside world is
    returned as a list of `Effect`s in the order it happens. */
module BuildRun {
  import opened Wrappers
  import opened Text
  import opened Apps
  import opened GitUrl
  import opened GitRepo
  import opened GitTag
  import opened YamlSet
  import opened BuildSteps

  /** The process-wide flags and environment a run reads: git prefix and
      allowed prefixes, `--work-dir`, `--docker-prefix`, `--builder-url`,
      `--tag-describe`, `--exact-tag` and `SSH_AUTH_SOCK`. */
  datatype Settings = Settings(
    git: GitConfig,
    workDir: string,
    dockerPrefix: string,
    builderURL: string,
    tagDescribe: bool,
    exactTag: bool,
    sshAuthSock: string)

  /** What a run does outside the disk. */
  datatype Effect =
    | DockerBuild(dir: string, args: seq<string>)
    | ImagePush(image: string)
    | ImageRemove(tag: string)
    | DeployCommit(message: string)
    | GitPush(dir: string, refspec: string)
    | Notify(text: string)

  /** The answers of everything outside the model: the docker client and log
      file creation errors, the build id, the git servers, local I/O faults by
      directory, commit logs by checkout directory, the docker engine, the
      overlay files whose copy fails, the deploy script runner, the YAML
      library, the deploy files whose staging fails, the commit (its new
      hash) and the `git push` command. */
  datatype Env = Env(
    dockerClient: Option<string>,
    buildID: string,
    logFile: Option<string>,
    remotes: map<string, Remote>,
    io: string -> IoFaults,
    history: string -> seq<Hash>,
    imageExists: string -> bool,
    dockerBuild: seq<string> -> Option<string>,
    imagePush: string -> Option<string>,
    imageList: Result<seq<ImageSummary>>,
    copyFaults: map<string, CopyFault>,
    runScript: ScriptRunner,
    parse: string -> Result<Node>,
    marshal: Node -> Result<string>,
    addFails: set<string>,
    commit: Result<Hash>,
    gitPush: Option<string>)

  /** The tags and names a run derives. */
  datatype Names = Names(srcTag: string, overlayTag: Option<string>, imageTag: string, imageName: string, imageRef: string)

  const NoNames := Names("", None, "", "", "")

  /** What naming the tip of `branch` in `dir` may give, by the
      `--tag-describe` and `--exact-tag` settings. */
  ghost predicate Named(fs: Fs, s: Settings, dir: string, branch: string, history: seq<Hash>, r: Result<string>) {
    if s.tagDescribe then Described(fs, dir, branch, history, r)
    else if s.exactTag then ExactNamed(fs, dir, branch, r)
    else r == Tag(fs, dir, branch, false)
  }

  method NameTip(fs: Fs, s: Settings, dir: string, branch: string, history: seq<Hash>) returns (r: Result<string>)
    ensures Named(fs, s, dir, branch, history, r)
  {
    if s.tagDescribe {
      r := Describe(fs, dir, branch, history);
    } else if s.exactTag {
      r := ExactTag(fs, dir, branch);
    } else {
      r := Tag(fs, dir, branch, false);
    }
  }

  lemma SameOutsideTrans(a: Fs, b: Fs, c: Fs, x: set<string>, y: set<string>)
    requires SameOutside(a, b, x) && SameOutside(b, c, y)
    ensures SameOutside(a, c, x + y)
  {
  }

  /** `removed` is what pruning keeps out of `images`: the tags of the
      repository `imageName`, newest first, beyond the first five. */
  ghost predicate Pruned(images: seq<ImageSummary>, imageName: string, removed: seq<string>) {
    exists sorted: seq<ImageEntry> ::
      && multiset(sorted) == multiset(Matching(images, imageName + ":"))
      && NewestFirst(sorted)
      && removed == Tags(Drop(sorted, KeepImages))
  }

  /** One `ImageRemove` per tag, in order. */
  function Removals(tags: seq<string>): (r: seq<Effect>)
    ensures |r| == |tags| && forall i :: 0 <= i < |tags| ==> r[i] == ImageRemove(tags[i])
  {
    if tags == [] then [] else Removals(tags[..|tags| - 1]) + [ImageRemove(tags[|tags| - 1])]
  }

  lemma RemovalsAppend(xs: seq<string>, ys: seq<string>)
    ensures Removals(xs + ys) == Removals(xs) + Removals(ys)
  {
  }

  /** The tags pruning removes: none when the image list cannot be read. */
  method Prune(images: Result<seq<ImageSummary>>, imageName: string) returns (removed: seq<string>)
    ensures images.Ok? ==> Pruned(images.value, imageName, removed)
    ensures images.Err? ==> removed == []
    ensures forall k :: 0 <= k < |removed| ==> HasPrefix(removed[k], imageName + ":")
  {
    var listed := if images.Ok? then images.value else [];
    var sorted;
    sorted, removed := Retention(listed, imageName);
  }

  /** One `ImageRemove` per tag; removal errors are ignored. */
  method RemoveImages(effects: seq<Effect>, tags: seq<string>) returns (r: seq<Effect>)
    ensures r == effects + Removals(tags)
  {
    r := effects;
    for i := 0 to |tags|
      invariant r == effects + Removals(tags[..i])
    {
      assert tags[..i + 1] == tags[..i] + [tags[i]];
      RemovalsAppend(tags[..i], [tags[i]]);
      r := r + [ImageRemove(tags[i])];
    }
    assert tags[..|tags|] == tags;
  }

  /** A run of one Build of an App for one of its branches. */
  class BuildRun {
    const app: App
    const build: Build
    const branch: BranchInfo

    constructor (app: App, build: Build, branch: BranchInfo)
      ensures this.app == app && this.build == build && this.branch == branch
    {
      this.app, this.build, this.branch := app, build, branch;
    }

    function AppDir(s: Settings): string {
      PathJoin(s.workDir, app.name)
    }

    function BaseDir(s: Settings): string {
      PathJoin(PathJoin(AppDir(s), "builds"), build.source)
    }

    function SrcDir(s: Settings): string {
      PathJoin(BaseDir(s), "src")
    }

    function OverlayDir(s: Settings): string {
      PathJoin(BaseDir(s), "overlay")
    }

    function DeployDir(s: Settings): string {
      PathJoin(AppDir(s), "deploy")
    }

    /** The checkouts and mirrors of the Build, and of the App's deploy
        repository. */
    function BuildDirs(s: Settings): set<string> {
      {SrcDir(s), MirrorDir(SrcDir(s)), OverlayDir(s), MirrorDir(OverlayDir(s))}
    }

    function DeployDirs(s: Settings): set<string> {
      {DeployDir(s), MirrorDir(DeployDir(s))}
    }

    /** The six directories are distinct: the deploy ones are shorter than
        any under `builds/`, and the build ones differ in length or in the
        letter after the Build's directory. */
    lemma DirsDistinct(s: Settings)
      ensures SrcDir(s) !in {OverlayDir(s), MirrorDir(OverlayDir(s))} + DeployDirs(s)
      ensures MirrorDir(DeployDir(s)) != DeployDir(s)
      ensures BuildDirs(s) !! DeployDirs(s)
    {
      var b := BaseDir(s);
      assert |SrcDir(s)| == |b| + 4 && |OverlayDir(s)| == |b| + 8;
      assert |b| >= |AppDir(s)| + 8;
      assert MirrorDir(SrcDir(s))[|b| + 1] == 's' && OverlayDir(s)[|b| + 1] == 'o';
    }

    /** The notification text: build id and log link, App, source repository
        and branch, then the outcome. */
    function NotifyText(s: Settings, buildID: string, err: Option<string>): string {
      "[" + buildID + "](" + s.builderURL + "/build-logs/" + buildID + ") running " + app.name + "/" +
      build.source + " (branch " + branch.source + ")" +
      (if err.Some? then " failed: " + err.value else " successful")
    }

    /** The `docker build` command line for these names. */
    function BuildArgsFor(s: Settings, n: Names): seq<string> {
      var overlayTag := if n.overlayTag.Some? then n.overlayTag.value else "";
      DockerArgs(BaseArgs(n.imageRef, n.srcTag, n.imageTag, s.sshAuthSock, overlayTag),
                 app.dockerArgs, build.dockerArgs, branch.dockerArgs)
    }

    /** `FetchBranch` of the source branch into the source checkout. */
    function SourceFetch(s: Settings, env: Env, fs: Fs): Outcome {
      FetchBranchSpec(fs, s.git, build.source, branch.source, SrcDir(s), env.remotes, env.io(SrcDir(s)))
    }

    /** `FetchBranch` of the overlay branch into the overlay checkout. */
    function OverlayFetch(s: Settings, env: Env, fs: Fs): Outcome {
      FetchBranchSpec(fs, s.git, build.overlay, branch.overlay, OverlayDir(s), env.remotes, env.io(OverlayDir(s)))
    }

    /** `after` is `f` with the overlay checkout's files copied over the
        source checkout, and `err` the copy's outcome. */
    ghost predicate OverlayCopied(s: Settings, env: Env, f: Fs, after: Fs, err: Option<string>) {
      && SrcDir(s) in f.worktrees && OverlayDir(s) in f.worktrees && SrcDir(s) in after.worktrees
      && var src, overlay := f.worktrees[SrcDir(s)], f.worktrees[OverlayDir(s)];
      && after.mirrors == f.mirrors
      && after.worktrees == f.worktrees[SrcDir(s) := after.worktrees[SrcDir(s)]]
      && CopyOutcome(OverlayDir(s), SrcDir(s), overlay, src, env.copyFaults, after.worktrees[SrcDir(s)], err)
    }

    /** The source fetch, then with an overlay the overlay fetch and the
        copy; the first error stops the stage, wrapped by its step. */
    ghost predicate SourcesFetched(s: Settings, env: Env, before: Fs, after: Fs, err: Option<string>) {
      var f1 := SourceFetch(s, env, before);
      && (f1.err.Some? ==> err == Some("failed to fetch source: " + f1.err.value) && after == f1.fs)
      && (f1.err.None? && build.overlay == "" ==> err.None? && after == f1.fs)
      && (f1.err.None? && build.overlay != "" ==>
            var f2 := OverlayFetch(s, env, f1.fs);
            && (f2.err.Some? ==> err == Some("failed to fetch overlay: " + f2.err.value) && after == f2.fs)
            && (f2.err.None? ==> OverlayCopied(s, env, f2.fs, after, err)))
    }

    /** Fetch the source branch, and with an overlay fetch it and copy it
        over the source checkout. Only the Build's directories change. */
    method Sources(s: Settings, disk: Disk, env: Env) returns (err: Option<string>)
      modifies disk
      ensures SameOutside(old(disk.State()), disk.State(), BuildDirs(s))
      ensures SourcesFetched(s, env, old(disk.State()), disk.State(), err)
      ensures err.None? ==> SrcDir(s) in disk.worktrees
    {
      DirsDistinct(s);
      var srcDir := SrcDir(s);
      ghost var start := disk.State();
      ghost var f1 := SourceFetch(s, env, start);
      err := disk.FetchBranch(s.git, build.source, branch.source, srcDir, env.remotes, env.io(srcDir));
      assert err == f1.err && disk.State() == f1.fs;
      if err.Some? {
        err := Some("failed to fetch source: " + err.value);
        assert SourcesFetched(s, env, start, disk.State(), err);
        return;
      }
      if build.overlay == "" {
        assert SourcesFetched(s, env, start, disk.State(), err);
        return;
      }
      err := Overlay(s, disk, env);
      SameOutsideTrans(start, f1.fs, disk.State(), {srcDir, MirrorDir(srcDir)},
                       {srcDir, OverlayDir(s), MirrorDir(OverlayDir(s))});
    }

    /** Fetch the overlay branch and copy its checkout over the source
        checkout. */
    method Overlay(s: Settings, disk: Disk, env: Env) returns (err: Option<string>)
      requires SrcDir(s) in disk.worktrees
      modifies disk
      ensures var f2 := OverlayFetch(s, env, old(disk.State()));
        && (f2.err.Some? ==> err == Some("failed to fetch overlay: " + f2.err.value) && disk.State() == f2.fs)
        && (f2.err.None? ==> OverlayCopied(s, env, f2.fs, disk.State(), err))
      ensures SameOutside(old(disk.State()), disk.State(), {SrcDir(s), OverlayDir(s), MirrorDir(OverlayDir(s))})
      ensures err.None? ==> SrcDir(s) in disk.worktrees
    {
      DirsDistinct(s);
      var srcDir, overlayDir := SrcDir(s), OverlayDir(s);
      ghost var start := disk.State();
      ghost var f2 := OverlayFetch(s, env, start);
      err := disk.FetchBranch(s.git, build.overlay, branch.overlay, overlayDir, env.remotes, env.io(overlayDir));
      assert err == f2.err && disk.State() == f2.fs;
      if err.Some? {
        return Some("failed to fetch overlay: " + err.value);
      }
      err := CopyOver(s, disk, env);
      SameOutsideTrans(start, f2.fs, disk.State(), {overlayDir, MirrorDir(overlayDir)}, {srcDir});
    }

    /** Copy the overlay checkout over the source checkout. */
    method CopyOver(s: Settings, disk: Disk, env: Env) returns (err: Option<string>)
      requires SrcDir(s) in disk.worktrees && OverlayDir(s) in disk.worktrees
      modifies disk
      ensures OverlayCopied(s, env, old(disk.State()), disk.State(), err)
      ensures SameOutside(old(disk.State()), disk.State(), {SrcDir(s)})
    {
      var srcDir, overlayDir := SrcDir(s), OverlayDir(s);
      var copied;
      copied, err := CopyOverlay(overlayDir, srcDir, disk.worktrees[overlayDir], disk.worktrees[srcDir], env.copyFaults);
      disk.worktrees := disk.worktrees[srcDir := copied];
    }

    /** The names of an image built from the tags `srcTag` and `overlayTag`. */
    function NamesOf(s: Settings, srcTag: string, overlayTag: Option<string>): Names {
      var imageTag := ImageTag(srcTag, overlayTag, branch.dockerTagSuffix);
      var imageName := ImageName(s.dockerPrefix, build);
      Names(srcTag, overlayTag, imageTag, imageName, ImageRef(imageName, imageTag))
    }

    /** Naming from the checkouts in `fs`, where `src` and `ov` are what
        naming the source and the overlay tip gave: the first error, wrapped
        by the tip it concerns, or the names of the tags. */
    ghost predicate NamingVia(s: Settings, fs: Fs, env: Env, r: Result<Names>, src: Result<string>, ov: Result<string>) {
      && Named(fs, s, SrcDir(s), branch.source, env.history(SrcDir(s)), src)
      && if src.Err? then r == Err("failed to get source tag: " + src.msg)
         else if build.overlay == "" then r == Ok(NamesOf(s, src.value, None))
         else
           && Named(fs, s, OverlayDir(s), branch.overlay, env.history(OverlayDir(s)), ov)
           && if ov.Err? then r == Err("failed to get overlay tag: " + ov.msg)
              else r == Ok(NamesOf(s, src.value, Some(ov.value)))
    }

    ghost predicate NamingOutcome(s: Settings, fs: Fs, env: Env, r: Result<Names>) {
      exists src, ov :: NamingVia(s, fs, env, r, src, ov)
    }

    /** Name the source tip (and the overlay tip) and derive the image tag and
        reference. */
    method Naming(s: Settings, fs: Fs, env: Env) returns (r: Result<Names>)
      ensures NamingOutcome(s, fs, env, r)
    {
      var srcTag := NameTip(fs, s, SrcDir(s), branch.source, env.history(SrcDir(s)));
      if srcTag.Err? {
        r := Err("failed to get source tag: " + srcTag.msg);
        assert NamingVia(s, fs, env, r, srcTag, srcTag);
        return;
      }
      var overlayTag: Option<string> := None;
      ghost var ov := srcTag;
      if build.overlay != "" {
        var t := NameTip(fs, s, OverlayDir(s), branch.overlay, env.history(OverlayDir(s)));
        ov := t;
        if t.Err? {
          r := Err("failed to get overlay tag: " + t.msg);
          assert NamingVia(s, fs, env, r, srcTag, ov);
          return;
        }
        overlayTag := Some(t.value);
      }
      var imageTag := ImageTag(srcTag.value, overlayTag, branch.dockerTagSuffix);
      var imageName := ImageName(s.dockerPrefix, build);
      r := Ok(Names(srcTag.value, overlayTag, imageTag, imageName, ImageRef(imageName, imageTag)));
      assert NamingVia(s, fs, env, r, srcTag, ov);
    }

    /** A successful naming names the tips of the checkouts, and the image
        after their tags. */
    lemma NamingFollows(s: Settings, fs: Fs, env: Env, r: Result<Names>)
      requires NamingOutcome(s, fs, env, r) && r.Ok?
      ensures NamesFollow(s, r.value)
      ensures Named(fs, s, SrcDir(s), branch.source, env.history(SrcDir(s)), Ok(r.value.srcTag))
      ensures r.value.overlayTag.Some? ==>
        Named(fs, s, OverlayDir(s), branch.overlay, env.history(OverlayDir(s)), Ok(r.value.overlayTag.value))
    {
      var src, ov :| NamingVia(s, fs, env, r, src, ov);
    }

    /** The `docker build` a run issues: none when the engine already has the
        image. */
    function BuildEffects(s: Settings, env: Env, n: Names): seq<Effect> {
      if env.imageExists(n.imageRef) then [] else [DockerBuild(SrcDir(s), BuildArgsFor(s, n))]
    }

    /** The outcome of that build. */
    function BuildError(s: Settings, env: Env, n: Names): Option<string> {
      if env.imageExists(n.imageRef) then None else env.dockerBuild(BuildArgsFor(s, n))
    }

    /** The effects of a run up to the image pruning: the build, the push and
        one removal per tag in `removed`. */
    function ThroughPush(s: Settings, env: Env, n: Names, removed: seq<string>): seq<Effect> {
      BuildEffects(s, env, n) + [ImagePush(n.imageRef)] + Removals(removed)
    }

    /** The deploy commit and its push. */
    function DeployEffects(s: Settings, imageTag: string): seq<Effect> {
      [DeployCommit(CommitMessage(app.name, build.source, imageTag)),
       GitPush(MirrorDir(DeployDir(s)), RefSpec(branch.deploy))]
    }

    /** Build the image unless the engine already has it, push it, then
        remove the repository's images beyond the five newest (failed
        removals and a failed listing are ignored). */
    method Image(s: Settings, env: Env, n: Names) returns (err: Option<string>, effects: seq<Effect>, removed: seq<string>)
      ensures BuildError(s, env, n).Some? ==>
        err == BuildError(s, env, n) && effects == BuildEffects(s, env, n) && removed == []
      ensures BuildError(s, env, n).None? ==> err == env.imagePush(n.imageRef)
      ensures BuildError(s, env, n).None? ==> effects == ThroughPush(s, env, n, removed)
      ensures err.Some? ==> removed == []
      ensures err.None? && env.imageList.Ok? ==> Pruned(env.imageList.value, n.imageName, removed)
      ensures env.imageList.Err? ==> removed == []
      ensures forall k :: 0 <= k < |removed| ==> HasPrefix(removed[k], n.imageName + ":")
    {
      removed := [];
      err, effects := BuildImage(s, env, n);
      if err.Some? {
        return;
      }
      effects := effects + [ImagePush(n.imageRef)];
      err := env.imagePush(n.imageRef);
      if err.Some? {
        return;
      }
      removed := Prune(env.imageList, n.imageName);
      effects := RemoveImages(effects, removed);
    }

    /** `docker build` with the run's arguments, unless the image exists. */
    method BuildImage(s: Settings, env: Env, n: Names) returns (err: Option<string>, effects: seq<Effect>)
      ensures err == BuildError(s, env, n) && effects == BuildEffects(s, env, n)
    {
      effects := [];
      err := None;
      if !env.imageExists(n.imageRef) {
        var overlayTag := if n.overlayTag.Some? then n.overlayTag.value else "";
        var base := BaseArgs(n.imageRef, n.srcTag, n.imageTag, s.sshAuthSock, overlayTag);
        var args := BuildDockerArgs(base, app.dockerArgs, build.dockerArgs, branch.dockerArgs);
        effects := [DockerBuild(SrcDir(s), args)];
        err := env.dockerBuild(args);
      }
    }

    /** `FetchBranch` of the deploy branch into the deploy checkout. */
    function DeployFetch(s: Settings, env: Env, fs: Fs): Outcome {
      FetchBranchSpec(fs, s.git, app.deploy, branch.deploy, DeployDir(s), env.remotes, env.io(DeployDir(s)))
    }

    /** The Build's deploy steps over the deploy checkout's `files`. */
    function DeployStepsOf(s: Settings, env: Env, imageTag: string, files: Tree): Stepped {
      StepsSpec(files, DeployDir(s), build.deployUpdates, imageTag, env.runScript, env.parse, env.marshal)
    }

    /** Committing the deploy checkout of `before`: no change is a success
        that changes nothing; a change whose staging fails, or a failed
        commit, is an error that leaves the mirror as it was (the adds
        already staged in its index are not modelled); otherwise the worktree is
        committed on HEAD's branch, the branch is pushed and the push's outcome
        is the result. */
    ghost predicate Committed(s: Settings, env: Env, imageTag: string, before: Fs, after: Fs, err: Option<string>, effects: seq<Effect>) {
      var gd, dd := MirrorDir(DeployDir(s)), DeployDir(s);
      && gd in before.mirrors && dd in before.worktrees
      && var m, files := before.mirrors[gd], before.worktrees[dd];
         var changes := Status(m, files);
         if changes == {} then err.None? && effects == [] && after == before
         else if changes * env.addFails != {} then
           err == Some("failed to add change: " + IoError) && effects == [] && after == before
         else if env.commit.Err? then
           err == Some("failed to commit on deploy: " + env.commit.msg) && effects == [] && after == before
         else
           && after == before.(mirrors := before.mirrors[gd := CommitAll(m, files, env.commit.value)])
           && effects == DeployEffects(s, imageTag)
           && err == env.gitPush
    }

    /** The deploy stage from `before`: a failed fetch ends it with the
        fetch's error; a failed step ends it with the step's error and the
        checkout as the steps before it (and the failing script) left it;
        otherwise the stepped checkout is committed. */
    ghost predicate DeployOutcome(s: Settings, env: Env, imageTag: string, before: Fs, after: Fs, err: Option<string>, effects: seq<Effect>) {
      var f := DeployFetch(s, env, before);
      if f.err.Some? then err == f.err && effects == [] && after == f.fs
      else
        var steps := DeployStepsOf(s, env, imageTag, f.fs.worktrees[DeployDir(s)]);
        var stepped := f.fs.(worktrees := f.fs.worktrees[DeployDir(s) := steps.files]);
        if steps.err.Some? then err == steps.err && effects == [] && after == stepped
        else Committed(s, env, imageTag, stepped, after, err, effects)
    }

    /** Fetch the deploy branch, run the deploy steps over its checkout and,
        when that leaves changes, stage them, commit them and push the branch.
        Only the deploy checkout and its mirror change. */
    method Deploy(s: Settings, disk: Disk, env: Env, imageTag: string) returns (err: Option<string>, effects: seq<Effect>)
      modifies disk
      ensures SameOutside(old(disk.State()), disk.State(), DeployDirs(s))
      ensures DeployOutcome(s, env, imageTag, old(disk.State()), disk.State(), err, effects)
    {
      DirsDistinct(s);
      var deployDir := DeployDir(s);
      effects := [];
      ghost var f := DeployFetch(s, env, disk.State());
      err := disk.FetchBranch(s.git, app.deploy, branch.deploy, deployDir, env.remotes, env.io(deployDir));
      assert err == f.err && disk.State() == f.fs;
      if err.Some? {
        return;
      }
      err, effects := StepAndCommit(s, disk, env, imageTag);
    }

    /** Run the deploy steps over the fetched deploy checkout, then commit. */
    method StepAndCommit(s: Settings, disk: Disk, env: Env, imageTag: string) returns (err: Option<string>, effects: seq<Effect>)
      requires MirrorDir(DeployDir(s)) in disk.mirrors && DeployDir(s) in disk.worktrees
      modifies disk
      ensures SameOutside(old(disk.State()), disk.State(), DeployDirs(s))
      ensures var steps := DeployStepsOf(s, env, imageTag, old(disk.worktrees[DeployDir(s)]));
        var stepped := old(disk.State()).(worktrees := old(disk.worktrees)[DeployDir(s) := steps.files]);
        if steps.err.Some? then err == steps.err && effects == [] && disk.State() == stepped
        else Committed(s, env, imageTag, stepped, disk.State(), err, effects)
    {
      var deployDir := DeployDir(s);
      var steps := DeploySteps(disk.worktrees[deployDir], deployDir, build.deployUpdates, imageTag,
                               env.runScript, env.parse, env.marshal);
      disk.worktrees := disk.worktrees[deployDir := steps.files];
      if steps.err.Some? {
        return steps.err, [];
      }
      err, effects := CommitDeploy(s, disk, env, imageTag);
    }

    /** Stage every changed file of the deploy checkout, commit and push the
        deploy branch; nothing to commit is a success without effects. Only
        the deploy mirror changes. */
    method CommitDeploy(s: Settings, disk: Disk, env: Env, imageTag: string) returns (err: Option<string>, effects: seq<Effect>)
      requires MirrorDir(DeployDir(s)) in disk.mirrors && DeployDir(s) in disk.worktrees
      modifies disk
      ensures Committed(s, env, imageTag, old(disk.State()), disk.State(), err, effects)
      ensures SameOutside(old(disk.State()), disk.State(), {MirrorDir(DeployDir(s))})
    {
      var gd := MirrorDir(DeployDir(s));
      var m := disk.mirrors[gd];
      var files := disk.worktrees[DeployDir(s)];
      var status := Status(m, files);
      if status == {} {
        return None, [];
      }
      var todo := status;
      while todo != {}
        invariant todo <= status
        invariant forall f :: f in status && f !in todo ==> f !in env.addFails
        decreases |todo|
      {
        var f :| f in todo;
        if f in env.addFails {
          assert f in status * env.addFails;
          return Some("failed to add change: " + IoError), [];
        }
        todo := todo - {f};
      }
      assert status * env.addFails == {};
      if env.commit.Err? {
        return Some("failed to commit on deploy: " + env.commit.msg), [];
      }
      disk.mirrors := disk.mirrors[gd := CommitAll(m, files, env.commit.value)];
      effects := [DeployCommit(CommitMessage(app.name, build.source, imageTag)), GitPush(gd, RefSpec(branch.deploy))];
      err := env.gitPush;
    }

    /** What a deploy stage can leave: no effects, or the commit and push
        with the push's outcome as its own; a success leaves the deploy
        checkout committed. */
    lemma DeployOutcomeFacts(s: Settings, env: Env, imageTag: string, before: Fs, after: Fs, err: Option<string>, effects: seq<Effect>)
      requires DeployOutcome(s, env, imageTag, before, after, err, effects)
      ensures effects == [] || (effects == DeployEffects(s, imageTag) && err == env.gitPush)
      ensures err.None? ==> DeployClean(s, after)
    {
      var f := DeployFetch(s, env, before);
      if f.err.None? {
        var steps := DeployStepsOf(s, env, imageTag, f.fs.worktrees[DeployDir(s)]);
        if steps.err.None? {
          var stepped := f.fs.(worktrees := f.fs.worktrees[DeployDir(s) := steps.files]);
          CommittedFacts(s, env, imageTag, stepped, after, err, effects);
        }
      }
    }

    /** The same for the commit alone. */
    lemma CommittedFacts(s: Settings, env: Env, imageTag: string, before: Fs, after: Fs, err: Option<string>, effects: seq<Effect>)
      requires Committed(s, env, imageTag, before, after, err, effects)
      ensures effects == [] || (effects == DeployEffects(s, imageTag) && err == env.gitPush)
      ensures err.None? ==> DeployClean(s, after)
    {
      var gd, dd := MirrorDir(DeployDir(s)), DeployDir(s);
      var m, files := before.mirrors[gd], before.worktrees[dd];
      if Status(m, files) != {} && Status(m, files) * env.addFails == {} && env.commit.Ok? {
        StatusEmptyIffClean(CommitAll(m, files, env.commit.value), files);
      }
    }

    /** The deploy commit is on the deploy branch, the branch the push
        names: the fetch leaves HEAD on it and the commit moves HEAD's
        branch. */
    lemma DeployCommitOnDeployBranch(s: Settings, env: Env, imageTag: string, before: Fs, after: Fs, err: Option<string>, effects: seq<Effect>)
      requires DeployOutcome(s, env, imageTag, before, after, err, effects) && effects != []
      ensures MirrorDir(DeployDir(s)) in after.mirrors
      ensures var m := after.mirrors[MirrorDir(DeployDir(s))];
        && m.head == branch.deploy && branch.deploy in m.localBranches
        && m.localBranches[branch.deploy] == env.commit.value
        && HeadTree(m) == after.worktrees[DeployDir(s)]
      ensures effects[1] == GitPush(MirrorDir(DeployDir(s)), RefSpec(branch.deploy))
    {
      var f := DeployFetch(s, env, before);
      var gd := MirrorDir(DeployDir(s));
      assert f.err.None? && f.fs.mirrors[gd].head == branch.deploy;
    }

    /** The image and deploy stages for names `n` from `before`: a failed
        build or push ends the run with its error and changes nothing; after
        the push the old images are pruned and the deploy stage's outcome is
        the run's. */
    ghost predicate Shipped(s: Settings, env: Env, n: Names, before: Fs, after: Fs, err: Option<string>,
                            effects: seq<Effect>, removed: seq<string>) {
      var built := BuildError(s, env, n);
      if built.Some? then err == built && effects == BuildEffects(s, env, n) && removed == [] && after == before
      else if env.imagePush(n.imageRef).Some? then
        err == env.imagePush(n.imageRef) && effects == ThroughPush(s, env, n, []) && removed == [] && after == before
      else
        var pushed := ThroughPush(s, env, n, removed);
        && (env.imageList.Ok? ==> Pruned(env.imageList.value, n.imageName, removed))
        && (env.imageList.Err? ==> removed == [])
        && |pushed| <= |effects| && effects[..|pushed|] == pushed
        && DeployOutcome(s, env, n.imageTag, before, after, err, effects[|pushed|..])
    }

    /** With the sources fetched and named: build and push the image, prune
        the old ones and deploy. Only the deploy checkout and its mirror
        change. */
    method Ship(s: Settings, disk: Disk, env: Env, n: Names) returns (err: Option<string>, effects: seq<Effect>, removed: seq<string>)
      modifies disk
      ensures SameOutside(old(disk.State()), disk.State(), DeployDirs(s))
      ensures Shipped(s, env, n, old(disk.State()), disk.State(), err, effects, removed)
      ensures forall k :: 0 <= k < |removed| ==> HasPrefix(removed[k], n.imageName + ":")
    {
      err, effects, removed := Image(s, env, n);
      if err.Some? {
        return;
      }
      ghost var pushed := effects;
      var deployEffects;
      err, deployEffects := Deploy(s, disk, env, n.imageTag);
      effects := effects + deployEffects;
      assert effects[..|pushed|] == pushed && effects[|pushed|..] == deployEffects;
    }

    /** What an image and deploy stage leaves: at least the build or the
        push; the effects of a stopped run; and on success the push among
        them and the deploy checkout committed. */
    lemma ShippedFacts(s: Settings, env: Env, n: Names, before: Fs, after: Fs, err: Option<string>,
                       effects: seq<Effect>, removed: seq<string>)
      requires Shipped(s, env, n, before, after, err, effects, removed)
      ensures effects != []
      ensures WorkShape(effects, err, s, env, n, removed)
      ensures err.None? ==> ImagePush(n.imageRef) in effects && DeployClean(s, after)
    {
      if BuildError(s, env, n).Some? {
        assert WorkShape(effects, err, s, env, n, removed);
      } else if env.imagePush(n.imageRef).Some? {
        assert effects == ThroughPush(s, env, n, removed);
        assert effects[|BuildEffects(s, env, n)|] == ImagePush(n.imageRef);
      } else {
        var pushed := ThroughPush(s, env, n, removed);
        DeployOutcomeFacts(s, env, n.imageTag, before, after, err, effects[|pushed|..]);
        PushedThenDeployed(s, env, n, effects, removed, err);
      }
    }

    /** The effects of a run that pushed: the push and prunings, then the
        deploy's. */
    lemma PushedThenDeployed(s: Settings, env: Env, n: Names, effects: seq<Effect>, removed: seq<string>, err: Option<string>)
      requires var pushed := ThroughPush(s, env, n, removed);
        && |pushed| <= |effects| && effects[..|pushed|] == pushed
        && (effects[|pushed|..] == [] || (effects[|pushed|..] == DeployEffects(s, n.imageTag) && err == env.gitPush))
      ensures WorkShape(effects, err, s, env, n, removed)
      ensures ImagePush(n.imageRef) in effects
    {
      var pushed := ThroughPush(s, env, n, removed);
      assert effects == pushed + effects[|pushed|..];
      assert effects[|BuildEffects(s, env, n)|] == ImagePush(n.imageRef);
    }

    /** The effects a run can have produced when it stops, with its error:
        nothing (a failure before the build), a failed build, the build and
        push with the prunings (a failed push, a deploy failure or nothing to
        commit), or all that and the deploy commit and push, whose outcome is
        the run's. */
    predicate WorkShape(work: seq<Effect>, err: Option<string>, s: Settings, env: Env, n: Names, removed: seq<string>) {
      || work == []
      || (work == BuildEffects(s, env, n) && err == BuildError(s, env, n) && err.Some?)
      || work == ThroughPush(s, env, n, removed)
      || (work == ThroughPush(s, env, n, removed) + DeployEffects(s, n.imageTag) && err == env.gitPush)
    }

    /** A run notifies only at its end: its work has no notification. */
    lemma WorkNeverNotifies(work: seq<Effect>, err: Option<string>, s: Settings, env: Env, n: Names, removed: seq<string>)
      requires WorkShape(work, err, s, env, n, removed)
      ensures forall i :: 0 <= i < |work| ==> !work[i].Notify?
    {
      var pushed := BuildEffects(s, env, n) + [ImagePush(n.imageRef)];
      forall i | 0 <= i < |work|
        ensures !work[i].Notify?
      {
        if i >= |pushed| && i < |pushed| + |removed| {
          assert work[i] == Removals(removed)[i - |pushed|];
        }
      }
    }

    /** The image names follow from the tags. */
    predicate NamesFollow(s: Settings, n: Names) {
      && n.imageTag == ImageTag(n.srcTag, n.overlayTag, branch.dockerTagSuffix)
      && n.imageName == ImageName(s.dockerPrefix, build)
      && n.imageRef == ImageRef(n.imageName, n.imageTag)
      && (n.overlayTag.None? <==> build.overlay == "")
    }

    /** The deploy checkout is committed: its files are those of HEAD. */
    predicate DeployClean(s: Settings, fs: Fs) {
      && MirrorDir(DeployDir(s)) in fs.mirrors && DeployDir(s) in fs.worktrees
      && Status(fs.mirrors[MirrorDir(DeployDir(s))], fs.worktrees[DeployDir(s)]) == {}
    }

    /** The run's stages from `before`, with `mid` the disk after the sources
        stage, `fetched` its outcome and `named` the naming's: each stage's
        error ends the run with nothing done after it. */
    ghost predicate WorkedVia(s: Settings, env: Env, before: Fs, after: Fs, err: Option<string>, effects: seq<Effect>,
                              n: Names, removed: seq<string>, mid: Fs, fetched: Option<string>, named: Result<Names>) {
      && SourcesFetched(s, env, before, mid, fetched)
      && if fetched.Some? then err == fetched && effects == [] && removed == [] && after == mid
         else
           && NamingOutcome(s, mid, env, named)
           && if named.Err? then err == Some(named.msg) && effects == [] && removed == [] && after == mid
              else n == named.value && Shipped(s, env, n, mid, after, err, effects, removed)
    }

    /** The work of a run: a failed log file creation stops it before
        anything; otherwise the sources, naming, image and deploy stages run
        in order. */
    ghost predicate Worked(s: Settings, env: Env, before: Fs, after: Fs, err: Option<string>, effects: seq<Effect>,
                           n: Names, removed: seq<string>) {
      if env.logFile.Some? then err == env.logFile && effects == [] && removed == [] && after == before
      else exists mid, fetched, named :: WorkedVia(s, env, before, after, err, effects, n, removed, mid, fetched, named)
    }

    /** Everything between the deferred notification and the end of the
        run. */
    method Work(s: Settings, disk: Disk, env: Env) returns (err: Option<string>, effects: seq<Effect>, n: Names, removed: seq<string>)
      modifies disk
      ensures SameOutside(old(disk.State()), disk.State(), BuildDirs(s) + DeployDirs(s))
      ensures Worked(s, env, old(disk.State()), disk.State(), err, effects, n, removed)
      ensures forall k :: 0 <= k < |removed| ==> HasPrefix(removed[k], n.imageName + ":")
    {
      n, effects, removed := NoNames, [], [];
      if env.logFile.Some? {
        return env.logFile, [], n, [];
      }
      ghost var start := disk.State();
      err := Sources(s, disk, env);
      ghost var mid := disk.State();
      if err.Some? {
        assert WorkedVia(s, env, start, mid, err, effects, n, removed, mid, err, Err(""));
        return;
      }
      var named := Naming(s, disk.State(), env);
      if named.Err? {
        err := Some(named.msg);
        assert WorkedVia(s, env, start, mid, err, effects, n, removed, mid, None, named);
        return;
      }
      n := named.value;
      err, effects, removed := Ship(s, disk, env, n);
      SameOutsideTrans(start, mid, disk.State(), BuildDirs(s), DeployDirs(s));
      assert WorkedVia(s, env, start, disk.State(), err, effects, n, removed, mid, None, named);
    }

    /** What a run's work leaves: the effects of a stopped run, names that
        follow from the tags once anything was done, and on success the push
        among the effects and the deploy checkout committed. */
    lemma WorkedFacts(s: Settings, env: Env, before: Fs, after: Fs, err: Option<string>, work: seq<Effect>,
                      n: Names, removed: seq<string>)
      requires Worked(s, env, before, after, err, work, n, removed)
      ensures WorkShape(work, err, s, env, n, removed)
      ensures work != [] ==> NamesFollow(s, n)
      ensures err.None? ==> NamesFollow(s, n) && ImagePush(n.imageRef) in work && DeployClean(s, after)
    {
      if env.logFile.None? {
        var mid, fetched, named :| WorkedVia(s, env, before, after, err, work, n, removed, mid, fetched, named);
        if fetched.None? && named.Ok? {
          NamingFollows(s, mid, env, named);
          ShippedFacts(s, env, n, mid, after, err, work, removed);
        }
      }
    }

    /** `Run`: without a docker client nothing happens; otherwise the work
        runs and exactly one notification, the last effect, reports its
        outcome. */
    method Run(s: Settings, disk: Disk, env: Env) returns (err: Option<string>, effects: seq<Effect>, n: Names, removed: seq<string>)
      modifies disk
      ensures env.dockerClient.Some? ==>
        err == env.dockerClient && effects == [] && disk.State() == old(disk.State())
      ensures env.dockerClient.None? ==>
        && |effects| > 0
        && effects[|effects| - 1] == Notify(NotifyText(s, env.buildID, err))
        && Worked(s, env, old(disk.State()), disk.State(), err, effects[..|effects| - 1], n, removed)
        && WorkShape(effects[..|effects| - 1], err, s, env, n, removed)
      ensures forall i :: 0 <= i < |effects| - 1 ==> !effects[i].Notify?
      ensures SameOutside(old(disk.State()), disk.State(), BuildDirs(s) + DeployDirs(s))
      ensures forall k :: 0 <= k < |removed| ==> HasPrefix(removed[k], n.imageName + ":")
      ensures err.None? ==> NamesFollow(s, n) && ImagePush(n.imageRef) in effects && DeployClean(s, disk.State())
    {
      n, removed := NoNames, [];
      if env.dockerClient.Some? {
        return env.dockerClient, [], n, [];
      }
      var work;
      err, work, n, removed := Work(s, disk, env);
      WorkedFacts(s, env, old(disk.State()), disk.State(), err, work, n, removed);
      effects := work + [Notify(NotifyText(s, env.buildID, err))];
      NotifiedLast(work, effects, err, s, env, n, removed);
    }

    /** Appending the notification to a run's work keeps the work's shape
        before it and leaves it the only notification. */
    lemma NotifiedLast(work: seq<Effect>, effects: seq<Effect>, err: Option<string>, s: Settings, env: Env, n: Names, removed: seq<string>)
      requires WorkShape(work, err, s, env, n, removed)
      requires effects == work + [Notify(NotifyText(s, env.buildID, err))]
      ensures |effects| > 0 && effects[|effects| - 1] == Notify(NotifyText(s, env.buildID, err))
      ensures WorkShape(effects[..|effects| - 1], err, s, env, n, removed)
      ensures forall i :: 0 <= i < |effects| - 1 ==> !effects[i].Notify?
      ensures forall e :: e in work ==> e in effects
    {
      WorkNeverNotifies(work, err, s, env, n, removed);
      assert effects[..|effects| - 1] == work;
    }
  }
}
