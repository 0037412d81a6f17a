/** The trigger dispatcher (main.go `triggerFromURL`, `triggerFrom`): a push
    event names a repository and a branch; the catalog is reloaded when the
    event is for the catalog's own repository and branch, then every App,
    Build and branch description is scanned, in order, for the runs the event
    starts. The runs' outcomes are ignored, so every selected run is issued. */
module Dispatch {
  import opened Wrappers
  import opened Text
  import opened Apps
  import opened GitUrl
  import opened BuildSteps

  /** One build run to start: App, Build and the matched branch description. */
  datatype Run = Run(app: App, build: Build, branch: BranchInfo)

  /** The branch of `b` an event is compared with: the source branch in the
      source case, the overlay branch in the overlay case. */
  function Key(b: BranchInfo, bySource: bool): string {
    if bySource then b.source else b.overlay
  }

  /** The descriptions of `branches` whose key is `branch`, in list order. */
  function BranchesOn(branches: seq<BranchInfo>, branch: string, bySource: bool): (r: seq<BranchInfo>)
    ensures |r| <= |branches|
    decreases |branches|
  {
    if branches == [] then []
    else
      var last := branches[|branches| - 1];
      BranchesOn(branches[..|branches| - 1], branch, bySource) + (if Key(last, bySource) == branch then [last] else [])
  }

  /** The `switch repo` over one Build: the source case comes first, so when
      the event repository is the Build's source the overlay branches are not
      looked at, even when the overlay repository is the same. */
  function Selected(build: Build, repo: string, branch: string): seq<BranchInfo> {
    if repo == build.source then BranchesOn(build.branches, branch, true)
    else if repo == build.overlay then BranchesOn(build.branches, branch, false)
    else []
  }

  /** One run per selected description, in order. */
  function RunsFor(app: App, build: Build, selected: seq<BranchInfo>): (r: seq<Run>)
    ensures |r| == |selected|
    decreases |selected|
  {
    if selected == [] then []
    else RunsFor(app, build, selected[..|selected| - 1]) + [Run(app, build, selected[|selected| - 1])]
  }

  /** The concatenation of `f(x)` over `xs`, in order. */
  function ConcatMap<T, U>(xs: seq<T>, f: T -> seq<U>): seq<U>
    decreases |xs|
  {
    if xs == [] then [] else ConcatMap(xs[..|xs| - 1], f) + f(xs[|xs| - 1])
  }

  /** The runs of the Builds `builds` of `app`, Build by Build. */
  function BuildsRuns(app: App, builds: seq<Build>, repo: string, branch: string): seq<Run> {
    ConcatMap(builds, (b: Build) => RunsFor(app, b, Selected(b, repo, branch)))
  }

  /** The runs an event starts over the Apps `apps`, App by App. */
  function Runs(apps: seq<App>, repo: string, branch: string): seq<Run> {
    ConcatMap(apps, (a: App) => BuildsRuns(a, a.builds, repo, branch))
  }

  /** The scan of `triggerFrom`: Apps, then their Builds, each selection
      turned into runs in order. */
  method CollectRuns(apps: seq<App>, repo: string, branch: string) returns (runs: seq<Run>)
    ensures runs == Runs(apps, repo, branch)
  {
    runs := [];
    for i := 0 to |apps|
      invariant runs == Runs(apps[..i], repo, branch)
    {
      runs := AppendAppRuns(runs, apps[i], repo, branch);
      ConcatMapStep(apps, i, (a: App) => BuildsRuns(a, a.builds, repo, branch));
    }
    assert apps[..|apps|] == apps;
  }

  /** The Builds of one App, in order. */
  method AppendAppRuns(runs: seq<Run>, app: App, repo: string, branch: string) returns (r: seq<Run>)
    ensures r == runs + BuildsRuns(app, app.builds, repo, branch)
  {
    r := runs;
    var builds := app.builds;
    for j := 0 to |builds|
      invariant r == runs + BuildsRuns(app, builds[..j], repo, branch)
    {
      var build := builds[j];
      var branches := SelectBranches(build, repo, branch);
      ghost var prev := r;
      r := AppendRuns(r, app, build, branches);
      ConcatMapStep(builds, j, (b: Build) => RunsFor(app, b, Selected(b, repo, branch)));
      AppendAssoc(runs, BuildsRuns(app, builds[..j], repo, branch), RunsFor(app, build, branches));
    }
    assert builds[..|builds|] == builds;
  }

  /** The `switch` of one Build: a fresh `branches` list filled in list
      order. */
  method SelectBranches(build: Build, repo: string, branch: string) returns (branches: seq<BranchInfo>)
    ensures branches == Selected(build, repo, branch)
  {
    branches := [];
    if repo == build.source || repo == build.overlay {
      var bySource := repo == build.source;
      for k := 0 to |build.branches|
        invariant branches == BranchesOn(build.branches[..k], branch, bySource)
      {
        assert build.branches[..k + 1][..k] == build.branches[..k];
        if Key(build.branches[k], bySource) == branch {
          branches := branches + [build.branches[k]];
        }
      }
      assert build.branches[..|build.branches|] == build.branches;
    }
  }

  /** One run per selected description, appended in order. */
  method AppendRuns(runs: seq<Run>, app: App, build: Build, branches: seq<BranchInfo>) returns (r: seq<Run>)
    ensures r == runs + RunsFor(app, build, branches)
  {
    r := runs;
    for k := 0 to |branches|
      invariant r == runs + RunsFor(app, build, branches[..k])
    {
      assert branches[..k + 1][..k] == branches[..k];
      r := r + [Run(app, build, branches[k])];
    }
    assert branches[..|branches|] == branches;
  }

  // ---------------------------------------------------------------------
  // Properties of the selection

  /** The selection keeps exactly the descriptions whose key is the event
      branch. */
  lemma {:induction false} BranchesOnMembers(branches: seq<BranchInfo>, branch: string, bySource: bool, b: BranchInfo)
    ensures b in BranchesOn(branches, branch, bySource) <==> b in branches && Key(b, bySource) == branch
    decreases |branches|
  {
    if branches != [] {
      var n := |branches| - 1;
      BranchesOnMembers(branches[..n], branch, bySource, b);
      assert branches == branches[..n] + [branches[n]];
    }
  }

  /** ... in list order: the selection of a concatenation is the
      concatenation of the selections. */
  lemma {:induction false} BranchesOnAppend(xs: seq<BranchInfo>, ys: seq<BranchInfo>, branch: string, bySource: bool)
    ensures BranchesOn(xs + ys, branch, bySource) == BranchesOn(xs, branch, bySource) + BranchesOn(ys, branch, bySource)
    decreases |ys|
  {
    if ys == [] {
      assert xs + ys == xs;
    } else {
      var n := |ys| - 1;
      assert (xs + ys)[..|xs + ys| - 1] == xs + ys[..n];
      BranchesOnAppend(xs, ys[..n], branch, bySource);
    }
  }

  /** What one Build selects: by source branch when the event is for its
      source repository, by overlay branch when it is for its overlay
      repository only, nothing otherwise. */
  lemma SelectedMembers(build: Build, repo: string, branch: string, b: BranchInfo)
    ensures b in Selected(build, repo, branch) <==>
      && b in build.branches
      && (if repo == build.source then b.source == branch else repo == build.overlay && b.overlay == branch)
  {
    BranchesOnMembers(build.branches, branch, true, b);
    BranchesOnMembers(build.branches, branch, false, b);
  }

  /** The source case shadows the overlay case: for an event on a Build's
      source repository a description matched only by its overlay branch is
      not selected, even when the overlay repository is the source one. */
  lemma SourceShadowsOverlay(build: Build, branch: string, b: BranchInfo)
    requires b in build.branches && b.overlay == branch && b.source != branch
    ensures b !in Selected(build, build.source, branch)
  {
    SelectedMembers(build, build.source, branch, b);
  }

  /** A Build without overlay matches an event with an empty repository
      through the overlay case, by its descriptions' (empty) overlay
      branches. */
  lemma EmptyOverlayMatchesEmptyRepo(build: Build, branch: string, b: BranchInfo)
    requires build.overlay == "" && build.source != ""
    ensures b in Selected(build, "", branch) <==> b in build.branches && b.overlay == branch
  {
    SelectedMembers(build, "", branch, b);
  }

  lemma {:induction false} ConcatMapAppend<T, U>(xs: seq<T>, ys: seq<T>, f: T -> seq<U>)
    ensures ConcatMap(xs + ys, f) == ConcatMap(xs, f) + ConcatMap(ys, f)
    decreases |ys|
  {
    if ys == [] {
      assert xs + ys == xs;
    } else {
      var n, zs := |ys| - 1, xs + ys;
      assert zs[..|zs| - 1] == xs + ys[..n];
      ConcatMapAppend(xs, ys[..n], f);
    }
  }

  /** Regrouping a concatenation; a proof hint for the loop above. */
  lemma AppendAssoc<T>(a: seq<T>, b: seq<T>, c: seq<T>)
    ensures (a + b) + c == a + (b + c)
  {
  }

  lemma ConcatMapStep<T, U>(xs: seq<T>, i: nat, f: T -> seq<U>)
    requires i < |xs|
    ensures ConcatMap(xs[..i + 1], f) == ConcatMap(xs[..i], f) + f(xs[i])
  {
    assert xs[..i + 1][..i] == xs[..i];
  }

  lemma {:induction false} ConcatMapMembers<T, U>(xs: seq<T>, f: T -> seq<U>, u: U)
    ensures u in ConcatMap(xs, f) <==> exists i :: 0 <= i < |xs| && u in f(xs[i])
    decreases |xs|
  {
    if xs != [] {
      var n := |xs| - 1;
      ConcatMapMembers(xs[..n], f, u);
      if exists i :: 0 <= i < |xs| && u in f(xs[i]) {
        var i :| 0 <= i < |xs| && u in f(xs[i]);
        if i < n {
          assert xs[..n][i] == xs[i];
        }
      }
      if exists i :: 0 <= i < n && u in f(xs[..n][i]) {
        var i :| 0 <= i < n && u in f(xs[..n][i]);
        assert xs[i] == xs[..n][i];
      }
    }
  }

  /** Runs follow App order: the runs over a concatenation of catalogs are
      the runs over the first followed by the runs over the second. */
  lemma RunsAppend(xs: seq<App>, ys: seq<App>, repo: string, branch: string)
    ensures Runs(xs + ys, repo, branch) == Runs(xs, repo, branch) + Runs(ys, repo, branch)
  {
    ConcatMapAppend(xs, ys, (a: App) => BuildsRuns(a, a.builds, repo, branch));
  }

  /** ... and Build order within an App. */
  lemma BuildsRunsAppend(app: App, xs: seq<Build>, ys: seq<Build>, repo: string, branch: string)
    ensures BuildsRuns(app, xs + ys, repo, branch) == BuildsRuns(app, xs, repo, branch) + BuildsRuns(app, ys, repo, branch)
  {
    ConcatMapAppend(xs, ys, (b: Build) => RunsFor(app, b, Selected(b, repo, branch)));
  }

  /** The runs of one selection are the selected descriptions with that App
      and Build. */
  lemma {:induction false} RunsForMembers(app: App, build: Build, selected: seq<BranchInfo>, r: Run)
    ensures r in RunsFor(app, build, selected) <==> r.app == app && r.build == build && r.branch in selected
    decreases |selected|
  {
    if selected != [] {
      var n := |selected| - 1;
      RunsForMembers(app, build, selected[..n], r);
      assert selected == selected[..n] + [selected[n]];
    }
  }

  /** The runs of one App are exactly the selected descriptions of its
      Builds. */
  lemma BuildsRunsMembers(app: App, builds: seq<Build>, repo: string, branch: string, r: Run)
    ensures r in BuildsRuns(app, builds, repo, branch) <==>
      r.app == app && exists j :: 0 <= j < |builds| && r.build == builds[j] && r.branch in Selected(builds[j], repo, branch)
  {
    var f := (b: Build) => RunsFor(app, b, Selected(b, repo, branch));
    ConcatMapMembers(builds, f, r);
    forall j | 0 <= j < |builds|
      ensures r in f(builds[j]) <==> r.app == app && r.build == builds[j] && r.branch in Selected(builds[j], repo, branch)
    {
      RunsForMembers(app, builds[j], Selected(builds[j], repo, branch), r);
    }
  }

  /** Every run an event starts is one selected description of one Build of
      one App of the catalog, and every such description is run. */
  lemma RunsMembers(apps: seq<App>, repo: string, branch: string, r: Run)
    ensures r in Runs(apps, repo, branch) <==>
      exists i, j :: 0 <= i < |apps| && 0 <= j < |apps[i].builds| && r.app == apps[i] &&
        r.build == apps[i].builds[j] && r.branch in Selected(apps[i].builds[j], repo, branch)
  {
    var f := (a: App) => BuildsRuns(a, a.builds, repo, branch);
    ConcatMapMembers(apps, f, r);
    forall i | 0 <= i < |apps|
      ensures r in f(apps[i]) <==>
        r.app == apps[i] && exists j :: 0 <= j < |apps[i].builds| && r.build == apps[i].builds[j] && r.branch in Selected(apps[i].builds[j], repo, branch)
    {
      BuildsRunsMembers(apps[i], apps[i].builds, repo, branch, r);
    }
  }

  // ---------------------------------------------------------------------
  // The service

  /** The trigger entry points over the process-wide catalog. */
  class Service {
    const git: GitConfig
    const catalog: Catalog

    constructor (git: GitConfig, catalog: Catalog)
      ensures this.git == git && this.catalog == catalog
    {
      this.git, this.catalog := git, catalog;
    }

    /** The catalog `triggerFrom` matches against: reloaded first iff the
        event is for the catalog's own repository and branch. */
    function Snapshot(prev: Project, repo: string, branch: string, fetch: AppsFetch,
                      getApp: AppDesc -> Result<App>): Project
      reads catalog
    {
      if repo == catalog.appsRepo.repo && branch == catalog.appsRepo.branch then Reload(prev, fetch, getApp) else prev
    }

    /** `triggerFrom`: reload when the event is for the catalog, then start
        every selected run on that one snapshot. `runBuild`'s outcome is
        ignored: `outcomes` are those of the runs, and none stops the next. */
    method TriggerFrom(repo: string, branch: string, fetch: AppsFetch, getApp: AppDesc -> Result<App>,
                       runBuild: Run -> Option<string>) returns (runs: seq<Run>, outcomes: seq<Option<string>>)
      modifies catalog
      ensures catalog.current == Snapshot(old(catalog.current), repo, branch, fetch, getApp)
      ensures runs == Runs(catalog.current.apps, repo, branch)
      ensures |outcomes| == |runs| && forall k :: 0 <= k < |runs| ==> outcomes[k] == runBuild(runs[k])
    {
      if repo == catalog.appsRepo.repo && branch == catalog.appsRepo.branch {
        catalog.Update(fetch, getApp);
      }
      var config := catalog.current;
      runs := CollectRuns(config.apps, repo, branch);
      outcomes := [];
      for k := 0 to |runs|
        invariant |outcomes| == k && forall m :: 0 <= m < k ==> outcomes[m] == runBuild(runs[m])
      {
        var outcome := runBuild(runs[k]);
        outcomes := outcomes + [outcome];
      }
    }

    /** `triggerFromURL`: an URL without an allowed prefix is ignored; an
        accepted one loses its prefix and one trailing `.git`, the event is
        dispatched, and the answer is yes whether or not anything matched. */
    method TriggerFromURL(u: string, branch: string, fetch: AppsFetch, getApp: AppDesc -> Result<App>,
                          runBuild: Run -> Option<string>) returns (ok: bool, runs: seq<Run>)
      modifies catalog
      ensures ok == CutAllowed(git, u).1
      ensures !ok ==> runs == [] && catalog.current == old(catalog.current)
      ensures ok ==>
        var repo := EventRepo(git, u);
        && catalog.current == Snapshot(old(catalog.current), repo, branch, fetch, getApp)
        && runs == Runs(catalog.current.apps, repo, branch)
    {
      var repo;
      repo, ok := CutAllowedPrefix(git, u);
      if !ok {
        return false, [];
      }
      repo := TrimSuffix(repo, ".git");
      var outcomes;
      runs, outcomes := TriggerFrom(repo, branch, fetch, getApp, runBuild);
      return true, runs;
    }
  }

  /** The repository an accepted URL names. */
  function EventRepo(git: GitConfig, u: string): string {
    TrimSuffix(CutAllowed(git, u).0, ".git")
  }

  /** The repository of an accepted URL is the URL without its first
      matching prefix and without one trailing `.git`: the URL built for a
      repository by `gitURL`, with or without `.git`, names that
      repository. */
  lemma EventRepoOfGitURL(git: GitConfig, repo: string)
    requires !HasSuffix(repo, ".git")
    ensures CutAllowed(git, GitURL(git, repo)).1 && EventRepo(git, GitURL(git, repo)) == repo
    ensures CutAllowed(git, GitURL(git, repo + ".git")).1 && EventRepo(git, GitURL(git, repo + ".git")) == repo
  {
    CutGitURL(git, repo);
    CutGitURL(git, repo + ".git");
    var r := repo + ".git";
    assert r[|r| - 4..] == ".git";
  }

  // ---------------------------------------------------------------------
  // The older `runBuild`: the YAML-set substituted through the catalog's pointer

  /** A deploy step's YAML-set as the older `runBuild` reaches it: through a
      pointer into the catalog, so writing its value changes the catalog. */
  class SharedYamlSet {
    const file: string
    const path: string
    var value: string

    constructor (op: YamlSetOp)
      ensures file == op.file && path == op.path && value == op.value
    {
      file, path, value := op.file, op.path, op.value;
    }

    function Op(): YamlSetOp
      reads this
    {
      YamlSetOp(file, path, value)
    }

    /** `set.Value = strings.ReplaceAll(set.Value, "${IMAGE_TAG}", imageTag)`
        on the shared value; the set applied is the rewritten one. */
    method Substitute(imageTag: string) returns (applied: YamlSetOp)
      modifies this
      ensures value == ReplaceAll(old(value), ImageTagToken, imageTag)
      ensures applied == Substituted(old(Op()), imageTag) && applied == Op()
    {
      value := ReplaceAll(value, ImageTagToken, imageTag);
      applied := Op();
    }
  }

  /** After one run whose tag shares no character with the token, the
      catalog's value no longer holds the token, so every later run, whatever
      its tag, writes the first run's value again. */
  lemma {:induction false} FirstTagSticks(value: string, tag1: string, tag2: string)
    requires tag1 != [] && Disjoint(tag1, ImageTagToken)
    ensures !Occurs(ReplaceAll(value, ImageTagToken, tag1), ImageTagToken)
    ensures ReplaceAll(ReplaceAll(value, ImageTagToken, tag1), ImageTagToken, tag2) == ReplaceAll(value, ImageTagToken, tag1)
  {
    ReplaceAllRemoves(value, ImageTagToken, tag1);
    ReplaceAllAbsent(ReplaceAll(value, ImageTagToken, tag1), ImageTagToken, tag2);
  }

  /** A step whose value is only the placeholder, run for tag `abc1234` and
      then for `def5678`: through the shared value the second run writes
      `abc1234` again. */
  lemma AsWrittenSecondRunStale()
    ensures var v1 := ReplaceAll(ImageTagToken, ImageTagToken, "abc1234");
      v1 == "abc1234" && ReplaceAll(v1, ImageTagToken, "def5678") == "abc1234"
  {
    TokenAloneTakesTag("abc1234");
    HexTagAvoidsToken("abc1234");
    FirstTagSticks(ImageTagToken, "abc1234", "def5678");
  }

  /** Two older runs of the same step: the second applies the first's tag. */
  method TwoOlderRuns(cell: SharedYamlSet, tag1: string, tag2: string) returns (first: YamlSetOp, second: YamlSetOp)
    requires tag1 != [] && Disjoint(tag1, ImageTagToken)
    modifies cell
    ensures first == Substituted(old(cell.Op()), tag1)
    ensures second == first && cell.Op() == first
  {
    first := cell.Substitute(tag1);
    FirstTagSticks(old(cell.value), tag1, tag2);
    second := cell.Substitute(tag2);
  }
}
