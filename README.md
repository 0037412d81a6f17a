# gitops-builder core, modelled in Dafny

gitops-builder is a continuous-delivery trigger service. A git push event
names a repository and a branch. The dispatcher reloads the application
catalog when the event is for the catalog's own repository, then selects every
App / Build / branch description the event matches. Each match is a build run:

- fetch the source branch (and an overlay branch, whose files are copied over
  the source);
- name the image from the branch tips (short hash, exact tag or `git describe`);
- build the image unless the engine already has it, push it, and prune old
  images of the repository;
- fetch the deploy repository, run the Build's deploy steps (scripts and YAML
  key-path sets), then commit and push the result;
- notify the outcome.

This project models that core:

- the dispatcher (`main.go` `triggerFromURL`, `triggerFrom`);
- the catalog reload (`apps.go` `updateApps`);
- the repository URL rules and the git synchroniser (`git.go` `gitURL`,
  `cutAllowedPrefix`, `FetchBranch`, `CleanBranch`);
- tip naming (`Tag`, `Describe`);
- the build run (`build.go` `BuildRun.Run`);
- the YAML path-set engine (`yaml-set.go` `YamlSet.Apply`).

It proves the properties those functions promise.

Modules, one file each:

| file | module | what it holds |
|---|---|---|
| wrappers.dfy | `Wrappers` | `Option` and `Result` |
| text.dfy | `Text` | the `strings` operations the core uses: prefix cut, suffix trim, `ReplaceAll`, `Split`, Go's string order, `%d` |
| apps.dfy | `Apps` | the catalog types; `Reload` and the `Catalog` class holding `currentProject` |
| git_url.dfy | `GitUrl` | `gitURL` and `cutAllowedPrefix` |
| git_repo.dfy | `GitRepo` | mirrors and worktrees on disk as maps; `FetchBranch` and `CleanBranch` as methods of a `Disk` class, each proved equal to a specification function |
| git_tag.dfy | `GitTag` | `Tag` and `Describe` |
| yamlset.dfy | `YamlSet` | the yaml.v3 node tree; `Apply` as a cursor walk proved against the recursive `SetPath` |
| build_steps.dfy | `BuildSteps` | the pure parts of a run: image naming, the `docker build` arguments, the overlay copy filter, retention, deploy steps, status and commit |
| build_run.dfy | `BuildRun` | the `BuildRun` class and its `Run` method over a `Disk`; external outcomes are an `Env` record |
| dispatch.dfy | `Dispatch` | run selection; the `Service` class with `TriggerFrom` and `TriggerFromURL`; the shared-pointer variant of the older `runBuild` |

Where the environment decides something, it is a parameter:

- git servers: a map from URL to remote repository;
- local I/O faults: flags per directory;
- image engine answers: functions of the image reference;
- deploy scripts: a function from script, tag and files to the files left;
- YAML parse/serialise: functions `parse` and `marshal`;
- commit hash and push outcome: values.

A run's external actions are returned as a sequence of `Effect` values, in
the order the source performs them.

Two points of the program need care:

- `triggerFrom` hands each match to the older `runBuild` (main.go:136), not
  to `BuildRun.Run`. `BuildRun.Run` is the pipeline modelled in full. The
  dispatcher returns the selected runs as values. Of the ways `runBuild`
  differs from `BuildRun.Run`, the one modelled is its in-place `YamlSet`
  rewrite, separately; the others are listed under "## Left out".
- The comment at build.go:224 says retention keeps the latest five images.
  As written, the filter at build.go:235 matches none of the repository's
  own tags, so nothing is removed. If that filter were fixed, the
  oldest-first sort at build.go:247-253 would remove the newest image. See
  Findings: the model keeps the as-written
  behaviour as lemmas and uses the intended behaviour in `Run`.

At build.go:207 the base `docker build` arguments are re-emitted as
`--build-arg` values. This is modelled as written
(`BuildSteps.DockerArgsLayout`). The older `runBuild` (main.go:292) does not
re-emit them.

## Model

| member | source | states |
|---|---|---|
| Text.CutPrefix | git.go:58 | `strings.CutPrefix`: ok iff `s` starts with `p`, and then `p` + rest == `s` |
| Text.TrimSuffix | main.go:90 | one trailing `.git` is removed when present; otherwise the text is unchanged |
| Text.SplitJoin | yaml-set.go:37 | `strings.Split` on `/` gives one piece more than there are separators, and no piece holds one; joining gives the path back |
| Text.ReplaceAllRemoves | build.go:299 | after `ReplaceAll` by a text sharing no character with `${IMAGE_TAG}`, the placeholder occurs nowhere |
| Text.ReplaceAllAbsent | main.go:345 | replacing an absent placeholder changes nothing |
| Text.LessTotal | git.go:260 | Go's string `<` is total on distinct strings (with `LessTransitive`, `LessIrreflexive`), so "greatest tag name" is well defined |
| Text.NatToString | git.go:293 | `%d` formatting of the describe depth: non-empty decimal digits whose value (`DigitsValue`) is the number, with a leading `0` only for zero |
| Apps.Decode | apps.go:85-93 | strict decoding: an empty document is `EOF` and a malformed one (syntax or type error) its error; otherwise succeeds iff every key of the document and of each entry is declared and none repeats, and the result is the entries in order |
| Apps.LoadedAppsInOrder | apps.go:95-105 | the loaded Apps are exactly the successful loads: each comes from a successful descriptor, positions increase, none is missed |
| Apps.AllLoaded | apps.go:95-105 | when every entry loads, the Apps are the loads of all entries, one for one |
| Apps.Reload | apps.go:28-112 | any failure before decoding, or a decode error (an empty `apps.yaml` included), keeps the previous catalog; otherwise the catalog is the decoded descriptors and exactly the Apps that load from them, in order (`LoadedApps`, described by `LoadedAppsInOrder`) |
| Apps.LoadApps | apps.go:95-105 | the loop that skips failing entries yields `LoadedApps` |
| Apps.Catalog.Update | apps.go:28-112 | the catalog is replaced all at once by `Reload` of the old one, or stays |
| GitUrl.CutAllowedPrefix | git.go:57-71 | the loop over `--git-prefix`, then the allowed prefixes, equals the reference search `CutAllowed` |
| GitUrl.FirstCutSpec | git.go:57-71 | accepted iff some prefix matches; the base is the URL without the first matching prefix, no earlier prefix matching; a rejected URL comes back unchanged |
| GitUrl.CutGitURL | git.go:53-61 | round trip: the URL `gitURL` builds is accepted and gives the repository back |
| GitUrl.EmptyPrefixAcceptsAll | git.go:58 | with an empty `--git-prefix` every URL is accepted unchanged |
| GitRepo.CloneFrom | git.go:88-104 | a clone is readable with `origin` the URL; its errors are `failed to clone <url>: …` |
| GitRepo.FetchFrom | git.go:118-127 | a fetch from `origin` keeps the URLs and adds branches and objects without pruning |
| GitRepo.FetchFromIdempotent | git.go:118-127 | fetching again from unchanged remotes changes nothing ("already up to date") |
| GitRepo.HardReset | git.go:178-181 | HEAD's branch points at the commit and the index is its tree; nothing else in the mirror changes; tracked files take its content; untracked files stay |
| GitRepo.Checkout | git.go:171-176 | as written (create and force): the checkout changes only the local branches, HEAD and files, never references, objects or origin |
| GitRepo.SwitchBranch | git.go:171-176 | corrected checkout: HEAD is on `branch` afterwards, whether or not it existed; references, objects and origin stay |
| GitRepo.Synced | git.go:171-181 | checkout then reset: HEAD is on `branch`; references, objects and origin stay |
| GitRepo.CleanUntracked | git.go:183-188 | exactly the tracked files remain, unchanged |
| GitRepo.ResetThenCleanIsCommit | git.go:178-188 | reset then clean leaves exactly the commit's tree |
| GitRepo.CleanBranchSpec | git.go:138-191 | only the worktree and its mirror change; with mkdir working the worktree exists afterwards; success leaves HEAD on `branch` |
| GitRepo.CleanBranchResult | git.go:138-191 | fails iff mkdir fails, the mirror is missing or unreadable, the branch is missing (`reference not found`) or clean fails; on success with a working reset the worktree is exactly `origin/<branch>` and HEAD points there |
| GitRepo.AsWrittenDriftPersists | git.go:112-116 | as written, a drifted mirror survives the purge of the worktree, so the next pass is drifted again |
| GitRepo.AsWrittenDriftNeverEnds | git.go:86-116 | as written, the retry loop never ends on a drifted mirror, however many passes it gets |
| GitRepo.Acquire | git.go:86-116 | with the purge corrected, success leaves a readable mirror whose origin holds the URL; without drift the worktrees are untouched |
| GitRepo.DriftIsHealed | git.go:112-116 | corrected: a drifted mirror is replaced by a fresh clone whose only origin is the URL, and the stale worktree is gone |
| GitRepo.FetchBranchSpec | git.go:77-136 | success leaves the mirror with the URL, HEAD on `branch` and the worktree present; only the target directory and its mirror change |
| GitRepo.FetchErrorSkipsClean | git.go:118-127 | a fetch error is returned before `CleanBranch`: no worktree changes |
| GitRepo.FetchBranchIdempotent | git.go:77-136 | a second `FetchBranch` against unchanged remotes succeeds and leaves the worktree as the first did |
| GitRepo.Disk.RemoveAllAt | git.go:114 | `os.RemoveAll` drops the path from the disk |
| GitRepo.Disk.CleanBranch | git.go:138-191 | the method's error and new disk equal `CleanBranchSpec` |
| GitRepo.Disk.FetchBranch | git.go:77-136 | the `retry` loop (at most two passes) with fetch and clean: error and new disk equal `FetchBranchSpec` |
| GitTag.BranchRef | git.go:206-213 | resolves iff the mirror is readable and has `origin/<branch>`; the hash is that reference's |
| GitTag.Short | git.go:221 | the tag is the first 7 characters of the hash |
| GitTag.TagIsShortHash | git.go:215-233 | without exact tags, or with no tag object at the tip, the tag is the tip's 7-character short hash |
| GitTag.ExactTagResult | git.go:223-229 | as written, exact mode: a tag object stored under the tip's hash gives its name; fails iff the reference fails or the object is unreadable; in a well-formed mirror (branches point at commits, no commit hash is a tag object's) it is always the short hash |
| GitTag.ExactTag | git.go:223-229 | corrected exact mode: the reference error as is; an untagged tip gives the short hash; a tagged tip gives the greatest name among the tags whose target is the tip |
| GitTag.GreatestAtStep | git.go:223-229 | one more tag reference keeps "the greatest name seen so far tagging the tip" |
| GitTag.AsWrittenExactTagIgnoresTags | git.go:223-229 | as written, a tip with a tag still gets its short hash, while the corrected lookup names a tag on the tip that is at least as great |
| GitTag.TagTarget | git.go:248-258 | a tag reference resolves to a commit present in the store, otherwise to the wrapped error |
| GitTag.GreatestExists | git.go:260-262 | every non-empty set of tag names has a greatest element |
| GitTag.TagMapStep | git.go:259-262 | one visited tag keeps `commitsTag` a map from each tagged commit to the greatest name seen |
| GitTag.TagMapComplete | git.go:247-264 | after all tags, `commitsTag` is `TaggedCommits`: each tagged commit with its greatest tag name |
| GitTag.TaggedCommitKeepsGreatest | git.go:259-262 | the kept name targets that commit and no tag on it has a greater name |
| GitTag.CollectTags | git.go:241-267 | succeeds iff every tag resolves, giving `TaggedCommits`; otherwise fails with some failing tag's error |
| GitTag.VisitTags | git.go:247-264 | the loop over tag references keeps the `commitsTag` invariant or returns a failing tag's error |
| GitTag.WalkLog | git.go:278-297 | the log loop equals the reference walk `DescribeWalk` |
| GitTag.WalkFindsFirstTag | git.go:282-297 | with the first tagged commit at position `k`, the walk yields its tag, plus `-k-g<tip7>` when `k > 0` |
| GitTag.WalkWithoutTags | git.go:278-297 | with no tagged commit, the walk yields the short hash |
| GitTag.Describe | git.go:235-303 | the reference error comes through as is; success iff every tag resolves and the tip commit exists, with the walked name; otherwise the log or tag error |
| GitTag.DescribeCases | git.go:282-297 | a tagged tip gives its tag; `k` untagged commits before the first tagged one give `<tag>-k-g<tip7>`; no tag gives the short hash |
| YamlSet.SetString | yaml-set.go:71 | the node becomes a `!!str` scalar holding the value, keeping content, anchor and comments |
| YamlSet.FindFrom | yaml-set.go:46-54 | the pair scan finds the first key at an even position with a value after it, or none |
| YamlSet.Descend | yaml-set.go:38-66 | one walk step yields a mapping and a value position inside it |
| YamlSet.SetPathOneLevel | yaml-set.go:37-69 | a non-mapping becomes a mapping with only the new pair; in a mapping only the first matching key's value changes, or a pair is appended |
| YamlSet.SetPathWellFormed | yaml-set.go:37-69 | setting keeps every mapping's keys and values paired |
| YamlSet.SetThenGet | yaml-set.go:37-71 | round trip: after setting, the same path reaches a string scalar holding the value |
| YamlSet.OffPathUnchanged | yaml-set.go:37-71 | any node reached by a path that leaves the set path is unchanged, comments included |
| YamlSet.SetPathIdempotent | yaml-set.go:37-71 | setting twice is setting once |
| YamlSet.ApplyTreeSets | yaml-set.go:23-71 | the value ends up `Count(path,'/')+1` levels below the document's first node; an empty document gets one mapping; the rest of a document is untouched |
| YamlSet.ApplyTreeIdempotent | yaml-set.go:15-74 | applying the same set to its own tree gives the same tree |
| YamlSet.ApplyText | yaml-set.go:15-21 | a parse error is returned as is |
| YamlSet.ApplyTextTwice | yaml-set.go:15-74 | when the library reads back what it writes, applying twice gives the same text as once |
| YamlSet.ExampleSet | yaml-set_test.go:11-61 | the package example: `a/b/c` turns the scalar under `a/b` into a mapping holding `c: new value`; the comments and `x`, `a/x` stay |
| YamlSet.ExamplePath | yaml-set_test.go:13 | the path `a/b/c` splits into three segments |
| YamlSet.PlugDescend | yaml-set.go:39-68 | moving the cursor one level down does not change the tree it stands for |
| YamlSet.Step | yaml-set.go:38-66 | the loop body (mapping check, pair scan, append) equals the step `Descend` |
| YamlSet.Apply | yaml-set.go:15-74 | the cursor walk with in-place updates equals `ApplyText` |
| BuildSteps.OverlayTagsAreDistinct | build.go:165-180 | a tag with an overlay never equals one without, as long as the plain tag has no `_` |
| BuildSteps.ImageRefCut | build.go:182-187 | the image reference gives its tag back once `<name>:` is cut off |
| BuildSteps.BuildArgPairsAt | build.go:207-211 | each value lands right after its own `--build-arg` |
| BuildSteps.DockerArgs | build.go:193-211 | the argument count is 3×base + 2×(App + Build + branch extras) |
| BuildSteps.DockerArgsLayout | build.go:193-211 | the base comes first; then the base, App, Build and branch values, in that order, each after `--build-arg` |
| BuildSteps.AppendBuildArgs | build.go:208-210 | the inner loop appends the values' `--build-arg` pairs |
| BuildSteps.BuildDockerArgs | build.go:207-211 | the nested loops over the list built before them yield `DockerArgs` |
| BuildSteps.BaseOfJoin | build.go:116 | `filepath.Base` of `dir/name` is `name` |
| BuildSteps.OverlaySkipsGitPaths | build.go:113-115 | nothing whose path starts with `.git` is copied |
| BuildSteps.OverlaySkipsGitignore | build.go:116-118 | no `.gitignore` is copied, at any depth |
| BuildSteps.OverlayCopiesFiles | build.go:113-120 | any other file below a directory not starting with `.git` is copied |
| BuildSteps.Overlaid | build.go:99-145 | after the files of `done`, the tree has the source files plus the copied ones; all else is unchanged |
| BuildSteps.OverlaidStep | build.go:120-142 | one more file: written with the overlay's content, keeping an existing file's mode |
| BuildSteps.OverlayResult | build.go:99-145 | after the whole walk: copied files take the overlay's content and an existing file's mode; other source files stay |
| BuildSteps.OverlayIdempotent | build.go:99-145 | copying the overlay twice is copying it once |
| BuildSteps.CopyOverlay | build.go:99-149 | succeeds iff no copied file faults, giving `OverlayResult`; otherwise some faulty copied file's error (`open` of either file, or the copy): a failed copy removes the target, a failed open leaves it as it was; only copied files ever differ from the source |
| BuildSteps.MatchingMembers | build.go:232-244 | an entry is collected iff it is a listed tag of a listed image that starts with the prefix, with that image's id and creation time |
| BuildSteps.CollectMatching | build.go:232-244 | the two loops over images and tags yield `Matching` |
| BuildSteps.SortNewestFirst | build.go:246-250 | (corrected order) the array is sorted newest first and is a permutation of its old contents |
| BuildSteps.InsertNewest | build.go:246-250 | one insertion step extends the sorted prefix and keeps the multiset |
| BuildSteps.Retention | build.go:224-258 | (corrected) the repository's tags are sorted newest first, a permutation of the matches; the removed tags are those past the fifth and carry the prefix |
| BuildSteps.TagsPast | build.go:252-257 | the removal loop takes the tags past position five |
| BuildSteps.AsWrittenPrefixMissesOwnTags | build.go:235 | as written, the filter `<name>:<tag>:` matches no tag `<name>:<t>` of the repository |
| BuildSteps.AsWrittenRetentionSkipsRepository | build.go:233-244 | as written, no collected entry is a tag of the repository being built |
| BuildSteps.AsWrittenRemovesNewest | build.go:247-257 | as written, sorting oldest first and removing from position five removes the newest image and keeps the oldest five |
| BuildSteps.RetentionKeepsNewest | build.go:246-258 | corrected: every image is kept or removed, and no removed image is newer than a kept one |
| BuildSteps.TokenAloneTakesTag | build.go:299 | a value that is only `${IMAGE_TAG}` becomes the tag |
| BuildSteps.EachRunWritesOwnTag | build.go:294-299 | corrected: substituting on a copy, every run of a placeholder step writes its own tag; different tags write different values |
| BuildSteps.YamlSetStep | build.go:293-319 | a missing file is an `open … no such file or directory` error; success rewrites only that file, with the applied text and its old mode |
| BuildSteps.StepsAppend | build.go:267-320 | the steps run in order, and the first error ends them |
| BuildSteps.FailedStepKeepsEarlierWrites | build.go:267-320 | a failing step ends the run of steps with its error, and the checkout keeps what the steps before it wrote |
| BuildSteps.YamlStepWritesTag | build.go:293-319 | the written file holds the substituted value at the path; with a hex tag no placeholder is left |
| BuildSteps.HexTagAvoidsToken | build.go:299 | a hexadecimal tag shares no character with the placeholder |
| BuildSteps.DeploySteps | build.go:267-320 | the loop over the deploy steps equals `StepsSpec`, including the files left behind when a step fails |
| BuildSteps.StatusEmptyIffClean | build.go:334-343 | the status is empty iff the worktree is HEAD's tree |
| BuildSteps.CommitAll | build.go:355-361 | after the commit, HEAD's tree is the worktree and HEAD's branch (and no other) points at the commit; origin and remote references stay |
| BuildSteps.AsWrittenCommitMissesBranch | build.go:355-383 | as written, when the deploy branch already exists and HEAD is elsewhere, the commit moves HEAD's branch and the pushed deploy branch keeps its old commit |
| BuildSteps.CommitLandsOnBranch | build.go:355-383 | with the corrected checkout, the commit lands on the deploy branch, the one pushed, and HEAD's tree is the committed worktree |
| BuildRun.NameTip | build.go:155-159 | the tip name is `Describe`, the corrected exact tag or the short hash, as the settings say |
| BuildRun.Removals | build.go:252-257 | one `ImageRemove` per removed tag, in order |
| BuildRun.RemovalsAppend | build.go:252-257 | removals of a concatenation concatenate |
| BuildRun.Prune | build.go:224-258 | a listing yields the corrected retention's removals; a failed listing removes nothing; every removed tag has the `<name>:` prefix |
| BuildRun.RemoveImages | build.go:252-257 | the removal effects are appended after those so far |
| BuildRun.BuildRun.DirsDistinct | build.go:77-91 | the source, overlay and deploy directories and their mirrors are six distinct paths |
| BuildRun.BuildRun.Sources | build.go:77-150 | fetch the source, then the overlay and its copy; only the build directories change; errors are wrapped `failed to fetch source/overlay: …` |
| BuildRun.BuildRun.Overlay | build.go:88-150 | the overlay fetch error, wrapped, with the fetch's disk; or the copy over the source checkout |
| BuildRun.BuildRun.CopyOver | build.go:99-149 | the copy's outcome on the disk: only the source checkout changes, as `CopyOverlay` says |
| BuildRun.BuildRun.Naming | build.go:153-187 | the source tip's naming error as `failed to get source tag: …`, then (with an overlay) the overlay's as `failed to get overlay tag: …`; otherwise the names from both tags |
| BuildRun.BuildRun.NamingFollows | build.go:153-187 | a successful naming names the tips of the checkouts, and the image after their tags |
| BuildRun.BuildRun.BuildImage | build.go:189-217 | no build when the image exists; otherwise one `docker build` with the run's arguments, whose outcome is the error |
| BuildRun.BuildRun.Image | build.go:189-258 | a build error stops before the push; a push error stops before pruning; otherwise the pushed image is followed by the pruning |
| BuildRun.BuildRun.Deploy | build.go:260-386 | a fetch error is returned unwrapped with the fetch's disk; a step error is returned with the checkout the steps left; otherwise the commit stage's outcome; only the deploy directories change |
| BuildRun.BuildRun.StepAndCommit | build.go:267-386 | the deploy steps' files are stored; a step error ends it; otherwise the commit stage runs on them |
| BuildRun.BuildRun.CommitDeploy | build.go:322-386 | no change: success, no effects, nothing changes; a failing add: `failed to add change: …`, the mirror left as it was (staged adds left out); a failed commit: `failed to commit on deploy: …`, the mirror left as it was (staged adds left out); otherwise only the deploy mirror changes, to the commit of the worktree, and the effects are the commit and the push, whose outcome is the error |
| BuildRun.BuildRun.CommittedFacts | build.go:322-386 | the commit stage has no effects or the commit and push; a success leaves the deploy checkout committed |
| BuildRun.BuildRun.DeployOutcomeFacts | build.go:260-386 | the same for the whole deploy stage |
| BuildRun.BuildRun.DeployCommitOnDeployBranch | build.go:355-383 | (corrected checkout) the deploy commit is on the deploy branch, HEAD is there, its tree is the checkout, and the push names that branch |
| BuildRun.BuildRun.WorkNeverNotifies | build.go:47-53 | the work before the deferred notification holds no notification |
| BuildRun.BuildRun.NotifiedLast | build.go:47-53 | the deferred notification is the last effect and the only one |
| BuildRun.BuildRun.Ship | build.go:189-386 | a build error: that error and the build, nothing changes; a push error: that error, build and push, nothing changes; otherwise build, push and removals of the pruned tags, then the deploy stage's effects, error and disk; only the deploy directories change |
| BuildRun.BuildRun.ShippedFacts | build.go:189-386 | that stage always has an effect, has one of the four shapes, and on success includes the push and leaves the deploy checkout committed |
| BuildRun.BuildRun.PushedThenDeployed | build.go:219-386 | a pushed run's effects with a deploy part are of the third or fourth shape and hold the push |
| BuildRun.BuildRun.Work | build.go:55-386 | a log-file error changes nothing; then each stage in order (sources, naming, image and deploy), the first error ending the run with the disk as that stage left it and no later effect; only the six directories change |
| BuildRun.BuildRun.WorkedFacts | build.go:55-386 | the work has one of the four shapes; once anything was done the names follow from the tags; success means image pushed and deploy committed |
| BuildRun.BuildRun.Run | build.go:29-387 | without a docker client nothing happens; otherwise the stages as `Work` states them, then exactly one notification saying success or `failed: <err>`; success means image pushed, names following from the tips, deploy committed |
| Dispatch.BranchesOn | main.go:112-128 | the selection is no longer than the list |
| Dispatch.RunsFor | main.go:135-137 | one run per selected description |
| Dispatch.BranchesOnMembers | main.go:112-120 | a description is selected iff it is in the list and its branch is the event branch |
| Dispatch.BranchesOnAppend | main.go:112-128 | the selection keeps list order |
| Dispatch.SelectedMembers | main.go:111-129 | by source branch for the Build's source repository; by overlay branch only for its overlay repository; nothing otherwise |
| Dispatch.SourceShadowsOverlay | main.go:111-128 | when source and overlay are the same repository, only the source branch matches |
| Dispatch.EmptyOverlayMatchesEmptyRepo | main.go:121-128 | a Build without overlay matches an empty repository by its empty overlay branches |
| Dispatch.RunsForMembers | main.go:135-137 | the runs of a selection are its descriptions with that App and Build |
| Dispatch.BuildsRunsMembers | main.go:108-137 | the runs of an App are the selected descriptions of its Builds |
| Dispatch.RunsMembers | main.go:107-139 | every run is a selected description of a Build of an App of the catalog, and every such description runs |
| Dispatch.RunsAppend | main.go:107 | runs follow App order |
| Dispatch.BuildsRunsAppend | main.go:108 | runs follow Build order within an App |
| Dispatch.CollectRuns | main.go:107-139 | the scan's loops yield `Runs` |
| Dispatch.AppendAppRuns | main.go:108-139 | the Builds of one App append their runs in order |
| Dispatch.SelectBranches | main.go:109-129 | the `switch` fills a fresh list equal to `Selected` |
| Dispatch.AppendRuns | main.go:135-137 | one run appended per selected description |
| Dispatch.Service.TriggerFrom | main.go:97-140 | reload iff the event is the catalog's repository and branch; the runs are `Runs` of that snapshot; every run is issued and its outcome ignored |
| Dispatch.Service.TriggerFromURL | main.go:81-95 | a URL without an allowed prefix is ignored and changes nothing; otherwise the prefix and one `.git` are removed, the event is dispatched, and the answer is yes |
| Dispatch.EventRepoOfGitURL | main.go:84-90 | the URL `gitURL` builds for a repository, with or without `.git`, is accepted and names that repository |
| Dispatch.SharedYamlSet.Substitute | main.go:342-345 | the older `runBuild` rewrites the catalog's value in place, and applies the rewritten set |
| Dispatch.FirstTagSticks | main.go:342-345 | after one run with a hex tag, the catalog's value holds no placeholder, so every later run writes the first run's value |
| Dispatch.AsWrittenSecondRunStale | main.go:342-345 | for the value `${IMAGE_TAG}` and runs tagged `abc1234` then `def5678`, the second writes `abc1234` |
| Dispatch.TwoOlderRuns | main.go:136-142 | two older runs of one step: the second applies the first's set |

## Left out

- Logging, the log file's contents and the log directory; a log-file creation failure is a parameter. The Slack notification POST is represented by a `Notify` effect with its text.
- The build ID (a ULID from the clock and randomness) and `time.Now` in the commit signature are parameters or left out.
- `globalLock` and concurrency: `triggerFrom` is modelled as one sequential call.
- Reading the environment and flags (`SSH_AUTH_SOCK`, `--docker-prefix`, `--work-dir`, `useExactTag`, `tagDescribe`, `builderURL`): these are read into fields of `Settings`.
- `image-push.go` (`pushImage`), `docker.go` and the Docker API: their outcomes are functions of the image reference in `Env`. The `ImageList` error assigned at build.go:232 is overwritten later and has no effect, so it is modelled as "no removals".
- Library error texts (go-git, os, yaml) are modelled as fixed strings such as `input/output error`. The wrapping prefixes of the source are kept.
- YAML text: parsing and serialising are the parameters `parse` and `marshal`. Aliases, line and column positions and invalid UTF-8 are not modelled.
- `AppDesc.GetApp` (app-desc.go) and the clone of the apps repository are parameters (`getApp`, `AppsFetch`).
- The git object model is reduced to commit trees, tag objects and references. `repo.Log`'s commit order is the parameter `history`. The `Open`/`Worktree`/`Status` failures of the deploy repository (build.go:322-338) are not modelled.
- `filepath.Abs` for the script mount and the script container are a `ScriptRunner` parameter. Path cleaning by `filepath.Join` is not modelled.
- The rest of the older `runBuild` (main.go:142-400) and the helper copies at main.go:446-586 are not modelled; only its `YamlSet` rewrite is. It differs from `BuildRun.Run` also in that it never prunes images (main.go:304-311), omits `--network=host` and the re-emitted base arguments (main.go:279-296), has no `--tag-describe` (main.go:252), and notifies without the log link (main.go:145).
- Dispatch.Service.TriggerFrom: each run's outcome is a function of the run, so the runs are modelled as leaving the catalog unchanged (the corrected behaviour). The older `runBuild` it calls rewrites `set.Value` through the catalog's shared `*YamlSet`, so the catalog changes and a later run of the same Build sees the rewritten value; that is modelled apart by `Dispatch.SharedYamlSet.Substitute` and `Dispatch.TwoOlderRuns` (Findings).
- BuildSteps.CopyOverlay: `filepath.Walk` visits files in lexical order. The model leaves the order open, so on failure it states only that some faulty copied file stops the walk.
- GitTag.CollectTags: the order in which go-git lists tag references is left open, so on failure the contract names some failing tag rather than the first.
- BuildRun.BuildRun.CommitDeploy: the order of the status map is left open. Only whether some add fails matters, since every add error reads the same.
- BuildRun.BuildRun.CommitDeploy: on a failing add or a failed commit, the adds already made stay staged in the deploy mirror's index (build.go:346-365); the model leaves the mirror as it was. The next run's hard reset (git.go:178-181) clears the index, and `Committed`, `Deploy`, `Ship`, `Work` and `Run` inherit this simplification.
- GitRepo.CleanUntracked: go-git's `Clean` keeps the files `.gitignore` excludes; the model has no ignore rules and removes every untracked file.
- BuildSteps.Status: go-git's `Status` leaves out untracked files that `.gitignore` excludes; the model reports them.
- BuildSteps.StatusEmptyIffClean: because of that, it is proved for the model's status, which counts ignored files as changes.
- GitRepo.CleanBranchSpec, GitRepo.Disk.CleanBranch: use the corrected checkout `SwitchBranch`; the as-written `Checkout`, which fails on an existing branch, is kept with a lemma (Findings).
- BuildRun.NameTip: with `--exact-tag` uses the corrected lookup `ExactTag`; the as-written `Tag` is kept with a lemma (Findings).
- GitRepo.Disk.FetchBranch: models the retry as corrected (at most two passes). The as-written endless loop is the `AsWrittenLoop` function with lemmas (Findings).
- BuildRun.Prune: models the corrected retention. The as-written prefix and sort are lemmas (Findings).

## Findings

| source | as written | input that shows it | evidently intended | confidence | as-written member | corrected member |
|---|---|---|---|---|---|---|
| git.go:112-116 | On a mirror whose `origin` lacks the URL, only `targetDir` is removed, then `goto retry`. The clone hits the surviving `targetDir.git`, reopens it and finds the same URLs again. | Mirror at `work/app/deploy.git` with origin `https://old/x`, fetched for `https://new/x` | Remove the mirror too and clone afresh once | high, not executed | GitRepo.AsWrittenDriftNeverEnds | GitRepo.DriftIsHealed |
| build.go:235 | Retention keeps tags starting with `dockerImage + ":"`. `dockerImage` already ends in `:<tag>`. | Name `reg/app`, tag `abc1234`: the listed tag `reg/app:abc1234` does not start with `reg/app:abc1234:` | Filter on `dockerImageName + ":"` | high, not executed | BuildSteps.AsWrittenPrefixMissesOwnTags | BuildSteps.Retention |
| build.go:247-253 | Sorted by ascending creation time, then `myImages[5:]` is removed. This keeps the five oldest and removes the newest, the image just pushed. Currently masked by the row above. | Six images created at times 1..6: the one created at 6 is removed | Keep the five newest | high, not executed | BuildSteps.AsWrittenRemovesNewest | BuildSteps.RetentionKeepsNewest |
| git.go:223-229 | With `--exact-tag`, `repo.TagObject(ref.Hash())` looks up a tag object under the tip's hash. That is a commit's hash, so the lookup fails with "object not found" and the short hash is used. | Tip `c0ffee1…` with a tag `v1` whose target is it: exact mode gives `c0ffee1`, not `v1` | Name a tag whose target is the tip | high, not executed | GitTag.AsWrittenExactTagIgnoresTags | GitTag.ExactTag |
| git.go:171-176 | `Checkout` with `Create: true` fails when the branch exists (the error is ignored). HEAD stays where an earlier run left it, the reset and the deploy commit (build.go:355) move that branch, and the push (build.go:372-383) sends `deploy:deploy`. | Deploy branch `prod` already in the mirror, HEAD on `main`: the commit lands on `main` and `prod` is pushed unchanged | Check out the existing branch (create only when missing) | medium, not executed | BuildSteps.AsWrittenCommitMissesBranch | BuildSteps.CommitLandsOnBranch |
| main.go:342-345 | The older `runBuild`, which `triggerFrom` calls, rewrites `set.Value` through a pointer shared with the catalog. The first run consumes `${IMAGE_TAG}`. | Value `${IMAGE_TAG}`, runs tagged `abc1234` then `def5678`: the second writes `abc1234` | Substitute on a copy, as build.go:294-299 does | high, not executed | Dispatch.AsWrittenSecondRunStale | BuildSteps.EachRunWritesOwnTag |
