/** The steps of a build run (build.go `BuildRun.Run`) that do not touch the
    disk or the engines directly: naming the image, the `docker build`
    argument list, the overlay copy filter, the image retention, the deploy
    steps and the deploy status and commit texts. */
module BuildSteps {
  import opened Wrappers
  import opened Text
  import opened Apps
  import opened GitRepo
  import opened YamlSet

  /** `filepath.Join` of a directory and a relative name. */
  function PathJoin(dir: string, name: string): string {
    dir + "/" + name
  }

  // ---------------------------------------------------------------------
  // Image naming

  /** The image tag: the source tag, then `_overlay.<overlay tag>` when the
      build has an overlay, then the branch's tag suffix. */
  function ImageTag(srcTag: string, overlayTag: Option<string>, suffix: string): string {
    match overlayTag
    case None => srcTag + suffix
    case Some(o) => srcTag + "_overlay." + o + suffix
  }

  /** A build with an overlay and one without never share an image tag as
      long as the plain one has no `_` (short hashes never do). */
  lemma OverlayTagsAreDistinct(src: string, suffix: string, src': string, o: string, suffix': string)
    requires '_' !in src + suffix
    ensures ImageTag(src, None, suffix) != ImageTag(src', Some(o), suffix')
  {
    var t, t' := ImageTag(src, None, suffix), ImageTag(src', Some(o), suffix');
    assert t'[|src'|] == '_';
    assert '_' in t' && '_' !in t;
  }

  /** The repository part of the image: the build's `docker` name, else its
      source repository, after the `--docker-prefix`. */
  function ImageName(dockerPrefix: string, build: Build): string {
    dockerPrefix + (if build.docker != "" then build.docker else build.source)
  }

  function ImageRef(imageName: string, imageTag: string): string {
    imageName + ":" + imageTag
  }

  /** The reference gives back its tag once `<name>:` is cut off. */
  lemma ImageRefCut(imageName: string, imageTag: string)
    ensures CutPrefix(ImageRef(imageName, imageTag), imageName + ":") == (imageTag, true)
  {
    var r := ImageRef(imageName, imageTag);
    assert r[..|imageName| + 1] == imageName + ":";
    assert r[|imageName| + 1..] == imageTag;
  }

  // ---------------------------------------------------------------------
  // The `docker build` command line

  /** The arguments the command starts with: build and tag the image in the
      source directory on the host network with the two tag build arguments,
      forward the SSH agent when there is one, and pass the overlay tag when
      there is one. */
  function BaseArgs(imageRef: string, srcTag: string, imageTag: string, sshAuthSock: string,
                    overlayTag: string): seq<string>
  {
    ["build", "-t", imageRef, ".", "--network=host",
     "--build-arg=GIT_TAG=" + srcTag, "--build-arg=IMAGE_TAG=" + imageTag]
    + (if sshAuthSock != "" then ["--ssh=default=" + sshAuthSock] else [])
    + (if overlayTag != "" then ["--build-arg", "OVERLAY_TAG=" + overlayTag] else [])
  }

  /** Every value preceded by `--build-arg`. */
  function BuildArgPairs(values: seq<string>): (r: seq<string>)
    ensures |r| == 2 * |values|
    decreases |values|
  {
    if values == [] then []
    else BuildArgPairs(values[..|values| - 1]) + ["--build-arg", values[|values| - 1]]
  }

  /** `BuildArgPairs` doubles the list: position `2i` holds the flag and
      `2i + 1` the i-th value. */
  lemma {:induction false} BuildArgPairsAt(values: seq<string>)
    ensures |BuildArgPairs(values)| == 2 * |values|
    ensures forall i :: 0 <= i < |values| ==>
      BuildArgPairs(values)[2 * i] == "--build-arg" && BuildArgPairs(values)[2 * i + 1] == values[i]
    decreases |values|
  {
    if values != [] {
      var n := |values| - 1;
      BuildArgPairsAt(values[..n]);
      forall i | 0 <= i < |values|
        ensures BuildArgPairs(values)[2 * i] == "--build-arg" && BuildArgPairs(values)[2 * i + 1] == values[i]
      {
        if i < n {
          assert values[..n][i] == values[i];
        }
      }
    }
  }

  lemma {:induction false} BuildArgPairsAppend(xs: seq<string>, ys: seq<string>)
    ensures BuildArgPairs(xs + ys) == BuildArgPairs(xs) + BuildArgPairs(ys)
    decreases |ys|
  {
    if ys == [] {
      assert xs + ys == xs;
    } else {
      var n := |ys| - 1;
      assert (xs + ys)[..|xs + ys| - 1] == xs + ys[..n];
      BuildArgPairsAppend(xs, ys[..n]);
    }
  }

  /** The whole command line. The list ranged over is built before the loop,
      from the base arguments as they stand then, so those come back once more
      as `--build-arg` values, followed by the App's, the Build's and the
      branch's extra values. */
  function DockerArgs(base: seq<string>, app: seq<string>, build: seq<string>, branch: seq<string>): (r: seq<string>)
    ensures |r| == 3 * |base| + 2 * (|app| + |build| + |branch|)
  {
    base + BuildArgPairs(base + app + build + branch)
  }

  /** Where each value lands: after the base arguments come the values of the
      base, App, Build and branch lists, in that order, each right after its
      own `--build-arg`. */
  lemma DockerArgsLayout(base: seq<string>, app: seq<string>, build: seq<string>, branch: seq<string>)
    ensures var args, all := DockerArgs(base, app, build, branch), base + app + build + branch;
      && args[..|base|] == base
      && forall i :: 0 <= i < |all| ==>
           args[|base| + 2 * i] == "--build-arg" && args[|base| + 2 * i + 1] == all[i]
  {
    var args, all := DockerArgs(base, app, build, branch), base + app + build + branch;
    assert args[..|base|] == base;
    assert args[|base|..|base| + 2 * |all|] == BuildArgPairs(all);
    PairsAt(args, |base|, all);
    forall i | 0 <= i < |all|
      ensures args[|base| + 2 * i] == "--build-arg" && args[|base| + 2 * i + 1] == all[i]
    {
      assert all[i] == all[i];
    }
  }

  /** The pairs of `values` read off at offset `o` of a longer list. */
  lemma PairsAt(s: seq<string>, o: nat, values: seq<string>)
    requires o + 2 * |values| <= |s| && s[o..o + 2 * |values|] == BuildArgPairs(values)
    ensures forall i {:trigger values[i]} :: 0 <= i < |values| ==>
      s[o + 2 * i] == "--build-arg" && s[o + 2 * i + 1] == values[i]
  {
    var pv := BuildArgPairs(values);
    BuildArgPairsAt(values);
    forall i | 0 <= i < |values|
      ensures s[o + 2 * i] == "--build-arg" && s[o + 2 * i + 1] == values[i]
    {
      assert s[o + 2 * i] == pv[2 * i];
      assert s[o + 2 * i + 1] == pv[2 * i + 1];
    }
  }

  /** Appends every value of `values`, each preceded by `--build-arg`. */
  method AppendBuildArgs(args: seq<string>, values: seq<string>) returns (r: seq<string>)
    ensures r == args + BuildArgPairs(values)
  {
    r := args;
    for i := 0 to |values|
      invariant r == args + BuildArgPairs(values[..i])
    {
      assert values[..i + 1][..i] == values[..i];
      r := r + ["--build-arg", values[i]];
    }
    assert values[..|values|] == values;
  }

  /** The two nested loops that extend the command line. */
  method BuildDockerArgs(base: seq<string>, app: seq<string>, build: seq<string>, branch: seq<string>)
    returns (args: seq<string>)
    ensures args == DockerArgs(base, app, build, branch)
  {
    args := base;
    var lists := [base, app, build, branch];
    ghost var seen: seq<string> := [];
    for k := 0 to |lists|
      invariant args == base + BuildArgPairs(seen)
      invariant k == 0 ==> seen == []
      invariant k == 1 ==> seen == base
      invariant k == 2 ==> seen == base + app
      invariant k == 3 ==> seen == base + app + build
      invariant k == 4 ==> seen == base + app + build + branch
    {
      BuildArgPairsAppend(seen, lists[k]);
      args := AppendBuildArgs(args, lists[k]);
      seen := seen + lists[k];
    }
  }

  // ---------------------------------------------------------------------
  // Overlay copy

  /** `filepath.Base` of a relative file path: its last element. */
  function Base(path: string): string {
    var parts := Split(path, '/');
    parts[|parts| - 1]
  }

  /** A name without a separator splits into itself. */
  lemma {:induction false} SplitWithoutSeparator(name: string)
    requires '/' !in name
    ensures Split(name, '/') == [name]
    decreases |name|
  {
    if name != [] {
      SplitWithoutSeparator(name[1..]);
      assert name == [name[0]] + name[1..];
    }
  }

  /** The last element of `dir/name` is `name`. */
  lemma {:induction false} BaseOfJoin(dir: string, name: string)
    requires '/' !in name
    ensures |Split(PathJoin(dir, name), '/')| >= 2
    ensures Base(PathJoin(dir, name)) == name
    decreases |dir|
  {
    var s := PathJoin(dir, name);
    if dir == [] {
      assert s[1..] == name;
      SplitWithoutSeparator(name);
    } else {
      assert s[1..] == PathJoin(dir[1..], name);
      BaseOfJoin(dir[1..], name);
    }
  }

  /** The walk skips every path starting with `.git` (which covers `.git/`,
      `.github/`, `.gitmodules` and `.gitlab-ci.yml` alike) and every
      `.gitignore`. */
  predicate OverlayCopies(rel: string) {
    !HasPrefix(rel, ".git") && Base(rel) != ".gitignore"
  }

  /** Nothing whose path starts with `.git` is copied. */
  lemma OverlaySkipsGitPaths(rest: string)
    ensures !OverlayCopies(".git" + rest)
  {
    assert (".git" + rest)[..4] == ".git";
  }

  /** A `.gitignore` is never copied, at the top or at any depth. */
  lemma OverlaySkipsGitignore(dir: string)
    ensures !OverlayCopies(PathJoin(dir, ".gitignore"))
    ensures !OverlayCopies(".gitignore")
  {
    BaseOfJoin(dir, ".gitignore");
    SplitWithoutSeparator(".gitignore");
  }

  /** Any other file in a sub-directory is copied. */
  lemma OverlayCopiesFiles(dir: string, name: string)
    requires '/' !in name && name != ".gitignore"
    requires !HasPrefix(dir, ".git")
    ensures OverlayCopies(PathJoin(dir, name))
  {
    BaseOfJoin(dir, name);
    if |".git"| <= |dir| {
      assert PathJoin(dir, name)[..4] == dir[..4];
    } else {
      assert PathJoin(dir, name)[..|dir|] == dir;
      if 4 <= |PathJoin(dir, name)| {
        assert PathJoin(dir, name)[|dir|] == '/';
      }
    }
  }

  /** The copy of overlay file `p` as it lands in the source tree: the
      overlay's content; a target that already exists keeps its mode, since
      the create mode only applies to a new file. */
  function CopiedFile(src: Tree, overlay: Tree, p: string): FileData
    requires p in overlay
  {
    FileData(if p in src then src[p].mode else overlay[p].mode, overlay[p].content)
  }

  /** The source tree once the files of `done` that the walk copies have been
      copied. */
  function Overlaid(src: Tree, overlay: Tree, done: set<string>): (r: Tree)
    ensures forall p :: p in r <==> p in src || (p in done && p in overlay && OverlayCopies(p))
    ensures forall p :: p in r && !(p in overlay && OverlayCopies(p)) ==> r[p] == src[p]
    ensures forall p :: p in r && p !in done ==> r[p] == src[p]
  {
    map p | p in src.Keys + (set q | q in done && q in overlay && OverlayCopies(q)) ::
      if p in done && p in overlay && OverlayCopies(p) then CopiedFile(src, overlay, p) else src[p]
  }

  /** One more file of the walk. */
  lemma OverlaidStep(src: Tree, overlay: Tree, done: set<string>, p: string)
    requires p in overlay && p !in done
    ensures var r := Overlaid(src, overlay, done);
      Overlaid(src, overlay, done + {p}) ==
        if OverlayCopies(p) then r[p := FileData(if p in r then r[p].mode else overlay[p].mode, overlay[p].content)]
        else r
  {
    var r, r' := Overlaid(src, overlay, done), Overlaid(src, overlay, done + {p});
    assert p in r <==> p in src;
    if OverlayCopies(p) {
      var u := r[p := FileData(if p in r then r[p].mode else overlay[p].mode, overlay[p].content)];
      assert r'.Keys == u.Keys;
    } else {
      assert r'.Keys == r.Keys;
    }
  }

  /** The source tree after the whole walk. */
  function OverlayResult(src: Tree, overlay: Tree): (r: Tree)
    ensures forall p :: p in r <==> p in src || (p in overlay && OverlayCopies(p))
    ensures forall p :: p in overlay && OverlayCopies(p) ==>
      r[p].content == overlay[p].content && r[p].mode == (if p in src then src[p] else overlay[p]).mode
    ensures forall p :: p in src && !(p in overlay && OverlayCopies(p)) ==> r[p] == src[p]
  {
    Overlaid(src, overlay, overlay.Keys)
  }

  /** Copying the overlay a second time changes nothing. */
  lemma OverlayIdempotent(src: Tree, overlay: Tree)
    ensures OverlayResult(OverlayResult(src, overlay), overlay) == OverlayResult(src, overlay)
  {
    var r := OverlayResult(src, overlay);
    var r2 := OverlayResult(r, overlay);
    assert r2.Keys == r.Keys;
    forall p | p in r ensures r2[p] == r[p] {
      if p in overlay && OverlayCopies(p) {
        assert r2[p] == FileData(r[p].mode, overlay[p].content);
      }
    }
  }

  /** How the copy of one overlay file fails: the overlay file cannot be
      opened, the target cannot be opened for writing, or the copy itself
      fails after the target was truncated. */
  datatype CopyFault = OpenSource | OpenTarget | CopyFails

  /** The error of a copy that fails, naming the file that could not be
      opened, or the overlay file whose read failed. */
  function CopyError(overlayDir: string, srcDir: string, rel: string, fault: CopyFault): string {
    match fault
    case OpenSource => "open " + PathJoin(overlayDir, rel) + ": " + IoError
    case OpenTarget => "open " + PathJoin(srcDir, rel) + ": " + IoError
    case CopyFails => "read " + PathJoin(overlayDir, rel) + ": " + IoError
  }

  /** What copying `overlay` over `src` gives when the copies of the files in
      `faults` fail: success exactly when no copied file fails, and then the
      overlaid tree; otherwise the error of a failing file, which a failed
      copy removes and a failed open leaves as it was. Either way only copied
      files differ from `src`. */
  ghost predicate CopyOutcome(overlayDir: string, srcDir: string, overlay: Tree, src: Tree,
                              faults: map<string, CopyFault>, r: Tree, err: Option<string>) {
    && (err.None? <==> forall p :: p in overlay && OverlayCopies(p) ==> p !in faults)
    && (err.None? ==> r == OverlayResult(src, overlay))
    && (err.Some? ==>
          exists p :: && p in overlay && OverlayCopies(p) && p in faults
                      && err.value == CopyError(overlayDir, srcDir, p, faults[p])
                      && (faults[p] == CopyFails ==> p !in r)
                      && (faults[p] != CopyFails ==> (p in r <==> p in src) && (p in r ==> r[p] == src[p])))
    && (forall p :: p in r ==> p in src || (p in overlay && OverlayCopies(p)))
    && (forall p :: p in r && !(p in overlay && OverlayCopies(p)) ==> r[p] == src[p])
  }

  /** The walk over the overlay checkout: each file it copies is written over
      the source tree. A file whose copy fails (those in `faults`) stops the
      walk with its error; only a failed copy removes the target, a failed
      open leaves it as it was. The walk's order is not modelled: on failure,
      which file fails first is left open. */
  method CopyOverlay(overlayDir: string, srcDir: string, overlay: Tree, src: Tree, faults: map<string, CopyFault>)
    returns (r: Tree, err: Option<string>)
    ensures CopyOutcome(overlayDir, srcDir, overlay, src, faults, r, err)
  {
    r := src;
    var todo := overlay.Keys;
    ghost var done: set<string> := {};
    while todo != {}
      invariant done <= overlay.Keys && todo == overlay.Keys - done
      invariant r == Overlaid(src, overlay, done)
      invariant forall p :: p in done && OverlayCopies(p) ==> p !in faults
      decreases |todo|
    {
      var p :| p in todo;
      OverlaidStep(src, overlay, done, p);
      if OverlayCopies(p) {
        if p in faults {
          if faults[p] == CopyFails {
            r := r - {p};
          }
          err := Some(CopyError(overlayDir, srcDir, p, faults[p]));
          CopyStopsAt(overlayDir, srcDir, overlay, src, faults, done, p);
          return;
        }
        r := r[p := FileData(if p in r then r[p].mode else overlay[p].mode, overlay[p].content)];
      }
      todo := todo - {p};
      done := done + {p};
    }
    assert done == overlay.Keys;
    CopyCompletes(overlayDir, srcDir, overlay, src, faults);
    return r, None;
  }

  /** A walk that meets no fault. */
  lemma CopyCompletes(overlayDir: string, srcDir: string, overlay: Tree, src: Tree, faults: map<string, CopyFault>)
    requires forall p :: p in overlay && OverlayCopies(p) ==> p !in faults
    ensures CopyOutcome(overlayDir, srcDir, overlay, src, faults, OverlayResult(src, overlay), None)
  {
  }

  /** A walk stopped by the fault of `p` after copying `done`. */
  lemma CopyStopsAt(overlayDir: string, srcDir: string, overlay: Tree, src: Tree, faults: map<string, CopyFault>,
                    done: set<string>, p: string)
    requires p in overlay && p !in done && OverlayCopies(p) && p in faults
    ensures var r := Overlaid(src, overlay, done);
      CopyOutcome(overlayDir, srcDir, overlay, src, faults,
                  if faults[p] == CopyFails then r - {p} else r, Some(CopyError(overlayDir, srcDir, p, faults[p])))
  {
    var r := Overlaid(src, overlay, done);
    assert (p in r <==> p in src) && (p in r ==> r[p] == src[p]);
  }

  // ---------------------------------------------------------------------
  // Image retention

  /** How many images of the repository are kept. */
  const KeepImages: nat := 5

  /** An entry of the engine's image list. */
  datatype ImageSummary = ImageSummary(id: string, created: int, repoTags: seq<string>)

  /** One repository tag of a listed image, with the image's id and creation time. */
  datatype ImageEntry = ImageEntry(tag: string, imageID: string, created: int)

  /** The entries for the tags of `img` (among `tags`) that start with `prefix`,
      in listing order. */
  function TagEntries(img: ImageSummary, tags: seq<string>, prefix: string): seq<ImageEntry>
    decreases |tags|
  {
    if tags == [] then []
    else
      var t := tags[|tags| - 1];
      TagEntries(img, tags[..|tags| - 1], prefix) +
        (if HasPrefix(t, prefix) then [ImageEntry(t, img.id, img.created)] else [])
  }

  /** The entries for every listed tag that starts with `prefix`. */
  function Matching(images: seq<ImageSummary>, prefix: string): seq<ImageEntry>
    decreases |images|
  {
    if images == [] then []
    else
      var img := images[|images| - 1];
      Matching(images[..|images| - 1], prefix) + TagEntries(img, img.repoTags, prefix)
  }

  lemma {:induction false} TagEntriesMembers(img: ImageSummary, tags: seq<string>, prefix: string, e: ImageEntry)
    ensures e in TagEntries(img, tags, prefix) <==>
      (e.tag in tags && HasPrefix(e.tag, prefix) && e.imageID == img.id && e.created == img.created)
    decreases |tags|
  {
    if tags != [] {
      var n := |tags| - 1;
      TagEntriesMembers(img, tags[..n], prefix, e);
      assert tags == tags[..n] + [tags[n]];
    }
  }

  /** An entry is collected exactly when it is a listed tag of a listed image
      that starts with the prefix, with that image's id and creation time. */
  lemma {:induction false} MatchingMembers(images: seq<ImageSummary>, prefix: string, e: ImageEntry)
    ensures e in Matching(images, prefix) <==>
      exists i :: 0 <= i < |images| && e.tag in images[i].repoTags && HasPrefix(e.tag, prefix) &&
        e.imageID == images[i].id && e.created == images[i].created
    decreases |images|
  {
    if images != [] {
      var n := |images| - 1;
      MatchingMembers(images[..n], prefix, e);
      TagEntriesMembers(images[n], images[n].repoTags, prefix, e);
      if e in Matching(images[..n], prefix) {
        var i :| 0 <= i < n && e.tag in images[..n][i].repoTags && HasPrefix(e.tag, prefix) &&
          e.imageID == images[..n][i].id && e.created == images[..n][i].created;
        assert images[..n][i] == images[i];
      }
      if exists i :: 0 <= i < |images| && e.tag in images[i].repoTags && HasPrefix(e.tag, prefix) &&
          e.imageID == images[i].id && e.created == images[i].created {
        var i :| 0 <= i < |images| && e.tag in images[i].repoTags && HasPrefix(e.tag, prefix) &&
          e.imageID == images[i].id && e.created == images[i].created;
        if i < n {
          assert images[..n][i] == images[i];
        }
      }
    }
  }

  /** The two loops over the image list and each image's tags. */
  method CollectMatching(images: seq<ImageSummary>, prefix: string) returns (mine: seq<ImageEntry>)
    ensures mine == Matching(images, prefix)
  {
    mine := [];
    for i := 0 to |images|
      invariant mine == Matching(images[..i], prefix)
    {
      var img := images[i];
      var base := mine;
      for j := 0 to |img.repoTags|
        invariant mine == base + TagEntries(img, img.repoTags[..j], prefix)
      {
        assert img.repoTags[..j + 1][..j] == img.repoTags[..j];
        var tag := img.repoTags[j];
        if HasPrefix(tag, prefix) {
          mine := mine + [ImageEntry(tag, img.id, img.created)];
        }
      }
      assert img.repoTags[..|img.repoTags|] == img.repoTags;
      assert images[..i + 1][..i] == images[..i];
    }
    assert images[..|images|] == images;
  }

  predicate NewestFirst(s: seq<ImageEntry>) {
    forall i, j :: 0 <= i < j < |s| ==> s[i].created >= s[j].created
  }

  predicate OldestFirst(s: seq<ImageEntry>) {
    forall i, j :: 0 <= i < j < |s| ==> s[i].created <= s[j].created
  }

  /** Sorts the entries in place, newest first (insertion by adjacent swaps). */
  method SortNewestFirst(a: array<ImageEntry>)
    modifies a
    ensures NewestFirst(a[..])
    ensures multiset(a[..]) == multiset(old(a[..]))
  {
    var i := 0;
    while i < a.Length
      invariant 0 <= i <= a.Length
      invariant NewestFirst(a[..i])
      invariant multiset(a[..]) == multiset(old(a[..]))
    {
      InsertNewest(a, i);
      i := i + 1;
    }
  }

  /** Moves `a[i]` left past every older entry, so that `a[..i + 1]` is
      sorted. */
  method InsertNewest(a: array<ImageEntry>, i: nat)
    requires i < a.Length && NewestFirst(a[..i])
    modifies a
    ensures NewestFirst(a[..i + 1])
    ensures multiset(a[..]) == multiset(old(a[..]))
  {
    var j := i;
    while j > 0 && a[j - 1].created < a[j].created
      invariant 0 <= j <= i
      invariant multiset(a[..]) == multiset(old(a[..]))
      invariant forall k, l :: 0 <= k < l <= i && k != j && l != j ==> a[k].created >= a[l].created
      invariant forall l :: j < l <= i ==> a[j].created > a[l].created
    {
      SwapKeepsMultiset(a, j - 1, j);
      j := j - 1;
    }
    assert forall k, l :: 0 <= k < l <= i ==> a[k].created >= a[l].created;
  }

  /** Exchanges two entries; the multiset of the array is unchanged. */
  method SwapKeepsMultiset(a: array<ImageEntry>, x: nat, y: nat)
    requires x < y < a.Length
    modifies a
    ensures a[..] == old(a[..])[x := old(a[y])][y := old(a[x])]
    ensures multiset(a[..]) == multiset(old(a[..]))
  {
    a[x], a[y] := a[y], a[x];
  }

  function Tags(s: seq<ImageEntry>): (r: seq<string>)
    ensures |r| == |s| && forall i :: 0 <= i < |s| ==> r[i] == s[i].tag
  {
    seq(|s|, i requires 0 <= i < |s| => s[i].tag)
  }

  /** The entries past the first `n`. */
  function Drop(s: seq<ImageEntry>, n: nat): seq<ImageEntry> {
    if |s| > n then s[n..] else []
  }

  /** The retention step as intended: collect the repository's tags (those
      starting with `<image name>:`), sort them newest first and remove all
      but the first five. `sorted` is the order the removal works on. */
  method Retention(images: seq<ImageSummary>, imageName: string) returns (sorted: seq<ImageEntry>, removed: seq<string>)
    ensures multiset(sorted) == multiset(Matching(images, imageName + ":"))
    ensures NewestFirst(sorted)
    ensures removed == Tags(Drop(sorted, KeepImages))
    ensures |removed| == if |sorted| > KeepImages then |sorted| - KeepImages else 0
    ensures forall k, r :: 0 <= k < KeepImages <= r < |sorted| ==> sorted[k].created >= sorted[r].created
    ensures forall k :: 0 <= k < |removed| ==> HasPrefix(removed[k], imageName + ":")
  {
    var mine := CollectMatching(images, imageName + ":");
    var a := new ImageEntry[|mine|](i requires 0 <= i < |mine| => mine[i]);
    assert a[..] == mine;
    SortNewestFirst(a);
    sorted := a[..];
    removed := TagsPast(sorted, KeepImages);
    DroppedMatch(images, imageName + ":", sorted, KeepImages);
  }

  /** The removal loop: the tags of the entries from position `keep` on. */
  method TagsPast(sorted: seq<ImageEntry>, keep: nat) returns (removed: seq<string>)
    ensures removed == Tags(Drop(sorted, keep))
  {
    removed := [];
    if |sorted| > keep {
      for i := keep to |sorted|
        invariant removed == Tags(sorted[keep..i])
      {
        assert sorted[keep..i + 1] == sorted[keep..i] + [sorted[i]];
        removed := removed + [sorted[i].tag];
      }
      assert sorted[keep..|sorted|] == Drop(sorted, keep);
    }
  }

  /** Entries drawn from the matching ones keep the prefix. */
  lemma DroppedMatch(images: seq<ImageSummary>, prefix: string, sorted: seq<ImageEntry>, keep: nat)
    requires multiset(sorted) == multiset(Matching(images, prefix))
    ensures forall k :: 0 <= k < |Tags(Drop(sorted, keep))| ==> HasPrefix(Tags(Drop(sorted, keep))[k], prefix)
  {
    var removed := Tags(Drop(sorted, keep));
    forall k | 0 <= k < |removed| ensures HasPrefix(removed[k], prefix) {
      var e := sorted[keep + k];
      assert e in multiset(sorted);
      assert e in Matching(images, prefix);
      MatchingMembers(images, prefix, e);
    }
  }

  /** The tag filter AS WRITTEN: the full image reference, tag included,
      followed by `:`. */
  function AsWrittenRetentionPrefix(imageName: string, imageTag: string): string {
    ImageRef(imageName, imageTag) + ":"
  }

  /** No tag of the repository (`<name>:<t>`, `t` without `:`) starts with the
      filter as written, while every one of them starts with `<name>:`. */
  lemma AsWrittenPrefixMissesOwnTags(imageName: string, imageTag: string, t: string)
    requires ':' !in t
    ensures !HasPrefix(ImageRef(imageName, t), AsWrittenRetentionPrefix(imageName, imageTag))
    ensures HasPrefix(ImageRef(imageName, t), imageName + ":")
  {
    var s, p := ImageRef(imageName, t), AsWrittenRetentionPrefix(imageName, imageTag);
    var n := |imageName| + 1;
    assert s[..n] == imageName + ":";
    if |p| <= |s| {
      var k := n + |imageTag|;
      assert s[k] == t[|imageTag|] && t[|imageTag|] != ':';
      assert p[k] == ':';
      assert s[..|p|][k] != p[k];
    }
  }

  /** Hence, as written, the retention never selects a tag of the repository
      being built: every entry it collects has a `:` after `<name>:`, or does
      not start with `<name>:` at all. */
  lemma AsWrittenRetentionSkipsRepository(images: seq<ImageSummary>, imageName: string, imageTag: string, e: ImageEntry)
    requires e in Matching(images, AsWrittenRetentionPrefix(imageName, imageTag))
    ensures forall t :: ':' !in t ==> e.tag != ImageRef(imageName, t)
  {
    MatchingMembers(images, AsWrittenRetentionPrefix(imageName, imageTag), e);
    forall t | ':' !in t ensures e.tag != ImageRef(imageName, t) {
      AsWrittenPrefixMissesOwnTags(imageName, imageTag, t);
    }
  }

  /** The removal AS WRITTEN: the entries sorted oldest first, all but the
      first five removed. */
  function AsWrittenRemovals(oldestFirst: seq<ImageEntry>): seq<string> {
    Tags(Drop(oldestFirst, KeepImages))
  }

  /** As written, the five oldest images are the ones kept, and the newest one
      (normally the image just pushed) is removed as soon as there are more
      than five. */
  lemma AsWrittenRemovesNewest(oldestFirst: seq<ImageEntry>)
    requires OldestFirst(oldestFirst) && |oldestFirst| > KeepImages
    ensures var s, n := oldestFirst, |oldestFirst|;
      && (forall k, r :: 0 <= k < KeepImages <= r < n ==> s[k].created <= s[r].created)
      && (forall j :: 0 <= j < n ==> s[n - 1].created >= s[j].created)
      && AsWrittenRemovals(s)[n - 1 - KeepImages] == s[n - 1].tag
  {
  }

  /** As intended, the entries removed are never newer than those kept, and
      every entry is either kept or removed. */
  lemma RetentionKeepsNewest(sorted: seq<ImageEntry>)
    requires NewestFirst(sorted)
    ensures var kept := if |sorted| > KeepImages then sorted[..KeepImages] else sorted;
      && kept + Drop(sorted, KeepImages) == sorted
      && (forall k, r :: k in kept && r in Drop(sorted, KeepImages) ==> k.created >= r.created)
  {
    if |sorted| > KeepImages {
      forall k, r | k in sorted[..KeepImages] && r in sorted[KeepImages..]
        ensures k.created >= r.created
      {
        var i :| 0 <= i < KeepImages && sorted[..KeepImages][i] == k;
        var j :| 0 <= j < |sorted| - KeepImages && sorted[KeepImages..][j] == r;
        assert sorted[i] == k && sorted[KeepImages + j] == r;
      }
    }
  }

  // ---------------------------------------------------------------------
  // Deploy steps

  /** The placeholder a YAML-set value may hold for the image tag. */
  const ImageTagToken := "${IMAGE_TAG}"

  /** A deploy script run in a throw-away container over the deploy checkout,
      with `IMAGE_TAG` in its environment. The checkout is mounted, so what
      the script wrote stays even when it then fails: the files it leaves,
      and its exit error. */
  type ScriptRunner = (string, string, Tree) -> Stepped

  /** The deploy checkout after some steps, and the error that stopped them. */
  datatype Stepped = Stepped(files: Tree, err: Option<string>)

  /** The step's YAML-set with the placeholder replaced by the image tag; the
      catalog's own value is left as it is. */
  function Substituted(op: YamlSetOp, imageTag: string): YamlSetOp {
    op.(value := ReplaceAll(op.value, ImageTagToken, imageTag))
  }

  /** The placeholder alone becomes the tag. */
  lemma TokenAloneTakesTag(tag: string)
    ensures ReplaceAll(ImageTagToken, ImageTagToken, tag) == tag
  {
    assert HasPrefix(ImageTagToken, ImageTagToken);
    assert ImageTagToken[|ImageTagToken|..] == [];
  }

  /** The substitution works on a copy: the catalog's step is a value no run
      changes, so every run of a step whose value is the placeholder writes
      its own tag, and runs with different tags write different values. */
  lemma EachRunWritesOwnTag(op: YamlSetOp, tag1: string, tag2: string)
    requires op.value == ImageTagToken
    ensures Substituted(op, tag1).value == tag1 && Substituted(op, tag2).value == tag2
    ensures tag1 != tag2 ==> Substituted(op, tag1) != Substituted(op, tag2)
  {
    TokenAloneTakesTag(tag1);
    TokenAloneTakesTag(tag2);
  }

  /** Read the file (a missing one is an error), apply the set, write the
      result back over the same file, which keeps its mode. */
  function YamlSetStep(files: Tree, deployDir: string, op: YamlSetOp,
                       parse: string -> Result<Node>, marshal: Node -> Result<string>): (r: Result<Tree>)
    ensures op.file !in files ==> r == Err("open " + PathJoin(deployDir, op.file) + ": no such file or directory")
    ensures r.Ok? ==>
      op.file in files && r.value.Keys == files.Keys &&
      ApplyText(op, files[op.file].content, parse, marshal).Ok? &&
      r.value[op.file] == FileData(files[op.file].mode, ApplyText(op, files[op.file].content, parse, marshal).value) &&
      forall p :: p in files && p != op.file ==> r.value[p] == files[p]
  {
    if op.file !in files then Err("open " + PathJoin(deployDir, op.file) + ": no such file or directory")
    else
      match ApplyText(op, files[op.file].content, parse, marshal)
      case Err(e) => Err(e)
      case Ok(out) => Ok(files[op.file := files[op.file].(content := out)])
  }

  /** One deploy step: the script first, then the YAML-set on what the
      script left. A failing YAML-set writes nothing. */
  function StepSpec(files: Tree, deployDir: string, step: DeployUpdate, imageTag: string, run: ScriptRunner,
                    parse: string -> Result<Node>, marshal: Node -> Result<string>): Stepped
  {
    var afterScript := if step.script == "" then Stepped(files, None) else run(step.script, imageTag, files);
    if afterScript.err.Some? || step.yamlSet.None? then afterScript
    else
      match YamlSetStep(afterScript.files, deployDir, Substituted(step.yamlSet.value, imageTag), parse, marshal)
      case Err(e) => Stepped(afterScript.files, Some(e))
      case Ok(f) => Stepped(f, None)
  }

  /** The steps in order; the first error ends them, and the checkout keeps
      what the steps before it wrote. */
  function StepsSpec(files: Tree, deployDir: string, steps: seq<DeployUpdate>, imageTag: string, run: ScriptRunner,
                     parse: string -> Result<Node>, marshal: Node -> Result<string>): Stepped
    decreases |steps|
  {
    if steps == [] then Stepped(files, None)
    else
      var first := StepSpec(files, deployDir, steps[0], imageTag, run, parse, marshal);
      if first.err.Some? then first
      else StepsSpec(first.files, deployDir, steps[1..], imageTag, run, parse, marshal)
  }

  /** Running `s1 ++ s2` is running `s1`, then `s2` on the files it leaves
      when it succeeds. */
  lemma {:induction false} StepsAppend(files: Tree, deployDir: string, s1: seq<DeployUpdate>, s2: seq<DeployUpdate>,
                                       imageTag: string, run: ScriptRunner,
                                       parse: string -> Result<Node>, marshal: Node -> Result<string>)
    ensures var r1 := StepsSpec(files, deployDir, s1, imageTag, run, parse, marshal);
      StepsSpec(files, deployDir, s1 + s2, imageTag, run, parse, marshal) ==
        if r1.err.Some? then r1 else StepsSpec(r1.files, deployDir, s2, imageTag, run, parse, marshal)
    decreases |s1|
  {
    if s1 == [] {
      assert s1 + s2 == s2;
    } else {
      assert (s1 + s2)[0] == s1[0] && (s1 + s2)[1..] == s1[1..] + s2;
      var first := StepSpec(files, deployDir, s1[0], imageTag, run, parse, marshal);
      if first.err.None? {
        StepsAppend(first.files, deployDir, s1[1..], s2, imageTag, run, parse, marshal);
      }
    }
  }

  /** A YAML-set step that fails after earlier steps succeeded leaves the
      checkout as those steps wrote it, and its error ends the run. */
  lemma FailedStepKeepsEarlierWrites(files: Tree, deployDir: string, done: seq<DeployUpdate>, failing: DeployUpdate,
                                     imageTag: string, run: ScriptRunner,
                                     parse: string -> Result<Node>, marshal: Node -> Result<string>)
    requires StepsSpec(files, deployDir, done, imageTag, run, parse, marshal).err.None?
    requires failing.script == "" && failing.yamlSet.Some?
    requires var written := StepsSpec(files, deployDir, done, imageTag, run, parse, marshal).files;
      YamlSetStep(written, deployDir, Substituted(failing.yamlSet.value, imageTag), parse, marshal).Err?
    ensures var written := StepsSpec(files, deployDir, done, imageTag, run, parse, marshal).files;
      StepsSpec(files, deployDir, done + [failing], imageTag, run, parse, marshal) ==
        Stepped(written, Some(YamlSetStep(written, deployDir, Substituted(failing.yamlSet.value, imageTag),
                                          parse, marshal).msg))
  {
    StepsAppend(files, deployDir, done, [failing], imageTag, run, parse, marshal);
  }

  /** When the YAML library reads back what it writes, the file a YAML-set
      step writes holds, at the step's path, a scalar with the substituted
      value; with an image tag that shares no character with the placeholder
      (a short hash, say), no placeholder is left in that value. */
  lemma YamlStepWritesTag(files: Tree, deployDir: string, op: YamlSetOp, imageTag: string,
                          parse: string -> Result<Node>, marshal: Node -> Result<string>)
    requires var s := Substituted(op, imageTag);
      YamlSetStep(files, deployDir, s, parse, marshal).Ok? &&
      parse(files[op.file].content).Ok? && WellFormed(parse(files[op.file].content).value) &&
      var t := ApplyTree(parse(files[op.file].content).value, op.path, s.value);
      parse(marshal(t).value) == Ok(t)
    ensures var s := Substituted(op, imageTag);
      var written := YamlSetStep(files, deployDir, s, parse, marshal).value[op.file].content;
      parse(written).Ok? &&
      var got := Get(Body(parse(written).value), Split(op.path, '/'));
      got.Some? && got.value.kind == ScalarNode && got.value.value == s.value
    ensures imageTag != [] && Disjoint(imageTag, ImageTagToken) ==>
      !Occurs(Substituted(op, imageTag).value, ImageTagToken)
  {
    var s := Substituted(op, imageTag);
    ApplyTreeSets(parse(files[op.file].content).value, op.path, s.value);
    if imageTag != [] && Disjoint(imageTag, ImageTagToken) {
      ReplaceAllRemoves(op.value, ImageTagToken, imageTag);
    }
  }

  /** A short hash (lower-case hexadecimal digits) shares no character with
      the placeholder. */
  lemma HexTagAvoidsToken(tag: string)
    requires forall k :: 0 <= k < |tag| ==> HexDigit(tag[k])
    ensures Disjoint(tag, ImageTagToken)
  {
  }

  predicate HexDigit(c: char) {
    '0' <= c <= '9' || 'a' <= c <= 'f'
  }

  /** The loop over the Build's deploy steps; on an error the checkout holds
      what was written before it. */
  method DeploySteps(files: Tree, deployDir: string, steps: seq<DeployUpdate>, imageTag: string, run: ScriptRunner,
                     parse: string -> Result<Node>, marshal: Node -> Result<string>) returns (r: Stepped)
    ensures r == StepsSpec(files, deployDir, steps, imageTag, run, parse, marshal)
  {
    var cur := files;
    for idx := 0 to |steps|
      invariant StepsSpec(files, deployDir, steps, imageTag, run, parse, marshal) ==
                StepsSpec(cur, deployDir, steps[idx..], imageTag, run, parse, marshal)
    {
      var step := steps[idx];
      assert steps[idx..][0] == step && steps[idx..][1..] == steps[idx + 1..];
      if step.script != "" {
        var ran := run(step.script, imageTag, cur);
        if ran.err.Some? {
          return ran;
        }
        cur := ran.files;
      }
      if step.yamlSet.Some? {
        var op := Substituted(step.yamlSet.value, imageTag);
        if op.file !in cur {
          return Stepped(cur, Some("open " + PathJoin(deployDir, op.file) + ": no such file or directory"));
        }
        var out := Apply(op, cur[op.file].content, parse, marshal);
        if out.Err? {
          return Stepped(cur, Some(out.msg));
        }
        cur := cur[op.file := cur[op.file].(content := out.value)];
      }
    }
    return Stepped(cur, None);
  }

  // ---------------------------------------------------------------------
  // Deploy status and commit

  /** The tree of the commit HEAD's branch points at; with HEAD unresolvable
      the worktree is compared with an empty tree. */
  function HeadTree(m: Mirror): Tree {
    if m.head in m.localBranches && m.localBranches[m.head] in m.objects.commits then
      m.objects.commits[m.localBranches[m.head]]
    else map[]
  }

  /** `Worktree.Status`: the paths added, changed (content or mode) or
      deleted with respect to HEAD's tree. */
  function Status(m: Mirror, files: Tree): set<string> {
    var head := HeadTree(m);
    (set p | p in files && (p !in head || head[p] != files[p])) + (set p | p in head && p !in files)
  }

  /** The status is empty exactly when the worktree is HEAD's tree. */
  lemma StatusEmptyIffClean(m: Mirror, files: Tree)
    ensures Status(m, files) == {} <==> files == HeadTree(m)
  {
    var head := HeadTree(m);
    if Status(m, files) == {} {
      forall p | p in files ensures p in head && head[p] == files[p] {
        assert p !in Status(m, files);
      }
      forall p | p in head ensures p in files {
        assert p !in Status(m, files);
      }
    }
  }

  function CommitMessage(appName: string, source: string, imageTag: string): string {
    "auto-commit: app " + appName + ": " + source + ": image tag " + imageTag
  }

  /** The deploy branch pushed to the branch of the same name. */
  function RefSpec(deploy: string): string {
    deploy + ":" + deploy
  }

  /** A commit of the whole worktree on HEAD's branch, under hash `h`. */
  function CommitAll(m: Mirror, files: Tree, h: Hash): (r: Mirror)
    ensures HeadTree(r) == files
    ensures r.head == m.head && r.localBranches == m.localBranches[m.head := h]
    ensures r.origin == m.origin && r.readable == m.readable && r.remoteBranches == m.remoteBranches
  {
    m.(localBranches := m.localBranches[m.head := h],
       objects := m.objects.(commits := m.objects.commits[h := files]),
       index := files.Keys)
  }

  /** AS WRITTEN, the checkout in `CleanBranch` creates the branch, and so
      fails on one that already exists; HEAD then stays where an earlier run
      left it. The reset and the deploy commit (of `work`, the checkout the
      deploy steps leave) move HEAD's branch, while
      `git push origin <branch>:<branch>` pushes `branch`, which keeps its
      old commit: the deploy commit is not on the pushed branch. */
  lemma AsWrittenCommitMissesBranch(m: Mirror, files: Tree, branch: string, tip: Hash, work: Tree, commit: Hash)
    requires branch in m.localBranches && m.head != branch && tip in m.objects.commits
    ensures var (m1, f1) := Checkout(m, files, branch);
      var (m2, f2) := HardReset(m1, f1, tip);
      var m3 := CommitAll(m2, work, commit);
      && m1.head == m.head
      && m3.localBranches[m.head] == commit
      && m3.localBranches[branch] == m.localBranches[branch]
  {
  }

  /** With the corrected checkout, the same sequence leaves the deploy commit
      on `branch`, the branch that is pushed, whatever branch HEAD named
      before. */
  lemma CommitLandsOnBranch(m: Mirror, files: Tree, branch: string, tip: Hash, work: Tree, commit: Hash)
    requires tip in m.objects.commits
    ensures var (m1, f1) := SwitchBranch(m, files, branch, tip);
      var (m2, f2) := HardReset(m1, f1, tip);
      var m3 := CommitAll(m2, work, commit);
      && m3.head == branch
      && m3.localBranches[branch] == commit
      && HeadTree(m3) == work
  {
  }
}
