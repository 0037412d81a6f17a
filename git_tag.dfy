/** Naming a branch tip (git.go `gitOps.Tag`, `gitOps.Describe`): the short hash
    of `origin/<branch>` in the mirror at `dir + ".git"`, the name of its tag
    object in exact-tag mode, or a `git describe`-style name computed from the
    annotated tags and the commit log. The order in which `repo.Log` yields the
    commits from the tip (committer time) is a parameter, `history`. */
module GitTag {
  import opened Wrappers
  import opened Text
  import opened GitRepo

  /** `BranchRef`: open `dir + ".git"` (its error is returned as is) and resolve
      `origin/<branch>`. */
  function BranchRef(fs: Fs, dir: string, branch: string): (r: Result<Hash>)
    ensures r.Ok? <==> MirrorDir(dir) in fs.mirrors && fs.mirrors[MirrorDir(dir)].readable &&
                       branch in fs.mirrors[MirrorDir(dir)].remoteBranches
    ensures r.Ok? ==> r.value == fs.mirrors[MirrorDir(dir)].remoteBranches[branch]
  {
    var gd := MirrorDir(dir);
    if gd !in fs.mirrors || !fs.mirrors[gd].readable then Err("repository does not exist")
    else if branch !in fs.mirrors[gd].remoteBranches then Err("reference not found")
    else Ok(fs.mirrors[gd].remoteBranches[branch])
  }

  /** The first seven characters of a reference's text, which are its hash's. */
  function Short(h: Hash): (s: string)
    ensures |s| == 7 && HasPrefix(h, s)
  {
    h[..7]
  }

  /** `Tag(dir, branch)`; `exact` is the exact-tag setting. */
  function Tag(fs: Fs, dir: string, branch: string, exact: bool): (r: Result<string>)
  {
    match BranchRef(fs, dir, branch)
    case Err(e) => Err(e)
    case Ok(tip) =>
      var objs := fs.mirrors[MirrorDir(dir)].objects;
      if exact && tip in objs.tags then
        match objs.tags[tip]
        case Annotated(name, _) => Ok(name)
        case Unreadable => Err("malformed tag object")
      else Ok(Short(tip))
  }

  /** Without exact tags, and in exact mode when no tag object has the tip's
      hash, the tag is the 7-character short hash of `origin/<branch>`; it fails
      only when the mirror or the branch is missing. */
  lemma TagIsShortHash(fs: Fs, dir: string, branch: string, exact: bool)
    requires BranchRef(fs, dir, branch).Ok?
    requires exact ==> BranchRef(fs, dir, branch).value !in fs.mirrors[MirrorDir(dir)].objects.tags
    ensures var r, tip := Tag(fs, dir, branch, exact), BranchRef(fs, dir, branch).value;
      r.Ok? && |r.value| == 7 && HasPrefix(tip, r.value)
  {
  }

  /** In exact mode a tag object found at the tip's hash gives its name; an
      object that cannot be read is an error; a missing mirror or branch is the
      only other failure. */
  lemma ExactTagResult(fs: Fs, dir: string, branch: string)
    ensures var r, ref := Tag(fs, dir, branch, true), BranchRef(fs, dir, branch);
      r.Err? <==> (ref.Err? ||
        (ref.value in fs.mirrors[MirrorDir(dir)].objects.tags &&
         fs.mirrors[MirrorDir(dir)].objects.tags[ref.value].Unreadable?))
    ensures var r, ref := Tag(fs, dir, branch, true), BranchRef(fs, dir, branch);
      ref.Ok? && ref.value in fs.mirrors[MirrorDir(dir)].objects.tags &&
      fs.mirrors[MirrorDir(dir)].objects.tags[ref.value].Annotated? ==>
        r == Ok(fs.mirrors[MirrorDir(dir)].objects.tags[ref.value].name)
    ensures var r, ref := Tag(fs, dir, branch, true), BranchRef(fs, dir, branch);
      ref.Ok? && WellTyped(fs.mirrors[MirrorDir(dir)]) ==> r == Ok(Short(ref.value))
  {
  }

  /** What a real object store guarantees: remote branches point at commits,
      and no hash is both a commit and a tag object. */
  predicate WellTyped(m: Mirror) {
    && (forall b :: b in m.remoteBranches ==> m.remoteBranches[b] in m.objects.commits)
    && (forall h :: h in m.objects.commits ==> h !in m.objects.tags)
  }

  /** The commit a tag reference designates: its object must be a readable tag
      object whose target is a commit. The errors name `refs/tags/<n>`. */
  function TagTarget(m: Mirror, n: string): (r: Result<Hash>)
    requires n in m.tagRefs
    ensures r.Ok? ==> r.value in m.objects.commits
  {
    var h := m.tagRefs[n];
    if h !in m.objects.tags then Err("failed to get tag details on refs/tags/" + n + ": object not found")
    else
      match m.objects.tags[h]
      case Unreadable => Err("failed to get tag details on refs/tags/" + n + ": malformed tag object")
      case Annotated(_, target) =>
        if target in m.objects.commits then Ok(target)
        else Err("failed to get tag commit on refs/tags/" + n + ": object not found")
  }

  predicate AllTagsResolve(m: Mirror) {
    forall n :: n in m.tagRefs ==> TagTarget(m, n).Ok?
  }

  /** `g` is the greatest of `names` in Go's string order. */
  predicate IsGreatest(g: string, names: set<string>) {
    g in names && forall n :: n in names ==> n == g || Less(n, g)
  }

  lemma {:induction false} GreatestExists(names: set<string>)
    requires names != {}
    ensures exists g :: IsGreatest(g, names)
    decreases |names|
  {
    var x :| x in names;
    if names != {x} {
      var rest := names - {x};
      GreatestExists(rest);
      var g :| IsGreatest(g, rest);
      if Less(x, g) {
        assert IsGreatest(g, names);
      } else {
        LessTotal(x, g);
        forall n | n in names ensures n == x || Less(n, x) {
          if n != x && n != g {
            LessTransitive(n, g, x);
          }
        }
        assert IsGreatest(x, names);
      }
    } else {
      assert IsGreatest(x, names);
    }
  }

  lemma GreatestUnique(a: string, b: string, names: set<string>)
    requires IsGreatest(a, names) && IsGreatest(b, names)
    ensures a == b
  {
    if a != b {
      LessTransitive(a, b, a);
      LessIrreflexive(a);
    }
  }

  ghost function Greatest(names: set<string>): (g: string)
    requires names != {}
    ensures IsGreatest(g, names)
  {
    GreatestExists(names);
    var g :| IsGreatest(g, names);
    g
  }

  /** The names of the tags whose target is commit `c`. */
  ghost function NamesAt(m: Mirror, c: Hash): set<string> {
    set n | n in m.tagRefs && TagTarget(m, n) == Ok(c)
  }

  /** Reference definition of the `commitsTag` map: every tagged commit, with
      the greatest of its tag names. */
  ghost function TaggedCommits(m: Mirror): map<Hash, string>
    requires AllTagsResolve(m)
  {
    var targets := set n | n in m.tagRefs :: TagTarget(m, n).value;
    map c | c in targets && NamesAt(m, c) != {} :: Greatest(NamesAt(m, c))
  }

  /** `ct` is `commitsTag` after the tags in `done` were visited. */
  ghost predicate IsTagMap(ct: map<Hash, string>, m: Mirror, done: set<string>)
    requires done <= m.tagRefs.Keys
  {
    && (forall n :: n in done ==> TagTarget(m, n).Ok? && TagTarget(m, n).value in ct)
    && (forall c :: c in ct ==> ct[c] in done && TagTarget(m, ct[c]) == Ok(c))
    && (forall c, n :: c in ct && n in done && TagTarget(m, n) == Ok(c) ==> n == ct[c] || Less(n, ct[c]))
  }

  lemma TagMapComplete(ct: map<Hash, string>, m: Mirror)
    requires IsTagMap(ct, m, m.tagRefs.Keys)
    ensures AllTagsResolve(m) && ct == TaggedCommits(m)
  {
    var tc := TaggedCommits(m);
    forall c | c in ct ensures c in tc && ct[c] == tc[c] {
      assert TagTarget(m, ct[c]).value == c;
      assert IsGreatest(ct[c], NamesAt(m, c));
      GreatestUnique(ct[c], tc[c], NamesAt(m, c));
    }
    assert ct.Keys == tc.Keys;
  }

  /** A commit `c` of the log carries a tag in `ct`. */
  predicate Tagged(ct: map<Hash, string>, c: Hash) {
    c in ct && ct[c] != ""
  }

  /** The describe string: the tag name itself for the tip, otherwise
      `<tag>-<depth>-g<tip7>`. */
  function DescribeName(tag: string, depth: nat, tip7: string): string {
    if depth == 0 then tag else tag + "-" + NatToString(depth) + "-g" + tip7
  }

  /** Reference definition of the log walk from `depth` untagged commits on. */
  function DescribeWalk(history: seq<Hash>, ct: map<Hash, string>, tip7: string, depth: nat): string
    decreases |history|
  {
    if history == [] then tip7
    else if Tagged(ct, history[0]) then DescribeName(ct[history[0]], depth, tip7)
    else DescribeWalk(history[1..], ct, tip7, depth + 1)
  }

  /** With the first tagged commit at position `k` of the log, the walk yields
      that tag, followed by `-k-g<tip7>` unless `k` is 0. */
  lemma {:induction false} WalkFindsFirstTag(history: seq<Hash>, ct: map<Hash, string>, tip7: string, depth: nat, k: nat)
    requires k < |history| && Tagged(ct, history[k])
    requires forall j :: 0 <= j < k ==> !Tagged(ct, history[j])
    ensures DescribeWalk(history, ct, tip7, depth) == DescribeName(ct[history[k]], depth + k, tip7)
    decreases k
  {
    if k > 0 {
      assert !Tagged(ct, history[0]);
      forall j | 0 <= j < k - 1 ensures !Tagged(ct, history[1..][j]) {
        assert history[1..][j] == history[j + 1];
      }
      WalkFindsFirstTag(history[1..], ct, tip7, depth + 1, k - 1);
    }
  }

  /** Without any tagged commit in the log the result is the short hash. */
  lemma {:induction false} WalkWithoutTags(history: seq<Hash>, ct: map<Hash, string>, tip7: string, depth: nat)
    requires forall j :: 0 <= j < |history| ==> !Tagged(ct, history[j])
    ensures DescribeWalk(history, ct, tip7, depth) == tip7
    decreases |history|
  {
    if history != [] {
      assert !Tagged(ct, history[0]);
      forall j | 0 <= j < |history| - 1 ensures !Tagged(ct, history[1..][j]) {
        assert history[1..][j] == history[j + 1];
      }
      WalkWithoutTags(history[1..], ct, tip7, depth + 1);
    }
  }

  /** `commitsTag` after visiting tag `n` (`prev < name` keeps the greater name). */
  function KeepGreater(ct: map<Hash, string>, c: Hash, n: string): map<Hash, string> {
    if c !in ct || Less(ct[c], n) then ct[c := n] else ct
  }

  lemma TagMapStep(ct: map<Hash, string>, m: Mirror, done: set<string>, n: string)
    requires done <= m.tagRefs.Keys && n in m.tagRefs && n !in done
    requires IsTagMap(ct, m, done) && TagTarget(m, n).Ok?
    ensures IsTagMap(KeepGreater(ct, TagTarget(m, n).value, n), m, done + {n})
  {
    var c := TagTarget(m, n).value;
    if c in ct {
      if Less(ct[c], n) {
        forall n' | n' in done && TagTarget(m, n') == Ok(c) ensures n' == n || Less(n', n) {
          if n' != ct[c] {
            LessTransitive(n', ct[c], n);
          }
        }
      } else if ct[c] != n {
        LessTotal(ct[c], n);
      }
    }
  }

  /** The first loop of `Describe`: fill `commitsTag` from the tag references.
      The order in which references are visited is left open, so a failure
      reports the error of some failing tag. */
  method CollectTags(m: Mirror) returns (r: Result<map<Hash, string>>)
    ensures r.Ok? <==> AllTagsResolve(m)
    ensures r.Ok? ==> r.value == TaggedCommits(m)
    ensures r.Err? ==> exists n :: n in m.tagRefs && TagTarget(m, n) == Err(r.msg)
  {
    r := VisitTags(m);
    if r.Ok? {
      TagMapComplete(r.value, m);
    }
  }

  /** The loop itself: visit every tag reference, keeping for each commit the
      greatest name seen so far. */
  method VisitTags(m: Mirror) returns (r: Result<map<Hash, string>>)
    ensures r.Ok? ==> IsTagMap(r.value, m, m.tagRefs.Keys)
    ensures r.Err? ==> exists n :: n in m.tagRefs && TagTarget(m, n) == Err(r.msg)
  {
    var commitsTag: map<Hash, string> := map[];
    var todo := m.tagRefs.Keys;
    ghost var done: set<string> := {};
    while todo != {}
      invariant done <= m.tagRefs.Keys && todo == m.tagRefs.Keys - done
      invariant IsTagMap(commitsTag, m, done)
      decreases |todo|
    {
      var n :| n in todo;
      var target := TagTarget(m, n);
      if target.Err? {
        assert n in m.tagRefs && TagTarget(m, n) == Err(target.msg);
        return Err(target.msg);
      }
      var c := target.value;
      TagMapStep(commitsTag, m, done, n);
      commitsTag := KeepGreater(commitsTag, c, n);
      todo, done := todo - {n}, done + {n};
    }
    return Ok(commitsTag);
  }

  /** The second loop of `Describe`: walk the log from the tip, counting
      untagged commits, and stop at the first tagged one. */
  method WalkLog(history: seq<Hash>, commitsTag: map<Hash, string>, short: string) returns (describe: string)
    ensures describe == DescribeWalk(history, commitsTag, short, 0)
  {
    describe := short;
    var depth := 0;
    while depth < |history|
      invariant depth <= |history|
      invariant DescribeWalk(history, commitsTag, short, 0) == DescribeWalk(history[depth..], commitsTag, short, depth)
    {
      var c := history[depth];
      if Tagged(commitsTag, c) {
        describe := DescribeName(commitsTag[c], depth, short);
        return;
      }
      assert history[depth..][1..] == history[depth + 1..];
      depth := depth + 1;
    }
  }

  /** The outcomes `Describe` may have: the reference error as is; success
      exactly when every tag resolves and the tip's commit is present, with
      the name the log walk gives; otherwise the log error, or the error of
      some tag that does not resolve (which one depends on the order the
      references are listed in). */
  ghost predicate Described(fs: Fs, dir: string, branch: string, history: seq<Hash>, r: Result<string>) {
    && (BranchRef(fs, dir, branch).Err? ==> r == Err(BranchRef(fs, dir, branch).msg))
    && (BranchRef(fs, dir, branch).Ok? ==>
          var m, tip := fs.mirrors[MirrorDir(dir)], BranchRef(fs, dir, branch).value;
          && (r.Ok? <==> AllTagsResolve(m) && tip in m.objects.commits)
          && (r.Ok? ==> r.value == DescribeWalk(history, TaggedCommits(m), Short(tip), 0))
          && (r.Err? && AllTagsResolve(m) ==> r.msg == "failed to compute git log: object not found")
          && (r.Err? && !AllTagsResolve(m) ==> exists n :: n in m.tagRefs && TagTarget(m, n) == Err(r.msg)))
  }

  /** `Describe(dir, branch)`: collect `commitsTag` over all tag references
      (any tag that is not an annotated tag of a commit fails the call), start
      the log at the tip, then name the tip after the first tagged commit. */
  method Describe(fs: Fs, dir: string, branch: string, history: seq<Hash>) returns (r: Result<string>)
    ensures Described(fs, dir, branch, history, r)
  {
    var ref := BranchRef(fs, dir, branch);
    if ref.Err? {
      return Err(ref.msg);
    }
    var tip := ref.value;
    var m := fs.mirrors[MirrorDir(dir)];
    var commitsTag := CollectTags(m);
    if commitsTag.Err? {
      return Err(commitsTag.msg);
    }
    if tip !in m.objects.commits {
      return Err("failed to compute git log: object not found");
    }
    var describe := WalkLog(history, commitsTag.value, Short(tip));
    return Ok(describe);
  }

  /** The cases of the describe result: a tagged tip gives its tag, `k` untagged
      commits before the first tagged one give `<tag>-k-g<tip7>`, and no tagged
      commit gives the short hash of the tip. */
  lemma DescribeCases(ct: map<Hash, string>, history: seq<Hash>, tip: Hash)
    requires |history| > 0 && history[0] == tip
    ensures Tagged(ct, tip) ==> DescribeWalk(history, ct, Short(tip), 0) == ct[tip]
    ensures forall k :: 0 < k < |history| && Tagged(ct, history[k]) && (forall j :: 0 <= j < k ==> !Tagged(ct, history[j])) ==>
      DescribeWalk(history, ct, Short(tip), 0) == ct[history[k]] + "-" + NatToString(k) + "-g" + Short(tip)
    ensures (forall j :: 0 <= j < |history| ==> !Tagged(ct, history[j])) ==> DescribeWalk(history, ct, Short(tip), 0) == Short(tip)
  {
    if Tagged(ct, tip) {
      WalkFindsFirstTag(history, ct, Short(tip), 0, 0);
    }
    forall k | 0 < k < |history| && Tagged(ct, history[k]) && (forall j :: 0 <= j < k ==> !Tagged(ct, history[j]))
      ensures DescribeWalk(history, ct, Short(tip), 0) == ct[history[k]] + "-" + NatToString(k) + "-g" + Short(tip)
    {
      WalkFindsFirstTag(history, ct, Short(tip), 0, k);
    }
    if forall j :: 0 <= j < |history| ==> !Tagged(ct, history[j]) {
      WalkWithoutTags(history, ct, Short(tip), 0);
    }
  }

  /** The name kept for a tagged commit is the greatest of the names of the
      tags pointing at it. */
  lemma TaggedCommitKeepsGreatest(m: Mirror, c: Hash, n: string)
    requires AllTagsResolve(m)
    requires n in m.tagRefs && TagTarget(m, n) == Ok(c)
    ensures c in TaggedCommits(m)
    ensures TaggedCommits(m)[c] in m.tagRefs && TagTarget(m, TaggedCommits(m)[c]) == Ok(c)
    ensures n == TaggedCommits(m)[c] || Less(n, TaggedCommits(m)[c])
  {
    assert n in NamesAt(m, c);
  }

  /** `g` is the greatest of the names of the tags in `done` whose target is
      `c`, or `None` when there is none. */
  ghost predicate GreatestAt(g: Option<string>, m: Mirror, c: Hash, done: set<string>) {
    var names := set n | n in done && n in m.tagRefs && TagTarget(m, n) == Ok(c);
    && (g.None? <==> names == {})
    && (g.Some? ==> IsGreatest(g.value, names))
  }

  /** The exact name of a tip as intended: the greatest name among the
      annotated tags whose target is the tip, else the short hash. */
  ghost predicate ExactNamed(fs: Fs, dir: string, branch: string, r: Result<string>) {
    match BranchRef(fs, dir, branch)
    case Err(e) => r == Err(e)
    case Ok(tip) =>
      var m := fs.mirrors[MirrorDir(dir)];
      && r.Ok?
      && (NamesAt(m, tip) == {} ==> r.value == Short(tip))
      && (NamesAt(m, tip) != {} ==>
            r.value in m.tagRefs && TagTarget(m, r.value) == Ok(tip) &&
            forall n :: n in m.tagRefs && TagTarget(m, n) == Ok(tip) ==> n == r.value || Less(n, r.value))
  }

  /** `Tag` in exact mode, corrected: look for a tag reference whose tag
      object points at the tip (tags that do not resolve are passed over),
      keep the greatest name, and fall back to the short hash. */
  method ExactTag(fs: Fs, dir: string, branch: string) returns (r: Result<string>)
    ensures ExactNamed(fs, dir, branch, r)
  {
    var ref := BranchRef(fs, dir, branch);
    if ref.Err? {
      return Err(ref.msg);
    }
    var tip := ref.value;
    var m := fs.mirrors[MirrorDir(dir)];
    var best: Option<string> := None;
    var todo := m.tagRefs.Keys;
    ghost var done: set<string> := {};
    while todo != {}
      invariant done <= m.tagRefs.Keys && todo == m.tagRefs.Keys - done
      invariant GreatestAt(best, m, tip, done)
      decreases |todo|
    {
      var n :| n in todo;
      GreatestAtStep(best, m, tip, done, n);
      if TagTarget(m, n) == Ok(tip) && (best.None? || Less(best.value, n)) {
        best := Some(n);
      }
      todo, done := todo - {n}, done + {n};
    }
    assert done == m.tagRefs.Keys;
    assert (set n | n in done && n in m.tagRefs && TagTarget(m, n) == Ok(tip)) == NamesAt(m, tip);
    if best.None? {
      return Ok(Short(tip));
    }
    return Ok(best.value);
  }

  /** One tag reference more: a tag on `c` whose name is greater than the best
      so far replaces it. */
  lemma GreatestAtStep(g: Option<string>, m: Mirror, c: Hash, done: set<string>, n: string)
    requires GreatestAt(g, m, c, done) && n in m.tagRefs && n !in done
    ensures GreatestAt(if TagTarget(m, n) == Ok(c) && (g.None? || Less(g.value, n)) then Some(n) else g,
                       m, c, done + {n})
  {
    var names := set x | x in done && x in m.tagRefs && TagTarget(m, x) == Ok(c);
    var names' := set x | x in done + {n} && x in m.tagRefs && TagTarget(m, x) == Ok(c);
    if TagTarget(m, n) == Ok(c) {
      assert names' == names + {n};
      if g.Some? {
        if Less(g.value, n) {
          forall x | x in names' ensures x == n || Less(x, n) {
            if x != n && x != g.value {
              LessTransitive(x, g.value, n);
            }
          }
        } else if g.value != n {
          LessTotal(g.value, n);
        }
      }
    } else {
      assert names' == names;
    }
  }

  /** As written, `TagObject` is asked for the tip's own hash, a commit, so on
      a well-typed store exact mode never names a tip by its tag: with an
      annotated tag `n` on the tip, the result is still the short hash, while
      the corrected lookup names the tip by `n` or a greater tag on it. */
  lemma AsWrittenExactTagIgnoresTags(fs: Fs, dir: string, branch: string, n: string, r: Result<string>)
    requires BranchRef(fs, dir, branch).Ok? && WellTyped(fs.mirrors[MirrorDir(dir)])
    requires var m, tip := fs.mirrors[MirrorDir(dir)], BranchRef(fs, dir, branch).value;
      n in m.tagRefs && TagTarget(m, n) == Ok(tip)
    requires ExactNamed(fs, dir, branch, r)
    ensures Tag(fs, dir, branch, true) == Ok(Short(BranchRef(fs, dir, branch).value))
    ensures var m, tip := fs.mirrors[MirrorDir(dir)], BranchRef(fs, dir, branch).value;
      && r.Ok? && r.value in m.tagRefs && TagTarget(m, r.value) == Ok(tip)
      && (n == r.value || Less(n, r.value))
      && (Short(tip) !in m.tagRefs ==> r.value != Short(tip))
  {
    var m, tip := fs.mirrors[MirrorDir(dir)], BranchRef(fs, dir, branch).value;
    ExactTagResult(fs, dir, branch);
    assert n in NamesAt(m, tip);
  }
}
