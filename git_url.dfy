/** Repository URLs (git.go `gitURL`, `cutAllowedPrefix`): a repository id is
    turned into a URL by prepending the configured `--git-prefix`, and an
    incoming URL is accepted when it starts with that prefix or with one of the
    `--git-allow-prefix` values, tried in order. */
module GitUrl {
  import opened Text

  /** The `--git-prefix` flag and the `--git-allow-prefix` list. */
  datatype GitConfig = GitConfig(prefix: string, allowed: seq<string>)

  function GitURL(cfg: GitConfig, repo: string): string {
    cfg.prefix + repo
  }

  /** Reference definition of the search: the first of `prefixes` that `url`
      starts with is cut off; with none, `url` comes back unchanged and not ok. */
  function FirstCut(url: string, prefixes: seq<string>): (r: (string, bool))
    decreases |prefixes|
  {
    if prefixes == [] then (url, false)
    else if HasPrefix(url, prefixes[0]) then CutPrefix(url, prefixes[0])
    else FirstCut(url, prefixes[1..])
  }

  /** `cutAllowedPrefix` as a function: `--git-prefix` first, then the allowed
      prefixes. */
  function CutAllowed(cfg: GitConfig, url: string): (r: (string, bool)) {
    FirstCut(url, [cfg.prefix] + cfg.allowed)
  }

  /** The loop of `cutAllowedPrefix`. */
  method CutAllowedPrefix(cfg: GitConfig, url: string) returns (base: string, ok: bool)
    ensures (base, ok) == CutAllowed(cfg, url)
  {
    var prefixes := [cfg.prefix] + cfg.allowed;
    base, ok := url, false;
    var i := 0;
    while i < |prefixes|
      invariant 0 <= i <= |prefixes|
      invariant FirstCut(url, prefixes) == FirstCut(url, prefixes[i..])
      invariant base == url && !ok
    {
      var cut := CutPrefix(url, prefixes[i]);
      if cut.1 {
        base, ok := cut.0, true;
        return;
      }
      assert prefixes[i..][1..] == prefixes[i + 1..];
      i := i + 1;
    }
  }

  /** A URL is accepted iff one of the prefixes matches; the accepted base is
      the URL without the FIRST matching prefix, earlier prefixes not matching. */
  lemma {:induction false} FirstCutSpec(url: string, prefixes: seq<string>)
    ensures FirstCut(url, prefixes).1 <==> exists i :: 0 <= i < |prefixes| && HasPrefix(url, prefixes[i])
    ensures !FirstCut(url, prefixes).1 ==> FirstCut(url, prefixes).0 == url
    ensures FirstCut(url, prefixes).1 ==>
      exists i :: 0 <= i < |prefixes| && HasPrefix(url, prefixes[i]) &&
        prefixes[i] + FirstCut(url, prefixes).0 == url &&
        (forall j :: 0 <= j < i ==> !HasPrefix(url, prefixes[j]))
    decreases |prefixes|
  {
    if prefixes != [] && !HasPrefix(url, prefixes[0]) {
      FirstCutSpec(url, prefixes[1..]);
      if FirstCut(url, prefixes).1 {
        var i :| 0 <= i < |prefixes[1..]| && HasPrefix(url, prefixes[1..][i]) &&
          prefixes[1..][i] + FirstCut(url, prefixes[1..]).0 == url &&
          (forall j :: 0 <= j < i ==> !HasPrefix(url, prefixes[1..][j]));
        assert forall j :: 1 <= j < i + 1 ==> prefixes[j] == prefixes[1..][j - 1];
      } else {
        forall i | 0 <= i < |prefixes| ensures !HasPrefix(url, prefixes[i]) {
          if i > 0 { assert prefixes[i] == prefixes[1..][i - 1]; }
        }
      }
    }
  }

  /** Round trip: the URL built for a repository is accepted and yields that
      repository back. */
  lemma CutGitURL(cfg: GitConfig, repo: string)
    ensures CutAllowed(cfg, GitURL(cfg, repo)) == (repo, true)
  {
    var url := GitURL(cfg, repo);
    assert url[..|cfg.prefix|] == cfg.prefix;
    assert url[|cfg.prefix|..] == repo;
  }

  /** With an empty `--git-prefix` every URL is accepted unchanged, whatever the
      allowed list holds. */
  lemma EmptyPrefixAcceptsAll(cfg: GitConfig, url: string)
    requires cfg.prefix == ""
    ensures CutAllowed(cfg, url) == (url, true)
  {
    assert url[..0] == "";
  }
}
