/** The catalog of applications (apps.go): the value types that describe what to
    build and deploy, and the reload that replaces the process-wide catalog as a
    whole. Cloning the apps repository and reading `apps.yaml` are external and
    arrive as an `AppsFetch` outcome; loading one entry (`AppDesc.GetApp`, which
    reads or renders a file of the apps tree) is an uninterpreted fallible
    function `getApp`. */
module Apps {
  import opened Wrappers

  /** A YAML-set operation of a deploy step: the file, the slash-delimited path
      and the value to write. */
  datatype YamlSetOp = YamlSetOp(file: string, path: string, value: string)

  /** One deploy step: a script (empty for none) and an optional YAML-set;
      when both are present the script runs first. */
  datatype DeployUpdate = DeployUpdate(script: string, yamlSet: Option<YamlSetOp>)

  /** One triggerable combination of source, overlay and deploy branches. */
  datatype BranchInfo = BranchInfo(
    source: string,
    overlay: string,
    deploy: string,
    dockerTagSuffix: string,
    dockerArgs: seq<string>)

  datatype Build = Build(
    source: string,
    overlay: string,
    docker: string,
    branches: seq<BranchInfo>,
    deployUpdates: seq<DeployUpdate>,
    dockerArgs: seq<string>)

  datatype App = App(name: string, deploy: string, builds: seq<Build>, dockerArgs: seq<string>)

  /** An entry of `apps.yaml`: where to read the App from (a file, or a template
      rendered with `data`). */
  datatype AppDesc = AppDesc(file: string, template: string, data: map<string, string>)

  /** The decoded `apps.yaml` (`descs`) and the Apps loaded from it (`apps`). */
  datatype Project = Project(descs: seq<AppDesc>, apps: seq<App>)

  /** Repository path and branch the catalog itself is read from. */
  datatype RepoRef = RepoRef(repo: string, branch: string)

  /** The steps of reading `apps.yaml` from the apps repository that can fail
      before decoding. */
  datatype LoadStage = Clone | ResolveRevision | CommitObject | CommitTree | AppsFile | FileReader

  /** The keys of the YAML document as written, before strict decoding. */
  datatype DescDocument = DescDocument(keys: seq<string>, desc: AppDesc)

  /** What the YAML decoder reads from `apps.yaml`: a stream without any
      document (an empty or comment-only file), text it rejects (a syntax
      error, or a value that does not fit the declared field types, with the
      library's message), or a document with its keys as written. */
  datatype AppsDocument =
    | NoDocument
    | Malformed(msg: string)
    | Document(keys: seq<string>, entries: seq<DescDocument>)

  /** What fetching `apps.yaml` produced. */
  datatype AppsFetch = StageFailed(stage: LoadStage, cause: string) | Fetched(doc: AppsDocument)

  /** Keys that the strict decoder maps onto `Project` and onto `AppDesc`. */
  const ProjectKeys: set<string> := {"apps"}
  const DescKeys: set<string> := {"file", "template", "data"}

  predicate KnownKeys(keys: seq<string>, known: set<string>) {
    forall k :: 0 <= k < |keys| ==> keys[k] in known
  }

  function DescsOf(entries: seq<DescDocument>): (descs: seq<AppDesc>)
    ensures |descs| == |entries|
    ensures forall i :: 0 <= i < |entries| ==> descs[i] == entries[i].desc
  {
    seq(|entries|, i requires 0 <= i < |entries| => entries[i].desc)
  }

  /** No key occurs twice. */
  predicate Distinct(keys: seq<string>) {
    forall i, j :: 0 <= i < j < |keys| ==> keys[i] != keys[j]
  }

  /** The keys of one mapping pass strict decoding: each is declared, and none
      is repeated. */
  predicate StrictKeys(keys: seq<string>, known: set<string>) {
    KnownKeys(keys, known) && Distinct(keys)
  }

  /** Strict decoding: an empty stream is `io.EOF`; any key the target types
      do not declare, and any key repeated within a mapping, is an error for
      the whole document. */
  function Decode(doc: AppsDocument): (r: Result<seq<AppDesc>>)
    ensures doc.NoDocument? ==> r == Err("EOF")
    ensures doc.Malformed? ==> r == Err(doc.msg)
    ensures r.Ok? <==>
      doc.Document? && StrictKeys(doc.keys, ProjectKeys) &&
      forall i :: 0 <= i < |doc.entries| ==> StrictKeys(doc.entries[i].keys, DescKeys)
    ensures r.Ok? ==> r.value == DescsOf(doc.entries)
  {
    match doc
    case NoDocument => Err("EOF")
    case Malformed(msg) => Err(msg)
    case Document(keys, entries) =>
      if !KnownKeys(keys, ProjectKeys) then Err("unknown field in apps document")
      else if !Distinct(keys) then Err("duplicate key in apps document")
      else if exists i :: 0 <= i < |entries| && !KnownKeys(entries[i].keys, DescKeys) then
        Err("unknown field in app descriptor")
      else if exists i :: 0 <= i < |entries| && !Distinct(entries[i].keys) then
        Err("duplicate key in app descriptor")
      else Ok(DescsOf(entries))
  }

  /** The Apps of `descs` whose loading succeeds, in descriptor order. */
  function LoadedApps(descs: seq<AppDesc>, getApp: AppDesc -> Result<App>): seq<App>
    decreases |descs|
  {
    if descs == [] then []
    else
      var last := getApp(descs[|descs| - 1]);
      LoadedApps(descs[..|descs| - 1], getApp) + (if last.Ok? then [last.value] else [])
  }

  /** The positions of the descriptors that load, in increasing order. */
  function LoadedIndices(descs: seq<AppDesc>, getApp: AppDesc -> Result<App>): seq<nat>
    decreases |descs|
  {
    if descs == [] then []
    else
      var n := |descs| - 1;
      LoadedIndices(descs[..n], getApp) + (if getApp(descs[n]).Ok? then [n] else [])
  }

  /** The loaded Apps are exactly the successful loads, in the order of their
      descriptors: the k-th loaded App comes from the k-th successful
      descriptor, positions increase, and no successful descriptor is missed. */
  lemma {:induction false} LoadedAppsInOrder(descs: seq<AppDesc>, getApp: AppDesc -> Result<App>)
    ensures var apps, idx := LoadedApps(descs, getApp), LoadedIndices(descs, getApp);
      && |idx| == |apps| <= |descs|
      && (forall k :: 0 <= k < |idx| ==> idx[k] < |descs| && getApp(descs[idx[k]]) == Ok(apps[k]))
      && (forall k, l :: 0 <= k < l < |idx| ==> idx[k] < idx[l])
      && (forall i :: 0 <= i < |descs| && getApp(descs[i]).Ok? ==> i in idx)
    decreases |descs|
  {
    if descs != [] {
      var n := |descs| - 1;
      var pre := descs[..n];
      LoadedAppsInOrder(pre, getApp);
      var apps0, idx0 := LoadedApps(pre, getApp), LoadedIndices(pre, getApp);
      var apps, idx := LoadedApps(descs, getApp), LoadedIndices(descs, getApp);
      var ok := getApp(descs[n]).Ok?;
      assert apps == apps0 + (if ok then [getApp(descs[n]).value] else []);
      assert idx == idx0 + (if ok then [n] else []);
      forall k | 0 <= k < |idx|
        ensures idx[k] < |descs| && getApp(descs[idx[k]]) == Ok(apps[k])
      {
        if k < |idx0| {
          assert idx[k] == idx0[k] && apps[k] == apps0[k];
          assert pre[idx0[k]] == descs[idx0[k]];
        }
      }
      forall i | 0 <= i < |descs| && getApp(descs[i]).Ok? ensures i in idx {
        if i < n {
          assert pre[i] == descs[i];
          assert i in idx0;
        }
      }
    }
  }

  /** When every entry loads, nothing is dropped. */
  lemma {:induction false} AllLoaded(descs: seq<AppDesc>, getApp: AppDesc -> Result<App>)
    requires forall i :: 0 <= i < |descs| ==> getApp(descs[i]).Ok?
    ensures |LoadedApps(descs, getApp)| == |descs|
    ensures forall i :: 0 <= i < |descs| ==> LoadedApps(descs, getApp)[i] == getApp(descs[i]).value
    decreases |descs|
  {
    if descs != [] {
      var n := |descs| - 1;
      assert forall i :: 0 <= i < n ==> descs[..n][i] == descs[i];
      AllLoaded(descs[..n], getApp);
    }
  }

  /** `updateApps` as a function of the previous catalog: any failure before
      the descriptors are decoded keeps `prev`; otherwise the catalog is the
      decoded descriptors with the Apps that load. */
  function Reload(prev: Project, fetch: AppsFetch, getApp: AppDesc -> Result<App>): (p: Project)
    ensures fetch.StageFailed? ==> p == prev
    ensures fetch.Fetched? && Decode(fetch.doc).Err? ==> p == prev
    ensures fetch == Fetched(NoDocument) ==> p == prev
    ensures fetch.Fetched? && Decode(fetch.doc).Ok? ==>
      p.descs == DescsOf(fetch.doc.entries) && p.apps == LoadedApps(p.descs, getApp) && |p.apps| <= |p.descs|
  {
    match fetch
    case StageFailed(_, _) => prev
    case Fetched(doc) =>
      match Decode(doc)
      case Err(_) => prev
      case Ok(descs) =>
        LoadedAppsInOrder(descs, getApp);
        Project(descs, LoadedApps(descs, getApp))
  }

  /** The loop of `updateApps` that keeps the Apps that load. */
  method LoadApps(descs: seq<AppDesc>, getApp: AppDesc -> Result<App>) returns (apps: seq<App>)
    ensures apps == LoadedApps(descs, getApp)
  {
    apps := [];
    for i := 0 to |descs|
      invariant apps == LoadedApps(descs[..i], getApp)
    {
      assert descs[..i + 1][..i] == descs[..i];
      var app := getApp(descs[i]);
      if app.Err? {
        continue;
      }
      apps := apps + [app.value];
    }
    assert descs[..|descs|] == descs;
  }

  /** The process-wide catalog (`currentProject`) and where it is read from. */
  class Catalog {
    const appsRepo: RepoRef
    var current: Project

    constructor (appsRepo: RepoRef)
      ensures this.appsRepo == appsRepo && current == Project([], [])
    {
      this.appsRepo := appsRepo;
      current := Project([], []);
    }

    /** `updateApps`: every failure returns before the single assignment to
        `current`, so the catalog is replaced all at once or not at all. */
    method Update(fetch: AppsFetch, getApp: AppDesc -> Result<App>)
      modifies this
      ensures current == Reload(old(current), fetch, getApp)
    {
      if fetch.StageFailed? {
        return;
      }
      var decoded := Decode(fetch.doc);
      if decoded.Err? {
        return;
      }
      var apps := LoadApps(decoded.value, getApp);
      current := Project(decoded.value, apps);
    }
  }
}
