/**
 * `AssistantDist`: one assistant distribution, that is the pipeline, its
 * `pipeline_conf.json` document and up to four deployment documents, under
 * `<dream root>/<dists dir>/<name>`.  The aggregate adds and removes
 * components across documents, stages edits of one document in a
 * temporary store, clones itself under a new name, builds the definitions
 * of a new DFF skill and checks the ports of every loaded document.
 */
module AssistantDists {
  import opened Wrappers
  import opened Dicts
  import opened Text
  import opened Json
  import opened PurePath
  import opened Utils
  import opened Generics
  import opened ComposeConfigs
  import opened DreamPipelines
  import opened PipelineGraph

  // ---- which documents a distribution loads ------------------------------------------------

  /** The five "load this document" flags, in parameter order. */
  datatype Flags = Flags(pipelineConf: bool, composeOverride: bool, composeDev: bool, composeProxy: bool, composeLocal: bool)

  /** The documents a load reads: the pipeline and its configuration always, the deployment documents as flagged. */
  datatype LoadPlan = LoadPlan(composeOverride: bool, composeDev: bool, composeProxy: bool, composeLocal: bool)

  predicate AllSet(f: Flags)
  {
    f.pipelineConf && f.composeOverride && f.composeDev && f.composeProxy && f.composeLocal
  }

  /**
   * `load_configs_with_default_filenames` without the reading: unless every
   * flag is set, the file names found in the distribution decide instead.
   * The pipeline flag is recomputed like the others but never consulted.
   */
  function PlanLoad(f: Flags, filenames: seq<string>): LoadPlan
  {
    if AllSet(f) then LoadPlan(true, true, true, true)
    else
      LoadPlan(FileName(Override) in filenames, FileName(Dev) in filenames,
               FileName(Proxy) in filenames, FileName(Local) in filenames)
  }

  /** With every flag set all documents load; otherwise a document loads exactly when its default file is present. */
  lemma PlanLoadCases(f: Flags, filenames: seq<string>)
    ensures AllSet(f) ==> PlanLoad(f, filenames) == LoadPlan(true, true, true, true)
    ensures (!AllSet(f) ==>
               (PlanLoad(f, filenames).composeOverride <==> "docker-compose.override.yml" in filenames) &&
               (PlanLoad(f, filenames).composeDev <==> "dev.yml" in filenames) &&
               (PlanLoad(f, filenames).composeProxy <==> "proxy.yml" in filenames) &&
               (PlanLoad(f, filenames).composeLocal <==> "local.yml" in filenames))
  {
  }

  /** Short of all five, which flags are set makes no difference. */
  lemma PlanLoadIgnoresPartialFlags(f: Flags, g: Flags, filenames: seq<string>)
    requires !AllSet(f) && !AllSet(g)
    ensures PlanLoad(f, filenames) == PlanLoad(g, filenames)
  {
  }

  // ---- where a distribution may live ------------------------------------------------------------

  const PATH_TAKEN_HEAD: string := "Distribution with path "
  const PATH_TAKEN_TAIL: string := " already exists!"
  const PATH_OUTSIDE_MIDDLE: string := " must contain "

  /** The directory every distribution sits in: `dream_root / distsDir`. */
  function DistsHome(dreamRoot: Path, distsDir: string): Path
  {
    Div(dreamRoot, PathOf(distsDir))
  }

  /**
   * The two checks of the `dist_path` setter: the path must not exist yet,
   * and its parent must be the distributions directory.
   */
  function DistPathCheck(dreamRoot: Path, distsDir: string, newPath: Path, disk: Disk): (r: Outcome)
    ensures r.Pass? <==> newPath !in disk.existing && Parent(newPath) == DistsHome(dreamRoot, distsDir)
    ensures newPath in disk.existing ==> r == Fail(ValueError(PATH_TAKEN_HEAD + PathText(newPath) + PATH_TAKEN_TAIL))
    ensures (newPath !in disk.existing && Parent(newPath) != DistsHome(dreamRoot, distsDir) ==>
               r == Fail(ValueError(PathText(newPath) + PATH_OUTSIDE_MIDDLE + PathText(DistsHome(dreamRoot, distsDir)))))
  {
    if newPath in disk.existing then Fail(ValueError(PATH_TAKEN_HEAD + PathText(newPath) + PATH_TAKEN_TAIL))
    else if Parent(newPath) != DistsHome(dreamRoot, distsDir) then
      Fail(ValueError(PathText(newPath) + PATH_OUTSIDE_MIDDLE + PathText(DistsHome(dreamRoot, distsDir))))
    else Pass
  }

  /** A path the setter accepts resolves back to its own name and the dream root. */
  lemma AcceptedPathResolves(dreamRoot: Path, distsDir: string, newPath: Path, disk: Disk)
    requires IsSegment(distsDir)
    requires DistPathCheck(dreamRoot, distsDir, newPath, disk).Pass?
    ensures ResolveNameAndDreamRoot(PPath(newPath)) == Ok((Name(newPath), dreamRoot))
  {
    SegmentPath(distsDir);
    var home := DistsHome(dreamRoot, distsDir);
    assert |home.parts| == |dreamRoot.parts| + 1;
    assert newPath.parts != [];
    var n := |newPath.parts|;
    assert newPath.parts[..n - 1] == dreamRoot.parts + [distsDir];
    assert newPath.parts[..n - 2] == dreamRoot.parts;
  }

  /** The path a clone or a new name gets: the current path with its last segment replaced. */
  lemma RenamedPathStaysHome(dreamRoot: Path, distsDir: string, distPath: Path, newName: string, disk: Disk)
    requires WithName(distPath, newName).Ok?
    requires Parent(distPath) == DistsHome(dreamRoot, distsDir)
    requires WithName(distPath, newName).value !in disk.existing
    ensures DistPathCheck(dreamRoot, distsDir, WithName(distPath, newName).value, disk).Pass?
    ensures Name(WithName(distPath, newName).value) == newName
  {
  }

  // ---- the definitions of a new DFF skill ---------------------------------------------------------

  const DFF_DIALOG_FORMATTER_HEAD: string := "state_formatters.dp_formatters:"
  const DFF_DIALOG_FORMATTER_TAIL: string := "_formatter"
  const DFF_RESPONSE_FORMATTER: string := "state_formatters.dp_formatters:skill_with_attributes_formatter_service"
  const DFF_ENDPOINT: string := "respond"
  const DFF_LISTEN_HOST: string := "0.0.0.0"
  const DFF_MEMORY: string := "1G"
  const DFF_PROXY_PASS_HEAD: string := "PROXY_PASS=dream.deeppavlov.ai"
  const DFF_PORT_NAME: string := "PORT"

  /** `name.replace("-", "_")`: the skill's key in the pipeline configuration. */
  function Underscored(name: string): string
  {
    ReplaceChar(name, '-', '_')
  }

  /** The skill's connector url: `http://<dashed name>:<port>/respond`. */
  function DffUrl(name: string, port: int): string
  {
    BuildConnectorUrl("http", Dashed(name), IntToString(port), DFF_ENDPOINT)
  }

  /** The pipeline service of a DFF skill: an http connector after the skill selectors. */
  function DffService(name: string, port: int): Service
  {
    Service(
      ConnectorInline(ConnectorDef("http", Some(JNum(2)), Some(DffUrl(name, port)), None, None, None, None)),
      Some(DFF_DIALOG_FORMATTER_HEAD + name + DFF_DIALOG_FORMATTER_TAIL),
      Some(DFF_RESPONSE_FORMATTER),
      Some(["skill_selectors"]),
      None,
      Some("add_hypothesis"),
      None)
  }

  /** The address gunicorn listens on. */
  function DffListenAddress(port: int): string
  {
    DFF_LISTEN_HOST + ":" + IntToString(port)
  }

  /** The words of the override command: gunicorn listening on `0.0.0.0:<port>`. */
  function DffCommandWords(port: int): seq<string>
  {
    ["gunicorn", "--workers=1", "server:app", "-b", DffListenAddress(port), "--reload", "--timeout", "500"]
  }

  /** The override command, its words joined by single spaces. */
  function DffCommand(port: int): string
  {
    Join(DffCommandWords(port), " ")
  }

  /** The build arguments of the override container. */
  function DffBuildArgs(name: string, port: int): Dict<string, Json>
  {
    [("SERVICE_PORT", JNum(port)), ("SERVICE_NAME", JStr(name))]
  }

  /** The override container: built from the skill's Dockerfile, with 1G memory limits and reservations. */
  function DffOverrideContainer(name: string, port: int, skillDir: Path): Container
  {
    Container(
      None,
      Some([JStr(".env")]),
      Some(BuildDefinition(Some(DffBuildArgs(name, port)), ".", Some(PathText(Div(skillDir, PathOf("Dockerfile")))))),
      Some(CmdStr(DffCommand(port))),
      None,
      Some(Deployment(None, None, Some(Resources(ResourcesArg(DFF_MEMORY), ResourcesArg(DFF_MEMORY))))),
      None,
      None)
  }

  /** The dev container: the skill's sources mounted, and `<port>:<port>` published. */
  function DffDevContainer(name: string, port: int): Container
  {
    Container(
      Some(["./skills/" + name + ":/src", "./common:/src/common"]),
      None, None, None, None, None, None,
      Some([IntToString(port) + ":" + IntToString(port)]))
  }

  /** The "PROXY_PASS" entry of the proxy container. */
  function DffProxyPass(port: int): string
  {
    DFF_PROXY_PASS_HEAD + ":" + IntToString(port)
  }

  /** The "PORT" entry of the proxy container. */
  function DffPortEntry(port: int): string
  {
    DFF_PORT_NAME + "=" + IntToString(port)
  }

  /** The proxy container: nginx passing to the hosted skill on the same port. */
  function DffProxyContainer(port: int): Container
  {
    Container(
      None,
      None,
      Some(BuildDefinition(None, "dp/proxy", Some("Dockerfile"))),
      Some(CmdList([JStr("nginx"), JStr("-g"), JStr("daemon off;")])),
      Some(EnvList([DffProxyPass(port), DffPortEntry(port)])),
      None,
      None,
      None)
  }

  /** A rendered integer holds neither separator the port readers cut at, nor a space. */
  lemma PortTextFree(port: int)
    ensures ':' !in IntToString(port) && '/' !in IntToString(port) && '=' !in IntToString(port)
  {
    var q := IntToString(port);
    assert forall k | 0 <= k < |q| :: q[k] == '-' || IsDigit(q[k]);
  }

  /** The skill's endpoint holds no "//". */
  lemma EndpointFree()
    ensures !Contains(DFF_ENDPOINT, "//")
  {
    forall j | 0 <= j <= |DFF_ENDPOINT|
      ensures !OccursAt(DFF_ENDPOINT, "//", j)
    {
      if j + 2 <= |DFF_ENDPOINT| {
        assert DFF_ENDPOINT[j..j + 2][0] == DFF_ENDPOINT[j] != '/';
      }
    }
  }

  /** The pipeline service's url gives the port and names the dashed container. */
  lemma DffServicePort(name: string, port: int)
    requires ':' !in Dashed(name) && '/' !in Dashed(name)
    ensures DreamPipelines.DiscoverPort(DffService(name, port)) == Ok(Some(port))
    ensures HostOrNone(Some(DffUrl(name, port))) == Some(Dashed(name))
  {
    PortTextFree(port);
    EndpointFree();
    DiscoverPortOfBuiltUrl(DffService(name, port), "http", Dashed(name), port, DFF_ENDPOINT);
    ParseBuildRoundTrip("http", Dashed(name), IntToString(port), DFF_ENDPOINT);
  }

  /** The listen address is one word that cuts at its ':' into the host and the port. */
  lemma DffListenWord(port: int)
    ensures |DffListenAddress(port)| > 0 && NoSpace(DffListenAddress(port))
    ensures ListenToken(DffListenAddress(port))
    ensures SplitOnce(DffListenAddress(port), ":") == [DFF_LISTEN_HOST, IntToString(port)]
  {
    var q := IntToString(port);
    var w := DffListenAddress(port);
    assert w[..|DFF_LISTEN_HOST|] == DFF_LISTEN_HOST;
    assert ':' !in DFF_LISTEN_HOST;
    FindFirstChar(DFF_LISTEN_HOST, ':', q);
    assert w == DFF_LISTEN_HOST + [':'] + q;
    assert w[|DFF_LISTEN_HOST| + 1..] == q;
    forall k | 0 <= k < |w|
      ensures !IsSpace(w[k])
    {
      if k > |DFF_LISTEN_HOST| {
        assert w[k] == q[k - |DFF_LISTEN_HOST| - 1];
      }
    }
  }

  /** The command scan stops at the listen address, the fifth word. */
  lemma DffCommandScan(port: int)
    ensures ScanCommand(Tokens(DffCommand(port)), 0, None) == Ok(Some(IntToString(port)))
  {
    var w := DffCommandWords(port);
    DffCommandWordsFree(port);
    TokensOfWords(w);
    DffListenWord(port);
    forall j | 0 <= j < 4
      ensures !ListenToken(w[j])
    {
      assert w[j][0] != '0';
    }
    ScanStopsAtListenAddress(w, 0, 4, None);
  }

  /** Every word of the command is non-empty and holds no whitespace. */
  lemma DffCommandWordsFree(port: int)
    ensures forall k | 0 <= k < |DffCommandWords(port)| :: |DffCommandWords(port)[k]| > 0 && NoSpace(DffCommandWords(port)[k])
  {
    var w := DffCommandWords(port);
    DffListenWord(port);
    forall k | 0 <= k < |w|
      ensures |w[k]| > 0 && NoSpace(w[k])
    {
      if k != 4 {
        assert NoSpace(w[k]);
      }
    }
  }

  /** The override container's build argument and command agree on the port. */
  lemma DffOverridePort(name: string, port: int, skillDir: Path)
    ensures OverridePort(Some(DffOverrideContainer(name, port, skillDir))) == Ok(Some(port))
  {
    DffArgumentPort(name, port, skillDir);
    DffCommandPort(name, port, skillDir);
  }

  /** The build argument gives the port unless it is zero, which is falsy. */
  lemma DffArgumentPort(name: string, port: int, skillDir: Path)
    ensures ServicePort(Some(DffOverrideContainer(name, port, skillDir))) == Ok(if port != 0 then Some(port) else None)
  {
    var args := DffBuildArgs(name, port);
    assert Get(args, "SERVICE_PORT") == Some(JNum(port));
    if port == 0 {
      assert "PORT" != args[0].0 && "PORT" != args[1].0;
      assert Get(args, "PORT") == None;
    }
    assert ArgPortValue(args) == if port != 0 then JNum(port) else JNull;
  }

  /** The command's listen address carries the port. */
  lemma DffCommandPort(name: string, port: int, skillDir: Path)
    ensures ComposeConfigs.CommandPort(Some(DffOverrideContainer(name, port, skillDir))) == Ok(Some(port))
  {
    var s := DffCommand(port);
    DffCommandScan(port);
    IntRoundTrip(port);
    assert s != "" by {
      assert ScanCommand(Tokens(s), 0, None) != Ok(None);
    }
  }

  /** The dev container publishes the port. */
  lemma DffDevPort(name: string, port: int)
    ensures DevPort(Some(DffDevContainer(name, port))) == Ok(port)
  {
    PortTextFree(port);
    DevPortOfMapping(Some(DffDevContainer(name, port)), IntToString(port), port);
  }

  /** The "PORT" entry is read, the "PROXY_PASS" entry skipped. */
  lemma DffEnvironmentPort(port: int)
    ensures EnvironmentPort(Some(DffProxyContainer(port))) == Ok(port)
  {
    var q := IntToString(port);
    var env := [DffProxyPass(port), DffPortEntry(port)];
    PortTextFree(port);
    assert Join([DFF_PORT_NAME, q], "=") == env[1];
    SplitJoinChar([DFF_PORT_NAME, q], '=');
    assert StartsWith(env[1], "PORT");
    assert env[0][1] == 'R';
    assert !StartsWith(env[0], "PORT");
    assert EnvPortScan(env, 1, None) == Ok(Some(q));
    IntRoundTrip(port);
  }

  /** The "PROXY_PASS" entry is read, the "PORT" entry skipped. */
  lemma DffProxyPassPort(port: int)
    ensures ProxyPassPort(Some(DffProxyContainer(port))) == Ok(port)
  {
    var q := IntToString(port);
    var env := [DffProxyPass(port), DffPortEntry(port)];
    PortTextFree(port);
    assert ':' !in DFF_PROXY_PASS_HEAD;
    assert Join([DFF_PROXY_PASS_HEAD, q], ":") == env[0];
    SplitJoinChar([DFF_PROXY_PASS_HEAD, q], ':');
    assert env[0][..10] == DFF_PROXY_PASS_HEAD[..10];
    assert StartsWith(env[0], "PROXY_PASS");
    assert env[1][1] == 'O';
    assert !StartsWith(env[1], "PROXY_PASS");
    assert ProxyPassScan(env, 1, Some(q)) == Some(q);
    IntRoundTrip(port);
  }

  /** The proxy container's "PORT" and "PROXY_PASS" entries agree on the port. */
  lemma DffProxyPort(port: int)
    ensures ProxyPort(Some(DffProxyContainer(port))) == Ok(port)
  {
    DffEnvironmentPort(port);
    DffProxyPassPort(port);
  }

  // ---- the distribution as a value --------------------------------------------------------------

  /**
   * Everything an `AssistantDist` holds, read off its objects: where it
   * lives, the pipeline's state, and the loaded documents (None when not
   * loaded).
   */
  datatype DistValue = DistValue(
    distPath: Path, name: string, dreamRoot: Path,
    groups: map<string, Slot>, services: Dict<string, PipelineComponent>,
    pipelineConf: Option<PipelineConf>,
    composeOverride: Option<ComposeDoc>, composeDev: Option<ComposeDoc>,
    composeProxy: Option<ComposeDoc>, composeLocal: Option<ComposeDoc>)

  /**
   * A component as `AssistantDist.add_component` reads it: the entry the
   * pipeline stores, the card's name, and its three container definitions.
   */
  datatype DistComponent = DistComponent(
    component: PipelineComponent, configName: string,
    composeOverride: Container, composeDev: Container, composeProxy: Container)

  /** `doc.services.get(name)` of an optional document. */
  function ContainerIn(doc: Option<ComposeDoc>, name: string): Option<Container>
  {
    if doc.None? then None else Get(doc.value.services, name)
  }

  /** The document with `name` mapped to `def`, if it is loaded. */
  function WithServiceIfLoaded(doc: Option<ComposeDoc>, name: string, def: Container): Option<ComposeDoc>
  {
    if doc.None? then None else Some(WithService(doc.value, name, def))
  }

  // ---- add_component / remove_component across documents ------------------------------------------

  /**
   * `AssistantDist.add_component`: the pipeline first, then the override
   * document (which must be loaded), then dev and proxy when loaded, each
   * keyed by the card's name.  A failing step leaves the earlier ones done.
   */
  function DistAdded(v: DistValue, c: DistComponent): (DistValue, Outcome)
    requires StateValid(v.groups)
  {
    var added := Added(v.groups, v.services, c.component);
    if added.Err? then (v, Fail(added.error))
    else
      var v1 := v.(groups := added.value.0, services := added.value.1);
      if v.composeOverride.None? then (v1, Fail(AttributeError))
      else (DocumentsAdded(v1, c), Pass)
  }

  /** The documents' part of `add_component`: override, dev and proxy each gain the container when loaded. */
  function DocumentsAdded(v: DistValue, c: DistComponent): DistValue
  {
    v.(composeOverride := WithServiceIfLoaded(v.composeOverride, c.configName, c.composeOverride),
       composeDev := WithServiceIfLoaded(v.composeDev, c.configName, c.composeDev),
       composeProxy := WithServiceIfLoaded(v.composeProxy, c.configName, c.composeProxy))
  }

  /** What neither operation ever touches: the location, the pipeline configuration and the local document. */
  predicate SameFrame(a: DistValue, b: DistValue)
  {
    a.distPath == b.distPath && a.name == b.name && a.dreamRoot == b.dreamRoot
    && a.pipelineConf == b.pipelineConf && a.composeLocal == b.composeLocal
  }

  /** Only the mapping `name` of a loaded document changes; an unloaded one stays unloaded. */
  ghost predicate DocumentGains(before: Option<ComposeDoc>, after: Option<ComposeDoc>, name: string, def: Container)
  {
    after.Some? == before.Some? &&
    (after.Some? ==>
       after.value.version == before.value.version &&
       ContainerIn(after, name) == Some(def) &&
       forall k | k != name :: ContainerIn(after, k) == ContainerIn(before, k))
  }

  /**
   * After `add_component` the pipeline finds the component under its group
   * and name, the override document and the loaded dev and proxy documents
   * hold its containers under the card's name, and nothing else changes.
   * It fails, with the pipeline's error, when the group is no mapping,
   * and else with AttributeError, the pipeline already changed, when no
   * override document is loaded.
   */
  lemma DistAddedReachesDocuments(v: DistValue, c: DistComponent)
    requires StateValid(v.groups)
    ensures SameFrame(DistAdded(v, c).0, v)
    ensures (Added(v.groups, v.services, c.component).Err? ==>
               DistAdded(v, c) == (v, Fail(Added(v.groups, v.services, c.component).error)))
    ensures (Added(v.groups, v.services, c.component).Ok? && v.composeOverride.None? ==>
               DistAdded(v, c).1 == Fail(AttributeError) &&
               DistAdded(v, c).0 == v.(groups := Added(v.groups, v.services, c.component).value.0,
                                       services := Added(v.groups, v.services, c.component).value.1))
    ensures (DistAdded(v, c).1.Pass? ==>
               var w := DistAdded(v, c).0;
               StateValid(w.groups) &&
               ComponentIn(AttributeIn(w.groups, w.services, c.component.component.group),
                           c.component.component.name) == Ok(c.component) &&
               DocumentGains(v.composeOverride, w.composeOverride, c.configName, c.composeOverride) &&
               DocumentGains(v.composeDev, w.composeDev, c.configName, c.composeDev) &&
               DocumentGains(v.composeProxy, w.composeProxy, c.configName, c.composeProxy))
  {
    AddedStoresComponent(v.groups, v.services, c.component);
  }

  /** `doc.remove_component(name)` of an optional document; other documents are passed over. */
  function WithoutServiceIfLoaded(doc: Option<ComposeDoc>, name: string): Result<Option<ComposeDoc>>
  {
    if doc.None? then Ok(None)
    else
      var d :- WithoutService(doc.value, name);
      Ok(Some(d))
  }

  /**
   * `AssistantDist.remove_component`: the component is looked up, removed
   * from the pipeline, and its container, keyed by the component's
   * container name, removed from the override document and from dev and
   * proxy when loaded.  A failing step leaves the earlier ones done.
   */
  function DistRemoved(v: DistValue, group: string, name: string): (DistValue, Outcome)
    requires StateValid(v.groups)
  {
    var found := ComponentIn(AttributeIn(v.groups, v.services, group), name);
    if found.Err? then (v, Fail(found.error))
    else
      var removed := Removed(v.groups, v.services, group, name);
      if removed.Err? then (v, Fail(removed.error))
      else
        var v1 := v.(groups := removed.value.0, services := removed.value.1);
        if v.composeOverride.None? then (v1, Fail(AttributeError))
        else DocumentsRemoved(v1, found.value.containerName)
  }

  /** The documents' part of `remove_component`: override, then dev and proxy when loaded, each stopping the removal when it lacks the container. */
  function DocumentsRemoved(v: DistValue, key: string): (r: (DistValue, Outcome))
    requires v.composeOverride.Some?
    ensures r.0 == v.(composeOverride := r.0.composeOverride, composeDev := r.0.composeDev, composeProxy := r.0.composeProxy)
  {
    var o := WithoutService(v.composeOverride.value, key);
    if o.Err? then (v, Fail(o.error))
    else
      var v1 := v.(composeOverride := Some(o.value));
      var d := WithoutServiceIfLoaded(v.composeDev, key);
      if d.Err? then (v1, Fail(d.error))
      else
        var v2 := v1.(composeDev := d.value);
        var p := WithoutServiceIfLoaded(v.composeProxy, key);
        if p.Err? then (v2, Fail(p.error))
        else (v2.(composeProxy := p.value), Pass)
  }

  /** Only the mapping `name` of a loaded document goes; an unloaded one stays unloaded. */
  ghost predicate DocumentLoses(before: Option<ComposeDoc>, after: Option<ComposeDoc>, name: string)
  {
    after.Some? == before.Some? &&
    (after.Some? ==>
       after.value.version == before.value.version &&
       ContainerIn(after, name).None? &&
       forall k | k != name :: ContainerIn(after, k) == ContainerIn(before, k))
  }

  /**
   * After `remove_component` the pipeline no longer finds the component and
   * every loaded document among override, dev and proxy has lost the
   * container named by the component's container name.  It fails with
   * the lookup's error when the pipeline does not hold the component, and
   * with a KeyError when a document lacks the container.
   */
  lemma DistRemovedReachesDocuments(v: DistValue, group: string, name: string)
    requires StateValid(v.groups)
    ensures SameFrame(DistRemoved(v, group, name).0, v)
    ensures (ComponentIn(AttributeIn(v.groups, v.services, group), name).Err? ==>
               DistRemoved(v, group, name) == (v, Fail(ComponentIn(AttributeIn(v.groups, v.services, group), name).error)))
    ensures (DistRemoved(v, group, name).1.Pass? <==>
               var found := ComponentIn(AttributeIn(v.groups, v.services, group), name);
               found.Ok? && v.composeOverride.Some? &&
               ContainerIn(v.composeOverride, found.value.containerName).Some? &&
               (v.composeDev.Some? ==> ContainerIn(v.composeDev, found.value.containerName).Some?) &&
               (v.composeProxy.Some? ==> ContainerIn(v.composeProxy, found.value.containerName).Some?))
    ensures (DistRemoved(v, group, name).1.Pass? ==>
               var w := DistRemoved(v, group, name).0;
               var key := ComponentIn(AttributeIn(v.groups, v.services, group), name).value.containerName;
               StateValid(w.groups) &&
               ComponentIn(AttributeIn(w.groups, w.services, group), name) == Err(KeyError("'" + name + "'")) &&
               DocumentLoses(v.composeOverride, w.composeOverride, key) &&
               DocumentLoses(v.composeDev, w.composeDev, key) &&
               DocumentLoses(v.composeProxy, w.composeProxy, key))
  {
    RemovedDropsComponent(v.groups, v.services, group, name);
    var found := ComponentIn(AttributeIn(v.groups, v.services, group), name);
    if found.Ok? {
      var key := found.value.containerName;
      WithoutServiceLoses(v.composeOverride, key);
      WithoutServiceLoses(v.composeDev, key);
      WithoutServiceLoses(v.composeProxy, key);
    }
  }

  /** Removing from an optional document succeeds when it is not loaded or holds the name, and then only that name goes. */
  lemma WithoutServiceLoses(doc: Option<ComposeDoc>, name: string)
    ensures WithoutServiceIfLoaded(doc, name).Ok? <==> (doc.Some? ==> ContainerIn(doc, name).Some?)
    ensures WithoutServiceIfLoaded(doc, name).Err? ==> WithoutServiceIfLoaded(doc, name).error == MissingService(name)
    ensures WithoutServiceIfLoaded(doc, name).Ok? ==> DocumentLoses(doc, WithoutServiceIfLoaded(doc, name).value, name)
    ensures doc.Some? ==> WithoutServiceIfLoaded(doc, name).Ok? == WithoutService(doc.value, name).Ok?
    ensures doc.Some? && WithoutService(doc.value, name).Ok? ==> WithoutServiceIfLoaded(doc, name).value == Some(WithoutService(doc.value, name).value)
  {
  }

  /** Removing a component just added under a new name gives the pipeline's state back. */
  lemma PipelineAddThenRemove(groups: map<string, Slot>, services: Dict<string, PipelineComponent>, c: PipelineComponent)
    requires StateValid(groups)
    requires Added(groups, services, c).Ok?
    requires ComponentIn(AttributeIn(groups, services, c.component.group), c.component.name).Err?
    ensures StateValid(Added(groups, services, c).value.0)
    ensures Removed(Added(groups, services, c).value.0, Added(groups, services, c).value.1,
                    c.component.group, c.component.name) == Ok((groups, services))
  {
    var group := c.component.group;
    var n := c.component.name;
    var d := AttributeIn(groups, services, group).value.members.value;
    var updated := Set(d, n, c);
    WithMembersFrame(groups, services, group, updated);
    RemoveAfterSet(d, n, c);
    if group != "services" {
      GroupAddThenRemove(groups, services, c, d);
    }
  }

  /** The component-group case: the group's mapping gets its old members back. */
  lemma GroupAddThenRemove(groups: map<string, Slot>, services: Dict<string, PipelineComponent>, c: PipelineComponent,
                           d: Dict<string, PipelineComponent>)
    requires StateValid(groups)
    requires c.component.group != "services"
    requires AttributeIn(groups, services, c.component.group) == Some(Many(Some(d)))
    requires Added(groups, services, c).Ok?
    requires StateValid(Added(groups, services, c).value.0)
    requires AttributeIn(Added(groups, services, c).value.0, Added(groups, services, c).value.1, c.component.group)
             == Some(Many(Some(Set(d, c.component.name, c))))
    requires Remove(Set(d, c.component.name, c), c.component.name) == d
    ensures Removed(Added(groups, services, c).value.0, Added(groups, services, c).value.1,
                    c.component.group, c.component.name) == Ok((groups, services))
  {
    var group := c.component.group;
    var x := Many(Some(Set(d, c.component.name, c)));
    assert group in groups && groups[group] == Many(Some(d));
    UpdateRestored(groups, group, x);
    assert Added(groups, services, c) == Ok((groups[group := x], services));
  }

  /** Writing a key and then its old value back gives the map back. */
  lemma UpdateRestored<K, V>(m: map<K, V>, k: K, x: V)
    requires k in m
    ensures m[k := x][k := m[k]] == m
  {
  }

  /**
   * `remove_component` undoes `add_component` when the card's name is the
   * container name the removal keys by and neither the pipeline group nor
   * any loaded document held the name before.
   */
  lemma DistAddThenRemove(v: DistValue, c: DistComponent)
    requires StateValid(v.groups)
    requires DistAdded(v, c).1.Pass?
    requires c.configName == c.component.containerName
    requires ComponentIn(AttributeIn(v.groups, v.services, c.component.component.group), c.component.component.name).Err?
    requires ContainerIn(v.composeOverride, c.configName).None?
    requires ContainerIn(v.composeDev, c.configName).None?
    requires ContainerIn(v.composeProxy, c.configName).None?
    ensures StateValid(DistAdded(v, c).0.groups)
    ensures DistRemoved(DistAdded(v, c).0, c.component.component.group, c.component.component.name) == (v, Pass)
  {
    var w := DistAdded(v, c).0;
    var key := c.configName;
    PipelineAddThenRemove(v.groups, v.services, c.component);
    AddedStoresComponent(v.groups, v.services, c.component);
    AddThenRemove(v.composeOverride.value, key, c.composeOverride);
    if v.composeDev.Some? {
      AddThenRemove(v.composeDev.value, key, c.composeDev);
    }
    if v.composeProxy.Some? {
      AddThenRemove(v.composeProxy.value, key, c.composeProxy);
    }
  }

  // ---- clone -----------------------------------------------------------------------------------

  const AGENT: string := "agent"

  /**
   * The path the agent's command names the pipeline configuration by.  The
   * directory is the literal "assistant_dists", not the directory constant
   * the distribution paths are built with.
   */
  function AgentConfPath(distName: string): string
  {
    "assistant_dists/" + distName + "/" + DreamPipelines.FILE_NAME
  }

  /** The agent's command with every `assistant_dists/<old>/pipeline_conf.json` renamed to the new distribution. */
  function RenamedAgentCommand(command: string, oldName: string, newName: string): string
  {
    ReplaceAll(command, AgentConfPath(oldName), AgentConfPath(newName))
  }

  /** The override document with the agent's command renamed; the agent must exist and run a string command. */
  function CloneOverride(doc: ComposeDoc, oldName: string, newName: string): Result<ComposeDoc>
  {
    var agent := Get(doc.services, AGENT);
    if agent.None? then Err(KeyError("'" + AGENT + "'"))
    else if !(agent.value.command.Some? && agent.value.command.value.CmdStr?) then Err(TypeError)
    else
      var command := RenamedAgentCommand(agent.value.command.value.s, oldName, newName);
      Ok(WithService(doc, AGENT, agent.value.(command := Some(CmdStr(command)))))
  }

  /**
   * `clone`: a copy under `<dream root>/<dists dir>/<new name>` whose
   * pipeline configuration gets the new display name and description and
   * whose agent command names the new distribution's configuration.  The
   * pipeline configuration (with metadata) and the override document (with
   * an agent) must be loaded.  The service names are not consulted.
   */
  function CloneOf(v: DistValue, newName: string, displayName: string, description: string, distsDir: string): Result<DistValue>
  {
    if v.pipelineConf.None? || v.pipelineConf.value.metadata.None? then Err(AttributeError)
    else if v.composeOverride.None? then Err(AttributeError)
    else
      var conf := v.pipelineConf.value;
      var metadata := conf.metadata.value.(displayName := displayName, description := description);
      var override :- CloneOverride(v.composeOverride.value, v.name, newName);
      Ok(v.(distPath := ResolveDistPath(newName, PPath(v.dreamRoot), distsDir), name := newName,
            pipelineConf := Some(conf.(metadata := Some(metadata))), composeOverride := Some(override)))
  }

  /**
   * A clone fails exactly when the pipeline configuration or its metadata
   * is missing or the override document is (AttributeError), when the
   * override document has no agent (KeyError), or when the agent's command
   * is no string (TypeError).
   */
  lemma CloneFailures(v: DistValue, newName: string, displayName: string, description: string, distsDir: string)
    ensures (CloneOf(v, newName, displayName, description, distsDir).Err? <==>
               v.pipelineConf.None? || v.pipelineConf.value.metadata.None? || v.composeOverride.None? ||
               ContainerIn(v.composeOverride, AGENT).None? ||
               !(ContainerIn(v.composeOverride, AGENT).value.command.Some? &&
                 ContainerIn(v.composeOverride, AGENT).value.command.value.CmdStr?))
    ensures (v.pipelineConf.None? || v.pipelineConf.value.metadata.None? || v.composeOverride.None? ==>
               CloneOf(v, newName, displayName, description, distsDir) == Err(AttributeError))
    ensures (v.pipelineConf.Some? && v.pipelineConf.value.metadata.Some? && ContainerIn(v.composeOverride, AGENT).None?
             && v.composeOverride.Some? ==>
               CloneOf(v, newName, displayName, description, distsDir) == Err(KeyError("'agent'")))
  {
    assert "'" + AGENT + "'" == "'agent'";
  }

  /**
   * A clone lives under the new name in the distributions directory and
   * resolves back to that name and the same dream root; it keeps the
   * pipeline, dev, proxy and local documents, and its pipeline
   * configuration differs only in display name and description.
   */
  lemma CloneKeepsContent(v: DistValue, newName: string, displayName: string, description: string, distsDir: string)
    requires IsSegment(newName) && IsSegment(distsDir)
    requires CloneOf(v, newName, displayName, description, distsDir).Ok?
    ensures (var w := CloneOf(v, newName, displayName, description, distsDir).value;
             ResolveNameAndDreamRoot(PPath(w.distPath)) == Ok((newName, v.dreamRoot)) &&
             w.name == newName && w.dreamRoot == v.dreamRoot &&
             w.groups == v.groups && w.services == v.services &&
             w.composeDev == v.composeDev && w.composeProxy == v.composeProxy && w.composeLocal == v.composeLocal &&
             w.pipelineConf.value.services == v.pipelineConf.value.services &&
             w.pipelineConf.value.connectors == v.pipelineConf.value.connectors &&
             w.pipelineConf.value.metadata.value.displayName == displayName &&
             w.pipelineConf.value.metadata.value.description == description &&
             w.pipelineConf.value.metadata.value.author == v.pipelineConf.value.metadata.value.author)
  {
    ResolveRoundTrip(newName, PPath(v.dreamRoot), distsDir);
  }

  /**
   * In the clone's override document only the agent's command changes: it
   * is the renamed command, every other container and field stays.
   */
  lemma CloneRenamesOnlyAgentCommand(v: DistValue, newName: string, displayName: string, description: string, distsDir: string)
    requires CloneOf(v, newName, displayName, description, distsDir).Ok?
    ensures (var w := CloneOf(v, newName, displayName, description, distsDir).value;
             var agent := ContainerIn(v.composeOverride, AGENT).value;
             w.composeOverride.Some? && w.composeOverride.value.version == v.composeOverride.value.version &&
             Keys(w.composeOverride.value.services) == Keys(v.composeOverride.value.services) &&
             ContainerIn(w.composeOverride, AGENT) ==
               Some(agent.(command := Some(CmdStr(RenamedAgentCommand(agent.command.value.s, v.name, newName))))) &&
             forall k | k != AGENT :: ContainerIn(w.composeOverride, k) == ContainerIn(v.composeOverride, k))
  {
  }

  /** Cloning under the same name, or with a command that never names the configuration, keeps the command. */
  lemma RenamedCommandUnchanged(command: string, oldName: string, newName: string)
    requires oldName == newName || !Contains(command, AgentConfPath(oldName))
    ensures RenamedAgentCommand(command, oldName, newName) == command
  {
    if oldName == newName {
      ReplaceSelf(command, AgentConfPath(oldName));
    } else {
      ReplaceAbsent(command, AgentConfPath(oldName), AgentConfPath(newName));
    }
  }

  /** A command that is just the old configuration's path becomes the new configuration's path. */
  lemma RenamedConfPath(oldName: string, newName: string)
    ensures RenamedAgentCommand(AgentConfPath(oldName), oldName, newName) == AgentConfPath(newName)
  {
    var pat := AgentConfPath(oldName);
    assert OccursAt(pat, pat, 0);
    assert pat[..0] == "" && pat[|pat|..] == "";
    assert Split("", pat) == [""];
    assert Split(pat, pat) == ["", ""];
    var repl := AgentConfPath(newName);
    assert Join(["", ""], repl) == "" + repl + Join([""], repl);
    assert ReplaceAll(pat, pat, repl) == Join(["", ""], repl);
  }

  // ---- check_ports ------------------------------------------------------------------------------

  /** What one yielded service's port discovery ends in: Pass, or the error it raises. */
  function PipelineProbe(e: Entry): Outcome
  {
    var port := DreamPipelines.DiscoverPort(e.service);
    if port.Err? then Fail(port.error) else Pass
  }

  /** The probes of the yielded services, in `iter_services` order. */
  function PipelineProbes(items: seq<Entry>): (ps: seq<Outcome>)
    ensures |ps| == |items|
  {
    seq(|items|, k requires 0 <= k < |items| => PipelineProbe(items[k]))
  }

  /**
   * The pipeline configuration's part of `check_ports` from probe `i` on:
   * the first failing probe ends the check, and after the last one the
   * generator's own failure.
   */
  function FirstFailureFrom(probes: seq<Outcome>, i: nat, failure: Option<Error>): Outcome
    requires i <= |probes|
    decreases |probes| - i
  {
    if i == |probes| then (if failure.Some? then Fail(failure.value) else Pass)
    else if probes[i].Fail? then probes[i]
    else FirstFailureFrom(probes, i + 1, failure)
  }

  /**
   * The check passes exactly when every probe passes and the generator ends
   * cleanly; otherwise it fails with the first failing probe, or with the
   * generator's failure when every probe passes.
   */
  lemma {:induction false} FirstFailureCases(probes: seq<Outcome>, i: nat, failure: Option<Error>)
    requires i <= |probes|
    ensures (FirstFailureFrom(probes, i, failure).Pass? <==>
               failure.None? && forall k | i <= k < |probes| :: probes[k].Pass?)
    ensures (FirstFailureFrom(probes, i, failure).Fail? ==>
               (failure.Some? && FirstFailureFrom(probes, i, failure) == Fail(failure.value) &&
                forall k | i <= k < |probes| :: probes[k].Pass?) ||
               exists k | i <= k < |probes| ::
                 FirstFailureFrom(probes, i, failure) == probes[k] && forall j | i <= j < k :: probes[j].Pass?)
    decreases |probes| - i
  {
    if i < |probes| && probes[i].Pass? {
      FirstFailureCases(probes, i + 1, failure);
      var r := FirstFailureFrom(probes, i, failure);
      if r.Fail? && !(failure.Some? && r == Fail(failure.value) && forall k | i < k < |probes| :: probes[k].Pass?) {
        var k :| i + 1 <= k < |probes| && r == probes[k] && forall j | i + 1 <= j < k :: probes[j].Pass?;
        assert forall j | i <= j < k :: probes[j].Pass?;
      }
    }
  }

  /** What checking one container yields: skipped, passing, a mismatch line, or an error that ends the check. */
  datatype Probe = Unchecked | Clean | Mismatch(line: string) | Broken(error: Error)

  /** One line of the aggregated message: the container's name and the mismatch's text. */
  function PortLine(name: string, e: Error): string
    requires e.ValueError?
  {
    name + ": " + e.msg
  }

  predicate Skipped(nonServices: seq<string>, entry: (string, Container))
  {
    entry.0 in nonServices
  }

  /** A container whose port discovery raises ValueError, which the check collects. */
  predicate Mismatched(kind: ComposeKind, nonServices: seq<string>, entry: (string, Container))
  {
    !Skipped(nonServices, entry) && PortOf(kind, Some(entry.1)).Err? && PortOf(kind, Some(entry.1)).error.ValueError?
  }

  /** A container whose port discovery raises anything else, which ends the check. */
  predicate Fatal(kind: ComposeKind, nonServices: seq<string>, entry: (string, Container))
  {
    !Skipped(nonServices, entry) && PortOf(kind, Some(entry.1)).Err? && !PortOf(kind, Some(entry.1)).error.ValueError?
  }

  /** The line a mismatched container contributes. */
  function MismatchLine(kind: ComposeKind, nonServices: seq<string>, entry: (string, Container)): string
    requires Mismatched(kind, nonServices, entry)
  {
    PortLine(entry.0, PortOf(kind, Some(entry.1)).error)
  }

  /** Checking one container of a document of the given kind. */
  function ProbeOf(kind: ComposeKind, nonServices: seq<string>, entry: (string, Container)): Probe
  {
    if Skipped(nonServices, entry) then Unchecked
    else
      var port := PortOf(kind, Some(entry.1));
      if port.Ok? then Clean
      else if port.error.ValueError? then Mismatch(PortLine(entry.0, port.error))
      else Broken(port.error)
  }

  /** The probes of a document's containers, in the document's order. */
  function Probes(kind: ComposeKind, services: Dict<string, Container>, nonServices: seq<string>): (ps: seq<Probe>)
    ensures |ps| == |services|
  {
    seq(|services|, k requires 0 <= k < |services| => ProbeOf(kind, nonServices, services[k]))
  }

  /** The lines collected from probe `i` on, after `lines`: a mismatch adds its line, a broken probe ends the check. */
  function LinesFrom(probes: seq<Probe>, i: nat, lines: seq<string>): Result<seq<string>>
    requires i <= |probes|
    decreases |probes| - i
  {
    if i == |probes| then Ok(lines)
    else
      match probes[i]
      case Mismatch(l) => LinesFrom(probes, i + 1, lines + [l])
      case Broken(e) => Err(e)
      case _ => LinesFrom(probes, i + 1, lines)
  }

  /** One document's part of `check_ports`, after the lines collected so far. */
  function DocumentLines(kind: ComposeKind, services: Dict<string, Container>, nonServices: seq<string>, lines: seq<string>)
    : Result<seq<string>>
  {
    LinesFrom(Probes(kind, services, nonServices), 0, lines)
  }

  /** The lines carried in come out first, followed by the lines the probes add on their own. */
  lemma {:induction false} LinesShift(probes: seq<Probe>, i: nat, lines: seq<string>)
    requires i <= |probes|
    ensures (var r := LinesFrom(probes, i, lines);
             var own := LinesFrom(probes, i, []);
             r.Ok? == own.Ok? && (r.Ok? ==> r.value == lines + own.value) && (r.Err? ==> r.error == own.error))
    decreases |probes| - i
  {
    if i < |probes| {
      if probes[i].Mismatch? {
        var l := probes[i].line;
        assert [] + [l] == [l];
        LinesShift(probes, i + 1, lines + [l]);
        LinesShift(probes, i + 1, [l]);
        var rest := LinesFrom(probes, i + 1, []);
        if rest.Ok? {
          assert (lines + [l]) + rest.value == lines + ([l] + rest.value);
        }
      } else {
        LinesShift(probes, i + 1, lines);
      }
    }
  }

  /** The check ends with an error exactly when some probe is broken, and then with the first broken probe's error. */
  lemma {:induction false} LinesBroken(probes: seq<Probe>, i: nat, lines: seq<string>)
    requires i <= |probes|
    ensures (var r := LinesFrom(probes, i, lines);
             (r.Ok? <==> forall k | i <= k < |probes| :: !probes[k].Broken?) &&
             (r.Err? ==> exists k | i <= k < |probes| ::
                           probes[k] == Broken(r.error) && forall j | i <= j < k :: !probes[j].Broken?))
    decreases |probes| - i
  {
    if i < |probes| && !probes[i].Broken? {
      var next := if probes[i].Mismatch? then lines + [probes[i].line] else lines;
      LinesBroken(probes, i + 1, next);
      var r := LinesFrom(probes, i, lines);
      assert r == LinesFrom(probes, i + 1, next);
      if r.Err? {
        var k :| i + 1 <= k < |probes| && probes[k] == Broken(r.error) && forall j | i + 1 <= j < k :: !probes[j].Broken?;
        assert forall j | i <= j < k :: !probes[j].Broken?;
      }
    }
  }

  /** How one probe moves a passing check on: a mismatch adds its line in front, anything else adds nothing. */
  lemma LinesStep(probes: seq<Probe>, i: nat)
    requires i < |probes|
    requires LinesFrom(probes, i, []).Ok?
    ensures !probes[i].Broken?
    ensures LinesFrom(probes, i + 1, []).Ok?
    ensures (var own := LinesFrom(probes, i, []).value;
             var rest := LinesFrom(probes, i + 1, []).value;
             own == if probes[i].Mismatch? then [probes[i].line] + rest else rest)
  {
    if probes[i].Mismatch? {
      var l := probes[i].line;
      assert [] + [l] == [l];
      LinesShift(probes, i + 1, [l]);
    }
  }

  /** When the check passes, every mismatch has its line. */
  lemma {:induction false} LinesComplete(probes: seq<Probe>, i: nat)
    requires i <= |probes|
    requires LinesFrom(probes, i, []).Ok?
    ensures forall k | i <= k < |probes| && probes[k].Mismatch? :: probes[k].line in LinesFrom(probes, i, []).value
    decreases |probes| - i
  {
    if i < |probes| {
      LinesStep(probes, i);
      LinesComplete(probes, i + 1);
    }
  }

  /** When the check passes, every line is some mismatch's. */
  lemma {:induction false} LinesSound(probes: seq<Probe>, i: nat)
    requires i <= |probes|
    requires LinesFrom(probes, i, []).Ok?
    ensures (var own := LinesFrom(probes, i, []).value;
             forall m | 0 <= m < |own| :: exists k | i <= k < |probes| :: probes[k] == Mismatch(own[m]))
    decreases |probes| - i
  {
    if i < |probes| {
      LinesStep(probes, i);
      LinesSound(probes, i + 1);
      var own := LinesFrom(probes, i, []).value;
      var rest := LinesFrom(probes, i + 1, []).value;
      forall m | 0 <= m < |own|
        ensures exists k | i <= k < |probes| :: probes[k] == Mismatch(own[m])
      {
        if probes[i].Mismatch? && m == 0 {
          assert probes[i] == Mismatch(own[m]);
        } else {
          var m' := if probes[i].Mismatch? then m - 1 else m;
          assert own[m] == rest[m'];
          var k :| i + 1 <= k < |probes| && probes[k] == Mismatch(rest[m']);
        }
      }
    }
  }

  /** Without mismatches, a passing check adds no line. */
  lemma {:induction false} LinesWithoutMismatch(probes: seq<Probe>, i: nat, lines: seq<string>)
    requires i <= |probes|
    requires forall k | i <= k < |probes| :: !probes[k].Mismatch?
    ensures LinesFrom(probes, i, lines).Ok? ==> LinesFrom(probes, i, lines).value == lines
    decreases |probes| - i
  {
    if i < |probes| {
      LinesWithoutMismatch(probes, i + 1, lines);
    }
  }

  /** A container's probe is a mismatch with its line, or broken with its error, exactly as its discovery raises. */
  lemma ProbeCases(kind: ComposeKind, nonServices: seq<string>, entry: (string, Container))
    ensures ProbeOf(kind, nonServices, entry).Mismatch? <==> Mismatched(kind, nonServices, entry)
    ensures Mismatched(kind, nonServices, entry) ==> ProbeOf(kind, nonServices, entry).line == MismatchLine(kind, nonServices, entry)
    ensures ProbeOf(kind, nonServices, entry).Broken? <==> Fatal(kind, nonServices, entry)
    ensures Fatal(kind, nonServices, entry) ==> ProbeOf(kind, nonServices, entry).error == PortOf(kind, Some(entry.1)).error
  {
  }

  /**
   * A document's check ends with an error exactly when some checked
   * container raises something other than ValueError, and then with the
   * first such container's error.
   */
  lemma DocumentLinesFatal(kind: ComposeKind, services: Dict<string, Container>, nonServices: seq<string>, lines: seq<string>)
    ensures (var r := DocumentLines(kind, services, nonServices, lines);
             (r.Ok? <==> forall k | 0 <= k < |services| :: !Fatal(kind, nonServices, services[k])) &&
             (r.Err? ==> exists k | 0 <= k < |services| ::
                           Fatal(kind, nonServices, services[k]) && r.error == PortOf(kind, Some(services[k].1)).error &&
                           forall j | 0 <= j < k :: !Fatal(kind, nonServices, services[j])))
  {
    var ps := Probes(kind, services, nonServices);
    var r := DocumentLines(kind, services, nonServices, lines);
    LinesBroken(ps, 0, lines);
    ProbesBrokenWhenFatal(kind, services, nonServices);
    if r.Err? {
      var k :| 0 <= k < |ps| && ps[k] == Broken(r.error) && forall j | 0 <= j < k :: !ps[j].Broken?;
      assert Fatal(kind, nonServices, services[k]) && r.error == PortOf(kind, Some(services[k].1)).error;
    }
  }

  /** A container's probe is broken exactly when it is fatal, and then carries its port error. */
  lemma ProbesBrokenWhenFatal(kind: ComposeKind, services: Dict<string, Container>, nonServices: seq<string>)
    ensures (forall k | 0 <= k < |services| ::
               (Probes(kind, services, nonServices)[k].Broken? <==> Fatal(kind, nonServices, services[k])) &&
               (Probes(kind, services, nonServices)[k].Broken? ==>
                  Probes(kind, services, nonServices)[k].error == PortOf(kind, Some(services[k].1)).error))
  {
    forall k | 0 <= k < |services|
      ensures Probes(kind, services, nonServices)[k].Broken? <==> Fatal(kind, nonServices, services[k])
      ensures (Probes(kind, services, nonServices)[k].Broken? ==>
                 Probes(kind, services, nonServices)[k].error == PortOf(kind, Some(services[k].1)).error)
    {
      ProbeCases(kind, nonServices, services[k]);
    }
  }

  /** The lines carried in come out first, followed by the document's own. */
  lemma DocumentLinesShift(kind: ComposeKind, services: Dict<string, Container>, nonServices: seq<string>, lines: seq<string>)
    ensures (var r := DocumentLines(kind, services, nonServices, lines);
             var own := DocumentLines(kind, services, nonServices, []);
             r.Ok? == own.Ok? && (r.Ok? ==> r.value == lines + own.value) && (r.Err? ==> r.error == own.error))
  {
    LinesShift(Probes(kind, services, nonServices), 0, lines);
  }

  /** When a document's check passes, every mismatched container has its line. */
  lemma DocumentLinesComplete(kind: ComposeKind, services: Dict<string, Container>, nonServices: seq<string>)
    requires DocumentLines(kind, services, nonServices, []).Ok?
    ensures (forall k | 0 <= k < |services| && Mismatched(kind, nonServices, services[k]) ::
               MismatchLine(kind, nonServices, services[k]) in DocumentLines(kind, services, nonServices, []).value)
  {
    var ps := Probes(kind, services, nonServices);
    LinesComplete(ps, 0);
    forall k | 0 <= k < |services| && Mismatched(kind, nonServices, services[k])
      ensures MismatchLine(kind, nonServices, services[k]) in DocumentLines(kind, services, nonServices, []).value
    {
      ProbeCases(kind, nonServices, services[k]);
      assert ps[k].Mismatch?;
    }
  }

  /** `line` is the mismatch line of some mismatched container of the document. */
  predicate MismatchedContainerLine(kind: ComposeKind, services: Dict<string, Container>, nonServices: seq<string>,
                                    line: string)
  {
    exists k | 0 <= k < |services| ::
      Mismatched(kind, nonServices, services[k]) && line == MismatchLine(kind, nonServices, services[k])
  }

  /** When a document's check passes, every line it adds is some mismatched container's. */
  lemma DocumentLinesSound(kind: ComposeKind, services: Dict<string, Container>, nonServices: seq<string>)
    requires DocumentLines(kind, services, nonServices, []).Ok?
    ensures (var own := DocumentLines(kind, services, nonServices, []).value;
             forall m | 0 <= m < |own| :: MismatchedContainerLine(kind, services, nonServices, own[m]))
  {
    MismatchLinesSound(kind, services, nonServices, DocumentLines(kind, services, nonServices, []).value);
  }

  lemma MismatchLinesSound(kind: ComposeKind, services: Dict<string, Container>, nonServices: seq<string>,
                           own: seq<string>)
    requires DocumentLines(kind, services, nonServices, []) == Ok(own)
    ensures forall m | 0 <= m < |own| :: MismatchedContainerLine(kind, services, nonServices, own[m])
  {
    LinesSound(Probes(kind, services, nonServices), 0);
    forall m | 0 <= m < |own|
      ensures MismatchedContainerLine(kind, services, nonServices, own[m])
    {
      var k := MismatchProbeLine(kind, services, nonServices, own[m]);
      assert 0 <= k < |services| && Mismatched(kind, nonServices, services[k]) && own[m] == MismatchLine(kind, nonServices, services[k]);
    }
  }

  /** A line some mismatch probe holds is a mismatched container's line. */
  lemma MismatchProbeLine(kind: ComposeKind, services: Dict<string, Container>, nonServices: seq<string>,
                          line: string) returns (k: nat)
    requires exists j | 0 <= j < |services| :: Probes(kind, services, nonServices)[j] == Mismatch(line)
    ensures k < |services| && Mismatched(kind, nonServices, services[k]) && line == MismatchLine(kind, nonServices, services[k])
  {
    var ps := Probes(kind, services, nonServices);
    k :| 0 <= k < |services| && ps[k] == Mismatch(line);
    assert ps[k] == ProbeOf(kind, nonServices, services[k]);
    ProbeCases(kind, nonServices, services[k]);
  }

  /**
   * Every checked container of `local.yml` ends the check with
   * NotImplementedError: a loaded local document passes, adding nothing,
   * only when all its containers are skipped.
   */
  lemma LocalDocumentNeverChecks(services: Dict<string, Container>, nonServices: seq<string>, lines: seq<string>)
    ensures (DocumentLines(Local, services, nonServices, lines) ==
               if forall k | 0 <= k < |services| :: Skipped(nonServices, services[k]) then Ok(lines)
               else Err(NotImplementedError))
  {
    var ps := Probes(Local, services, nonServices);
    var r := DocumentLines(Local, services, nonServices, lines);
    forall k | 0 <= k < |ps|
      ensures ps[k] == if Skipped(nonServices, services[k]) then Unchecked else Broken(NotImplementedError)
    {
      assert ps[k] == ProbeOf(Local, nonServices, services[k]);
      assert PortOf(Local, Some(services[k].1)) == Err(NotImplementedError);
    }
    LinesBroken(ps, 0, lines);
    LinesWithoutMismatch(ps, 0, lines);
  }

  /** The deployment documents in `iter_loaded_configs` order: override, dev, proxy, local; None when not loaded. */
  function DeploymentDocuments(v: DistValue): seq<(ComposeKind, Option<ComposeDoc>)>
  {
    [(Override, v.composeOverride), (Dev, v.composeDev), (Proxy, v.composeProxy), (Local, v.composeLocal)]
  }

  /** The documents' part of `check_ports` from document `j` on, the lines carried from one loaded document to the next. */
  function DocumentsLinesFrom(docs: seq<(ComposeKind, Option<ComposeDoc>)>, nonServices: seq<string>, j: nat, lines: seq<string>)
    : Result<seq<string>>
    requires j <= |docs|
    decreases |docs| - j
  {
    if j == |docs| then Ok(lines)
    else if docs[j].1.None? then DocumentsLinesFrom(docs, nonServices, j + 1, lines)
    else
      var next :- DocumentLines(docs[j].0, docs[j].1.value.services, nonServices, lines);
      DocumentsLinesFrom(docs, nonServices, j + 1, next)
  }

  /** The pipeline configuration's part of `check_ports`; Pass when it is not loaded. */
  function PipelinePorts(conf: Option<PipelineConf>): Outcome
  {
    if conf.None? then Pass
    else
      var st := IterServices(conf.value.services);
      FirstFailureFrom(PipelineProbes(st.items), 0, st.failure)
  }

  /**
   * The pipeline configuration's check passes exactly when every yielded
   * service's url gives a port and the generator ends cleanly; a failure is
   * a url's ValueError or the generator's own.
   */
  lemma PipelinePortsCases(conf: PipelineConf)
    ensures (var st := IterServices(conf.services);
             (PipelinePorts(Some(conf)).Pass? <==>
                st.failure.None? && forall k | 0 <= k < |st.items| :: DreamPipelines.DiscoverPort(st.items[k].service).Ok?) &&
             (PipelinePorts(Some(conf)).Fail? ==>
                PipelinePorts(Some(conf)).error.ValueError? || Some(PipelinePorts(Some(conf)).error) == st.failure))
  {
    var st := IterServices(conf.services);
    var ps := PipelineProbes(st.items);
    FirstFailureCases(ps, 0, st.failure);
    assert forall k | 0 <= k < |ps| :: ps[k] == PipelineProbe(st.items[k]);
  }

  const LINE_BREAK: string := "\n"

  /**
   * `check_ports`: the pipeline configuration's errors escape as they are;
   * then every document is checked in turn, and the mismatch lines of all
   * of them, if any, become one ValueError.
   */
  function CheckPortsOf(v: DistValue, nonServices: seq<string>): Outcome
  {
    var pipelinePorts := PipelinePorts(v.pipelineConf);
    if pipelinePorts.Fail? then pipelinePorts
    else LinesOutcome(DocumentsLinesFrom(DeploymentDocuments(v), nonServices, 0, []))
  }

  /** The collected lines, if any, joined into one ValueError. */
  function LinesOutcome(lines: Result<seq<string>>): Outcome
  {
    if lines.Err? then Fail(lines.error)
    else if lines.value == [] then Pass
    else Fail(ValueError(Join(lines.value, LINE_BREAK)))
  }

  /** Unloading every deployment document leaves only the pipeline configuration's check. */
  lemma CheckPortsWithoutDocuments(v: DistValue, nonServices: seq<string>)
    requires v.composeOverride.None? && v.composeDev.None? && v.composeProxy.None? && v.composeLocal.None?
    ensures CheckPortsOf(v, nonServices) == PipelinePorts(v.pipelineConf)
  {
    var docs := DeploymentDocuments(v);
    assert DocumentsLinesFrom(docs, nonServices, 3, []) == DocumentsLinesFrom(docs, nonServices, 4, []) == Ok([]);
    assert DocumentsLinesFrom(docs, nonServices, 1, []) == DocumentsLinesFrom(docs, nonServices, 2, [])
      == DocumentsLinesFrom(docs, nonServices, 3, []);
    assert DocumentsLinesFrom(docs, nonServices, 0, []) == DocumentsLinesFrom(docs, nonServices, 1, []);
  }

  /**
   * With the pipeline configuration passing, the check raises a ValueError
   * joining the collected lines when there are any, and passes otherwise;
   * an error other than ValueError comes from a container.
   */
  lemma CheckPortsCases(v: DistValue, nonServices: seq<string>)
    ensures PipelinePorts(v.pipelineConf).Fail? ==> CheckPortsOf(v, nonServices) == PipelinePorts(v.pipelineConf)
    ensures (PipelinePorts(v.pipelineConf).Pass? ==>
               var lines := DocumentsLinesFrom(DeploymentDocuments(v), nonServices, 0, []);
               (CheckPortsOf(v, nonServices).Pass? <==> lines == Ok([])) &&
               (lines.Ok? && lines.value != [] ==> CheckPortsOf(v, nonServices) == Fail(ValueError(Join(lines.value, LINE_BREAK)))) &&
               (lines.Err? ==> CheckPortsOf(v, nonServices) == Fail(lines.error)))
  {
  }

  // ---- add_dff_skill ---------------------------------------------------------------------------

  /** Where a new skill's sources go: `dream_root / skillsDir / name`. */
  function DffSkillDir(dreamRoot: Path, skillsDir: string, name: string): Path
  {
    Div(Div(dreamRoot, PathOf(skillsDir)), PathOf(name))
  }

  /** The pipeline configuration with the skill's service under `skills`; an unloaded one stays unloaded. */
  function DffPipelineConf(conf: Option<PipelineConf>, name: string, port: int): Result<Option<PipelineConf>>
  {
    if conf.None? then Ok(None)
    else
      var added :- AddService(conf.value.services, "skills", Underscored(name), DffService(name, port));
      Ok(Some(PipelineConf(conf.value.connectors, added, None)))
  }

  /**
   * `add_dff_skill` without the copying and saving: the skill's directory
   * must not exist; the pipeline configuration, when loaded, gets the
   * service under its underscored name, and each loaded override, dev and
   * proxy document the container under its dashed name.  The result is the
   * skill's directory.
   */
  function DffAdded(v: DistValue, name: string, port: int, skillsDir: string, disk: Disk): (DistValue, Result<Path>)
  {
    var skillDir := DffSkillDir(v.dreamRoot, skillsDir, name);
    if skillDir in disk.existing then (v, Err(FileExistsError))
    else
      var conf := DffPipelineConf(v.pipelineConf, name, port);
      if conf.Err? then (v, Err(conf.error))
      else
        (DffDocumentsAdded(v.(pipelineConf := conf.value), name, port, skillDir), Ok(skillDir))
  }

  /** The deployment documents' part of `add_dff_skill`: each loaded one gains its container under the dashed name. */
  function DffDocumentsAdded(v: DistValue, name: string, port: int, skillDir: Path): (w: DistValue)
    ensures w == v.(composeOverride := w.composeOverride, composeDev := w.composeDev, composeProxy := w.composeProxy)
  {
    var key := Dashed(name);
    v.(composeOverride := WithServiceIfLoaded(v.composeOverride, key, DffOverrideContainer(name, port, skillDir)),
       composeDev := WithServiceIfLoaded(v.composeDev, key, DffDevContainer(name, port)),
       composeProxy := WithServiceIfLoaded(v.composeProxy, key, DffProxyContainer(port)))
  }

  /**
   * A DFF skill is refused with FileExistsError when its directory exists,
   * and with the pipeline configuration's error when the `skills` group
   * takes no service; a refused skill changes nothing.
   */
  lemma DffAddedFailures(v: DistValue, name: string, port: int, skillsDir: string, disk: Disk)
    ensures DffAdded(v, name, port, skillsDir, disk).1.Err? ==> DffAdded(v, name, port, skillsDir, disk).0 == v
    ensures (DffAdded(v, name, port, skillsDir, disk).1.Err? <==>
               DffSkillDir(v.dreamRoot, skillsDir, name) in disk.existing ||
               (v.pipelineConf.Some? && GroupItems(v.pipelineConf.value.services, "skills").Err?))
    ensures (DffSkillDir(v.dreamRoot, skillsDir, name) in disk.existing ==>
               DffAdded(v, name, port, skillsDir, disk).1 == Err(FileExistsError))
    ensures DffAdded(v, name, port, skillsDir, disk).1.Ok? ==> SameFrame(DffAdded(v, name, port, skillsDir, disk).0.(pipelineConf := v.pipelineConf), v)
  {
  }

  /**
   * After `add_dff_skill` the result is the skill's directory, the pipeline
   * is as it was, and a loaded pipeline configuration holds the skill's
   * service under its underscored name in `skills`; the service's url
   * gives the port and names the dashed container.
   */
  lemma DffAddedPipeline(v: DistValue, name: string, port: int, skillsDir: string, disk: Disk)
    requires ':' !in Dashed(name) && '/' !in Dashed(name)
    requires DffAdded(v, name, port, skillsDir, disk).1.Ok?
    ensures (var (w, r) := DffAdded(v, name, port, skillsDir, disk);
             r.value == DffSkillDir(v.dreamRoot, skillsDir, name) &&
             w == DffDocumentsAdded(v.(pipelineConf := w.pipelineConf), name, port, r.value) &&
             w.groups == v.groups && w.services == v.services &&
             w.pipelineConf.Some? == v.pipelineConf.Some? &&
             (w.pipelineConf.Some? ==>
                GroupItems(w.pipelineConf.value.services, "skills").Ok? &&
                Get(GroupItems(w.pipelineConf.value.services, "skills").value, Underscored(name)) == Some(DffService(name, port))))
    ensures DreamPipelines.DiscoverPort(DffService(name, port)) == Ok(Some(port))
    ensures HostOrNone(DffService(name, port).connector.def.url) == Some(Dashed(name))
  {
    DffServicePort(name, port);
  }

  /**
   * After the documents' part of `add_dff_skill` every loaded deployment
   * document holds the skill's container under its dashed name, changes
   * nowhere else, and discovers the given port for it.
   */
  lemma DffDocumentsAgree(v: DistValue, name: string, port: int, skillDir: Path)
    ensures (var w := DffDocumentsAdded(v, name, port, skillDir);
             var key := Dashed(name);
             DocumentGains(v.composeOverride, w.composeOverride, key, DffOverrideContainer(name, port, skillDir)) &&
             DocumentGains(v.composeDev, w.composeDev, key, DffDevContainer(name, port)) &&
             DocumentGains(v.composeProxy, w.composeProxy, key, DffProxyContainer(port)) &&
             (w.composeOverride.Some? ==> PortOf(Override, ContainerIn(w.composeOverride, key)) == Ok(Some(port))) &&
             (w.composeDev.Some? ==> PortOf(Dev, ContainerIn(w.composeDev, key)) == Ok(Some(port))) &&
             (w.composeProxy.Some? ==> PortOf(Proxy, ContainerIn(w.composeProxy, key)) == Ok(Some(port))))
  {
    var key := Dashed(name);
    DffOverridePort(name, port, skillDir);
    DffDevPort(name, port);
    DffProxyPort(port);
    GainsWithPort(Override, v.composeOverride, key, DffOverrideContainer(name, port, skillDir), port);
    GainsWithPort(Dev, v.composeDev, key, DffDevContainer(name, port), port);
    GainsWithPort(Proxy, v.composeProxy, key, DffProxyContainer(port), port);
  }

  /** A loaded document that gains a container whose port is discovered finds that port under the container's name. */
  lemma GainsWithPort(kind: ComposeKind, doc: Option<ComposeDoc>, key: string, def: Container, port: int)
    requires PortOf(kind, Some(def)) == Ok(Some(port))
    ensures DocumentGains(doc, WithServiceIfLoaded(doc, key, def), key, def)
    ensures WithServiceIfLoaded(doc, key, def).Some? ==> PortOf(kind, ContainerIn(WithServiceIfLoaded(doc, key, def), key)) == Ok(Some(port))
  {
  }

  // ---- the temporary store ------------------------------------------------------------------------

  /** The attributes `enable_service`, `disable_service` and `apply_temp_config` take by name. */
  datatype ConfigSlot = PipelineConfSlot | ComposeOverrideSlot | ComposeDevSlot | ComposeProxySlot

  /** The attribute's name, which is also the temporary store's key. */
  function SlotName(slot: ConfigSlot): string
  {
    match slot
    case PipelineConfSlot => "pipeline_conf"
    case ComposeOverrideSlot => "compose_override"
    case ComposeDevSlot => "compose_dev"
    case ComposeProxySlot => "compose_proxy"
  }

  /** The kind of a deployment document's attribute. */
  function SlotKind(slot: ConfigSlot): ComposeKind
    requires !slot.PipelineConfSlot?
  {
    match slot
    case ComposeOverrideSlot => Override
    case ComposeDevSlot => Dev
    case ComposeProxySlot => Proxy
  }

  /** What the temporary store holds under one key: a configuration object, or None. */
  datatype Staged = StagedPipeline(p: DreamPipeline?) | StagedYml(y: YmlConfig?)

  predicate StagedNone(st: Staged)
  {
    if st.StagedPipeline? then st.p == null else st.y == null
  }

  /** A stored object can be put back under its key: the pipeline configuration, or a document of the key's kind. */
  predicate Fits(slot: ConfigSlot, st: Staged)
  {
    if slot.PipelineConfSlot? then st.StagedPipeline?
    else st.StagedYml? && (st.y != null ==> st.y.kind == SlotKind(slot))
  }

  /** The pipeline configuration of an optional object. */
  function ConfOf(p: DreamPipeline?): Option<PipelineConf>
    reads p
  {
    if p == null then None else Some(p.config)
  }

  /** The document of an optional object. */
  function DocOf(y: YmlConfig?): Option<ComposeDoc>
    reads y
  {
    if y == null then None else Some(y.config)
  }

  /** `doc.add_component(name, def, inplace=True)` on a document attribute that may be None, which is passed over. */
  method AddIfLoaded(y: YmlConfig?, name: string, def: Container)
    modifies y
    ensures DocOf(y) == WithServiceIfLoaded(old(DocOf(y)), name, def)
  {
    if y != null {
      var _ := y.AddComponent(name, def, true);
    }
  }

  /** `doc.remove_component(name, inplace=True)` on a document attribute that may be None, which is passed over. */
  method RemoveIfLoaded(y: YmlConfig?, name: string) returns (r: Outcome)
    modifies y
    ensures (var removed := WithoutServiceIfLoaded(old(DocOf(y)), name);
             (r.Fail? <==> removed.Err?) && (r.Fail? ==> r.error == removed.error && DocOf(y) == old(DocOf(y))) &&
             (r.Pass? ==> DocOf(y) == removed.value))
  {
    r := Pass;
    if y != null {
      var removed := y.RemoveComponent(name, true);
      if removed.Err? {
        r := Fail(removed.error);
      }
    }
  }

  /** The edited objects hold the parts of `v` that `add_component` and `remove_component` write. */
  ghost predicate Holds(v: DistValue, p: Pipeline, o: YmlConfig?, d: YmlConfig?, x: YmlConfig?)
    reads p, o, d, x
  {
    p.groups == v.groups && p.services == v.services &&
    DocOf(o) == v.composeOverride && DocOf(d) == v.composeDev && DocOf(x) == v.composeProxy
  }

  /** The three deployment attributes hold documents of their own kinds. */
  predicate DeploymentKinds(o: YmlConfig?, d: YmlConfig?, x: YmlConfig?)
  {
    (o != null ==> o.kind == Override) && (d != null ==> d.kind == Dev) && (x != null ==> x.kind == Proxy)
  }

  /** The documents' part of `add_component` on the objects. */
  method AddToDocuments(ghost v: DistValue, o: YmlConfig?, d: YmlConfig?, x: YmlConfig?, c: DistComponent)
    requires DeploymentKinds(o, d, x)
    requires DocOf(o) == v.composeOverride && DocOf(d) == v.composeDev && DocOf(x) == v.composeProxy
    modifies o, d, x
    ensures DocOf(o) == WithServiceIfLoaded(v.composeOverride, c.configName, c.composeOverride)
    ensures DocOf(d) == WithServiceIfLoaded(v.composeDev, c.configName, c.composeDev)
    ensures DocOf(x) == WithServiceIfLoaded(v.composeProxy, c.configName, c.composeProxy)
  {
    AddIfLoaded(o, c.configName, c.composeOverride);
    AddIfLoaded(d, c.configName, c.composeDev);
    AddIfLoaded(x, c.configName, c.composeProxy);
  }

  /** `add_component` on the objects: they end up holding `DistAdded` of `v`. */
  method AddAcross(ghost v: DistValue, p: Pipeline, o: YmlConfig?, d: YmlConfig?, x: YmlConfig?, c: DistComponent)
    returns (r: Outcome)
    requires p.Valid() && DeploymentKinds(o, d, x) && Holds(v, p, o, d, x)
    modifies p, o, d, x
    ensures p.Valid()
    ensures Holds(DistAdded(v, c).0, p, o, d, x) && r == DistAdded(v, c).1
  {
    ghost var added := Added(v.groups, v.services, c.component);
    r := p.AddComponent(c.component);
    if r.Fail? {
      assert DistAdded(v, c) == (v, r);
      return;
    }
    ghost var v1 := v.(groups := added.value.0, services := added.value.1);
    if o == null {
      assert DistAdded(v, c) == (v1, Fail(AttributeError));
      return Fail(AttributeError);
    }
    AddToDocuments(v1, o, d, x, c);
    assert DistAdded(v, c) == (DocumentsAdded(v1, c), Pass);
  }

  /** The documents' part of `remove_component` on the objects. */
  method RemoveFromDocuments(ghost v: DistValue, o: YmlConfig, d: YmlConfig?, x: YmlConfig?, key: string) returns (r: Outcome)
    requires DeploymentKinds(o, d, x)
    requires DocOf(o) == v.composeOverride && DocOf(d) == v.composeDev && DocOf(x) == v.composeProxy
    modifies o, d, x
    ensures (var (w, out) := DocumentsRemoved(v, key);
             DocOf(o) == w.composeOverride && DocOf(d) == w.composeDev && DocOf(x) == w.composeProxy && r == out)
  {
    var removed := o.RemoveComponent(key, true);
    if removed.Err? {
      return Fail(removed.error);
    }
    r := RemoveIfLoaded(d, key);
    if r.Fail? {
      return;
    }
    r := RemoveIfLoaded(x, key);
  }

  /** The pipeline's part of `remove_component`: the component is looked up, then removed; the result is its container name. */
  method RemoveFromPipeline(ghost v: DistValue, p: Pipeline, group: string, name: string) returns (r: Result<string>)
    requires p.Valid() && p.groups == v.groups && p.services == v.services
    modifies p
    ensures p.Valid()
    ensures (var found := ComponentIn(AttributeIn(v.groups, v.services, group), name);
             var removed := Removed(v.groups, v.services, group, name);
             (found.Err? ==> r == Err(found.error) && p.groups == v.groups && p.services == v.services) &&
             (found.Ok? && removed.Err? ==> r == Err(removed.error) && p.groups == v.groups && p.services == v.services) &&
             (found.Ok? && removed.Ok? ==> r == Ok(found.value.containerName) && (p.groups, p.services) == removed.value))
  {
    var found := p.GetComponent(group, name);
    if found.Err? {
      return Err(found.error);
    }
    var removed := p.RemoveComponent(group, name);
    if removed.Fail? {
      return Err(removed.error);
    }
    return Ok(found.value.containerName);
  }

  /** `remove_component` on the objects: they end up holding `DistRemoved` of `v`. */
  method RemoveAcross(ghost v: DistValue, p: Pipeline, o: YmlConfig?, d: YmlConfig?, x: YmlConfig?, group: string, name: string)
    returns (r: Outcome)
    requires p.Valid() && DeploymentKinds(o, d, x) && Holds(v, p, o, d, x)
    modifies p, o, d, x
    ensures p.Valid()
    ensures Holds(DistRemoved(v, group, name).0, p, o, d, x) && r == DistRemoved(v, group, name).1
  {
    var key := RemoveFromPipeline(v, p, group, name);
    if key.Err? {
      assert DistRemoved(v, group, name) == (v, Fail(key.error));
      return Fail(key.error);
    }
    ghost var removed := Removed(v.groups, v.services, group, name);
    ghost var v1 := v.(groups := removed.value.0, services := removed.value.1);
    if o == null {
      assert DistRemoved(v, group, name) == (v1, Fail(AttributeError));
      return Fail(AttributeError);
    }
    ghost var res := DocumentsRemoved(v1, key.value);
    r := RemoveFromDocuments(v1, o, d, x, key.value);
    assert p.groups == res.0.groups && p.services == res.0.services;
    assert DistRemoved(v, group, name) == res;
  }

  // ---- the temporary store as values ---------------------------------------------------------------

  /** What an attribute or a stored object holds: a pipeline configuration or a document, None for None. */
  datatype Content = ConfContent(conf: Option<PipelineConf>) | DocContent(doc: Option<ComposeDoc>)

  predicate Absent(c: Content)
  {
    if c.ConfContent? then c.conf.None? else c.doc.None?
  }

  /** The content of a stored object. */
  function ContentOf(st: Staged): (c: Content)
    reads if st.StagedPipeline? then {st.p} else {st.y}
    ensures Absent(c) <==> StagedNone(st)
  {
    if st.StagedPipeline? then ConfContent(ConfOf(st.p)) else DocContent(DocOf(st.y))
  }

  /**
   * `enable_service` on the copy of what is staged: nothing to copy raises
   * AttributeError; a document's `add_component` takes no group argument
   * (TypeError); a pipeline configuration gains the service under its
   * group, keeping its connectors and losing its metadata.
   */
  function StagedAdded(c: Content, def: Service, name: string, group: string): (r: Result<Content>)
    ensures Absent(c) ==> r == Err(AttributeError)
    ensures c.DocContent? && !Absent(c) ==> r == Err(TypeError)
    ensures r.Ok? <==> c.ConfContent? && c.conf.Some? && GroupItems(c.conf.value.services, group).Ok?
    ensures (r.Ok? ==>
               r.value.ConfContent? && r.value.conf.Some? &&
               r.value.conf.value.connectors == c.conf.value.connectors && r.value.conf.value.metadata.None? &&
               GroupItems(r.value.conf.value.services, group) == Ok(Set(GroupItems(c.conf.value.services, group).value, name, def)) &&
               forall g | g != group :: Get(r.value.conf.value.services, g) == Get(c.conf.value.services, g))
  {
    if Absent(c) then Err(AttributeError)
    else if c.DocContent? then Err(TypeError)
    else
      var conf := c.conf.value;
      var added :- AddService(conf.services, group, name, def);
      Ok(ConfContent(Some(PipelineConf(conf.connectors, added, None))))
  }

  /**
   * `disable_service` on the copy of what is staged, with the same
   * refusals; a pipeline configuration loses the named service of the
   * group, which must hold it.
   */
  function StagedRemoved(c: Content, group: string, name: string): (r: Result<Content>)
    ensures Absent(c) ==> r == Err(AttributeError)
    ensures c.DocContent? && !Absent(c) ==> r == Err(TypeError)
    ensures (r.Ok? <==> c.ConfContent? && c.conf.Some? && GroupItems(c.conf.value.services, group).Ok? &&
                        name in Keys(GroupItems(c.conf.value.services, group).value))
    ensures (r.Ok? ==>
               r.value.ConfContent? && r.value.conf.Some? &&
               r.value.conf.value.connectors == c.conf.value.connectors && r.value.conf.value.metadata.None? &&
               GroupItems(r.value.conf.value.services, group) == Ok(Remove(GroupItems(c.conf.value.services, group).value, name)) &&
               forall g | g != group :: Get(r.value.conf.value.services, g) == Get(c.conf.value.services, g))
  {
    if Absent(c) then Err(AttributeError)
    else if c.DocContent? then Err(TypeError)
    else
      var conf := c.conf.value;
      var removed :- RemoveService(conf.services, group, name);
      Ok(ConfContent(Some(PipelineConf(conf.connectors, removed, None))))
  }

  /** What `enable_service` does to the copy it fetched: the copy gains the service in place. */
  method StageAdd(st: Staged, def: Service, name: string, group: string) returns (r: Outcome)
    requires !StagedNone(st)
    modifies if st.StagedPipeline? then {st.p} else {}
    ensures (var staged := StagedAdded(old(ContentOf(st)), def, name, group);
             (r.Fail? <==> staged.Err?) && (r.Fail? ==> r.error == staged.error) &&
             (r.Pass? ==> st.StagedPipeline? && ContentOf(st) == staged.value))
  {
    if st.StagedYml? {
      return Fail(TypeError);
    }
    var added := st.p.AddComponent(name, group, def, true);
    if added.Err? {
      return Fail(added.error);
    }
    return Pass;
  }

  /** What `disable_service` does to the copy it fetched: the copy loses the service in place. */
  method StageRemove(st: Staged, group: string, name: string) returns (r: Outcome)
    requires !StagedNone(st)
    modifies if st.StagedPipeline? then {st.p} else {}
    ensures (var staged := StagedRemoved(old(ContentOf(st)), group, name);
             (r.Fail? <==> staged.Err?) && (r.Fail? ==> r.error == staged.error) &&
             (r.Pass? ==> st.StagedPipeline? && ContentOf(st) == staged.value))
  {
    if st.StagedYml? {
      return Fail(TypeError);
    }
    var removed := st.p.RemoveComponent(group, name, true);
    if removed.Err? {
      return Fail(removed.error);
    }
    return Pass;
  }

  /**
   * Staging a new service and then disabling it leaves the staged pipeline
   * configuration's services as they were; only the metadata is gone.
   */
  lemma StagedAddThenRemove(c: Content, def: Service, name: string, group: string)
    requires c.ConfContent? && c.conf.Some? && GroupItems(c.conf.value.services, group).Ok?
    requires name !in Keys(GroupItems(c.conf.value.services, group).value)
    ensures StagedAdded(c, def, name, group).Ok?
    ensures StagedRemoved(StagedAdded(c, def, name, group).value, group, name) == Ok(ConfContent(Some(c.conf.value.(metadata := None))))
  {
    AddThenRemoveService(c.conf.value.services, group, name, def);
  }

  // ---- check_ports on the objects ---------------------------------------------------------------

  /** The pipeline configuration's part of `check_ports`: each yielded service's port in turn, then the generator's end. */
  method PipelinePortCheck(conf: DreamPipeline?) returns (r: Outcome)
    ensures r == PipelinePorts(ConfOf(conf))
  {
    if conf == null {
      return Pass;
    }
    var st := IterServices(conf.config.services);
    ghost var ps := PipelineProbes(st.items);
    var i := 0;
    while i < |st.items|
      invariant 0 <= i <= |st.items|
      invariant FirstFailureFrom(ps, i, st.failure) == FirstFailureFrom(ps, 0, st.failure)
    {
      var port := DreamPipelines.DiscoverPort(st.items[i].service);
      if port.Err? {
        assert ps[i] == Fail(port.error);
        return Fail(port.error);
      }
      assert ps[i] == Pass;
      i := i + 1;
    }
    if st.failure.Some? {
      return Fail(st.failure.value);
    }
    return Pass;
  }

  /** One document's part of `check_ports`: the lines collected so far, followed by this document's. */
  method DocumentPortCheck(y: YmlConfig, nonServices: seq<string>, lines: seq<string>) returns (r: Result<seq<string>>)
    ensures r == DocumentLines(y.kind, y.config.services, nonServices, lines)
  {
    var services := y.config.services;
    ghost var ps := Probes(y.kind, services, nonServices);
    var collected := lines;
    var i := 0;
    while i < |services|
      invariant 0 <= i <= |services|
      invariant LinesFrom(ps, i, collected) == LinesFrom(ps, 0, lines)
    {
      var (serviceName, service) := services[i];
      assert ps[i] == ProbeOf(y.kind, nonServices, services[i]);
      if serviceName !in nonServices {
        var port := y.DiscoverPort(ByDefinition(service));
        if port.Err? {
          if !port.error.ValueError? {
            return Err(port.error);
          }
          collected := collected + [PortLine(serviceName, port.error)];
        }
      }
      i := i + 1;
    }
    return Ok(collected);
  }

  /** The documents' part of `check_ports`: each loaded document in turn, the lines carried from one to the next. */
  method DocumentsPortCheck(ghost docs: seq<(ComposeKind, Option<ComposeDoc>)>, ys: seq<YmlConfig?>, nonServices: seq<string>)
    returns (r: Result<seq<string>>)
    requires |ys| == |docs|
    requires forall j | 0 <= j < |ys| :: DocOf(ys[j]) == docs[j].1 && (ys[j] != null ==> ys[j].kind == docs[j].0)
    ensures r == DocumentsLinesFrom(docs, nonServices, 0, [])
  {
    var lines := [];
    var j := 0;
    while j < |ys|
      invariant 0 <= j <= |ys|
      invariant DocumentsLinesFrom(docs, nonServices, j, lines) == DocumentsLinesFrom(docs, nonServices, 0, [])
    {
      if ys[j] != null {
        var next := DocumentPortCheck(ys[j], nonServices, lines);
        if next.Err? {
          return Err(next.error);
        }
        lines := next.value;
      }
      j := j + 1;
    }
    return Ok(lines);
  }
  /** The documents' part of `check_ports` on the four document attributes. */
  method DeploymentPortCheck(ghost v: DistValue, o: YmlConfig?, d: YmlConfig?, x: YmlConfig?, l: YmlConfig?, nonServices: seq<string>)
    returns (r: Result<seq<string>>)
    requires DocOf(o) == v.composeOverride && DocOf(d) == v.composeDev && DocOf(x) == v.composeProxy && DocOf(l) == v.composeLocal
    requires DeploymentKinds(o, d, x) && (l != null ==> l.kind == Local)
    ensures r == DocumentsLinesFrom(DeploymentDocuments(v), nonServices, 0, [])
  {
    r := DocumentsPortCheck(DeploymentDocuments(v), [o, d, x, l], nonServices);
  }


  // ---- add_dff_skill on the objects -------------------------------------------------------------

  /** The pipeline configuration's part of `add_dff_skill`, passed over when it is not loaded. */
  method AddDffToConf(c: DreamPipeline?, name: string, port: int) returns (r: Outcome)
    modifies c
    ensures (var conf := DffPipelineConf(old(ConfOf(c)), name, port);
             (r.Fail? <==> conf.Err?) && (r.Fail? ==> r.error == conf.error && ConfOf(c) == old(ConfOf(c))) &&
             (r.Pass? ==> ConfOf(c) == conf.value))
  {
    if c == null {
      return Pass;
    }
    var added := c.AddComponent(Underscored(name), "skills", DffService(name, port), true);
    if added.Err? {
      return Fail(added.error);
    }
    return Pass;
  }

  /** The deployment documents' part of `add_dff_skill`: each loaded one gains its container. */
  method AddDffToDocuments(ghost v: DistValue, o: YmlConfig?, d: YmlConfig?, x: YmlConfig?, name: string, port: int, skillDir: Path)
    requires DeploymentKinds(o, d, x)
    requires DocOf(o) == v.composeOverride && DocOf(d) == v.composeDev && DocOf(x) == v.composeProxy
    modifies o, d, x
    ensures (var w := DffDocumentsAdded(v, name, port, skillDir);
             DocOf(o) == w.composeOverride && DocOf(d) == w.composeDev && DocOf(x) == w.composeProxy)
  {
    var key := Dashed(name);
    AddIfLoaded(o, key, DffOverrideContainer(name, port, skillDir));
    AddIfLoaded(d, key, DffDevContainer(name, port));
    AddIfLoaded(x, key, DffProxyContainer(port));
  }

  /** `add_dff_skill` on the objects: they end up holding `DffAdded` of `v`. */
  method AddDffAcross(ghost v: DistValue, c: DreamPipeline?, o: YmlConfig?, d: YmlConfig?, x: YmlConfig?, dreamRoot: Path,
                      name: string, port: int, skillsDir: string, disk: Disk) returns (r: Result<Path>)
    requires v.dreamRoot == dreamRoot && DeploymentKinds(o, d, x)
    requires ConfOf(c) == v.pipelineConf && DocOf(o) == v.composeOverride && DocOf(d) == v.composeDev && DocOf(x) == v.composeProxy
    modifies c, o, d, x
    ensures (var (w, res) := DffAdded(v, name, port, skillsDir, disk);
             r == res && ConfOf(c) == w.pipelineConf &&
             DocOf(o) == w.composeOverride && DocOf(d) == w.composeDev && DocOf(x) == w.composeProxy)
  {
    var skillDir := DffSkillDir(dreamRoot, skillsDir, name);
    if skillDir in disk.existing {
      return Err(FileExistsError);
    }
    var e := AddDffToConf(c, name, port);
    if e.Fail? {
      return Err(e.error);
    }
    ghost var v1 := v.(pipelineConf := ConfOf(c));
    AddDffToDocuments(v1, o, d, x, name, port, skillDir);
    assert DffAdded(v, name, port, skillsDir, disk) == (DffDocumentsAdded(v1, name, port, skillDir), Ok(skillDir));
    return Ok(skillDir);
  }

  /** `deepcopy(self.pipeline_conf)` given the new display name and description. */
  method ClonedConf(c: DreamPipeline?, displayName: string, description: string) returns (r: Result<DreamPipeline>)
    ensures r.Err? <==> c == null || c.config.metadata.None?
    ensures r.Err? ==> r.error == AttributeError
    ensures r.Ok? ==> fresh(r.value) &&
                      r.value.config == c.config.(metadata := Some(c.config.metadata.value.(displayName := displayName,
                                                                                            description := description)))
  {
    if c == null {
      return Err(AttributeError);
    }
    var copy := new DreamPipeline(c.config);
    var e := copy.SetDisplayName(displayName);
    if e.Fail? {
      return Err(e.error);
    }
    e := copy.SetDescription(description);
    assert e.Pass?;
    return Ok(copy);
  }

  /** `deepcopy` of a document attribute that may be None. */
  method CopiedDoc(y: YmlConfig?) returns (z: YmlConfig?)
    ensures DocOf(z) == DocOf(y)
    ensures z != null ==> fresh(z) && z.kind == y.kind
  {
    z := null;
    if y != null {
      z := new YmlConfig(y.kind, y.config);
    }
  }

  /**
   * The copies `clone` makes of the configuration attributes, in the order
   * it makes them: the pipeline configuration renamed, the override
   * document with the agent's command renamed, and plain copies of the rest.
   */
  method ClonedAttributes(ghost v: DistValue, c: DreamPipeline?, o: YmlConfig?, d: YmlConfig?, x: YmlConfig?, l: YmlConfig?,
                          oldName: string, newName: string, displayName: string, description: string, distsDir: string)
    returns (r: Result<(DreamPipeline, YmlConfig, YmlConfig?, YmlConfig?, YmlConfig?)>)
    requires ConfOf(c) == v.pipelineConf && DocOf(o) == v.composeOverride && DocOf(d) == v.composeDev
    requires DocOf(x) == v.composeProxy && DocOf(l) == v.composeLocal && oldName == v.name
    requires DeploymentKinds(o, d, x) && (l != null ==> l.kind == Local)
    ensures (var cl := CloneOf(v, newName, displayName, description, distsDir);
             (r.Err? <==> cl.Err?) && (r.Err? ==> r.error == cl.error) &&
             (r.Ok? ==> cl.value == v.(distPath := ResolveDistPath(newName, PPath(v.dreamRoot), distsDir), name := newName,
                                       pipelineConf := ConfOf(r.value.0), composeOverride := DocOf(r.value.1))))
    ensures r.Ok? ==> DocOf(r.value.2) == v.composeDev && DocOf(r.value.3) == v.composeProxy && DocOf(r.value.4) == v.composeLocal
    ensures r.Ok? ==> DeploymentKinds(r.value.1, r.value.2, r.value.3) && (r.value.4 != null ==> r.value.4.kind == Local)
    ensures r.Ok? ==> fresh(r.value.0) && fresh(r.value.1) && (r.value.2 != null ==> fresh(r.value.2)) &&
                      (r.value.3 != null ==> fresh(r.value.3)) && (r.value.4 != null ==> fresh(r.value.4))
  {
    var newConf := ClonedConf(c, displayName, description);
    if newConf.Err? {
      return Err(newConf.error);
    }
    if o == null {
      return Err(AttributeError);
    }
    var override := CloneOverride(o.config, oldName, newName);
    if override.Err? {
      return Err(override.error);
    }
    var newOverride := new YmlConfig(Override, override.value);
    var newDev := CopiedDoc(d);
    var newProxy := CopiedDoc(x);
    var newLocal := CopiedDoc(l);
    r := Ok((newConf.value, newOverride, newDev, newProxy, newLocal));
  }

  // ---- the aggregate ----------------------------------------------------------------------------

  class AssistantDist {
    var distPath: Path
    var name: string
    const dreamRoot: Path
    const pipeline: Pipeline
    var pipelineConf: DreamPipeline?
    var composeOverride: YmlConfig?
    var composeDev: YmlConfig?
    var composeProxy: YmlConfig?
    const composeLocal: YmlConfig?
    /** `temp_configs`: staged copies of single documents, by attribute name. */
    var temp: map<ConfigSlot, Staged>

    /** Each document attribute holds a document of its own kind. */
    predicate KindsFit()
      reads this
    {
      DeploymentKinds(composeOverride, composeDev, composeProxy) && (composeLocal != null ==> composeLocal.kind == Local)
    }

    ghost predicate Valid()
      reads this, pipeline
    {
      pipeline.Valid() && KindsFit() && StoreFits()
    }

    /** Every stored object fits its attribute. */
    predicate StoreFits()
      reads this
    {
      forall slot | slot in temp :: Fits(slot, temp[slot])
    }

    /** The distribution's current value. */
    function Snapshot(): DistValue
      reads this, pipeline, pipelineConf, composeOverride, composeDev, composeProxy, composeLocal
    {
      DistValue(distPath, name, dreamRoot, pipeline.groups, pipeline.services, ConfOf(pipelineConf),
                DocOf(composeOverride), DocOf(composeDev), DocOf(composeProxy), DocOf(composeLocal))
    }

    /** This distribution holds `v`, field by field. */
    ghost predicate Mirrors(v: DistValue)
      reads this, pipeline, pipelineConf, composeOverride, composeDev, composeProxy, composeLocal
    {
      distPath == v.distPath && name == v.name && dreamRoot == v.dreamRoot &&
      pipeline.groups == v.groups && pipeline.services == v.services && ConfOf(pipelineConf) == v.pipelineConf &&
      DocOf(composeOverride) == v.composeOverride && DocOf(composeDev) == v.composeDev &&
      DocOf(composeProxy) == v.composeProxy && DocOf(composeLocal) == v.composeLocal
    }

    /** `getattr(self, config_type)`. */
    function Live(slot: ConfigSlot): (st: Staged)
      reads this
      ensures Fits(slot, st) || !KindsFit()
    {
      match slot
      case PipelineConfSlot => StagedPipeline(pipelineConf)
      case ComposeOverrideSlot => StagedYml(composeOverride)
      case ComposeDevSlot => StagedYml(composeDev)
      case ComposeProxySlot => StagedYml(composeProxy)
    }

    /** The store after `_fetch_dream_temp_config`: the live attribute is stored when nothing (or None) is. */
    function Fetched(slot: ConfigSlot): map<ConfigSlot, Staged>
      reads this
    {
      if slot in temp && !StagedNone(temp[slot]) then temp else temp[slot := Live(slot)]
    }

    /** The object `_fetch_dream_temp_config` copies: the stored one, or the live attribute when nothing (or None) is stored. */
    function Source(slot: ConfigSlot): Staged
      reads this
    {
      if slot in temp && !StagedNone(temp[slot]) then temp[slot] else Live(slot)
    }

    constructor (distPath: PathLike, name: string, dreamRoot: PathLike, pipeline: Pipeline,
                 pipelineConf: DreamPipeline?, composeOverride: YmlConfig?, composeDev: YmlConfig?,
                 composeProxy: YmlConfig?, composeLocal: YmlConfig?)
      requires pipeline.Valid()
      requires composeOverride != null ==> composeOverride.kind == Override
      requires composeDev != null ==> composeDev.kind == Dev
      requires composeProxy != null ==> composeProxy.kind == Proxy
      requires composeLocal != null ==> composeLocal.kind == Local
      ensures Valid()
      ensures this.distPath == ToPath(distPath) && this.name == name && this.dreamRoot == ToPath(dreamRoot)
      ensures this.pipeline == pipeline && this.pipelineConf == pipelineConf
      ensures this.composeOverride == composeOverride && this.composeDev == composeDev
      ensures this.composeProxy == composeProxy && this.composeLocal == composeLocal
      ensures temp == map[]
    {
      this.distPath := ToPath(distPath);
      this.name := name;
      this.dreamRoot := ToPath(dreamRoot);
      this.pipeline := pipeline;
      this.pipelineConf := pipelineConf;
      this.composeOverride := composeOverride;
      this.composeDev := composeDev;
      this.composeProxy := composeProxy;
      this.composeLocal := composeLocal;
      this.temp := map[];
    }

    /** The `dist_path` setter: the new path is taken only when `DistPathCheck` passes. */
    method SetDistPath(newPath: PathLike, distsDir: string, disk: Disk) returns (r: Outcome)
      modifies this`distPath
      ensures r == DistPathCheck(dreamRoot, distsDir, ToPath(newPath), disk)
      ensures distPath == if r.Pass? then ToPath(newPath) else old(distPath)
    {
      var p := ToPath(newPath);
      if p in disk.existing {
        return Fail(ValueError(PATH_TAKEN_HEAD + PathText(p) + PATH_TAKEN_TAIL));
      }
      var home := Div(dreamRoot, PathOf(distsDir));
      if Parent(p) != home {
        return Fail(ValueError(PathText(p) + PATH_OUTSIDE_MIDDLE + PathText(home)));
      }
      distPath := p;
      return Pass;
    }

    /** The `name` setter: the path's last segment becomes the name, through the `dist_path` setter. */
    method SetName(newName: string, distsDir: string, disk: Disk) returns (r: Outcome)
      modifies this`distPath, this`name
      ensures (var renamed := WithName(old(distPath), newName);
               (renamed.Err? ==> r == Fail(renamed.error)) &&
               (renamed.Ok? ==> r == DistPathCheck(dreamRoot, distsDir, renamed.value, disk)) &&
               (r.Pass? ==> distPath == renamed.value && name == newName && Name(distPath) == newName) &&
               (r.Fail? ==> distPath == old(distPath) && name == old(name)))
    {
      var renamed := WithName(distPath, newName);
      if renamed.Err? {
        return Fail(renamed.error);
      }
      r := SetDistPath(PPath(renamed.value), distsDir, disk);
      if r.Pass? {
        name := newName;
      }
    }

    /**
     * `add_component`: the pipeline and the documents it writes hold
     * `DistAdded` of the old value; the location, the pipeline
     * configuration and the local document are not written (see
     * `DistAddedReachesDocuments`).
     */
    method AddComponent(c: DistComponent) returns (r: Outcome)
      requires Valid()
      modifies pipeline, composeOverride, composeDev, composeProxy
      ensures Valid()
      ensures Holds(old(DistAdded(Snapshot(), c)).0, pipeline, composeOverride, composeDev, composeProxy)
      ensures r == old(DistAdded(Snapshot(), c)).1
    {
      r := AddAcross(Snapshot(), pipeline, composeOverride, composeDev, composeProxy, c);
    }

    /**
     * `remove_component`: the pipeline and the documents it writes hold
     * `DistRemoved` of the old value; nothing else is written (see
     * `DistRemovedReachesDocuments`).
     */
    method RemoveComponent(group: string, name: string) returns (r: Outcome)
      requires Valid()
      modifies pipeline, composeOverride, composeDev, composeProxy
      ensures Valid()
      ensures Holds(old(DistRemoved(Snapshot(), group, name)).0, pipeline, composeOverride, composeDev, composeProxy)
      ensures r == old(DistRemoved(Snapshot(), group, name)).1
    {
      r := RemoveAcross(Snapshot(), pipeline, composeOverride, composeDev, composeProxy, group, name);
    }

    /**
     * `clone`: a new distribution of deep copies under the new name, holding
     * `CloneOf` of this one; this one is not changed, and the service names
     * are not consulted.
     */
    method Clone(newName: string, displayName: string, description: string, serviceNames: Option<seq<string>>, distsDir: string)
      returns (r: Result<AssistantDist>)
      requires Valid()
      ensures (var c := CloneOf(Snapshot(), newName, displayName, description, distsDir);
               (r.Err? <==> c.Err?) && (r.Err? ==> r.error == c.error) &&
               (r.Ok? ==> r.value.Valid() && r.value.temp == map[] && r.value.Mirrors(c.value)))
      ensures (r.Ok? ==>
                 fresh(r.value) && fresh(r.value.pipeline) && fresh(r.value.pipelineConf) && fresh(r.value.composeOverride) &&
                 (r.value.composeDev != null ==> fresh(r.value.composeDev)) &&
                 (r.value.composeProxy != null ==> fresh(r.value.composeProxy)) &&
                 (r.value.composeLocal != null ==> fresh(r.value.composeLocal)))
    {
      var newPipeline := new Pipeline.Copy(pipeline.groups, pipeline.services);
      var parts := ClonedAttributes(Snapshot(), pipelineConf, composeOverride, composeDev, composeProxy, composeLocal,
                                    name, newName, displayName, description, distsDir);
      if parts.Err? {
        return Err(parts.error);
      }
      var (newConf, newOverride, newDev, newProxy, newLocal) := parts.value;
      var dist := new AssistantDist(PPath(ResolveDistPath(newName, PPath(dreamRoot), distsDir)), newName, PPath(dreamRoot),
                                    newPipeline, newConf, newOverride, newDev, newProxy, newLocal);
      return Ok(dist);
    }

    /**
     * `_fetch_dream_temp_config`: the live attribute is stored first when
     * nothing (or None) is stored, and AttributeError raised when it is None
     * too; the result is a fresh copy of the stored object.
     */
    method FetchTempConfig(slot: ConfigSlot) returns (r: Result<Staged>)
      requires Valid()
      modifies this`temp
      ensures Valid()
      ensures temp == old(Fetched(slot))
      ensures r.Err? <==> old(StagedNone(Source(slot)))
      ensures r.Err? ==> r.error == AttributeError
      ensures r.Ok? ==> Fits(slot, r.value) && !StagedNone(r.value) && ContentOf(r.value) == old(ContentOf(Source(slot)))
      ensures r.Ok? && r.value.StagedPipeline? ==> fresh(r.value.p)
      ensures r.Ok? && r.value.StagedYml? ==> fresh(r.value.y)
    {
      var stored: Staged;
      if slot !in temp || StagedNone(temp[slot]) {
        stored := Live(slot);
        temp := temp[slot := stored];
        if StagedNone(stored) {
          return Err(AttributeError);
        }
      } else {
        stored := temp[slot];
      }
      match stored
      case StagedPipeline(p) =>
        var copy := new DreamPipeline(p.config);
        r := Ok(StagedPipeline(copy));
      case StagedYml(y) =>
        var copy := new YmlConfig(y.kind, y.config);
        r := Ok(StagedYml(copy));
    }

    /**
     * `enable_service`: the copy fetched gains the service and is stored;
     * the live attributes are not written.  A refused step leaves the store
     * as the fetch left it.
     */
    method EnableService(slot: ConfigSlot, def: Service, serviceName: string, serviceType: string) returns (r: Outcome)
      requires Valid()
      modifies this`temp
      ensures Valid()
      ensures (var staged := StagedAdded(old(ContentOf(Source(slot))), def, serviceName, serviceType);
               (r.Fail? <==> staged.Err?) &&
               (r.Fail? ==> r.error == staged.error && temp == old(Fetched(slot))) &&
               (r.Pass? ==> slot in temp && temp == old(Fetched(slot))[slot := temp[slot]] &&
                            temp[slot].StagedPipeline? && fresh(temp[slot].p) && ContentOf(temp[slot]) == staged.value))
    {
      ghost var source := ContentOf(Source(slot));
      ghost var fetchedTemp := Fetched(slot);
      var fetched := FetchTempConfig(slot);
      if fetched.Err? {
        assert Absent(source);
        return Fail(fetched.error);
      }
      var st := fetched.value;
      assert ContentOf(st) == source && temp == fetchedTemp;
      r := StageAdd(st, def, serviceName, serviceType);
      assert temp == fetchedTemp;
      if r.Pass? {
        assert ContentOf(st) == StagedAdded(source, def, serviceName, serviceType).value;
        Store(slot, st);
      }
    }

    /** `self.temp_configs[config_type] = config`. */
    method Store(slot: ConfigSlot, st: Staged)
      requires Valid() && Fits(slot, st)
      modifies this`temp
      ensures Valid()
      ensures temp == old(temp)[slot := st]
    {
      temp := temp[slot := st];
    }

    /** `disable_service`: the copy fetched loses the service and is stored, as in `EnableService`. */
    method DisableService(slot: ConfigSlot, serviceType: string, serviceName: string) returns (r: Outcome)
      requires Valid()
      modifies this`temp
      ensures Valid()
      ensures (var staged := StagedRemoved(old(ContentOf(Source(slot))), serviceType, serviceName);
               (r.Fail? <==> staged.Err?) &&
               (r.Fail? ==> r.error == staged.error && temp == old(Fetched(slot))) &&
               (r.Pass? ==> slot in temp && temp == old(Fetched(slot))[slot := temp[slot]] &&
                            temp[slot].StagedPipeline? && fresh(temp[slot].p) && ContentOf(temp[slot]) == staged.value))
    {
      ghost var source := ContentOf(Source(slot));
      ghost var fetchedTemp := Fetched(slot);
      var fetched := FetchTempConfig(slot);
      if fetched.Err? {
        assert Absent(source);
        return Fail(fetched.error);
      }
      var st := fetched.value;
      assert ContentOf(st) == source && temp == fetchedTemp;
      r := StageRemove(st, serviceType, serviceName);
      assert temp == fetchedTemp;
      if r.Pass? {
        assert ContentOf(st) == StagedRemoved(source, serviceType, serviceName).value;
        Store(slot, st);
      }
    }

    /**
     * `apply_temp_config`: the attribute becomes the stored object itself
     * (KeyError when nothing is stored); no other attribute changes.
     */
    method ApplyTempConfig(slot: ConfigSlot) returns (r: Outcome)
      requires Valid()
      modifies this`pipelineConf, this`composeOverride, this`composeDev, this`composeProxy
      ensures Valid()
      ensures r.Fail? <==> slot !in temp
      ensures r.Fail? ==> r.error == KeyError("'" + SlotName(slot) + "'")
      ensures r.Pass? ==> Live(slot) == temp[slot]
      ensures forall s | s != slot || r.Fail? :: Live(s) == old(Live(s))
    {
      if slot !in temp {
        return Fail(KeyError("'" + SlotName(slot) + "'"));
      }
      var st := temp[slot];
      match slot {
        case PipelineConfSlot => pipelineConf := st.p;
        case ComposeOverrideSlot => composeOverride := st.y;
        case ComposeDevSlot => composeDev := st.y;
        case ComposeProxySlot => composeProxy := st.y;
      }
      return Pass;
    }

    /** `check_ports`: this distribution is only read; the outcome is `CheckPortsOf` its value. */
    method CheckPorts(nonServices: seq<string>) returns (r: Outcome)
      requires Valid()
      ensures r == CheckPortsOf(Snapshot(), nonServices)
    {
      r := PipelinePortCheck(pipelineConf);
      if r.Fail? {
        return;
      }
      var lines := DeploymentPortCheck(Snapshot(), composeOverride, composeDev, composeProxy, composeLocal, nonServices);
      r := LinesOutcome(lines);
    }

    /**
     * `add_dff_skill` without copying the template or saving: the objects
     * end up holding `DffAdded` of the old value, and the result is the
     * skill's directory.
     */
    method AddDffSkill(skillName: string, port: int, skillsDir: string, disk: Disk) returns (r: Result<Path>)
      requires Valid()
      modifies pipelineConf, composeOverride, composeDev, composeProxy
      ensures Valid()
      ensures (var (w, res) := old(DffAdded(Snapshot(), skillName, port, skillsDir, disk));
               r == res && ConfOf(pipelineConf) == w.pipelineConf &&
               DocOf(composeOverride) == w.composeOverride && DocOf(composeDev) == w.composeDev && DocOf(composeProxy) == w.composeProxy)
    {
      r := AddDffAcross(Snapshot(), pipelineConf, composeOverride, composeDev, composeProxy, dreamRoot, skillName, port, skillsDir, disk);
    }
  }
}
