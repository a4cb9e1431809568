/**
 * The older distribution manager: its connector-url parser, the edit that
 * adds a container to a compose document, the loading of a distribution's
 * documents by flags, its path resolver and the order in which it walks a
 * distribution's documents.
 */
module Manager {
  import opened Wrappers
  import opened Dicts
  import opened Text
  import opened PurePath
  import opened Utils
  import opened Generics
  import opened ComposeConfigs

  // ---- connector urls -----------------------------------------------------

  /**
   * `_parse_connector_url`: no url (None or "") gives no address; any
   * other url is cut like `parse_connector_url` does, and an authority
   * without exactly one ':' fails the unpacking into host and port.
   */
  function LegacyParseConnectorUrl(url: Option<string>): (r: Result<Option<Address>>)
    ensures r == Ok(None) <==> url.None? || url.value == ""
    ensures r.Err? ==> r.error.ValueError?
  {
    if url.None? || url.value == "" then Ok(None)
    else
      var urlParts := SplitOnce(SchemeFree(url.value), "/");
      var hostPort := Split(urlParts[0], ":");
      if |hostPort| < 2 then Err(ValueError("not enough values to unpack (expected 2, got 1)"))
      else if |hostPort| > 2 then Err(ValueError("too many values to unpack (expected 2)"))
      else Ok(Some(Address(hostPort[0], hostPort[1], if |urlParts| > 1 then urlParts[1] else "")))
  }

  /**
   * On a non-empty url the older parser agrees with `parse_connector_url`:
   * both accept the same urls, with the same pieces, and both reject the
   * rest with a ValueError.
   */
  lemma LegacyParseAgrees(url: string)
    requires url != ""
    ensures LegacyParseConnectorUrl(Some(url)).Ok? <==> ParseConnectorUrl(Some(url)).Ok?
    ensures ParseConnectorUrl(Some(url)).Ok? ==>
      LegacyParseConnectorUrl(Some(url)) == Ok(Some(ParseConnectorUrl(Some(url)).value))
  {
    var urlParts := SplitOnce(SchemeFree(url), "/");
    assert Authority(url) == urlParts[0];
    SplitCharCount(urlParts[0], ':');
  }

  /** A url built from a host, a port and an endpoint parses back to them. */
  lemma LegacyParseBuildRoundTrip(scheme: string, host: string, port: string, endpoint: string)
    requires ':' !in host && '/' !in host && ':' !in port && '/' !in port
    requires !Contains(endpoint, "//") && (endpoint == [] || endpoint[0] != '/')
    ensures LegacyParseConnectorUrl(Some(BuildConnectorUrl(scheme, host, port, endpoint)))
      == Ok(Some(Address(host, port, endpoint)))
  {
    var url := BuildConnectorUrl(scheme, host, port, endpoint);
    assert url[|scheme|] == ':';
    ParseBuildRoundTrip(scheme, host, port, endpoint);
    LegacyParseAgrees(url);
  }

  // ---- compose documents ------------------------------------------------------------------

  /** `YmlDreamConfig` of this module: a compose document of one kind. */
  class LegacyYmlConfig {
    const kind: ComposeKind
    var config: ComposeDoc

    constructor (kind: ComposeKind, config: ComposeDoc)
      ensures this.kind == kind && this.config == config
    {
      this.kind := kind;
      this.config := config;
    }

    /**
     * `add_service`: the name maps to the definition, a new name going
     * last, and the version is kept.  The shallow copy shares the services
     * map, so this document gains the service even when a new one is
     * returned.
     */
    method AddService(name: string, def: Container, inplace: bool) returns (r: LegacyYmlConfig)
      modifies this
      ensures config == WithService(old(config), name, def)
      ensures inplace ==> r == this
      ensures !inplace ==> fresh(r) && r.kind == kind && r.config == config
    {
      var services := Set(config.services, name, def);
      var updated := ComposeDoc(config.version, services);
      config := updated;
      if inplace {
        r := this;
      } else {
        r := new LegacyYmlConfig(kind, updated);
      }
    }
  }

  // ---- loading by flags ---------------------------------------------------------------------

  /**
   * The keyword arguments `load_configs_with_default_filenames` may fill
   * (`pipeline_conf`, `compose_override`, `compose_dev`, `compose_proxy`,
   * `compose_local`), in the order it fills them.
   */
  datatype ConfigKey = PipelineConfKey | ComposeOverrideKey | ComposeDevKey | ComposeProxyKey | ComposeLocalKey

  const CONFIG_KEYS: seq<ConfigKey> := [PipelineConfKey, ComposeOverrideKey, ComposeDevKey, ComposeProxyKey, ComposeLocalKey]

  /** A loaded document: the pipeline configuration or a compose document of some kind. */
  datatype LoadedConfig = PipelineConfig(conf: PipelineConf) | ComposeConfig(kind: ComposeKind, doc: ComposeDoc)

  /** Which documents to load. */
  datatype Flags = Flags(pipelineConf: bool, composeOverride: bool, composeDev: bool, composeProxy: bool, composeLocal: bool)

  function Flag(flags: Flags, k: ConfigKey): bool
  {
    match k
    case PipelineConfKey => flags.pipelineConf
    case ComposeOverrideKey => flags.composeOverride
    case ComposeDevKey => flags.composeDev
    case ComposeProxyKey => flags.composeProxy
    case ComposeLocalKey => flags.composeLocal
  }

  /** What `from_dist` reads from the distribution directory for each document. */
  datatype DistFiles = DistFiles(pipelineConf: PipelineConf, composeOverride: ComposeDoc, composeDev: ComposeDoc,
                                 composeProxy: ComposeDoc, composeLocal: ComposeDoc)

  /** The document loaded for a key. */
  function Loaded(files: DistFiles, k: ConfigKey): LoadedConfig
  {
    match k
    case PipelineConfKey => PipelineConfig(files.pipelineConf)
    case ComposeOverrideKey => ComposeConfig(Override, files.composeOverride)
    case ComposeDevKey => ComposeConfig(Dev, files.composeDev)
    case ComposeProxyKey => ComposeConfig(Proxy, files.composeProxy)
    case ComposeLocalKey => ComposeConfig(Local, files.composeLocal)
  }

  predicate AnyFlag(flags: Flags)
  {
    flags.pipelineConf || flags.composeOverride || flags.composeDev || flags.composeProxy || flags.composeLocal
  }

  /**
   * `load_configs_with_default_filenames`: the keyword arguments for
   * exactly the flagged documents.  Service names, when given, are passed
   * to `filter_services`, which no class of this module overrides: the
   * first call raises NotImplementedError, so any loaded document makes
   * the call fail.
   */
  method LoadConfigs(flags: Flags, files: DistFiles, serviceNames: Option<seq<string>>)
    returns (r: Result<map<ConfigKey, LoadedConfig>>)
    ensures r.Err? <==> serviceNames.Some? && serviceNames.value != [] && AnyFlag(flags)
    ensures r.Err? ==> r.error == NotImplementedError
    ensures r.Ok? ==> forall k :: (k in r.value <==> Flag(flags, k)) && (k in r.value ==> r.value[k] == Loaded(files, k))
  {
    var kwargs: map<ConfigKey, LoadedConfig> := map[];
    if flags.pipelineConf {
      kwargs := kwargs[PipelineConfKey := PipelineConfig(files.pipelineConf)];
    }
    if flags.composeOverride {
      kwargs := kwargs[ComposeOverrideKey := ComposeConfig(Override, files.composeOverride)];
    }
    if flags.composeDev {
      kwargs := kwargs[ComposeDevKey := ComposeConfig(Dev, files.composeDev)];
    }
    if flags.composeProxy {
      kwargs := kwargs[ComposeProxyKey := ComposeConfig(Proxy, files.composeProxy)];
    }
    if flags.composeLocal {
      kwargs := kwargs[ComposeLocalKey := ComposeConfig(Local, files.composeLocal)];
    }
    assert AnyFlag(flags) ==> kwargs != map[] by {
      if AnyFlag(flags) {
        assert PipelineConfKey in kwargs || ComposeOverrideKey in kwargs || ComposeDevKey in kwargs ||
               ComposeProxyKey in kwargs || ComposeLocalKey in kwargs;
      }
    }
    forall k | true
      ensures (k in kwargs <==> Flag(flags, k)) && (k in kwargs ==> kwargs[k] == Loaded(files, k))
    {
      match k
      case PipelineConfKey =>
      case ComposeOverrideKey =>
      case ComposeDevKey =>
      case ComposeProxyKey =>
      case ComposeLocalKey =>
    }
    if serviceNames.Some? && serviceNames.value != [] && kwargs != map[] {
      return Err(NotImplementedError);
    }
    return Ok(kwargs);
  }

  // ---- paths ------------------------------------------------------------------------------

  const LEGACY_DISTS_DIR: string := "assistant_dists"

  /** `resolve_dist_path`: `dream_root / "assistant_dists" / name`. */
  function LegacyResolveDistPath(name: string, dreamRoot: PathLike): Path
  {
    ResolveDistPath(name, dreamRoot, LEGACY_DISTS_DIR)
  }

  /** `resolve_name_and_dream_root` undoes `resolve_dist_path` for a one-segment name. */
  lemma LegacyResolveRoundTrip(name: string, dreamRoot: PathLike)
    requires IsSegment(name)
    ensures ResolveNameAndDreamRoot(PPath(LegacyResolveDistPath(name, dreamRoot))) == Ok((name, ToPath(dreamRoot)))
  {
    assert IsSegment(LEGACY_DISTS_DIR) by {
      assert '/' !in LEGACY_DISTS_DIR && LEGACY_DISTS_DIR != "." && LEGACY_DISTS_DIR != "";
    }
    ResolveRoundTrip(name, dreamRoot, LEGACY_DISTS_DIR);
  }

  /**
   * `resolve_all_paths` of this manager. Unlike the one in `utils.py` it
   * never wraps a given `dist_path` in `Path`: a string path reaches the
   * disk guard unchanged, and a `str` has no `exists`.
   */
  function LegacyResolveAllPaths(distPath: Option<PathLike>, name: Option<string>, dreamRoot: Option<PathLike>,
                                 disk: Disk): (r: Result<Resolved>)
    ensures distPath.Some? && distPath.value.PStr? && Truthy(distPath.value) ==>
      r == if |ToPath(distPath.value).parts| < 2 then Err(IndexError) else Err(AttributeError)
    ensures r.Ok? ==> r.value.distPath !in disk.directories || r.value.distPath in disk.existing
  {
    if distPath.Some? && Truthy(distPath.value) then
      var nr :- ResolveNameAndDreamRoot(distPath.value);
      match distPath.value
      case PStr(_) => Err(AttributeError)
      case PPath(p) =>
        if p !in disk.existing && p in disk.directories then Err(NotADirectoryError)
        else Ok(Resolved(p, nr.0, PPath(nr.1)))
    else if name.Some? && name.value != "" && dreamRoot.Some? && Truthy(dreamRoot.value) then
      var p := LegacyResolveDistPath(name.value, dreamRoot.value);
      if p !in disk.existing && p in disk.directories then Err(NotADirectoryError)
      else Ok(Resolved(p, name.value, dreamRoot.value))
    else Err(NotEnoughArguments())
  }

  /**
   * Apart from a string `dist_path`, this resolver is the `utils.py` one
   * over the literal "assistant_dists" directory.
   */
  lemma LegacyResolveAllPathsAgrees(distPath: Option<PathLike>, name: Option<string>, dreamRoot: Option<PathLike>,
                                    disk: Disk)
    ensures !(distPath.Some? && distPath.value.PStr? && Truthy(distPath.value)) ==>
      LegacyResolveAllPaths(distPath, name, dreamRoot, disk)
        == ResolveAllPathsAsWritten(distPath, name, dreamRoot, LEGACY_DISTS_DIR, disk)
    ensures distPath.Some? && distPath.value.PStr? && Truthy(distPath.value) &&
            ResolveAllPathsAsWritten(distPath, name, dreamRoot, LEGACY_DISTS_DIR, disk).Ok? ==>
      LegacyResolveAllPaths(distPath, name, dreamRoot, disk) == Err(AttributeError)
  {
    if distPath.Some? && Truthy(distPath.value) && distPath.value.PPath? {
      assert ToPath(distPath.value) == distPath.value.p;
    }
  }

  /** A string distribution path that `utils.py` accepts fails here. */
  lemma LegacyRejectsStringPath(s: string, disk: Disk)
    requires s != "" && |PathOf(s).parts| >= 2 && WellFormedDisk(disk)
    ensures ResolveAllPathsAsWritten(Some(PStr(s)), None, None, LEGACY_DISTS_DIR, disk).Ok?
    ensures LegacyResolveAllPaths(Some(PStr(s)), None, None, disk) == Err(AttributeError)
  {
    LegacyResolveAllPathsAgrees(Some(PStr(s)), None, None, disk);
    AsWrittenNeverRejects(Some(PStr(s)), None, None, LEGACY_DISTS_DIR, disk);
  }

  /** "dream/x" is a path of two segments. */
  lemma TwoSegmentPath()
    ensures PathOf("dream/x").parts == ["dream", "x"]
  {
    var s := "dream/x";
    FindChar(s, '/');
    assert s[5] == '/' && '/' !in s[..5];
    assert s[..5] == "dream" && s[6..] == "x";
    FindChar("x", '/');
    assert Split(s, "/") == ["dream"] + Split("x", "/") == ["dream", "x"];
    assert Segments(["dream", "x"]) == ["dream", "x"];
  }

  // ---- walking the documents ----------------------------------------------------------------

  /** `DreamDist` of this module: where it lives and which documents it holds. */
  datatype LegacyDist = LegacyDist(distPath: Path, name: string, dreamRoot: PathLike, pipelineConf: Option<PipelineConf>,
                                   composeOverride: Option<ComposeDoc>, composeDev: Option<ComposeDoc>,
                                   composeProxy: Option<ComposeDoc>, composeLocal: Option<ComposeDoc>)

  /** The document a distribution holds under a key, if any. */
  function ConfigAt(d: LegacyDist, k: ConfigKey): Option<LoadedConfig>
  {
    match k
    case PipelineConfKey => if d.pipelineConf.Some? then Some(PipelineConfig(d.pipelineConf.value)) else None
    case ComposeOverrideKey => if d.composeOverride.Some? then Some(ComposeConfig(Override, d.composeOverride.value)) else None
    case ComposeDevKey => if d.composeDev.Some? then Some(ComposeConfig(Dev, d.composeDev.value)) else None
    case ComposeProxyKey => if d.composeProxy.Some? then Some(ComposeConfig(Proxy, d.composeProxy.value)) else None
    case ComposeLocalKey => if d.composeLocal.Some? then Some(ComposeConfig(Local, d.composeLocal.value)) else None
  }

  /** A document's place in the walk. */
  function Rank(c: LoadedConfig): nat
  {
    match c
    case PipelineConfig(_) => 0
    case ComposeConfig(kind, _) =>
      match kind
      case Override => 1
      case Dev => 2
      case Proxy => 3
      case Local => 4
  }

  /** The values present in `cs`, in order. */
  function Present(cs: seq<Option<LoadedConfig>>): (r: seq<LoadedConfig>)
    ensures |r| <= |cs|
  {
    if cs == [] then []
    else if cs[0].Some? then [cs[0].value] + Present(cs[1..])
    else Present(cs[1..])
  }

  /** A value is present exactly when `cs` holds it. */
  lemma {:induction false} PresentMembers(cs: seq<Option<LoadedConfig>>, x: LoadedConfig)
    ensures x in Present(cs) <==> Some(x) in cs
  {
    if cs != [] {
      PresentMembers(cs[1..], x);
      assert Some(x) in cs <==> Some(x) == cs[0] || Some(x) in cs[1..] by {
        assert cs == [cs[0]] + cs[1..];
      }
    }
  }

  /** A bound below every rank in `cs` is below every rank in its present values. */
  lemma PresentAbove(cs: seq<Option<LoadedConfig>>, b: int)
    requires forall i | 0 <= i < |cs| && cs[i].Some? :: b < Rank(cs[i].value)
    ensures forall x | x in Present(cs) :: b < Rank(x)
  {
    forall x | x in Present(cs)
      ensures b < Rank(x)
    {
      PresentMembers(cs, x);
      var m :| 0 <= m < |cs| && cs[m] == Some(x);
    }
  }

  /** The present values of a sequence whose values rise in rank rise in rank too. */
  lemma {:induction false} PresentRising(cs: seq<Option<LoadedConfig>>)
    requires forall i, j | 0 <= i < j < |cs| && cs[i].Some? && cs[j].Some? :: Rank(cs[i].value) < Rank(cs[j].value)
    ensures forall i, j | 0 <= i < j < |Present(cs)| :: Rank(Present(cs)[i]) < Rank(Present(cs)[j])
  {
    if cs != [] {
      var rest := cs[1..];
      assert forall i, j | 0 <= i < j < |rest| && rest[i].Some? && rest[j].Some? :: Rank(rest[i].value) < Rank(rest[j].value) by {
        forall i, j | 0 <= i < j < |rest| && rest[i].Some? && rest[j].Some?
          ensures Rank(rest[i].value) < Rank(rest[j].value)
        {
          assert rest[i] == cs[i + 1] && rest[j] == cs[j + 1];
        }
      }
      PresentRising(rest);
      if cs[0].Some? {
        var v := cs[0].value;
        assert forall i | 0 <= i < |rest| && rest[i].Some? :: Rank(v) < Rank(rest[i].value) by {
          forall i | 0 <= i < |rest| && rest[i].Some?
            ensures Rank(v) < Rank(rest[i].value)
          {
            assert rest[i] == cs[i + 1];
          }
        }
        PresentAbove(rest, Rank(v));
        var p := Present(cs);
        var q := Present(rest);
        assert p == [v] + q;
        forall i, j | 0 <= i < j < |p|
          ensures Rank(p[i]) < Rank(p[j])
        {
          assert p[j] == q[j - 1];
          if i > 0 {
            assert p[i] == q[i - 1];
          }
        }
      }
    }
  }

  /** Every document the distribution holds is among the five the walk visits. */
  lemma ConfigsListed(d: LegacyDist)
    ensures forall k | ConfigAt(d, k).Some? :: ConfigAt(d, k) in Listed(d)
  {
    var cs := Listed(d);
    forall k | ConfigAt(d, k).Some?
      ensures ConfigAt(d, k) in cs
    {
      match k
      case PipelineConfKey => assert cs[0] == ConfigAt(d, k);
      case ComposeOverrideKey => assert cs[1] == ConfigAt(d, k);
      case ComposeDevKey => assert cs[2] == ConfigAt(d, k);
      case ComposeProxyKey => assert cs[3] == ConfigAt(d, k);
      case ComposeLocalKey => assert cs[4] == ConfigAt(d, k);
    }
  }

  /**
   * `iter_configs`: the documents the distribution holds, in the order
   * pipeline, override, dev, proxy, local, skipping absent ones.
   */
  function IterConfigs(d: LegacyDist): (r: seq<LoadedConfig>)
    ensures |r| <= |CONFIG_KEYS|
  {
    Present(Listed(d))
  }

  /** The five places `iter_configs` looks in, in its order. */
  function Listed(d: LegacyDist): seq<Option<LoadedConfig>>
  {
    [ConfigAt(d, PipelineConfKey), ConfigAt(d, ComposeOverrideKey), ConfigAt(d, ComposeDevKey),
     ConfigAt(d, ComposeProxyKey), ConfigAt(d, ComposeLocalKey)]
  }

  /** Each place holds a document of its own rank. */
  lemma ListedRanks(d: LegacyDist)
    ensures forall i | 0 <= i < |Listed(d)| && Listed(d)[i].Some? :: Rank(Listed(d)[i].value) == i
  {
  }

  /** The walk yields every document the distribution holds. */
  lemma IterConfigsComplete(d: LegacyDist)
    ensures forall k | ConfigAt(d, k).Some? :: ConfigAt(d, k).value in IterConfigs(d)
  {
    ConfigsListed(d);
    forall k | ConfigAt(d, k).Some?
      ensures ConfigAt(d, k).value in IterConfigs(d)
    {
      PresentMembers(Listed(d), ConfigAt(d, k).value);
    }
  }

  /** The walk yields nothing but documents the distribution holds. */
  lemma IterConfigsSound(d: LegacyDist)
    ensures forall x | x in IterConfigs(d) :: exists k :: ConfigAt(d, k) == Some(x)
  {
    var cs := Listed(d);
    forall x | x in IterConfigs(d)
      ensures exists k :: ConfigAt(d, k) == Some(x)
    {
      PresentMembers(cs, x);
      var m :| 0 <= m < |cs| && cs[m] == Some(x);
      assert ConfigAt(d, CONFIG_KEYS[m]) == Some(x);
    }
  }

  /** The walk goes in the order pipeline, override, dev, proxy, local, so it yields each document once. */
  lemma IterConfigsOrdered(d: LegacyDist)
    ensures forall i, j | 0 <= i < j < |IterConfigs(d)| :: Rank(IterConfigs(d)[i]) < Rank(IterConfigs(d)[j])
  {
    ListedRanks(d);
    PresentRising(Listed(d));
  }
}
