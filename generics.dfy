/**
 * The schema of a distribution's documents: the pipeline configuration
 * (connectors, services, metadata) and the compose documents (containers
 * with build, command, environment, deploy and ports).  Every record
 * refuses fields it does not declare.
 */
module Generics {
  import opened Wrappers
  import opened Dicts
  import opened Text
  import opened Json
  import opened Utils

  // ---- closed records ----------------------------------------------------

  /** The fields a record declares and those among them it cannot do without. */
  datatype RecordSchema = RecordSchema(declared: seq<string>, required: seq<string>)

  function FirstMissing(required: seq<string>, given: seq<string>): (r: Option<string>)
    ensures r.None? <==> forall k | 0 <= k < |required| :: required[k] in given
    ensures r.Some? ==> r.value in required && r.value !in given
  {
    if required == [] then None
    else if required[0] !in given then Some(required[0])
    else FirstMissing(required[1..], given)
  }

  function FirstExtra(given: seq<string>, declared: seq<string>): (r: Option<string>)
    ensures r.None? <==> forall k | 0 <= k < |given| :: given[k] in declared
    ensures r.Some? ==> r.value in given && r.value !in declared
  {
    if given == [] then None
    else if given[0] !in declared then Some(given[0])
    else FirstExtra(given[1..], declared)
  }

  /**
   * Validation of the keys a document gives for a record: every required
   * field must be present and no undeclared field may appear.
   */
  function ValidateFields(schema: RecordSchema, given: seq<string>): (r: Outcome)
    ensures r.Pass? <==>
      (forall k | 0 <= k < |given| :: given[k] in schema.declared) &&
      (forall k | 0 <= k < |schema.required| :: schema.required[k] in given)
    ensures r.Fail? ==> r.error.ValueError?
  {
    match FirstMissing(schema.required, given)
    case Some(f) => Fail(ValueError(f + ": field required"))
    case None =>
      match FirstExtra(given, schema.declared)
      case Some(f) => Fail(ValueError(f + ": extra fields not permitted"))
      case None => Pass
  }

  const CONNECTOR_SCHEMA := RecordSchema(
    ["protocol", "timeout", "url", "class_name", "response_text", "annotations", "annotator_names"],
    ["protocol"])
  const SERVICE_SCHEMA := RecordSchema(
    ["connector", "dialog_formatter", "response_formatter", "previous_services",
     "required_previous_services", "state_manager_method", "tags"],
    ["connector"])
  const SERVICE_LIST_SCHEMA := RecordSchema(
    ["last_chance_service", "timeout_service", "bot_annotator_selector", "post_annotators", "annotators",
     "skill_selectors", "skills", "post_skill_selector_annotators", "response_selectors", "response_annotators"],
    ["annotators", "skills", "response_selectors"])
  const METADATA_SCHEMA := RecordSchema(
    ["display_name", "author", "description", "version", "date_created", "ram_usage", "gpu_usage", "disk_usage"],
    ["display_name", "author", "description", "version", "date_created", "ram_usage", "gpu_usage", "disk_usage"])
  const PIPELINE_CONF_SCHEMA := RecordSchema(["connectors", "services", "metadata"], ["services"])
  const BUILD_SCHEMA := RecordSchema(["args", "context", "dockerfile"], ["context"])
  const RESOURCES_ARG_SCHEMA := RecordSchema(["memory"], ["memory"])
  const RESOURCES_SCHEMA := RecordSchema(["limits", "reservations"], ["limits", "reservations"])
  const DEPLOYMENT_SCHEMA := RecordSchema(["mode", "replicas", "resources"], [])
  const CONTAINER_SCHEMA := RecordSchema(
    ["volumes", "env_file", "build", "command", "environment", "deploy", "tty", "ports"], [])
  const DEV_CONTAINER_SCHEMA := RecordSchema(["volumes", "ports"], ["ports"])
  /** A local container inherits both field sets; its `ports` become optional. */
  const LOCAL_CONTAINER_SCHEMA := RecordSchema(
    ["volumes", "ports", "env_file", "build", "command", "environment", "deploy", "tty"], [])
  const COMPOSE_DOC_SCHEMA := RecordSchema(["services", "version"], ["services"])

  /** Every valid override or proxy container is also a valid local container. */
  lemma LocalAcceptsContainers(given: seq<string>)
    requires ValidateFields(CONTAINER_SCHEMA, given).Pass?
    ensures ValidateFields(LOCAL_CONTAINER_SCHEMA, given).Pass?
  {
    forall k | 0 <= k < |given|
      ensures given[k] in LOCAL_CONTAINER_SCHEMA.declared
    {
      assert given[k] in CONTAINER_SCHEMA.declared;
    }
  }

  /** A dev container carries volumes and ports only, and must carry ports. */
  lemma DevContainerFields(given: seq<string>)
    ensures ValidateFields(DEV_CONTAINER_SCHEMA, given).Pass? <==>
      "ports" in given && forall k | 0 <= k < |given| :: given[k] == "volumes" || given[k] == "ports"
  {
  }

  /** A pipeline service needs a connector and nothing else. */
  lemma ServiceNeedsConnector(given: seq<string>)
    requires forall k | 0 <= k < |given| :: given[k] in SERVICE_SCHEMA.declared
    ensures ValidateFields(SERVICE_SCHEMA, given).Pass? <==> "connector" in given
  {
  }

  // ---- deployment resources -------------------------------------------------------

  const MEMORY_UNIT_MISSING: string := "'memory' value must contain units, e.g. '2.5G' or '256M'"
  const MEMORY_AMOUNT_MISSING: string :=
    "'memory' value must contain a float-like value before the unit substring, e.g. '2.5G' or '256M'"

  /**
   * `check_memory_format`: a number followed by the unit G or M.  Whether
   * the text before the unit reads as a float is left to `floatLike`.
   */
  function CheckMemoryFormat(v: string, floatLike: string -> bool): (r: Result<string>)
    ensures v == "" ==> r == Err(IndexError)
    ensures r.Ok? <==> v != "" && (v[|v| - 1] == 'G' || v[|v| - 1] == 'M') && floatLike(v[..|v| - 1])
    ensures r.Ok? ==> r.value == v
    ensures r.Err? && v != "" ==> r.error.ValueError?
  {
    if v == [] then Err(IndexError)
    else
      var unit := v[|v| - 1];
      var amount := v[..|v| - 1];
      if unit != 'G' && unit != 'M' then
        Err(ValueError(MEMORY_UNIT_MISSING))
      else if !floatLike(amount) then
        Err(ValueError(MEMORY_AMOUNT_MISSING))
      else Ok(v)
  }

  // ---- the pipeline configuration --------------------------------------------------

  datatype ConnectorDef = ConnectorDef(
    protocol: string,
    timeout: Option<Json>,
    url: Option<string>,
    className: Option<string>,
    responseText: Option<string>,
    annotations: Option<Json>,
    annotatorNames: Option<seq<Json>>)

  /** A service's connector: a reference such as "connectors.sentseg", or inline. */
  datatype ConnectorField = ConnectorRef(name: string) | ConnectorInline(def: ConnectorDef)

  datatype Service = Service(
    connector: ConnectorField,
    dialogFormatter: Option<string>,
    responseFormatter: Option<string>,
    previousServices: Option<seq<string>>,
    requiredPreviousServices: Option<seq<string>>,
    stateManagerMethod: Option<string>,
    tags: Option<seq<string>>)

  /** A service-list attribute: one service, or a group of services by name. */
  datatype GroupValue = SingleService(service: Option<Service>) | ServiceGroup(services: Option<Dict<string, Service>>)

  /** The service list's attributes by name. */
  type ServiceList = Dict<string, GroupValue>

  datatype Metadata = Metadata(
    displayName: string, author: string, description: string, version: string,
    dateCreated: string, ramUsage: string, gpuUsage: string, diskUsage: string)

  datatype PipelineConf = PipelineConf(
    connectors: Option<Dict<string, ConnectorDef>>,
    services: ServiceList,
    metadata: Option<Metadata>)

  /** `flat_keys`: the attributes that hold a single service. */
  const FLAT_KEYS: seq<string> := ["last_chance_service", "timeout_service", "bot_annotator_selector"]

  /** `editable_groups`: the groups services can be added to and removed from. */
  const EDITABLE_GROUPS: seq<string> :=
    ["post_annotators", "annotators", "skills", "post_skill_selector_annotators", "response_selectors"]

  /** A service list shaped as its schema declares. */
  predicate ConformingServiceList(sl: ServiceList)
  {
    Keys(sl) == SERVICE_LIST_SCHEMA.declared &&
    forall k | 0 <= k < |sl| ::
      (sl[k].0 in FLAT_KEYS <==> sl[k].1.SingleService?) &&
      (sl[k].0 in SERVICE_LIST_SCHEMA.required ==> sl[k].1.ServiceGroup? && sl[k].1.services.Some?)
  }

  /** The editable groups are groups, never single services, and never flat keys. */
  lemma EditableGroupsAreGroups(sl: ServiceList, g: string)
    requires ConformingServiceList(sl) && g in EDITABLE_GROUPS
    ensures g !in FLAT_KEYS
    ensures Get(sl, g).Some? && Get(sl, g).value.ServiceGroup?
  {
    assert g in SERVICE_LIST_SCHEMA.declared;
    var i :| 0 <= i < |sl| && Keys(sl)[i] == g;
    assert sl[i].0 == g;
  }

  /**
   * `container_name`: the host of an inline connector's url.  A reference
   * connector has no url and gives None; an inline connector whose url is
   * missing or malformed raises the codec's ValueError.
   */
  function ContainerName(s: Service): (r: Result<Option<string>>)
    ensures s.connector.ConnectorRef? ==> r == Ok(None)
    ensures s.connector.ConnectorInline? ==>
      match ParseConnectorUrl(s.connector.def.url)
      case Ok(a) => r == Ok(Some(a.host))
      case Err(e) => r == Err(e)
  {
    match s.connector
    case ConnectorRef(_) => Ok(None)
    case ConnectorInline(def) =>
      var a :- ParseConnectorUrl(def.url);
      Ok(Some(a.host))
  }

  /** A connector written as `scheme://host:port/endpoint` names the container `host`. */
  lemma ContainerNameOfBuiltUrl(s: Service, scheme: string, host: string, port: string, endpoint: string)
    requires ':' !in host && '/' !in host && ':' !in port && '/' !in port
    requires !Contains(endpoint, "//") && (endpoint == [] || endpoint[0] != '/')
    requires s.connector.ConnectorInline? && s.connector.def.url == Some(BuildConnectorUrl(scheme, host, port, endpoint))
    ensures ContainerName(s) == Ok(Some(host))
  {
    ParseBuildRoundTrip(scheme, host, port, endpoint);
  }

  // ---- compose documents -----------------------------------------------------------------

  datatype Command = CmdStr(s: string) | CmdList(items: seq<Json>)

  /** A container environment: a list of `NAME=value` strings, or a mapping. */
  datatype Environment = EnvList(entries: seq<string>) | EnvMap(vars: Dict<string, Json>)

  datatype BuildDefinition = BuildDefinition(args: Option<Dict<string, Json>>, context: string, dockerfile: Option<string>)

  datatype ResourcesArg = ResourcesArg(memory: string)

  datatype Resources = Resources(limits: ResourcesArg, reservations: ResourcesArg)

  datatype Deployment = Deployment(mode: Option<string>, replicas: Option<int>, resources: Option<Resources>)

  /**
   * One compose service entry.  Override, proxy and local entries use all
   * fields; dev entries only `volumes` and `ports`.
   */
  datatype Container = Container(
    volumes: Option<seq<string>>,
    envFile: Option<seq<Json>>,
    build: Option<BuildDefinition>,
    command: Option<Command>,
    environment: Option<Environment>,
    deploy: Option<Deployment>,
    tty: Option<bool>,
    ports: Option<seq<string>>)

  const EMPTY_CONTAINER := Container(None, None, None, None, None, None, None, None)

  /** The compose file format version a document gets when it names none. */
  const DEFAULT_COMPOSE_VERSION := "3.7"

  datatype ComposeDoc = ComposeDoc(version: string, services: Dict<string, Container>)

  /** A compose document built from its services, with the version defaulted. */
  function NewComposeDoc(services: Dict<string, Container>, version: Option<string>): (d: ComposeDoc)
    ensures d.services == services
    ensures version.None? ==> d.version == DEFAULT_COMPOSE_VERSION
    ensures version.Some? ==> d.version == version.value
  {
    ComposeDoc(version.GetOr(DEFAULT_COMPOSE_VERSION), services)
  }

  /**
   * A document rebuilt from its own services and version is itself, and
   * leaving the version out is the same as writing the default one.
   */
  lemma ComposeDocDefaults(d: ComposeDoc, services: Dict<string, Container>)
    ensures NewComposeDoc(d.services, Some(d.version)) == d
    ensures NewComposeDoc(services, None) == NewComposeDoc(services, Some(DEFAULT_COMPOSE_VERSION))
  {
  }


  // ---- port definitions ------------------------------------------------------------------

  datatype PortDefinition = PortDefinition(key: string, text: Json, value: Json)

  /** Where a port definition was found. */
  const COMMAND_KEY: string := "command"
  const BUILD_KEY: string := "build -> args -> SERVICE_PORT"
  const ENVIRONMENT_KEY: string := "environment -> PORT"

  const TOO_MANY_VALUES: string := "too many values to unpack (expected 2)"
  const NOT_ENOUGH_VALUES: string := "not enough values to unpack (expected 2, got "

  /** The error unpacking `e.split("=")` into two names raises. */
  function UnpackError(pieces: nat): Error
  {
    if pieces > 2 then ValueError(TOO_MANY_VALUES)
    else ValueError(NOT_ENOUGH_VALUES + NatToString(pieces) + ")")
  }

  /** The `(name, value)` pairs of an environment, in order. */
  function EnvPairs(env: Option<Environment>): (r: Result<seq<(string, Json)>>)
    ensures env.None? || env.value.EnvMap? ==> r.Ok?
    ensures env.Some? && env.value.EnvList? ==>
      (r.Ok? <==> forall k | 0 <= k < |env.value.entries| :: Count(env.value.entries[k], '=') == 1)
    ensures r.Ok? && env.Some? && env.value.EnvList? ==> |r.value| == |env.value.entries|
    ensures r.Err? ==> r.error.ValueError?
  {
    match env
    case None => Ok([])
    case Some(EnvMap(vars)) => Ok(vars)
    case Some(EnvList(entries)) => ListPairs(entries)
  }

  /** `name, value = entry.split("=")` gave this pair: the entry is the name, '=', then the value. */
  predicate Unpacked(entry: string, pair: (string, Json))
  {
    pair.1.JStr? && entry == pair.0 + "=" + pair.1.s
  }

  function ListPairs(entries: seq<string>): (r: Result<seq<(string, Json)>>)
    ensures r.Ok? <==> forall k | 0 <= k < |entries| :: Count(entries[k], '=') == 1
    ensures r.Ok? ==> |r.value| == |entries|
    ensures r.Ok? ==> forall k | 0 <= k < |entries| :: Unpacked(entries[k], r.value[k])
    ensures r.Err? ==> r.error.ValueError?
  {
    if entries == [] then Ok([])
    else
      var n := |entries| - 1;
      var init := entries[..n];
      var pieces := Split(entries[n], "=");
      SplitCharCount(entries[n], '=');
      assert forall k | 0 <= k < n :: init[k] == entries[k];
      match ListPairs(init)
      case Err(e) => Err(e)
      case Ok(rest) =>
        if |pieces| != 2 then Err(UnpackError(|pieces|))
        else
          JoinSplit(entries[n], "=");
          assert Unpacked(entries[n], (pieces[0], JStr(pieces[1])));
          var r := rest + [(pieces[0], JStr(pieces[1]))];
          assert forall k | 0 <= k < n :: r[k] == rest[k];
          assert r[n] == (pieces[0], JStr(pieces[1]));
          Ok(r)
  }

  /** The environment part of `port_definitions`: every entry named exactly PORT. */
  function EnvPortDefinitions(pairs: seq<(string, Json)>): (r: seq<PortDefinition>)
    ensures |r| <= |pairs|
    ensures forall k | 0 <= k < |r| :: r[k].key == ENVIRONMENT_KEY && r[k].text == r[k].value
    ensures (forall k | 0 <= k < |pairs| :: pairs[k].0 != "PORT") ==> r == []
  {
    if pairs == [] then []
    else
      var last := pairs[|pairs| - 1];
      EnvPortDefinitions(pairs[..|pairs| - 1]) +
      (if last.0 == "PORT" then [PortDefinition(ENVIRONMENT_KEY, last.1, last.1)] else [])
  }

  /** Every environment definition comes from a PORT variable, and every PORT variable gives one. */
  lemma {:induction false} EnvPortDefinitionsOfPairs(pairs: seq<(string, Json)>)
    ensures forall k | 0 <= k < |EnvPortDefinitions(pairs)| :: ("PORT", EnvPortDefinitions(pairs)[k].value) in pairs
    ensures (forall j | 0 <= j < |pairs| && pairs[j].0 == "PORT" ::
               PortDefinition(ENVIRONMENT_KEY, pairs[j].1, pairs[j].1) in EnvPortDefinitions(pairs))
    decreases |pairs|
  {
    if pairs != [] {
      var n := |pairs| - 1;
      var init := pairs[..n];
      EnvPortDefinitionsOfPairs(init);
      var r := EnvPortDefinitions(pairs);
      var ri := EnvPortDefinitions(init);
      assert r[..|ri|] == ri;
      forall k | 0 <= k < |r|
        ensures ("PORT", r[k].value) in pairs
      {
        if k < |ri| {
          assert r[k] == ri[k];
          assert ("PORT", ri[k].value) in init;
        } else {
          assert r[k] == PortDefinition(ENVIRONMENT_KEY, pairs[n].1, pairs[n].1);
          assert pairs[n] == ("PORT", r[k].value);
        }
      }
      forall j | 0 <= j < |pairs| && pairs[j].0 == "PORT"
        ensures PortDefinition(ENVIRONMENT_KEY, pairs[j].1, pairs[j].1) in r
      {
        if j < n {
          assert init[j] == pairs[j];
          assert PortDefinition(ENVIRONMENT_KEY, pairs[j].1, pairs[j].1) in ri;
        } else {
          assert r[|ri|] == PortDefinition(ENVIRONMENT_KEY, pairs[j].1, pairs[j].1);
        }
      }
    }
  }

  /** The pairs `port_definitions` iterates over, built as the code builds them. */
  method EnvironmentPairs(env: Option<Environment>) returns (r: Result<seq<(string, Json)>>)
    ensures r == EnvPairs(env)
  {
    match env {
      case None =>
        return Ok([]);
      case Some(EnvMap(vars)) =>
        return Ok(vars);
      case Some(EnvList(entries)) =>
        var pairs: seq<(string, Json)> := [];
        var i := 0;
        while i < |entries|
          invariant 0 <= i <= |entries|
          invariant ListPairs(entries[..i]) == Ok(pairs)
        {
          var pieces := Split(entries[i], "=");
          ListPairsStep(entries, i, pairs);
          if |pieces| != 2 {
            ListPairsPrefixFails(entries, i + 1);
            return Err(UnpackError(|pieces|));
          }
          pairs := pairs + [(pieces[0], JStr(pieces[1]))];
          i := i + 1;
        }
        assert entries[..i] == entries;
        return Ok(pairs);
    }
  }

  /** One more entry either fails to unpack or adds its pair. */
  lemma ListPairsStep(entries: seq<string>, i: nat, pairs: seq<(string, Json)>)
    requires i < |entries| && ListPairs(entries[..i]) == Ok(pairs)
    ensures var pieces := Split(entries[i], "=");
      ListPairs(entries[..i + 1]) == if |pieces| != 2 then Err(UnpackError(|pieces|))
                                     else Ok(pairs + [(pieces[0], JStr(pieces[1]))])
  {
    var e := entries[..i + 1];
    assert |e| - 1 == i && e[..i] == entries[..i] && e[i] == entries[i];
  }

  /** When a prefix of the entries fails, the first failure decides the error. */
  lemma {:induction false} ListPairsPrefixFails(entries: seq<string>, n: nat)
    requires n <= |entries| && ListPairs(entries[..n]).Err?
    ensures ListPairs(entries) == ListPairs(entries[..n])
    decreases |entries| - n
  {
    if n < |entries| {
      var init := entries[..|entries| - 1];
      assert ListPairs(init) == ListPairs(entries[..n]) by {
        assert init[..n] == entries[..n];
        ListPairsPrefixFails(init, n);
      }
      ListPairsUnfold(entries);
    } else {
      assert entries[..n] == entries;
    }
  }

  lemma ListPairsUnfold(entries: seq<string>)
    requires entries != [] && ListPairs(entries[..|entries| - 1]).Err?
    ensures ListPairs(entries) == ListPairs(entries[..|entries| - 1])
  {
  }

  /** The environment loop of `port_definitions`. */
  method PortEntries(pairs: seq<(string, Json)>) returns (ports: seq<PortDefinition>)
    ensures ports == EnvPortDefinitions(pairs)
  {
    ports := [];
    var j := 0;
    while j < |pairs|
      invariant 0 <= j <= |pairs|
      invariant ports == EnvPortDefinitions(pairs[..j])
    {
      assert pairs[..j + 1][..j] == pairs[..j];
      if pairs[j].0 == "PORT" {
        ports := ports + [PortDefinition(ENVIRONMENT_KEY, pairs[j].1, pairs[j].1)];
      }
      j := j + 1;
    }
    assert pairs[..j] == pairs;
  }

  /**
   * `port_definitions`.  The command regex is `findPort`, giving the first
   * match's port digits.  Only a missing key is caught: a command that is
   * not a string raises TypeError, a container without build AttributeError,
   * a build without args TypeError, and a list entry that does not split
   * into a name and a value at its single '=' raises ValueError.
   */
  method PortDefinitions(c: Container, findPort: string -> Option<string>) returns (r: Result<seq<PortDefinition>>)
    ensures (c.command.None? || c.command.value.CmdList?) ==> r == Err(TypeError)
    ensures c.command.Some? && c.command.value.CmdStr? && c.build.None? ==> r == Err(AttributeError)
    ensures c.command.Some? && c.command.value.CmdStr? && c.build.Some? && c.build.value.args.None? ==>
      r == Err(TypeError)
    ensures r.Ok? <==>
      c.command.Some? && c.command.value.CmdStr? && c.build.Some? && c.build.value.args.Some? &&
      EnvPairs(c.environment).Ok?
    ensures r.Ok? ==>
      var cmd := c.command.value.s;
      var args := c.build.value.args.value;
      r.value == CommandPort(cmd, findPort) + BuildPort(args) + EnvPortDefinitions(EnvPairs(c.environment).value)
  {
    if c.command.None? || c.command.value.CmdList? {
      return Err(TypeError);
    }
    var cmd := c.command.value.s;
    var ports := CommandPort(cmd, findPort);
    if c.build.None? {
      return Err(AttributeError);
    }
    if c.build.value.args.None? {
      return Err(TypeError);
    }
    ports := ports + BuildPort(c.build.value.args.value);
    var pairs := EnvironmentPairs(c.environment);
    if pairs.Err? {
      return Err(pairs.error);
    }
    var envPorts := PortEntries(pairs.value);
    return Ok(ports + envPorts);
  }

  /** The command part of `port_definitions`: the first regex match, if any. */
  function CommandPort(cmd: string, findPort: string -> Option<string>): (r: seq<PortDefinition>)
    ensures |r| <= 1
    ensures |r| == 1 <==> findPort(cmd).Some?
    ensures |r| == 1 ==> r[0] == PortDefinition(COMMAND_KEY, JStr(cmd), JStr(findPort(cmd).value))
  {
    match findPort(cmd)
    case Some(p) => [PortDefinition(COMMAND_KEY, JStr(cmd), JStr(p))]
    case None => []
  }

  /** The build part of `port_definitions`: the SERVICE_PORT build argument, if given. */
  function BuildPort(args: Dict<string, Json>): (r: seq<PortDefinition>)
    ensures |r| <= 1
    ensures |r| == 1 <==> HasKey(args, "SERVICE_PORT")
    ensures |r| == 1 ==> r[0].key == BUILD_KEY && Some(r[0].value) == Get(args, "SERVICE_PORT")
  {
    match Get(args, "SERVICE_PORT")
    case Some(v) => [PortDefinition(BUILD_KEY, v, v)]
    case None => []
  }
  lemma PortKeysDistinct()
    ensures COMMAND_KEY != BUILD_KEY && COMMAND_KEY != ENVIRONMENT_KEY && BUILD_KEY != ENVIRONMENT_KEY
  {
    assert |COMMAND_KEY| == 7 && |BUILD_KEY| == 29 && |ENVIRONMENT_KEY| == 19;
  }

  /**
   * What the port definitions of a container mean, by key: a "command"
   * definition comes first and exists exactly when the command regex
   * matches, carrying the match; a SERVICE_PORT definition exists exactly
   * when the build argument is given, carrying its value; every other
   * definition is an environment PORT variable's value, and each PORT
   * variable contributes one.
   */
  lemma PortDefinitionsByKey(cmd: string, findPort: string -> Option<string>, args: Dict<string, Json>,
                             pairs: seq<(string, Json)>, r: seq<PortDefinition>)
    requires r == CommandPort(cmd, findPort) + BuildPort(args) + EnvPortDefinitions(pairs)
    ensures (exists k | 0 <= k < |r| :: r[k].key == COMMAND_KEY) <==> findPort(cmd).Some?
    ensures forall k | 0 <= k < |r| && r[k].key == COMMAND_KEY ::
      k == 0 && r[k].text == JStr(cmd) && r[k].value == JStr(findPort(cmd).value)
    ensures (exists k | 0 <= k < |r| :: r[k].key == BUILD_KEY) <==> HasKey(args, "SERVICE_PORT")
    ensures forall k | 0 <= k < |r| && r[k].key == BUILD_KEY :: Get(args, "SERVICE_PORT") == Some(r[k].value)
    ensures forall k | 0 <= k < |r| && r[k].key != COMMAND_KEY && r[k].key != BUILD_KEY ::
      r[k].key == ENVIRONMENT_KEY && ("PORT", r[k].value) in pairs
    ensures forall j | 0 <= j < |pairs| && pairs[j].0 == "PORT" ::
      PortDefinition(ENVIRONMENT_KEY, pairs[j].1, pairs[j].1) in r
  {
    PortDefinitionsParts(cmd, findPort, args, pairs, r);
    EveryPortVariableDefined(cmd, findPort, args, pairs, r);
  }

  /** Each definition of the command, build and environment parts, located by its key. */
  lemma PortDefinitionsParts(cmd: string, findPort: string -> Option<string>, args: Dict<string, Json>,
                             pairs: seq<(string, Json)>, r: seq<PortDefinition>)
    requires r == CommandPort(cmd, findPort) + BuildPort(args) + EnvPortDefinitions(pairs)
    ensures (exists k | 0 <= k < |r| :: r[k].key == COMMAND_KEY) <==> findPort(cmd).Some?
    ensures forall k | 0 <= k < |r| && r[k].key == COMMAND_KEY ::
      k == 0 && r[k].text == JStr(cmd) && r[k].value == JStr(findPort(cmd).value)
    ensures (exists k | 0 <= k < |r| :: r[k].key == BUILD_KEY) <==> HasKey(args, "SERVICE_PORT")
    ensures forall k | 0 <= k < |r| && r[k].key == BUILD_KEY :: Get(args, "SERVICE_PORT") == Some(r[k].value)
    ensures forall k | 0 <= k < |r| && r[k].key != COMMAND_KEY && r[k].key != BUILD_KEY ::
      r[k].key == ENVIRONMENT_KEY && ("PORT", r[k].value) in pairs
  {
    PortKeysDistinct();
    EnvPortDefinitionsOfPairs(pairs);
    var c := CommandPort(cmd, findPort);
    var b := BuildPort(args);
    var e := EnvPortDefinitions(pairs);
    forall k | 0 <= k < |r|
      ensures r[k].key == COMMAND_KEY ==> k == 0 && r[k] == c[0]
      ensures r[k].key == BUILD_KEY ==> b != [] && r[k] == b[0]
      ensures r[k].key != COMMAND_KEY && r[k].key != BUILD_KEY ==> r[k] in e
    {
      if k < |c| {
        assert r[k] == c[k];
      } else if k < |c| + |b| {
        assert r[k] == b[k - |c|];
      } else {
        assert r[k] == e[k - |c| - |b|];
      }
    }
    if findPort(cmd).Some? {
      assert r[0] == c[0];
    }
    if HasKey(args, "SERVICE_PORT") {
      assert r[|c|] == b[0];
    }
  }

  lemma EveryPortVariableDefined(cmd: string, findPort: string -> Option<string>, args: Dict<string, Json>,
                                 pairs: seq<(string, Json)>, r: seq<PortDefinition>)
    requires r == CommandPort(cmd, findPort) + BuildPort(args) + EnvPortDefinitions(pairs)
    ensures forall j | 0 <= j < |pairs| && pairs[j].0 == "PORT" ::
      PortDefinition(ENVIRONMENT_KEY, pairs[j].1, pairs[j].1) in r
  {
    var e := EnvPortDefinitions(pairs);
    EnvPortDefinitionsOfPairs(pairs);
    assert r == (CommandPort(cmd, findPort) + BuildPort(args)) + e;
    forall j | 0 <= j < |pairs| && pairs[j].0 == "PORT"
      ensures PortDefinition(ENVIRONMENT_KEY, pairs[j].1, pairs[j].1) in r
    {
      assert PortDefinition(ENVIRONMENT_KEY, pairs[j].1, pairs[j].1) in e;
    }
  }



}
