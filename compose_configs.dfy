/**
 * The deployment documents (`docker-compose.override.yml`, `dev.yml`,
 * `proxy.yml`, `local.yml`): a `YmlConfig` wraps one name-keyed container
 * map, and each kind of document has its own way to find a container's port.
 */
module ComposeConfigs {
  import opened Wrappers
  import opened Dicts
  import opened Text
  import opened Json
  import opened Utils
  import opened Generics

  datatype ComposeKind = Override | Dev | Proxy | Local

  /** `DEFAULT_FILE_NAME` of each document class. */
  function FileName(kind: ComposeKind): string
  {
    match kind
    case Override => "docker-compose.override.yml"
    case Dev => "dev.yml"
    case Proxy => "proxy.yml"
    case Local => "local.yml"
  }

  // ---- editing the container map ----------------------------------------------------

  /** The document with `name` mapped to `def`: a new name goes last, an existing one keeps its place. */
  function WithService(doc: ComposeDoc, name: string, def: Container): (r: ComposeDoc)
    ensures r.version == doc.version
    ensures Get(r.services, name) == Some(def)
    ensures forall k | k != name :: Get(r.services, k) == Get(doc.services, k)
    ensures Keys(r.services) == if name in Keys(doc.services) then Keys(doc.services) else Keys(doc.services) + [name]
  {
    ComposeDoc(doc.version, Set(doc.services, name, def))
  }

  function MissingService(name: string): Error
  {
    KeyError(name + " is not in the service list")
  }

  /** The document without `name`; a name it does not hold is a KeyError. */
  function WithoutService(doc: ComposeDoc, name: string): (r: Result<ComposeDoc>)
    ensures r.Err? <==> name !in Keys(doc.services)
    ensures r.Err? ==> r.error == MissingService(name)
    ensures r.Ok? ==> r.value.version == doc.version && name !in Keys(r.value.services)
    ensures r.Ok? ==> forall k | k != name :: Get(r.value.services, k) == Get(doc.services, k)
  {
    if name in Keys(doc.services) then Ok(ComposeDoc(doc.version, Remove(doc.services, name)))
    else Err(MissingService(name))
  }

  /** The document keeping only the containers named in `names`, in the document's order. */
  function Filtered(doc: ComposeDoc, names: seq<string>): (r: ComposeDoc)
    ensures r.version == doc.version
    ensures forall k :: Get(r.services, k) == if k in names then Get(doc.services, k) else None
    ensures Subsequence(r.services, doc.services)
  {
    ComposeDoc(doc.version, Restrict(doc.services, names))
  }

  /** Removing a container just added under a new name gives the document back. */
  lemma {:induction false} AddThenRemove(doc: ComposeDoc, name: string, def: Container)
    requires name !in Keys(doc.services)
    ensures WithoutService(WithService(doc, name, def), name) == Ok(doc)
  {
    RemoveAfterSet(doc.services, name, def);
  }

  /** Which container a port query is about: a name to look up, or a definition. */
  datatype ServiceArg = ByName(name: string) | ByDefinition(def: Container)

  /** One loaded deployment document. */
  class YmlConfig {
    const kind: ComposeKind
    var config: ComposeDoc

    constructor (kind: ComposeKind, config: ComposeDoc)
      ensures this.kind == kind && this.config == config
    {
      this.kind := kind;
      this.config := config;
    }

    /** `get_service`: the container of that name, if any. */
    function GetService(name: string): (r: Option<Container>)
      reads this
      ensures r.Some? <==> name in Keys(config.services)
    {
      Get(config.services, name)
    }

    /** `filter_services`: the names, and a new document holding only those containers. */
    method FilterServices(names: seq<string>) returns (kept: seq<string>, r: YmlConfig)
      ensures kept == names
      ensures fresh(r) && r.kind == kind && r.config == Filtered(config, names)
    {
      kept := names;
      r := new YmlConfig(kind, Filtered(config, names));
    }

    /**
     * `add_component`.  The services mapping the code edits belongs to a
     * shallow copy of the configuration and is therefore shared with it:
     * this document gains the container even when a new instance is returned.
     */
    method AddComponent(name: string, def: Container, inplace: bool) returns (r: YmlConfig)
      modifies this
      ensures config == WithService(old(config), name, def)
      ensures inplace ==> r == this
      ensures !inplace ==> fresh(r) && r.kind == kind && r.config == config
    {
      var updated := WithService(config, name, def);
      config := updated;
      if inplace {
        r := this;
      } else {
        r := new YmlConfig(kind, updated);
      }
    }

    /** `remove_component`, with the same sharing as `AddComponent`. */
    method RemoveComponent(name: string, inplace: bool) returns (r: Result<YmlConfig>)
      modifies this
      ensures r.Err? <==> name !in Keys(old(config.services))
      ensures r.Err? ==> r.error == MissingService(name) && config == old(config)
      ensures r.Ok? ==> config == WithoutService(old(config), name).value
      ensures r.Ok? && inplace ==> r.value == this
      ensures r.Ok? && !inplace ==> fresh(r.value) && r.value.kind == kind && r.value.config == config
    {
      var updated := WithoutService(config, name);
      if updated.Err? {
        return Err(updated.error);
      }
      config := updated.value;
      if inplace {
        r := Ok(this);
      } else {
        var copy := new YmlConfig(kind, updated.value);
        r := Ok(copy);
      }
    }

    /** `discover_port` of this kind of document; a name is looked up first. */
    method DiscoverPort(service: ServiceArg) returns (r: Result<Option<int>>)
      ensures r == PortOf(kind, if service.ByName? then GetService(service.name) else Some(service.def))
    {
      var c := if service.ByName? then GetService(service.name) else Some(service.def);
      match kind
      case Override =>
        r := DiscoverOverridePort(c);
      case Dev =>
        var p := DevPort(c);
        r := if p.Ok? then Ok(Some(p.value)) else Err(p.error);
      case Proxy =>
        var p := DiscoverProxyPort(c);
        r := if p.Ok? then Ok(Some(p.value)) else Err(p.error);
      case Local =>
        r := Err(NotImplementedError);
    }
  }

  // ---- port discovery: docker-compose.override.yml ------------------------------------

  /** `int(v)` on a loaded value. */
  function IntOf(v: Json): (r: Result<int>)
    ensures v.JNum? ==> r == Ok(v.n)
    ensures v.JStr? ==> r == Int(v.s)
    ensures v.JNull? || v.JList? || v.JObj? ==> r == Err(TypeError)
  {
    match v
    case JNum(n) => Ok(n)
    case JStr(s) => Int(s)
    case JBool(b) => Ok(if b then 1 else 0)
    case _ => Err(TypeError)
  }

  /** A port written as an integer or as its decimal text reads back as that integer; other text raises ValueError. */
  lemma IntOfRendered(n: int, s: string)
    ensures IntOf(JNum(n)) == Ok(n)
    ensures IntOf(JStr(IntToString(n))) == Ok(n)
    ensures ParseInt(s).None? ==> IntOf(JStr(s)) == Err(ValueError(INVALID_INT_LITERAL + s + "'"))
  {
    IntRoundTrip(n);
  }

  /** The build argument holding the port: SERVICE_PORT, or PORT when that is missing or falsy. */
  function ArgPortValue(args: Dict<string, Json>): Json
  {
    var servicePort := Get(args, "SERVICE_PORT").GetOr(JNull);
    if JsonTruthy(servicePort) then servicePort else Get(args, "PORT").GetOr(JNull)
  }

  /**
   * `_discover_service_port`: a missing container, build section or build
   * arguments give no port (the AttributeError is caught); a falsy value
   * gives no port; otherwise the value converted by `int`.
   */
  function ServicePort(c: Option<Container>): (r: Result<Option<int>>)
    ensures c.None? || c.value.build.None? || c.value.build.value.args.None? ==> r == Ok(None)
    ensures r.Err? ==> IntOf(ArgPortValue(c.value.build.value.args.value)) == Err(r.error)
    ensures r.Ok? && r.value.Some? ==>
      c.Some? && c.value.build.Some? && c.value.build.value.args.Some? &&
      JsonTruthy(ArgPortValue(c.value.build.value.args.value)) &&
      IntOf(ArgPortValue(c.value.build.value.args.value)) == Ok(r.value.value)
  {
    if c.None? || c.value.build.None? || c.value.build.value.args.None? then Ok(None)
    else
      var v := ArgPortValue(c.value.build.value.args.value);
      if !JsonTruthy(v) then Ok(None)
      else
        var p :- IntOf(v);
        Ok(Some(p))
  }

  /**
   * The build-argument port: SERVICE_PORT written as `str(p)` gives `p`;
   * when SERVICE_PORT is missing or falsy, PORT written as `str(p)` does.
   */
  lemma ServicePortReadsArgument(c: Option<Container>, args: Dict<string, Json>, p: int)
    requires c.Some? && c.value.build.Some? && c.value.build.value.args == Some(args)
    ensures Get(args, "SERVICE_PORT") == Some(JStr(IntToString(p))) ==> ServicePort(c) == Ok(Some(p))
    ensures (((Get(args, "SERVICE_PORT").None? || !JsonTruthy(Get(args, "SERVICE_PORT").value))
              && Get(args, "PORT") == Some(JStr(IntToString(p)))) ==>
             ServicePort(c) == Ok(Some(p)))
    ensures (((Get(args, "SERVICE_PORT").None? || !JsonTruthy(Get(args, "SERVICE_PORT").value))
              && Get(args, "PORT").None?) ==>
             ServicePort(c) == Ok(None))
  {
    var ps := JStr(IntToString(p));
    IntRoundTrip(p);
    assert JsonTruthy(ps) && IntOf(ps) == Ok(p);
    var servicePort := Get(args, "SERVICE_PORT");
    if servicePort == Some(ps) {
      assert ArgPortValue(args) == ps;
    } else if servicePort.None? || !JsonTruthy(servicePort.value) {
      assert ArgPortValue(args) == Get(args, "PORT").GetOr(JNull);
    }
  }

  /** A token that gives the listen address: it starts with "0.0.0.0" and holds a ':'. */
  predicate ListenToken(t: string)
  {
    StartsWith(t, "0.0.0.0") && Contains(t, ":")
  }

  predicate PortFlag(t: string)
  {
    t == "-p" || t == "--port"
  }

  /**
   * The scan of `_discover_command_port` from token `i` on, with `port` the
   * value recorded so far.  A listen-address token ends the scan with the
   * text after its first ':'; a port flag records the token after it, and a
   * flag in last place has none (IndexError).
   */
  function ScanCommand(tokens: seq<string>, i: nat, port: Option<string>): Result<Option<string>>
    requires i <= |tokens|
    decreases |tokens| - i
  {
    if i == |tokens| then Ok(port)
    else if StartsWith(tokens[i], "0.0.0.0") then
      if Contains(tokens[i], ":") then Ok(Some(Last(SplitOnce(tokens[i], ":"))))
      else ScanCommand(tokens, i + 1, port)
    else if PortFlag(tokens[i]) then
      if i + 1 < |tokens| then ScanCommand(tokens, i + 1, Some(tokens[i + 1]))
      else Err(IndexError)
    else ScanCommand(tokens, i + 1, port)
  }

  /**
   * `_discover_command_port`: no command (or an empty one) gives no port; a
   * list-form command has no `split` (AttributeError); a string command is
   * scanned, and a scan that finds nothing leaves `int(None)` (TypeError).
   */
  function CommandPort(c: Option<Container>): Result<Option<int>>
  {
    if c.None? then Err(AttributeError)
    else
      match c.value.command
      case None => Ok(None)
      case Some(CmdList(items)) => if items == [] then Ok(None) else Err(AttributeError)
      case Some(CmdStr(s)) =>
        if s == "" then Ok(None)
        else
          var found :- ScanCommand(Tokens(s), 0, None);
          if found.None? then Err(TypeError)
          else
            var p :- Int(found.value);
            Ok(Some(p))
  }

  /** `_discover_command_port` as the code runs it: a loop over the tokens that stops at a listen address. */
  method DiscoverCommandPort(c: Option<Container>) returns (r: Result<Option<int>>)
    ensures r == CommandPort(c)
  {
    if c.None? {
      return Err(AttributeError);
    }
    var command := c.value.command;
    if command.None? || (command.value.CmdStr? && command.value.s == "") || (command.value.CmdList? && command.value.items == []) {
      return Ok(None);
    }
    if command.value.CmdList? {
      return Err(AttributeError);
    }
    var commands := Tokens(command.value.s);
    var port: Option<string> := None;
    var i := 0;
    while i < |commands|
      invariant 0 <= i <= |commands|
      invariant ScanCommand(commands, 0, None) == ScanCommand(commands, i, port)
    {
      var token := commands[i];
      if StartsWith(token, "0.0.0.0") {
        if Contains(token, ":") {
          port := Some(Last(SplitOnce(token, ":")));
          assert ScanCommand(commands, 0, None) == Ok(port);
          break;
        }
      } else if PortFlag(token) {
        if i + 1 >= |commands| {
          return Err(IndexError);
        }
        port := Some(commands[i + 1]);
      }
      i := i + 1;
    }
    assert ScanCommand(commands, 0, None) == Ok(port);
    if port.None? {
      return Err(TypeError);
    }
    var p := Int(port.value);
    if p.Err? {
      return Err(p.error);
    }
    return Ok(Some(p.value));
  }

  /** The first listen-address token decides the scan, whatever port flags come before it. */
  lemma {:induction false} ScanStopsAtListenAddress(tokens: seq<string>, i: nat, k: nat, port: Option<string>)
    requires i <= k < |tokens| && ListenToken(tokens[k])
    requires forall j | i <= j < k :: !ListenToken(tokens[j])
    ensures ScanCommand(tokens, i, port) == Ok(Some(SplitOnce(tokens[k], ":")[1]))
    decreases k - i
  {
    if i < k {
      var next := if !StartsWith(tokens[i], "0.0.0.0") && PortFlag(tokens[i]) then Some(tokens[i + 1]) else port;
      ScanStopsAtListenAddress(tokens, i + 1, k, next);
    }
  }

  /** The token after the last port flag among the first `n` tokens (an independent reading of the scan). */
  function LastFlagValue(tokens: seq<string>, n: nat): Option<string>
    requires n <= |tokens|
  {
    if n == 0 then None
    else if PortFlag(tokens[n - 1]) && n < |tokens| then Some(tokens[n])
    else LastFlagValue(tokens, n - 1)
  }

  /** Without a listen address, the scan finds the token after the last port flag. */
  lemma {:induction false} ScanFindsLastFlag(tokens: seq<string>, i: nat)
    requires i <= |tokens|
    requires forall j | 0 <= j < |tokens| :: !ListenToken(tokens[j])
    requires tokens == [] || !PortFlag(tokens[|tokens| - 1])
    ensures ScanCommand(tokens, i, LastFlagValue(tokens, i)) == Ok(LastFlagValue(tokens, |tokens|))
    decreases |tokens| - i
  {
    if i < |tokens| {
      assert !ListenToken(tokens[i]);
      if PortFlag(tokens[i]) {
        assert i + 1 < |tokens|;
        assert LastFlagValue(tokens, i + 1) == Some(tokens[i + 1]);
      } else {
        assert LastFlagValue(tokens, i + 1) == LastFlagValue(tokens, i);
      }
      ScanFindsLastFlag(tokens, i + 1);
    }
  }

  /** A port flag in last place, with no listen address anywhere, is an IndexError. */
  lemma {:induction false} TrailingFlagFails(tokens: seq<string>, i: nat, port: Option<string>)
    requires i < |tokens| && PortFlag(tokens[|tokens| - 1])
    requires forall j | 0 <= j < |tokens| :: !ListenToken(tokens[j])
    ensures ScanCommand(tokens, i, port) == Err(IndexError)
    decreases |tokens| - i
  {
    assert !ListenToken(tokens[i]);
    if i + 1 < |tokens| {
      var next := if !StartsWith(tokens[i], "0.0.0.0") && PortFlag(tokens[i]) then Some(tokens[i + 1]) else port;
      TrailingFlagFails(tokens, i + 1, next);
    }
  }

  /** A port is set when it is present and not zero (Python truthiness of an int). */
  predicate TruthyPort(p: Option<int>)
  {
    p.Some? && p.value != 0
  }

  const OVERRIDE_MISMATCH_HEAD: string :=
    "In the docker-compose.override.yml file there are mismatching ports from service and command sections: "

  function OverrideMismatch(servicePort: int, commandPort: int): Error
  {
    ValueError(OVERRIDE_MISMATCH_HEAD + "\nservice_port=" + IntToString(servicePort)
      + "\ncommand_port=" + IntToString(commandPort))
  }

  /**
   * Override `discover_port`: the build-argument port and the command port
   * must agree when both are set; the build-argument port wins, then the
   * command port.
   */
  function OverridePort(c: Option<Container>): (r: Result<Option<int>>)
    ensures ServicePort(c).Err? ==> r == ServicePort(c)
    ensures ServicePort(c).Ok? && CommandPort(c).Err? ==> r == CommandPort(c)
    ensures (ServicePort(c).Ok? && CommandPort(c).Ok? ==>
               var sp := ServicePort(c).value;
               var cp := CommandPort(c).value;
               (r.Err? <==> TruthyPort(sp) && TruthyPort(cp) && sp != cp) &&
               (r.Err? ==> r.error == OverrideMismatch(sp.value, cp.value)) &&
               (r.Ok? ==> r.value == if TruthyPort(sp) then sp else cp))
  {
    var servicePort :- ServicePort(c);
    var commandPort :- CommandPort(c);
    Reconcile(servicePort, commandPort)
  }

  /** The override rule on the two ports once both are known. */
  function Reconcile(servicePort: Option<int>, commandPort: Option<int>): (r: Result<Option<int>>)
    ensures r.Err? <==> TruthyPort(servicePort) && TruthyPort(commandPort) && servicePort != commandPort
    ensures r.Err? ==> r.error == OverrideMismatch(servicePort.value, commandPort.value)
    ensures r.Ok? ==> r.value == if TruthyPort(servicePort) then servicePort else commandPort
  {
    if TruthyPort(servicePort) && TruthyPort(commandPort) && servicePort.value != commandPort.value then
      Err(OverrideMismatch(servicePort.value, commandPort.value))
    else if TruthyPort(servicePort) then Ok(servicePort)
    else Ok(commandPort)
  }

  /**
   * The override rule never contradicts a set port: a port it returns equals
   * every port that is set, and is one of the two; which of the two is
   * named first does not change whether they conflict, nor the port chosen
   * once one of them is set.
   */
  lemma ReconcileAgrees(servicePort: Option<int>, commandPort: Option<int>)
    ensures Reconcile(servicePort, commandPort).Ok? ==>
      var p := Reconcile(servicePort, commandPort).value;
      (TruthyPort(servicePort) ==> p == servicePort) && (TruthyPort(commandPort) ==> p == commandPort)
      && (p == servicePort || p == commandPort)
    ensures Reconcile(servicePort, commandPort).Ok? <==> Reconcile(commandPort, servicePort).Ok?
    ensures (TruthyPort(servicePort) || TruthyPort(commandPort)) && Reconcile(servicePort, commandPort).Ok? ==>
      Reconcile(servicePort, commandPort) == Reconcile(commandPort, servicePort)
      && TruthyPort(Reconcile(servicePort, commandPort).value)
  {
  }

  /**
   * The override port agrees with the build arguments and with the command:
   * a port it returns equals each of the two that is set, and a port that
   * both give is returned.
   */
  lemma OverridePortAgrees(c: Option<Container>, p: int)
    ensures OverridePort(c).Ok? ==> ServicePort(c).Ok? && CommandPort(c).Ok?
    ensures (OverridePort(c).Ok? && TruthyPort(ServicePort(c).value) ==>
             OverridePort(c).value == ServicePort(c).value)
    ensures (OverridePort(c).Ok? && TruthyPort(CommandPort(c).value) ==>
             OverridePort(c).value == CommandPort(c).value)
    ensures ServicePort(c) == Ok(Some(p)) && CommandPort(c) == Ok(Some(p)) ==> OverridePort(c) == Ok(Some(p))
  {
    if ServicePort(c).Ok? && CommandPort(c).Ok? {
      ReconcileAgrees(ServicePort(c).value, CommandPort(c).value);
    }
  }

  method DiscoverOverridePort(c: Option<Container>) returns (r: Result<Option<int>>)
    ensures r == OverridePort(c)
  {
    var servicePort := ServicePort(c);
    if servicePort.Err? {
      return servicePort;
    }
    var commandPort := DiscoverCommandPort(c);
    if commandPort.Err? {
      return commandPort;
    }
    var sp, cp := servicePort.value, commandPort.value;
    assert OverridePort(c) == Reconcile(sp, cp);
    if TruthyPort(sp) && TruthyPort(cp) && sp.value != cp.value {
      return Err(OverrideMismatch(sp.value, cp.value));
    }
    r := if TruthyPort(sp) then Ok(sp) else Ok(cp);
  }

  // ---- port discovery: dev.yml ----------------------------------------------------------

  /** Dev `discover_port`: the number after the last ':' of the last `ports` entry. */
  function DevPort(c: Option<Container>): (r: Result<int>)
    ensures c.None? ==> r == Err(AttributeError)
    ensures c.Some? && c.value.ports.None? ==> r == Err(TypeError)
    ensures c.Some? && c.value.ports == Some([]) ==> r == Err(IndexError)
    ensures (c.Some? && c.value.ports.Some? && c.value.ports.value != [] ==>
               r == Int(Last(Split(Last(c.value.ports.value), ":"))))
  {
    if c.None? then Err(AttributeError)
    else if c.value.ports.None? then Err(TypeError)
    else if c.value.ports.value == [] then Err(IndexError)
    else Int(Last(Split(Last(c.value.ports.value), ":")))
  }

  /** A last port mapping `host:container` gives the container-side port. */
  lemma DevPortOfMapping(c: Option<Container>, hostPort: string, p: int)
    requires ':' !in hostPort
    requires c.Some? && c.value.ports.Some? && c.value.ports.value != []
    requires Last(c.value.ports.value) == hostPort + ":" + IntToString(p)
    ensures DevPort(c) == Ok(p)
  {
    var q := IntToString(p);
    assert ':' !in q;
    assert Join([hostPort, q], ":") == hostPort + ":" + q;
    SplitJoinChar([hostPort, q], ':');
    IntRoundTrip(p);
  }

  // ---- port discovery: proxy.yml --------------------------------------------------------

  /** What `for e in service.environment` visits: list entries, or a mapping's keys. */
  function EnvironmentEntries(c: Option<Container>): (r: Result<seq<string>>)
    ensures c.None? ==> r == Err(AttributeError)
    ensures c.Some? && c.value.environment.None? ==> r == Err(TypeError)
    ensures c.Some? && c.value.environment.Some? && c.value.environment.value.EnvList? ==> r == Ok(c.value.environment.value.entries)
    ensures c.Some? && c.value.environment.Some? && c.value.environment.value.EnvMap? ==> r == Ok(Keys(c.value.environment.value.vars))
  {
    if c.None? then Err(AttributeError)
    else
      match c.value.environment
      case None => Err(TypeError)
      case Some(EnvList(entries)) => Ok(entries)
      case Some(EnvMap(vars)) => Ok(Keys(vars))
  }

  /**
   * The loop of `_discover_environment_port` from entry `i` on: every entry
   * starting with "PORT" records its second '='-separated piece, and one
   * without a '=' has none (IndexError).
   */
  function EnvPortScan(entries: seq<string>, i: nat, port: Option<string>): Result<Option<string>>
    requires i <= |entries|
    decreases |entries| - i
  {
    if i == |entries| then Ok(port)
    else if StartsWith(entries[i], "PORT") then
      var pieces := Split(entries[i], "=");
      if |pieces| < 2 then Err(IndexError) else EnvPortScan(entries, i + 1, Some(pieces[1]))
    else EnvPortScan(entries, i + 1, port)
  }

  /** The loop of `_discover_proxy_pass_port` from entry `i` on: the last "PROXY_PASS" entry's text after its last ':'. */
  function ProxyPassScan(entries: seq<string>, i: nat, port: Option<string>): Option<string>
    requires i <= |entries|
    decreases |entries| - i
  {
    if i == |entries| then port
    else if StartsWith(entries[i], "PROXY_PASS") then ProxyPassScan(entries, i + 1, Some(Last(Split(entries[i], ":"))))
    else ProxyPassScan(entries, i + 1, port)
  }

  /** `int(port)` after a loop that may have found nothing. */
  function IntOrTypeError(port: Option<string>): (r: Result<int>)
    ensures port.None? ==> r == Err(TypeError)
    ensures port.Some? ==> r == Int(port.value)
  {
    if port.None? then Err(TypeError) else Int(port.value)
  }

  /** `_discover_environment_port`. */
  function EnvironmentPort(c: Option<Container>): Result<int>
  {
    var entries :- EnvironmentEntries(c);
    var port :- EnvPortScan(entries, 0, None);
    IntOrTypeError(port)
  }

  /** `_discover_proxy_pass_port`. */
  function ProxyPassPort(c: Option<Container>): Result<int>
  {
    var entries :- EnvironmentEntries(c);
    IntOrTypeError(ProxyPassScan(entries, 0, None))
  }

  method DiscoverEnvironmentPort(c: Option<Container>) returns (r: Result<int>)
    ensures r == EnvironmentPort(c)
  {
    var entries := EnvironmentEntries(c);
    if entries.Err? {
      return Err(entries.error);
    }
    var env := entries.value;
    var port: Option<string> := None;
    var i := 0;
    while i < |env|
      invariant 0 <= i <= |env|
      invariant EnvPortScan(env, 0, None) == EnvPortScan(env, i, port)
    {
      if StartsWith(env[i], "PORT") {
        var pieces := Split(env[i], "=");
        if |pieces| < 2 {
          return Err(IndexError);
        }
        port := Some(pieces[1]);
      }
      i := i + 1;
    }
    r := IntOrTypeError(port);
  }

  method DiscoverProxyPassPort(c: Option<Container>) returns (r: Result<int>)
    ensures r == ProxyPassPort(c)
  {
    var entries := EnvironmentEntries(c);
    if entries.Err? {
      return Err(entries.error);
    }
    var env := entries.value;
    var port: Option<string> := None;
    var i := 0;
    while i < |env|
      invariant 0 <= i <= |env|
      invariant ProxyPassScan(env, 0, None) == ProxyPassScan(env, i, port)
    {
      if StartsWith(env[i], "PROXY_PASS") {
        port := Some(Last(Split(env[i], ":")));
      }
      i := i + 1;
    }
    r := IntOrTypeError(port);
  }

  /** The last of the first `n` entries that starts with `prefix` (an independent reading of the loops). */
  function LastWithPrefix(entries: seq<string>, prefix: string, n: nat): (r: Option<string>)
    requires n <= |entries|
    ensures r.Some? ==> r.value in entries && StartsWith(r.value, prefix)
  {
    if n == 0 then None
    else if StartsWith(entries[n - 1], prefix) then Some(entries[n - 1])
    else LastWithPrefix(entries, prefix, n - 1)
  }

  function PassPortOf(entry: Option<string>): Option<string>
  {
    if entry.None? then None else Some(Last(Split(entry.value, ":")))
  }

  /** The proxy-pass loop takes the last "PROXY_PASS" entry. */
  lemma {:induction false} ProxyPassIsLastEntry(entries: seq<string>, i: nat)
    requires i <= |entries|
    ensures ProxyPassScan(entries, i, PassPortOf(LastWithPrefix(entries, "PROXY_PASS", i)))
            == PassPortOf(LastWithPrefix(entries, "PROXY_PASS", |entries|))
    decreases |entries| - i
  {
    if i < |entries| {
      ProxyPassIsLastEntry(entries, i + 1);
    }
  }

  predicate PortEntryWithoutValue(e: string)
  {
    StartsWith(e, "PORT") && |Split(e, "=")| < 2
  }

  function EnvPortOf(entry: Option<string>): Option<string>
  {
    if entry.None? || |Split(entry.value, "=")| < 2 then None else Some(Split(entry.value, "=")[1])
  }

  /** When every "PORT" entry has a value, the environment loop takes the last one's. */
  lemma {:induction false} EnvPortIsLastEntry(entries: seq<string>, i: nat)
    requires i <= |entries|
    requires forall j | 0 <= j < |entries| :: !PortEntryWithoutValue(entries[j])
    ensures EnvPortScan(entries, i, EnvPortOf(LastWithPrefix(entries, "PORT", i)))
            == Ok(EnvPortOf(LastWithPrefix(entries, "PORT", |entries|)))
    decreases |entries| - i
  {
    if i < |entries| {
      assert !PortEntryWithoutValue(entries[i]);
      EnvPortIsLastEntry(entries, i + 1);
    }
  }

  /** A "PORT" entry without '=' anywhere ahead makes the environment loop fail. */
  lemma {:induction false} EnvPortEntryWithoutValueFails(entries: seq<string>, i: nat, k: nat, port: Option<string>)
    requires i <= k < |entries| && PortEntryWithoutValue(entries[k])
    ensures EnvPortScan(entries, i, port) == Err(IndexError)
    decreases |entries| - i
  {
    if i < k {
      var next := if StartsWith(entries[i], "PORT") && |Split(entries[i], "=")| >= 2 then Some(Split(entries[i], "=")[1]) else port;
      EnvPortEntryWithoutValueFails(entries, i + 1, k, next);
    }
  }

  const PROXY_MISMATCH_HEAD: string :=
    "In the proxy.yml file there are mismatching ports from service and command sections:"

  function ProxyMismatch(environmentPort: int, proxyPassPort: int): Error
  {
    ValueError(PROXY_MISMATCH_HEAD
      + "\nenvironment_port=" + IntToString(environmentPort)
      + "\nenvironment_proxy_pass_port=" + IntToString(proxyPassPort))
  }

  /** Proxy `discover_port`: the "PORT" and "PROXY_PASS" ports must be equal, and that port is the answer. */
  function ProxyPort(c: Option<Container>): (r: Result<int>)
    ensures r.Ok? ==> EnvironmentPort(c) == Ok(r.value) && ProxyPassPort(c) == Ok(r.value)
    ensures (EnvironmentPort(c).Ok? && ProxyPassPort(c).Ok? ==>
               (r.Err? <==> EnvironmentPort(c).value != ProxyPassPort(c).value) &&
               (r.Err? ==> r.error == ProxyMismatch(EnvironmentPort(c).value, ProxyPassPort(c).value)))
    ensures EnvironmentPort(c).Err? ==> r == EnvironmentPort(c)
    ensures EnvironmentPort(c).Ok? && ProxyPassPort(c).Err? ==> r == ProxyPassPort(c)
  {
    var environmentPort :- EnvironmentPort(c);
    var proxyPassPort :- ProxyPassPort(c);
    if environmentPort != proxyPassPort then Err(ProxyMismatch(environmentPort, proxyPassPort))
    else Ok(environmentPort)
  }

  /** The text after the last ':' of `x + ":" + q` is `q` when `q` has no ':'. */
  lemma {:induction false} LastColonPiece(x: string, q: string)
    requires ':' !in q
    ensures Last(Split(x + ":" + q, ":")) == q
    decreases |x|
  {
    var s := x + ":" + q;
    FindChar(s, ':');
    FindChar(q, ':');
    assert s[|x|] == ':';
    var i := Find(s, ":").value;
    assert i <= |x|;
    if i == |x| {
      assert s[..i] == x && s[i + 1..] == q;
      assert Split(s, ":") == [x] + [q];
    } else {
      var x' := x[i + 1..];
      assert s[i + 1..] == x' + ":" + q;
      LastColonPiece(x', q);
      LastCons(s[..i], Split(s[i + 1..], ":"));
    }
  }

  /** The environment port is read from the last "PORT" entry when it is `PORT=<p>` and every "PORT" entry has a '='. */
  lemma EnvironmentPortOfLastEntry(c: Option<Container>, entries: seq<string>, p: int)
    requires c.Some? && c.value.environment == Some(EnvList(entries))
    requires forall k | 0 <= k < |entries| :: !PortEntryWithoutValue(entries[k])
    requires LastWithPrefix(entries, "PORT", |entries|) == Some("PORT=" + IntToString(p))
    ensures EnvironmentPort(c) == Ok(p)
  {
    var ps := IntToString(p);
    assert '=' !in ps by {
      assert forall k | 0 <= k < |ps| :: ps[k] == '-' || IsDigit(ps[k]);
    }
    PortEntryValue(ps);
    EnvPortIsLastEntry(entries, 0);
    IntRoundTrip(p);
  }

  /** No entry before `n` starts with the prefix when the search finds none. */
  lemma {:induction false} NoneWithPrefix(entries: seq<string>, prefix: string, n: nat)
    requires n <= |entries|
    requires LastWithPrefix(entries, prefix, n).None?
    ensures forall j | 0 <= j < n :: !StartsWith(entries[j], prefix)
  {
    if n > 0 {
      NoneWithPrefix(entries, prefix, n - 1);
    }
  }

  /**
   * The environment searches fail as `int(None)` does, with TypeError, when
   * no entry carries the prefix; a missing container raises AttributeError
   * and a missing environment TypeError before any search.
   */
  lemma EnvironmentPortFailures(c: Option<Container>, entries: seq<string>)
    ensures c.None? ==> EnvironmentPort(c) == Err(AttributeError) && ProxyPassPort(c) == Err(AttributeError)
    ensures (c.Some? && c.value.environment.None? ==>
             EnvironmentPort(c) == Err(TypeError) && ProxyPassPort(c) == Err(TypeError))
    ensures (c.Some? && c.value.environment == Some(EnvList(entries))
             && LastWithPrefix(entries, "PORT", |entries|).None? ==>
             EnvironmentPort(c) == Err(TypeError))
    ensures (c.Some? && c.value.environment == Some(EnvList(entries))
             && LastWithPrefix(entries, "PROXY_PASS", |entries|).None? ==>
             ProxyPassPort(c) == Err(TypeError))
  {
    if c.Some? && c.value.environment == Some(EnvList(entries)) {
      if LastWithPrefix(entries, "PORT", |entries|).None? {
        NoneWithPrefix(entries, "PORT", |entries|);
        EnvPortIsLastEntry(entries, 0);
      }
      if LastWithPrefix(entries, "PROXY_PASS", |entries|).None? {
        ProxyPassIsLastEntry(entries, 0);
      }
    }
  }

  /** The value of a `PORT=<v>` entry is `v` when `v` has no '='. */
  lemma PortEntryValue(v: string)
    requires '=' !in v
    ensures EnvPortOf(Some("PORT=" + v)) == Some(v)
  {
    assert Join(["PORT", v], "=") == "PORT=" + v;
    SplitJoinChar(["PORT", v], '=');
  }

  /** The proxy-pass port is read from the last "PROXY_PASS" entry when it ends in `:<q>`. */
  lemma ProxyPassPortOfLastEntry(c: Option<Container>, entries: seq<string>, prefix: string, q: int)
    requires c.Some? && c.value.environment == Some(EnvList(entries))
    requires LastWithPrefix(entries, "PROXY_PASS", |entries|) == Some(prefix + ":" + IntToString(q))
    ensures ProxyPassPort(c) == Ok(q)
  {
    IntRoundTrip(q);
    assert ':' !in IntToString(q);
    LastColonPiece(prefix, IntToString(q));
    ProxyPassIsLastEntry(entries, 0);
  }

  /**
   * A proxy container whose last "PORT" entry is `PORT=<p>` and whose last
   * "PROXY_PASS" entry ends in `:<q>` has port `p` when `p == q`, and a
   * mismatch otherwise; every "PORT" entry must carry a '='.
   */
  lemma ProxyPortOfEntries(c: Option<Container>, entries: seq<string>, prefix: string, p: int, q: int)
    requires c.Some? && c.value.environment == Some(EnvList(entries))
    requires forall k | 0 <= k < |entries| :: !PortEntryWithoutValue(entries[k])
    requires LastWithPrefix(entries, "PORT", |entries|) == Some("PORT=" + IntToString(p))
    requires LastWithPrefix(entries, "PROXY_PASS", |entries|) == Some(prefix + ":" + IntToString(q))
    ensures p == q ==> ProxyPort(c) == Ok(p)
    ensures p != q ==> ProxyPort(c) == Err(ProxyMismatch(p, q))
  {
    EnvironmentPortOfLastEntry(c, entries, p);
    ProxyPassPortOfLastEntry(c, entries, prefix, q);
  }

  method DiscoverProxyPort(c: Option<Container>) returns (r: Result<int>)
    ensures r == ProxyPort(c)
  {
    var environmentPort := DiscoverEnvironmentPort(c);
    if environmentPort.Err? {
      return environmentPort;
    }
    var proxyPassPort := DiscoverProxyPassPort(c);
    if proxyPassPort.Err? {
      return proxyPassPort;
    }
    if environmentPort.value != proxyPassPort.value {
      return Err(ProxyMismatch(environmentPort.value, proxyPassPort.value));
    }
    return environmentPort;
  }

  // ---- port discovery by kind ---------------------------------------------------------------

  /** `discover_port` of each document kind; `local.yml` keeps the base class's NotImplementedError. */
  function PortOf(kind: ComposeKind, c: Option<Container>): (r: Result<Option<int>>)
    ensures kind == Override ==> r == OverridePort(c)
    ensures kind == Dev ==> (r.Ok? <==> DevPort(c).Ok?) && (r.Ok? ==> r.value == Some(DevPort(c).value))
    ensures kind == Proxy ==> (r.Ok? <==> ProxyPort(c).Ok?) && (r.Ok? ==> r.value == Some(ProxyPort(c).value))
    ensures kind == Local ==> r == Err(NotImplementedError)
    ensures kind == Dev && r.Err? ==> r.error == DevPort(c).error
    ensures kind == Proxy && r.Err? ==> r.error == ProxyPort(c).error
  {
    match kind
    case Override => OverridePort(c)
    case Dev => var p :- DevPort(c); Ok(Some(p))
    case Proxy => var p :- ProxyPort(c); Ok(Some(p))
    case Local => Err(NotImplementedError)
  }
}
