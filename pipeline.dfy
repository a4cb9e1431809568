/**
 * The `Pipeline` class: a distribution's components grouped by pipeline
 * group, the agent, and the compose document generated from them.
 */
module PipelineGraph {
  import opened Wrappers
  import opened Dicts
  import opened Text
  import opened Json
  import opened PurePath
  import opened Utils
  import opened Generics

  const FILE_NAME := "pipeline_conf.json"

  const SINGLE_COMPONENT_GROUPS: seq<string> := ["last_chance_service", "timeout_service", "response_annotator_selectors"]

  const MULTIPLE_COMPONENT_GROUPS: seq<string> :=
    ["annotators", "response_annotators", "candidate_annotators", "skill_selectors", "skills", "response_selectors"]

  const COMPONENT_GROUPS: seq<string> :=
    ["last_chance_service", "timeout_service", "annotators", "response_annotators", "response_annotator_selectors",
     "candidate_annotators", "skill_selectors", "skills", "response_selectors"]

  predicate Distinct(s: seq<string>)
  {
    forall i, j | 0 <= i < j < |s| :: s[i] != s[j]
  }

  /** The group order lists every single- and multi-valued group once, and no other name. */
  lemma ComponentGroupsPartition()
    ensures forall g :: g in COMPONENT_GROUPS <==> g in SINGLE_COMPONENT_GROUPS || g in MULTIPLE_COMPONENT_GROUPS
    ensures forall g | g in SINGLE_COMPONENT_GROUPS :: g !in MULTIPLE_COMPONENT_GROUPS
    ensures Distinct(COMPONENT_GROUPS)
    ensures |COMPONENT_GROUPS| == |SINGLE_COMPONENT_GROUPS| + |MULTIPLE_COMPONENT_GROUPS|
  {
  }

  // ---- components -----------------------------------------------------------

  /** A component's service definition: the service record and its environment. */
  datatype ServiceDef = ServiceDef(service: Json, environment: Dict<string, string>)

  /** The part of a component's card the pipeline reads: its group, name and connector. */
  datatype ComponentEntry = ComponentEntry(group: string, name: string, connector: ConnectorField)

  /**
   * A component as the pipeline sees it; `containerName` is the key of its
   * container in the deployment documents.
   */
  datatype PipelineComponent = PipelineComponent(
    component: ComponentEntry,
    service: ServiceDef,
    pipeline: Json,
    componentFile: string,
    containerName: string)

  /** A group attribute: one optional component, or an optional mapping of named components. */
  datatype Slot = One(member: Option<PipelineComponent>) | Many(members: Option<Dict<string, PipelineComponent>>)

  /** `s.set_environment_value(key, value)`, without the file it rewrites. */
  function WithEnvironment(s: ServiceDef, key: string, value: string): (r: ServiceDef)
    ensures r.service == s.service
    ensures Get(r.environment, key) == Some(value)
    ensures forall k | k != key :: Get(r.environment, k) == Get(s.environment, k)
  {
    ServiceDef(s.service, Set(s.environment, key, value))
  }

  // ---- validate_agent_services ---------------------------------------------

  /** Comparing one pair of agent services: a missing service has no `.service`. */
  function PairCheck(a: Option<PipelineComponent>, b: Option<PipelineComponent>): (r: Outcome)
    ensures r.Pass? <==> a.Some? && b.Some? && a.value.service.service == b.value.service.service
    ensures r.Fail? && a.Some? && b.Some? ==> r.error == ValueError(a.value.componentFile + " != " + b.value.componentFile)
    ensures r.Fail? && (a.None? || b.None?) ==> r.error == AttributeError
  {
    if a.None? || b.None? then Fail(AttributeError)
    else if a.value.service.service != b.value.service.service then
      Fail(ValueError(a.value.componentFile + " != " + b.value.componentFile))
    else Pass
  }

  /** Pair (i, j) comes before pair (k, l) in `itertools.combinations` order. */
  predicate PairBefore(i: int, j: int, k: int, l: int)
  {
    i < k || (i == k && j < l)
  }

  /**
   * `validate_agent_services`: every pair of the given services, in
   * combination order, must agree; the first one is returned.
   */
  method ValidateAgentServices(args: seq<Option<PipelineComponent>>) returns (r: Result<Option<PipelineComponent>>)
    ensures r.Ok? <==> |args| > 0 && forall i, j | 0 <= i < j < |args| :: PairCheck(args[i], args[j]).Pass?
    ensures r.Ok? ==> r.value == args[0]
    ensures |args| == 0 ==> r == Err(IndexError)
    ensures (r.Err? && |args| > 0 ==>
             exists i, j | 0 <= i < j < |args| ::
               PairCheck(args[i], args[j]) == Fail(r.error)
               && forall k, l | 0 <= k < l < |args| && PairBefore(k, l, i, j) :: PairCheck(args[k], args[l]).Pass?)
  {
    var i := 0;
    while i < |args|
      invariant 0 <= i <= |args|
      invariant forall k, l | 0 <= k < l < |args| && k < i :: PairCheck(args[k], args[l]).Pass?
    {
      var j := i + 1;
      while j < |args|
        invariant i + 1 <= j <= |args|
        invariant forall k, l | 0 <= k < l < |args| && k < i :: PairCheck(args[k], args[l]).Pass?
        invariant forall l | i < l < j :: PairCheck(args[i], args[l]).Pass?
      {
        var check := PairCheck(args[i], args[j]);
        if check.Fail? {
          return Err(check.error);
        }
        j := j + 1;
      }
      i := i + 1;
    }
    if |args| == 0 {
      return Err(IndexError);
    }
    return Ok(args[0]);
  }

  /** With two or more services, every pair agrees exactly when all are present and equal to the first. */
  lemma AgentServicesAgree(args: seq<Option<PipelineComponent>>)
    requires |args| >= 2
    ensures ((forall i, j | 0 <= i < j < |args| :: PairCheck(args[i], args[j]).Pass?) <==>
             (args[0].Some? &&
              forall i | 0 <= i < |args| :: args[i].Some? && args[i].value.service.service == args[0].value.service.service))
  {
    if forall i, j | 0 <= i < j < |args| :: PairCheck(args[i], args[j]).Pass? {
      forall i | 0 <= i < |args|
        ensures args[i].Some? && args[i].value.service.service == args[0].value.service.service
      {
        if i == 0 {
          assert PairCheck(args[0], args[1]).Pass?;
        } else {
          assert PairCheck(args[0], args[i]).Pass?;
        }
      }
    }
  }

  // ---- compose generation (pure part) ---------------------------------------

  /** `component.component.connector.url` parsed: a string connector has no `.url`. */
  function ComponentAddress(c: PipelineComponent): (r: Result<Address>)
    ensures c.component.connector.ConnectorRef? ==> r == Err(AttributeError)
    ensures c.component.connector.ConnectorInline? ==> r == ParseConnectorUrl(c.component.connector.def.url)
  {
    match c.component.connector
    case ConnectorRef(_) => Err(AttributeError)
    case ConnectorInline(def) => ParseConnectorUrl(def.url)
  }

  /** The host and port a component is recorded under: "agent" and no port when its url is unusable. */
  function HostOf(c: PipelineComponent): (r: (string, Option<string>))
    ensures ComponentAddress(c).Err? ==> r == ("agent", None)
    ensures ComponentAddress(c).Ok? ==> r == (ComponentAddress(c).value.host, Some(ComponentAddress(c).value.port))
  {
    var a := ComponentAddress(c);
    if a.Ok? then (a.value.host, Some(a.value.port)) else ("agent", None)
  }

  /** A component whose inline connector carries a url built from a host, a port and an endpoint is recorded under that host and port. */
  lemma ComponentAddressOfBuiltUrl(c: PipelineComponent, scheme: string, host: string, port: string, endpoint: string)
    requires c.component.connector.ConnectorInline?
    requires c.component.connector.def.url == Some(BuildConnectorUrl(scheme, host, port, endpoint))
    requires ':' !in host && '/' !in host && ':' !in port && '/' !in port
    requires !Contains(endpoint, "//") && (endpoint == [] || endpoint[0] != '/')
    ensures ComponentAddress(c) == Ok(Address(host, port, endpoint))
    ensures HostOf(c) == (host, Some(port))
  {
    ParseBuildRoundTrip(scheme, host, port, endpoint);
  }

  /**
   * The host a component is recorded under is the container name its
   * service's connector gives: a component has a port exactly when that name
   * is known, and is recorded under "agent" otherwise.
   */
  lemma RecordedUnderContainerName(c: PipelineComponent, s: Service)
    requires s.connector == c.component.connector
    ensures HostOf(c).1.Some? <==> ContainerName(s).Ok? && ContainerName(s).value.Some?
    ensures ContainerName(s).Ok? && ContainerName(s).value.Some? ==> HostOf(c).0 == ContainerName(s).value.value
    ensures HostOf(c).1.None? ==> HostOf(c).0 == "agent"
  {
  }

  /** The two mappings `generate_compose` fills: compose entries and ports, both keyed by host. */
  datatype Gathered = Gathered(services: Dict<string, Container>, ports: Dict<string, Option<string>>)

  function Record(acc: Gathered, host: string, port: Option<string>, entry: Container): (r: Gathered)
    ensures Keys(r.services) == (if host in Keys(acc.services) then Keys(acc.services) else Keys(acc.services) + [host])
    ensures Keys(r.ports) == (if host in Keys(acc.ports) then Keys(acc.ports) else Keys(acc.ports) + [host])
  {
    Gathered(Set(acc.services, host, entry), Set(acc.ports, host, port))
  }

  /**
   * The first loop of `generate_compose`, over `iter_components()`; a
   * missing single-group component has no `.service`.
   */
  function GatherComponents(items: seq<(string, Option<string>, Option<PipelineComponent>)>, acc: Gathered,
                            gen: ServiceDef -> Container): Result<Gathered>
  {
    if items == [] then Ok(acc)
    else if items[0].2.None? then Err(AttributeError)
    else
      var c := items[0].2.value;
      var hp := HostOf(c);
      GatherComponents(items[1..], Record(acc, hp.0, hp.1, gen(c.service)), gen)
  }

  /** The second loop of `generate_compose`, over `self.services`: url errors propagate. */
  function GatherServices(svcs: seq<(string, PipelineComponent)>, acc: Gathered, gen: ServiceDef -> Container): Result<Gathered>
  {
    if svcs == [] then Ok(acc)
    else
      var a :- ComponentAddress(svcs[0].1);
      GatherServices(svcs[1..], Record(acc, a.host, Some(a.port), gen(svcs[0].1.service)), gen)
  }

  /** `f"{p}"` for an optional port. */
  function PortText(p: Option<string>): string
  {
    if p.Some? then p.value else "None"
  }

  function HostPort(entry: (string, Option<string>)): string
  {
    entry.0 + ":" + PortText(entry.1)
  }

  /** `[f"{h}:{p}" for h, p in all_ports.items() if h != "agent"]`. */
  function WaitHostList(ports: seq<(string, Option<string>)>): seq<string>
  {
    if ports == [] then []
    else if ports[0].0 == "agent" then WaitHostList(ports[1..])
    else [HostPort(ports[0])] + WaitHostList(ports[1..])
  }

  /**
   * WAIT_HOSTS lists exactly the non-agent hosts, each as host:port, and
   * keeps the order of the ports mapping.
   */
  lemma {:induction false} WaitHostsAreNonAgentHosts(ports: seq<(string, Option<string>)>)
    ensures forall i | 0 <= i < |ports| && ports[i].0 != "agent" :: HostPort(ports[i]) in WaitHostList(ports)
    ensures forall x | x in WaitHostList(ports) :: exists i | 0 <= i < |ports| :: ports[i].0 != "agent" && x == HostPort(ports[i])
  {
    if ports != [] {
      WaitHostsAreNonAgentHosts(ports[1..]);
      forall x | x in WaitHostList(ports)
        ensures exists i | 0 <= i < |ports| :: ports[i].0 != "agent" && x == HostPort(ports[i])
      {
        if ports[0].0 != "agent" && x == HostPort(ports[0]) {
          assert ports[0].0 != "agent" && x == HostPort(ports[0]);
        } else {
          assert x in WaitHostList(ports[1..]);
          var i :| 0 <= i < |ports[1..]| && ports[1..][i].0 != "agent" && x == HostPort(ports[1..][i]);
          assert ports[i + 1] == ports[1..][i];
        }
      }
    }
  }

  /** WAIT_HOSTS follows the mapping's order: a split of the mapping splits the list. */
  lemma {:induction false} WaitHostsInOrder(a: seq<(string, Option<string>)>, b: seq<(string, Option<string>)>)
    ensures WaitHostList(a + b) == WaitHostList(a) + WaitHostList(b)
  {
    if a == [] {
      assert a + b == b;
    } else {
      assert (a + b)[0] == a[0];
      assert (a + b)[1..] == a[1..] + b;
      WaitHostsInOrder(a[1..], b);
    }
  }

  /** The agent with WAIT_HOSTS set to the non-agent hosts of the gathered ports. */
  function Waiting(agent: PipelineComponent, g: Gathered): PipelineComponent
  {
    agent.(service := WithEnvironment(agent.service, "WAIT_HOSTS", Join(WaitHostList(g.ports), ", ")))
  }

  /** The compose document `generate_compose` returns: the gathered entries, then the waiting agent's. */
  function ComposeOf(agent: PipelineComponent, g: Gathered, gen: ServiceDef -> Container): ComposeDoc
  {
    NewComposeDoc(Set(g.services, "agent", gen(Waiting(agent, g).service)), None)
  }

  /**
   * The document's "agent" entry is the agent's own service with WAIT_HOSTS
   * naming the non-agent hosts; every other entry is the gathered one, and
   * the agent's other environment values are kept.
   */
  lemma ComposeAgentEntry(agent: PipelineComponent, g: Gathered, gen: ServiceDef -> Container)
    ensures Get(ComposeOf(agent, g, gen).services, "agent") == Some(gen(Waiting(agent, g).service))
    ensures forall h | h != "agent" :: Get(ComposeOf(agent, g, gen).services, h) == Get(g.services, h)
    ensures Get(Waiting(agent, g).service.environment, "WAIT_HOSTS") == Some(Join(WaitHostList(g.ports), ", "))
    ensures (forall k | k != "WAIT_HOSTS" ::
               Get(Waiting(agent, g).service.environment, k) == Get(agent.service.environment, k))
    ensures Waiting(agent, g).service.service == agent.service.service
  {
  }

  /**
   * Every component that gets past the first loop is recorded under its
   * host: the url host, or "agent" when its url is missing or unparsable.
   */
  lemma {:induction false} GatherRecordsEveryHost(items: seq<(string, Option<string>, Option<PipelineComponent>)>, acc: Gathered,
                                                  gen: ServiceDef -> Container)
    requires GatherComponents(items, acc, gen).Ok?
    ensures forall i | 0 <= i < |items| :: items[i].2.Some?
    ensures forall h | h in Keys(acc.ports) :: h in Keys(GatherComponents(items, acc, gen).value.ports)
    ensures (forall i | 0 <= i < |items| ::
               HostOf(items[i].2.value).0 in Keys(GatherComponents(items, acc, gen).value.ports))
  {
    if items != [] {
      var c := items[0].2.value;
      var hp := HostOf(c);
      var next := Record(acc, hp.0, hp.1, gen(c.service));
      var rest := items[1..];
      assert GatherComponents(items, acc, gen) == GatherComponents(rest, next, gen);
      GatherRecordsEveryHost(rest, next, gen);
      var out := GatherComponents(rest, next, gen).value;
      assert hp.0 in Keys(next.ports);
      forall i | 0 <= i < |items|
        ensures items[i].2.Some? && HostOf(items[i].2.value).0 in Keys(out.ports)
      {
        if i > 0 {
          assert items[i] == rest[i - 1];
        }
      }
    }
  }

  // ---- prompts ----------------------------------------------------------------

  /** The prompt name a skill contributes: the stem of its PROMPT_FILE, when that is set and non-empty. */
  function PromptOf(skill: (string, PipelineComponent)): Option<string>
  {
    var file := Get(skill.1.service.environment, "PROMPT_FILE");
    if file.Some? && file.value != "" then Some(Stem(PathOf(file.value))) else None
  }

  /** The prompt names of the skills that set a non-empty PROMPT_FILE, in skill order. */
  function PromptNames(skills: seq<(string, PipelineComponent)>): (r: seq<string>)
    ensures |r| <= |skills|
  {
    if skills == [] then []
    else
      var p := PromptOf(skills[0]);
      (if p.Some? then [p.value] else []) + PromptNames(skills[1..])
  }

  /**
   * The prompt names still to collect from skill `i` on are that skill's
   * name, if any, then those of the skills after it.
   */
  lemma PromptNamesStep(skills: seq<(string, PipelineComponent)>, i: nat, prompts: seq<string>)
    requires i < |skills| && PromptNames(skills) == prompts + PromptNames(skills[i..])
    ensures (PromptOf(skills[i]).Some? ==>
             PromptNames(skills) == (prompts + [PromptOf(skills[i]).value]) + PromptNames(skills[i + 1..]))
    ensures PromptOf(skills[i]).None? ==> PromptNames(skills) == prompts + PromptNames(skills[i + 1..])
  {
    var t := skills[i..];
    assert t[0] == skills[i] && t[1..] == skills[i + 1..];
    var rest := PromptNames(skills[i + 1..]);
    if PromptOf(skills[i]).Some? {
      assert PromptNames(t) == [PromptOf(skills[i]).value] + rest;
      assert prompts + ([PromptOf(skills[i]).value] + rest) == (prompts + [PromptOf(skills[i]).value]) + rest;
    } else {
      assert PromptNames(t) == [] + rest;
      assert [] + rest == rest;
    }
  }

  /** Each skill with a prompt file contributes its name, and every name comes from such a skill. */
  lemma {:induction false} PromptNamesFromPromptFiles(skills: seq<(string, PipelineComponent)>)
    ensures forall i | 0 <= i < |skills| && PromptOf(skills[i]).Some? :: PromptOf(skills[i]).value in PromptNames(skills)
    ensures forall x | x in PromptNames(skills) :: exists i | 0 <= i < |skills| :: PromptOf(skills[i]) == Some(x)
  {
    if skills != [] {
      var rest := skills[1..];
      PromptNamesFromPromptFiles(rest);
      var head := if PromptOf(skills[0]).Some? then [PromptOf(skills[0]).value] else [];
      assert PromptNames(skills) == head + PromptNames(rest);
      assert forall i | 1 <= i < |skills| :: skills[i] == rest[i - 1];
      forall x | x in PromptNames(skills)
        ensures exists i | 0 <= i < |skills| :: PromptOf(skills[i]) == Some(x)
      {
        if x !in PromptNames(rest) {
          assert PromptOf(skills[0]) == Some(x);
        } else {
          var i :| 0 <= i < |rest| && PromptOf(rest[i]) == Some(x);
          assert skills[i + 1] == rest[i];
        }
      }
    }
  }

  /** PROMPTS_TO_CONSIDER splits back into the prompt names when none contains a comma. */
  lemma PromptsToConsiderSplits(names: seq<string>)
    requires |names| >= 1
    requires forall k | 0 <= k < |names| :: ',' !in names[k]
    ensures Split(Join(names, ","), ",") == names
  {
    SplitJoinChar(names, ',');
  }

  // ---- the Pipeline class --------------------------------------------------------

  /** The tagged entries `iter_components` yields for one group. */
  function Tagged(group: string, entries: seq<(Option<string>, Option<PipelineComponent>)>)
    : (r: seq<(string, Option<string>, Option<PipelineComponent>)>)
    ensures |r| == |entries|
    ensures forall k | 0 <= k < |r| :: r[k] == (group, entries[k].0, entries[k].1)
  {
    seq(|entries|, k requires 0 <= k < |entries| => (group, entries[k].0, entries[k].1))
  }

  /** The entries of a mapping of components, each under its name. */
  function Named(d: seq<(string, PipelineComponent)>): (r: seq<(Option<string>, Option<PipelineComponent>)>)
    ensures |r| == |d|
    ensures forall k | 0 <= k < |r| :: r[k] == (Some(d[k].0), Some(d[k].1))
  {
    seq(|d|, k requires 0 <= k < |d| => (Some(d[k].0), Some(d[k].1)))
  }

  /** What `components` holds for one group: a pipeline entry, or a mapping of them. */
  datatype GroupPipelines = SinglePipeline(entry: Json) | GroupEntries(entries: Dict<string, Json>)

  /** `getattr(c, "pipeline", {})`. */
  function PipelineOf(c: Option<PipelineComponent>): Json
  {
    if c.Some? then c.value.pipeline else JObj([])
  }

  /** `{name: item.pipeline for name, item in d.items()}`. */
  function EntriesOf(d: Dict<string, PipelineComponent>): (r: Dict<string, Json>)
    ensures Keys(r) == Keys(d)
    ensures forall k :: Get(r, k) == if Get(d, k).Some? then Some(Get(d, k).value.pipeline) else None
  {
    if d == [] then []
    else
      HeadNotInTail(d);
      var rest := EntriesOf(d[1..]);
      ConsUnique((d[0].0, d[0].1.pipeline), rest);
      var r := [(d[0].0, d[0].1.pipeline)] + rest;
      assert r[1..] == rest;
      r
  }

  /** The group attributes have their shapes: single-valued groups hold one component, the others a mapping. */
  ghost predicate Shaped(m: map<string, Slot>)
  {
    (forall g :: g in m <==> g in COMPONENT_GROUPS)
    && (forall g | g in SINGLE_COMPONENT_GROUPS :: m[g].One?)
    && (forall g | g in MULTIPLE_COMPONENT_GROUPS :: m[g].Many?)
  }

  /** The last-chance service is a single-valued group. */
  lemma AgentSlotIsSingle(m: map<string, Slot>)
    requires Shaped(m)
    ensures "last_chance_service" in m && m["last_chance_service"].One?
  {
    assert SINGLE_COMPONENT_GROUPS[0] == "last_chance_service";
  }

  /** Replacing a group's value by one of the same kind keeps the groups shaped. */
  lemma ShapedUpdate(m: map<string, Slot>, g: string, slot: Slot)
    requires Shaped(m) && g in m
    requires m[g].One? <==> slot.One?
    ensures Shaped(m[g := slot])
  {
  }

  /** The group attributes as the constructor sets them, in declaration order. */
  function InitialGroups(lastChance: Option<PipelineComponent>, timeout: Option<PipelineComponent>,
                         annotators: Option<Dict<string, PipelineComponent>>,
                         responseAnnotators: Option<Dict<string, PipelineComponent>>,
                         responseAnnotatorSelectors: Option<PipelineComponent>,
                         candidateAnnotators: Option<Dict<string, PipelineComponent>>,
                         skillSelectors: Option<Dict<string, PipelineComponent>>,
                         skills: Option<Dict<string, PipelineComponent>>,
                         responseSelectors: Option<Dict<string, PipelineComponent>>): map<string, Slot>
  {
    map[
      "last_chance_service" := One(lastChance),
      "timeout_service" := One(timeout),
      "annotators" := Many(annotators),
      "response_annotators" := Many(responseAnnotators),
      "response_annotator_selectors" := One(responseAnnotatorSelectors),
      "candidate_annotators" := Many(candidateAnnotators),
      "skill_selectors" := Many(skillSelectors),
      "skills" := Many(skills),
      "response_selectors" := Many(responseSelectors)]
  }

  lemma InitialGroupsCover(a: Option<PipelineComponent>, b: Option<PipelineComponent>, c: Option<Dict<string, PipelineComponent>>,
                          d: Option<Dict<string, PipelineComponent>>, e: Option<PipelineComponent>,
                          f: Option<Dict<string, PipelineComponent>>, g: Option<Dict<string, PipelineComponent>>,
                          h: Option<Dict<string, PipelineComponent>>, i: Option<Dict<string, PipelineComponent>>)
    ensures forall k | k in COMPONENT_GROUPS :: k in InitialGroups(a, b, c, d, e, f, g, h, i)
  {
    var m := InitialGroups(a, b, c, d, e, f, g, h, i);
    forall j | 0 <= j < |COMPONENT_GROUPS|
      ensures COMPONENT_GROUPS[j] in m
    {
    }
  }

  lemma InitialGroupsOnly(a: Option<PipelineComponent>, b: Option<PipelineComponent>, c: Option<Dict<string, PipelineComponent>>,
                          d: Option<Dict<string, PipelineComponent>>, e: Option<PipelineComponent>,
                          f: Option<Dict<string, PipelineComponent>>, g: Option<Dict<string, PipelineComponent>>,
                          h: Option<Dict<string, PipelineComponent>>, i: Option<Dict<string, PipelineComponent>>)
    ensures forall k | k in InitialGroups(a, b, c, d, e, f, g, h, i) :: k in COMPONENT_GROUPS
  {
    var m := InitialGroups(a, b, c, d, e, f, g, h, i);
    forall k | k in m
      ensures k in COMPONENT_GROUPS
    {
      var j := if k == "last_chance_service" then 0 else if k == "timeout_service" then 1
               else if k == "annotators" then 2 else if k == "response_annotators" then 3
               else if k == "response_annotator_selectors" then 4 else if k == "candidate_annotators" then 5
               else if k == "skill_selectors" then 6 else if k == "skills" then 7 else 8;
      assert COMPONENT_GROUPS[j] == k;
    }
  }

  lemma InitialGroupsSingles(a: Option<PipelineComponent>, b: Option<PipelineComponent>, c: Option<Dict<string, PipelineComponent>>,
                             d: Option<Dict<string, PipelineComponent>>, e: Option<PipelineComponent>,
                             f: Option<Dict<string, PipelineComponent>>, g: Option<Dict<string, PipelineComponent>>,
                             h: Option<Dict<string, PipelineComponent>>, i: Option<Dict<string, PipelineComponent>>)
    ensures InitialGroups(a, b, c, d, e, f, g, h, i)["last_chance_service"] == One(a)
    ensures forall k | k in SINGLE_COMPONENT_GROUPS :: InitialGroups(a, b, c, d, e, f, g, h, i)[k].One?
  {
    var m := InitialGroups(a, b, c, d, e, f, g, h, i);
    assert m["last_chance_service"] == One(a);
    assert m["timeout_service"] == One(b);
    assert m["response_annotator_selectors"] == One(e);
  }

  lemma InitialGroupsMultiples(a: Option<PipelineComponent>, b: Option<PipelineComponent>, c: Option<Dict<string, PipelineComponent>>,
                               d: Option<Dict<string, PipelineComponent>>, e: Option<PipelineComponent>,
                               f: Option<Dict<string, PipelineComponent>>, g: Option<Dict<string, PipelineComponent>>,
                               h: Option<Dict<string, PipelineComponent>>, i: Option<Dict<string, PipelineComponent>>)
    ensures forall k | k in MULTIPLE_COMPONENT_GROUPS :: InitialGroups(a, b, c, d, e, f, g, h, i)[k].Many?
  {
    var m := InitialGroups(a, b, c, d, e, f, g, h, i);
    assert m["annotators"] == Many(c);
    assert m["response_annotators"] == Many(d);
    assert m["candidate_annotators"] == Many(f);
    assert m["skill_selectors"] == Many(g);
    assert m["skills"] == Many(h);
    assert m["response_selectors"] == Many(i);
  }

  /** The constructor's groups have their shape, include the prompted-skill groups, and hold the agent. */
  lemma InitialGroupsShaped(a: Option<PipelineComponent>, b: Option<PipelineComponent>, c: Option<Dict<string, PipelineComponent>>,
                            d: Option<Dict<string, PipelineComponent>>, e: Option<PipelineComponent>,
                            f: Option<Dict<string, PipelineComponent>>, g: Option<Dict<string, PipelineComponent>>,
                            h: Option<Dict<string, PipelineComponent>>, i: Option<Dict<string, PipelineComponent>>)
    ensures Shaped(InitialGroups(a, b, c, d, e, f, g, h, i))
    ensures "skills" in InitialGroups(a, b, c, d, e, f, g, h, i) && "annotators" in InitialGroups(a, b, c, d, e, f, g, h, i)
    ensures InitialGroups(a, b, c, d, e, f, g, h, i)["last_chance_service"] == One(a)
  {
    InitialGroupsCover(a, b, c, d, e, f, g, h, i);
    InitialGroupsOnly(a, b, c, d, e, f, g, h, i);
    InitialGroupsSingles(a, b, c, d, e, f, g, h, i);
    InitialGroupsMultiples(a, b, c, d, e, f, g, h, i);
  }

  /** Replacing the agent's slot keeps the shape and every other group. */
  lemma ReplaceAgentKeepsShape(m: map<string, Slot>, x: Option<PipelineComponent>)
    requires Shaped(m)
    ensures Shaped(m["last_chance_service" := One(x)])
  {
    AgentSlotIsSingle(m);
    ShapedUpdate(m, "last_chance_service", One(x));
  }

  /** The prompted-skill operations touch two multi-valued groups. */
  lemma PromptGroupsAreMultiple()
    ensures "annotators" in MULTIPLE_COMPONENT_GROUPS && "skills" in MULTIPLE_COMPONENT_GROUPS
  {
    assert MULTIPLE_COMPONENT_GROUPS[0] == "annotators";
    assert MULTIPLE_COMPONENT_GROUPS[4] == "skills";
  }

  /** Replacing a multi-valued group keeps the shape and the single-valued groups. */
  lemma ReplaceManyKeepsShape(m: map<string, Slot>, g: string, x: Option<Dict<string, PipelineComponent>>)
    requires Shaped(m) && g in MULTIPLE_COMPONENT_GROUPS
    ensures Shaped(m[g := Many(x)])
    ensures forall h | h in SINGLE_COMPONENT_GROUPS :: m[g := Many(x)][h] == m[h]
  {
    ComponentGroupsPartition();
  }

  /**
   * `iter_component_group` over the group attributes `m`: one unnamed entry
   * for a single-valued group, one named entry per component of a
   * multi-valued group, nothing for any other name; a multi-valued group
   * that is None has no `.items()`.
   */
  function ComponentGroupOf(m: map<string, Slot>, group: string): (r: Result<seq<(Option<string>, Option<PipelineComponent>)>>)
    requires Shaped(m)
    ensures group in SINGLE_COMPONENT_GROUPS ==> r == Ok([(None, m[group].member)])
    ensures group in MULTIPLE_COMPONENT_GROUPS && m[group].members.None? ==> r == Err(AttributeError)
    ensures group in MULTIPLE_COMPONENT_GROUPS && m[group].members.Some? ==> r == Ok(Named(m[group].members.value))
    ensures group !in COMPONENT_GROUPS ==> r == Ok([])
  {
    if group in SINGLE_COMPONENT_GROUPS then Ok([(None, m[group].member)])
    else if group in MULTIPLE_COMPONENT_GROUPS then
      if m[group].members.None? then Err(AttributeError) else Ok(Named(m[group].members.value))
    else Ok([])
  }

  /**
   * `iter_component_group` on a multi-valued group yields each of its
   * components once, under its name, in the mapping's order; a
   * single-valued group yields its one component without a name.
   */
  lemma ComponentGroupEntries(m: map<string, Slot>, group: string)
    requires Shaped(m)
    ensures (group in SINGLE_COMPONENT_GROUPS ==>
             ComponentGroupOf(m, group).Ok? && |ComponentGroupOf(m, group).value| == 1
             && ComponentGroupOf(m, group).value[0] == (None, m[group].member))
    ensures (group in MULTIPLE_COMPONENT_GROUPS && m[group].members.Some? ==>
             var d := m[group].members.value;
             var r := ComponentGroupOf(m, group);
             r.Ok? && |r.value| == |d|
             && (forall i | 0 <= i < |r.value| :: r.value[i].0 == Some(Keys(d)[i]))
             && (forall e | e in r.value :: e.0.Some? && e.1.Some? && Get(d, e.0.value) == e.1)
             && (forall n | n in Keys(d) :: (Some(n), Get(d, n)) in r.value))
  {
    ComponentGroupsPartition();
    if group in MULTIPLE_COMPONENT_GROUPS && m[group].members.Some? {
      var d := m[group].members.value;
      var r := Named(d);
      forall e | e in r
        ensures e.0.Some? && e.1.Some? && Get(d, e.0.value) == e.1
      {
        var i :| 0 <= i < |r| && r[i] == e;
        assert e == (Some(d[i].0), Some(d[i].1));
      }
      forall n | n in Keys(d)
        ensures (Some(n), Get(d, n)) in r
      {
        var i :| 0 <= i < |d| && Keys(d)[i] == n;
        assert r[i] == (Some(n), Get(d, n));
      }
    }
  }

  /** The entries of the given groups, each tagged with its group, in order; the first failing group raises. */
  function ConcatGroups(gs: seq<string>, cg: string -> Result<seq<(Option<string>, Option<PipelineComponent>)>>)
    : Result<seq<(string, Option<string>, Option<PipelineComponent>)>>
  {
    if gs == [] then Ok([])
    else
      var n := |gs| - 1;
      var before :- ConcatGroups(gs[..n], cg);
      var here :- cg(gs[n]);
      Ok(before + Tagged(gs[n], here))
  }

  /** Every yielded entry is an entry of the group it is tagged with. */
  lemma {:induction false} ConcatYieldsGroupEntries(gs: seq<string>, cg: string -> Result<seq<(Option<string>, Option<PipelineComponent>)>>)
    requires ConcatGroups(gs, cg).Ok?
    ensures forall k | 0 <= k < |gs| :: cg(gs[k]).Ok?
    ensures (forall a | 0 <= a < |ConcatGroups(gs, cg).value| ::
               ConcatGroups(gs, cg).value[a].0 in gs &&
               (ConcatGroups(gs, cg).value[a].1, ConcatGroups(gs, cg).value[a].2) in cg(ConcatGroups(gs, cg).value[a].0).value)
  {
    if gs != [] {
      var n := |gs| - 1;
      var prefix := gs[..n];
      assert forall k | 0 <= k < n :: prefix[k] == gs[k];
      ConcatYieldsGroupEntries(prefix, cg);
      var before := ConcatGroups(prefix, cg).value;
      var here := cg(gs[n]).value;
      var r := before + Tagged(gs[n], here);
      assert ConcatGroups(gs, cg) == Ok(r);
      forall a | 0 <= a < |r|
        ensures r[a].0 in gs && (r[a].1, r[a].2) in cg(r[a].0).value
      {
        if a < |before| {
          assert r[a] == before[a];
        } else {
          assert r[a] == Tagged(gs[n], here)[a - |before|];
          assert (r[a].1, r[a].2) == here[a - |before|];
        }
      }
    }
  }

  /** Every entry of every group is yielded, tagged with its group. */
  lemma {:induction false} ConcatYieldsEveryEntry(gs: seq<string>, cg: string -> Result<seq<(Option<string>, Option<PipelineComponent>)>>)
    requires ConcatGroups(gs, cg).Ok?
    ensures (forall k, e | 0 <= k < |gs| && cg(gs[k]).Ok? && e in cg(gs[k]).value ::
               (gs[k], e.0, e.1) in ConcatGroups(gs, cg).value)
  {
    if gs != [] {
      var n := |gs| - 1;
      var prefix := gs[..n];
      ConcatYieldsEveryEntry(prefix, cg);
      var before := ConcatGroups(prefix, cg).value;
      var here := cg(gs[n]).value;
      assert ConcatGroups(gs, cg).value == before + Tagged(gs[n], here);
      forall k, e | 0 <= k < |gs| && cg(gs[k]).Ok? && e in cg(gs[k]).value
        ensures (gs[k], e.0, e.1) in ConcatGroups(gs, cg).value
      {
        if k == n {
          var j :| 0 <= j < |here| && here[j] == e;
          assert Tagged(gs[n], here)[j] == (gs[k], e.0, e.1);
        } else {
          assert prefix[k] == gs[k];
          assert (prefix[k], e.0, e.1) in before;
        }
      }
    }
  }

  /** With distinct group names, the entries come group by group in the order of the names. */
  lemma {:induction false} ConcatInOrder(gs: seq<string>, cg: string -> Result<seq<(Option<string>, Option<PipelineComponent>)>>)
    requires Distinct(gs)
    requires ConcatGroups(gs, cg).Ok?
    ensures forall a | 0 <= a < |ConcatGroups(gs, cg).value| :: ConcatGroups(gs, cg).value[a].0 in gs
    ensures (forall a, b | 0 <= a < b < |ConcatGroups(gs, cg).value| ::
               PositionOf(gs, ConcatGroups(gs, cg).value[a].0) <= PositionOf(gs, ConcatGroups(gs, cg).value[b].0))
  {
    if gs != [] {
      var n := |gs| - 1;
      var prefix := gs[..n];
      assert Distinct(prefix);
      ConcatInOrder(prefix, cg);
      var before := ConcatGroups(prefix, cg).value;
      var here := cg(gs[n]).value;
      var r := before + Tagged(gs[n], here);
      assert ConcatGroups(gs, cg) == Ok(r);
      assert PositionOf(gs, gs[n]) == n;
      forall a | 0 <= a < |before|
        ensures before[a].0 in gs && PositionOf(gs, before[a].0) == PositionOf(prefix, before[a].0) < n
      {
        PositionInPrefix(gs, n, before[a].0);
      }
      forall a, b | 0 <= a < b < |r|
        ensures PositionOf(gs, r[a].0) <= PositionOf(gs, r[b].0)
      {
        if b < |before| {
          assert r[a] == before[a] && r[b] == before[b];
        } else if a < |before| {
          assert r[a] == before[a] && r[b].0 == gs[n];
        } else {
          assert r[a].0 == gs[n] && r[b].0 == gs[n];
        }
      }
    }
  }

  /** `get_component` on the value of the group attribute (None when there is no such attribute). */
  function ComponentIn(slot: Option<Slot>, name: string): (r: Result<PipelineComponent>)
    ensures slot.None? ==> r == Err(AttributeError)
    ensures slot.Some? && !(slot.value.Many? && slot.value.members.Some?) ==> r == Err(TypeError)
    ensures (slot.Some? && slot.value.Many? && slot.value.members.Some? ==>
             var d := slot.value.members.value;
             (r.Ok? <==> name in Keys(d)) && (r.Ok? ==> Get(d, name) == Some(r.value))
             && (r.Err? ==> r.error == KeyError("'" + name + "'")))
  {
    if slot.None? then Err(AttributeError)
    else if !(slot.value.Many? && slot.value.members.Some?) then Err(TypeError)
    else
      var found := Get(slot.value.members.value, name);
      if found.Some? then Ok(found.value) else Err(KeyError("'" + name + "'"))
  }

  /** Looking another name up in a mapping group is unaffected by assigning or deleting one name. */
  lemma ComponentInOtherName(d: Dict<string, PipelineComponent>, d': Dict<string, PipelineComponent>, name: string, n: string)
    requires n != name
    requires forall k | k != name :: Get(d', k) == Get(d, k)
    ensures ComponentIn(Some(Many(Some(d'))), n) == ComponentIn(Some(Many(Some(d))), n)
  {
    assert Get(d', n) == Get(d, n);
  }

  /**
   * A pipeline's state is sound when every group attribute has its shape and
   * the agent is present.  The skills and annotators groups, which `Shaped`
   * already includes, are named for the prompted-skill operations.
   */
  ghost predicate StateValid(groups: map<string, Slot>)
  {
    Shaped(groups) && "skills" in groups && "annotators" in groups
    && (AgentSlotIsSingle(groups); groups["last_chance_service"].member.Some?)
  }

  /** The agent: `validate_agent_services` returns the last-chance service itself. */
  function AgentIn(groups: map<string, Slot>): PipelineComponent
    requires StateValid(groups)
  {
    AgentSlotIsSingle(groups);
    groups["last_chance_service"].member.value
  }

  /**
   * The other attributes of a `Pipeline`: the configuration and metadata it
   * was built from, the class constants and the methods.  None of them
   * supports item access, so looking a component up in one, storing one
   * into it or deleting one from it raises TypeError.
   */
  const OTHER_ATTRIBUTES: set<string> := {
    "_config", "metadata", "FILE_NAME", "SINGLE_COMPONENT_GROUPS", "MULTIPLE_COMPONENT_GROUPS", "COMPONENT_GROUPS",
    "validate_agent_services", "_update_agent_wait_hosts", "_update_prompt_selector", "iter_component_group",
    "iter_components", "generate_pipeline_conf", "generate_compose", "from_file", "to_file", "from_dist", "to_dist",
    "from_name", "to_name", "get_component", "add_component", "add_generative_prompted_skill", "remove_component",
    "remove_generative_prompted_skill"}

  /**
   * The value of an attribute without item access.  To a lookup, a store
   * and a deletion it behaves as an empty single-valued slot: TypeError.
   */
  const NOT_SUBSCRIPTABLE: Slot := One(None)

  /** `getattr(pipeline, name)` for the attributes components are stored in; None for a missing attribute. */
  function AttributeIn(groups: map<string, Slot>, services: Dict<string, PipelineComponent>, name: string): Option<Slot>
    requires StateValid(groups)
  {
    if name in groups then Some(groups[name])
    else if name == "services" then Some(Many(Some(services)))
    else if name == "agent" then Some(One(Some(AgentIn(groups))))
    else if name in OTHER_ATTRIBUTES then Some(NOT_SUBSCRIPTABLE)
    else None
  }

  /**
   * The attributes are the component groups, the extra services, the agent
   * and the other attributes; looking a component up in the agent or in an
   * other attribute raises TypeError, and any name outside them is missing.
   */
  lemma AttributeCases(groups: map<string, Slot>, services: Dict<string, PipelineComponent>, name: string, n: string)
    requires StateValid(groups)
    ensures name in COMPONENT_GROUPS ==> AttributeIn(groups, services, name) == Some(groups[name])
    ensures name == "services" ==> AttributeIn(groups, services, name) == Some(Many(Some(services)))
    ensures name == "agent" ==> AttributeIn(groups, services, name) == Some(One(Some(AgentIn(groups))))
    ensures name == "agent" || name in OTHER_ATTRIBUTES ==> ComponentIn(AttributeIn(groups, services, name), n) == Err(TypeError)
    ensures (AttributeIn(groups, services, name).None? <==>
             name !in COMPONENT_GROUPS && name != "services" && name != "agent" && name !in OTHER_ATTRIBUTES)
  {
    assert "services" !in COMPONENT_GROUPS && "agent" !in COMPONENT_GROUPS;
    OtherAttributesAreNoGroups();
  }

  /**
   * `get_component(group, name)`: a component is found exactly when `group`
   * is a multi-valued group that holds a mapping, or the extra services,
   * and `name` is one of its keys; a single-valued group, an empty
   * multi-valued group, the agent and the other attributes raise TypeError,
   * and a name that is no attribute raises AttributeError.
   */
  lemma GetComponentCases(groups: map<string, Slot>, services: Dict<string, PipelineComponent>, group: string, name: string)
    requires StateValid(groups)
    ensures (ComponentIn(AttributeIn(groups, services, group), name).Ok? <==>
             (group in MULTIPLE_COMPONENT_GROUPS && groups[group].members.Some? && name in Keys(groups[group].members.value))
             || (group == "services" && name in Keys(services)))
    ensures (ComponentIn(AttributeIn(groups, services, group), name).Ok? && group in groups ==>
             Get(groups[group].members.value, name) == Some(ComponentIn(AttributeIn(groups, services, group), name).value))
    ensures (ComponentIn(AttributeIn(groups, services, group), name).Ok? && group == "services" ==>
             Get(services, name) == Some(ComponentIn(AttributeIn(groups, services, group), name).value))
    ensures (ComponentIn(AttributeIn(groups, services, group), name) == Err(TypeError) <==>
             group in SINGLE_COMPONENT_GROUPS || group == "agent" || group in OTHER_ATTRIBUTES
             || (group in MULTIPLE_COMPONENT_GROUPS && groups[group].members.None?))
    ensures (ComponentIn(AttributeIn(groups, services, group), name) == Err(AttributeError) <==>
             group !in COMPONENT_GROUPS && group != "services" && group != "agent" && group !in OTHER_ATTRIBUTES)
  {
    ComponentGroupsPartition();
    AttributeCases(groups, services, group, name);
  }

  /** No other attribute shares its name with a component group, the extra services or the agent. */
  lemma OtherAttributesAreNoGroups()
    ensures forall g | g in COMPONENT_GROUPS :: g !in OTHER_ATTRIBUTES
    ensures "services" !in OTHER_ATTRIBUTES && "agent" !in OTHER_ATTRIBUTES
  {
    SingleGroupsAreNoOtherAttributes();
    AnnotatorGroupsAreNoOtherAttributes();
    SkillGroupsAreNoOtherAttributes();
  }

  lemma SingleGroupsAreNoOtherAttributes()
    ensures forall g | g in SINGLE_COMPONENT_GROUPS :: g !in OTHER_ATTRIBUTES
  {
    assert "last_chance_service" !in OTHER_ATTRIBUTES;
    assert "timeout_service" !in OTHER_ATTRIBUTES;
    assert "response_annotator_selectors" !in OTHER_ATTRIBUTES;
  }

  lemma AnnotatorGroupsAreNoOtherAttributes()
    ensures "annotators" !in OTHER_ATTRIBUTES && "response_annotators" !in OTHER_ATTRIBUTES
    ensures "candidate_annotators" !in OTHER_ATTRIBUTES
  {
    assert "annotators" !in OTHER_ATTRIBUTES;
    assert "response_annotators" !in OTHER_ATTRIBUTES;
  }

  lemma SkillGroupsAreNoOtherAttributes()
    ensures "skill_selectors" !in OTHER_ATTRIBUTES && "skills" !in OTHER_ATTRIBUTES
    ensures "response_selectors" !in OTHER_ATTRIBUTES
    ensures "services" !in OTHER_ATTRIBUTES && "agent" !in OTHER_ATTRIBUTES
  {
    assert "skill_selectors" !in OTHER_ATTRIBUTES;
    assert "skills" !in OTHER_ATTRIBUTES;
    assert "response_selectors" !in OTHER_ATTRIBUTES;
    assert "services" !in OTHER_ATTRIBUTES;
  }

  /** The state after storing `members` as the value of the mapping attribute `group`. */
  function WithMembers(groups: map<string, Slot>, services: Dict<string, PipelineComponent>, group: string,
                       members: Dict<string, PipelineComponent>): (map<string, Slot>, Dict<string, PipelineComponent>)
  {
    if group == "services" then (groups, members) else (groups[group := Many(Some(members))], services)
  }

  /**
   * `add_component` on a pipeline's state: the component goes under its name
   * into the attribute its group names, overwriting an entry of the same
   * name.  The single-group guard compares the attribute's value with group
   * names and never fires, so the only errors are a missing attribute
   * (AttributeError) and one that is not a mapping (TypeError).
   */
  function Added(groups: map<string, Slot>, services: Dict<string, PipelineComponent>, c: PipelineComponent)
    : Result<(map<string, Slot>, Dict<string, PipelineComponent>)>
    requires StateValid(groups)
  {
    var slot := AttributeIn(groups, services, c.component.group);
    if slot.None? then Err(AttributeError)
    else if !(slot.value.Many? && slot.value.members.Some?) then Err(TypeError)
    else Ok(WithMembers(groups, services, c.component.group, Set(slot.value.members.value, c.component.name, c)))
  }

  /**
   * `remove_component` on a pipeline's state: the named entry leaves the
   * group's attribute; components that require it are not touched.
   */
  function Removed(groups: map<string, Slot>, services: Dict<string, PipelineComponent>, group: string, name: string)
    : Result<(map<string, Slot>, Dict<string, PipelineComponent>)>
    requires StateValid(groups)
  {
    var slot := AttributeIn(groups, services, group);
    if slot.None? then Err(AttributeError)
    else if !(slot.value.Many? && slot.value.members.Some?) then Err(TypeError)
    else if name !in Keys(slot.value.members.value) then Err(KeyError("'" + name + "'"))
    else Ok(WithMembers(groups, services, group, Remove(slot.value.members.value, name)))
  }

  /**
   * Storing new members in a mapping attribute keeps the state sound and the
   * agent, gives that attribute the new members and leaves every other
   * attribute as it was.
   */
  lemma WithMembersFrame(groups: map<string, Slot>, services: Dict<string, PipelineComponent>, group: string,
                         members: Dict<string, PipelineComponent>)
    requires StateValid(groups)
    requires AttributeIn(groups, services, group).Some? && AttributeIn(groups, services, group).value.Many?
    ensures var (g', s') := WithMembers(groups, services, group, members);
      StateValid(g') && AgentIn(g') == AgentIn(groups)
      && AttributeIn(g', s', group) == Some(Many(Some(members)))
      && forall g | g != group :: AttributeIn(g', s', g) == AttributeIn(groups, services, g)
  {
    AgentSlotIsSingle(groups);
    var (g', s') := WithMembers(groups, services, group, members);
    if group != "services" {
      assert group in groups;
      ShapedUpdate(groups, group, Many(Some(members)));
      assert g'["last_chance_service"] == groups["last_chance_service"];
    }
    assert StateValid(g');
    forall g | g != group
      ensures AttributeIn(g', s', g) == AttributeIn(groups, services, g)
    {
      if g in groups {
        assert g'[g] == groups[g];
      }
    }
  }

  /**
   * After `add_component`, looking the component up by its group and name
   * finds it, every other lookup answers as before, and the agent is the
   * same; it fails exactly when the group names no mapping attribute.
   */
  lemma AddedStoresComponent(groups: map<string, Slot>, services: Dict<string, PipelineComponent>, c: PipelineComponent)
    requires StateValid(groups)
    ensures (Added(groups, services, c).Err? <==>
             AttributeIn(groups, services, c.component.group).None?
             || !AttributeIn(groups, services, c.component.group).value.Many?
             || AttributeIn(groups, services, c.component.group).value.members.None?)
    ensures (Added(groups, services, c).Ok? ==>
             var (g', s') := Added(groups, services, c).value;
             StateValid(g') && AgentIn(g') == AgentIn(groups)
             && ComponentIn(AttributeIn(g', s', c.component.group), c.component.name) == Ok(c)
             && forall g, n | g != c.component.group || n != c.component.name ::
                  ComponentIn(AttributeIn(g', s', g), n) == ComponentIn(AttributeIn(groups, services, g), n))
  {
    var group := c.component.group;
    var slot := AttributeIn(groups, services, group);
    if slot.Some? && slot.value.Many? && slot.value.members.Some? {
      var updated := Set(slot.value.members.value, c.component.name, c);
      WithMembersFrame(groups, services, group, updated);
      var (g', s') := Added(groups, services, c).value;
      forall n | n != c.component.name
        ensures ComponentIn(AttributeIn(g', s', group), n) == ComponentIn(slot, n)
      {
        ComponentInOtherName(slot.value.members.value, updated, c.component.name, n);
      }
    }
  }

  /**
   * After `remove_component`, the name is no longer found in its group,
   * every other lookup answers as before, and the agent is the same; it
   * fails exactly when the group names no mapping attribute holding the name.
   */
  lemma RemovedDropsComponent(groups: map<string, Slot>, services: Dict<string, PipelineComponent>, group: string, name: string)
    requires StateValid(groups)
    ensures (Removed(groups, services, group, name).Ok? <==>
             ComponentIn(AttributeIn(groups, services, group), name).Ok?)
    ensures (Removed(groups, services, group, name).Err? ==>
             Removed(groups, services, group, name).error == ComponentIn(AttributeIn(groups, services, group), name).error)
    ensures (Removed(groups, services, group, name).Ok? ==>
             var (g', s') := Removed(groups, services, group, name).value;
             StateValid(g') && AgentIn(g') == AgentIn(groups)
             && ComponentIn(AttributeIn(g', s', group), name) == Err(KeyError("'" + name + "'"))
             && forall g, n | g != group || n != name ::
                  ComponentIn(AttributeIn(g', s', g), n) == ComponentIn(AttributeIn(groups, services, g), n))
  {
    var slot := AttributeIn(groups, services, group);
    if slot.Some? && slot.value.Many? && slot.value.members.Some? && name in Keys(slot.value.members.value) {
      var updated := Remove(slot.value.members.value, name);
      WithMembersFrame(groups, services, group, updated);
      var (g', s') := Removed(groups, services, group, name).value;
      forall n | n != name
        ensures ComponentIn(AttributeIn(g', s', group), n) == ComponentIn(slot, n)
      {
        ComponentInOtherName(slot.value.members.value, updated, name, n);
      }
    }
  }

  /** `getattr(self, group)` rendered for `components`; a multi-valued group that is None has no `.items()`. */
  function GroupPipelinesIn(groups: map<string, Slot>, group: string): Result<GroupPipelines>
    requires group in groups
  {
    match groups[group]
    case One(c) => Ok(SinglePipeline(PipelineOf(c)))
    case Many(d) => if d.None? then Err(AttributeError) else Ok(GroupEntries(EntriesOf(d.value)))
  }

  /** A single-valued group renders to its pipeline entry (`{}` when unset); a multi-valued one to its mapping, or raises when None. */
  lemma GroupPipelinesCases(groups: map<string, Slot>, group: string)
    requires group in groups
    ensures groups[group].One? ==> GroupPipelinesIn(groups, group) == Ok(SinglePipeline(PipelineOf(groups[group].member)))
    ensures groups[group].One? && groups[group].member.None? ==> GroupPipelinesIn(groups, group) == Ok(SinglePipeline(JObj([])))
    ensures groups[group].Many? ==> (GroupPipelinesIn(groups, group).Ok? <==> groups[group].members.Some?)
    ensures groups[group].Many? && groups[group].members.None? ==> GroupPipelinesIn(groups, group) == Err(AttributeError)
    ensures (groups[group].Many? && groups[group].members.Some? ==>
             GroupPipelinesIn(groups, group).Ok? && GroupPipelinesIn(groups, group).value.GroupEntries? &&
             Keys(GroupPipelinesIn(groups, group).value.entries) == Keys(groups[group].members.value))
  {
  }

  /** The `components` property over the given groups: one entry per group, in order. */
  function ComponentsIn(groups: map<string, Slot>, gs: seq<string>): Result<seq<(string, GroupPipelines)>>
    requires forall k | 0 <= k < |gs| :: gs[k] in groups
  {
    if gs == [] then Ok([])
    else
      var n := |gs| - 1;
      var before :- ComponentsIn(groups, gs[..n]);
      var here :- GroupPipelinesIn(groups, gs[n]);
      Ok(before + [(gs[n], here)])
  }

  /** One entry per group, in the order given, each what that group renders to; the first failing group raises. */
  lemma {:induction false} ComponentsInEntries(groups: map<string, Slot>, gs: seq<string>)
    requires forall k | 0 <= k < |gs| :: gs[k] in groups
    ensures ComponentsIn(groups, gs).Ok? <==> forall k | 0 <= k < |gs| :: GroupPipelinesIn(groups, gs[k]).Ok?
    ensures ComponentsIn(groups, gs).Ok? ==> |ComponentsIn(groups, gs).value| == |gs|
    ensures (ComponentsIn(groups, gs).Ok? ==>
             forall k | 0 <= k < |gs| :: ComponentsIn(groups, gs).value[k] == (gs[k], GroupPipelinesIn(groups, gs[k]).value))
  {
    if gs != [] {
      var n := |gs| - 1;
      var prefix := gs[..n];
      assert forall k | 0 <= k < n :: prefix[k] == gs[k];
      ComponentsInEntries(groups, prefix);
      var before := ComponentsIn(groups, prefix);
      var here := GroupPipelinesIn(groups, gs[n]);
      if before.Ok? && here.Ok? {
        ComponentsInLast(groups, gs, before.value, here.value);
      } else if before.Ok? {
        assert ComponentsIn(groups, gs) == Err(here.error);
      } else {
        assert ComponentsIn(groups, gs) == Err(before.error);
        var k :| 0 <= k < n && !GroupPipelinesIn(groups, prefix[k]).Ok?;
        assert !GroupPipelinesIn(groups, gs[k]).Ok?;
      }
    }
  }

  /** The step of `ComponentsInEntries` where both the prefix and the last group render. */
  lemma ComponentsInLast(groups: map<string, Slot>, gs: seq<string>, before: seq<(string, GroupPipelines)>, here: GroupPipelines)
    requires gs != [] && forall k | 0 <= k < |gs| :: gs[k] in groups
    requires ComponentsIn(groups, gs[..|gs| - 1]) == Ok(before) && GroupPipelinesIn(groups, gs[|gs| - 1]) == Ok(here)
    requires |before| == |gs| - 1
    requires forall k | 0 <= k < |gs| - 1 :: GroupPipelinesIn(groups, gs[k]).Ok? && before[k] == (gs[k], GroupPipelinesIn(groups, gs[k]).value)
    ensures ComponentsIn(groups, gs) == Ok(before + [(gs[|gs| - 1], here)])
    ensures forall k | 0 <= k < |gs| :: GroupPipelinesIn(groups, gs[k]).Ok?
    ensures forall k | 0 <= k < |gs| :: (before + [(gs[|gs| - 1], here)])[k] == (gs[k], GroupPipelinesIn(groups, gs[k]).value)
  {
  }

  /** Over a well-shaped state, `components` raises exactly when some multi-valued group is None. */
  lemma ComponentsNeedMultiGroups(groups: map<string, Slot>)
    requires Shaped(groups)
    ensures (ComponentsIn(groups, COMPONENT_GROUPS).Ok? <==>
             forall g | g in MULTIPLE_COMPONENT_GROUPS :: groups[g].members.Some?)
    ensures ComponentsIn(groups, COMPONENT_GROUPS).Ok? ==> |ComponentsIn(groups, COMPONENT_GROUPS).value| == |COMPONENT_GROUPS|
  {
    ComponentsInEntries(groups, COMPONENT_GROUPS);
    forall g | g in MULTIPLE_COMPONENT_GROUPS
      ensures GroupPipelinesIn(groups, g).Ok? <==> groups[g].members.Some?
    {
      GroupPipelinesCases(groups, g);
    }
    forall g | g in MULTIPLE_COMPONENT_GROUPS && ComponentsIn(groups, COMPONENT_GROUPS).Ok?
      ensures groups[g].members.Some?
    {
      ComponentsInRendersEach(groups, COMPONENT_GROUPS, g);
    }
    forall k | 0 <= k < |COMPONENT_GROUPS| && COMPONENT_GROUPS[k] !in MULTIPLE_COMPONENT_GROUPS
      ensures GroupPipelinesIn(groups, COMPONENT_GROUPS[k]).Ok?
    {
      GroupPipelinesCases(groups, COMPONENT_GROUPS[k]);
    }
  }

  /** A group listed in a rendered `components` renders on its own. */
  lemma ComponentsInRendersEach(groups: map<string, Slot>, gs: seq<string>, g: string)
    requires forall k | 0 <= k < |gs| :: gs[k] in groups
    requires ComponentsIn(groups, gs).Ok? && g in gs
    ensures g in groups && GroupPipelinesIn(groups, g).Ok?
  {
    ComponentsInEntries(groups, gs);
    var k :| 0 <= k < |gs| && gs[k] == g;
  }

  class Pipeline {
    /** The group attributes, by attribute name. */
    var groups: map<string, Slot>
    /** Extra services outside the groups (`services or {}`). */
    var services: Dict<string, PipelineComponent>

    /**
     * Every group attribute has its shape, and the agent is present.  The
     * skills and annotators groups, which `Shaped` already includes, are
     * named for the prompted-skill operations that use them.
     */
    ghost predicate Valid()
      reads this
    {
      StateValid(groups)
    }

    /** The agent: `validate_agent_services` returns the last-chance service itself. */
    function Agent(): PipelineComponent
      reads this
      requires Valid()
    {
      AgentIn(groups)
    }

    constructor (lastChanceService: Option<PipelineComponent>, timeoutService: Option<PipelineComponent>,
                 annotators: Option<Dict<string, PipelineComponent>>, skills: Option<Dict<string, PipelineComponent>>,
                 responseSelectors: Option<Dict<string, PipelineComponent>>,
                 responseAnnotators: Option<Dict<string, PipelineComponent>>,
                 responseAnnotatorSelectors: Option<PipelineComponent>,
                 candidateAnnotators: Option<Dict<string, PipelineComponent>>,
                 skillSelectors: Option<Dict<string, PipelineComponent>>,
                 extraServices: Option<Dict<string, PipelineComponent>>)
      requires PairCheck(lastChanceService, timeoutService).Pass?
      ensures Valid()
      ensures Agent() == lastChanceService.value
      ensures groups == InitialGroups(lastChanceService, timeoutService, annotators, responseAnnotators,
                                      responseAnnotatorSelectors, candidateAnnotators, skillSelectors, skills,
                                      responseSelectors)
      ensures services == extraServices.GetOr([])
    {
      var agent := ValidateAgentServices([lastChanceService, timeoutService]);
      assert agent.Ok?;
      groups := InitialGroups(lastChanceService, timeoutService, annotators, responseAnnotators,
                              responseAnnotatorSelectors, candidateAnnotators, skillSelectors, skills, responseSelectors);
      InitialGroupsShaped(lastChanceService, timeoutService, annotators, responseAnnotators,
                          responseAnnotatorSelectors, candidateAnnotators, skillSelectors, skills, responseSelectors);
      services := extraServices.GetOr([]);
    }

    /** `deepcopy(pipeline)`: a new pipeline holding the same components. */
    constructor Copy(groups: map<string, Slot>, services: Dict<string, PipelineComponent>)
      requires StateValid(groups)
      ensures Valid()
      ensures this.groups == groups && this.services == services
    {
      this.groups := groups;
      this.services := services;
    }

    /** `getattr(self, name)` for the attributes components are stored in; None for a missing attribute. */
    function Attribute(name: string): Option<Slot>
      reads this
      requires Valid()
    {
      AttributeIn(groups, services, name)
    }

    /** `iter_component_group`. */
    function ComponentGroup(group: string): Result<seq<(Option<string>, Option<PipelineComponent>)>>
      reads this
      requires Valid()
    {
      ComponentGroupOf(groups, group)
    }

    /** `iter_components`: the groups' entries in `COMPONENT_GROUPS` order. */
    function IterComponents(): Result<seq<(string, Option<string>, Option<PipelineComponent>)>>
      reads this
      requires Valid()
    {
      var m := groups;
      ConcatGroups(COMPONENT_GROUPS, g => ComponentGroupOf(m, g))
    }

    /** `iter_components` visits the groups in `COMPONENT_GROUPS` order. */
    lemma IterComponentsInGroupOrder()
      requires Valid()
      requires IterComponents().Ok?
      ensures (forall a, b | 0 <= a < b < |IterComponents().value| ::
                 IterComponents().value[a].0 in COMPONENT_GROUPS && IterComponents().value[b].0 in COMPONENT_GROUPS &&
                 PositionOf(COMPONENT_GROUPS, IterComponents().value[a].0)
                 <= PositionOf(COMPONENT_GROUPS, IterComponents().value[b].0))
    {
      var m := groups;
      ComponentGroupsPartition();
      ConcatInOrder(COMPONENT_GROUPS, g => ComponentGroupOf(m, g));
    }

    /** `iter_components` yields only entries of the groups, each tagged with its own group. */
    lemma IterComponentsYieldsGroupEntries()
      requires Valid()
      requires IterComponents().Ok?
      ensures (forall a | 0 <= a < |IterComponents().value| ::
                 var e := IterComponents().value[a];
                 e.0 in COMPONENT_GROUPS && ComponentGroup(e.0).Ok? && (e.1, e.2) in ComponentGroup(e.0).value)
    {
      var m := groups;
      ConcatYieldsGroupEntries(COMPONENT_GROUPS, g => ComponentGroupOf(m, g));
    }

    /** `iter_components` yields every entry of every group. */
    lemma IterComponentsYieldsEveryEntry(g: string, e: (Option<string>, Option<PipelineComponent>))
      requires Valid()
      requires IterComponents().Ok?
      requires g in COMPONENT_GROUPS && ComponentGroup(g).Ok? && e in ComponentGroup(g).value
      ensures (g, e.0, e.1) in IterComponents().value
    {
      var m := groups;
      var cg := h => ComponentGroupOf(m, h);
      ConcatYieldsEveryEntry(COMPONENT_GROUPS, cg);
      var k := PositionOf(COMPONENT_GROUPS, g);
      assert cg(COMPONENT_GROUPS[k]) == ComponentGroup(g);
    }

    /** `get_component`: `getattr(self, group)[name]`. */
    function GetComponent(group: string, name: string): Result<PipelineComponent>
      reads this
      requires Valid()
    {
      ComponentIn(Attribute(group), name)
    }
  
    /** `getattr(self, group)` rendered for `components` (see `GroupPipelinesCases`). */
    function GroupPipelinesOf(group: string): Result<GroupPipelines>
      reads this
      requires Valid()
      requires group in COMPONENT_GROUPS
    {
      GroupPipelinesIn(groups, group)
    }

    /** `components`: the pipeline entries of all nine groups, keyed and ordered by `COMPONENT_GROUPS`. */
    function Components(): Result<seq<(string, GroupPipelines)>>
      reads this
      requires Valid()
    {
      ComponentsIn(groups, COMPONENT_GROUPS)
    }

    /** The `components` property raises exactly when some multi-valued group is None. */
    lemma ComponentsNeedEveryMultiGroup()
      requires Valid()
      ensures (Components().Ok? <==>
               forall g | g in MULTIPLE_COMPONENT_GROUPS :: groups[g].members.Some?)
      ensures Components().Ok? ==> |Components().value| == |COMPONENT_GROUPS|
    {
      ComponentsNeedMultiGroups(groups);
    }

    // ---- editing -------------------------------------------------------------

    /** `add_component`: the new state is `Added` of the old one (see `AddedStoresComponent`). */
    method AddComponent(c: PipelineComponent) returns (r: Outcome)
      requires Valid()
      modifies this
      ensures Valid()
      ensures (old(Added(groups, services, c)).Err? ==>
                 r == Fail(old(Added(groups, services, c)).error) && groups == old(groups) && services == old(services))
      ensures old(Added(groups, services, c)).Ok? ==> r == Pass && (groups, services) == old(Added(groups, services, c)).value
    {
      var group := c.component.group;
      var slot := Attribute(group);
      if slot.None? {
        return Fail(AttributeError);
      }
      if !(slot.value.Many? && slot.value.members.Some?) {
        return Fail(TypeError);
      }
      var updated := Set(slot.value.members.value, c.component.name, c);
      WithMembersFrame(groups, services, group, updated);
      if group == "services" {
        services := updated;
      } else {
        groups := groups[group := Many(Some(updated))];
      }
      return Pass;
    }

    /** `remove_component`: the new state is `Removed` of the old one (see `RemovedDropsComponent`). */
    method RemoveComponent(group: string, name: string) returns (r: Outcome)
      requires Valid()
      modifies this
      ensures Valid()
      ensures (old(Removed(groups, services, group, name)).Err? ==>
                 r == Fail(old(Removed(groups, services, group, name)).error)
                 && groups == old(groups) && services == old(services))
      ensures (old(Removed(groups, services, group, name)).Ok? ==>
                 r == Pass && (groups, services) == old(Removed(groups, services, group, name)).value)
    {
      var slot := Attribute(group);
      if slot.None? {
        return Fail(AttributeError);
      }
      if !(slot.value.Many? && slot.value.members.Some?) {
        return Fail(TypeError);
      }
      if name !in Keys(slot.value.members.value) {
        return Fail(KeyError("'" + name + "'"));
      }
      var updated := Remove(slot.value.members.value, name);
      WithMembersFrame(groups, services, group, updated);
      if group == "services" {
        services := updated;
      } else {
        groups := groups[group := Many(Some(updated))];
      }
      return Pass;
    }

    // ---- prompted skills ----

    /** `_update_prompt_selector`: replaces the annotators group as `SelectorUpdate` computes it. */
    method UpdatePromptSelector() returns (r: Outcome)
      requires Valid()
      modifies this
      ensures Valid()
      ensures services == old(services)
      ensures (var u := SelectorUpdate(old(groups["skills"].members), old(groups["annotators"].members));
               (r.Fail? <==> u.Err?) &&
               (u.Err? ==> r == Fail(u.error) && groups == old(groups)) &&
               (u.Ok? ==> groups == old(groups)["annotators" := Many(Some(u.value))]))
    {
      var skills := groups["skills"].members;
      if skills.None? {
        return Fail(AttributeError);
      }
      var prompts := PromptsToConsider(skills.value);
      var annotators := groups["annotators"].members;
      if annotators.None? {
        return Fail(TypeError);
      }
      var selector := Get(annotators.value, "prompt_selector");
      if selector.None? {
        return Fail(KeyError("'prompt_selector'"));
      }
      var updated := selector.value.(service := WithEnvironment(selector.value.service, "PROMPTS_TO_CONSIDER", Join(prompts, ",")));
      var newAnnotators := Set(annotators.value, "prompt_selector", updated);
      assert SelectorUpdate(skills, annotators) == Ok(newAnnotators);
      PromptGroupsAreMultiple();
      ReplaceManyKeepsShape(groups, "annotators", Some(newAnnotators));
      groups := groups["annotators" := Many(Some(newAnnotators))];
      return Pass;
    }

    /**
     * `add_generative_prompted_skill`: stores the skill under its name, then
     * updates the prompt selector; when that update fails the skill stays
     * stored.
     */
    method AddGenerativePromptedSkill(c: PipelineComponent) returns (r: Outcome)
      requires Valid()
      modifies this
      ensures Valid()
      ensures services == old(services)
      ensures old(groups["skills"].members).None? ==> r == Fail(TypeError) && groups == old(groups)
      ensures (old(groups["skills"].members).Some? ==>
                 var skills := Set(old(groups["skills"].members.value), c.component.name, c);
                 var u := SelectorUpdate(Some(skills), old(groups["annotators"].members));
                 var stored := old(groups)["skills" := Many(Some(skills))];
                 (u.Err? ==> r == Fail(u.error) && groups == stored) &&
                 (u.Ok? ==> r == Pass && groups == stored["annotators" := Many(Some(u.value))]))
    {
      var skills := groups["skills"].members;
      if skills.None? {
        return Fail(TypeError);
      }
      var stored := Set(skills.value, c.component.name, c);
      PromptGroupsAreMultiple();
      ReplaceManyKeepsShape(groups, "skills", Some(stored));
      groups := groups["skills" := Many(Some(stored))];
      assert groups["skills"].members == Some(stored);
      r := UpdatePromptSelector();
    }

    /**
     * `remove_generative_prompted_skill`: deletes the named skill, then
     * updates the prompt selector; when that update fails the skill stays
     * deleted.
     */
    method RemoveGenerativePromptedSkill(name: string) returns (r: Outcome)
      requires Valid()
      modifies this
      ensures Valid()
      ensures services == old(services)
      ensures old(groups["skills"].members).None? ==> r == Fail(TypeError) && groups == old(groups)
      ensures (old(groups["skills"].members).Some? && name !in Keys(old(groups["skills"].members.value)) ==>
                 r == Fail(KeyError("'" + name + "'")) && groups == old(groups))
      ensures (old(groups["skills"].members).Some? && name in Keys(old(groups["skills"].members.value)) ==>
                 var skills := Remove(old(groups["skills"].members.value), name);
                 var u := SelectorUpdate(Some(skills), old(groups["annotators"].members));
                 var removed := old(groups)["skills" := Many(Some(skills))];
                 (u.Err? ==> r == Fail(u.error) && groups == removed) &&
                 (u.Ok? ==> r == Pass && groups == removed["annotators" := Many(Some(u.value))]))
    {
      var skills := groups["skills"].members;
      if skills.None? {
        return Fail(TypeError);
      }
      if name !in Keys(skills.value) {
        return Fail(KeyError("'" + name + "'"));
      }
      PromptGroupsAreMultiple();
      ReplaceManyKeepsShape(groups, "skills", Some(Remove(skills.value, name)));
      groups := groups["skills" := Many(Some(Remove(skills.value, name)))];
      r := UpdatePromptSelector();
    }

    // ---- compose generation ----

    /** The compose entries and ports both loops of `generate_compose` collect. */
    function Gather(gen: ServiceDef -> Container): Result<Gathered>
      reads this
      requires Valid()
    {
      var items :- IterComponents();
      var collected :- GatherComponents(items, Gathered([], []), gen);
      GatherServices(services, collected, gen)
    }

    /** The loops of `generate_compose` that collect the services and their ports. */
    method GatherAll(gen: ServiceDef -> Container) returns (r: Result<Gathered>)
      requires Valid()
      ensures r == Gather(gen)
    {
      var items := IterComponents();
      if items.Err? {
        return Err(items.error);
      }
      var collected := GatherComponentsLoop(items.value, gen);
      if collected.Err? {
        return Err(collected.error);
      }
      r := GatherServicesLoop(services, collected.value, gen);
    }

    /**
     * `generate_compose`: one compose entry per host, with the agent's
     * WAIT_HOSTS set to the non-agent hosts and the agent's entry written
     * last under "agent".  `gen` stands for each service's own
     * `generate_compose`.
     */
    method GenerateCompose(gen: ServiceDef -> Container) returns (r: Result<ComposeDoc>)
      requires Valid()
      modifies this
      ensures Valid()
      ensures services == old(services)
      ensures old(Gather(gen)).Err? ==> r == Err(old(Gather(gen)).error) && groups == old(groups)
      ensures (old(Gather(gen)).Ok? ==>
                 groups == old(groups)["last_chance_service" := One(Some(Waiting(old(Agent()), old(Gather(gen)).value)))]
                 && r == Ok(ComposeOf(old(Agent()), old(Gather(gen)).value, gen)))
    {
      var gathered := GatherAll(gen);
      if gathered.Err? {
        return Err(gathered.error);
      }
      var waitHosts := WaitHostList(gathered.value.ports);
      var agent := Agent();
      agent := agent.(service := WithEnvironment(agent.service, "WAIT_HOSTS", Join(waitHosts, ", ")));
      ReplaceAgentKeepsShape(groups, Some(agent));
      groups := groups["last_chance_service" := One(Some(agent))];
      var allServices := Set(gathered.value.services, "agent", gen(agent.service));
      return Ok(ComposeDoc(DEFAULT_COMPOSE_VERSION, allServices));
    }
  }

  /**
   * `Pipeline(...)`: validating the agent services first, so that a missing
   * or disagreeing last-chance or timeout service raises instead of giving a
   * pipeline.
   */
  method NewPipeline(lastChanceService: Option<PipelineComponent>, timeoutService: Option<PipelineComponent>,
                     annotators: Option<Dict<string, PipelineComponent>>, skills: Option<Dict<string, PipelineComponent>>,
                     responseSelectors: Option<Dict<string, PipelineComponent>>,
                     responseAnnotators: Option<Dict<string, PipelineComponent>>,
                     responseAnnotatorSelectors: Option<PipelineComponent>,
                     candidateAnnotators: Option<Dict<string, PipelineComponent>>,
                     skillSelectors: Option<Dict<string, PipelineComponent>>,
                     extraServices: Option<Dict<string, PipelineComponent>>)
    returns (r: Result<Pipeline>)
    ensures r.Err? <==> PairCheck(lastChanceService, timeoutService).Fail?
    ensures r.Err? ==> r.error == PairCheck(lastChanceService, timeoutService).error
    ensures r.Ok? ==> fresh(r.value) && r.value.Valid() && r.value.Agent() == lastChanceService.value
    ensures r.Ok? ==> r.value.groups["skills"] == Many(skills) && r.value.services == extraServices.GetOr([])
  {
    var agent := ValidateAgentServices([lastChanceService, timeoutService]);
    if agent.Err? {
      return Err(agent.error);
    }
    var args := [lastChanceService, timeoutService];
    assert PairCheck(args[0], args[1]).Pass?;
    var p := new Pipeline(lastChanceService, timeoutService, annotators, skills, responseSelectors, responseAnnotators,
                          responseAnnotatorSelectors, candidateAnnotators, skillSelectors, extraServices);
    return Ok(p);
  }

  /**
   * The annotators group after `_update_prompt_selector`: the prompt
   * selector's PROMPTS_TO_CONSIDER becomes the comma-joined prompt names of
   * the skills.  A skills group that is None has no `.items()`, an
   * annotators group that is None is not subscriptable, and a missing prompt
   * selector is a KeyError.
   */
  function SelectorUpdate(skills: Option<Dict<string, PipelineComponent>>,
                          annotators: Option<Dict<string, PipelineComponent>>): Result<Dict<string, PipelineComponent>>
  {
    if skills.None? then Err(AttributeError)
    else if annotators.None? then Err(TypeError)
    else
      var selector := Get(annotators.value, "prompt_selector");
      if selector.None? then Err(KeyError("'prompt_selector'"))
      else
        var prompts := Join(PromptNames(skills.value), ",");
        Ok(Set(annotators.value, "prompt_selector",
               selector.value.(service := WithEnvironment(selector.value.service, "PROMPTS_TO_CONSIDER", prompts))))
  }

  /**
   * Only the prompt selector changes, and only in PROMPTS_TO_CONSIDER, which
   * then lists the skills' prompt names; the errors come in the order the
   * code meets them.
   */
  lemma SelectorUpdateChangesOnlyPrompts(skills: Option<Dict<string, PipelineComponent>>,
                                         annotators: Option<Dict<string, PipelineComponent>>)
    ensures skills.None? ==> SelectorUpdate(skills, annotators) == Err(AttributeError)
    ensures skills.Some? && annotators.None? ==> SelectorUpdate(skills, annotators) == Err(TypeError)
    ensures (skills.Some? && annotators.Some? && "prompt_selector" !in Keys(annotators.value) ==>
               SelectorUpdate(skills, annotators) == Err(KeyError("'prompt_selector'")))
    ensures (skills.Some? && annotators.Some? && "prompt_selector" in Keys(annotators.value) ==>
               var r := SelectorUpdate(skills, annotators);
               var before := Get(annotators.value, "prompt_selector").value;
               var after := Get(r.value, "prompt_selector");
               r.Ok? && Keys(r.value) == Keys(annotators.value) &&
               after.Some? && after.value.component == before.component &&
               after.value.service.service == before.service.service &&
               Get(after.value.service.environment, "PROMPTS_TO_CONSIDER") == Some(Join(PromptNames(skills.value), ",")) &&
               (forall k | k != "PROMPTS_TO_CONSIDER" ::
                  Get(after.value.service.environment, k) == Get(before.service.environment, k)) &&
               (forall n | n != "prompt_selector" :: Get(r.value, n) == Get(annotators.value, n)))
  {
  }

  /** The index of the first occurrence of `x` in `s`. */
  function PositionOf(s: seq<string>, x: string): (i: nat)
    requires x in s
    ensures i < |s| && s[i] == x && x !in s[..i]
  {
    if s[0] == x then 0
    else
      assert x in s[1..];
      var i := 1 + PositionOf(s[1..], x);
      assert s[..i] == [s[0]] + s[1..][..i - 1];
      i
  }

  /** In distinct names, a name of a prefix keeps its position, which lies inside the prefix. */
  lemma PositionInPrefix(s: seq<string>, n: nat, x: string)
    requires n <= |s| && x in s[..n]
    ensures x in s && PositionOf(s, x) == PositionOf(s[..n], x) < n
  {
    var i := PositionOf(s[..n], x);
    var j := PositionOf(s, x);
    assert s[..n][..i] == s[..i];
    assert forall k | 0 <= k < i :: s[..i][k] == s[k];
    assert forall k | 0 <= k < j :: s[..j][k] == s[k];
  }

  /** The first loop of `generate_compose`: a url that cannot be used records the component as "agent". */
  method GatherComponentsLoop(items: seq<(string, Option<string>, Option<PipelineComponent>)>, gen: ServiceDef -> Container)
    returns (r: Result<Gathered>)
    ensures r == GatherComponents(items, Gathered([], []), gen)
  {
    var allServices: Dict<string, Container> := [];
    var allPorts: Dict<string, Option<string>> := [];
    var i := 0;
    while i < |items|
      invariant 0 <= i <= |items|
      invariant GatherComponents(items, Gathered([], []), gen) == GatherComponents(items[i..], Gathered(allServices, allPorts), gen)
    {
      assert items[i..][0] == items[i] && items[i..][1..] == items[i + 1..];
      var component := items[i].2;
      if component.None? {
        return Err(AttributeError);
      }
      var address := ComponentAddress(component.value);
      var host, port;
      if address.Ok? {
        host, port := address.value.host, Some(address.value.port);
      } else {
        host, port := "agent", None;
      }
      allServices := Set(allServices, host, gen(component.value.service));
      allPorts := Set(allPorts, host, port);
      i := i + 1;
    }
    return Ok(Gathered(allServices, allPorts));
  }

  /** The second loop of `generate_compose`, over the extra services: url errors propagate. */
  method GatherServicesLoop(svcs: seq<(string, PipelineComponent)>, acc: Gathered, gen: ServiceDef -> Container)
    returns (r: Result<Gathered>)
    ensures r == GatherServices(svcs, acc, gen)
  {
    var gathered := acc;
    var i := 0;
    while i < |svcs|
      invariant 0 <= i <= |svcs|
      invariant GatherServices(svcs, acc, gen) == GatherServices(svcs[i..], gathered, gen)
    {
      assert svcs[i..][0] == svcs[i] && svcs[i..][1..] == svcs[i + 1..];
      var address := ComponentAddress(svcs[i].1);
      if address.Err? {
        return Err(address.error);
      }
      gathered := Record(gathered, address.value.host, Some(address.value.port), gen(svcs[i].1.service));
      i := i + 1;
    }
    return Ok(gathered);
  }

  /** `_update_prompt_selector`'s loop over the skills, collecting prompt names. */
  method PromptsToConsider(skills: seq<(string, PipelineComponent)>) returns (prompts: seq<string>)
    ensures prompts == PromptNames(skills)
  {
    prompts := [];
    var i := 0;
    while i < |skills|
      invariant 0 <= i <= |skills|
      invariant PromptNames(skills) == prompts + PromptNames(skills[i..])
    {
      var p := PromptOf(skills[i]);
      PromptNamesStep(skills, i, prompts);
      if p.Some? {
        prompts := prompts + [p.value];
      }
      i := i + 1;
    }
    assert skills[i..] == [];
  }
}
