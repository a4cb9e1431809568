# deeppavlov_dreamtools — a verified model of the distribution core

This project models, in Dafny, the in-memory core of `deeppavlov_dreamtools`: the
tooling that describes a Dream assistant *distribution*. A distribution is a pipeline
configuration (`pipeline_conf.json`: groups of named services, each with a connector
and the services it requires), together with up to four deployment documents
(`docker-compose.override.yml`, `dev.yml`, `proxy.yml`, `local.yml`: container
definitions keyed by container name) and the newer `Pipeline` object that groups
components by pipeline group.

The model follows the repository's modules:

| module | file | models |
|---|---|---|
| `Wrappers`, `Dicts`, `Text`, `Json`, `PurePath` | `wrappers.dfy`, `dicts.dfy`, `text.dfy`, `json.dfy`, `pure_path.dfy` | Python's values and errors, insertion-ordered `dict`s, the `str` operations the code uses (`split`, `split(maxsplit=1)`, `join`, `startswith`, `str.split()`, `int()`), JSON/YAML values and `pathlib` paths |
| `Utils` | `utils.dfy` | `utils.py`: the connector-url codec, `iter_field_keys_values`, the distribution path resolvers and `resolve_all_paths` |
| `Generics` | `generics.dfy` | `distconfigs/generics.py`: the closed schema records, `container_name`, the group lists, `port_definitions` and the memory validator |
| `Components` | `components.dfy` | `distconfigs/components.py`: how `DreamComponent.from_component_dir` picks a component's pipeline entry |
| `PipelineGraph` | `pipeline.dfy` | `distconfigs/pipeline.py`: the `Pipeline` class, its group constants, lookup, add and remove, the prompt selector and `generate_compose` |
| `ComposeConfigs` | `compose_configs.dfy` | the `YmlDreamConfig` hierarchy of `distconfigs/assistant_dists.py`: filter, add and remove, and each document's `discover_port` |
| `DreamPipelines` | `dream_pipeline.dfy` | the `DreamPipeline` class of `distconfigs/assistant_dists.py`: service iteration, name selection, the requirement walk, `filter_services`, add and remove, `resolve_container_name` and `discover_port` |
| `AssistantDists` | `assistant_dist.dfy` | the `AssistantDist` class: the load-flag rule, the path setters, `clone`, add and remove across documents, the temporary-config staging, `check_ports` and `add_dff_skill` |
| `Manager` | `manager.dfy` | `distconfigs/manager.py`, the older manager: its url parser, `add_service`, the flag loader, the path resolvers and `iter_configs` |
| `Swarm` | `swarm.dfy` | `deployer/swarm.py`: the `docker stack deploy` command built from a distribution |

Objects whose fields the code updates in place (`Pipeline`, `YmlDreamConfig`,
`DreamPipeline`, `AssistantDist`, the older `YmlDreamConfig`) are Dafny classes. Their
methods state the new state against a function of the old state, and that function's
properties are proved as lemmas. Records are datatypes. Python exceptions are the
`Err`/`Fail` side of `Result`/`Outcome`, carrying the exception's class and, where
the code reads it, its message. Generators are modelled as the sequence they yield,
together with the exception that ends them, if any (`Stream`).

Three things the code relies on are parameters of the model:
- the file system is a set of existing paths and directories (`Disk`);
- the constants module (`ASSISTANT_DISTS_DIR_NAME`, `SKILLS_DIR_NAME`, `NON_SERVICES`) is not part of this model, so those values are parameters;
- the command regular expression of `port_definitions` (`findPort`) and the float-likeness test of the memory validator (`floatLike`) are opaque function parameters.

The repository's files come from different revisions, and they do not type-check
together. Where `assistant_dists.py` and `pipeline.py` read fields that the schema in
`generics.py` does not declare, the model gives each function the fields it reads.
Where the code and its own tests disagree, the model follows the code. One case:
`deeppavlov_dreamtools/tests/test_deployer.py:51-57` expects a deploy command over
`docker-compose.yml` and `test_deployment.yml` and a root without a trailing slash.
What is modelled is what `swarm.py` builds.

## Model

| member | source | states |
|---|---|---|
| Utils.ParseConnectorUrl | deeppavlov_dreamtools/utils.py:39-51 | succeeds exactly when the url is a string whose `host:port` part has one ':'; every failure is a ValueError; host and port hold no ':' or '/'; the scheme-free url is `host:port` with endpoint "" or `host:port/endpoint` |
| Utils.EmptyUrlRejected | deeppavlov_dreamtools/utils.py:30-45 | the empty string is rejected with ValueError, not answered with three Nones |
| Utils.NonStringUrlRejected | deeppavlov_dreamtools/utils.py:39-45 | a value that is not a string (None) gives the format ValueError |
| Utils.LastPieceAfter | deeppavlov_dreamtools/utils.py:40 | whatever precedes the last "//" is dropped, so the scheme is neither required nor checked |
| Utils.AuthorityOf | deeppavlov_dreamtools/utils.py:41-43 | only the first '/' after `host:port` splits off the endpoint; later '/' stay in it |
| Utils.ParseBuildRoundTrip | deeppavlov_dreamtools/utils.py:39-51 | parsing `scheme://host:port/endpoint` gives back exactly (host, port, endpoint), the port as text, when host and port hold no ':' or '/' and the endpoint holds no "//" and does not start with '/' |
| Utils.ParseNoEndpoint | deeppavlov_dreamtools/utils.py:47-49 | with no '/' after `host:port` the endpoint is "", never absent |
| Utils.LeadingSlashEndpointRejected | deeppavlov_dreamtools/utils.py:40-45 | an endpoint starting with '/' makes a second "//", and the url is then rejected |
| Utils.IterFieldKeysValues | deeppavlov_dreamtools/utils.py:149-166 | every yielded pair has the searched key |
| Utils.IterFieldKeysValuesComplete | deeppavlov_dreamtools/utils.py:155-166 | a value is yielded exactly when it sits under the key in the object, in a nested object, or in an object directly inside a list, never below a matching key |
| Utils.EntryValueComplete | deeppavlov_dreamtools/utils.py:160-166 | the value of another key is searched iff it is an object or a list |
| Utils.IterItemsComplete | deeppavlov_dreamtools/utils.py:163-166 | of a list only the objects directly in it are searched; nested lists are skipped |
| Utils.ResolveNameAndDreamRoot | deeppavlov_dreamtools/utils.py:134-146 | the name is the last segment and the root the path less its last two segments; a path of fewer than two segments raises IndexError |
| Utils.ResolveRoundTrip | deeppavlov_dreamtools/utils.py:119-146 | for a single-segment name n, `root/<dists dir>/n` resolves back to (n, root) |
| Utils.ResolveNameRoundTrip | deeppavlov_dreamtools/utils.py:119-146 | conversely a path of two or more segments is rebuilt from its name, root and directory |
| Utils.ResolveArgumentsAgree | deeppavlov_dreamtools/utils.py:105-146 | for a one-segment name and a truthy root, naming the distribution by name and root and naming it by the path `resolve_dist_path` builds give the same path, name and root; a given path wins over any name and root passed beside it |
| Utils.ResolveAllPathsAsWritten | deeppavlov_dreamtools/utils.py:105-116 | the path check rejects only a path that does not exist and yet is a directory |
| Utils.AsWrittenNeverRejects | deeppavlov_dreamtools/utils.py:113-114 | on any disk where directories exist, that check never fires |
| Utils.AsWrittenAcceptsMissing | deeppavlov_dreamtools/utils.py:113-114 | a missing distribution is accepted |
| Utils.ResolveAllPaths | deeppavlov_dreamtools/utils.py:103-116 | the corrected check: success implies an existing directory, and an existing directory is always accepted |
| Generics.ValidateFields | deeppavlov_dreamtools/distconfigs/generics.py:23-26 | a record is accepted iff every given field is declared and every required field is given; otherwise ValueError |
| Generics.LocalAcceptsContainers | deeppavlov_dreamtools/distconfigs/generics.py:165-229 | every valid override or proxy container is a valid local container |
| Generics.DevContainerFields | deeppavlov_dreamtools/distconfigs/generics.py:223-225 | a dev container holds only volumes and ports, and must hold ports |
| Generics.ServiceNeedsConnector | deeppavlov_dreamtools/distconfigs/generics.py:39-46 | a service is valid iff it has a connector |
| Generics.CheckMemoryFormat | deeppavlov_dreamtools/distconfigs/generics.py:138-151 | the value is returned unchanged iff its last character is G or M and the rest reads as a float; the empty value raises IndexError, other failures ValueError |
| Generics.EditableGroupsAreGroups | deeppavlov_dreamtools/distconfigs/generics.py:61-86 | each editable group is a services group, never a flat key; skill_selectors is not among them |
| Generics.ContainerNameOfBuiltUrl | deeppavlov_dreamtools/distconfigs/generics.py:48-58 | a connector written `scheme://host:port/endpoint` names the container `host` |
| Generics.ComposeDocDefaults | deeppavlov_dreamtools/distconfigs/generics.py:232-239 | a document rebuilt from its own services and version is itself; leaving the version out is the same as giving "3.7" |
| Generics.EnvPairs | deeppavlov_dreamtools/distconfigs/generics.py:203-208 | a map or absent environment always gives pairs; a list gives one pair per entry iff each entry has exactly one '='; failure is ValueError |
| Generics.ListPairs | deeppavlov_dreamtools/distconfigs/generics.py:205-206 | each pair is its entry split at its '=' |
| Generics.EnvPortDefinitionsOfPairs | deeppavlov_dreamtools/distconfigs/generics.py:210-218 | every environment port definition comes from a PORT pair with that value, and every PORT pair gives one |
| Generics.EnvironmentPairs | deeppavlov_dreamtools/distconfigs/generics.py:203-208 | the loop over the list computes `EnvPairs` |
| Generics.PortEntries | deeppavlov_dreamtools/distconfigs/generics.py:210-218 | the loop over the pairs computes `EnvPortDefinitions` |
| Generics.PortDefinitions | deeppavlov_dreamtools/distconfigs/generics.py:175-220 | evidence in order: command match, then SERVICE_PORT, then each PORT entry; a non-string command raises TypeError, a missing build AttributeError, missing build args TypeError |
| Generics.PortDefinitionsByKey | deeppavlov_dreamtools/distconfigs/generics.py:175-220 | of the evidence, a command entry exists iff the command matches, comes first and holds the matched port; a build entry exists iff SERVICE_PORT is a build argument and holds its value; every other entry is an environment entry of a PORT pair, and every PORT pair is present |
| Components.RekeyReportsMissingContainer | deeppavlov_dreamtools/distconfigs/components.py:57-82 | success passes through unchanged; any KeyError becomes the "container does not exist in <document>" KeyError; other errors pass through; rekeying twice is rekeying once |
| Components.FromComponentDir | deeppavlov_dreamtools/distconfigs/components.py:47-84 | the method, loop included, computes `Load` on the loaded card and pipeline documents |
| Components.SelectEntry | deeppavlov_dreamtools/distconfigs/components.py:62-79 | the loop gives the first error raised, else the last picked entry, else the whole pipeline document |
| Components.Examine | deeppavlov_dreamtools/distconfigs/components.py:66-76 | the loop body computes the entry's verdict |
| Components.ScanKeepsError | deeppavlov_dreamtools/distconfigs/components.py:63-82 | once an entry raises, the scan raises that error |
| Components.ScanRaisesFirstError | deeppavlov_dreamtools/distconfigs/components.py:63-82 | the scan raises iff some entry raises, and then with the first such entry's error |
| Components.ScanSelectsLastPicked | deeppavlov_dreamtools/distconfigs/components.py:64-79 | a scan that raises nothing selects the last picked entry, or nothing when none is picked |
| Components.VerdictCases | deeppavlov_dreamtools/distconfigs/components.py:66-76 | an entry with no group raises; another group is skipped; without an endpoint the group alone picks; with one, a falsy url raises the "not defined" ValueError and a pick has a url with that endpoint |
| Components.PickedWithoutEndpoint | deeppavlov_dreamtools/distconfigs/components.py:66-76 | without an endpoint an entry is picked iff its group is the requested one |
| Components.PickedWithEndpoint | deeppavlov_dreamtools/distconfigs/components.py:66-72 | with an endpoint an entry is picked iff its group matches and its url parses with that endpoint |
| Components.UrlVerdictPicks | deeppavlov_dreamtools/distconfigs/components.py:69-72 | the endpoint test passes iff the url is a string that parses with that endpoint |
| Components.LoadFields | deeppavlov_dreamtools/distconfigs/components.py:47-84 | a container missing from the card raises the KeyError naming the card; a loaded component records directory, container, group and endpoint, and its config is the card's entry |
| Components.NothingPickedKeepsDocument | deeppavlov_dreamtools/distconfigs/components.py:53-84 | when no entry is picked nothing is raised and the pipeline stays the whole loaded document |
| Components.MissingPipelineContainer | deeppavlov_dreamtools/distconfigs/components.py:64-82 | a container missing from the pipeline document raises the KeyError naming that document |
| PipelineGraph.ComponentGroupsPartition | deeppavlov_dreamtools/distconfigs/pipeline.py:15-38 | `COMPONENT_GROUPS` is exactly the single- and multi-valued groups, each once, and the two kinds are disjoint |
| PipelineGraph.PairCheck | deeppavlov_dreamtools/distconfigs/pipeline.py:73-75 | a pair agrees iff both services are present with equal service records; a disagreement raises "<file> != <file>", a missing one AttributeError |
| PipelineGraph.ValidateAgentServices | deeppavlov_dreamtools/distconfigs/pipeline.py:71-77 | succeeds iff there is a first argument and every pair agrees, returning the first; otherwise the error of the first failing pair in combination order; no argument raises IndexError |
| PipelineGraph.AgentServicesAgree | deeppavlov_dreamtools/distconfigs/pipeline.py:71-77 | with two or more services, all pairs agree iff all are present and equal to the first |
| PipelineGraph.ComponentAddressOfBuiltUrl | deeppavlov_dreamtools/distconfigs/pipeline.py:122-126 | a component whose inline connector has the url `scheme://host:port/endpoint` has that address and is recorded under its host with its port |
| PipelineGraph.RecordedUnderContainerName | deeppavlov_dreamtools/distconfigs/pipeline.py:122-126 | a component is recorded with a port exactly when `container_name` of a service with the same connector names a container, and then under that name; otherwise under "agent" |
| PipelineGraph.Record | deeppavlov_dreamtools/distconfigs/pipeline.py:128-136 | a host is added once, at the end, in first-insertion order |
| PipelineGraph.WaitHostsAreNonAgentHosts | deeppavlov_dreamtools/distconfigs/pipeline.py:138 | WAIT_HOSTS lists exactly the non-agent hosts, each as `host:port` |
| PipelineGraph.WaitHostsInOrder | deeppavlov_dreamtools/distconfigs/pipeline.py:138 | WAIT_HOSTS keeps the order of the ports mapping |
| PipelineGraph.ComposeAgentEntry | deeppavlov_dreamtools/distconfigs/pipeline.py:138-141 | the document's "agent" entry is the agent's own service with WAIT_HOSTS set to the ", "-joined hosts, other environment values kept; every other entry is the gathered one |
| PipelineGraph.GatherRecordsEveryHost | deeppavlov_dreamtools/distconfigs/pipeline.py:121-129 | every component is recorded under its url host, or "agent" when its url is unusable, so such components are overwritten by the agent entry |
| PipelineGraph.PromptNames | deeppavlov_dreamtools/distconfigs/pipeline.py:83-88 | at most one prompt name per skill |
| PipelineGraph.PromptNamesStep | deeppavlov_dreamtools/distconfigs/pipeline.py:85-88 | each skill adds its prompt name, if it has one, after those of the skills before it |
| PipelineGraph.PromptNamesFromPromptFiles | deeppavlov_dreamtools/distconfigs/pipeline.py:85-88 | every skill with a non-empty PROMPT_FILE contributes its stem, and every name comes from such a skill |
| PipelineGraph.PromptsToConsiderSplits | deeppavlov_dreamtools/distconfigs/pipeline.py:90-92 | PROMPTS_TO_CONSIDER splits back into the names when none holds a comma |
| PipelineGraph.EntriesOf | deeppavlov_dreamtools/distconfigs/pipeline.py:249-255 | a rendered group maps the same names to each component's pipeline entry |
| PipelineGraph.InitialGroupsShaped | deeppavlov_dreamtools/distconfigs/pipeline.py:60-68 | the constructor's attributes have their shapes and hold the agent as the last-chance service |
| PipelineGraph.ComponentGroupEntries | deeppavlov_dreamtools/distconfigs/pipeline.py:94-99 | a single-valued group gives its one unnamed entry; a multi-valued group with a mapping one named entry per key, in key order, each holding the stored component, and every key appears |
| PipelineGraph.ConcatYieldsGroupEntries | deeppavlov_dreamtools/distconfigs/pipeline.py:101-104 | every yielded entry is an entry of the group it is tagged with |
| PipelineGraph.ConcatYieldsEveryEntry | deeppavlov_dreamtools/distconfigs/pipeline.py:101-104 | every entry of every group is yielded |
| PipelineGraph.ConcatInOrder | deeppavlov_dreamtools/distconfigs/pipeline.py:101-104 | entries come group by group in the order of the group names |
| PipelineGraph.GetComponentCases | deeppavlov_dreamtools/distconfigs/pipeline.py:258-259 | `getattr(self, group)[name]` succeeds iff the group is a multi-valued group whose mapping holds the name or is `services` holding it, giving the stored component; TypeError for a single-valued group, `agent`, metadata-like attributes and methods, or a None group; AttributeError for any other name |
| PipelineGraph.AttributeCases | deeppavlov_dreamtools/distconfigs/pipeline.py:40-289 | the attributes are the nine groups, `services` and `agent`, plus the instance's `_config` and `metadata`, the class constants and the methods; subscripting `agent` or any of the latter raises TypeError; every other name is missing |
| PipelineGraph.WithMembersFrame | deeppavlov_dreamtools/distconfigs/pipeline.py:269-285 | storing a group's new mapping changes that attribute only and keeps the agent |
| PipelineGraph.AddedStoresComponent | deeppavlov_dreamtools/distconfigs/pipeline.py:261-270 | after adding, the component is found under its group and name (an existing one overwritten), every other lookup is unchanged, and it fails iff the group names no mapping; the single-group guard never fires |
| PipelineGraph.RemovedDropsComponent | deeppavlov_dreamtools/distconfigs/pipeline.py:276-285 | removing succeeds iff the name is found, then it is gone and every other lookup is unchanged (dependants untouched); otherwise the lookup's error, KeyError for a missing name |
| PipelineGraph.GroupPipelinesCases | deeppavlov_dreamtools/distconfigs/pipeline.py:247-255 | a single-valued group renders its pipeline entry, `{}` when unset; a multi-valued one its mapping, or AttributeError when None |
| PipelineGraph.ComponentsInEntries | deeppavlov_dreamtools/distconfigs/pipeline.py:245-256 | one rendered entry per group in the order given; the first failing group raises |
| PipelineGraph.ComponentsNeedMultiGroups | deeppavlov_dreamtools/distconfigs/pipeline.py:245-256 | `components` raises exactly when some multi-valued group is None |
| PipelineGraph.Pipeline.constructor | deeppavlov_dreamtools/distconfigs/pipeline.py:40-69 | the attributes as given, `services or {}`, and the last-chance service as agent |
| PipelineGraph.Pipeline.IterComponentsInGroupOrder | deeppavlov_dreamtools/distconfigs/pipeline.py:101-104 | `iter_components` visits the groups in `COMPONENT_GROUPS` order |
| PipelineGraph.Pipeline.IterComponentsYieldsGroupEntries | deeppavlov_dreamtools/distconfigs/pipeline.py:101-104 | it yields only entries of the groups, tagged with their group |
| PipelineGraph.Pipeline.IterComponentsYieldsEveryEntry | deeppavlov_dreamtools/distconfigs/pipeline.py:101-104 | it yields every entry of every group |
| PipelineGraph.Pipeline.ComponentsNeedEveryMultiGroup | deeppavlov_dreamtools/distconfigs/pipeline.py:244-256 | `components` has nine entries, and raises iff a multi-valued group is None |
| PipelineGraph.Pipeline.AddComponent | deeppavlov_dreamtools/distconfigs/pipeline.py:261-270 | the new state is `Added` of the old one; on error nothing changes |
| PipelineGraph.Pipeline.RemoveComponent | deeppavlov_dreamtools/distconfigs/pipeline.py:276-285 | the new state is `Removed` of the old one; on error nothing changes |
| PipelineGraph.Pipeline.UpdatePromptSelector | deeppavlov_dreamtools/distconfigs/pipeline.py:82-92 | only the annotators group changes, as `SelectorUpdate` computes it |
| PipelineGraph.Pipeline.AddGenerativePromptedSkill | deeppavlov_dreamtools/distconfigs/pipeline.py:272-274 | the skill is stored under its name, then the selector is updated; a failing update leaves the skill stored |
| PipelineGraph.Pipeline.RemoveGenerativePromptedSkill | deeppavlov_dreamtools/distconfigs/pipeline.py:287-289 | the skill is deleted (KeyError if absent), then the selector is updated; a failing update leaves it deleted |
| PipelineGraph.Pipeline.GatherAll | deeppavlov_dreamtools/distconfigs/pipeline.py:118-136 | the two loops compute `Gather` |
| PipelineGraph.Pipeline.GenerateCompose | deeppavlov_dreamtools/distconfigs/pipeline.py:117-142 | the agent gets WAIT_HOSTS and the document is `ComposeOf` the gathered entries; an error in the extra services propagates with nothing changed |
| PipelineGraph.NewPipeline | deeppavlov_dreamtools/distconfigs/pipeline.py:40-69 | construction fails iff the last-chance and timeout services disagree or one is missing, with that error; otherwise the agent is the last-chance service |
| PipelineGraph.SelectorUpdateChangesOnlyPrompts | deeppavlov_dreamtools/distconfigs/pipeline.py:82-92 | only the prompt selector's PROMPTS_TO_CONSIDER changes, to the ","-joined prompt names; errors in the order the code meets them |
| PipelineGraph.GatherComponentsLoop | deeppavlov_dreamtools/distconfigs/pipeline.py:121-129 | the first loop computes `GatherComponents` |
| PipelineGraph.GatherServicesLoop | deeppavlov_dreamtools/distconfigs/pipeline.py:131-136 | the second loop computes `GatherServices` |
| PipelineGraph.PromptsToConsider | deeppavlov_dreamtools/distconfigs/pipeline.py:83-88 | the loop computes `PromptNames` |
| ComposeConfigs.WithService | deeppavlov_dreamtools/distconfigs/assistant_dists.py:220-227 | the name maps to the definition (a new name last, an existing one in place), every other container and the version are kept |
| ComposeConfigs.WithoutService | deeppavlov_dreamtools/distconfigs/assistant_dists.py:245-256 | fails with KeyError iff the name is absent; otherwise exactly that container is gone and the version and the rest are kept |
| ComposeConfigs.Filtered | deeppavlov_dreamtools/distconfigs/assistant_dists.py:200-205 | exactly the named containers are kept, in the document's order, with the version |
| ComposeConfigs.AddThenRemove | deeppavlov_dreamtools/distconfigs/assistant_dists.py:208-262 | removing a container just added under a new name gives the document back |
| ComposeConfigs.YmlConfig.constructor | deeppavlov_dreamtools/distconfigs/assistant_dists.py:50-51 | the document wraps the given configuration |
| ComposeConfigs.YmlConfig.GetService | deeppavlov_dreamtools/distconfigs/assistant_dists.py:193-194 | a container is found iff its name is a key |
| ComposeConfigs.YmlConfig.FilterServices | deeppavlov_dreamtools/distconfigs/assistant_dists.py:200-206 | returns the names and a new document of the same kind holding `Filtered` |
| ComposeConfigs.YmlConfig.AddComponent | deeppavlov_dreamtools/distconfigs/assistant_dists.py:208-233 | this document's configuration becomes `WithService` of the old one (shared through the shallow copy); inplace returns this, otherwise a new document with the same content |
| ComposeConfigs.YmlConfig.RemoveComponent | deeppavlov_dreamtools/distconfigs/assistant_dists.py:235-262 | KeyError iff the name is absent, nothing changed; otherwise `WithoutService`, returned as for adding |
| ComposeConfigs.YmlConfig.DiscoverPort | deeppavlov_dreamtools/distconfigs/assistant_dists.py:264-265 | a name is looked up first; an override, dev or proxy document then applies its own port rule; a local document, which defines none, raises the base class's NotImplementedError |
| ComposeConfigs.IntOfRendered | deeppavlov_dreamtools/distconfigs/assistant_dists.py:530 | `int` gives back a number unchanged and reads back a rendered number; text that is not a number raises the "invalid literal" ValueError with that text |
| ComposeConfigs.ServicePortReadsArgument | deeppavlov_dreamtools/distconfigs/assistant_dists.py:518-532 | a SERVICE_PORT build argument `p` gives p; with no truthy SERVICE_PORT a PORT argument `p` gives p; with neither there is no port |
| ComposeConfigs.DiscoverCommandPort | deeppavlov_dreamtools/distconfigs/assistant_dists.py:534-552 | the token loop, with its early exit, computes `CommandPort`: no command gives no port, otherwise `ScanCommand` over the command split at whitespace |
| ComposeConfigs.ScanStopsAtListenAddress | deeppavlov_dreamtools/distconfigs/assistant_dists.py:544-548 | the first token starting "0.0.0.0" with a ':' ends the scan with the text after its first ':', whatever flags came before |
| ComposeConfigs.ScanFindsLastFlag | deeppavlov_dreamtools/distconfigs/assistant_dists.py:549-550 | without a listen address the port is the token after the last -p/--port |
| ComposeConfigs.TrailingFlagFails | deeppavlov_dreamtools/distconfigs/assistant_dists.py:549-550 | a flag in last place raises IndexError |
| ComposeConfigs.OverridePortAgrees | deeppavlov_dreamtools/distconfigs/assistant_dists.py:497-516 | a port found agrees with each lookup that found a truthy port, both lookups having succeeded; the same port from both lookups is the answer |
| ComposeConfigs.ReconcileAgrees | deeppavlov_dreamtools/distconfigs/assistant_dists.py:509-516 | a reconciled port is one of the two and equals each truthy one; whether the two reconcile does not depend on their order, nor does the answer when one is truthy, and it is then truthy |
| ComposeConfigs.DiscoverOverridePort | deeppavlov_dreamtools/distconfigs/assistant_dists.py:497-516 | the method computes `OverridePort` |
| ComposeConfigs.DevPortOfMapping | deeppavlov_dreamtools/distconfigs/assistant_dists.py:574-575 | a last mapping `host:p` gives p |
| ComposeConfigs.EnvironmentPortFailures | deeppavlov_dreamtools/distconfigs/assistant_dists.py:619-639 | a missing container raises AttributeError and a missing environment TypeError; a list without a PORT entry, or without a PROXY_PASS entry, makes that search end in `int(None)`, a TypeError |
| ComposeConfigs.EnvironmentPortOfLastEntry | deeppavlov_dreamtools/distconfigs/assistant_dists.py:619-628 | when the last PORT entry is `PORT=<p>` and every PORT entry has a '=', the environment port is p |
| ComposeConfigs.ProxyPassPortOfLastEntry | deeppavlov_dreamtools/distconfigs/assistant_dists.py:630-639 | when the last PROXY_PASS entry ends in `:<q>`, the proxy-pass port is q |
| ComposeConfigs.LastColonPiece | deeppavlov_dreamtools/distconfigs/assistant_dists.py:636-637 | the text after the last ':' of `x:q` is q when q holds no ':' |
| ComposeConfigs.DiscoverEnvironmentPort | deeppavlov_dreamtools/distconfigs/assistant_dists.py:619-628 | the loop computes `EnvironmentPort` |
| ComposeConfigs.DiscoverProxyPassPort | deeppavlov_dreamtools/distconfigs/assistant_dists.py:630-639 | the loop computes `ProxyPassPort` |
| ComposeConfigs.LastWithPrefix | deeppavlov_dreamtools/distconfigs/assistant_dists.py:619-639 | a found entry is among the entries and starts with the prefix |
| ComposeConfigs.ProxyPassIsLastEntry | deeppavlov_dreamtools/distconfigs/assistant_dists.py:634-639 | the proxy-pass port is the text after the last ':' of the last PROXY_PASS entry |
| ComposeConfigs.EnvPortIsLastEntry | deeppavlov_dreamtools/distconfigs/assistant_dists.py:623-628 | the environment port comes from the last entry starting with PORT |
| ComposeConfigs.EnvPortEntryWithoutValueFails | deeppavlov_dreamtools/distconfigs/assistant_dists.py:625-626 | a PORT entry without '=' raises IndexError |
| ComposeConfigs.ProxyPortOfEntries | deeppavlov_dreamtools/distconfigs/assistant_dists.py:588-617 | with the last PORT entry `PORT=<p>` and the last PROXY_PASS entry ending in `:<q>`, the proxy port is p when p equals q and the mismatch ValueError otherwise |
| ComposeConfigs.DiscoverProxyPort | deeppavlov_dreamtools/distconfigs/assistant_dists.py:588-617 | the method computes `ProxyPort` |
| DreamPipelines.Tag | deeppavlov_dreamtools/distconfigs/assistant_dists.py:297-299 | one entry per item of the group, in order, under the group's name |
| DreamPipelines.EntriesAreListed | deeppavlov_dreamtools/distconfigs/assistant_dists.py:365-369 | everything `iter_services` yields is stored in one of the editable groups under its name |
| DreamPipelines.EntriesAreComplete | deeppavlov_dreamtools/distconfigs/assistant_dists.py:365-369 | when `iter_services` runs to the end it yields every entry of every editable group |
| DreamPipelines.SelectAllSound | deeppavlov_dreamtools/distconfigs/assistant_dists.py:294-307 | everything `_filter_services_by_name` yields is chosen by `Selection` from some entry |
| DreamPipelines.SelectAllComplete | deeppavlov_dreamtools/distconfigs/assistant_dists.py:294-307 | when no url fails to parse, every entry `Selection` chooses is yielded |
| DreamPipelines.SelectedByHost | deeppavlov_dreamtools/distconfigs/assistant_dists.py:298-303 | an entry with a url is yielded iff the url's host is named |
| DreamPipelines.SelectedByDashedName | deeppavlov_dreamtools/distconfigs/assistant_dists.py:304-307 | an entry with a reference connector is yielded under its dashed name iff that name is named |
| DreamPipelines.UrlLessNeverSelected | deeppavlov_dreamtools/distconfigs/assistant_dists.py:299-300 | a service whose connector has an empty url is never yielded |
| DreamPipelines.ResolveRequirement | deeppavlov_dreamtools/distconfigs/assistant_dists.py:314-318 | a requirement without '.' names nothing; a resolved one is stored in the list and is written `group.name` with no '.' in the group; a missing group is an AttributeError |
| DreamPipelines.WalkIsListed | deeppavlov_dreamtools/distconfigs/assistant_dists.py:309-320 | everything `_recursively_parse_requirements` yields is a service stored in the list under its group and name |
| DreamPipelines.WalkFromIsListed | deeppavlov_dreamtools/distconfigs/assistant_dists.py:313-320 | the same from any requirement on |
| DreamPipelines.UndottedRequirementsSkipped | deeppavlov_dreamtools/distconfigs/assistant_dists.py:315 | requirements without '.' are skipped, so a service naming only such requirements walks to nothing |
| DreamPipelines.Put | deeppavlov_dreamtools/distconfigs/assistant_dists.py:372-383 | `filtered[group][name] = service` stores the service and keeps the groups; a group `filtered` lacks is a KeyError |
| DreamPipelines.AsGroups | deeppavlov_dreamtools/distconfigs/assistant_dists.py:390 | the filtered groups become service-list attributes, one per group in order |
| DreamPipelines.AsGroupsKeys | deeppavlov_dreamtools/distconfigs/assistant_dists.py:390 | the attributes made are exactly the filtered groups, with no duplicates |
| DreamPipelines.FilteredList | deeppavlov_dreamtools/distconfigs/assistant_dists.py:386-390 | the new service list holds the four copied attributes unchanged |
| DreamPipelines.FilterServices | deeppavlov_dreamtools/distconfigs/assistant_dists.py:371-397 | on success the names asked for head the extended list, the connectors are kept, the metadata is dropped and the four single attributes are copied unchanged |
| DreamPipelines.RecordRequirementsNames | deeppavlov_dreamtools/distconfigs/assistant_dists.py:378-384 | recording a walk appends its names in order |
| DreamPipelines.RecordAllSelectedNames | deeppavlov_dreamtools/distconfigs/assistant_dists.py:375-384 | the name list grows by exactly the walked names |
| DreamPipelines.FilterServicesNames | deeppavlov_dreamtools/distconfigs/assistant_dists.py:371-397 | the extended name list is the names asked for followed by every walked requirement's name |
| DreamPipelines.FilterNeedsCopiedAttribute | deeppavlov_dreamtools/distconfigs/assistant_dists.py:386-389 | a service list lacking one of the copied attributes makes `filter_services` raise |
| DreamPipelines.ConformingListIsNeverFiltered | deeppavlov_dreamtools/distconfigs/assistant_dists.py:388 | a service list shaped as its schema declares has no `response_annotator_selectors`, so `filter_services` always raises on it |
| DreamPipelines.UndeclaredSelectors | deeppavlov_dreamtools/distconfigs/assistant_dists.py:388 | the schema does not declare `response_annotator_selectors` |
| DreamPipelines.AddService | deeppavlov_dreamtools/distconfigs/assistant_dists.py:419-420 | the group's mapping gains the service under the name; other attributes are kept; a missing group is AttributeError, a group that is not a mapping TypeError |
| DreamPipelines.RemoveService | deeppavlov_dreamtools/distconfigs/assistant_dists.py:444-451 | the group's mapping loses the name; a missing group and a missing name raise the two KeyErrors with their messages |
| DreamPipelines.AddThenRemoveService | deeppavlov_dreamtools/distconfigs/assistant_dists.py:399-463 | removing a service just added under a new name gives the service list back |
| DreamPipelines.DiscoverPortOfBuiltUrl | deeppavlov_dreamtools/distconfigs/assistant_dists.py:465-484 | a url written `scheme://host:p/endpoint` gives p |
| DreamPipelines.DreamPipeline.constructor | deeppavlov_dreamtools/distconfigs/assistant_dists.py:50-51 | the document wraps the given configuration |
| DreamPipelines.DreamPipeline.ReferenceKey | deeppavlov_dreamtools/distconfigs/assistant_dists.py:347-349 | a reference `connectors.<key>` is taken as a connectors-table reference and looked up under key |
| DreamPipelines.DreamPipeline.ResolveContainerNameOfBuiltUrl | deeppavlov_dreamtools/distconfigs/assistant_dists.py:338-363 | a connectors-table entry with the url `scheme://host:port/endpoint` names the container host, whether referenced or given inline; no table raises TypeError, a missing key the KeyError naming it |
| DreamPipelines.DreamPipeline.ResolvedNameIsContainerName | deeppavlov_dreamtools/distconfigs/assistant_dists.py:338-363 | for any connector that is not a "connectors…" reference the name is that of `container_name`, and None where `container_name` raises |
| DreamPipelines.DreamPipeline.SetDisplayName | deeppavlov_dreamtools/distconfigs/assistant_dists.py:322-328 | sets exactly the display name, which `display_name` then reads back; AttributeError and no change without metadata |
| DreamPipelines.DreamPipeline.SetDescription | deeppavlov_dreamtools/distconfigs/assistant_dists.py:334-336 | sets exactly the description; AttributeError and no change without metadata |
| DreamPipelines.DreamPipeline.AddComponent | deeppavlov_dreamtools/distconfigs/assistant_dists.py:399-431 | fails as `AddService` with no change; otherwise this configuration's services are `AddService` of the old (shared through the shallow copy); inplace returns this with the metadata dropped, otherwise a new document with connectors and services and no metadata |
| DreamPipelines.DreamPipeline.RemoveComponent | deeppavlov_dreamtools/distconfigs/assistant_dists.py:433-463 | as adding, with `RemoveService` and its errors |
| DreamPipelines.DreamPipeline.FilterServicesOf | deeppavlov_dreamtools/distconfigs/assistant_dists.py:371-397 | the loops compute `FilterServices`, returning a new document and leaving this one unchanged |
| DreamPipelines.RecordAllSelectedLoop | deeppavlov_dreamtools/distconfigs/assistant_dists.py:375-384 | the outer loop computes `RecordAllSelected` |
| DreamPipelines.RecordRequirementsLoop | deeppavlov_dreamtools/distconfigs/assistant_dists.py:378-384 | the inner loop computes `RecordRequirements` |
| AssistantDists.PlanLoadCases | deeppavlov_dreamtools/distconfigs/assistant_dists.py:772-790 | with every flag set all documents load; otherwise a deployment document loads exactly when its default file name is among the distribution's files |
| AssistantDists.PlanLoadIgnoresPartialFlags | deeppavlov_dreamtools/distconfigs/assistant_dists.py:772-779 | short of all five, which flags are set makes no difference |
| AssistantDists.DistPathCheck | deeppavlov_dreamtools/distconfigs/assistant_dists.py:721-740 | a new path passes iff it does not exist and its parent is the distributions directory; a taken path fails first with the "already exists" ValueError, a misplaced one with the "must contain" ValueError |
| AssistantDists.AcceptedPathResolves | deeppavlov_dreamtools/distconfigs/assistant_dists.py:721-740 | a path the setter accepts resolves back to its own last segment and the dream root |
| AssistantDists.RenamedPathStaysHome | deeppavlov_dreamtools/distconfigs/assistant_dists.py:705-727 | a free path with the last segment replaced passes the checks and ends in the new name |
| AssistantDists.PortTextFree | deeppavlov_dreamtools/distconfigs/assistant_dists.py:1146-1184 | a rendered port holds no ':', '/', '=' or space, so the readers cut it back out intact |
| AssistantDists.EndpointFree | deeppavlov_dreamtools/distconfigs/assistant_dists.py:1146 | the endpoint "respond" holds no "//" |
| AssistantDists.DffServicePort | deeppavlov_dreamtools/distconfigs/assistant_dists.py:1142-1152 | the new pipeline service's url parses to the dashed name as host and the given port |
| AssistantDists.DffListenWord | deeppavlov_dreamtools/distconfigs/assistant_dists.py:1163 | the listen address is one word cutting at ':' into "0.0.0.0" and the port |
| AssistantDists.DffCommandScan | deeppavlov_dreamtools/distconfigs/assistant_dists.py:1163 | the override command scan stops at the listen address |
| AssistantDists.DffCommandWordsFree | deeppavlov_dreamtools/distconfigs/assistant_dists.py:1163 | every word of the command is non-empty and holds no whitespace |
| AssistantDists.DffOverridePort | deeppavlov_dreamtools/distconfigs/assistant_dists.py:1156-1171 | the override container's build argument and command agree, so its port discovery gives the port |
| AssistantDists.DffArgumentPort | deeppavlov_dreamtools/distconfigs/assistant_dists.py:1159 | the SERVICE_PORT build argument gives the port unless it is 0, which is falsy |
| AssistantDists.DffCommandPort | deeppavlov_dreamtools/distconfigs/assistant_dists.py:1163 | the command's listen address carries the port |
| AssistantDists.DffDevPort | deeppavlov_dreamtools/distconfigs/assistant_dists.py:1174-1177 | the dev container publishes the port |
| AssistantDists.DffEnvironmentPort | deeppavlov_dreamtools/distconfigs/assistant_dists.py:1184 | the PORT entry is read, the PROXY_PASS entry skipped |
| AssistantDists.DffProxyPassPort | deeppavlov_dreamtools/distconfigs/assistant_dists.py:1184 | the PROXY_PASS entry is read, the PORT entry skipped |
| AssistantDists.DffProxyPort | deeppavlov_dreamtools/distconfigs/assistant_dists.py:1181-1186 | the proxy container's two entries agree on the port |
| AssistantDists.DistAddedReachesDocuments | deeppavlov_dreamtools/distconfigs/assistant_dists.py:1077-1086 | after `add_component` the pipeline holds the component, the override and the loaded dev and proxy documents hold its containers under the card's name, nothing else changes; it fails with the pipeline's error, or with AttributeError (the pipeline already changed) when no override document is loaded |
| AssistantDists.DistRemovedReachesDocuments | deeppavlov_dreamtools/distconfigs/assistant_dists.py:1088-1098 | after `remove_component` the pipeline no longer has the component and each loaded document lost the container named by its container name; a missing component or container fails, the earlier steps done |
| AssistantDists.WithoutServiceLoses | deeppavlov_dreamtools/distconfigs/assistant_dists.py:1094-1098 | removing from an unloaded document passes it over; a loaded one must hold the name, and only that name goes |
| AssistantDists.PipelineAddThenRemove | deeppavlov_dreamtools/distconfigs/pipeline.py:261-285 | removing a component just added under a new name gives the pipeline's state back |
| AssistantDists.GroupAddThenRemove | deeppavlov_dreamtools/distconfigs/pipeline.py:261-285 | the component group's mapping gets its old members back |
| AssistantDists.UpdateRestored | deeppavlov_dreamtools/distconfigs/pipeline.py:268-283 | writing a key and then its old value back gives the map back |
| AssistantDists.DistAddThenRemove | deeppavlov_dreamtools/distconfigs/assistant_dists.py:1077-1098 | `remove_component` undoes `add_component` when the card's name is the container name and nothing held the name before |
| AssistantDists.CloneFailures | deeppavlov_dreamtools/distconfigs/assistant_dists.py:957-969 | a clone fails exactly when the pipeline configuration, its metadata or the override document is missing (AttributeError), the agent is missing (KeyError) or its command is no string (TypeError) |
| AssistantDists.CloneKeepsContent | deeppavlov_dreamtools/distconfigs/assistant_dists.py:957-990 | a clone lives under the new name in the distributions directory, resolves back to it and the same root, keeps the pipeline, dev, proxy and local documents, and its pipeline configuration differs only in display name and description |
| AssistantDists.CloneRenamesOnlyAgentCommand | deeppavlov_dreamtools/distconfigs/assistant_dists.py:963-969 | in the clone's override document only the agent's command changes, every `assistant_dists/<old>/pipeline_conf.json` in it renamed to the new distribution's |
| AssistantDists.RenamedCommandUnchanged | deeppavlov_dreamtools/distconfigs/assistant_dists.py:964-968 | cloning under the same name, or with a command that never names `assistant_dists/<old>/pipeline_conf.json`, keeps the command |
| AssistantDists.RenamedConfPath | deeppavlov_dreamtools/distconfigs/assistant_dists.py:964-968 | the old distribution's `assistant_dists/<old>/pipeline_conf.json` becomes the new one's |
| AssistantDists.FirstFailureCases | deeppavlov_dreamtools/distconfigs/assistant_dists.py:1321-1323 | the pipeline part of `check_ports` passes iff every service's port is found and the generator ends cleanly; else the first failure |
| AssistantDists.LinesShift | deeppavlov_dreamtools/distconfigs/assistant_dists.py:1318-1331 | the lines carried in come out first |
| AssistantDists.LinesBroken | deeppavlov_dreamtools/distconfigs/assistant_dists.py:1328-1331 | the check ends in an error iff some probe raises other than ValueError, and then with the first such error |
| AssistantDists.LinesStep | deeppavlov_dreamtools/distconfigs/assistant_dists.py:1325-1331 | a mismatch adds its line, a skipped or passing container nothing |
| AssistantDists.LinesComplete | deeppavlov_dreamtools/distconfigs/assistant_dists.py:1330-1331 | when the check passes every mismatch has its line |
| AssistantDists.LinesSound | deeppavlov_dreamtools/distconfigs/assistant_dists.py:1330-1331 | when the check passes every line is some mismatch's |
| AssistantDists.LinesWithoutMismatch | deeppavlov_dreamtools/distconfigs/assistant_dists.py:1325-1331 | without mismatches a passing check adds no line |
| AssistantDists.ProbeCases | deeppavlov_dreamtools/distconfigs/assistant_dists.py:1326-1331 | a checked container's probe is a mismatch, carrying its line, exactly when its port discovery raises ValueError, and broken, carrying the error, exactly when it raises anything else |
| AssistantDists.DocumentLinesFatal | deeppavlov_dreamtools/distconfigs/assistant_dists.py:1325-1331 | a document's check ends in an error iff a checked container raises other than ValueError, the first such one's |
| AssistantDists.DocumentLinesShift | deeppavlov_dreamtools/distconfigs/assistant_dists.py:1318-1331 | a document's lines follow those collected before |
| AssistantDists.DocumentLinesComplete | deeppavlov_dreamtools/distconfigs/assistant_dists.py:1325-1331 | when a document's check passes, every mismatched container has its line |
| AssistantDists.DocumentLinesSound | deeppavlov_dreamtools/distconfigs/assistant_dists.py:1325-1331 | when a document's check passes, every line it adds is a mismatched container's |
| AssistantDists.LocalDocumentNeverChecks | deeppavlov_dreamtools/distconfigs/assistant_dists.py:1325-1331 | every checked container of `local.yml` ends the check with NotImplementedError |
| AssistantDists.PipelinePortsCases | deeppavlov_dreamtools/distconfigs/assistant_dists.py:1321-1323 | the pipeline configuration's check passes iff every yielded url gives a port and the generator ends cleanly |
| AssistantDists.CheckPortsWithoutDocuments | deeppavlov_dreamtools/distconfigs/assistant_dists.py:1320-1333 | with no deployment document loaded only the pipeline configuration is checked |
| AssistantDists.CheckPortsCases | deeppavlov_dreamtools/distconfigs/assistant_dists.py:1318-1333 | with the pipeline passing, collected lines become one ValueError joined by newlines, no lines pass, and any other error comes from a container |
| AssistantDists.DffAddedFailures | deeppavlov_dreamtools/distconfigs/assistant_dists.py:1133-1153 | a DFF skill is refused with FileExistsError when its directory exists, and with the pipeline configuration's error when `skills` takes no service; a refused skill changes nothing |
| AssistantDists.DffAddedPipeline | deeppavlov_dreamtools/distconfigs/assistant_dists.py:1130-1190 | the result is the skill's directory, the pipeline is unchanged and a loaded pipeline configuration holds the service under the underscored name in `skills`, its url naming the dashed container and the port |
| AssistantDists.DffDocumentsAgree | deeppavlov_dreamtools/distconfigs/assistant_dists.py:1155-1186 | every loaded deployment document holds the skill's container under the dashed name, changes nowhere else, and discovers the given port for it |
| AssistantDists.GainsWithPort | deeppavlov_dreamtools/distconfigs/assistant_dists.py:1171-1186 | a document gaining a container whose port is discovered finds that port under its name |
| AssistantDists.StagedAdded | deeppavlov_dreamtools/distconfigs/assistant_dists.py:1254-1255 | nothing staged is AttributeError; a document refuses the group argument with TypeError; a pipeline configuration gains the service under its group, keeping the connectors and losing the metadata |
| AssistantDists.StagedRemoved | deeppavlov_dreamtools/distconfigs/assistant_dists.py:1268-1270 | the same refusals; the group must hold the service, which then goes |
| AssistantDists.StagedAddThenRemove | deeppavlov_dreamtools/distconfigs/assistant_dists.py:1238-1271 | enabling a new service and then disabling it gives the staged services back |
| AssistantDists.AddIfLoaded | deeppavlov_dreamtools/distconfigs/assistant_dists.py:1082-1086 | a loaded document gains the container in place, None is passed over |
| AssistantDists.RemoveIfLoaded | deeppavlov_dreamtools/distconfigs/assistant_dists.py:1094-1098 | a loaded document loses the container in place or fails with KeyError unchanged, None is passed over |
| AssistantDists.AddAcross | deeppavlov_dreamtools/distconfigs/assistant_dists.py:1077-1086 | the objects end up holding `DistAdded` of the old value |
| AssistantDists.AddToDocuments | deeppavlov_dreamtools/distconfigs/assistant_dists.py:1080-1086 | the documents end up holding `DocumentsAdded` |
| AssistantDists.RemoveFromPipeline | deeppavlov_dreamtools/distconfigs/assistant_dists.py:1089-1090 | the component is looked up, then removed; the result is its container name |
| AssistantDists.RemoveFromDocuments | deeppavlov_dreamtools/distconfigs/assistant_dists.py:1092-1098 | the documents end up holding `DocumentsRemoved` |
| AssistantDists.RemoveAcross | deeppavlov_dreamtools/distconfigs/assistant_dists.py:1088-1098 | the objects end up holding `DistRemoved` of the old value |
| AssistantDists.StageAdd | deeppavlov_dreamtools/distconfigs/assistant_dists.py:1255 | the fetched copy gains the service in place, as `StagedAdded` |
| AssistantDists.StageRemove | deeppavlov_dreamtools/distconfigs/assistant_dists.py:1270 | the fetched copy loses the service in place, as `StagedRemoved` |
| AssistantDists.PipelinePortCheck | deeppavlov_dreamtools/distconfigs/assistant_dists.py:1321-1323 | the loop computes `PipelinePorts` |
| AssistantDists.DocumentPortCheck | deeppavlov_dreamtools/distconfigs/assistant_dists.py:1325-1331 | the loop computes `DocumentLines` |
| AssistantDists.DocumentsPortCheck | deeppavlov_dreamtools/distconfigs/assistant_dists.py:1320-1331 | the loop over the loaded documents computes `DocumentsLinesFrom` |
| AssistantDists.DeploymentPortCheck | deeppavlov_dreamtools/distconfigs/assistant_dists.py:1320-1331 | the same over the four document attributes in order |
| AssistantDists.AddDffToConf | deeppavlov_dreamtools/distconfigs/assistant_dists.py:1141-1153 | a loaded pipeline configuration gains the service as `DffPipelineConf` |
| AssistantDists.AddDffToDocuments | deeppavlov_dreamtools/distconfigs/assistant_dists.py:1155-1186 | the loaded documents gain their containers as `DffDocumentsAdded` |
| AssistantDists.AddDffAcross | deeppavlov_dreamtools/distconfigs/assistant_dists.py:1130-1190 | the objects end up holding `DffAdded` of the old value |
| AssistantDists.ClonedConf | deeppavlov_dreamtools/distconfigs/assistant_dists.py:959-961 | a fresh copy with the new display name and description; AttributeError without a configuration or metadata |
| AssistantDists.CopiedDoc | deeppavlov_dreamtools/distconfigs/assistant_dists.py:972-978 | a fresh copy of a loaded document, None for None |
| AssistantDists.ClonedAttributes | deeppavlov_dreamtools/distconfigs/assistant_dists.py:957-978 | the copies hold the parts of `CloneOf`, in the order they are made |
| AssistantDists.AssistantDist.constructor | deeppavlov_dreamtools/distconfigs/assistant_dists.py:665-699 | every attribute takes its argument and the temporary store is empty |
| AssistantDists.AssistantDist.SetDistPath | deeppavlov_dreamtools/distconfigs/assistant_dists.py:720-727 | the path changes iff `DistPathCheck` passes, and nothing else changes |
| AssistantDists.AssistantDist.SetName | deeppavlov_dreamtools/distconfigs/assistant_dists.py:705-714 | the path's last segment becomes the name through the path setter; a refused path changes nothing |
| AssistantDists.AssistantDist.AddComponent | deeppavlov_dreamtools/distconfigs/assistant_dists.py:1077-1086 | the pipeline and documents hold `DistAdded` of the old value; location, configuration and local document are not written |
| AssistantDists.AssistantDist.RemoveComponent | deeppavlov_dreamtools/distconfigs/assistant_dists.py:1088-1098 | the pipeline and documents hold `DistRemoved` of the old value |
| AssistantDists.AssistantDist.Clone | deeppavlov_dreamtools/distconfigs/assistant_dists.py:932-990 | a new distribution of fresh copies holding `CloneOf` of this one, which is not changed |
| AssistantDists.AssistantDist.FetchTempConfig | deeppavlov_dreamtools/distconfigs/assistant_dists.py:1273-1291 | the live attribute is stored when nothing (or None) is stored, AttributeError when it is None too; the result is a fresh copy of the stored object |
| AssistantDists.AssistantDist.EnableService | deeppavlov_dreamtools/distconfigs/assistant_dists.py:1238-1257 | the fetched copy gains the service and is stored; live attributes are not written |
| AssistantDists.AssistantDist.Store | deeppavlov_dreamtools/distconfigs/assistant_dists.py:1257 | the store maps the attribute's name to the object |
| AssistantDists.AssistantDist.DisableService | deeppavlov_dreamtools/distconfigs/assistant_dists.py:1259-1271 | the fetched copy loses the service and is stored |
| AssistantDists.AssistantDist.ApplyTempConfig | deeppavlov_dreamtools/distconfigs/assistant_dists.py:1293-1300 | the attribute becomes the stored object (KeyError when none); nothing else changes |
| AssistantDists.AssistantDist.CheckPorts | deeppavlov_dreamtools/distconfigs/assistant_dists.py:1302-1333 | the distribution is only read; the outcome is `CheckPortsOf` its value |
| AssistantDists.AssistantDist.AddDffSkill | deeppavlov_dreamtools/distconfigs/assistant_dists.py:1119-1190 | the objects hold `DffAdded` of the old value; the result is the skill's directory |
| Manager.LegacyParseConnectorUrl | deeppavlov_dreamtools/distconfigs/manager.py:27-41 | no url (None or "") gives no address; a failing parse is a ValueError |
| Manager.LegacyParseAgrees | deeppavlov_dreamtools/distconfigs/manager.py:27-41 | on a non-empty url the older parser accepts exactly the urls `parse_connector_url` accepts, with the same pieces |
| Manager.LegacyParseBuildRoundTrip | deeppavlov_dreamtools/distconfigs/manager.py:27-41 | a url built from a host, a port and an endpoint parses back to them |
| Manager.LegacyYmlConfig.constructor | deeppavlov_dreamtools/distconfigs/manager.py:139-160 | the document has the given kind and configuration |
| Manager.LegacyYmlConfig.AddService | deeppavlov_dreamtools/distconfigs/manager.py:162-176 | this document's configuration becomes `WithService` of the old (shared through the shallow copy); inplace returns this, otherwise a new document of the same kind and content |
| Manager.LoadConfigs | deeppavlov_dreamtools/distconfigs/manager.py:241-269 | the keyword arguments are exactly the flagged documents, each the one read; non-empty service names with any document loaded raise NotImplementedError from the base `filter_services` |
| Manager.LegacyResolveRoundTrip | deeppavlov_dreamtools/distconfigs/manager.py:298-318 | `resolve_name_and_dream_root` undoes `resolve_dist_path` for a one-segment name |
| Manager.LegacyResolveAllPaths | deeppavlov_dreamtools/distconfigs/manager.py:271-296 | a given string path, which the code never wraps in `Path`, raises AttributeError at `exists` once its name and root are read, and a path of fewer than two segments IndexError; any resolved path passes the disk check |
| Manager.LegacyResolveAllPathsAgrees | deeppavlov_dreamtools/distconfigs/manager.py:271-318 | for every argument but a truthy string path this resolver is `utils.py`'s over the literal "assistant_dists" directory; a string path that one accepts raises AttributeError here |
| Manager.LegacyRejectsStringPath | deeppavlov_dreamtools/distconfigs/manager.py:286-293 | on any disk, a string path of two or more segments is accepted by `utils.py` yet raises AttributeError here |
| Manager.TwoSegmentPath | deeppavlov_dreamtools/distconfigs/manager.py:317-318 | "dream/x" is such a path: its segments are "dream" and "x" |
| Manager.Present | deeppavlov_dreamtools/distconfigs/manager.py:398 | the present values are no more than the places |
| Manager.PresentMembers | deeppavlov_dreamtools/distconfigs/manager.py:391-399 | a document is yielded exactly when one of the places holds it |
| Manager.PresentAbove | deeppavlov_dreamtools/distconfigs/manager.py:391-399 | skipping absent places keeps every rank bound |
| Manager.PresentRising | deeppavlov_dreamtools/distconfigs/manager.py:391-399 | skipping absent places keeps rising ranks rising |
| Manager.ConfigsListed | deeppavlov_dreamtools/distconfigs/manager.py:391-397 | every document the distribution holds is among the five places the walk visits |
| Manager.IterConfigs | deeppavlov_dreamtools/distconfigs/manager.py:390-399 | at most five documents are yielded |
| Manager.ListedRanks | deeppavlov_dreamtools/distconfigs/manager.py:391-397 | each place holds a document of its own rank |
| Manager.IterConfigsComplete | deeppavlov_dreamtools/distconfigs/manager.py:390-399 | the walk yields every document the distribution holds |
| Manager.IterConfigsSound | deeppavlov_dreamtools/distconfigs/manager.py:390-399 | the walk yields nothing but documents the distribution holds |
| Manager.IterConfigsOrdered | deeppavlov_dreamtools/distconfigs/manager.py:390-399 | the walk goes pipeline, override, dev, proxy, local, so it yields each document once |
| Swarm.Options | deeppavlov_dreamtools/deployer/swarm.py:55-63 | one `-c <dir><file>` option per document kind, in order |
| Swarm.LoadedKinds | deeppavlov_dreamtools/deployer/swarm.py:57-68 | the kinds the filtered list keeps: override, proxy and dev exactly when loaded, never local |
| Swarm.Somes | deeppavlov_dreamtools/deployer/swarm.py:66-68 | the filtered list is no longer than the candidates, and with none missing it is all of them in order |
| Swarm.CandidateOptions | deeppavlov_dreamtools/deployer/swarm.py:55-63 | the three candidate options, override, proxy and dev, each None when its document is not loaded |
| Swarm.CollectPresent | deeppavlov_dreamtools/deployer/swarm.py:66-68 | the filter loop keeps the candidates that are not None, in order |
| Swarm.StackDeployCommandAsWritten | deeppavlov_dreamtools/deployer/swarm.py:43-72 | the code as written joins the unfiltered list: a TypeError exactly when any of override, proxy or dev is not loaded, otherwise the full deploy command |
| Swarm.OptionsAppend | deeppavlov_dreamtools/deployer/swarm.py:57-68 | the options of two runs of kinds are the options of each, concatenated |
| Swarm.SomesOfCandidates | deeppavlov_dreamtools/deployer/swarm.py:57-68 | filtering the candidates gives the options of `LoadedKinds` |
| Swarm.StackDeployCommand | deeppavlov_dreamtools/deployer/swarm.py:43-72 | with the filtered list joined, the deploy command carries one option per loaded document and the distribution's name |
| Swarm.OptionWords | deeppavlov_dreamtools/deployer/swarm.py:55-63 | two words per option |
| Swarm.FileNameWord | deeppavlov_dreamtools/deployer/swarm.py:55-63 | each document's file name is one word |
| Swarm.DistDirWord | deeppavlov_dreamtools/deployer/swarm.py:55 | the distribution directory is one word when the root and the name are |
| Swarm.OptionWordsSplit | deeppavlov_dreamtools/deployer/swarm.py:57-63 | an option is the two words `-c` and the file's path |
| Swarm.OptionsTokens | deeppavlov_dreamtools/deployer/swarm.py:70 | the joined options are exactly the option words |
| Swarm.WordThen | deeppavlov_dreamtools/deployer/swarm.py:70 | a word and a space put in front of text give that word before the text's words |
| Swarm.StackTail | deeppavlov_dreamtools/deployer/swarm.py:70 | the command's tail adds the name as one last word |
| Swarm.ThreeWordsThen | deeppavlov_dreamtools/deployer/swarm.py:70 | three words put in front come before the rest's words |
| Swarm.StackHead | deeppavlov_dreamtools/deployer/swarm.py:70 | "docker stack deploy " contributes the three words `docker`, `stack`, `deploy` |
| Swarm.DeployCommandWords | deeppavlov_dreamtools/deployer/swarm.py:55-72 | split at whitespace, the deploy command is `docker stack deploy`, then `-c` and one file path per document kind, then the distribution's name |

## Left out

- File and directory I/O: every `load`/`dump`/`from_path`/`to_path`/`from_dist`/`to_dist`, `AssistantDist.save` and `delete`, `list_dists`, `list_components`, `check_ports_in_all_distributions`, and the template copy and save inside `add_dff_skill`. Documents are taken as already loaded; the file system is the `Disk` parameter.
- `deeppavlov_dreamtools/distconfigs/services.py`: `set_environment_value` rewrites a file.
- The network and the remote shell: `deeppavlov_dreamtools/deployer/portainer.py` (HTTP calls), the `SwarmDeployer` methods that run commands over a fabric connection (`deeppavlov_dreamtools/deployer/swarm.py:19-41`) and the response records in `deeppavlov_dreamtools/deployer/models.py`.
- The command-line entry points (`cmd.py`, `commands/`). The verify command is commented out in the source, so no live code compares ports across documents.
- `create_local_yml`: it passes `inplace` and `exclude_names` to a `filter_services` that accepts neither, so it cannot run.
- `_extract_component_from_service`, `get_component` and `iter_components` of `AssistantDist`: their return value is commented out, so they return None.
- The constants module is not part of this model: the distributions directory, the skills directory and `NON_SERVICES` are parameters.
- Regular expressions: `port_definitions`' command regex is the parameter `findPort`. `clone`'s `re.sub` is a literal replace-all (`ReplaceAll`) of `assistant_dists/<old>/pipeline_conf.json`. The regex equals it only when the names hold no regex metacharacters; its unescaped '.' in ".json" also matches any character, so the code renames `assistant_dists/<old>/pipeline_confXjson` too, which the model leaves unchanged.
- Python float syntax: the memory validator's float test is the parameter `floatLike`.
- `int()` of text accepts an optional sign and decimal digits. The surrounding whitespace and the digit-group underscores that CPython also accepts are not modelled.
- `Text.IsSpace`: `str.split()` with no argument is modelled as splitting on the six ASCII whitespace characters (space, `\t`, `\n`, `\v`, `\f`, `\r`). CPython also splits on `\x1c`-`\x1f`, `\x85`, `\xa0` and the other Unicode spaces; commands holding those are split differently in the model.
- pydantic: parsing a record read from a document is modelled as the declared-field and required-field checks of its schema, plus the defaults the code relies on. Type coercion and the text of validation messages are not modelled.
- ComposeConfigs.YmlConfig.AddComponent, Manager.LegacyYmlConfig.AddService: the model does not record which pydantic class a container is, so the `GENERIC_MODEL.parse_obj` re-validation of the edited services (`distconfigs/assistant_dists.py:227`, `distconfigs/manager.py:170`) is not modelled. That re-parse raises ValidationError, a ValueError, when a container of another class meets a schema that forbids its fields, such as a `ComposeContainer` added to a `dev.yml` document. The model's methods always succeed. Their new state is still what the code leaves behind in that case, because the shared services mapping has already gained the container.
- pydantic's `copy()` is shallow. The model keeps that aliasing for the one operation that makes the copy: a non-inplace add or remove also changes the original's services. Afterwards the two objects are separate in the model, while in the code they still share every group mapping (`DreamPipeline`) or the services mapping (`YmlDreamConfig`), so a later change to one reaches the other. `deepcopy` is a fresh object with equal content.
- Exception messages are kept where the code reads them (`check_ports` joins ValueError messages) or raises a literal message. Elsewhere only the exception class is modelled.
- Utils.ParseConnectorUrl: every non-string url is one case (`None` of `Option<string>`), and its message renders the url as "None". The message is exact only for `None`. For another non-string value the code writes that value's `str` instead.
- `manager.py`'s `resolve_all_paths` (lines 271-296) differs from `utils.py`'s: it never wraps a given `dist_path` in `Path`, and its `resolve_dist_path` uses the literal "assistant_dists" (line 307). It is modelled as `Manager.LegacyResolveAllPaths`; a string `dist_path` raises AttributeError at line 293.
- `Swarm`: `deployer/swarm.py:5` imports `DreamDist` from the package, which does not export it (it is defined in `distconfigs/manager.py`), so importing the module raises ImportError. The model takes the distribution as an `AssistantDist` value and models the command the method body builds.
- Environment list entries are typed as strings. A non-string entry raises AttributeError at `e.split` in `port_definitions` (`distconfigs/generics.py:206`) and at `startswith` in `_discover_environment_port` and `_discover_proxy_pass_port`; that case is not modelled.
- `PipelineGraph.AttributeIn`: the `components` property and the attributes every Python object inherits (`__class__`, `__dict__` and the like) are treated as missing, so `get_component` on them gives AttributeError in the model.
- `DreamPipelines.Walk`: `_recursively_parse_requirements` has no visited set and only terminates when the requirements are acyclic. The model requires a ranking of the services (`Ranked`) under which every requirement has a smaller rank, and says nothing about cyclic requirements.
- `AssistantDists.AssistantDist.Clone`: `service_names` is accepted and ignored, as in the source. The commented-out filtering is not modelled.
- YAML and JSON scalars are `Json` values. Ports are unbounded integers; no 16-bit range check exists in the source, so none is modelled.

## Findings

| source | as written | input that shows it | evidently intended | confidence | as-written member | corrected member |
|---|---|---|---|---|---|---|
| deeppavlov_dreamtools/utils.py:112-114 | the guard `not dist_path.exists() and dist_path.is_dir()` raises only for a path that is missing and yet a directory, which never happens | `resolve_all_paths(name="absent", dream_root="/dream")` with nothing on disk returns instead of raising NotADirectoryError | raise NotADirectoryError unless the resolved path exists and is a directory | not executed | Utils.ResolveAllPathsAsWritten (Utils.AsWrittenNeverRejects, Utils.AsWrittenAcceptsMissing) | Utils.ResolveAllPaths |
| deeppavlov_dreamtools/deployer/swarm.py:65-70 | the unfiltered list `[override, proxy, dev]` is joined, while the filtered list built at 66-68 is unused | a distribution without `proxy.yml`: `" ".join` meets None and raises TypeError | join the filtered list, giving one `-c` option per loaded document | not executed | Swarm.StackDeployCommandAsWritten | Swarm.StackDeployCommand (Swarm.DeployCommandWords, Swarm.LoadedKinds) |
