/**
 * `DreamPipeline`: a distribution's `pipeline_conf.json` document.  Services
 * sit in named groups; the editable groups can be listed, searched by
 * container name, extended and shrunk, and a selection can be widened by
 * walking the services' requirements (`filter_services`).
 */
module DreamPipelines {
  import opened Wrappers
  import opened Dicts
  import opened Text
  import opened Utils
  import opened Generics

  const FILE_NAME := "pipeline_conf.json"

  /** A service under its group and name, as the generators yield it. */
  datatype Entry = Entry(group: string, name: string, service: Service)

  /** `getattr(services, group).items()`: only a group holding a mapping has items. */
  function GroupItems(sl: ServiceList, group: string): (r: Result<Dict<string, Service>>)
    ensures r.Ok? <==> Get(sl, group).Some? && Get(sl, group).value.ServiceGroup? && Get(sl, group).value.services.Some?
    ensures r.Ok? ==> Get(sl, group) == Some(ServiceGroup(Some(r.value)))
    ensures r.Err? ==> r.error == AttributeError
  {
    var v: Option<GroupValue> := Get(sl, group);
    match v
    case Some(ServiceGroup(Some(d))) => Ok(d)
    case _ => Err(AttributeError)
  }

  /** The entry is the service stored under its name in its group. */
  predicate Listed(sl: ServiceList, e: Entry)
  {
    GroupItems(sl, e.group).Ok? && Get(GroupItems(sl, e.group).value, e.name) == Some(e.service)
  }

  function Tag(group: string, d: seq<(string, Service)>): (r: seq<Entry>)
    ensures |r| == |d|
    ensures forall i | 0 <= i < |d| :: r[i] == Entry(group, d[i].0, d[i].1)
  {
    if d == [] then [] else [Entry(group, d[0].0, d[0].1)] + Tag(group, d[1..])
  }

  /** `iter_services` over the given groups: each group's entries in order, failing at a group without items. */
  function EntriesOf(sl: ServiceList, groups: seq<string>): Stream<Entry>
  {
    if groups == [] then Stream([], None)
    else
      match GroupItems(sl, groups[0])
      case Err(e) => Stream([], Some(e))
      case Ok(d) =>
        var rest := EntriesOf(sl, groups[1..]);
        Stream(Tag(groups[0], d) + rest.items, rest.failure)
  }

  /** `iter_services`: the entries of the editable groups. */
  function IterServices(sl: ServiceList): Stream<Entry>
  {
    EntriesOf(sl, EDITABLE_GROUPS)
  }

  /** Everything `iter_services` yields is stored in one of the groups under its name. */
  lemma {:induction false} EntriesAreListed(sl: ServiceList, groups: seq<string>)
    ensures forall e | e in EntriesOf(sl, groups).items :: Listed(sl, e) && e.group in groups
  {
    if groups != [] && GroupItems(sl, groups[0]).Ok? {
      var g := groups[0];
      var d := GroupItems(sl, g).value;
      var rest := EntriesOf(sl, groups[1..]).items;
      EntriesAreListed(sl, groups[1..]);
      assert EntriesOf(sl, groups).items == Tag(g, d) + rest;
      forall e | e in Tag(g, d)
        ensures Listed(sl, e) && e.group in groups
      {
        var i :| 0 <= i < |d| && Tag(g, d)[i] == e;
        assert d[i].0 in Keys(d) by { assert Keys(d)[i] == d[i].0; }
      }
      forall e | e in rest
        ensures e.group in groups
      {
        assert e.group in groups[1..];
      }
    }
  }

  /** Group `g` has items, and every one of them is among `items`. */
  predicate GroupYielded(sl: ServiceList, g: string, items: seq<Entry>)
  {
    GroupItems(sl, g).Ok? &&
    var d := GroupItems(sl, g).value;
    forall i | 0 <= i < |d| :: Entry(g, d[i].0, d[i].1) in items
  }

  lemma GroupYieldedByTag(sl: ServiceList, g: string, rest: seq<Entry>)
    requires GroupItems(sl, g).Ok?
    ensures GroupYielded(sl, g, Tag(g, GroupItems(sl, g).value) + rest)
  {
    var d := GroupItems(sl, g).value;
    var all := Tag(g, d) + rest;
    forall i | 0 <= i < |d|
      ensures Entry(g, d[i].0, d[i].1) in all
    {
      assert all[i] == Tag(g, d)[i];
    }
  }

  lemma GroupYieldedAfter(sl: ServiceList, g: string, before: seq<Entry>, rest: seq<Entry>)
    requires GroupYielded(sl, g, rest)
    ensures GroupYielded(sl, g, before + rest)
  {
    var d := GroupItems(sl, g).value;
    forall i | 0 <= i < |d|
      ensures Entry(g, d[i].0, d[i].1) in before + rest
    {
      assert Entry(g, d[i].0, d[i].1) in rest;
    }
  }

  /** When `iter_services` runs to the end, it yields every entry of every group. */
  lemma {:induction false} EntriesAreComplete(sl: ServiceList, groups: seq<string>)
    requires EntriesOf(sl, groups).failure.None?
    ensures forall g | g in groups :: GroupYielded(sl, g, EntriesOf(sl, groups).items)
  {
    if groups != [] {
      var g := groups[0];
      assert GroupItems(sl, g).Ok?;
      var d := GroupItems(sl, g).value;
      var rest := EntriesOf(sl, groups[1..]).items;
      EntriesAreComplete(sl, groups[1..]);
      assert EntriesOf(sl, groups).items == Tag(g, d) + rest;
      forall h | h in groups
        ensures GroupYielded(sl, h, Tag(g, d) + rest)
      {
        if h == g {
          GroupYieldedByTag(sl, g, rest);
        } else {
          assert h in groups[1..];
          GroupYieldedAfter(sl, h, Tag(g, d), rest);
        }
      }
    }
  }

  // ---- selection by container name -----------------------------------------------------

  /** Python truthiness of an optional url. */
  predicate UrlGiven(url: Option<string>)
  {
    url.Some? && url.value != ""
  }

  /** The name a reference connector's service is matched and yielded under. */
  function Dashed(name: string): string
  {
    ReplaceChar(name, '_', '-')
  }

  /**
   * Whether `_filter_services_by_name` yields an entry, and how: an inline
   * connector with a url is chosen when the url's host is named, a
   * reference connector when its service name with '_' turned into '-' is
   * named, and then under that name.
   */
  function Selection(e: Entry, names: seq<string>): (r: Result<Option<Entry>>)
    ensures r.Ok? && r.value.Some? ==> r.value.value.group == e.group && r.value.value.service == e.service
    ensures e.service.connector.ConnectorRef? ==>
      r.Ok? && (r.value.Some? <==> Dashed(e.name) in names) && (r.value.Some? ==> r.value.value.name == Dashed(e.name))
    ensures e.service.connector.ConnectorInline? && !UrlGiven(e.service.connector.def.url) ==> r == Ok(None)
    ensures (e.service.connector.ConnectorInline? && UrlGiven(e.service.connector.def.url) ==>
               var a := ParseConnectorUrl(e.service.connector.def.url);
               (r.Err? <==> a.Err?) && (r.Err? ==> r.error == a.error) &&
               (r.Ok? ==> (r.value.Some? <==> a.value.host in names) && (r.value.Some? ==> r.value.value == e)))
  {
    match e.service.connector
    case ConnectorInline(def) =>
      if UrlGiven(def.url) then
        var a :- ParseConnectorUrl(def.url);
        Ok(if a.host in names then Some(e) else None)
      else Ok(None)
    case ConnectorRef(_) =>
      var dashed := Dashed(e.name);
      Ok(if dashed in names then Some(e.(name := dashed)) else None)
  }

  /** The selection over a run of entries, stopping at the first url that does not parse. */
  function SelectAll(items: seq<Entry>, names: seq<string>): (r: Stream<Entry>)
  {
    if items == [] then Stream([], None)
    else
      match Selection(items[0], names)
      case Err(e) => Stream([], Some(e))
      case Ok(x) =>
        var rest := SelectAll(items[1..], names);
        Stream((if x.Some? then [x.value] else []) + rest.items, rest.failure)
  }

  /** `_filter_services_by_name`: the selection over `iter_services`, errors in the order they are met. */
  function FilterByName(sl: ServiceList, names: seq<string>): Stream<Entry>
  {
    var all := IterServices(sl);
    var chosen := SelectAll(all.items, names);
    if chosen.failure.Some? then chosen else Stream(chosen.items, all.failure)
  }

  /** Everything selected is chosen by `Selection` from some entry. */
  lemma {:induction false} SelectAllSound(items: seq<Entry>, names: seq<string>)
    ensures forall x | x in SelectAll(items, names).items :: exists i | 0 <= i < |items| :: Selection(items[i], names) == Ok(Some(x))
  {
    if items != [] && Selection(items[0], names).Ok? {
      SelectAllSound(items[1..], names);
      forall x | x in SelectAll(items, names).items
        ensures exists i | 0 <= i < |items| :: Selection(items[i], names) == Ok(Some(x))
      {
        if x !in SelectAll(items[1..], names).items {
          assert Selection(items[0], names) == Ok(Some(x));
        } else {
          var i :| 0 <= i < |items[1..]| && Selection(items[1..][i], names) == Ok(Some(x));
          assert items[1..][i] == items[i + 1];
        }
      }
    }
  }

  /** When no url fails to parse, every entry `Selection` chooses is selected. */
  lemma {:induction false} SelectAllComplete(items: seq<Entry>, names: seq<string>)
    requires SelectAll(items, names).failure.None?
    ensures forall i | 0 <= i < |items| :: Selection(items[i], names).Ok?
    ensures (forall i | 0 <= i < |items| && Selection(items[i], names).value.Some? ::
               Selection(items[i], names).value.value in SelectAll(items, names).items)
  {
    if items != [] {
      SelectAllComplete(items[1..], names);
      forall i | 1 <= i < |items|
        ensures Selection(items[i], names).Ok?
        ensures Selection(items[i], names).value.Some? ==> Selection(items[i], names).value.value in SelectAll(items, names).items
      {
        assert items[i] == items[1..][i - 1];
      }
    }
  }

  /** An entry whose connector has a url is selected exactly when the url's host is named. */
  lemma SelectedByHost(items: seq<Entry>, names: seq<string>, i: nat)
    requires SelectAll(items, names).failure.None?
    requires i < |items| && items[i].service.connector.ConnectorInline? && UrlGiven(items[i].service.connector.def.url)
    ensures ParseConnectorUrl(items[i].service.connector.def.url).Ok?
    ensures items[i] in SelectAll(items, names).items <==> ParseConnectorUrl(items[i].service.connector.def.url).value.host in names
  {
    SelectAllComplete(items, names);
    SelectAllSound(items, names);
    if items[i] in SelectAll(items, names).items {
      var k :| 0 <= k < |items| && Selection(items[k], names) == Ok(Some(items[i]));
      assert items[k].service == items[i].service;
    }
  }

  /** An entry with a reference connector is selected, under its dashed name, exactly when that name is named. */
  lemma SelectedByDashedName(items: seq<Entry>, names: seq<string>, i: nat)
    requires SelectAll(items, names).failure.None?
    requires i < |items| && items[i].service.connector.ConnectorRef?
    ensures items[i].(name := Dashed(items[i].name)) in SelectAll(items, names).items <==> Dashed(items[i].name) in names
  {
    SelectAllComplete(items, names);
    SelectAllSound(items, names);
    var x := items[i].(name := Dashed(items[i].name));
    if x in SelectAll(items, names).items {
      var k :| 0 <= k < |items| && Selection(items[k], names) == Ok(Some(x));
      assert items[k].service == items[i].service;
    }
  }

  /** A service whose inline connector has no url is never selected. */
  lemma UrlLessNeverSelected(items: seq<Entry>, names: seq<string>, s: Service)
    requires s.connector.ConnectorInline? && !UrlGiven(s.connector.def.url)
    ensures forall x | x in SelectAll(items, names).items :: x.service != s
  {
    SelectAllSound(items, names);
  }

  // ---- the requirement walk --------------------------------------------------------------

  /** `previous_services or []` followed by `required_previous_services or []`. */
  function Requirements(s: Service): seq<string>
  {
    s.previousServices.GetOr([]) + s.requiredPreviousServices.GetOr([])
  }

  /**
   * One requirement `group.name`, split at its first '.': an entry without
   * '.' names nothing; otherwise the group must be an attribute holding a
   * mapping that has the name.
   */
  function ResolveRequirement(sl: ServiceList, req: string): (r: Result<Option<Entry>>)
    ensures !Contains(req, ".") ==> r == Ok(None)
    ensures (r.Ok? && r.value.Some? ==>
               Listed(sl, r.value.value) && req == r.value.value.group + "." + r.value.value.name &&
               !Contains(r.value.value.group, "."))
    ensures Contains(req, ".") && Get(sl, SplitOnce(req, ".")[0]).None? ==> r == Err(AttributeError)
  {
    var parts := SplitOnce(req, ".");
    if |parts| < 2 then Ok(None)
    else
      var group := parts[0];
      var name := parts[1];
      var v: Option<GroupValue> := Get(sl, group);
      match v
      case None => Err(AttributeError)
      case Some(ServiceGroup(Some(d))) =>
        (match Get(d, name)
         case None => Err(KeyError("'" + name + "'"))
         case Some(s) => Ok(Some(Entry(group, name, s))))
      case Some(_) => Err(TypeError)
  }

  /**
   * `rank` orders services so that every requirement of a service resolves
   * to a service of smaller rank: the requirements have no cycle.
   */
  ghost predicate Ranked(sl: ServiceList, rank: Service -> nat)
  {
    forall s: Service, i: nat | i < |Requirements(s)| && ResolveRequirement(sl, Requirements(s)[i]).Ok? &&
                                 ResolveRequirement(sl, Requirements(s)[i]).value.Some? ::
      rank(ResolveRequirement(sl, Requirements(s)[i]).value.value.service) < rank(s)
  }

  /** `_recursively_parse_requirements(s)`: each resolved requirement, then its own walk. */
  function Walk(sl: ServiceList, s: Service, ghost rank: Service -> nat): Stream<Entry>
    requires Ranked(sl, rank)
    decreases rank(s), 1, 0
  {
    WalkFrom(sl, s, 0, rank)
  }

  /** The walk of `s` from its `i`-th requirement on. */
  function WalkFrom(sl: ServiceList, s: Service, i: nat, ghost rank: Service -> nat): Stream<Entry>
    requires Ranked(sl, rank) && i <= |Requirements(s)|
    decreases rank(s), 0, |Requirements(s)| - i
  {
    if i == |Requirements(s)| then Stream([], None)
    else
      match ResolveRequirement(sl, Requirements(s)[i])
      case Err(e) => Stream([], Some(e))
      case Ok(None) => WalkFrom(sl, s, i + 1, rank)
      case Ok(Some(req)) =>
        var below := Walk(sl, req.service, rank);
        if below.failure.Some? then Stream([req] + below.items, below.failure)
        else
          var rest := WalkFrom(sl, s, i + 1, rank);
          Stream([req] + below.items + rest.items, rest.failure)
  }

  /** Everything the walk yields is a service stored in the list under its group and name. */
  lemma {:induction false} WalkIsListed(sl: ServiceList, s: Service, rank: Service -> nat)
    requires Ranked(sl, rank)
    ensures forall e | e in Walk(sl, s, rank).items :: Listed(sl, e)
    decreases rank(s), 1, 0, 0
  {
    WalkFromIsListed(sl, s, 0, rank);
  }

  lemma {:induction false} WalkFromIsListed(sl: ServiceList, s: Service, i: nat, rank: Service -> nat)
    requires Ranked(sl, rank) && i <= |Requirements(s)|
    ensures forall e | e in WalkFrom(sl, s, i, rank).items :: Listed(sl, e)
    decreases rank(s), 0, |Requirements(s)| - i, 1
  {
    if i < |Requirements(s)| {
      var res := ResolveRequirement(sl, Requirements(s)[i]);
      if res.Ok? && res.value.None? {
        assert WalkFrom(sl, s, i, rank) == WalkFrom(sl, s, i + 1, rank);
        WalkFromIsListed(sl, s, i + 1, rank);
      } else if res.Ok? {
        RequirementWalkIsListed(sl, s, i, rank);
      }
    }
  }

  /** The walk from a requirement that resolves: the requirement, its own walk, then the rest. */
  lemma {:induction false} RequirementWalkIsListed(sl: ServiceList, s: Service, i: nat, rank: Service -> nat)
    requires Ranked(sl, rank) && i < |Requirements(s)|
    requires ResolveRequirement(sl, Requirements(s)[i]).Ok? && ResolveRequirement(sl, Requirements(s)[i]).value.Some?
    ensures forall e | e in WalkFrom(sl, s, i, rank).items :: Listed(sl, e)
    decreases rank(s), 0, |Requirements(s)| - i, 0
  {
    var req := ResolveRequirement(sl, Requirements(s)[i]).value.value;
    RankDrops(sl, rank, s, i);
    var below := Walk(sl, req.service, rank);
    WalkIsListed(sl, req.service, rank);
    if below.failure.Some? {
      assert WalkFrom(sl, s, i, rank).items == [req] + below.items + [];
      ListedConcat(sl, req, below.items, []);
    } else {
      var rest := WalkFrom(sl, s, i + 1, rank);
      assert WalkFrom(sl, s, i, rank).items == [req] + below.items + rest.items;
      WalkFromIsListed(sl, s, i + 1, rank);
      ListedConcat(sl, req, below.items, rest.items);
    }
  }

  /** A resolved requirement is listed and ranks below the service that names it. */
  lemma RankDrops(sl: ServiceList, rank: Service -> nat, s: Service, i: nat)
    requires Ranked(sl, rank) && i < |Requirements(s)|
    requires ResolveRequirement(sl, Requirements(s)[i]).Ok? && ResolveRequirement(sl, Requirements(s)[i]).value.Some?
    ensures Listed(sl, ResolveRequirement(sl, Requirements(s)[i]).value.value)
    ensures rank(ResolveRequirement(sl, Requirements(s)[i]).value.value.service) < rank(s)
  {
  }

  lemma ListedConcat(sl: ServiceList, req: Entry, a: seq<Entry>, b: seq<Entry>)
    requires Listed(sl, req)
    requires forall e | e in a :: Listed(sl, e)
    requires forall e | e in b :: Listed(sl, e)
    ensures forall e | e in [req] + a + b :: Listed(sl, e)
  {
    forall e | e in [req] + a + b
      ensures Listed(sl, e)
    {
      if e !in [req] + a {
        assert e in b;
      }
    }
  }

  /** Requirements without a '.' are skipped: a service naming only such entries walks to nothing. */
  lemma {:induction false} UndottedRequirementsSkipped(sl: ServiceList, s: Service, i: nat, rank: Service -> nat)
    requires Ranked(sl, rank) && i <= |Requirements(s)|
    requires forall j | i <= j < |Requirements(s)| :: !Contains(Requirements(s)[j], ".")
    ensures WalkFrom(sl, s, i, rank) == Stream([], None)
    decreases |Requirements(s)| - i
  {
    if i < |Requirements(s)| {
      UndottedRequirementsSkipped(sl, s, i + 1, rank);
    }
  }

  // ---- filter_services ---------------------------------------------------------------------

  /** What `filter_services` builds: the `filtered` groups, and the extended name list. */
  datatype Filtering = Filtering(filtered: Dict<string, Dict<string, Service>>, names: seq<string>)

  /** `filtered[group][name] = service`; a group `filtered` lacks is a KeyError. */
  function Put(filtered: Dict<string, Dict<string, Service>>, e: Entry): (r: Result<Dict<string, Dict<string, Service>>>)
    ensures r.Err? <==> e.group !in Keys(filtered)
    ensures r.Err? ==> r.error == KeyError("'" + e.group + "'")
    ensures r.Ok? ==> Keys(r.value) == Keys(filtered) && Get(Get(r.value, e.group).value, e.name) == Some(e.service)
  {
    match Get(filtered, e.group)
    case None => Err(KeyError("'" + e.group + "'"))
    case Some(d) => Ok(Set(filtered, e.group, Set(d, e.name, e.service)))
  }

  /** Records each walked requirement and appends its name, stopping at the first failure. */
  function RecordRequirements(f: Filtering, reqs: seq<Entry>): Result<Filtering>
    decreases |reqs|
  {
    if reqs == [] then Ok(f)
    else
      var filtered :- Put(f.filtered, reqs[0]);
      RecordRequirements(Filtering(filtered, f.names + [reqs[0].name]), reqs[1..])
  }

  /** One selected entry: record it, then everything its requirement walk yields. */
  function RecordSelected(sl: ServiceList, f: Filtering, e: Entry, ghost rank: Service -> nat): Result<Filtering>
    requires Ranked(sl, rank)
  {
    var filtered :- Put(f.filtered, e);
    var walk := Walk(sl, e.service, rank);
    var recorded :- RecordRequirements(Filtering(filtered, f.names), walk.items);
    if walk.failure.Some? then Err(walk.failure.value) else Ok(recorded)
  }

  function RecordAllSelected(sl: ServiceList, f: Filtering, selected: seq<Entry>, ghost rank: Service -> nat): Result<Filtering>
    requires Ranked(sl, rank)
    decreases |selected|
  {
    if selected == [] then Ok(f)
    else
      var next :- RecordSelected(sl, f, selected[0], rank);
      RecordAllSelected(sl, next, selected[1..], rank)
  }

  /** `{grp: {} for grp in editable_groups}`. */
  const EMPTY_FILTERED: Dict<string, Dict<string, Service>> :=
    [("post_annotators", []), ("annotators", []), ("skills", []), ("post_skill_selector_annotators", []),
     ("response_selectors", [])]

  /** `getattr(services, key)` for an attribute copied as it is. */
  function Attribute(sl: ServiceList, key: string): (r: Result<GroupValue>)
    ensures r.Err? <==> key !in Keys(sl)
    ensures r.Err? ==> r.error == AttributeError
    ensures r.Ok? ==> Get(sl, key) == Some(r.value)
  {
    match Get(sl, key)
    case None => Err(AttributeError)
    case Some(v) => Ok(v)
  }

  /** The `filtered` mapping made into service-list attributes. */
  function AsGroups(filtered: seq<(string, Dict<string, Service>)>): (r: seq<(string, GroupValue)>)
    ensures |r| == |filtered|
    ensures forall i | 0 <= i < |filtered| :: r[i] == (filtered[i].0, ServiceGroup(Some(filtered[i].1)))
  {
    if filtered == [] then [] else [(filtered[0].0, ServiceGroup(Some(filtered[0].1)))] + AsGroups(filtered[1..])
  }

  lemma AsGroupsKeys(filtered: Dict<string, Dict<string, Service>>)
    ensures Keys(AsGroups(filtered)) == Keys(filtered)
    ensures UniqueKeys(AsGroups(filtered))
  {
    var r := AsGroups(filtered);
    assert forall i | 0 <= i < |r| :: r[i].0 == filtered[i].0;
  }

  /** The service list `filter_services` builds from the filtered groups and the copied attributes. */
  function FilteredList(filtered: Dict<string, Dict<string, Service>>, lastChance: GroupValue, timeout: GroupValue,
                        responseAnnotatorSelectors: GroupValue, skillSelectors: GroupValue): (r: ServiceList)
    ensures Get(r, "last_chance_service") == Some(lastChance)
    ensures Get(r, "timeout_service") == Some(timeout)
    ensures Get(r, "response_annotator_selectors") == Some(responseAnnotatorSelectors)
    ensures Get(r, "skill_selectors") == Some(skillSelectors)
  {
    AsGroupsKeys(filtered);
    var groups: ServiceList := AsGroups(filtered);
    Set(Set(Set(Set(groups, "last_chance_service", lastChance), "timeout_service", timeout),
            "response_annotator_selectors", responseAnnotatorSelectors), "skill_selectors", skillSelectors)
  }

  /**
   * `filter_services`: the named services, everything their requirements
   * reach, and the copied single attributes, in a new configuration that
   * keeps the connectors and has no metadata; with the names asked for
   * followed by the name of every requirement walked.
   */
  function FilterServices(conf: PipelineConf, includeNames: seq<string>, ghost rank: Service -> nat)
    : (r: Result<(seq<string>, PipelineConf)>)
    requires Ranked(conf.services, rank)
    ensures r.Ok? ==> |r.value.0| >= |includeNames| && r.value.0[..|includeNames|] == includeNames
    ensures r.Ok? ==> r.value.1.connectors == conf.connectors && r.value.1.metadata.None?
    ensures r.Ok? ==> Get(r.value.1.services, "last_chance_service") == Get(conf.services, "last_chance_service")
    ensures r.Ok? ==> Get(r.value.1.services, "timeout_service") == Get(conf.services, "timeout_service")
    ensures (r.Ok? ==> Get(r.value.1.services, "response_annotator_selectors") ==
                       Get(conf.services, "response_annotator_selectors"))
    ensures r.Ok? ==> Get(r.value.1.services, "skill_selectors") == Get(conf.services, "skill_selectors")
  {
    var sl := conf.services;
    var chosen := FilterByName(sl, includeNames);
    var f :- RecordAllSelected(sl, Filtering(EMPTY_FILTERED, includeNames), chosen.items, rank);
    if chosen.failure.Some? then Err(chosen.failure.value)
    else
      var lastChance :- Attribute(sl, "last_chance_service");
      var timeout :- Attribute(sl, "timeout_service");
      var responseAnnotatorSelectors :- Attribute(sl, "response_annotator_selectors");
      var skillSelectors :- Attribute(sl, "skill_selectors");
      RecordAllSelectedNames(sl, Filtering(EMPTY_FILTERED, includeNames), chosen.items, rank);
      Ok((f.names, PipelineConf(conf.connectors, FilteredList(f.filtered, lastChance, timeout, responseAnnotatorSelectors, skillSelectors), None)))
  }

  /** The names of a run of entries. */
  function NamesOf(es: seq<Entry>): seq<string>
  {
    if es == [] then [] else [es[0].name] + NamesOf(es[1..])
  }

  /** The names of everything the walks of the selected services yield, in walk order. */
  function WalkedNames(sl: ServiceList, selected: seq<Entry>, ghost rank: Service -> nat): seq<string>
    requires Ranked(sl, rank)
  {
    if selected == [] then [] else NamesOf(Walk(sl, selected[0].service, rank).items) + WalkedNames(sl, selected[1..], rank)
  }

  lemma AppendAssoc<T>(a: seq<T>, b: seq<T>, c: seq<T>)
    ensures a + (b + c) == (a + b) + c
  {
  }

  lemma {:induction false} RecordRequirementsNames(f: Filtering, reqs: seq<Entry>)
    requires RecordRequirements(f, reqs).Ok?
    ensures RecordRequirements(f, reqs).value.names == f.names + NamesOf(reqs)
    decreases |reqs|
  {
    if reqs == [] {
      assert RecordRequirements(f, reqs) == Ok(f);
      assert NamesOf(reqs) == [];
    } else {
      var put := Put(f.filtered, reqs[0]);
      assert put.Ok?;
      var next := Filtering(put.value, f.names + [reqs[0].name]);
      assert RecordRequirements(f, reqs) == RecordRequirements(next, reqs[1..]);
      RecordRequirementsNames(next, reqs[1..]);
      var tail := NamesOf(reqs[1..]);
      assert NamesOf(reqs) == [reqs[0].name] + tail;
      AppendAssoc(f.names, [reqs[0].name], tail);
    }
  }

  /** The name list grows by exactly the walked names. */
  lemma {:induction false} RecordAllSelectedNames(sl: ServiceList, f: Filtering, selected: seq<Entry>, rank: Service -> nat)
    requires Ranked(sl, rank)
    requires RecordAllSelected(sl, f, selected, rank).Ok?
    ensures RecordAllSelected(sl, f, selected, rank).value.names == f.names + WalkedNames(sl, selected, rank)
    decreases |selected|
  {
    if selected == [] {
      assert RecordAllSelected(sl, f, selected, rank) == Ok(f);
      assert WalkedNames(sl, selected, rank) == [];
    } else {
      var e := selected[0];
      var one := RecordSelected(sl, f, e, rank);
      assert one.Ok?;
      var put := Put(f.filtered, e);
      assert put.Ok?;
      var walk := Walk(sl, e.service, rank);
      var recorded := RecordRequirements(Filtering(put.value, f.names), walk.items);
      assert recorded.Ok? && one.value == recorded.value;
      RecordRequirementsNames(Filtering(put.value, f.names), walk.items);
      assert RecordAllSelected(sl, f, selected, rank) == RecordAllSelected(sl, one.value, selected[1..], rank);
      RecordAllSelectedNames(sl, one.value, selected[1..], rank);
      assert WalkedNames(sl, selected, rank) == NamesOf(walk.items) + WalkedNames(sl, selected[1..], rank);
      AppendAssoc(f.names, NamesOf(walk.items), WalkedNames(sl, selected[1..], rank));
    }
  }

  /** The extended name list is the names asked for followed by every walked requirement's name. */
  lemma FilterServicesNames(conf: PipelineConf, includeNames: seq<string>, rank: Service -> nat)
    requires Ranked(conf.services, rank)
    requires FilterServices(conf, includeNames, rank).Ok?
    ensures (FilterServices(conf, includeNames, rank).value.0 ==
             includeNames + WalkedNames(conf.services, FilterByName(conf.services, includeNames).items, rank))
  {
    RecordAllSelectedNames(conf.services, Filtering(EMPTY_FILTERED, includeNames),
                           FilterByName(conf.services, includeNames).items, rank);
  }

  /** `filter_services` raises when the service list lacks one of the attributes it copies. */
  lemma FilterNeedsCopiedAttribute(conf: PipelineConf, includeNames: seq<string>, rank: Service -> nat, key: string)
    requires Ranked(conf.services, rank)
    requires key == "last_chance_service" || key == "timeout_service" || key == "response_annotator_selectors" || key == "skill_selectors"
    requires key !in Keys(conf.services)
    ensures FilterServices(conf, includeNames, rank).Err?
  {
    assert Attribute(conf.services, key).Err?;
  }

  /**
   * A service list shaped as the schema declares has no
   * `response_annotator_selectors` attribute, so `filter_services` never
   * returns on it.
   */
  lemma ConformingListIsNeverFiltered(conf: PipelineConf, includeNames: seq<string>, rank: Service -> nat)
    requires Ranked(conf.services, rank) && ConformingServiceList(conf.services)
    ensures FilterServices(conf, includeNames, rank).Err?
  {
    UndeclaredSelectors(conf.services);
    FilterNeedsCopiedAttribute(conf, includeNames, rank, "response_annotator_selectors");
  }

  lemma UndeclaredSelectors(sl: ServiceList)
    requires Keys(sl) == SERVICE_LIST_SCHEMA.declared
    ensures "response_annotator_selectors" !in Keys(sl)
  {
    var d := SERVICE_LIST_SCHEMA.declared;
    forall i | 0 <= i < |d|
      ensures d[i] != "response_annotator_selectors"
    {
      assert |"response_annotator_selectors"| == 28;
      if i < 5 {
        assert |d[i]| < 28;
      } else if i == 7 {
        assert |d[i]| == 30;
      } else {
        assert |d[i]| < 28;
      }
    }
  }

  // ---- adding and removing services ------------------------------------------------------

  /** The service list with `def` stored under `name` in `group`. */
  function AddService(sl: ServiceList, group: string, name: string, def: Service): (r: Result<ServiceList>)
    ensures Get(sl, group).None? ==> r == Err(AttributeError)
    ensures Get(sl, group).Some? && GroupItems(sl, group).Err? ==> r == Err(TypeError)
    ensures r.Ok? <==> GroupItems(sl, group).Ok?
    ensures (r.Ok? ==>
               Keys(r.value) == Keys(sl) &&
               GroupItems(r.value, group) == Ok(Set(GroupItems(sl, group).value, name, def)) &&
               forall g | g != group :: Get(r.value, g) == Get(sl, g))
  {
    var v: Option<GroupValue> := Get(sl, group);
    match v
    case None => Err(AttributeError)
    case Some(ServiceGroup(Some(d))) => Ok(Set(sl, group, ServiceGroup(Some(Set(d, name, def)))))
    case Some(_) => Err(TypeError)
  }

  /** The service list without `name` in `group`. */
  function RemoveService(sl: ServiceList, group: string, name: string): (r: Result<ServiceList>)
    ensures Get(sl, group).None? ==> r == Err(KeyError(group + " is not a valid service group"))
    ensures Get(sl, group).Some? && GroupItems(sl, group).Err? ==> r == Err(TypeError)
    ensures (GroupItems(sl, group).Ok? && name !in Keys(GroupItems(sl, group).value) ==>
               r == Err(KeyError(name + " is not in the service list")))
    ensures r.Ok? <==> GroupItems(sl, group).Ok? && name in Keys(GroupItems(sl, group).value)
    ensures (r.Ok? ==>
               Keys(r.value) == Keys(sl) &&
               GroupItems(r.value, group) == Ok(Remove(GroupItems(sl, group).value, name)) &&
               forall g | g != group :: Get(r.value, g) == Get(sl, g))
  {
    var v: Option<GroupValue> := Get(sl, group);
    match v
    case None => Err(KeyError(group + " is not a valid service group"))
    case Some(ServiceGroup(Some(d))) =>
      if name in Keys(d) then Ok(Set(sl, group, ServiceGroup(Some(Remove(d, name)))))
      else Err(KeyError(name + " is not in the service list"))
    case Some(_) => Err(TypeError)
  }

  /** Removing a service just added under a new name gives the service list back. */
  lemma {:induction false} AddThenRemoveService(sl: ServiceList, group: string, name: string, def: Service)
    requires GroupItems(sl, group).Ok? && name !in Keys(GroupItems(sl, group).value)
    ensures AddService(sl, group, name, def).Ok?
    ensures RemoveService(AddService(sl, group, name, def).value, group, name) == Ok(sl)
  {
    var d := GroupItems(sl, group).value;
    assert Get(sl, group) == Some(ServiceGroup(Some(d)));
    var d' := Set(d, name, def);
    var added := Set(sl, group, ServiceGroup(Some(d')));
    assert AddService(sl, group, name, def) == Ok(added);
    assert Get(added, group) == Some(ServiceGroup(Some(d'))) && name in Keys(d');
    RemoveAfterSet(d, name, def);
    assert RemoveService(added, group, name) == Ok(Set(added, group, ServiceGroup(Some(d))));
    SetTwice(sl, group, ServiceGroup(Some(d')), ServiceGroup(Some(d)));
    SetExisting(sl, group);
  }

  // ---- ports and container names -----------------------------------------------------------

  /**
   * `discover_port`: the port of the service's url as an int; a reference
   * connector or a missing url gives None, a malformed url or port raises.
   */
  function DiscoverPort(s: Service): (r: Result<Option<int>>)
    ensures s.connector.ConnectorRef? ==> r == Ok(None)
    ensures s.connector.ConnectorInline? && !UrlGiven(s.connector.def.url) ==> r == Ok(None)
    ensures (r.Ok? && r.value.Some? ==>
               s.connector.ConnectorInline? && ParseConnectorUrl(s.connector.def.url).Ok? &&
               ParseInt(ParseConnectorUrl(s.connector.def.url).value.port) == Some(r.value.value))
    ensures r.Err? ==> r.error.ValueError?
  {
    match s.connector
    case ConnectorRef(_) => Ok(None)
    case ConnectorInline(def) =>
      if !UrlGiven(def.url) then Ok(None)
      else
        var a :- ParseConnectorUrl(def.url);
        var p :- Int(a.port);
        Ok(Some(p))
  }

  /** A url written `scheme://host:p/endpoint` gives port `p`. */
  lemma DiscoverPortOfBuiltUrl(s: Service, scheme: string, host: string, p: int, endpoint: string)
    requires ':' !in host && '/' !in host
    requires !Contains(endpoint, "//") && (endpoint == [] || endpoint[0] != '/')
    requires s.connector.ConnectorInline? && s.connector.def.url == Some(BuildConnectorUrl(scheme, host, IntToString(p), endpoint))
    ensures DiscoverPort(s) == Ok(Some(p))
  {
    var port := IntToString(p);
    assert ':' !in port && '/' !in port by {
      assert forall k | 0 <= k < |port| :: port[k] == '-' || IsDigit(port[k]);
    }
    ParseBuildRoundTrip(scheme, host, port, endpoint);
    IntRoundTrip(p);
  }

  /** The host of a url, or None where the codec raises. */
  function HostOrNone(url: Option<string>): (r: Option<string>)
    ensures r.Some? <==> ParseConnectorUrl(url).Ok?
    ensures r.Some? ==> r.value == ParseConnectorUrl(url).value.host
  {
    match ParseConnectorUrl(url)
    case Ok(a) => Some(a.host)
    case Err(_) => None
  }

  /** A distribution's pipeline configuration document. */
  class DreamPipeline {
    var config: PipelineConf

    constructor (config: PipelineConf)
      ensures this.config == config
    {
      this.config := config;
    }

    /**
     * `resolve_container_name`: a "connectors..." reference is looked up in
     * the connectors table first; the url's host is the name, and a
     * missing or malformed url gives None instead of raising.
     */
    function ResolveContainerName(connector: ConnectorField): (r: Result<Option<string>>)
      reads this
      ensures connector.ConnectorInline? ==> r == Ok(HostOrNone(connector.def.url))
      ensures connector.ConnectorRef? && !StartsWith(connector.name, "connectors") ==> r == Ok(None)
      ensures (connector.ConnectorRef? && StartsWith(connector.name, "connectors") ==>
                 var key := Last(SplitOnce(connector.name, "."));
                 (config.connectors.None? ==> r == Err(TypeError)) &&
                 (config.connectors.Some? && Get(config.connectors.value, key).None? ==> r == Err(KeyError("'" + key + "'"))) &&
                 (config.connectors.Some? && Get(config.connectors.value, key).Some? ==>
                    r == Ok(HostOrNone(Get(config.connectors.value, key).value.url))))
    {
      match connector
      case ConnectorInline(def) => Ok(HostOrNone(def.url))
      case ConnectorRef(name) =>
        if !StartsWith(name, "connectors") then Ok(None)
        else
          var key := Last(SplitOnce(name, "."));
          if config.connectors.None? then Err(TypeError)
          else
            match Get(config.connectors.value, key)
            case None => Err(KeyError("'" + key + "'"))
            case Some(def) => Ok(HostOrNone(def.url))
    }

    /** The key of a reference `connectors.<key>` is everything after the first '.'. */
    static lemma ReferenceKey(key: string)
      ensures StartsWith("connectors." + key, "connectors")
      ensures Last(SplitOnce("connectors." + key, ".")) == key
    {
      var s := "connectors." + key;
      assert s == "connectors" + ['.'] + key;
      FindFirstChar("connectors", '.', key);
      assert s[..10] == "connectors" && s[11..] == key;
    }

    /**
     * A reference `connectors.<key>` names the host of the url the table
     * gives `key`, as the inline connector itself would; without a table it
     * raises TypeError, and a key the table lacks raises KeyError.
     */
    lemma ResolveContainerNameOfBuiltUrl(key: string, scheme: string, host: string, port: string, endpoint: string)
      requires ':' !in host && '/' !in host && ':' !in port && '/' !in port
      requires !Contains(endpoint, "//") && (endpoint == [] || endpoint[0] != '/')
      ensures (config.connectors.Some? && Get(config.connectors.value, key).Some?
               && Get(config.connectors.value, key).value.url == Some(BuildConnectorUrl(scheme, host, port, endpoint)) ==>
               ResolveContainerName(ConnectorRef("connectors." + key)) == Ok(Some(host))
               && ResolveContainerName(ConnectorInline(Get(config.connectors.value, key).value)) == Ok(Some(host)))
      ensures config.connectors.None? ==> ResolveContainerName(ConnectorRef("connectors." + key)) == Err(TypeError)
      ensures (config.connectors.Some? && !HasKey(config.connectors.value, key) ==>
               ResolveContainerName(ConnectorRef("connectors." + key)) == Err(KeyError("'" + key + "'")))
    {
      ReferenceKey(key);
      ParseBuildRoundTrip(scheme, host, port, endpoint);
    }

    /**
     * Away from the connectors table, the resolved name is the service's
     * container name, with a url that does not parse giving None rather
     * than raising.
     */
    lemma ResolvedNameIsContainerName(s: Service)
      requires !(s.connector.ConnectorRef? && StartsWith(s.connector.name, "connectors"))
      ensures ContainerName(s).Ok? ==> ResolveContainerName(s.connector) == ContainerName(s)
      ensures ContainerName(s).Err? ==> ResolveContainerName(s.connector) == Ok(None)
    {
    }

    /** `display_name`: AttributeError without metadata. */
    function DisplayName(): (r: Result<string>)
      reads this
      ensures r.Ok? <==> config.metadata.Some?
      ensures r.Ok? ==> r.value == config.metadata.value.displayName
    {
      if config.metadata.None? then Err(AttributeError) else Ok(config.metadata.value.displayName)
    }

    /** The `display_name` setter. */
    method SetDisplayName(v: string) returns (r: Outcome)
      modifies this
      ensures r.Fail? <==> old(config.metadata).None?
      ensures r.Fail? ==> r.error == AttributeError && config == old(config)
      ensures r.Pass? ==> config == old(config).(metadata := Some(old(config.metadata).value.(displayName := v)))
      ensures r.Pass? ==> DisplayName() == Ok(v)
    {
      if config.metadata.None? {
        return Fail(AttributeError);
      }
      config := config.(metadata := Some(config.metadata.value.(displayName := v)));
      return Pass;
    }

    /** The `description` setter. */
    method SetDescription(v: string) returns (r: Outcome)
      modifies this
      ensures r.Fail? <==> old(config.metadata).None?
      ensures r.Fail? ==> r.error == AttributeError && config == old(config)
      ensures r.Pass? ==> config == old(config).(metadata := Some(old(config.metadata).value.(description := v)))
    {
      if config.metadata.None? {
        return Fail(AttributeError);
      }
      config := config.(metadata := Some(config.metadata.value.(description := v)));
      return Pass;
    }

    /**
     * `add_component`.  The group mapping the code edits belongs to a
     * shallow copy of the configuration and is shared with it, so this
     * configuration gains the service even when a new instance is returned;
     * the configuration built keeps the connectors and drops the metadata.
     */
    method AddComponent(name: string, group: string, def: Service, inplace: bool) returns (r: Result<DreamPipeline>)
      modifies this
      ensures (var added := AddService(old(config.services), group, name, def);
               (r.Err? <==> added.Err?) &&
               (r.Err? ==> r.error == added.error && config == old(config)) &&
               (r.Ok? && inplace ==> r.value == this && config == PipelineConf(old(config.connectors), added.value, None)) &&
               (r.Ok? && !inplace ==>
                  config == old(config).(services := added.value) && fresh(r.value) &&
                  r.value.config == PipelineConf(old(config.connectors), added.value, None)))
    {
      var added := AddService(config.services, group, name, def);
      if added.Err? {
        return Err(added.error);
      }
      var built := PipelineConf(config.connectors, added.value, None);
      if inplace {
        config := built;
        r := Ok(this);
      } else {
        config := config.(services := added.value);
        var copy := new DreamPipeline(built);
        r := Ok(copy);
      }
    }

    /** `remove_component`, with the same sharing as `AddComponent`. */
    method RemoveComponent(group: string, name: string, inplace: bool) returns (r: Result<DreamPipeline>)
      modifies this
      ensures (var removed := RemoveService(old(config.services), group, name);
               (r.Err? <==> removed.Err?) &&
               (r.Err? ==> r.error == removed.error && config == old(config)) &&
               (r.Ok? && inplace ==> r.value == this && config == PipelineConf(old(config.connectors), removed.value, None)) &&
               (r.Ok? && !inplace ==>
                  config == old(config).(services := removed.value) && fresh(r.value) &&
                  r.value.config == PipelineConf(old(config.connectors), removed.value, None)))
    {
      var removed := RemoveService(config.services, group, name);
      if removed.Err? {
        return Err(removed.error);
      }
      var built := PipelineConf(config.connectors, removed.value, None);
      if inplace {
        config := built;
        r := Ok(this);
      } else {
        config := config.(services := removed.value);
        var copy := new DreamPipeline(built);
        r := Ok(copy);
      }
    }

    /**
     * `filter_services` as the code runs it: a loop over the selected
     * services, each recorded with everything its requirement walk yields.
     * This configuration is not changed.
     */
    method FilterServicesOf(includeNames: seq<string>, ghost rank: Service -> nat) returns (r: Result<(seq<string>, DreamPipeline)>)
      requires Ranked(config.services, rank)
      ensures (var spec := FilterServices(config, includeNames, rank);
               (r.Err? <==> spec.Err?) && (r.Err? ==> r.error == spec.error) &&
               (r.Ok? ==> r.value.0 == spec.value.0 && fresh(r.value.1) && r.value.1.config == spec.value.1))
    {
      var sl := config.services;
      var chosen := FilterByName(sl, includeNames);
      var recorded := RecordAllSelectedLoop(sl, Filtering(EMPTY_FILTERED, includeNames), chosen.items, rank);
      if recorded.Err? {
        return Err(recorded.error);
      }
      if chosen.failure.Some? {
        return Err(chosen.failure.value);
      }
      var f := recorded.value;
      var lastChance := Attribute(sl, "last_chance_service");
      if lastChance.Err? {
        return Err(lastChance.error);
      }
      var timeout := Attribute(sl, "timeout_service");
      if timeout.Err? {
        return Err(timeout.error);
      }
      var responseAnnotatorSelectors := Attribute(sl, "response_annotator_selectors");
      if responseAnnotatorSelectors.Err? {
        return Err(responseAnnotatorSelectors.error);
      }
      var skillSelectors := Attribute(sl, "skill_selectors");
      if skillSelectors.Err? {
        return Err(skillSelectors.error);
      }
      var services := FilteredList(f.filtered, lastChance.value, timeout.value, responseAnnotatorSelectors.value, skillSelectors.value);
      var copy := new DreamPipeline(PipelineConf(config.connectors, services, None));
      r := Ok((f.names, copy));
    }
  }

  /** The outer loop of `filter_services`: each selected service, then its requirement walk. */
  method RecordAllSelectedLoop(sl: ServiceList, init: Filtering, items: seq<Entry>, ghost rank: Service -> nat)
    returns (r: Result<Filtering>)
    requires Ranked(sl, rank)
    ensures r == RecordAllSelected(sl, init, items, rank)
  {
    var f := init;
    var i := 0;
    while i < |items|
      invariant 0 <= i <= |items|
      invariant RecordAllSelected(sl, init, items, rank) == RecordAllSelected(sl, f, items[i..], rank)
    {
      var e := items[i];
      assert items[i..][0] == e && items[i..][1..] == items[i + 1..];
      var put := Put(f.filtered, e);
      if put.Err? {
        return Err(put.error);
      }
      var walk := Walk(sl, e.service, rank);
      var recorded := RecordRequirementsLoop(Filtering(put.value, f.names), walk.items);
      if recorded.Err? {
        return Err(recorded.error);
      }
      if walk.failure.Some? {
        return Err(walk.failure.value);
      }
      assert RecordSelected(sl, f, e, rank) == Ok(recorded.value);
      f := recorded.value;
      i := i + 1;
    }
    return Ok(f);
  }

  /** The inner loop of `filter_services`: every requirement walked, recorded in order. */
  method RecordRequirementsLoop(init: Filtering, reqs: seq<Entry>) returns (r: Result<Filtering>)
    ensures r == RecordRequirements(init, reqs)
  {
    var f := init;
    var j := 0;
    while j < |reqs|
      invariant 0 <= j <= |reqs|
      invariant RecordRequirements(init, reqs) == RecordRequirements(f, reqs[j..])
    {
      assert reqs[j..][0] == reqs[j] && reqs[j..][1..] == reqs[j + 1..];
      var put := Put(f.filtered, reqs[j]);
      if put.Err? {
        return Err(put.error);
      }
      f := Filtering(put.value, f.names + [reqs[j].name]);
      j := j + 1;
    }
    return Ok(f);
  }
}
