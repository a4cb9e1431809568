/**
 * `DreamComponent.from_component_dir`: picking a component's pipeline entry
 * out of its already-loaded component card and pipeline documents.
 */
module Components {
  import opened Wrappers
  import opened Json
  import opened PurePath
  import opened Utils

  const COMPONENT_CARD_FILENAME := "component.yml"
  const COMPONENT_PIPELINE_FILENAME := "pipeline.yml"

  /**
   * A loaded component.  `pipeline` is the selected pipeline entry, or the
   * whole loaded pipeline document when no entry was selected.
   */
  datatype LoadedComponent = LoadedComponent(
    componentDir: Path,
    config: Json,
    pipeline: Json,
    containerName: string,
    group: string,
    endpoint: Option<string>)

  /** Python truthiness of the optional endpoint argument. */
  predicate EndpointGiven(endpoint: Option<string>)
  {
    endpoint.Some? && endpoint.value != ""
  }

  function UndefinedEndpoint(endpoint: string, group: string, pipelinePath: Path): Error
  {
    ValueError("Endpoint " + endpoint + " not defined for " + group + " in " + PathText(pipelinePath))
  }

  function MissingContainer(containerName: string, documentPath: Path): Error
  {
    KeyError(containerName + " container does not exist in " + PathText(documentPath))
  }

  /**
   * What one pipeline entry does to the selection: it is picked (true),
   * skipped (false), or it raises.
   */
  function Verdict(pl: Json, group: string, endpoint: Option<string>, pipelinePath: Path): Result<bool>
  {
    var g :- Index(pl, "group");
    if g != JStr(group) then Ok(false)
    else if !EndpointGiven(endpoint) then Ok(true)
    else
      var connector :- Index(pl, "connector");
      UrlVerdict(connector, group, endpoint.value, pipelinePath)
  }

  /** The endpoint test on an entry's connector: its url must be set and parse with that endpoint. */
  function UrlVerdict(connector: Json, group: string, endpoint: string, pipelinePath: Path): Result<bool>
  {
    var url :- GetField(connector, "url");
    if !JsonTruthy(url) then Err(UndefinedEndpoint(endpoint, group, pipelinePath))
    else
      var address :- ParseConnectorUrl(AsText(url));
      Ok(address.endpoint == endpoint)
  }

  /** The verdict on each entry, for one request. */
  function VerdictOf(group: string, endpoint: Option<string>, pipelinePath: Path): Json -> Result<bool>
  {
    pl => Verdict(pl, group, endpoint, pipelinePath)
  }

  /** The selection after the given entries, in order: the last picked entry, or the first error. */
  function Scan(entries: seq<Json>, verdict: Json -> Result<bool>): Result<Option<Json>>
  {
    if entries == [] then Ok(None)
    else
      var n := |entries| - 1;
      var sel :- Scan(entries[..n], verdict);
      var picked :- verdict(entries[n]);
      Ok(if picked then Some(entries[n]) else sel)
  }

  /** A raised KeyError is reported as the container missing from the document. */
  function Rekey<T>(r: Result<T>, containerName: string, documentPath: Path): (s: Result<T>)
    ensures r.Ok? ==> s == r
    ensures r.Err? && r.error.KeyError? ==> s == Err(MissingContainer(containerName, documentPath))
    ensures r.Err? && !r.error.KeyError? ==> s == r
  {
    if r.Err? && r.error.KeyError? then Err(MissingContainer(containerName, documentPath)) else r
  }

  /**
   * Re-raising keeps success and every other error, and leaves the
   * missing-container message as the only KeyError that escapes; doing it
   * twice is doing it once, so nested handlers for the same container agree.
   */
  lemma RekeyReportsMissingContainer<T>(r: Result<T>, containerName: string, documentPath: Path)
    ensures Rekey(r, containerName, documentPath).Ok? <==> r.Ok?
    ensures r.Ok? ==> Rekey(r, containerName, documentPath).value == r.value
    ensures (Rekey(r, containerName, documentPath).Err? && Rekey(r, containerName, documentPath).error.KeyError? ==>
             Rekey(r, containerName, documentPath).error == MissingContainer(containerName, documentPath))
    ensures r.Err? && !r.error.KeyError? ==> Rekey(r, containerName, documentPath).error == r.error
    ensures Rekey(Rekey(r, containerName, documentPath), containerName, documentPath) == Rekey(r, containerName, documentPath)
  {
  }

  /** The selection rule over a loaded pipeline document. */
  function Selection(pipelineDoc: Json, containerName: string, group: string, endpoint: Option<string>,
                     pipelinePath: Path): Result<Option<Json>>
  {
    var inner :=
      var listed :- Index(pipelineDoc, containerName);
      var entries :- Iterate(listed);
      Scan(entries, VerdictOf(group, endpoint, pipelinePath));
    Rekey(inner, containerName, pipelinePath)
  }

  /** `from_component_dir` on the loaded documents, as a function of its inputs (see `LoadFields`). */
  function Load(path: PathLike, card: Json, pipelineDoc: Json, containerName: string, group: string,
                endpoint: Option<string>): Result<LoadedComponent>
  {
    var dir := ToPath(path);
    var configPath := Div(dir, PathOf(COMPONENT_CARD_FILENAME));
    var pipelinePath := Div(dir, PathOf(COMPONENT_PIPELINE_FILENAME));
    var config :- Rekey(Index(card, containerName), containerName, configPath);
    var selected :- Selection(pipelineDoc, containerName, group, endpoint, pipelinePath);
    Ok(LoadedComponent(dir, config, if selected.Some? then selected.value else pipelineDoc, containerName, group, endpoint))
  }

  /**
   * `DreamComponent.from_component_dir` after the two documents are loaded:
   * the loop over the container's pipeline entries.
   */
  method FromComponentDir(path: PathLike, card: Json, pipelineDoc: Json, containerName: string, group: string,
                          endpoint: Option<string>) returns (r: Result<LoadedComponent>)
    ensures r == Load(path, card, pipelineDoc, containerName, group, endpoint)
  {
    var dir := ToPath(path);
    var configPath := Div(dir, PathOf(COMPONENT_CARD_FILENAME));
    var pipelinePath := Div(dir, PathOf(COMPONENT_PIPELINE_FILENAME));
    var config := Index(card, containerName);
    if config.Err? {
      return Rekey(config, containerName, configPath).PropagateFailure();
    }
    var listed := Index(pipelineDoc, containerName);
    if listed.Err? {
      return Rekey(listed, containerName, pipelinePath).PropagateFailure();
    }
    var entries := Iterate(listed.value);
    if entries.Err? {
      return entries.PropagateFailure();
    }
    var pipeline := SelectEntry(entries.value, pipelineDoc, group, endpoint, pipelinePath);
    if pipeline.Err? {
      return Rekey(Err(pipeline.error), containerName, pipelinePath);
    }
    return Ok(LoadedComponent(dir, config.value, pipeline.value, containerName, group, endpoint));
  }

  /**
   * The loop over the container's entries: the last picked entry, the whole
   * document `pipelineDoc` when none is picked, or the first error raised.
   */
  method SelectEntry(items: seq<Json>, pipelineDoc: Json, group: string, endpoint: Option<string>, pipelinePath: Path)
    returns (r: Result<Json>)
    ensures (Scan(items, VerdictOf(group, endpoint, pipelinePath)).Err? ==>
             r == Err(Scan(items, VerdictOf(group, endpoint, pipelinePath)).error))
    ensures (Scan(items, VerdictOf(group, endpoint, pipelinePath)).Ok? ==>
             r == Ok(var sel := Scan(items, VerdictOf(group, endpoint, pipelinePath)).value;
                     if sel.Some? then sel.value else pipelineDoc))
  {
    var pipelineDict: Option<Json> := None;
    var pipeline := pipelineDoc;
    var i := 0;
    while i < |items|
      invariant 0 <= i <= |items|
      invariant Scan(items[..i], VerdictOf(group, endpoint, pipelinePath)) == Ok(pipelineDict)
      invariant pipeline == if pipelineDict.Some? then pipelineDict.value else pipelineDoc
    {
      assert items[..i + 1][..i] == items[..i];
      var pl := items[i];
      var picked := Examine(pl, group, endpoint, pipelinePath);
      if picked.Err? {
        ScanKeepsError(items, i + 1, VerdictOf(group, endpoint, pipelinePath));
        return Err(picked.error);
      }
      if picked.value {
        pipelineDict := Some(pl);
      }
      if pipelineDict.Some? {
        pipeline := pipelineDict.value;
      }
      i := i + 1;
    }
    assert items[..|items|] == items;
    return Ok(pipeline);
  }

  /** The body of the loop: whether one entry is picked, or what it raises. */
  method Examine(pl: Json, group: string, endpoint: Option<string>, pipelinePath: Path) returns (r: Result<bool>)
    ensures r == Verdict(pl, group, endpoint, pipelinePath)
  {
    var g := Index(pl, "group");
    if g.Err? {
      return g.PropagateFailure();
    }
    if g.value != JStr(group) {
      return Ok(false);
    }
    if !EndpointGiven(endpoint) {
      return Ok(true);
    }
    var connector := Index(pl, "connector");
    if connector.Err? {
      return connector.PropagateFailure();
    }
    var url := GetField(connector.value, "url");
    if url.Err? {
      return url.PropagateFailure();
    }
    if !JsonTruthy(url.value) {
      return Err(UndefinedEndpoint(endpoint.value, group, pipelinePath));
    }
    var address := ParseConnectorUrl(AsText(url.value));
    if address.Err? {
      return address.PropagateFailure();
    }
    return Ok(endpoint.value == address.value.endpoint);
  }

  /** Once a prefix of the entries raises, the whole scan raises the same. */
  lemma {:induction false} ScanKeepsError(items: seq<Json>, k: nat, verdict: Json -> Result<bool>)
    requires k <= |items|
    requires Scan(items[..k], verdict).Err?
    ensures Scan(items, verdict) == Scan(items[..k], verdict)
    decreases |items|
  {
    if k == |items| {
      assert items[..k] == items;
    } else {
      var n := |items| - 1;
      assert items[..n][..k] == items[..k];
      ScanKeepsError(items[..n], k, verdict);
    }
  }

  // ---- the selection rule -------------------------------------------------

  /** Whether an entry is picked, when it raises nothing. */
  predicate Picked(pl: Json, group: string, endpoint: Option<string>, pipelinePath: Path)
  {
    Verdict(pl, group, endpoint, pipelinePath) == Ok(true)
  }

  /** The scan raises exactly when some entry raises, and then with the first such entry's error. */
  lemma {:induction false} ScanRaisesFirstError(entries: seq<Json>, verdict: Json -> Result<bool>)
    ensures Scan(entries, verdict).Ok? <==> forall i | 0 <= i < |entries| :: verdict(entries[i]).Ok?
    ensures (Scan(entries, verdict).Err? ==>
             exists i | 0 <= i < |entries| ::
               verdict(entries[i]) == Err(Scan(entries, verdict).error) && forall j | 0 <= j < i :: verdict(entries[j]).Ok?)
  {
    if entries != [] {
      var n := |entries| - 1;
      var prefix := entries[..n];
      ScanRaisesFirstError(prefix, verdict);
      assert forall i | 0 <= i < n :: prefix[i] == entries[i];
    }
  }

  /**
   * A scan that raises nothing selects the last picked entry, and nothing
   * when no entry is picked.
   */
  lemma {:induction false} ScanSelectsLastPicked(entries: seq<Json>, verdict: Json -> Result<bool>, sel: Option<Json>)
    requires Scan(entries, verdict) == Ok(sel)
    ensures sel.None? ==> forall i | 0 <= i < |entries| :: verdict(entries[i]) != Ok(true)
    ensures (sel.Some? ==> exists i | 0 <= i < |entries| ::
               entries[i] == sel.value && verdict(entries[i]) == Ok(true)
               && forall j | i < j < |entries| :: verdict(entries[j]) != Ok(true))
  {
    if entries != [] {
      var n := |entries| - 1;
      var prefix := entries[..n];
      var before := Scan(prefix, verdict);
      assert before.Ok?;
      ScanSelectsLastPicked(prefix, verdict, before.value);
      assert forall i | 0 <= i < n :: prefix[i] == entries[i];
      if verdict(entries[n]) != Ok(true) && sel.Some? {
        var i :| 0 <= i < n && prefix[i] == sel.value && verdict(prefix[i]) == Ok(true)
          && forall j | i < j < n :: verdict(prefix[j]) != Ok(true);
        assert entries[i] == sel.value;
      }
    }
  }

  /**
   * An entry raises when it has no group, is skipped when its group is
   * another one, and is picked on its group alone without an endpoint; with
   * an endpoint, a falsy connector url raises the "not defined" ValueError
   * and a picked entry has a string url whose endpoint is the requested one.
   */
  lemma VerdictCases(pl: Json, group: string, endpoint: Option<string>, pipelinePath: Path)
    ensures Index(pl, "group").Err? ==> Verdict(pl, group, endpoint, pipelinePath) == Err(Index(pl, "group").error)
    ensures Index(pl, "group").Ok? && Index(pl, "group").value != JStr(group) ==> Verdict(pl, group, endpoint, pipelinePath) == Ok(false)
    ensures Index(pl, "group") == Ok(JStr(group)) && !EndpointGiven(endpoint) ==> Verdict(pl, group, endpoint, pipelinePath) == Ok(true)
    ensures (Index(pl, "group") == Ok(JStr(group)) && EndpointGiven(endpoint) &&
             pl.JObj? && Index(pl, "connector").Ok? && Index(pl, "connector").value.JObj? &&
             !JsonTruthy(GetField(Index(pl, "connector").value, "url").value)
             ==> Verdict(pl, group, endpoint, pipelinePath) == Err(UndefinedEndpoint(endpoint.value, group, pipelinePath)))
    ensures (Verdict(pl, group, endpoint, pipelinePath) == Ok(true) && EndpointGiven(endpoint) ==>
             exists u: string :: Index(pl, "connector").Ok? && GetField(Index(pl, "connector").value, "url") == Ok(JStr(u))
                                 && ParseConnectorUrl(Some(u)).Ok? && ParseConnectorUrl(Some(u)).value.endpoint == endpoint.value)
  {
  }

  /** Without an endpoint, an entry is picked exactly when its group is the requested one. */
  lemma PickedWithoutEndpoint(pl: Json, group: string, endpoint: Option<string>, pipelinePath: Path)
    requires !EndpointGiven(endpoint)
    requires Index(pl, "group").Ok?
    ensures Picked(pl, group, endpoint, pipelinePath) <==> Index(pl, "group").value == JStr(group)
  {
  }

  /**
   * With an endpoint, an entry is picked exactly when its group is the
   * requested one and its connector url parses with that endpoint.
   */
  lemma PickedWithEndpoint(pl: Json, group: string, endpoint: Option<string>, pipelinePath: Path)
    requires EndpointGiven(endpoint)
    ensures (Picked(pl, group, endpoint, pipelinePath) <==>
             Index(pl, "group") == Ok(JStr(group)) && Index(pl, "connector").Ok?
             && GetField(Index(pl, "connector").value, "url").Ok?
             && AsText(GetField(Index(pl, "connector").value, "url").value).Some?
             && ParseConnectorUrl(AsText(GetField(Index(pl, "connector").value, "url").value)).Ok?
             && ParseConnectorUrl(AsText(GetField(Index(pl, "connector").value, "url").value)).value.endpoint == endpoint.value)
  {
    var g := Index(pl, "group");
    var connector := Index(pl, "connector");
    if g == Ok(JStr(group)) && connector.Ok? {
      UrlVerdictPicks(connector.value, group, endpoint.value, pipelinePath);
    }
  }

  /** A connector passes the endpoint test exactly when its url parses with that endpoint. */
  lemma UrlVerdictPicks(connector: Json, group: string, endpoint: string, pipelinePath: Path)
    ensures (UrlVerdict(connector, group, endpoint, pipelinePath) == Ok(true) <==>
             GetField(connector, "url").Ok? && AsText(GetField(connector, "url").value).Some?
             && ParseConnectorUrl(AsText(GetField(connector, "url").value)).Ok?
             && ParseConnectorUrl(AsText(GetField(connector, "url").value)).value.endpoint == endpoint)
  {
    var v := UrlVerdict(connector, group, endpoint, pipelinePath);
    var url := GetField(connector, "url");
    if url.Err? {
      assert v.Err?;
    } else if !JsonTruthy(url.value) {
      assert v.Err?;
      if url.value.JStr? {
        assert url.value == JStr("");
        EmptyUrlRejected();
      }
    } else {
      var address := ParseConnectorUrl(AsText(url.value));
      assert v == if address.Err? then Err(address.error) else Ok(address.value.endpoint == endpoint);
    }
  }

  /**
   * A container missing from the card raises the KeyError naming the card; a loaded component
   * records its directory, container, group and endpoint, and takes its config from the card.
   */
  lemma LoadFields(path: PathLike, card: Json, pipelineDoc: Json, containerName: string, group: string,
                   endpoint: Option<string>)
    ensures (var configPath := Div(ToPath(path), PathOf(COMPONENT_CARD_FILENAME));
             card.JObj? && FieldOf(card.fields, containerName).None? ==>
             Load(path, card, pipelineDoc, containerName, group, endpoint) == Err(MissingContainer(containerName, configPath)))
    ensures (var r := Load(path, card, pipelineDoc, containerName, group, endpoint);
             r.Ok? ==> r.value.componentDir == ToPath(path) && r.value.containerName == containerName
                       && r.value.group == group && r.value.endpoint == endpoint)
    ensures (var r := Load(path, card, pipelineDoc, containerName, group, endpoint);
             r.Ok? ==> Index(card, containerName) == Ok(r.value.config))
  {
  }

  /** When no entry is picked and none raises, the component keeps the whole pipeline document. */
  lemma NothingPickedKeepsDocument(path: PathLike, card: Json, pipelineDoc: Json, containerName: string, group: string,
                                   endpoint: Option<string>, entries: seq<Json>)
    requires Index(card, containerName).Ok?
    requires Index(pipelineDoc, containerName) == Ok(JList(entries))
    requires forall i | 0 <= i < |entries| :: Verdict(entries[i], group, endpoint,
                Div(ToPath(path), PathOf(COMPONENT_PIPELINE_FILENAME))) == Ok(false)
    ensures Load(path, card, pipelineDoc, containerName, group, endpoint).Ok?
    ensures Load(path, card, pipelineDoc, containerName, group, endpoint).value.pipeline == pipelineDoc
  {
    var pipelinePath := Div(ToPath(path), PathOf(COMPONENT_PIPELINE_FILENAME));
    var verdict := VerdictOf(group, endpoint, pipelinePath);
    ScanRaisesFirstError(entries, verdict);
    var sel := Scan(entries, verdict).value;
    ScanSelectsLastPicked(entries, verdict, sel);
  }

  /** A container missing from the pipeline document raises the KeyError naming that document. */
  lemma MissingPipelineContainer(path: PathLike, card: Json, pipelineDoc: Json, containerName: string, group: string,
                                 endpoint: Option<string>)
    requires Index(card, containerName).Ok?
    requires pipelineDoc.JObj? && FieldOf(pipelineDoc.fields, containerName).None?
    ensures Load(path, card, pipelineDoc, containerName, group, endpoint)
            == Err(MissingContainer(containerName, Div(ToPath(path), PathOf(COMPONENT_PIPELINE_FILENAME))))
  {
  }
}
