/**
 * Helpers shared by the distribution code: the connector-url codec, the
 * recursive field search over loaded documents, and the resolution of a
 * distribution's path, name and Dream root.
 */
module Utils {
  import opened Wrappers
  import opened Text
  import opened Json
  import opened PurePath

  // ---- connector urls -----------------------------------------------------

  /** The three pieces of `http(s)://host:port/endpoint`. */
  datatype Address = Address(host: string, port: string, endpoint: string)

  function Last(pieces: seq<string>): string
    requires |pieces| >= 1
  {
    pieces[|pieces| - 1]
  }

  /** The url without its scheme: the text after the last "//". */
  function SchemeFree(url: string): string
  {
    Last(Split(url, "//"))
  }

  /** The `host:port` part: the scheme-free text up to its first '/'. */
  function Authority(url: string): string
  {
    SplitOnce(SchemeFree(url), "/")[0]
  }

  const URL_FORMAT_TAIL: string := " does not fit the http(s)://{host}:{port}/{endpoint} format"

  function UrlFormatError(shown: string): Error
  {
    ValueError(shown + URL_FORMAT_TAIL)
  }

  /**
   * `parse_connector_url`.  `None` stands for any value that is not a
   * string (None included); the code turns the AttributeError it causes into
   * the same ValueError as a malformed url.
   */
  function ParseConnectorUrl(url: Option<string>): (r: Result<Address>)
    ensures r.Err? ==> r.error.ValueError?
    ensures r.Ok? <==> url.Some? && Count(Authority(url.value), ':') == 1
    ensures r.Ok? ==> ':' !in r.value.host && '/' !in r.value.host
    ensures r.Ok? ==> ':' !in r.value.port && '/' !in r.value.port
    ensures r.Ok? ==>
      var a := r.value;
      (SchemeFree(url.value) == a.host + ":" + a.port && a.endpoint == "")
      || SchemeFree(url.value) == a.host + ":" + a.port + "/" + a.endpoint
  {
    match url
    case None => Err(UrlFormatError("None"))
    case Some(u) =>
      var tail := SchemeFree(u);
      var urlParts := SplitOnce(tail, "/");
      var hostPort := Split(urlParts[0], ":");
      SplitCharCount(urlParts[0], ':');
      if |hostPort| != 2 then Err(UrlFormatError(u))
      else
        SplitPiecesFree(urlParts[0], ":");
        FindChar(hostPort[0], ':');
        FindChar(hostPort[1], ':');
        JoinSplit(urlParts[0], ":");
        assert urlParts[0] == hostPort[0] + ":" + hostPort[1];
        FindChar(urlParts[0], '/');
        Ok(Address(hostPort[0], hostPort[1], if |urlParts| > 1 then urlParts[1] else ""))
  }

  /** An empty url has no `host:port` part and is rejected. */
  lemma EmptyUrlRejected()
    ensures ParseConnectorUrl(Some("")).Err?
  {
    assert Find("", "//").None?;
    assert SchemeFree("") == "";
    assert Find("", "/").None?;
    assert Authority("") == "";
  }

  /** The url the code writes for a connector (as `http://{host}:{port}/respond` does). */
  function BuildConnectorUrl(scheme: string, host: string, port: string, endpoint: string): string
  {
    scheme + "://" + host + ":" + port + "/" + endpoint
  }

  /** A url with no path after the port. */
  function BuildConnectorUrlNoEndpoint(scheme: string, host: string, port: string): string
  {
    scheme + "://" + host + ":" + port
  }

  lemma LastCons(x: string, rest: seq<string>)
    requires |rest| >= 1
    ensures Last([x] + rest) == Last(rest)
  {
  }

  /**
   * Whatever precedes the last "//" is dropped: when `x` does not end in
   * '/' and `rest` neither holds "//" nor starts with '/', the text after
   * the separator is the last piece.
   */
  lemma {:induction false} LastPieceAfter(x: string, rest: string)
    requires x == [] || x[|x| - 1] != '/'
    requires !Contains(rest, "//") && (rest == [] || rest[0] != '/')
    ensures SchemeFree(x + "//" + rest) == rest
    decreases |x|
  {
    var s := x + "//" + rest;
    FirstDoubleSlash(x, rest);
    var i := Find(s, "//").value;
    assert Split(rest, "//") == [rest];
    if i == |x| {
      assert s[..i] == x && s[i + 2..] == rest;
      assert Split(s, "//") == [x] + [rest];
    } else {
      var x' := x[i + 2..];
      assert s[i + 2..] == x' + "//" + rest;
      LastPieceAfter(x', rest);
      LastCons(s[..i], Split(s[i + 2..], "//"));
    }
  }

  /** The first "//" of `x + "//" + rest` is the one added, or lies wholly inside `x`. */
  lemma FirstDoubleSlash(x: string, rest: string)
    requires x == [] || x[|x| - 1] != '/'
    ensures Find(x + "//" + rest, "//").Some?
    ensures var i := Find(x + "//" + rest, "//").value; i == |x| || i + 2 <= |x|
  {
    var s := x + "//" + rest;
    assert s[|x|..|x| + 2] == "//";
    assert OccursAt(s, "//", |x|);
    var i := Find(s, "//").value;
    if i != |x| {
      assert i < |x|;
      assert s[i] == s[i..i + 2][0] == '/';
      assert s[i] == x[i];
    }
  }

  /** `host:port/endpoint` splits at the '/' after the port. */
  lemma AuthorityOf(host: string, port: string, endpoint: string)
    requires ':' !in host && '/' !in host && ':' !in port && '/' !in port
    ensures SplitOnce(host + ":" + port + "/" + endpoint, "/") == [host + ":" + port, endpoint]
    ensures Split(host + ":" + port, ":") == [host, port]
  {
    var hp := host + ":" + port;
    assert '/' !in hp;
    assert host + ":" + port + "/" + endpoint == hp + ['/'] + endpoint;
    FindFirstChar(hp, '/', endpoint);
    assert Join([host, port], ":") == hp;
    SplitJoinChar([host, port], ':');
  }

  /**
   * Parsing a built url gives its pieces back when neither host nor port
   * holds ':' or '/' and the endpoint neither holds "//" nor starts with '/'.
   */
  lemma ParseBuildRoundTrip(scheme: string, host: string, port: string, endpoint: string)
    requires ':' !in host && '/' !in host && ':' !in port && '/' !in port
    requires !Contains(endpoint, "//") && (endpoint == [] || endpoint[0] != '/')
    ensures ParseConnectorUrl(Some(BuildConnectorUrl(scheme, host, port, endpoint)))
      == Ok(Address(host, port, endpoint))
  {
    var rest := host + ":" + port + "/" + endpoint;
    var url := BuildConnectorUrl(scheme, host, port, endpoint);
    assert SchemeFree(url) == rest by {
      assert url == (scheme + ":") + "//" + rest;
      RestHasNoDoubleSlash(host, port, endpoint);
      LastPieceAfter(scheme + ":", rest);
    }
    AuthorityOf(host, port, endpoint);
  }

  lemma RestHasNoDoubleSlash(host: string, port: string, endpoint: string)
    requires ':' !in host && '/' !in host && ':' !in port && '/' !in port
    requires !Contains(endpoint, "//") && (endpoint == [] || endpoint[0] != '/')
    ensures !Contains(host + ":" + port + "/" + endpoint, "//")
    ensures !Contains(host + ":" + port, "//")
  {
    var hp := host + ":" + port;
    var rest := hp + "/" + endpoint;
    forall j | 0 <= j <= |rest|
      ensures !OccursAt(rest, "//", j)
    {
      if j + 2 <= |rest| {
        if j + 1 < |hp| {
          assert rest[j + 1] == hp[j + 1];
        } else if j + 1 == |hp| {
          assert rest[j + 1] == '/' && rest[j] == hp[j];
        } else if j == |hp| {
          assert endpoint == [] || rest[j + 1] == endpoint[0];
        } else {
          assert rest[j..j + 2] == endpoint[j - |hp| - 1..j - |hp| + 1];
          assert !OccursAt(endpoint, "//", j - |hp| - 1);
        }
      }
    }
    forall j | 0 <= j <= |hp|
      ensures !OccursAt(hp, "//", j)
    {
      if j + 2 <= |hp| {
        assert hp[j..j + 2] == rest[j..j + 2];
        assert !OccursAt(rest, "//", j);
      }
    }
  }

  /** A url without a path parses with an empty endpoint. */
  lemma ParseNoEndpoint(scheme: string, host: string, port: string)
    requires ':' !in host && '/' !in host && ':' !in port && '/' !in port
    ensures ParseConnectorUrl(Some(BuildConnectorUrlNoEndpoint(scheme, host, port)))
      == Ok(Address(host, port, ""))
  {
    var hp := host + ":" + port;
    RestHasNoDoubleSlash(host, port, "");
    assert hp == [] || hp[0] != '/' by {
      if host == [] { assert hp[0] == ':'; } else { assert hp[0] == host[0]; }
    }
    assert BuildConnectorUrlNoEndpoint(scheme, host, port) == (scheme + ":") + "//" + hp;
    LastPieceAfter(scheme + ":", hp);
    assert '/' !in hp;
    FindChar(hp, '/');
    AuthorityOf(host, port, "");
  }

  /** An endpoint that starts with '/' breaks the round trip: the url is rejected. */
  lemma LeadingSlashEndpointRejected()
    ensures ParseConnectorUrl(Some(BuildConnectorUrl("http", "h", "p", "/x"))).Err?
  {
    var u := BuildConnectorUrl("http", "h", "p", "/x");
    assert u == "http:" + "//" + "h:p" + "//" + "x";
    LastPieceAfter("http:" + "//" + "h:p", "x");
    assert SchemeFree(u) == "x";
    FindChar("x", '/');
    FindChar("x", ':');
    assert Split("x", ":") == ["x"];
  }

  /** A value that is not a string is a format error. */
  lemma NonStringUrlRejected()
    ensures ParseConnectorUrl(None) == Err(UrlFormatError("None"))
  {
  }

  // ---- searching loaded documents ---------------------------------------------

  function ObjectSize(obj: seq<(string, Json)>): nat
    decreases obj, 1
  {
    if obj == [] then 1 else EntrySize(obj[0]) + ObjectSize(obj[1..])
  }

  function EntrySize(entry: (string, Json)): nat
    decreases entry, 0
  {
    ValueSize(entry.1)
  }

  function ItemsSize(items: seq<Json>): nat
    decreases items
  {
    if items == [] then 1 else ValueSize(items[0]) + ItemsSize(items[1..])
  }

  function ValueSize(v: Json): nat
    decreases v
  {
    match v
    case JObj(f) => 1 + ObjectSize(f)
    case JList(items) => 1 + ItemsSize(items)
    case _ => 1
  }

  lemma ObjectSizeCons(obj: seq<(string, Json)>)
    requires obj != []
    ensures ObjectSize(obj) == ValueSize(obj[0].1) + ObjectSize(obj[1..])
    ensures ValueSize(obj[0].1) >= 1
  {
  }

  lemma ItemsSizeCons(items: seq<Json>)
    requires items != []
    ensures ItemsSize(items) == ValueSize(items[0]) + ItemsSize(items[1..])
    ensures ValueSize(items[0]) >= 1
  {
  }

  /**
   * `iter_field_keys_values`: in document order, every `(field, value)`
   * entry of the object; entries under another key are searched when their
   * value is an object or a list (only the objects in a list are searched).
   * A matching entry's own value is not searched further.
   */
  function IterFieldKeysValues(obj: seq<(string, Json)>, field: string): (r: seq<(string, Json)>)
    ensures forall k | 0 <= k < |r| :: r[k].0 == field
    decreases ObjectSize(obj)
  {
    if obj == [] then []
    else
      var key := obj[0].0;
      var value := obj[0].1;
      ObjectSizeCons(obj);
      var here :=
        if key == field then [(key, value)]
        else match value
          case JObj(f) => IterFieldKeysValues(f, field)
          case JList(items) => IterItems(items, field)
          case _ => [];
      here + IterFieldKeysValues(obj[1..], field)
  }

  function IterItems(items: seq<Json>, field: string): (r: seq<(string, Json)>)
    ensures forall k | 0 <= k < |r| :: r[k].0 == field
    decreases ItemsSize(items)
  {
    if items == [] then []
    else
      ItemsSizeCons(items);
      var here := match items[0]
        case JObj(f) => IterFieldKeysValues(f, field)
        case _ => [];
      here + IterItems(items[1..], field)
  }

  /** Reference definition: `v` is the value of a reachable `field` entry. */
  predicate InObject(obj: seq<(string, Json)>, field: string, v: Json)
    decreases ObjectSize(obj), 1
  {
    exists i | 0 <= i < |obj| ::
      if obj[i].0 == field then obj[i].1 == v
      else (EntrySmaller(obj, i); InValue(obj[i].1, field, v))
  }

  predicate InValue(value: Json, field: string, v: Json)
    decreases ValueSize(value), 0
  {
    match value
    case JObj(f) => InObject(f, field, v)
    case JList(items) =>
      exists j | 0 <= j < |items| ::
        items[j].JObj? && (ItemSmaller(items, j); InObject(items[j].fields, field, v))
    case _ => false
  }

  lemma EntrySmaller(obj: seq<(string, Json)>, i: nat)
    requires i < |obj|
    ensures ValueSize(obj[i].1) < ObjectSize(obj)
  {
    if i > 0 {
      EntrySmaller(obj[1..], i - 1);
    }
  }

  lemma ItemSmaller(items: seq<Json>, j: nat)
    requires j < |items|
    ensures ValueSize(items[j]) < ItemsSize(items)
  {
    if j > 0 {
      ItemSmaller(items[1..], j - 1);
    }
  }

  function YieldedValues(r: seq<(string, Json)>): seq<Json>
  {
    if r == [] then [] else [r[0].1] + YieldedValues(r[1..])
  }

  lemma YieldedValuesAppend(a: seq<(string, Json)>, b: seq<(string, Json)>)
    ensures YieldedValues(a + b) == YieldedValues(a) + YieldedValues(b)
  {
    if a == [] {
      assert a + b == b;
    } else {
      assert (a + b)[1..] == a[1..] + b;
      YieldedValuesAppend(a[1..], b);
    }
  }

  /** The search yields a value exactly when the reference definition finds it. */
  lemma {:induction false} IterFieldKeysValuesComplete(obj: seq<(string, Json)>, field: string, v: Json)
    ensures v in YieldedValues(IterFieldKeysValues(obj, field)) <==> InObject(obj, field, v)
    decreases ObjectSize(obj)
  {
    if obj != [] {
      var key := obj[0].0;
      var value := obj[0].1;
      var here :=
        if key == field then [(key, value)]
        else match value
          case JObj(f) => IterFieldKeysValues(f, field)
          case JList(items) => IterItems(items, field)
          case _ => [];
      ObjectSizeCons(obj);
      YieldedValuesAppend(here, IterFieldKeysValues(obj[1..], field));
      IterFieldKeysValuesComplete(obj[1..], field, v);
      EntrySmaller(obj, 0);
      if key != field {
        EntryValueComplete(value, field, v);
      }
      InObjectCons(obj, field, v);
    }
  }

  /** Unfolding the reference definition one entry at a time. */
  lemma InObjectCons(obj: seq<(string, Json)>, field: string, v: Json)
    requires obj != []
    ensures InObject(obj, field, v) <==>
      (if obj[0].0 == field then obj[0].1 == v else InValue(obj[0].1, field, v))
      || InObject(obj[1..], field, v)
  {
    if InObject(obj, field, v) {
      var i :| 0 <= i < |obj| &&
        if obj[i].0 == field then obj[i].1 == v else InValue(obj[i].1, field, v);
      if i > 0 {
        assert obj[1..][i - 1] == obj[i];
      }
    }
    if InObject(obj[1..], field, v) {
      var i :| 0 <= i < |obj[1..]| &&
        if obj[1..][i].0 == field then obj[1..][i].1 == v else InValue(obj[1..][i].1, field, v);
      assert obj[1..][i] == obj[i + 1];
    }
  }

  /** What the search yields for an entry value under another key. */
  lemma {:induction false} EntryValueComplete(value: Json, field: string, v: Json)
    ensures (v in YieldedValues(
               match value
               case JObj(f) => IterFieldKeysValues(f, field)
               case JList(items) => IterItems(items, field)
               case _ => []))
            <==> InValue(value, field, v)
    decreases ValueSize(value)
  {
    match value
    case JObj(f) =>
      IterFieldKeysValuesComplete(f, field, v);
    case JList(items) =>
      IterItemsComplete(items, field, v);
    case _ =>
  }

  lemma {:induction false} IterItemsComplete(items: seq<Json>, field: string, v: Json)
    ensures v in YieldedValues(IterItems(items, field)) <==>
      exists j | 0 <= j < |items| :: items[j].JObj? && InObject(items[j].fields, field, v)
    decreases ItemsSize(items)
  {
    if items != [] {
      var here := match items[0]
        case JObj(f) => IterFieldKeysValues(f, field)
        case _ => [];
      ItemsSizeCons(items);
      YieldedValuesAppend(here, IterItems(items[1..], field));
      IterItemsComplete(items[1..], field, v);
      ItemSmaller(items, 0);
      if items[0].JObj? {
        IterFieldKeysValuesComplete(items[0].fields, field, v);
      }
      var found := exists j | 0 <= j < |items| :: items[j].JObj? && InObject(items[j].fields, field, v);
      if found {
        var j :| 0 <= j < |items| && items[j].JObj? && InObject(items[j].fields, field, v);
        if j > 0 {
          assert items[1..][j - 1] == items[j];
        }
      }
      if exists j | 0 <= j < |items[1..]| :: items[1..][j].JObj? && InObject(items[1..][j].fields, field, v) {
        var j :| 0 <= j < |items[1..]| && items[1..][j].JObj? && InObject(items[1..][j].fields, field, v);
        assert items[1..][j] == items[j + 1];
      }
    }
  }

  // ---- distribution paths ---------------------------------------------------

  /** `resolve_dist_path`: `dream_root / distsDir / name`. */
  function ResolveDistPath(name: string, dreamRoot: PathLike, distsDir: string): Path
  {
    Div(Div(ToPath(dreamRoot), PathOf(distsDir)), PathOf(name))
  }

  /** `resolve_name_and_dream_root`: the last segment and the grandparent. */
  function ResolveNameAndDreamRoot(path: PathLike): (r: Result<(string, Path)>)
    ensures r.Err? <==> |ToPath(path).parts| < 2
    ensures r.Err? ==> r.error == IndexError
    ensures r.Ok? ==> r.value.0 == Name(ToPath(path))
    ensures r.Ok? ==> r.value.1.parts + [Name(Parent(ToPath(path))), r.value.0] == ToPath(path).parts
    ensures r.Ok? ==> r.value.1.absolute == ToPath(path).absolute
  {
    var p := ToPath(path);
    var grand :- Parents(p, 1);
    Ok((Name(p), grand))
  }

  /** A distribution path built from a name and a root resolves back to them. */
  lemma ResolveRoundTrip(name: string, dreamRoot: PathLike, distsDir: string)
    requires IsSegment(name) && IsSegment(distsDir)
    ensures ResolveNameAndDreamRoot(PPath(ResolveDistPath(name, dreamRoot, distsDir)))
      == Ok((name, ToPath(dreamRoot)))
  {
    SegmentPath(name);
    SegmentPath(distsDir);
    var root := ToPath(dreamRoot);
    var p := ResolveDistPath(name, dreamRoot, distsDir);
    assert p.parts == root.parts + [distsDir] + [name];
    assert p.parts[..|p.parts| - 2] == root.parts;
  }

  /** Conversely a path of two or more segments is rebuilt from its name and root. */
  lemma ResolveNameRoundTrip(path: Path)
    requires |path.parts| >= 2 && forall k | 0 <= k < |path.parts| :: IsSegment(path.parts[k])
    ensures
      var r := ResolveNameAndDreamRoot(PPath(path));
      r.Ok? && ResolveDistPath(r.value.0, PPath(r.value.1), Name(Parent(path))) == path
  {
    var r := ResolveNameAndDreamRoot(PPath(path));
    var n := |path.parts|;
    assert Name(Parent(path)) == path.parts[n - 2];
    SegmentPath(path.parts[n - 1]);
    SegmentPath(path.parts[n - 2]);
    assert path.parts == path.parts[..n - 2] + [path.parts[n - 2]] + [path.parts[n - 1]];
  }

  /** What the file system reports: which paths exist, which are directories. */
  datatype Disk = Disk(existing: set<Path>, directories: set<Path>)

  predicate WellFormedDisk(disk: Disk)
  {
    disk.directories <= disk.existing
  }

  datatype Resolved = Resolved(distPath: Path, name: string, dreamRoot: PathLike)

  function NotEnoughArguments(): Error
  {
    ValueError("Provide either dist_path or name and dream_root")
  }

  /** Which of the two ways of naming a distribution a call uses. */
  function ResolveArguments(distPath: Option<PathLike>, name: Option<string>, dreamRoot: Option<PathLike>,
                            distsDir: string): (r: Result<Resolved>)
    ensures distPath.Some? && Truthy(distPath.value) ==>
      match ResolveNameAndDreamRoot(distPath.value)
      case Ok(nr) => r == Ok(Resolved(ToPath(distPath.value), nr.0, PPath(nr.1)))
      case Err(e) => r == Err(e)
    ensures !(distPath.Some? && Truthy(distPath.value)) ==>
      if name.Some? && name.value != "" && dreamRoot.Some? && Truthy(dreamRoot.value) then
        r == Ok(Resolved(ResolveDistPath(name.value, dreamRoot.value, distsDir), name.value, dreamRoot.value))
      else r == Err(NotEnoughArguments())
  {
    if distPath.Some? && Truthy(distPath.value) then
      var nr :- ResolveNameAndDreamRoot(distPath.value);
      Ok(Resolved(ToPath(distPath.value), nr.0, PPath(nr.1)))
    else if name.Some? && name.value != "" && dreamRoot.Some? && Truthy(dreamRoot.value) then
      Ok(Resolved(ResolveDistPath(name.value, dreamRoot.value, distsDir), name.value, dreamRoot.value))
    else Err(NotEnoughArguments())
  }

  /**
   * The two ways of naming a distribution agree: its path, or its name and
   * dream root, resolve to the same path, name and root.  A path given
   * together with a name and a root overrides them.
   */
  lemma ResolveArgumentsAgree(name: string, dreamRoot: PathLike, distsDir: string,
                              otherName: Option<string>, otherRoot: Option<PathLike>)
    requires IsSegment(name) && IsSegment(distsDir) && Truthy(dreamRoot)
    ensures (var byName := ResolveArguments(None, Some(name), Some(dreamRoot), distsDir);
             var byPath := ResolveArguments(Some(PPath(ResolveDistPath(name, dreamRoot, distsDir))), None, None, distsDir);
             byName.Ok? && byPath.Ok? &&
             byName.value.distPath == byPath.value.distPath == ResolveDistPath(name, dreamRoot, distsDir) &&
             byName.value.name == byPath.value.name == name &&
             ToPath(byName.value.dreamRoot) == ToPath(byPath.value.dreamRoot) == ToPath(dreamRoot) &&
             ResolveArguments(Some(PPath(ResolveDistPath(name, dreamRoot, distsDir))), otherName, otherRoot, distsDir)
               == byPath)
  {
    ResolveRoundTrip(name, dreamRoot, distsDir);
  }

  /**
   * `resolve_all_paths` as written: the guard asks for a path that does not
   * exist and yet is a directory.
   */
  function ResolveAllPathsAsWritten(distPath: Option<PathLike>, name: Option<string>, dreamRoot: Option<PathLike>,
                                    distsDir: string, disk: Disk): (r: Result<Resolved>)
    ensures r.Ok? <==>
              (ResolveArguments(distPath, name, dreamRoot, distsDir).Ok? &&
               var p := ResolveArguments(distPath, name, dreamRoot, distsDir).value.distPath;
               !(p !in disk.existing && p in disk.directories))
  {
    var res :- ResolveArguments(distPath, name, dreamRoot, distsDir);
    if res.distPath !in disk.existing && res.distPath in disk.directories then
      Err(NotADirectoryError)
    else Ok(res)
  }

  /** On any real disk the as-written guard never fires, even for a missing path. */
  lemma AsWrittenNeverRejects(distPath: Option<PathLike>, name: Option<string>, dreamRoot: Option<PathLike>,
                              distsDir: string, disk: Disk)
    requires WellFormedDisk(disk)
    ensures ResolveAllPathsAsWritten(distPath, name, dreamRoot, distsDir, disk)
      == ResolveArguments(distPath, name, dreamRoot, distsDir)
  {
  }

  /** A concrete instance: a missing distribution is accepted. */
  lemma AsWrittenAcceptsMissing()
    ensures ResolveAllPathsAsWritten(None, Some("absent"), Some(PStr("/dream")), "assistant_dists", Disk({}, {})).Ok?
  {
  }

  /** `resolve_all_paths` as intended: the resolved path must be a directory. */
  function ResolveAllPaths(distPath: Option<PathLike>, name: Option<string>, dreamRoot: Option<PathLike>,
                           distsDir: string, disk: Disk): (r: Result<Resolved>)
    ensures r.Ok? ==> r.value.distPath in disk.existing && r.value.distPath in disk.directories
    ensures r.Ok? ==> r == ResolveArguments(distPath, name, dreamRoot, distsDir)
    ensures (ResolveArguments(distPath, name, dreamRoot, distsDir).Ok? &&
             ResolveArguments(distPath, name, dreamRoot, distsDir).value.distPath in disk.directories &&
             WellFormedDisk(disk))
            ==> r.Ok?
  {
    var res :- ResolveArguments(distPath, name, dreamRoot, distsDir);
    if !(res.distPath in disk.existing && res.distPath in disk.directories) then
      Err(NotADirectoryError)
    else Ok(res)
  }
}
