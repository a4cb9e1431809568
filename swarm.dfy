/**
 * The command `SwarmDeployer` hands to a remote shell to deploy a
 * distribution as a Docker swarm stack. Running it over the connection
 * is not part of this model; only the text of the command is.
 */
module Swarm {
  import opened Wrappers
  import opened Text
  import opened ComposeConfigs
  import opened AssistantDists

  /** The distribution's directory on the remote host: `root` is extended with no separator inserted. */
  function DistDir(root: string, name: string): string
  {
    root + "assistant_dists/" + name + "/"
  }

  /** The `-c <file>` option naming one deployment document. */
  function ConfigOption(dir: string, kind: ComposeKind): string
  {
    "-c " + dir + FileName(kind)
  }

  /** The options for `kinds`, one each, in the same order. */
  function Options(dir: string, kinds: seq<ComposeKind>): (opts: seq<string>)
    ensures |opts| == |kinds|
    ensures forall i | 0 <= i < |kinds| :: opts[i] == ConfigOption(dir, kinds[i])
  {
    if kinds == [] then [] else [ConfigOption(dir, kinds[0])] + Options(dir, kinds[1..])
  }

  /** The command deploying the documents of `kinds` as the stack `name`. */
  function DeployCommandFor(root: string, name: string, kinds: seq<ComposeKind>): string
  {
    "docker stack deploy " + Join(Options(DistDir(root, name), kinds), " ") + "  " + name
  }

  /** The documents that contribute an option, override, proxy and dev in that order. */
  function LoadedKinds(hasOverride: bool, hasProxy: bool, hasDev: bool): (kinds: seq<ComposeKind>)
    ensures Local !in kinds
    ensures Override in kinds <==> hasOverride
    ensures Proxy in kinds <==> hasProxy
    ensures Dev in kinds <==> hasDev
  {
    (if hasOverride then [Override] else []) + (if hasProxy then [Proxy] else []) + (if hasDev then [Dev] else [])
  }

  /** The strings present in `items`, in order. */
  function Somes(items: seq<Option<string>>): (r: seq<string>)
    ensures |r| <= |items|
    ensures None !in items ==> |r| == |items| && forall i | 0 <= i < |r| :: items[i] == Some(r[i])
  {
    if items == [] then []
    else
      var last := items[|items| - 1];
      Somes(items[..|items| - 1]) + (if last.Some? then [last.value] else [])
  }

  /** `" ".join(items)` on a list that may hold None: any None is a TypeError. */
  function JoinAll(items: seq<Option<string>>, sep: string): Result<string>
  {
    if None in items then Err(TypeError) else Ok(Join(Somes(items), sep))
  }

  // ---- the method -----------------------------------------------------------------------------

  /** The three candidate options: one for each of override, proxy and dev, None where the document is not loaded. */
  method CandidateOptions(dist: AssistantDist, root: string) returns (commands: seq<Option<string>>)
    requires dist.KindsFit()
    ensures (var dir := DistDir(root, dist.name);
             commands == [if dist.composeOverride != null then Some(ConfigOption(dir, Override)) else None,
                          if dist.composeProxy != null then Some(ConfigOption(dir, Proxy)) else None,
                          if dist.composeDev != null then Some(ConfigOption(dir, Dev)) else None])
  {
    var distPathStr := root;
    distPathStr := distPathStr + "assistant_dists/" + dist.name + "/";
    var overrideCommand := if dist.composeOverride != null then Some("-c " + distPathStr + FileName(dist.composeOverride.kind)) else None;
    var proxyCommand := if dist.composeProxy != null then Some("-c " + distPathStr + FileName(dist.composeProxy.kind)) else None;
    var devCommand := if dist.composeDev != null then Some("-c " + distPathStr + FileName(dist.composeDev.kind)) else None;
    commands := [overrideCommand, proxyCommand, devCommand];
  }

  /** The loop that keeps the options that are present. */
  method CollectPresent(commands: seq<Option<string>>) returns (present: seq<string>)
    ensures present == Somes(commands)
  {
    present := [];
    for i := 0 to |commands|
      invariant present == Somes(commands[..i])
    {
      assert commands[..i + 1][..i] == commands[..i];
      if commands[i].Some? {
        present := present + [commands[i].value];
      }
    }
    assert commands[..|commands|] == commands;
  }

  /**
   * `_get_swarm_deploy_command_from_dreamdist` as written: the filtered
   * list is built and then unused, and the unfiltered one is joined, so a
   * distribution missing the override, proxy or dev document fails.
   */
  method StackDeployCommandAsWritten(dist: AssistantDist, root: string) returns (r: Result<string>)
    requires dist.KindsFit()
    ensures r.Err? <==> dist.composeOverride == null || dist.composeProxy == null || dist.composeDev == null
    ensures r.Err? ==> r.error == TypeError
    ensures r.Ok? ==> r.value == DeployCommandFor(root, dist.name, [Override, Proxy, Dev])
  {
    var configCommandsList := CandidateOptions(dist, root);
    var configCommandList := CollectPresent(configCommandsList);
    var command := JoinAll(configCommandsList, " ");
    if command.Err? {
      return Err(command.error);
    }
    assert Somes(configCommandsList) == Options(DistDir(root, dist.name), [Override, Proxy, Dev]);
    r := Ok("docker stack deploy " + command.value + "  " + dist.name);
  }

  lemma {:induction false} OptionsAppend(dir: string, k1: seq<ComposeKind>, k2: seq<ComposeKind>)
    ensures Options(dir, k1 + k2) == Options(dir, k1) + Options(dir, k2)
    decreases |k1|
  {
    if k1 != [] {
      assert (k1 + k2)[1..] == k1[1..] + k2;
      OptionsAppend(dir, k1[1..], k2);
    }
  }

  /** The option a candidate contributes, if it is present. */
  function Contributed(c: Option<string>): seq<string>
  {
    if c.Some? then [c.value] else []
  }

  /** The options present among three candidates are those of the loaded kinds. */
  lemma SomesOfCandidates(dir: string, o: bool, p: bool, d: bool)
    ensures Somes([if o then Some(ConfigOption(dir, Override)) else None,
                   if p then Some(ConfigOption(dir, Proxy)) else None,
                   if d then Some(ConfigOption(dir, Dev)) else None])
            == Options(dir, LoadedKinds(o, p, d))
  {
    var a := if o then Some(ConfigOption(dir, Override)) else None;
    var b := if p then Some(ConfigOption(dir, Proxy)) else None;
    var c := if d then Some(ConfigOption(dir, Dev)) else None;
    assert [a][..0] == [];
    assert Somes([a]) == Contributed(a);
    assert [a, b][..1] == [a];
    assert Somes([a, b]) == Contributed(a) + Contributed(b);
    assert [a, b, c][..2] == [a, b];
    assert Somes([a, b, c]) == Contributed(a) + Contributed(b) + Contributed(c);
    var ko: seq<ComposeKind> := if o then [Override] else [];
    var kp: seq<ComposeKind> := if p then [Proxy] else [];
    var kd: seq<ComposeKind> := if d then [Dev] else [];
    OptionsAppend(dir, ko + kp, kd);
    OptionsAppend(dir, ko, kp);
    assert Options(dir, ko) == Contributed(a);
    assert Options(dir, kp) == Contributed(b);
    assert Options(dir, kd) == Contributed(c);
  }

  /** The command with the filtered list joined: the options of exactly the loaded documents. */
  method StackDeployCommand(dist: AssistantDist, root: string) returns (r: string)
    requires dist.KindsFit()
    ensures r == DeployCommandFor(root, dist.name, LoadedKinds(dist.composeOverride != null, dist.composeProxy != null, dist.composeDev != null))
  {
    var configCommandsList := CandidateOptions(dist, root);
    var configCommandList := CollectPresent(configCommandsList);
    SomesOfCandidates(DistDir(root, dist.name), dist.composeOverride != null, dist.composeProxy != null, dist.composeDev != null);
    r := "docker stack deploy " + Join(configCommandList, " ") + "  " + dist.name;
  }

  // ---- what the command says --------------------------------------------------------------------

  /** The words the options for `kinds` contribute: `-c` and the document's path, for each kind in order. */
  function OptionWords(dir: string, kinds: seq<ComposeKind>): (ws: seq<string>)
    ensures |ws| == 2 * |kinds|
  {
    if kinds == [] then [] else ["-c", dir + FileName(kinds[0])] + OptionWords(dir, kinds[1..])
  }

  lemma FileNameWord(kind: ComposeKind)
    ensures FileName(kind) != [] && NoSpace(FileName(kind))
  {
    match kind {
      case Override => assert NoSpace("docker-compose.override.yml");
      case Dev => assert NoSpace("dev.yml");
      case Proxy => assert NoSpace("proxy.yml");
      case Local => assert NoSpace("local.yml");
    }
  }

  lemma DistDirWord(root: string, name: string)
    requires NoSpace(root) && NoSpace(name)
    ensures NoSpace(DistDir(root, name))
  {
    NoSpaceConcat(root, "assistant_dists/");
    NoSpaceConcat(root + "assistant_dists/", name);
    NoSpaceConcat(root + "assistant_dists/" + name, "/");
  }

  lemma OptionWordsSplit(dir: string, kind: ComposeKind)
    requires NoSpace(dir)
    ensures Tokens(ConfigOption(dir, kind)) == ["-c", dir + FileName(kind)]
  {
    FileNameWord(kind);
    NoSpaceConcat(dir, FileName(kind));
    assert ConfigOption(dir, kind) == "-c" + " " + (dir + FileName(kind));
    TokensAround("-c", dir + FileName(kind));
    TokensOfWord("-c");
    TokensOfWord(dir + FileName(kind));
  }

  /** Splitting the joined options on whitespace gives `-c` and a path per kind. */
  lemma {:induction false} OptionsTokens(dir: string, kinds: seq<ComposeKind>)
    requires NoSpace(dir)
    ensures Tokens(Join(Options(dir, kinds), " ")) == OptionWords(dir, kinds)
    decreases |kinds|
  {
    if |kinds| == 1 {
      OptionWordsSplit(dir, kinds[0]);
      assert OptionWords(dir, kinds[1..]) == [];
    } else if |kinds| > 1 {
      var rest := Options(dir, kinds[1..]);
      assert Options(dir, kinds) == [ConfigOption(dir, kinds[0])] + rest;
      JoinCons(ConfigOption(dir, kinds[0]), rest, " ");
      TokensAround(ConfigOption(dir, kinds[0]), Join(rest, " "));
      OptionWordsSplit(dir, kinds[0]);
      OptionsTokens(dir, kinds[1..]);
    }
  }

  /** A word, a space, then the rest: the word comes first among the tokens. */
  lemma WordThen(w: string, rest: string)
    requires w != [] && NoSpace(w)
    ensures Tokens(w + " " + rest) == [w] + Tokens(rest)
  {
    TokensAround(w, rest);
    TokensOfWord(w);
  }

  /** The stack name follows the options after two spaces. */
  lemma StackTail(j: string, name: string)
    requires NoSpace(name) && name != ""
    ensures Tokens(j + "  " + name) == Tokens(j) + [name]
  {
    var t0 := " " + name;
    assert j + "  " + name == j + " " + t0;
    assert t0[1..] == name;
    TokensOfWord(name);
    TokensAround(j, t0);
  }

  lemma ThreeWordsThen(a: string, b: string, c: string, rest: string)
    requires a != [] && NoSpace(a) && b != [] && NoSpace(b) && c != [] && NoSpace(c)
    ensures Tokens(a + " " + b + " " + c + " " + rest) == [a, b, c] + Tokens(rest)
  {
    assert a + " " + b + " " + c + " " + rest == a + " " + (b + " " + (c + " " + rest));
    WordThen(c, rest);
    WordThen(b, c + " " + rest);
    WordThen(a, b + " " + (c + " " + rest));
  }

  lemma StackHead(rest: string)
    ensures Tokens("docker stack deploy " + rest) == ["docker", "stack", "deploy"] + Tokens(rest)
  {
    assert "docker stack deploy " + rest == "docker" + " " + "stack" + " " + "deploy" + " " + rest;
    assert NoSpace("docker") && NoSpace("stack") && NoSpace("deploy");
    ThreeWordsThen("docker", "stack", "deploy", rest);
  }

  /**
   * Read as shell words, the command is `docker stack deploy`, then `-c`
   * and a document path for each kind in order, then the stack name.
   */
  lemma DeployCommandWords(root: string, name: string, kinds: seq<ComposeKind>)
    requires NoSpace(root) && NoSpace(name) && name != ""
    ensures Tokens(DeployCommandFor(root, name, kinds))
            == ["docker", "stack", "deploy"] + OptionWords(DistDir(root, name), kinds) + [name]
  {
    var dir := DistDir(root, name);
    var j := Join(Options(dir, kinds), " ");
    DistDirWord(root, name);
    OptionsTokens(dir, kinds);
    assert DeployCommandFor(root, name, kinds) == "docker stack deploy " + (j + "  " + name);
    StackHead(j + "  " + name);
    StackTail(j, name);
  }
}
