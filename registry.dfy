/**
 * ParserRegistry (src/processors/config_parsers/registry.py): the parsers
 * in registration order, and the first of them that accepts a
 * (service type, config type) pair.
 */
module ParserRegistry {
  import opened Text
  import NginxProxy
  import DockerCompose

  /** The registered parser classes. */
  datatype Parser = NPMConfigParser | DockerComposeParser

  /** Each parser's can_process. */
  predicate CanProcess(p: Parser, serviceType: string, configType: string)
    ensures p.NPMConfigParser? && CanProcess(p, serviceType, configType) ==> !DockerCompose.CanProcess(serviceType, configType)
    ensures p.DockerComposeParser? && CanProcess(p, serviceType, configType) ==> !NginxProxy.CanProcess(serviceType, configType)
  {
    match p
    case NPMConfigParser => NginxProxy.CanProcess(serviceType, configType)
    case DockerComposeParser => DockerCompose.CanProcess(serviceType, configType)
  }

  /** The registry's parsers, in the order they are tried. */
  const Parsers: seq<Parser> := [NPMConfigParser, DockerComposeParser]

  /** ParserRegistry.get_parser over a list of parsers: the first that accepts the pair. */
  function GetParser(parsers: seq<Parser>, serviceType: string, configType: string): (r: Option<Parser>)
    ensures r.None? <==> forall k :: 0 <= k < |parsers| ==> !CanProcess(parsers[k], serviceType, configType)
    ensures r.Some? ==> exists k :: 0 <= k < |parsers| && parsers[k] == r.value
                                    && CanProcess(r.value, serviceType, configType)
                                    && forall j :: 0 <= j < k ==> !CanProcess(parsers[j], serviceType, configType)
  {
    if parsers == [] then None
    else if CanProcess(parsers[0], serviceType, configType) then Some(parsers[0])
    else
      var r := GetParser(parsers[1..], serviceType, configType);
      assert r.Some? ==> exists k :: 1 <= k < |parsers| && parsers[k] == r.value
                                     && forall j :: 1 <= j < k ==> !CanProcess(parsers[j], serviceType, configType);
      r
  }

  /** ParserRegistry.list_parsers */
  function ListParsers(parsers: seq<Parser>): (names: seq<string>)
    ensures |names| == |parsers|
    ensures forall k :: 0 <= k < |parsers| ==> names[k] == (if parsers[k].NPMConfigParser? then "NPMConfigParser" else "DockerComposeParser")
  {
    seq(|parsers|, k requires 0 <= k < |parsers| => if parsers[k].NPMConfigParser? then "NPMConfigParser" else "DockerComposeParser")
  }

  /** The NPM parser wins exactly on ("nginx-proxy-manager", "proxy"); the compose parser on the pairs it accepts otherwise. */
  lemma RegistryDispatch(serviceType: string, configType: string)
    ensures GetParser(Parsers, serviceType, configType) == Some(NPMConfigParser)
            <==> serviceType == "nginx-proxy-manager" && configType == "proxy"
    ensures GetParser(Parsers, serviceType, configType) == Some(DockerComposeParser)
            <==> !(serviceType == "nginx-proxy-manager" && configType == "proxy")
                 && (configType == "docker_compose" || serviceType == "docker-compose")
    ensures GetParser(Parsers, serviceType, configType).None?
            <==> !(serviceType == "nginx-proxy-manager" && configType == "proxy")
                 && configType != "docker_compose" && serviceType != "docker-compose"
  {
    assert Parsers[1..] == [DockerComposeParser];
    assert Parsers[1..][1..] == [];
  }

  /** Appending parsers never changes a lookup that already succeeds. */
  lemma {:induction false} AppendKeepsChoice(parsers: seq<Parser>, more: seq<Parser>, serviceType: string, configType: string)
    requires GetParser(parsers, serviceType, configType).Some?
    ensures GetParser(parsers + more, serviceType, configType) == GetParser(parsers, serviceType, configType)
  {
    if !CanProcess(parsers[0], serviceType, configType) {
      assert (parsers + more)[1..] == parsers[1..] + more;
      AppendKeepsChoice(parsers[1..], more, serviceType, configType);
    }
  }
}
