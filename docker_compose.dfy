/**
 * DockerComposeParser (src/processors/config_parsers/docker_compose.py):
 * reads a docker-compose file that YAML has already turned into a value,
 * summarises its services, networks and volumes, derives search terms, and
 * links the file to the containers it defines with CONFIGURES/CONFIGURED_BY
 * pairs. The container documents the parser would read from rag_data.json
 * come in as a parameter.
 */
module DockerCompose {
  import opened Text
  import opened Values
  import opened Relationships

  /** DockerComposeParser.can_process */
  predicate CanProcess(serviceType: string, configType: string)
    ensures configType == "docker_compose" ==> CanProcess(serviceType, configType)
    ensures serviceType == "docker-compose" ==> CanProcess(serviceType, configType)
    ensures configType != "docker_compose" && serviceType != "docker-compose" ==> !CanProcess(serviceType, configType)
  {
    configType == "docker_compose" || serviceType == "docker-compose"
  }

  // -----------------------------------------------------------------------
  // parse

  /** What parse records about one service. */
  datatype ServiceInfo = ServiceInfo(
    name: string,
    image: Value,
    build: bool,
    containerName: Value,
    restart: Value,
    dependsOn: Value,
    ports: Value,
    volumes: nat,
    networks: Value,
    environment: nat)

  /** The parsed file, one field per key of the dict `parse` returns. */
  datatype ComposeConfig = ComposeConfig(
    version: Value,
    serviceCount: nat,
    serviceNames: seq<string>,
    services: seq<ServiceInfo>,
    networks: seq<string>,
    networkCount: nat,
    volumes: seq<string>,
    volumeCount: nat)

  /** A field given either as a dict (its keys are taken) or as anything else (taken as is, `[]` when absent). */
  function KeysOrValue(cfg: Value, key: string): (r: Value)
    ensures Get(cfg, key).Some? && Get(cfg, key).value.Obj? ==> r == List(StrList(Keys(Get(cfg, key).value.fields)))
    ensures Get(cfg, key).None? ==> r == List([])
  {
    match Get(cfg, key)
    case Some(Obj(fs)) => List(StrList(Keys(fs)))
    case Some(v) => v
    case None => List([])
  }

  /** The entry for one service whose configuration is a dict; None when a `len` raises. */
  function ServiceInfoOf(name: string, cfg: Value): (r: Option<ServiceInfo>)
    ensures r.Some? ==> r.value.name == name
    ensures r.None? <==> Len(GetOr(cfg, "volumes", List([]))).None?
                         || (!(Get(cfg, "environment").Some? && Get(cfg, "environment").value.List?)
                             && Len(GetOr(cfg, "environment", Obj([]))).None?)
  {
    var volumes := Len(GetOr(cfg, "volumes", List([])));
    var environment :=
      match Get(cfg, "environment")
      case Some(List(xs)) => Some(|xs|)
      case _ => Len(GetOr(cfg, "environment", Obj([])));
    if volumes.None? || environment.None? then None
    else
      Some(ServiceInfo(
        name,
        GetOr(cfg, "image", Null),
        Get(cfg, "build").Some? && Get(cfg, "build").value != Null,
        GetOr(cfg, "container_name", Null),
        GetOr(cfg, "restart", Null),
        KeysOrValue(cfg, "depends_on"),
        GetOr(cfg, "ports", List([])),
        volumes.value,
        KeysOrValue(cfg, "networks"),
        environment.value))
  }

  /**
   * The service entries of `services.items()` in order: services whose
   * configuration is not a dict are skipped, and one that makes a `len`
   * raise makes the whole parse fail.
   */
  function ServiceDetails(fs: seq<(string, Value)>): (r: Option<seq<ServiceInfo>>)
    ensures r.Some? ==> |r.value| <= |fs|
  {
    if fs == [] then Some([])
    else
      match ServiceDetails(fs[..|fs| - 1])
      case None => None
      case Some(ds) =>
        var (name, cfg) := fs[|fs| - 1];
        if !cfg.Obj? then Some(ds)
        else
          match ServiceInfoOf(name, cfg)
          case None => None
          case Some(d) => Some(ds + [d])
  }

  /** Once a prefix of the services fails, the whole list fails. */
  lemma {:induction false} ServiceDetailsFailed(fs: seq<(string, Value)>, i: nat)
    requires i <= |fs| && ServiceDetails(fs[..i]).None?
    ensures ServiceDetails(fs).None?
    decreases |fs| - i
  {
    if i < |fs| {
      assert fs[..i + 1][..i] == fs[..i];
      ServiceDetailsFailed(fs, i + 1);
    } else {
      assert fs[..i] == fs;
    }
  }

  /** Every entry names a service of the file, in the file's order, and every dict-configured service has one. */
  lemma {:induction false} ServiceDetailsNames(fs: seq<(string, Value)>)
    requires ServiceDetails(fs).Some?
    ensures var ds := ServiceDetails(fs).value;
      |ds| == |Present(fs)| && forall k :: 0 <= k < |ds| ==> ds[k].name == Present(fs)[k]
  {
    if fs != [] {
      ServiceDetailsNames(fs[..|fs| - 1]);
    }
  }

  /** The names of the services whose configuration is a dict, in order. */
  function Present(fs: seq<(string, Value)>): seq<string> {
    if fs == [] then []
    else Present(fs[..|fs| - 1]) + (if fs[|fs| - 1].1.Obj? then [fs[|fs| - 1].0] else [])
  }

  /** The names and the count of a top-level `networks` or `volumes` entry; None when `len` raises. */
  function TopLevel(v: Value): (r: Option<(seq<string>, nat)>)
    ensures !Truthy(v) ==> r == Some(([], 0))
    ensures v.Obj? ==> r == Some((Keys(v.fields), |v.fields|))
  {
    if !Truthy(v) then Some(([], 0))
    else
      match Len(v)
      case None => None
      case Some(n) => Some((if v.Obj? then Keys(v.fields) else [], n))
  }

  /** The parse result, as a function of the loaded YAML. */
  function ComposeParse(data: Value): Option<ComposeConfig> {
    if !Truthy(data) || !data.Obj? then None
    else
      var services := GetObj(data, "services");
      if !Truthy(services) || !services.Obj? then None
      else
        match ServiceDetails(services.fields)
        case None => None
        case Some(details) =>
          match (TopLevel(GetObj(data, "networks")), TopLevel(GetObj(data, "volumes")))
          case (Some(nets), Some(vols)) =>
            Some(ComposeConfig(
              GetOr(data, "version", Str("unknown")),
              |services.fields|, Keys(services.fields), details,
              nets.0, nets.1, vols.0, vols.1))
          case _ => None
  }

  /** DockerComposeParser.parse, the YAML already loaded into `data`. */
  method Parse(data: Value) returns (r: Option<ComposeConfig>)
    ensures r == ComposeParse(data)
  {
    if !Truthy(data) || !data.Obj? {
      return None;
    }
    var services := GetObj(data, "services");
    if !Truthy(services) || !services.Obj? {
      return None;
    }
    var fs := services.fields;
    var details: seq<ServiceInfo> := [];
    var i := 0;
    while i < |fs|
      invariant 0 <= i <= |fs|
      invariant ServiceDetails(fs[..i]) == Some(details)
    {
      assert fs[..i + 1][..i] == fs[..i];
      var name, cfg := fs[i].0, fs[i].1;
      if cfg.Obj? {
        var info := ServiceInfoOf(name, cfg);
        if info.None? {
          ServiceDetailsFailed(fs, i + 1);
          return None;
        }
        details := details + [info.value];
      }
      i := i + 1;
    }
    assert fs[..i] == fs;
    var nets := TopLevel(GetObj(data, "networks"));
    var vols := TopLevel(GetObj(data, "volumes"));
    if nets.None? || vols.None? {
      return None;
    }
    r := Some(ComposeConfig(
      GetOr(data, "version", Str("unknown")),
      |fs|, Keys(fs), details,
      nets.value.0, nets.value.1, vols.value.0, vols.value.1));
  }

  /** Anything but a non-empty dict, and a file without a non-empty `services` dict, give None. */
  lemma ParseRejects(data: Value)
    requires !data.Obj? || data.fields == [] || !GetObj(data, "services").Obj? || GetObj(data, "services").fields == []
    ensures ComposeParse(data).None?
  {
  }

  /** `service_count` is the number of `service_names`, which are the keys of `services` in order. */
  lemma ParseCounts(data: Value)
    requires ComposeParse(data).Some?
    ensures var c := ComposeParse(data).value;
      && c.serviceCount == |c.serviceNames| > 0
      && c.serviceNames == Keys(GetObj(data, "services").fields)
      && |c.services| <= c.serviceCount
      && (forall k :: 0 <= k < |c.services| ==> c.services[k].name in c.serviceNames)
  {
    var fs := GetObj(data, "services").fields;
    ServiceDetailsNames(fs);
    PresentKeys(fs);
  }

  lemma {:induction false} PresentKeys(fs: seq<(string, Value)>)
    ensures forall n :: n in Present(fs) ==> n in Keys(fs)
  {
    if fs != [] {
      PresentKeys(fs[..|fs| - 1]);
      assert Keys(fs) == Keys(fs[..|fs| - 1]) + [fs[|fs| - 1].0];
    }
  }

  // -----------------------------------------------------------------------
  // Search terms

  /** The image name without its tag: the text before the first ':'. */
  function ImageBase(image: string): (r: string)
    ensures ':' !in r && StartsWith(image, r)
    ensures ':' !in image ==> r == image
  {
    var i := IndexOf(image, ':');
    assert image[..i] == image[..|image[..i]|];
    image[..i]
  }

  /**
   * The term one service's image adds. A falsy image adds nothing. A string
   * adds its text before the first ':'. `":" in image` is a membership test
   * for a list and a key test for a dict, so such an image without ":" goes
   * into the terms as it is, and with ":" raises at `image.split`; a truthy
   * number or boolean raises at the test. None where it raises.
   */
  function ImageTerm(image: Value): (r: Option<seq<Value>>)
    ensures !Truthy(image) ==> r == Some([])
    ensures image.Str? && Truthy(image) ==> r == Some([Str(ImageBase(image.s))])
    ensures r.Some? && r.value != [] ==> Truthy(image) && |r.value| == 1
    ensures r.None? ==> Truthy(image) && !image.Str?
  {
    if !Truthy(image) then Some([])
    else
      match image
      case Str(s) => Some([Str(ImageBase(s))])
      case List(xs) => if Str(":") in xs then None else Some([image])
      case Obj(fs) => if ":" in Keys(fs) then None else Some([image])
      case _ => None
  }

  /** The image terms of the service entries in order, or None once an image raises. */
  function ImageTerms(services: seq<ServiceInfo>): (r: Option<seq<Value>>)
    ensures r.Some? ==> |r.value| <= |services|
    ensures r.Some? ==> forall k :: 0 <= k < |r.value| && r.value[k].Str? ==> ':' !in r.value[k].s
  {
    if services == [] then Some([])
    else
      match (ImageTerms(services[..|services| - 1]), ImageTerm(services[|services| - 1].image))
      case (Some(prev), Some(t)) => Some(prev + t)
      case _ => None
  }

  lemma ImageTermsStep(services: seq<ServiceInfo>, i: nat)
    requires i < |services|
    ensures ImageTerms(services[..i + 1]) ==
              match (ImageTerms(services[..i]), ImageTerm(services[i].image))
              case (Some(prev), Some(t)) => Some(prev + t)
              case _ => None
  {
    assert services[..i + 1][..i] == services[..i];
  }

  /** Once an image raises, the rest of the loop cannot undo it. */
  lemma {:induction false} ImageTermsNoneSticks(services: seq<ServiceInfo>, n: nat)
    requires n <= |services| && ImageTerms(services[..n]).None?
    ensures ImageTerms(services).None?
    decreases |services| - n
  {
    if n < |services| {
      ImageTermsStep(services, n);
      ImageTermsNoneSticks(services, n + 1);
    } else {
      assert services[..n] == services;
    }
  }

  /**
   * Images given as strings never raise: each non-empty one adds its name
   * without the tag, which is a prefix of the image.
   */
  lemma {:induction false} StringImageTerms(services: seq<ServiceInfo>)
    requires forall k :: 0 <= k < |services| ==> services[k].image.Str? || !Truthy(services[k].image)
    ensures ImageTerms(services).Some?
    ensures forall t :: t in ImageTerms(services).value ==>
              t.Str? && exists k :: 0 <= k < |services| && services[k].image.Str? && StartsWith(services[k].image.s, t.s)
  {
    if services != [] {
      var init := services[..|services| - 1];
      StringImageTerms(init);
      var last := services[|services| - 1];
      forall t | t in ImageTerms(services).value
        ensures t.Str? && exists k :: 0 <= k < |services| && services[k].image.Str? && StartsWith(services[k].image.s, t.s)
      {
        if t in ImageTerms(init).value {
          var k :| 0 <= k < |init| && init[k].image.Str? && StartsWith(init[k].image.s, t.s);
          assert services[k] == init[k];
        } else {
          assert t == Str(ImageBase(last.image.s));
        }
      }
    }
  }

  /** DockerComposeParser.extract_search_terms; None where an image raises. */
  method ExtractSearchTerms(c: ComposeConfig) returns (terms: Option<seq<Value>>)
    ensures terms.Some? <==> ImageTerms(c.services).Some?
    ensures terms.Some? ==>
              terms.value == StrList(c.serviceNames + c.networks + c.volumes) + ImageTerms(c.services).value + [Str("docker-compose")]
  {
    var collected: seq<Value> := [];
    if c.serviceNames != [] {
      collected := collected + StrList(c.serviceNames);
    }
    assert collected == StrList(c.serviceNames);
    if c.networks != [] {
      collected := collected + StrList(c.networks);
    }
    StrListAppend(c.serviceNames, c.networks);
    assert collected == StrList(c.serviceNames + c.networks);
    if c.volumes != [] {
      collected := collected + StrList(c.volumes);
    }
    StrListAppend(c.serviceNames + c.networks, c.volumes);
    assert collected == StrList(c.serviceNames + c.networks + c.volumes);
    var images := CollectImageTerms(c.services);
    if images.None? {
      return None;
    }
    terms := Some(collected + images.value + [Str("docker-compose")]);
  }

  /** The image loop of extract_search_terms. */
  method CollectImageTerms(services: seq<ServiceInfo>) returns (r: Option<seq<Value>>)
    ensures r == ImageTerms(services)
  {
    var collected: seq<Value> := [];
    var i := 0;
    while i < |services|
      invariant 0 <= i <= |services|
      invariant ImageTerms(services[..i]) == Some(collected)
    {
      ImageTermsStep(services, i);
      var t := ImageTerm(services[i].image);
      if t.None? {
        ImageTermsNoneSticks(services, i + 1);
        return None;
      }
      collected := collected + t.value;
      i := i + 1;
    }
    assert services[..i] == services;
    return Some(collected);
  }

  // -----------------------------------------------------------------------
  // The compose project and the container relationships

  /** The project a "compose-..." part of a config id names: the marker removed, '-' turned into '_', lower case. */
  function ProjectOf(part: string): (r: string)
    ensures '-' !in r
  {
    var r := Lower(ReplaceChar(Replace(part, "compose-", ""), '-', '_'));
    assert forall k :: 0 <= k < |r| ==> r[k] != '-';
    r
  }

  /** Index of the first '_'-part that starts with "compose-", or the number of parts. */
  function FirstComposePart(parts: seq<string>): (k: nat)
    ensures k <= |parts|
    ensures k < |parts| ==> StartsWith(parts[k], "compose-")
    ensures forall j :: 0 <= j < k ==> !StartsWith(parts[j], "compose-")
  {
    if parts == [] then 0
    else if StartsWith(parts[0], "compose-") then 0
    else 1 + FirstComposePart(parts[1..])
  }

  /** DockerComposeParser._extract_compose_project */
  method ExtractComposeProject(configId: string) returns (r: Option<string>)
    ensures var parts := Split(configId, '_');
      && (r.Some? <==> exists k :: 0 <= k < |parts| && StartsWith(parts[k], "compose-"))
      && (r.Some? ==> r.value == ProjectOf(parts[FirstComposePart(parts)]))
  {
    var parts := Split(configId, '_');
    var i := 0;
    while i < |parts|
      invariant 0 <= i <= |parts|
      invariant forall j :: 0 <= j < i ==> !StartsWith(parts[j], "compose-")
    {
      if StartsWith(parts[i], "compose-") {
        return Some(ProjectOf(parts[i]));
      }
      i := i + 1;
    }
    return None;
  }

  /**
   * _find_container_id over the container documents of rag_data.json: the
   * id of the first container document on the host whose compose project
   * matches ignoring case and whose compose service matches exactly. None
   * when nothing matches, and when a malformed document makes the search
   * raise.
   */
  function FindContainerId(docs: seq<Value>, hostname: string, project: string, service: string): (r: Option<string>)
    ensures r.Some? ==> r.value != ""
    ensures r.Some? ==> exists i :: 0 <= i < |docs| && ContainerMatches(docs[i], hostname, project, service)
                                   && GetOr(docs[i], "id", Null) == Str(r.value)
  {
    if docs == [] then None
    else
      var doc := docs[0];
      if !doc.Obj? then None
      else if GetOr(doc, "type", Null) != Str("container") then FindContainerId(docs[1..], hostname, project, service)
      else
        var metadata := GetObj(doc, "metadata");
        if !metadata.Obj? then None
        else
          var docProject := GetOr(metadata, "compose_project", Str(""));
          if GetOr(metadata, "hostname", Str("")) != Str(hostname) || !Truthy(docProject) then
            FindContainerId(docs[1..], hostname, project, service)
          else if !docProject.Str? then None
          else if Lower(docProject.s) == Lower(project) && GetOr(metadata, "compose_service", Str("")) == Str(service) then
            (match GetOr(doc, "id", Null)
             case Str(id) => if id != "" then Some(id) else None
             case _ => None)
          else FindContainerId(docs[1..], hostname, project, service)
  }

  /**
   * A container document on the host whose truthy compose project equals
   * `project` ignoring case and whose compose service is `service`.
   */
  predicate ContainerMatches(doc: Value, hostname: string, project: string, service: string) {
    && doc.Obj?
    && GetOr(doc, "type", Null) == Str("container")
    && var metadata := GetObj(doc, "metadata");
    && metadata.Obj?
    && GetOr(metadata, "hostname", Str("")) == Str(hostname)
    && var docProject := GetOr(metadata, "compose_project", Str(""));
    && docProject.Str? && docProject.s != "" && Lower(docProject.s) == Lower(project)
    && GetOr(metadata, "compose_service", Str("")) == Str(service)
  }

  /** A document the search can look at without raising. */
  predicate Searchable(doc: Value, hostname: string) {
    && doc.Obj?
    && (GetOr(doc, "type", Null) == Str("container") ==>
          var metadata := GetObj(doc, "metadata");
          && metadata.Obj?
          && (GetOr(metadata, "hostname", Str("")) == Str(hostname) ==>
                var docProject := GetOr(metadata, "compose_project", Str(""));
                !Truthy(docProject) || docProject.Str?))
  }

  /**
   * When the documents before it can be searched and do not match, the
   * first matching document with a non-empty string id is the one found.
   */
  lemma {:induction false} FindContainerIdFirst(docs: seq<Value>, hostname: string, project: string, service: string, i: nat)
    requires i < |docs| && ContainerMatches(docs[i], hostname, project, service)
    requires forall j :: 0 <= j < i ==> Searchable(docs[j], hostname) && !ContainerMatches(docs[j], hostname, project, service)
    requires GetOr(docs[i], "id", Null).Str? && GetOr(docs[i], "id", Null).s != ""
    ensures FindContainerId(docs, hostname, project, service) == Some(GetOr(docs[i], "id", Null).s)
  {
    if i > 0 {
      FindContainerIdFirst(docs[1..], hostname, project, service, i - 1);
    }
  }

  /** The metadata of a CONFIGURES edge from a compose file. */
  const ComposeConfigMetadata: seq<(string, Value)> := [("config_type", Str("docker_compose")), ("required", Bool(true))]

  /** The relationships for the services `names`, in order: a CONFIGURES/CONFIGURED_BY pair for each service with a container. */
  function ServiceRelationships(configId: string, names: seq<string>, hostname: string, project: string,
                                docs: seq<Value>, now: string): (rels: seq<Relationship>)
    ensures |rels| <= 2 * |names|
    ensures (forall n :: n in names ==> FindContainerId(docs, hostname, project, n).None?) ==> rels == []
  {
    if names == [] then []
    else
      assert forall n :: n in names[..|names| - 1] ==> n in names;
      var prev := ServiceRelationships(configId, names[..|names| - 1], hostname, project, docs, now);
      match FindContainerId(docs, hostname, project, names[|names| - 1])
      case None => prev
      case Some(id) => prev + BidirectionalPair(configId, "configuration_file", id, "container", "CONFIGURES",
                                                Stamp(ComposeConfigMetadata, now))
  }

  /** Pairs of a CONFIGURES edge from the config file to a container and the CONFIGURED_BY edge back. */
  predicate LinksConfig(rels: seq<Relationship>, configId: string)
    decreases |rels|
  {
    rels == []
    || (&& |rels| >= 2
        && LinksConfig(rels[..|rels| - 2], configId)
        && var forward, reverse := rels[|rels| - 2], rels[|rels| - 1];
        && forward.relType == "CONFIGURES" && forward.sourceId == configId && forward.targetType == "container"
        && reverse.relType == "CONFIGURED_BY" && reverse.targetId == configId && reverse.sourceType == "container"
        && reverse.sourceId == forward.targetId)
  }

  /** Every relationship links the config file to a container, one way or the other. */
  lemma {:induction false} ServiceRelationshipsLink(configId: string, names: seq<string>, hostname: string, project: string,
                                                    docs: seq<Value>, now: string)
    ensures LinksConfig(ServiceRelationships(configId, names, hostname, project, docs, now), configId)
  {
    if names != [] {
      var prev := ServiceRelationships(configId, names[..|names| - 1], hostname, project, docs, now);
      ServiceRelationshipsLink(configId, names[..|names| - 1], hostname, project, docs, now);
      match FindContainerId(docs, hostname, project, names[|names| - 1])
      case None =>
      case Some(id) =>
        var pair := BidirectionalPair(configId, "configuration_file", id, "container", "CONFIGURES",
                                      Stamp(ComposeConfigMetadata, now));
        assert ReverseType("CONFIGURES") == Some("CONFIGURED_BY");
        var rels := prev + pair;
        assert rels[..|rels| - 2] == prev;
    }
  }

  /** DockerComposeParser.create_relationships */
  method CreateRelationships(configId: string, parsed: Option<ComposeConfig>, hostname: string, docs: seq<Value>, now: string)
    returns (rels: seq<Relationship>)
    ensures parsed.None? || parsed.value.serviceNames == [] ==> rels == []
    ensures parsed.Some? && parsed.value.serviceNames != [] ==>
      var parts := Split(configId, '_');
      var k := FirstComposePart(parts);
      rels == (if k < |parts| then ServiceRelationships(configId, parsed.value.serviceNames, hostname, ProjectOf(parts[k]), docs, now) else [])
  {
    rels := [];
    if parsed.None? || parsed.value.serviceNames == [] {
      return;
    }
    var project := ExtractComposeProject(configId);
    if project.None? {
      return;
    }
    rels := LinkServices(configId, parsed.value.serviceNames, hostname, project.value, docs, now);
  }

  /** The service loop of create_relationships: a pair of edges for each service whose container is found. */
  method LinkServices(configId: string, names: seq<string>, hostname: string, project: string, docs: seq<Value>, now: string)
    returns (rels: seq<Relationship>)
    ensures rels == ServiceRelationships(configId, names, hostname, project, docs, now)
  {
    rels := [];
    var i := 0;
    while i < |names|
      invariant 0 <= i <= |names|
      invariant rels == ServiceRelationships(configId, names[..i], hostname, project, docs, now)
    {
      ServiceRelationshipsStep(configId, names, i, hostname, project, docs, now);
      var id := FindContainerId(docs, hostname, project, names[i]);
      if id.Some? {
        var pair := BidirectionalPair(configId, "configuration_file", id.value, "container", "CONFIGURES",
                                      Stamp(ComposeConfigMetadata, now));
        rels := rels + pair;
      }
      i := i + 1;
    }
    assert names[..i] == names;
  }

  /** One more service adds its pair of edges when its container is found, and nothing otherwise. */
  lemma ServiceRelationshipsStep(configId: string, names: seq<string>, i: nat, hostname: string, project: string,
                                 docs: seq<Value>, now: string)
    requires i < |names|
    ensures ServiceRelationships(configId, names[..i + 1], hostname, project, docs, now)
         == var prev := ServiceRelationships(configId, names[..i], hostname, project, docs, now);
            match FindContainerId(docs, hostname, project, names[i])
            case None => prev
            case Some(id) => prev + BidirectionalPair(configId, "configuration_file", id, "container", "CONFIGURES",
                                                      Stamp(ComposeConfigMetadata, now))
  {
    assert names[..i + 1][..i] == names[..i];
  }
}
