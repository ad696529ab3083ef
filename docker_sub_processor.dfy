/**
 * DockerSubProcessor (src/processors/sub_processors/docker_sub_processor.py):
 * turns the `docker inspect` output of each container into a container
 * document with a HOSTED_BY/HOSTS pair, and links containers of one
 * compose project by DEPENDS_ON/SUPPORTS pairs. A parser that would raise
 * yields None; `now` stands for the clock.
 */
module DockerContainers {
  import opened Text
  import opened Values
  import opened Relationships

  // -----------------------------------------------------------------------
  // Image

  datatype ImageInfo = ImageInfo(fullName: string, registry: Option<string>, repository: string, tag: string)

  /** _parse_image_info on the image string: `[registry/]repository[:tag]`. */
  function ParseImage(image: string): (info: ImageInfo)
    ensures info.fullName == image
    ensures ':' !in image ==> info.tag == "latest"
    ensures ':' in image ==> ':' !in info.tag
    ensures info.registry.Some? ==> ('.' in info.registry.value || ':' in info.registry.value) && '/' !in info.registry.value
  {
    var (repo, tag) := if ':' in image then RSplitOnce(image, ':') else (image, "latest");
    if '/' in repo then
      var parts := Split(repo, '/');
      if '.' in parts[0] || ':' in parts[0] then ImageInfo(image, Some(parts[0]), Join(parts[1..], "/"), tag)
      else ImageInfo(image, None, repo, tag)
    else ImageInfo(image, None, repo, tag)
  }

  /** A path holding '/' is its first segment, a '/', and the other segments joined back. */
  lemma RegistrySplit(repo: string)
    requires '/' in repo
    ensures var parts := Split(repo, '/');
            |parts| >= 2 && parts[0] + "/" + Join(parts[1..], "/") == repo
  {
    var parts := Split(repo, '/');
    SplitJoin(repo, '/');
    var i := IndexOf(repo, '/');
    assert parts == [repo[..i]] + Split(repo[i + 1..], '/');
    assert |parts| >= 2;
    assert Join(parts, "/") == parts[0] + "/" + Join(parts[1..], "/");
  }

  /** Registry, repository and tag put back together give the image string. */
  lemma ImageRoundTrip(image: string)
    ensures var info := ParseImage(image);
            (if info.registry.Some? then info.registry.value + "/" else "") + info.repository
            + (if ':' in image then ":" + info.tag else "") == image
  {
    var info := ParseImage(image);
    var (repo, tag) := if ':' in image then RSplitOnce(image, ':') else (image, "latest");
    var prefix := (if info.registry.Some? then info.registry.value + "/" else "") + info.repository;
    assert prefix == repo by {
      if '/' in repo && ('.' in Split(repo, '/')[0] || ':' in Split(repo, '/')[0]) {
        RegistrySplit(repo);
      }
    }
    assert info.tag == tag;
    assert repo + (if ':' in image then ":" + tag else "") == image;
  }

  // -----------------------------------------------------------------------
  // State

  const KnownStates: seq<string> := ["running", "stopped", "paused", "restarting", "dead", "created", "exited"]

  datatype StateInfo = StateInfo(state: string, restartPolicy: Value)

  /** `inspect['State'].get('Status', 'unknown')`. */
  function StatusOf(inspect: Value): Value {
    GetOr(GetObj(inspect, "State"), "Status", Str("unknown"))
  }

  /** _parse_state_info: a known status (any case) is kept lower-cased; any other follows State.Running. */
  function ParseStateInfo(inspect: Value): (r: Option<StateInfo>)
    ensures r.Some? ==> r.value.state in KnownStates
    ensures r.Some? ==> StatusOf(inspect).Str?
    ensures r.Some? && Lower(StatusOf(inspect).s) in KnownStates ==> r.value.state == Lower(StatusOf(inspect).s)
  {
    var state := GetObj(inspect, "State");
    var hostConfig := GetObj(inspect, "HostConfig");
    if !inspect.Obj? || !state.Obj? || !hostConfig.Obj? then None
    else
      var restart := GetObj(hostConfig, "RestartPolicy");
      var status := GetOr(state, "Status", Str("unknown"));
      if !restart.Obj? || !status.Str? then None
      else
        var lowered := Lower(status.s);
        var mapped :=
          if lowered in KnownStates then lowered
          else if Truthy(GetOr(state, "Running", Null)) then "running"
          else "stopped";
        Some(StateInfo(mapped, GetOr(restart, "Name", Str("no"))))
  }

  /** An unknown status becomes running exactly when State.Running is truthy; the restart policy defaults to "no". */
  lemma UnknownStatusFollowsRunning(inspect: Value)
    requires ParseStateInfo(inspect).Some?
    requires Lower(StatusOf(inspect).s) !in KnownStates
    ensures ParseStateInfo(inspect).value.state ==
              (if Truthy(GetOr(GetObj(inspect, "State"), "Running", Null)) then "running" else "stopped")
    ensures Get(GetObj(GetObj(inspect, "HostConfig"), "RestartPolicy"), "Name").None? ==>
              ParseStateInfo(inspect).value.restartPolicy == Str("no")
  {
  }

  // -----------------------------------------------------------------------
  // Ports

  /** What `re.match(r'(\d+)/(tcp|udp)', key)` captures. */
  datatype PortMatch = PortMatch(port: nat, protocol: string)

  function MatchPortKey(key: string): (m: Option<PortMatch>)
    ensures m.Some? ==> m.value.protocol == "tcp" || m.value.protocol == "udp"
  {
    var k := DigitEnd(key, 0);
    if 0 < k < |key| && key[k] == '/' && (StartsWith(key[k + 1..], "tcp") || StartsWith(key[k + 1..], "udp"))
    then Some(PortMatch(DigitsValue(key[..k]), key[k + 1..k + 4]))
    else None
  }

  /** "port/protocol" keys, with anything after the protocol, are matched back to their port and protocol. */
  lemma MatchPortKeyOf(port: nat, protocol: string, rest: string)
    requires protocol == "tcp" || protocol == "udp"
    ensures MatchPortKey(NatToString(port) + "/" + protocol + rest) == Some(PortMatch(port, protocol))
  {
    var d := NatToString(port);
    var key := d + "/" + protocol + rest;
    assert forall k :: 0 <= k < |d| ==> key[k] == d[k];
    assert key[|d|] == '/';
    DigitEndAt(key, 0, |d|);
    assert key[..|d|] == d;
    assert key[|d| + 1..] == protocol + rest;
    assert key[|d| + 1..|d| + 4] == protocol;
    NatToStringValue(port);
  }

  /** A key without a leading digit run followed by "/tcp" or "/udp" is not a port. */
  lemma NonPortKey(key: string)
    requires key == [] || !IsDigit(key[0])
    ensures MatchPortKey(key).None?
  {
    DigitEndAt(key, 0, 0);
  }

  datatype PublishedPort = PublishedPort(hostPort: int, containerPort: nat, protocol: string)
  datatype DetailedPort = DetailedPort(containerPort: nat, protocol: string, hostPort: Option<int>, hostIp: Value)
  datatype PortAcc = PortAcc(published: seq<PublishedPort>, detailed: seq<DetailedPort>)
  datatype PortInfo = PortInfo(published: seq<PublishedPort>, exposed: Option<seq<string>>, detailed: seq<DetailedPort>)

  /** Whether a binding publishes its port: it is a dict with a truthy HostPort. */
  predicate Publishes(binding: Value) {
    binding.Obj? && Truthy(GetOr(binding, "HostPort", Null))
  }

  /** One binding of a matched key. */
  function BindingStep(acc: PortAcc, m: PortMatch, binding: Value): (r: Option<PortAcc>)
    ensures r.Some? && !Publishes(binding) ==> r.value.published == acc.published
    ensures r.Some? && Publishes(binding) ==> (IntOf(GetOr(binding, "HostPort", Null)).Some?
              && r.value.published == acc.published + [PublishedPort(IntOf(GetOr(binding, "HostPort", Null)).value, m.port, m.protocol)])
  {
    if !binding.Obj? then None
    else
      var hostPort := GetOr(binding, "HostPort", Null);
      var hostIp := GetOr(binding, "HostIp", Str("0.0.0.0"));
      if !Truthy(hostPort) then Some(acc)
      else
        match IntOf(hostPort)
        case None => None
        case Some(n) =>
          Some(PortAcc(acc.published + [PublishedPort(n, m.port, m.protocol)],
                       acc.detailed + [DetailedPort(m.port, m.protocol, Some(n), if Truthy(hostIp) then hostIp else Null)]))
  }

  /** The number of bindings that publish a port. */
  function PublishingCount(bindings: seq<Value>): nat {
    if bindings == [] then 0
    else PublishingCount(bindings[..|bindings| - 1]) + (if Publishes(bindings[|bindings| - 1]) then 1 else 0)
  }

  /** The bindings of one matched key, in order. */
  function BindingsPorts(acc: PortAcc, m: PortMatch, bindings: seq<Value>): (r: Option<PortAcc>)
    ensures r.Some? ==> |r.value.published| == |acc.published| + PublishingCount(bindings)
    ensures r.Some? ==> r.value.published[..|acc.published|] == acc.published
  {
    if bindings == [] then Some(acc)
    else
      match BindingsPorts(acc, m, bindings[..|bindings| - 1])
      case None => None
      case Some(a) => BindingStep(a, m, bindings[|bindings| - 1])
  }

  /** One PortBindings entry: a key that is not a port is skipped; an unbound port is recorded without host port. */
  function EntryPorts(acc: PortAcc, key: string, bindings: Value): Option<PortAcc> {
    match MatchPortKey(key)
    case None => Some(acc)
    case Some(m) =>
      if !Truthy(bindings) then Some(PortAcc(acc.published, acc.detailed + [DetailedPort(m.port, m.protocol, None, Null)]))
      else if bindings.List? then BindingsPorts(acc, m, bindings.items)
      else None
  }

  function BoundPorts(entries: seq<(string, Value)>): Option<PortAcc> {
    if entries == [] then Some(PortAcc([], []))
    else
      match BoundPorts(entries[..|entries| - 1])
      case None => None
      case Some(acc) => EntryPorts(acc, entries[|entries| - 1].0, entries[|entries| - 1].1)
  }

  /** The exposed keys that are ports and have no PortBindings entry. */
  function ExposedOnly(exposed: seq<string>, bound: seq<string>): (r: seq<string>)
    ensures forall i :: 0 <= i < |r| ==> r[i] in exposed && r[i] !in bound && MatchPortKey(r[i]).Some?
  {
    if exposed == [] then []
    else
      var rest := ExposedOnly(exposed[..|exposed| - 1], bound);
      var k := exposed[|exposed| - 1];
      if k !in bound && MatchPortKey(k).Some? then rest + [k] else rest
  }

  /** Detailed records of the exposed-only ports, in order. */
  function ExposedDetails(keys: seq<string>): seq<DetailedPort>
    requires forall i :: 0 <= i < |keys| ==> MatchPortKey(keys[i]).Some?
  {
    seq(|keys|, i requires 0 <= i < |keys| =>
      DetailedPort(MatchPortKey(keys[i]).value.port, MatchPortKey(keys[i]).value.protocol, None, Null))
  }

  /** _parse_port_info over the PortBindings entries and the ExposedPorts keys. */
  function PortInfoOf(bindings: seq<(string, Value)>, exposed: seq<string>): (r: Option<PortInfo>)
    ensures r.Some? ==> forall i :: 0 <= i < |r.value.published| ==>
              r.value.published[i].protocol == "tcp" || r.value.published[i].protocol == "udp"
    ensures r.Some? && r.value.exposed.Some? ==> r.value.exposed.value != []
    ensures r.Some? && r.value.exposed.Some? ==> forall i :: 0 <= i < |r.value.exposed.value| ==>
              r.value.exposed.value[i] !in Keys(bindings) && MatchPortKey(r.value.exposed.value[i]).Some?
  {
    match BoundPorts(bindings)
    case None => None
    case Some(acc) =>
      var only := ExposedOnly(exposed, Keys(bindings));
      PublishedProtocols(bindings);
      Some(PortInfo(acc.published, if only != [] then Some(only) else None, acc.detailed + ExposedDetails(only)))
  }

  /** Every published port carries the protocol its key matched. */
  lemma {:induction false} PublishedProtocols(bindings: seq<(string, Value)>)
    ensures BoundPorts(bindings).Some? ==> forall i :: 0 <= i < |BoundPorts(bindings).value.published| ==>
              BoundPorts(bindings).value.published[i].protocol in {"tcp", "udp"}
  {
    if bindings != [] {
      var pre := bindings[..|bindings| - 1];
      PublishedProtocols(pre);
      var (key, b) := bindings[|bindings| - 1];
      if BoundPorts(pre).Some? && MatchPortKey(key).Some? && Truthy(b) && b.List? {
        BindingProtocols(BoundPorts(pre).value, MatchPortKey(key).value, b.items);
      }
    }
  }

  lemma {:induction false} BindingProtocols(acc: PortAcc, m: PortMatch, bindings: seq<Value>)
    requires m.protocol in {"tcp", "udp"}
    requires forall i :: 0 <= i < |acc.published| ==> acc.published[i].protocol in {"tcp", "udp"}
    ensures BindingsPorts(acc, m, bindings).Some? ==>
              forall i :: 0 <= i < |BindingsPorts(acc, m, bindings).value.published| ==>
                BindingsPorts(acc, m, bindings).value.published[i].protocol in {"tcp", "udp"}
  {
    if bindings != [] {
      BindingProtocols(acc, m, bindings[..|bindings| - 1]);
    }
  }

  /** A PortBindings key that is not a port adds nothing. */
  lemma SkippedPortKey(bindings: seq<(string, Value)>, key: string, b: Value)
    requires MatchPortKey(key).None?
    ensures BoundPorts(bindings + [(key, b)]) == BoundPorts(bindings)
  {
    assert (bindings + [(key, b)])[..|bindings|] == bindings;
  }

  /** _parse_port_info. */
  method ParsePortInfo(bindings: seq<(string, Value)>, exposed: seq<string>) returns (r: Option<PortInfo>)
    ensures r == PortInfoOf(bindings, exposed)
  {
    var acc := PortAcc([], []);
    var i := 0;
    while i < |bindings|
      invariant 0 <= i <= |bindings|
      invariant BoundPorts(bindings[..i]) == Some(acc)
    {
      assert bindings[..i + 1][..i] == bindings[..i];
      var (key, b) := bindings[i];
      var m := MatchPortKey(key);
      if m.Some? {
        if !Truthy(b) {
          acc := PortAcc(acc.published, acc.detailed + [DetailedPort(m.value.port, m.value.protocol, None, Null)]);
        } else if !b.List? {
          BoundPortsNoneSticks(bindings, i + 1);
          return None;
        } else {
          var items := b.items;
          ghost var start := acc;
          var j := 0;
          while j < |items|
            invariant 0 <= j <= |items|
            invariant BindingsPorts(start, m.value, items[..j]) == Some(acc)
          {
            assert items[..j + 1][..j] == items[..j];
            var step := BindingStep(acc, m.value, items[j]);
            if step.None? {
              BindingsNoneSticks(start, m.value, items, j + 1);
              BoundPortsNoneSticks(bindings, i + 1);
              return None;
            }
            acc := step.value;
            j := j + 1;
          }
          assert items[..|items|] == items;
        }
      }
      i := i + 1;
    }
    assert bindings[..|bindings|] == bindings;
    var bound := Keys(bindings);
    var only: seq<string> := [];
    var k := 0;
    while k < |exposed|
      invariant 0 <= k <= |exposed|
      invariant only == ExposedOnly(exposed[..k], bound)
    {
      assert exposed[..k + 1][..k] == exposed[..k];
      if exposed[k] !in bound && MatchPortKey(exposed[k]).Some? {
        only := only + [exposed[k]];
      }
      k := k + 1;
    }
    assert exposed[..|exposed|] == exposed;
    r := Some(PortInfo(acc.published, if only != [] then Some(only) else None, acc.detailed + ExposedDetails(only)));
  }

  lemma {:induction false} BoundPortsNoneSticks(bindings: seq<(string, Value)>, n: nat)
    requires n <= |bindings| && BoundPorts(bindings[..n]).None?
    ensures BoundPorts(bindings).None?
    decreases |bindings| - n
  {
    if n < |bindings| {
      assert bindings[..n + 1][..n] == bindings[..n];
      BoundPortsNoneSticks(bindings, n + 1);
    } else {
      assert bindings[..n] == bindings;
    }
  }

  lemma {:induction false} BindingsNoneSticks(acc: PortAcc, m: PortMatch, items: seq<Value>, n: nat)
    requires n <= |items| && BindingsPorts(acc, m, items[..n]).None?
    ensures BindingsPorts(acc, m, items).None?
    decreases |items| - n
  {
    if n < |items| {
      assert items[..n + 1][..n] == items[..n];
      BindingsNoneSticks(acc, m, items, n + 1);
    } else {
      assert items[..n] == items;
    }
  }

  // -----------------------------------------------------------------------
  // Environment

  datatype EnvInfo = EnvInfo(hasVariables: bool, variableCount: nat, variableNames: Option<seq<string>>)

  /**
   * The names of `NAME=value` entries. A list or dict entry is checked by
   * membership and raises only when it holds "="; any other non-string raises.
   */
  function EnvNames(envs: seq<Value>): (r: Option<seq<string>>)
    ensures r.Some? ==> forall i :: 0 <= i < |r.value| ==> '=' !in r.value[i]
  {
    if envs == [] then Some([])
    else
      match EnvNames(envs[..|envs| - 1])
      case None => None
      case Some(names) =>
        match envs[|envs| - 1]
        case Str(s) => Some(if '=' in s then names + [SplitOnce(s, '=').0] else names)
        case List(xs) => if Str("=") in xs then None else Some(names)
        case Obj(fs) => if "=" in Keys(fs) then None else Some(names)
        case _ => None
  }

  /** The string entries that contain '='. */
  function Assignments(envs: seq<Value>): seq<string> {
    if envs == [] then []
    else
      var last := envs[|envs| - 1];
      Assignments(envs[..|envs| - 1]) + (if last.Str? && '=' in last.s then [last.s] else [])
  }

  /** Exactly one name per assignment, the text before its first '='. */
  lemma {:induction false} EnvNamesOfAssignments(envs: seq<Value>)
    requires EnvNames(envs).Some?
    ensures |EnvNames(envs).value| == |Assignments(envs)|
    ensures forall i :: 0 <= i < |Assignments(envs)| ==>
              '=' in Assignments(envs)[i] && Assignments(envs)[i] == EnvNames(envs).value[i] + "=" + SplitOnce(Assignments(envs)[i], '=').1.value
  {
    if envs != [] {
      EnvNamesOfAssignments(envs[..|envs| - 1]);
    }
  }

  function EnvInfoOf(envs: seq<Value>): (r: Option<EnvInfo>)
    ensures r.Some? ==> (r.value.hasVariables <==> r.value.variableCount > 0)
    ensures r.Some? ==> (r.value.variableNames.None? <==> r.value.variableCount == 0)
    ensures r.Some? && r.value.variableNames.Some? ==> |r.value.variableNames.value| == r.value.variableCount
  {
    match EnvNames(envs)
    case None => None
    case Some(names) => Some(EnvInfo(|names| > 0, |names|, if names != [] then Some(names) else None))
  }

  /** _parse_environment_info over the entries of Config.Env. */
  method ParseEnvironmentInfo(envs: seq<Value>) returns (r: Option<EnvInfo>)
    ensures r == EnvInfoOf(envs)
  {
    var names: seq<string> := [];
    var i := 0;
    while i < |envs|
      invariant 0 <= i <= |envs|
      invariant EnvNames(envs[..i]) == Some(names)
    {
      assert envs[..i + 1][..i] == envs[..i];
      var e := envs[i];
      if e.Str? {
        if '=' in e.s {
          names := names + [SplitOnce(e.s, '=').0];
        }
      } else if (e.List? && Str("=") !in e.items) || (e.Obj? && "=" !in Keys(e.fields)) {
      } else {
        EnvNamesNoneSticks(envs, i + 1);
        return None;
      }
      i := i + 1;
    }
    assert envs[..|envs|] == envs;
    r := Some(EnvInfo(|names| > 0, |names|, if names != [] then Some(names) else None));
  }

  lemma {:induction false} EnvNamesNoneSticks(envs: seq<Value>, n: nat)
    requires n <= |envs| && EnvNames(envs[..n]).None?
    ensures EnvNames(envs).None?
    decreases |envs| - n
  {
    if n < |envs| {
      assert envs[..n + 1][..n] == envs[..n];
      EnvNamesNoneSticks(envs, n + 1);
    } else {
      assert envs[..n] == envs;
    }
  }

  // -----------------------------------------------------------------------
  // Compose labels

  datatype ComposeInfo = ComposeInfo(
    project: Value,
    service: Value,
    configFile: Value,
    configHash: Value,
    workingDir: Value,
    containerNumber: Option<int>,
    oneoff: Option<bool>,
    version: Value,
    dependsOn: Option<seq<string>>)

  /** _parse_compose_info: Some(None) is the empty dict returned without a project label. */
  function ParseComposeInfo(labels: seq<(string, Value)>): (r: Option<Option<ComposeInfo>>)
    ensures !Truthy(GetOr(Obj(labels), "com.docker.compose.project", Null)) ==> r == Some(None)
    ensures r.Some? && r.value.Some? ==> r.value.value.project == Lookup(labels, "com.docker.compose.project").value
    ensures r.Some? && r.value.Some? && r.value.value.dependsOn.Some? ==>
              forall i :: 0 <= i < |r.value.value.dependsOn.value| ==> IsStrippedWord(r.value.value.dependsOn.value[i])
  {
    var l := Obj(labels);
    var project := GetOr(l, "com.docker.compose.project", Null);
    if !Truthy(project) then Some(None)
    else
      var number := GetOr(l, "com.docker.compose.container-number", Null);
      var oneoff := GetOr(l, "com.docker.compose.oneoff", Null);
      var dependsOn := GetOr(l, "com.docker.compose.depends_on", Null);
      if (Truthy(number) && IntOf(number).None?) || (Truthy(dependsOn) && !dependsOn.Str?) then None
      else
        Some(Some(ComposeInfo(
          project,
          GetOr(l, "com.docker.compose.service", Null),
          GetOr(l, "com.docker.compose.project.config_files", Null),
          GetOr(l, "com.docker.compose.config-hash", Null),
          GetOr(l, "com.docker.compose.project.working_dir", Null),
          if Truthy(number) then IntOf(number) else None,
          if Truthy(oneoff) then Some(oneoff == Str("True")) else None,
          GetOr(l, "com.docker.compose.version", Null),
          if Truthy(dependsOn) then Some(StrippedNonEmpty(Split(dependsOn.s, ','))) else None)))
  }

  // -----------------------------------------------------------------------
  // Dependency type

  const DatabaseWords: seq<string> := ["postgres", "postgresql", "mysql", "mariadb", "mongo", "database", "db"]
  const CacheWords: seq<string> := ["redis", "memcached", "cache"]
  const QueueWords: seq<string> := ["rabbit", "kafka", "nats", "queue", "mq"]
  const SearchWords: seq<string> := ["elastic", "opensearch", "solr"]
  const StorageWords: seq<string> := ["minio", "s3", "storage"]
  const ProxyWords: seq<string> := ["nginx", "apache", "httpd", "proxy", "traefik"]

  /** One of the words occurs in the service name or in the image. */
  predicate MentionsAny(words: seq<string>, service: string, image: string) {
    exists i :: 0 <= i < |words| && (Contains(service, words[i]) || Contains(image, words[i]))
  }

  /** _infer_dependency_type: the first family, in a fixed order, that the lower-cased name or image mentions. */
  function InferDependencyType(serviceName: string, image: string): (t: string)
    ensures t in ["database", "cache", "message_queue", "search", "storage", "proxy", "service"]
    ensures t == "database" <==> MentionsAny(DatabaseWords, Lower(serviceName), Lower(image))
    ensures t == "cache" <==>
              !MentionsAny(DatabaseWords, Lower(serviceName), Lower(image)) && MentionsAny(CacheWords, Lower(serviceName), Lower(image))
    ensures t == "message_queue" <==>
              !MentionsAny(DatabaseWords, Lower(serviceName), Lower(image)) && !MentionsAny(CacheWords, Lower(serviceName), Lower(image))
              && MentionsAny(QueueWords, Lower(serviceName), Lower(image))
    ensures t == "search" <==>
              !MentionsAny(DatabaseWords, Lower(serviceName), Lower(image)) && !MentionsAny(CacheWords, Lower(serviceName), Lower(image))
              && !MentionsAny(QueueWords, Lower(serviceName), Lower(image)) && MentionsAny(SearchWords, Lower(serviceName), Lower(image))
    ensures t == "storage" <==>
              !MentionsAny(DatabaseWords, Lower(serviceName), Lower(image)) && !MentionsAny(CacheWords, Lower(serviceName), Lower(image))
              && !MentionsAny(QueueWords, Lower(serviceName), Lower(image)) && !MentionsAny(SearchWords, Lower(serviceName), Lower(image))
              && MentionsAny(StorageWords, Lower(serviceName), Lower(image))
    ensures t == "proxy" <==>
              !MentionsAny(DatabaseWords, Lower(serviceName), Lower(image)) && !MentionsAny(CacheWords, Lower(serviceName), Lower(image))
              && !MentionsAny(QueueWords, Lower(serviceName), Lower(image)) && !MentionsAny(SearchWords, Lower(serviceName), Lower(image))
              && !MentionsAny(StorageWords, Lower(serviceName), Lower(image)) && MentionsAny(ProxyWords, Lower(serviceName), Lower(image))
    ensures t == "service" <==>
              !MentionsAny(DatabaseWords, Lower(serviceName), Lower(image)) && !MentionsAny(CacheWords, Lower(serviceName), Lower(image))
              && !MentionsAny(QueueWords, Lower(serviceName), Lower(image)) && !MentionsAny(SearchWords, Lower(serviceName), Lower(image))
              && !MentionsAny(StorageWords, Lower(serviceName), Lower(image)) && !MentionsAny(ProxyWords, Lower(serviceName), Lower(image))
  {
    var s := Lower(serviceName);
    var i := Lower(image);
    if MentionsAny(DatabaseWords, s, i) then "database"
    else if MentionsAny(CacheWords, s, i) then "cache"
    else if MentionsAny(QueueWords, s, i) then "message_queue"
    else if MentionsAny(SearchWords, s, i) then "search"
    else if MentionsAny(StorageWords, s, i) then "storage"
    else if MentionsAny(ProxyWords, s, i) then "proxy"
    else "service"
  }

  /** The inferred type ignores case. */
  lemma InferDependencyTypeIgnoresCase(serviceName: string, image: string)
    ensures InferDependencyType(serviceName, image) == InferDependencyType(Lower(serviceName), Lower(image))
  {
    LowerIdempotent(serviceName);
    LowerIdempotent(image);
  }

  // -----------------------------------------------------------------------
  // Container documents and their relationships

  /** The fields of a container document's metadata that the dependency pass reads. */
  datatype ContainerDoc = ContainerDoc(
    id: string,
    hostname: string,
    containerName: Value,
    image: string,
    composeProject: Value,
    composeService: Value,
    dependsOn: Option<seq<string>>)

  /** "container_{system_name}_{container_name}" */
  function ContainerId(systemName: string, name: string): (id: string)
    ensures StartsWith(id, "container_" + systemName + "_") && EndsWith(id, name)
  {
    var id := "container_" + systemName + "_" + name;
    assert id[..|"container_" + systemName + "_"|] == "container_" + systemName + "_";
    assert id[|id| - |name|..] == name;
    id
  }

  /** What _create_container_document gives: no inspect data, an exception, or a document with its relationships. */
  datatype ContainerOutcome = NoInspect | Raised | Built(doc: ContainerDoc, rels: seq<Relationship>)

  /** Config.Env, `or []`, as the loop iterates it. */
  function EnvEntries(config: Value): Option<seq<Value>> {
    var env := GetOr(config, "Env", Null);
    if Truthy(env) then Iterate(env) else Some([])
  }

  /** PortBindings and ExposedPorts, each `or {}`; a truthy non-dict raises at `.items()` or `.keys()`. */
  function PortSources(inspect: Value): Option<(seq<(string, Value)>, seq<string>)> {
    var hostConfig := GetObj(inspect, "HostConfig");
    var config := GetObj(inspect, "Config");
    var bindings := if Truthy(GetOr(hostConfig, "PortBindings", Null)) then GetOr(hostConfig, "PortBindings", Null) else Obj([]);
    var exposed := if Truthy(GetOr(config, "ExposedPorts", Null)) then GetOr(config, "ExposedPorts", Null) else Obj([]);
    if !hostConfig.Obj? || !config.Obj? || !bindings.Obj? || !exposed.Obj? then None
    else Some((bindings.fields, Keys(exposed.fields)))
  }

  /** The document and its HOSTED_BY/HOSTS pair to the virtual server "virtual_server_{system_name}". */
  function BuiltContainer(systemName: string, name: Value, nameText: string, image: string,
                          compose: Option<ComposeInfo>, now: string): (o: ContainerOutcome)
    ensures o.Built? && o.doc.hostname == systemName && o.doc.id == ContainerId(systemName, nameText)
    ensures |o.rels| == 2 && o.rels[0].relType == "HOSTED_BY" && o.rels[0].sourceId == o.doc.id
            && o.rels[0].targetId == "virtual_server_" + systemName && o.rels[0].targetType == "virtual_server"
            && o.rels[1].relType == "HOSTS" && o.rels[1].targetId == o.doc.id
  {
    var id := ContainerId(systemName, nameText);
    var doc := ContainerDoc(id, systemName, name, image,
                            if compose.Some? then compose.value.project else Null,
                            if compose.Some? then compose.value.service else Null,
                            if compose.Some? then compose.value.dependsOn else None);
    assert "HOSTED_BY" in BidirectionalTypes && BidirectionalTypes["HOSTED_BY"] == "HOSTS";
    var hostedBy := BidirectionalPair(id, "container", "virtual_server_" + systemName, "virtual_server", "HOSTED_BY",
                                      Stamp([("container_name", name), ("image", Str(image))], now));
    Built(doc, hostedBy)
  }

  /**
   * _create_container_document for one container record (a dict). Only the
   * image, state, port, environment and compose parsers are checked for
   * exceptions.
   */
  function ContainerRecord(systemName: string, data: Value, now: string): (o: ContainerOutcome)
    ensures !Truthy(GetOr(data, "inspect", Obj([]))) ==> o == NoInspect
    ensures o.Built? ==> StartsWith(o.doc.id, "container_" + systemName + "_") && o.doc.hostname == systemName
    ensures o.Built? ==> (|o.rels| == 2 && o.rels[0].relType == "HOSTED_BY" && o.rels[0].sourceId == o.doc.id
                          && o.rels[1].relType == "HOSTS" && o.rels[1].targetId == o.doc.id)
  {
    var name := GetOr(data, "name", Str("unknown"));
    var inspect := GetOr(data, "inspect", Obj([]));
    if !Truthy(inspect) then NoInspect
    else
      var config := GetObj(inspect, "Config");
      var imageStr := GetOr(config, "Image", Str("unknown"));
      var labels := GetOr(config, "Labels", Null);
      var labelDict := if Truthy(labels) then labels else Obj([]);
      var env := EnvEntries(config);
      if !inspect.Obj? || Show(name).None? || !config.Obj? || !imageStr.Str? || !labelDict.Obj? || env.None? then Raised
      else if !ParsersSucceed(inspect, env.value, labelDict.fields) then Raised
      else BuiltContainer(systemName, name, Show(name).value, ParseImage(imageStr.s).fullName,
                          ParseComposeInfo(labelDict.fields).value, now)
  }

  /** The state, port, environment and compose parsers all return without raising. */
  predicate ParsersSucceed(inspect: Value, env: seq<Value>, labels: seq<(string, Value)>) {
    ParseStateInfo(inspect).Some?
    && PortSources(inspect).Some? && PortInfoOf(PortSources(inspect).value.0, PortSources(inspect).value.1).Some?
    && EnvInfoOf(env).Some?
    && ParseComposeInfo(labels).Some?
  }

  // -----------------------------------------------------------------------
  // Dependencies between containers

  /** The container a (host, project, service) key resolves to. */
  datatype Target = Target(id: string, image: string)

  /**
   * A document's lookup key: Some(None) when the document has no key, and
   * None where building or storing the key raises, that is where `.lower()`
   * meets a non-string project or the key holds an unhashable list or dict
   * service.
   */
  function LookupKey(doc: ContainerDoc): (r: Option<Option<(string, string, Value)>>)
    ensures r == Some(None) <==> doc.hostname == "" || !Truthy(doc.composeProject) || !Truthy(doc.composeService)
    ensures r.None? <==> doc.hostname != "" && Truthy(doc.composeProject) && Truthy(doc.composeService)
                         && (!doc.composeProject.Str? || doc.composeService.List? || doc.composeService.Obj?)
    ensures r.Some? && r.value.Some? ==>
              r.value.value == (doc.hostname, Lower(doc.composeProject.s), doc.composeService)
              && !doc.composeService.List? && !doc.composeService.Obj?
  {
    if doc.hostname != "" && Truthy(doc.composeProject) && Truthy(doc.composeService) then
      if doc.composeProject.Str? && !doc.composeService.List? && !doc.composeService.Obj? then
        Some(Some((doc.hostname, Lower(doc.composeProject.s), doc.composeService)))
      else None
    else Some(None)
  }

  /** The lookup table fails exactly when some document's key raises. */
  lemma {:induction false} LookupTableFailsIff(docs: seq<ContainerDoc>)
    ensures LookupTable(docs).None? <==> exists i :: 0 <= i < |docs| && LookupKey(docs[i]).None?
  {
    if docs != [] {
      var n := |docs| - 1;
      LookupTableFailsIff(docs[..n]);
      assert forall i :: 0 <= i < n ==> docs[..n][i] == docs[i];
    }
  }

  /** The lookup table of the first loop; a later document with the same key replaces an earlier one. */
  function LookupTable(docs: seq<ContainerDoc>): Option<map<(string, string, Value), Target>> {
    if docs == [] then Some(map[])
    else
      match LookupTable(docs[..|docs| - 1])
      case None => None
      case Some(table) =>
        var doc := docs[|docs| - 1];
        match LookupKey(doc)
        case None => None
        case Some(None) => Some(table)
        case Some(Some(k)) => Some(table[k := Target(doc.id, doc.image)])
  }

  /** A `service[:condition[:...]]` entry: the trimmed service name and the condition, service_started by default. */
  function ParseDependency(dep: string): (r: (string, string))
    ensures ':' !in dep ==> r == (Strip(dep), "service_started")
    ensures ':' !in r.0
  {
    var parts := Split(dep, ':');
    (Strip(parts[0]), if |parts| > 1 then parts[1] else "service_started")
  }

  /** The metadata of a DEPENDS_ON/SUPPORTS pair, before it is stamped. */
  function DependencyMetadata(dependencyType: string, condition: string): (md: seq<(string, Value)>)
    ensures Lookup(md, "required_for_startup") == Some(Bool(condition == "service_started"))
    ensures Lookup(md, "condition") == Some(Str(condition))
    ensures Lookup(md, "dependency_type") == Some(Str(dependencyType))
    ensures "created_at" !in Keys(md)
  {
    var md := [("dependency_type", Str(dependencyType)), ("required_for_startup", Bool(condition == "service_started")),
               ("from_compose", Bool(true)), ("condition", Str(condition))];
    assert Keys(md) == ["dependency_type", "required_for_startup", "from_compose", "condition"];
    assert |"created_at"| == 10 && |"dependency_type"| == 15 && |"required_for_startup"| == 20;
    assert |"from_compose"| == 12 && |"condition"| == 9;
    assert Lookup(md[3..], "condition") == Some(Str(condition));
    assert Lookup(md[2..], "condition") == Some(Str(condition)) by { assert md[2..][1..] == md[3..]; }
    assert Lookup(md[1..], "condition") == Some(Str(condition)) by { assert md[1..][1..] == md[2..]; }
    md
  }

  /** Alternating forward and reverse edges from `sourceId`. */
  predicate DependencyPairs(rels: seq<Relationship>, sourceId: string) {
    |rels| % 2 == 0
    && forall k :: 0 <= k < |rels| / 2 ==> IsDependencyPair(rels[2 * k], rels[2 * k + 1], sourceId)
  }

  /** A DEPENDS_ON edge from `sourceId` followed by its SUPPORTS edge back. */
  predicate IsDependencyPair(forward: Relationship, reverse: Relationship, sourceId: string) {
    forward.relType == "DEPENDS_ON" && forward.sourceId == sourceId
    && reverse.relType == "SUPPORTS" && reverse.targetId == sourceId && reverse.sourceId == forward.targetId
  }

  lemma PairsAppend(prev: seq<Relationship>, pair: seq<Relationship>, sourceId: string)
    requires DependencyPairs(prev, sourceId)
    requires pair == [] || (|pair| == 2 && IsDependencyPair(pair[0], pair[1], sourceId))
    ensures DependencyPairs(prev + pair, sourceId)
  {
    if pair == [] {
      assert prev + pair == prev;
      return;
    }
    var r := prev + pair;
    forall k | 0 <= k < |r| / 2 ensures IsDependencyPair(r[2 * k], r[2 * k + 1], sourceId) {
      if k < |prev| / 2 {
        assert r[2 * k] == prev[2 * k] && r[2 * k + 1] == prev[2 * k + 1];
      } else {
        assert 2 * k == |prev|;
        assert r[2 * k] == pair[0] && r[2 * k + 1] == pair[1];
      }
    }
  }

  /** The DEPENDS_ON/SUPPORTS pair for one resolved dependency. */
  function DependencyPair(doc: ContainerDoc, target: Target, name: string, condition: string, now: string)
    : (pair: seq<Relationship>)
    ensures |pair| == 2 && IsDependencyPair(pair[0], pair[1], doc.id) && pair[0].targetId == target.id
    ensures Lookup(pair[0].metadata, "required_for_startup") == Some(Bool(condition == "service_started"))
    ensures Lookup(pair[0].metadata, "dependency_type") == Some(Str(InferDependencyType(name, target.image)))
  {
    var md := DependencyMetadata(InferDependencyType(name, target.image), condition);
    StampKeepsOthers(md, now, "required_for_startup");
    StampKeepsOthers(md, now, "dependency_type");
    assert "DEPENDS_ON" in BidirectionalTypes && BidirectionalTypes["DEPENDS_ON"] == "SUPPORTS";
    BidirectionalPair(doc.id, "container", target.id, "container", "DEPENDS_ON", Stamp(md, now))
  }

  /** The edges of one depends_on entry: a pair when the (host, project, service) key resolves, none otherwise. */
  function DependencyEdges(doc: ContainerDoc, project: string, dep: string,
                           table: map<(string, string, Value), Target>, now: string): (r: seq<Relationship>)
    ensures (r != []) <==> (doc.hostname, Lower(project), Str(ParseDependency(dep).0)) in table
    ensures r != [] ==> (|r| == 2 && IsDependencyPair(r[0], r[1], doc.id)
                         && r[0].targetId == table[(doc.hostname, Lower(project), Str(ParseDependency(dep).0))].id)
  {
    var parsed := ParseDependency(dep);
    var key := (doc.hostname, Lower(project), Str(parsed.0));
    if key in table then DependencyPair(doc, table[key], parsed.0, parsed.1, now) else []
  }

  /** The edges of one document's dependency list; unresolved targets are skipped. */
  function DocDependencyRels(doc: ContainerDoc, project: string, deps: seq<string>,
                             table: map<(string, string, Value), Target>, now: string): (r: seq<Relationship>)
    ensures DependencyPairs(r, doc.id)
  {
    if deps == [] then []
    else
      var prev := DocDependencyRels(doc, project, deps[..|deps| - 1], table, now);
      var edges := DependencyEdges(doc, project, deps[|deps| - 1], table, now);
      PairsAppend(prev, edges, doc.id);
      prev + edges
  }

  /** One document's dependency edges; None where `.lower()` raises on a non-string project. */
  function DocEdges(doc: ContainerDoc, table: map<(string, string, Value), Target>, now: string)
    : (r: Option<seq<Relationship>>)
    ensures r.Some? ==> DependencyPairs(r.value, doc.id)
  {
    if doc.dependsOn.None? || doc.dependsOn.value == [] || !Truthy(doc.composeProject) then Some([])
    else if !doc.composeProject.Str? then None
    else Some(DocDependencyRels(doc, doc.composeProject.s, doc.dependsOn.value, table, now))
  }

  /** The second loop over all documents. */
  function DependencyRels(docs: seq<ContainerDoc>, table: map<(string, string, Value), Target>, now: string)
    : Option<seq<Relationship>>
  {
    if docs == [] then Some([])
    else
      match DependencyRels(docs[..|docs| - 1], table, now)
      case None => None
      case Some(prev) =>
        match DocEdges(docs[|docs| - 1], table, now)
        case None => None
        case Some(edges) => Some(prev + edges)
  }

  /** The first loop of _create_dependency_relationships. */
  method BuildLookupTable(docs: seq<ContainerDoc>) returns (r: Option<map<(string, string, Value), Target>>)
    ensures r == LookupTable(docs)
  {
    var table: map<(string, string, Value), Target> := map[];
    var i := 0;
    while i < |docs|
      invariant 0 <= i <= |docs|
      invariant LookupTable(docs[..i]) == Some(table)
    {
      assert docs[..i + 1][..i] == docs[..i];
      var key := LookupKey(docs[i]);
      if key.None? {
        LookupTableNoneSticks(docs, i + 1);
        return None;
      }
      if key.value.Some? {
        table := table[key.value.value := Target(docs[i].id, docs[i].image)];
      }
      i := i + 1;
    }
    assert docs[..|docs|] == docs;
    r := Some(table);
  }

  /** The inner loop over one document's depends_on entries. */
  method ResolveDependencies(doc: ContainerDoc, project: string, deps: seq<string>,
                             table: map<(string, string, Value), Target>, now: string) returns (rels: seq<Relationship>)
    ensures rels == DocDependencyRels(doc, project, deps, table, now)
  {
    rels := [];
    var j := 0;
    while j < |deps|
      invariant 0 <= j <= |deps|
      invariant rels == DocDependencyRels(doc, project, deps[..j], table, now)
    {
      assert deps[..j + 1][..j] == deps[..j] && deps[..j + 1][j] == deps[j];
      rels := rels + DependencyEdges(doc, project, deps[j], table, now);
      j := j + 1;
    }
    assert deps[..|deps|] == deps;
  }

  /** The body of the second loop for one document. */
  method DocumentEdges(doc: ContainerDoc, table: map<(string, string, Value), Target>, now: string)
    returns (r: Option<seq<Relationship>>)
    ensures r == DocEdges(doc, table, now)
  {
    if doc.dependsOn.None? || doc.dependsOn.value == [] || !Truthy(doc.composeProject) {
      return Some([]);
    }
    if !doc.composeProject.Str? {
      return None;
    }
    var edges := ResolveDependencies(doc, doc.composeProject.s, doc.dependsOn.value, table, now);
    r := Some(edges);
  }

  lemma DependencyRelsSnoc(docs: seq<ContainerDoc>, i: nat, table: map<(string, string, Value), Target>, now: string)
    requires i < |docs|
    ensures DependencyRels(docs[..i + 1], table, now) ==
              if DependencyRels(docs[..i], table, now).None? || DocEdges(docs[i], table, now).None? then None
              else Some(DependencyRels(docs[..i], table, now).value + DocEdges(docs[i], table, now).value)
  {
    assert docs[..i + 1][..i] == docs[..i] && docs[..i + 1][i] == docs[i];
  }

  /** The second loop of _create_dependency_relationships. */
  method DependencyLoop(docs: seq<ContainerDoc>, table: map<(string, string, Value), Target>, now: string)
    returns (r: Option<seq<Relationship>>)
    ensures r == DependencyRels(docs, table, now)
  {
    var rels: seq<Relationship> := [];
    var i := 0;
    while i < |docs|
      invariant 0 <= i <= |docs|
      invariant DependencyRels(docs[..i], table, now) == Some(rels)
    {
      DependencyRelsSnoc(docs, i, table, now);
      var edges := DocumentEdges(docs[i], table, now);
      if edges.None? {
        DependencyRelsNoneSticks(docs, table, now, i + 1);
        return None;
      }
      rels := rels + edges.value;
      i := i + 1;
    }
    assert docs[..|docs|] == docs;
    r := Some(rels);
  }

  /** _create_dependency_relationships. */
  method CreateDependencyRelationships(docs: seq<ContainerDoc>, now: string) returns (r: Option<seq<Relationship>>)
    ensures LookupTable(docs).None? ==> r.None?
    ensures LookupTable(docs).Some? ==> r == DependencyRels(docs, LookupTable(docs).value, now)
  {
    var table := BuildLookupTable(docs);
    if table.None? {
      return None;
    }
    r := DependencyLoop(docs, table.value, now);
  }

  lemma {:induction false} LookupTableNoneSticks(docs: seq<ContainerDoc>, n: nat)
    requires n <= |docs| && LookupTable(docs[..n]).None?
    ensures LookupTable(docs).None?
    decreases |docs| - n
  {
    if n < |docs| {
      assert docs[..n + 1][..n] == docs[..n];
      LookupTableNoneSticks(docs, n + 1);
    } else {
      assert docs[..n] == docs;
    }
  }

  lemma {:induction false} DependencyRelsNoneSticks(docs: seq<ContainerDoc>, table: map<(string, string, Value), Target>,
                                                   now: string, n: nat)
    requires n <= |docs| && DependencyRels(docs[..n], table, now).None?
    ensures DependencyRels(docs, table, now).None?
    decreases |docs| - n
  {
    if n < |docs| {
      assert docs[..n + 1][..n] == docs[..n];
      DependencyRelsNoneSticks(docs, table, now, n + 1);
    } else {
      assert docs[..n] == docs;
    }
  }

  /** A dependency on a service no container of the project provides adds no edge. */
  lemma UnresolvedDependencySkipped(doc: ContainerDoc, project: string, deps: seq<string>, dep: string,
                                    table: map<(string, string, Value), Target>, now: string)
    requires (doc.hostname, Lower(project), Str(ParseDependency(dep).0)) !in table
    ensures DocDependencyRels(doc, project, deps + [dep], table, now) == DocDependencyRels(doc, project, deps, table, now)
  {
    assert (deps + [dep])[..|deps|] == deps;
    assert DependencyEdges(doc, project, dep, table, now) == [];
  }

  // -----------------------------------------------------------------------
  // The docker section

  /** One record of the container loop. */
  function ContainerStep(systemName: string, acc: (seq<ContainerDoc>, seq<Relationship>), data: Value, now: string)
    : (r: Option<(seq<ContainerDoc>, seq<Relationship>)>)
    ensures r.Some? ==> r.value.0 == acc.0 || (|r.value.0| == |acc.0| + 1 && r.value.0[..|acc.0|] == acc.0
                                               && StartsWith(r.value.0[|acc.0|].id, "container_" + systemName + "_"))
  {
    // a non-dict record raises again inside the exception handler
    if !data.Obj? then None
    else
      match ContainerRecord(systemName, data, now)
      case Built(doc, hostRels) => Some((acc.0 + [doc], acc.1 + hostRels))
      case _ => Some(acc)
  }

  /** The documents and relationships of the container loop, before the dependency pass. */
  function ContainerLoop(systemName: string, containers: seq<Value>, now: string)
    : (r: Option<(seq<ContainerDoc>, seq<Relationship>)>)
    ensures r.Some? ==> forall i :: 0 <= i < |r.value.0| ==> StartsWith(r.value.0[i].id, "container_" + systemName + "_")
  {
    if containers == [] then Some(([], []))
    else
      match ContainerLoop(systemName, containers[..|containers| - 1], now)
      case None => None
      case Some(acc) => ContainerStep(systemName, acc, containers[|containers| - 1], now)
  }

  lemma ContainerLoopSnoc(systemName: string, items: seq<Value>, i: nat, now: string)
    requires i < |items|
    ensures ContainerLoop(systemName, items[..i + 1], now) ==
              if ContainerLoop(systemName, items[..i], now).None? then None
              else ContainerStep(systemName, ContainerLoop(systemName, items[..i], now).value, items[i], now)
  {
    assert items[..i + 1][..i] == items[..i] && items[..i + 1][i] == items[i];
  }

  /** process: all container documents, then their HOSTED_BY pairs followed by the dependency edges. */
  function ProcessSection(systemName: string, section: Value, now: string): (r: Option<(seq<ContainerDoc>, seq<Relationship>)>)
    ensures !section.Obj? || !Truthy(GetOr(section, "containers", List([]))) ==> r == Some(([], []))
    ensures r.Some? ==> forall i :: 0 <= i < |r.value.0| ==> StartsWith(r.value.0[i].id, "container_" + systemName + "_")
  {
    var containers := GetOr(section, "containers", List([]));
    if !section.Obj? || !Truthy(containers) then Some(([], []))
    else
      match Iterate(containers)
      case None => None
      case Some(items) =>
        match ContainerLoop(systemName, items, now)
        case None => None
        case Some((docs, rels)) =>
          match LookupTable(docs)
          case None => None
          case Some(table) =>
            match DependencyRels(docs, table, now)
            case None => None
            case Some(deps) => Some((docs, rels + deps))
  }

  /** The container loop of process: records that are skipped add nothing; a non-dict record raises. */
  method CollectContainers(systemName: string, items: seq<Value>, now: string)
    returns (r: Option<(seq<ContainerDoc>, seq<Relationship>)>)
    ensures r == ContainerLoop(systemName, items, now)
  {
    var docs: seq<ContainerDoc> := [];
    var rels: seq<Relationship> := [];
    var i := 0;
    while i < |items|
      invariant 0 <= i <= |items|
      invariant ContainerLoop(systemName, items[..i], now) == Some((docs, rels))
    {
      ContainerLoopSnoc(systemName, items, i, now);
      var data := items[i];
      if !data.Obj? {
        ContainerLoopNoneSticks(systemName, items, now, i + 1);
        return None;
      }
      var outcome := ContainerRecord(systemName, data, now);
      if outcome.Built? {
        docs := docs + [outcome.doc];
        rels := rels + outcome.rels;
      }
      i := i + 1;
    }
    assert items[..|items|] == items;
    r := Some((docs, rels));
  }

  /** process. */
  method Process(systemName: string, section: Value, now: string) returns (r: Option<(seq<ContainerDoc>, seq<Relationship>)>)
    ensures r == ProcessSection(systemName, section, now)
  {
    var containers := GetOr(section, "containers", List([]));
    if !section.Obj? || !Truthy(containers) {
      return Some(([], []));
    }
    var items := Iterate(containers);
    if items.None? {
      return None;
    }
    var collected := CollectContainers(systemName, items.value, now);
    if collected.None? {
      return None;
    }
    var (docs, rels) := collected.value;
    var deps := CreateDependencyRelationships(docs, now);
    if deps.None? {
      return None;
    }
    r := Some((docs, rels + deps.value));
  }

  lemma {:induction false} ContainerLoopNoneSticks(systemName: string, containers: seq<Value>, now: string, n: nat)
    requires n <= |containers| && ContainerLoop(systemName, containers[..n], now).None?
    ensures ContainerLoop(systemName, containers, now).None?
    decreases |containers| - n
  {
    if n < |containers| {
      assert containers[..n + 1][..n] == containers[..n];
      ContainerLoopNoneSticks(systemName, containers, now, n + 1);
    } else {
      assert containers[..n] == containers;
    }
  }

  /** Records without inspect data and records whose parsing raises are skipped, not fatal. */
  lemma SkippedContainer(systemName: string, containers: seq<Value>, data: Value, now: string)
    requires data.Obj? && !ContainerRecord(systemName, data, now).Built?
    ensures ContainerLoop(systemName, containers + [data], now) == ContainerLoop(systemName, containers, now)
  {
    assert (containers + [data])[..|containers|] == containers;
    assert (containers + [data])[|containers|] == data;
  }
}
