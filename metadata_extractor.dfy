/**
 * MetadataExtractor (src/utils/rag_utils.py): pulls structured properties
 * and relationship lists out of a cleaned container, host or service
 * record. A record is a dict; where the source would raise on a value of
 * the wrong shape (a non-dict `labels`, a `mounts` entry that is not a dict,
 * a non-iterable `wants`), the model returns None.
 */
module MetadataExtraction {
  import opened Text
  import opened Values

  // -----------------------------------------------------------------------
  // Hostnames in environment values

  predicate IsSchemeChar(c: char) {
    ('a' <= c <= 'z') || ('A' <= c <= 'Z') || IsDigit(c) || c == '+' || c == '-' || c == '.'
  }

  /** Leading characters `urlsplit` strips: C0 controls and space. */
  function LStripControl(s: string): (r: string)
    ensures |r| <= |s|
  {
    if s != [] && s[0] as int <= 32 then LStripControl(s[1..]) else s
  }

  /** `urlsplit` removes every tab, carriage return and newline. */
  function RemoveUnsafe(s: string): (r: string)
    ensures |r| <= |s|
  {
    if s == [] then []
    else (if s[0] == '\t' || s[0] == '\r' || s[0] == '\n' then [] else [s[0]]) + RemoveUnsafe(s[1..])
  }

  /** The rest of a URL after its `scheme:` prefix, when the prefix is a valid scheme. */
  function AfterScheme(url: string): string {
    var i := IndexOf(url, ':');
    if 0 < i < |url| && (('a' <= url[0] <= 'z') || ('A' <= url[0] <= 'Z'))
       && forall k :: 0 <= k < i ==> IsSchemeChar(url[k])
    then url[i + 1..]
    else url
  }

  /** Index of the first '/', '?' or '#', or `|s|`. */
  function NetlocEnd(s: string): (k: nat)
    ensures k <= |s|
  {
    if s == [] || s[0] == '/' || s[0] == '?' || s[0] == '#' then 0 else 1 + NetlocEnd(s[1..])
  }

  /** `urlsplit(url).hostname`; None also stands for the ValueError of an unbalanced '[' or ']'. */
  function UrlHostname(url0: string): (r: Option<string>)
    ensures r.Some? ==> r.value != []
  {
    var url := AfterScheme(RemoveUnsafe(LStripControl(url0)));
    if !StartsWith(url, "//") then None
    else
      var rest := url[2..];
      var netloc := rest[..NetlocEnd(rest)];
      if ('[' in netloc) != (']' in netloc) then None
      else
        var hostinfo := LastPart(netloc, '@');
        var host :=
          if '[' in hostinfo then SplitOnce(SplitOnce(hostinfo, '[').1.value, ']').0
          else SplitOnce(hostinfo, ':').0;
        if host == [] then None
        else
          var (h, zone) := SplitOnce(host, '%');
          Some(Lower(h) + (if zone.Some? then "%" + zone.value else ""))
  }

  /** _extract_hostname_from_value. */
  function HostnameFromValue(value: string): (r: Option<string>)
    ensures value == [] ==> r.None?
    ensures r.Some? ==> r.value != []
    ensures r.Some? && !Contains(value, "://") ==>
              '.' in value && !StartsWith(value, "/") && r.value == Split(value, ':')[0]
  {
    if value == [] then None
    else if Contains(value, "://") then UrlHostname(value)
    else if '.' in value && !StartsWith(value, "/") then
      var host := Split(value, ':')[0];
      if host != [] && !StartsWith(host, "/") then Some(host) else None
    else None
  }

  // -----------------------------------------------------------------------
  // Environment lists

  /** The environment as the loop leaves it: the parsed variables and every key in order. */
  datatype EnvAcc = EnvAcc(vars: seq<(string, Value)>, keys: seq<string>)

  /** One entry of a Docker `["KEY=value", ...]` environment list. */
  function EnvStep(acc: EnvAcc, item: Value): EnvAcc {
    match item
    case Str(s) =>
      if '=' in s then
        var (k, v) := SplitOnce(s, '=');
        EnvAcc(Put(acc.vars, k, Str(v.value)), acc.keys + [k])
      else EnvAcc(acc.vars, acc.keys + [s])
    case _ => acc
  }

  function EnvOfList(items: seq<Value>): EnvAcc {
    if items == [] then EnvAcc([], [])
    else EnvStep(EnvOfList(items[..|items| - 1]), items[|items| - 1])
  }

  /** The environment loop of _extract_container_metadata. */
  method ParseEnvironmentList(items: seq<Value>) returns (acc: EnvAcc)
    ensures acc == EnvOfList(items)
  {
    acc := EnvAcc([], []);
    var i := 0;
    while i < |items|
      invariant 0 <= i <= |items|
      invariant acc == EnvOfList(items[..i])
    {
      acc := EnvStep(acc, items[i]);
      assert items[..i + 1][..i] == items[..i];
      i := i + 1;
    }
    assert items[..|items|] == items;
  }

  /** The key an entry contributes: the text before its first '=', or the whole entry. */
  function EnvKeyOf(s: string): (k: string)
    ensures '=' !in k
  {
    SplitOnce(s, '=').0
  }

  /** The string entries of a list, in order. */
  function StringItems(items: seq<Value>): seq<string> {
    if items == [] then []
    else StringItems(items[..|items| - 1]) + (if items[|items| - 1].Str? then [items[|items| - 1].s] else [])
  }

  /** Every string entry yields exactly one key, the text before its first '='; other entries are skipped. */
  lemma {:induction false} EnvKeysAreEntryKeys(items: seq<Value>)
    ensures |EnvOfList(items).keys| == |StringItems(items)|
    ensures forall i :: 0 <= i < |StringItems(items)| ==> EnvOfList(items).keys[i] == EnvKeyOf(StringItems(items)[i])
  {
    if items != [] {
      EnvKeysAreEntryKeys(items[..|items| - 1]);
    }
  }

  /** A final entry "K=V" binds K to V, whatever came before. */
  lemma EnvLastEntryBinds(items: seq<Value>, k: string, v: string)
    requires '=' !in k
    requires items != [] && items[|items| - 1] == Str(k + "=" + v)
    ensures Lookup(EnvOfList(items).vars, k) == Some(Str(v))
  {
    SplitOnceAt(k, '=', v);
    var pre := EnvOfList(items[..|items| - 1]);
    assert EnvOfList(items) == EnvStep(pre, Str(k + "=" + v));
    assert '=' in k + "=" + v by { assert (k + "=" + v)[|k|] == '='; }
    assert EnvStep(pre, Str(k + "=" + v)).vars == Put(pre.vars, k, Str(v));
  }

  // -----------------------------------------------------------------------
  // Service references from environment variables

  predicate IsServiceRefKey(key: string) {
    Contains(key, "_HOST") || Contains(key, "_URL") || Contains(key, "_ENDPOINT")
  }

  function RefStep(refs: seq<string>, kv: (string, Value)): seq<string> {
    if kv.1.Str? && IsServiceRefKey(kv.0) then
      match HostnameFromValue(kv.1.s)
      case Some(h) => if h != [] && h !in refs then refs + [h] else refs
      case None => refs
    else refs
  }

  function ServiceRefs(vars: seq<(string, Value)>): (refs: seq<string>)
    ensures NoDuplicates(refs)
  {
    if vars == [] then [] else RefStep(ServiceRefs(vars[..|vars| - 1]), vars[|vars| - 1])
  }

  /** _extract_service_references_from_env. */
  method ExtractServiceReferences(vars: seq<(string, Value)>) returns (refs: seq<string>)
    ensures refs == ServiceRefs(vars)
  {
    refs := [];
    var i := 0;
    while i < |vars|
      invariant 0 <= i <= |vars|
      invariant refs == ServiceRefs(vars[..i])
    {
      var (key, value) := vars[i];
      if value.Str? && IsServiceRefKey(key) {
        var hostname := HostnameFromValue(value.s);
        if hostname.Some? && hostname.value != [] && hostname.value !in refs {
          refs := refs + [hostname.value];
        }
      }
      assert vars[..i + 1][..i] == vars[..i];
      i := i + 1;
    }
    assert vars[..|vars|] == vars;
  }

  /** Every reference is the hostname of a string variable whose key names a host, URL or endpoint. */
  lemma {:induction false} ServiceRefsSound(vars: seq<(string, Value)>, h: string)
    requires h in ServiceRefs(vars)
    ensures exists i :: 0 <= i < |vars| && vars[i].1.Str? && IsServiceRefKey(vars[i].0)
                        && HostnameFromValue(vars[i].1.s) == Some(h)
  {
    var pre := vars[..|vars| - 1];
    if h in ServiceRefs(pre) {
      ServiceRefsSound(pre, h);
      var i :| 0 <= i < |pre| && pre[i].1.Str? && IsServiceRefKey(pre[i].0) && HostnameFromValue(pre[i].1.s) == Some(h);
      assert vars[i] == pre[i];
    } else {
      var i := |vars| - 1;
      assert vars[i].1.Str? && IsServiceRefKey(vars[i].0) && HostnameFromValue(vars[i].1.s) == Some(h);
    }
  }

  /** Every non-empty hostname of a string variable whose key names a host, URL or endpoint is referenced. */
  lemma {:induction false} ServiceRefsComplete(vars: seq<(string, Value)>, i: nat)
    requires i < |vars| && vars[i].1.Str? && IsServiceRefKey(vars[i].0)
    requires HostnameFromValue(vars[i].1.s).Some? && HostnameFromValue(vars[i].1.s).value != []
    ensures HostnameFromValue(vars[i].1.s).value in ServiceRefs(vars)
    decreases |vars|
  {
    var pre := vars[..|vars| - 1];
    var h := HostnameFromValue(vars[i].1.s).value;
    if i < |vars| - 1 {
      assert pre[i] == vars[i];
      ServiceRefsComplete(pre, i);
      assert h in ServiceRefs(pre);
    }
    assert ServiceRefs(vars) == RefStep(ServiceRefs(pre), vars[|vars| - 1]);
  }

  // -----------------------------------------------------------------------
  // Dependencies from labels

  /** The entries of a comma-separated `depends_on` label, trimmed, empty ones dropped. */
  function ComposeDependsOn(s: string): (deps: seq<Value>)
    ensures forall i :: 0 <= i < |deps| ==> deps[i].Str? && IsStrippedWord(deps[i].s)
  {
    StrList(StrippedNonEmpty(Split(s, ',')))
  }

  predicate IsTraefikBackend(labelKey: string) {
    Contains(Lower(labelKey), "traefik") && Contains(Lower(labelKey), "backend")
  }

  /** The Traefik loop: each backend label's value is appended unless already present. */
  function TraefikDeps(deps: seq<Value>, labels: seq<(string, Value)>): (r: seq<Value>)
    ensures |deps| <= |r| && r[..|deps|] == deps
    ensures forall j :: |deps| <= j < |r| ==> r[j] !in r[..j]
  {
    if labels == [] then deps
    else
      var d := TraefikDeps(deps, labels[..|labels| - 1]);
      var (labelKey, value) := labels[|labels| - 1];
      if IsTraefikBackend(labelKey) && value !in d then
        assert (d + [value])[..|d|] == d;
        d + [value]
      else d
  }

  lemma TraefikDepsSnoc(deps: seq<Value>, labels: seq<(string, Value)>, i: nat)
    requires i < |labels|
    ensures var d := TraefikDeps(deps, labels[..i]);
      TraefikDeps(deps, labels[..i + 1])
      == if IsTraefikBackend(labels[i].0) && labels[i].1 !in d then d + [labels[i].1] else d
  {
    assert labels[..i + 1][..i] == labels[..i] && labels[..i + 1][i] == labels[i];
  }

  /** _extract_dependencies_from_labels; None when the compose label is not a string. */
  function LabelDependencies(labels: seq<(string, Value)>): Option<seq<Value>> {
    match Lookup(labels, "com.docker.compose.depends_on")
    case None => Some(TraefikDeps([], labels))
    case Some(Str(s)) => Some(TraefikDeps(ComposeDependsOn(s), labels))
    case Some(_) => None
  }

  method ExtractDependenciesFromLabels(labels: seq<(string, Value)>) returns (r: Option<seq<Value>>)
    ensures r == LabelDependencies(labels)
  {
    var deps: seq<Value> := [];
    var composeLabel := Lookup(labels, "com.docker.compose.depends_on");
    if composeLabel.Some? {
      if !composeLabel.value.Str? {
        return None;
      }
      deps := ComposeDependsOn(composeLabel.value.s);
    }
    deps := AppendTraefikDeps(deps, labels);
    r := Some(deps);
  }

  /** The Traefik loop of _extract_dependencies_from_labels, written out. */
  method AppendTraefikDeps(start: seq<Value>, labels: seq<(string, Value)>) returns (deps: seq<Value>)
    ensures deps == TraefikDeps(start, labels)
  {
    deps := start;
    var i := 0;
    while i < |labels|
      invariant 0 <= i <= |labels|
      invariant deps == TraefikDeps(start, labels[..i])
    {
      TraefikDepsSnoc(start, labels, i);
      var (labelKey, value) := labels[i];
      if IsTraefikBackend(labelKey) && value !in deps {
        deps := deps + [value];
      }
      i := i + 1;
    }
    assert labels[..|labels|] == labels;
  }

  /** The label result starts with the compose dependencies and adds no Traefik value twice. */
  lemma LabelDependenciesShape(labels: seq<(string, Value)>, s: string)
    requires Lookup(labels, "com.docker.compose.depends_on") == Some(Str(s))
    ensures var d := LabelDependencies(labels).value;
            var c := ComposeDependsOn(s);
            |c| <= |d| && d[..|c|] == c && forall j :: |c| <= j < |d| ==> d[j] !in d[..j]
  {
  }

  // -----------------------------------------------------------------------
  // Mounts

  datatype MountAcc = MountAcc(binds: seq<Value>, volumes: seq<Value>)

  /** One mount: a bind contributes its destination, a volume its source; a non-dict raises. */
  function MountStep(acc: MountAcc, mount: Value): Option<MountAcc> {
    if !mount.Obj? then None
    else if GetOr(mount, "type", Null) == Str("bind") then Some(MountAcc(acc.binds + [GetOr(mount, "destination", Null)], acc.volumes))
    else if GetOr(mount, "type", Null) == Str("volume") then Some(MountAcc(acc.binds, acc.volumes + [GetOr(mount, "source", Null)]))
    else Some(acc)
  }

  function MountsOf(mounts: seq<Value>): Option<MountAcc> {
    if mounts == [] then Some(MountAcc([], []))
    else
      match MountsOf(mounts[..|mounts| - 1])
      case None => None
      case Some(acc) => MountStep(acc, mounts[|mounts| - 1])
  }

  /** The mount loop of _extract_container_metadata. */
  method CollectMounts(mounts: seq<Value>) returns (r: Option<MountAcc>)
    ensures r == MountsOf(mounts)
  {
    var acc := MountAcc([], []);
    var i := 0;
    while i < |mounts|
      invariant 0 <= i <= |mounts|
      invariant MountsOf(mounts[..i]) == Some(acc)
    {
      assert mounts[..i + 1][..i] == mounts[..i];
      var step := MountStep(acc, mounts[i]);
      if step.None? {
        MountsNoneSticks(mounts, i + 1);
        return None;
      }
      acc := step.value;
      i := i + 1;
    }
    assert mounts[..|mounts|] == mounts;
    r := Some(acc);
  }

  /** Once a mount raises, the whole loop raises. */
  lemma {:induction false} MountsNoneSticks(mounts: seq<Value>, n: nat)
    requires n <= |mounts| && MountsOf(mounts[..n]).None?
    ensures MountsOf(mounts).None?
    decreases |mounts| - n
  {
    if n < |mounts| {
      assert mounts[..n + 1][..n] == mounts[..n];
      MountsNoneSticks(mounts, n + 1);
    } else {
      assert mounts[..n] == mounts;
    }
  }

  /** Every mount that is a dict of type bind contributes exactly one bind destination. */
  lemma {:induction false} MountBindsCount(mounts: seq<Value>)
    requires MountsOf(mounts).Some?
    ensures |MountsOf(mounts).value.binds| == |BindMounts(mounts)|
  {
    if mounts != [] {
      MountBindsCount(mounts[..|mounts| - 1]);
    }
  }

  function BindMounts(mounts: seq<Value>): seq<Value> {
    if mounts == [] then []
    else BindMounts(mounts[..|mounts| - 1]) + (if GetOr(mounts[|mounts| - 1], "type", Null) == Str("bind") then [mounts[|mounts| - 1]] else [])
  }

  // -----------------------------------------------------------------------
  // Assembling the extracted metadata

  /** The type-specific part of extract_metadata's result. */
  datatype Extracted = Extracted(properties: seq<(string, Value)>, relationships: seq<(string, Value)>)

  /** What every extraction promises: no None property and no empty relationship. */
  predicate Tidy(e: Extracted) {
    (forall i :: 0 <= i < |e.properties| ==> e.properties[i].1 != Null)
    && (forall i :: 0 <= i < |e.relationships| ==> Truthy(e.relationships[i].1))
  }

  /** The final filtering step shared by the three extractions. */
  function Finish(props: seq<(string, Value)>, rels: seq<(string, Value)>): (e: Extracted)
    ensures Tidy(e)
    ensures forall p :: p in props && p.1 != Null ==> p in e.properties
    ensures forall p :: p in rels && Truthy(p.1) ==> p in e.relationships
  {
    Extracted(DropNulls(props), KeepTruthy(rels))
  }

  /** `{k: v for k, v in properties.items() if v is not None}` */
  function DropNulls(fs: seq<(string, Value)>): (r: seq<(string, Value)>)
    ensures forall i :: 0 <= i < |r| ==> r[i].1 != Null
    ensures forall p :: p in r <==> p in fs && p.1 != Null
  {
    if fs == [] then [] else (if fs[0].1 == Null then [] else [fs[0]]) + DropNulls(fs[1..])
  }

  /** `{k: v for k, v in relationships.items() if v}` */
  function KeepTruthy(fs: seq<(string, Value)>): (r: seq<(string, Value)>)
    ensures forall i :: 0 <= i < |r| ==> Truthy(r[i].1)
    ensures forall p :: p in r <==> p in fs && Truthy(p.1)
  {
    if fs == [] then [] else (if Truthy(fs[0].1) then [fs[0]] else []) + KeepTruthy(fs[1..])
  }

  /** The truthy keys of a ports dict. */
  function TruthyKeys(ks: seq<string>): (r: seq<string>)
    ensures forall i :: 0 <= i < |r| ==> r[i] != []
  {
    if ks == [] then [] else (if ks[0] != [] then [ks[0]] else []) + TruthyKeys(ks[1..])
  }

  /** The environment part: the `environment_keys` property (if any) and the referenced hosts. */
  function EnvironmentPart(env: Value): (Option<Value>, seq<string>) {
    if Truthy(env) && env.List? then
      var acc := EnvOfList(env.items);
      (Some(List(StrList(acc.keys))), ServiceRefs(acc.vars))
    else if Truthy(env) && env.Obj? then
      (Some(List(StrList(Keys(env.fields)))), ServiceRefs(env.fields))
    else (None, [])
  }

  /**
   * The properties of a container before None values are dropped. Each key
   * is new when it is assigned, so assignment appends it.
   */
  function ContainerProperties(data: Value, entityId: string, envKeys: Option<Value>, labels: Value, ports: Value,
                               binds: seq<Value>): seq<(string, Value)>
  {
    var networks := GetOr(data, "networks", List([]));
    [("name", GetOr(data, "name", Str(entityId))), ("image", GetOr(data, "image", Null)),
     ("command", GetOr(data, "command", Null)), ("working_dir", GetOr(data, "working_dir", Null)),
     ("user", GetOr(data, "user", Null)), ("hostname", GetOr(data, "hostname", Null))]
    + (if envKeys.Some? then [("environment_keys", envKeys.value)] else [])
    + (if Truthy(labels) then [("labels", labels)] else [])
    + (if Truthy(networks) then [("network_mode", GetOr(data, "network_mode", Null))] else [])
    + (if Truthy(ports) && ports.Obj? then [("exposed_ports", List(StrList(TruthyKeys(Keys(ports.fields)))))] else [])
    + (if binds != [] then [("bind_mounts", List(binds))] else [])
  }

  /** The relationships of a container before empty ones are dropped. */
  function ContainerRelationships(data: Value, dependsOn: seq<Value>, labels: Value, volumes: seq<Value>): (rels: seq<(string, Value)>)
    ensures Get(data, "_system").Some? ==> ("runs_on", List([Get(data, "_system").value])) in rels
  {
    var networks := GetOr(data, "networks", List([]));
    var networkRel :=
      if Truthy(networks) && networks.List? then networks
      else if Truthy(networks) && networks.Obj? then List(StrList(Keys(networks.fields)))
      else List([]);
    var runsOn := match Get(data, "_system") case Some(sys) => List([sys]) case None => List([]);
    [("runs_on", runsOn), ("depends_on", List(dependsOn)), ("provides_to", List([])), ("config_files", List([])),
     ("networks", networkRel), ("volumes", List(volumes))]
    + (match (if labels.Obj? then Lookup(labels.fields, "com.docker.compose.project") else None)
       case Some(project) => [("system_component", project)]
       case None => [])
  }

  /** _extract_container_metadata; None where the source raises. */
  function ContainerMetadata(data: Value, entityId: string): (r: Option<Extracted>)
    ensures r.Some? ==> Tidy(r.value)
    ensures r.Some? && Get(data, "_system").Some? ==>
              ("runs_on", List([Get(data, "_system").value])) in r.value.relationships
  {
    if !data.Obj? then None
    else
      var labels := GetOr(data, "labels", Obj([]));
      var ports := GetOr(data, "ports", Obj([]));
      var mounts := GetOr(data, "mounts", List([]));
      var mountAcc := if Truthy(mounts) && mounts.List? then MountsOf(mounts.items) else Some(MountAcc([], []));
      var labelDeps := if Truthy(labels) && labels.Obj? then LabelDependencies(labels.fields) else Some([]);
      if (Truthy(labels) && !labels.Obj?) || (Truthy(ports) && !ports.Obj?) || (Truthy(mounts) && !mounts.List?)
         || mountAcc.None? || labelDeps.None?
      then None
      else
        Some(AssembleContainer(data, entityId, labels, ports, mountAcc.value, labelDeps.value))
  }

  /** The container extraction once every value that could raise has been checked. */
  function AssembleContainer(data: Value, entityId: string, labels: Value, ports: Value, mounts: MountAcc,
                             labelDeps: seq<Value>): (e: Extracted)
    ensures Tidy(e)
    ensures Get(data, "_system").Some? ==> ("runs_on", List([Get(data, "_system").value])) in e.relationships
  {
    var (envKeys, refs) := EnvironmentPart(GetOr(data, "environment", List([])));
    var props := ContainerProperties(data, entityId, envKeys, labels, ports, mounts.binds);
    var rels := ContainerRelationships(data, StrList(refs) + labelDeps, labels, mounts.volumes);
    var e := Finish(props, rels);
    if Get(data, "_system").Some? then
      var p := ("runs_on", List([Get(data, "_system").value]));
      assert p in rels && Truthy(p.1);
      assert p in e.relationships;
      e
    else e
  }

  /** _extract_service_metadata; None where the source raises. */
  function ServiceMetadata(data: Value, entityId: string): (r: Option<Extracted>)
    ensures r.Some? ==> Tidy(r.value)
  {
    if !data.Obj? then None
    else
      var wants := match Get(data, "wants") case Some(v) => Iterate(v) case None => Some([]);
      var requires_ := match Get(data, "requires") case Some(v) => Iterate(v) case None => Some([]);
      var after := match Get(data, "after") case Some(v) => Iterate(v) case None => Some([]);
      if wants.None? || requires_.None? || after.None? then None
      else
        var props := [("name", GetOr(data, "name", Str(entityId))), ("type", GetOr(data, "type", Null)),
                      ("description", GetOr(data, "description", Null)), ("exec_start", GetOr(data, "exec_start", Null))];
        var configFiles := match Get(data, "unit_file_path") case Some(p) => [p] case None => [];
        var rels := [("runs_on", List([])), ("depends_on", List(wants.value + requires_.value + after.value)),
                     ("config_files", List(configFiles))];
        Some(Finish(props, rels))
  }

  /** A dict-valued section: `d.get(key, {})` when it is falsy or a dict; None when a truthy non-dict would raise. */
  function Section(v: Value, key: string): Option<Value> {
    var s := GetObj(v, key);
    if Truthy(s) && !s.Obj? then None else Some(s)
  }

  /** _extract_host_metadata; None where the source raises. */
  function HostMetadata(data: Value, entityId: string): (r: Option<Extracted>)
    ensures r.Some? ==> Tidy(r.value)
  {
    if !data.Obj? then None
    else
      var sys := Section(data, "system_overview");
      var hw := Section(data, "hardware_profile");
      var net := Section(data, "network_configuration");
      var st := Section(data, "storage_configuration");
      if sys.None? || hw.None? || net.None? || st.None? then None
      else
        var cpu := if Truthy(hw.value) then GetObj(hw.value, "cpu") else Obj([]);
        var mem := if Truthy(hw.value) then GetObj(hw.value, "memory") else Obj([]);
        var interfaces := if Truthy(net.value) then GetObj(net.value, "interfaces") else Obj([]);
        var filesystems := if Truthy(st.value) then GetObj(st.value, "filesystems") else Obj([]);
        if !cpu.Obj? || !mem.Obj? || !interfaces.Obj? || !filesystems.Obj? then None
        else
          var p0: seq<(string, Value)> := [];
          var p1 := if Truthy(sys.value)
                    then p0 + [("hostname", GetOr(sys.value, "hostname", Null)), ("os", GetOr(sys.value, "os", Null)),
                               ("architecture", GetOr(sys.value, "architecture", Null)), ("kernel", GetOr(sys.value, "kernel", Null))]
                    else p0;
          var p2 := if Truthy(hw.value)
                    then p1 + [("cpu_model", GetOr(cpu, "model_name", Null)), ("cpu_cores", GetOr(cpu, "cores", Null)),
                               ("memory_total_gb", GetOr(mem, "total_gb", Null)), ("memory_type", GetOr(mem, "type", Null))]
                    else p1;
          var p3 := if Truthy(net.value) then p2 + [("network_interfaces", Int(|interfaces.fields|))] else p2;
          var p4 := if Truthy(st.value) then p3 + [("storage_devices", Int(|filesystems.fields|))] else p3;
          var rels := [("hosts", List([])),
                       ("networks", List(if Truthy(net.value) then StrList(Keys(interfaces.fields)) else [])),
                       ("storage", List(if Truthy(st.value) then StrList(Keys(filesystems.fields)) else []))];
          Some(Finish(p4, rels))
  }

  /** The type-specific part for a data type; other types add nothing. */
  function TypeSpecific(data: Value, dataType: string, entityId: string): (r: Option<Extracted>)
    ensures r.Some? ==> Tidy(r.value)
    ensures dataType != "container" && dataType != "host" && dataType != "service" ==> r == Some(Extracted([], []))
  {
    if dataType == "container" then ContainerMetadata(data, entityId)
    else if dataType == "host" then HostMetadata(data, entityId)
    else if dataType == "service" then ServiceMetadata(data, entityId)
    else Some(Extracted([], []))
  }

  /**
   * The fields of extract_metadata's result: the common header, whose
   * `properties` and `relationships` the update replaces in place.
   */
  function MetadataFields(dataType: string, entityId: string, now: string, e: Extracted): (fs: seq<(string, Value)>)
    ensures Keys(fs) == ["entity_id", "entity_type", "extraction_timestamp", "properties", "relationships"]
    ensures UniqueKeys(fs)
    ensures Lookup(fs, "properties") == Some(Obj(e.properties))
    ensures Lookup(fs, "relationships") == Some(Obj(e.relationships))
  {
    var fs := [("entity_id", Str(entityId)), ("entity_type", Str(dataType)), ("extraction_timestamp", Str(now)),
               ("properties", Obj(e.properties)), ("relationships", Obj(e.relationships))];
    assert "entity_id"[0] == 'e' && "entity_type"[0] == 'e' && "extraction_timestamp"[0] == 'e';
    assert "properties"[0] == 'p' && "relationships"[0] == 'r';
    assert "entity_id"[7] == 'i' && "entity_type"[7] == 't' && "extraction_timestamp"[1] == 'x';
    assert Lookup(fs[4..], "relationships") == Some(Obj(e.relationships));
    assert Lookup(fs[3..], "properties") == Some(Obj(e.properties));
    assert Lookup(fs[3..], "relationships") == Some(Obj(e.relationships)) by { assert fs[3..][1..] == fs[4..]; }
    assert Lookup(fs[2..], "properties") == Some(Obj(e.properties)) by { assert fs[2..][1..] == fs[3..]; }
    assert Lookup(fs[2..], "relationships") == Some(Obj(e.relationships)) by { assert fs[2..][1..] == fs[3..]; }
    assert Lookup(fs[1..], "properties") == Some(Obj(e.properties)) by { assert fs[1..][1..] == fs[2..]; }
    assert Lookup(fs[1..], "relationships") == Some(Obj(e.relationships)) by { assert fs[1..][1..] == fs[2..]; }
    fs
  }

  /** extract_metadata; None where the type-specific extraction raises. */
  function ExtractMetadata(data: Value, dataType: string, entityId: string, now: string): (r: Option<Value>)
    ensures r.Some? <==> TypeSpecific(data, dataType, entityId).Some?
    ensures r.Some? ==> r.value == Obj(MetadataFields(dataType, entityId, now, TypeSpecific(data, dataType, entityId).value))
  {
    var t := TypeSpecific(data, dataType, entityId);
    if t.None? then None else Some(Obj(MetadataFields(dataType, entityId, now, t.value)))
  }
}
