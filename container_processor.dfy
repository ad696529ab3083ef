/**
 * ContainerProcessor (src/processors/container_processor.py): the entity id
 * of a container, its service type read off the image name, the rule-based
 * fallback tags and the choice between them and the LLM's tags, and the
 * replacement of the container documents in rag_data.json.
 */
module ContainerProcessing {
  import opened Text
  import opened Values
  import Assembly
  import RelationshipPostProcessing

  // -----------------------------------------------------------------------
  // Entity id

  /** `f"container_{system_name}_{container_name}"`, both looked up with the default 'unknown'. */
  function EntityId(container: Dict): (id: string)
    ensures StartsWith(id, "container_")
    ensures !Has(container, "_system") && !Has(container, "name") ==> id == "container_unknown_unknown"
  {
    var system := FString(GetOr(Obj(container), "_system", Str("unknown")));
    var name := FString(GetOr(Obj(container), "name", Str("unknown")));
    assert ("container_" + system + "_" + name)[..|"container_"|] == "container_";
    "container_" + system + "_" + name
  }

  /**
   * The relationship post-processor reads the server name back out of a
   * container id: for string system and container names, the part after
   * the first '_' and up to the next one is the system name, provided that
   * name has no '_' of its own.
   */
  lemma EntityIdNamesSystem(container: Dict, system: string, name: string)
    requires GetOr(Obj(container), "_system", Str("unknown")) == Str(system)
    requires GetOr(Obj(container), "name", Str("unknown")) == Str(name)
    requires '_' !in system
    ensures EntityId(container) == "container_" + system + "_" + name
    ensures RelationshipPostProcessing.ContainerServer([("id", Str(EntityId(container)))]) == Some(system)
  {
    var id := EntityId(container);
    assert id == "container" + ['_'] + (system + "_" + name);
    SplitOnceAt("container", '_', system + "_" + name);
    assert system + "_" + name == system + ['_'] + name;
    SplitOnceAt(system, '_', name);
  }

  // -----------------------------------------------------------------------
  // Service type

  /** The image-substring → service-type table, in the order it is searched. */
  const ServiceMappings: seq<(string, string)> := [
    ("redis", "cache"),
    ("postgres", "database"),
    ("mysql", "database"),
    ("nginx-proxy-manager", "nginx-proxy-manager"),
    ("grafana", "grafana"),
    ("prometheus", "prometheus"),
    ("cadvisor", "cadvisor"),
    ("node-exporter", "node-exporter"),
    ("blackbox-exporter", "blackbox-exporter"),
    ("registry", "registry"),
    ("gitea", "git repository"),
    ("homepage", "homepage"),
    ("watchtower", "watchtower"),
    ("fail2ban", "fail2ban"),
    ("home-assistant", "home-assistant"),
    ("zigbee2mqtt", "zigbee2mqtt"),
    ("esphome", "esphome"),
    ("mosquitto", "eclipse-mosquitto"),
    ("influx", "time series database"),
    ("node-red", "node-red"),
    ("zwavejs2mqtt", "zwavejs2mqtt"),
    ("docker-socket-proxy", "docker-socket-proxy"),
    ("docker-registry-ui", "docker-registry-ui"),
    ("paperless", "paperless-ngx"),
    ("omada-controller", "omada-controller"),
    ("omada_exporter", "omada_exporter"),
    ("authentik", "server"),
    ("proxy", "proxy")
  ]

  /** Entry `k` is the first entry of the table whose key occurs in `lower`, and it maps to `serviceType`. */
  predicate FirstMappedAt(lower: string, k: int, serviceType: string) {
    && 0 <= k < |ServiceMappings|
    && Contains(lower, ServiceMappings[k].0)
    && serviceType == ServiceMappings[k].1
    && forall j :: 0 <= j < k ==> !Contains(lower, ServiceMappings[j].0)
  }

  /**
   * `_extract_service_type_from_image`: 'unknown' for an empty image;
   * otherwise the type of the first table key found in the lower-cased
   * image; otherwise the image's last path segment without its tag.
   */
  method ExtractServiceTypeFromImage(image: string) returns (serviceType: string)
    ensures image == [] ==> serviceType == "unknown"
    ensures image != [] ==>
              (exists k :: FirstMappedAt(Lower(image), k, serviceType))
              || ((forall k :: 0 <= k < |ServiceMappings| ==> !Contains(Lower(image), ServiceMappings[k].0))
                  && serviceType == Assembly.ImageBaseName(image))
  {
    if image == [] {
      return "unknown";
    }
    var lower := Lower(image);
    for k := 0 to |ServiceMappings|
      invariant forall j :: 0 <= j < k ==> !Contains(lower, ServiceMappings[j].0)
    {
      if Contains(lower, ServiceMappings[k].0) {
        assert FirstMappedAt(lower, k, ServiceMappings[k].1);
        return ServiceMappings[k].1;
      }
    }
    return Assembly.ImageBaseName(image);
  }

  // -----------------------------------------------------------------------
  // Tags

  /** The tags every container gets. */
  const CoreTags: seq<string> := ["docker", "container", "service"]

  /** The technology tags of the first family the lower-cased image belongs to. */
  function FamilyTags(lower: string): (tags: seq<string>)
    ensures |tags| == 0 || |tags| == 2
  {
    if Contains(lower, "redis") then ["cache", "database"]
    else if Contains(lower, "postgres") || Contains(lower, "mysql") then ["database", "storage"]
    else if Contains(lower, "nginx") then ["proxy", "web-server"]
    else if Contains(lower, "prometheus") || Contains(lower, "grafana") then ["monitoring", "metrics"]
    else []
  }

  /**
   * `_generate_fallback_tags` for the image name (the `.get('image', '')`
   * string). `list(set(tags))` has no defined order, so the result is a set.
   */
  function FallbackTags(image: string): (tags: set<string>)
    ensures forall t :: t in CoreTags ==> t in tags
    ensures image == [] ==> tags == set t | t in CoreTags
    ensures image != [] ==> Assembly.ImageBaseName(Lower(image)) in tags
    ensures image != [] ==> forall t :: t in FamilyTags(Lower(image)) ==> t in tags
    ensures forall t :: t in tags ==> t in CoreTags || t == Assembly.ImageBaseName(Lower(image)) || t in FamilyTags(Lower(image))
  {
    var lower := Lower(image);
    var list := CoreTags + (if lower != [] then [Assembly.ImageBaseName(lower)] + FamilyTags(lower) else []);
    set t | t in list
  }

  /** A lower-case "registry/path/redis:tag" image is tagged with its base name and as a cache and a database. */
  lemma RedisImageTags(path: string, tag: string)
    requires Lower(path) == path && Lower(tag) == tag && '/' !in tag
    ensures var tags := FallbackTags(path + "/redis:" + tag);
            "redis" in tags && "cache" in tags && "database" in tags && "docker" in tags
  {
    var lower := Lower(path + "/redis:" + tag);
    RedisImage(path, tag);
    assert FamilyTags(lower) == ["cache", "database"];
  }

  lemma RedisImage(path: string, tag: string)
    requires Lower(path) == path && Lower(tag) == tag && '/' !in tag
    ensures Assembly.ImageBaseName(Lower(path + "/redis:" + tag)) == "redis"
    ensures Contains(Lower(path + "/redis:" + tag), "redis")
  {
    LowerRedisImage(path, tag);
    Assembly.ImageBaseNameOf(path, "redis", tag);
    assert path + "/" + "redis" + ":" + tag == path + "/redis:" + tag;
    ContainsRedis(path, tag);
  }

  lemma ContainsRedis(path: string, tag: string)
    ensures Contains(path + "/redis:" + tag, "redis")
  {
    var image := path + "/redis:" + tag;
    assert image[|path| + 1..|path| + 6] == "redis";
    ContainsAt(image, "redis", |path| + 1);
  }

  lemma LowerRedisImage(path: string, tag: string)
    requires Lower(path) == path && Lower(tag) == tag
    ensures Lower(path + "/redis:" + tag) == path + "/redis:" + tag
  {
    LowerAppend(path, "/redis:");
    LowerAppend(path + "/redis:", tag);
    assert Lower("/redis:") == "/redis:";
  }

  /** What the LLM client gave back: an exception, no response, or the first response. */
  datatype Reply = Raised | NoResponse | Response(success: bool, tags: seq<(string, string)>)

  /** `response.tags.values()`, in order. */
  function TagValues(tags: seq<(string, string)>): (r: seq<string>)
    ensures |r| == |tags| && forall k :: 0 <= k < |tags| ==> r[k] == tags[k].1
  {
    if tags == [] then [] else [tags[0].1] + TagValues(tags[1..])
  }

  /** The tags of a container: the LLM's list, or the fallback set. */
  datatype Tags = LlmTags(list: seq<string>) | FallbackSet(tags: set<string>)

  /**
   * `_generate_semantic_tags`: the fallback tags when tagging is disabled,
   * there is no client, or the call raises, returns nothing, fails or
   * returns no tags; otherwise the LLM's tag values followed by the three
   * core tags.
   */
  function SemanticTags(enabled: bool, hasClient: bool, reply: Reply, image: string): (r: Tags)
    ensures r.FallbackSet? <==> !enabled || !hasClient || !(reply.Response? && reply.success && reply.tags != [])
    ensures r.FallbackSet? ==> r.tags == FallbackTags(image)
    ensures r.LlmTags? ==> && |r.list| == |reply.tags| + 3
                           && (forall k :: 0 <= k < |reply.tags| ==> r.list[k] == reply.tags[k].1)
                           && r.list[|reply.tags|..] == CoreTags
  {
    if !enabled || !hasClient then FallbackSet(FallbackTags(image))
    else match reply
      case Response(success, tags) =>
        if success && tags != [] then LlmTags(TagValues(tags) + CoreTags)
        else FallbackSet(FallbackTags(image))
      case _ => FallbackSet(FallbackTags(image))
  }

  // -----------------------------------------------------------------------
  // Updating rag_data.json

  /** A document this processor writes: a service whose id starts with "container_". */
  predicate IsContainerDocument(doc: Dict)
    ensures IsContainerDocument(doc) ==> Field(doc, "type") == Str("service") && Lookup(doc, "id").Some?
  {
    && Field(doc, "type") == Str("service")
    && match GetOr(Obj(doc), "id", Str(""))
       case Str(s) => StartsWith(s, "container_")
       case _ => false
  }

  /** `doc.get('id', '').startswith(...)` raises on a service document whose id is not a string. */
  predicate FilterRaises(doc: Dict) {
    Field(doc, "type") == Str("service") && !GetOr(Obj(doc), "id", Str("")).Str?
  }

  /** The documents that are not container documents, in order. */
  function Remaining(docs: seq<Dict>): (r: seq<Dict>)
    ensures |r| <= |docs|
    ensures forall d :: d in r <==> d in docs && !IsContainerDocument(d)
  {
    if docs == [] then []
    else if IsContainerDocument(docs[0]) then Remaining(docs[1..])
    else [docs[0]] + Remaining(docs[1..])
  }

  /** The comprehension that removes the container documents; None where it raises. */
  function Kept(docs: seq<Dict>): (r: Option<seq<Dict>>)
    ensures r.None? <==> exists d :: d in docs && FilterRaises(d)
    ensures r.Some? ==> |r.value| <= |docs| && forall d :: d in r.value <==> d in docs && !IsContainerDocument(d)
  {
    if exists d :: d in docs && FilterRaises(d) then None else Some(Remaining(docs))
  }

  /** `total_containers`: the number of container documents; None where counting raises. */
  function ContainerCount(docs: seq<Dict>): (n: Option<nat>)
    ensures n.None? <==> Kept(docs).None?
    ensures n.Some? ==> n.value == |docs| - |Kept(docs).value|
  {
    if Kept(docs).None? then None else Some(Count(docs))
  }

  /** The number of container documents in a list. */
  function Count(docs: seq<Dict>): (n: nat)
    ensures n == |docs| - |Remaining(docs)|
  {
    if docs == [] then 0
    else Count(docs[1..]) + (if IsContainerDocument(docs[0]) then 1 else 0)
  }

  /** A service document with a non-string id makes the removal raise, wherever it stands. */
  lemma FilterRaisesOnServiceId(before: seq<Dict>, doc: Dict, after: seq<Dict>, id: Value)
    requires Lookup(doc, "type") == Some(Str("service")) && Lookup(doc, "id") == Some(id) && !id.Str?
    ensures Kept(before + [doc] + after).None?
  {
    assert doc in before + [doc] + after;
    assert FilterRaises(doc);
  }

  lemma {:induction false} RemainingAppend(a: seq<Dict>, b: seq<Dict>)
    ensures Remaining(a + b) == Remaining(a) + Remaining(b)
  {
    if a == [] {
      assert a + b == b;
    } else {
      assert (a + b)[0] == a[0];
      assert (a + b)[1..] == a[1..] + b;
      RemainingAppend(a[1..], b);
      if IsContainerDocument(a[0]) {
        assert Remaining(a + b) == Remaining(a[1..] + b);
        assert Remaining(a) == Remaining(a[1..]);
      } else {
        assert Remaining(a + b) == [a[0]] + Remaining(a[1..] + b);
        assert Remaining(a) == [a[0]] + Remaining(a[1..]);
      }
    }
  }

  lemma {:induction false} RemainingNone(docs: seq<Dict>)
    requires forall d :: d in docs ==> IsContainerDocument(d)
    ensures Remaining(docs) == []
  {
    if docs != [] {
      RemainingNone(docs[1..]);
    }
  }

  /** Removing twice removes nothing more. */
  lemma {:induction false} RemainingIdempotent(docs: seq<Dict>)
    ensures Remaining(Remaining(docs)) == Remaining(docs)
  {
    if docs != [] {
      RemainingIdempotent(docs[1..]);
      if !IsContainerDocument(docs[0]) {
        assert Remaining(docs)[1..] == Remaining(docs[1..]);
      }
    }
  }

  /** A document built for a container, with type "service" and the container's entity id, is one the update replaces. */
  lemma ProcessedDocumentReplaced(container: Dict, rest: Dict)
    ensures IsContainerDocument([("id", Str(EntityId(container))), ("type", Str("service"))] + rest)
  {
    var doc := [("id", Str(EntityId(container))), ("type", Str("service"))] + rest;
    assert doc[0] == ("id", Str(EntityId(container)));
    assert doc[1..][0] == ("type", Str("service"));
    assert Lookup(doc[1..], "type") == Some(Str("service"));
    assert Lookup(doc, "type") == Some(Str("service"));
    assert Lookup(doc, "id") == Some(Str(EntityId(container)));
  }

  /** rag_data.json's document list and its container total, as the update changes them. */
  class RagData {
    var documents: seq<Dict>
    var totalContainers: nat

    /** rag_data.json as loaded: `rag_data.get('documents', [])` and its recorded total. */
    constructor(documents: seq<Dict>, totalContainers: nat)
      ensures this.documents == documents && this.totalContainers == totalContainers
    {
      this.documents := documents;
      this.totalContainers := totalContainers;
    }

    /**
     * The document part of `_update_rag_data_json`: the container
     * documents are removed, the new ones appended, and the total
     * recounted. Returns the number removed, or None where the removal
     * raises (nothing changes) or the recount raises (the documents are
     * already replaced, the total is not).
     */
    method ReplaceContainerDocuments(added: seq<Dict>) returns (removed: Option<nat>)
      modifies this
      ensures Kept(old(documents)).None? ==>
                removed.None? && documents == old(documents) && totalContainers == old(totalContainers)
      ensures Kept(old(documents)).Some? ==> documents == Kept(old(documents)).value + added
      ensures Kept(old(documents)).Some? && ContainerCount(documents).None? ==>
                removed.None? && totalContainers == old(totalContainers)
      ensures removed.Some? <==> Kept(old(documents)).Some? && ContainerCount(documents).Some?
      ensures removed.Some? ==>
                removed == ContainerCount(old(documents)) && Some(totalContainers) == ContainerCount(documents)
    {
      var original := |documents|;
      var filtered := Kept(documents);
      if filtered.None? {
        return None;
      }
      documents := filtered.value;
      var removedCount := original - |documents|;
      documents := documents + added;
      var total := ContainerCount(documents);
      if total.None? {
        return None;
      }
      totalContainers := total.value;
      removed := Some(removedCount);
    }
  }

  /**
   * Running the update again with the same container documents changes
   * nothing: the earlier copies are removed and the same ones appended, and
   * the total is the number of new documents.
   */
  lemma ReplaceIsStable(docs: seq<Dict>, added: seq<Dict>)
    requires Kept(docs).Some?
    requires forall d :: d in added ==> IsContainerDocument(d)
    ensures Kept(Kept(docs).value + added) == Kept(docs)
    ensures ContainerCount(Kept(docs).value + added) == Some(|added|)
  {
    var k := Kept(docs).value;
    assert k == Remaining(docs);
    RemainingAppend(k, added);
    RemainingNone(added);
    RemainingIdempotent(docs);
    assert Remaining(k + added) == k + [];
    assert k + [] == k;
    assert forall d :: d in k + added ==> !FilterRaises(d) by {
      forall d | d in k + added ensures !FilterRaises(d) {
        if d in k { assert d in docs; }
      }
    }
  }
}
