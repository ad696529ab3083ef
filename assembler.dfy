/**
 * RAGDataAssembler (src/utils/rag_utils.py): the title of a document and
 * the tag list that combines the LLM's semantic tags with tags derived
 * from the extracted metadata.
 */
module Assembly {
  import opened Text
  import opened Values

  /** `image.split('/')[-1].split(':')[0]`: the last path segment without its tag. */
  function ImageBaseName(image: string): (r: string)
    ensures '/' !in r && ':' !in r
    ensures '/' !in image && ':' !in image ==> r == image
  {
    Split(LastPart(image, '/'), ':')[0]
  }

  /** For "registry/path/base:tag" the base name is "base". */
  lemma ImageBaseNameOf(path: string, base: string, tag: string)
    requires '/' !in base && ':' !in base && '/' !in tag
    ensures ImageBaseName(path + "/" + base + ":" + tag) == base
  {
    assert path + "/" + base + ":" + tag == path + ['/'] + (base + [':'] + tag);
    assert '/' !in base + [':'] + tag by {
      forall k | 0 <= k < |base + [':'] + tag| ensures (base + [':'] + tag)[k] != '/' {
        if k < |base| { assert (base + [':'] + tag)[k] == base[k]; }
        else if k > |base| { assert (base + [':'] + tag)[k] == tag[k - |base| - 1]; }
      }
    }
    LastPartAfter(path, '/', base + [':'] + tag);
    SplitFirst(base, ':', tag);
  }

  /** "name (kind)" or "name (detail kind)" as the title f-strings build them. */
  function Labelled(name: Value, detail: Option<string>, kind: string): Option<string> {
    match Show(name)
    case None => None
    case Some(n) => Some(if detail.Some? then n + " (" + detail.value + " " + kind + ")" else n + " (" + kind + ")")
  }

  /**
   * _generate_title over the extracted properties. None where the source
   * raises (a truthy image that is not a string) or where a value's text is
   * not modelled.
   */
  function Title(entityId: string, entityType: string, props: seq<(string, Value)>): (t: Option<string>)
    ensures entityType != "container" && entityType != "host" && entityType != "service" ==>
              t == Some(entityId + " (" + entityType + ")")
  {
    var p := Obj(props);
    if entityType == "container" then
      var image := GetOr(p, "image", Str(""));
      if !Truthy(image) then Labelled(GetOr(p, "name", Str(entityId)), None, "container")
      else if !image.Str? then None
      else Labelled(GetOr(p, "name", Str(entityId)), Some(ImageBaseName(image.s)), "container")
    else if entityType == "host" then
      var os := GetOr(p, "os", Str(""));
      if !Truthy(os) then Labelled(GetOr(p, "hostname", Str(entityId)), None, "host")
      else if Show(os).None? then None
      else Labelled(GetOr(p, "hostname", Str(entityId)), Show(os), "host")
    else if entityType == "service" then
      var serviceType := GetOr(p, "type", Str(""));
      if !Truthy(serviceType) then Labelled(GetOr(p, "name", Str(entityId)), None, "service")
      else if Show(serviceType).None? then None
      else Labelled(GetOr(p, "name", Str(entityId)), Show(serviceType), "service")
    else Some(entityId + " (" + entityType + ")")
  }

  /** A container whose image is "path/base:tag" is titled "name (base container)". */
  lemma ContainerTitleWithImage(props: seq<(string, Value)>, name: string, path: string, base: string, tag: string)
    requires '/' !in base && ':' !in base && '/' !in tag
    requires Lookup(props, "name") == Some(Str(name))
    requires Lookup(props, "image") == Some(Str(path + "/" + base + ":" + tag))
    ensures Title("any", "container", props) == Some(name + " (" + base + " container)")
  {
    ImageBaseNameOf(path, base, tag);
    assert name + " (" + base + " " + "container" + ")" == name + " (" + base + " container)";
  }

  /** Without an image or a name, a container is titled by its entity id. */
  lemma ContainerTitleWithoutImage(entityId: string, props: seq<(string, Value)>)
    requires Lookup(props, "image").None? && Lookup(props, "name").None?
    ensures Title(entityId, "container", props) == Some(entityId + " (container)")
  {
    assert entityId + " (" + "container" + ")" == entityId + " (container)";
  }

  // -----------------------------------------------------------------------
  // Tags

  /** The LLM tags: the values of a category dict or the items of a list; anything else gives none. */
  function LlmTagValues(llmTags: Value): seq<Value> {
    match llmTags
    case Obj(fs) => seq(|fs|, i requires 0 <= i < |fs| => fs[i].1)
    case List(xs) => xs
    case _ => []
  }

  /** A tag kept from the LLM: non-empty, lower-case and not "none". */
  predicate IsKeptLlmTag(t: string) {
    t != "" && Lower(t) == t && t != "none"
  }

  /** The LLM loop: truthy tags are lower-cased and kept unless "none"; a truthy non-string raises. */
  function LlmTags(tags: seq<Value>): (r: Option<seq<string>>)
    ensures r.Some? ==> forall i :: 0 <= i < |r.value| ==> IsKeptLlmTag(r.value[i])
  {
    if tags == [] then Some([])
    else
      match LlmTags(tags[..|tags| - 1])
      case None => None
      case Some(acc) =>
        var tag := tags[|tags| - 1];
        if !Truthy(tag) then Some(acc)
        else if !tag.Str? then None
        else if Lower(tag.s) == "none" then Some(acc)
        else
          LowerIdempotent(tag.s);
          Some(acc + [Lower(tag.s)])
  }

  /**
   * The tag derived from an image with a path: its lower-cased base name.
   * `'/' in image` is a substring test for a string, a membership test for a
   * list and a key test for a dict; on None, a boolean or a number it raises.
   * A list or dict that passes the test then raises at `image.split`.
   */
  function TechTag(props: seq<(string, Value)>): (r: Option<Option<string>>)
    ensures Lookup(props, "image").None? ==> r == Some(None)
    ensures (exists image :: Lookup(props, "image") == Some(Str(image))) ==> r.Some?
    ensures r.Some? && r.value.Some? ==>
              Lookup(props, "image").Some? && Lookup(props, "image").value.Str? && '/' in Lookup(props, "image").value.s &&
              '/' !in r.value.value && ':' !in r.value.value && Lower(r.value.value) == r.value.value
  {
    match Lookup(props, "image")
    case None => Some(None)
    case Some(Str(image)) =>
      if '/' in image then
        var base := ImageBaseName(image);
        LowerKeeps(base, '/');
        LowerKeeps(base, ':');
        LowerIdempotent(base);
        Some(Some(Lower(base)))
      else Some(None)
    case Some(List(xs)) => if Str("/") in xs then None else Some(None)
    case Some(Obj(fs)) => if "/" in Keys(fs) then None else Some(None)
    case Some(_) => None
  }

  /** Lower-casing never produces a character that is not a capital's image. */
  lemma LowerKeeps(s: string, c: char)
    requires c !in s && !('a' <= c <= 'z')
    ensures c !in Lower(s)
  {
  }

  /** "registry/path/Base:tag" is tagged with the lower-cased "base". */
  lemma TechTagOfPath(props: seq<(string, Value)>, path: string, base: string, tag: string)
    requires '/' !in base && ':' !in base && '/' !in tag
    requires Lookup(props, "image") == Some(Str(path + "/" + base + ":" + tag))
    ensures TechTag(props) == Some(Some(Lower(base)))
  {
    ImageBaseNameOf(path, base, tag);
    assert (path + "/" + base + ":" + tag)[|path|] == '/';
  }

  /**
   * A list or dict image without "/" adds no tag; one holding "/" as an
   * element or a key raises, and so does a scalar that is not a string.
   */
  lemma TechTagOfContainerImage(props: seq<(string, Value)>)
    requires Lookup(props, "image").Some?
    ensures Lookup(props, "image").value.List? ==>
              (TechTag(props).None? <==> Str("/") in Lookup(props, "image").value.items)
    ensures Lookup(props, "image").value.Obj? ==>
              (TechTag(props).None? <==> "/" in Keys(Lookup(props, "image").value.fields))
    ensures Lookup(props, "image").value in {Null, Bool(true), Bool(false)} || Lookup(props, "image").value.Int? || Lookup(props, "image").value.Float? ==>
              TechTag(props).None?
  {
  }

  /** Every tag `_prepare_tags` collects, in collection order, before duplicates go. */
  function CollectedTags(llmTags: Value, entityType: string, props: seq<(string, Value)>): Option<seq<string>> {
    var llm := LlmTags(LlmTagValues(llmTags));
    var tech := TechTag(props);
    if llm.None? || tech.None? then None
    else Some(llm.value + (if entityType != "" then [entityType] else []) + (if tech.value.Some? then [tech.value.value] else []))
  }

  /** The loop of _prepare_tags over the LLM's tags. */
  method CollectLlmTags(tags: seq<Value>) returns (r: Option<seq<string>>)
    ensures r == LlmTags(tags)
  {
    var allTags: seq<string> := [];
    var i := 0;
    while i < |tags|
      invariant 0 <= i <= |tags|
      invariant LlmTags(tags[..i]) == Some(allTags)
    {
      assert tags[..i + 1][..i] == tags[..i];
      var tag := tags[i];
      if Truthy(tag) {
        if !tag.Str? {
          LlmTagsNoneSticks(tags, i + 1);
          return None;
        }
        if Lower(tag.s) != "none" {
          allTags := allTags + [Lower(tag.s)];
        }
      }
      i := i + 1;
    }
    assert tags[..|tags|] == tags;
    return Some(allTags);
  }

  /** _prepare_tags; the order of `list(set(...))` is not modelled, only its elements. */
  method PrepareTags(llmTags: Value, entityType: string, props: seq<(string, Value)>) returns (r: Option<seq<string>>)
    ensures r.Some? <==> CollectedTags(llmTags, entityType, props).Some?
    ensures r.Some? ==> NoDuplicates(r.value)
    ensures r.Some? ==> forall t :: t in r.value <==> t in CollectedTags(llmTags, entityType, props).value
    ensures r.Some? && entityType != "" ==> entityType in r.value
  {
    var llm := CollectLlmTags(LlmTagValues(llmTags));
    if llm.None? {
      return None;
    }
    var allTags := llm.value;
    if entityType != "" {
      allTags := allTags + [entityType];
    }
    ghost var base := allTags;
    assert base == llm.value + (if entityType != "" then [entityType] else []);
    var image := Lookup(props, "image");
    if image.Some? {
      match image.value
      case Str(name) =>
        if '/' in name {
          allTags := allTags + [Lower(ImageBaseName(name))];
        }
      case List(xs) =>
        if Str("/") in xs {
          return None;
        }
      case Obj(fs) =>
        if "/" in Keys(fs) {
          return None;
        }
      case _ =>
        return None;
    }
    assert TechTag(props).Some? && allTags == base + (if TechTag(props).value.Some? then [TechTag(props).value.value] else []);
    assert CollectedTags(llmTags, entityType, props) == Some(allTags);
    r := Some(Dedup(allTags));
  }

  lemma {:induction false} LlmTagsNoneSticks(tags: seq<Value>, n: nat)
    requires n <= |tags| && LlmTags(tags[..n]).None?
    ensures LlmTags(tags).None?
    decreases |tags| - n
  {
    if n < |tags| {
      assert tags[..n + 1][..n] == tags[..n];
      LlmTagsNoneSticks(tags, n + 1);
    } else {
      assert tags[..n] == tags;
    }
  }

  /**
   * Every prepared tag is a kept LLM tag, the entity type, or the image's
   * technology tag; and the entity type, when given, is always present.
   */
  lemma PreparedTagsOrigin(llmTags: Value, entityType: string, props: seq<(string, Value)>, t: string)
    requires CollectedTags(llmTags, entityType, props).Some?
    requires t in CollectedTags(llmTags, entityType, props).value
    ensures IsKeptLlmTag(t) || t == entityType || Some(Some(t)) == TechTag(props)
  {
    var llm := LlmTags(LlmTagValues(llmTags)).value;
    if t in llm {
      var i :| 0 <= i < |llm| && llm[i] == t;
    }
  }
}
