/**
 * RelationshipHelper (src/processors/relationship_helper.py): builds
 * relationship records, and forward/reverse pairs of them, between two
 * entities. Timestamps come in as the parameter `now`.
 */
module Relationships {
  import opened Text
  import opened Values

  /** A relationship record: its id, type, both endpoints and its metadata dict. */
  datatype Relationship = Relationship(
    id: string,
    relType: string,
    sourceId: string,
    sourceType: string,
    targetId: string,
    targetType: string,
    metadata: seq<(string, Value)>)

  /** Forward relationship types and their reverse types. CONNECTS_TO is its own reverse. */
  const BidirectionalTypes: map<string, string> := map[
    "HOSTED_BY" := "HOSTS",
    "RUNS_ON" := "RUNS",
    "STORES_DATA_ON" := "PROVIDES_STORAGE_FOR",
    "CONNECTS_TO" := "CONNECTS_TO",
    "USES" := "USED_BY",
    "DEPENDS_ON" := "SUPPORTS",
    "PART_OF" := "CONTAINS",
    "MANAGED_BY" := "MANAGES",
    "STORED_ON" := "STORES",
    "CONFIGURES" := "CONFIGURED_BY",
    "MONITORS" := "MONITORED_BY",
    "PROVIDES_SERVICE" := "PROVIDED_BY",
    "SPECIFIES" := "SPECIFIED_BY"
  ]

  /** `BIDIRECTIONAL_TYPES.get(t)`, treating an empty reverse type as none as the truth test does. */
  function ReverseType(t: string): (r: Option<string>)
    ensures r.Some? <==> t in BidirectionalTypes
    ensures r.Some? ==> r.value == BidirectionalTypes[t] && r.value != ""
  {
    if t in BidirectionalTypes && BidirectionalTypes[t] != "" then Some(BidirectionalTypes[t]) else None
  }

  /** The id of a relationship: "{source_id}_{type lower-cased}_{target_id}". */
  function RelationshipId(sourceId: string, relType: string, targetId: string): (id: string)
    ensures StartsWith(id, sourceId + "_") && EndsWith(id, "_" + targetId)
    ensures |id| == |sourceId| + |relType| + |targetId| + 2
  {
    var id := sourceId + "_" + Lower(relType) + "_" + targetId;
    assert id[..|sourceId| + 1] == sourceId + "_";
    assert id[|id| - |targetId| - 1..] == "_" + targetId;
    id
  }

  /** The id determines the type when both endpoints are known. */
  lemma RelationshipIdInjective(sourceId: string, t1: string, t2: string, targetId: string)
    requires RelationshipId(sourceId, t1, targetId) == RelationshipId(sourceId, t2, targetId)
    ensures Lower(t1) == Lower(t2)
  {
    var id := RelationshipId(sourceId, t1, targetId);
    var a := sourceId + "_";
    assert id == a + Lower(t1) + "_" + targetId;
    assert id == a + Lower(t2) + "_" + targetId;
    assert |Lower(t1)| == |Lower(t2)|;
    forall k | 0 <= k < |Lower(t1)| ensures Lower(t1)[k] == Lower(t2)[k] {
      assert id[|a| + k] == Lower(t1)[k];
      assert id[|a| + k] == Lower(t2)[k];
    }
  }

  /** The metadata with a created_at stamp: an existing one is kept, a missing one is added last. */
  function Stamp(metadata: seq<(string, Value)>, now: string): (r: seq<(string, Value)>)
    ensures "created_at" in Keys(r)
    ensures "created_at" in Keys(metadata) ==> r == metadata
    ensures "created_at" !in Keys(metadata) ==> Keys(r) == Keys(metadata) + ["created_at"]
    ensures "created_at" !in Keys(metadata) ==> Lookup(r, "created_at") == Some(Str(now))
  {
    if "created_at" in Keys(metadata) then metadata
    else
      PutKeys(metadata, "created_at", Str(now));
      Put(metadata, "created_at", Str(now))
  }

  /** Stamping leaves every other key's value alone. */
  lemma StampKeepsOthers(metadata: seq<(string, Value)>, now: string, k: string)
    requires k != "created_at"
    ensures Lookup(Stamp(metadata, now), k) == Lookup(metadata, k)
  {
    if "created_at" !in Keys(metadata) {
      PutOther(metadata, "created_at", Str(now), k);
    }
  }

  /** The record create_relationship returns for already-stamped metadata. */
  function MakeRelationship(sourceId: string, sourceType: string, targetId: string, targetType: string,
                            relType: string, metadata: seq<(string, Value)>): (rel: Relationship)
    ensures rel.id == RelationshipId(sourceId, relType, targetId) && rel.relType == relType
    ensures rel.sourceId == sourceId && rel.targetId == targetId
  {
    Relationship(RelationshipId(sourceId, relType, targetId), relType, sourceId, sourceType, targetId, targetType, metadata)
  }

  /**
   * A metadata dict the caller passes in and create_relationship writes
   * created_at into.
   */
  class MetadataDict {
    var fields: seq<(string, Value)>

    constructor(fields: seq<(string, Value)>)
      ensures this.fields == fields
    {
      this.fields := fields;
    }
  }

  /**
   * create_relationship: stamps the caller's dict (or a new one when it is
   * null) and returns a relationship that carries it.
   */
  method CreateRelationship(sourceId: string, sourceType: string, targetId: string, targetType: string,
                            relType: string, metadata: MetadataDict?, now: string) returns (rel: Relationship)
    modifies metadata
    ensures metadata != null ==> metadata.fields == Stamp(old(metadata.fields), now)
    ensures metadata != null ==> rel == MakeRelationship(sourceId, sourceType, targetId, targetType, relType, metadata.fields)
    ensures metadata == null ==> rel == MakeRelationship(sourceId, sourceType, targetId, targetType, relType, [("created_at", Str(now))])
  {
    var fields: seq<(string, Value)>;
    if metadata == null {
      fields := [];
    } else {
      fields := metadata.fields;
    }
    if "created_at" !in Keys(fields) {
      fields := Put(fields, "created_at", Str(now));
    }
    if metadata != null {
      metadata.fields := fields;
    }
    rel := MakeRelationship(sourceId, sourceType, targetId, targetType, relType, fields);
  }

  /** The relationships create_bidirectional_relationship returns for stamped metadata. */
  function BidirectionalPair(sourceId: string, sourceType: string, targetId: string, targetType: string,
                             forwardType: string, metadata: seq<(string, Value)>): (rels: seq<Relationship>)
    ensures 1 <= |rels| <= 2
    ensures rels[0] == MakeRelationship(sourceId, sourceType, targetId, targetType, forwardType, metadata)
    ensures |rels| == 2 <==> ReverseType(forwardType).Some?
    ensures |rels| == 2 ==> rels[1] == MakeRelationship(targetId, targetType, sourceId, sourceType,
                                                        ReverseType(forwardType).value, metadata)
    ensures forall i :: 0 <= i < |rels| ==> rels[i].metadata == metadata
  {
    var forward := MakeRelationship(sourceId, sourceType, targetId, targetType, forwardType, metadata);
    match ReverseType(forwardType)
    case Some(reverseType) =>
      [forward, MakeRelationship(targetId, targetType, sourceId, sourceType, reverseType, metadata)]
    case None =>
      [forward]
  }

  /**
   * create_bidirectional_relationship: stamps the caller's dict once, then
   * builds the forward edge and, for a mapped type, the reverse edge, each
   * over its own copy of the stamped metadata.
   */
  method CreateBidirectionalRelationship(sourceId: string, sourceType: string, targetId: string, targetType: string,
                                         forwardType: string, metadata: MetadataDict?, now: string)
    returns (rels: seq<Relationship>)
    modifies metadata
    ensures metadata != null ==> metadata.fields == Stamp(old(metadata.fields), now)
    ensures rels == BidirectionalPair(sourceId, sourceType, targetId, targetType, forwardType,
                                      Stamp(if metadata == null then [] else old(metadata.fields), now))
  {
    ghost var stamped := Stamp(if metadata == null then [] else metadata.fields, now);
    var md := metadata;
    if md == null {
      md := new MetadataDict([]);
    }
    if "created_at" !in Keys(md.fields) {
      md.fields := Put(md.fields, "created_at", Str(now));
    }
    assert md.fields == stamped;
    assert "created_at" in Keys(stamped);
    ghost var pair := BidirectionalPair(sourceId, sourceType, targetId, targetType, forwardType, stamped);
    var forwardCopy := new MetadataDict(md.fields);
    var forward := CreateRelationship(sourceId, sourceType, targetId, targetType, forwardType, forwardCopy, now);
    assert forward == MakeRelationship(sourceId, sourceType, targetId, targetType, forwardType, stamped);
    rels := [forward];
    var reverseType := ReverseType(forwardType);
    if reverseType.Some? {
      var reverseCopy := new MetadataDict(md.fields);
      var reverse := CreateRelationship(targetId, targetType, sourceId, sourceType,
                                        reverseType.value, reverseCopy, now);
      assert reverse == MakeRelationship(targetId, targetType, sourceId, sourceType, reverseType.value, stamped);
      rels := rels + [reverse];
      assert rels[1] == pair[1];
    }
    assert |rels| == |pair| && rels[0] == pair[0];
  }

  /** Both edges of a pair carry the same created_at, and swapping the endpoints back recovers the forward edge. */
  lemma PairSharesTimestamp(sourceId: string, sourceType: string, targetId: string, targetType: string,
                            forwardType: string, metadata: seq<(string, Value)>, now: string)
    requires ReverseType(forwardType).Some?
    ensures var rels := BidirectionalPair(sourceId, sourceType, targetId, targetType, forwardType, Stamp(metadata, now));
            Lookup(rels[0].metadata, "created_at") == Lookup(rels[1].metadata, "created_at")
            && Lookup(rels[0].metadata, "created_at").Some?
            && rels[1].sourceId == rels[0].targetId && rels[1].targetId == rels[0].sourceId
            && rels[1].sourceType == rels[0].targetType && rels[1].targetType == rels[0].sourceType
  {
    var rels := BidirectionalPair(sourceId, sourceType, targetId, targetType, forwardType, Stamp(metadata, now));
    LookupFound(rels[0].metadata, "created_at");
  }

}
