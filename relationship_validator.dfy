/**
 * RelationshipValidator (tests/test_relationships.py): checks the
 * relationship list of the generated RAG data for structure, for the
 * presence of the reverse edge of every bidirectional type, and for
 * endpoints that exist among the documents with the declared type.
 * Every finding is recorded and validation goes on. A finding is kept as
 * an `Issue` holding the values its message is formatted from.
 * `datetime.fromisoformat` comes in as the parameter `validIso`.
 */
module RelationshipValidation {
  import opened Text
  import opened Values
  import EntitySchema

  /** The (source_id, target_id, type) triple relationships are indexed by. */
  type Key = (Value, Value, Value)

  /** The two ends of a relationship. */
  datatype End = Source | Target

  function IdField(end: End): string {
    match end
    case Source => "source_id"
    case Target => "target_id"
  }

  function TypeField(end: End): string {
    match end
    case Source => "source_type"
    case Target => "target_type"
  }

  /** One error or warning, with the values its message shows. */
  datatype Issue =
    | MissingField(relId: Value, field: string)
    | NotString(relId: Value, field: string)
    | UnknownType(relId: Value, relType: string)
    | MetadataNotObject(relId: Value)
    | MissingCreatedAt(relId: Value)
    | CreatedAtNotString(relId: Value)
    | BadTimestamp(relId: Value)
    | IdPrefix(relId: Value, expected: string)
    | MissingPair(relId: Value, from: Value, reverseType: string, to: Value)
    | TimestampMismatch(relId: Value, created: Value, reverseCreated: Value)
    | EntityMissing(relId: Value, end: End, id: Value)
    | TypeMismatch(relId: Value, end: End, declared: Value, actual: Value)
    | Orphaned(end: End, ids: set<Value>)

  /** The errors and warnings one check appends, in order. */
  datatype Report = Report(errors: seq<Issue>, warnings: seq<Issue>) {
    function Then(other: Report): Report {
      Report(errors + other.errors, warnings + other.warnings)
    }
  }

  const Clean := Report([], [])

  function Err(issue: Issue): Report { Report([issue], []) }

  function Warn(issue: Issue): Report { Report([], [issue]) }

  /** RelationshipValidator.BIDIRECTIONAL_TYPES: each type and its inverse. */
  const Bidirectional: map<string, string> := map[
    "HOSTED_BY" := "HOSTS", "HOSTS" := "HOSTED_BY",
    "RUNS_ON" := "RUNS", "RUNS" := "RUNS_ON",
    "STORES_DATA_ON" := "PROVIDES_STORAGE_FOR", "PROVIDES_STORAGE_FOR" := "STORES_DATA_ON",
    "CONNECTS_TO" := "CONNECTS_TO",
    "USES" := "USED_BY", "USED_BY" := "USES",
    "DEPENDS_ON" := "SUPPORTS", "SUPPORTS" := "DEPENDS_ON",
    "PART_OF" := "CONTAINS", "CONTAINS" := "PART_OF",
    "MANAGED_BY" := "MANAGES", "MANAGES" := "MANAGED_BY"]

  /** The table is an involution: the inverse of an inverse is the type itself. */
  lemma InverseOfInverse(t: string)
    requires t in Bidirectional
    ensures Bidirectional[t] in Bidirectional && Bidirectional[Bidirectional[t]] == t
  {
  }

  // -----------------------------------------------------------------------
  // Structure (_validate_relationship_structure)

  const RequiredFields: seq<string> := ["id", "type", "source_id", "source_type", "target_id", "target_type", "metadata"]

  function MissingCheck(rel: Dict, relId: Value, field: string): Report {
    if Has(rel, field) then Clean else Err(MissingField(relId, field))
  }

  /** The required-field loop over `fields`. */
  function MissingReport(rel: Dict, relId: Value, fields: seq<string>): Report
    decreases |fields|
  {
    if fields == [] then Clean
    else MissingReport(rel, relId, fields[..|fields| - 1]).Then(MissingCheck(rel, relId, fields[|fields| - 1]))
  }

  /** The fields of `fields` that `rel` lacks, in order. */
  function Absent(rel: Dict, fields: seq<string>): seq<string>
    decreases |fields|
  {
    if fields == [] then []
    else Absent(rel, fields[..|fields| - 1]) + (if Has(rel, fields[|fields| - 1]) then [] else [fields[|fields| - 1]])
  }

  /** Each missing field adds exactly one error naming it, and nothing else is reported. */
  lemma {:induction false} MissingFieldsReported(rel: Dict, relId: Value, fields: seq<string>)
    ensures MissingReport(rel, relId, fields).warnings == []
    ensures |MissingReport(rel, relId, fields).errors| == |Absent(rel, fields)|
    ensures forall e :: e in MissingReport(rel, relId, fields).errors ==>
              e.MissingField? && e == MissingField(relId, e.field) && e.field in fields && !Has(rel, e.field)
    ensures forall f :: f in fields ==> (MissingField(relId, f) in MissingReport(rel, relId, fields).errors <==> !Has(rel, f))
    ensures MissingReport(rel, relId, fields).errors == [] <==> forall f :: f in fields ==> Has(rel, f)
    decreases |fields|
  {
    if fields != [] {
      var init, last := fields[..|fields| - 1], fields[|fields| - 1];
      MissingFieldsReported(rel, relId, init);
      assert MissingReport(rel, relId, fields).errors == MissingReport(rel, relId, init).errors + MissingCheck(rel, relId, last).errors;
      assert forall f :: f in fields <==> f in init || f == last;
    }
  }

  /** A present field that is not a string is an error. */
  function StringCheck(rel: Dict, relId: Value, field: string): Report {
    if Has(rel, field) && !Field(rel, field).Str? then Err(NotString(relId, field)) else Clean
  }

  /** A non-string type is an error; a string type outside the table is only a warning. */
  function TypeCheck(rel: Dict, relId: Value): Report {
    if !Has(rel, "type") then Clean
    else if !Field(rel, "type").Str? then Err(NotString(relId, "type"))
    else if Field(rel, "type").s !in Bidirectional then Warn(UnknownType(relId, Field(rel, "type").s))
    else Clean
  }

  /** metadata must be a dict whose created_at is an ISO 8601 string. */
  function MetadataCheck(rel: Dict, relId: Value, validIso: string -> bool): Report {
    if !Has(rel, "metadata") then Clean
    else
      var md := Field(rel, "metadata");
      if !md.Obj? then Err(MetadataNotObject(relId))
      else if !Has(md.fields, "created_at") then Err(MissingCreatedAt(relId))
      else
        var created := Field(md.fields, "created_at");
        if !created.Str? then Err(CreatedAtNotString(relId))
        else if !validIso(created.s) then Err(BadTimestamp(relId))
        else Clean
  }

  /** The prefix an id is expected to start with: `f"{source_id}_"`. */
  function ExpectedPrefix(rel: Dict): Option<string> {
    match Show(Field(rel, "source_id"))
    case Some(s) => Some(s + "_")
    case None => None
  }

  /** An id that does not start with the source id and '_' is a warning. */
  function IdFormatCheck(rel: Dict, relId: Value): Report {
    if Has(rel, "id") && Has(rel, "source_id") && Has(rel, "target_id")
       && Field(rel, "id").Str? && ExpectedPrefix(rel).Some?
       && !StartsWith(Field(rel, "id").s, ExpectedPrefix(rel).value)
    then Warn(IdPrefix(relId, ExpectedPrefix(rel).value))
    else Clean
  }

  /** The fields whose types are checked, in the source's order. */
  const TypedFields: seq<string> := ["id", "type", "source_id", "source_type", "target_id", "target_type"]

  /** The type check of one field: `type` has its own, the others must be strings. */
  function FieldTypeCheck(rel: Dict, relId: Value, field: string): Report {
    if field == "type" then TypeCheck(rel, relId) else StringCheck(rel, relId, field)
  }

  /** The type checks of `fields`, in order. */
  function FieldTypesReport(rel: Dict, relId: Value, fields: seq<string>): Report
    decreases |fields|
  {
    if fields == [] then Clean
    else FieldTypesReport(rel, relId, fields[..|fields| - 1]).Then(FieldTypeCheck(rel, relId, fields[|fields| - 1]))
  }

  /**
   * The type checks report no error exactly when no single one does, and
   * their warnings are those of the `type` check when it is among them.
   */
  lemma {:induction false} FieldTypesReported(rel: Dict, relId: Value, fields: seq<string>)
    ensures FieldTypesReport(rel, relId, fields).errors == []
            <==> forall f :: f in fields ==> FieldTypeCheck(rel, relId, f).errors == []
    ensures forall w :: (w in FieldTypesReport(rel, relId, fields).warnings
                         <==> "type" in fields && w in TypeCheck(rel, relId).warnings)
    decreases |fields|
  {
    if fields != [] {
      var init, last := fields[..|fields| - 1], fields[|fields| - 1];
      FieldTypesReported(rel, relId, init);
      assert forall f :: f in fields <==> f in init || f == last;
    }
  }

  /** The six type checks pass exactly when each of those fields is absent or of the right type. */
  lemma TypedFieldsClean(rel: Dict, relId: Value)
    ensures FieldTypesReport(rel, relId, TypedFields).errors == []
            <==> && (Has(rel, "id") ==> Field(rel, "id").Str?) && (Has(rel, "type") ==> Field(rel, "type").Str?)
                 && (Has(rel, "source_id") ==> Field(rel, "source_id").Str?)
                 && (Has(rel, "source_type") ==> Field(rel, "source_type").Str?)
                 && (Has(rel, "target_id") ==> Field(rel, "target_id").Str?)
                 && (Has(rel, "target_type") ==> Field(rel, "target_type").Str?)
    ensures forall w :: w in FieldTypesReport(rel, relId, TypedFields).warnings <==> w in TypeCheck(rel, relId).warnings
  {
    FieldTypesReported(rel, relId, TypedFields);
    assert "type" in TypedFields;
    if FieldTypesReport(rel, relId, TypedFields).errors == [] {
      assert FieldTypeCheck(rel, relId, "id").errors == [];
      assert FieldTypeCheck(rel, relId, "type").errors == [];
      assert FieldTypeCheck(rel, relId, "source_id").errors == [];
      assert FieldTypeCheck(rel, relId, "source_type").errors == [];
      assert FieldTypeCheck(rel, relId, "target_id").errors == [];
      assert FieldTypeCheck(rel, relId, "target_type").errors == [];
    }
  }

  /** _validate_relationship_structure, check by check in the source's order. */
  function StructureReport(rel: Dict, relId: Value, validIso: string -> bool): Report {
    MissingReport(rel, relId, RequiredFields)
      .Then(FieldTypesReport(rel, relId, TypedFields))
      .Then(MetadataCheck(rel, relId, validIso))
      .Then(IdFormatCheck(rel, relId))
  }

  /**
   * What a relationship must be for its structure check to pass: every
   * required field present (a field read as a string or a dict is present).
   */
  predicate WellFormed(rel: Dict, validIso: string -> bool) {
    && Field(rel, "id").Str? && Field(rel, "type").Str?
    && Field(rel, "source_id").Str? && Field(rel, "source_type").Str?
    && Field(rel, "target_id").Str? && Field(rel, "target_type").Str?
    && Field(rel, "metadata").Obj?
    && Has(Field(rel, "metadata").fields, "created_at")
    && Field(Field(rel, "metadata").fields, "created_at").Str?
    && validIso(Field(Field(rel, "metadata").fields, "created_at").s)
  }

  /**
   * The structure check reports no error exactly on a well-formed
   * relationship: an unrecognised type or an id without the expected
   * prefix never makes it fail.
   */
  lemma StructureCleanIff(rel: Dict, relId: Value, validIso: string -> bool)
    ensures StructureReport(rel, relId, validIso).errors == [] <==> WellFormed(rel, validIso)
  {
    MissingFieldsReported(rel, relId, RequiredFields);
    TypedFieldsClean(rel, relId);
    var missing, types := MissingReport(rel, relId, RequiredFields), FieldTypesReport(rel, relId, TypedFields);
    var md, fmt := MetadataCheck(rel, relId, validIso), IdFormatCheck(rel, relId);
    assert StructureReport(rel, relId, validIso).errors == missing.errors + types.errors + md.errors + fmt.errors;
    if WellFormed(rel, validIso) {
      assert forall f :: f in RequiredFields ==> Has(rel, f);
    }
  }

  /** The structure warnings are those of the type check and the id-format check. */
  lemma StructureWarnings(rel: Dict, relId: Value, validIso: string -> bool)
    ensures forall w :: (w in StructureReport(rel, relId, validIso).warnings
                         <==> w in TypeCheck(rel, relId).warnings || w in IdFormatCheck(rel, relId).warnings)
  {
    MissingFieldsReported(rel, relId, RequiredFields);
    TypedFieldsClean(rel, relId);
    var missing, types := MissingReport(rel, relId, RequiredFields), FieldTypesReport(rel, relId, TypedFields);
    var md, fmt := MetadataCheck(rel, relId, validIso), IdFormatCheck(rel, relId);
    assert StructureReport(rel, relId, validIso).warnings == missing.warnings + types.warnings + md.warnings + fmt.warnings;
  }

  /** The type warning appears exactly for a string type missing from the table. */
  lemma UnknownTypeWarned(rel: Dict, relId: Value, validIso: string -> bool, t: string)
    ensures UnknownType(relId, t) in StructureReport(rel, relId, validIso).warnings
            <==> Has(rel, "type") && Field(rel, "type") == Str(t) && t !in Bidirectional
  {
    StructureWarnings(rel, relId, validIso);
  }

  /** The prefix warning appears exactly when the id is a string without the `source_id_` prefix. */
  lemma IdPrefixWarned(rel: Dict, relId: Value, validIso: string -> bool, p: string)
    ensures IdPrefix(relId, p) in StructureReport(rel, relId, validIso).warnings
            <==> && Has(rel, "id") && Has(rel, "source_id") && Has(rel, "target_id")
                 && Field(rel, "id").Str? && ExpectedPrefix(rel) == Some(p)
                 && !StartsWith(Field(rel, "id").s, p)
  {
    StructureWarnings(rel, relId, validIso);
  }

  /** The id a relationship is reported under in validate_all: its id, or its position. */
  function StructureId(rel: Dict, i: nat): Value {
    GetOr(Obj(rel), "id", Str("relationship[" + NatToString(i) + "]"))
  }

  /** The structure check validate_all runs on the relationship at position `i`. */
  function StructureAt(validIso: string -> bool): (Dict, nat) -> Report {
    (rel: Dict, i: nat) => StructureReport(rel, StructureId(rel, i), validIso)
  }

  /** The reports of `check` on the first `n` relationships with their positions, concatenated. */
  function Accumulate(rels: seq<Dict>, n: nat, check: (Dict, nat) -> Report): Report
    requires n <= |rels|
  {
    if n == 0 then Clean else Accumulate(rels, n - 1, check).Then(check(rels[n - 1], n - 1))
  }

  /** A concatenation of reports has no error exactly when none of its parts has one. */
  lemma {:induction false} AccumulateClean(rels: seq<Dict>, n: nat, check: (Dict, nat) -> Report)
    requires n <= |rels|
    ensures Accumulate(rels, n, check).errors == [] <==> forall i :: 0 <= i < n ==> check(rels[i], i).errors == []
  {
    if n > 0 {
      AccumulateClean(rels, n - 1, check);
    }
  }

  /** The structure loop of validate_all over the first `n` relationships. */
  function StructuresReport(rels: seq<Dict>, n: nat, validIso: string -> bool): Report
    requires n <= |rels|
  {
    Accumulate(rels, n, StructureAt(validIso))
  }

  /** The structure loop over one more relationship appends that relationship's report. */
  lemma StructuresStep(rels: seq<Dict>, n: nat, validIso: string -> bool)
    requires n < |rels|
    ensures StructuresReport(rels, n + 1, validIso)
         == StructuresReport(rels, n, validIso).Then(StructureReport(rels[n], StructureId(rels[n], n), validIso))
  {
  }

  /** The structure loop reports no error exactly when every relationship is well-formed. */
  lemma StructuresCleanIff(rels: seq<Dict>, n: nat, validIso: string -> bool)
    requires n <= |rels|
    ensures StructuresReport(rels, n, validIso).errors == [] <==> forall i :: 0 <= i < n ==> WellFormed(rels[i], validIso)
  {
    var check := StructureAt(validIso);
    AccumulateClean(rels, n, check);
    forall i | 0 <= i < n ensures check(rels[i], i).errors == [] <==> WellFormed(rels[i], validIso) {
      StructureCleanIff(rels[i], StructureId(rels[i], i), validIso);
    }
  }

  // -----------------------------------------------------------------------
  // The relationship index (_build_relationship_index)

  /** The index key of a relationship whose source, target and type are all truthy. */
  function KeyOf(rel: Dict): Option<Key> {
    var s, t, ty := Field(rel, "source_id"), Field(rel, "target_id"), Field(rel, "type");
    if Truthy(s) && Truthy(t) && Truthy(ty) then Some((s, t, ty)) else None
  }

  /** Some relationship of `rels` has key `k`. */
  predicate Keyed(rels: seq<Dict>, k: Key) {
    exists i :: 0 <= i < |rels| && KeyOf(rels[i]) == Some(k)
  }

  /** The index after adding `rels` in order to `m`: a later relationship with the same key wins. */
  function IndexFrom(m: map<Key, Dict>, rels: seq<Dict>): map<Key, Dict>
    decreases |rels|
  {
    if rels == [] then m
    else
      var prev := IndexFrom(m, rels[..|rels| - 1]);
      match KeyOf(rels[|rels| - 1])
      case Some(k) => prev[k := rels[|rels| - 1]]
      case None => prev
  }

  /** Every entry of the index is a relationship of `rels` filed under its own key. */
  predicate EntriesFrom(index: map<Key, Dict>, rels: seq<Dict>) {
    forall k :: k in index ==> index[k] in rels && KeyOf(index[k]) == Some(k)
  }

  /** `index` holds exactly the keys of `rels`, each filed with a relationship that has it. */
  predicate IndexesAll(index: map<Key, Dict>, rels: seq<Dict>) {
    && (forall i :: 0 <= i < |rels| && KeyOf(rels[i]).Some? ==> KeyOf(rels[i]).value in index)
    && EntriesFrom(index, rels)
  }

  /**
   * Indexing adds exactly the keys of `rels`, and every entry it holds is
   * either one of `rels` filed under its own key or an entry of `m` left alone.
   */
  lemma {:induction false} IndexFromKeys(m: map<Key, Dict>, rels: seq<Dict>)
    ensures forall k :: k in IndexFrom(m, rels) <==> k in m || Keyed(rels, k)
    ensures forall k :: k in IndexFrom(m, rels) ==>
              (IndexFrom(m, rels)[k] in rels && KeyOf(IndexFrom(m, rels)[k]) == Some(k))
              || (k in m && IndexFrom(m, rels)[k] == m[k])
    decreases |rels|
  {
    if rels != [] {
      var init, last := rels[..|rels| - 1], rels[|rels| - 1];
      IndexFromKeys(m, init);
      forall k ensures Keyed(rels, k) <==> Keyed(init, k) || KeyOf(last) == Some(k) {
        if Keyed(rels, k) {
          var i :| 0 <= i < |rels| && KeyOf(rels[i]) == Some(k);
          if i < |rels| - 1 { assert init[i] == rels[i]; }
        }
        if Keyed(init, k) {
          var i :| 0 <= i < |init| && KeyOf(init[i]) == Some(k);
          assert rels[i] == init[i];
        }
      }
      forall x | x in init ensures x in rels {
        var i :| 0 <= i < |init| && init[i] == x;
        assert rels[i] == x;
      }
    }
  }

  /** Indexing a list on top of entries from that same list yields its index. */
  lemma IndexFromIndexes(m: map<Key, Dict>, rels: seq<Dict>)
    requires EntriesFrom(m, rels)
    ensures IndexesAll(IndexFrom(m, rels), rels)
  {
    IndexFromKeys(m, rels);
  }

  /** Entries of the index are non-empty dicts, since their key fields are present. */
  lemma KeyedNonEmpty(rel: Dict)
    requires KeyOf(rel).Some?
    ensures rel != []
  {
  }

  // -----------------------------------------------------------------------
  // Bidirectional pairs (_validate_bidirectional_relationships)

  /** `BIDIRECTIONAL_TYPES.get(rel_type)`. */
  function ReverseOf(relType: Value): Option<string> {
    if relType.Str? && relType.s in Bidirectional then Some(Bidirectional[relType.s]) else None
  }

  /** The key the reverse edge of `k` is filed under. */
  function ReverseKey(k: Key, reverseType: string): Key {
    (k.1, k.0, Str(reverseType))
  }

  /** `rel.get('id', 'unknown')`. */
  function RelId(rel: Dict): Value {
    GetOr(Obj(rel), "id", Str("unknown"))
  }

  /** `rel.get('metadata', {}).get('created_at')`. */
  function CreatedAt(rel: Dict): Value {
    GetOr(GetOr(Obj(rel), "metadata", Obj([])), "created_at", Null)
  }

  /** One iteration of the pair loop: its report and the checked keys after it. */
  function PairStep(rel: Dict, index: map<Key, Dict>, checked: set<Key>): (Report, set<Key>) {
    match KeyOf(rel)
    case None => (Clean, checked)
    case Some(k) =>
      if k in checked then (Clean, checked)
      else
        match ReverseOf(k.2)
        case None => (Clean, checked)
        case Some(rt) =>
          var rk := ReverseKey(k, rt);
          if rk !in index || index[rk] == [] then (Err(MissingPair(RelId(rel), k.1, rt, k.0)), checked)
          else
            var mismatch := !EntitySchema.PyEq(CreatedAt(rel), CreatedAt(index[rk]));
            (if mismatch then Warn(TimestampMismatch(RelId(rel), CreatedAt(rel), CreatedAt(index[rk]))) else Clean,
             checked + {k, rk})
  }

  /** The pair loop over the first `n` relationships: the report so far and the checked keys. */
  function PairsScan(rels: seq<Dict>, index: map<Key, Dict>, n: nat): (Report, set<Key>)
    requires n <= |rels|
  {
    if n == 0 then (Clean, {})
    else
      var prev := PairsScan(rels, index, n - 1);
      var step := PairStep(rels[n - 1], index, prev.1);
      (prev.0.Then(step.0), step.1)
  }

  /** A relationship needs no reverse edge, or its reverse edge is in the index. */
  predicate Paired(rel: Dict, index: map<Key, Dict>) {
    KeyOf(rel).Some? && ReverseOf(KeyOf(rel).value.2).Some? ==>
      var rk := ReverseKey(KeyOf(rel).value, ReverseOf(KeyOf(rel).value.2).value);
      rk in index && index[rk] != []
  }

  /** A key whose reverse edge is in the index. */
  predicate Good(k: Key, index: map<Key, Dict>) {
    ReverseOf(k.2).Some? && ReverseKey(k, ReverseOf(k.2).value) in index && index[ReverseKey(k, ReverseOf(k.2).value)] != []
  }

  /** A found pair marks both keys as checked, and both of them have their reverse in the index. */
  lemma PairStepMarks(rel: Dict, index: map<Key, Dict>, checked: set<Key>)
    requires forall k :: k in index ==> index[k] != []
    requires KeyOf(rel).Some? ==> KeyOf(rel).value in index
    requires forall c :: c in checked ==> Good(c, index)
    ensures forall c :: c in PairStep(rel, index, checked).1 ==> Good(c, index)
    ensures PairStep(rel, index, checked).0.errors == [] <==> Paired(rel, index)
  {
    if KeyOf(rel).Some? && KeyOf(rel).value !in checked && ReverseOf(KeyOf(rel).value.2).Some? {
      var k := KeyOf(rel).value;
      var rt := ReverseOf(k.2).value;
      var rk := ReverseKey(k, rt);
      if rk in index && index[rk] != [] {
        InverseOfInverse(k.2.s);
        assert ReverseOf(rk.2) == Some(k.2.s);
        assert ReverseKey(rk, k.2.s) == k;
      }
    }
  }

  /**
   * Over an index holding every relationship's key, the pair loop reports
   * no error exactly when every relationship is paired: a key skipped as
   * already checked always had its reverse found.
   */
  lemma {:induction false} PairsScanCleanIff(rels: seq<Dict>, index: map<Key, Dict>, n: nat)
    requires n <= |rels|
    requires forall k :: k in index ==> index[k] != []
    requires forall i :: 0 <= i < |rels| && KeyOf(rels[i]).Some? ==> KeyOf(rels[i]).value in index
    ensures forall c :: c in PairsScan(rels, index, n).1 ==> Good(c, index)
    ensures PairsScan(rels, index, n).0.errors == [] <==> forall i :: 0 <= i < n ==> Paired(rels[i], index)
  {
    if n > 0 {
      PairsScanCleanIff(rels, index, n - 1);
      var prev := PairsScan(rels, index, n - 1);
      PairStepMarks(rels[n - 1], index, prev.1);
      var step := PairStep(rels[n - 1], index, prev.1);
      assert PairsScan(rels, index, n).0.errors == prev.0.errors + step.0.errors;
      assert (forall i :: 0 <= i < n ==> Paired(rels[i], index))
             <==> (forall i :: 0 <= i < n - 1 ==> Paired(rels[i], index)) && Paired(rels[n - 1], index);
    }
  }

  /** The reverse edge of a relationship is present among `rels`. */
  predicate HasCounterpart(rels: seq<Dict>, rel: Dict) {
    KeyOf(rel).Some? && ReverseOf(KeyOf(rel).value.2).Some? ==>
      Keyed(rels, ReverseKey(KeyOf(rel).value, ReverseOf(KeyOf(rel).value.2).value))
  }

  /**
   * Against the index of the relationships themselves, the pair loop fails
   * exactly when some relationship of a bidirectional type has no
   * (target, source, inverse type) counterpart in the list.
   */
  lemma PairsCleanIff(rels: seq<Dict>, index: map<Key, Dict>)
    requires IndexesAll(index, rels)
    ensures PairsScan(rels, index, |rels|).0.errors == [] <==> forall i :: 0 <= i < |rels| ==> HasCounterpart(rels, rels[i])
  {
    forall k | k in index ensures index[k] != [] {
      KeyedNonEmpty(index[k]);
    }
    PairsScanCleanIff(rels, index, |rels|);
    forall i | 0 <= i < |rels| ensures Paired(rels[i], index) <==> HasCounterpart(rels, rels[i]) {
      if KeyOf(rels[i]).Some? && ReverseOf(KeyOf(rels[i]).value.2).Some? {
        var rk := ReverseKey(KeyOf(rels[i]).value, ReverseOf(KeyOf(rels[i]).value.2).value);
        if Keyed(rels, rk) {
          var j :| 0 <= j < |rels| && KeyOf(rels[j]) == Some(rk);
          KeyedNonEmpty(index[rk]);
        }
        if rk in index {
          assert index[rk] in rels && KeyOf(index[rk]) == Some(rk);
          var j :| 0 <= j < |rels| && rels[j] == index[rk];
          assert KeyOf(rels[j]) == Some(rk);
        }
      }
    }
  }

  // -----------------------------------------------------------------------
  // Entity references (_validate_entity_references, _check_orphaned_relationships)

  /** One end of a relationship against the documents: missing, or of another type. */
  function EndCheck(rel: Dict, documents: map<Value, Dict>, end: End): Report {
    var id, declared := Field(rel, IdField(end)), Field(rel, TypeField(end));
    if Truthy(id) && id !in documents then Err(EntityMissing(RelId(rel), end, id))
    else if Truthy(id) && Truthy(declared) then
      var actual := Field(documents[id], "type");
      if !EntitySchema.PyEq(actual, declared) then Err(TypeMismatch(RelId(rel), end, declared, actual)) else Clean
    else Clean
  }

  /** The reference loop over the first `n` relationships, source before target. */
  function ReferencesReport(rels: seq<Dict>, documents: map<Value, Dict>, n: nat): Report
    requires n <= |rels|
  {
    if n == 0 then Clean
    else ReferencesReport(rels, documents, n - 1).Then(EndCheck(rels[n - 1], documents, Source))
                                                 .Then(EndCheck(rels[n - 1], documents, Target))
  }

  /** An end with an id names an existing document, of the declared type when one is declared. */
  predicate Resolves(rel: Dict, documents: map<Value, Dict>, end: End) {
    var id, declared := Field(rel, IdField(end)), Field(rel, TypeField(end));
    Truthy(id) ==> id in documents && (Truthy(declared) ==> EntitySchema.PyEq(Field(documents[id], "type"), declared))
  }

  /** Both ends of a relationship resolve. */
  predicate ResolvesBoth(rel: Dict, documents: map<Value, Dict>) {
    Resolves(rel, documents, Source) && Resolves(rel, documents, Target)
  }

  /** The ids of one end that name no document. */
  function Orphans(rels: seq<Dict>, documents: map<Value, Dict>, end: End): set<Value> {
    set i | 0 <= i < |rels| && Truthy(Field(rels[i], IdField(end))) && Field(rels[i], IdField(end)) !in documents
          :: Field(rels[i], IdField(end))
  }

  /** One end's check fails exactly when that end does not resolve, and never warns. */
  lemma EndCheckClean(rel: Dict, documents: map<Value, Dict>, end: End)
    ensures EndCheck(rel, documents, end).warnings == []
    ensures EndCheck(rel, documents, end).errors == [] <==> Resolves(rel, documents, end)
  {
  }

  /**
   * The reference loop reports only errors, and none exactly when both ends
   * of every relationship resolve.
   */
  lemma ReferencesCleanIff(rels: seq<Dict>, documents: map<Value, Dict>, n: nat)
    requires n <= |rels|
    ensures ReferencesReport(rels, documents, n).warnings == []
    ensures ReferencesReport(rels, documents, n).errors == [] <==> AllResolve(rels, documents, n)
  {
    ReferencesNoWarnings(rels, documents, n);
    ReferencesErrorsIff(rels, documents, n);
  }

  lemma {:induction false} ReferencesErrorsIff(rels: seq<Dict>, documents: map<Value, Dict>, n: nat)
    requires n <= |rels|
    ensures ReferencesReport(rels, documents, n).errors == [] <==> AllResolve(rels, documents, n)
    decreases n
  {
    if n > 0 {
      ReferencesErrorsIff(rels, documents, n - 1);
      ReferencesCleanStep(rels, documents, n);
      ResolvesBothSnoc(rels, documents, n);
      IffStep(ReferencesReport(rels, documents, n - 1).errors == [], ReferencesReport(rels, documents, n).errors == [],
              AllResolve(rels, documents, n - 1), AllResolve(rels, documents, n), ResolvesBoth(rels[n - 1], documents));
    }
  }

  /** Two conditions that agree keep agreeing when both are strengthened by the same conjunct. */
  lemma IffStep(e: bool, e': bool, a: bool, a': bool, step: bool)
    requires e' <==> e && step
    requires a' <==> a && step
    requires e <==> a
    ensures e' <==> a'
  {
  }

  lemma {:induction false} ReferencesNoWarnings(rels: seq<Dict>, documents: map<Value, Dict>, n: nat)
    requires n <= |rels|
    ensures ReferencesReport(rels, documents, n).warnings == []
    decreases n
  {
    if n > 0 {
      ReferencesNoWarnings(rels, documents, n - 1);
      ReferencesWarnStep(rels, documents, n);
    }
  }

  /** Both ends of each of the first `n` relationships resolve. */
  predicate AllResolve(rels: seq<Dict>, documents: map<Value, Dict>, n: nat)
    requires n <= |rels|
  {
    forall i :: 0 <= i < n ==> ResolvesBoth(rels[i], documents)
  }

  /** One more relationship adds no warning. */
  lemma ReferencesWarnStep(rels: seq<Dict>, documents: map<Value, Dict>, n: nat)
    requires 0 < n <= |rels|
    ensures ReferencesReport(rels, documents, n - 1).warnings == [] ==> ReferencesReport(rels, documents, n).warnings == []
  {
    var rel := rels[n - 1];
    var src, tgt := EndCheck(rel, documents, Source), EndCheck(rel, documents, Target);
    EndCheckClean(rel, documents, Source);
    EndCheckClean(rel, documents, Target);
    ReferencesSnoc(rels, documents, n);
    ThenClean(ReferencesReport(rels, documents, n - 1), src, tgt, ReferencesReport(rels, documents, n));
  }

  /** One more relationship keeps the report clean exactly when both its ends resolve. */
  lemma ReferencesCleanStep(rels: seq<Dict>, documents: map<Value, Dict>, n: nat)
    requires 0 < n <= |rels|
    ensures ReferencesReport(rels, documents, n).errors == []
            <==> ReferencesReport(rels, documents, n - 1).errors == [] && ResolvesBoth(rels[n - 1], documents)
  {
    var rel := rels[n - 1];
    var src, tgt := EndCheck(rel, documents, Source), EndCheck(rel, documents, Target);
    EndCheckClean(rel, documents, Source);
    EndCheckClean(rel, documents, Target);
    ReferencesSnoc(rels, documents, n);
    ThenClean(ReferencesReport(rels, documents, n - 1), src, tgt, ReferencesReport(rels, documents, n));
  }

  lemma ResolvesBothSnoc(rels: seq<Dict>, documents: map<Value, Dict>, n: nat)
    requires 0 < n <= |rels|
    ensures AllResolve(rels, documents, n) <==> AllResolve(rels, documents, n - 1) && ResolvesBoth(rels[n - 1], documents)
  {
  }

  /** Three reports appended are clean, or free of warnings, exactly when each of them is. */
  lemma ThenClean(a: Report, b: Report, c: Report, r: Report)
    requires r.errors == a.errors + b.errors + c.errors && r.warnings == a.warnings + b.warnings + c.warnings
    ensures r.errors == [] <==> a.errors == [] && b.errors == [] && c.errors == []
    ensures r.warnings == [] <==> a.warnings == [] && b.warnings == [] && c.warnings == []
  {
    assert |r.errors| == |a.errors| + |b.errors| + |c.errors|;
    assert |r.warnings| == |a.warnings| + |b.warnings| + |c.warnings|;
  }

  /** One more relationship appends its source check, then its target check. */
  lemma ReferencesSnoc(rels: seq<Dict>, documents: map<Value, Dict>, n: nat)
    requires 0 < n <= |rels|
    ensures var prev, src, tgt := ReferencesReport(rels, documents, n - 1), EndCheck(rels[n - 1], documents, Source),
                                  EndCheck(rels[n - 1], documents, Target);
            && ReferencesReport(rels, documents, n).errors == prev.errors + src.errors + tgt.errors
            && ReferencesReport(rels, documents, n).warnings == prev.warnings + src.warnings + tgt.warnings
  {
  }

  /** Orphans gains the dangling id of the next relationship, if any. */
  lemma OrphansSnoc(rels: seq<Dict>, documents: map<Value, Dict>, n: nat, end: End, id: Value)
    requires 0 < n <= |rels|
    ensures id in Orphans(rels[..n], documents, end)
            <==> id in Orphans(rels[..n - 1], documents, end)
                 || (Truthy(Field(rels[n - 1], IdField(end))) && Field(rels[n - 1], IdField(end)) !in documents
                     && id == Field(rels[n - 1], IdField(end)))
  {
    var rel := rels[n - 1];
    if id in Orphans(rels[..n], documents, end) {
      var i :| 0 <= i < n && Truthy(Field(rels[..n][i], IdField(end))) && Field(rels[..n][i], IdField(end)) !in documents
               && id == Field(rels[..n][i], IdField(end));
      if i < n - 1 { assert rels[..n - 1][i] == rels[..n][i]; }
    }
    if id in Orphans(rels[..n - 1], documents, end) {
      var i :| 0 <= i < n - 1 && Truthy(Field(rels[..n - 1][i], IdField(end))) && Field(rels[..n - 1][i], IdField(end)) !in documents
               && id == Field(rels[..n - 1][i], IdField(end));
      assert rels[..n][i] == rels[..n - 1][i];
    }
    if Truthy(Field(rel, IdField(end))) && Field(rel, IdField(end)) !in documents && id == Field(rel, IdField(end)) {
      assert rels[..n][n - 1] == rel;
    }
  }

  /** Some error reports the id of this end as a missing entity. */
  predicate ReportsMissing(errors: seq<Issue>, end: End, id: Value) {
    exists e :: e in errors && e.EntityMissing? && e.end == end && e.id == id
  }

  lemma ReportsMissingAppend(a: seq<Issue>, b: seq<Issue>, end: End, id: Value)
    ensures ReportsMissing(a + b, end, id) <==> ReportsMissing(a, end, id) || ReportsMissing(b, end, id)
  {
    if ReportsMissing(a + b, end, id) {
      var e :| e in a + b && e.EntityMissing? && e.end == end && e.id == id;
    }
  }

  /** An end's check reports its id missing exactly when the id is dangling. */
  lemma EndCheckMissing(rel: Dict, documents: map<Value, Dict>, checked: End, end: End, id: Value)
    ensures ReportsMissing(EndCheck(rel, documents, checked).errors, end, id)
            <==> checked == end && Truthy(Field(rel, IdField(end))) && Field(rel, IdField(end)) !in documents
                 && id == Field(rel, IdField(end))
  {
    var errors := EndCheck(rel, documents, checked).errors;
    if ReportsMissing(errors, end, id) {
      var e :| e in errors && e.EntityMissing? && e.end == end && e.id == id;
    }
  }

  /** A dangling id is reported as a missing entity exactly when it is among the orphans of its end. */
  lemma {:induction false} OrphansAreMissing(rels: seq<Dict>, documents: map<Value, Dict>, n: nat, end: End, id: Value)
    requires n <= |rels|
    ensures id in Orphans(rels[..n], documents, end) <==> ReportsMissing(ReferencesReport(rels, documents, n).errors, end, id)
  {
    if n > 0 {
      OrphansAreMissing(rels, documents, n - 1, end, id);
      OrphansSnoc(rels, documents, n, end, id);
      ReferencesSnoc(rels, documents, n);
      var rel := rels[n - 1];
      var prev := ReferencesReport(rels, documents, n - 1);
      var src, tgt := EndCheck(rel, documents, Source), EndCheck(rel, documents, Target);
      ReportsMissingAppend(prev.errors + src.errors, tgt.errors, end, id);
      ReportsMissingAppend(prev.errors, src.errors, end, id);
      EndCheckMissing(rel, documents, Source, end, id);
      EndCheckMissing(rel, documents, Target, end, id);
    } else {
      assert Orphans(rels[..0], documents, end) == {};
    }
  }

  /** _check_orphaned_relationships: one warning per end with orphans. */
  function OrphanReport(rels: seq<Dict>, documents: map<Value, Dict>): Report {
    var sources, targets := Orphans(rels, documents, Source), Orphans(rels, documents, Target);
    (if sources != {} then Warn(Orphaned(Source, sources)) else Clean)
      .Then(if targets != {} then Warn(Orphaned(Target, targets)) else Clean)
  }

  // -----------------------------------------------------------------------
  // Documents (the indexing step of load_data)

  /** `documents[doc_id] = doc` for every document with a truthy id, in order. */
  function DocumentIndex(docs: seq<Dict>): map<Value, Dict>
    decreases |docs|
  {
    if docs == [] then map[]
    else
      var prev := DocumentIndex(docs[..|docs| - 1]);
      var doc := docs[|docs| - 1];
      if Truthy(Field(doc, "id")) then prev[Field(doc, "id") := doc] else prev
  }

  /** An id is indexed exactly when some document has it, and it maps to the last such document. */
  lemma {:induction false} DocumentIndexLast(docs: seq<Dict>, id: Value)
    ensures id in DocumentIndex(docs) <==> Truthy(id) && exists j :: 0 <= j < |docs| && Field(docs[j], "id") == id
    ensures id in DocumentIndex(docs) ==>
              exists j :: 0 <= j < |docs| && DocumentIndex(docs)[id] == docs[j] && Field(docs[j], "id") == id
                          && forall j' :: j < j' < |docs| ==> Field(docs[j'], "id") != id
    decreases |docs|
  {
    if docs != [] {
      var init, doc := docs[..|docs| - 1], docs[|docs| - 1];
      DocumentIndexLast(init, id);
      if id in DocumentIndex(init) && Field(doc, "id") != id {
        var j :| 0 <= j < |init| && DocumentIndex(init)[id] == init[j] && Field(init[j], "id") == id
                 && forall j' :: j < j' < |init| ==> Field(init[j'], "id") != id;
        assert docs[j] == init[j];
        assert forall j' :: j < j' < |docs| ==> Field(docs[j'], "id") != id by {
          forall j' | j < j' < |docs| ensures Field(docs[j'], "id") != id {
            if j' < |init| { assert docs[j'] == init[j']; }
          }
        }
      }
      if exists j :: 0 <= j < |docs| && Field(docs[j], "id") == id {
        var j :| 0 <= j < |docs| && Field(docs[j], "id") == id;
        if j < |init| { assert init[j] == docs[j]; }
      }
      if exists j :: 0 <= j < |init| && Field(init[j], "id") == id {
        var j :| 0 <= j < |init| && Field(init[j], "id") == id;
        assert docs[j] == init[j];
      }
    }
  }

  // -----------------------------------------------------------------------
  // The validator

  /** Appending two reports one after the other appends their concatenation. */
  lemma Appended(errors: seq<Issue>, warnings: seq<Issue>, a: Report, b: Report)
    ensures errors + a.errors + b.errors == errors + a.Then(b).errors
    ensures warnings + a.warnings + b.warnings == warnings + a.Then(b).warnings
    ensures a.Then(b).errors == [] <==> a.errors == [] && b.errors == []
  {
    assert errors + a.errors + b.errors == errors + (a.errors + b.errors);
    assert warnings + a.warnings + b.warnings == warnings + (a.warnings + b.warnings);
  }

  /** validate_all's checks in order, against the index they run with. */
  function AllReport(rels: seq<Dict>, documents: map<Value, Dict>, index: map<Key, Dict>, validIso: string -> bool): Report {
    StructuresReport(rels, |rels|, validIso)
      .Then(PairsScan(rels, index, |rels|).0)
      .Then(ReferencesReport(rels, documents, |rels|))
      .Then(OrphanReport(rels, documents))
  }

  /** What validate_all demands of each relationship. */
  predicate Consistent(rels: seq<Dict>, documents: map<Value, Dict>, validIso: string -> bool, rel: Dict) {
    WellFormed(rel, validIso) && HasCounterpart(rels, rel) && ResolvesBoth(rel, documents)
  }

  /** validate_all's errors are those of the structure, pair and reference loops, in order. */
  lemma AllErrors(rels: seq<Dict>, documents: map<Value, Dict>, index: map<Key, Dict>, validIso: string -> bool)
    ensures AllReport(rels, documents, index, validIso).errors
            == StructuresReport(rels, |rels|, validIso).errors + PairsScan(rels, index, |rels|).0.errors
               + ReferencesReport(rels, documents, |rels|).errors
  {
  }

  /** validate_all adds no error exactly when every relationship is consistent. */
  lemma AllCleanIff(rels: seq<Dict>, documents: map<Value, Dict>, index: map<Key, Dict>, validIso: string -> bool)
    requires IndexesAll(index, rels)
    ensures AllReport(rels, documents, index, validIso).errors == []
            <==> forall i :: 0 <= i < |rels| ==> Consistent(rels, documents, validIso, rels[i])
  {
    AllErrors(rels, documents, index, validIso);
    StructuresCleanIff(rels, |rels|, validIso);
    PairsCleanIff(rels, index);
    ReferencesCleanIff(rels, documents, |rels|);
  }

  /** When every reference resolves, no id is orphaned, so the orphan check passes too. */
  lemma ResolvedNoOrphans(rels: seq<Dict>, documents: map<Value, Dict>)
    requires ReferencesReport(rels, documents, |rels|).errors == []
    ensures Orphans(rels, documents, Source) == {} && Orphans(rels, documents, Target) == {}
  {
    assert rels[..|rels|] == rels;
    forall end, id ensures id !in Orphans(rels, documents, end) {
      OrphansAreMissing(rels, documents, |rels|, end, id);
    }
  }

  class RelationshipValidator {
    const documents: map<Value, Dict>
    const relationships: seq<Dict>
    var errors: seq<Issue>
    var warnings: seq<Issue>
    var index: map<Key, Dict>

    /** The index only ever files relationships of the list under their own keys. */
    predicate Valid()
      reads this
    {
      EntriesFrom(index, relationships)
    }

    /**
     * __init__ followed by the indexing done by load_data: documents by
     * their truthy ids (a later duplicate wins), and the relationship list.
     */
    constructor(docs: seq<Dict>, rels: seq<Dict>)
      ensures documents == DocumentIndex(docs) && relationships == rels
      ensures errors == [] && warnings == [] && index == map[]
      ensures Valid()
    {
      var m: map<Value, Dict> := map[];
      var i := 0;
      while i < |docs|
        invariant 0 <= i <= |docs|
        invariant m == DocumentIndex(docs[..i])
      {
        var docId := Field(docs[i], "id");
        if Truthy(docId) {
          m := m[docId := docs[i]];
        }
        assert docs[..i + 1][..i] == docs[..i];
        i := i + 1;
      }
      assert docs[..i] == docs;
      documents := m;
      relationships := rels;
      errors := [];
      warnings := [];
      index := map[];
    }

    /** RelationshipValidator._validate_relationship_structure */
    method ValidateStructure(rel: Dict, relId: Value, validIso: string -> bool) returns (ok: bool)
      modifies this
      ensures index == old(index)
      ensures var r := StructureReport(rel, relId, validIso);
        errors == old(errors) + r.errors && warnings == old(warnings) + r.warnings && (ok <==> r.errors == [])
    {
      ok := CheckRequired(rel, relId);
      ghost var missing := MissingReport(rel, relId, RequiredFields);
      var fine := CheckFieldTypes(rel, relId);
      ok := ok && fine;
      ghost var types := FieldTypesReport(rel, relId, TypedFields);
      Appended(old(errors), old(warnings), missing, types);
      ghost var r := missing.Then(types);
      fine := CheckMetadata(rel, relId, validIso);
      ok := ok && fine;
      ghost var md := MetadataCheck(rel, relId, validIso);
      Appended(old(errors), old(warnings), r, md);
      r := r.Then(md);
      CheckIdFormat(rel, relId);
      ghost var fmt := IdFormatCheck(rel, relId);
      Appended(old(errors), old(warnings), r, fmt);
      r := r.Then(fmt);
      assert r == StructureReport(rel, relId, validIso);
    }

    /**
     * The field type checks of _validate_relationship_structure: one check
     * per field of TypedFields, in that order, `type` by its own rule.
     */
    method CheckFieldTypes(rel: Dict, relId: Value) returns (ok: bool)
      modifies this
      ensures index == old(index)
      ensures var r := FieldTypesReport(rel, relId, TypedFields);
        errors == old(errors) + r.errors && warnings == old(warnings) + r.warnings && (ok <==> r.errors == [])
    {
      ok := true;
      var i := 0;
      while i < |TypedFields|
        invariant 0 <= i <= |TypedFields| && index == old(index)
        invariant var r := FieldTypesReport(rel, relId, TypedFields[..i]);
          errors == old(errors) + r.errors && warnings == old(warnings) + r.warnings && (ok <==> r.errors == [])
      {
        ghost var r := FieldTypesReport(rel, relId, TypedFields[..i]);
        var field := TypedFields[i];
        var fine;
        if field == "type" {
          fine := CheckType(rel, relId);
        } else {
          fine := CheckString(rel, relId, field);
        }
        ok := ok && fine;
        Appended(old(errors), old(warnings), r, FieldTypeCheck(rel, relId, field));
        assert TypedFields[..i + 1][..i] == TypedFields[..i];
        i := i + 1;
      }
      assert TypedFields[..i] == TypedFields;
    }

    /** The required-field loop of _validate_relationship_structure. */
    method CheckRequired(rel: Dict, relId: Value) returns (ok: bool)
      modifies this
      ensures index == old(index)
      ensures var r := MissingReport(rel, relId, RequiredFields);
        errors == old(errors) + r.errors && warnings == old(warnings) + r.warnings && (ok <==> r.errors == [])
    {
      ok := true;
      var i := 0;
      while i < |RequiredFields|
        invariant 0 <= i <= |RequiredFields| && index == old(index)
        invariant var r := MissingReport(rel, relId, RequiredFields[..i]);
          errors == old(errors) + r.errors && warnings == old(warnings) + r.warnings && (ok <==> r.errors == [])
      {
        var field := RequiredFields[i];
        if !Has(rel, field) {
          errors := errors + [MissingField(relId, field)];
          ok := false;
        }
        assert RequiredFields[..i + 1][..i] == RequiredFields[..i];
        i := i + 1;
      }
      assert RequiredFields[..i] == RequiredFields;
    }

    /** The "must be string" check of one field. */
    method CheckString(rel: Dict, relId: Value, field: string) returns (ok: bool)
      modifies this
      ensures index == old(index)
      ensures var r := StringCheck(rel, relId, field);
        errors == old(errors) + r.errors && warnings == old(warnings) + r.warnings && (ok <==> r.errors == [])
    {
      ok := true;
      if Has(rel, field) && !Field(rel, field).Str? {
        errors := errors + [NotString(relId, field)];
        ok := false;
      }
    }

    /** The type check: not a string is an error, not in the table a warning. */
    method CheckType(rel: Dict, relId: Value) returns (ok: bool)
      modifies this
      ensures index == old(index)
      ensures var r := TypeCheck(rel, relId);
        errors == old(errors) + r.errors && warnings == old(warnings) + r.warnings && (ok <==> r.errors == [])
    {
      ok := true;
      if Has(rel, "type") {
        if !Field(rel, "type").Str? {
          errors := errors + [NotString(relId, "type")];
          ok := false;
        } else if Field(rel, "type").s !in Bidirectional {
          warnings := warnings + [UnknownType(relId, Field(rel, "type").s)];
        }
      }
    }

    /** The metadata and created_at checks. */
    method CheckMetadata(rel: Dict, relId: Value, validIso: string -> bool) returns (ok: bool)
      modifies this
      ensures index == old(index)
      ensures var r := MetadataCheck(rel, relId, validIso);
        errors == old(errors) + r.errors && warnings == old(warnings) + r.warnings && (ok <==> r.errors == [])
    {
      ok := true;
      if Has(rel, "metadata") {
        var md := Field(rel, "metadata");
        if !md.Obj? {
          errors := errors + [MetadataNotObject(relId)];
          ok := false;
        } else if !Has(md.fields, "created_at") {
          errors := errors + [MissingCreatedAt(relId)];
          ok := false;
        } else {
          var created := Field(md.fields, "created_at");
          if !created.Str? {
            errors := errors + [CreatedAtNotString(relId)];
            ok := false;
          } else if !validIso(created.s) {
            errors := errors + [BadTimestamp(relId)];
            ok := false;
          }
        }
      }
    }

    /** The id-format check, which only warns. */
    method CheckIdFormat(rel: Dict, relId: Value)
      modifies this
      ensures index == old(index)
      ensures var r := IdFormatCheck(rel, relId);
        errors == old(errors) + r.errors && warnings == old(warnings) + r.warnings
    {
      if Has(rel, "id") && Has(rel, "source_id") && Has(rel, "target_id") {
        var expected := ExpectedPrefix(rel);
        if Field(rel, "id").Str? && expected.Some? && !StartsWith(Field(rel, "id").s, expected.value) {
          warnings := warnings + [IdPrefix(relId, expected.value)];
        }
      }
    }

    /** RelationshipValidator._build_relationship_index */
    method BuildIndex()
      requires Valid()
      modifies this
      ensures Valid()
      ensures index == IndexFrom(old(index), relationships)
      ensures errors == old(errors) && warnings == old(warnings)
    {
      var i := 0;
      while i < |relationships|
        invariant 0 <= i <= |relationships|
        invariant index == IndexFrom(old(index), relationships[..i])
        invariant errors == old(errors) && warnings == old(warnings)
      {
        var rel := relationships[i];
        var sourceId, targetId, relType := Field(rel, "source_id"), Field(rel, "target_id"), Field(rel, "type");
        assert relationships[..i + 1][..i] == relationships[..i];
        if Truthy(sourceId) && Truthy(targetId) && Truthy(relType) {
          index := index[(sourceId, targetId, relType) := rel];
        }
        i := i + 1;
      }
      assert relationships[..i] == relationships;
      IndexFromKeys(old(index), relationships);
    }

    /** RelationshipValidator._validate_bidirectional_relationships */
    method ValidatePairs() returns (ok: bool)
      modifies this
      ensures index == old(index)
      ensures var r := PairsScan(relationships, index, |relationships|).0;
        errors == old(errors) + r.errors && warnings == old(warnings) + r.warnings && (ok <==> r.errors == [])
    {
      ok := true;
      var checked: set<Key> := {};
      var i := 0;
      while i < |relationships|
        invariant 0 <= i <= |relationships| && index == old(index)
        invariant var scan := PairsScan(relationships, index, i);
          && checked == scan.1
          && errors == old(errors) + scan.0.errors && warnings == old(warnings) + scan.0.warnings
          && (ok <==> scan.0.errors == [])
      {
        ghost var prev := PairsScan(relationships, index, i);
        ghost var step := PairStep(relationships[i], index, checked);
        var rel := relationships[i];
        var sourceId, targetId, relType := Field(rel, "source_id"), Field(rel, "target_id"), Field(rel, "type");
        if Truthy(sourceId) && Truthy(targetId) && Truthy(relType) {
          var pairKey := (sourceId, targetId, relType);
          if pairKey !in checked {
            var reverseType := ReverseOf(relType);
            if reverseType.Some? {
              var reverseKey := (targetId, sourceId, Str(reverseType.value));
              if reverseKey !in index || index[reverseKey] == [] {
                errors := errors + [MissingPair(RelId(rel), targetId, reverseType.value, sourceId)];
                ok := false;
              } else {
                checked := checked + {pairKey, reverseKey};
                var created, reverseCreated := CreatedAt(rel), CreatedAt(index[reverseKey]);
                if !EntitySchema.PyEq(created, reverseCreated) {
                  warnings := warnings + [TimestampMismatch(RelId(rel), created, reverseCreated)];
                }
              }
            }
          }
        }
        Appended(old(errors), old(warnings), prev.0, step.0);
        i := i + 1;
      }
    }

    /** RelationshipValidator._validate_entity_references */
    method ValidateReferences() returns (ok: bool)
      modifies this
      ensures index == old(index)
      ensures var r := ReferencesReport(relationships, documents, |relationships|);
        errors == old(errors) + r.errors && warnings == old(warnings) + r.warnings && (ok <==> r.errors == [])
    {
      ok := true;
      var i := 0;
      while i < |relationships|
        invariant 0 <= i <= |relationships| && index == old(index)
        invariant var r := ReferencesReport(relationships, documents, i);
          errors == old(errors) + r.errors && warnings == old(warnings) + r.warnings && (ok <==> r.errors == [])
      {
        ghost var prev := ReferencesReport(relationships, documents, i);
        var rel := relationships[i];
        var fine := CheckEnd(rel, Source);
        ok := ok && fine;
        Appended(old(errors), old(warnings), prev, EndCheck(rel, documents, Source));
        fine := CheckEnd(rel, Target);
        ok := ok && fine;
        Appended(old(errors), old(warnings), prev.Then(EndCheck(rel, documents, Source)), EndCheck(rel, documents, Target));
        i := i + 1;
      }
    }

    /** The source or target half of one iteration of _validate_entity_references. */
    method CheckEnd(rel: Dict, end: End) returns (ok: bool)
      modifies this
      ensures index == old(index)
      ensures var r := EndCheck(rel, documents, end);
        errors == old(errors) + r.errors && warnings == old(warnings) + r.warnings && (ok <==> r.errors == [])
    {
      ok := true;
      var id, declared := Field(rel, IdField(end)), Field(rel, TypeField(end));
      if Truthy(id) && id !in documents {
        errors := errors + [EntityMissing(RelId(rel), end, id)];
        ok := false;
      } else if Truthy(id) && Truthy(declared) {
        var actual := Field(documents[id], "type");
        if !EntitySchema.PyEq(actual, declared) {
          errors := errors + [TypeMismatch(RelId(rel), end, declared, actual)];
          ok := false;
        }
      }
    }

    /** RelationshipValidator._check_orphaned_relationships */
    method CheckOrphans() returns (ok: bool)
      modifies this
      ensures index == old(index) && errors == old(errors)
      ensures warnings == old(warnings) + OrphanReport(relationships, documents).warnings
      ensures ok <==> Orphans(relationships, documents, Source) == {} && Orphans(relationships, documents, Target) == {}
    {
      var sources: set<Value> := {};
      var targets: set<Value> := {};
      var i := 0;
      while i < |relationships|
        invariant 0 <= i <= |relationships|
        invariant sources == Orphans(relationships[..i], documents, Source)
        invariant targets == Orphans(relationships[..i], documents, Target)
      {
        var sourceId, targetId := Field(relationships[i], "source_id"), Field(relationships[i], "target_id");
        if Truthy(sourceId) && sourceId !in documents {
          sources := sources + {sourceId};
        }
        if Truthy(targetId) && targetId !in documents {
          targets := targets + {targetId};
        }
        forall id ensures id in sources <==> id in Orphans(relationships[..i + 1], documents, Source) {
          OrphansSnoc(relationships, documents, i + 1, Source, id);
        }
        forall id ensures id in targets <==> id in Orphans(relationships[..i + 1], documents, Target) {
          OrphansSnoc(relationships, documents, i + 1, Target, id);
        }
        i := i + 1;
      }
      assert relationships[..i] == relationships;
      if sources != {} || targets != {} {
        if sources != {} {
          warnings := warnings + [Orphaned(Source, sources)];
        }
        if targets != {} {
          warnings := warnings + [Orphaned(Target, targets)];
        }
        return false;
      }
      return true;
    }

    /** The structure loop of validate_all, reporting each relationship under its id or position. */
    method ValidateStructures(validIso: string -> bool) returns (ok: bool)
      modifies this
      ensures index == old(index)
      ensures var r := StructuresReport(relationships, |relationships|, validIso);
        errors == old(errors) + r.errors && warnings == old(warnings) + r.warnings && (ok <==> r.errors == [])
    {
      ok := true;
      var i := 0;
      while i < |relationships|
        invariant 0 <= i <= |relationships| && index == old(index)
        invariant var r := StructuresReport(relationships, i, validIso);
          errors == old(errors) + r.errors && warnings == old(warnings) + r.warnings && (ok <==> r.errors == [])
      {
        ok := ValidateStructureAt(i, validIso, old(errors), old(warnings), ok);
        i := i + 1;
      }
    }

    /** One pass of the structure loop: the relationship at position `i`, under its id or position. */
    method ValidateStructureAt(i: nat, validIso: string -> bool, ghost errors0: seq<Issue>, ghost warnings0: seq<Issue>,
                               okBefore: bool) returns (ok: bool)
      requires i < |relationships|
      requires var r := StructuresReport(relationships, i, validIso);
        errors == errors0 + r.errors && warnings == warnings0 + r.warnings && (okBefore <==> r.errors == [])
      modifies this
      ensures index == old(index)
      ensures var r := StructuresReport(relationships, i + 1, validIso);
        errors == errors0 + r.errors && warnings == warnings0 + r.warnings && (ok <==> r.errors == [])
    {
      var rel := relationships[i];
      var relId := StructureId(rel, i);
      ghost var prev := StructuresReport(relationships, i, validIso);
      var fine := ValidateStructure(rel, relId, validIso);
      ok := okBefore && fine;
      Appended(errors0, warnings0, prev, StructureReport(rel, relId, validIso));
      StructuresStep(relationships, i, validIso);
    }

    /**
     * RelationshipValidator.validate_all: the checks in order, each one
     * running to the end. It passes exactly when every relationship is
     * well-formed, has its reverse edge and points at existing documents
     * of the declared types.
     */
    method ValidateAll(validIso: string -> bool) returns (ok: bool)
      requires Valid()
      modifies this
      ensures Valid()
      ensures index == IndexFrom(old(index), relationships) && IndexesAll(index, relationships)
      ensures var r := AllReport(relationships, documents, index, validIso);
        errors == old(errors) + r.errors && warnings == old(warnings) + r.warnings
      ensures ok <==> errors == old(errors)
      ensures ok <==> forall i :: 0 <= i < |relationships| ==> Consistent(relationships, documents, validIso, relationships[i])
    {
      ok := ValidateStructures(validIso);
      ghost var structures := StructuresReport(relationships, |relationships|, validIso);

      BuildIndex();
      IndexFromIndexes(old(index), relationships);

      var fine := ValidatePairs();
      ok := ok && fine;
      ghost var pairs := PairsScan(relationships, index, |relationships|).0;
      Appended(old(errors), old(warnings), structures, pairs);

      fine := ValidateReferences();
      ok := ok && fine;
      ghost var references := ReferencesReport(relationships, documents, |relationships|);
      Appended(old(errors), old(warnings), structures.Then(pairs), references);

      fine := CheckOrphans();
      ok := ok && fine;
      Appended(old(errors), old(warnings), structures.Then(pairs).Then(references), OrphanReport(relationships, documents));
      AllErrors(relationships, documents, index, validIso);
      AllCleanIff(relationships, documents, index, validIso);
      if references.errors == [] {
        ResolvedNoOrphans(relationships, documents);
      }
    }
  }
}
