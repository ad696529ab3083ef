/**
 * EntitySchemaValidator (tests/test_entity_schema.py): checks documents
 * against a declarative schema loaded from YAML, appending an error or a
 * warning for each violation and going on, so that one pass reports every
 * violating field. The schema comes in as typed records, one per field
 * schema dict; `re.match` with the schema's own patterns is a general
 * regular-expression engine and comes in as the parameter `matches`.
 */
module EntitySchema {
  import opened Text
  import opened Values

  /** The errors and warnings one part of the validation appends, in order. */
  datatype Report = Report(errors: seq<string>, warnings: seq<string>) {
    function Then(other: Report): Report {
      Report(errors + other.errors, warnings + other.warnings)
    }
  }

  const Clean := Report([], [])

  function Error(message: string): Report {
    Report([message], [])
  }

  // -----------------------------------------------------------------------
  // Schemas

  /** The `type` key of a field schema: absent (or None), one type, or a list of alternatives. */
  datatype TypeSpec = Untyped | OneType(name: Value) | AnyOf(names: seq<string>)

  /**
   * One field schema dict. `required` and `nullable` are their truth values
   * (False when absent); `format` is Null when absent; the options are
   * None when the key is absent.
   */
  datatype FieldSchema = FieldSchema(
    typeSpec: TypeSpec,
    required: bool,
    nullable: bool,
    enumValues: Option<seq<Value>>,
    pattern: Option<string>,
    minLength: Option<int>,
    format: Value,
    fields: Option<Fields>,
    itemSchema: Option<FieldSchema>)

  /** The fields of one schema level, in the YAML's order. */
  datatype Fields = Fields(entries: seq<(string, FieldSchema)>)

  /** `type` is "object" and `fields` is present: nested fields to validate. */
  predicate HasNested(fieldSchema: FieldSchema) {
    fieldSchema.typeSpec == OneType(Str("object")) && fieldSchema.fields.Some?
  }

  /** `type` is "array" and `item_schema` is present: items to validate. */
  predicate HasItems(fieldSchema: FieldSchema) {
    fieldSchema.typeSpec == OneType(Str("array")) && fieldSchema.itemSchema.Some?
  }

  // -----------------------------------------------------------------------
  // Types

  /** _check_type: the six known type names, `bool` counting as an integer and ints as floats; anything else passes. */
  predicate CheckType(value: Value, typeName: Value) {
    if !typeName.Str? then true
    else
      match typeName.s
      case "string" => value.Str?
      case "integer" => value.Int? || value.Bool?
      case "float" => value.Int? || value.Float? || value.Bool?
      case "boolean" => value.Bool?
      case "array" => value.List?
      case "object" => value.Obj?
      case _ => true
  }

  /** Some alternative of the list accepts the value. */
  predicate AnyTypeMatches(value: Value, names: seq<string>) {
    exists k :: 0 <= k < |names| && CheckType(value, Str(names[k]))
  }

  /** `str(v)` as the messages show it; a float, list or dict is shown by its type name. */
  function Render(v: Value): string {
    match Show(v)
    case Some(s) => s
    case None => "<" + TypeName(v) + ">"
  }

  /** The values of an enum as the message lists them. */
  function RenderAll(xs: seq<Value>): seq<string> {
    if xs == [] then [] else [Render(xs[0])] + RenderAll(xs[1..])
  }

  /** _validate_type: at most one error, and none exactly when the value has (one of) the declared type(s). */
  function TypeReport(value: Value, fieldSchema: FieldSchema, path: string): (r: Report)
    ensures r.warnings == [] && |r.errors| <= 1
    ensures r.errors == [] <==> match fieldSchema.typeSpec
                                case Untyped => true
                                case OneType(t) => CheckType(value, t)
                                case AnyOf(ts) => AnyTypeMatches(value, ts)
  {
    match fieldSchema.typeSpec
    case Untyped => Clean
    case AnyOf(ts) =>
      if AnyTypeMatches(value, ts) then Clean
      else Error(path + ": Must be " + Join(ts, "/") + ", got " + TypeName(value))
    case OneType(t) =>
      if CheckType(value, t) then Clean
      else Error(path + ": Must be " + Render(t) + ", got " + TypeName(value))
  }

  // -----------------------------------------------------------------------
  // Constraints

  /** Python `==` between loaded values: numbers (and booleans) compare by value. */
  predicate PyEq(a: Value, b: Value) {
    if Numeric(a).Some? && Numeric(b).Some? then Numeric(a) == Numeric(b) else a == b
  }

  function Numeric(v: Value): Option<real> {
    match v
    case Bool(b) => Some(if b then 1.0 else 0.0)
    case Int(i) => Some(i as real)
    case Float(f) => Some(f)
    case _ => None
  }

  /** `value in enum`. */
  predicate InEnum(value: Value, xs: seq<Value>) {
    exists k :: 0 <= k < |xs| && PyEq(value, xs[k])
  }

  /** `^\d{4}-\d{2}-\d{2}T\d{2}:\d{2}:\d{2}` at the start of `s`. */
  predicate IsoPrefix(s: string) {
    && |s| >= 19
    && (forall k :: k in {0, 1, 2, 3, 5, 6, 8, 9, 11, 12, 14, 15, 17, 18} ==> IsDigit(s[k]))
    && s[4] == '-' && s[7] == '-' && s[10] == 'T' && s[13] == ':' && s[16] == ':'
  }

  /** The constraint checks that fail the field. */
  predicate ConstraintsHold(value: Value, fieldSchema: FieldSchema, matches: (string, string) -> bool) {
    && (fieldSchema.enumValues.Some? ==> InEnum(value, fieldSchema.enumValues.value))
    && (fieldSchema.pattern.Some? && value.Str? ==> matches(fieldSchema.pattern.value, value.s))
    && (fieldSchema.format == Str("iso8601") && value.Str? ==> IsoPrefix(value.s))
  }

  /** _validate_constraints: enum, pattern and ISO 8601 misses are errors; a short string is only a warning. */
  function ConstraintsReport(value: Value, fieldSchema: FieldSchema, path: string, matches: (string, string) -> bool): (r: Report)
    ensures r.errors == [] <==> ConstraintsHold(value, fieldSchema, matches)
    ensures |r.warnings| <= 1
    ensures r.warnings != [] <==> fieldSchema.minLength.Some? && value.Str? && |value.s| < fieldSchema.minLength.value
  {
    var enumReport :=
      match fieldSchema.enumValues
      case None => Clean
      case Some(xs) =>
        if InEnum(value, xs) then Clean
        else Error(path + ": Must be one of [" + Join(RenderAll(xs), ", ")
                   + "], got '" + Render(value) + "'");
    var patternReport :=
      if fieldSchema.pattern.Some? && value.Str? then
        var pattern := fieldSchema.pattern.value;
        if matches(pattern, value.s) then Clean else Error(path + ": Does not match pattern '" + pattern + "'")
      else Clean;
    var lengthReport :=
      if fieldSchema.minLength.Some? && value.Str? && |value.s| < fieldSchema.minLength.value then
        Report([], [path + ": Length " + NatToString(|value.s|) + " is less than minimum "
                    + IntToString(fieldSchema.minLength.value)])
      else Clean;
    var formatReport :=
      if fieldSchema.format == Str("iso8601") && value.Str? && !IsoPrefix(value.s) then
        Error(path + ": Not a valid ISO 8601 timestamp")
      else Clean;
    enumReport.Then(patternReport).Then(lengthReport).Then(formatReport)
  }

  // -----------------------------------------------------------------------
  // Fields

  /** The path of a field below `path`, and the same prefixed by the document id. */
  function CurrentPath(path: string, name: string): string {
    if path != "" then path + "." + name else name
  }

  function FullPath(docId: string, current: string): string {
    if current != "" then docId + "." + current else docId
  }

  /** The path of an array item, and the message for an item that is not a dict. */
  function ItemPath(current: string, index: nat): string {
    current + "[" + NatToString(index) + "]"
  }

  function NotObjectMessage(docId: string, itemPath: string): string {
    docId + "." + itemPath + ": Must be object"
  }

  /** `data.get(name) is None`: the field is absent or None. */
  predicate Missing(data: seq<(string, Value)>, name: string) {
    Lookup(data, name).None? || Lookup(data, name).value.Null?
  }

  /** The report for the first `n` fields of `schema` on the dict `data`: every field's report, in schema order. */
  function FieldsReport(data: seq<(string, Value)>, schema: Fields, n: nat, docId: string, path: string,
                        matches: (string, string) -> bool): Report
    requires n <= |schema.entries|
    decreases schema, 0, n
  {
    if n == 0 then Clean
    else
      FieldsReport(data, schema, n - 1, docId, path, matches)
        .Then(FieldReport(data, schema.entries[n - 1].0, schema.entries[n - 1].1, docId, path, matches))
  }

  /** The report for all fields of `schema`. */
  function AllFieldsReport(data: seq<(string, Value)>, schema: Fields, docId: string, path: string,
                           matches: (string, string) -> bool): Report
    decreases schema, 1, 0
  {
    FieldsReport(data, schema, |schema.entries|, docId, path, matches)
  }

  /** The report for one field: a missing one, or a present one. */
  function FieldReport(data: seq<(string, Value)>, name: string, fieldSchema: FieldSchema, docId: string, path: string,
                       matches: (string, string) -> bool): Report
    decreases fieldSchema, 3, 0
  {
    if Missing(data, name) then MissingReport(fieldSchema, FullPath(docId, CurrentPath(path, name)))
    else PresentReport(Lookup(data, name).value, fieldSchema, docId, CurrentPath(path, name), matches)
  }

  /** A missing or None field: an error only when it is required and not nullable. */
  function MissingReport(fieldSchema: FieldSchema, full: string): Report {
    if fieldSchema.required && !fieldSchema.nullable then Error(full + ": Missing required field") else Clean
  }

  /** A present field: its type, nested fields, array items and constraints, in that order. */
  function PresentReport(value: Value, fieldSchema: FieldSchema, docId: string, current: string,
                         matches: (string, string) -> bool): Report
    decreases fieldSchema, 2, 0
  {
    var full := FullPath(docId, current);
    TypeReport(value, fieldSchema, full)
      .Then(NestedReport(value, fieldSchema, docId, current, matches))
      .Then(ArrayReport(value, fieldSchema, docId, current, matches))
      .Then(ConstraintsReport(value, fieldSchema, full, matches))
  }

  /** The nested fields of an object-typed field whose value is a dict. */
  function NestedReport(value: Value, fieldSchema: FieldSchema, docId: string, current: string,
                        matches: (string, string) -> bool): Report
    decreases fieldSchema, 1, 0
  {
    if HasNested(fieldSchema) && value.Obj? then AllFieldsReport(value.fields, fieldSchema.fields.value, docId, current, matches)
    else Clean
  }

  /** The items of an array-typed field whose value is a list. */
  function ArrayReport(value: Value, fieldSchema: FieldSchema, docId: string, current: string,
                       matches: (string, string) -> bool): Report
    decreases fieldSchema, 1, 0
  {
    if HasItems(fieldSchema) && value.List? then
      ItemsReport(value.items, |value.items|, fieldSchema.itemSchema.value, docId, current, matches)
    else Clean
  }

  /** The first `n` items of an array against its item schema. */
  function ItemsReport(items: seq<Value>, n: nat, itemSchema: FieldSchema, docId: string, current: string,
                       matches: (string, string) -> bool): Report
    requires n <= |items|
    decreases itemSchema, 1, n
  {
    if n == 0 then Clean
    else ItemsReport(items, n - 1, itemSchema, docId, current, matches).Then(ItemReport(items[n - 1], n - 1, itemSchema, docId, current, matches))
  }

  /** One array item: under an object item schema a dict is validated against the nested fields, anything else is an error. */
  function ItemReport(item: Value, index: nat, itemSchema: FieldSchema, docId: string, current: string,
                      matches: (string, string) -> bool): Report
    decreases itemSchema, 0, 0
  {
    if !HasNested(itemSchema) then Clean
    else if item.Obj? then AllFieldsReport(item.fields, itemSchema.fields.value, docId, ItemPath(current, index), matches)
    else Error(NotObjectMessage(docId, ItemPath(current, index)))
  }

  // -----------------------------------------------------------------------
  // What the reports promise

  /** A missing or None field is an error exactly when it is required and not nullable, and then only that one error. */
  lemma MissingFieldReport(data: seq<(string, Value)>, name: string, fieldSchema: FieldSchema, docId: string, path: string,
                           matches: (string, string) -> bool)
    requires Missing(data, name)
    ensures var r := FieldReport(data, name, fieldSchema, docId, path, matches);
      && r.warnings == []
      && (r.errors != [] <==> fieldSchema.required && !fieldSchema.nullable)
      && (r.errors != [] ==> r.errors == [FullPath(docId, CurrentPath(path, name)) + ": Missing required field"])
  {
  }

  lemma FieldsReportStep(data: seq<(string, Value)>, schema: Fields, n: nat, docId: string, path: string,
                         matches: (string, string) -> bool)
    requires 0 < n <= |schema.entries|
    ensures var r := FieldsReport(data, schema, n, docId, path, matches);
            var prev := FieldsReport(data, schema, n - 1, docId, path, matches);
            var last := FieldReport(data, schema.entries[n - 1].0, schema.entries[n - 1].1, docId, path, matches);
            r.errors == prev.errors + last.errors && r.warnings == prev.warnings + last.warnings
  {
  }

  /** What a report `x` contributes to `prev` or to `last` it contributes to their concatenation `r`. */
  lemma ReportedThen(x: Report, prev: Report, last: Report, r: Report)
    requires r.errors == prev.errors + last.errors && r.warnings == prev.warnings + last.warnings
    requires x == last || ((forall e :: e in x.errors ==> e in prev.errors)
                           && (forall w :: w in x.warnings ==> w in prev.warnings)
                           && (prev.errors == [] ==> x.errors == []))
    ensures forall e :: e in x.errors ==> e in r.errors
    ensures forall w :: w in x.warnings ==> w in r.warnings
    ensures r.errors == [] ==> x.errors == []
  {
  }

  /** Validation goes on after a failure: the errors and warnings of every field appear in the report of the fields. */
  lemma {:induction false} FieldReported(data: seq<(string, Value)>, schema: Fields, n: nat, docId: string, path: string,
                                         matches: (string, string) -> bool, k: nat)
    requires k < n <= |schema.entries|
    ensures var f := FieldReport(data, schema.entries[k].0, schema.entries[k].1, docId, path, matches);
            var r := FieldsReport(data, schema, n, docId, path, matches);
            && (forall e :: e in f.errors ==> e in r.errors)
            && (forall w :: w in f.warnings ==> w in r.warnings)
            && (r.errors == [] ==> f.errors == [])
    decreases n
  {
    var r := FieldsReport(data, schema, n, docId, path, matches);
    var prev := FieldsReport(data, schema, n - 1, docId, path, matches);
    var last := FieldReport(data, schema.entries[n - 1].0, schema.entries[n - 1].1, docId, path, matches);
    var f := FieldReport(data, schema.entries[k].0, schema.entries[k].1, docId, path, matches);
    FieldsReportStep(data, schema, n, docId, path, matches);
    if k < n - 1 {
      FieldReported(data, schema, n - 1, docId, path, matches, k);
      ReportedThen(f, prev, last, r);
    } else {
      ReportedThen(f, prev, last, r);
    }
  }

  /** The fields are clean exactly when every field is. */
  lemma FieldsCleanIff(data: seq<(string, Value)>, schema: Fields, n: nat, docId: string, path: string,
                       matches: (string, string) -> bool)
    requires n <= |schema.entries|
    ensures FieldsReport(data, schema, n, docId, path, matches).errors == []
            <==> forall k :: 0 <= k < n ==> FieldReport(data, schema.entries[k].0, schema.entries[k].1, docId, path, matches).errors == []
  {
    if FieldsReport(data, schema, n, docId, path, matches).errors == [] {
      forall k | 0 <= k < n
        ensures FieldReport(data, schema.entries[k].0, schema.entries[k].1, docId, path, matches).errors == []
      {
        FieldReported(data, schema, n, docId, path, matches, k);
      }
    } else {
      DirtyFieldsSomeDirty(data, schema, n, docId, path, matches);
    }
  }

  lemma {:induction false} DirtyFieldsSomeDirty(data: seq<(string, Value)>, schema: Fields, n: nat, docId: string, path: string,
                                                matches: (string, string) -> bool)
    requires n <= |schema.entries|
    ensures FieldsReport(data, schema, n, docId, path, matches).errors != [] ==>
              exists k :: 0 <= k < n && FieldReport(data, schema.entries[k].0, schema.entries[k].1, docId, path, matches).errors != []
    decreases n
  {
    if n > 0 {
      DirtyFieldsSomeDirty(data, schema, n - 1, docId, path, matches);
      FieldsReportStep(data, schema, n, docId, path, matches);
    }
  }

  /** An unknown type name accepts every value, and "float" accepts integers. */
  lemma UnknownTypePasses(value: Value, fieldSchema: FieldSchema, path: string)
    requires fieldSchema.typeSpec.OneType? && fieldSchema.typeSpec.name.Str?
    requires fieldSchema.typeSpec.name.s !in ["string", "integer", "float", "boolean", "array", "object"]
      || (fieldSchema.typeSpec.name.s == "float" && value.Int?)
    ensures TypeReport(value, fieldSchema, path) == Clean
  {
  }

  /** Under an object item schema, every item of an array that is not a dict is reported as "Must be object". */
  lemma {:induction false} NonObjectItemReported(items: seq<Value>, n: nat, itemSchema: FieldSchema, docId: string, current: string,
                                                 matches: (string, string) -> bool, k: nat)
    requires n <= |items| && HasNested(itemSchema)
    requires k < n && !items[k].Obj?
    ensures NotObjectMessage(docId, ItemPath(current, k)) in ItemsReport(items, n, itemSchema, docId, current, matches).errors
    decreases n
  {
    var r := ItemsReport(items, n, itemSchema, docId, current, matches);
    var prev := ItemsReport(items, n - 1, itemSchema, docId, current, matches);
    var last := ItemReport(items[n - 1], n - 1, itemSchema, docId, current, matches);
    assert r.errors == prev.errors + last.errors;
    if k < n - 1 {
      NonObjectItemReported(items, n - 1, itemSchema, docId, current, matches, k);
    } else {
      assert last.errors == [NotObjectMessage(docId, ItemPath(current, k))];
    }
  }

  /** A nested dict is validated against the nested fields under the field's own path, whatever its type check says. */
  lemma NestedFieldsValidated(data: seq<(string, Value)>, name: string, fieldSchema: FieldSchema, docId: string, path: string,
                              matches: (string, string) -> bool)
    requires HasNested(fieldSchema) && Lookup(data, name).Some? && Lookup(data, name).value.Obj?
    ensures var nested := AllFieldsReport(Lookup(data, name).value.fields, fieldSchema.fields.value, docId, CurrentPath(path, name), matches);
            var r := FieldReport(data, name, fieldSchema, docId, path, matches);
            && (forall e :: e in nested.errors ==> e in r.errors)
            && (nested.errors != [] ==> r.errors != [])
  {
    var value := Lookup(data, name).value;
    var current := CurrentPath(path, name);
    assert FieldReport(data, name, fieldSchema, docId, path, matches) == PresentReport(value, fieldSchema, docId, current, matches);
    assert NestedReport(value, fieldSchema, docId, current, matches)
        == AllFieldsReport(value.fields, fieldSchema.fields.value, docId, current, matches);
  }

  // -----------------------------------------------------------------------
  // The validator

  /** A loaded schema: its entity type and the four tiers, each present or not. */
  datatype Schema = Schema(entityType: Value, root: Option<Fields>, tier1: Option<Fields>, tier2: Option<Fields>, tier3: Option<Fields>)

  /** The tiers in the order validate_document checks them. */
  function Tiers(schema: Schema): seq<Option<Fields>> {
    [schema.root, schema.tier1, schema.tier2, schema.tier3]
  }

  /** The document id the messages use: the `id` field, or "document[i]". */
  function DocumentId(doc: Value, docIndex: nat): string {
    match Get(doc, "id")
    case Some(v) => Render(v)
    case None => "document[" + NatToString(docIndex) + "]"
  }

  /** The report validate_document produces for the first `n` tiers. */
  function DocumentReport(doc: seq<(string, Value)>, schema: Schema, n: nat, docId: string, matches: (string, string) -> bool): Report
    requires n <= 4
  {
    if n == 0 then Clean
    else
      var prev := DocumentReport(doc, schema, n - 1, docId, matches);
      match Tiers(schema)[n - 1]
      case Some(tier) => prev.Then(AllFieldsReport(doc, tier, docId, "", matches))
      case None => prev
  }

  /** Appending two reports one after the other appends their concatenation. */
  lemma Appended(errors: seq<string>, warnings: seq<string>, a: Report, b: Report)
    ensures errors + a.errors + b.errors == errors + a.Then(b).errors
    ensures warnings + a.warnings + b.warnings == warnings + a.Then(b).warnings
    ensures a.Then(b).errors == [] <==> a.errors == [] && b.errors == []
  {
    assert errors + a.errors + b.errors == errors + (a.errors + b.errors);
    assert warnings + a.warnings + b.warnings == warnings + (a.warnings + b.warnings);
  }

  class EntitySchemaValidator {
    const schema: Schema
    const entityType: Value
    var errors: seq<string>
    var warnings: seq<string>

    /** The validator for a loaded schema, with no errors or warnings yet. */
    constructor(schema: Schema)
      ensures this.schema == schema && entityType == schema.entityType
      ensures errors == [] && warnings == []
    {
      this.schema := schema;
      entityType := schema.entityType;
      errors := [];
      warnings := [];
    }

    /** EntitySchemaValidator._validate_type */
    method ValidateType(value: Value, fieldSchema: FieldSchema, path: string) returns (ok: bool)
      modifies this
      ensures errors == old(errors) + TypeReport(value, fieldSchema, path).errors && warnings == old(warnings)
      ensures ok <==> TypeReport(value, fieldSchema, path).errors == []
    {
      match fieldSchema.typeSpec {
        case Untyped =>
          return true;
        case AnyOf(ts) =>
          var typeMatch := false;
          var i := 0;
          while i < |ts|
            invariant 0 <= i <= |ts|
            invariant typeMatch <==> exists k :: 0 <= k < i && CheckType(value, Str(ts[k]))
          {
            if CheckType(value, Str(ts[i])) {
              typeMatch := true;
              break;
            }
            i := i + 1;
          }
          if !typeMatch {
            errors := errors + [path + ": Must be " + Join(ts, "/") + ", got " + TypeName(value)];
            return false;
          }
          return true;
        case OneType(t) =>
          if !CheckType(value, t) {
            errors := errors + [path + ": Must be " + Render(t) + ", got " + TypeName(value)];
            return false;
          }
          return true;
      }
    }

    /** EntitySchemaValidator._validate_constraints */
    method ValidateConstraints(value: Value, fieldSchema: FieldSchema, path: string, matches: (string, string) -> bool)
      returns (ok: bool)
      modifies this
      ensures var r := ConstraintsReport(value, fieldSchema, path, matches);
        errors == old(errors) + r.errors && warnings == old(warnings) + r.warnings && (ok <==> r.errors == [])
    {
      var r := ConstraintsReport(value, fieldSchema, path, matches);
      errors := errors + r.errors;
      warnings := warnings + r.warnings;
      ok := r.errors == [];
    }

    /** EntitySchemaValidator._validate_fields */
    method ValidateFields(data: seq<(string, Value)>, schema: Fields, docId: string, path: string,
                          matches: (string, string) -> bool) returns (ok: bool)
      modifies this
      ensures var r := AllFieldsReport(data, schema, docId, path, matches);
        errors == old(errors) + r.errors && warnings == old(warnings) + r.warnings && (ok <==> r.errors == [])
      decreases schema, 1, 0
    {
      ok := true;
      var i := 0;
      while i < |schema.entries|
        invariant 0 <= i <= |schema.entries|
        invariant var r := FieldsReport(data, schema, i, docId, path, matches);
          errors == old(errors) + r.errors && warnings == old(warnings) + r.warnings && (ok <==> r.errors == [])
      {
        var name, fieldSchema := schema.entries[i].0, schema.entries[i].1;
        ghost var before := FieldsReport(data, schema, i, docId, path, matches);
        var fieldOk := ValidateField(data, name, fieldSchema, docId, path, matches);
        ghost var field := FieldReport(data, name, fieldSchema, docId, path, matches);
        Appended(old(errors), old(warnings), before, field);
        assert FieldsReport(data, schema, i + 1, docId, path, matches) == before.Then(field);
        ok := ok && fieldOk;
        i := i + 1;
      }
    }

    /** One iteration of the loop of _validate_fields. */
    method ValidateField(data: seq<(string, Value)>, name: string, fieldSchema: FieldSchema, docId: string, path: string,
                         matches: (string, string) -> bool) returns (ok: bool)
      modifies this
      ensures var r := FieldReport(data, name, fieldSchema, docId, path, matches);
        errors == old(errors) + r.errors && warnings == old(warnings) + r.warnings && (ok <==> r.errors == [])
      decreases fieldSchema, 3, 0
    {
      var current := CurrentPath(path, name);
      if Missing(data, name) {
        ok := true;
        if fieldSchema.required && !fieldSchema.nullable {
          errors := errors + [FullPath(docId, current) + ": Missing required field"];
          ok := false;
        }
      } else {
        ok := ValidatePresent(Lookup(data, name).value, fieldSchema, docId, current, matches);
      }
    }

    /** The rest of the loop body of _validate_fields, for a field that is present. */
    method ValidatePresent(value: Value, fieldSchema: FieldSchema, docId: string, current: string,
                           matches: (string, string) -> bool) returns (ok: bool)
      modifies this
      ensures var r := PresentReport(value, fieldSchema, docId, current, matches);
        errors == old(errors) + r.errors && warnings == old(warnings) + r.warnings && (ok <==> r.errors == [])
      decreases fieldSchema, 2, 0
    {
      var full := FullPath(docId, current);
      ok := ValidateType(value, fieldSchema, full);
      ghost var r := TypeReport(value, fieldSchema, full);
      assert errors == old(errors) + r.errors && warnings == old(warnings) + r.warnings;
      ghost var nested := NestedReport(value, fieldSchema, docId, current, matches);
      if HasNested(fieldSchema) && value.Obj? {
        var nestedOk := ValidateFields(value.fields, fieldSchema.fields.value, docId, current, matches);
        ok := ok && nestedOk;
      }
      Appended(old(errors), old(warnings), r, nested);
      r := r.Then(nested);
      assert errors == old(errors) + r.errors && warnings == old(warnings) + r.warnings;
      ghost var items := ArrayReport(value, fieldSchema, docId, current, matches);
      if HasItems(fieldSchema) && value.List? {
        var itemsOk := ValidateItems(value.items, fieldSchema.itemSchema.value, docId, current, matches);
        ok := ok && itemsOk;
      }
      Appended(old(errors), old(warnings), r, items);
      r := r.Then(items);
      assert errors == old(errors) + r.errors && warnings == old(warnings) + r.warnings;
      var constraintsOk := ValidateConstraints(value, fieldSchema, full, matches);
      ghost var constraints := ConstraintsReport(value, fieldSchema, full, matches);
      Appended(old(errors), old(warnings), r, constraints);
      ghost var whole := r.Then(constraints);
      assert errors == old(errors) + whole.errors && warnings == old(warnings) + whole.warnings;
      assert whole == PresentReport(value, fieldSchema, docId, current, matches);
      ok := ok && constraintsOk;
    }

    /** The array-item loop of _validate_fields. */
    method ValidateItems(items: seq<Value>, itemSchema: FieldSchema, docId: string, current: string,
                         matches: (string, string) -> bool) returns (ok: bool)
      modifies this
      ensures var r := ItemsReport(items, |items|, itemSchema, docId, current, matches);
        errors == old(errors) + r.errors && warnings == old(warnings) + r.warnings && (ok <==> r.errors == [])
      decreases itemSchema, 1, |items| + 1
    {
      ok := true;
      var i := 0;
      while i < |items|
        invariant 0 <= i <= |items|
        invariant var r := ItemsReport(items, i, itemSchema, docId, current, matches);
          errors == old(errors) + r.errors && warnings == old(warnings) + r.warnings && (ok <==> r.errors == [])
      {
        ghost var before := ItemsReport(items, i, itemSchema, docId, current, matches);
        ghost var item := ItemReport(items[i], i, itemSchema, docId, current, matches);
        var itemPath := ItemPath(current, i);
        if HasNested(itemSchema) {
          if items[i].Obj? {
            var itemOk := ValidateFields(items[i].fields, itemSchema.fields.value, docId, itemPath, matches);
            ok := ok && itemOk;
          } else {
            errors := errors + [NotObjectMessage(docId, itemPath)];
            ok := false;
          }
        }
        Appended(old(errors), old(warnings), before, item);
        assert ItemsReport(items, i + 1, itemSchema, docId, current, matches) == before.Then(item);
        i := i + 1;
      }
    }

    /** EntitySchemaValidator.validate_document */
    method ValidateDocument(doc: Value, docIndex: nat, matches: (string, string) -> bool) returns (ok: bool)
      requires doc.Obj?
      modifies this
      ensures var r := DocumentReport(doc.fields, schema, 4, DocumentId(doc, docIndex), matches);
        errors == old(errors) + r.errors && warnings == old(warnings) + r.warnings && (ok <==> r.errors == [])
    {
      var docId := DocumentId(doc, docIndex);
      var tiers := Tiers(schema);
      ok := true;
      var i := 0;
      while i < 4
        invariant 0 <= i <= 4
        invariant var r := DocumentReport(doc.fields, schema, i, docId, matches);
          errors == old(errors) + r.errors && warnings == old(warnings) + r.warnings && (ok <==> r.errors == [])
      {
        ghost var before := DocumentReport(doc.fields, schema, i, docId, matches);
        if tiers[i].Some? {
          var tierOk := ValidateFields(doc.fields, tiers[i].value, docId, "", matches);
          Appended(old(errors), old(warnings), before, AllFieldsReport(doc.fields, tiers[i].value, docId, "", matches));
          ok := ok && tierOk;
        }
        i := i + 1;
      }
    }
  }
}
