/**
 * Conversion of an Avro schema into a Samza SQL schema: the top level must be
 * a record, each record field becomes a field schema carrying a nullable and an
 * optional flag, leaf types map through a fixed table, records, arrays and maps
 * recurse, a two-branch union with a NULL branch becomes a nullable field and
 * every other union becomes ANY.
 */
module AvroTypeFactory {
  import opened Results
  import opened AvroSchema
  import opened SamzaSqlSchema

  /** Why a conversion failed; each carries the Avro type the converter rejected. */
  datatype ConversionError =
    | TopLevelNotRecord(found: AvroType)
    | UnsupportedFieldType(found: AvroType)

  type Conversion<T> = Result<T, ConversionError>

  /** A union of exactly two branches one of which is NULL: the Avro idiom for a nullable field. */
  predicate IsNullableUnion(s: Schema) {
    s.Union? && |s.types| == 2 && (TypeOf(s.types[0]) == NULL || TypeOf(s.types[1]) == NULL)
  }

  /**
   * The overridable rule that decides whether a record field is optional,
   * given the field and whether it sits at the top level of the schema. A
   * factory built on this one may, for instance, make top-level fields
   * optional even when they declare no default.
   */
  type Optionality = (Field, bool) -> bool

  /** An optionality rule that gives every field the same answer at the top level and nested. */
  ghost predicate IgnoresTopLevel(optionality: Optionality) {
    forall field: Field :: optionality(field, true) == optionality(field, false)
  }

  /**
   * The base factory's rule: a field is optional when it declares a default
   * value, whether or not it sits at the top level of the schema.
   */
  function IsOptional(field: Field, isTopLevelField: bool): (r: bool)
    ensures r <==> field.hasDefault
  {
    field.hasDefault
  }

  /** Only a RECORD is accepted as the top-level Avro type. */
  function ValidateTopLevelAvroType(schema: Schema): (r: Outcome<ConversionError>)
    ensures r.Pass? <==> TypeOf(schema) == RECORD
    ensures r.Fail? ==> r.error == TopLevelNotRecord(TypeOf(schema))
  {
    if TypeOf(schema) != RECORD then Fail(TopLevelNotRecord(TypeOf(schema))) else Pass
  }

  /**
   * Converts the first `n` fields of a record, in order, stopping at the first
   * field that cannot be converted.
   */
  function ConvertFields(fields: seq<Field>, n: nat, isTopLevelField: bool, optionality: Optionality)
    : (r: Conversion<seq<SqlField>>)
    requires n <= |fields|
    decreases Record(fields), 0, n
    ensures r.Ok? ==> |r.value| == n
    ensures r.Ok? ==> forall i :: 0 <= i < n ==>
      && r.value[i].name == fields[i].name
      && r.value[i].fieldSchema.optional == optionality(fields[i], isTopLevelField)
      && r.value[i].fieldSchema.nullable == IsNullableUnion(fields[i].schema)
    ensures r.Err? ==> r.error == UnsupportedFieldType(NULL)
  {
    if n == 0 then Ok([])
    else
      var prefix :- ConvertFields(fields, n - 1, isTopLevelField, optionality);
      var field := fields[n - 1];
      assert field.schema < Record(fields) by { assert field in fields; }
      var fieldSchema :- ConvertField(field.schema, false, optionality(field, isTopLevelField), optionality);
      Ok(prefix + [SqlField(field.name, fieldSchema)])
  }

  /**
   * The row schema of a record's fields: one entry per field, same names,
   * same order; optional exactly where the optionality rule says so, nullable
   * exactly where the field's type is a nullable union.
   */
  function ConvertSchema(fields: seq<Field>, isTopLevelField: bool, optionality: Optionality)
    : (r: Conversion<SqlSchema>)
    decreases Record(fields), 1, 0
    ensures r.Ok? ==> |r.value.fields| == |fields|
    ensures r.Ok? ==> forall i :: 0 <= i < |fields| ==>
      && r.value.fields[i].name == fields[i].name
      && r.value.fields[i].fieldSchema.optional == optionality(fields[i], isTopLevelField)
      && r.value.fields[i].fieldSchema.nullable == IsNullableUnion(fields[i].schema)
    ensures r.Err? ==> r.error == UnsupportedFieldType(NULL)
  {
    var converted :- ConvertFields(fields, |fields|, isTopLevelField, optionality);
    Ok(SqlSchema(converted))
  }

  /**
   * The SQL schema of one Avro type. The result keeps the optional flag it is
   * given; it is nullable when asked to be or when the type is a nullable
   * union. The only type the converter rejects is a NULL in a position where
   * it would have to be converted on its own. The fields of a nested record
   * are judged by `optionality` as not being at the top level.
   */
  function ConvertField(s: Schema, nullable: bool, optional: bool, optionality: Optionality)
    : (r: Conversion<SqlFieldSchema>)
    decreases s, 2, 0
    ensures r.Ok? ==> r.value.optional == optional
    ensures r.Ok? ==> r.value.nullable == (nullable || IsNullableUnion(s))
    ensures r.Err? ==> r.error == UnsupportedFieldType(NULL)
  {
    match s
    case Array(elementType) =>
      var elementSchema :- ConvertField(elementType, false, false, optionality);
      Ok(ArraySchema(elementSchema, nullable, optional))
    case Boolean => Ok(PrimitiveSchema(SamzaSqlFieldType.BOOLEAN, nullable, optional))
    case Double => Ok(PrimitiveSchema(SamzaSqlFieldType.DOUBLE, nullable, optional))
    // An Avro FLOAT has 4 bytes, which is SQL REAL (SQL FLOAT has 8).
    case Float => Ok(PrimitiveSchema(REAL, nullable, optional))
    case Enum(_) => Ok(PrimitiveSchema(SamzaSqlFieldType.STRING, nullable, optional))
    case Union(types) => SqlTypeFromUnionTypes(types, nullable, optional, optionality)
    case Fixed(_) => Ok(PrimitiveSchema(SamzaSqlFieldType.BYTES, nullable, optional))
    case String => Ok(PrimitiveSchema(SamzaSqlFieldType.STRING, nullable, optional))
    case Bytes => Ok(PrimitiveSchema(SamzaSqlFieldType.BYTES, nullable, optional))
    case Int => Ok(PrimitiveSchema(INT32, nullable, optional))
    case Long => Ok(PrimitiveSchema(INT64, nullable, optional))
    case Record(fields) =>
      var rowSchema :- ConvertSchema(fields, false, optionality);
      Ok(RowSchema(rowSchema, nullable, optional))
    case Map(valueType) =>
      var valueSchema :- ConvertField(valueType, false, false, optionality);
      Ok(MapSchema(valueSchema, nullable, optional))
    case Null => Err(UnsupportedFieldType(TypeOf(s)))
  }

  /**
   * A union `[NULL, t]` converts as `t` made nullable (the NULL-first test is
   * made first), `[t, NULL]` likewise; every other union is ANY.
   */
  function SqlTypeFromUnionTypes(types: seq<Schema>, nullable: bool, optional: bool, optionality: Optionality)
    : (r: Conversion<SqlFieldSchema>)
    decreases Union(types), 1, 0
    ensures r.Ok? ==> r.value.optional == optional
    ensures r.Ok? ==> r.value.nullable == (nullable || IsNullableUnion(Union(types)))
    ensures r.Err? ==> r.error == UnsupportedFieldType(NULL)
  {
    if |types| == 2 && TypeOf(types[0]) == NULL then
      ConvertField(types[1], true, optional, optionality)
    else if |types| == 2 && TypeOf(types[1]) == NULL then
      ConvertField(types[0], true, optional, optionality)
    else
      Ok(PrimitiveSchema(ANY, nullable, optional))
  }

  /** Once a prefix of the fields fails, every longer prefix fails with the same error. */
  lemma {:induction false} ConvertFieldsErrorSticks(
    fields: seq<Field>, i: nat, j: nat, isTopLevelField: bool, optionality: Optionality)
    requires i <= j <= |fields|
    requires ConvertFields(fields, i, isTopLevelField, optionality).Err?
    ensures ConvertFields(fields, j, isTopLevelField, optionality)
      == ConvertFields(fields, i, isTopLevelField, optionality)
    decreases j
  {
    if j > i {
      ConvertFieldsErrorSticks(fields, i, j - 1, isTopLevelField, optionality);
    }
  }

  /**
   * The builder loop of convertSchema: converts each field in order and
   * appends it to the row being built; the first field that fails aborts.
   */
  method BuildSchema(fields: seq<Field>, isTopLevelField: bool, optionality: Optionality)
    returns (r: Conversion<SqlSchema>)
    ensures r == ConvertSchema(fields, isTopLevelField, optionality)
  {
    var builder: seq<SqlField> := [];
    var i := 0;
    while i < |fields|
      invariant i <= |fields|
      invariant ConvertFields(fields, i, isTopLevelField, optionality) == Ok(builder)
    {
      var field := fields[i];
      var fieldSchema := ConvertField(field.schema, false, optionality(field, isTopLevelField), optionality);
      if fieldSchema.Err? {
        ConvertFieldsErrorSticks(fields, i + 1, |fields|, isTopLevelField, optionality);
        return Err(fieldSchema.error);
      }
      builder := builder + [SqlField(field.name, fieldSchema.value)];
      i := i + 1;
    }
    r := Ok(SqlSchema(builder));
  }

  /**
   * The entry point: a non-record top level is rejected with its type; a
   * record becomes a row with one field per Avro field, same names, same
   * order, optional where the rule says so for a top-level field. The base
   * factory passes `IsOptional` as the rule.
   */
  method CreateType(schema: Schema, optionality: Optionality) returns (r: Conversion<SqlSchema>)
    ensures !schema.Record? ==> r == Err(TopLevelNotRecord(TypeOf(schema)))
    ensures schema.Record? ==> r == ConvertSchema(schema.fields, true, optionality)
    ensures r.Ok? ==> schema.Record? && |r.value.fields| == |schema.fields|
    ensures r.Ok? ==> forall i :: 0 <= i < |schema.fields| ==>
      && r.value.fields[i].name == schema.fields[i].name
      && r.value.fields[i].fieldSchema.optional == optionality(schema.fields[i], true)
  {
    var validation := ValidateTopLevelAvroType(schema);
    if validation.Fail? {
      return Err(validation.error);
    }
    r := BuildSchema(schema.fields, true, optionality);
  }
}
