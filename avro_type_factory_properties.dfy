/**
 * Properties of the Avro to Samza SQL conversion that relate several calls or
 * hold of whole schema trees.
 */
module AvroTypeFactoryProperties {
  import opened Results
  import opened AvroSchema
  import opened SamzaSqlSchema
  import opened AvroTypeFactory

  /**
   * The schemas the converter accepts, defined independently of it: a NULL is
   * rejected wherever conversion reaches it. Conversion reaches the element
   * type of an array, the value type of a map, every field type of a record
   * and the non-NULL branch of a two-branch union with a NULL branch (the
   * second branch when the first is NULL, so `[NULL, NULL]` reaches a NULL).
   * The branches of any other union are never examined, since such a union
   * becomes ANY.
   */
  predicate Supported(s: Schema) {
    match s
    case Null => false
    case Array(elementType) => Supported(elementType)
    case Map(valueType) => Supported(valueType)
    case Record(fields) => forall i :: 0 <= i < |fields| ==> Supported(fields[i].schema)
    case Union(types) =>
      if |types| == 2 && types[0].Null? then Supported(types[1])
      else if |types| == 2 && types[1].Null? then Supported(types[0])
      else true
    case _ => true
  }

  /** Every field among the first `n` has a supported type. */
  predicate FieldsSupported(fields: seq<Field>, n: nat)
    requires n <= |fields|
  {
    forall i :: 0 <= i < n ==> Supported(fields[i].schema)
  }

  /** Conversion of a type succeeds exactly when the type is supported, whatever the flags and the rule. */
  lemma {:induction false} ConvertFieldSucceedsIffSupported(
    s: Schema, nullable: bool, optional: bool, optionality: Optionality)
    decreases s, 1, 0
    ensures ConvertField(s, nullable, optional, optionality).Ok? <==> Supported(s)
  {
    match s
    case Array(elementType) => ConvertFieldSucceedsIffSupported(elementType, false, false, optionality);
    case Map(valueType) => ConvertFieldSucceedsIffSupported(valueType, false, false, optionality);
    case Record(fields) => ConvertFieldsSucceedIffSupported(fields, |fields|, false, optionality);
    case Union(types) =>
      if |types| == 2 && types[0].Null? {
        ConvertFieldSucceedsIffSupported(types[1], true, optional, optionality);
      } else if |types| == 2 && types[1].Null? {
        ConvertFieldSucceedsIffSupported(types[0], true, optional, optionality);
      }
    case _ =>
  }

  /** Converting a prefix of a record's fields succeeds exactly when each of those fields is supported. */
  lemma {:induction false} ConvertFieldsSucceedIffSupported(
    fields: seq<Field>, n: nat, isTopLevelField: bool, optionality: Optionality)
    requires n <= |fields|
    decreases Record(fields), 0, n
    ensures ConvertFields(fields, n, isTopLevelField, optionality).Ok? <==> FieldsSupported(fields, n)
  {
    if n > 0 {
      ConvertFieldsSucceedIffSupported(fields, n - 1, isTopLevelField, optionality);
      var field := fields[n - 1];
      assert field.schema < Record(fields) by { assert field in fields; }
      ConvertFieldSucceedsIffSupported(field.schema, false, optionality(field, isTopLevelField), optionality);
    }
  }

  /** A whole schema converts exactly when it is a record all of whose field types are supported. */
  lemma CreateTypeSucceedsIffSupported(schema: Schema, optionality: Optionality)
    ensures schema.Record? ==>
      (ConvertSchema(schema.fields, true, optionality).Ok? <==> Supported(schema))
  {
    if schema.Record? {
      ConvertFieldsSucceedIffSupported(schema.fields, |schema.fields|, true, optionality);
    }
  }

  /** The base factory's rule ignores whether a field is at the top level. */
  lemma BaseRuleIgnoresTopLevel()
    ensures IgnoresTopLevel(IsOptional)
  {
  }

  /** Under a rule that ignores the top-level flag, so does the conversion of a record's fields. */
  lemma {:induction false} TopLevelFlagIrrelevantForFields(fields: seq<Field>, n: nat, optionality: Optionality)
    requires n <= |fields|
    requires IgnoresTopLevel(optionality)
    ensures ConvertFields(fields, n, true, optionality) == ConvertFields(fields, n, false, optionality)
  {
    if n > 0 {
      TopLevelFlagIrrelevantForFields(fields, n - 1, optionality);
      assert optionality(fields[n - 1], true) == optionality(fields[n - 1], false);
    }
  }

  /** Under such a rule, and so in the base factory, a record converts to the same row at the top level and nested. */
  lemma TopLevelFlagIrrelevant(fields: seq<Field>, optionality: Optionality)
    requires IgnoresTopLevel(optionality)
    ensures ConvertSchema(fields, true, optionality) == ConvertSchema(fields, false, optionality)
  {
    TopLevelFlagIrrelevantForFields(fields, |fields|, optionality);
  }

  /**
   * A rule that reads the top-level flag can change the result: making every
   * top-level field optional turns a required field optional at the top level
   * only.
   */
  lemma TopLevelFlagMattersForOverridingRule(name: string)
    ensures var rule := (field: Field, isTopLevelField: bool) => isTopLevelField || field.hasDefault;
      var fields := [Field(name, Int, false)];
      && ConvertSchema(fields, true, rule) == Ok(SqlSchema([SqlField(name, PrimitiveSchema(INT32, false, true))]))
      && ConvertSchema(fields, false, rule) == Ok(SqlSchema([SqlField(name, PrimitiveSchema(INT32, false, false))]))
  {
    var rule := (field: Field, isTopLevelField: bool) => isTopLevelField || field.hasDefault;
    var fields := [Field(name, Int, false)];
    forall top: bool
      ensures ConvertFields(fields, 1, top, rule) == Ok([SqlField(name, PrimitiveSchema(INT32, false, top))])
    {
      ConvertFieldsSucceedIffSupported(fields, 1, top, rule);
      ConvertFieldsPointwise(fields, 1, top, rule);
      var r := ConvertFields(fields, 1, top, rule);
      assert r.value[0] == SqlField(name, PrimitiveSchema(INT32, false, top));
      assert r.value == [r.value[0]];
    }
  }

  /**
   * Each converted field is the conversion of the Avro field's own type,
   * entered as not nullable and optional as the rule says.
   */
  lemma {:induction false} ConvertFieldsPointwise(
    fields: seq<Field>, n: nat, isTopLevelField: bool, optionality: Optionality)
    requires n <= |fields|
    requires ConvertFields(fields, n, isTopLevelField, optionality).Ok?
    ensures forall i :: 0 <= i < n ==>
      ConvertField(fields[i].schema, false, optionality(fields[i], isTopLevelField), optionality)
        == Ok(ConvertFields(fields, n, isTopLevelField, optionality).value[i].fieldSchema)
  {
    if n > 0 {
      ConvertFieldsPointwise(fields, n - 1, isTopLevelField, optionality);
    }
  }

  /** A record's row is its fields converted one by one, and fails exactly when one of them fails. */
  lemma ConvertSchemaPointwise(fields: seq<Field>, isTopLevelField: bool, optionality: Optionality)
    ensures ConvertSchema(fields, isTopLevelField, optionality).Ok? <==>
      forall i :: 0 <= i < |fields| ==>
        ConvertField(fields[i].schema, false, optionality(fields[i], isTopLevelField), optionality).Ok?
    ensures ConvertSchema(fields, isTopLevelField, optionality).Ok? ==>
      forall i :: 0 <= i < |fields| ==>
        ConvertField(fields[i].schema, false, optionality(fields[i], isTopLevelField), optionality)
          == Ok(ConvertSchema(fields, isTopLevelField, optionality).value.fields[i].fieldSchema)
  {
    ConvertFieldsSucceedIffSupported(fields, |fields|, isTopLevelField, optionality);
    forall i | 0 <= i < |fields|
      ensures ConvertField(fields[i].schema, false, optionality(fields[i], isTopLevelField), optionality).Ok?
        <==> Supported(fields[i].schema)
    {
      ConvertFieldSucceedsIffSupported(fields[i].schema, false, optionality(fields[i], isTopLevelField), optionality);
    }
    if ConvertSchema(fields, isTopLevelField, optionality).Ok? {
      ConvertFieldsPointwise(fields, |fields|, isTopLevelField, optionality);
    }
  }

  /** Array elements and map values come out neither optional nor, unless a nullable union, nullable. */
  lemma CollectionsHoldRequiredValues(t: Schema, nullable: bool, optional: bool, optionality: Optionality)
    ensures ConvertField(Array(t), nullable, optional, optionality).Ok? ==>
      ConvertField(Array(t), nullable, optional, optionality).value
        == ArraySchema(ConvertField(t, false, false, optionality).value, nullable, optional)
    ensures ConvertField(Map(t), nullable, optional, optionality).Ok? ==>
      ConvertField(Map(t), nullable, optional, optionality).value
        == MapSchema(ConvertField(t, false, false, optionality).value, nullable, optional)
    ensures ConvertField(t, false, false, optionality).Ok? ==>
      !ConvertField(t, false, false, optionality).value.optional
      && ConvertField(t, false, false, optionality).value.nullable == IsNullableUnion(t)
  {
  }

  /** Nowhere in a converted tree is an array element or a map value optional, whatever the rule. */
  lemma {:induction false} OnlyRowFieldsAreOptional(s: Schema, nullable: bool, optional: bool, optionality: Optionality)
    requires ConvertField(s, nullable, optional, optionality).Ok?
    decreases s, 1, 0
    ensures OptionalOnlyOnRowFields(ConvertField(s, nullable, optional, optionality).value)
  {
    match s
    case Array(elementType) => OnlyRowFieldsAreOptional(elementType, false, false, optionality);
    case Map(valueType) => OnlyRowFieldsAreOptional(valueType, false, false, optionality);
    case Record(fields) => OnlyRowFieldsAreOptionalInFields(fields, |fields|, false, optionality);
    case Union(types) =>
      if |types| == 2 && types[0].Null? {
        OnlyRowFieldsAreOptional(types[1], true, optional, optionality);
      } else if |types| == 2 && types[1].Null? {
        OnlyRowFieldsAreOptional(types[0], true, optional, optionality);
      }
    case _ =>
  }

  lemma {:induction false} OnlyRowFieldsAreOptionalInFields(
    fields: seq<Field>, n: nat, isTopLevelField: bool, optionality: Optionality)
    requires n <= |fields|
    requires ConvertFields(fields, n, isTopLevelField, optionality).Ok?
    decreases Record(fields), 0, n
    ensures forall i :: 0 <= i < n ==>
      OptionalOnlyOnRowFields(ConvertFields(fields, n, isTopLevelField, optionality).value[i].fieldSchema)
  {
    if n > 0 {
      OnlyRowFieldsAreOptionalInFields(fields, n - 1, isTopLevelField, optionality);
      var field := fields[n - 1];
      assert field.schema < Record(fields) by { assert field in fields; }
      OnlyRowFieldsAreOptional(field.schema, false, optionality(field, isTopLevelField), optionality);
    }
  }

  /**
   * Whatever the rule, the fields of a nested record are judged as not being
   * at the top level: the record becomes a row schema holding its fields'
   * row converted with the top-level flag clear, with the flags it is given.
   */
  lemma NestedRecordFieldsAreNotTopLevel(fields: seq<Field>, nullable: bool, optional: bool, optionality: Optionality)
    ensures ConvertField(Record(fields), nullable, optional, optionality).Ok?
      <==> ConvertSchema(fields, false, optionality).Ok?
    ensures ConvertField(Record(fields), nullable, optional, optionality).Ok? ==>
      ConvertField(Record(fields), nullable, optional, optionality).value
        == RowSchema(ConvertSchema(fields, false, optionality).value, nullable, optional)
  {
  }

  /**
   * Under a rule that ignores the top-level flag (the base factory's among
   * them), a nested record converts to the same row as it would at the top
   * level, with the flags it is given.
   */
  lemma NestedRecordConvertsAsTopLevel(fields: seq<Field>, nullable: bool, optional: bool, optionality: Optionality)
    requires IgnoresTopLevel(optionality)
    ensures ConvertField(Record(fields), nullable, optional, optionality).Ok?
      <==> ConvertSchema(fields, true, optionality).Ok?
    ensures ConvertField(Record(fields), nullable, optional, optionality).Ok? ==>
      ConvertField(Record(fields), nullable, optional, optionality).value
        == RowSchema(ConvertSchema(fields, true, optionality).value, nullable, optional)
  {
    TopLevelFlagIrrelevant(fields, optionality);
  }

  /**
   * `[NULL, t]` converts as `t` forced nullable, keeping the optional flag;
   * `[t, NULL]` likewise when `t` is not NULL; `[NULL, NULL]` fails because the
   * NULL-first test converts the second NULL on its own.
   */
  lemma NullableUnionUnwraps(t: Schema, nullable: bool, optional: bool, optionality: Optionality)
    ensures ConvertField(Union([Null, t]), nullable, optional, optionality)
      == ConvertField(t, true, optional, optionality)
    ensures !t.Null? ==>
      (ConvertField(Union([t, Null]), nullable, optional, optionality) == ConvertField(t, true, optional, optionality))
    ensures ConvertField(Union([Null, Null]), nullable, optional, optionality) == Err(UnsupportedFieldType(NULL))
  {
  }

  /** The two spellings of a nullable type convert identically, and the incoming nullable flag does not matter. */
  lemma NullableUnionOrderIrrelevant(t: Schema, nullable: bool, optional: bool, optionality: Optionality)
    ensures ConvertField(Union([Null, t]), nullable, optional, optionality)
      == ConvertField(Union([t, Null]), nullable, optional, optionality)
    ensures ConvertField(Union([Null, t]), nullable, optional, optionality)
      == ConvertField(Union([Null, t]), false, optional, optionality)
  {
  }

  /** Every union other than a nullable union becomes ANY with the incoming flags. */
  lemma OtherUnionsBecomeAny(types: seq<Schema>, nullable: bool, optional: bool, optionality: Optionality)
    requires !IsNullableUnion(Union(types))
    ensures ConvertField(Union(types), nullable, optional, optionality) == Ok(PrimitiveSchema(ANY, nullable, optional))
  {
  }

  /** The numeric Avro types: INT is INT32, LONG is INT64, the 4-byte FLOAT is REAL, DOUBLE is DOUBLE. */
  lemma NumericTypeTable(nullable: bool, optional: bool, optionality: Optionality)
    ensures ConvertField(Int, nullable, optional, optionality) == Ok(PrimitiveSchema(INT32, nullable, optional))
    ensures ConvertField(Long, nullable, optional, optionality) == Ok(PrimitiveSchema(INT64, nullable, optional))
    ensures ConvertField(Float, nullable, optional, optionality) == Ok(PrimitiveSchema(REAL, nullable, optional))
    ensures ConvertField(Double, nullable, optional, optionality)
      == Ok(PrimitiveSchema(SamzaSqlFieldType.DOUBLE, nullable, optional))
  {
  }

  /** BOOLEAN, STRING and BYTES keep their names. */
  lemma TextualTypeTable(nullable: bool, optional: bool, optionality: Optionality)
    ensures ConvertField(Boolean, nullable, optional, optionality)
      == Ok(PrimitiveSchema(SamzaSqlFieldType.BOOLEAN, nullable, optional))
    ensures ConvertField(String, nullable, optional, optionality)
      == Ok(PrimitiveSchema(SamzaSqlFieldType.STRING, nullable, optional))
    ensures ConvertField(Bytes, nullable, optional, optionality)
      == Ok(PrimitiveSchema(SamzaSqlFieldType.BYTES, nullable, optional))
  {
  }

  /** An enum reads as a string, a fixed as bytes, and a stand-alone NULL is rejected. */
  lemma EnumFixedNullTable(nullable: bool, optional: bool, optionality: Optionality, symbols: seq<string>, size: nat)
    ensures ConvertField(Enum(symbols), nullable, optional, optionality)
      == Ok(PrimitiveSchema(SamzaSqlFieldType.STRING, nullable, optional))
    ensures ConvertField(Fixed(size), nullable, optional, optionality)
      == Ok(PrimitiveSchema(SamzaSqlFieldType.BYTES, nullable, optional))
    ensures ConvertField(Null, nullable, optional, optionality) == Err(UnsupportedFieldType(NULL))
  {
  }
}
