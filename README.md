# Avro schema to Samza SQL schema conversion

This project models `AvroTypeFactoryImpl`, the part of Samza SQL that turns an
Avro schema into Samza SQL's own schema tree (`SqlSchema` made of
`SqlFieldSchema`s), and proves what the conversion promises.

- `AvroSchema` is the Avro type universe: the primitive types and the complex
  types record, enum, array, map, union and fixed of the Apache Avro
  specification. It also has the type tag each schema reports. A record field
  is a name, a type and whether it declares a default value.
- `SamzaSqlSchema` is the target tree. A field schema is a primitive, array,
  map or row schema. Each one carries a `nullable` and an `optional` flag. A
  row is the ordered list of its named fields.
- `AvroTypeFactory` is the converter. Its pieces:
  - `isOptional` is a protected method that subclasses may override. It is modelled as a parameter, the optionality rule (`Optionality`), passed down to every record at every depth. The base class's rule is `IsOptional`.
  - `ConvertField` and `SqlTypeFromUnionTypes` are the type switch and the union rule. They are mutually recursive with `ConvertSchema`.
  - `ConvertSchema` says what `convertSchema` computes.
  - `BuildSchema` is its builder loop, proved equal to `ConvertSchema`.
  - `CreateType` is the entry point, which rejects a top level that is not a record.
  - Java's `SamzaException` becomes a `Result` error that names the rejected Avro type.
- `AvroTypeFactoryProperties` holds the lemmas:
  - `Supported` is an independent definition of which schemas convert: a NULL is rejected wherever conversion reaches it, and the branches of a union that becomes ANY are never examined. Conversion succeeds exactly on it.
  - Under the base rule, and any rule that ignores the top-level flag, that flag has no effect on the result. A rule that reads the flag can change it: `TopLevelFlagMattersForOverridingRule` exhibits one.
  - Each row field is the conversion of its own Avro field.
  - Optional flags occur only on row fields.
  - Whatever the rule, a nested record's fields are judged as not being at the top level. Under a rule that ignores the flag, nested records convert the same way as top-level records.
  - The union rules, and the leaf type table.

## Model

| member | source | states |
|---|---|---|
| AvroTypeFactory.CreateType | samza-sql/src/main/java/org/apache/samza/sql/avro/AvroTypeFactoryImpl.java:47-50 | a non-record top level fails with that type; a record gives the converted row of its fields (top-level flag set): same count, same names in order, each optional as the optionality rule decides for a top-level field |
| AvroTypeFactory.ValidateTopLevelAvroType | samza-sql/src/main/java/org/apache/samza/sql/avro/AvroTypeFactoryImpl.java:65-73 | passes iff the type is RECORD; otherwise fails naming the type |
| AvroTypeFactory.IsOptional | samza-sql/src/main/java/org/apache/samza/sql/avro/AvroTypeFactoryImpl.java:61-63 | the base factory's rule: optional iff the field declares a default, whatever isTopLevelField says; BaseRuleIgnoresTopLevel and TopLevelFlagIrrelevantForFields state its consequences, and ConvertSchema's contract states optional == rule(field, isTopLevelField) for any rule |
| AvroTypeFactory.BuildSchema | samza-sql/src/main/java/org/apache/samza/sql/avro/AvroTypeFactoryImpl.java:75-83 | the loop that appends each converted field to the builder computes exactly ConvertSchema, including stopping at the first failing field |
| AvroTypeFactory.ConvertSchema | samza-sql/src/main/java/org/apache/samza/sql/avro/AvroTypeFactoryImpl.java:75-83 | on success one entry per Avro field, same names, same order; each optional iff the optionality rule says so and nullable iff its type is a two-branch union with a NULL; the only failure is an unsupported NULL |
| AvroTypeFactory.ConvertFields | samza-sql/src/main/java/org/apache/samza/sql/avro/AvroTypeFactoryImpl.java:77-80 | the same, for the first n fields of the loop |
| AvroTypeFactory.ConvertField | samza-sql/src/main/java/org/apache/samza/sql/avro/AvroTypeFactoryImpl.java:85-123 | a converted type keeps the optional flag it is given and is nullable iff it was asked to be or is a nullable union; the only error is UnsupportedFieldType(NULL) |
| AvroTypeFactory.SqlTypeFromUnionTypes | samza-sql/src/main/java/org/apache/samza/sql/avro/AvroTypeFactoryImpl.java:125-137 | a union keeps the optional flag; its result is nullable iff the incoming flag is set or it is a two-branch union with a NULL |
| AvroTypeFactoryProperties.ConvertFieldSucceedsIffSupported | samza-sql/src/main/java/org/apache/samza/sql/avro/AvroTypeFactoryImpl.java:85-123 | conversion of a type succeeds iff the type is Supported (no NULL wherever conversion reaches; branches of a union that becomes ANY are never examined), for any flags and any optionality rule |
| AvroTypeFactoryProperties.ConvertFieldsSucceedIffSupported | samza-sql/src/main/java/org/apache/samza/sql/avro/AvroTypeFactoryImpl.java:77-80 | converting the first n fields succeeds iff each of their types is Supported |
| AvroTypeFactoryProperties.CreateTypeSucceedsIffSupported | samza-sql/src/main/java/org/apache/samza/sql/avro/AvroTypeFactoryImpl.java:47-50 | a top-level record converts iff it is Supported |
| AvroTypeFactoryProperties.BaseRuleIgnoresTopLevel | samza-sql/src/main/java/org/apache/samza/sql/avro/AvroTypeFactoryImpl.java:61-63 | the base isOptional gives every field the same answer at the top level and nested |
| AvroTypeFactoryProperties.TopLevelFlagIrrelevantForFields | samza-sql/src/main/java/org/apache/samza/sql/avro/AvroTypeFactoryImpl.java:61-63 | under a rule that ignores isTopLevelField (the base one among them), converting fields with the flag set or clear gives the same result |
| AvroTypeFactoryProperties.TopLevelFlagIrrelevant | samza-sql/src/main/java/org/apache/samza/sql/avro/AvroTypeFactoryImpl.java:61-63 | under such a rule a record's row is the same whether converted as top level or nested |
| AvroTypeFactoryProperties.TopLevelFlagMattersForOverridingRule | samza-sql/src/main/java/org/apache/samza/sql/avro/AvroTypeFactoryImpl.java:52-60 | an overriding rule that makes top-level fields optional changes the result: a required INT field is optional at the top level and required when nested |
| AvroTypeFactoryProperties.ConvertFieldsPointwise | samza-sql/src/main/java/org/apache/samza/sql/avro/AvroTypeFactoryImpl.java:77-80 | each converted field is the conversion of its Avro type with nullable false and optional as the rule decides for that field |
| AvroTypeFactoryProperties.ConvertSchemaPointwise | samza-sql/src/main/java/org/apache/samza/sql/avro/AvroTypeFactoryImpl.java:75-83 | a row converts iff every field converts, and then each entry is its field's own conversion |
| AvroTypeFactoryProperties.CollectionsHoldRequiredValues | samza-sql/src/main/java/org/apache/samza/sql/avro/AvroTypeFactoryImpl.java:87-117 | array elements and map values are converted with both flags false: never optional, nullable only when themselves a nullable union; the container keeps the incoming flags |
| AvroTypeFactoryProperties.OnlyRowFieldsAreOptional | samza-sql/src/main/java/org/apache/samza/sql/avro/AvroTypeFactoryImpl.java:85-123 | in any converted tree no array element or map value is optional, at any depth, whatever the rule |
| AvroTypeFactoryProperties.OnlyRowFieldsAreOptionalInFields | samza-sql/src/main/java/org/apache/samza/sql/avro/AvroTypeFactoryImpl.java:75-83 | the same for every field of a converted row |
| AvroTypeFactoryProperties.NestedRecordFieldsAreNotTopLevel | samza-sql/src/main/java/org/apache/samza/sql/avro/AvroTypeFactoryImpl.java:111-113 | for any optionality rule, a nested record converts iff its fields convert with isTopLevelField false, to a row schema holding that row with the incoming flags |
| AvroTypeFactoryProperties.NestedRecordConvertsAsTopLevel | samza-sql/src/main/java/org/apache/samza/sql/avro/AvroTypeFactoryImpl.java:111-113 | under a rule that ignores isTopLevelField, a nested record converts iff it would at the top level, to a row schema holding that same row with the incoming flags |
| AvroTypeFactoryProperties.NullableUnionUnwraps | samza-sql/src/main/java/org/apache/samza/sql/avro/AvroTypeFactoryImpl.java:125-133 | [NULL, t] converts as t forced nullable, keeping optional; [t, NULL] likewise for non-NULL t; [NULL, NULL] fails since the NULL-first test wins |
| AvroTypeFactoryProperties.NullableUnionOrderIrrelevant | samza-sql/src/main/java/org/apache/samza/sql/avro/AvroTypeFactoryImpl.java:128-133 | [NULL, t] and [t, NULL] convert identically for every t, and the incoming nullable flag does not change the result |
| AvroTypeFactoryProperties.OtherUnionsBecomeAny | samza-sql/src/main/java/org/apache/samza/sql/avro/AvroTypeFactoryImpl.java:134-136 | every other union (any other size, or two non-NULL branches) is ANY with the incoming flags |
| AvroTypeFactoryProperties.NumericTypeTable | samza-sql/src/main/java/org/apache/samza/sql/avro/AvroTypeFactoryImpl.java:92-110 | INT→INT32, LONG→INT64, FLOAT→REAL (4-byte), DOUBLE→DOUBLE, each with the incoming flags |
| AvroTypeFactoryProperties.TextualTypeTable | samza-sql/src/main/java/org/apache/samza/sql/avro/AvroTypeFactoryImpl.java:90-106 | BOOLEAN→BOOLEAN, STRING→STRING, BYTES→BYTES, each with the incoming flags |
| AvroTypeFactoryProperties.EnumFixedNullTable | samza-sql/src/main/java/org/apache/samza/sql/avro/AvroTypeFactoryImpl.java:97-121 | ENUM→STRING and FIXED→BYTES with the incoming flags; a stand-alone NULL has no case and is rejected |

## Left out

- AvroTypeFactory.ConvertField and AvroTypeFactory.ConvertSchema cover acyclic schemas only. The Avro schema here is an inductive tree, so a named record that refers to itself (a field `next: ["null", "Node"]` inside record `Node`) cannot be written. On such a schema `convertField` recursion never ends (lines 111-113, 78, 130), so the promise that the only failure is an unsupported NULL does not extend to it.
- Logging through SLF4J and the formatted error messages are not modelled. An error is a value that names the rejected Avro type.
- The Calcite superclass `SqlTypeFactoryImpl` and its `RelDataTypeSystem.DEFAULT` constructor are not modelled. The converter uses nothing from them.
- The JSON representation of Avro defaults is not modelled. A field only records whether it declares a default, which is the only thing the base `isOptional` reads.
- Avro names, namespaces, aliases, doc strings and logical types are not modelled, because the converter does not read them.
- `SqlSchemaBuilder` and the `SqlFieldSchema` factories are not modelled. They are plain constructors here, and the builder is an ordered append to a sequence.
- `SamzaSqlFieldType` holds only the leaf types the converter produces. Array, map and row are constructors of the field-schema tree.
- Stream planning (`ExecutionPlanner`, `ProcessorGraph`) is outside the Avro schema conversion.
- The Kafka checkpoint key serde and the checkpoint-marker JSON mix-in are outside the Avro schema conversion.
