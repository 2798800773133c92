/** Samza SQL's own schema tree, the target of the Avro conversion. */
module SamzaSqlSchema {

  /** The leaf field types the Avro converter produces. */
  datatype SamzaSqlFieldType = BOOLEAN | DOUBLE | REAL | STRING | BYTES | INT32 | INT64 | ANY

  /** The schema of one field: its shape, whether it may hold null and whether a query may omit it. */
  datatype SqlFieldSchema =
    | PrimitiveSchema(fieldType: SamzaSqlFieldType, nullable: bool, optional: bool)
    | ArraySchema(elementSchema: SqlFieldSchema, nullable: bool, optional: bool)
    | MapSchema(valueSchema: SqlFieldSchema, nullable: bool, optional: bool)
    | RowSchema(rowSchema: SqlSchema, nullable: bool, optional: bool)

  /** A named field of a row, in the order it was added to the builder. */
  datatype SqlField = SqlField(name: string, fieldSchema: SqlFieldSchema)

  /** A row schema: the ordered list of its fields. */
  datatype SqlSchema = SqlSchema(fields: seq<SqlField>)

  /**
   * No array element and no map value anywhere in the tree is optional: only
   * the fields of a row may carry the optional flag.
   */
  predicate OptionalOnlyOnRowFields(f: SqlFieldSchema) {
    match f
    case PrimitiveSchema(_, _, _) => true
    case ArraySchema(e, _, _) => !e.optional && OptionalOnlyOnRowFields(e)
    case MapSchema(v, _, _) => !v.optional && OptionalOnlyOnRowFields(v)
    case RowSchema(row, _, _) =>
      forall i :: 0 <= i < |row.fields| ==> OptionalOnlyOnRowFields(row.fields[i].fieldSchema)
  }
}
