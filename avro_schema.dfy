/**
 * The Avro type universe as far as the SQL converter reads it: the primitive
 * types and the complex types (record, enum, array, map, union, fixed) of the
 * Apache Avro specification.
 */
module AvroSchema {

  /** The type tag an Avro schema reports for itself. */
  datatype AvroType =
    | RECORD | ENUM | ARRAY | MAP | UNION | FIXED
    | STRING | BYTES | INT | LONG | FLOAT | DOUBLE | BOOLEAN | NULL

  /** An Avro schema tree. Names, namespaces, doc strings and aliases are not read by the converter. */
  datatype Schema =
    | Record(fields: seq<Field>)
    | Enum(symbols: seq<string>)
    | Array(elementType: Schema)
    | Map(valueType: Schema)
    | Union(types: seq<Schema>)
    | Fixed(size: nat)
    | String
    | Bytes
    | Int
    | Long
    | Float
    | Double
    | Boolean
    | Null

  /**
   * A record field. `hasDefault` says whether the field declares a default
   * value; the converter reads nothing else of the default.
   */
  datatype Field = Field(name: string, schema: Schema, hasDefault: bool)

  /** The tag of a schema. */
  function TypeOf(s: Schema): AvroType {
    match s
    case Record(_) => RECORD
    case Enum(_) => ENUM
    case Array(_) => ARRAY
    case Map(_) => MAP
    case Union(_) => UNION
    case Fixed(_) => FIXED
    case String => STRING
    case Bytes => BYTES
    case Int => INT
    case Long => LONG
    case Float => FLOAT
    case Double => DOUBLE
    case Boolean => BOOLEAN
    case Null => NULL
  }
}
