/**
 * Documents as the session registry stores them, and the `$jsonSchema`
 * validator that the registry attaches to its sessions collection.
 */
module Bson {

  /** The BSON values the registry ever stores or returns. */
  datatype Value =
    | Int(i: int)          // a Python int; stored as BSON "int" only when it fits 32 bits
    | Str(s: string)       // a BSON string
    | ObjectId(hex: string) // the `_id` the driver generates on insert

  /** A document: field name to value. */
  type Document = map<string, Value>

  const INT32_MIN: int := -0x8000_0000
  const INT32_MAX: int := 0x7FFF_FFFF

  /** The driver encodes a Python int as BSON "int" exactly when it fits in 32 bits, and as "long" otherwise. */
  predicate FitsInt32(n: int) {
    INT32_MIN <= n <= INT32_MAX
  }

  /** Python truthiness of a value: zero and the empty string are false, an ObjectId is always true. */
  predicate Truthy(v: Value) {
    match v
    case Int(n) => n != 0
    case Str(s) => s != []
    case ObjectId(_) => true
  }

  /** The field names the validator requires. */
  const REQUIRED_FIELDS: set<string> := {"id", "type", "unique_id", "userurl"}

  /** The values the validator allows for "type". */
  const ROLE_NAMES: set<string> := {"admin", "student"}

  /** `{"bsonType": "int"}` */
  predicate IsBsonInt(v: Value) {
    v.Int? && FitsInt32(v.i)
  }

  /** `{"bsonType": "string"}` */
  predicate IsBsonString(v: Value) {
    v.Str?
  }

  /**
   * The validator of the sessions collection: an object with all four required
   * fields, "id" an int, "type" a string from the role enumeration and
   * "unique_id" and "userurl" strings. Other fields (such as `_id`) are allowed.
   */
  predicate SchemaValid(d: Document) {
    REQUIRED_FIELDS <= d.Keys
    && IsBsonInt(d["id"])
    && IsBsonString(d["type"]) && d["type"].s in ROLE_NAMES
    && IsBsonString(d["unique_id"])
    && IsBsonString(d["userurl"])
  }

  /** `dict.get(field)`: the value of a field, or None when it is absent. */
  datatype Option<T> = None | Some(value: T)

  function Get(d: Document, field: string): Option<Value> {
    if field in d then Some(d[field]) else None
  }
}
