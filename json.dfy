/**
 * The values of a parsed JSON request body, as the servlets receive them in a
 * Map<String, ?> from JsonHelper.readJsonData.
 */
module Json {

  datatype Value =
    | Null             // JSON null
    | Bool(b: bool)    // a java.lang.Boolean
    | Int(i: int)      // an integral number (an Integer when it fits in 32 bits, a Long otherwise)
    | Str(s: string)   // a java.lang.String
    | Other            // fractions, arrays and objects: no cast in the servlets accepts them

  type Object = map<string, Value>

  /** map.get(key): an absent key and an explicit JSON null both give null. */
  function Get(m: Object, key: string): Value
  {
    if key in m then m[key] else Null
  }

  /** A cast (String) v succeeds. */
  predicate StringOrNull(v: Value)
  {
    v.Null? || v.Str?
  }

  /** A cast (boolean) v behind a null check succeeds. */
  predicate BooleanOrNull(v: Value)
  {
    v.Null? || v.Bool?
  }
}
