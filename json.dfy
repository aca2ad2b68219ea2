/**
 * JSON objects as the server writes them and the browser reads them.
 * Every object in this system maps field names to strings, so an object is a
 * map from names to strings; a name that is not a key is JavaScript's
 * `undefined`.
 */
module Json {

  type JsonObject = map<string, string>

  /** JavaScript truthiness of `obj[key]` for a string-valued field:
      an absent field (undefined) and the empty string are both falsy. */
  predicate Truthy(obj: JsonObject, key: string)
  {
    key in obj && obj[key] != ""
  }

  /** `obj[key] || fallback`: the field when it is truthy, else the fallback. */
  function FieldOr(obj: JsonObject, key: string, fallback: string): (r: string)
    ensures Truthy(obj, key) ==> r == obj[key]
    ensures !Truthy(obj, key) ==> r == fallback
    ensures fallback != "" ==> r != ""
  {
    if Truthy(obj, key) then obj[key] else fallback
  }
}
