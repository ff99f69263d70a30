/**
 * The parsed JSON values the handlers inspect, and the Gson accessors they call.
 * Parsing text is not modelled: a request body is given as what Gson's
 * fromJson(..., JsonObject.class) produced. Gson's runtime exceptions
 * (a failed cast, getAsString on the wrong shape) become Thrown.
 */
module Gson {

  datatype Json =
    | JNull
    | JBool(b: bool)
    | JNumber(literal: string)
    | JString(s: string)
    | JArray(items: seq<Json>)
    | JObject(members: map<string, Json>)

  /** The result of gson.fromJson(body, JsonObject.class). */
  datatype Body =
    | NullBody                                 // fromJson returned null (empty body)
    | ObjectBody(members: map<string, Json>)   // a JSON object
    | Unparsable                               // fromJson threw (malformed text, top level not an object)

  /** A value, or the exception Gson threw computing it. */
  datatype Result<+T> = Ok(value: T) | Thrown

  /**
   * JsonElement.getAsString: a primitive gives its text, an array of exactly one
   * element gives that element's string, and JsonNull, an object or any other
   * array throws.
   */
  function AsString(v: Json): (r: Result<string>)
    ensures v.JString? ==> r == Ok(v.s)
    ensures v.JNull? || v.JObject? ==> r == Thrown
    ensures v.JArray? && |v.items| != 1 ==> r == Thrown
  {
    match v
    case JString(s) => Ok(s)
    case JNumber(lit) => Ok(lit)
    case JBool(b) => Ok(if b then "true" else "false")
    case JArray(items) => if |items| == 1 then AsString(items[0]) else Thrown
    case JNull => Thrown
    case JObject(_) => Thrown
  }
}
