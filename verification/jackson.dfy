/** JSON values as Jackson binds them to plain Java objects, and the Java
    class each binding produces. Both the tool-call request body and the
    projected pull-request entries are such values. */
module Jackson {
  import opened JavaLang

  /** A JSON value as bound to `Object`: objects become maps, and a JSON
      null is a Java null. */
  datatype Json =
    | JNull
    | JBool(b: bool)
    | JInt(n: int)
    | JString(s: string)
    | JArray(items: seq<Json>)
    | JObject(fields: map<string, Json>)

  /** The Java class Jackson binds a non-null JSON value to: an integer
      becomes the narrowest of Integer, Long and BigInteger that holds it. */
  function JavaClassOf(v: Json): string {
    match v
    case JNull => "null"
    case JBool(_) => "java.lang.Boolean"
    case JInt(n) =>
      if IntMin <= n <= IntMax then "java.lang.Integer"
      else if -0x8000_0000_0000_0000 <= n <= 0x7FFF_FFFF_FFFF_FFFF then "java.lang.Long"
      else "java.math.BigInteger"
    case JString(_) => "java.lang.String"
    case JArray(_) => "java.util.ArrayList"
    case JObject(_) => "java.util.LinkedHashMap"
  }
}
