/** JavaScript values as the connector sees them. */
module Values {

  datatype Option<+T> = None | Some(value: T)

  /** A JSON value: what a credential or presentation document is made of. */
  datatype Json =
    | JNull
    | JBool(b: bool)
    | JNumber(n: real)
    | JString(s: string)
    | JArray(elems: seq<Json>)
    | JObject(members: map<string, Json>)

  /** A primitive handed to a string operation: an account address
      (`undefined` when the wallet returned no account) or an ENS name
      (`null` when the address has no reverse record). */
  datatype JsArg = Str(s: string) | Undefined | Null

  /** ToString of such an argument, as ECMA-262 defines it. */
  function ToJsString(a: JsArg): string
  {
    match a
    case Str(s) => s
    case Undefined => "undefined"
    case Null => "null"
  }
}
