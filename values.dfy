/** JSON values as the API receives and sends them, JavaScript errors, and the
    two outcomes of an awaited promise. Shared by every other module. */
module Values {

  datatype Option<+T> = None | Some(value: T)

  /** A parsed JSON value. JSON numbers are JavaScript numbers; the model keeps
      them as exact reals and only ever compares them with 0 or asks whether
      they are whole. */
  datatype Json =
    | JNull
    | JBool(b: bool)
    | JNum(n: real)
    | JStr(s: string)
    | JArr(items: seq<Json>)
    | JObj(fields: map<string, Json>)

  /** A JSON object's members: a request body, a record's field map, a product. */
  type Fields = map<string, Json>

  /** A thrown JavaScript `Error`; only its `message` is ever inspected. */
  datatype Error = Error(message: string)

  /** How an awaited call ends: it resolves with a value or it throws. */
  datatype Outcome<+T> = Resolved(value: T) | Rejected(error: Error)

  /** `Number.isInteger` on a finite number. */
  predicate IsInteger(x: real) {
    x == x.Floor as real
  }

  /** The name Zod reports as the received type of a value. */
  function TypeName(v: Json): string {
    match v
    case JNull => "null"
    case JBool(_) => "boolean"
    case JNum(_) => "number"
    case JStr(_) => "string"
    case JArr(_) => "array"
    case JObj(_) => "object"
  }

  /** The body `{ message: m }`. */
  function MessageBody(m: string): Json {
    JObj(map["message" := JStr(m)])
  }
}
