/** Values that flow between the components: JSON-like payloads, and the usual
    option and result types. */
module Values {

  datatype Option<+T> = None | Some(value: T)

  datatype Result<+R, +E> = Success(value: R) | Failure(error: E)

  /** A JSON-like value. */
  datatype Value =
    | Null
    | Bool(b: bool)
    | Num(n: int)
    | Str(s: string)
    | List(items: seq<Value>)
    | Obj(fields: Payload)

  /** A dictionary with string keys: what handlers receive and return. */
  type Payload = map<string, Value>
}
