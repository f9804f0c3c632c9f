/** JSON values as the agents' payloads carry them. */
module Json {
  datatype Value =
    | Null
    | Boolean(truth: bool)
    | Number(n: int)
    | Text(text: string)
    | List(items: seq<Value>)
    | Object(fields: map<string, Value>)
}
