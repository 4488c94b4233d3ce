/** The values `json.loads` produces, and the decoder itself as an opaque
    parameter: `None` stands for a `JSONDecodeError`. */
module Json {
  import opened Wrappers

  datatype Value =
    | Null
    | Bool(b: bool)
    | Number(n: real)
    | Str(s: string)
    | Array(items: seq<Value>)
    | Object(fields: map<string, Value>)

  type Decoder = string -> Option<Value>
}
