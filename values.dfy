/** The structured values that the JSON and YAML decoders hand back: PHP
    `null`, scalars, lists and string-keyed associative arrays. */
module Values {

  datatype Value =
    | Null
    | Bool(b: bool)
    | Int(i: int)
    | Str(s: string)
    | List(items: seq<Value>)
    | Dict(entries: map<string, Value>)
}
