/** JSON values as the process holds them, and the texts they are stored as. */
module Json {
  import opened Prelude

  /** `Undefined` is the absent value a running program can hold and no stored document can. */
  datatype Json =
    | Undefined
    | Null
    | Bool(flag: bool)
    | Num(number: real)
    | Str(text: string)
    | Arr(items: seq<Json>)
    | Obj(fields: map<string, Json>)

  /** A way of storing values: `parse` is None where the text is refused. */
  datatype Codec = Codec(parse: string -> Option<Json>, render: Json -> string)

  /** Storing `v` and reading it back gives `v`. */
  predicate RoundTrips(codec: Codec, v: Json) {
    codec.parse(codec.render(v)) == Some(v)
  }
}
