/** What `json_decode($s, true)` produces. JSON objects and JSON lists both
    become PHP arrays; every other JSON value is a scalar or `null`. */
module Json {
  import opened Wrappers

  datatype Value =
    | Null
    | Bool(b: bool)
    | Num(n: real)
    | Str(s: string)
    | List(items: seq<Value>)
    | Dict(fields: map<string, Value>)
  {
    /** The decoded value is a PHP `array`. */
    predicate IsArray()
    {
      List? || Dict?
    }
  }

  /** The PHP literal `[]`. PHP has one empty array, but this model keeps
      it as two values: `Dict(map[])` here and `List([])`, which is what
      the JSON text `[]` decodes to. Both are arrays and both are empty, so
      they are the same PHP value. */
  const EmptyArray: Value := Dict(map[])

  /** `json_decode($s, true)` together with `json_last_error()`: `None` when
      the text is not valid JSON, otherwise the decoded value (which is `Null`
      for the text `null`). */
  type Decoder = string -> Option<Value>
}
