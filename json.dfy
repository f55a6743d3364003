/** A parsed JSON request body or query object: the values `express.json()`
    and the query parser hand to the handlers. Numbers are integers. */
module Json {
  import opened Wrappers

  datatype Value =
    | Null
    | Bool(b: bool)
    | Num(n: int)
    | Str(s: string)
    | Arr(items: seq<Value>)
    | Obj(fields: seq<Field>)

  datatype Field = Field(key: string, value: Value)

  /** `obj[key]` on an object: the value of the last field with that key
      (later duplicates overwrite earlier ones in `JSON.parse`). */
  function Get(fields: seq<Field>, key: string): (r: Option<Value>)
    ensures r.Some? <==> exists i :: 0 <= i < |fields| && fields[i].key == key
    decreases |fields|
  {
    if fields == [] then None
    else if fields[|fields| - 1].key == key then Some(fields[|fields| - 1].value)
    else Get(fields[..|fields| - 1], key)
  }
}
