/** JSON values, and an abstract printer and parser for them. */
module JsonValues {
  import opened Wrappers

  /** An object keeps its fields in insertion order, as a dictionary does. */
  datatype Json =
    | Null
    | Bool(b: bool)
    | Num(n: real)
    | Str(s: string)
    | Arr(items: seq<Json>)
    | Obj(fields: seq<Field>)

  datatype Field = Field(name: string, value: Json)

  /** The value of the first field with this name. */
  function Lookup(fields: seq<Field>, name: string): Option<Json> {
    if fields == [] then None
    else if fields[0].name == name then Some(fields[0].value)
    else Lookup(fields[1..], name)
  }

  /** `json.dumps` and `json.loads`: parsing what was printed gives the value back, on one line. */
  datatype Codec = Codec(dumps: Json -> string, loads: string -> Option<Json>) {
    ghost predicate Lawful() {
      && (forall v :: loads(dumps(v)) == Some(v))
      && (forall v :: '\n' !in dumps(v))
      && loads("") == None
    }
  }
}
