/** JSON-shaped values, as the service holds them in `any` and `map[string]any`. */
module Json {

  /** A Go `map[string]any`. */
  datatype Obj = Obj(m: map<string, Value>)

  /** A Go `any`: the JSON shapes first, then the two typed containers that YAML decoding and spec rendering can also
      produce. Numbers are exact; rounding is not modelled. */
  datatype Value =
    | Null
    | Bool(b: bool)
    | Num(n: real)
    | Str(s: string)
    | List(items: seq<Value>)
    | Map(o: Obj)
    | MapList(objs: seq<Obj>)                 // []map[string]any
    | AnyMap(strKeyed: Obj, otherKeys: bool)  // map[any]any: its string keys, and whether it has others

  const EMPTY_OBJ: Obj := Obj(map[])
}
