/**
 * The value a safe YAML load produces: the document both the lenient config
 * accessors and the strict schema validator work on.
 */
module Yaml {

  /** A parsed YAML node. Mapping keys are strings. */
  datatype Value =
    | Null
    | Bool(b: bool)
    | Int(i: int)
    | Float(f: real)
    | Str(s: string)
    | List(items: seq<Value>)
    | Object(fields: map<string, Value>)

  /** Python's truth value of a node: None, False, 0, 0.0 and empty containers are false. */
  predicate Truthy(v: Value) {
    match v
    case Null => false
    case Bool(b) => b
    case Int(i) => i != 0
    case Float(f) => f != 0.0
    case Str(s) => s != []
    case List(xs) => xs != []
    case Object(m) => m != map[]
  }

  /** `d.get(k)`: the value under `k`, or None when `k` is absent. */
  function Get(m: map<string, Value>, k: string): (r: Value)
    ensures k in m ==> r == m[k]
    ensures k !in m ==> r == Null
  {
    GetOr(m, k, Null)
  }

  /** `d.get(k, default)`. */
  function GetOr(m: map<string, Value>, k: string, default: Value): Value {
    if k in m then m[k] else default
  }

  /** `{"name": x}`, the one-key mapping both shorthand expansions build. */
  function NameOnly(x: Value): (r: Value)
    ensures r.Object? && r.fields.Keys == {"name"} && r.fields["name"] == x
  {
    Object(map["name" := x])
  }
}
