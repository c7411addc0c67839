/** JSON-like values: the dictionaries the pipeline passes around and stores. */
module Json {

  /** A decoded JSON value (numbers other than integers are not modelled). */
  datatype Value =
    | Null
    | Bool(b: bool)
    | Int(i: int)
    | Str(s: string)
    | List(items: seq<Value>)
    | Dict(fields: map<string, Value>)

  /** A Python `dict` with string keys. */
  type Record = map<string, Value>

  /** Python truthiness. */
  predicate Truthy(v: Value)
  {
    match v
    case Null => false
    case Bool(b) => b
    case Int(i) => i != 0
    case Str(s) => s != []
    case List(items) => items != []
    case Dict(fields) => fields != map[]
  }

  /** `d.get(k, default)`. */
  function Get(d: Record, k: string, default: Value): Value
  {
    if k in d then d[k] else default
  }

  /** A string-or-None field, as the scraper writes it. */
  function OptStr(s: Option<string>): Value
  {
    if s.Some? then Str(s.value) else Null
  }

  function OptInt(n: Option<int>): Value
  {
    if n.Some? then Int(n.value) else Null
  }

  function StrList(xs: seq<string>): (v: Value)
    ensures v.List? && |v.items| == |xs|
  {
    List(seq(|xs|, i requires 0 <= i < |xs| => Str(xs[i])))
  }

  /** The string at `k`, if the record holds a string there. */
  function GetStr(d: Record, k: string): Option<string>
  {
    if k in d && d[k].Str? then Some(d[k].s) else None
  }

  import opened Wrappers
}
