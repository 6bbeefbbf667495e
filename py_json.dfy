/** The Python objects `json.loads` hands the pika worker, as far as the
    worker looks at them: a dict's `get`, truthiness, and `str()` in an
    f-string. */
module PyJson {

  /** A JSON value once loaded by Python. Numbers, lists and nested objects
      are `Other`, carrying what `str()` gives for them and whether they are
      truthy. */
  datatype JsonValue = Null | Bool(b: bool) | Str(s: string) | Other(text: string, truthy: bool)

  /** What `json.loads(body)` produced: an object (a dict) or any other value. */
  datatype Document = Object(fields: map<string, JsonValue>) | NonObject(value: JsonValue)

  /** `d.get(key)`: None when the key is absent. */
  function Get(d: map<string, JsonValue>, key: string): JsonValue
  {
    if key in d then d[key] else Null
  }

  /** Python truthiness. */
  predicate Truthy(v: JsonValue)
  {
    match v
    case Null => false
    case Bool(b) => b
    case Str(s) => s != ""
    case Other(_, t) => t
  }

  /** `str(v)`, as an f-string renders it. */
  function PyStr(v: JsonValue): string
  {
    match v
    case Null => "None"
    case Bool(b) => if b then "True" else "False"
    case Str(s) => s
    case Other(text, _) => text
  }
}
