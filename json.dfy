/** Decoded JSON values, as `json.loads` hands them to the modelled code, and the
    few Python operations the code applies to them: truthiness, `key in value`
    and `dict.get`. Producing these values from text (and text from them) is
    outside the model. */
module Json {
  import opened Wrappers

  datatype Value =
    | Null
    | Bool(b: bool)
    | Int(i: int)
    | Real(r: real)
    | Str(s: string)
    | Arr(items: seq<Value>)
    | Obj(fields: map<string, Value>)

  /** Python's truth value of a decoded value (`bool(v)`). */
  predicate Truthy(v: Value) {
    match v
    case Null => false
    case Bool(b) => b
    case Int(i) => i != 0
    case Real(r) => r != 0.0
    case Str(s) => s != ""
    case Arr(a) => a != []
    case Obj(m) => m != map[]
  }

  /** `d.get(key)`: the stored value, or None (read as JSON null) when the key is missing. */
  function Get(d: map<string, Value>, key: string): (r: Value)
    ensures key !in d ==> r == Null
    ensures key in d ==> r == d[key]
  {
    if key in d then d[key] else Null
  }

  /** `p` occurs as a contiguous part of `s` (Python's `p in s` on strings). */
  predicate IsSubstring(p: string, s: string)
    decreases |s|
  {
    p <= s || (s != [] && IsSubstring(p, s[1..]))
  }

  /** Python's `key in v` for a string key: membership of the key in a dict, of an
      equal element in a list, of a substring in a string; any other value makes
      `in` raise TypeError. */
  function Contains(v: Value, key: string): (r: Result<bool>)
    ensures v.Obj? ==> r == Ok(key in v.fields)
    ensures (v.Null? || v.Bool? || v.Int? || v.Real?) <==> r == Raised(TypeError)
  {
    match v
    case Obj(m) => Ok(key in m)
    case Arr(items) => Ok(Str(key) in items)
    case Str(s) => Ok(IsSubstring(key, s))
    case _ => Raised(TypeError)
  }
}
