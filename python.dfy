/**
 Decoded JSON values and the few Python operations the notifier applies to
 them: subscription `v[key]`, `dict.get`, the `in` operator with a string on
 the left, `str()` and hashing. Every operation that raises in Python
 returns the exception as an `Err` instead.
 */
module Python {
  import opened Strings

  datatype Option<+T> = None | Some(value: T)

  /** The exceptions the handler can raise, plus one marker for a value the
      model does not render. */
  datatype PyError =
    | KeyError(key: string)   // a dict lacks the key; "0" stands for the integer index 0
    | IndexError              // a list or string index out of range
    | TypeError               // subscripting a scalar, `in` on a number, an unhashable dict key, json.loads of a non-string
    | AttributeError          // `.get`, `.split` or `.lower` on a value that lacks the method
    | JsonDecodeError         // json.loads of text that is not JSON
    | ReprNotModelled         // str() of a list or a dict, which the model does not render

  datatype Result<+T> = Ok(value: T) | Err(error: PyError) {
    predicate IsFailure() { Err? }

    function PropagateFailure<U>(): Result<U>
      requires Err?
    {
      Err(error)
    }

    function Extract(): T
      requires Ok?
    {
      value
    }
  }

  /** A value as json.loads returns it: None, bool, int, str, list or dict.
      JSON numbers with a fraction or an exponent are not modelled. */
  datatype Json =
    | JNull
    | JBool(b: bool)
    | JNum(n: int)
    | JStr(s: string)
    | JArr(items: seq<Json>)
    | JObj(fields: map<string, Json>)

  /** An ordered list of key/value pairs: a dict literal as json.dumps sees it. */
  type Fields = seq<(string, Json)>

  /** `m.get(key, default)` on a dict already known to be one. */
  function Lookup(m: map<string, Json>, key: string, default: Json): (r: Json)
    ensures key in m ==> r == m[key]
    ensures key !in m ==> r == default
  {
    if key in m then m[key] else default
  }

  /** `v[key]` with a string key. */
  function GetItem(v: Json, key: string): (r: Result<Json>)
    ensures r.Ok? <==> v.JObj? && key in v.fields
    ensures r.Ok? ==> r.value == v.fields[key]
    ensures v.JObj? && key !in v.fields ==> r == Err(KeyError(key))
    ensures !v.JObj? ==> r == Err(TypeError)
  {
    match v
    case JObj(m) => if key in m then Ok(m[key]) else Err(KeyError(key))
    case _ => Err(TypeError)
  }

  /** `v[0]`. */
  function FirstItem(v: Json): (r: Result<Json>)
    ensures r.Ok? <==> (v.JArr? && |v.items| > 0) || (v.JStr? && |v.s| > 0)
    ensures r.Ok? && v.JArr? ==> r.value == v.items[0]
    ensures r.Ok? && v.JStr? ==> r.value == JStr(v.s[..1])
    ensures v == JArr([]) || v == JStr([]) ==> r == Err(IndexError)
    ensures v.JObj? ==> r == Err(KeyError("0"))
    ensures v.JNull? || v.JBool? || v.JNum? ==> r == Err(TypeError)
  {
    match v
    case JArr(xs) => if xs == [] then Err(IndexError) else Ok(xs[0])
    case JStr(s) => if s == [] then Err(IndexError) else Ok(JStr(s[..1]))
    case JObj(_) => Err(KeyError("0"))
    case _ => Err(TypeError)
  }

  /** `v.get(key, default)`: only a dict has the method. */
  function Get(v: Json, key: string, default: Json): (r: Result<Json>)
    ensures r.Ok? <==> v.JObj?
    ensures r.Ok? && key in v.fields ==> r.value == v.fields[key]
    ensures r.Ok? && key !in v.fields ==> r.value == default
    ensures !v.JObj? ==> r == Err(AttributeError)
  {
    match v
    case JObj(m) => Ok(Lookup(m, key, default))
    case _ => Err(AttributeError)
  }

  /** `needle in v` for a string `needle`: a substring test on a str, an
      element test on a list, a key test on a dict; a TypeError otherwise. */
  function In(needle: string, v: Json): (r: Result<bool>)
    ensures r.Ok? <==> v.JStr? || v.JArr? || v.JObj?
    ensures v.JNull? || v.JBool? || v.JNum? ==> r == Err(TypeError)
    ensures v.JStr? ==> r == Ok(Contains(v.s, needle))
    ensures v.JArr? ==> r == Ok(exists i :: 0 <= i < |v.items| && v.items[i] == JStr(needle))
    ensures v.JObj? ==> r == Ok(needle in v.fields)
  {
    match v
    case JStr(s) => Ok(Contains(s, needle))
    case JArr(xs) => Ok(JStr(needle) in xs)
    case JObj(m) => Ok(needle in m)
    case _ => Err(TypeError)
  }

  /** `str(v)` as an f-string renders it, for the scalar values; a list or a
      dict is rendered by its repr, which the model leaves out. */
  function Str(v: Json): (r: string)
    requires Scalar(v)
    ensures v.JNull? ==> r == "None"
    ensures v == JBool(true) ==> r == "True"
    ensures v == JBool(false) ==> r == "False"
    ensures v.JNum? ==> r == IntToDecimal(v.n)
    ensures v.JStr? ==> r == v.s
  {
    match v
    case JNull => "None"
    case JBool(b) => if b then "True" else "False"
    case JNum(n) => IntToDecimal(n)
    case JStr(s) => s
  }

  /** None, a bool, a number or a str: the values that can be hashed (a
      list or a dict cannot be a dict key, nor part of a tuple that is one). */
  predicate Scalar(v: Json) {
    !v.JArr? && !v.JObj?
  }
}
