/** Python values as they arrive from the Jellyfin server: decoded JSON made of
    dicts, lists, strings, numbers, booleans and None, together with the few
    Python operations the integration applies to them (subscripting with a
    string key, truthiness, str()). */
module PyValues {

  /** A decoded JSON value. `Null` is Python's None, `Array` a list, `Object` a dict. */
  datatype Json =
    | Null
    | Bool(b: bool)
    | Int(i: int)
    | Str(s: string)
    | Array(items: seq<Json>)
    | Object(fields: map<string, Json>)
  {
    /** True for the values collections.abc.Iterable accepts other than str. */
    predicate IsContainer() {
      Array? || Object?
    }
  }

  /** The exceptions the modelled code can raise. */
  datatype PyError = KeyError | TypeError | AttributeError

  /** A value, or the exception that was raised instead. */
  datatype Result<+T> = Ok(value: T) | Err(error: PyError) {
    predicate IsFailure() { Err? }
    function PropagateFailure<U>(): Result<U> requires Err? { Err(error) }
    function Extract(): T requires Ok? { value }
  }

  datatype Option<+T> = None | Some(value: T)

  /** The outcome of `v[key]` for a string key. */
  datatype Lookup = Found(v: Json) | Missing | NotSubscriptable

  /** `v[key]`: a dict yields its entry or raises KeyError; every other kind of
      value (a list, a str, a number, a bool, None) raises TypeError for a str index. */
  function Get(v: Json, key: string): (r: Lookup)
    ensures r.Found? <==> v.Object? && key in v.fields
    ensures r.Found? ==> r.v == v.fields[key]
    ensures r.NotSubscriptable? <==> !v.Object?
  {
    if !v.Object? then NotSubscriptable
    else if key in v.fields then Found(v.fields[key])
    else Missing
  }

  /** Lookup turned into a raised exception when the key is absent. */
  function Index(v: Json, key: string): (r: Result<Json>)
    ensures r.Ok? <==> v.Object? && key in v.fields
    ensures r.Ok? ==> r.value == v.fields[key]
    ensures r.Err? ==> r.error == (if v.Object? then KeyError else TypeError)
  {
    match Get(v, key)
    case Found(x) => Ok(x)
    case Missing => Err(KeyError)
    case NotSubscriptable => Err(TypeError)
  }

  /** Python truthiness: None, False, 0, "" and empty containers are false. */
  predicate Truthy(v: Json) {
    match v
    case Null => false
    case Bool(b) => b
    case Int(i) => i != 0
    case Str(s) => s != ""
    case Array(items) => items != []
    case Object(m) => m != map[]
  }

  function DigitChar(d: nat): char
    requires d < 10
  {
    "0123456789"[d]
  }

  function NatToDecimal(n: nat): (r: string)
    ensures r != []
    decreases n
  {
    if n < 10 then [DigitChar(n)] else NatToDecimal(n / 10) + [DigitChar(n % 10)]
  }

  /** str(v) for the values that can stand in a session's DeviceId or Client.
      Containers get a fixed placeholder instead of Python's repr. */
  function Render(v: Json): (r: string)
    ensures v.Str? ==> r == v.s
    ensures !v.Str? ==> r != []
  {
    match v
    case Null => "None"
    case Bool(b) => if b then "True" else "False"
    case Int(i) => if i < 0 then "-" + NatToDecimal(-i) else NatToDecimal(i)
    case Str(s) => s
    case Array(_) => "[...]"
    case Object(_) => "{...}"
  }
}
