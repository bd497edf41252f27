/**
 * JSON-like values as the client sees them once the transport has parsed a
 * response, Python truthiness over them, and the error taxonomy the library
 * raises.
 */
module Json {

  /** A parsed JSON value; objects are dictionaries keyed by strings. */
  datatype Value =
    | Null
    | Bool(b: bool)
    | Int(i: int)
    | Str(s: string)
    | List(items: seq<Value>)
    | Map(fields: map<string, Value>)

  /** Python truthiness: None, False, 0, "", [] and {} are falsy. */
  predicate Truthy(v: Value)
  {
    match v
    case Null => false
    case Bool(b) => b
    case Int(i) => i != 0
    case Str(s) => s != ""
    case List(items) => items != []
    case Map(fields) => fields != map[]
  }

  /** `d.get(key)`: the stored value, or None when the key is absent. */
  function Get(m: map<string, Value>, key: string): (r: Value)
    ensures key !in m ==> r == Null
    ensures key in m ==> r == m[key]
  {
    if key in m then m[key] else Null
  }

  /** The dictionary comprehension `{k: v for k, v in m.items() if k in keys}`. */
  function Restrict(m: map<string, Value>, keys: set<string>): (r: map<string, Value>)
    ensures r.Keys == m.Keys * keys
    ensures forall k :: k in r ==> r[k] == m[k]
  {
    map k | k in m && k in keys :: m[k]
  }

  /** Decimal digits of a natural number, most significant first. */
  function NatToString(n: nat): (r: string)
    ensures |r| > 0
    ensures forall i :: 0 <= i < |r| ==> '0' <= r[i] <= '9'
    decreases n
  {
    var digit := ['0' + (n % 10) as char];
    if n < 10 then digit else NatToString(n / 10) + digit
  }

  /**
   * `str(v)` for the scalar values an identifier can hold. Lists and
   * dictionaries render as a fixed marker rather than Python's repr.
   */
  function Render(v: Value): (r: string)
    ensures v.Str? ==> r == v.s
    ensures v.Int? && v.i >= 0 ==> r == NatToString(v.i)
    ensures !v.Str? ==> r != ""
  {
    match v
    case Null => "None"
    case Bool(b) => if b then "True" else "False"
    case Int(i) => if i < 0 then "-" + NatToString(-i) else NatToString(i)
    case Str(s) => s
    case List(_) => "[...]"
    case Map(_) => "{...}"
  }

  /** The exceptions the modelled code raises or lets through. */
  datatype Error =
    | ClientError(message: string)
      // the version gate's ClientError, naming the url and both versions
    | VersionError(url: string, current: seq<int>, minimum: seq<int>)
    | BadRequest(path: Option<string>, httpMethod: string, message: string)
    | KeyError(key: string)
    | TypeError(message: string)
    | AttributeError(name: string)
    | ValueError(message: string)
      // an error the HTTP collaborator raised, surfaced verbatim
    | HttpError(status: nat)
    | Failed
    | Timeout(seconds: int)
    | StopIteration

  datatype Option<+T> = None | Some(value: T)

  datatype Result<+T> = Ok(value: T) | Err(error: Error)

  /** The outcome of a call whose return value is `self` or `None`. */
  datatype Outcome = Pass | Fail(error: Error)

  /** Python truthiness of an optional string attribute such as `data_key`. */
  predicate KeyTruthy(o: Option<string>)
  {
    o.Some? && o.value != ""
  }
}
