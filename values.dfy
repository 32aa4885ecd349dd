/**
 * Loaded YAML/JSON values and the few Python operations the scripts apply to
 * them: `d[k]`, `d.get(k, default)`, `k in x`, `len(x)`, truthiness,
 * `s.strip()`, `s.lower()` and `d[k] = v`, each with the exception Python
 * raises when the value has the wrong type.  Mapping keys are strings.
 */
module Values {
  import opened Wrappers
  import opened Text

  datatype Value =
    | Null
    | Bool(b: bool)
    | Int(i: int)
    | Real(r: real)
    | Str(s: string)
    | List(items: seq<Value>)
    | Dict(entries: map<string, Value>)

  /** The Python exceptions these operations (and the scripts) can raise. */
  datatype PyError = KeyError | TypeError | AttributeError | ValueError | ZeroDivisionError

  /** `v[key]`: a missing key of a mapping is a KeyError, any other value is not subscriptable by a string. */
  function Index(v: Value, key: string): (r: Result<Value, PyError>)
    ensures r.Success? <==> v.Dict? && key in v.entries
    ensures r.Success? ==> r.value == v.entries[key]
    ensures r == Failure(KeyError) <==> v.Dict? && key !in v.entries
    ensures r.Failure? ==> r.error == KeyError || r.error == TypeError
  {
    if !v.Dict? then Failure(TypeError)
    else if key in v.entries then Success(v.entries[key])
    else Failure(KeyError)
  }

  /** `v.get(key, default)`: only mappings have `get`. */
  function Get(v: Value, key: string, default: Value): (r: Result<Value, PyError>)
    ensures r.Success? <==> v.Dict?
    ensures r.Success? && key in v.entries ==> r.value == v.entries[key]
    ensures r.Success? && key !in v.entries ==> r.value == default
    ensures r.Failure? ==> r.error == AttributeError
  {
    if !v.Dict? then Failure(AttributeError)
    else if key in v.entries then Success(v.entries[key])
    else Success(default)
  }

  /** `key in v` for a string `key`: key of a mapping, element of a list, substring of a string. */
  function Contains(v: Value, key: string): (r: Result<bool, PyError>)
    ensures r.Success? <==> v.Dict? || v.List? || v.Str?
    ensures v.Dict? ==> r == Success(key in v.entries)
    ensures v.List? ==> r == Success(Str(key) in v.items)
    ensures v.Str? ==> r == Success(ContainsSub(v.s, key))
    ensures r.Failure? ==> r.error == TypeError
  {
    match v
    case Dict(m) => Success(key in m)
    case List(items) => Success(Str(key) in items)
    case Str(s) => Success(ContainsSub(s, key))
    case _ => Failure(TypeError)
  }

  /** `len(v)`. */
  function Len(v: Value): (r: Result<nat, PyError>)
    ensures r.Success? <==> v.Str? || v.List? || v.Dict?
  {
    match v
    case Str(s) => Success(|s|)
    case List(items) => Success(|items|)
    case Dict(m) => Success(|m|)
    case _ => Failure(TypeError)
  }

  /** `bool(v)`: None, False, zero and empty containers are false. */
  predicate Truthy(v: Value) {
    match v
    case Null => false
    case Bool(b) => b
    case Int(i) => i != 0
    case Real(r) => r != 0.0
    case Str(s) => s != []
    case List(items) => items != []
    case Dict(m) => m != map[]
  }

  /** `v.strip()`: only strings have it. */
  function StripValue(v: Value): (r: Result<string, PyError>)
    ensures r.Success? <==> v.Str?
    ensures r.Success? ==> r.value == Strip(v.s)
  {
    if v.Str? then Success(Strip(v.s)) else Failure(AttributeError)
  }

  /** `v.lower()`. */
  function LowerValue(v: Value): (r: Result<string, PyError>)
    ensures r.Success? <==> v.Str?
    ensures r.Success? ==> r.value == Lower(v.s)
  {
    if v.Str? then Success(Lower(v.s)) else Failure(AttributeError)
  }

  /** `v[key] = x` on a mapping, giving the updated mapping; other values refuse item assignment. */
  function SetKey(v: Value, key: string, x: Value): (r: Result<Value, PyError>)
    ensures r.Success? <==> v.Dict?
  {
    if v.Dict? then Success(Dict(v.entries[key := x])) else Failure(TypeError)
  }

  /** The assignment adds or replaces `key` and leaves every other key and value as it was. */
  lemma SetKeyEffect(v: Value, key: string, x: Value)
    requires v.Dict?
    ensures var r := SetKey(v, key, x).value;
            r.Dict? && r.entries.Keys == v.entries.Keys + {key} && r.entries[key] == x &&
            forall k :: k in v.entries && k != key ==> r.entries[k] == v.entries[k]
  {
  }
}
