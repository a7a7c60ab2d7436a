/**
 * The loaded YAML configuration as untyped values, and the dictionary
 * look-ups `d[k]` and `d.get(k)` the configuration classes make on it.
 */
module Yaml {
  import opened Wrappers

  /** A YAML node; YAML `null` and Python `None` are the same value. */
  datatype Value =
    | Null
    | Bool(b: bool)
    | Num(n: int)
    | Str(s: string)
    | List(items: seq<Value>)
    | Dict(fields: map<string, Value>)

  type Mapping = map<string, Value>

  /**
   * What loading a configuration can raise: `KeyError` for a required key
   * that is missing, and a value whose type the configuration classes
   * cannot use.
   */
  datatype ConfigError = MissingKey(key: string) | WrongType(key: string)

  /** Python truthiness of a value (`None` is false). */
  predicate Truthy(v: Value) {
    match v
    case Null => false
    case Bool(b) => b
    case Num(n) => n != 0
    case Str(s) => s != ""
    case List(xs) => xs != []
    case Dict(m) => m != map[]
  }

  /** `d.get(k)`: absent keys and explicit nulls both give `None`. */
  function Get(d: Mapping, k: string): (r: Option<Value>)
    ensures r.Some? <==> k in d && !d[k].Null?
    ensures r.Some? ==> r.value == d[k]
  {
    if k in d && !d[k].Null? then Some(d[k]) else None
  }

  /** `d[k]` where the key must hold a string. */
  function RequireStr(d: Mapping, k: string): (r: Result<string, ConfigError>)
    ensures r.Success? <==> k in d && d[k].Str?
    ensures r.Success? ==> r.value == d[k].s
    ensures k !in d ==> r == Failure(MissingKey(k))
  {
    if k !in d then Failure(MissingKey(k))
    else if d[k].Str? then Success(d[k].s)
    else Failure(WrongType(k))
  }

  /** `d.get(k)` where the key, when present and not null, must hold a string. */
  function GetStr(d: Mapping, k: string): (r: Result<Option<string>, ConfigError>)
    ensures r.Success? <==> Get(d, k).None? || Get(d, k).value.Str?
    ensures r.Success? ==> (r.value.Some? <==> Get(d, k).Some?)
    ensures r.Success? && r.value.Some? ==> r.value.value == d[k].s
  {
    match Get(d, k)
    case None => Success(None)
    case Some(v) => if v.Str? then Success(Some(v.s)) else Failure(WrongType(k))
  }

  predicate AllStrings(xs: seq<Value>) {
    forall i :: 0 <= i < |xs| ==> xs[i].Str?
  }

  function Strings(xs: seq<Value>): (r: seq<string>)
    requires AllStrings(xs)
    ensures |r| == |xs| && forall i :: 0 <= i < |xs| ==> r[i] == xs[i].s
  {
    if xs == [] then [] else [xs[0].s] + Strings(xs[1..])
  }

  /** `d.get(k)` where the key, when present and not null, must hold a list of strings. */
  function GetStrList(d: Mapping, k: string): (r: Result<Option<seq<string>>, ConfigError>)
    ensures r.Success? <==> Get(d, k).None? || (Get(d, k).value.List? && AllStrings(d[k].items))
    ensures r.Success? ==> (r.value.Some? <==> Get(d, k).Some?)
  {
    match Get(d, k)
    case None => Success(None)
    case Some(v) =>
      if v.List? && AllStrings(v.items) then Success(Some(Strings(v.items))) else Failure(WrongType(k))
  }

  /** `d.get(k)` where the key, when present and not null, must hold an integer. */
  function GetNum(d: Mapping, k: string): (r: Result<Option<int>, ConfigError>)
    ensures r.Success? <==> Get(d, k).None? || Get(d, k).value.Num?
    ensures r.Success? ==> (r.value.Some? <==> Get(d, k).Some?)
    ensures r.Success? && r.value.Some? ==> r.value.value == d[k].n
  {
    match Get(d, k)
    case None => Success(None)
    case Some(v) => if v.Num? then Success(Some(v.n)) else Failure(WrongType(k))
  }

  predicate AllDicts(xs: seq<Value>) {
    forall i :: 0 <= i < |xs| ==> xs[i].Dict?
  }
}
