/**
 * A decoded JSON document as `response.json()` hands it to the server, and the
 * handful of Python operations the response filters perform on it, each with the
 * exception Python raises when the value has the wrong type.
 */
module Json {
  import opened Results
  import Text

  /** A JSON value; an object keeps its members in document order. */
  datatype Json =
    | JNull
    | JBool(b: bool)
    | JNum(n: int)
    | JStr(s: string)
    | JArray(items: seq<Json>)
    | JObject(fields: seq<(string, Json)>)

  /** The built-in exceptions the filter code can raise on an ill-shaped body. */
  datatype PyError = TypeError | AttributeError | KeyError | IndexError

  /** The keys of an object, in order. */
  function Keys(fields: seq<(string, Json)>): (ks: seq<string>)
    ensures |ks| == |fields|
    ensures forall k :: 0 <= k < |fields| ==> ks[k] == fields[k].0
  {
    if fields == [] then [] else [fields[0].0] + Keys(fields[1..])
  }

  /** A decoded dict never repeats a key. */
  ghost predicate UniqueKeys(fields: seq<(string, Json)>) {
    forall i, j :: 0 <= i < j < |fields| ==> fields[i].0 != fields[j].0
  }

  /** The value stored under `key`; for a dict (unique keys) this is the dict lookup. */
  function Lookup(fields: seq<(string, Json)>, key: string): Option<Json> {
    if fields == [] then None
    else if fields[0].0 == key then Some(fields[0].1)
    else Lookup(fields[1..], key)
  }

  lemma {:induction false} LookupFound(fields: seq<(string, Json)>, key: string)
    ensures Lookup(fields, key).Some? <==> key in Keys(fields)
  {
    if fields != [] {
      LookupFound(fields[1..], key);
      assert Keys(fields) == [fields[0].0] + Keys(fields[1..]);
    }
  }

  /** Python's `key in v` for a string `key`. */
  function In(key: string, v: Json): Result<bool, PyError> {
    match v
    case JObject(fields) => Ok(key in Keys(fields))
    case JArray(items) => Ok(JStr(key) in items)
    case JStr(s) => Ok(Text.Contains(s, key))
    case _ => Err(TypeError)               // int, bool and None are not iterable
  }

  /** Python's `v[key]` for a string `key`. */
  function Subscript(v: Json, key: string): Result<Json, PyError> {
    match v
    case JObject(fields) =>
      (match Lookup(fields, key)
       case Some(x) => Ok(x)
       case None => Err(KeyError))
    case JNull => Err(TypeError)           // 'NoneType' object is not subscriptable
    case _ => Err(TypeError)               // list/str indices must be integers
  }

  /** The elements a Python `for` loop visits when iterating over `v`. */
  function Iterate(v: Json): Result<seq<Json>, PyError> {
    match v
    case JArray(items) => Ok(items)
    case JObject(fields) => Ok(seq(|fields|, k requires 0 <= k < |fields| => JStr(fields[k].0)))
    case JStr(s) => Ok(seq(|s|, k requires 0 <= k < |s| => JStr([s[k]])))
    case _ => Err(TypeError)
  }

  /** `v.items()`: only a dict has it. */
  function Items(v: Json): Result<seq<(string, Json)>, PyError> {
    match v
    case JObject(fields) => Ok(fields)
    case _ => Err(AttributeError)
  }

  /** `v.get(key, default)`: only a dict has it. */
  function Get(v: Json, key: string, default: Json): Result<Json, PyError> {
    match v
    case JObject(fields) =>
      (match Lookup(fields, key)
       case Some(x) => Ok(x)
       case None => Ok(default))
    case _ => Err(AttributeError)
  }

  /** `v.upper()`: only a str has it. */
  function UpperOf(v: Json): Result<string, PyError> {
    match v
    case JStr(s) => Ok(Text.Upper(s))
    case _ => Err(AttributeError)
  }
}
