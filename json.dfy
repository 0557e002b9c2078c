/**
 * A parsed JSON document, as `json.loads` / `resp.json()` hand it to the
 * balance watcher, and Python's `float(x)` applied to such a value
 * (`try_parse_float`).
 */
module JsonValues {
  import opened Wrappers

  /** An object keeps its members in insertion order, as a Python dict does. */
  datatype Json =
    | JNull
    | JBool(b: bool)
    | JNum(n: real)
    | JStr(s: string)
    | JArray(items: seq<Json>)
    | JObject(fields: seq<Field>)

  datatype Field = Field(key: string, value: Json)

  /** Python's `float(s)` on a string: `None` when it raises.  Its grammar is not modelled. */
  type FloatParser = string -> Option<real>

  /** Python's `int(s)` on a string: `None` when it raises. */
  type IntParser = string -> Option<int>

  /**
   * `try_parse_float`: `float(x)`, or `None` when that raises.  Numbers convert
   * exactly, `True`/`False` convert to 1.0/0.0, strings go to the parser, and
   * `None`, lists and dicts raise.
   */
  function TryParseFloat(v: Json, parse: FloatParser): (r: Option<real>)
    ensures v.JNum? ==> r == Some(v.n)
    ensures v.JBool? ==> r == Some(if v.b then 1.0 else 0.0)
    ensures v.JStr? ==> r == parse(v.s)
    ensures r.Some? ==> v.JNum? || v.JBool? || v.JStr?
  {
    match v
    case JNum(n) => Some(n)
    case JBool(b) => Some(if b then 1.0 else 0.0)
    case JStr(s) => parse(s)
    case _ => None
  }

  /**
   * Python truthiness of a JSON value (`if not x`): the falsy values are
   * exactly `None`, `False`, zero and the empty string, list and dict.
   */
  predicate Truthy(v: Json): (r: bool)
    ensures !r <==> v in {JNull, JBool(false), JNum(0.0), JStr(""), JArray([]), JObject([])}
  {
    match v
    case JNull => false
    case JBool(b) => b
    case JNum(n) => n != 0.0
    case JStr(s) => s != ""
    case JArray(items) => items != []
    case JObject(fields) => fields != []
  }

  /** `d.get(key)` on a dict: the value stored under `key`, if any. */
  function Get(fields: seq<Field>, key: string): Option<Json>
  {
    if fields == [] then None
    else if fields[0].key == key then Some(fields[0].value)
    else Get(fields[1..], key)
  }

  /** With distinct keys before it, the entry at `i` is the one `get` finds. */
  lemma {:induction false} GetAt(fields: seq<Field>, key: string, i: int)
    requires 0 <= i < |fields| && fields[i].key == key
    requires forall k :: 0 <= k < i ==> fields[k].key != key
    ensures Get(fields, key) == Some(fields[i].value)
  {
    if i > 0 {
      assert forall k :: 1 <= k < |fields| ==> fields[1..][k - 1] == fields[k];
      GetAt(fields[1..], key, i - 1);
    }
  }

  /** A key held by no entry is not found. */
  lemma {:induction false} GetMissing(fields: seq<Field>, key: string)
    requires forall k :: 0 <= k < |fields| ==> fields[k].key != key
    ensures Get(fields, key) == None
  {
    if fields != [] {
      assert forall k :: 1 <= k < |fields| ==> fields[1..][k - 1] == fields[k];
      GetMissing(fields[1..], key);
    }
  }

  /** `d.get(key, default)`. */
  function GetOr(fields: seq<Field>, key: string, default: Json): Json
  {
    match Get(fields, key)
    case Some(v) => v
    case None => default
  }
}
