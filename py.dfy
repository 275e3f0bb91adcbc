/** Python values as they arrive in a decoded JSON payload or a Supabase row,
    with the dictionary operations, truthiness and exceptions the source uses. */
module Py {
  import opened Wrappers
  import PyStr

  /** A decoded JSON value. A dict keeps its keys in insertion order and has
      no key twice, as a Python `dict` built by `json.loads` has. */
  datatype Json =
    | JNull
    | JBool(b: bool)
    | JNum(n: real)
    | JStr(s: string)
    | JList(items: seq<Json>)
    | JDict(fields: seq<(string, Json)>)

  /** The exceptions the modelled code can raise. */
  datatype PyError =
    | KeyError(key: string)
    | TypeError(msg: string)
    | AttributeError(msg: string)
    | ZeroDivisionError(msg: string)
    | ValueError(msg: string)
  {
    /** `str(e)`: a `KeyError` shows its key quoted, the others their message. */
    function Str(): string {
      match this
      case KeyError(k) => "'" + k + "'"
      case TypeError(m) => m
      case AttributeError(m) => m
      case ZeroDivisionError(m) => m
      case ValueError(m) => m
    }
  }

  /** `bool(v)` in Python. */
  predicate Truthy(v: Json) {
    match v
    case JNull => false
    case JBool(b) => b
    case JNum(n) => n != 0.0
    case JStr(s) => |s| > 0
    case JList(xs) => |xs| > 0
    case JDict(fs) => |fs| > 0
  }

  /** Python's message for a missing attribute. */
  function AttributeMessage(typeName: string, attr: string): string {
    "'" + typeName + "' object has no attribute '" + attr + "'"
  }

  /** `type(v).__name__`. A JSON number carries no mark of how it was
      written, so a whole number is named "int" even where `json.loads`
      would have read "1.0" as a float; only the text of error messages
      depends on this. */
  function TypeName(v: Json): string {
    match v
    case JNull => "NoneType"
    case JBool(_) => "bool"
    case JNum(n) => if n == n.Floor as real then "int" else "float"
    case JStr(_) => "str"
    case JList(_) => "list"
    case JDict(_) => "dict"
  }

  predicate HasKey(fields: seq<(string, Json)>, key: string) {
    exists i :: 0 <= i < |fields| && fields[i].0 == key
  }

  /** The value stored under `key`, if any. */
  function Lookup(fields: seq<(string, Json)>, key: string): (r: Option<Json>)
    ensures r.Some? <==> HasKey(fields, key)
    ensures r.Some? ==> exists i :: 0 <= i < |fields| && fields[i] == (key, r.value)
    decreases |fields|
  {
    if |fields| == 0 then None
    else if fields[0].0 == key then Some(fields[0].1)
    else
      var r := Lookup(fields[1..], key);
      assert r.Some? ==> exists i :: 0 <= i < |fields[1..]| && fields[1..][i] == (key, r.value);
      assert HasKey(fields[1..], key) ==> HasKey(fields, key) by {
        if HasKey(fields[1..], key) {
          var i :| 0 <= i < |fields[1..]| && fields[1..][i].0 == key;
          assert fields[i + 1].0 == key;
        }
      }
      r
  }

  /** The value found is the one under the first occurrence of the key. */
  lemma {:induction false} LookupFirst(fields: seq<(string, Json)>, key: string, i: nat)
    requires i < |fields| && fields[i].0 == key
    requires forall j :: 0 <= j < i ==> fields[j].0 != key
    ensures Lookup(fields, key) == Some(fields[i].1)
    decreases i
  {
    if i > 0 {
      LookupFirst(fields[1..], key, i - 1);
    }
  }

  /** `d[key] = value`: an existing key keeps its place, a new one goes last. */
  function SetKey(fields: seq<(string, Json)>, key: string, value: Json): (r: seq<(string, Json)>)
    ensures Lookup(r, key) == Some(value)
    ensures forall k :: k != key ==> Lookup(r, k) == Lookup(fields, k)
    decreases |fields|
  {
    if |fields| == 0 then [(key, value)]
    else if fields[0].0 == key then [(key, value)] + fields[1..]
    else [fields[0]] + SetKey(fields[1..], key, value)
  }

  /** `d.get(key, default)` on a dict. */
  function Get(fields: seq<(string, Json)>, key: string, default: Json): Json {
    Lookup(fields, key).GetOr(default)
  }

  /** `v.get(key, default)` on a value that may not be a dict. */
  function DictGet(v: Json, key: string, default: Json): Result<Json, PyError> {
    if v.JDict? then Success(Get(v.fields, key, default))
    else Failure(AttributeError(AttributeMessage(TypeName(v), "get")))
  }

  /** `v[key]` with a string key. */
  function Index(v: Json, key: string): Result<Json, PyError> {
    match v
    case JDict(fs) => if HasKey(fs, key) then Success(Lookup(fs, key).value) else Failure(KeyError(key))
    case JStr(_) => Failure(TypeError("string indices must be integers, not 'str'"))
    case JList(_) => Failure(TypeError("list indices must be integers or slices, not str"))
    case _ => Failure(TypeError("'" + TypeName(v) + "' object is not subscriptable"))
  }

  /** `key in v` with a string on the left: a dict tests its keys, a string
      its substrings, a list its elements; anything else is not iterable. */
  function In(key: string, v: Json): Result<bool, PyError> {
    match v
    case JDict(fs) => Success(HasKey(fs, key))
    case JStr(s) => Success(PyStr.Contains(s, key))
    case JList(xs) => Success(JStr(key) in xs)
    case _ => Failure(TypeError("argument of type '" + TypeName(v) + "' is not iterable"))
  }
}
