/**
 * JSON values as the Python code holds them after `json.load` (dicts, lists, strings,
 * numbers, booleans and `None`), with the Python operations the code applies to them
 * and the exceptions those operations raise.
 */
module Json {
  import opened Wrappers
  import opened Errors
  import PyText

  /** Numbers are integers in this model. Dict key order is not kept. */
  datatype Json =
    | JNull
    | JBool(b: bool)
    | JNum(n: int)
    | JStr(s: string)
    | JArr(items: seq<Json>)
    | JObj(fields: map<string, Json>)

  /** `type(j).__name__`. */
  function TypeName(j: Json): string {
    match j
    case JNull => "NoneType"
    case JBool(_) => "bool"
    case JNum(_) => "int"
    case JStr(_) => "str"
    case JArr(_) => "list"
    case JObj(_) => "dict"
  }

  /** The `TypeError` text for `**j` or `dict(j)` on a value that is not a mapping. */
  function NotAMapping(j: Json): string {
    "'" + TypeName(j) + "' object is not a mapping"
  }

  /** Python truthiness (`bool(j)`). */
  predicate Truthy(j: Json) {
    match j
    case JNull => false
    case JBool(b) => b
    case JNum(n) => n != 0
    case JStr(s) => s != ""
    case JArr(a) => a != []
    case JObj(m) => m != map[]
  }

  /** `str(j)` for the hashable values (the only ones the modelled messages print). */
  function Str(j: Json): string
    requires !j.JArr? && !j.JObj?
  {
    match j
    case JNull => "None"
    case JBool(b) => if b then "True" else "False"
    case JNum(n) => PyText.IntToString(n)
    case JStr(s) => s
  }

  /** `repr(key)` for a string key, the text of a `KeyError`. */
  function KeyRepr(key: string): string {
    "'" + key + "'"
  }

  /** `key in c` for a string key. */
  function In(key: string, c: Json): (r: Result<bool, Exc>)
    ensures c.JObj? ==> r == Success(key in c.fields)
    ensures r.Failure? <==> !(c.JObj? || c.JArr? || c.JStr?)
    ensures r.Failure? ==> r.error.cls == TypeError
  {
    match c
    case JObj(m) => Success(key in m)
    case JArr(a) => Success(JStr(key) in a)
    case JStr(s) => Success(PyText.Contains(s, key))
    case _ => Failure(Exc(TypeError, "argument of type '" + TypeName(c) + "' is not iterable"))
  }

  /** `c[key]` for a string key. */
  function At(c: Json, key: string): (r: Result<Json, Exc>)
    ensures r.Success? <==> c.JObj? && key in c.fields
    ensures r.Success? ==> r.value == c.fields[key]
    ensures r.Failure? ==> r.error == (if c.JObj? then Exc(KeyError, KeyRepr(key)) else Exc(TypeError, r.error.msg))
  {
    match c
    case JObj(m) =>
      if key in m then Success(m[key]) else Failure(Exc(KeyError, KeyRepr(key)))
    case JArr(_) => Failure(Exc(TypeError, "list indices must be integers or slices, not str"))
    case JStr(_) => Failure(Exc(TypeError, "string indices must be integers, not 'str'"))
    case _ => Failure(Exc(TypeError, "'" + TypeName(c) + "' object is not subscriptable"))
  }

  /** `c.get(key, default)`: only dicts have `get`. */
  function GetOr(c: Json, key: string, default: Json): (r: Result<Json, Exc>)
    ensures r.Success? <==> c.JObj?
    ensures c.JObj? && key in c.fields ==> r == Success(c.fields[key])
    ensures c.JObj? && key !in c.fields ==> r == Success(default)
  {
    match c
    case JObj(m) => Success(if key in m then m[key] else default)
    case _ => Failure(Exc(AttributeError, "'" + TypeName(c) + "' object has no attribute 'get'"))
  }

  /** `c[k]` for a non-negative integer index; a dict never holds an integer key here. */
  function Index(c: Json, k: nat): (r: Result<Json, Exc>)
    ensures r.Success? <==> (c.JArr? && k < |c.items|) || (c.JStr? && k < |c.s|)
    ensures c.JArr? && k < |c.items| ==> r.value == c.items[k]
    ensures c.JArr? && k >= |c.items| ==> r == Failure(Exc(IndexError, "list index out of range"))
  {
    match c
    case JArr(a) => if k < |a| then Success(a[k]) else Failure(Exc(IndexError, "list index out of range"))
    case JStr(s) => if k < |s| then Success(JStr([s[k]])) else Failure(Exc(IndexError, "string index out of range"))
    case JObj(_) => Failure(Exc(KeyError, PyText.IntToString(k)))
    case _ => Failure(Exc(TypeError, "'" + TypeName(c) + "' object is not subscriptable"))
  }

  /** `len(c)`: lists, strings and dicts have a length. */
  function Len(c: Json): (r: Result<nat, Exc>)
    ensures r.Success? <==> c.JArr? || c.JStr? || c.JObj?
    ensures c.JArr? ==> r == Success(|c.items|)
  {
    match c
    case JArr(a) => Success(|a|)
    case JStr(s) => Success(|s|)
    case JObj(m) => Success(|m|)
    case _ => Failure(NoLen(c))
  }

  /** The `TypeError` of `len` on a value without a length. */
  function NoLen(c: Json): Exc {
    Exc(TypeError, "object of type '" + TypeName(c) + "' has no len()")
  }

  /**
   * `str(j)` as an f-string prints it, except that a list or dict prints as the placeholder
   * `<list>` or `<dict>` where Python prints its repr.
   */
  function Text(j: Json): string {
    if j.JArr? || j.JObj? then "<" + TypeName(j) + ">" else Str(j)
  }

  /**
   * Iterating `c` as a list, or the `TypeError` for the other values. Python would also
   * iterate a dict (its keys) or a string (its characters); the model does not.
   */
  function Items(c: Json): (r: Result<seq<Json>, Exc>)
    ensures r.Success? <==> c.JArr?
  {
    match c
    case JArr(a) => Success(a)
    case _ => Failure(Exc(TypeError, "'" + TypeName(c) + "' object is not a list"))
  }

  /** A number or a boolean, the values Python compares numerically. */
  function NumVal(j: Json): int
    requires j.JNum? || j.JBool?
  {
    if j.JNum? then j.n else if j.b then 1 else 0
  }

  /** Python `==` between two JSON values (`True == 1`; dict comparison ignores key order). */
  predicate PyEq(a: Json, b: Json)
    decreases a
  {
    if (a.JNum? || a.JBool?) && (b.JNum? || b.JBool?) then NumVal(a) == NumVal(b)
    else match a
      case JNull => b.JNull?
      case JStr(s) => b == JStr(s)
      case JArr(x) =>
        b.JArr? && |x| == |b.items| && forall i :: 0 <= i < |x| ==> PyEq(x[i], b.items[i])
      case JObj(m) =>
        b.JObj? && m.Keys == b.fields.Keys && forall k :: k in m ==> PyEq(m[k], b.fields[k])
      case _ => false
  }

  /** Python equality is reflexive on these values. */
  lemma {:induction false} PyEqReflexive(a: Json)
    ensures PyEq(a, a)
    decreases a
  {
    match a
    case JArr(x) =>
      forall i | 0 <= i < |x| ensures PyEq(x[i], x[i]) { PyEqReflexive(x[i]); }
    case JObj(m) =>
      forall k | k in m ensures PyEq(m[k], m[k]) { PyEqReflexive(m[k]); }
    case _ =>
  }

  /** `{"type": "FeatureCollection", "features": fs}`. */
  function FeatureCollection(fs: seq<Json>): Json {
    JObj(map["type" := JStr("FeatureCollection"), "features" := JArr(fs)])
  }

  /** `{"type": "Feature", "geometry": g, "properties": p}`. */
  function Feature(g: Json, p: Json): Json {
    JObj(map["type" := JStr("Feature"), "geometry" := g, "properties" := p])
  }
}
