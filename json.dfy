/** Parsed JSON values, read with the semantics of the Python operations the integration
    applies to them (`dict.get`, `d[k]`, iteration, truthiness, `==`, `str`). */
module Json {
  import opened Wrappers
  import opened Text

  /** A decoded JSON document. Objects are association lists in insertion order, as Python
      dicts are; a decoded dict never repeats a key, so the first pair for a key is the one.
      `JNull` is also Python's `None`. */
  datatype Json =
    | JNull
    | JBool(b: bool)
    | JInt(i: int)
    | JStr(s: string)
    | JArr(items: seq<Json>)
    | JObj(fields: seq<(string, Json)>)

  /** The Python exceptions the modelled code can raise. */
  datatype PyError =
    | KeyError(key: string)   // `d[k]` on a dict without `k`
    | TypeError               // subscripting or iterating a value that does not support it; unhashable key
    | AttributeError          // `.get`, `.lower()` and the like on a value without that method
    | ValueError              // an enum built from a value it does not define
    | OSError                 // a file that cannot be opened or read
    | DecodeError             // `json.JSONDecodeError`
    | HomeError               // `WizHomeError` from the home module
    | HomeParsingError        // `WizHomeParsingError` from the home module

  predicate IsDict(j: Json) { j.JObj? }

  /** Python truthiness of a decoded value. */
  predicate Truthy(j: Json) {
    match j
    case JNull => false
    case JBool(b) => b
    case JInt(i) => i != 0
    case JStr(s) => s != ""
    case JArr(items) => items != []
    case JObj(fields) => fields != []
  }

  function Lookup(fields: seq<(string, Json)>, k: string): (r: Option<Json>)
    ensures r.Some? <==> exists i :: 0 <= i < |fields| && fields[i].0 == k
  {
    if fields == [] then None
    else if fields[0].0 == k then Some(fields[0].1)
    else Lookup(fields[1..], k)
  }

  /** `j.get(k, default)` */
  function Get(j: Json, k: string, default: Json): (r: Result<Json, PyError>)
    ensures r.Err? <==> !IsDict(j)
    ensures r.Err? ==> r.error == AttributeError
    ensures IsDict(j) && Lookup(j.fields, k).None? ==> r == Ok(default)
    ensures IsDict(j) && Lookup(j.fields, k).Some? ==> r == Ok(Lookup(j.fields, k).value)
  {
    if !j.JObj? then Err(AttributeError)
    else match Lookup(j.fields, k)
      case Some(v) => Ok(v)
      case None => Ok(default)
  }

  /** `j[k]` with a string key */
  function Subscript(j: Json, k: string): (r: Result<Json, PyError>)
    ensures !IsDict(j) ==> r == Err(TypeError)
    ensures IsDict(j) && Lookup(j.fields, k).None? ==> r == Err(KeyError(k))
    ensures IsDict(j) && Lookup(j.fields, k).Some? ==> r == Ok(Lookup(j.fields, k).value)
  {
    if !j.JObj? then Err(TypeError)
    else match Lookup(j.fields, k)
      case Some(v) => Ok(v)
      case None => Err(KeyError(k))
  }

  /** `"k" in j` for a dict */
  predicate HasKey(j: Json, k: string) {
    j.JObj? && Lookup(j.fields, k).Some?
  }

  /** What a `for` loop over `j` visits: list items, the characters of a string as
      one-character strings, the keys of a dict. Other values are not iterable. */
  function Elements(j: Json): (r: Result<seq<Json>, PyError>)
    ensures r.Err? <==> (j.JNull? || j.JBool? || j.JInt?)
    ensures r.Err? ==> r.error == TypeError
    ensures j.JArr? ==> r == Ok(j.items)
    ensures r.Ok? ==> (|r.value| == 0 <==> !Truthy(j))
    ensures r.Ok? && !j.JArr? ==> forall k :: 0 <= k < |r.value| ==> r.value[k].JStr?
  {
    match j
    case JArr(items) => Ok(items)
    case JStr(s) => Ok(seq(|s|, k requires 0 <= k < |s| => JStr([s[k]])))
    case JObj(fields) => Ok(seq(|fields|, k requires 0 <= k < |fields| => JStr(fields[k].0)))
    case _ => Err(TypeError)
  }

  /** Values that can be dict keys (lists and dicts are unhashable). */
  predicate Hashable(j: Json) {
    !j.JArr? && !j.JObj?
  }

  /** Python `==` on scalars: `True == 1` and `False == 0`; otherwise structural equality. */
  predicate PyEq(a: Json, b: Json) {
    if (a.JBool? || a.JInt?) && (b.JBool? || b.JInt?) then NumberOf(a) == NumberOf(b) else a == b
  }

  function NumberOf(j: Json): int
    requires j.JBool? || j.JInt?
  {
    if j.JBool? then (if j.b then 1 else 0) else j.i
  }

  /** `repr(j)` */
  function Repr(j: Json): string
    decreases j
  {
    match j
    case JNull => "None"
    case JBool(b) => if b then "True" else "False"
    case JInt(i) => IntToString(i)
    case JStr(s) => "'" + s + "'"
    case JArr(items) =>
      "[" + Join(", ", seq(|items|, k requires 0 <= k < |items| => Repr(items[k]))) + "]"
    case JObj(fields) =>
      "{" + Join(", ", seq(|fields|, k requires 0 <= k < |fields| =>
        assert fields[k] in fields;
        "'" + fields[k].0 + "': " + Repr(fields[k].1))) + "}"
  }

  /** `str(j)`, which is what an f-string inserts */
  function Str(j: Json): (r: string)
    ensures j.JStr? ==> r == j.s
  {
    if j.JStr? then j.s else Repr(j)
  }
}
