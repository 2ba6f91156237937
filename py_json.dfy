/** Decoded JSON values as the Python code sees them (`json.loads` output), with
    the handful of Python operations applied to them: `dict.get`, `in`,
    truthiness, `==` against an int, iteration, hashing and `str(...)`. */
module PyJson {
  import opened Wrappers
  import opened PyText

  /** A decoded JSON value. Numbers are integers; a JSON object is a Python dict,
      kept as its entries in insertion order. */
  datatype Json =
    | JNull
    | JBool(b: bool)
    | JNum(n: int)
    | JStr(s: string)
    | JArr(items: seq<Json>)
    | JObj(fields: seq<(string, Json)>)

  type Dict = seq<(string, Json)>

  /** The value bound to `k`, if any: that of the first field with key `k`
      (`LookupFirst`). */
  function Lookup(d: Dict, k: string): (r: Option<Json>)
    ensures r.None? <==> forall i :: 0 <= i < |d| ==> d[i].0 != k
  {
    if d == [] then None
    else if d[0].0 == k then Some(d[0].1)
    else Lookup(d[1..], k)
  }

  /** A key that is found yields the value of the first field bound to it; `i` is
      that field's position. */
  lemma {:induction false} LookupFirst(d: Dict, k: string) returns (i: nat)
    requires Lookup(d, k).Some?
    ensures i < |d| && d[i] == (k, Lookup(d, k).value)
    ensures forall j :: 0 <= j < i ==> d[j].0 != k
  {
    if d[0].0 == k {
      i := 0;
    } else {
      var i' := LookupFirst(d[1..], k);
      i := i' + 1;
    }
  }

  /** `k in d`. */
  predicate Has(d: Dict, k: string) {
    Lookup(d, k).Some?
  }

  /** `d.get(k, default)`. */
  function GetOr(d: Dict, k: string, default: Json): Json {
    match Lookup(d, k)
    case Some(v) => v
    case None => default
  }

  /** `d.get(k)`. */
  function Get(d: Dict, k: string): Json {
    GetOr(d, k, JNull)
  }

  /** Python truthiness: `bool(v)`. */
  predicate Truthy(v: Json) {
    match v
    case JNull => false
    case JBool(b) => b
    case JNum(n) => n != 0
    case JStr(s) => s != ""
    case JArr(items) => items != []
    case JObj(fields) => fields != []
  }

  /** `v == n` for an int literal `n`: True compares equal to 1 and False to 0. */
  predicate EqualsInt(v: Json, n: int) {
    match v
    case JNum(m) => m == n
    case JBool(b) => (if b then 1 else 0) == n
    case _ => false
  }

  /** `type(v).__name__`. */
  function TypeName(v: Json): string {
    match v
    case JNull => "NoneType"
    case JBool(_) => "bool"
    case JNum(_) => "int"
    case JStr(_) => "str"
    case JArr(_) => "list"
    case JObj(_) => "dict"
  }

  /** The text of the AttributeError raised by `v.attr` on a value lacking that method. */
  function NoAttribute(v: Json, attr: string): string {
    "'" + TypeName(v) + "' object has no attribute '" + attr + "'"
  }

  /** `for x in v`: a list yields its items, a string its characters, a dict its keys;
      anything else raises TypeError. */
  function Iterate(v: Json): (r: Try<seq<Json>>)
    ensures r.Raise? <==> v.JNull? || v.JBool? || v.JNum?
    ensures v.JArr? ==> r == Ok(v.items)
  {
    match v
    case JArr(items) => Ok(items)
    case JStr(s) => Ok(seq(|s|, i requires 0 <= i < |s| => JStr([s[i]])))
    case JObj(fields) => Ok(seq(|fields|, i requires 0 <= i < |fields| => JStr(fields[i].0)))
    case _ => Raise("'" + TypeName(v) + "' object is not iterable")
  }

  /** Lists and dicts cannot be dict keys. */
  predicate Hashable(v: Json) {
    !v.JArr? && !v.JObj?
  }

  function Unhashable(v: Json): string {
    "unhashable type: '" + TypeName(v) + "'"
  }

  /** `str(v)`: a string is itself, anything else its repr. */
  function Str(v: Json): string {
    if v.JStr? then v.s else Repr(v)
  }

  /** `repr(v)`; strings are quoted with single quotes and no escaping. */
  function Repr(v: Json): string
    decreases v, 1
  {
    match v
    case JNull => "None"
    case JBool(b) => if b then "True" else "False"
    case JNum(n) => IntToString(n)
    case JStr(s) => "'" + s + "'"
    case JArr(items) => "[" + ReprItems(items) + "]"
    case JObj(_) => "{" + ReprFields(v, 0) + "}"
  }

  function ReprItems(items: seq<Json>): string
    decreases items, 0
  {
    if items == [] then ""
    else if |items| == 1 then Repr(items[0])
    else Repr(items[0]) + ", " + ReprItems(items[1..])
  }

  /** The entries of the dict `v` from position `i` on, as repr shows them. */
  function ReprFields(v: Json, i: nat): string
    requires v.JObj? && i <= |v.fields|
    decreases v, 0, |v.fields| - i
  {
    if i == |v.fields| then ""
    else
      assert v.fields[i] in v.fields;
      var entry := "'" + v.fields[i].0 + "': " + Repr(v.fields[i].1);
      if i + 1 == |v.fields| then entry else entry + ", " + ReprFields(v, i + 1)
  }

}
