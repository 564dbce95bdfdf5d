/** A JSON/YAML value as the Python code sees it after `json.loads` or `yaml.safe_load`:
    `None`, `bool`, `int`, `str`, `list` and `dict` (string keys, insertion order kept). */
module Values {
  import opened Wrappers
  import opened Text

  datatype Value =
    | Null
    | Bool(b: bool)
    | Int(i: int)
    | Str(s: string)
    | List(items: seq<Value>)
    | Dict(fields: seq<(string, Value)>)

  /** A Python dict never holds a key twice. */
  predicate DistinctKeys<V>(fields: seq<(string, V)>) {
    forall i, j :: 0 <= i < j < |fields| ==> fields[i].0 != fields[j].0
  }

  function Keys<V>(fields: seq<(string, V)>): (ks: set<string>)
    ensures forall i :: 0 <= i < |fields| ==> fields[i].0 in ks
    ensures forall k :: k in ks ==> exists i :: 0 <= i < |fields| && fields[i].0 == k
  {
    if fields == [] then {} else {fields[0].0} + Keys(fields[1..])
  }

  /** `d.get(key)`: the value stored under `key`, or `None`. */
  function Lookup<V>(fields: seq<(string, V)>, key: string): (r: Option<V>)
    ensures r.None? <==> key !in Keys(fields)
    ensures r.Some? ==> exists i :: 0 <= i < |fields| && fields[i] == (key, r.value)
  {
    if fields == [] then None
    else if fields[0].0 == key then Some(fields[0].1)
    else
      var r := Lookup(fields[1..], key);
      assert r.Some? ==> exists i :: 1 <= i < |fields| && fields[i] == (key, r.value) by {
        if r.Some? {
          var i :| 0 <= i < |fields[1..]| && fields[1..][i] == (key, r.value);
          assert fields[i + 1] == (key, r.value);
        }
      }
      r
  }

  /** On a dict without duplicate keys, `Lookup` finds exactly the stored entry. */
  lemma {:induction false} LookupAt<V>(fields: seq<(string, V)>, i: nat)
    requires DistinctKeys(fields) && i < |fields|
    ensures Lookup(fields, fields[i].0) == Some(fields[i].1)
  {
    if i > 0 {
      assert fields[0].0 != fields[i].0;
      assert fields[1..][i - 1] == fields[i];
      LookupAt(fields[1..], i - 1);
    }
  }

  /** `bool(v)`: Python truthiness. */
  predicate Truthy(v: Value) {
    match v
    case Null => false
    case Bool(b) => b
    case Int(i) => i != 0
    case Str(s) => s != ""
    case List(items) => items != []
    case Dict(fields) => fields != []
  }

  /** `str(v)` for the values that are not containers. */
  function ShowScalar(v: Value): string
    requires !v.List? && !v.Dict?
  {
    match v
    case Null => "None"
    case Bool(b) => if b then "True" else "False"
    case Int(i) => IntToString(i)
    case Str(s) => s
  }

  /** `repr(v)`. */
  function ReprValue(v: Value): string {
    match v
    case Str(s) => Repr(s)
    case List(items) =>
      "[" + Join(", ", seq(|items|, i requires 0 <= i < |items| => ReprValue(items[i]))) + "]"
    case Dict(fields) =>
      "{" + Join(", ", seq(|fields|, i requires 0 <= i < |fields| =>
                             Repr(fields[i].0) + ": " + ReprValue(fields[i].1))) + "}"
    case _ => ShowScalar(v)
  }

  /** `str(v)`: as `repr` except that a string is shown without quotes. */
  function Show(v: Value): string {
    if v.List? || v.Dict? then ReprValue(v) else ShowScalar(v)
  }
}
