/** Decoded TOML documents as `tomli` hands them to the drivers, and the few
    Python operations the drivers apply to them: `dict.get`, truthiness,
    `isinstance`, and iterating a value (`for x in v`, `set(v)`). */
module Toml {
  import opened Wrappers

  /** A decoded TOML value. A table keeps its keys in document order, as a
      Python `dict` does; `tomli` never yields a key twice. Floats and
      date-times are not part of this model. */
  datatype Value =
    | TStr(s: string)
    | TInt(i: int)
    | TBool(b: bool)
    | TArray(items: seq<Value>)
    | TTable(entries: seq<(string, Value)>)

  type Table = seq<(string, Value)>

  /** `key in table`. */
  predicate HasKey(t: Table, key: string) {
    exists i :: 0 <= i < |t| && t[i].0 == key
  }

  /** `table.get(key)`. */
  function Get(t: Table, key: string): (r: Option<Value>)
    ensures r.Some? <==> HasKey(t, key)
    ensures r.Some? ==> exists i :: 0 <= i < |t| && t[i] == (key, r.value)
    decreases |t|
  {
    if |t| == 0 then None
    else if t[0].0 == key then Some(t[0].1)
    else
      var r := Get(t[1..], key);
      assert forall i :: 1 <= i < |t| ==> t[i] == t[1..][i - 1];
      assert HasKey(t, key) ==> HasKey(t[1..], key);
      r
  }

  /** `table.get(key, default)`. */
  function GetOr(t: Table, key: string, default: Value): (r: Value)
    ensures !HasKey(t, key) ==> r == default
    ensures HasKey(t, key) ==> Some(r) == Get(t, key)
  {
    match Get(t, key)
    case None => default
    case Some(v) => v
  }

  /** The keys of a table, in order. */
  function Keys(t: Table): (r: seq<string>)
    ensures |r| == |t|
    ensures forall i :: 0 <= i < |t| ==> r[i] == t[i].0
  {
    seq(|t|, i requires 0 <= i < |t| => t[i].0)
  }

  /** Python truthiness: empty strings, zero, `false` and empty collections
      are false. */
  predicate Truthy(v: Value) {
    match v
    case TStr(s) => |s| > 0
    case TInt(i) => i != 0
    case TBool(b) => b
    case TArray(items) => |items| > 0
    case TTable(entries) => |entries| > 0
  }

  /** `for x in v`: a string yields its characters, an array its items and a
      table its keys; an int or a bool cannot be iterated. */
  function Iterate(v: Value): (r: Option<seq<Value>>)
    ensures r.None? <==> v.TInt? || v.TBool?
    ensures v.TStr? ==> r == Some(seq(|v.s|, i requires 0 <= i < |v.s| => TStr([v.s[i]])))
    ensures v.TTable? ==>
      && r.Some? && |r.value| == |v.entries|
      && forall i :: 0 <= i < |v.entries| ==> r.value[i] == TStr(v.entries[i].0)
  {
    match v
    case TStr(s) => Some(seq(|s|, i requires 0 <= i < |s| => TStr([s[i]])))
    case TArray(items) => Some(items)
    case TTable(entries) => Some(seq(|entries|, i requires 0 <= i < |entries| => TStr(entries[i].0)))
    case _ => None
  }

  /** Whether Python can hash the value (so it can be a set member or be
      looked up in a set): lists and dicts cannot. */
  predicate Hashable(v: Value) {
    !v.TArray? && !v.TTable?
  }
}
