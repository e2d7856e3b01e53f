/**
 * Python values as the route records and the parsed JSON configuration carry
 * them: the JSON kinds, plus the function objects that `getattr` hands back.
 */
module Values {

  datatype Option<+T> = None | Some(value: T)

  datatype Value =
    | Null
    | Bool(b: bool)
    | Num(n: int)
    | Str(s: string)
    | List(items: seq<Value>)
      // a dict, its entries in insertion order; a repeated key is found at its first entry
    | Dict(entries: seq<(string, Value)>)
      // a function object, named by the attribute it was read from
    | Function(name: string)

  /** `d[key]` on a dict: None where Python raises KeyError. */
  function Lookup(entries: seq<(string, Value)>, key: string): Option<Value> {
    if entries == [] then None
    else if entries[0].0 == key then Some(entries[0].1)
    else Lookup(entries[1..], key)
  }

  /** A key is found exactly when some entry has it, and then the value found is that entry's. */
  lemma {:induction false} LookupFinds(entries: seq<(string, Value)>, key: string)
    ensures Lookup(entries, key).Some? <==> exists i :: 0 <= i < |entries| && entries[i].0 == key
    ensures Lookup(entries, key).Some? ==> exists i :: 0 <= i < |entries| && entries[i] == (key, Lookup(entries, key).value)
  {
    if entries != [] && entries[0].0 != key {
      LookupFinds(entries[1..], key);
      assert forall i :: 1 <= i < |entries| ==> entries[i] == entries[1..][i - 1];
      if Lookup(entries, key).Some? {
        var i :| 0 <= i < |entries[1..]| && entries[1..][i] == (key, Lookup(entries, key).value);
        assert entries[i + 1] == (key, Lookup(entries, key).value);
      }
    }
  }

  /** `d.get(key, fallback)` on a dict. */
  function Get(entries: seq<(string, Value)>, key: string, fallback: Value): Value {
    match Lookup(entries, key)
    case Some(v) => v
    case None => fallback
  }

  /**
   * What `for x in v` visits: the items of a list, the one-character strings
   * of a string, the keys of a dict; None where Python raises TypeError
   * (null, booleans, numbers and functions are not iterable).
   */
  function Elements(v: Value): (xs: Option<seq<Value>>)
    ensures xs.Some? <==> v.List? || v.Str? || v.Dict?
    ensures v.List? ==> xs == Some(v.items)
    ensures v.Str? ==> xs.Some? && |xs.value| == |v.s|
                       && forall i :: 0 <= i < |v.s| ==> xs.value[i] == Str([v.s[i]])
    ensures v.Dict? ==> xs.Some? && |xs.value| == |v.entries|
                        && forall i :: 0 <= i < |v.entries| ==> xs.value[i] == Str(v.entries[i].0)
    ensures xs.Some? && !v.List? ==> forall x :: x in xs.value ==> x.Str?
  {
    match v
    case List(items) => Some(items)
    case Str(s) => Some(seq(|s|, i requires 0 <= i < |s| => Str([s[i]])))
    case Dict(entries) => Some(seq(|entries|, i requires 0 <= i < |entries| => Str(entries[i].0)))
    case _ => None
  }
}
