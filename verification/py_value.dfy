/**
 The Python values the bot works on: what `response.json()` hands back for a
 JSON body, Python's truthiness of those values, and `dict.get`.
 Floating-point numbers are not part of this model.
 */
module PyValue {

  datatype Option<+T> = None | Some(value: T)

  /** A decoded JSON document. A dict keeps its entries in document order,
      as a Python dict keeps insertion order. */
  datatype Value =
    | Null
    | Bool(b: bool)
    | Int(i: int)
    | Str(s: string)
    | List(items: seq<Value>)
    | Dict(entries: seq<(string, Value)>)

  /** Python's `bool(v)`: None, False, 0, "", [] and {} are falsy. */
  predicate Truthy(v: Value) {
    match v
    case Null => false
    case Bool(b) => b
    case Int(i) => i != 0
    case Str(s) => |s| > 0
    case List(items) => |items| > 0
    case Dict(entries) => |entries| > 0
  }

  /** The value bound to `key`. A JSON object that repeats a key decodes to a
      dict holding the last of its values, so the last entry wins. */
  function Lookup(entries: seq<(string, Value)>, key: string): (r: Option<Value>)
    ensures r.None? <==> forall i :: 0 <= i < |entries| ==> entries[i].0 != key
    ensures r.Some? ==>
      exists i :: 0 <= i < |entries| && entries[i] == (key, r.value) &&
        forall j :: i < j < |entries| ==> entries[j].0 != key
  {
    if |entries| == 0 then None
    else if entries[|entries| - 1].0 == key then Some(entries[|entries| - 1].1)
    else Lookup(entries[..|entries| - 1], key)
  }

  /** Looking a key up in a dict one entry longer: the new entry wins if it
      binds the key, otherwise the shorter dict decides. */
  lemma LookupSnoc(entries: seq<(string, Value)>, e: (string, Value), k: string)
    ensures Lookup(entries + [e], k) == if e.0 == k then Some(e.1) else Lookup(entries, k)
  {
    var a := entries + [e];
    assert a[|a| - 1] == e;
    assert a[..|a| - 1] == entries;
  }

  /** Rebinding one key leaves every other key's value as it was, wherever
      the rebound entry sits. */
  lemma {:induction false} LookupOther(pre: seq<(string, Value)>, key: string, x: Value, y: Value,
                                       post: seq<(string, Value)>, k: string)
    requires k != key
    ensures Lookup(pre + [(key, x)] + post, k) == Lookup(pre + [(key, y)] + post, k)
    decreases |post|
  {
    if |post| == 0 {
      assert pre + [(key, x)] + post == pre + [(key, x)];
      assert pre + [(key, y)] + post == pre + [(key, y)];
      LookupSnoc(pre, (key, x), k);
      LookupSnoc(pre, (key, y), k);
    } else {
      var init := post[..|post| - 1];
      var e := post[|post| - 1];
      assert post == init + [e];
      assert pre + [(key, x)] + post == (pre + [(key, x)] + init) + [e];
      assert pre + [(key, y)] + post == (pre + [(key, y)] + init) + [e];
      LookupSnoc(pre + [(key, x)] + init, e, k);
      LookupSnoc(pre + [(key, y)] + init, e, k);
      LookupOther(pre, key, x, y, init, k);
    }
  }

  /** `d.get(key, default)` on a dict; `d.get(key)` is `Get(d, key, Null)`. */
  function Get(entries: seq<(string, Value)>, key: string, default: Value): (r: Value)
    ensures (forall i :: 0 <= i < |entries| ==> entries[i].0 != key) ==> r == default
    ensures (exists i :: 0 <= i < |entries| && entries[i].0 == key) ==>
      exists i :: 0 <= i < |entries| && entries[i] == (key, r) &&
        forall j :: i < j < |entries| ==> entries[j].0 != key
  {
    match Lookup(entries, key)
    case Some(v) => v
    case None => default
  }

  /** `type(v).__name__`. */
  function TypeName(v: Value): string {
    match v
    case Null => "NoneType"
    case Bool(_) => "bool"
    case Int(_) => "int"
    case Str(_) => "str"
    case List(_) => "list"
    case Dict(_) => "dict"
  }

  /** Values that `x in some_dict` can hash; lists and dicts cannot be hashed. */
  predicate Hashable(v: Value) {
    !v.List? && !v.Dict?
  }
}
