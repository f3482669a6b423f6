/** The JSON values that `json.loads` produces and `json.dumps` consumes, with
    the few Python operations the relay applies to them: `dict.get`, the `in`
    test on a dict, iteration, and truthiness. */
module Json {
  import opened Wrappers

  /** A decoded JSON value. An object is the list of its key/value pairs in
      insertion order, as a Python dict keeps them. Numbers are integers. */
  datatype Json =
    | JNull
    | JBool(b: bool)
    | JNumber(n: int)
    | JString(s: string)
    | JArray(items: seq<Json>)
    | JObject(fields: seq<(string, Json)>)

  /** `key in d` for a list of fields. */
  predicate HasKey(fields: seq<(string, Json)>, key: string)
  {
    exists i :: 0 <= i < |fields| && fields[i].0 == key
  }

  /** `d.get(key)`: the value stored under `key`, or None when it is absent. */
  function Lookup(fields: seq<(string, Json)>, key: string): (r: Option<Json>)
    ensures r.Some? <==> HasKey(fields, key)
    ensures r.Some? ==> exists i :: 0 <= i < |fields| && fields[i] == (key, r.value)
  {
    if |fields| == 0 then None
    else if fields[0].0 == key then
      assert fields[0] == (key, fields[0].1);
      Some(fields[0].1)
    else
      var r := Lookup(fields[1..], key);
      assert forall i :: 0 <= i < |fields[1..]| ==> fields[1..][i] == fields[i + 1];
      r
  }

  /** The keys of a Python dict are distinct. */
  predicate DistinctKeys(fields: seq<(string, Json)>)
  {
    forall i, j :: 0 <= i < j < |fields| ==> fields[i].0 != fields[j].0
  }

  /** In a dict whose keys are distinct, `d.get(key)` finds the one entry
      stored under `key`, whichever search order is used. */
  lemma {:induction false} LookupDistinct(fields: seq<(string, Json)>, i: nat)
    requires DistinctKeys(fields) && i < |fields|
    ensures Lookup(fields, fields[i].0) == Some(fields[i].1)
    decreases |fields|
  {
    if i > 0 {
      var rest := fields[1..];
      assert rest[i - 1] == fields[i];
      assert DistinctKeys(rest) by {
        forall a, b | 0 <= a < b < |rest|
          ensures rest[a].0 != rest[b].0
        {
          assert rest[a] == fields[a + 1] && rest[b] == fields[b + 1];
        }
      }
      assert fields[0].0 != fields[i].0;
      LookupDistinct(rest, i - 1);
    }
  }

  /** `d.get(key)` on a dict of two entries. */
  lemma LookupOfPair(a: (string, Json), b: (string, Json), key: string)
    ensures Lookup([a, b], key) == if a.0 == key then Some(a.1) else if b.0 == key then Some(b.1) else None
  {
    assert [a, b][1..] == [b];
    assert [b][1..] == [];
  }

  /** `isinstance(v, dict) and key in v` */
  predicate IsObjectWith(v: Json, key: string)
  {
    v.JObject? && HasKey(v.fields, key)
  }

  /** `v[key]` for an object known to hold `key`. */
  function Field(v: Json, key: string): Json
    requires IsObjectWith(v, key)
  {
    Lookup(v.fields, key).value
  }

  /** `d.get(key, default)` on a dict. */
  function GetOr(v: Json, key: string, default: Json): (r: Json)
    requires v.JObject?
    ensures IsObjectWith(v, key) ==> r == Field(v, key)
    ensures !IsObjectWith(v, key) ==> r == default
  {
    Lookup(v.fields, key).GetOr(default)
  }

  /** The keys of a dict, in insertion order, as iterating over it yields them. */
  function Keys(fields: seq<(string, Json)>): (r: seq<Json>)
    ensures |r| == |fields|
    ensures forall i :: 0 <= i < |r| ==> r[i] == JString(fields[i].0)
  {
    if |fields| == 0 then [] else [JString(fields[0].0)] + Keys(fields[1..])
  }

  /** The one-character strings a Python `for` over a string yields. */
  function Characters(s: string): (r: seq<Json>)
    ensures |r| == |s|
    ensures forall i :: 0 <= i < |r| ==> r[i] == JString([s[i]])
  {
    if |s| == 0 then [] else [JString([s[0]])] + Characters(s[1..])
  }

  /** What `for item in v` (or `list.extend(v)`) iterates over: the elements of
      a list, the characters of a string, the keys of a dict. Numbers, booleans
      and None are not iterable, and Python raises TypeError: None here. */
  function Iterate(v: Json): (r: Option<seq<Json>>)
    ensures r.Some? <==> (v.JArray? || v.JString? || v.JObject?)
    ensures v.JArray? ==> r == Some(v.items)
    ensures r.Some? && !v.JArray? ==> forall i :: 0 <= i < |r.value| ==> !r.value[i].JObject?
  {
    match v
    case JArray(items) => Some(items)
    case JString(s) => Some(Characters(s))
    case JObject(fields) => Some(Keys(fields))
    case _ => None
  }

  /** Python truthiness: None, False, 0, "", [] and {} are false. */
  predicate Truthy(v: Json)
  {
    match v
    case JNull => false
    case JBool(b) => b
    case JNumber(n) => n != 0
    case JString(s) => s != ""
    case JArray(items) => items != []
    case JObject(fields) => fields != []
  }
}
