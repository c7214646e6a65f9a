/**
 * JSON values as Newtonsoft's JObject/JArray/JValue hold them. An object is the ordered
 * list of its properties; the indexer, `Remove` and the typed `?.Value<T>()` reads used by
 * both programs are defined here.
 */
module Json {
  import opened Wrappers

  datatype Json =
    | JNull
    | JBool(b: bool)
    | JNum(n: int)
    | JStr(s: string)
    | JArr(items: seq<Json>)
    | JObj(members: seq<(string, Json)>)

  /** The properties of a JObject, in document order. */
  type Members = seq<(string, Json)>

  /** `o[key]`: the value of the first property named `key`, or C# null when there is none. */
  function Get(m: Members, key: string): (r: Option<Json>)
    ensures r.None? <==> forall i :: 0 <= i < |m| ==> m[i].0 != key
    ensures r.Some? ==> (key, r.value) in m
  {
    if m == [] then None
    else if m[0].0 == key then Some(m[0].1)
    else Get(m[1..], key)
  }

  /** `o[key] = v`: replaces the value of the property in place, or appends a new property. */
  function Set(m: Members, key: string, v: Json): (r: Members)
    ensures Get(r, key) == Some(v)
    ensures forall k :: k != key ==> Get(r, k) == Get(m, k)
    ensures Get(m, key).None? ==> r == m + [(key, v)]
    ensures |r| == if Get(m, key).None? then |m| + 1 else |m|
  {
    if m == [] then [(key, v)]
    else if m[0].0 == key then [(key, v)] + m[1..]
    else [m[0]] + Set(m[1..], key, v)
  }

  /**
   * `o.Remove(key)`. A JObject never holds two properties of the same name, so dropping every
   * property named `key` is dropping the one there is.
   */
  function Remove(m: Members, key: string): (r: Members)
    ensures Get(r, key).None?
    ensures forall k :: k != key ==> Get(r, k) == Get(m, k)
    ensures |r| <= |m|
  {
    if m == [] then []
    else if m[0].0 == key then Remove(m[1..], key)
    else [m[0]] + Remove(m[1..], key)
  }

  /** `o[key]?.Value<string>()`, for a property that holds a JSON string. */
  function StringAt(m: Members, key: string): Option<string> {
    match Get(m, key)
    case Some(JStr(s)) => Some(s)
    case _ => None
  }

  /** `o[key]?.Value<int>()`, for a property that holds a JSON integer. */
  function IntAt(m: Members, key: string): Option<int> {
    match Get(m, key)
    case Some(JNum(n)) => Some(n)
    case _ => None
  }

  /** `o[key]?.Value<bool>()`, for a property that holds a JSON boolean. */
  function BoolAt(m: Members, key: string): Option<bool> {
    match Get(m, key)
    case Some(JBool(b)) => Some(b)
    case _ => None
  }

  /** `o[key] is JObject x`. */
  function ObjectAt(m: Members, key: string): Option<Members> {
    match Get(m, key)
    case Some(JObj(x)) => Some(x)
    case _ => None
  }

  /** An assignment to a property that exists keeps it at its position and every other property where it was. */
  lemma {:induction false} SetInPlace(m: Members, key: string, v: Json, i: int)
    requires 0 <= i < |m| && m[i].0 == key && forall j :: 0 <= j < i ==> m[j].0 != key
    ensures Set(m, key, v) == m[i := (key, v)]
  {
    if i == 0 {
      assert Set(m, key, v) == [(key, v)] + m[1..];
      assert m[0 := (key, v)] == [(key, v)] + m[1..];
    } else {
      assert m[0].0 != key;
      var rest := m[1..];
      assert forall j :: 0 <= j < i - 1 ==> rest[j] == m[j + 1];
      SetInPlace(rest, key, v, i - 1);
      assert Set(m, key, v) == [m[0]] + Set(rest, key, v);
      assert m[i := (key, v)] == [m[0]] + rest[i - 1 := (key, v)];
    }
  }

  /** The property an assignment finds is the first one with the key. */
  lemma {:induction false} SetFindsFirst(m: Members, key: string)
    requires Get(m, key).Some?
    ensures exists i :: 0 <= i < |m| && m[i].0 == key && forall j :: 0 <= j < i ==> m[j].0 != key
  {
    if m[0].0 != key {
      SetFindsFirst(m[1..], key);
      var i :| 0 <= i < |m[1..]| && m[1..][i].0 == key && forall j :: 0 <= j < i ==> m[1..][j].0 != key;
      assert m[i + 1].0 == key && forall j :: 0 <= j < i + 1 ==> m[j].0 != key by {
        forall j | 0 <= j < i + 1 ensures m[j].0 != key {
          if j > 0 { assert m[j] == m[1..][j - 1]; }
        }
      }
    }
  }

  /** Each typed read succeeds exactly when the property exists and holds a value of its kind, and then gives that value. */
  lemma TypedReads(m: Members, key: string)
    ensures StringAt(m, key).Some? <==> Get(m, key).Some? && Get(m, key).value.JStr?
    ensures StringAt(m, key).Some? ==> Get(m, key) == Some(JStr(StringAt(m, key).value))
    ensures IntAt(m, key).Some? <==> Get(m, key).Some? && Get(m, key).value.JNum?
    ensures IntAt(m, key).Some? ==> Get(m, key) == Some(JNum(IntAt(m, key).value))
    ensures BoolAt(m, key).Some? <==> Get(m, key).Some? && Get(m, key).value.JBool?
    ensures BoolAt(m, key).Some? ==> Get(m, key) == Some(JBool(BoolAt(m, key).value))
    ensures ObjectAt(m, key).Some? <==> Get(m, key).Some? && Get(m, key).value.JObj?
    ensures ObjectAt(m, key).Some? ==> Get(m, key) == Some(JObj(ObjectAt(m, key).value))
  {
  }

  /** Assigning a property the value it already has changes nothing. */
  lemma {:induction false} SetExisting(m: Members, key: string, v: Json)
    requires Get(m, key) == Some(v)
    ensures Set(m, key, v) == m
  {
    if m[0].0 != key {
      SetExisting(m[1..], key, v);
    }
  }

  /** Removing a property forgets any value just assigned to it. */
  lemma {:induction false} RemoveSet(m: Members, key: string, v: Json)
    ensures Remove(Set(m, key, v), key) == Remove(m, key)
  {
    if m != [] && m[0].0 != key {
      RemoveSet(m[1..], key, v);
    }
  }

  /** Assigning one property and removing another can be done in either order. */
  lemma {:induction false} RemoveSetOther(m: Members, key: string, other: string, v: Json)
    requires key != other
    ensures Remove(Set(m, other, v), key) == Set(Remove(m, key), other, v)
  {
    if m != [] && m[0].0 != other {
      RemoveSetOther(m[1..], key, other, v);
    }
  }

  /** Removing two properties can be done in either order. */
  lemma {:induction false} RemoveCommutes(m: Members, a: string, b: string)
    ensures Remove(Remove(m, a), b) == Remove(Remove(m, b), a)
  {
    if m != [] {
      RemoveCommutes(m[1..], a, b);
    }
  }

  /** Removing a property twice is removing it once. */
  lemma {:induction false} RemoveIdempotent(m: Members, key: string)
    ensures Remove(Remove(m, key), key) == Remove(m, key)
  {
    if m != [] {
      RemoveIdempotent(m[1..], key);
    }
  }

  /** Removing a key no property has changes nothing. */
  lemma {:induction false} RemoveAbsent(m: Members, key: string)
    requires forall i :: 0 <= i < |m| ==> m[i].0 != key
    ensures Remove(m, key) == m
  {
    if m != [] {
      RemoveAbsent(m[1..], key);
    }
  }
}
