/**
 * A decoded JSON value, as `json.loads` hands it back: objects keep their
 * members in order, and a key that occurs twice is bound to its last value.
 */
module Json {
  import opened Wrappers

  datatype Json =
    | JNull
    | JBool(b: bool)
    | JNum(n: real)
    | JStr(s: string)
    | JArr(items: seq<Json>)
    | JObj(members: seq<(string, Json)>)

  predicate HasKey(ms: seq<(string, Json)>, key: string) {
    exists i :: 0 <= i < |ms| && ms[i].0 == key
  }

  /** `d[key]` (or `d.get(key)`) on a decoded object: the last binding of `key`. */
  function Get(ms: seq<(string, Json)>, key: string): (r: Option<Json>)
    ensures r.Some? <==> HasKey(ms, key)
    ensures r.Some? ==> (key, r.value) in ms
  {
    if |ms| == 0 then None
    else if ms[|ms| - 1].0 == key then Some(ms[|ms| - 1].1)
    else Get(ms[..|ms| - 1], key)
  }

  /** A binding that no later member overrides is the one `Get` finds. */
  lemma {:induction false} GetLastBinding(ms: seq<(string, Json)>, i: nat)
    requires i < |ms|
    requires forall j :: i < j < |ms| ==> ms[j].0 != ms[i].0
    ensures Get(ms, ms[i].0) == Some(ms[i].1)
    decreases |ms|
  {
    if i < |ms| - 1 {
      GetLastBinding(ms[..|ms| - 1], i);
    }
  }

  /** A member whose key differs from `key` does not change what `Get` finds for `key`. */
  lemma {:induction false} GetIgnoresOtherKey(front: seq<(string, Json)>, k: string, v: Json, back: seq<(string, Json)>, key: string)
    requires k != key
    ensures Get(front + [(k, v)] + back, key) == Get(front + back, key)
    decreases |back|
  {
    if |back| == 0 {
      assert front + [(k, v)] + back == front + [(k, v)];
      assert front + back == front;
    } else {
      var n := |back| - 1;
      assert (front + [(k, v)] + back)[..|front| + 1 + n] == front + [(k, v)] + back[..n];
      assert (front + back)[..|front| + n] == front + back[..n];
      GetIgnoresOtherKey(front, k, v, back[..n], key);
    }
  }

  /** Python truthiness of a decoded value. */
  predicate Truthy(j: Json) {
    match j
    case JNull => false
    case JBool(b) => b
    case JNum(n) => n != 0.0
    case JStr(s) => s != ""
    case JArr(items) => items != []
    case JObj(ms) => ms != []
  }
}
