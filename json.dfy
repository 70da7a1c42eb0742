/**
 * JSON values as the handlers hand them to `c.json`. Numbers are integers
 * (every number the handlers produce is an integer); an object is its
 * list of properties in creation order.
 */
module Json {
  import opened Wrappers

  datatype Json =
    | JNull
    | JBool(b: bool)
    | JNumber(n: int)
    | JString(s: string)
    | JArray(items: seq<Json>)
    | JObject(members: seq<(string, Json)>)

  /** Index `i` holds the last binding of `key`. */
  predicate IsLastBinding<V>(members: seq<(string, V)>, key: string, i: int) {
    0 <= i < |members| && members[i].0 == key
    && forall j :: i < j < |members| ==> members[j].0 != key
  }

  /**
   * The value bound to `key`; when a key occurs more than once the last
   * binding wins, as in an object literal with a spread or in JSON.parse.
   */
  function Lookup<V>(members: seq<(string, V)>, key: string): Option<V> {
    if members == [] then None
    else if members[|members| - 1].0 == key then Some(members[|members| - 1].1)
    else Lookup(members[..|members| - 1], key)
  }

  /** Lookup finds nothing exactly when the key is absent, and otherwise the value of its last binding. */
  lemma {:induction false} LookupSpec<V>(members: seq<(string, V)>, key: string)
    ensures Lookup(members, key).None? <==> forall i :: 0 <= i < |members| ==> members[i].0 != key
    ensures Lookup(members, key).Some? ==>
              exists i :: IsLastBinding(members, key, i) && members[i].1 == Lookup(members, key).value
  {
    if members != [] {
      var n := |members| - 1;
      if members[n].0 == key {
        assert IsLastBinding(members, key, n);
      } else {
        var init := members[..n];
        LookupSpec(init, key);
        assert forall i :: 0 <= i < n ==> init[i] == members[i];
        if Lookup(init, key).Some? {
          var i :| IsLastBinding(init, key, i) && init[i].1 == Lookup(init, key).value;
          assert IsLastBinding(members, key, i);
        }
      }
    }
  }

  /** No key occurs twice. */
  predicate DistinctKeys<V>(members: seq<(string, V)>) {
    forall i, j :: 0 <= i < j < |members| ==> members[i].0 != members[j].0
  }

  /** The last binding of a key is what looking it up finds. */
  lemma LookupLast<V>(members: seq<(string, V)>, key: string, i: int)
    requires IsLastBinding(members, key, i)
    ensures Lookup(members, key) == Some(members[i].1)
  {
    LookupSpec(members, key);
    var r := Lookup(members, key);
    var j :| IsLastBinding(members, key, j) && members[j].1 == r.value;
    assert i == j;
  }

  /** In an object whose keys are distinct, every key finds its own value. */
  lemma LookupDistinct<V>(members: seq<(string, V)>, i: int)
    requires DistinctKeys(members) && 0 <= i < |members|
    ensures Lookup(members, members[i].0) == Some(members[i].1)
  {
    LookupLast(members, members[i].0, i);
  }

  /** The property `key` of an object; nothing for a value that is not an object. */
  function Get(v: Json, key: string): Option<Json> {
    if v.JObject? then Lookup(v.members, key) else None
  }

  /** ToBoolean (ECMA-262, section 7.1.2) on a JSON value: objects and arrays are always truthy. */
  predicate Truthy(v: Json) {
    match v
    case JNull => false
    case JBool(b) => b
    case JNumber(n) => n != 0
    case JString(s) => s != ""
    case JArray(_) => true
    case JObject(_) => true
  }
}
