/** The JSON values that `JSON.parse` can produce, and member lookup on
    objects. Numbers are kept integral: no property of the model depends
    on fractional values. */
module Json {
  import opened Wrappers

  datatype Json =
    | JNull
    | JBool(b: bool)
    | JNumber(n: int)
    | JString(s: string)
    | JArray(items: seq<Json>)
    | JObject(fields: seq<(string, Json)>)

  /** True iff `key` names some member of `fields`. */
  predicate HasKey(fields: seq<(string, Json)>, key: string)
  {
    exists i :: 0 <= i < |fields| && fields[i].0 == key
  }

  /** The member value `JSON.parse` keeps for `key`: when a key occurs
      twice in the text, the later occurrence wins. */
  function Lookup(fields: seq<(string, Json)>, key: string): (r: Option<Json>)
    ensures r.Some? <==> HasKey(fields, key)
    ensures r.Some? ==>
      exists i :: 0 <= i < |fields| && fields[i] == (key, r.value) &&
        forall j :: i < j < |fields| ==> fields[j].0 != key
  {
    if fields == [] then None
    else if fields[|fields| - 1].0 == key then Some(fields[|fields| - 1].1)
    else
      var r := Lookup(fields[..|fields| - 1], key);
      assert HasKey(fields, key) ==> HasKey(fields[..|fields| - 1], key) by {
        if HasKey(fields, key) {
          var i :| 0 <= i < |fields| && fields[i].0 == key;
          assert i < |fields| - 1;
          assert fields[..|fields| - 1][i].0 == key;
        }
      }
      r
  }

  /** The keys of an object's members, in order. */
  function Keys(fields: seq<(string, Json)>): (ks: seq<string>)
    ensures |ks| == |fields|
    ensures forall i :: 0 <= i < |fields| ==> ks[i] == fields[i].0
  {
    seq(|fields|, i requires 0 <= i < |fields| => fields[i].0)
  }

  /** When `fields[i]` is the last member named `key`, lookup finds it. */
  lemma LookupLast(fields: seq<(string, Json)>, key: string, i: nat)
    requires i < |fields| && fields[i].0 == key
    requires forall j :: i < j < |fields| ==> fields[j].0 != key
    ensures Lookup(fields, key) == Some(fields[i].1)
  {
    assert HasKey(fields, key);
  }
}
