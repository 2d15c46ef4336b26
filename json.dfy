/**
 * An already-parsed JSON document, as the matjson library hands it to the mod.
 * Numbers are kept as exact reals; an object keeps its members in file order,
 * because that order decides which of two colliding object IDs wins.
 */
module Json {
  import opened Wrappers

  datatype Json =
    | JNull
    | JBool(b: bool)
    | JNum(n: real)
    | JStr(s: string)
    | JArr(elems: seq<Json>)
    | JObj(members: seq<(string, Json)>)

  /** The value of the first member named `key`, if any. */
  function Find(members: seq<(string, Json)>, key: string): (r: Option<Json>)
    ensures r.None? <==> forall i :: 0 <= i < |members| ==> members[i].0 != key
    ensures r.Some? ==> exists i :: 0 <= i < |members| && members[i] == (key, r.value)
                                    && forall j :: 0 <= j < i ==> members[j].0 != key
  {
    if |members| == 0 then None
    else if members[0].0 == key then Some(members[0].1)
    else
      var r := Find(members[1..], key);
      assert forall i :: 1 <= i < |members| ==> members[i] == members[1..][i - 1];
      r
  }

  /**
   * `j.contains(key)` together with `j[key]`: only an object has members,
   * so every other kind of value answers None.
   */
  function Get(j: Json, key: string): (r: Option<Json>)
    ensures !j.JObj? ==> r.None?
  {
    match j
    case JObj(members) => Find(members, key)
    case _ => None
  }
}
