/** JSON values as `json.loads` produces them, and Python's `value[key]`
    subscript on such a value. The parser itself is foreign (see module Host). */
module Json {
  import opened Wrappers

  /** Objects keep their members in document order, as a Python dict does. */
  datatype Json =
    | JNull
    | JBool(b: bool)
    | JNumber(literal: string)
    | JString(s: string)
    | JArray(items: seq<Json>)
    | JObject(members: seq<(string, Json)>)

  /** The keys of a member list. */
  function Keys(ms: seq<(string, Json)>): set<string> {
    set i | 0 <= i < |ms| :: ms[i].0
  }

  lemma KeysCons(m: (string, Json), ms: seq<(string, Json)>)
    ensures Keys([m] + ms) == {m.0} + Keys(ms)
  {
    var r := [m] + ms;
    assert r[0].0 == m.0;
    forall n | n in Keys(r) ensures n in {m.0} + Keys(ms) {
      var i :| 0 <= i < |r| && r[i].0 == n;
      if i > 0 { assert ms[i - 1].0 == n; }
    }
    forall n | n in Keys(ms) ensures n in Keys(r) {
      var i :| 0 <= i < |ms| && ms[i].0 == n;
      assert r[i + 1].0 == n;
    }
  }

  /** The value a Python dict built from `ms` holds under `key`: the last
      member with that key wins, as in `json.loads`. */
  function Lookup(ms: seq<(string, Json)>, key: string): (r: Option<Json>)
    ensures r.None? <==> key !in Keys(ms)
    ensures r.Some? ==> exists i :: 0 <= i < |ms| && ms[i] == (key, r.value)
                                    && forall k :: i < k < |ms| ==> ms[k].0 != key
  {
    if ms == [] then None
    else if ms[|ms| - 1].0 == key then Some(ms[|ms| - 1].1)
    else
      var r := Lookup(ms[..|ms| - 1], key);
      assert Keys(ms) == Keys(ms[..|ms| - 1]) + {ms[|ms| - 1].0};
      r
  }

  /** `value[key]`. Only an object that has the key answers; `None`, lists,
      strings, numbers and objects without the key all raise. */
  function Subscript(j: Option<Json>, key: string): (r: Option<Json>)
    ensures r.Some? <==> j.Some? && j.value.JObject? && key in Keys(j.value.members)
  {
    if j.Some? && j.value.JObject? then Lookup(j.value.members, key) else None
  }
}
