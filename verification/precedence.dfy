/** A reference definition of "look the keys up in priority order": the value
    under the first key of a priority list that the map holds. The header
    lookup of the handler is one instance of it, with the list
    ["Authorization", "authorization"]. */
module Precedence {
  import opened Wrappers

  /** True when `m1` and `m2` hold the same entry for `k`, or both lack it. */
  predicate SameEntry(m1: map<string, string>, m2: map<string, string>, k: string)
  {
    (k in m1 <==> k in m2) && (k in m1 ==> m1[k] == m2[k])
  }

  /** True when `m1` and `m2` agree on every key of `keys`. */
  predicate AgreeOn(keys: seq<string>, m1: map<string, string>, m2: map<string, string>)
  {
    forall i :: 0 <= i < |keys| ==> SameEntry(m1, m2, keys[i])
  }

  /** The position in `keys` of the first key that `m` holds, if any. */
  function FirstIndex(keys: seq<string>, m: map<string, string>): (r: Option<nat>)
    ensures r.Some? ==> r.value < |keys| && keys[r.value] in m
    ensures r.Some? ==> forall j :: 0 <= j < r.value ==> keys[j] !in m
    ensures r.None? <==> forall j :: 0 <= j < |keys| ==> keys[j] !in m
    decreases |keys|
  {
    if |keys| == 0 then None
    else if keys[0] in m then Some(0)
    else
      match FirstIndex(keys[1..], m)
      case None => None
      case Some(i) => Some(i + 1)
  }

  /** The value under the first key of `keys` that `m` holds, or `absent`. */
  function LookupFirst(keys: seq<string>, m: map<string, string>, absent: string): (r: string)
    ensures (forall j :: 0 <= j < |keys| ==> keys[j] !in m) ==> r == absent
    ensures forall i :: 0 <= i < |keys| && keys[i] in m && (forall j :: 0 <= j < i ==> keys[j] !in m) ==>
              r == m[keys[i]]
  {
    match FirstIndex(keys, m)
    case None => absent
    case Some(i) => m[keys[i]]
  }

  /** Two maps that agree on the priority keys have the same first present
      position: every other key is invisible to the lookup. */
  lemma FirstIndexAgrees(keys: seq<string>, m1: map<string, string>, m2: map<string, string>)
    requires AgreeOn(keys, m1, m2)
    ensures FirstIndex(keys, m1) == FirstIndex(keys, m2)
  {
  }

  /** Two maps that agree on the priority keys give the same lookup result. */
  lemma LookupFirstAgrees(keys: seq<string>, m1: map<string, string>, m2: map<string, string>, absent: string)
    requires AgreeOn(keys, m1, m2)
    ensures LookupFirst(keys, m1, absent) == LookupFirst(keys, m2, absent)
  {
  }
}
