/**
 * The URL query string, the single store of search, filter and sort state.
 * It is modelled as a map from parameter name to value: every writer of this
 * code base only ever calls `set` and `delete`, which keep one value per key.
 */
module QueryParams {
  import opened Wrappers

  type Params = map<string, string>

  /** `params.get(key)`: the value, or null when the key is absent. */
  function Get(params: Params, key: string): (r: Option<string>)
    ensures r.Some? <==> key in params
    ensures r.Some? ==> r.value == params[key]
  {
    if key in params then Some(params[key]) else None
  }

  /**
   * `params.get(key) || fallback`: an absent key and an empty value both read
   * as the fallback, because the empty string is falsy.
   */
  function GetOr(params: Params, key: string, fallback: string): (r: string)
    ensures key !in params || params[key] == "" ==> r == fallback
    ensures key in params && params[key] != "" ==> r == params[key]
  {
    match Get(params, key)
    case Some(v) => if v != "" then v else fallback
    case None => fallback
  }

  /** `p` and `q` agree on every key except possibly `key`. */
  ghost predicate SameExcept(p: Params, q: Params, key: string)
  {
    forall k :: k != key ==> (k in p <==> k in q) && (k in p && k in q ==> p[k] == q[k])
  }

  /**
   * The parameters after `set(key, v)` (for `Some(v)`) or `delete(key)` (for `None`):
   * the one key is written and every other key is kept.
   */
  function Assign(params: Params, key: string, value: Option<string>): (r: Params)
    ensures SameExcept(params, r, key)
    ensures key in r <==> value.Some?
    ensures value.Some? ==> r[key] == value.value
  {
    match value
    case Some(v) => params[key := v]
    case None => params - {key}
  }

  /** A write to one key never changes what a read of another key returns. */
  lemma GetOrOtherKey(params: Params, key: string, value: Option<string>, other: string, fallback: string)
    requires other != key
    ensures GetOr(Assign(params, key, value), other, fallback) == GetOr(params, other, fallback)
  {
  }

  /** Writes to two different keys commute. */
  lemma AssignCommutes(params: Params, k1: string, v1: Option<string>, k2: string, v2: Option<string>)
    requires k1 != k2
    ensures Assign(Assign(params, k1, v1), k2, v2) == Assign(Assign(params, k2, v2), k1, v1)
  {
    var a := Assign(Assign(params, k1, v1), k2, v2);
    var b := Assign(Assign(params, k2, v2), k1, v1);
    assert a.Keys == b.Keys;
    forall k | k in a ensures a[k] == b[k] {
    }
  }

  /**
   * `new URLSearchParams(searchParams.toString())`: a mutable copy of the
   * current parameters that one writer edits and then pushes as the new URL.
   */
  class SearchParams {
    var entries: Params

    constructor (current: Params)
      ensures entries == current
    {
      entries := current;
    }

    method Set(key: string, value: string)
      modifies this
      ensures entries == old(entries)[key := value]
    {
      entries := entries[key := value];
    }

    method Delete(key: string)
      modifies this
      ensures entries == old(entries) - {key}
    {
      entries := entries - {key};
    }
  }
}
