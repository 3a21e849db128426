/**
 * The platform's persistent key-value store (AsyncStorage) used by the session code.
 * Every operation may reject; the caller passes the rejection it is to observe as
 * `fault` (None: the operation succeeds). A rejected write or removal changes nothing.
 */
module KeyValueStore {
  import opened Wrappers
  import opened Js

  const AuthTokenKey := "auth_token"
  const RefreshTokenKey := "refresh_token"

  /** The map after setting each pair in order (a later pair for the same key wins). */
  function SetAll(m: map<string, string>, pairs: seq<(string, string)>): (r: map<string, string>)
    decreases |pairs|
  {
    if pairs == [] then m else SetAll(m[pairs[0].0 := pairs[0].1], pairs[1..])
  }

  /** The map after the removal of both session keys, when the removal succeeds. */
  function ClearSession(m: map<string, string>, fault: Option<Thrown>): (r: map<string, string>)
    ensures fault.None? ==> AuthTokenKey !in r && RefreshTokenKey !in r
    ensures fault.None? ==> forall k :: k in m && k != AuthTokenKey && k != RefreshTokenKey ==> k in r && r[k] == m[k]
    ensures fault.Some? ==> r == m
    ensures r.Keys <= m.Keys
  {
    if fault.None? then m - {AuthTokenKey, RefreshTokenKey} else m
  }

  lemma {:induction false} SetAllPair(m: map<string, string>, k1: string, v1: string, k2: string, v2: string)
    ensures SetAll(m, [(k1, v1), (k2, v2)]) == m[k1 := v1][k2 := v2]
  {
    var m1 := m[k1 := v1];
    assert [(k1, v1), (k2, v2)][1..] == [(k2, v2)];
    assert SetAll(m, [(k1, v1), (k2, v2)]) == SetAll(m1, [(k2, v2)]);
    assert [(k2, v2)][1..] == [];
    assert SetAll(m1, [(k2, v2)]) == SetAll(m1[k2 := v2], []);
  }

  class Storage {
    var items: map<string, string>

    constructor (initial: map<string, string>)
      ensures items == initial
    {
      items := initial;
    }

    /** getItem: the stored value, or null when the key is absent. */
    method GetItem(key: string, fault: Option<Thrown>) returns (r: Result<Option<string>, Thrown>)
      ensures fault.Some? ==> r == Failure(fault.value)
      ensures fault.None? ==> r.Success? && (r.value.Some? <==> key in items)
      ensures fault.None? && key in items ==> r.value == Some(items[key])
    {
      if fault.Some? {
        r := Failure(fault.value);
      } else {
        r := Success(Get(items, key));
      }
    }

    method SetItem(key: string, value: string, fault: Option<Thrown>) returns (r: Outcome<Thrown>)
      modifies this
      ensures r == (if fault.Some? then Fail(fault.value) else Pass)
      ensures items == if fault.None? then old(items)[key := value] else old(items)
    {
      if fault.Some? {
        r := Fail(fault.value);
      } else {
        items := items[key := value];
        r := Pass;
      }
    }

    /** multiSet: all pairs are written in one batch, or none is. */
    method MultiSet(pairs: seq<(string, string)>, fault: Option<Thrown>) returns (r: Outcome<Thrown>)
      modifies this
      ensures r == (if fault.Some? then Fail(fault.value) else Pass)
      ensures items == if fault.None? then SetAll(old(items), pairs) else old(items)
    {
      if fault.Some? {
        r := Fail(fault.value);
      } else {
        items := SetAll(items, pairs);
        r := Pass;
      }
    }

    method RemoveItem(key: string, fault: Option<Thrown>) returns (r: Outcome<Thrown>)
      modifies this
      ensures r == (if fault.Some? then Fail(fault.value) else Pass)
      ensures items == if fault.None? then old(items) - {key} else old(items)
    {
      if fault.Some? {
        r := Fail(fault.value);
      } else {
        items := items - {key};
        r := Pass;
      }
    }

    /** multiRemove: all keys are removed in one batch, or none is. */
    method MultiRemove(keys: set<string>, fault: Option<Thrown>) returns (r: Outcome<Thrown>)
      modifies this
      ensures r == (if fault.Some? then Fail(fault.value) else Pass)
      ensures items == if fault.None? then old(items) - keys else old(items)
    {
      if fault.Some? {
        r := Fail(fault.value);
      } else {
        items := items - keys;
        r := Pass;
      }
    }
  }
}
