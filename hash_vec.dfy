/**
 * `HashVec<K, V>` (hell_core `collections/hash_vec.rs`): a vector of values
 * with a hash map from each key to its value's index. `len` counts the
 * keys, and `push` uses `len` as the new value's index.
 *
 * `new` builds the map from a list of keys paired with indices; a key
 * listed twice keeps only its last index, so the map then has fewer
 * entries than there are values and the next `push` reuses an index that
 * already holds a value. `Push` models that; `PushIntended` takes the
 * index from the values.
 */
module HashVecs {
  import opened Wrappers

  datatype HashVecState<K, V> = HashVecState(keys: map<K, nat>, values: seq<V>)

  /** The map `new` collects: each key to the last position it is listed at. */
  function KeysToMap<K(==)>(ks: seq<K>): (m: map<K, nat>)
    ensures m.Keys == set i | 0 <= i < |ks| :: ks[i]
    ensures forall k | k in m :: m[k] < |ks| && ks[m[k]] == k
    ensures forall k, i | k in m && m[k] < i < |ks| :: ks[i] != k
    ensures |m| <= |ks|
  {
    if ks == [] then map[]
    else
      var init := ks[..|ks| - 1];
      var m0 := KeysToMap(init);
      KeysToMapStep(ks, init, m0);
      m0[ks[|ks| - 1] := |ks| - 1]
  }

  /** One step of `KeysToMap`: binding the last key to the last position extends the map of the others. */
  lemma KeysToMapStep<K>(ks: seq<K>, init: seq<K>, m0: map<K, nat>)
    requires ks != [] && init == ks[..|ks| - 1]
    requires m0.Keys == set i | 0 <= i < |init| :: init[i]
    requires forall k | k in m0 :: m0[k] < |init| && init[m0[k]] == k
    requires forall k, i | k in m0 && m0[k] < i < |init| :: init[i] != k
    requires |m0| <= |init|
    ensures var m := m0[ks[|ks| - 1] := |ks| - 1];
      && m.Keys == (set i | 0 <= i < |ks| :: ks[i])
      && (forall k | k in m :: m[k] < |ks| && ks[m[k]] == k)
      && (forall k, i | k in m && m[k] < i < |ks| :: ks[i] != k)
      && |m| <= |ks|
  {
    KeysToMapStepKeys(ks, init, m0);
    KeysToMapStepPositions(ks, init, m0);
    var m := m0[ks[|ks| - 1] := |ks| - 1];
    assert |m| <= |m0| + 1;
  }

  lemma KeysToMapStepKeys<K>(ks: seq<K>, init: seq<K>, m0: map<K, nat>)
    requires ks != [] && init == ks[..|ks| - 1]
    requires m0.Keys == set i | 0 <= i < |init| :: init[i]
    ensures m0[ks[|ks| - 1] := |ks| - 1].Keys == (set i | 0 <= i < |ks| :: ks[i])
  {
    var last := ks[|ks| - 1];
    var m := m0[last := |ks| - 1];
    assert m.Keys == m0.Keys + {last};
    forall x | x in (set i | 0 <= i < |ks| :: ks[i]) ensures x in m.Keys {
      var i :| 0 <= i < |ks| && ks[i] == x;
      if i < |init| {
        assert init[i] == x;
      }
    }
    forall x | x in m.Keys ensures x in (set i | 0 <= i < |ks| :: ks[i]) {
      if x != last {
        var i :| 0 <= i < |init| && init[i] == x;
        assert ks[i] == x;
      }
    }
  }

  lemma KeysToMapStepPositions<K>(ks: seq<K>, init: seq<K>, m0: map<K, nat>)
    requires ks != [] && init == ks[..|ks| - 1]
    requires forall k | k in m0 :: m0[k] < |init| && init[m0[k]] == k
    requires forall k, i | k in m0 && m0[k] < i < |init| :: init[i] != k
    ensures var m := m0[ks[|ks| - 1] := |ks| - 1];
      && (forall k | k in m :: m[k] < |ks| && ks[m[k]] == k)
      && (forall k, i | k in m && m[k] < i < |ks| :: ks[i] != k)
  {
    var last := ks[|ks| - 1];
    var m := m0[last := |ks| - 1];
    forall k | k in m ensures m[k] < |ks| && ks[m[k]] == k {
      if k != last {
        assert ks[m0[k]] == init[m0[k]];
      }
    }
    forall k, i | k in m && m[k] < i < |ks| ensures ks[i] != k {
      if k != last && i < |init| {
        assert m[k] == m0[k] && init[i] != k && ks[i] == init[i];
      }
    }
  }

  predicate Distinct<K(==)>(ks: seq<K>)
  {
    forall i, j | 0 <= i < j < |ks| :: ks[i] != ks[j]
  }

  /** Distinct keys give a map with one entry per key. */
  lemma {:induction false} KeysToMapSize<K>(ks: seq<K>)
    requires Distinct(ks)
    ensures |KeysToMap(ks)| == |ks|
  {
    if ks != [] {
      var init := ks[..|ks| - 1];
      var last := ks[|ks| - 1];
      assert forall i | 0 <= i < |init| :: init[i] == ks[i];
      KeysToMapSize(init);
      assert last !in KeysToMap(init);
    }
  }

  /** With distinct keys every key maps to its own position. */
  lemma KeysToMapPositions<K>(ks: seq<K>)
    requires Distinct(ks)
    ensures forall i | 0 <= i < |ks| :: ks[i] in KeysToMap(ks) && KeysToMap(ks)[ks[i]] == i
  {
    var m := KeysToMap(ks);
    forall i | 0 <= i < |ks|
      ensures ks[i] in m && m[ks[i]] == i
    {
      assert ks[i] in m.Keys;
    }
  }

  /** `new`: the keys paired with their positions, and the values as given. */
  function New<K(==), V>(ks: seq<K>, vs: seq<V>): (s: HashVecState<K, V>)
    requires |ks| == |vs|
    ensures s.values == vs
    ensures forall k | k in s.keys :: s.keys[k] < |vs| && ks[s.keys[k]] == k
  {
    HashVecState(KeysToMap(ks), vs)
  }

  /** What a `HashVec` is meant to keep: one key per value, each key on its own index. */
  predicate HashVecValid<K(==), V>(s: HashVecState<K, V>)
  {
    && |s.keys| == |s.values|
    && (forall k | k in s.keys :: s.keys[k] < |s.values|)
    && (forall k1, k2 | k1 in s.keys && k2 in s.keys && k1 != k2 :: s.keys[k1] != s.keys[k2])
  }

  /** What the code keeps on every state it can build: every index resolves and there are no more keys than values. */
  predicate IndicesResolve<K(==), V>(s: HashVecState<K, V>)
  {
    && |s.keys| <= |s.values|
    && forall k | k in s.keys :: s.keys[k] < |s.values|
  }

  /** `new` with distinct keys gives a valid `HashVec` mapping the `i`-th key to the `i`-th value. */
  lemma NewDistinctValid<K, V>(ks: seq<K>, vs: seq<V>)
    requires |ks| == |vs| && Distinct(ks)
    ensures HashVecValid(New(ks, vs))
    ensures forall i | 0 <= i < |ks| :: ValueFromKey(New(ks, vs), ks[i]) == Some(vs[i])
  {
    KeysToMapSize(ks);
    KeysToMapPositions(ks);
  }

  /** `new` always gives a state whose indices resolve. */
  lemma NewIndicesResolve<K, V>(ks: seq<K>, vs: seq<V>)
    requires |ks| == |vs|
    ensures IndicesResolve(New(ks, vs))
  {
  }

  function Len<K(==), V>(s: HashVecState<K, V>): (r: nat)
    ensures r == |s.keys|
  {
    |s.keys|
  }

  /** `idx_of`. */
  function IdxOf<K(==), V>(s: HashVecState<K, V>, key: K): (r: Option<nat>)
    ensures r.Some? <==> key in s.keys
    ensures r.Some? ==> r.value == s.keys[key]
  {
    if key in s.keys then Some(s.keys[key]) else None
  }

  /** `value`: the value at an index, `None` past the end. */
  function Value<K(==), V>(s: HashVecState<K, V>, idx: nat): (r: Option<V>)
    ensures r.Some? <==> idx < |s.values|
    ensures r.Some? ==> r.value == s.values[idx]
  {
    if idx < |s.values| then Some(s.values[idx]) else None
  }

  /** `value_from_key`: `value` at `idx_of`. */
  function ValueFromKey<K(==), V>(s: HashVecState<K, V>, key: K): (r: Option<V>)
    ensures IndicesResolve(s) ==> (r.Some? <==> key in s.keys)
    ensures r.Some? ==> key in s.keys && s.keys[key] < |s.values| && r.value == s.values[s.keys[key]]
  {
    match IdxOf(s, key)
    case None => None
    case Some(idx) => Value(s, idx)
  }

  /** `push` as written: the key gets index `len`, the number of keys; a key already present is the caller's error. */
  function Push<K(==), V>(s: HashVecState<K, V>, key: K, val: V): (r: (HashVecState<K, V>, nat))
    requires key !in s.keys
    ensures r.1 == |s.keys|
    ensures r.0.values == s.values + [val] && r.0.keys == s.keys[key := |s.keys|]
  {
    var idx := Len(s);
    (HashVecState(s.keys[key := idx], s.values + [val]), idx)
  }

  /** `push_or_get` as written: the existing index, or a `push`. */
  function PushOrGet<K(==), V>(s: HashVecState<K, V>, key: K, val: V): (r: (HashVecState<K, V>, nat))
    ensures key in s.keys ==> r == (s, s.keys[key])
    ensures key !in s.keys ==> r == Push(s, key, val)
  {
    match IdxOf(s, key)
    case Some(idx) => (s, idx)
    case None => Push(s, key, val)
  }

  /** `push` keeps a valid `HashVec` valid; the key then finds the pushed value and no other key's value moves. */
  lemma PushKeepsValid<K, V>(s: HashVecState<K, V>, key: K, val: V)
    requires HashVecValid(s) && key !in s.keys
    ensures var (s', idx) := Push(s, key, val);
      && HashVecValid(s')
      && idx == |s.values|
      && ValueFromKey(s', key) == Some(val)
      && forall k | k in s.keys :: ValueFromKey(s', k) == ValueFromKey(s, k)
  {
    assert s.keys[key := |s.keys|].Keys == s.keys.Keys + {key};
  }

  /** Every state `new` and `push` build keeps its indices resolving. */
  lemma PushKeepsIndicesResolve<K, V>(s: HashVecState<K, V>, key: K, val: V)
    requires IndicesResolve(s) && key !in s.keys
    ensures IndicesResolve(Push(s, key, val).0)
  {
    assert s.keys[key := |s.keys|].Keys == s.keys.Keys + {key};
  }

  /** Get-or-push is idempotent: a second call with the same key returns the same index and changes nothing. */
  lemma PushOrGetIdempotent<K, V>(s: HashVecState<K, V>, key: K, val: V, val2: V)
    ensures var (s1, i1) := PushOrGet(s, key, val);
      PushOrGet(s1, key, val2) == (s1, i1)
  {
  }

  /**
   * As written, a key listed twice in `new` makes the next `push` reuse an
   * occupied index: after `new(["a", "a"], [1, 2])` and `push("b", 3)`,
   * "b" finds 2 rather than 3, and "a" and "b" share an index.
   */
  lemma DuplicateKeyAliases()
    ensures var s := New(["a", "a"], [1, 2]);
      var (s', idx) := Push(s, "b", 3);
      && idx == 1
      && ValueFromKey(s', "b") == Some(2)
      && s'.keys["a"] == s'.keys["b"]
  {
    var s := New(["a", "a"], [1, 2]);
    assert s.keys.Keys == {"a"};
    assert s.keys == map["a" := 1];
  }

  /** `push` as evidently intended: the new value's index is the number of values. */
  function PushIntended<K(==), V>(s: HashVecState<K, V>, key: K, val: V): (r: (HashVecState<K, V>, nat))
    requires key !in s.keys
    ensures r.1 == |s.values|
    ensures r.0.values == s.values + [val] && r.0.keys == s.keys[key := |s.values|]
  {
    var idx := |s.values|;
    (HashVecState(s.keys[key := idx], s.values + [val]), idx)
  }

  /**
   * The intended `push` hands out the pushed value's own index on every
   * state `new` can build, including ones with repeated keys: the key finds
   * the pushed value and no other key's value changes.
   */
  lemma PushIntendedFindsValue<K, V>(s: HashVecState<K, V>, key: K, val: V)
    requires IndicesResolve(s) && key !in s.keys
    ensures var (s', idx) := PushIntended(s, key, val);
      && IndicesResolve(s')
      && s'.values[idx] == val
      && ValueFromKey(s', key) == Some(val)
      && forall k | k in s.keys :: ValueFromKey(s', k) == ValueFromKey(s, k)
  {
    assert s.keys[key := |s.values|].Keys == s.keys.Keys + {key};
  }

  /** On a valid `HashVec` the two `push`es agree, so the fix changes nothing for well-formed input. */
  lemma PushAgreesWhenValid<K, V>(s: HashVecState<K, V>, key: K, val: V)
    requires HashVecValid(s) && key !in s.keys
    ensures Push(s, key, val) == PushIntended(s, key, val)
  {
  }

  /** The `HashVec` object: the key map and the value vector. */
  class HashVec<K(==), V> {
    var keys: map<K, nat>
    var values: seq<V>

    function State(): (s: HashVecState<K, V>)
      reads this
      ensures s.keys == keys && s.values == values
    {
      HashVecState(keys, values)
    }

    ghost predicate Valid()
      reads this
    {
      IndicesResolve(State())
    }

    /** `default`: empty. */
    constructor Default()
      ensures Valid() && keys == map[] && values == []
    {
      keys := map[];
      values := [];
    }

    /** `new`: the keys paired with their positions; the lengths must agree. */
    constructor (ks: seq<K>, vs: seq<V>)
      requires |ks| == |vs|
      ensures Valid() && State() == New(ks, vs)
    {
      keys := KeysToMap(ks);
      values := vs;
      new;
      NewIndicesResolve(ks, vs);
    }

    method PushValue(key: K, val: V) returns (idx: nat)
      requires Valid() && key !in keys
      modifies this
      ensures Valid() && (State(), idx) == Push(old(State()), key, val)
    {
      PushKeepsIndicesResolve(State(), key, val);
      idx := |keys|;
      keys := keys[key := idx];
      values := values + [val];
    }

    method PushOrGetValue(key: K, val: V) returns (idx: nat)
      requires Valid()
      modifies this
      ensures Valid() && (State(), idx) == PushOrGet(old(State()), key, val)
    {
      if key in keys {
        return keys[key];
      }
      idx := PushValue(key, val);
    }
  }
}
