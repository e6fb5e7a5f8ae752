/**
 * Python dictionaries with string keys. A dict iterates in insertion order and
 * assigning to a key that is already present keeps that key's position, so a
 * dict is modelled as its key sequence together with the key-to-value map.
 */
module OrderedMaps {
  import opened Common

  datatype OMap<V> = OMap(keys: seq<string>, values: map<string, V>) {

    /** Each key listed once, and exactly the keys of `values`. */
    ghost predicate Valid() {
      && (forall i, j :: 0 <= i < j < |keys| ==> keys[i] != keys[j])
      && (forall k :: k in values <==> k in keys)
    }

    /** `d.get(k)`. */
    function Get(k: string): (r: Option<V>)
      ensures r.Some? <==> k in values
      ensures r.Some? ==> r.value == values[k]
    {
      if k in values then Some(values[k]) else None
    }

    /** `d[k] = v`: a new key goes last, an existing key keeps its place; only `k` changes. */
    function Put(k: string, v: V): (r: OMap<V>)
      requires Valid()
      ensures r.Valid()
      ensures r.keys == if k in values then keys else keys + [k]
      ensures r.values == values[k := v]
    {
      OMap(if k in values then keys else keys + [k], values[k := v])
    }

    /** Assigns `vs[k]` to each key `k` of `ks`, in order. */
    function PutAll(ks: seq<string>, vs: map<string, V>): (r: OMap<V>)
      requires Valid() && forall i :: 0 <= i < |ks| ==> ks[i] in vs
      ensures r.Valid()
      ensures |keys| <= |r.keys| && r.keys[..|keys|] == keys
      ensures forall k :: k in r.keys <==> k in keys || k in ks
      ensures forall k :: k in r.values ==> r.values[k] == if k in ks then vs[k] else values[k]
    {
      if ks == [] then this
      else
        var n := |ks| - 1;
        assert ks == ks[..n] + [ks[n]];
        var before := PutAll(ks[..n], vs);
        assert before.Put(ks[n], vs[ks[n]]).keys[..|before.keys|] == before.keys;
        before.Put(ks[n], vs[ks[n]])
    }

    /**
     * `{**self, **other}`: the entries of `other` assigned in its order, so
     * `other` wins on shared keys while those keys keep their place in `self`.
     */
    function Update(other: OMap<V>): (r: OMap<V>)
      requires Valid() && other.Valid()
      ensures r.Valid()
      ensures |keys| <= |r.keys| && r.keys[..|keys|] == keys
      ensures forall k :: k in r.values <==> k in values || k in other.values
      ensures forall k :: k in r.values ==> r.values[k] == if k in other.values then other.values[k] else values[k]
    {
      PutAll(other.keys, other.values)
    }

    /** Distinct assigned keys that are new are appended after the old keys, in assignment order. */
    lemma {:induction false} PutAllNewKeys(ks: seq<string>, vs: map<string, V>, isNew: string -> bool)
      requires Valid() && forall i :: 0 <= i < |ks| ==> ks[i] in vs
      requires forall i, j :: 0 <= i < j < |ks| ==> ks[i] != ks[j]
      requires forall k :: isNew(k) <==> k !in values
      ensures PutAll(ks, vs).keys[|keys|..] == Filter(ks, isNew)
      decreases |ks|
    {
      if ks != [] {
        var n := |ks| - 1;
        assert ks == ks[..n] + [ks[n]];
        PutAllNewKeys(ks[..n], vs, isNew);
        var before := PutAll(ks[..n], vs);
        assert ks[n] !in ks[..n];
        assert ks[n] in before.values <==> ks[n] in values;
      }
    }

    /** `{**self, **other}` appends the keys `self` lacks in `other`'s order. */
    lemma UpdateNewKeys(other: OMap<V>, isNew: string -> bool)
      requires Valid() && other.Valid()
      requires forall k :: isNew(k) <==> k !in values
      ensures Update(other).keys[|keys|..] == Filter(other.keys, isNew)
    {
      PutAllNewKeys(other.keys, other.values, isNew);
    }
  }

  /** `{}`. */
  function Empty<V>(): (r: OMap<V>)
    ensures r.Valid() && r.keys == [] && r.values == map[]
  {
    OMap([], map[])
  }

  /** The dictionary with keys `names`, in that order, and values from `m`. */
  function Tabulate<V>(names: seq<string>, m: map<string, V>): (r: OMap<V>)
    requires forall i, j :: 0 <= i < j < |names| ==> names[i] != names[j]
    requires forall i :: 0 <= i < |names| ==> names[i] in m
    ensures r.Valid() && r.keys == names
    ensures forall n :: n in r.values ==> n in m && r.values[n] == m[n]
  {
    if names == [] then Empty()
    else
      var last := names[|names| - 1];
      var init := names[..|names| - 1];
      assert last !in init;
      assert names == init + [last];
      Tabulate(init, m).Put(last, m[last])
  }
}
