/** Collectors.toMap as the Bedrock registries use it: a map from a stream of entries, failing on a repeated key. */
module Collectors {
  import opened Outcomes
  import opened NameLists

  predicate DistinctKeys<V>(entries: seq<(string, V)>) {
    forall i, j :: 0 <= i < j < |entries| ==> entries[i].0 != entries[j].0
  }

  /**
   * toMap over the entries in stream order: IllegalStateException at the
   * first key seen twice, otherwise every key mapped to its own value.
   */
  function ToMap<V(!new)>(entries: seq<(string, V)>): (r: Try<map<string, V>>)
    ensures r.Ok? <==> DistinctKeys(entries)
    ensures r.Throws? ==> r.fault == IllegalState
    ensures r.Ok? ==> r.value.Keys == set e | e in entries :: e.0
    ensures r.Ok? ==> forall i :: 0 <= i < |entries| ==> r.value[entries[i].0] == entries[i].1
  {
    if |entries| == 0 then Ok(map[])
    else
      var init := entries[..|entries| - 1];
      var last := entries[|entries| - 1];
      assert entries == init + [last];
      match ToMap(init)
      case Throws(f) =>
        DistinctKeysOfPrefix(init, last);
        Throws(f)
      case Ok(m) =>
        if last.0 in m then
          RepeatedLastKey(init, last);
          Throws(IllegalState)
        else
          ToMapStep(init, last, m);
          Ok(m[last.0 := last.1])
  }

  /** A repetition among the first entries is a repetition among all of them. */
  lemma DistinctKeysOfPrefix<V>(init: seq<(string, V)>, last: (string, V))
    ensures DistinctKeys(init + [last]) ==> DistinctKeys(init)
  {
    var entries := init + [last];
    if DistinctKeys(entries) {
      forall i, j | 0 <= i < j < |init| ensures init[i].0 != init[j].0 {
        assert entries[i] == init[i] && entries[j] == init[j];
      }
    }
  }

  /** A last key that an earlier entry already has is a repetition. */
  lemma RepeatedLastKey<V>(init: seq<(string, V)>, last: (string, V))
    requires last.0 in (set e | e in init :: e.0)
    ensures !DistinctKeys(init + [last])
  {
    var entries := init + [last];
    var e :| e in init && e.0 == last.0;
    var i :| 0 <= i < |init| && init[i] == e;
    assert entries[i].0 == entries[|init|].0;
  }

  /** Putting a new last key onto the map of distinct entries gives the map of all of them. */
  lemma ToMapStep<V>(init: seq<(string, V)>, last: (string, V), m: map<string, V>)
    requires DistinctKeys(init)
    requires m.Keys == set e | e in init :: e.0
    requires forall i :: 0 <= i < |init| ==> m[init[i].0] == init[i].1
    requires last.0 !in m
    ensures DistinctKeys(init + [last])
    ensures m[last.0 := last.1].Keys == set e | e in init + [last] :: e.0
    ensures forall i :: 0 <= i < |init + [last]| ==> m[last.0 := last.1][(init + [last])[i].0] == (init + [last])[i].1
  {
    var entries := init + [last];
    var r := m[last.0 := last.1];
    forall i | 0 <= i < |init| ensures init[i].0 != last.0 {
      assert init[i] in init;
    }
    forall i, j | 0 <= i < j < |entries| ensures entries[i].0 != entries[j].0 {
      assert entries[i] == init[i];
    }
    assert forall e :: e in entries <==> e in init || e == last;
    forall i | 0 <= i < |entries| ensures r[entries[i].0] == entries[i].1 {
      if i < |init| {
        assert entries[i] == init[i];
      }
    }
  }

  /** Every name of a list paired with one value: what each inner toMap contributes. */
  function Tag<V(!new)>(names: seq<string>, v: V): (r: seq<(string, V)>)
    ensures |r| == |names|
    ensures forall i :: 0 <= i < |r| ==> r[i] == (names[i], v)
  {
    seq(|names|, i requires 0 <= i < |names| => (names[i], v))
  }

  /** The entries of a tagged list are its names, each with the one value. */
  lemma TagMembers<V(!new)>(names: seq<string>, v: V)
    ensures forall e :: e in Tag(names, v) <==> e.0 in names && e.1 == v
  {
    var r := Tag(names, v);
    forall e: (string, V) | e.0 in names && e.1 == v ensures e in r {
      var i :| 0 <= i < |names| && names[i] == e.0;
      assert r[i] == e;
    }
  }

  /**
   * HashMap.put of every entry in order, onto an empty map: each key ends up
   * mapped, and when no key repeats each is mapped to its own value.
   */
  function PutAll<V(!new)>(entries: seq<(string, V)>): (m: map<string, V>)
    ensures m.Keys == set e | e in entries :: e.0
    ensures DistinctKeys(entries) ==> forall i :: 0 <= i < |entries| ==> m[entries[i].0] == entries[i].1
  {
    if |entries| == 0 then map[]
    else
      var init := entries[..|entries| - 1];
      var last := entries[|entries| - 1];
      assert forall e :: e in entries <==> e in init || e == last;
      PutAll(init)[last.0 := last.1]
  }

  /** A key whose every entry carries the same value is mapped to that value, wherever it occurs. */
  lemma {:induction false} PutAllUniform<V(!new)>(entries: seq<(string, V)>, k: string, v: V)
    requires k in PutAll(entries)
    requires forall e :: e in entries && e.0 == k ==> e.1 == v
    ensures PutAll(entries)[k] == v
  {
    var init := entries[..|entries| - 1];
    var last := entries[|entries| - 1];
    assert forall e :: e in entries <==> e in init || e == last;
    if last.0 != k {
      PutAllUniform(init, k, v);
    }
  }

  /**
   * toMap over three tagged lists whose names are all different succeeds, and
   * maps each name to the value of the list holding it.
   */
  lemma ToMapTagged<V(!new)>(a: seq<string>, x: V, b: seq<string>, y: V, c: seq<string>, z: V, name: string, v: V)
    requires Distinct(a + b + c)
    requires x != y && y != z && x != z
    ensures var r := ToMap(Tag(a, x) + Tag(b, y) + Tag(c, z));
      r.Ok? && (name in r.value && r.value[name] == v <==> (v == x && name in a) || (v == y && name in b) || (v == z && name in c))
  {
    var entries := Tag(a, x) + Tag(b, y) + Tag(c, z);
    var names := a + b + c;
    assert |entries| == |names|;
    forall i | 0 <= i < |entries| ensures entries[i].0 == names[i] {
      if i < |a| {
        assert entries[i] == Tag(a, x)[i];
      } else if i < |a| + |b| {
        assert entries[i] == Tag(b, y)[i - |a|];
      } else {
        assert entries[i] == Tag(c, z)[i - |a| - |b|];
      }
    }
    assert DistinctKeys(entries);
    var m := ToMap(entries).value;
    TagMembers(a, x);
    TagMembers(b, y);
    TagMembers(c, z);
    assert forall e :: e in entries <==> e in Tag(a, x) || e in Tag(b, y) || e in Tag(c, z);
    if (v == x && name in a) || (v == y && name in b) || (v == z && name in c) {
      assert (name, v) in entries;
      var i :| 0 <= i < |entries| && entries[i] == (name, v);
    }
    if name in m && m[name] == v {
      var e :| e in entries && e.0 == name;
      var i :| 0 <= i < |entries| && entries[i] == e;
    }
  }
}
