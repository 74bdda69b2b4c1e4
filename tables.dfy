/**
 * A dictionary that remembers insertion order, as Python dicts and
 * JavaScript objects with string keys do: `keys` lists each key once, in the
 * order it was first stored.
 */
module Tables {

  predicate Distinct<K(==)>(keys: seq<K>) {
    forall i, j :: 0 <= i < j < |keys| ==> keys[i] != keys[j]
  }

  datatype Table<V> = Table(keys: seq<string>, entries: map<string, V>) {
    /** Every key is listed, once. */
    predicate Valid() {
      entries.Keys == (set k | k in keys) && Distinct(keys)
    }

    /** `d[k] = v`: a new key goes last, an existing key keeps its place. */
    function Put(k: string, v: V): (t: Table<V>)
      ensures t.entries == entries[k := v]
      ensures Valid() ==> t.Valid()
    {
      Table(if k in entries then keys else keys + [k], entries[k := v])
    }

    /** `Object.values(d)` / `list(d.values())`. */
    function Values(): (vs: seq<V>)
      requires Valid()
      ensures |vs| == |keys| && forall i :: 0 <= i < |keys| ==> vs[i] == entries[keys[i]]
    {
      seq(|keys|, i requires 0 <= i < |keys| => entries[keys[i]])
    }
  }

  function EmptyTable<V>(): (t: Table<V>)
    ensures t.Valid() && t.entries == map[]
  {
    Table([], map[])
  }

  /** The sum of `f` over the listed keys' values. */
  function Sum<V>(keys: seq<string>, m: map<string, V>, f: V -> int): int
    requires forall k :: k in keys ==> k in m
  {
    if |keys| == 0 then 0 else f(m[keys[0]]) + Sum(keys[1..], m, f)
  }

  lemma {:induction false} SumFrame<V>(keys: seq<string>, m: map<string, V>, k: string, v: V, f: V -> int)
    requires forall x :: x in keys ==> x in m
    requires k !in keys
    ensures Sum(keys, m[k := v], f) == Sum(keys, m, f)
    decreases |keys|
  {
    if |keys| > 0 {
      SumFrame(keys[1..], m, k, v, f);
    }
  }

  lemma {:induction false} SumAppend<V>(keys: seq<string>, m: map<string, V>, k: string, f: V -> int)
    requires forall x :: x in keys ==> x in m
    requires k in m
    ensures Sum(keys + [k], m, f) == Sum(keys, m, f) + f(m[k])
    decreases |keys|
  {
    if |keys| == 0 {
      assert keys + [k] == [k];
    } else {
      assert (keys + [k])[1..] == keys[1..] + [k];
      SumAppend(keys[1..], m, k, f);
    }
  }

  lemma {:induction false} SumReplace<V>(keys: seq<string>, m: map<string, V>, k: string, v: V, f: V -> int)
    requires forall x :: x in keys ==> x in m
    requires Distinct(keys) && k in keys
    ensures Sum(keys, m[k := v], f) == Sum(keys, m, f) - f(m[k]) + f(v)
    decreases |keys|
  {
    if keys[0] == k {
      assert k !in keys[1..] by {
        forall j | 0 <= j < |keys[1..]| ensures keys[1..][j] != k {
          assert keys[1..][j] == keys[j + 1];
        }
      }
      SumFrame(keys[1..], m, k, v, f);
    } else {
      SumReplace(keys[1..], m, k, v, f);
    }
  }

  /**
   * Storing v under k changes the sum over a valid table by f(v) minus what
   * k held before (nothing for a new key).
   */
  lemma SumPut<V>(t: Table<V>, k: string, v: V, f: V -> int)
    requires t.Valid()
    ensures t.Put(k, v).Valid()
    ensures Sum(t.Put(k, v).keys, t.Put(k, v).entries, f)
            == Sum(t.keys, t.entries, f) - (if k in t.entries then f(t.entries[k]) else 0) + f(v)
  {
    if k in t.entries {
      SumReplace(t.keys, t.entries, k, v, f);
    } else {
      SumFrame(t.keys, t.entries, k, v, f);
      SumAppend(t.keys, t.entries[k := v], k, f);
    }
  }
}
