// Insertion-ordered string-keyed tables, as a JavaScript `Map` keeps them:
// `set` on a new key appends it, `set` on a present key keeps its place,
// `delete` removes it, and iteration follows insertion order.

module OrderedMaps {
  import opened Wrappers

  predicate Distinct(s: seq<string>)
  {
    forall i, j :: 0 <= i < j < |s| ==> s[i] != s[j]
  }

  datatype OMap<V> = OMap(keys: seq<string>, vals: map<string, V>)
  {
    /** The key list holds each key of the table exactly once. */
    ghost predicate Valid()
    {
      Distinct(keys) && (forall k :: k in vals <==> k in keys)
    }

    /** `m.size`. */
    function Size(): nat { |keys| }

    /** `m.get(k)`. */
    function Get(k: string): Option<V>
    {
      if k in vals then Some(vals[k]) else None
    }

    /** `m.set(k, v)`. */
    function Put(k: string, v: V): OMap<V>
    {
      if k in vals then OMap(keys, vals[k := v]) else OMap(keys + [k], vals[k := v])
    }

    /** `m.delete(k)`. */
    function Remove(k: string): OMap<V>
    {
      OMap(RemoveKey(keys, k), vals - {k})
    }
  }

  function Empty<V>(): OMap<V> { OMap([], map[]) }

  /** The key list without `k`. */
  function RemoveKey(s: seq<string>, k: string): (r: seq<string>)
    decreases |s|
  {
    if |s| == 0 then []
    else if s[0] == k then RemoveKey(s[1..], k)
    else [s[0]] + RemoveKey(s[1..], k)
  }

  /** Removing a key keeps the others in order and drops only that key. */
  lemma {:induction false} RemoveKeySpec(s: seq<string>, k: string)
    ensures forall x :: x in RemoveKey(s, k) <==> x in s && x != k
    ensures Distinct(s) ==> Distinct(RemoveKey(s, k))
    ensures k !in s ==> RemoveKey(s, k) == s
    ensures |s| > 0 && s[0] == k && Distinct(s) ==> RemoveKey(s, k) == s[1..]
    decreases |s|
  {
    if |s| > 0 {
      RemoveKeySpec(s[1..], k);
      if s[0] == k && Distinct(s) {
        assert k !in s[1..] by {
          forall i | 0 <= i < |s[1..]| ensures s[1..][i] != k {
            assert s[1..][i] == s[i + 1];
          }
        }
      }
      if Distinct(s) && s[0] != k {
        var r := [s[0]] + RemoveKey(s[1..], k);
        assert Distinct(s[1..]) by {
          forall i, j | 0 <= i < j < |s[1..]| ensures s[1..][i] != s[1..][j] {
            assert s[1..][i] == s[i + 1] && s[1..][j] == s[j + 1];
          }
        }
        forall i, j | 0 <= i < j < |r| ensures r[i] != r[j] {
          if i == 0 {
            assert r[j] in RemoveKey(s[1..], k);
            assert s[0] !in s[1..] by {
              forall m | 0 <= m < |s[1..]| ensures s[1..][m] != s[0] {
                assert s[1..][m] == s[m + 1];
              }
            }
          } else {
            assert r[i] == RemoveKey(s[1..], k)[i - 1] && r[j] == RemoveKey(s[1..], k)[j - 1];
          }
        }
      }
    }
  }

  /** `set` keeps the table valid, makes `get(k)` return the new value, leaves
      every other entry alone, and moves no key: a present key keeps its
      place, a new one goes last. */
  lemma PutSpec<V>(m: OMap<V>, k: string, v: V)
    requires m.Valid()
    ensures m.Put(k, v).Valid()
    ensures m.Put(k, v).Get(k) == Some(v)
    ensures forall x :: x != k ==> m.Put(k, v).Get(x) == m.Get(x)
    ensures k in m.keys ==> m.Put(k, v).keys == m.keys
    ensures k !in m.keys ==> m.Put(k, v).keys == m.keys + [k]
  {
  }

  /** `delete` keeps the table valid, removes exactly `k` and keeps the order
      of the rest. */
  lemma RemoveSpec<V>(m: OMap<V>, k: string)
    requires m.Valid()
    ensures m.Remove(k).Valid()
    ensures m.Remove(k).Get(k) == None
    ensures forall x :: x != k ==> m.Remove(k).Get(x) == m.Get(x)
    ensures k in m.keys ==> m.Remove(k).Size() == m.Size() - 1
    ensures k !in m.keys ==> m.Remove(k) == m
  {
    RemoveKeySpec(m.keys, k);
    if k in m.keys {
      RemoveKeyLength(m.keys, k);
    }
  }

  /** Removing a key that occurs once shortens the list by one. */
  lemma {:induction false} RemoveKeyLength(s: seq<string>, k: string)
    requires Distinct(s) && k in s
    ensures |RemoveKey(s, k)| == |s| - 1
    decreases |s|
  {
    assert Distinct(s[1..]) by {
      forall i, j | 0 <= i < j < |s[1..]| ensures s[1..][i] != s[1..][j] {
        assert s[1..][i] == s[i + 1] && s[1..][j] == s[j + 1];
      }
    }
    if s[0] == k {
      RemoveKeySpec(s, k);
    } else {
      assert k in s[1..] by {
        var i :| 0 <= i < |s| && s[i] == k;
        assert s[1..][i - 1] == k;
      }
      RemoveKeyLength(s[1..], k);
    }
  }
}
