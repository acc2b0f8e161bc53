/** Query-string dictionaries as `dict(parse_qsl(...))` builds them: keys
    in order of first appearance, the last value of a repeated key
    winning; and the data-check string of the Telegram Mini App signature
    scheme, one `key=value` line per key in sorted key order. */
module Form {
  import opened Wrappers
  import opened Strings

  /** A dictionary in insertion order. */
  type Assoc<K, V> = seq<(K, V)>

  /** A string dictionary. */
  type Dict = Assoc<string, string>

  predicate DistinctKeys<K(==), V>(d: Assoc<K, V>) {
    forall i, j | 0 <= i < j < |d| :: d[i].0 != d[j].0
  }

  function Keys<K, V>(d: Assoc<K, V>): (ks: seq<K>)
    ensures |ks| == |d| && forall i | 0 <= i < |d| :: ks[i] == d[i].0
    decreases |d|
  {
    if |d| == 0 then [] else [d[0].0] + Keys(d[1..])
  }

  /** `d.get(k)`. */
  function Get<K(==), V>(d: Assoc<K, V>, k: K): (v: Option<V>)
    ensures v.None? <==> k !in Keys(d)
    ensures v.Some? ==> (k, v.value) in d
    decreases |d|
  {
    if |d| == 0 then None
    else if d[0].0 == k then Some(d[0].1)
    else Get(d[1..], k)
  }

  /** `d[k] = v`: a present key keeps its position, a new one goes last. */
  function Put<K(==), V>(d: Assoc<K, V>, k: K, v: V): Assoc<K, V>
    decreases |d|
  {
    if |d| == 0 then [(k, v)]
    else if d[0].0 == k then [(k, v)] + d[1..]
    else [d[0]] + Put(d[1..], k, v)
  }

  /** After `d[k] = v`, `k` maps to `v` and every other key keeps its
      value. */
  lemma {:induction false} PutGet<K, V>(d: Assoc<K, V>, k: K, v: V)
    ensures Get(Put(d, k, v), k) == Some(v)
    ensures forall j | j != k :: Get(Put(d, k, v), j) == Get(d, j)
    decreases |d|
  {
    if |d| > 0 && d[0].0 != k {
      PutGet(d[1..], k, v);
    }
  }

  /** The keys after `d[k] = v` are the old ones plus `k`, and distinct
      keys stay distinct. */
  lemma {:induction false} PutKeys<K, V>(d: Assoc<K, V>, k: K, v: V)
    ensures forall j :: j in Keys(Put(d, k, v)) <==> j == k || j in Keys(d)
    ensures DistinctKeys(d) ==> DistinctKeys(Put(d, k, v))
    decreases |d|
  {
    var e := Put(d, k, v);
    if |d| > 0 && d[0].0 == k {
      assert e[1..] == d[1..];
    } else if |d| > 0 {
      PutKeys(d[1..], k, v);
      var r := Put(d[1..], k, v);
      assert e == [d[0]] + r && e[1..] == r;
      if DistinctKeys(d) {
        assert DistinctKeys(d[1..]) by {
          forall i, m | 0 <= i < m < |d[1..]|
            ensures d[1..][i].0 != d[1..][m].0
          {
            assert d[1..][i] == d[i + 1] && d[1..][m] == d[m + 1];
          }
        }
        forall i, m | 0 <= i < m < |e|
          ensures e[i].0 != e[m].0
        {
          if i == 0 {
            assert e[m] == r[m - 1] && Keys(r)[m - 1] == e[m].0;
            if e[m].0 != k {
              assert e[m].0 in Keys(d[1..]);
              var t :| 0 <= t < |d[1..]| && Keys(d[1..])[t] == e[m].0;
              assert d[t + 1].0 == e[m].0;
            }
          } else {
            assert e[i] == r[i - 1] && e[m] == r[m - 1];
          }
        }
      }
    }
  }

  /** `d[k] = v` keeps the order of the keys, and a new key goes last. */
  lemma {:induction false} PutKeysOrder<K, V>(d: Assoc<K, V>, k: K, v: V)
    ensures Keys(Put(d, k, v)) == if k in Keys(d) then Keys(d) else Keys(d) + [k]
    decreases |d|
  {
    if |d| > 0 {
      assert Keys(d) == [d[0].0] + Keys(d[1..]);
      if d[0].0 == k {
        assert Keys(Put(d, k, v)) == [k] + Keys(d[1..]);
      } else {
        PutKeysOrder(d[1..], k, v);
        assert Keys(Put(d, k, v)) == [d[0].0] + Keys(Put(d[1..], k, v));
        assert k in Keys(d) <==> k in Keys(d[1..]);
      }
    }
  }

  /** Under distinct keys, each pair is what `d.get` finds for its key. */
  lemma {:induction false} GetAt<K, V>(d: Assoc<K, V>, i: nat)
    requires DistinctKeys(d) && i < |d|
    ensures Get(d, d[i].0) == Some(d[i].1)
    decreases i
  {
    if i > 0 {
      assert d[0].0 != d[i].0;
      assert DistinctKeys(d[1..]) by {
        forall a, b | 0 <= a < b < |d[1..]|
          ensures d[1..][a].0 != d[1..][b].0
        {
          assert d[1..][a] == d[a + 1] && d[1..][b] == d[b + 1];
        }
      }
      GetAt(d[1..], i - 1);
      assert d[1..][i - 1] == d[i];
    }
  }

  /** The value of the last pair with key `k`, as `dict(pairs)` keeps it. */
  function LastValue<K(==), V>(pairs: seq<(K, V)>, k: K): Option<V>
    decreases |pairs|
  {
    if |pairs| == 0 then None
    else if pairs[|pairs| - 1].0 == k then Some(pairs[|pairs| - 1].1)
    else LastValue(pairs[..|pairs| - 1], k)
  }

  /** `dict(pairs)`. */
  function DictOf<K(==), V>(pairs: seq<(K, V)>): Assoc<K, V>
    decreases |pairs|
  {
    if |pairs| == 0 then []
    else
      var last := pairs[|pairs| - 1];
      Put(DictOf(pairs[..|pairs| - 1]), last.0, last.1)
  }

  /** `dict(pairs)` has each key once, holding its last value. */
  lemma {:induction false} DictOfLastWins<K, V>(pairs: seq<(K, V)>)
    ensures DistinctKeys(DictOf(pairs))
    ensures forall k :: Get(DictOf(pairs), k) == LastValue(pairs, k)
    decreases |pairs|
  {
    if |pairs| > 0 {
      var last := pairs[|pairs| - 1];
      DictOfLastWins(pairs[..|pairs| - 1]);
      PutGet(DictOf(pairs[..|pairs| - 1]), last.0, last.1);
      PutKeys(DictOf(pairs[..|pairs| - 1]), last.0, last.1);
    }
  }

  /** `d.pop(k, None)` leaves the other keys in order. */
  function Remove<K(==), V>(d: Assoc<K, V>, k: K): (e: Assoc<K, V>)
    ensures |e| <= |d|
    decreases |d|
  {
    if |d| == 0 then []
    else if d[0].0 == k then Remove(d[1..], k)
    else [d[0]] + Remove(d[1..], k)
  }

  /** After the pop, `k` is absent and every other key keeps its value. */
  lemma {:induction false} RemoveGet<K, V>(d: Assoc<K, V>, k: K)
    ensures k !in Keys(Remove(d, k))
    ensures forall j | j != k :: Get(Remove(d, k), j) == Get(d, j)
    ensures forall j :: j in Keys(Remove(d, k)) <==> j != k && j in Keys(d)
    ensures DistinctKeys(d) ==> DistinctKeys(Remove(d, k))
    decreases |d|
  {
    if |d| > 0 {
      RemoveGet(d[1..], k);
      var r := Remove(d[1..], k);
      assert Keys(d) == [d[0].0] + Keys(d[1..]);
      if d[0].0 != k {
        var e := [d[0]] + r;
        assert Remove(d, k) == e && e[1..] == r;
        assert Keys(e) == [d[0].0] + Keys(r);
        if DistinctKeys(d) {
          assert DistinctKeys(d[1..]) by {
            forall i, m | 0 <= i < m < |d[1..]|
              ensures d[1..][i].0 != d[1..][m].0
            {
              assert d[1..][i] == d[i + 1] && d[1..][m] == d[m + 1];
            }
          }
          forall i, m | 0 <= i < m < |e|
            ensures e[i].0 != e[m].0
          {
            if i == 0 {
              assert e[m] == r[m - 1] && Keys(r)[m - 1] == e[m].0;
              assert e[m].0 in Keys(r);
              assert e[m].0 in Keys(d[1..]);
              var t :| 0 <= t < |d[1..]| && Keys(d[1..])[t] == e[m].0;
              assert d[t + 1].0 == e[m].0;
            } else {
              assert e[i] == r[i - 1] && e[m] == r[m - 1];
            }
          }
        }
      } else if DistinctKeys(d) {
        assert DistinctKeys(d[1..]) by {
          forall i, m | 0 <= i < m < |d[1..]|
            ensures d[1..][i].0 != d[1..][m].0
          {
            assert d[1..][i] == d[i + 1] && d[1..][m] == d[m + 1];
          }
        }
      }
    }
  }

  /** The line of each key, in the order given. */
  function Lines(d: Dict, keys: seq<string>): (lines: seq<string>)
    ensures |lines| == |keys|
  {
    seq(|keys|, i requires 0 <= i < |keys| => keys[i] + "=" + Get(d, keys[i]).GetOr(""))
  }

  /** `"\n".join(f"{k}={d[k]}" for k in sorted(d))`. */
  function DataCheckString(d: Dict): string {
    Join(Lines(d, SortStrings(Keys(d))), "\n")
  }

  /** The lines follow the keys in sorted order, each key of the
      dictionary exactly as often as it occurs in it. */
  lemma DataCheckKeysSorted(d: Dict)
    ensures Sorted(SortStrings(Keys(d))) && multiset(SortStrings(Keys(d))) == multiset(Keys(d))
    ensures forall k :: k in SortStrings(Keys(d)) <==> k in Keys(d)
  {
    SortStringsCorrect(Keys(d));
    var ks := SortStrings(Keys(d));
    forall k
      ensures k in ks <==> k in Keys(d)
    {
      assert k in ks <==> k in multiset(ks);
      assert k in Keys(d) <==> k in multiset(Keys(d));
    }
  }

  /** Two dictionaries with the same keys and values give the same
      data-check string, whatever order the keys were inserted in. */
  lemma DataCheckOrderFree(d: Dict, e: Dict)
    requires multiset(Keys(d)) == multiset(Keys(e))
    requires forall k :: Get(d, k) == Get(e, k)
    ensures DataCheckString(d) == DataCheckString(e)
  {
    SortStringsPermutation(Keys(d), Keys(e));
    var ks := SortStrings(Keys(d));
    assert Lines(d, ks) == Lines(e, ks);
  }
}
