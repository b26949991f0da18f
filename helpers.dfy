/** Small shared vocabulary: optional values, results, string suffix and prefix
    tests, and the multiset of a map's values (one copy per key). */
module Helpers {

  datatype Option<T> = None | Some(value: T)

  datatype Result<T, E> = Ok(value: T) | Err(error: E)

  /** Go's strings.HasSuffix. */
  predicate HasSuffix(s: string, suffix: string) {
    |suffix| <= |s| && s[|s| - |suffix|..] == suffix
  }

  /** Go's strings.HasPrefix. */
  predicate HasPrefix(s: string, prefix: string) {
    |prefix| <= |s| && s[..|prefix|] == prefix
  }

  /** Some key of a non-empty set; the choice is fixed, so every use agrees. */
  ghost function Pick<K>(s: set<K>): (k: K)
    requires s != {}
    ensures k in s
  {
    var k :| k in s; k
  }

  /** The values of `m` counted once per key that maps to them: what a Go
      `for _, v := range m` loop visits. */
  ghost function ValuesBag<K, V>(m: map<K, V>): (b: multiset<V>)
    ensures |b| == |m|
    decreases |m|
  {
    if |m| == 0 then multiset{}
    else
      var k := Pick(m.Keys);
      assert (m - {k}).Keys == m.Keys - {k};
      multiset{m[k]} + ValuesBag(m - {k})
  }

  /** Whichever key is taken out first, the bag is the same: the order in which
      a map is ranged over does not change what is visited. */
  lemma {:induction false} ValuesBagRemove<K, V>(m: map<K, V>, k: K)
    requires k in m
    ensures ValuesBag(m) == multiset{m[k]} + ValuesBag(m - {k})
    decreases |m|
  {
    var j := Pick(m.Keys);
    assert (m - {j}).Keys == m.Keys - {j};
    assert ValuesBag(m) == multiset{m[j]} + ValuesBag(m - {j});
    if j != k {
      var both := m - {j} - {k};
      assert (m - {k}).Keys == m.Keys - {k};
      assert m - {k} - {j} == both;
      ValuesBagRemove(m - {j}, k);
      ValuesBagRemove(m - {k}, j);
    }
  }

  /** The keys of `m` that map to `v`. */
  ghost function KeysTo<K, V>(m: map<K, V>, v: V): set<K> {
    set k | k in m && m[k] == v
  }

  /** Taking key `k` out of `m` takes it out of the keys of its own value only. */
  lemma KeysToRemove<K, V>(m: map<K, V>, k: K, v: V)
    requires k in m
    ensures |KeysTo(m, v)| == |KeysTo(m - {k}, v)| + (if m[k] == v then 1 else 0)
  {
    if m[k] == v {
      assert KeysTo(m, v) == KeysTo(m - {k}, v) + {k};
    } else {
      assert KeysTo(m, v) == KeysTo(m - {k}, v);
    }
  }

  /** A value occurs in the bag once per key that maps to it: every value
      held under n keys is visited exactly n times. */
  lemma {:induction false} ValuesBagCount<K, V>(m: map<K, V>, v: V)
    ensures ValuesBag(m)[v] == |KeysTo(m, v)|
    decreases |m|
  {
    if m == map[] {
      assert KeysTo(m, v) == {};
    } else {
      var k :| k in m;
      ValuesBagRemove(m, k);
      assert |m - {k}| < |m| by { assert (m - {k}).Keys == m.Keys - {k}; }
      ValuesBagCount(m - {k}, v);
      KeysToRemove(m, k, v);
    }
  }

  /** The bag holds exactly the map's values. */
  lemma ValuesBagMembers<K, V>(m: map<K, V>, v: V)
    ensures v in ValuesBag(m) <==> v in m.Values
  {
    ValuesBagCount(m, v);
    if v in m.Values {
      var j :| j in m && m[j] == v;
      assert j in KeysTo(m, v);
    }
    if v in ValuesBag(m) {
      assert KeysTo(m, v) != {};
      var j :| j in KeysTo(m, v);
      assert m[j] == v;
    }
  }

  /** One step of a loop that visits the values of a map: taking key `k` out
      of the part still to visit and counting its value keeps the total. */
  lemma BagStep<K, V>(acc: multiset<V>, rest: map<K, V>, k: K, total: multiset<V>)
    requires k in rest && acc + ValuesBag(rest) == total
    ensures (acc + multiset{rest[k]}) + ValuesBag(rest - {k}) == total
  {
    ValuesBagRemove(rest, k);
  }
}
