/** Everything held in the values of a map, as a multiset and as a count of one element. */
module Bags {

  ghost function Bag<K, V, T>(m: map<K, V>, held: V -> seq<T>): multiset<T> {
    if m == map[] then multiset{}
    else
      var k :| k in m;
      multiset(held(m[k])) + Bag(m - {k}, held)
  }

  /** How often `x` is held in the values of `m`. */
  ghost function Count<K, V, T>(m: map<K, V>, held: V -> seq<T>, x: T): nat {
    Bag(m, held)[x]
  }

  function Only<K, V>(m: map<K, V>, keys: set<K>): map<K, V> {
    map k | k in m && k in keys :: m[k]
  }

  /** Any key may be taken out first. */
  lemma {:induction false} CountTake<K, V, T>(m: map<K, V>, k: K, held: V -> seq<T>, x: T)
    requires k in m
    ensures Count(m, held, x) == multiset(held(m[k]))[x] + Count(m - {k}, held, x)
    decreases |m|
  {
    var k' :| k' in m && Bag(m, held) == multiset(held(m[k'])) + Bag(m - {k'}, held);
    if k' != k {
      CountTake(m - {k'}, k, held, x);
      CountTake(m - {k}, k', held, x);
      assert m - {k'} - {k} == m - {k} - {k'};
    }
  }

  /** Overwriting or inserting one key changes the count by what that key held and holds. */
  lemma CountUpdate<K, V, T>(m: map<K, V>, k: K, v: V, held: V -> seq<T>, x: T)
    ensures Count(m[k := v], held, x) + (if k in m then multiset(held(m[k]))[x] else 0)
            == Count(m, held, x) + multiset(held(v))[x]
  {
    CountTake(m[k := v], k, held, x);
    assert m[k := v] - {k} == m - {k};
    if k in m {
      CountTake(m, k, held, x);
    } else {
      assert m - {k} == m;
    }
  }

  lemma {:induction false} CountSplit<K, V, T>(m: map<K, V>, keys: set<K>, held: V -> seq<T>, x: T)
    ensures Count(m, held, x) == Count(Only(m, keys), held, x) + Count(m - keys, held, x)
    decreases |m|
  {
    if m == map[] {
      assert Only(m, keys) == m && m - keys == m;
    } else {
      var k :| k in m;
      var rest := m - {k};
      if k in keys {
        assert Only(m, keys) - {k} == Only(rest, keys) && m - keys == rest - keys;
        CountTake(Only(m, keys), k, held, x);
      } else {
        assert Only(m, keys) == Only(rest, keys) && m - keys - {k} == rest - keys;
        CountTake(m - keys, k, held, x);
      }
      CountSplit(rest, keys, held, x);
      CountTake(m, k, held, x);
    }
  }

  /** What is counted is held under some key. */
  lemma {:induction false} CountMember<K, V, T>(m: map<K, V>, held: V -> seq<T>, x: T) returns (k: K)
    requires Count(m, held, x) > 0
    ensures k in m && x in held(m[k])
    decreases |m|
  {
    k :| k in m && Bag(m, held) == multiset(held(m[k])) + Bag(m - {k}, held);
    if x !in held(m[k]) {
      k := CountMember(m - {k}, held, x);
    }
  }

  lemma {:induction false} CountNone<K, V, T>(m: map<K, V>, held: V -> seq<T>, x: T)
    requires forall k <- m :: x !in held(m[k])
    ensures Count(m, held, x) == 0
    decreases |m|
  {
    if m != map[] {
      var k :| k in m && Bag(m, held) == multiset(held(m[k])) + Bag(m - {k}, held);
      CountNone(m - {k}, held, x);
    }
  }
}
