/**
 * Key -> count maps as the counter keeps them, and what a sequence of
 * increments does to such a map.
 */
module Tallies {

  /** The count recorded for `k`, with an absent key read as 0. */
  function Get(m: map<string, nat>, k: string): nat
  {
    if k in m then m[k] else 0
  }

  /**
   * One increment of `key`: a key seen for the first time starts at 1, a
   * known key goes up by one, and no other key is touched.
   */
  function Bump(m: map<string, nat>, key: string): (r: map<string, nat>)
    ensures r.Keys == m.Keys + {key}
    ensures key !in m ==> r[key] == 1
    ensures key in m ==> r[key] == m[key] + 1
    ensures forall k :: k != key ==> Get(r, k) == Get(m, k)
  {
    m[key := Get(m, key) + 1]
  }

  /** The map after incrementing every key of `keys`, first to last. */
  function Tally(m: map<string, nat>, keys: seq<string>): (r: map<string, nat>)
    ensures r.Keys == m.Keys + (set k | k in keys)
    decreases |keys|
  {
    if keys == [] then m else Tally(Bump(m, keys[0]), keys[1..])
  }

  /** Incrementing `a` and then `b` is incrementing `a + b`. */
  lemma {:induction false} TallyAppend(m: map<string, nat>, a: seq<string>, b: seq<string>)
    ensures Tally(m, a + b) == Tally(Tally(m, a), b)
    decreases |a|
  {
    if a == [] {
      assert a + b == b;
    } else {
      assert (a + b)[0] == a[0];
      assert (a + b)[1..] == a[1..] + b;
      TallyAppend(Bump(m, a[0]), a[1..], b);
    }
  }

  /** Each key ends up with its old count plus the number of times it was incremented. */
  lemma {:induction false} TallyGet(m: map<string, nat>, keys: seq<string>, k: string)
    ensures Get(Tally(m, keys), k) == Get(m, k) + multiset(keys)[k]
    decreases |keys|
  {
    if keys != [] {
      assert keys == [keys[0]] + keys[1..];
      assert multiset(keys) == multiset{keys[0]} + multiset(keys[1..]);
      TallyGet(Bump(m, keys[0]), keys[1..], k);
    }
  }

  /** N increments of one key on an empty map leave exactly that key, with count N. */
  lemma {:induction false} TallyRepeat(key: string, keys: seq<string>)
    requires forall i :: 0 <= i < |keys| ==> keys[i] == key
    ensures Get(Tally(map[], keys), key) == |keys|
    ensures Tally(map[], keys).Keys == if keys == [] then {} else {key}
  {
    TallyGet(map[], keys, key);
    MultisetOfRepeat(key, keys);
    assert (set k | k in keys) == if keys == [] then {} else {key};
  }

  lemma {:induction false} MultisetOfRepeat(key: string, keys: seq<string>)
    requires forall i :: 0 <= i < |keys| ==> keys[i] == key
    ensures multiset(keys)[key] == |keys|
  {
    if keys != [] {
      assert keys == [keys[0]] + keys[1..];
      assert multiset(keys) == multiset{keys[0]} + multiset(keys[1..]);
      MultisetOfRepeat(key, keys[1..]);
    }
  }
}
