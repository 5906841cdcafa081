/** Small shared vocabulary. */
module Prelude {

  datatype Option<+T> = None | Some(value: T)

  /** A key lookup that may miss. */
  function Lookup<K, V>(m: map<K, V>, k: K): Option<V>
  {
    if k in m then Some(m[k]) else None
  }

  /** The map with this key holding this entry, or not at all. */
  function Put<V>(keys: map<string, V>, key: string, e: Option<V>): map<string, V>
  {
    if e.Some? then keys[key := e.value] else keys - {key}
  }

  /** Putting an entry under a key is seen under that key and under no other. */
  lemma PutIs<V>(keys: map<string, V>, key: string, e: Option<V>, k: string)
    ensures Lookup(Put(keys, key, e), k) == if k == key then e else Lookup(keys, k)
  {
  }

  function Max(a: int, b: int): int
  {
    if a < b then b else a
  }

  function Min(a: int, b: int): int
  {
    if a < b then a else b
  }

  function One(b: bool): nat
  {
    if b then 1 else 0
  }

  /** How many i with j <= i < k are so. */
  function CountBetween(j: nat, k: nat, p: nat -> bool): nat
    requires j <= k
    decreases k
  {
    if j == k then 0 else CountBetween(j, k - 1, p) + One(p(k - 1))
  }

  lemma Scale(a: real, b: real, c: real)
    requires c > 0.0
    ensures a <= b <==> a * c <= b * c
    ensures a < b <==> a * c < b * c
  {
    if a < b {
      assert (b - a) * c > 0.0;
    } else if b < a {
      assert (a - b) * c > 0.0;
    }
  }

  function Reverse<T>(s: seq<T>): (r: seq<T>)
    ensures |r| == |s|
  {
    if s == [] then [] else Reverse(s[1..]) + [s[0]]
  }

  lemma {:induction false} ReverseConcat<T>(a: seq<T>, b: seq<T>)
    ensures Reverse(a + b) == Reverse(b) + Reverse(a)
  {
    if a == [] {
      assert a + b == b;
    } else {
      ReverseConcat(a[1..], b);
      assert (a + b)[1..] == a[1..] + b;
    }
  }

  lemma {:induction false} ReverseTwice<T>(s: seq<T>)
    ensures Reverse(Reverse(s)) == s
  {
    if s != [] {
      ReverseTwice(s[1..]);
      ReverseConcat(Reverse(s[1..]), [s[0]]);
      assert Reverse([s[0]]) == [s[0]];
    }
  }

  lemma {:induction false} ReverseCounts<T>(s: seq<T>)
    ensures multiset(Reverse(s)) == multiset(s)
  {
    if s != [] {
      ReverseCounts(s[1..]);
      assert s == [s[0]] + s[1..];
    }
  }

  /** A finite map leaves numbers unused. */
  lemma {:induction false} FreshKey<V>(m: map<nat, V>) returns (k: nat)
    ensures k !in m
    ensures forall j <- m :: j < k
    decreases |m|
  {
    if m == map[] {
      k := 0;
    } else {
      var j :| j in m;
      var rest := FreshKey(m - {j});
      k := if j < rest then rest else j + 1;
      assert forall i <- m :: i == j || i in m - {j};
    }
  }
}
