/**
 * The Redis commands the queue is built from, on values: a list is a `seq`
 * with its head at index 0, and a sorted set is a map from member to score.
 *
 * Members are job ids. A UUID is written in fixed-width lower-case hex, so
 * comparing two of them byte by byte is comparing the numbers they spell:
 * an id is a `nat`.
 */
module Redis {
  import opened Prelude

  type Id = nat
  type ZSet = map<Id, int>

  function Members(s: seq<Id>): set<Id>
  {
    set x | x in s
  }

  // -------------------------------------------------------------- lists

  /** LREM key 1 x: drop the first occurrence of x, if there is one. */
  function LRem(s: seq<Id>, x: Id): (r: seq<Id>)
  {
    if s == [] then [] else if s[0] == x then s[1..] else [s[0]] + LRem(s[1..], x)
  }

  lemma {:induction false} LRemCounts(s: seq<Id>, x: Id)
    ensures multiset(LRem(s, x)) == multiset(s) - multiset{x}
  {
    if s != [] {
      assert s == [s[0]] + s[1..];
      if s[0] != x {
        LRemCounts(s[1..], x);
      }
    }
  }

  /** How often x occurs. */
  function Count(s: seq<Id>, x: Id): nat
  {
    if s == [] then 0 else (if s[0] == x then 1 else 0) + Count(s[1..], x)
  }

  lemma {:induction false} CountIs(s: seq<Id>, x: Id)
    ensures Count(s, x) == multiset(s)[x]
    ensures Count(s, x) > 0 <==> x in s
  {
    if s != [] {
      CountIs(s[1..], x);
      assert s == [s[0]] + s[1..];
    }
  }

  lemma CountConcat(a: seq<Id>, b: seq<Id>, x: Id)
    ensures Count(a + b, x) == Count(a, x) + Count(b, x)
  {
    CountIs(a, x);
    CountIs(b, x);
    CountIs(a + b, x);
  }

  lemma CountPush(s: seq<Id>, y: Id, x: Id)
    ensures Count([y] + s, x) == Count(s, x) + (if y == x then 1 else 0)
  {
  }

  lemma CountPopLast(s: seq<Id>, x: Id)
    requires s != []
    ensures Count(s[..|s| - 1], x) == Count(s, x) - (if s[|s| - 1] == x then 1 else 0)
  {
    assert s == s[..|s| - 1] + [s[|s| - 1]];
    CountConcat(s[..|s| - 1], [s[|s| - 1]], x);
  }

  lemma CountLRem(s: seq<Id>, y: Id, x: Id)
    ensures Count(LRem(s, y), x) == if y == x && x in s then Count(s, x) - 1 else Count(s, x)
  {
  }

  /** A batch without repeats, pushed one by one. */
  lemma CountBatch(ids: seq<Id>, s: seq<Id>, x: Id)
    requires multiset(ids)[x] <= 1
    ensures Count(Reverse(ids) + s, x) == Count(s, x) + (if x in ids then 1 else 0)
  {
    CountConcat(Reverse(ids), s, x);
    CountIs(Reverse(ids), x);
    ReverseCounts(ids);
    assert x in ids <==> x in multiset(ids);
  }

  // -------------------------------------------------------- sorted sets

  /** Redis orders members by score, equal scores by member. */
  predicate Before(z: ZSet, a: Id, b: Id)
    requires a in z && b in z
  {
    z[a] < z[b] || (z[a] == z[b] && a < b)
  }

  predicate IsFirst(z: ZSet, m: Id)
  {
    m in z && forall k <- z :: k == m || Before(z, m, k)
  }

  lemma {:induction false} FirstExists(z: ZSet)
    requires z != map[]
    ensures exists m :: IsFirst(z, m)
    decreases |z|
  {
    var k :| k in z;
    var rest := z - {k};
    if rest == map[] {
      assert forall j <- z :: j == k || j in rest;
      assert IsFirst(z, k);
    } else {
      FirstExists(rest);
      var m :| IsFirst(rest, m);
      assert forall j <- z :: j == k || j in rest;
      assert IsFirst(z, if Before(z, k, m) then k else m);
    }
  }

  function First(z: ZSet): (m: Id)
    requires z != map[]
    ensures IsFirst(z, m)
  {
    FirstExists(z);
    var m :| IsFirst(z, m);
    m
  }

  /** Every member, in Redis order. */
  function InOrder(z: ZSet): (s: seq<Id>)
    ensures |s| == |z|
    decreases |z|
  {
    if z == map[] then []
    else var m := First(z); [m] + InOrder(z - {m})
  }

  /** The members with score at most `max`. */
  function Due(z: ZSet, max: int): ZSet
  {
    map k | k in z && z[k] <= max :: z[k]
  }

  /** ZRANGEBYSCORE key -inf max LIMIT 0 n. */
  function Range(z: ZSet, max: int, n: nat): (s: seq<Id>)
  {
    var all := InOrder(Due(z, max));
    all[..Min(n, |all|)]
  }

  lemma {:induction false} InOrderMembers(z: ZSet)
    ensures multiset(InOrder(z)) == multiset(z.Keys)
    decreases |z|
  {
    if z != map[] {
      var m := First(z);
      InOrderMembers(z - {m});
      assert z.Keys == (z - {m}).Keys + {m};
    }
  }

  lemma FirstBeforeRest(z: ZSet, x: Id)
    requires z != map[] && x in InOrder(z - {First(z)})
    ensures x in z && Before(z, First(z), x)
  {
    InOrderMembers(z - {First(z)});
    assert x in multiset(InOrder(z - {First(z)}));
  }

  lemma {:induction false} InOrderSorted(z: ZSet, i: nat, j: nat)
    requires i < j < |InOrder(z)|
    ensures InOrder(z)[i] in z && InOrder(z)[j] in z
    ensures Before(z, InOrder(z)[i], InOrder(z)[j])
    decreases |z|
  {
    var rest := z - {First(z)};
    if i == 0 {
      FirstBeforeRest(z, InOrder(rest)[j - 1]);
    } else {
      InOrderSorted(rest, i - 1, j - 1);
    }
  }

  /** The sorted set without its first n members. */
  function DropFirst(z: ZSet, n: nat): ZSet
    requires n <= |z|
    decreases n
  {
    if n == 0 then z else DropFirst(z - {First(z)}, n - 1)
  }

  /** Taking the first n members out leaves the others in the same order. */
  lemma {:induction false} InOrderDrop(z: ZSet, n: nat)
    requires n <= |z|
    ensures InOrder(DropFirst(z, n)) == InOrder(z)[n..]
    decreases n
  {
    if n > 0 {
      InOrderDrop(z - {First(z)}, n - 1);
    }
  }

  /** The first n members, in order. */
  function Front(z: ZSet, n: nat): (s: seq<Id>)
    requires n <= |z|
    decreases n
  {
    if n == 0 then [] else [First(z)] + Front(z - {First(z)}, n - 1)
  }

  lemma {:induction false} FrontIs(z: ZSet, n: nat)
    requires n <= |z|
    ensures Front(z, n) == InOrder(z)[..n]
    decreases n
  {
    if n > 0 {
      FrontIs(z - {First(z)}, n - 1);
    }
  }

  lemma {:induction false} DropFirstIs(z: ZSet, n: nat)
    requires n <= |z|
    ensures DropFirst(z, n) == z - Members(Front(z, n))
    decreases n
  {
    if n > 0 {
      DropFirstIs(z - {First(z)}, n - 1);
      DropFirstStep(z, n, Front(z, n), Front(z - {First(z)}, n - 1));
    }
  }

  lemma DropFirstStep(z: ZSet, n: nat, front: seq<Id>, rest: seq<Id>)
    requires 0 < n <= |z|
    requires front == [First(z)] + rest
    requires DropFirst(z - {First(z)}, n - 1) == (z - {First(z)}) - Members(rest)
    ensures DropFirst(z, n) == z - Members(front)
  {
  }

  /** A batch off the front of the order leaves exactly the rest of the order. */
  lemma InOrderRest(z: ZSet, n: nat)
    requires n <= |InOrder(z)|
    ensures InOrder(z - Members(InOrder(z)[..n])) == InOrder(z)[n..]
  {
    FrontIs(z, n);
    DropFirstIs(z, n);
    InOrderDrop(z, n);
  }

  /** The members that come no later than `id`, itself included. */
  function UpTo(z: ZSet, id: Id): set<Id>
    requires id in z
  {
    set x | x in z && (x == id || Before(z, x, id))
  }

  /** A member stands in the order exactly where that many members put it. */
  lemma {:induction false} InOrderRank(z: ZSet, id: Id)
    requires id in z
    ensures 1 <= |UpTo(z, id)| <= |InOrder(z)| && InOrder(z)[|UpTo(z, id)| - 1] == id
    decreases |z|
  {
    var m := First(z);
    if m == id {
      assert UpTo(z, id) == {id};
    } else {
      var rest := z - {m};
      assert UpTo(z, id) == {m} + UpTo(rest, id);
      InOrderRank(rest, id);
      assert InOrder(z) == [m] + InOrder(rest);
    }
  }

  /** The first members of the due set, in order, are due and without repeats. */
  lemma RangeMembers(z: ZSet, max: int, n: nat)
    ensures forall x <- Range(z, max, n) :: x in z && z[x] <= max
    ensures forall x :: multiset(Range(z, max, n))[x] <= 1
  {
    var all := InOrder(Due(z, max));
    InOrderMembers(Due(z, max));
    var k := Min(n, |all|);
    assert all == all[..k] + all[k..];
    forall x
      ensures multiset(Range(z, max, n))[x] <= 1
    {
      assert multiset(all)[x] <= 1;
    }
    forall x | x in Range(z, max, n)
      ensures x in z && z[x] <= max
    {
      assert x in multiset(all);
    }
  }

  lemma RangeMember(z: ZSet, max: int, n: nat, x: Id)
    ensures multiset(Range(z, max, n))[x] <= 1
    ensures x in Range(z, max, n) ==> x in z && z[x] <= max
  {
    RangeMembers(z, max, n);
  }

  // ------------------------------------------------------ what is due, in order

  /** All members with score at most `max`, lowest first, ties by member. */
  function DueOrder(z: ZSet, max: int): seq<Id>
  {
    InOrder(Due(z, max))
  }

  /** The order is by score and then by member. */
  lemma DueOrderIsSorted(z: ZSet, max: int, i: nat, j: nat)
    requires i < j < |DueOrder(z, max)|
    ensures var a, b := DueOrder(z, max)[i], DueOrder(z, max)[j];
            a in z && b in z && (z[a] < z[b] || (z[a] == z[b] && a < b))
  {
    InOrderSorted(Due(z, max), i, j);
  }

  lemma DueOrderLists(z: ZSet, max: int, id: Id)
    ensures id in DueOrder(z, max) <==> id in z && z[id] <= max
  {
    InOrderMembers(Due(z, max));
    assert id in DueOrder(z, max) <==> id in multiset(DueOrder(z, max));
  }

  lemma DueAfter(z: ZSet, max: int, n: nat)
    requires n <= |DueOrder(z, max)|
    ensures DueOrder(z - Members(DueOrder(z, max)[..n]), max) == DueOrder(z, max)[n..]
  {
    var taken := Members(DueOrder(z, max)[..n]);
    InOrderRest(Due(z, max), n);
    assert Due(z - taken, max) == Due(z, max) - taken;
  }

  /** With k due members at or before it, a member stands among the first m iff k <= m. */
  lemma InFrontIff(z: ZSet, max: int, m: nat, id: Id)
    requires id in Due(z, max) && m <= |DueOrder(z, max)|
    ensures id in DueOrder(z, max)[..m] <==> |UpTo(Due(z, max), id)| <= m
  {
    var all, k := DueOrder(z, max), |UpTo(Due(z, max), id)|;
    InOrderRank(Due(z, max), id);
    if k <= m {
      assert all[..m][k - 1] == id;
    } else if id in all[..m] {
      var j :| 0 <= j < m && all[j] == id;
      InOrderSorted(Due(z, max), j, k - 1);
      assert false;
    }
  }

  /** A batch, and then a batch of what is left, are one larger batch. */
  lemma RangeSplits(z: ZSet, max: int, b: nat, m: nat)
    requires b <= m
    ensures Range(z, max, m) == Range(z, max, b) + Range(z - Members(Range(z, max, b)), max, m - b)
  {
    var all := DueOrder(z, max);
    DueAfter(z, max, Min(b, |all|));
    FrontThenFront(all, Min(b, |all|), Min(m - b, |all| - Min(b, |all|)));
  }

  lemma FrontThenFront(all: seq<Id>, b: nat, k: nat)
    requires b + k <= |all|
    ensures all[..b] + all[b..][..k] == all[..b + k]
  {
  }

  lemma MembersOfTwo(a: seq<Id>, b: seq<Id>)
    ensures Members(a + b) == Members(a) + Members(b)
  {
  }

  lemma TimesPred(n: nat, b: nat)
    requires n > 0
    ensures 0 <= (n - 1) * b == n * b - b
  {
  }

  /** With k due members at or before it, a member is in the first batch of m iff k <= m. */
  lemma InRangeIff(z: ZSet, max: int, m: nat, id: Id)
    requires id in Due(z, max)
    ensures id in Range(z, max, m) <==> |UpTo(Due(z, max), id)| <= m
  {
    InFrontIff(z, max, Min(m, |DueOrder(z, max)|), id);
    InOrderRank(Due(z, max), id);
  }

  // --------------------------------------------------------------- places in the order

  /** How many members stand at or before this one. */
  function Rank(z: ZSet, id: Id): nat
    requires id in z
  {
    |UpTo(z, id)|
  }

  lemma {:induction false} MembersSize(s: seq<Id>)
    requires forall x :: multiset(s)[x] <= 1
    ensures |Members(s)| == |s|
  {
    if s != [] {
      var x, rest := s[0], s[1..];
      assert s == [x] + rest;
      assert multiset(s) == multiset{x} + multiset(rest);
      forall y
        ensures multiset(rest)[y] <= 1
      {
        assert multiset(s)[y] <= 1;
      }
      MembersSize(rest);
      assert multiset(s)[x] <= 1;
      assert x !in multiset(rest);
      assert Members(s) == {x} + Members(rest);
    }
  }

  lemma UpToDue(z: ZSet, max: int, id: Id)
    requires id in z && z[id] <= max
    ensures id in Due(z, max) && UpTo(Due(z, max), id) == UpTo(z, id)
  {
  }

  /** The batch that a due member just missed is made of members before it. */
  lemma MissedBatch(z: ZSet, max: int, b: nat, id: Id)
    requires id in z && z[id] <= max && Rank(z, id) > b
    ensures Members(Range(z, max, b)) <= UpTo(z, id) - {id}
    ensures |Members(Range(z, max, b))| == b
  {
    var all, k := DueOrder(z, max), Rank(z, id);
    UpToDue(z, max, id);
    InOrderRank(Due(z, max), id);
    InRangeIff(z, max, b, id);
    RangeMembers(z, max, b);
    MembersSize(Range(z, max, b));
    forall x | x in Range(z, max, b)
      ensures x in UpTo(z, id) - {id}
    {
      var j :| 0 <= j < b && all[j] == x;
      DueOrderIsSorted(z, max, j, k - 1);
    }
  }

  /** A batch brings a due member exactly that many places forward, or out. */
  lemma RankAfterBatch(z: ZSet, max: int, b: nat, id: Id)
    requires id in z && z[id] <= max
    ensures var z' := z - Members(Range(z, max, b));
            && (id in z' <==> Rank(z, id) > b)
            && (id in z' ==> Rank(z', id) == Rank(z, id) - b)
  {
    var batch := Members(Range(z, max, b));
    UpToDue(z, max, id);
    InRangeIff(z, max, b, id);
    if Rank(z, id) > b {
      MissedBatch(z, max, b, id);
      assert UpTo(z - batch, id) == UpTo(z, id) - batch;
    }
  }
}
