/**
 Redis sorted sets read in pages without deleting: what one page contains, and
 how pages drain a batch.
 */
module SortedSets {
  import opened RedisKeys
  import Sets

  /** ZRANGEBYSCORE -inf (bound LIMIT n: the lowest scores first, at most n of them. */
  ghost predicate LowestFirst<X(!new)>(z: map<X, int>, bound: int, n: nat, listed: seq<X>)
  {
    && |listed| <= n
    && (forall i, j :: 0 <= i < j < |listed| ==> listed[i] != listed[j])
    && (forall x :: x in listed ==> x in z && z[x] < bound)
    && (|listed| < n ==> forall x :: x in z && z[x] < bound ==> x in listed)
    && (forall x, y :: x in listed && y in z && y !in listed ==> z[x] <= z[y])
  }

  lemma LeastExists<X(!new)>(z: map<X, int>, s: set<X>) returns (x: X)
    requires s != {} && s <= z.Keys
    ensures x in s && forall y :: y in s ==> z[x] <= z[y]
    decreases |s|
  {
    x := Sets.Some(s);
    var rest := s - {x};
    if rest != {} {
      var m := LeastExists(z, rest);
      if z[m] < z[x] {
        x := m;
      }
    }
  }

  method RangeByScore<X(==, !new)>(z: map<X, int>, bound: int, n: nat) returns (listed: seq<X>)
    ensures LowestFirst(z, bound, n, listed)
  {
    listed := [];
    var rest := z.Keys;
    while |listed| < n && exists x :: x in rest && z[x] < bound
      invariant rest <= z.Keys && |listed| <= n
      invariant forall x :: x in z ==> (x in rest <==> x !in listed)
      invariant forall x :: x in listed ==> x in z && z[x] < bound
      invariant forall i, j :: 0 <= i < j < |listed| ==> listed[i] != listed[j]
      invariant forall x, y :: x in listed && y in rest ==> z[x] <= z[y]
      decreases rest
    {
      ghost var least := LeastExists(z, rest);
      var x :| x in rest && forall y :: y in rest ==> z[x] <= z[y];
      listed := listed + [x];
      rest := rest - {x};
    }
  }

  /** One scan either lists every remaining entry of a batch that has the lowest
      scores, or a full page of that batch. */
  lemma ScanTakesFromBatch<X(!new)>(z: map<X, int>, bound: int, n: nat, listed: seq<X>, batch: set<X>, low: int)
    requires LowestFirst(z, bound, n, listed) && low <= bound
    requires batch == set x | x in z && z[x] < low
    ensures |batch - (set x | x in listed)| <= if |batch| <= n then 0 else |batch| - n
  {
    var page := set x | x in listed;
    if batch <= page {
      assert batch - page == {};
    } else {
      var y := Sets.Some(batch - page);
      assert |listed| == n;
      forall x | x in page ensures x in batch {
        assert z[x] <= z[y];
      }
      Sets.DistinctSize(listed);
      assert batch == page + (batch - page);
    }
  }

  // ---- Draining a batch page by page ----------------------------------------------------

  /** What is left of n entries after k pages. */
  function LeftAfter(n: nat, k: nat): nat
  {
    if n <= 1000 * k then 0 else n - 1000 * k
  }

  /** Marks, or close tasks, that stood before `low`. */
  function Older<X>(z: map<X, int>, low: int): set<X>
  {
    set x | x in z && z[x] < low
  }

  /** Entries only ever go, the listed ones among them. */
  predicate Shrinks<X>(z: map<X, int>, z': map<X, int>)
  {
    forall x :: x in z' ==> x in z && z'[x] == z[x]
  }

  lemma PageShrinksBatch<X(!new)>(z: map<X, int>, z': map<X, int>, bound: int, low: int, page: seq<X>, n: nat, k: nat)
    requires LowestFirst(z, bound, SCAN_LIMIT, page) && low <= bound
    requires Shrinks(z, z') && forall x :: x in page ==> x !in z'
    requires |Older(z, low)| <= LeftAfter(n, k)
    ensures |Older(z', low)| <= LeftAfter(n, k + 1)
  {
    var batch, rest := Older(z, low), Older(z', low);
    var listed := set x | x in page;
    ScanTakesFromBatch(z, bound, SCAN_LIMIT, page, batch, low);
    assert rest <= batch - listed;
    Sets.SubsetSize(rest, batch - listed);
  }
}
