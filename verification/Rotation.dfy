/** The rotating cursor of the deposit passes: sorted keys, start after the key
    visited last, at most 32 visits a pass. Keys are numbers in key order. */
module Rotation {
  import opened Basics

  const BATCH: nat := 32

  datatype Cursor = Unset | At(key: int)

  predicate Sorted(keys: seq<int>) { forall i, j :: 0 <= i < j < |keys| ==> keys[i] < keys[j] }

  /** `x` lies on the way from just after the cursor round to `k`. */
  predicate OnTheWay(c: Cursor, x: int, k: int) {
    match c
    case Unset => x <= k
    case At(from) => if k > from then from < x <= k else x > from || x <= k
  }

  /** `v` is the cyclic successor of the cursor: it comes before every other key. */
  predicate IsNext(keys: seq<int>, c: Cursor, v: int) {
    v in keys && forall x :: x in keys ==> OnTheWay(c, v, x)
  }

  predicate After(c: Cursor, key: int) { c.Unset? || key > c.key }

  function Wrapped(start: nat, count: nat): (r: nat)
    requires 0 < count && start <= count
    ensures r == if start == count then 0 else start
  {
    start % count
  }

  /** `partition_point` and `rotate_left`: the keys in the order of this pass. */
  method VisitOrder(keys: seq<int>, c: Cursor) returns (order: seq<int>)
    requires Sorted(keys)
    ensures order == Order(keys, c)
  {
    var start := 0;
    while start < |keys| && !After(c, keys[start])
      invariant 0 <= start <= |keys|
      invariant forall i :: 0 <= i < start ==> !After(c, keys[i])
    {
      start := start + 1;
    }
    StartIs(keys, c, start);
    if |keys| > 0 { start := Wrapped(start, |keys|); }
    order := keys[start..] + keys[..start];
  }

  function Start(keys: seq<int>, c: Cursor): (n: nat)
    ensures n <= |keys|
  {
    if keys == [] || After(c, keys[0]) then 0 else 1 + Start(keys[1..], c)
  }

  lemma {:induction false} StartIs(keys: seq<int>, c: Cursor, n: nat)
    requires Sorted(keys) && n <= |keys|
    requires forall i :: 0 <= i < n ==> !After(c, keys[i])
    requires n < |keys| ==> After(c, keys[n])
    ensures Start(keys, c) == n
    decreases |keys|
  {
    if n > 0 { StartIs(keys[1..], c, n - 1); }
  }

  lemma {:induction false} StartSplits(keys: seq<int>, c: Cursor)
    requires Sorted(keys)
    ensures var n := Start(keys, c);
            && (forall i :: 0 <= i < n ==> !After(c, keys[i]))
            && (forall i :: n <= i < |keys| ==> After(c, keys[i]))
    decreases |keys|
  {
    if keys != [] && !After(c, keys[0]) { StartSplits(keys[1..], c); }
  }

  /** `start % count`, where start is at most count. */
  function Offset(keys: seq<int>, c: Cursor): nat { if Start(keys, c) == |keys| then 0 else Start(keys, c) }

  function Order(keys: seq<int>, c: Cursor): (o: seq<int>)
    ensures |o| == |keys|
  {
    keys[Offset(keys, c)..] + keys[..Offset(keys, c)]
  }

  /** The key visited i-th. */
  function Position(keys: seq<int>, c: Cursor, i: nat): (j: nat)
    requires i < |keys|
    ensures j < |keys| && Order(keys, c)[i] == keys[j]
  {
    var n := Offset(keys, c);
    if i < |keys| - n then n + i else i - (|keys| - n)
  }

  lemma OrderHasAllKeys(keys: seq<int>, c: Cursor, x: int)
    ensures x in keys <==> x in Order(keys, c)
  {
    assert keys == keys[..Offset(keys, c)] + keys[Offset(keys, c)..];
  }

  lemma NextByIndex(keys: seq<int>, p: nat, j: nat)
    requires Sorted(keys) && p < |keys| && j == (if p == |keys| - 1 then 0 else p + 1)
    ensures IsNext(keys, At(keys[p]), keys[j])
  {
    forall x | x in keys ensures OnTheWay(At(keys[p]), keys[j], x) {
      var t :| 0 <= t < |keys| && keys[t] == x;
      if t < p { assert keys[t] < keys[p]; }
      if t > p { assert keys[p] < keys[t]; }
    }
  }

  lemma FirstIsNext(keys: seq<int>, c: Cursor)
    requires Sorted(keys) && keys != []
    ensures IsNext(keys, c, Order(keys, c)[0])
  {
    StartSplits(keys, c);
    var n := Offset(keys, c);
    assert Order(keys, c)[0] == keys[n];
    forall x | x in keys ensures OnTheWay(c, keys[n], x) {
      var t :| 0 <= t < |keys| && keys[t] == x;
      assert After(c, keys[t]) <==> t >= Start(keys, c);
    }
  }

  /** A pass starts with the cyclic successor of the cursor and goes on to the
      cyclic successor of the key before. */
  lemma OrderFollowsSuccessors(keys: seq<int>, c: Cursor, i: nat)
    requires Sorted(keys) && i < |keys|
    ensures var o := Order(keys, c); IsNext(keys, if i == 0 then c else At(o[i - 1]), o[i])
  {
    if i == 0 { FirstIsNext(keys, c); } else { NextByIndex(keys, Position(keys, c, i - 1), Position(keys, c, i)); }
  }

  // ---------- nobody starves ----------

  ghost function Ahead(keys: seq<int>, c: Cursor, k: int): set<int> { set x | x in keys && OnTheWay(c, x, k) }

  lemma VisitCloser(keys: seq<int>, c: Cursor, v: int, k: int)
    requires Sorted(keys) && IsNext(keys, c, v) && k in keys && k != v
    ensures v in Ahead(keys, c, k) && Ahead(keys, At(v), k) == Ahead(keys, c, k) - {v}
  {
    forall y | y in keys ensures OnTheWay(At(v), y, k) <==> OnTheWay(c, y, k) && y != v {
      assert OnTheWay(c, v, y) && OnTheWay(c, v, k);
    }
  }

  function CursorAfter(keys: seq<int>, c: Cursor, visits: nat): Cursor
    requires visits <= |keys|
  {
    if visits == 0 then c else At(Order(keys, c)[visits - 1])
  }

  lemma OneFewer(keys: seq<int>, c: Cursor, v: int, k: int)
    requires Sorted(keys) && IsNext(keys, c, v) && k in keys && k != v
    ensures |Ahead(keys, At(v), k)| + 1 == |Ahead(keys, c, k)|
  {
    VisitCloser(keys, c, v, k);
  }

  /** A run of visits: each is to the cyclic successor of the cursor, none is to `k`. */
  predicate Misses(keys: seq<int>, c: Cursor, visited: seq<int>, k: int)
    decreases |visited|
  {
    visited == [] || (visited[0] != k && IsNext(keys, c, visited[0]) && Misses(keys, At(visited[0]), visited[1..], k))
  }

  function CursorAt(c: Cursor, visited: seq<int>): Cursor { if visited == [] then c else At(visited[|visited| - 1]) }

  /** Each visit that is not to `k` brings the cursor one key nearer to it. */
  lemma {:induction false} VisitsCloser(keys: seq<int>, c: Cursor, visited: seq<int>, k: int)
    requires Sorted(keys) && k in keys && Misses(keys, c, visited, k)
    ensures |Ahead(keys, CursorAt(c, visited), k)| + |visited| == |Ahead(keys, c, k)|
    decreases |visited|
  {
    if visited != [] {
      OneFewer(keys, c, visited[0], k);
      VisitsCloser(keys, At(visited[0]), visited[1..], k);
      assert CursorAt(At(visited[0]), visited[1..]) == CursorAt(c, visited);
    }
  }

  /** The visits of a pass, from the i-th on, make such a run. */
  lemma {:induction false} OrderMisses(keys: seq<int>, c: Cursor, order: seq<int>, i: nat, n: nat, k: int)
    requires Sorted(keys) && order == Order(keys, c) && i <= n <= |order| && forall j :: i <= j < n ==> order[j] != k
    ensures Misses(keys, if i == 0 then c else At(order[i - 1]), order[i..n], k)
    decreases n - i
  {
    if i < n {
      OrderFollowsSuccessors(keys, c, i);
      OrderMisses(keys, c, order, i + 1, n, k);
      assert order[i..n][0] == order[i] && order[i..n][1..] == order[i + 1..n];
    }
  }

  lemma PassCloser(keys: seq<int>, c: Cursor, visits: nat, k: int)
    requires Sorted(keys) && k in keys && visits <= |keys| && k !in Order(keys, c)[..visits]
    ensures |Ahead(keys, CursorAfter(keys, c, visits), k)| + visits == |Ahead(keys, c, k)|
  {
    var order := Order(keys, c);
    assert order[0..visits] == order[..visits];
    forall j | 0 <= j < visits ensures order[j] != k { assert order[j] in order[..visits]; }
    OrderMisses(keys, c, order, 0, visits, k);
    VisitsCloser(keys, c, order[..visits], k);
  }

  /** One pass: the keys found, and how many were visited before it ended. */
  datatype Pass = Pass(keys: seq<int>, visits: nat)

  predicate Follows(c: Cursor, passes: seq<Pass>)
    decreases |passes|
  {
    passes == [] ||
    var p := passes[0];
    && Sorted(p.keys) && p.visits <= |p.keys| && p.visits <= BATCH
    && (|passes| > 1 ==> forall x :: x in passes[1].keys ==> x in p.keys)
    && Follows(CursorAfter(p.keys, c, p.visits), passes[1..])
  }

  function Visited(c: Cursor, passes: seq<Pass>): set<int>
    requires Follows(c, passes)
    decreases |passes|
  {
    if passes == [] then {}
    else
      var p := passes[0];
      (set x | x in Order(p.keys, c)[..p.visits]) + Visited(CursorAfter(p.keys, c, p.visits), passes[1..])
  }

  function Visits(passes: seq<Pass>): nat { if passes == [] then 0 else passes[0].visits + Visits(passes[1..]) }

  /** A key that stays and is not visited has more keys ahead of it than there were visits. */
  lemma {:induction false} UnvisitedIsFar(c: Cursor, passes: seq<Pass>, k: int)
    requires passes != [] && Follows(c, passes) && k !in Visited(c, passes)
    requires forall i :: 0 <= i < |passes| ==> k in passes[i].keys
    ensures Visits(passes) < |Ahead(passes[0].keys, c, k)|
    decreases |passes|
  {
    var p := passes[0];
    var next := CursorAfter(p.keys, c, p.visits);
    PassCloser(p.keys, c, p.visits, k);
    if |passes| > 1 {
      UnvisitedIsFar(next, passes[1..], k);
      var later := Ahead(passes[1].keys, next, k);
      SubsetSize(later, Ahead(p.keys, next, k));
    } else {
      assert Visits(passes[1..]) == 0;
      assert k in Ahead(p.keys, next, k);
    }
  }

  lemma {:induction false} AheadAtMostAll(keys: seq<int>, c: Cursor, k: int)
    ensures |Ahead(keys, c, k)| <= |keys|
    decreases |keys|
  {
    if keys != [] {
      var front, last := keys[..|keys| - 1], keys[|keys| - 1];
      AheadAtMostAll(front, c, k);
      SubsetSize(Ahead(keys, c, k), Ahead(front, c, k) + {last});
    }
  }

  /** With n keys and no insertions, n visits in passes of any length reach every
      key that remains. */
  lemma NobodyStarvesByVisits(c: Cursor, passes: seq<Pass>, k: int)
    requires passes != [] && Follows(c, passes) && Visits(passes) >= |passes[0].keys|
    requires forall i :: 0 <= i < |passes| ==> k in passes[i].keys
    ensures k in Visited(c, passes)
  {
    if k !in Visited(c, passes) {
      UnvisitedIsFar(c, passes, k);
      AheadAtMostAll(passes[0].keys, c, k);
    }
  }

  predicate Full(p: Pass) { p.visits == if |p.keys| < BATCH then |p.keys| else BATCH }

  lemma ShortPassVisitsAll(c: Cursor, p: Pass, k: int)
    requires |p.keys| == p.visits && k in p.keys
    ensures k in Order(p.keys, c)[..p.visits]
  {
    OrderHasAllKeys(p.keys, c, k);
    assert Order(p.keys, c)[..p.visits] == Order(p.keys, c);
  }

  lemma {:induction false} FullPassVisits(c: Cursor, passes: seq<Pass>, k: int)
    requires Follows(c, passes) && k !in Visited(c, passes)
    requires forall i :: 0 <= i < |passes| ==> Full(passes[i]) && k in passes[i].keys
    ensures Visits(passes) == BATCH * |passes|
    decreases |passes|
  {
    if passes != [] {
      var p := passes[0];
      FullPassVisits(CursorAfter(p.keys, c, p.visits), passes[1..], k);
      if |p.keys| < BATCH { ShortPassVisitsAll(c, p, k); }
    }
  }

  /** With n keys and no insertions, ceil(n / 32) full passes reach every key that remains. */
  lemma NobodyStarvesByPasses(c: Cursor, passes: seq<Pass>, k: int)
    requires Follows(c, passes) && passes != [] && |passes| >= (|passes[0].keys| + BATCH - 1) / BATCH
    requires forall i :: 0 <= i < |passes| ==> Full(passes[i]) && k in passes[i].keys
    ensures k in Visited(c, passes)
  {
    if k !in Visited(c, passes) {
      FullPassVisits(c, passes, k);
      NobodyStarvesByVisits(c, passes, k);
    }
  }
}
