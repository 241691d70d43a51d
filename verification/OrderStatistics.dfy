/** Sorting offsets and picking the one that a given number of them reach. */
module OrderStatistics {
  import opened Base

  ghost predicate Falls(s: seq<nat>) {
    forall i, j :: 0 <= i < j < |s| ==> s[i] >= s[j]
  }

  /** How many elements of `s` are at least `x`. */
  ghost function CountAtLeast(s: seq<nat>, x: int): nat {
    if s == [] then 0 else (if s[0] >= x then 1 else 0) + CountAtLeast(s[1..], x)
  }

  /** Insert `x` into a descending sequence. */
  function Insert(x: nat, s: seq<nat>): (r: seq<nat>)
    ensures |r| == |s| + 1
  {
    if s == [] then [x]
    else if x >= s[0] then [x] + s
    else [s[0]] + Insert(x, s[1..])
  }

  /** The elements of `s`, largest first. */
  function Descending(s: seq<nat>): (r: seq<nat>)
    ensures |r| == |s|
  {
    if s == [] then [] else Insert(s[0], Descending(s[1..]))
  }

  lemma {:induction false} FallsCons(x: nat, s: seq<nat>)
    requires Falls(s) && (s != [] ==> x >= s[0])
    ensures Falls([x] + s)
  {
  }

  lemma {:induction false} InsertFalls(x: nat, s: seq<nat>)
    requires Falls(s)
    ensures Falls(Insert(x, s))
  {
    if s == [] || x >= s[0] {
      FallsCons(x, s);
    } else {
      InsertFalls(x, s[1..]);
      FallsCons(s[0], Insert(x, s[1..]));
    }
  }

  /** `Descending` puts the largest first; by `DescendingCount` it keeps every element. */
  lemma {:induction false} DescendingFalls(s: seq<nat>)
    ensures Falls(Descending(s))
  {
    if s != [] {
      DescendingFalls(s[1..]);
      InsertFalls(s[0], Descending(s[1..]));
    }
  }

  lemma {:induction false} InsertCount(y: nat, s: seq<nat>, x: int)
    ensures CountAtLeast(Insert(y, s), x) == CountAtLeast(s, x) + (if y >= x then 1 else 0)
  {
    if s != [] && y < s[0] {
      InsertCount(y, s[1..], x);
      assert Insert(y, s)[1..] == Insert(y, s[1..]);
    } else {
      assert Insert(y, s)[1..] == s;
    }
  }

  lemma {:induction false} DescendingCount(s: seq<nat>, x: int)
    ensures CountAtLeast(Descending(s), x) == CountAtLeast(s, x)
  {
    if s != [] {
      DescendingCount(s[1..], x);
      InsertCount(s[0], Descending(s[1..]), x);
    }
  }

  /** In a descending sequence the elements at least `x` are exactly a prefix. */
  lemma {:induction false} FallsCount(s: seq<nat>, i: nat, x: int)
    requires Falls(s) && i < |s|
    ensures s[i] >= x <==> CountAtLeast(s, x) > i
  {
    if i > 0 {
      FallsCount(s[1..], i - 1, x);
    } else if s[0] < x {
      CountBound(s, x);
    }
  }

  lemma {:induction false} CountBound(s: seq<nat>, x: int)
    requires forall i :: 0 <= i < |s| ==> s[i] < x
    ensures CountAtLeast(s, x) == 0
  {
    if s != [] {
      CountBound(s[1..], x);
    }
  }

  /** The q-th largest element reaches exactly those thresholds that at least `q` elements reach. */
  lemma QthLargest(s: seq<nat>, q: nat, x: int)
    requires 1 <= q <= |s|
    ensures x <= Descending(s)[q - 1] <==> CountAtLeast(s, x) >= q
  {
    DescendingFalls(s);
    DescendingCount(s, x);
    FallsCount(Descending(s), q - 1, x);
  }

  lemma {:induction false} CountPointwise(s: seq<nat>, s': seq<nat>, x: int)
    requires |s| == |s'| && forall i :: 0 <= i < |s| ==> s[i] <= s'[i]
    ensures CountAtLeast(s, x) <= CountAtLeast(s', x)
  {
    if s != [] {
      CountPointwise(s[1..], s'[1..], x);
    }
  }

  ghost predicate Distinct(ids: seq<NodeId>) {
    forall i, j :: 0 <= i < j < |ids| ==> ids[i] != ids[j]
  }

  /** The members of `ids` whose value is at least `x`. */
  ghost function AtLeast(ids: seq<NodeId>, value: map<NodeId, nat>, x: int): set<NodeId> {
    set v | v in ids && v in value && value[v] >= x
  }

  /** Without repetitions, counting values is counting members. */
  lemma {:induction false} CountIsSize(ids: seq<NodeId>, offsets: seq<nat>, value: map<NodeId, nat>, x: int)
    requires Distinct(ids) && |offsets| == |ids|
    requires forall i :: 0 <= i < |ids| ==> ids[i] in value && value[ids[i]] == offsets[i]
    ensures CountAtLeast(offsets, x) == |AtLeast(ids, value, x)|
  {
    if ids == [] {
      assert AtLeast(ids, value, x) == {};
    } else {
      CountIsSize(ids[1..], offsets[1..], value, x);
      AtLeastFirst(ids, value, x);
    }
  }

  lemma AtLeastFirst(ids: seq<NodeId>, value: map<NodeId, nat>, x: int)
    requires Distinct(ids) && ids != [] && ids[0] in value
    ensures |AtLeast(ids, value, x)| == |AtLeast(ids[1..], value, x)| + if value[ids[0]] >= x then 1 else 0
  {
    var rest := AtLeast(ids[1..], value, x);
    assert ids == [ids[0]] + ids[1..];
    assert ids[0] !in rest;
    assert AtLeast(ids, value, x) == if value[ids[0]] >= x then rest + {ids[0]} else rest;
  }

  lemma {:induction false} DistinctSize(ids: seq<NodeId>)
    requires Distinct(ids)
    ensures |SetOf(ids)| == |ids|
  {
    if ids == [] {
      assert SetOf(ids) == {};
    } else {
      var rest := SetOf(ids[1..]);
      DistinctSize(ids[1..]);
      assert ids == [ids[0]] + ids[1..];
      assert SetOf(ids) == rest + {ids[0]};
      assert ids[0] !in rest;
    }
  }

  /** One more element of a list without repetitions counts if it is in the set. */
  lemma CountStep(order: seq<NodeId>, i: nat, all: set<NodeId>)
    requires Distinct(order) && i < |order|
    ensures order[i] in SetOf(order)
    ensures |SetOf(order[..i + 1]) * all| == |SetOf(order[..i]) * all| + if order[i] in all then 1 else 0
  {
    var p, before := order[i], SetOf(order[..i]);
    assert order[..i + 1] == order[..i] + [p];
    assert SetOf(order[..i + 1]) * all == if p in all then before * all + {p} else before * all;
    assert p !in before;
  }

  lemma CountEnds(order: seq<NodeId>, all: set<NodeId>)
    requires all <= SetOf(order)
    ensures |SetOf(order[..0]) * all| == 0 && |SetOf(order[..|order|]) * all| == |all|
  {
    assert order[..|order|] == order && SetOf(order) * all == all;
    assert SetOf(order[..0]) * all == {};
  }
}
