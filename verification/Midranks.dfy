/** Average ranks of values with ties, doubled to stay whole (benchmarks/retrieval/stats.py,
    `doubled_midranks`). */
module Midranks {

  function Smaller(values: seq<real>, v: real): nat {
    if values == [] then 0
    else Smaller(values[..|values| - 1], v) + (if values[|values| - 1] < v then 1 else 0)
  }

  function Equal(values: seq<real>, v: real): nat {
    if values == [] then 0
    else Equal(values[..|values| - 1], v) + (if values[|values| - 1] == v then 1 else 0)
  }

  /** Twice the average of the ranks that the values equal to `v` take up together. */
  function Midrank(values: seq<real>, v: real): nat {
    2 * Smaller(values, v) + Equal(values, v) + 1
  }

  function MidranksOf(values: seq<real>): seq<nat> {
    seq(|values|, i requires 0 <= i < |values| => Midrank(values, values[i]))
  }

  // ---------------------------------------------------------------- sorting the indices

  function Insert(order: seq<nat>, values: seq<real>, x: nat): seq<nat>
    requires x < |values| && forall i :: 0 <= i < |order| ==> order[i] < |values|
  {
    if order == [] || values[x] < values[order[0]] then [x] + order
    else [order[0]] + Insert(order[1..], values, x)
  }

  ghost predicate Ranges(order: seq<nat>, n: nat) {
    (forall i :: 0 <= i < |order| ==> order[i] < n) && forall i, j :: 0 <= i < j < |order| ==> order[i] != order[j]
  }

  ghost predicate Ascends(order: seq<nat>, values: seq<real>)
    requires forall i :: 0 <= i < |order| ==> order[i] < |values|
  {
    forall i, j :: 0 <= i < j < |order| ==> values[order[i]] <= values[order[j]]
  }

  lemma {:induction false} InsertKeeps(order: seq<nat>, values: seq<real>, x: nat)
    requires Ranges(order, |values|) && x < |values| && x !in order && Ascends(order, values)
    ensures var r := Insert(order, values, x);
      Ranges(r, |values|) && Ascends(r, values) && |r| == |order| + 1 && forall y :: y in r <==> y in order || y == x
  {
    if order != [] {
      assert order == [order[0]] + order[1..];
      if values[x] >= values[order[0]] {
        InsertKeeps(order[1..], values, x);
        PutFirst(order[0], Insert(order[1..], values, x), values);
      }
    }
  }

  lemma PutFirst(first: nat, rest: seq<nat>, values: seq<real>)
    requires Ranges(rest, |values|) && Ascends(rest, values) && first < |values| && first !in rest
    requires forall y :: y in rest ==> values[first] <= values[y]
    ensures Ranges([first] + rest, |values|) && Ascends([first] + rest, values)
  {
    forall i | 0 <= i < |rest| ensures values[first] <= values[rest[i]] && first != rest[i] {
      assert rest[i] in rest;
    }
  }

  /** The indices below `n` sorted by value, equal ones in their order. */
  function Sorted(values: seq<real>, n: nat): (order: seq<nat>)
    requires n <= |values|
    ensures |order| == n && Ranges(order, |values|) && Ascends(order, values)
    ensures forall y: nat :: y in order <==> y < n
  {
    if n == 0 then []
    else
      InsertKeeps(Sorted(values, n - 1), values, n - 1);
      Insert(Sorted(values, n - 1), values, n - 1)
  }

  /** All indices, in order of value. */
  ghost predicate IsOrder(values: seq<real>, order: seq<nat>) {
    |order| == |values| && Ranges(order, |values|) && Ascends(order, values)
    && forall y: nat :: y < |values| ==> y in order
  }

  // ---------------------------------------------------------------- counting

  function Below(values: seq<real>, v: real): set<nat> {
    set i: nat | i < |values| && values[i] < v
  }

  function Ties(values: seq<real>, v: real): set<nat> {
    set i: nat | i < |values| && values[i] == v
  }

  lemma {:induction false} CountBelow(values: seq<real>, v: real)
    ensures Smaller(values, v) == |Below(values, v)|
  {
    if values != [] {
      var n := |values| - 1;
      CountBelow(values[..n], v);
      assert Below(values, v) == Below(values[..n], v) + (if values[n] < v then {n} else {});
    }
  }

  lemma {:induction false} CountTies(values: seq<real>, v: real)
    ensures Equal(values, v) == |Ties(values, v)|
  {
    if values != [] {
      var n := |values| - 1;
      CountTies(values[..n], v);
      assert Ties(values, v) == Ties(values[..n], v) + (if values[n] == v then {n} else {});
    }
  }

  function Elements(s: seq<nat>): set<nat> {
    set x | x in s
  }

  lemma {:induction false} DistinctCount(s: seq<nat>)
    requires forall i, j :: 0 <= i < j < |s| ==> s[i] != s[j]
    ensures |Elements(s)| == |s|
  {
    if s != [] {
      var init, last := s[..|s| - 1], s[|s| - 1];
      DistinctCount(init);
      assert last !in init;
      assert Elements(s) == Elements(init) + {last} by {
        assert s == init + [last];
      }
    }
  }

  /** The run `start..end` of the sorted indices holds all indices of one value. */
  ghost predicate IsRun(values: seq<real>, order: seq<nat>, start: nat, end: nat)
    requires forall i :: 0 <= i < |order| ==> order[i] < |values|
  {
    start <= end < |order|
    && (forall p :: 0 <= p < start ==> values[order[p]] < values[order[start]])
    && (forall p :: start <= p <= end ==> values[order[p]] == values[order[start]])
    && forall p :: end < p < |order| ==> values[order[p]] > values[order[start]]
  }

  lemma RunBelow(values: seq<real>, order: seq<nat>, start: nat, end: nat)
    requires IsOrder(values, order) && IsRun(values, order, start, end)
    ensures Smaller(values, values[order[start]]) == start
  {
    var v, below := values[order[start]], order[..start];
    forall i: nat | i < |values| ensures values[i] < v <==> i in below {
      assert i in order;
      var p :| 0 <= p < |order| && order[p] == i;
      if p < start { assert below[p] == i; }
    }
    assert Below(values, v) == Elements(below);
    CountBelow(values, v);
    DistinctCount(below);
  }

  lemma RunTies(values: seq<real>, order: seq<nat>, start: nat, end: nat)
    requires IsOrder(values, order) && IsRun(values, order, start, end)
    ensures Equal(values, values[order[start]]) == end + 1 - start
  {
    var v, same := values[order[start]], order[start..end + 1];
    forall i: nat | i < |values| ensures values[i] == v <==> i in same {
      assert i in order;
      var p :| 0 <= p < |order| && order[p] == i;
      if start <= p <= end { assert same[p - start] == i; }
    }
    assert Ties(values, v) == Elements(same);
    CountTies(values, v);
    DistinctCount(same);
  }

  lemma RunRank(values: seq<real>, order: seq<nat>, start: nat, end: nat)
    requires IsOrder(values, order) && IsRun(values, order, start, end)
    ensures forall p :: start <= p <= end ==> Midrank(values, values[order[p]]) == start + end + 2
  {
    RunBelow(values, order, start, end);
    RunTies(values, order, start, end);
    forall p | start <= p <= end ensures Midrank(values, values[order[p]]) == start + end + 2 {
      assert values[order[p]] == values[order[start]];
    }
  }

  /** A longest stretch of equal values behind smaller ones is a run. */
  lemma StretchIsRun(values: seq<real>, order: seq<nat>, start: nat, end: nat)
    requires IsOrder(values, order) && start <= end < |order|
    requires 0 < start ==> values[order[start - 1]] < values[order[start]]
    requires forall p :: start <= p <= end ==> values[order[p]] == values[order[start]]
    requires end + 1 < |order| ==> values[order[end + 1]] != values[order[start]]
    ensures IsRun(values, order, start, end)
  {
    forall p | 0 <= p < start ensures values[order[p]] < values[order[start]] {
      assert values[order[p]] <= values[order[start - 1]];
    }
    forall p | end < p < |order| ensures values[order[p]] > values[order[start]] {
      assert values[order[start]] <= values[order[end + 1]] <= values[order[p]];
    }
  }

  // ---------------------------------------------------------------- the program

  /** Every index gets twice the average rank of its value. */
  method DoubledMidranks(values: seq<real>) returns (result: seq<nat>)
    ensures result == MidranksOf(values)
  {
    var order := Sorted(values, |values|);
    var ranks := new nat[|values|](_ => 0);
    var start := 0;
    while start < |order|
      invariant 0 <= start <= |order|
      invariant 0 < start < |order| ==> values[order[start - 1]] < values[order[start]]
      invariant forall p :: 0 <= p < start ==> ranks[order[p]] == Midrank(values, values[order[p]])
    {
      var end := RunFrom(values, order, start);
      FillRun(ranks, order, start, end);
      start := end + 1;
    }
    forall i | 0 <= i < |values| ensures ranks[i] == Midrank(values, values[i]) {
      assert i in order;
      var p :| 0 <= p < |order| && order[p] == i;
    }
    result := ranks[..];
  }

  /** The last position of the run of equal values that begins at `start`. */
  method RunFrom(values: seq<real>, order: seq<nat>, start: nat) returns (end: nat)
    requires IsOrder(values, order) && start < |order|
    requires 0 < start ==> values[order[start - 1]] < values[order[start]]
    ensures IsRun(values, order, start, end)
    ensures forall p :: start <= p <= end ==> Midrank(values, values[order[p]]) == start + end + 2
  {
    end := start;
    while end + 1 < |order| && values[order[end + 1]] == values[order[start]]
      invariant start <= end < |order|
      invariant forall p :: start <= p <= end ==> values[order[p]] == values[order[start]]
    {
      end := end + 1;
    }
    StretchIsRun(values, order, start, end);
    RunRank(values, order, start, end);
  }

  method FillRun(ranks: array<nat>, order: seq<nat>, start: nat, end: nat)
    requires start <= end < |order| && Ranges(order, ranks.Length)
    modifies ranks
    ensures forall p :: 0 <= p < start ==> ranks[order[p]] == old(ranks[order[p]])
    ensures forall p :: start <= p <= end ==> ranks[order[p]] == start + end + 2
  {
    for position := start to end + 1
      invariant forall p :: 0 <= p < start ==> ranks[order[p]] == old(ranks[order[p]])
      invariant forall p :: start <= p < position ==> ranks[order[p]] == start + end + 2
    {
      ranks[order[position]] := start + end + 2;
    }
  }

  // ---------------------------------------------------------------- what the ranks keep

  /** Ties share a rank, and a larger value has a larger rank. */
  lemma MidrankKeepsOrder(values: seq<real>, i: nat, j: nat)
    requires i < |values| && j < |values|
    ensures values[i] == values[j] ==> Midrank(values, values[i]) == Midrank(values, values[j])
    ensures values[i] < values[j] ==> Midrank(values, values[i]) < Midrank(values, values[j])
  {
    if values[i] < values[j] {
      FewerBelow(values, values[i], values[j]);
      Present(values, i);
    }
  }

  lemma {:induction false} FewerBelow(values: seq<real>, v: real, w: real)
    requires v < w
    ensures Smaller(values, v) + Equal(values, v) <= Smaller(values, w)
  {
    if values != [] {
      FewerBelow(values[..|values| - 1], v, w);
    }
  }

  lemma {:induction false} Present(values: seq<real>, i: nat)
    requires i < |values|
    ensures Equal(values, values[i]) >= 1
  {
    if i < |values| - 1 {
      Present(values[..|values| - 1], i);
    }
  }

  function Sum(ranks: seq<nat>): nat {
    if ranks == [] then 0 else Sum(ranks[..|ranks| - 1]) + ranks[|ranks| - 1]
  }

  /** The ranks of `values[..n]` among `values`, summed. */
  function Total(values: seq<real>, n: nat): nat
    requires n <= |values|
  {
    if n == 0 then 0 else Total(values, n - 1) + Midrank(values, values[n - 1])
  }

  lemma {:induction false} SumIsTotal(values: seq<real>, n: nat)
    requires n <= |values|
    ensures Sum(MidranksOf(values)[..n]) == Total(values, n)
  {
    if n > 0 {
      SumIsTotal(values, n - 1);
      assert MidranksOf(values)[..n][..n - 1] == MidranksOf(values)[..n - 1];
    }
  }

  /** What one more value `x` adds to the ranks of the first `n` values. */
  lemma {:induction false} OneMoreRank(values: seq<real>, x: real, n: nat)
    requires n <= |values|
    ensures Total(values + [x], n) + 2 * Smaller(values[..n], x) + Equal(values[..n], x) == Total(values, n) + 2 * n
  {
    if n > 0 {
      OneMoreRank(values, x, n - 1);
      assert (values + [x])[..|values|] == values;
      assert values[..n][..n - 1] == values[..n - 1];
    }
  }

  lemma TotalSnoc(values: seq<real>, x: real)
    ensures Total(values + [x], |values| + 1) == Total(values, |values|) + 2 * |values| + 2
  {
    OneMoreRank(values, x, |values|);
    assert values[..|values|] == values && (values + [x])[..|values|] == values;
  }

  lemma {:induction false} TotalIs(values: seq<real>)
    ensures Total(values, |values|) == |values| * (|values| + 1)
    decreases |values|
  {
    if values != [] {
      var n := |values| - 1;
      TotalIs(values[..n]);
      TotalSnoc(values[..n], values[n]);
      assert values[..n] + [values[n]] == values;
      assert n * (n + 1) + 2 * (n + 1) == (n + 1) * (n + 2);
    }
  }

  /** The doubled ranks of n values sum to n (n + 1), ties or not. */
  lemma RanksSum(values: seq<real>)
    ensures Sum(MidranksOf(values)) == |values| * (|values| + 1)
  {
    SumIsTotal(values, |values|);
    TotalIs(values);
    assert MidranksOf(values)[..|values|] == MidranksOf(values);
  }
}
