/** The exact signed-rank test (benchmarks/retrieval/stats.py, `wilcoxon_signed_rank`). */
module Wilcoxon {
  import opened Midranks
  import opened Words

  /** Fractions are exact reals; rounding the results to floating point is not modelled. */
  datatype WilcoxonResult = WilcoxonResult(nonzero: nat, wPlus: real, wMinus: real, pValue: real)

  // ---------------------------------------------------------------- sign assignments

  /** Every choice of signs for `n` ranks. */
  function Selections(n: nat): set<seq<bool>> {
    if n == 0 then {[]} else Ending(Selections(n - 1), false) + Ending(Selections(n - 1), true)
  }

  function Ending(selections: set<seq<bool>>, sign: bool): set<seq<bool>> {
    set s | s in selections :: s + [sign]
  }

  /** The sum of the ranks with a positive sign. */
  function PlusSum(ranks: seq<nat>, selection: seq<bool>): nat
    requires |selection| == |ranks|
  {
    if ranks == [] then 0
    else PlusSum(ranks[..|ranks| - 1], selection[..|ranks| - 1])
         + (if selection[|ranks| - 1] then ranks[|ranks| - 1] else 0)
  }

  lemma {:induction false} SelectionLength(n: nat, s: seq<bool>)
    requires s in Selections(n)
    ensures |s| == n
  {
    if n > 0 {
      var t, b :| t in Selections(n - 1) && s == t + [b];
      SelectionLength(n - 1, t);
    }
  }

  /** No choice of signs is left out. */
  lemma {:induction false} SelectionsAll(s: seq<bool>)
    ensures s in Selections(|s|)
  {
    if s != [] {
      var t, last := s[..|s| - 1], s[|s| - 1];
      SelectionsAll(t);
      assert s == t + [last];
      assert s in Ending(Selections(|t|), last);
    }
  }

  /** The selections whose ranks sum to `k`. */
  function Summing(ranks: seq<nat>, k: int): set<seq<bool>> {
    set s | s in Selections(|ranks|) && |s| == |ranks| && PlusSum(ranks, s) == k
  }

  lemma {:induction false} EndingSize(selections: set<seq<bool>>, sign: bool)
    ensures |Ending(selections, sign)| == |selections|
  {
    if selections != {} {
      var s :| s in selections;
      EndingSize(selections - {s}, sign);
      forall t | t in selections - {s} ensures t + [sign] != s + [sign] {
        assert (t + [sign])[..|t|] == t && (s + [sign])[..|s|] == s;
      }
      assert Ending(selections, sign) == Ending(selections - {s}, sign) + {s + [sign]};
    }
  }

  lemma {:induction false} SelectionsSize(n: nat)
    ensures |Selections(n)| == PowerOfTwo(n)
  {
    if n > 0 {
      var before := Selections(n - 1);
      SelectionsSize(n - 1);
      EndingSize(before, false);
      EndingSize(before, true);
      EndingsApart(before, before);
    }
  }

  lemma EndingsApart(a: set<seq<bool>>, b: set<seq<bool>>)
    ensures Ending(a, false) !! Ending(b, true)
    ensures |Ending(a, false) + Ending(b, true)| == |Ending(a, false)| + |Ending(b, true)|
  {
    forall s | s in Ending(a, false) ensures s != [] && !s[|s| - 1] {
      var t :| t in a && s == t + [false];
    }
    forall s | s in Ending(b, true) ensures s != [] && s[|s| - 1] {
      var t :| t in b && s == t + [true];
    }
  }

  // ---------------------------------------------------------------- the distribution

  /** How many selections sum to `k`, one rank at a time. */
  function Ways(ranks: seq<nat>, k: int): nat {
    if ranks == [] then (if k == 0 then 1 else 0)
    else Ways(ranks[..|ranks| - 1], k) + Ways(ranks[..|ranks| - 1], k - ranks[|ranks| - 1])
  }

  lemma PlusSumSnoc(ranks: seq<nat>, x: nat, t: seq<bool>, b: bool)
    requires |t| == |ranks|
    ensures PlusSum(ranks + [x], t + [b]) == PlusSum(ranks, t) + (if b then x else 0)
  {
    assert (ranks + [x])[..|ranks|] == ranks && (t + [b])[..|t|] == t;
  }

  lemma SummingSplits(ranks: seq<nat>, x: nat, k: int, s: seq<bool>)
    requires s in Summing(ranks + [x], k)
    ensures s in Ending(Summing(ranks, k), false) + Ending(Summing(ranks, k - x), true)
  {
    var t, b :| t in Selections(|ranks|) && s == t + [b];
    hide PlusSum, Selections;
    SelectionLength(|ranks|, t);
    PlusSumSnoc(ranks, x, t, b);
    assert t in Summing(ranks, if b then k - x else k);
  }

  lemma SummingJoins(ranks: seq<nat>, x: nat, k: int, t: seq<bool>, b: bool)
    requires t in Summing(ranks, if b then k - x else k)
    ensures t + [b] in Summing(ranks + [x], k)
  {
    hide PlusSum;
    PlusSumSnoc(ranks, x, t, b);
    assert t + [b] in Ending(Selections(|ranks|), b);
  }

  lemma SummingStep(ranks: seq<nat>, x: nat, k: int)
    ensures Summing(ranks + [x], k) == Ending(Summing(ranks, k), false) + Ending(Summing(ranks, k - x), true)
  {
    var parts := Ending(Summing(ranks, k), false) + Ending(Summing(ranks, k - x), true);
    forall s | s in Summing(ranks + [x], k) ensures s in parts { SummingSplits(ranks, x, k, s); }
    forall s | s in parts ensures s in Summing(ranks + [x], k) {
      hide PlusSum, Selections;
      var b := s in Ending(Summing(ranks, k - x), true);
      var t :| t in Summing(ranks, if b then k - x else k) && s == t + [b];
      SummingJoins(ranks, x, k, t, b);
    }
  }

  lemma SummingSize(ranks: seq<nat>, x: nat, k: int)
    ensures |Summing(ranks + [x], k)| == |Summing(ranks, k)| + |Summing(ranks, k - x)|
  {
    SummingStep(ranks, x, k);
    EndingSize(Summing(ranks, k), false);
    EndingSize(Summing(ranks, k - x), true);
    EndingsApart(Summing(ranks, k), Summing(ranks, k - x));
  }

  lemma SummingNothing(k: int)
    ensures Summing([], k) == if k == 0 then {[]} else {}
  {
  }

  /** The recurrence counts selections. */
  lemma {:induction false} WaysCount(ranks: seq<nat>, k: int)
    ensures Ways(ranks, k) == |Summing(ranks, k)|
  {
    hide PlusSum, Selections, Summing;
    if ranks == [] {
      SummingNothing(k);
    } else {
      var init, x := ranks[..|ranks| - 1], ranks[|ranks| - 1];
      WaysCount(init, k);
      WaysCount(init, k - x);
      SummingSize(init, x, k);
      assert init + [x] == ranks;
    }
  }

  lemma {:induction false} NoWays(ranks: seq<nat>, k: int)
    requires k < 0 || k > Sum(ranks)
    ensures Ways(ranks, k) == 0
  {
    if ranks != [] {
      NoWays(ranks[..|ranks| - 1], k);
      NoWays(ranks[..|ranks| - 1], k - ranks[|ranks| - 1]);
    }
  }

  /** The distribution is symmetric about half the rank total. */
  lemma {:induction false} WaysAreSymmetric(ranks: seq<nat>, k: int)
    ensures Ways(ranks, k) == Ways(ranks, Sum(ranks) - k)
  {
    if ranks != [] {
      var init, x := ranks[..|ranks| - 1], ranks[|ranks| - 1];
      WaysAreSymmetric(init, k);
      WaysAreSymmetric(init, k - x);
    }
  }

  lemma {:induction false} SomeWay(ranks: seq<nat>)
    ensures Ways(ranks, 0) > 0
  {
    if ranks != [] {
      SomeWay(ranks[..|ranks| - 1]);
    }
  }

  // ---------------------------------------------------------------- tails

  /** The selections that sum to less than `m`. */
  function SummingBelow(ranks: seq<nat>, m: int): set<seq<bool>> {
    set s | s in Selections(|ranks|) && |s| == |ranks| && PlusSum(ranks, s) < m
  }

  function SummingFrom(ranks: seq<nat>, m: int): set<seq<bool>> {
    set s | s in Selections(|ranks|) && |s| == |ranks| && PlusSum(ranks, s) >= m
  }

  function WaysBelow(ranks: seq<nat>, m: nat): nat {
    if m == 0 then 0 else WaysBelow(ranks, m - 1) + Ways(ranks, m - 1)
  }

  lemma NoneBelow(ranks: seq<nat>)
    ensures SummingBelow(ranks, 0) == {}
  {
  }

  lemma OneMoreBelow(ranks: seq<nat>, m: nat)
    requires m > 0
    ensures |SummingBelow(ranks, m)| == |SummingBelow(ranks, m - 1)| + |Summing(ranks, m - 1)|
  {
    hide Ways, PlusSum, Selections;
    var below, at := SummingBelow(ranks, m - 1), Summing(ranks, m - 1);
    assert below !! at;
    assert SummingBelow(ranks, m) == below + at;
  }

  lemma {:induction false} WaysBelowCount(ranks: seq<nat>, m: nat)
    ensures WaysBelow(ranks, m) == |SummingBelow(ranks, m)|
  {
    hide Ways, SummingBelow, Summing;
    if m == 0 {
      NoneBelow(ranks);
    } else {
      WaysBelowCount(ranks, m - 1);
      WaysCount(ranks, m - 1);
      OneMoreBelow(ranks, m);
    }
  }

  lemma {:induction false} PlusSumBounded(ranks: seq<nat>, s: seq<bool>)
    requires |s| == |ranks|
    ensures PlusSum(ranks, s) <= Sum(ranks)
  {
    if ranks != [] {
      PlusSumBounded(ranks[..|ranks| - 1], s[..|ranks| - 1]);
    }
  }

  lemma TailsSplit(ranks: seq<nat>, m: nat)
    ensures |SummingBelow(ranks, m)| + |SummingFrom(ranks, m)| == PowerOfTwo(|ranks|)
  {
    SelectionsSize(|ranks|);
    forall s | s in Selections(|ranks|) ensures |s| == |ranks| {
      SelectionLength(|ranks|, s);
    }
    assert Selections(|ranks|) == SummingBelow(ranks, m) + SummingFrom(ranks, m);
  }

  /** All ways together are all selections. */
  lemma WaysTotal(ranks: seq<nat>)
    ensures WaysBelow(ranks, Sum(ranks) + 1) == PowerOfTwo(|ranks|)
  {
    WaysBelowCount(ranks, Sum(ranks) + 1);
    TailsSplit(ranks, Sum(ranks) + 1);
    var none := SummingFrom(ranks, Sum(ranks) + 1);
    if s :| s in none {
      PlusSumBounded(ranks, s);
    }
    assert none == {};
  }

  /** Mirrored tails: as many ways below `m` as there are from the mirror image of `m - 1` on. */
  lemma {:induction false} MirroredTail(ranks: seq<nat>, m: nat)
    requires m <= Sum(ranks) + 1
    ensures WaysBelow(ranks, m) + WaysBelow(ranks, Sum(ranks) + 1 - m) == PowerOfTwo(|ranks|)
  {
    if m == 0 {
      WaysTotal(ranks);
    } else {
      MirroredTail(ranks, m - 1);
      WaysAreSymmetric(ranks, m - 1);
    }
  }

  lemma {:induction false} WaysBelowGrows(ranks: seq<nat>, m: nat, n: nat)
    requires m <= n
    ensures WaysBelow(ranks, m) <= WaysBelow(ranks, n)
    decreases n
  {
    if m < n {
      WaysBelowGrows(ranks, m, n - 1);
    }
  }

  // ---------------------------------------------------------------- the test

  function Least(a: nat, b: nat): nat {
    if a <= b then a else b
  }

  function DoubledShare(tail: nat, all: nat): real
    requires all > 0
  {
    var p := (2 * tail) as real / all as real;
    if p < 1.0 then p else 1.0
  }

  /** Twice the smaller tail at the observed sum, as a share of all sign assignments, at most 1. */
  function PValue(ranks: seq<nat>, observed: nat): real {
    DoubledShare(Least(|SummingBelow(ranks, observed + 1)|, |SummingFrom(ranks, observed)|), PowerOfTwo(|ranks|))
  }

  /** A p-value lies in (0, 1]. */
  lemma PValueInRange(ranks: seq<nat>, observed: nat)
    requires observed <= Sum(ranks)
    ensures 0.0 < PValue(ranks, observed) <= 1.0
  {
    WaysBelowCount(ranks, observed + 1);
    WaysBelowCount(ranks, observed);
    TailsSplit(ranks, observed);
    SomeWay(ranks);
    WaysBelowGrows(ranks, 1, observed + 1);
    assert WaysBelow(ranks, 1) == WaysBelow(ranks, 0) + Ways(ranks, 0);
    MirroredTail(ranks, observed);
    WaysBelowGrows(ranks, 1, Sum(ranks) + 1 - observed);
    Positive(2 * Least(|SummingBelow(ranks, observed + 1)|, |SummingFrom(ranks, observed)|), PowerOfTwo(|ranks|));
  }

  lemma Positive(a: nat, b: nat)
    requires a > 0 && b > 0
    ensures a as real / b as real > 0.0
  {
  }

  lemma MirroredTails(ranks: seq<nat>, observed: nat)
    requires observed <= Sum(ranks)
    ensures |SummingFrom(ranks, observed)| == |SummingBelow(ranks, Sum(ranks) - observed + 1)|
  {
    WaysBelowCount(ranks, observed);
    WaysBelowCount(ranks, Sum(ranks) - observed + 1);
    TailsSplit(ranks, observed);
    MirroredTail(ranks, observed);
  }

  /** The mirrored sum has the same p-value. */
  lemma PValueIsSymmetric(ranks: seq<nat>, observed: nat)
    requires observed <= Sum(ranks)
    ensures PValue(ranks, observed) == PValue(ranks, Sum(ranks) - observed)
  {
    MirroredTails(ranks, observed);
    MirroredTails(ranks, Sum(ranks) - observed);
    assert Sum(ranks) - (Sum(ranks) - observed) == observed;
  }

  function Nonzero(differences: seq<real>): seq<real> {
    if differences == [] then []
    else Nonzero(differences[..|differences| - 1])
         + (if differences[|differences| - 1] != 0.0 then [differences[|differences| - 1]] else [])
  }

  function Magnitude(d: real): real {
    if d < 0.0 then -d else d
  }

  function Magnitudes(differences: seq<real>): seq<real> {
    seq(|differences|, i requires 0 <= i < |differences| => Magnitude(differences[i]))
  }

  function Signs(differences: seq<real>): seq<bool> {
    seq(|differences|, i requires 0 <= i < |differences| => differences[i] > 0.0)
  }

  /** The result for nonzero differences: the rank sum of the positive ones, of the others, and the p-value. */
  function Tested(nonzero: seq<real>): WilcoxonResult {
    var ranks := MidranksOf(Magnitudes(nonzero));
    var observed := PlusSum(ranks, Signs(nonzero));
    WilcoxonResult(|nonzero|, observed as real / 2.0, (Sum(ranks) - observed) as real / 2.0, PValue(ranks, observed))
  }

  function Negated(differences: seq<real>): seq<real> {
    seq(|differences|, i requires 0 <= i < |differences| => -differences[i])
  }

  lemma {:induction false} OtherSigns(ranks: seq<nat>, s: seq<bool>, t: seq<bool>)
    requires |s| == |t| == |ranks| && forall i :: 0 <= i < |s| ==> t[i] == !s[i]
    ensures PlusSum(ranks, s) + PlusSum(ranks, t) == Sum(ranks)
  {
    if ranks != [] {
      var n := |ranks| - 1;
      OtherSigns(ranks[..n], s[..n], t[..n]);
    }
  }

  lemma {:induction false} NonzeroOf(differences: seq<real>)
    ensures forall i :: 0 <= i < |Nonzero(differences)| ==> Nonzero(differences)[i] != 0.0
    ensures Nonzero(Negated(differences)) == Negated(Nonzero(differences))
  {
    if differences != [] {
      var n := |differences| - 1;
      NonzeroOf(differences[..n]);
      assert Negated(differences)[..n] == Negated(differences[..n]);
    }
  }

  lemma NegatedSums(nonzero: seq<real>)
    requires forall i :: 0 <= i < |nonzero| ==> nonzero[i] != 0.0
    ensures var r, t := Tested(nonzero), Tested(Negated(nonzero));
      t.nonzero == r.nonzero && t.wPlus == r.wMinus && t.wMinus == r.wPlus && t.pValue == r.pValue
  {
    assert Magnitudes(Negated(nonzero)) == Magnitudes(nonzero);
    var ranks := MidranksOf(Magnitudes(nonzero));
    OtherSigns(ranks, Signs(nonzero), Signs(Negated(nonzero)));
    PValueIsSymmetric(ranks, PlusSum(ranks, Signs(nonzero)));
  }

  /** The result for any differences; without a nonzero one, the test says nothing. */
  function ResultOf(differences: seq<real>): WilcoxonResult {
    if Nonzero(differences) == [] then WilcoxonResult(0, 0.0, 0.0, 1.0) else Tested(Nonzero(differences))
  }

  /** Negating every difference swaps the two rank sums and keeps the p-value. */
  lemma NegationSwapsSums(differences: seq<real>)
    ensures var r, t := ResultOf(differences), ResultOf(Negated(differences));
      t.nonzero == r.nonzero && t.wPlus == r.wMinus && t.wMinus == r.wPlus && t.pValue == r.pValue
  {
    NonzeroOf(differences);
    if Nonzero(differences) != [] {
      NegatedSums(Nonzero(differences));
    }
  }

  // ---------------------------------------------------------------- what the sums mean

  /** The nonzero differences closer to zero than a distance `v`. */
  function Closer(differences: seq<real>, v: real): nat {
    if differences == [] then 0
    else
      var d := differences[|differences| - 1];
      Closer(differences[..|differences| - 1], v) + (if d != 0.0 && -v < d < v then 1 else 0)
  }

  /** The differences at distance `v` from zero, on either side. */
  function AsFar(differences: seq<real>, v: real): nat {
    if differences == [] then 0
    else
      var d := differences[|differences| - 1];
      AsFar(differences[..|differences| - 1], v) + (if d == v || d == -v then 1 else 0)
  }

  /** Twice the average of the ranks that the differences at distance `v` take up. */
  function DoubledRank(differences: seq<real>, v: real): nat {
    2 * Closer(differences, v) + AsFar(differences, v) + 1
  }

  /** The doubled ranks among `all` of those of `some` above zero. */
  function RanksAbove(all: seq<real>, some: seq<real>): nat {
    if some == [] then 0
    else
      var d := some[|some| - 1];
      RanksAbove(all, some[..|some| - 1]) + (if d > 0.0 then DoubledRank(all, d) else 0)
  }

  function RanksBelow(all: seq<real>, some: seq<real>): nat {
    if some == [] then 0
    else
      var d := some[|some| - 1];
      RanksBelow(all, some[..|some| - 1]) + (if d < 0.0 then DoubledRank(all, -d) else 0)
  }

  lemma {:induction false} CountsAgree(differences: seq<real>, v: real)
    requires v > 0.0
    ensures var magnitudes := Magnitudes(Nonzero(differences));
      Smaller(magnitudes, v) == Closer(differences, v) && Equal(magnitudes, v) == AsFar(differences, v)
  {
    if differences != [] {
      var init, d := differences[..|differences| - 1], differences[|differences| - 1];
      CountsAgree(init, v);
      if d != 0.0 {
        assert Magnitudes(Nonzero(differences)) == Magnitudes(Nonzero(init)) + [Magnitude(d)];
        assert Magnitudes(Nonzero(differences))[..|Nonzero(init)|] == Magnitudes(Nonzero(init));
      } else {
        assert Nonzero(differences) == Nonzero(init);
      }
    }
  }

  /** The doubled ranks among `all` of the nonzero ones of `some`. */
  function RanksAmong(all: seq<real>, some: seq<real>): seq<nat> {
    var nonzero := Nonzero(some);
    seq(|nonzero|, i requires 0 <= i < |nonzero| => Midrank(Magnitudes(Nonzero(all)), Magnitude(nonzero[i])))
  }

  lemma {:induction false} SumsAgree(all: seq<real>, some: seq<real>)
    ensures PlusSum(RanksAmong(all, some), Signs(Nonzero(some))) == RanksAbove(all, some)
    ensures Sum(RanksAmong(all, some)) == RanksAbove(all, some) + RanksBelow(all, some)
  {
    if some != [] {
      var init, d := some[..|some| - 1], some[|some| - 1];
      SumsAgree(all, init);
      if d != 0.0 {
        var n := |Nonzero(init)|;
        CountsAgree(all, Magnitude(d));
        assert Nonzero(some) == Nonzero(init) + [d];
        assert RanksAmong(all, some)[..n] == RanksAmong(all, init);
        assert Signs(Nonzero(some))[..n] == Signs(Nonzero(init));
      } else {
        assert Nonzero(some) == Nonzero(init);
      }
    }
  }

  /** The two sums are the ranks of the differences above and below zero, the distances from zero ranked and ties
      sharing their average rank. */
  lemma RankSums(differences: seq<real>)
    ensures var r := ResultOf(differences);
      2.0 * r.wPlus == RanksAbove(differences, differences) as real
      && 2.0 * r.wMinus == RanksBelow(differences, differences) as real
  {
    SumsAgree(differences, differences);
    var nonzero := Nonzero(differences);
    assert RanksAmong(differences, differences) == MidranksOf(Magnitudes(nonzero));
    if nonzero == [] {
      assert RanksAmong(differences, differences) == [];
    }
  }

  lemma {:induction false} NoneBelowZero(all: seq<real>, some: seq<real>)
    requires forall i :: 0 <= i < |some| ==> some[i] >= 0.0
    ensures RanksBelow(all, some) == 0
  {
    if some != [] { NoneBelowZero(all, some[..|some| - 1]); }
  }

  lemma {:induction false} PlusSumAtMost(ranks: seq<nat>, s: seq<bool>)
    requires |s| == |ranks| && forall i :: 0 <= i < |ranks| ==> ranks[i] > 0
    ensures PlusSum(ranks, s) >= Sum(ranks) <==> forall i :: 0 <= i < |s| ==> s[i]
  {
    if ranks != [] {
      var n := |ranks| - 1;
      PlusSumAtMost(ranks[..n], s[..n]);
      PlusSumBounded(ranks[..n], s[..n]);
    }
  }

  /** At the largest sum, one tail is the one choice of all signs positive. */
  lemma ExtremeTail(ranks: seq<nat>)
    requires forall i :: 0 <= i < |ranks| ==> ranks[i] > 0
    ensures |SummingFrom(ranks, Sum(ranks))| == 1
  {
    var all := seq(|ranks|, _ => true);
    SelectionsAll(all);
    forall s | s in Selections(|ranks|) && |s| == |ranks|
      ensures PlusSum(ranks, s) >= Sum(ranks) <==> s == all
    {
      PlusSumAtMost(ranks, s);
    }
    assert SummingFrom(ranks, Sum(ranks)) == {all};
  }

  lemma AllBelow(ranks: seq<nat>)
    ensures |SummingBelow(ranks, Sum(ranks) + 1)| == PowerOfTwo(|ranks|)
  {
    hide SummingBelow, WaysBelow, Sum, PowerOfTwo;
    WaysTotal(ranks);
    WaysBelowCount(ranks, Sum(ranks) + 1);
  }

  lemma ExtremePValue(ranks: seq<nat>)
    requires ranks != [] && forall i :: 0 <= i < |ranks| ==> ranks[i] > 0
    ensures PValue(ranks, Sum(ranks)) == 2.0 / PowerOfTwo(|ranks|) as real
  {
    hide SummingBelow, SummingFrom, Sum, PowerOfTwo, DoubledShare;
    ExtremeTail(ranks);
    AllBelow(ranks);
    AtLeastTwo(|ranks|);
    ShareOfOne(PowerOfTwo(|ranks|));
  }

  lemma AtLeastTwo(n: nat)
    requires n > 0
    ensures PowerOfTwo(n) >= 2
  {
  }

  lemma ShareOfOne(all: nat)
    requires all >= 2
    ensures DoubledShare(1, all) == 2.0 / all as real
  {
    assert 2.0 / all as real <= 1.0;
  }

  lemma {:induction false} NonzeroCount(differences: seq<real>)
    ensures |Nonzero(differences)| == |set i | 0 <= i < |differences| && differences[i] != 0.0|
  {
    if differences != [] {
      var n := |differences| - 1;
      NonzeroCount(differences[..n]);
      assert (set i | 0 <= i < |differences| && differences[i] != 0.0)
        == (set i | 0 <= i < n && differences[..n][i] != 0.0) + (if differences[n] != 0.0 then {n} else {});
    }
  }

  /** If no difference is negative, the ranks are all on one side, and the p-value is that of `n` equal signs. */
  lemma OneSided(differences: seq<real>)
    requires forall i :: 0 <= i < |differences| ==> differences[i] >= 0.0
    ensures var r := ResultOf(differences);
      r.wMinus == 0.0 && 2.0 * r.wPlus == (r.nonzero * (r.nonzero + 1)) as real
      && r.pValue == if r.nonzero == 0 then 1.0 else 2.0 / PowerOfTwo(r.nonzero) as real
  {
    RankSums(differences);
    NoneBelowZero(differences, differences);
    var nonzero := Nonzero(differences);
    if nonzero != [] {
      var ranks := MidranksOf(Magnitudes(nonzero));
      RanksSum(Magnitudes(nonzero));
      ExtremePValue(ranks);
      hide PValue, Sum, PlusSum, MidranksOf, RanksAbove, RanksBelow, PowerOfTwo;
      assert Tested(nonzero).wPlus + Tested(nonzero).wMinus == Sum(ranks) as real / 2.0;
    }
  }

  // ---------------------------------------------------------------- the program

  /** `counts[k]` is the number of ways to sum to `k`, for every possible sum. */
  ghost predicate IsDistribution(counts: seq<nat>, ranks: seq<nat>) {
    |counts| == Sum(ranks) + 1 && forall k :: 0 <= k < |counts| ==> counts[k] == Ways(ranks, k)
  }

  /** The loop over the ranks: the old counts and the old counts moved up by the rank, added. */
  method Distribution(ranks: seq<nat>) returns (counts: seq<nat>)
    ensures IsDistribution(counts, ranks)
  {
    counts := [1];
    for i := 0 to |ranks|
      invariant IsDistribution(counts, ranks[..i])
    {
      var rank, n := ranks[i], |counts|;
      assert ranks[..i + 1][..i] == ranks[..i];
      forall k: int | k < 0 || k >= n ensures Ways(ranks[..i], k) == 0 {
        NoWays(ranks[..i], k);
      }
      counts := seq(n + rank, k requires 0 <= k < n + rank =>
        (if k < n then counts[k] else 0) + (if k >= rank then counts[k - rank] else 0));
    }
    assert ranks[..|ranks|] == ranks;
  }

  lemma {:induction false} PrefixSum(counts: seq<nat>, ranks: seq<nat>, m: nat)
    requires IsDistribution(counts, ranks) && m <= |counts|
    ensures Sum(counts[..m]) == WaysBelow(ranks, m)
  {
    if m > 0 {
      PrefixSum(counts, ranks, m - 1);
      assert counts[..m][..m - 1] == counts[..m - 1];
    }
  }

  lemma {:induction false} SumSplits(counts: seq<nat>, m: nat)
    requires m <= |counts|
    ensures Sum(counts[..m]) + Sum(counts[m..]) == Sum(counts)
    decreases |counts| - m
  {
    if m == |counts| {
      assert counts[..m] == counts;
    } else {
      SumSplits(counts[..|counts| - 1], m);
      assert counts[..|counts| - 1][..m] == counts[..m];
      assert counts[m..][..|counts| - 1 - m] == counts[..|counts| - 1][m..];
    }
  }

  lemma LowerTail(counts: seq<nat>, ranks: seq<nat>, m: nat)
    requires IsDistribution(counts, ranks) && m <= |counts|
    ensures Sum(counts[..m]) == |SummingBelow(ranks, m)|
  {
    PrefixSum(counts, ranks, m);
    WaysBelowCount(ranks, m);
  }

  lemma UpperTail(counts: seq<nat>, ranks: seq<nat>, m: nat)
    requires IsDistribution(counts, ranks) && m <= |counts|
    ensures Sum(counts[m..]) == |SummingFrom(ranks, m)|
  {
    LowerTail(counts, ranks, m);
    PrefixSum(counts, ranks, |counts|);
    assert counts[..|counts|] == counts;
    SumSplits(counts, m);
    TailsSplit(ranks, m);
    WaysTotal(ranks);
  }

  /** The p-value from the tails of the counts. */
  method TailProbability(ranks: seq<nat>, observed: nat) returns (p: real)
    requires observed <= Sum(ranks)
    ensures p == PValue(ranks, observed) && 0.0 < p <= 1.0
  {
    var counts := Distribution(ranks);
    LowerTail(counts, ranks, observed + 1);
    UpperTail(counts, ranks, observed);
    PValueInRange(ranks, observed);
    var lower, upper := Sum(counts[..observed + 1]), Sum(counts[observed..]);
    p := (2 * Least(lower, upper)) as real / PowerOfTwo(|ranks|) as real;
    p := if p < 1.0 then p else 1.0;
  }

  method WilcoxonSignedRank(differences: seq<real>) returns (r: WilcoxonResult)
    ensures r == ResultOf(differences) && 0.0 < r.pValue <= 1.0
    ensures r.nonzero == |set i | 0 <= i < |differences| && differences[i] != 0.0|
    ensures 2.0 * r.wPlus == RanksAbove(differences, differences) as real
    ensures 2.0 * r.wMinus == RanksBelow(differences, differences) as real
  {
    RankSums(differences);
    NonzeroCount(differences);
    hide RanksAbove, RanksBelow;
    var nonzero := Nonzero(differences);
    if nonzero == [] {
      return WilcoxonResult(0, 0.0, 0.0, 1.0);
    }
    var ranks := DoubledMidranks(Magnitudes(nonzero));
    var observed := PlusSum(ranks, Signs(nonzero));
    PlusSumBounded(ranks, Signs(nonzero));
    var p := TailProbability(ranks, observed);
    r := WilcoxonResult(|nonzero|, observed as real / 2.0, (Sum(ranks) - observed) as real / 2.0, p);
  }
}
