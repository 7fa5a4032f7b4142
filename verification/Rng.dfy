/** The SplitMix64 generator and its shuffle (core/src/rng.rs). */
module Rng {

  import opened Words

  const WORDS: nat := 0x1_0000_0000_0000_0000

  /** A 64-bit word as a number. */
  type Word = n: nat | n < WORDS

  // ---------------------------------------------------------------- the output function

  /** `x ^ (x >> k)` */
  function Spread(x: Word, k: nat): Word {
    Powers();
    RightIsLess(x, k);
    XorFits(x, Right(x, k), 64);
    Xor(x, Right(x, k))
  }

  /** `y ^ (y >> k) ^ (y >> 2k)` */
  function Unspread(y: Word, k: nat): Word {
    Powers();
    RightIsLess(y, k);
    RightIsLess(y, 2 * k);
    XorFits(y, Right(y, k), 64);
    XorFits(Xor(y, Right(y, k)), Right(y, 2 * k), 64);
    Xor(Xor(y, Right(y, k)), Right(y, 2 * k))
  }

  function Times(x: Word, factor: nat): Word {
    x * factor % WORDS
  }

  const GAMMA: Word := 0x9e37_79b9_7f4a_7c15
  const GAMMA_INVERSE: Word := 0xf1de_83e1_9937_733d
  const M1: Word := 0xbf58_476d_1ce4_e5b9
  const M1_INVERSE: Word := 0x96de_1b17_3f11_9089
  const M2: Word := 0x94d0_49bb_1331_11eb
  const M2_INVERSE: Word := 0x3196_42b2_d24d_8ec3

  /** The output for a state. */
  function Mix(state: Word): Word {
    Spread(Times(Spread(Times(Spread(state, 30), M1), 27), M2), 31)
  }

  /** The state that gives an output. */
  function Unmix(output: Word): Word {
    Unspread(Times(Unspread(Times(Unspread(output, 31), M2_INVERSE), 27), M1_INVERSE), 30)
  }

  /** x ^ a ^ (a ^ b) ^ b is x */
  lemma XorCancels(x: nat, a: nat, b: nat)
    ensures Xor(Xor(Xor(x, a), Xor(a, b)), b) == x
    ensures Xor(Xor(Xor(x, a), b), Xor(a, b)) == x
  {
    var c := Xor(a, b);
    XorAssociates(x, a, b);
    XorAssociates(x, c, c);
    XorAssociates(Xor(x, a), c, b);
    XorCommutes(c, b);
    XorAssociates(Xor(x, a), b, c);
    XorZero(c);
    XorZero(x);
  }

  lemma SpreadParts(x: Word, k: nat)
    requires 2 * k <= 64 <= 3 * k
    ensures Right(Spread(x, k), k) == Xor(Right(x, k), Right(x, 2 * k))
    ensures Right(Spread(x, k), 2 * k) == Right(x, 2 * k)
  {
    RightOfXor(x, Right(x, k), k);
    RightTwice(x, k, k);
    RightOfXor(x, Right(x, k), 2 * k);
    RightTwice(x, k, 2 * k);
    Vanishes(x, k);
    XorZero(Right(x, 2 * k));
  }

  lemma Vanishes(x: Word, k: nat)
    requires 64 <= 3 * k
    ensures Right(x, 3 * k) == 0
  {
    Powers();
    PowersGrow(64, 3 * k);
    RightIsZero(x, 3 * k);
  }

  lemma UnspreadParts(y: Word, k: nat)
    requires 64 <= 3 * k
    ensures Right(Unspread(y, k), k) == Xor(Right(y, k), Right(y, 2 * k))
  {
    RightOfXor(Xor(y, Right(y, k)), Right(y, 2 * k), k);
    RightOfXor(y, Right(y, k), k);
    RightTwice(y, k, k);
    RightTwice(y, 2 * k, k);
    Vanishes(y, k);
    XorZero(Xor(Right(y, k), Right(y, 2 * k)));
  }

  /** A shift by more than a third of the word is undone by two. */
  lemma SpreadInverse(x: Word, k: nat)
    requires 2 * k <= 64 <= 3 * k
    ensures Unspread(Spread(x, k), k) == x && Spread(Unspread(x, k), k) == x
  {
    SpreadParts(x, k);
    UnspreadParts(x, k);
    XorCancels(x, Right(x, k), Right(x, 2 * k));
  }

  lemma Residue(v: Word, k: int, n: int)
    requires n == v + WORDS * k
    ensures n % WORDS == v
  {
  }

  lemma TimesInverse(x: Word, c: nat, d: nat, q: nat)
    requires c * d == q * WORDS + 1
    ensures Times(Times(x, c), d) == x
  {
    var r, p := x * c % WORDS, x * c / WORDS;
    calc {
      r * d;
      (x * c - p * WORDS) * d;
      x * (c * d) - p * WORDS * d;
      x * (q * WORDS + 1) - p * WORDS * d;
      x + WORDS * (x * q - p * d);
    }
    Residue(x, x * q - p * d, r * d);
  }

  lemma M1Inverse(x: Word)
    ensures Times(Times(x, M1), M1_INVERSE) == x && Times(Times(x, M1_INVERSE), M1) == x
  {
    TimesInverse(x, M1, M1_INVERSE, M1 * M1_INVERSE / WORDS);
    TimesInverse(x, M1_INVERSE, M1, M1 * M1_INVERSE / WORDS);
  }

  lemma M2Inverse(x: Word)
    ensures Times(Times(x, M2), M2_INVERSE) == x && Times(Times(x, M2_INVERSE), M2) == x
  {
    TimesInverse(x, M2, M2_INVERSE, M2 * M2_INVERSE / WORDS);
    TimesInverse(x, M2_INVERSE, M2, M2 * M2_INVERSE / WORDS);
  }

  lemma UnmixMix(x: Word)
    ensures Unmix(Mix(x)) == x
  {
    var a := Spread(x, 30);
    var b := Spread(Times(a, M1), 27);
    SpreadInverse(x, 30);
    M1Inverse(a);
    SpreadInverse(Times(a, M1), 27);
    M2Inverse(b);
    SpreadInverse(Times(b, M2), 31);
  }

  lemma MixUnmix(y: Word)
    ensures Mix(Unmix(y)) == y
  {
    var a := Unspread(y, 31);
    var b := Unspread(Times(a, M2_INVERSE), 27);
    SpreadInverse(y, 31);
    M2Inverse(a);
    SpreadInverse(Times(a, M2_INVERSE), 27);
    M1Inverse(b);
    SpreadInverse(Times(b, M1_INVERSE), 30);
  }

  /** Every output comes from exactly one state. */
  lemma MixIsBijective(state: Word, output: Word)
    ensures Mix(state) == output <==> state == Unmix(output)
  {
    UnmixMix(state);
    MixUnmix(output);
  }

  // ---------------------------------------------------------------- the sequence of outputs

  function Plus(x: Word, y: Word): Word {
    (x + y) % WORDS
  }

  /** The state after `n` outputs. */
  function StateAfter(seed: Word, n: nat): Word {
    if n == 0 then seed else Plus(StateAfter(seed, n - 1), GAMMA)
  }

  /** Output number `n`, counted from zero. */
  function Output(seed: Word, n: nat): Word {
    Mix(StateAfter(seed, n + 1))
  }

  /** Between two states lie as many steps as there are outputs, up to whole turns. */
  lemma {:induction false} StepsBetween(seed: Word, n: nat, m: nat) returns (turns: int)
    requires n <= m
    ensures StateAfter(seed, m) == StateAfter(seed, n) + (m - n) * GAMMA - turns * WORDS
    decreases m
  {
    if n == m {
      turns := 0;
    } else {
      var before := StepsBetween(seed, n, m - 1);
      var sum := StateAfter(seed, m - 1) + GAMMA;
      turns := before + sum / WORDS;
      assert sum == sum / WORDS * WORDS + sum % WORDS;
    }
  }

  /** A number of steps below 2^64 that comes back to the same state is zero. */
  lemma NoEarlyReturn(steps: Word, turns: int)
    requires steps * GAMMA == turns * WORDS
    ensures steps == 0
  {
    var q := GAMMA * GAMMA_INVERSE / WORDS;
    assert GAMMA * GAMMA_INVERSE == q * WORDS + 1;
    TimesInverse(steps, GAMMA, GAMMA_INVERSE, q);
    Residue(0, turns, steps * GAMMA);
    assert Times(steps, GAMMA) == 0;
  }

  /** The first 2^64 outputs are all different. */
  lemma OutputsDiffer(seed: Word, n: nat, m: nat)
    requires n < m < WORDS
    ensures Output(seed, n) != Output(seed, m)
  {
    var turns := StepsBetween(seed, n + 1, m + 1);
    if StateAfter(seed, n + 1) == StateAfter(seed, m + 1) {
      NoEarlyReturn(m - n, turns);
    }
    UnmixMix(StateAfter(seed, n + 1));
    UnmixMix(StateAfter(seed, m + 1));
  }

  // ---------------------------------------------------------------- shuffling

  /** One index choice for every position; the one for position `i` is at most `i`. */
  ghost predicate AreChoices(choices: seq<nat>, n: nat) {
    |choices| == n && forall i :: 0 <= i < n ==> choices[i] <= i
  }

  function Swap<T>(items: seq<T>, i: nat, j: nat): (s: seq<T>)
    requires i < |items| && j < |items|
    ensures |s| == |items|
  {
    items[i := items[j]][j := items[i]]
  }

  /** The Fisher-Yates shuffle of the first `n` items: from the last position down to the second, swap with
      the chosen one. */
  function Shuffled<T>(items: seq<T>, choices: seq<nat>, n: nat): (s: seq<T>)
    requires n <= |items| && AreChoices(choices, |choices|) && n <= |choices|
    ensures |s| == |items|
    decreases n
  {
    if n <= 1 then items else Shuffled(Swap(items, n - 1, choices[n - 1]), choices, n - 1)
  }

  lemma SwapKeeps<T>(items: seq<T>, i: nat, j: nat)
    requires i < |items| && j < |items|
    ensures multiset(Swap(items, i, j)) == multiset(items)
  {
  }

  lemma {:induction false} ShuffledIsPermutation<T>(items: seq<T>, choices: seq<nat>, n: nat)
    requires n <= |items| && AreChoices(choices, |choices|) && n <= |choices|
    ensures multiset(Shuffled(items, choices, n)) == multiset(items)
    decreases n
  {
    if n > 1 {
      SwapKeeps(items, n - 1, choices[n - 1]);
      ShuffledIsPermutation(Swap(items, n - 1, choices[n - 1]), choices, n - 1);
    }
  }

  /** A position that has had its swap is settled. */
  lemma {:induction false} Settled<T>(items: seq<T>, choices: seq<nat>, n: nat, i: nat)
    requires n <= i < |items| && AreChoices(choices, |choices|) && n <= |choices|
    ensures Shuffled(items, choices, n)[i] == items[i]
    decreases n
  {
    if n > 1 {
      Settled(Swap(items, n - 1, choices[n - 1]), choices, n - 1, i);
    }
  }

  ghost predicate Distinct<T>(items: seq<T>) {
    forall i, j :: 0 <= i < j < |items| ==> items[i] != items[j]
  }

  lemma SwapKeepsDistinct<T>(items: seq<T>, i: nat, j: nat)
    requires Distinct(items) && i < |items| && j < |items|
    ensures Distinct(Swap(items, i, j))
  {
  }

  /** On distinct items different choices give different permutations. */
  lemma {:induction false} ChoicesAreUnique<T>(items: seq<T>, choices: seq<nat>, other: seq<nat>, n: nat)
    requires Distinct(items) && n <= |items|
    requires AreChoices(choices, |choices|) && n <= |choices| && AreChoices(other, |other|) && n <= |other|
    requires Shuffled(items, choices, n) == Shuffled(items, other, n)
    ensures choices[..n] == other[..n]
    decreases n
  {
    if n == 1 {
      assert choices[0] == 0 && other[0] == 0;
    } else if n > 1 {
      var s, t := Swap(items, n - 1, choices[n - 1]), Swap(items, n - 1, other[n - 1]);
      Settled(s, choices, n - 1, n - 1);
      Settled(t, other, n - 1, n - 1);
      assert items[choices[n - 1]] == items[other[n - 1]];
      SwapKeepsDistinct(items, n - 1, choices[n - 1]);
      ChoicesAreUnique(s, choices, other, n - 1);
      assert choices[..n] == choices[..n - 1] + [choices[n - 1]] && other[..n] == other[..n - 1] + [other[n - 1]];
    }
  }

  lemma {:induction false} OnlyFirstChoices<T>(items: seq<T>, choices: seq<nat>, other: seq<nat>, n: nat)
    requires n <= |items| && AreChoices(choices, |choices|) && n <= |choices|
    requires AreChoices(other, |other|) && n <= |other| && choices[..n] == other[..n]
    ensures Shuffled(items, choices, n) == Shuffled(items, other, n)
    decreases n
  {
    if n > 1 {
      assert choices[n - 1] == choices[..n][n - 1] && other[n - 1] == other[..n][n - 1];
      assert choices[..n - 1] == choices[..n][..n - 1] && other[..n - 1] == other[..n][..n - 1];
      OnlyFirstChoices(Swap(items, n - 1, choices[n - 1]), choices, other, n - 1);
    }
  }

  lemma SplitCount<T>(items: seq<T>, n: nat, x: T)
    requires n <= |items|
    ensures multiset(items)[x] == multiset(items[..n])[x] + multiset(items[n..])[x]
  {
    assert items == items[..n] + items[n..];
  }

  /** Two arrangements of the same items that agree from `n` on have the same items before. */
  lemma StillThere<T>(items: seq<T>, goal: seq<T>, n: nat) returns (j: nat)
    requires multiset(items) == multiset(goal) && 1 <= n <= |items| == |goal| && items[n..] == goal[n..]
    ensures j < n && items[j] == goal[n - 1]
  {
    var x := goal[n - 1];
    SplitCount(items, n, x);
    SplitCount(goal, n, x);
    assert goal[..n][n - 1] == x;
    assert x in multiset(goal[..n]);
    assert x in multiset(items[..n]);
    j :| 0 <= j < n && items[..n][j] == x;
  }

  lemma SwapSettles<T>(items: seq<T>, goal: seq<T>, n: nat, j: nat)
    requires multiset(items) == multiset(goal) && 1 <= n <= |items| == |goal| && items[n..] == goal[n..]
    requires j < n && items[j] == goal[n - 1]
    ensures var s := Swap(items, n - 1, j); multiset(s) == multiset(goal) && s[n - 1..] == goal[n - 1..]
  {
    var s := Swap(items, n - 1, j);
    SwapKeeps(items, n - 1, j);
    forall i | n - 1 <= i < |items| ensures s[i] == goal[i] {
      if i >= n { assert items[n..][i - n] == goal[n..][i - n]; }
    }
  }

  /** Every permutation comes from some choices. */
  lemma {:induction false} ChoicesExist<T>(items: seq<T>, goal: seq<T>, n: nat) returns (choices: seq<nat>)
    requires multiset(items) == multiset(goal) && n <= |items| == |goal| && items[n..] == goal[n..]
    ensures AreChoices(choices, n) && Shuffled(items, choices, n) == goal
    decreases n
  {
    if n == 0 {
      choices := [];
      assert items[0..] == items && goal[0..] == goal;
    } else {
      var j := StillThere(items, goal, n);
      if n == 1 {
        choices := [0];
        SwapSettles(items, goal, 1, 0);
        assert Swap(items, 0, 0)[0..] == items && goal[0..] == goal;
      } else {
        SwapSettles(items, goal, n, j);
        var s := Swap(items, n - 1, j);
        var rest := ChoicesExist(s, goal, n - 1);
        choices := rest + [j];
        assert choices[..n - 1] == rest[..n - 1];
        OnlyFirstChoices(s, rest, choices, n - 1);
      }
    }
  }

  /** On distinct items every permutation comes from exactly one sequence of choices. */
  lemma ShuffleIsExact<T(!new)>(items: seq<T>, goal: seq<T>)
    requires Distinct(items) && multiset(items) == multiset(goal)
    ensures exists choices: seq<nat> :: AreChoices(choices, |items|) && Shuffled(items, choices, |items|) == goal
              && forall other: seq<nat> :: AreChoices(other, |items|) && Shuffled(items, other, |items|) == goal ==>
                   other == choices
  {
    assert |multiset(items)| == |multiset(goal)|;
    var choices := ChoicesExist(items, goal, |items|);
    forall other: seq<nat> | AreChoices(other, |items|) && Shuffled(items, other, |items|) == goal
      ensures other == choices
    {
      ChoicesAreUnique(items, choices, other, |items|);
      assert choices[..|items|] == choices && other[..|items|] == other;
    }
  }

  // ---------------------------------------------------------------- the generator

  /** The choices a generator in state `state` makes for `n` items: one draw for every position, the last one
      first. The draw for the first position would have no choice and is not made. */
  function Draws(state: Word, n: nat): (choices: seq<nat>)
    ensures AreChoices(choices, n)
  {
    seq(n, i requires 0 <= i < n => if i == 0 then 0 else Mix(StateAfter(state, n - i)) % (i + 1))
  }

  /** Positions from `i` on are settled, and the generator has made the draws for them. */
  ghost predicate InShuffle<T>(goal: seq<T>, seed: Word, items: seq<T>, i: nat, state: Word) {
    1 <= i <= |items| && state == StateAfter(seed, |items| - i)
    && Shuffled(items, Draws(seed, |items|), i) == goal
  }

  lemma ShuffleStep<T>(goal: seq<T>, seed: Word, items: seq<T>, i: nat, state: Word)
    requires InShuffle(goal, seed, items, i, state) && i > 1
    ensures InShuffle(goal, seed, Swap(items, i - 1, Mix(Plus(state, GAMMA)) % i), i - 1, Plus(state, GAMMA))
  {
    assert Draws(seed, |items|)[i - 1] == Mix(StateAfter(seed, |items| - i + 1)) % i;
  }

  lemma ShuffleBegins<T>(seed: Word, items: seq<T>)
    requires items != []
    ensures InShuffle(Shuffled(items, Draws(seed, |items|), |items|), seed, items, |items|, seed)
  {
  }

  lemma ShuffleDone<T>(goal: seq<T>, seed: Word, items: seq<T>, state: Word)
    requires InShuffle(goal, seed, items, 1, state)
    ensures items == goal && state == StateAfter(seed, |items| - 1)
  {
  }

  class SplitMix64 {
    var state: Word

    constructor New(seed: Word)
      ensures state == seed
    {
      state := seed;
    }

    method NextU64() returns (z: Word)
      modifies this
      ensures state == Plus(old(state), GAMMA) && z == Mix(state)
    {
      state := Plus(state, GAMMA);
      z := state;
      z := Times(Spread(z, 30), M1);
      z := Times(Spread(z, 27), M2);
      z := Spread(z, 31);
    }

    method NextBelow(bound: nat) returns (j: nat)
      requires bound > 0
      modifies this
      ensures state == Plus(old(state), GAMMA) && j == Mix(state) % bound && j < bound
    {
      var z := NextU64();
      j := z % bound;
    }

    /** The items are shuffled in place by the choices this generator draws. */
    method Shuffle<T>(items: array<T>)
      modifies this, items
      ensures items[..] == Shuffled(old(items[..]), Draws(old(state), items.Length), items.Length)
      ensures multiset(items[..]) == multiset(old(items[..]))
      ensures items.Length > 0 ==> state == StateAfter(old(state), items.Length - 1)
    {
      hide Shuffled, Draws, StateAfter, Mix, InShuffle;
      ghost var seed, goal := state, Shuffled(items[..], Draws(state, items.Length), items.Length);
      ShuffledIsPermutation(items[..], Draws(state, items.Length), items.Length);
      if items.Length == 0 {
        return;
      }
      var i := items.Length - 1;
      ShuffleBegins(seed, items[..]);
      while i >= 1
        invariant 0 <= i < items.Length && InShuffle(goal, seed, items[..], i + 1, state)
      {
        ShuffleStep(goal, seed, items[..], i + 1, state);
        var j := NextBelow(i + 1);
        SwapItems(items, i, j);
        i := i - 1;
      }
      ShuffleDone(goal, seed, items[..], state);
    }
  }

  method SwapItems<T>(items: array<T>, i: nat, j: nat)
    requires i < items.Length && j < items.Length
    modifies items
    ensures items[..] == Swap(old(items[..]), i, j)
  {
    items[i], items[j] := items[j], items[i];
  }
}
