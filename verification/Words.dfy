/** Unsigned machine words as numbers, and the bit operations on them. */
module Words {

  function PowerOfTwo(k: nat): (r: nat)
    ensures r > 0
  {
    if k == 0 then 1 else 2 * PowerOfTwo(k - 1)
  }

  function Xor(a: nat, b: nat): nat {
    if a == 0 && b == 0 then 0
    else 2 * Xor(a / 2, b / 2) + (if a % 2 == b % 2 then 0 else 1)
  }

  function And(a: nat, b: nat): nat {
    if a == 0 || b == 0 then 0
    else 2 * And(a / 2, b / 2) + (if a % 2 == 1 && b % 2 == 1 then 1 else 0)
  }

  lemma {:induction false} AndIsLess(a: nat, b: nat)
    ensures And(a, b) <= a
  {
    if a > 0 && b > 0 {
      AndIsLess(a / 2, b / 2);
    }
  }

  /** `x >> k` */
  function Right(x: nat, k: nat): nat {
    if k == 0 then x else Right(x / 2, k - 1)
  }

  lemma {:induction false} XorZero(a: nat)
    ensures Xor(a, 0) == a && Xor(a, a) == 0
  {
    if a > 0 {
      XorZero(a / 2);
    }
  }

  lemma {:induction false} XorCommutes(a: nat, b: nat)
    ensures Xor(a, b) == Xor(b, a)
  {
    if a > 0 || b > 0 {
      XorCommutes(a / 2, b / 2);
    }
  }

  lemma {:induction false} XorAssociates(a: nat, b: nat, c: nat)
    ensures Xor(Xor(a, b), c) == Xor(a, Xor(b, c))
    decreases a + b + c
  {
    if a > 0 || b > 0 || c > 0 {
      XorAssociates(a / 2, b / 2, c / 2);
      Halves(a, b);
      Halves(b, c);
      Halves(Xor(a, b), c);
      Halves(a, Xor(b, c));
    }
  }

  lemma Halves(a: nat, b: nat)
    ensures Xor(a, b) / 2 == Xor(a / 2, b / 2) && Xor(a, b) % 2 == if a % 2 == b % 2 then 0 else 1
  {
  }

  lemma {:induction false} RightOfXor(a: nat, b: nat, k: nat)
    ensures Right(Xor(a, b), k) == Xor(Right(a, k), Right(b, k))
  {
    if k > 0 {
      Halves(a, b);
      RightOfXor(a / 2, b / 2, k - 1);
    }
  }

  lemma {:induction false} RightTwice(x: nat, j: nat, k: nat)
    ensures Right(Right(x, j), k) == Right(x, j + k)
  {
    if j > 0 {
      RightTwice(x / 2, j - 1, k);
    }
  }

  lemma {:induction false} RightIsZero(x: nat, k: nat)
    requires x < PowerOfTwo(k)
    ensures Right(x, k) == 0
  {
    if k > 0 {
      RightIsZero(x / 2, k - 1);
    }
  }

  lemma {:induction false} XorFits(a: nat, b: nat, k: nat)
    requires a < PowerOfTwo(k) && b < PowerOfTwo(k)
    ensures Xor(a, b) < PowerOfTwo(k)
  {
    if k > 0 {
      XorFits(a / 2, b / 2, k - 1);
    }
  }

  lemma {:induction false} RightIsLess(x: nat, k: nat)
    ensures Right(x, k) <= x
  {
    if k > 0 {
      RightIsLess(x / 2, k - 1);
    }
  }

  lemma {:induction false} PowersMultiply(j: nat, k: nat)
    ensures PowerOfTwo(j + k) == PowerOfTwo(j) * PowerOfTwo(k)
  {
    if j > 0 {
      PowersMultiply(j - 1, k);
    }
  }

  lemma FourBits()
    ensures PowerOfTwo(4) == 16
  {
  }

  lemma Powers()
    ensures PowerOfTwo(32) == 0x1_0000_0000 && PowerOfTwo(64) == 0x1_0000_0000_0000_0000
  {
    hide PowerOfTwo;
    FourBits();
    PowersMultiply(4, 4);
    PowersMultiply(8, 8);
    PowersMultiply(16, 16);
    PowersMultiply(32, 32);
  }

  lemma {:induction false} PowersGrow(j: nat, k: nat)
    requires j <= k
    ensures PowerOfTwo(j) <= PowerOfTwo(k)
  {
    if j < k {
      PowersGrow(j, k - 1);
    }
  }
}
