/** The functions and constants of SHA-256 as sections 4.1.2, 4.2.2 and 5.3.3 of FIPS 180-4 describe them: by what
    they do to single bits, and as roots of primes. */
module Sha256Standard {
  import opened Words
  import opened Sha256

  /** The bit of weight 2 to the `i`. */
  function Bit(x: nat, i: nat): nat
    decreases i
  {
    if i == 0 then x % 2 else Bit(x / 2, i - 1)
  }

  lemma {:induction false} XorBit(a: nat, b: nat, i: nat)
    ensures Bit(Xor(a, b), i) == (Bit(a, i) + Bit(b, i)) % 2
    decreases i
  {
    Halves(a, b);
    if i > 0 { XorBit(a / 2, b / 2, i - 1); }
  }

  lemma {:induction false} AndBit(a: nat, b: nat, i: nat)
    ensures Bit(And(a, b), i) == if Bit(a, i) == 1 && Bit(b, i) == 1 then 1 else 0
    decreases i
  {
    AndHalves(a, b);
    if i > 0 { AndBit(a / 2, b / 2, i - 1); }
  }

  lemma AndHalves(a: nat, b: nat)
    ensures And(a, b) / 2 == And(a / 2, b / 2) && And(a, b) % 2 == if a % 2 == 1 && b % 2 == 1 then 1 else 0
  {
  }

  lemma {:induction false} NotBit(x: nat, n: nat, i: nat)
    requires x < PowerOfTwo(n) && i < n
    ensures Bit(PowerOfTwo(n) - 1 - x, i) == 1 - Bit(x, i)
    decreases i
  {
    if i > 0 { NotBit(x / 2, n - 1, i - 1); }
  }

  lemma {:induction false} BitIsBit(x: nat, i: nat)
    ensures Bit(x, i) <= 1
    decreases i
  {
    if i > 0 { BitIsBit(x / 2, i - 1); }
  }

  lemma {:induction false} RightBit(x: nat, k: nat, i: nat)
    ensures Bit(Right(x, k), i) == Bit(x, i + k)
    decreases k
  {
    if k > 0 { RightBit(x / 2, k - 1, i); }
  }

  lemma {:induction false} TopBit(x: nat, b: nat, m: nat, i: nat)
    requires x < PowerOfTwo(m) && b <= 1 && i <= m
    ensures Bit(x + b * PowerOfTwo(m), i) == if i == m then b else Bit(x, i)
    decreases m
  {
    if m > 0 {
      assert b * PowerOfTwo(m) == 2 * (b * PowerOfTwo(m - 1));
      if i > 0 { TopBit(x / 2, b, m - 1, i - 1); }
    }
  }

  lemma {:induction false} HighBits(x: nat, m: nat, i: nat)
    requires x < PowerOfTwo(m) && m <= i
    ensures Bit(x, i) == 0
    decreases i
  {
    if i > 0 {
      if m == 0 { HighBits(x / 2, 0, i - 1); } else { HighBits(x / 2, m - 1, i - 1); }
    }
  }

  lemma BitBehind(x: nat, i: nat)
    ensures Bit(x, 0) == x % 2 && Bit(x, i + 1) == Bit(x / 2, i)
  {
  }

  lemma RotateOnceBit(x: Word, i: nat)
    requires i < 32
    ensures Bit(x / 2 + x % 2 * 0x8000_0000, i) == Bit(x, (i + 1) % 32)
  {
    assert PowerOfTwo(31) == 0x8000_0000 by {
      Powers();
      assert PowerOfTwo(32) == 2 * PowerOfTwo(31);
    }
    hide Bit, PowerOfTwo;
    TopBit(x / 2, x % 2, 31, i);
    BitBehind(x, i);
    if i < 31 { assert (i + 1) % 32 == i + 1; }
  }

  lemma NextIndex(i: nat)
    ensures (i % 32 + 1) % 32 == (i + 1) % 32
  {
  }

  /** Rotating moves the bits down, and the low ones to the top. */
  lemma {:induction false} RotateBit(x: Word, k: nat, i: nat)
    requires i < 32
    ensures Bit(RotateRight(x, k), i) == Bit(x, (i + k) % 32)
    decreases k
  {
    hide Bit;
    if k > 0 {
      var y := x / 2 + x % 2 * 0x8000_0000;
      assert RotateRight(x, k) == RotateRight(y, k - 1);
      RotateBit(y, k - 1, i);
      RotateOnceBit(x, (i + (k - 1)) % 32);
      NextIndex(i + (k - 1));
    }
  }

  lemma ShiftBit(x: Word, k: nat, i: nat)
    requires i < 32
    ensures Bit(ShiftRight(x, k), i) == if i + k < 32 then Bit(x, i + k) else 0
  {
    RightBit(x, k, i);
    Powers();
    if i + k >= 32 { HighBits(x, 32, i + k); }
  }

  /** Every bit of `x` chooses between those of `y` and `z`. */
  lemma ChBit(x: Word, y: Word, z: Word, i: nat)
    requires i < 32
    ensures Bit(Ch(x, y, z), i) == if Bit(x, i) == 1 then Bit(y, i) else Bit(z, i)
  {
    hide Bit, Xor, And, PowerOfTwo;
    Powers();
    NotBit(x, 32, i);
    XorBit(AndWords(x, y), AndWords(NotWord(x), z), i);
    AndBit(x, y, i);
    AndBit(NotWord(x), z, i);
    BitIsBit(x, i);
    BitIsBit(y, i);
    BitIsBit(z, i);
  }

  /** A bit is set exactly if it is set in at least two of the three. */
  lemma MajBit(x: Word, y: Word, z: Word, i: nat)
    requires i < 32
    ensures Bit(Maj(x, y, z), i) == if Bit(x, i) + Bit(y, i) + Bit(z, i) >= 2 then 1 else 0
  {
    XorBit(XorWords(AndWords(x, y), AndWords(x, z)), AndWords(y, z), i);
    XorBit(AndWords(x, y), AndWords(x, z), i);
    AndBit(x, y, i);
    AndBit(x, z, i);
    AndBit(y, z, i);
    BitIsBit(x, i);
    BitIsBit(y, i);
    BitIsBit(z, i);
    hide Bit, Xor, And;
  }

  lemma XorOfThree(a: Word, b: Word, c: Word, i: nat)
    ensures Bit(XorWords(XorWords(a, b), c), i) == (Bit(a, i) + Bit(b, i) + Bit(c, i)) % 2
  {
    XorBit(XorWords(a, b), c, i);
    XorBit(a, b, i);
    hide Bit, Xor;
  }

  /** The four functions of section 4.1.2, bit by bit. */
  lemma SigmaBits(x: Word, i: nat)
    requires i < 32
    ensures Bit(BigSigma0(x), i) == (Bit(x, (i + 2) % 32) + Bit(x, (i + 13) % 32) + Bit(x, (i + 22) % 32)) % 2
    ensures Bit(BigSigma1(x), i) == (Bit(x, (i + 6) % 32) + Bit(x, (i + 11) % 32) + Bit(x, (i + 25) % 32)) % 2
    ensures Bit(SmallSigma0(x), i)
      == (Bit(x, (i + 7) % 32) + Bit(x, (i + 18) % 32) + (if i < 29 then Bit(x, i + 3) else 0)) % 2
    ensures Bit(SmallSigma1(x), i)
      == (Bit(x, (i + 17) % 32) + Bit(x, (i + 19) % 32) + (if i < 22 then Bit(x, i + 10) else 0)) % 2
  {
    hide Bit, XorWords, RotateRight, ShiftRight;
    RotateBit(x, 2, i);
    RotateBit(x, 13, i);
    RotateBit(x, 22, i);
    XorOfThree(RotateRight(x, 2), RotateRight(x, 13), RotateRight(x, 22), i);
    RotateBit(x, 6, i);
    RotateBit(x, 11, i);
    RotateBit(x, 25, i);
    XorOfThree(RotateRight(x, 6), RotateRight(x, 11), RotateRight(x, 25), i);
    RotateBit(x, 7, i);
    RotateBit(x, 18, i);
    ShiftBit(x, 3, i);
    XorOfThree(RotateRight(x, 7), RotateRight(x, 18), ShiftRight(x, 3), i);
    RotateBit(x, 17, i);
    RotateBit(x, 19, i);
    ShiftBit(x, 10, i);
    XorOfThree(RotateRight(x, 17), RotateRight(x, 19), ShiftRight(x, 10), i);
  }

  // ---------------------------------------------------------------- sections 4.2.2 and 5.3.3

  /** The first 64 primes. */
  function PrimeRow(row: nat): (primes: seq<nat>)
    ensures |primes| == 8
  {
    match row
    case 0 => [2, 3, 5, 7, 11, 13, 17, 19]
    case 1 => [23, 29, 31, 37, 41, 43, 47, 53]
    case 2 => [59, 61, 67, 71, 73, 79, 83, 89]
    case 3 => [97, 101, 103, 107, 109, 113, 127, 131]
    case 4 => [137, 139, 149, 151, 157, 163, 167, 173]
    case 5 => [179, 181, 191, 193, 197, 199, 211, 223]
    case 6 => [227, 229, 233, 239, 241, 251, 257, 263]
    case _ => [269, 271, 277, 281, 283, 293, 307, 311]
  }

  function PrimeRows(rows: nat): (primes: seq<nat>)
    ensures |primes| == 8 * rows
  {
    if rows == 0 then [] else PrimeRows(rows - 1) + PrimeRow(rows - 1)
  }

  const PRIMES: seq<nat> := PrimeRows(8)

  /** `k` is the first 32 bits of the fractional part of the cube root of `p`. */
  ghost predicate IsCubeRootFraction(k: Word, p: nat) {
    exists whole: nat :: Cube(whole * MODULUS + k) <= p * Cube(MODULUS) < Cube(whole * MODULUS + k + 1)
  }

  /** The same for the square root. */
  ghost predicate IsSquareRootFraction(k: Word, p: nat) {
    exists whole: nat :: Square(whole * MODULUS + k) <= p * Square(MODULUS) < Square(whole * MODULUS + k + 1)
  }

  function Cube(n: nat): nat {
    n * n * n
  }

  function Square(n: nat): nat {
    n * n
  }

  /** The initial hash values come from the first eight primes. */
  lemma InitialValues()
    ensures var h := INITIAL;
      IsSquareRootFraction(h.a, 2) && IsSquareRootFraction(h.b, 3) && IsSquareRootFraction(h.c, 5)
      && IsSquareRootFraction(h.d, 7) && IsSquareRootFraction(h.e, 11) && IsSquareRootFraction(h.f, 13)
      && IsSquareRootFraction(h.g, 17) && IsSquareRootFraction(h.h, 19)
  {
    hide IsSquareRootFraction;
    SquareRoot(INITIAL.a, 2, 1);
    SquareRoot(INITIAL.b, 3, 1);
    SquareRoot(INITIAL.c, 5, 2);
    SquareRoot(INITIAL.d, 7, 2);
    SquareRoot(INITIAL.e, 11, 3);
    SquareRoot(INITIAL.f, 13, 3);
    SquareRoot(INITIAL.g, 17, 4);
    SquareRoot(INITIAL.h, 19, 4);
  }

  lemma SquareRoot(k: Word, p: nat, whole: nat)
    requires Square(whole * MODULUS + k) <= p * Square(MODULUS) < Square(whole * MODULUS + k + 1)
    ensures IsSquareRootFraction(k, p)
  {
  }

  function WholeCubeRoot(p: nat): nat {
    if p < 8 then 1 else if p < 27 then 2 else if p < 64 then 3 else if p < 125 then 4 else if p < 216 then 5 else 6
  }

  predicate RootFits(k: Word, p: nat) {
    var root := WholeCubeRoot(p) * MODULUS + k;
    Cube(root) <= p * Cube(MODULUS) < Cube(root + 1)
  }

  predicate AllFit(words: seq<Word>, primes: seq<nat>) {
    |words| == |primes| && forall i :: 0 <= i < |words| ==> RootFits(words[i], primes[i])
  }

  predicate EightFit(w: seq<Word>, p: seq<nat>)
    requires |w| == |p| == 8
  {
    RootFits(w[0], p[0]) && RootFits(w[1], p[1]) && RootFits(w[2], p[2]) && RootFits(w[3], p[3])
    && RootFits(w[4], p[4]) && RootFits(w[5], p[5]) && RootFits(w[6], p[6]) && RootFits(w[7], p[7])
  }

  lemma Row0()
    ensures EightFit(ConstantRow(0), PrimeRow(0))
  {
  }

  lemma Row1()
    ensures EightFit(ConstantRow(1), PrimeRow(1))
  {
  }

  lemma Row2()
    ensures EightFit(ConstantRow(2), PrimeRow(2))
  {
  }

  lemma Row3()
    ensures EightFit(ConstantRow(3), PrimeRow(3))
  {
  }

  lemma Row4()
    ensures EightFit(ConstantRow(4), PrimeRow(4))
  {
  }

  lemma Row5()
    ensures EightFit(ConstantRow(5), PrimeRow(5))
  {
  }

  lemma Row6()
    ensures EightFit(ConstantRow(6), PrimeRow(6))
  {
  }

  lemma Row7()
    ensures EightFit(ConstantRow(7), PrimeRow(7))
  {
  }

  lemma RowFits(row: nat)
    requires row < 8
    ensures EightFit(ConstantRow(row), PrimeRow(row))
  {
    hide EightFit, ConstantRow, PrimeRow;
    match row
    case 0 => Row0();
    case 1 => Row1();
    case 2 => Row2();
    case 3 => Row3();
    case 4 => Row4();
    case 5 => Row5();
    case 6 => Row6();
    case _ => Row7();
  }

  lemma EightAreAll(words: seq<Word>, primes: seq<nat>)
    requires |words| == |primes| == 8 && EightFit(words, primes)
    ensures AllFit(words, primes)
  {
    hide RootFits;
  }

  lemma JoinFits(a: seq<Word>, b: seq<Word>, p: seq<nat>, q: seq<nat>)
    requires AllFit(a, p) && AllFit(b, q)
    ensures AllFit(a + b, p + q)
  {
    hide RootFits;
  }

  lemma {:induction false} RowsFit(rows: nat)
    requires rows <= 8
    ensures AllFit(ConstantRows(rows), PrimeRows(rows))
  {
    if rows > 0 {
      var row := rows - 1;
      RowsFit(row);
      RowFits(row);
      EightAreAll(ConstantRow(row), PrimeRow(row));
      JoinFits(ConstantRows(row), ConstantRow(row), PrimeRows(row), PrimeRow(row));
      hide AllFit, EightFit, ConstantRow, PrimeRow;
    }
  }

  /** The round constants come from the first 64 primes. */
  lemma RoundConstants()
    ensures |K| == |PRIMES| == 64 && forall t :: 0 <= t < 64 ==> IsCubeRootFraction(K[t], PRIMES[t])
  {
    RowsFit(8);
    hide ConstantRows, PrimeRows, RootFits, IsCubeRootFraction;
    forall t | 0 <= t < 64 ensures IsCubeRootFraction(K[t], PRIMES[t]) {
      CubeRoot(K[t], PRIMES[t]);
    }
  }

  lemma CubeRoot(k: Word, p: nat)
    requires RootFits(k, p)
    ensures IsCubeRootFraction(k, p)
  {
    hide Cube;
  }

  // ---------------------------------------------------------------- bytes and words

  /** Reading the bytes of the digest as words gives the words back. */
  lemma {:induction false} DigestWords(words: seq<Word>, i: nat)
    requires i < |words|
    ensures |Digest(words)| == 4 * |words| && WordAt(Digest(words), i) == words[i]
  {
    var n := |words| - 1;
    DigestLength(words[..n]);
    var front, last := Digest(words[..n]), BigEndian(words[n], 4);
    assert Digest(words) == front + last;
    if i < n {
      DigestWords(words[..n], i);
      assert Digest(words)[..|front|] == front;
    } else {
      FourBytes(words[n]);
      assert Digest(words)[|front|..] == last;
    }
  }

  lemma {:induction false} DigestLength(words: seq<Word>)
    ensures |Digest(words)| == 4 * |words|
  {
    if words != [] { DigestLength(words[..|words| - 1]); }
  }

  lemma FourBytes(w: Word)
    ensures var b := BigEndian(w, 4);
      0x100_0000 * b[0] as nat + 0x1_0000 * b[1] as nat + 0x100 * b[2] as nat + b[3] as nat == w
  {
    assert BigEndian(w, 4) == BigEndian(w / 256, 3) + [w % 256];
    assert BigEndian(w / 256, 3) == BigEndian(w / 256 / 256, 2) + [w / 256 % 256];
    assert BigEndian(w / 256 / 256, 2) == BigEndian(w / 256 / 256 / 256, 1) + [w / 256 / 256 % 256];
    assert BigEndian(w / 256 / 256 / 256, 1) == [] + [w / 256 / 256 / 256 % 256];
  }
}
