/** SHA-256 (core/src/hash.rs) against the definition in FIPS 180-4. */
module Sha256 {
  import opened Words

  const MODULUS: nat := 0x1_0000_0000

  type Word = n: nat | n < MODULUS

  type Byte = n: nat | n < 256

  // ---------------------------------------------------------------- sections 4.1.2 and 4.2.2

  function Plus(x: Word, y: Word): Word {
    (x + y) % MODULUS
  }

  function XorWords(x: Word, y: Word): Word {
    Powers();
    XorFits(x, y, 32);
    Xor(x, y)
  }

  function AndWords(x: Word, y: Word): Word {
    AndIsLess(x, y);
    And(x, y)
  }

  function NotWord(x: Word): Word {
    MODULUS - 1 - x
  }

  /** `k` times, the lowest bit becomes the highest. */
  function RotateRight(x: Word, k: nat): Word
    decreases k
  {
    if k == 0 then x else RotateRight(x / 2 + x % 2 * 0x8000_0000, k - 1)
  }

  function ShiftRight(x: Word, k: nat): Word {
    RightIsLess(x, k);
    Right(x, k)
  }

  function Ch(x: Word, y: Word, z: Word): Word {
    XorWords(AndWords(x, y), AndWords(NotWord(x), z))
  }

  function Maj(x: Word, y: Word, z: Word): Word {
    XorWords(XorWords(AndWords(x, y), AndWords(x, z)), AndWords(y, z))
  }

  function BigSigma0(x: Word): Word {
    XorWords(XorWords(RotateRight(x, 2), RotateRight(x, 13)), RotateRight(x, 22))
  }

  function BigSigma1(x: Word): Word {
    XorWords(XorWords(RotateRight(x, 6), RotateRight(x, 11)), RotateRight(x, 25))
  }

  function SmallSigma0(x: Word): Word {
    XorWords(XorWords(RotateRight(x, 7), RotateRight(x, 18)), ShiftRight(x, 3))
  }

  function SmallSigma1(x: Word): Word {
    XorWords(XorWords(RotateRight(x, 17), RotateRight(x, 19)), ShiftRight(x, 10))
  }

  function ConstantRow(row: nat): (words: seq<Word>)
    ensures |words| == 8
  {
    match row
    case 0 => [0x428a2f98, 0x71374491, 0xb5c0fbcf, 0xe9b5dba5, 0x3956c25b, 0x59f111f1, 0x923f82a4, 0xab1c5ed5]
    case 1 => [0xd807aa98, 0x12835b01, 0x243185be, 0x550c7dc3, 0x72be5d74, 0x80deb1fe, 0x9bdc06a7, 0xc19bf174]
    case 2 => [0xe49b69c1, 0xefbe4786, 0x0fc19dc6, 0x240ca1cc, 0x2de92c6f, 0x4a7484aa, 0x5cb0a9dc, 0x76f988da]
    case 3 => [0x983e5152, 0xa831c66d, 0xb00327c8, 0xbf597fc7, 0xc6e00bf3, 0xd5a79147, 0x06ca6351, 0x14292967]
    case 4 => [0x27b70a85, 0x2e1b2138, 0x4d2c6dfc, 0x53380d13, 0x650a7354, 0x766a0abb, 0x81c2c92e, 0x92722c85]
    case 5 => [0xa2bfe8a1, 0xa81a664b, 0xc24b8b70, 0xc76c51a3, 0xd192e819, 0xd6990624, 0xf40e3585, 0x106aa070]
    case 6 => [0x19a4c116, 0x1e376c08, 0x2748774c, 0x34b0bcb5, 0x391c0cb3, 0x4ed8aa4a, 0x5b9cca4f, 0x682e6ff3]
    case _ => [0x748f82ee, 0x78a5636f, 0x84c87814, 0x8cc70208, 0x90befffa, 0xa4506ceb, 0xbef9a3f7, 0xc67178f2]
  }

  function ConstantRows(rows: nat): (words: seq<Word>)
    ensures |words| == 8 * rows
  {
    if rows == 0 then [] else ConstantRows(rows - 1) + ConstantRow(rows - 1)
  }

  const K: seq<Word> := ConstantRows(8)

  // ---------------------------------------------------------------- sections 5.1.1 and 5.2.1

  /** A number as `count` bytes, the most significant first. */
  function BigEndian(n: nat, count: nat): (bytes: seq<Byte>)
    ensures |bytes| == count
  {
    if count == 0 then [] else BigEndian(n / 256, count - 1) + [n % 256]
  }

  function FromBigEndian(bytes: seq<Byte>): nat {
    if bytes == [] then 0 else 256 * FromBigEndian(bytes[..|bytes| - 1]) + bytes[|bytes| - 1]
  }

  /** How many zero bytes follow the byte 0x80 behind `length` bytes. */
  function Zeros(length: nat): nat {
    if length % 64 < 56 then 55 - length % 64 else 119 - length % 64
  }

  function Padded(data: seq<Byte>): seq<Byte> {
    data + [0x80] + seq(Zeros(|data|), i => 0) + BigEndian(|data| * 8 % 0x1_0000_0000_0000_0000, 8)
  }

  /** The word at `4 i`. */
  function WordAt(bytes: seq<Byte>, i: nat): Word
    requires 4 * i + 4 <= |bytes|
  {
    var b0: nat, b1: nat, b2: nat, b3: nat := bytes[4 * i], bytes[4 * i + 1], bytes[4 * i + 2], bytes[4 * i + 3];
    0x100_0000 * b0 + 0x1_0000 * b1 + 0x100 * b2 + b3
  }

  // ---------------------------------------------------------------- section 6.2.2

  /** Word `t` of the message schedule of block `b`. */
  function Schedule(bytes: seq<Byte>, b: nat, t: nat): Word
    requires 64 * b + 64 <= |bytes|
  {
    if t < 16 then WordAt(bytes, 16 * b + t)
    else (SmallSigma1(Schedule(bytes, b, t - 2)) + Schedule(bytes, b, t - 7)
          + SmallSigma0(Schedule(bytes, b, t - 15)) + Schedule(bytes, b, t - 16)) % MODULUS
  }

  datatype Vars = Vars(a: Word, b: Word, c: Word, d: Word, e: Word, f: Word, g: Word, h: Word)

  const INITIAL := Vars(0x6a09e667, 0xbb67ae85, 0x3c6ef372, 0xa54ff53a, 0x510e527f, 0x9b05688c, 0x1f83d9ab, 0x5be0cd19)

  function Round(v: Vars, k: Word, w: Word): Vars {
    var t1 := (v.h + BigSigma1(v.e) + Ch(v.e, v.f, v.g) + k + w) % MODULUS;
    var t2 := (BigSigma0(v.a) + Maj(v.a, v.b, v.c)) % MODULUS;
    Vars((t1 + t2) % MODULUS, v.a, v.b, v.c, (v.d + t1) % MODULUS, v.e, v.f, v.g)
  }

  /** The working variables after `t` rounds on block `b`. */
  function Rounds(v: Vars, bytes: seq<Byte>, b: nat, t: nat): Vars
    requires 64 * b + 64 <= |bytes| && t <= 64
  {
    if t == 0 then v else Round(Rounds(v, bytes, b, t - 1), K[t - 1], Schedule(bytes, b, t - 1))
  }

  function Added(v: Vars, w: Vars): Vars {
    Vars(Plus(v.a, w.a), Plus(v.b, w.b), Plus(v.c, w.c), Plus(v.d, w.d),
         Plus(v.e, w.e), Plus(v.f, w.f), Plus(v.g, w.g), Plus(v.h, w.h))
  }

  /** The hash value after `n` blocks. */
  function HashOf(bytes: seq<Byte>, n: nat): Vars
    requires 64 * n <= |bytes|
  {
    if n == 0 then INITIAL
    else
      var before := HashOf(bytes, n - 1);
      Added(before, Rounds(before, bytes, n - 1, 64))
  }

  function Words8(v: Vars): seq<Word> {
    [v.a, v.b, v.c, v.d, v.e, v.f, v.g, v.h]
  }

  function Digest(words: seq<Word>): seq<Byte> {
    if words == [] then [] else Digest(words[..|words| - 1]) + BigEndian(words[|words| - 1], 4)
  }

  /** The message digest of the standard. */
  function DigestOf(data: seq<Byte>): seq<Byte> {
    PaddedLength(data);
    Digest(Words8(HashOf(Padded(data), |Padded(data)| / 64)))
  }

  // ---------------------------------------------------------------- padding

  /** The padded message is the shortest one of whole blocks with room for the byte 0x80 and the length. */
  lemma PaddedLength(data: seq<Byte>)
    ensures |Padded(data)| % 64 == 0 && |data| + 9 <= |Padded(data)| < |data| + 9 + 64
  {
    hide BigEndian;
    WholeBlocks(|data|);
  }

  lemma WholeBlocks(length: nat)
    ensures (length + 9 + Zeros(length)) % 64 == 0
  {
  }

  /** No fewer zero bytes leave room for exactly the eight bytes of the length. */
  lemma FewestZeros(length: nat, zeros: nat)
    requires zeros <= Zeros(length)
    ensures (length + 1 + zeros) % 64 == 56 <==> zeros == Zeros(length)
  {
    var blocks := (length + 1 + zeros) / 64;
    assert 64 * (length / 64) + length % 64 + 1 + zeros == 64 * blocks + (length + 1 + zeros) % 64;
  }

  lemma {:induction false} BigEndianInverse(n: nat, count: nat)
    requires n < PowerOfTwo(8 * count)
    ensures FromBigEndian(BigEndian(n, count)) == n
    decreases count
  {
    if count > 0 {
      PowersMultiply(8, 8 * (count - 1));
      assert PowerOfTwo(8) == 256;
      BigEndianInverse(n / 256, count - 1);
    }
  }

  /** Different messages of less than 2^61 bytes have different padded messages. */
  lemma PaddingIsInjective(a: seq<Byte>, b: seq<Byte>)
    requires |a| < 0x2000_0000_0000_0000 && |b| < 0x2000_0000_0000_0000 && Padded(a) == Padded(b)
    ensures a == b
  {
    LengthField(a);
    LengthField(b);
    assert a == Padded(a)[..|a|] && b == Padded(b)[..|b|];
  }

  /** The last eight bytes of a padded message tell its length. */
  lemma LengthField(data: seq<Byte>)
    requires |data| < 0x2000_0000_0000_0000
    ensures FromBigEndian(Padded(data)[|Padded(data)| - 8..]) == 8 * |data|
  {
    hide BigEndian, FromBigEndian, PowerOfTwo;
    var field := BigEndian(|data| * 8 % 0x1_0000_0000_0000_0000, 8);
    assert Padded(data)[|Padded(data)| - 8..] == field;
    Powers();
    BigEndianInverse(|data| * 8, 8);
  }

  // ---------------------------------------------------------------- the program

  method Pad(data: seq<Byte>) returns (padded: seq<Byte>)
    ensures padded == Padded(data)
  {
    hide BigEndian;
    var bitLen := |data| * 8 % 0x1_0000_0000_0000_0000;
    padded := data + [0x80];
    ghost var zeros := 0;
    while |padded| % 64 != 56
      invariant zeros <= Zeros(|data|) && |padded| == |data| + 1 + zeros
      invariant padded == data + [0x80] + seq(zeros, i => 0)
      decreases Zeros(|data|) - zeros
    {
      FewestZeros(|data|, zeros);
      assert seq(zeros + 1, i => 0) == seq(zeros, i => 0) + [0];
      padded := padded + [0];
      zeros := zeros + 1;
    }
    FewestZeros(|data|, zeros);
    padded := padded + BigEndian(bitLen, 8);
  }

  lemma SumModulus(x: nat, y: nat)
    ensures (x % MODULUS + y) % MODULUS == (x + y) % MODULUS
  {
  }

  lemma PlusFour(p: Word, q: Word, r: Word, s: Word)
    ensures Plus(Plus(Plus(p, q), r), s) == (p + q + r + s) % MODULUS
  {
    SumModulus(p + q, r);
    SumModulus(p + q + r, s);
  }

  lemma PlusFive(p: Word, q: Word, r: Word, s: Word, t: Word)
    ensures Plus(Plus(Plus(Plus(p, q), r), s), t) == (p + q + r + s + t) % MODULUS
  {
    PlusFour(p, q, r, s);
    SumModulus(p + q + r + s, t);
  }

  method NextWord(w16: Word, w15: Word, w7: Word, w2: Word) returns (next: Word)
    ensures next == (SmallSigma1(w2) + w7 + SmallSigma0(w15) + w16) % MODULUS
  {
    hide RotateRight, XorWords, ShiftRight;
    var s0 := XorWords(XorWords(RotateRight(w15, 7), RotateRight(w15, 18)), ShiftRight(w15, 3));
    var s1 := XorWords(XorWords(RotateRight(w2, 17), RotateRight(w2, 19)), ShiftRight(w2, 10));
    PlusFour(w16, s0, w7, s1);
    next := Plus(Plus(Plus(w16, s0), w7), s1);
  }

  method Temporaries(v: Vars, k: Word, w: Word) returns (temp1: Word, temp2: Word)
    ensures temp1 == (v.h + BigSigma1(v.e) + Ch(v.e, v.f, v.g) + k + w) % MODULUS
    ensures temp2 == (BigSigma0(v.a) + Maj(v.a, v.b, v.c)) % MODULUS
  {
    hide RotateRight, XorWords, AndWords, NotWord;
    var s1 := XorWords(XorWords(RotateRight(v.e, 6), RotateRight(v.e, 11)), RotateRight(v.e, 25));
    var ch := XorWords(AndWords(v.e, v.f), AndWords(NotWord(v.e), v.g));
    PlusFive(v.h, s1, ch, k, w);
    temp1 := Plus(Plus(Plus(Plus(v.h, s1), ch), k), w);
    var s0 := XorWords(XorWords(RotateRight(v.a, 2), RotateRight(v.a, 13)), RotateRight(v.a, 22));
    var maj := XorWords(XorWords(AndWords(v.a, v.b), AndWords(v.a, v.c)), AndWords(v.b, v.c));
    temp2 := Plus(s0, maj);
  }

  method FillSchedule(bytes: seq<Byte>, b: nat, w: array<Word>)
    requires 64 * b + 64 <= |bytes| && w.Length == 64
    modifies w
    ensures forall t :: 0 <= t < 64 ==> w[t] == Schedule(bytes, b, t)
  {
    hide SmallSigma0, SmallSigma1, WordAt;
    for i := 0 to 16
      invariant forall t :: 0 <= t < i ==> w[t] == Schedule(bytes, b, t)
    {
      w[i] := WordAt(bytes, 16 * b + i);
    }
    for i := 16 to 64
      invariant forall t :: 0 <= t < i ==> w[t] == Schedule(bytes, b, t)
    {
      var next := NextWord(w[i - 16], w[i - 15], w[i - 7], w[i - 2]);
      assert next == Schedule(bytes, b, i);
      w[i] := next;
    }
  }

  method Compress(start: Vars, bytes: seq<Byte>, block: nat, w: array<Word>) returns (v: Vars)
    requires 64 * block + 64 <= |bytes| && w.Length == 64
    requires forall t :: 0 <= t < 64 ==> w[t] == Schedule(bytes, block, t)
    ensures v == Rounds(start, bytes, block, 64)
  {
    hide BigSigma0, BigSigma1, Ch, Maj, Schedule;
    var a, b, c, d := start.a, start.b, start.c, start.d;
    var e, f, g, hh := start.e, start.f, start.g, start.h;
    for i := 0 to 64
      invariant Vars(a, b, c, d, e, f, g, hh) == Rounds(start, bytes, block, i)
    {
      var temp1, temp2 := Temporaries(Vars(a, b, c, d, e, f, g, hh), K[i], w[i]);
      hh := g;
      g := f;
      f := e;
      e := Plus(d, temp1);
      d := c;
      c := b;
      b := a;
      a := Plus(temp1, temp2);
    }
    v := Vars(a, b, c, d, e, f, g, hh);
  }

  method AddInto(h: array<Word>, v: Vars)
    requires h.Length == 8
    modifies h
    ensures var start := Vars(old(h[0]), old(h[1]), old(h[2]), old(h[3]), old(h[4]), old(h[5]), old(h[6]), old(h[7]));
      h[..] == Words8(Added(start, v))
  {
    h[0] := Plus(h[0], v.a);
    h[1] := Plus(h[1], v.b);
    h[2] := Plus(h[2], v.c);
    h[3] := Plus(h[3], v.d);
    h[4] := Plus(h[4], v.e);
    h[5] := Plus(h[5], v.f);
    h[6] := Plus(h[6], v.g);
    h[7] := Plus(h[7], v.h);
  }

  /** One block goes into the hash value. */
  method HashBlock(h: array<Word>, bytes: seq<Byte>, block: nat)
    requires h.Length == 8 && 64 * block + 64 <= |bytes| && h[..] == Words8(HashOf(bytes, block))
    modifies h
    ensures h[..] == Words8(HashOf(bytes, block + 1))
  {
    hide Rounds, Schedule, Added;
    var w := new Word[64](_ => 0);
    FillSchedule(bytes, block, w);
    ghost var before := h[..];
    ghost var start := Vars(before[0], before[1], before[2], before[3], before[4], before[5], before[6], before[7]);
    assert start == HashOf(bytes, block);
    var v := Compress(Vars(h[0], h[1], h[2], h[3], h[4], h[5], h[6], h[7]), bytes, block, w);
    AddInto(h, v);
  }

  method Sha256(data: seq<Byte>) returns (out: array<Byte>)
    ensures fresh(out) && out.Length == 32 && out[..] == DigestOf(data)
  {
    hide BigEndian, Digest, Rounds, Padded;
    var initial := Words8(INITIAL);
    var h := new Word[8](i requires 0 <= i < 8 => initial[i]);
    assert h[..] == initial;
    var padded := Pad(data);
    PaddedLength(data);
    for block := 0 to |padded| / 64
      invariant fresh(h) && h[..] == Words8(HashOf(padded, block))
    {
      HashBlock(h, padded, block);
    }
    out := Emit(h);
  }

  method Emit(h: array<Word>) returns (out: array<Byte>)
    requires h.Length == 8
    ensures fresh(out) && out.Length == 32 && out[..] == Digest(h[..])
  {
    out := new Byte[32](_ => 0);
    for i := 0 to 8
      invariant out[..4 * i] == Digest(h[..i])
    {
      var bytes := BigEndian(h[i], 4);
      for j := 0 to 4
        invariant out[..4 * i] == Digest(h[..i])
        invariant forall k :: 0 <= k < j ==> out[4 * i + k] == bytes[k]
      {
        out[4 * i + j] := bytes[j];
      }
      assert h[..i + 1][..i] == h[..i];
      assert out[..4 * (i + 1)] == out[..4 * i] + bytes;
    }
    assert h[..8] == h[..] && out[..32] == out[..];
  }
}
