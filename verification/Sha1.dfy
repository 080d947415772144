/**
 * The SHA-1 compression function of section 6.1.2 of FIPS 180-4 and the padded hash of
 * sections 5.1.1 and 5.3.1: the reference that plugins/auth/sha1.c is proved against.
 */
module Sha1Spec {
  import opened Bytes

  /** A 32-bit word; `+` is addition modulo 2^32. */
  type word = bv32

  /** The five working variables, or a chaining value. */
  datatype Regs = Regs(a: word, b: word, c: word, d: word, e: word)

  const IV := Regs(0x67452301, 0xefcdab89, 0x98badcfe, 0x10325476, 0xc3d2e1f0)

  function Rotl(x: word, n: nat): word
    requires n < 32
  {
    x.RotateLeft(n)
  }

  function Ch(x: word, y: word, z: word): word { (x & y) ^ (!x & z) }
  function Parity(x: word, y: word, z: word): word { x ^ y ^ z }
  function Maj(x: word, y: word, z: word): word { (x & y) ^ (x & z) ^ (y & z) }

  function F(t: nat, x: word, y: word, z: word): word {
    if t < 20 then Ch(x, y, z)
    else if t < 40 then Parity(x, y, z)
    else if t < 60 then Maj(x, y, z)
    else Parity(x, y, z)
  }

  function K(t: nat): word {
    if t < 20 then 0x5a827999 else if t < 40 then 0x6ed9eba1
    else if t < 60 then 0x8f1bbcdc else 0xca62c1d6
  }

  /** A big-endian 32-bit word of four bytes. */
  function BigEndian(p: seq<byte>, i: nat): word
    requires i + 4 <= |p|
  {
    (p[i] as word << 24) | (p[i + 1] as word << 16) | (p[i + 2] as word << 8) | (p[i + 3] as word)
  }

  type Block = p: seq<byte> | |p| == 64 witness seq(64, _ => 0)

  function Xor4(x: word, y: word, z: word, v: word): word { x ^ y ^ z ^ v }

  /** The message schedule: W(t) for every t, with no circular storage. */
  function Schedule(m: Block, t: nat): word {
    if t < 16 then BigEndian(m, 4 * t)
    else Rotl(Xor4(Schedule(m, t - 3), Schedule(m, t - 8), Schedule(m, t - 14), Schedule(m, t - 16)), 1)
  }

  /** The sum T of a step, from the rotated a, the round function, e, the constant and W(t). */
  function Temp(a5: word, f: word, e: word, k: word, w: word): word { a5 + f + e + k + w }

  const ROUNDS: nat := 80

  /** One step of the register shift. */
  function Step(m: Block, t: nat, r: Regs): Regs {
    Regs(Temp(Rotl(r.a, 5), F(t, r.b, r.c, r.d), r.e, K(t), Schedule(m, t)),
         r.a, Rotl(r.b, 30), r.c, r.d)
  }

  function Steps(m: Block, h: Regs, t: nat): Regs {
    if t == 0 then h else Step(m, t - 1, Steps(m, h, t - 1))
  }

  function AddRegs(x: Regs, y: Regs): Regs {
    Regs(x.a + y.a, x.b + y.b, x.c + y.c, x.d + y.d, x.e + y.e)
  }

  function Compress(h: Regs, m: Block): Regs { AddRegs(h, Steps(m, h, ROUNDS)) }

  /** The chaining value after all whole 64-byte blocks of `p`. */
  function Chain(h: Regs, p: seq<byte>): Regs
    decreases |p|
  {
    if |p| < 64 then h else Chain(Compress(h, p[..64]), p[64..])
  }

  function Zeros(n: nat): seq<byte> { seq(n, _ => 0) }

  /** The 64-bit big-endian message length in bits. */
  function LengthField(bytes: nat): (b: seq<byte>)
    ensures |b| == 8
  {
    var bits: int := bytes * 8 % TWO64;
    [bits / 0x100_0000_0000_0000 % 256, bits / 0x1_0000_0000_0000 % 256,
     bits / 0x100_0000_0000 % 256, bits / 0x1_0000_0000 % 256,
     bits / 0x100_0000 % 256, bits / 0x1_0000 % 256, bits / 0x100 % 256, bits % 256]
  }

  /** The number of zero bytes after the 0x80 byte: the least that leaves room for the length. */
  function ZeroCount(n: nat): nat { (55 - n) % 64 }

  function Padding(n: nat): seq<byte> { [0x80] + Zeros(ZeroCount(n)) + LengthField(n) }

  function PutWord(w: word): seq<byte> {
    [((w >> 24) & 0xff) as int, ((w >> 16) & 0xff) as int, ((w >> 8) & 0xff) as int, (w & 0xff) as int]
  }

  function Digest(r: Regs): seq<byte> {
    PutWord(r.a) + PutWord(r.b) + PutWord(r.c) + PutWord(r.d) + PutWord(r.e)
  }

  function Hash(message: seq<byte>): seq<byte> {
    Digest(Chain(IV, message + Padding(|message|)))
  }
}

/** plugins/auth/sha1.c: the rolled compression and the streaming context. */
module Sha1 {
  import opened Bytes
  import opened Sha1Spec

  function Rotr(x: word, n: nat): word
    requires n < 32
  {
    x.RotateRight(n)
  }

  // ----- the rewritten round functions ---------------------------------------------------

  /** The macros' round functions: `((C^D)&B)^D`, `B^C^D` and `(B&C)+(D&(B^C))`. */
  function RoundFn(t: nat, b: word, c: word, d: word): word {
    if t < 20 then ((c ^ d) & b) ^ d
    else if t < 40 then b ^ c ^ d
    else if t < 60 then (b & c) + (d & (b ^ c))
    else b ^ c ^ d
  }

  lemma ChoiceRewritten(b: word, c: word, d: word)
    ensures ((c ^ d) & b) ^ d == Ch(b, c, d)
  {}

  /** The two summands of the majority never share a bit, so the sum carries nothing. */
  lemma MajorityByAddition(b: word, c: word, d: word)
    ensures (b & c) + (d & (b ^ c)) == Maj(b, c, d)
  {
    assert (b & c) & (d & (b ^ c)) == 0;
  }

  lemma RoundFnIsF(t: nat, b: word, c: word, d: word)
    ensures RoundFn(t, b, c, d) == F(t, b, c, d)
  {
    ChoiceRewritten(b, c, d);
    MajorityByAddition(b, c, d);
  }

  /** The macro's accumulation `E += TEMP + ROL(A,5) + fn + constant`. */
  function Accumulate(e: word, w: word, a5: word, f: word, k: word): word { e + (w + a5 + f + k) }

  lemma AccumulateIsTemp(e: word, w: word, a5: word, f: word, k: word)
    ensures Accumulate(e, w, a5, f, k) == Temp(a5, f, e, k, w)
  {}

  lemma RotateRightIsLeft(b: word)
    ensures Rotr(b, 2) == Rotl(b, 30)
  {}

  // ----- one block -----------------------------------------------------------------------

  /** Before step t, the circular array holds the last sixteen schedule words. */
  ghost predicate Rolling(w: seq<word>, m: Block, t: nat) {
    |w| == 16 && forall j: nat :: t - 16 <= j < t ==> w[j % 16] == Schedule(m, j)
  }

  /** The macro SHA_SRC or SHA_MIX: the next schedule word, from the input or from the array. */
  method NextWord(w: array<word>, m: Block, t: nat) returns (x: word)
    requires w.Length == 16 && Rolling(w[..], m, t)
    ensures x == Schedule(m, t)
  {
    if t < 16 {
      x := BigEndian(m, 4 * t);
    } else {
      x := Rotl(Xor4(w[(t + 13) % 16], w[(t + 8) % 16], w[(t + 2) % 16], w[t % 16]), 1);
      assert w[..][(t - 3) % 16] == Schedule(m, t - 3);
      assert w[..][(t - 8) % 16] == Schedule(m, t - 8);
      assert w[..][(t - 14) % 16] == Schedule(m, t - 14);
      assert w[..][(t - 16) % 16] == Schedule(m, t - 16);
    }
  }

  lemma RollingStep(w: seq<word>, m: Block, t: nat)
    requires Rolling(w, m, t)
    ensures Rolling(w[t % 16 := Schedule(m, t)], m, t + 1)
  {
    var w' := w[t % 16 := Schedule(m, t)];
    forall j: nat | t - 15 <= j < t + 1 ensures w'[j % 16] == Schedule(m, j) {
      if j < t {
        assert w[j % 16] == Schedule(m, j);
      }
    }
  }

  /** The registers a round overwrites, as the macro computes them. */
  lemma RegistersStep(m: Block, t: nat, r: Regs)
    ensures Step(m, t, r)
         == Regs(Accumulate(r.e, Schedule(m, t), Rotl(r.a, 5), RoundFn(t, r.b, r.c, r.d), K(t)),
                 r.a, Rotr(r.b, 2), r.c, r.d)
  {
    hide Accumulate, Temp, F, K, Rotl, Rotr, RoundFn, Schedule;
    RoundFnIsF(t, r.b, r.c, r.d);
    AccumulateIsTemp(r.e, Schedule(m, t), Rotl(r.a, 5), F(t, r.b, r.c, r.d), K(t));
    RotateRightIsLeft(r.b);
  }

  lemma StepsNext(m: Block, h: Regs, t: nat)
    ensures Steps(m, h, t + 1) == Step(m, t, Steps(m, h, t))
  {}

  lemma StepsStart(w: seq<word>, m: Block, h: Regs)
    requires |w| == 16
    ensures Rolling(w, m, 0) && Steps(m, h, 0) == h
  {}

  /** The macro SHA_ROUND: E and B are the two registers it overwrites. */
  method Round(w: array<word>, m: Block, t: nat, a: word, b: word, c: word, d: word, e: word, ghost h: Regs)
    returns (e': word, b': word)
    requires w.Length == 16 && Rolling(w[..], m, t)
    requires Regs(a, b, c, d, e) == Steps(m, h, t)
    modifies w
    ensures Rolling(w[..], m, t + 1)
    ensures Regs(e', a, b', c, d) == Steps(m, h, t + 1)
  {
    hide *;
    var temp := NextWord(w, m, t);
    RollingStep(w[..], m, t);
    assert w[..][t % 16 := temp] == old(w[..])[t % 16 := temp];
    w[t % 16] := temp;
    assert w[..] == old(w[..])[t % 16 := temp];
    e' := Accumulate(e, temp, Rotl(a, 5), RoundFn(t, b, c, d), K(t));
    b' := Rotr(b, 2);
    RegistersStep(m, t, Regs(a, b, c, d, e));
    StepsNext(m, h, t);
  }

  /**
   * Five rounds with the registers renamed, as the unrolled text repeats them sixteen times:
   * after the five the names are back in their own places.
   */
  method Cycle(w: array<word>, m: Block, t: nat, r: Regs, ghost h: Regs) returns (r': Regs)
    requires w.Length == 16 && Rolling(w[..], m, t) && r == Steps(m, h, t)
    modifies w
    ensures Rolling(w[..], m, t + 5) && r' == Steps(m, h, t + 5)
  {
    hide Rolling, Steps;
    var A, B, C, D, E := r.a, r.b, r.c, r.d, r.e;
    E, B := Round(w, m, t, A, B, C, D, E, h);
    D, A := Round(w, m, t + 1, E, A, B, C, D, h);
    C, E := Round(w, m, t + 2, D, E, A, B, C, h);
    B, D := Round(w, m, t + 3, C, D, E, A, B, h);
    A, C := Round(w, m, t + 4, B, C, D, E, A, h);
    r' := Regs(A, B, C, D, E);
  }

  /** The eighty unrolled rounds. */
  method Rounds(m: Block, h: Regs) returns (r: Regs)
    ensures r == Steps(m, h, ROUNDS)
  {
    hide Rolling, Steps;
    var w := new word[16];
    r := h;
    StepsStart(w[..], m, h);
    var t := 0;
    while t < ROUNDS
      invariant 0 <= t <= ROUNDS && t % 5 == 0
      invariant Rolling(w[..], m, t) && r == Steps(m, h, t)
    {
      r := Cycle(w, m, t, r, h);
      t := t + 5;
    }
  }

  // ----- chaining over a growing message -------------------------------------------------

  lemma {:induction false} ChainAppend(h: Regs, p: seq<byte>, q: seq<byte>)
    requires |p| % 64 == 0
    ensures Chain(h, p + q) == Chain(Chain(h, p), q)
    decreases |p|
  {
    hide Compress;
    if |p| < 64 {
      assert p + q == q;
    } else {
      assert (p + q)[..64] == p[..64] && (p + q)[64..] == p[64..] + q;
      ChainAppend(Compress(h, p[..64]), p[64..], q);
    }
  }

  lemma ChainBlock(h: Regs, p: seq<byte>, b: Block)
    requires |p| % 64 == 0
    ensures Chain(h, p + b) == Compress(Chain(h, p), b)
  {
    hide Compress;
    ChainAppend(h, p, b);
    assert b[..64] == b && b[64..] == [];
  }

  lemma ChainPartial(h: Regs, p: seq<byte>, q: seq<byte>)
    requires |p| % 64 == 0 && |q| < 64
    ensures Chain(h, p + q) == Chain(h, p)
  {
    ChainAppend(h, p, q);
  }

  /** The bytes of `m` that fill whole blocks, and those left over. */
  function Whole(m: seq<byte>): (w: seq<byte>)
    ensures |w| % 64 == 0 && w <= m
  {
    m[..|m| / 64 * 64]
  }

  function Rest(m: seq<byte>): (q: seq<byte>)
    ensures |q| < 64
  {
    m[|m| / 64 * 64..]
  }

  lemma WholeAndRest(m: seq<byte>)
    ensures m == Whole(m) + Rest(m)
    ensures Chain(IV, m) == Chain(IV, Whole(m))
  {
    hide Chain;
    ChainPartial(IV, Whole(m), Rest(m));
  }

  lemma Multiple(a: nat, b: nat)
    requires a % 64 == 0 && b < 64
    ensures (a + b) / 64 * 64 == a && (a + b) % 64 == b
  {}

  /** Any whole-block part and short part put together are Whole and Rest of the result. */
  lemma SplitUnique(p: seq<byte>, q: seq<byte>)
    requires |p| % 64 == 0 && |q| < 64
    ensures Whole(p + q) == p && Rest(p + q) == q
    ensures Chain(IV, p + q) == Chain(IV, p)
  {
    hide Chain;
    var m := p + q;
    assert |m| / 64 * 64 == |p| by { Multiple(|p|, |q|); }
    assert m[..|p|] == p && m[|p|..] == q;
    ChainPartial(IV, p, q);
  }

  /** Appending bytes that do not fill the partial block. */
  lemma AppendShort(m: seq<byte>, data: seq<byte>)
    requires |Rest(m)| + |data| < 64
    ensures Rest(m + data) == Rest(m) + data
    ensures Chain(IV, m + data) == Chain(IV, m)
  {
    hide Chain, Whole, Rest;
    WholeAndRest(m);
    var p, q := Whole(m), Rest(m) + data;
    assert m + data == p + q;
    SplitUnique(p, q);
  }

  /** Appending bytes that fill the partial block exactly. */
  lemma AppendFilling(m: seq<byte>, data: seq<byte>)
    requires |Rest(m)| + |data| == 64
    ensures Rest(m + data) == []
    ensures Chain(IV, m + data) == Compress(Chain(IV, m), Rest(m) + data)
  {
    hide Compress, Chain, Whole, Rest;
    WholeAndRest(m);
    var b := Rest(m) + data;
    assert m + data == Whole(m) + b;
    ChainBlock(IV, Whole(m), b);
    SplitUnique(Whole(m) + b, []);
    assert Whole(m) + b + [] == Whole(m) + b;
  }

  /** Appending one block when there is no partial block. */
  lemma AppendBlock(m: seq<byte>, b: Block)
    requires Rest(m) == []
    ensures Rest(m + b) == [] && Chain(IV, m + b) == Compress(Chain(IV, m), b)
  {
    hide Compress, Chain, Whole, Rest;
    AppendFilling(m, b);
    assert Rest(m) + b == b;
  }

  // ----- padding -------------------------------------------------------------------------

  /** The padding of section 5.1.1: the fewest zeros that bring the length to 56 modulo 64. */
  lemma ZeroCountIsLeast(n: nat, z: nat)
    ensures (n + 1 + ZeroCount(n)) % 64 == 56
    ensures (n + 1 + z) % 64 == 56 ==> ZeroCount(n) <= z
  {
    var k := (n + 1 + z) / 64;
    if (n + 1 + z) % 64 == 56 {
      assert n + z == 64 * k + 55;
    }
  }

  lemma PaddingFills(n: nat)
    ensures |Padding(n)| == 9 + ZeroCount(n)
    ensures (n + |Padding(n)|) % 64 == 0
  {
    hide LengthField;
    assert |Padding(n)| == 9 + ZeroCount(n) by { hide ZeroCount; }
    PaddedLength(n, ZeroCount(n));
  }

  lemma PaddedLength(n: nat, z: nat)
    requires z == ZeroCount(n)
    ensures (n + 9 + z) % 64 == 0
  {
    ZeroCountIsLeast(n, 0);
    hide ZeroCount;
    var k := (n + 1 + z) / 64;
    assert n + 9 + z == 64 * k + 64;
  }

  /** The two 32-bit halves the code derives from its 64-bit byte counter. */
  function LengthWords(size: nat): (b: seq<byte>)
    ensures |b| == 8
  {
    var hi := size / 0x2000_0000 % TWO32;
    var lo := size * 8 % TWO32;
    [hi / 0x100_0000 % 256, hi / 0x1_0000 % 256, hi / 0x100 % 256, hi % 256,
     lo / 0x100_0000 % 256, lo / 0x1_0000 % 256, lo / 0x100 % 256, lo % 256]
  }

  lemma LengthWordsAreField(n: nat)
    ensures LengthWords(n % TWO64) == LengthField(n)
  {
    var size, bits := n % TWO64, n * 8 % TWO64;
    Halves(n);
    assert bits / TWO32 == size / 0x2000_0000 % TWO32 && bits % TWO32 == size * 8 % TWO32;
    ByteOfHigh(bits);
    ByteOfLow(bits);
  }

  lemma Halves(n: nat)
    ensures n * 8 % TWO64 / TWO32 == n % TWO64 / 0x2000_0000 % TWO32
    ensures n * 8 % TWO64 % TWO32 == n % TWO64 * 8 % TWO32
  {
    var q, size := n / TWO64, n % TWO64;
    assert n * 8 == TWO64 * (8 * q) + size * 8;
    WrapSum(8 * q, size * 8);
    assert n * 8 % TWO64 == size * 8 % TWO64;
    HalvesOfSize(size);
  }

  lemma HalvesOfSize(size: nat)
    requires size < TWO64
    ensures size * 8 % TWO64 / TWO32 == size / 0x2000_0000 % TWO32
    ensures size * 8 % TWO64 % TWO32 == size * 8 % TWO32
  {
    var a, b := size / 0x2000_0000_0000_0000, size % 0x2000_0000_0000_0000;
    assert size * 8 == TWO64 * a + b * 8;
    WrapSum(a, b * 8);
    assert size * 8 % TWO64 == b * 8;
    assert size / 0x2000_0000 == TWO32 * a + b / 0x2000_0000;
    Wrap32(a, b / 0x2000_0000);
    assert b * 8 / TWO32 == b / 0x2000_0000;
    assert size * 8 == TWO32 * (TWO32 * a) + b * 8;
    Wrap32(TWO32 * a, b * 8);
  }

  lemma Wrap32(q: nat, s: nat)
    ensures (TWO32 * q + s) % TWO32 == s % TWO32
  {
    var a, b := s / TWO32, s % TWO32;
    assert TWO32 * q + s == TWO32 * (q + a) + b;
  }

  lemma ByteOfHigh(bits: nat)
    requires bits < TWO64
    ensures bits / 0x100_0000_0000_0000 == bits / TWO32 / 0x100_0000
    ensures bits / 0x1_0000_0000_0000 == bits / TWO32 / 0x1_0000
    ensures bits / 0x100_0000_0000 == bits / TWO32 / 0x100
  {}

  lemma ByteOfLow(bits: nat)
    ensures bits / 0x100_0000 % 256 == bits % TWO32 / 0x100_0000 % 256
    ensures bits / 0x1_0000 % 256 == bits % TWO32 / 0x1_0000 % 256
    ensures bits / 0x100 % 256 == bits % TWO32 / 0x100 % 256
    ensures bits % 256 == bits % TWO32 % 256
  {
    var hi, lo := bits / TWO32, bits % TWO32;
    assert bits == TWO32 * hi + lo;
    assert bits / 0x100_0000 == 0x100 * hi + lo / 0x100_0000;
    assert bits / 0x1_0000 == 0x1_0000 * hi + lo / 0x1_0000;
    assert bits / 0x100 == 0x100_0000 * hi + lo / 0x100;
    ModOfSum(0x1 * hi, lo / 0x100_0000);
    ModOfSum(0x100 * hi, lo / 0x1_0000);
    ModOfSum(0x1_0000 * hi, lo / 0x100);
    ModOfSum(0x100_0000 * hi, lo);
  }

  lemma ModOfSum(a: nat, b: nat)
    ensures (0x100 * a + b) % 0x100 == b % 0x100
  {}

  // ----- the streaming context -----------------------------------------------------------

  class Context {
    var size: nat          // byte count, a 64-bit counter
    var H: Regs
    const W: array<byte>   // the partial block
    ghost var message: seq<byte>

    ghost predicate Valid()
      reads this, W
    {
      && size == |message| % TWO64
      && H == Chain(IV, message)
      && Buffered(message)
    }

    /** The partial block holds what `m` leaves over. */
    ghost predicate Buffered(m: seq<byte>)
      reads W
    {
      W.Length == 64 && W[..|Rest(m)|] == Rest(m)
    }

    constructor Init()
      ensures Valid() && fresh(W) && message == []
    {
      size := 0;
      H := IV;
      W := new byte[64];
      message := [];
    }

    method Compression(m: Block)
      modifies this`H
      ensures H == Compress(old(H), m)
    {
      hide Steps;
      var r := Rounds(m, H);
      H := AddRegs(H, r);
    }

    /** memcpy into the partial block. */
    method CopyIn(at: nat, bytes: seq<byte>)
      requires W.Length == 64 && at + |bytes| <= 64
      modifies W
      ensures W[..at] == old(W[..at]) && W[at..at + |bytes|] == bytes
    {
      var i := 0;
      while i < |bytes|
        invariant 0 <= i <= |bytes|
        invariant W[..at] == old(W[..at]) && W[at..at + i] == bytes[..i]
      {
        W[at + i] := bytes[i];
        i := i + 1;
        assert W[at..at + i] == W[at..at + i - 1] + [bytes[i - 1]];
        assert bytes[..i] == bytes[..i - 1] + [bytes[i - 1]];
      }
    }

    /** The first part of an update: top up a partial block; `done` when it stays partial. */
    method TopUp(data: seq<byte>, lenW: nat) returns (used: nat, done: bool)
      requires W.Length == 64 && lenW == |Rest(message)| && lenW != 0
      requires H == Chain(IV, message) && W[..lenW] == Rest(message)
      modifies this`H, W
      ensures used <= |data|
      ensures done ==> H == Chain(IV, message + data) && Buffered(message + data)
      ensures !done ==> H == Chain(IV, message + data[..used]) && Rest(message + data[..used]) == []
    {
      hide Compress, Chain, Whole, Rest;
      var left := 64 - lenW;
      if |data| < left {
        left := |data|;
      }
      CopyIn(lenW, data[..left]);
      used, done := left, (lenW + left) % 64 != 0;
      assert W[..lenW + left] == Rest(message) + data[..left];
      if done {
        assert data[..left] == data;
        AppendShort(message, data);
        return;
      }
      AppendFilling(message, data[..left]);
      assert W[..] == W[..lenW + left];
      Compression(W[..]);
    }

    /** The middle of an update: blocks taken straight from the input. */
    method WholeBlocks(data: seq<byte>, start: nat) returns (pos: nat)
      requires start <= |data| && Rest(message + data[..start]) == []
      requires H == Chain(IV, message + data[..start])
      modifies this`H
      ensures pos <= |data| && |data| - pos < 64 && Rest(message + data[..pos]) == []
      ensures H == Chain(IV, message + data[..pos])
    {
      hide Compress, Chain, Whole, Rest;
      pos := start;
      while |data| - pos >= 64
        invariant pos <= |data| && Rest(message + data[..pos]) == []
        invariant H == Chain(IV, message + data[..pos])
      {
        AppendBlock(message + data[..pos], data[pos..pos + 64]);
        assert message + data[..pos + 64] == message + data[..pos] + data[pos..pos + 64];
        Compression(data[pos..pos + 64]);
        pos := pos + 64;
      }
    }

    /** The end of an update: keep what does not fill a block. */
    method KeepRest(data: seq<byte>, pos: nat)
      requires W.Length == 64
      requires pos <= |data| && |data| - pos < 64 && Rest(message + data[..pos]) == []
      modifies W
      ensures Chain(IV, message + data) == Chain(IV, message + data[..pos])
      ensures Buffered(message + data)
    {
      hide Compress, Chain, Whole, Rest;
      CopyIn(0, data[pos..]);
      AppendShort(message + data[..pos], data[pos..]);
      assert message + data == message + data[..pos] + data[pos..];
      assert W[..|data[pos..]|] == data[pos..];
      assert [] + data[pos..] == data[pos..];
    }

    /** blk_SHA1_Update. */
    method Update(data: seq<byte>)
      requires Valid()
      modifies this, W
      ensures Valid() && message == old(message) + data
    {
      hide Compress, Chain, Whole;
      var lenW := size % 64;
      SizeWraps(|message|, |data|);
      hide Rest;
      size := (size + |data|) % TWO64;
      var pos, done := 0, false;
      if lenW != 0 {
        pos, done := TopUp(data, lenW);
      } else {
        assert message + data[..0] == message;
      }
      if !done {
        pos := WholeBlocks(data, pos);
        KeepRest(data, pos);
      }
      message := message + data;
    }

    /** blk_SHA1_Final: the digest of everything absorbed; no partial block is left. */
    method Final() returns (digest: seq<byte>)
      requires Valid()
      modifies this, W
      ensures Valid() && size % 64 == 0
      ensures message == old(message) + Padding(|old(message)|)
      ensures digest == Hash(old(message))
    {
      hide Chain, Digest, Whole, Rest, Compress, LengthWords, LengthField;
      ghost var m := message;
      var padlen := LengthWords(size);
      var pad := PadBytes(size % 64);
      PadIsPadding(m, size);
      Update(pad);
      Update(padlen);
      assert message == m + Padding(|m|);
      SizeWraps(|message|, 0);
      digest := Digest(H);
    }
  }

  /** The leading part of the static pad array that the final update passes. */
  function PadBytes(i: nat): seq<byte>
    requires i < 64
  {
    ([0x80] + Zeros(63))[..1 + (55 - i) % 64]
  }

  lemma PadIsPadding(m: seq<byte>, size: nat)
    requires size == |m| % TWO64
    ensures PadBytes(size % 64) + LengthWords(size) == Padding(|m|)
    ensures (|m| + |Padding(|m|)|) % 64 == 0
    ensures m + PadBytes(size % 64) + LengthWords(size) == m + Padding(|m|)
  {
    hide LengthField, LengthWords;
    LengthWordsAreField(|m|);
    SizeWraps(|m|, 0);
    PadCount(|m|, size % 64);
    PaddingFills(|m|);
    assert PadBytes(size % 64) == [0x80] + Zeros(ZeroCount(|m|));
  }

  lemma PadCount(n: nat, i: nat)
    requires i == n % 64
    ensures (55 - i) % 64 == ZeroCount(n)
  {
    assert n == n / 64 * 64 + i;
  }

  lemma SizeWraps(n: nat, k: nat)
    ensures (n % TWO64 + k) % TWO64 == (n + k) % TWO64
    ensures n % TWO64 % 64 == n % 64
  {
    var q, r := n / TWO64, n % TWO64;
    assert n == TWO64 * q + r;
    WrapSum(q, r + k);
    assert n + k == TWO64 * q + (r + k);
    WrapBlock(q, r);
  }

  lemma WrapSum(q: nat, s: nat)
    ensures (TWO64 * q + s) % TWO64 == s % TWO64
  {
    var a, b := s / TWO64, s % TWO64;
    assert TWO64 * q + s == TWO64 * (q + a) + b;
  }

  lemma WrapBlock(q: nat, r: nat)
    ensures (TWO64 * q + r) % 64 == r % 64
  {
    var a, b := r / 64, r % 64;
    assert TWO64 * q + r == 64 * (0x400_0000_0000_0000 * q + a) + b;
  }

  /** However a message is cut into updates, the digest is the hash of the whole message. */
  method HashPieces(pieces: seq<seq<byte>>) returns (digest: seq<byte>)
    ensures digest == Hash(Concat(pieces))
  {
    hide Hash, Chain, Rest, Whole, Compress, Concat;
    NoPieces();
    var ctx := new Context.Init();
    var i := 0;
    while i < |pieces|
      invariant 0 <= i <= |pieces|
      invariant ctx.Valid() && fresh(ctx) && fresh(ctx.W)
      invariant ctx.message == Concat(pieces[..i])
    {
      ctx.Update(pieces[i]);
      ConcatNext(pieces, i);
      i := i + 1;
    }
    assert pieces[..i] == pieces;
    digest := ctx.Final();
  }
}
