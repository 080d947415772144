/**
 * The two examples of appendix A of FIPS 180-2, worked through: the schedule words, the
 * steps and the digests of "abc" and of a message of two blocks. They fix every constant, rotation
 * and round function of Sha1Spec, the padding and the chaining.
 */
module Sha1Worked {
  import opened Bytes
  import opened Sha1Spec

  /** Each constant is the whole part of 2^30 times a square root: of 2, 3, 5 and 10. */
  lemma ConstantsAreRoots(t: nat)
    ensures var k, n := K(t) as int, if t < 20 then 2 else if t < 40 then 3 else if t < 60 then 5 else 10;
            k * k <= n * 0x1000_0000_0000_0000 < (k + 1) * (k + 1)
  {}

  /** The length field is the number of bits modulo 2^64, most significant byte first. */
  lemma LengthFieldDenotes(bytes: nat)
    ensures var b := LengthField(bytes);
            var high: int := 256 * (256 * (256 * b[0] as int + b[1]) + b[2]) + b[3];
            256 * (256 * (256 * (256 * high + b[4]) + b[5]) + b[6]) + b[7] == bytes * 8 % TWO64
  {
    var n: int := bytes * 8 % TWO64;
    var n1, n2, n3, n4 := n / 0x100, n / 0x1_0000, n / 0x100_0000, n / 0x1_0000_0000;
    var n5, n6, n7 := n / 0x100_0000_0000, n / 0x1_0000_0000_0000, n / 0x100_0000_0000_0000;
    assert n2 == n1 / 256 && n3 == n2 / 256 && n4 == n3 / 256 && n5 == n4 / 256 && n6 == n5 / 256 && n7 == n6 / 256;
    assert n7 % 256 == n7;
  }

  /** One step, from the word of the schedule. */
  function Next(t: nat, w: word, r: Regs): Regs {
    Regs(Temp(Rotl(r.a, 5), F(t, r.b, r.c, r.d), r.e, K(t), w), r.a, Rotl(r.b, 30), r.c, r.d)
  }

  lemma BytesOfWord(p: seq<byte>, i: nat, a: byte, b: byte, c: byte, d: byte)
    requires i + 4 <= |p| && p[i..i + 4] == [a, b, c, d]
    ensures BigEndian(p, i) == (a as word << 24) | (b as word << 16) | (c as word << 8) | (d as word)
  {
    assert p[i] == p[i..i + 4][0] && p[i + 1] == p[i..i + 4][1];
    assert p[i + 2] == p[i..i + 4][2] && p[i + 3] == p[i..i + 4][3];
  }

  lemma OneBlock(h: Regs, m: Block, q: seq<byte>)
    ensures Chain(h, m + q) == Chain(Compress(h, m), q)
  {
    hide Compress;
    assert (m + q)[..64] == m && (m + q)[64..] == q;
  }
}

/** "abc": one block. */
module Sha1Abc {
  import opened Bytes
  import opened Sha1Spec
  import opened Sha1Worked
  import Sha1

  const ABC: seq<byte> := [97, 98, 99]

  const DIGEST: seq<byte> := [
    0xa9, 0x99, 0x3e, 0x36, 0x47, 0x06, 0x81, 0x6a, 0xba, 0x3e,
    0x25, 0x71, 0x78, 0x50, 0xc2, 0x6c, 0x9c, 0xd0, 0xd8, 0x9d]

  const BLOCK: Block := ABC + [0x80] + Zeros(52) + [0, 0, 0, 0, 0, 0, 0, 24]

  lemma Padded()
    ensures ABC + Padding(3) == BLOCK
  {
    assert LengthField(3) == [0, 0, 0, 0, 0, 0, 0, 24];
  }

  function W(t: nat): word { Schedule(BLOCK, t) }

  function R(t: nat): Regs { Steps(BLOCK, IV, t) }

  lemma Mixed(t: nat, x: word, y: word, z: word, v: word)
    requires t >= 16 && W(t - 3) == x && W(t - 8) == y && W(t - 14) == z && W(t - 16) == v
    ensures W(t) == Rotl(Xor4(x, y, z, v), 1)
  {
    hide BigEndian, Rotl, Xor4;
  }

  lemma Stepped(t: nat, w: word, r: Regs)
    requires W(t) == w && R(t) == r
    ensures R(t + 1) == Next(t, w, r)
  {
    hide Schedule, Temp, F, K, Rotl;
  }

  lemma Steps0()
    ensures R(0) == IV
  {}

  lemma WordOf(t: nat)
    requires t < 16
    ensures W(t) == BigEndian(BLOCK, 4 * t)
  {}

  lemma FirstFour()
    ensures BLOCK[0..4] == [97, 98, 99, 0x80]
  {}

  lemma LastFour()
    ensures BLOCK[60..64] == [0, 0, 0, 24]
  {}

  lemma FirstWord()
    ensures W(0) == 0x61626380
  {
    hide *;
    WordOf(0);
    FirstFour();
    BytesOfWord(BLOCK, 0, 97, 98, 99, 0x80);
  }

  lemma LastWord()
    ensures W(15) == 0x00000018
  {
    hide *;
    WordOf(15);
    LastFour();
    BytesOfWord(BLOCK, 60, 0, 0, 0, 24);
  }

  lemma Words0()
    ensures W(0) == 0x61626380 && W(15) == 0x00000018 && forall t :: 1 <= t < 15 ==> W(t) == 0
  {
    hide W;
    FirstWord();
    LastWord();
    forall t | 1 <= t < 15 ensures W(t) == 0 {
      WordOf(t);
      assert BLOCK[4 * t] == BLOCK[4 * t + 1] == BLOCK[4 * t + 2] == BLOCK[4 * t + 3] == 0;
    }
  }

  lemma Words16()
    ensures W(16) == 0xc2c4c700 && W(17) == 0x00000000 && W(18) == 0x00000030 && W(19) == 0x85898e01
      && W(20) == 0x00000000 && W(21) == 0x00000060 && W(22) == 0x0b131c03 && W(23) == 0x00000030
      && W(24) == 0x85898ec1 && W(25) == 0x16263806 && W(26) == 0x00000000 && W(27) == 0x00000180
      && W(28) == 0x2c4c700c && W(29) == 0x000000f0 && W(30) == 0x93afb507 && W(31) == 0x5898e048
  {
    hide W;
    Words0();
    Mixed(16, 0x00000000, 0x00000000, 0x00000000, 0x61626380);
    Mixed(17, 0x00000000, 0x00000000, 0x00000000, 0x00000000);
    Mixed(18, 0x00000018, 0x00000000, 0x00000000, 0x00000000);
    Mixed(19, 0xc2c4c700, 0x00000000, 0x00000000, 0x00000000);
    Mixed(20, 0x00000000, 0x00000000, 0x00000000, 0x00000000);
    Mixed(21, 0x00000030, 0x00000000, 0x00000000, 0x00000000);
    Mixed(22, 0x85898e01, 0x00000000, 0x00000000, 0x00000000);
    Mixed(23, 0x00000000, 0x00000018, 0x00000000, 0x00000000);
    Mixed(24, 0x00000060, 0xc2c4c700, 0x00000000, 0x00000000);
    Mixed(25, 0x0b131c03, 0x00000000, 0x00000000, 0x00000000);
    Mixed(26, 0x00000030, 0x00000030, 0x00000000, 0x00000000);
    Mixed(27, 0x85898ec1, 0x85898e01, 0x00000000, 0x00000000);
    Mixed(28, 0x16263806, 0x00000000, 0x00000000, 0x00000000);
    Mixed(29, 0x00000000, 0x00000060, 0x00000018, 0x00000000);
    Mixed(30, 0x00000180, 0x0b131c03, 0xc2c4c700, 0x00000000);
    Mixed(31, 0x2c4c700c, 0x00000030, 0x00000000, 0x00000018);
  }

  lemma Words32()
    ensures W(32) == 0x8e9a9202 && W(33) == 0x00000600 && W(34) == 0xb131c0f0 && W(35) == 0x16263bc6
      && W(36) == 0x4ebed41e && W(37) == 0x626380a1 && W(38) == 0x16263806 && W(39) == 0x000018c0
      && W(40) == 0xd2e138c4 && W(41) == 0x00000f00 && W(42) == 0x3afb5079 && W(43) == 0x898e04e5
      && W(44) == 0xe2ba3c2b && W(45) == 0x000060c0 && W(46) == 0x053a37cd && W(47) == 0x74458547
  {
    hide W;
    Words16();
    Mixed(32, 0x000000f0, 0x85898ec1, 0x00000030, 0xc2c4c700);
    Mixed(33, 0x93afb507, 0x16263806, 0x85898e01, 0x00000000);
    Mixed(34, 0x5898e048, 0x00000000, 0x00000000, 0x00000030);
    Mixed(35, 0x8e9a9202, 0x00000180, 0x00000060, 0x85898e01);
    Mixed(36, 0x00000600, 0x2c4c700c, 0x0b131c03, 0x00000000);
    Mixed(37, 0xb131c0f0, 0x000000f0, 0x00000030, 0x00000060);
    Mixed(38, 0x16263bc6, 0x93afb507, 0x85898ec1, 0x0b131c03);
    Mixed(39, 0x4ebed41e, 0x5898e048, 0x16263806, 0x00000030);
    Mixed(40, 0x626380a1, 0x8e9a9202, 0x00000000, 0x85898ec1);
    Mixed(41, 0x16263806, 0x00000600, 0x00000180, 0x16263806);
    Mixed(42, 0x000018c0, 0xb131c0f0, 0x2c4c700c, 0x00000000);
    Mixed(43, 0xd2e138c4, 0x16263bc6, 0x000000f0, 0x00000180);
    Mixed(44, 0x00000f00, 0x4ebed41e, 0x93afb507, 0x2c4c700c);
    Mixed(45, 0x3afb5079, 0x626380a1, 0x5898e048, 0x000000f0);
    Mixed(46, 0x898e04e5, 0x16263806, 0x8e9a9202, 0x93afb507);
    Mixed(47, 0xe2ba3c2b, 0x000018c0, 0x00000600, 0x5898e048);
  }

  lemma Words48()
    ensures W(48) == 0xda9415ed && W(49) == 0x26380a16 && W(50) == 0x626383a1 && W(51) == 0x4ebf54de
      && W(52) == 0x3835b44b && W(53) == 0x0000f600 && W(54) == 0x1e84c7a3 && W(55) == 0x98e04d98
      && W(56) == 0x651d16a0 && W(57) == 0x62658ca1 && W(58) == 0x458544d6 && W(59) == 0x44584cb7
      && W(60) == 0x7ba06619 && W(61) == 0x6380aea2 && W(62) == 0x0ae55269 && W(63) == 0x627b49a1
  {
    hide W;
    Words32();
    Mixed(48, 0x000060c0, 0xd2e138c4, 0xb131c0f0, 0x8e9a9202);
    Mixed(49, 0x053a37cd, 0x00000f00, 0x16263bc6, 0x00000600);
    Mixed(50, 0x74458547, 0x3afb5079, 0x4ebed41e, 0xb131c0f0);
    Mixed(51, 0xda9415ed, 0x898e04e5, 0x626380a1, 0x16263bc6);
    Mixed(52, 0x26380a16, 0xe2ba3c2b, 0x16263806, 0x4ebed41e);
    Mixed(53, 0x626383a1, 0x000060c0, 0x000018c0, 0x626380a1);
    Mixed(54, 0x4ebf54de, 0x053a37cd, 0xd2e138c4, 0x16263806);
    Mixed(55, 0x3835b44b, 0x74458547, 0x00000f00, 0x000018c0);
    Mixed(56, 0x0000f600, 0xda9415ed, 0x3afb5079, 0xd2e138c4);
    Mixed(57, 0x1e84c7a3, 0x26380a16, 0x898e04e5, 0x00000f00);
    Mixed(58, 0x98e04d98, 0x626383a1, 0xe2ba3c2b, 0x3afb5079);
    Mixed(59, 0x651d16a0, 0x4ebf54de, 0x000060c0, 0x898e04e5);
    Mixed(60, 0x62658ca1, 0x3835b44b, 0x053a37cd, 0xe2ba3c2b);
    Mixed(61, 0x458544d6, 0x0000f600, 0x74458547, 0x000060c0);
    Mixed(62, 0x44584cb7, 0x1e84c7a3, 0xda9415ed, 0x053a37cd);
    Mixed(63, 0x7ba06619, 0x98e04d98, 0x26380a16, 0x74458547);
  }

  lemma Words64()
    ensures W(64) == 0x7cd45c9d && W(65) == 0x000f0000 && W(66) == 0xfb50753a && W(67) == 0xec6765e8
      && W(68) == 0xba3c2be2 && W(69) == 0x0060c000 && W(70) == 0x3a37cd05 && W(71) == 0x458546f4
      && W(72) == 0xb8599dd6 && W(73) == 0x380a1a26 && W(74) == 0x01e02203 && W(75) == 0xe7cc3456
      && W(76) == 0xe6e60b69 && W(77) == 0x00f60a00 && W(78) == 0x5795ef4f && W(79) == 0x822e0879
  {
    hide W;
    Words48();
    Mixed(64, 0x6380aea2, 0x651d16a0, 0x626383a1, 0xda9415ed);
    Mixed(65, 0x0ae55269, 0x62658ca1, 0x4ebf54de, 0x26380a16);
    Mixed(66, 0x627b49a1, 0x458544d6, 0x3835b44b, 0x626383a1);
    Mixed(67, 0x7cd45c9d, 0x44584cb7, 0x0000f600, 0x4ebf54de);
    Mixed(68, 0x000f0000, 0x7ba06619, 0x1e84c7a3, 0x3835b44b);
    Mixed(69, 0xfb50753a, 0x6380aea2, 0x98e04d98, 0x0000f600);
    Mixed(70, 0xec6765e8, 0x0ae55269, 0x651d16a0, 0x1e84c7a3);
    Mixed(71, 0xba3c2be2, 0x627b49a1, 0x62658ca1, 0x98e04d98);
    Mixed(72, 0x0060c000, 0x7cd45c9d, 0x458544d6, 0x651d16a0);
    Mixed(73, 0x3a37cd05, 0x000f0000, 0x44584cb7, 0x62658ca1);
    Mixed(74, 0x458546f4, 0xfb50753a, 0x7ba06619, 0x458544d6);
    Mixed(75, 0xb8599dd6, 0xec6765e8, 0x6380aea2, 0x44584cb7);
    Mixed(76, 0x380a1a26, 0xba3c2be2, 0x0ae55269, 0x7ba06619);
    Mixed(77, 0x01e02203, 0x0060c000, 0x627b49a1, 0x6380aea2);
    Mixed(78, 0xe7cc3456, 0x3a37cd05, 0x7cd45c9d, 0x0ae55269);
    Mixed(79, 0xe6e60b69, 0x458546f4, 0x000f0000, 0x627b49a1);
  }

  lemma Steps10()
    ensures R(10) == Regs(0x8351f929, 0x4b6ae328, 0x27a301f5, 0x664f8c30, 0x0ff1f290)
  {
    hide W, R;
    Steps0();
    Words0();
    Stepped(0, 0x61626380, Regs(0x67452301, 0xefcdab89, 0x98badcfe, 0x10325476, 0xc3d2e1f0));
    Stepped(1, 0x00000000, Regs(0x0116fc33, 0x67452301, 0x7bf36ae2, 0x98badcfe, 0x10325476));
    Stepped(2, 0x00000000, Regs(0x8990536d, 0x0116fc33, 0x59d148c0, 0x7bf36ae2, 0x98badcfe));
    Stepped(3, 0x00000000, Regs(0xa1390f08, 0x8990536d, 0xc045bf0c, 0x59d148c0, 0x7bf36ae2));
    Stepped(4, 0x00000000, Regs(0xcdd8e11b, 0xa1390f08, 0x626414db, 0xc045bf0c, 0x59d148c0));
    Stepped(5, 0x00000000, Regs(0xcfd499de, 0xcdd8e11b, 0x284e43c2, 0x626414db, 0xc045bf0c));
    Stepped(6, 0x00000000, Regs(0x3fc7ca40, 0xcfd499de, 0xf3763846, 0x284e43c2, 0x626414db));
    Stepped(7, 0x00000000, Regs(0x993e30c1, 0x3fc7ca40, 0xb3f52677, 0xf3763846, 0x284e43c2));
    Stepped(8, 0x00000000, Regs(0x9e8c07d4, 0x993e30c1, 0x0ff1f290, 0xb3f52677, 0xf3763846));
    Stepped(9, 0x00000000, Regs(0x4b6ae328, 0x9e8c07d4, 0x664f8c30, 0x0ff1f290, 0xb3f52677));
  }

  lemma Steps20()
    ensures R(20) == Regs(0xfd9e1d7d, 0xdc64901d, 0x20aa99ca, 0xd3a49608, 0xc82f758b)
  {
    hide W, R;
    Steps10();
    Words0();
    Words16();
    Stepped(10, 0x00000000, Regs(0x8351f929, 0x4b6ae328, 0x27a301f5, 0x664f8c30, 0x0ff1f290));
    Stepped(11, 0x00000000, Regs(0xfbda9e89, 0x8351f929, 0x12dab8ca, 0x27a301f5, 0x664f8c30));
    Stepped(12, 0x00000000, Regs(0x63188fe4, 0xfbda9e89, 0x60d47e4a, 0x12dab8ca, 0x27a301f5));
    Stepped(13, 0x00000000, Regs(0x4607b664, 0x63188fe4, 0x7ef6a7a2, 0x60d47e4a, 0x12dab8ca));
    Stepped(14, 0x00000000, Regs(0x9128f695, 0x4607b664, 0x18c623f9, 0x7ef6a7a2, 0x60d47e4a));
    Stepped(15, 0x00000018, Regs(0x196bee77, 0x9128f695, 0x1181ed99, 0x18c623f9, 0x7ef6a7a2));
    Stepped(16, 0xc2c4c700, Regs(0x20bdd62f, 0x196bee77, 0x644a3da5, 0x1181ed99, 0x18c623f9));
    Stepped(17, 0x00000000, Regs(0x4e925823, 0x20bdd62f, 0xc65afb9d, 0x644a3da5, 0x1181ed99));
    Stepped(18, 0x00000030, Regs(0x82aa6728, 0x4e925823, 0xc82f758b, 0xc65afb9d, 0x644a3da5));
    Stepped(19, 0x85898e01, Regs(0xdc64901d, 0x82aa6728, 0xd3a49608, 0xc82f758b, 0xc65afb9d));
  }

  lemma Steps30()
    ensures R(30) == Regs(0xc5fbaf5d, 0x8370b52e, 0xd2aa1365, 0x6f8d7ef5, 0x12104ee9)
  {
    hide W, R;
    Steps20();
    Words16();
    Stepped(20, 0x00000000, Regs(0xfd9e1d7d, 0xdc64901d, 0x20aa99ca, 0xd3a49608, 0xc82f758b));
    Stepped(21, 0x00000060, Regs(0x1a37b0ca, 0xfd9e1d7d, 0x77192407, 0x20aa99ca, 0xd3a49608));
    Stepped(22, 0x0b131c03, Regs(0x33a23bfc, 0x1a37b0ca, 0x7f67875f, 0x77192407, 0x20aa99ca));
    Stepped(23, 0x00000030, Regs(0x21283486, 0x33a23bfc, 0x868dec32, 0x7f67875f, 0x77192407));
    Stepped(24, 0x85898ec1, Regs(0xd541f12d, 0x21283486, 0x0ce88eff, 0x868dec32, 0x7f67875f));
    Stepped(25, 0x16263806, Regs(0xc7567dc6, 0xd541f12d, 0x884a0d21, 0x0ce88eff, 0x868dec32));
    Stepped(26, 0x00000000, Regs(0x48413ba4, 0xc7567dc6, 0x75507c4b, 0x884a0d21, 0x0ce88eff));
    Stepped(27, 0x00000180, Regs(0xbe35fbd5, 0x48413ba4, 0xb1d59f71, 0x75507c4b, 0x884a0d21));
    Stepped(28, 0x2c4c700c, Regs(0x4aa84d97, 0xbe35fbd5, 0x12104ee9, 0xb1d59f71, 0x75507c4b));
    Stepped(29, 0x000000f0, Regs(0x8370b52e, 0x4aa84d97, 0x6f8d7ef5, 0x12104ee9, 0xb1d59f71));
  }

  lemma Steps40()
    ensures R(40) == Regs(0x32de1cba, 0x4c986405, 0xf718e5cf, 0x03d447f6, 0xf72eec32)
  {
    hide W, R;
    Steps30();
    Words16();
    Words32();
    Stepped(30, 0x93afb507, Regs(0xc5fbaf5d, 0x8370b52e, 0xd2aa1365, 0x6f8d7ef5, 0x12104ee9));
    Stepped(31, 0x5898e048, Regs(0x1267b407, 0xc5fbaf5d, 0xa0dc2d4b, 0xd2aa1365, 0x6f8d7ef5));
    Stepped(32, 0x8e9a9202, Regs(0x3b845d33, 0x1267b407, 0x717eebd7, 0xa0dc2d4b, 0xd2aa1365));
    Stepped(33, 0x00000600, Regs(0x046faa0a, 0x3b845d33, 0xc499ed01, 0x717eebd7, 0xa0dc2d4b));
    Stepped(34, 0xb131c0f0, Regs(0x2c0ebc11, 0x046faa0a, 0xcee1174c, 0xc499ed01, 0x717eebd7));
    Stepped(35, 0x16263bc6, Regs(0x21796ad4, 0x2c0ebc11, 0x811bea82, 0xcee1174c, 0xc499ed01));
    Stepped(36, 0x4ebed41e, Regs(0xdcbbb0cb, 0x21796ad4, 0x4b03af04, 0x811bea82, 0xcee1174c));
    Stepped(37, 0x626380a1, Regs(0x0f511fd8, 0xdcbbb0cb, 0x085e5ab5, 0x4b03af04, 0x811bea82));
    Stepped(38, 0x16263806, Regs(0xdc63973f, 0x0f511fd8, 0xf72eec32, 0x085e5ab5, 0x4b03af04));
    Stepped(39, 0x000018c0, Regs(0x4c986405, 0xdc63973f, 0x03d447f6, 0xf72eec32, 0x085e5ab5));
  }

  lemma Steps50()
    ensures R(50) == Regs(0x120731c5, 0xbaf39337, 0xafab40b2, 0x2806e11b, 0x8714787c)
  {
    hide W, R;
    Steps40();
    Words32();
    Words48();
    Stepped(40, 0xd2e138c4, Regs(0x32de1cba, 0x4c986405, 0xf718e5cf, 0x03d447f6, 0xf72eec32));
    Stepped(41, 0x00000f00, Regs(0xfc87dedf, 0x32de1cba, 0x53261901, 0xf718e5cf, 0x03d447f6));
    Stepped(42, 0x3afb5079, Regs(0x970a0d5c, 0xfc87dedf, 0x8cb7872e, 0x53261901, 0xf718e5cf));
    Stepped(43, 0x898e04e5, Regs(0x7f193dc5, 0x970a0d5c, 0xff21f7b7, 0x8cb7872e, 0x53261901));
    Stepped(44, 0xe2ba3c2b, Regs(0xee1b1aaf, 0x7f193dc5, 0x25c28357, 0xff21f7b7, 0x8cb7872e));
    Stepped(45, 0x000060c0, Regs(0x40f28e09, 0xee1b1aaf, 0x5fc64f71, 0x25c28357, 0xff21f7b7));
    Stepped(46, 0x053a37cd, Regs(0x1c51e1f2, 0x40f28e09, 0xfb86c6ab, 0x5fc64f71, 0x25c28357));
    Stepped(47, 0x74458547, Regs(0xa01b846c, 0x1c51e1f2, 0x503ca382, 0xfb86c6ab, 0x5fc64f71));
    Stepped(48, 0xda9415ed, Regs(0xbead02ca, 0xa01b846c, 0x8714787c, 0x503ca382, 0xfb86c6ab));
    Stepped(49, 0x26380a16, Regs(0xbaf39337, 0xbead02ca, 0x2806e11b, 0x8714787c, 0x503ca382));
  }

  lemma Steps60()
    ensures R(60) == Regs(0x3f52de5a, 0x09d785fd, 0x3498bfd4, 0xf211824f, 0xd79915ab)
  {
    hide W, R;
    Steps50();
    Words48();
    Stepped(50, 0x626383a1, Regs(0x120731c5, 0xbaf39337, 0xafab40b2, 0x2806e11b, 0x8714787c));
    Stepped(51, 0x4ebf54de, Regs(0x641db2ce, 0x120731c5, 0xeebce4cd, 0xafab40b2, 0x2806e11b));
    Stepped(52, 0x3835b44b, Regs(0x3847ad66, 0x641db2ce, 0x4481cc71, 0xeebce4cd, 0xafab40b2));
    Stepped(53, 0x0000f600, Regs(0xe490436d, 0x3847ad66, 0x99076cb3, 0x4481cc71, 0xeebce4cd));
    Stepped(54, 0x1e84c7a3, Regs(0x27e9f1d8, 0xe490436d, 0x8e11eb59, 0x99076cb3, 0x4481cc71));
    Stepped(55, 0x98e04d98, Regs(0x7b71f76d, 0x27e9f1d8, 0x792410db, 0x8e11eb59, 0x99076cb3));
    Stepped(56, 0x651d16a0, Regs(0x5e6456af, 0x7b71f76d, 0x09fa7c76, 0x792410db, 0x8e11eb59));
    Stepped(57, 0x62658ca1, Regs(0xc846093f, 0x5e6456af, 0x5edc7ddb, 0x09fa7c76, 0x792410db));
    Stepped(58, 0x458544d6, Regs(0xd262ff50, 0xc846093f, 0xd79915ab, 0x5edc7ddb, 0x09fa7c76));
    Stepped(59, 0x44584cb7, Regs(0x09d785fd, 0xd262ff50, 0xf211824f, 0xd79915ab, 0x5edc7ddb));
  }

  lemma Steps70()
    ensures R(70) == Regs(0x3f2588c2, 0x497093c0, 0xde37534a, 0x030f7cad, 0x4405957e)
  {
    hide W, R;
    Steps60();
    Words48();
    Words64();
    Stepped(60, 0x7ba06619, Regs(0x3f52de5a, 0x09d785fd, 0x3498bfd4, 0xf211824f, 0xd79915ab));
    Stepped(61, 0x6380aea2, Regs(0xd756c147, 0x3f52de5a, 0x4275e17f, 0x3498bfd4, 0xf211824f));
    Stepped(62, 0x0ae55269, Regs(0x548c9cb2, 0xd756c147, 0x8fd4b796, 0x4275e17f, 0x3498bfd4));
    Stepped(63, 0x627b49a1, Regs(0xb66c020b, 0x548c9cb2, 0xf5d5b051, 0x8fd4b796, 0x4275e17f));
    Stepped(64, 0x7cd45c9d, Regs(0x6b61c9e1, 0xb66c020b, 0x9523272c, 0xf5d5b051, 0x8fd4b796));
    Stepped(65, 0x000f0000, Regs(0x19dfa7ac, 0x6b61c9e1, 0xed9b0082, 0x9523272c, 0xf5d5b051));
    Stepped(66, 0xfb50753a, Regs(0x101655f9, 0x19dfa7ac, 0x5ad87278, 0xed9b0082, 0x9523272c));
    Stepped(67, 0xec6765e8, Regs(0x0c3df2b4, 0x101655f9, 0x0677e9eb, 0x5ad87278, 0xed9b0082));
    Stepped(68, 0xba3c2be2, Regs(0x78dd4d2b, 0x0c3df2b4, 0x4405957e, 0x0677e9eb, 0x5ad87278));
    Stepped(69, 0x0060c000, Regs(0x497093c0, 0x78dd4d2b, 0x030f7cad, 0x4405957e, 0x0677e9eb));
  }

  lemma Steps80()
    ensures R(80) == Regs(0x42541b35, 0x5738d5e1, 0x21834873, 0x681e6df6, 0xd8fdf6ad)
  {
    hide W, R;
    Steps70();
    Words64();
    Stepped(70, 0x3a37cd05, Regs(0x3f2588c2, 0x497093c0, 0xde37534a, 0x030f7cad, 0x4405957e));
    Stepped(71, 0x458546f4, Regs(0xc199f8c7, 0x3f2588c2, 0x125c24f0, 0xde37534a, 0x030f7cad));
    Stepped(72, 0xb8599dd6, Regs(0x39859de7, 0xc199f8c7, 0x8fc96230, 0x125c24f0, 0xde37534a));
    Stepped(73, 0x380a1a26, Regs(0xedb42de4, 0x39859de7, 0xf0667e31, 0x8fc96230, 0x125c24f0));
    Stepped(74, 0x01e02203, Regs(0x11793f6f, 0xedb42de4, 0xce616779, 0xf0667e31, 0x8fc96230));
    Stepped(75, 0xe7cc3456, Regs(0x5ee76897, 0x11793f6f, 0x3b6d0b79, 0xce616779, 0xf0667e31));
    Stepped(76, 0xe6e60b69, Regs(0x63f7dab7, 0x5ee76897, 0xc45e4fdb, 0x3b6d0b79, 0xce616779));
    Stepped(77, 0x00f60a00, Regs(0xa079b7d9, 0x63f7dab7, 0xd7b9da25, 0xc45e4fdb, 0x3b6d0b79));
    Stepped(78, 0x5795ef4f, Regs(0x860d21cc, 0xa079b7d9, 0xd8fdf6ad, 0xd7b9da25, 0xc45e4fdb));
    Stepped(79, 0x822e0879, Regs(0x5738d5e1, 0x860d21cc, 0x681e6df6, 0xd8fdf6ad, 0xd7b9da25));
  }

  lemma Compressed()
    ensures Compress(IV, BLOCK) == Regs(0xa9993e36, 0x4706816a, 0xba3e2571, 0x7850c26c, 0x9cd0d89d)
  {
    hide Steps, BLOCK;
    Steps80();
  }

  /** SHA-1 of "abc". */
  lemma Digest()
    ensures Hash(ABC) == DIGEST
  {
    Padded();
    OneBlock(IV, BLOCK, []);
    Compressed();
    hide Compress, BLOCK, Padding;
    assert BLOCK + [] == BLOCK;
  }

  /** The routines find it, however the three bytes come. */
  method Hashed(cut: nat) returns (digest: seq<byte>)
    requires cut <= 3
    ensures digest == DIGEST
  {
    hide Hash;
    Digest();
    digest := Sha1.HashPieces([ABC[..cut], ABC[cut..]]);
    assert Concat([ABC[..cut], ABC[cut..]]) == ABC by {
      ConcatOne(ABC[cut..]);
      assert [ABC[..cut], ABC[cut..]][1..] == [ABC[cut..]];
    }
  }
}
