/** The 56-byte example "abcdbcdecdef...nopq": its first block, from the initial value. */
module Sha1Long {
  import opened Bytes
  import opened Sha1Spec
  import opened Sha1Worked

  /** Fourteen runs of four letters, each run one letter further. */
  function Letter(i: nat): byte
    requires i < 56
  {
    97 + i / 4 + i % 4
  }

  function Message(): (m: seq<byte>)
    ensures |m| == 56
  {
    seq(56, i requires 0 <= i < 56 => Letter(i))
  }

  const BLOCK: Block := Message() + [0x80] + Zeros(7)

  function W(t: nat): word { Schedule(BLOCK, t) }

  function R(t: nat): Regs { Steps(BLOCK, IV, t) }

  lemma Mixed(t: nat, x: word, y: word, z: word, v: word)
    requires t >= 16 && W(t - 3) == x && W(t - 8) == y && W(t - 14) == z && W(t - 16) == v
    ensures W(t) == Rotl(Xor4(x, y, z, v), 1)
  {
    hide BigEndian, Rotl, Xor4;
  }

  lemma Stepped(t: nat, w: word, r: Regs)
    requires W(t) == w && R(t) == r
    ensures R(t + 1) == Next(t, w, r)
  {
    hide Schedule, Temp, F, K, Rotl;
  }

  lemma Steps0()
    ensures R(0) == IV
  {}

  lemma WordOf(t: nat)
    requires t < 16
    ensures W(t) == BigEndian(BLOCK, 4 * t)
  {}

  lemma LetterWord(t: nat, a: byte, b: byte, c: byte, d: byte)
    requires t < 14 && a == 97 + t && b == 98 + t && c == 99 + t && d == 100 + t
    ensures W(t) == (a as word << 24) | (b as word << 16) | (c as word << 8) | (d as word)
  {
    hide *;
    WordOf(t);
    LettersAt(t);
    BytesOfWord(BLOCK, 4 * t, a, b, c, d);
  }

  lemma LettersAt(t: nat)
    requires t < 14
    ensures BLOCK[4 * t..4 * t + 4] == [97 + t, 98 + t, 99 + t, 100 + t]
  {
    assert Message()[4 * t..4 * t + 4] == [97 + t, 98 + t, 99 + t, 100 + t];
  }

  lemma EndAt()
    ensures BLOCK[56..60] == [0x80, 0, 0, 0] && BLOCK[60..64] == [0, 0, 0, 0]
  {}

  lemma EndWords()
    ensures W(14) == 0x80000000 && W(15) == 0
  {
    hide *;
    WordOf(14);
    WordOf(15);
    EndAt();
    BytesOfWord(BLOCK, 56, 0x80, 0, 0, 0);
    BytesOfWord(BLOCK, 60, 0, 0, 0, 0);
  }

  lemma Letters0()
    ensures W(0) == 0x61626364 && W(1) == 0x62636465 && W(2) == 0x63646566 && W(3) == 0x64656667
  {
    hide *;
    LetterWord(0, 97, 98, 99, 100);
    LetterWord(1, 98, 99, 100, 101);
    LetterWord(2, 99, 100, 101, 102);
    LetterWord(3, 100, 101, 102, 103);
  }

  lemma Letters4()
    ensures W(4) == 0x65666768 && W(5) == 0x66676869 && W(6) == 0x6768696a && W(7) == 0x68696a6b
  {
    hide *;
    LetterWord(4, 101, 102, 103, 104);
    LetterWord(5, 102, 103, 104, 105);
    LetterWord(6, 103, 104, 105, 106);
    LetterWord(7, 104, 105, 106, 107);
  }

  lemma Letters8()
    ensures W(8) == 0x696a6b6c && W(9) == 0x6a6b6c6d && W(10) == 0x6b6c6d6e && W(11) == 0x6c6d6e6f
  {
    hide *;
    LetterWord(8, 105, 106, 107, 108);
    LetterWord(9, 106, 107, 108, 109);
    LetterWord(10, 107, 108, 109, 110);
    LetterWord(11, 108, 109, 110, 111);
  }

  lemma Letters12()
    ensures W(12) == 0x6d6e6f70 && W(13) == 0x6e6f7071
  {
    hide *;
    LetterWord(12, 109, 110, 111, 112);
    LetterWord(13, 110, 111, 112, 113);
  }

  lemma Words0()
    ensures W(0) == 0x61626364 && W(1) == 0x62636465 && W(2) == 0x63646566 && W(3) == 0x64656667
      && W(4) == 0x65666768 && W(5) == 0x66676869 && W(6) == 0x6768696a && W(7) == 0x68696a6b
      && W(8) == 0x696a6b6c && W(9) == 0x6a6b6c6d && W(10) == 0x6b6c6d6e && W(11) == 0x6c6d6e6f
      && W(12) == 0x6d6e6f70 && W(13) == 0x6e6f7071 && W(14) == 0x80000000 && W(15) == 0x00000000
  {
    hide W;
    Letters0();
    Letters4();
    Letters8();
    Letters12();
    EndWords();
  }

  lemma Words16()
    ensures W(16) == 0x0a063a3e && W(17) == 0xd8dadcdf && W(18) == 0xdadcdec0 && W(19) == 0xc8d2b4be
      && W(20) == 0x6f757b5b && W(21) == 0x757b5967 && W(22) == 0x8da16d70 && W(23) == 0xdaeefaba
      && W(24) == 0xfaf6cab6 && W(25) == 0xa6fb675a && W(26) == 0x0c604cc8 && W(27) == 0x604cc02c
      && W(28) == 0x49c0e6e2 && W(29) == 0x2ee8cbbc && W(30) == 0xcfd72ec4 && W(31) == 0x97e9810e
  {
    hide W;
    Words0();
    Mixed(16, 0x6e6f7071, 0x696a6b6c, 0x63646566, 0x61626364);
    Mixed(17, 0x80000000, 0x6a6b6c6d, 0x64656667, 0x62636465);
    Mixed(18, 0x00000000, 0x6b6c6d6e, 0x65666768, 0x63646566);
    Mixed(19, 0x0a063a3e, 0x6c6d6e6f, 0x66676869, 0x64656667);
    Mixed(20, 0xd8dadcdf, 0x6d6e6f70, 0x6768696a, 0x65666768);
    Mixed(21, 0xdadcdec0, 0x6e6f7071, 0x68696a6b, 0x66676869);
    Mixed(22, 0xc8d2b4be, 0x80000000, 0x696a6b6c, 0x6768696a);
    Mixed(23, 0x6f757b5b, 0x00000000, 0x6a6b6c6d, 0x68696a6b);
    Mixed(24, 0x757b5967, 0x0a063a3e, 0x6b6c6d6e, 0x696a6b6c);
    Mixed(25, 0x8da16d70, 0xd8dadcdf, 0x6c6d6e6f, 0x6a6b6c6d);
    Mixed(26, 0xdaeefaba, 0xdadcdec0, 0x6d6e6f70, 0x6b6c6d6e);
    Mixed(27, 0xfaf6cab6, 0xc8d2b4be, 0x6e6f7071, 0x6c6d6e6f);
    Mixed(28, 0xa6fb675a, 0x6f757b5b, 0x80000000, 0x6d6e6f70);
    Mixed(29, 0x0c604cc8, 0x757b5967, 0x00000000, 0x6e6f7071);
    Mixed(30, 0x604cc02c, 0x8da16d70, 0x0a063a3e, 0x80000000);
    Mixed(31, 0x49c0e6e2, 0xdaeefaba, 0xd8dadcdf, 0x00000000);
  }

  lemma Words32()
    ensures W(32) == 0x0989cbe8 && W(33) == 0xf24843fe && W(34) == 0x5c40d0ba && W(35) == 0xa8d9cc3b
      && W(36) == 0xb2b9666e && W(37) == 0xba7b71b7 && W(38) == 0x20b28a72 && W(39) == 0xb28af500
      && W(40) == 0x8ac87842 && W(41) == 0x289addf4 && W(42) == 0x56d51f21 && W(43) == 0xd96b7fd2
      && W(44) == 0x3868e778 && W(45) == 0xab5e4848 && W(46) == 0x7f0e2118 && W(47) == 0xde87a111
  {
    hide W;
    Words16();
    Mixed(32, 0x2ee8cbbc, 0xfaf6cab6, 0xdadcdec0, 0x0a063a3e);
    Mixed(33, 0xcfd72ec4, 0xa6fb675a, 0xc8d2b4be, 0xd8dadcdf);
    Mixed(34, 0x97e9810e, 0x0c604cc8, 0x6f757b5b, 0xdadcdec0);
    Mixed(35, 0x0989cbe8, 0x604cc02c, 0x757b5967, 0xc8d2b4be);
    Mixed(36, 0xf24843fe, 0x49c0e6e2, 0x8da16d70, 0x6f757b5b);
    Mixed(37, 0x5c40d0ba, 0x2ee8cbbc, 0xdaeefaba, 0x757b5967);
    Mixed(38, 0xa8d9cc3b, 0xcfd72ec4, 0xfaf6cab6, 0x8da16d70);
    Mixed(39, 0xb2b9666e, 0x97e9810e, 0xa6fb675a, 0xdaeefaba);
    Mixed(40, 0xba7b71b7, 0x0989cbe8, 0x0c604cc8, 0xfaf6cab6);
    Mixed(41, 0x20b28a72, 0xf24843fe, 0x604cc02c, 0xa6fb675a);
    Mixed(42, 0xb28af500, 0x5c40d0ba, 0x49c0e6e2, 0x0c604cc8);
    Mixed(43, 0x8ac87842, 0xa8d9cc3b, 0x2ee8cbbc, 0x604cc02c);
    Mixed(44, 0x289addf4, 0xb2b9666e, 0xcfd72ec4, 0x49c0e6e2);
    Mixed(45, 0x56d51f21, 0xba7b71b7, 0x97e9810e, 0x2ee8cbbc);
    Mixed(46, 0xd96b7fd2, 0x20b28a72, 0x0989cbe8, 0xcfd72ec4);
    Mixed(47, 0x3868e778, 0xb28af500, 0xf24843fe, 0x97e9810e);
  }

  lemma Words48()
    ensures W(48) == 0xe8be56b0 && W(49) == 0x1a0ae652 && W(50) == 0xcd5611c8 && W(51) == 0x46ef29dc
      && W(52) == 0x60d3da6d && W(53) == 0xddf3ba6e && W(54) == 0x2737f5e9 && W(55) == 0x4888a710
      && W(56) == 0xd2a1177b && W(57) == 0x9999633b && W(58) == 0xd6c69d03 && W(59) == 0xccf6127b
      && W(60) == 0x7c58fe6d && W(61) == 0xfdd99c68 && W(62) == 0xf8e32074 && W(63) == 0xe0ba3c7d
  {
    hide W;
    Words32();
    Mixed(48, 0xab5e4848, 0x8ac87842, 0x5c40d0ba, 0x0989cbe8);
    Mixed(49, 0x7f0e2118, 0x289addf4, 0xa8d9cc3b, 0xf24843fe);
    Mixed(50, 0xde87a111, 0x56d51f21, 0xb2b9666e, 0x5c40d0ba);
    Mixed(51, 0xe8be56b0, 0xd96b7fd2, 0xba7b71b7, 0xa8d9cc3b);
    Mixed(52, 0x1a0ae652, 0x3868e778, 0x20b28a72, 0xb2b9666e);
    Mixed(53, 0xcd5611c8, 0xab5e4848, 0xb28af500, 0xba7b71b7);
    Mixed(54, 0x46ef29dc, 0x7f0e2118, 0x8ac87842, 0x20b28a72);
    Mixed(55, 0x60d3da6d, 0xde87a111, 0x289addf4, 0xb28af500);
    Mixed(56, 0xddf3ba6e, 0xe8be56b0, 0x56d51f21, 0x8ac87842);
    Mixed(57, 0x2737f5e9, 0x1a0ae652, 0xd96b7fd2, 0x289addf4);
    Mixed(58, 0x4888a710, 0xcd5611c8, 0x3868e778, 0x56d51f21);
    Mixed(59, 0xd2a1177b, 0x46ef29dc, 0xab5e4848, 0xd96b7fd2);
    Mixed(60, 0x9999633b, 0x60d3da6d, 0x7f0e2118, 0x3868e778);
    Mixed(61, 0xd6c69d03, 0xddf3ba6e, 0xde87a111, 0xab5e4848);
    Mixed(62, 0xccf6127b, 0x2737f5e9, 0xe8be56b0, 0x7f0e2118);
    Mixed(63, 0x7c58fe6d, 0x4888a710, 0x1a0ae652, 0xde87a111);
  }

  lemma Words64()
    ensures W(64) == 0x152198d6 && W(65) == 0x7b3f1982 && W(66) == 0x37f2d5b7 && W(67) == 0x8596323e
      && W(68) == 0x810790d6 && W(69) == 0xbea0a942 && W(70) == 0x11c7e1b1 && W(71) == 0x6158d101
      && W(72) == 0x5fcd77d9 && W(73) == 0x7f2f12e6 && W(74) == 0xf868cfb1 && W(75) == 0xd6e997e9
      && W(76) == 0xf526b852 && W(77) == 0xb7578dcc && W(78) == 0x55d99df4 && W(79) == 0x1ff69958
  {
    hide W;
    Words48();
    Mixed(64, 0xfdd99c68, 0xd2a1177b, 0xcd5611c8, 0xe8be56b0);
    Mixed(65, 0xf8e32074, 0x9999633b, 0x46ef29dc, 0x1a0ae652);
    Mixed(66, 0xe0ba3c7d, 0xd6c69d03, 0x60d3da6d, 0xcd5611c8);
    Mixed(67, 0x152198d6, 0xccf6127b, 0xddf3ba6e, 0x46ef29dc);
    Mixed(68, 0x7b3f1982, 0x7c58fe6d, 0x2737f5e9, 0x60d3da6d);
    Mixed(69, 0x37f2d5b7, 0xfdd99c68, 0x4888a710, 0xddf3ba6e);
    Mixed(70, 0x8596323e, 0xf8e32074, 0xd2a1177b, 0x2737f5e9);
    Mixed(71, 0x810790d6, 0xe0ba3c7d, 0x9999633b, 0x4888a710);
    Mixed(72, 0xbea0a942, 0x152198d6, 0xd6c69d03, 0xd2a1177b);
    Mixed(73, 0x11c7e1b1, 0x7b3f1982, 0xccf6127b, 0x9999633b);
    Mixed(74, 0x6158d101, 0x37f2d5b7, 0x7c58fe6d, 0xd6c69d03);
    Mixed(75, 0x5fcd77d9, 0x8596323e, 0xfdd99c68, 0xccf6127b);
    Mixed(76, 0x7f2f12e6, 0x810790d6, 0xf8e32074, 0x7c58fe6d);
    Mixed(77, 0xf868cfb1, 0xbea0a942, 0xe0ba3c7d, 0xfdd99c68);
    Mixed(78, 0xd6e997e9, 0x11c7e1b1, 0x152198d6, 0xf8e32074);
    Mixed(79, 0xf526b852, 0x6158d101, 0x7b3f1982, 0xe0ba3c7d);
  }

  lemma Steps10()
    ensures R(10) == Regs(0x6350afda, 0xc565c35e, 0xd160cfc3, 0x36c132d6, 0x65ae1462)
  {
    hide W, R;
    Steps0();
    Words0();
    Stepped(0, 0x61626364, Regs(0x67452301, 0xefcdab89, 0x98badcfe, 0x10325476, 0xc3d2e1f0));
    Stepped(1, 0x62636465, Regs(0x0116fc17, 0x67452301, 0x7bf36ae2, 0x98badcfe, 0x10325476));
    Stepped(2, 0x63646566, Regs(0xebf3b452, 0x0116fc17, 0x59d148c0, 0x7bf36ae2, 0x98badcfe));
    Stepped(3, 0x64656667, Regs(0x5109913a, 0xebf3b452, 0xc045bf05, 0x59d148c0, 0x7bf36ae2));
    Stepped(4, 0x65666768, Regs(0x2c4f6eac, 0x5109913a, 0xbafced14, 0xc045bf05, 0x59d148c0));
    Stepped(5, 0x66676869, Regs(0x33f4ae5b, 0x2c4f6eac, 0x9442644e, 0xbafced14, 0xc045bf05));
    Stepped(6, 0x6768696a, Regs(0x96b85189, 0x33f4ae5b, 0x0b13dbab, 0x9442644e, 0xbafced14));
    Stepped(7, 0x68696a6b, Regs(0xdb04cb58, 0x96b85189, 0xccfd2b96, 0x0b13dbab, 0x9442644e));
    Stepped(8, 0x696a6b6c, Regs(0x45833f0f, 0xdb04cb58, 0x65ae1462, 0xccfd2b96, 0x0b13dbab));
    Stepped(9, 0x6a6b6c6d, Regs(0xc565c35e, 0x45833f0f, 0x36c132d6, 0x65ae1462, 0xccfd2b96));
  }

  lemma Steps20()
    ensures R(20) == Regs(0x6c445652, 0x944b1bd1, 0x509ae70d, 0x1ac1a012, 0x5098df8e)
  {
    hide W, R;
    Steps10();
    Words0();
    Words16();
    Stepped(10, 0x6b6c6d6e, Regs(0x6350afda, 0xc565c35e, 0xd160cfc3, 0x36c132d6, 0x65ae1462));
    Stepped(11, 0x6c6d6e6f, Regs(0x8993ea77, 0x6350afda, 0xb15970d7, 0xd160cfc3, 0x36c132d6));
    Stepped(12, 0x6d6e6f70, Regs(0xe19ecaa2, 0x8993ea77, 0x98d42bf6, 0xb15970d7, 0xd160cfc3));
    Stepped(13, 0x6e6f7071, Regs(0x8603481e, 0xe19ecaa2, 0xe264fa9d, 0x98d42bf6, 0xb15970d7));
    Stepped(14, 0x80000000, Regs(0x32f94a85, 0x8603481e, 0xb867b2a8, 0xe264fa9d, 0x98d42bf6));
    Stepped(15, 0x00000000, Regs(0xb2e7a8be, 0x32f94a85, 0xa180d207, 0xb867b2a8, 0xe264fa9d));
    Stepped(16, 0x0a063a3e, Regs(0x42637e39, 0xb2e7a8be, 0x4cbe52a1, 0xa180d207, 0xb867b2a8));
    Stepped(17, 0xd8dadcdf, Regs(0x6b068048, 0x42637e39, 0xacb9ea2f, 0x4cbe52a1, 0xa180d207));
    Stepped(18, 0xdadcdec0, Regs(0x426b9c35, 0x6b068048, 0x5098df8e, 0xacb9ea2f, 0x4cbe52a1));
    Stepped(19, 0xc8d2b4be, Regs(0x944b1bd1, 0x426b9c35, 0x1ac1a012, 0x5098df8e, 0xacb9ea2f));
  }

  lemma Steps30()
    ensures R(30) == Regs(0x05b457b2, 0xe1122421, 0x3549a991, 0xca5cbdf1, 0x96850b06)
  {
    hide W, R;
    Steps20();
    Words16();
    Stepped(20, 0x6f757b5b, Regs(0x6c445652, 0x944b1bd1, 0x509ae70d, 0x1ac1a012, 0x5098df8e));
    Stepped(21, 0x757b5967, Regs(0x95836da5, 0x6c445652, 0x6512c6f4, 0x509ae70d, 0x1ac1a012));
    Stepped(22, 0x8da16d70, Regs(0x09511177, 0x95836da5, 0x9b111594, 0x6512c6f4, 0x509ae70d));
    Stepped(23, 0xdaeefaba, Regs(0xe2b92dc4, 0x09511177, 0x6560db69, 0x9b111594, 0x6512c6f4));
    Stepped(24, 0xfaf6cab6, Regs(0xfd224575, 0xe2b92dc4, 0xc254445d, 0x6560db69, 0x9b111594));
    Stepped(25, 0xa6fb675a, Regs(0xeeb82d9a, 0xfd224575, 0x38ae4b71, 0xc254445d, 0x6560db69));
    Stepped(26, 0x0c604cc8, Regs(0x5a142c1a, 0xeeb82d9a, 0x7f48915d, 0x38ae4b71, 0xc254445d));
    Stepped(27, 0x604cc02c, Regs(0x2972f7c7, 0x5a142c1a, 0xbbae0b66, 0x7f48915d, 0x38ae4b71));
    Stepped(28, 0x49c0e6e2, Regs(0xd526a644, 0x2972f7c7, 0x96850b06, 0xbbae0b66, 0x7f48915d));
    Stepped(29, 0x2ee8cbbc, Regs(0xe1122421, 0xd526a644, 0xca5cbdf1, 0x96850b06, 0xbbae0b66));
  }

  lemma Steps40()
    ensures R(40) == Regs(0xadeb7478, 0x24957f22, 0x50fe1eba, 0x564cff26, 0xaadf0cbb)
  {
    hide W, R;
    Steps30();
    Words16();
    Words32();
    Stepped(30, 0xcfd72ec4, Regs(0x05b457b2, 0xe1122421, 0x3549a991, 0xca5cbdf1, 0x96850b06));
    Stepped(31, 0x97e9810e, Regs(0xa9c84bec, 0x05b457b2, 0x78448908, 0x3549a991, 0xca5cbdf1));
    Stepped(32, 0x0989cbe8, Regs(0x52e31f60, 0xa9c84bec, 0x816d15ec, 0x78448908, 0x3549a991));
    Stepped(33, 0xf24843fe, Regs(0x5af3242c, 0x52e31f60, 0x2a7212fb, 0x816d15ec, 0x78448908));
    Stepped(34, 0x5c40d0ba, Regs(0x31c756a9, 0x5af3242c, 0x14b8c7d8, 0x2a7212fb, 0x816d15ec));
    Stepped(35, 0xa8d9cc3b, Regs(0xe9ac987c, 0x31c756a9, 0x16bcc90b, 0x14b8c7d8, 0x2a7212fb));
    Stepped(36, 0xb2b9666e, Regs(0xab7c32ee, 0xe9ac987c, 0x4c71d5aa, 0x16bcc90b, 0x14b8c7d8));
    Stepped(37, 0xba7b71b7, Regs(0x5933fc99, 0xab7c32ee, 0x3a6b261f, 0x4c71d5aa, 0x16bcc90b));
    Stepped(38, 0x20b28a72, Regs(0x43f87ae9, 0x5933fc99, 0xaadf0cbb, 0x3a6b261f, 0x4c71d5aa));
    Stepped(39, 0xb28af500, Regs(0x24957f22, 0x43f87ae9, 0x564cff26, 0xaadf0cbb, 0x3a6b261f));
  }

  lemma Steps50()
    ensures R(50) == Regs(0x7e846f58, 0x88341600, 0x3229a424, 0xa8ab53c0, 0xb1ba8907)
  {
    hide W, R;
    Steps40();
    Words32();
    Words48();
    Stepped(40, 0x8ac87842, Regs(0xadeb7478, 0x24957f22, 0x50fe1eba, 0x564cff26, 0xaadf0cbb));
    Stepped(41, 0x289addf4, Regs(0xd70e5010, 0xadeb7478, 0x89255fc8, 0x50fe1eba, 0x564cff26));
    Stepped(42, 0x56d51f21, Regs(0x79bcfb08, 0xd70e5010, 0x2b7add1e, 0x89255fc8, 0x50fe1eba));
    Stepped(43, 0xd96b7fd2, Regs(0xf9bcb8de, 0x79bcfb08, 0x35c39404, 0x2b7add1e, 0x89255fc8));
    Stepped(44, 0x3868e778, Regs(0x633e9561, 0xf9bcb8de, 0x1e6f3ec2, 0x35c39404, 0x2b7add1e));
    Stepped(45, 0xab5e4848, Regs(0x98c1ea64, 0x633e9561, 0xbe6f2e37, 0x1e6f3ec2, 0x35c39404));
    Stepped(46, 0x7f0e2118, Regs(0xc6ea241e, 0x98c1ea64, 0x58cfa558, 0xbe6f2e37, 0x1e6f3ec2));
    Stepped(47, 0xde87a111, Regs(0xa2ad4f02, 0xc6ea241e, 0x26307a99, 0x58cfa558, 0xbe6f2e37));
    Stepped(48, 0xe8be56b0, Regs(0xc8a69090, 0xa2ad4f02, 0xb1ba8907, 0x26307a99, 0x58cfa558));
    Stepped(49, 0x1a0ae652, Regs(0x88341600, 0xc8a69090, 0xa8ab53c0, 0xb1ba8907, 0x26307a99));
  }

  lemma Steps60()
    ensures R(60) == Regs(0x9ef775c3, 0xf03d3782, 0xeb029e53, 0xe9a06dc8, 0x1ddb0e44)
  {
    hide W, R;
    Steps50();
    Words48();
    Stepped(50, 0xcd5611c8, Regs(0x7e846f58, 0x88341600, 0x3229a424, 0xa8ab53c0, 0xb1ba8907));
    Stepped(51, 0x46ef29dc, Regs(0x86e358ba, 0x7e846f58, 0x220d0580, 0x3229a424, 0xa8ab53c0));
    Stepped(52, 0x60d3da6d, Regs(0x8d2e76c8, 0x86e358ba, 0x1fa11bd6, 0x220d0580, 0x3229a424));
    Stepped(53, 0xddf3ba6e, Regs(0xce892e10, 0x8d2e76c8, 0xa1b8d62e, 0x1fa11bd6, 0x220d0580));
    Stepped(54, 0x2737f5e9, Regs(0xedea95b1, 0xce892e10, 0x234b9db2, 0xa1b8d62e, 0x1fa11bd6));
    Stepped(55, 0x4888a710, Regs(0x36d1230a, 0xedea95b1, 0x33a24b84, 0x234b9db2, 0xa1b8d62e));
    Stepped(56, 0xd2a1177b, Regs(0x776c3910, 0x36d1230a, 0x7b7aa56c, 0x33a24b84, 0x234b9db2));
    Stepped(57, 0x9999633b, Regs(0xa681b723, 0x776c3910, 0x8db448c2, 0x7b7aa56c, 0x33a24b84));
    Stepped(58, 0xd6c69d03, Regs(0xac0a794f, 0xa681b723, 0x1ddb0e44, 0x8db448c2, 0x7b7aa56c));
    Stepped(59, 0xccf6127b, Regs(0xf03d3782, 0xac0a794f, 0xe9a06dc8, 0x1ddb0e44, 0x8db448c2));
  }

  lemma Steps70()
    ensures R(70) == Regs(0xfdf6efff, 0x2c7b07bd, 0x5b45f27f, 0x452a0b6a, 0x440df4b5)
  {
    hide W, R;
    Steps60();
    Words48();
    Words64();
    Stepped(60, 0x7c58fe6d, Regs(0x9ef775c3, 0xf03d3782, 0xeb029e53, 0xe9a06dc8, 0x1ddb0e44));
    Stepped(61, 0xfdd99c68, Regs(0x36254b13, 0x9ef775c3, 0xbc0f4de0, 0xeb029e53, 0xe9a06dc8));
    Stepped(62, 0xf8e32074, Regs(0x4080d4dc, 0x36254b13, 0xe7bddd70, 0xbc0f4de0, 0xeb029e53));
    Stepped(63, 0xe0ba3c7d, Regs(0x2bfaf7a8, 0x4080d4dc, 0xcd8952c4, 0xe7bddd70, 0xbc0f4de0));
    Stepped(64, 0x152198d6, Regs(0x513f9ca0, 0x2bfaf7a8, 0x10203537, 0xcd8952c4, 0xe7bddd70));
    Stepped(65, 0x7b3f1982, Regs(0xe5895c81, 0x513f9ca0, 0x0afebdea, 0x10203537, 0xcd8952c4));
    Stepped(66, 0x37f2d5b7, Regs(0x1037d2d5, 0xe5895c81, 0x144fe728, 0x0afebdea, 0x10203537));
    Stepped(67, 0x8596323e, Regs(0x14a82da9, 0x1037d2d5, 0x79625720, 0x144fe728, 0x0afebdea));
    Stepped(68, 0x810790d6, Regs(0x6d17c9fd, 0x14a82da9, 0x440df4b5, 0x79625720, 0x144fe728));
    Stepped(69, 0xbea0a942, Regs(0x2c7b07bd, 0x6d17c9fd, 0x452a0b6a, 0x440df4b5, 0x79625720));
  }

  lemma Steps80()
    ensures R(80) == Regs(0x8ce34517, 0xd3ad7c25, 0x6b4e1883, 0x74351cd2, 0x86838382)
  {
    hide W, R;
    Steps70();
    Words64();
    Stepped(70, 0x11c7e1b1, Regs(0xfdf6efff, 0x2c7b07bd, 0x5b45f27f, 0x452a0b6a, 0x440df4b5));
    Stepped(71, 0x6158d101, Regs(0x112b96e3, 0xfdf6efff, 0x4b1ec1ef, 0x5b45f27f, 0x452a0b6a));
    Stepped(72, 0x5fcd77d9, Regs(0x84065712, 0x112b96e3, 0xff7dbbff, 0x4b1ec1ef, 0x5b45f27f));
    Stepped(73, 0x7f2f12e6, Regs(0xab89fb71, 0x84065712, 0xc44ae5b8, 0xff7dbbff, 0x4b1ec1ef));
    Stepped(74, 0xf868cfb1, Regs(0xc5210e35, 0xab89fb71, 0xa10195c4, 0xc44ae5b8, 0xff7dbbff));
    Stepped(75, 0xd6e997e9, Regs(0x352d9f4b, 0xc5210e35, 0x6ae27edc, 0xa10195c4, 0xc44ae5b8));
    Stepped(76, 0xf526b852, Regs(0x1a0e0e0a, 0x352d9f4b, 0x7148438d, 0x6ae27edc, 0xa10195c4));
    Stepped(77, 0xb7578dcc, Regs(0xd0d47349, 0x1a0e0e0a, 0xcd4b67d2, 0x7148438d, 0x6ae27edc));
    Stepped(78, 0x55d99df4, Regs(0xad38620d, 0xd0d47349, 0x86838382, 0xcd4b67d2, 0x7148438d));
    Stepped(79, 0x1ff69958, Regs(0xd3ad7c25, 0xad38620d, 0x74351cd2, 0x86838382, 0xcd4b67d2));
  }

  const MIDDLE := Regs(0xf4286818, 0xc37b27ae, 0x0408f581, 0x84677148, 0x4a566572)

  lemma Compressed()
    ensures Compress(IV, BLOCK) == MIDDLE
  {
    hide Steps, BLOCK;
    Steps80();
  }
}

/** Its second block, from the value the first has left. */
module Sha1Longer {
  import opened Bytes
  import opened Sha1Spec
  import opened Sha1Worked
  import Sha1Long
  import Sha1

  const DIGEST: seq<byte> := [
    0x84, 0x98, 0x3e, 0x44, 0x1c, 0x3b, 0xd2, 0x6e, 0xba, 0xae,
    0x4a, 0xa1, 0xf9, 0x51, 0x29, 0xe5, 0xe5, 0x46, 0x70, 0xf1]

  const BLOCK: Block := Zeros(56) + [0, 0, 0, 0, 0, 0, 1, 0xc0]

  lemma Padded()
    ensures Sha1Long.Message() + Padding(56) == Sha1Long.BLOCK + BLOCK
  {
    assert LengthField(56) == [0, 0, 0, 0, 0, 0, 1, 0xc0];
    assert Zeros(63) == Zeros(7) + Zeros(56);
  }

  function W(t: nat): word { Schedule(BLOCK, t) }

  function R(t: nat): Regs { Steps(BLOCK, Sha1Long.MIDDLE, t) }

  lemma Mixed(t: nat, x: word, y: word, z: word, v: word)
    requires t >= 16 && W(t - 3) == x && W(t - 8) == y && W(t - 14) == z && W(t - 16) == v
    ensures W(t) == Rotl(Xor4(x, y, z, v), 1)
  {
    hide BigEndian, Rotl, Xor4;
  }

  lemma Stepped(t: nat, w: word, r: Regs)
    requires W(t) == w && R(t) == r
    ensures R(t + 1) == Next(t, w, r)
  {
    hide Schedule, Temp, F, K, Rotl;
  }

  lemma Steps0()
    ensures R(0) == Sha1Long.MIDDLE
  {}

  lemma WordOf(t: nat)
    requires t < 16
    ensures W(t) == BigEndian(BLOCK, 4 * t)
  {}

  lemma LastFour()
    ensures BLOCK[60..64] == [0, 0, 1, 0xc0]
  {}

  lemma LastWord()
    ensures W(15) == 0x000001c0
  {
    hide *;
    WordOf(15);
    LastFour();
    BytesOfWord(BLOCK, 60, 0, 0, 1, 0xc0);
  }

  lemma Words0()
    ensures W(15) == 0x000001c0 && forall t :: 0 <= t < 15 ==> W(t) == 0
  {
    hide W;
    LastWord();
    forall t | 0 <= t < 15 ensures W(t) == 0 {
      WordOf(t);
      assert BLOCK[4 * t] == BLOCK[4 * t + 1] == BLOCK[4 * t + 2] == BLOCK[4 * t + 3] == 0;
    }
  }

  lemma Words16()
    ensures W(16) == 0x00000000 && W(17) == 0x00000000 && W(18) == 0x00000380 && W(19) == 0x00000000
      && W(20) == 0x00000000 && W(21) == 0x00000700 && W(22) == 0x00000000 && W(23) == 0x00000380
      && W(24) == 0x00000e00 && W(25) == 0x00000000 && W(26) == 0x00000000 && W(27) == 0x00001c00
      && W(28) == 0x00000000 && W(29) == 0x00000d80 && W(30) == 0x00003800 && W(31) == 0x00000480
  {
    hide W;
    Words0();
    Mixed(16, 0x00000000, 0x00000000, 0x00000000, 0x00000000);
    Mixed(17, 0x00000000, 0x00000000, 0x00000000, 0x00000000);
    Mixed(18, 0x000001c0, 0x00000000, 0x00000000, 0x00000000);
    Mixed(19, 0x00000000, 0x00000000, 0x00000000, 0x00000000);
    Mixed(20, 0x00000000, 0x00000000, 0x00000000, 0x00000000);
    Mixed(21, 0x00000380, 0x00000000, 0x00000000, 0x00000000);
    Mixed(22, 0x00000000, 0x00000000, 0x00000000, 0x00000000);
    Mixed(23, 0x00000000, 0x000001c0, 0x00000000, 0x00000000);
    Mixed(24, 0x00000700, 0x00000000, 0x00000000, 0x00000000);
    Mixed(25, 0x00000000, 0x00000000, 0x00000000, 0x00000000);
    Mixed(26, 0x00000380, 0x00000380, 0x00000000, 0x00000000);
    Mixed(27, 0x00000e00, 0x00000000, 0x00000000, 0x00000000);
    Mixed(28, 0x00000000, 0x00000000, 0x00000000, 0x00000000);
    Mixed(29, 0x00000000, 0x00000700, 0x000001c0, 0x00000000);
    Mixed(30, 0x00001c00, 0x00000000, 0x00000000, 0x00000000);
    Mixed(31, 0x00000000, 0x00000380, 0x00000000, 0x000001c0);
  }

  lemma Words32()
    ensures W(32) == 0x00000000 && W(33) == 0x00007000 && W(34) == 0x00000e00 && W(35) == 0x00003600
      && W(36) == 0x0000e000 && W(37) == 0x00000e00 && W(38) == 0x00000000 && W(39) == 0x0001ce00
      && W(40) == 0x00000000 && W(41) == 0x0000d800 && W(42) == 0x00038000 && W(43) == 0x00004f00
      && W(44) == 0x00000000 && W(45) == 0x00070e00 && W(46) == 0x0000ee00 && W(47) == 0x00037500
  {
    hide W;
    Words16();
    Mixed(32, 0x00000d80, 0x00000e00, 0x00000380, 0x00000000);
    Mixed(33, 0x00003800, 0x00000000, 0x00000000, 0x00000000);
    Mixed(34, 0x00000480, 0x00000000, 0x00000000, 0x00000380);
    Mixed(35, 0x00000000, 0x00001c00, 0x00000700, 0x00000000);
    Mixed(36, 0x00007000, 0x00000000, 0x00000000, 0x00000000);
    Mixed(37, 0x00000e00, 0x00000d80, 0x00000380, 0x00000700);
    Mixed(38, 0x00003600, 0x00003800, 0x00000e00, 0x00000000);
    Mixed(39, 0x0000e000, 0x00000480, 0x00000000, 0x00000380);
    Mixed(40, 0x00000e00, 0x00000000, 0x00000000, 0x00000e00);
    Mixed(41, 0x00000000, 0x00007000, 0x00001c00, 0x00000000);
    Mixed(42, 0x0001ce00, 0x00000e00, 0x00000000, 0x00000000);
    Mixed(43, 0x00000000, 0x00003600, 0x00000d80, 0x00001c00);
    Mixed(44, 0x0000d800, 0x0000e000, 0x00003800, 0x00000000);
    Mixed(45, 0x00038000, 0x00000e00, 0x00000480, 0x00000d80);
    Mixed(46, 0x00004f00, 0x00000000, 0x00000000, 0x00003800);
    Mixed(47, 0x00000000, 0x0001ce00, 0x00007000, 0x00000480);
  }

  lemma Words48()
    ensures W(48) == 0x000e0000 && W(49) == 0x0000e000 && W(50) == 0x00003600 && W(51) == 0x001cee00
      && W(52) == 0x00000000 && W(53) == 0x000df000 && W(54) == 0x00380000 && W(55) == 0x0004c600
      && W(56) == 0x0000e000 && W(57) == 0x0070ee00 && W(58) == 0x000ee000 && W(59) == 0x00369e00
      && W(60) == 0x00e00000 && W(61) == 0x000ed600 && W(62) == 0x0000e000 && W(63) == 0x01cea600
  {
    hide W;
    Words32();
    Mixed(48, 0x00070e00, 0x00000000, 0x00000e00, 0x00000000);
    Mixed(49, 0x0000ee00, 0x0000d800, 0x00003600, 0x00007000);
    Mixed(50, 0x00037500, 0x00038000, 0x0000e000, 0x00000e00);
    Mixed(51, 0x000e0000, 0x00004f00, 0x00000e00, 0x00003600);
    Mixed(52, 0x0000e000, 0x00000000, 0x00000000, 0x0000e000);
    Mixed(53, 0x00003600, 0x00070e00, 0x0001ce00, 0x00000e00);
    Mixed(54, 0x001cee00, 0x0000ee00, 0x00000000, 0x00000000);
    Mixed(55, 0x00000000, 0x00037500, 0x0000d800, 0x0001ce00);
    Mixed(56, 0x000df000, 0x000e0000, 0x00038000, 0x00000000);
    Mixed(57, 0x00380000, 0x0000e000, 0x00004f00, 0x0000d800);
    Mixed(58, 0x0004c600, 0x00003600, 0x00000000, 0x00038000);
    Mixed(59, 0x0000e000, 0x001cee00, 0x00070e00, 0x00004f00);
    Mixed(60, 0x0070ee00, 0x00000000, 0x0000ee00, 0x00000000);
    Mixed(61, 0x000ee000, 0x000df000, 0x00037500, 0x00070e00);
    Mixed(62, 0x00369e00, 0x00380000, 0x000e0000, 0x0000ee00);
    Mixed(63, 0x00e00000, 0x0004c600, 0x0000e000, 0x00037500);
  }

  lemma Words64()
    ensures W(64) == 0x00000000 && W(65) == 0x00d80000 && W(66) == 0x0380e000 && W(67) == 0x004f0000
      && W(68) == 0x00000000 && W(69) == 0x070e0000 && W(70) == 0x00ee0000 && W(71) == 0x03751c00
      && W(72) == 0x0e000000 && W(73) == 0x00e0e000 && W(74) == 0x00363800 && W(75) == 0x1cee9000
      && W(76) == 0x00000000 && W(77) == 0x0df09000 && W(78) == 0x3800e000 && W(79) == 0x04c77400
  {
    hide W;
    Words48();
    Mixed(64, 0x000ed600, 0x0000e000, 0x00003600, 0x000e0000);
    Mixed(65, 0x0000e000, 0x0070ee00, 0x001cee00, 0x0000e000);
    Mixed(66, 0x01cea600, 0x000ee000, 0x00000000, 0x00003600);
    Mixed(67, 0x00000000, 0x00369e00, 0x000df000, 0x001cee00);
    Mixed(68, 0x00d80000, 0x00e00000, 0x00380000, 0x00000000);
    Mixed(69, 0x0380e000, 0x000ed600, 0x0004c600, 0x000df000);
    Mixed(70, 0x004f0000, 0x0000e000, 0x0000e000, 0x00380000);
    Mixed(71, 0x00000000, 0x01cea600, 0x0070ee00, 0x0004c600);
    Mixed(72, 0x070e0000, 0x00000000, 0x000ee000, 0x0000e000);
    Mixed(73, 0x00ee0000, 0x00d80000, 0x00369e00, 0x0070ee00);
    Mixed(74, 0x03751c00, 0x0380e000, 0x00e00000, 0x000ee000);
    Mixed(75, 0x0e000000, 0x004f0000, 0x000ed600, 0x00369e00);
    Mixed(76, 0x00e0e000, 0x00000000, 0x0000e000, 0x00e00000);
    Mixed(77, 0x00363800, 0x070e0000, 0x01cea600, 0x000ed600);
    Mixed(78, 0x1cee9000, 0x00ee0000, 0x00000000, 0x0000e000);
    Mixed(79, 0x00000000, 0x03751c00, 0x00d80000, 0x01cea600);
  }

  lemma Steps10()
    ensures R(10) == Regs(0xb8538aca, 0xfdde1de1, 0xf1a51a04, 0xf9fe80dd, 0x1510e457)
  {
    hide W, R;
    Steps0();
    Words0();
    Stepped(0, 0x00000000, Regs(0xf4286818, 0xc37b27ae, 0x0408f581, 0x84677148, 0x4a566572));
    Stepped(1, 0x00000000, Regs(0x2df257e9, 0xf4286818, 0xb0dec9eb, 0x0408f581, 0x84677148));
    Stepped(2, 0x00000000, Regs(0x4d3dc58f, 0x2df257e9, 0x3d0a1a06, 0xb0dec9eb, 0x0408f581));
    Stepped(3, 0x00000000, Regs(0xc352bb05, 0x4d3dc58f, 0x4b7c95fa, 0x3d0a1a06, 0xb0dec9eb));
    Stepped(4, 0x00000000, Regs(0xeef743c6, 0xc352bb05, 0xd34f7163, 0x4b7c95fa, 0x3d0a1a06));
    Stepped(5, 0x00000000, Regs(0x41e34277, 0xeef743c6, 0x70d4aec1, 0xd34f7163, 0x4b7c95fa));
    Stepped(6, 0x00000000, Regs(0x5443915c, 0x41e34277, 0xbbbdd0f1, 0x70d4aec1, 0xd34f7163));
    Stepped(7, 0x00000000, Regs(0xe7fa0377, 0x5443915c, 0xd078d09d, 0xbbbdd0f1, 0x70d4aec1));
    Stepped(8, 0x00000000, Regs(0xc6946813, 0xe7fa0377, 0x1510e457, 0xd078d09d, 0xbbbdd0f1));
    Stepped(9, 0x00000000, Regs(0xfdde1de1, 0xc6946813, 0xf9fe80dd, 0x1510e457, 0xd078d09d));
  }

  lemma Steps20()
    ensures R(20) == Regs(0xd8992153, 0xc2eb709f, 0x2946d62f, 0x9541f6db, 0x365dc8d8)
  {
    hide W, R;
    Steps10();
    Words0();
    Words16();
    Stepped(10, 0x00000000, Regs(0xb8538aca, 0xfdde1de1, 0xf1a51a04, 0xf9fe80dd, 0x1510e457));
    Stepped(11, 0x00000000, Regs(0x6ba94f63, 0xb8538aca, 0x7f778778, 0xf1a51a04, 0xf9fe80dd));
    Stepped(12, 0x00000000, Regs(0x43a2792f, 0x6ba94f63, 0xae14e2b2, 0x7f778778, 0xf1a51a04));
    Stepped(13, 0x00000000, Regs(0xfecd7bbf, 0x43a2792f, 0xdaea53d8, 0xae14e2b2, 0x7f778778));
    Stepped(14, 0x00000000, Regs(0xa2604ca8, 0xfecd7bbf, 0xd0e89e4b, 0xdaea53d8, 0xae14e2b2));
    Stepped(15, 0x000001c0, Regs(0x258b0baa, 0xa2604ca8, 0xffb35eef, 0xd0e89e4b, 0xdaea53d8));
    Stepped(16, 0x00000000, Regs(0xd9772360, 0x258b0baa, 0x2898132a, 0xffb35eef, 0xd0e89e4b));
    Stepped(17, 0x00000000, Regs(0x5507db6e, 0xd9772360, 0x8962c2ea, 0x2898132a, 0xffb35eef));
    Stepped(18, 0x00000380, Regs(0xa51b58bc, 0x5507db6e, 0x365dc8d8, 0x8962c2ea, 0x2898132a));
    Stepped(19, 0x00000000, Regs(0xc2eb709f, 0xa51b58bc, 0x9541f6db, 0x365dc8d8, 0x8962c2ea));
  }

  lemma Steps30()
    ensures R(30) == Regs(0x0a2fb108, 0x2429be5f, 0xd7105b6b, 0x142f390d, 0x7bb14148)
  {
    hide W, R;
    Steps20();
    Words16();
    Stepped(20, 0x00000000, Regs(0xd8992153, 0xc2eb709f, 0x2946d62f, 0x9541f6db, 0x365dc8d8));
    Stepped(21, 0x00000700, Regs(0x37482f5f, 0xd8992153, 0xf0badc27, 0x2946d62f, 0x9541f6db));
    Stepped(22, 0x00000000, Regs(0xee8700bd, 0x37482f5f, 0xf6264854, 0xf0badc27, 0x2946d62f));
    Stepped(23, 0x00000380, Regs(0x9ad594b9, 0xee8700bd, 0xcdd20bd7, 0xf6264854, 0xf0badc27));
    Stepped(24, 0x00000e00, Regs(0x8fbaa5b9, 0x9ad594b9, 0x7ba1c02f, 0xcdd20bd7, 0xf6264854));
    Stepped(25, 0x00000000, Regs(0x88fb5867, 0x8fbaa5b9, 0x66b5652e, 0x7ba1c02f, 0xcdd20bd7));
    Stepped(26, 0x00000000, Regs(0xeec50521, 0x88fb5867, 0x63eea96e, 0x66b5652e, 0x7ba1c02f));
    Stepped(27, 0x00001c00, Regs(0x50bce434, 0xeec50521, 0xe23ed619, 0x63eea96e, 0x66b5652e));
    Stepped(28, 0x00000000, Regs(0x5c416daf, 0x50bce434, 0x7bb14148, 0xe23ed619, 0x63eea96e));
    Stepped(29, 0x00000d80, Regs(0x2429be5f, 0x5c416daf, 0x142f390d, 0x7bb14148, 0xe23ed619));
  }

  lemma Steps40()
    ensures R(40) == Regs(0x03bb6310, 0x84e2a5f2, 0x21f56e03, 0xb3bd6b84, 0x1a5b6901)
  {
    hide W, R;
    Steps30();
    Words16();
    Words32();
    Stepped(30, 0x00003800, Regs(0x0a2fb108, 0x2429be5f, 0xd7105b6b, 0x142f390d, 0x7bb14148));
    Stepped(31, 0x00000480, Regs(0x17986223, 0x0a2fb108, 0xc90a6f97, 0xd7105b6b, 0x142f390d));
    Stepped(32, 0x00000000, Regs(0x8a4af384, 0x17986223, 0x028bec42, 0xc90a6f97, 0xd7105b6b));
    Stepped(33, 0x00007000, Regs(0x6b629993, 0x8a4af384, 0xc5e61888, 0x028bec42, 0xc90a6f97));
    Stepped(34, 0x00000e00, Regs(0xf15f04f3, 0x6b629993, 0x2292bce1, 0xc5e61888, 0x028bec42));
    Stepped(35, 0x00003600, Regs(0x295cc25b, 0xf15f04f3, 0xdad8a664, 0x2292bce1, 0xc5e61888));
    Stepped(36, 0x0000e000, Regs(0x696da404, 0x295cc25b, 0xfc57c13c, 0xdad8a664, 0x2292bce1));
    Stepped(37, 0x00000e00, Regs(0xcef5ae12, 0x696da404, 0xca573096, 0xfc57c13c, 0xdad8a664));
    Stepped(38, 0x00000000, Regs(0x87d5b80c, 0xcef5ae12, 0x1a5b6901, 0xca573096, 0xfc57c13c));
    Stepped(39, 0x0001ce00, Regs(0x84e2a5f2, 0x87d5b80c, 0xb3bd6b84, 0x1a5b6901, 0xca573096));
  }

  lemma Steps50()
    ensures R(50) == Regs(0x850d411c, 0xdc8e7f26, 0x11be4eda, 0x9cc5815a, 0xb0f40cfa)
  {
    hide W, R;
    Steps40();
    Words32();
    Words48();
    Stepped(40, 0x00000000, Regs(0x03bb6310, 0x84e2a5f2, 0x21f56e03, 0xb3bd6b84, 0x1a5b6901));
    Stepped(41, 0x0000d800, Regs(0xc2d8f75f, 0x03bb6310, 0xa138a97c, 0x21f56e03, 0xb3bd6b84));
    Stepped(42, 0x00038000, Regs(0xbfb25768, 0xc2d8f75f, 0x00eed8c4, 0xa138a97c, 0x21f56e03));
    Stepped(43, 0x00004f00, Regs(0x28589152, 0xbfb25768, 0xf0b63dd7, 0x00eed8c4, 0xa138a97c));
    Stepped(44, 0x00000000, Regs(0xec1d3d61, 0x28589152, 0x2fec95da, 0xf0b63dd7, 0x00eed8c4));
    Stepped(45, 0x00070e00, Regs(0x3caed7af, 0xec1d3d61, 0x8a162454, 0x2fec95da, 0xf0b63dd7));
    Stepped(46, 0x0000ee00, Regs(0xc3d033ea, 0x3caed7af, 0x7b074f58, 0x8a162454, 0x2fec95da));
    Stepped(47, 0x00037500, Regs(0x7316056a, 0xc3d033ea, 0xcf2bb5eb, 0x7b074f58, 0x8a162454));
    Stepped(48, 0x000e0000, Regs(0x46f93b68, 0x7316056a, 0xb0f40cfa, 0xcf2bb5eb, 0x7b074f58));
    Stepped(49, 0x0000e000, Regs(0xdc8e7f26, 0x46f93b68, 0x9cc5815a, 0xb0f40cfa, 0xcf2bb5eb));
  }

  lemma Steps60()
    ensures R(60) == Regs(0xa65818f7, 0x5b086c42, 0xb9e15956, 0xea1256a6, 0xdb69cb9f)
  {
    hide W, R;
    Steps50();
    Words48();
    Stepped(50, 0x00003600, Regs(0x850d411c, 0xdc8e7f26, 0x11be4eda, 0x9cc5815a, 0xb0f40cfa));
    Stepped(51, 0x001cee00, Regs(0x7e4672c0, 0x850d411c, 0xb7239fc9, 0x11be4eda, 0x9cc5815a));
    Stepped(52, 0x00000000, Regs(0x89fbd41d, 0x7e4672c0, 0x21435047, 0xb7239fc9, 0x11be4eda));
    Stepped(53, 0x000df000, Regs(0x1797e228, 0x89fbd41d, 0x1f919cb0, 0x21435047, 0xb7239fc9));
    Stepped(54, 0x00380000, Regs(0x431d65bc, 0x1797e228, 0x627ef507, 0x1f919cb0, 0x21435047));
    Stepped(55, 0x0004c600, Regs(0x2bdbb8cb, 0x431d65bc, 0x05e5f88a, 0x627ef507, 0x1f919cb0));
    Stepped(56, 0x0000e000, Regs(0x6da72e7f, 0x2bdbb8cb, 0x10c7596f, 0x05e5f88a, 0x627ef507));
    Stepped(57, 0x0070ee00, Regs(0xa8495a9b, 0x6da72e7f, 0xcaf6ee32, 0x10c7596f, 0x05e5f88a));
    Stepped(58, 0x000ee000, Regs(0xe785655a, 0xa8495a9b, 0xdb69cb9f, 0xcaf6ee32, 0x10c7596f));
    Stepped(59, 0x00369e00, Regs(0x5b086c42, 0xe785655a, 0xea1256a6, 0xdb69cb9f, 0xcaf6ee32));
  }

  lemma Steps70()
    ensures R(70) == Regs(0x989dd165, 0x76c0563b, 0xfd889aef, 0xc20fa430, 0x62da1e06)
  {
    hide W, R;
    Steps60();
    Words48();
    Words64();
    Stepped(60, 0x00e00000, Regs(0xa65818f7, 0x5b086c42, 0xb9e15956, 0xea1256a6, 0xdb69cb9f));
    Stepped(61, 0x000ed600, Regs(0x7aab101b, 0xa65818f7, 0x96c21b10, 0xb9e15956, 0xea1256a6));
    Stepped(62, 0x0000e000, Regs(0x93614c9c, 0x7aab101b, 0xe996063d, 0x96c21b10, 0xb9e15956));
    Stepped(63, 0x01cea600, Regs(0xf66d9bf4, 0x93614c9c, 0xdeaac406, 0xe996063d, 0x96c21b10));
    Stepped(64, 0x00000000, Regs(0xd504902b, 0xf66d9bf4, 0x24d85327, 0xdeaac406, 0xe996063d));
    Stepped(65, 0x00d80000, Regs(0x60a9da62, 0xd504902b, 0x3d9b66fd, 0x24d85327, 0xdeaac406));
    Stepped(66, 0x0380e000, Regs(0x8b687819, 0x60a9da62, 0xf541240a, 0x3d9b66fd, 0x24d85327));
    Stepped(67, 0x004f0000, Regs(0x083e90c3, 0x8b687819, 0x982a7698, 0xf541240a, 0x3d9b66fd));
    Stepped(68, 0x00000000, Regs(0xf6226bbf, 0x083e90c3, 0x62da1e06, 0x982a7698, 0xf541240a));
    Stepped(69, 0x070e0000, Regs(0x76c0563b, 0xf6226bbf, 0xc20fa430, 0x62da1e06, 0x982a7698));
  }

  lemma Steps80()
    ensures R(80) == Regs(0x906fd62c, 0x58c0aac0, 0xb6a55520, 0x74e9b89d, 0x9af00b7f)
  {
    hide W, R;
    Steps70();
    Words64();
    Stepped(70, 0x00ee0000, Regs(0x989dd165, 0x76c0563b, 0xfd889aef, 0xc20fa430, 0x62da1e06));
    Stepped(71, 0x03751c00, Regs(0x8b2c7573, 0x989dd165, 0xddb0158e, 0xfd889aef, 0xc20fa430));
    Stepped(72, 0x0e000000, Regs(0xae1b8e7b, 0x8b2c7573, 0x66277459, 0xddb0158e, 0xfd889aef));
    Stepped(73, 0x00e0e000, Regs(0xca1840de, 0xae1b8e7b, 0xe2cb1d5c, 0x66277459, 0xddb0158e));
    Stepped(74, 0x00363800, Regs(0x16f3babb, 0xca1840de, 0xeb86e39e, 0xe2cb1d5c, 0x66277459));
    Stepped(75, 0x1cee9000, Regs(0xd28d83ad, 0x16f3babb, 0xb2861037, 0xeb86e39e, 0xe2cb1d5c));
    Stepped(76, 0x00000000, Regs(0x6bc02dfe, 0xd28d83ad, 0xc5bceeae, 0xb2861037, 0xeb86e39e));
    Stepped(77, 0x0df09000, Regs(0xd3a6e275, 0x6bc02dfe, 0x74a360eb, 0xc5bceeae, 0xb2861037));
    Stepped(78, 0x3800e000, Regs(0xda955482, 0xd3a6e275, 0x9af00b7f, 0x74a360eb, 0xc5bceeae));
    Stepped(79, 0x04c77400, Regs(0x58c0aac0, 0xda955482, 0x74e9b89d, 0x9af00b7f, 0x74a360eb));
  }

  lemma Compressed()
    ensures Compress(Sha1Long.MIDDLE, BLOCK) == Regs(0x84983e44, 0x1c3bd26e, 0xbaae4aa1, 0xf95129e5, 0xe54670f1)
  {
    hide Steps, BLOCK;
    Steps80();
  }

  /** SHA-1 of the example. */
  lemma Digest()
    ensures Hash(Sha1Long.Message()) == DIGEST
  {
    hide Compress, Sha1Long.MIDDLE, BLOCK, Sha1Long.BLOCK;
    Padded();
    assert BLOCK + [] == BLOCK;
    OneBlock(IV, Sha1Long.BLOCK, BLOCK);
    OneBlock(Sha1Long.MIDDLE, BLOCK, []);
    Sha1Long.Compressed();
    Compressed();
  }
}
