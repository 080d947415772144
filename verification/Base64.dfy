/**
 * The encoding of section 4 of RFC 4648, with lines of 72 characters: the reference that
 * plugins/auth/base64.c is proved against.
 */
module Base64Spec {
  import opened Bytes

  const LF: byte := 10
  const PAD: byte := 61        // '='
  const NONE: byte := 0x80     // what the decoding table holds for a character to skip
  const LINE: nat := 72

  /** The alphabet: A-Z, a-z, 0-9, '+', '/'. */
  function Char(v: nat): byte
    requires v < 64
  {
    if v < 26 then 65 + v else if v < 52 then 71 + v else if v < 62 then v - 4
    else if v == 62 then 43 else 47
  }

  /** The four characters of a 24-bit group. */
  function Group(b0: byte, b1: byte, b2: byte): (g: seq<byte>)
    ensures |g| == 4
  {
    var n: int := 0x1_0000 * b0 + 0x100 * b1 + b2;
    [Char(n / 0x4_0000), Char(n / 0x1000 % 64), Char(n / 64 % 64), Char(n % 64)]
  }

  /** The unbroken encoding: a short last group is filled with zero bits and marked with '='. */
  function Text(x: seq<byte>): seq<byte> {
    if |x| == 0 then []
    else if |x| == 1 then Group(x[0], 0, 0)[..2] + [PAD, PAD]
    else if |x| == 2 then Group(x[0], x[1], 0)[..3] + [PAD]
    else Group(x[0], x[1], x[2]) + Text(x[3..])
  }

  /** A line feed after every full line. */
  function Lines(s: seq<byte>): seq<byte>
    decreases |s|
  {
    if |s| < LINE then s else s[..LINE] + [LF] + Lines(s[LINE..])
  }

  /** A line feed after every line, the last one included. */
  function Encoded(x: seq<byte>): seq<byte> {
    Lines(Text(x)) + if |Text(x)| % LINE != 0 then [LF] else []
  }

  /** The place of a character in the alphabet; '=' counts as zero, the rest are skipped. */
  function Value(c: byte): byte {
    if 65 <= c <= 90 then c - 65 else if 97 <= c <= 122 then c - 71
    else if 48 <= c <= 57 then c + 4 else if c == 43 then 62 else if c == 47 then 63
    else if c == PAD then 0 else NONE
  }

  /** The characters that carry data or padding. */
  function Significant(s: seq<byte>): seq<byte> {
    if s == [] then []
    else (if Value(s[0]) != NONE then [s[0]] else []) + Significant(s[1..])
  }

  function Triple(v0: byte, v1: byte, v2: byte, v3: byte): (t: seq<byte>)
    requires v0 < 64 && v1 < 64 && v2 < 64 && v3 < 64
    ensures |t| == 3
  {
    var n: int := 0x4_0000 * v0 + 0x1000 * v1 + 64 * v2 + v3;
    [n / 0x1_0000, n / 0x100 % 256, n % 256]
  }

  function Pads(q: seq<byte>): nat {
    if q == [] then 0 else (if q[0] == PAD then 1 else 0) + Pads(q[1..])
  }

  /** Groups of four characters, up to and including the first one with padding. */
  function Groups(s: seq<byte>): Option<seq<byte>>
    requires |s| % 4 == 0 && forall c :: c in s ==> Value(c) != NONE
  {
    if s == [] then Some([]) else
      var t := Triple(Value(s[0]), Value(s[1]), Value(s[2]), Value(s[3]));
      var pads := Pads(s[..4]);
      if pads == 0 then
        var rest := Groups(s[4..]);
        if rest.Some? then Some(t + rest.value) else None
      else if pads == 1 then Some(t[..2])
      else if pads == 2 then Some(t[..1])
      else None
  }

  lemma SignificantValues(s: seq<byte>)
    ensures forall c :: c in Significant(s) ==> Value(c) != NONE
  {}

  function Decoded(s: seq<byte>): Option<seq<byte>> {
    SignificantValues(s);
    var g := Significant(s);
    if |g| == 0 || |g| % 4 != 0 then None else Groups(g)
  }
}

/** plugins/auth/base64.c. */
module Base64 {
  import opened Bytes
  import opened Base64Spec

  // ----- the characters, as the code's shifts and masks compute them ------------------------

  lemma GroupByFields(b0: byte, b1: byte, b2: byte)
    ensures Group(b0, b1, b2)
         == [Char(b0 / 4), Char(b0 % 4 * 16 + b1 / 16), Char(b1 % 16 * 4 + b2 / 64), Char(b2 % 64)]
  {
    hide Char;
    Sextets(b0 / 4, b0 % 4 * 16 + b1 / 16, b1 % 16 * 4 + b2 / 64, b2 % 64);
  }

  /** The fields of a number written in base 64, and in base 256. */
  lemma Sextets(s0: nat, s1: nat, s2: nat, s3: nat)
    requires s0 < 64 && s1 < 64 && s2 < 64 && s3 < 64
    ensures var n := 0x4_0000 * s0 + 0x1000 * s1 + 64 * s2 + s3;
            n / 0x4_0000 == s0 && n / 0x1000 % 64 == s1 && n / 64 % 64 == s2 && n % 64 == s3
  {
    var n := 0x4_0000 * s0 + 0x1000 * s1 + 64 * s2 + s3;
    var t := 64 * s0 + s1;
    assert n / 0x1000 == t && t % 64 == s1;
    var u := 64 * t + s2;
    assert n / 64 == u && u % 64 == s2;
  }

  lemma Octets(b0: nat, b1: nat, b2: nat)
    requires b0 < 256 && b1 < 256 && b2 < 256
    ensures var n := 0x1_0000 * b0 + 0x100 * b1 + b2;
            n / 0x1_0000 == b0 && n / 0x100 % 256 == b1 && n % 256 == b2
  {
    var n := 0x1_0000 * b0 + 0x100 * b1 + b2;
    var t := 0x100 * b0 + b1;
    assert n / 0x100 == t && t % 256 == b1;
  }

  lemma TripleByFields(v0: byte, v1: byte, v2: byte, v3: byte)
    requires v0 < 64 && v1 < 64 && v2 < 64 && v3 < 64
    ensures Triple(v0, v1, v2, v3)
         == [v0 * 4 + v1 / 16, v1 * 16 % 256 + v2 / 4, v2 * 64 % 256 + v3]
  {
    var p, q := v1 / 16, v1 % 16;
    var r, s := v2 / 4, v2 % 4;
    assert v1 * 16 % 256 == 16 * q by { assert v1 * 16 == 256 * p + 16 * q; }
    assert v2 * 64 % 256 == 64 * s by { assert v2 * 64 == 256 * r + 64 * s; }
    Octets(v0 * 4 + p, 16 * q + r, 64 * s + v3);
  }

  lemma CharValue(v: nat)
    requires v < 64
    ensures Value(Char(v)) == v && Char(v) != PAD && Char(v) != LF
  {}

  /** The alphabet, spelt out. */
  lemma AlphabetShown(v: nat)
    requires v < 64
    ensures Char(v) as char == if v < 26 then "ABCDEFGHIJKLMNOPQRSTUVWXYZ"[v]
                               else if v < 52 then "abcdefghijklmnopqrstuvwxyz"[v - 26] else "0123456789+/"[v - 52]
  {}

  /** The decoder skips exactly the characters that are neither in the alphabet nor '='. */
  lemma OnlyAlphabet(c: byte)
    ensures Value(c) != NONE <==> c == 61 || exists v: nat :: v < 64 && Char(v) == c
  {
    if c != 61 && Value(c) != NONE {
      assert Char(Value(c) as nat) == c;
    }
  }

  /** The number of characters for `len` bytes. */
  function Chars(len: nat): nat { (len + 2) / 3 * 4 }

  /** The line feed the loop writes when a line is full. */
  function LineEnd(n: nat): seq<byte> { if n % LINE == 0 then [LF] else [] }

  // ----- growing the text one group at a time -----------------------------------------------

  lemma {:induction false} TextGrows(x: seq<byte>, y: seq<byte>)
    requires |x| % 3 == 0
    ensures Text(x + y) == Text(x) + Text(y)
  {
    if x == [] {
      assert x + y == y;
    } else {
      assert (x + y)[3..] == x[3..] + y;
      TextGrows(x[3..], y);
      var g := Group(x[0], x[1], x[2]);
      assert g + (Text(x[3..]) + Text(y)) == g + Text(x[3..]) + Text(y);
    }
  }

  lemma {:induction false} TextLength(x: seq<byte>)
    ensures |Text(x)| == Chars(|x|)
  {
    hide Group;
    if |x| >= 3 {
      TextLength(x[3..]);
      assert (|x| - 3 + 2) / 3 == (|x| + 2) / 3 - 1;
    }
  }

  lemma {:induction false} LinesGrow(s: seq<byte>, g: seq<byte>)
    requires |s| % 4 == 0 && |g| == 4
    ensures Lines(s + g) == Lines(s) + g + LineEnd(|s| + 4)
    decreases |s|
  {
    if |s| >= LINE {
      var rest := s[LINE..];
      assert (s + g)[..LINE] == s[..LINE] && (s + g)[LINE..] == rest + g;
      assert |rest| % 4 == 0;
      LinesGrow(rest, g);
      LineMod(|s|);
      hide LineEnd, Lines;
      Reassociate(s[..LINE] + [LF], Lines(rest), g, LineEnd(|s| + 4));
    } else if |s| + 4 == LINE {
      assert (s + g)[..LINE] == s + g && (s + g)[LINE..] == [];
      assert Lines([]) == [];
    } else {
      assert |s| + 4 < LINE;
    }
  }

  lemma Reassociate(a: seq<byte>, b: seq<byte>, c: seq<byte>, d: seq<byte>)
    ensures a + (b + c + d) == a + b + c + d
  {}

  lemma LineMod(n: nat)
    requires n >= LINE
    ensures LineEnd(n - LINE + 4) == LineEnd(n + 4)
  {
    assert (n - LINE + 4) % LINE == (n + 4) % LINE;
  }

  lemma {:induction false} LinesLength(s: seq<byte>)
    ensures |Lines(s)| == |s| + |s| / LINE
    decreases |s|
  {
    if |s| >= LINE {
      LinesLength(s[LINE..]);
      assert (|s| - LINE) / LINE == |s| / LINE - 1;
    }
  }

  /** A line feed is at every seventy-third place, and nothing else is moved. */
  lemma {:induction false} LineFeeds(s: seq<byte>, k: nat)
    requires k < |Lines(s)|
    ensures k % 73 == 72 ==> Lines(s)[k] == 10
    ensures k % 73 != 72 ==> k - k / 73 < |s| && Lines(s)[k] == s[k - k / 73]
    decreases |s|
  {
    if |s| >= LINE && k >= 73 {
      LineFeeds(s[LINE..], k - 73);
      assert (k - 73) % 73 == k % 73 && (k - 73) / 73 == k / 73 - 1;
    }
  }

  /** The groups of the test vectors of section 10 of RFC 4648: "foo" is "Zm9v", "bar" is "YmFy". */
  lemma VectorGroups()
    ensures Group(102, 111, 111) == [90, 109, 57, 118] && Group(98, 97, 114) == [89, 109, 70, 121]
  {}

  lemma ShortGroups()
    ensures Group(102, 0, 0)[..2] == [90, 103] && Group(102, 111, 0)[..3] == [90, 109, 56]
    ensures Group(98, 0, 0)[..2] == [89, 103] && Group(98, 97, 0)[..3] == [89, 109, 69]
  {}

  /** The vectors themselves, from "f" to "foobar". */
  lemma TestVectors()
    ensures Text([]) == [] && Text([102]) == [90, 103, 61, 61] && Text([102, 111]) == [90, 109, 56, 61]
    ensures Text([102, 111, 111]) == [90, 109, 57, 118]
    ensures Text([102, 111, 111, 98]) == [90, 109, 57, 118, 89, 103, 61, 61]
    ensures Text([102, 111, 111, 98, 97]) == [90, 109, 57, 118, 89, 109, 69, 61]
    ensures Text([102, 111, 111, 98, 97, 114]) == [90, 109, 57, 118, 89, 109, 70, 121]
  {
    hide Group;
    VectorGroups();
    ShortGroups();
    TextOfGroup([102, 111, 111]);
    TextOfGroup([98, 97, 114]);
    TextGrows([102, 111, 111], [98]);
    TextGrows([102, 111, 111], [98, 97]);
    TextGrows([102, 111, 111], [98, 97, 114]);
    assert [102, 111, 111] + [98] == [102, 111, 111, 98];
    assert [102, 111, 111] + [98, 97] == [102, 111, 111, 98, 97];
    assert [102, 111, 111] + [98, 97, 114] == [102, 111, 111, 98, 97, 114];
  }

  // ----- the allocation ---------------------------------------------------------------------

  /** The bytes the encoder asks for, with `size_t` arithmetic modulo 2^64. */
  function Allocation(len: nat): nat {
    var a := len * 4 % TWO64 / 3 + 4;
    (a + a / LINE) % TWO64 + 1
  }

  /** The bytes it writes: the text, its line feeds and the terminating NUL. */
  function Needed(len: nat): nat {
    var chars := Chars(len);
    chars + chars / LINE + (if chars % LINE != 0 then 1 else 0) + 1
  }

  /**
   * The test `olen < len` refuses exactly the lengths whose size computation wraps, and for
   * every other length the allocation holds all that is written.
   */
  lemma AllocationSound(len: nat)
    requires len < TWO64
    ensures Allocation(len) < len <==> len >= TWO62
    ensures len < TWO62 ==> Needed(len) <= Allocation(len)
  {
    if len < TWO62 {
      ExactFits(len);
    } else {
      WrappedRefused(len);
    }
  }

  lemma ExactFits(len: nat)
    requires len < TWO62
    ensures Needed(len) <= Allocation(len) && len <= Allocation(len)
  {
    var a := len * 4 / 3 + 4;
    assert Allocation(len) == a + a / LINE + 1;
    assert Chars(len) + 1 <= a;
    assert Chars(len) / LINE <= a / LINE;
  }

  lemma WrappedRefused(len: nat)
    requires TWO62 <= len < TWO64
    ensures Allocation(len) < len
  {
    var k := len * 4 / TWO64;
    var w := len * 4 % TWO64;
    assert w == len * 4 - TWO64 * k && k >= 1;
    var a := w / 3 + 4;
    assert 72 * (a + a / LINE) <= 73 * a;
    assert 3 * a <= w + 12;
    assert w < TWO64;
    assert 216 * (a + a / LINE) <= 73 * w + 876;
    assert a + a / LINE < TWO64;
  }

  // ----- encoding ---------------------------------------------------------------------------

  /** The state of the encoder after the first `i` bytes of the source, a whole number of groups. */
  ghost predicate EncodedTo(src: seq<byte>, i: nat, out: seq<byte>, lineLen: nat) {
    && i <= |src| && i % 3 == 0
    && out == Lines(Text(src[..i]))
    && lineLen == |Text(src[..i])| % LINE
  }

  lemma TextOfGroup(y: seq<byte>)
    requires |y| == 3
    ensures Text(y) == Group(y[0], y[1], y[2])
  {
    hide Group;
    assert y[3..] == [];
  }

  lemma TextNext(src: seq<byte>, i: nat)
    requires i % 3 == 0 && i + 3 <= |src|
    ensures Text(src[..i + 3]) == Text(src[..i]) + Group(src[i], src[i + 1], src[i + 2])
    ensures |Text(src[..i])| % 4 == 0
  {
    hide Text, Group;
    var x, y := src[..i], src[i..i + 3];
    assert src[..i + 3] == x + y;
    TextOfGroup(y);
    TextGrows(x, y);
    TextLength(x);
  }

  /** One turn of the main loop. */
  lemma NextGroup(src: seq<byte>, i: nat, out: seq<byte>, lineLen: nat, g: seq<byte>)
    requires EncodedTo(src, i, out, lineLen) && i + 3 <= |src|
    requires g == Group(src[i], src[i + 1], src[i + 2])
    ensures lineLen + 4 <= LINE
    ensures lineLen + 4 < LINE ==> EncodedTo(src, i + 3, out + g, lineLen + 4)
    ensures lineLen + 4 == LINE ==> EncodedTo(src, i + 3, out + g + [LF], 0)
  {
    hide Text, Lines, Group;
    var s := Text(src[..i]);
    TextNext(src, i);
    LinesGrow(s, g);
    LineStep(|s|);
    assert |s + g| == |s| + 4;
    assert out + g + [] == out + g;
  }

  lemma LineStep(n: nat)
    requires n % 4 == 0
    ensures n % LINE + 4 <= LINE
    ensures n % LINE + 4 == LINE <==> (n + 4) % LINE == 0
    ensures n % LINE + 4 < LINE ==> (n + 4) % LINE == n % LINE + 4
  {
    var q, r := n / LINE, n % LINE;
    assert n == LINE * q + r;
    assert r % 4 == 0;
  }

  /** There is room for what the encoder writes next: a group with its line feed, the NUL. */
  lemma RoomFor(src: seq<byte>, i: nat, out: seq<byte>, lineLen: nat)
    requires EncodedTo(src, i, out, lineLen) && |src| < TWO62
    ensures |out| + 1 < Allocation(|src|)
    ensures i < |src| ==> |out| + 5 < Allocation(|src|)
  {
    hide Text, Lines, Allocation;
    TextLength(src[..i]);
    LinesLength(Text(src[..i]));
    Room(i, |src|);
  }

  lemma Room(i: nat, n: nat)
    requires i % 3 == 0 && i <= n < TWO62
    ensures Chars(i) + Chars(i) / LINE + 1 < Allocation(n)
    ensures i < n ==> Chars(i) + Chars(i) / LINE + 5 < Allocation(n)
  {
    var a := n * 4 / 3 + 4;
    assert Allocation(n) == a + a / LINE + 1;
    var q := i / 3;
    assert Chars(i) == 4 * q;
    assert 4 * q + 4 <= a;
    assert 4 * q / LINE <= a / LINE;
    if i < n {
      assert 4 * q + 5 <= a;
    }
  }

  /** The characters of a last group of one or two bytes, as the code computes them. */
  function LastOne(b0: byte): seq<byte> { [Char(b0 / 4), Char(b0 % 4 * 16), PAD, PAD] }

  function LastTwo(b0: byte, b1: byte): seq<byte> {
    [Char(b0 / 4), Char(b0 % 4 * 16 + b1 / 16), Char(b1 % 16 * 4), PAD]
  }

  function LastGroup(y: seq<byte>): (g: seq<byte>)
    requires 1 <= |y| <= 2
    ensures |g| == 4
  {
    if |y| == 1 then LastOne(y[0]) else LastTwo(y[0], y[1])
  }

  lemma OneByteGroup(b0: byte)
    ensures Group(b0, 0, 0)[..2] + [PAD, PAD] == LastOne(b0)
  {
    hide Char, Group;
    GroupByFields(b0, 0, 0);
    assert b0 % 4 * 16 + 0 / 16 == b0 % 4 * 16;
  }

  lemma TwoByteGroup(b0: byte, b1: byte)
    ensures Group(b0, b1, 0)[..3] + [PAD] == LastTwo(b0, b1)
  {
    hide Char, Group;
    GroupByFields(b0, b1, 0);
    assert b1 % 16 * 4 + 0 / 64 == b1 % 16 * 4;
  }

  lemma LastGroupIsText(y: seq<byte>)
    requires 1 <= |y| <= 2
    ensures LastGroup(y) == Text(y)
  {
    hide Group, LastOne, LastTwo;
    if |y| == 1 {
      OneByteGroup(y[0]);
    } else {
      TwoByteGroup(y[0], y[1]);
    }
  }

  /** The last group and the line feed that closes a started line. */
  lemma Finish(src: seq<byte>, i: nat, out: seq<byte>, lineLen: nat)
    requires EncodedTo(src, i, out, lineLen) && i + 3 > |src|
    ensures i < |src| ==> Encoded(src) == out + LastGroup(src[i..]) + [LF]
    ensures i == |src| ==> Encoded(src) == out + if lineLen != 0 then [LF] else []
  {
    hide Text, Lines, LastGroup, Char;
    if i == |src| {
      assert src[..i] == src;
    } else {
      FinishStarted(src, i, out, lineLen);
    }
  }

  lemma FinishStarted(src: seq<byte>, i: nat, out: seq<byte>, lineLen: nat)
    requires EncodedTo(src, i, out, lineLen) && i < |src| < i + 3
    ensures Encoded(src) == out + LastGroup(src[i..]) + [LF]
  {
    hide Text, Lines, LastGroup, LineEnd;
    var s, g := Text(src[..i]), LastGroup(src[i..]);
    TextLast(src, i);
    LinesGrow(s, g);
    assert |s + g| == |s| + 4;
    ClosedLine(out + g, |s| + 4);
  }

  lemma TextLast(src: seq<byte>, i: nat)
    requires i % 3 == 0 && i < |src| < i + 3
    ensures Text(src) == Text(src[..i]) + LastGroup(src[i..])
    ensures |Text(src[..i])| % 4 == 0 && |LastGroup(src[i..])| == 4
  {
    hide Text, LastGroup, Char;
    var x, y := src[..i], src[i..];
    assert src == x + y;
    TextGrows(x, y);
    LastGroupIsText(y);
    TextLength(x);
    TextLength(y);
  }

  /** A line is closed once, by filling it or at the end. */
  lemma ClosedLine(out: seq<byte>, n: nat)
    ensures out + LineEnd(n) + (if n % LINE != 0 then [LF] else []) == out + [LF]
  {
    assert out + [] + [LF] == out + [LF] && out + [LF] + [] == out + [LF];
  }

  /** A malloc'd buffer and the write position `pos` in it. */
  class Writer {
    const buf: array<byte>
    var pos: nat

    ghost predicate Valid()
      reads this
    {
      pos <= buf.Length
    }

    ghost function Text(): seq<byte>
      requires Valid()
      reads this, buf
    {
      buf[..pos]
    }

    constructor (size: nat)
      ensures Valid() && fresh(buf) && buf.Length == size && pos == 0
    {
      buf := new byte[size](_ => 0);
      pos := 0;
    }

    /** `*pos++ = c` */
    method Put(c: byte)
      requires Valid() && pos < buf.Length
      modifies this, buf
      ensures Valid() && Text() == old(Text()) + [c]
    {
      buf[pos] := c;
      pos := pos + 1;
    }

    method Put4(c0: byte, c1: byte, c2: byte, c3: byte)
      requires Valid() && pos + 4 <= buf.Length
      modifies this, buf
      ensures Valid() && Text() == old(Text()) + [c0, c1, c2, c3]
    {
      Put(c0);
      Put(c1);
      Put(c2);
      Put(c3);
    }
  }

  /** The main loop: whole groups, with a line feed after every eighteenth. */
  method EncodeGroups(src: seq<byte>, out: Writer) returns (i: nat, lineLen: nat)
    requires |src| < TWO62 && out.Valid() && out.pos == 0 && out.buf.Length == Allocation(|src|)
    modifies out, out.buf
    ensures out.Valid() && EncodedTo(src, i, out.Text(), lineLen) && i + 3 > |src|
  {
    hide Text, Lines, Group, Char, Allocation;
    i, lineLen := 0, 0;
    NothingEncoded(src);
    assert out.Text() == [];
    while |src| - i >= 3
      invariant out.Valid() && EncodedTo(src, i, out.Text(), lineLen)
    {
      RoomFor(src, i, out.Text(), lineLen);
      GroupByFields(src[i], src[i + 1], src[i + 2]);
      NextGroup(src, i, out.Text(), lineLen, Group(src[i], src[i + 1], src[i + 2]));
      out.Put4(Char(src[i] / 4), Char(src[i] % 4 * 16 + src[i + 1] / 16),
               Char(src[i + 1] % 16 * 4 + src[i + 2] / 64), Char(src[i + 2] % 64));
      i := i + 3;
      lineLen := lineLen + 4;
      if lineLen >= LINE {
        out.Put(LF);
        lineLen := 0;
      }
    }
  }

  lemma NothingEncoded(src: seq<byte>)
    ensures EncodedTo(src, 0, [], 0)
  {
    assert src[..0] == [];
  }

  /** base64_encode: `None` is the refusal of a length whose size computation wraps. */
  method Encode(src: seq<byte>) returns (r: Option<array<byte>>, outLen: nat)
    requires |src| < TWO64
    ensures r.None? <==> |src| >= TWO62
    ensures r.Some? ==> outLen < r.value.Length == Allocation(|src|)
                        && r.value[..outLen] == Encoded(src) && r.value[outLen] == 0
  {
    hide Text, Lines, Char, Encoded, Allocation;
    AllocationSound(|src|);
    var olen := Allocation(|src|);
    if olen < |src| {
      return None, 0;
    }
    var out := new Writer(olen);
    var i, lineLen := EncodeGroups(src, out);
    RoomFor(src, i, out.Text(), lineLen);
    Finish(src, i, out.Text(), lineLen);
    if i < |src| {
      var g := LastGroup(src[i..]);
      out.Put4(g[0], g[1], g[2], g[3]);
      lineLen := lineLen + 4;
    }
    if lineLen != 0 {
      out.Put(LF);
    }
    assert out.Text() == Encoded(src);
    out.buf[out.pos] := 0;
    r, outLen := Some(out.buf), out.pos;
  }

  // ----- decoding ---------------------------------------------------------------------------

  /** The table holds each alphabet character's place, zero for '=', and 0x80 elsewhere. */
  ghost predicate IsTable(t: seq<byte>) {
    |t| == 256 && forall c: byte :: t[c] == Value(c)
  }

  method BuildTable() returns (dtable: array<byte>)
    ensures fresh(dtable) && IsTable(dtable[..])
  {
    hide Char;
    dtable := new byte[256](_ => NONE);
    var i := 0;
    while i < 64
      invariant 0 <= i <= 64 && dtable.Length == 256
      invariant forall c: byte :: dtable[c] == if c != PAD && Value(c) < i then Value(c) else NONE
    {
      CharValue(i);
      CharOnly(i);
      dtable[Char(i)] := i;
      i := i + 1;
    }
    dtable[PAD] := 0;
    assert forall c: byte :: dtable[..][c] == Value(c);
  }

  lemma CharOnly(v: nat)
    requires v < 64
    ensures forall c: byte :: c != PAD && Value(c) == v <==> c == Char(v)
  {}

  /** The first pass: how many characters are not skipped. */
  method CountSignificant(src: seq<byte>, dtable: array<byte>) returns (count: nat)
    requires dtable.Length == 256 && IsTable(dtable[..])
    ensures count == |Significant(src)|
  {
    hide Value;
    count := 0;
    var i := 0;
    while i < |src|
      invariant 0 <= i <= |src|
      invariant count + |Significant(src[i..])| == |Significant(src)|
    {
      assert dtable[..][src[i]] == Value(src[i]);
      assert src[i..][1..] == src[i + 1..];
      if dtable[src[i]] != NONE {
        count := count + 1;
      }
      i := i + 1;
    }
  }

  function Prepend(p: seq<byte>, r: Option<seq<byte>>): Option<seq<byte>> {
    if r.Some? then Some(p + r.value) else None
  }

  /** All characters carry a value. */
  ghost predicate AllSignificant(s: seq<byte>) { forall c :: c in s ==> Value(c) != NONE }

  /** What is still to be decoded when `block` is filled and `rest` of the source is unread. */
  ghost function Remaining(block: seq<byte>, rest: seq<byte>): (r: Option<seq<byte>>)
    requires AllSignificant(block) && (|block| + |Significant(rest)|) % 4 == 0
  {
    SignificantValues(rest);
    assert forall c :: c in block + Significant(rest) ==> c in block || c in Significant(rest);
    Groups(block + Significant(rest))
  }

  /** A skipped character changes nothing. */
  lemma Skip(block: seq<byte>, rest: seq<byte>)
    requires AllSignificant(block) && (|block| + |Significant(rest)|) % 4 == 0 && rest != []
    requires Value(rest[0]) == NONE
    ensures Significant(rest[1..]) == Significant(rest)
    ensures Remaining(block, rest[1..]) == Remaining(block, rest)
  {
    hide Groups, Value;
    assert [] + Significant(rest[1..]) == Significant(rest[1..]);
  }

  /** Any other character joins the block. */
  lemma Take(block: seq<byte>, rest: seq<byte>)
    requires AllSignificant(block) && (|block| + |Significant(rest)|) % 4 == 0 && rest != []
    requires Value(rest[0]) != NONE
    ensures AllSignificant(block + [rest[0]])
    ensures |Significant(rest[1..])| + 1 == |Significant(rest)|
    ensures Remaining(block + [rest[0]], rest[1..]) == Remaining(block, rest)
  {
    hide Groups, Value;
    assert Significant(rest) == [rest[0]] + Significant(rest[1..]);
    assert block + [rest[0]] + Significant(rest[1..]) == block + Significant(rest);
  }

  /** What a full block yields, given what the later ones yield. */
  ghost function BlockResult(block: seq<byte>, later: Option<seq<byte>>): Option<seq<byte>>
    requires |block| == 4 && forall i :: 0 <= i < 4 ==> Value(block[i]) < 64
  {
    var t := Triple(Value(block[0]), Value(block[1]), Value(block[2]), Value(block[3]));
    var pads := Pads(block);
    if pads == 0 then Prepend(t, later)
    else if pads == 1 then Some(t[..2]) else if pads == 2 then Some(t[..1]) else None
  }

  lemma ValuesFit(block: seq<byte>)
    requires AllSignificant(block)
    ensures forall i :: 0 <= i < |block| ==> Value(block[i]) < 64
  {
    assert forall i :: 0 <= i < |block| ==> block[i] in block;
  }

  lemma GroupsStep(block: seq<byte>, later: seq<byte>)
    requires |block| == 4 && |later| % 4 == 0 && AllSignificant(block) && AllSignificant(later)
    requires AllSignificant(block + later)
    ensures forall i :: 0 <= i < 4 ==> Value(block[i]) < 64
    ensures Groups(block + later) == BlockResult(block, Groups(later))
  {
    ValuesFit(block);
    hide Triple, Pads, Value;
    var s := block + later;
    assert s[..4] == block && s[4..] == later;
    assert s[0] == block[0] && s[1] == block[1] && s[2] == block[2] && s[3] == block[3];
  }

  /** A filled block is decoded: on with the next one, or the end at the first padded one. */
  lemma BlockDone(block: seq<byte>, rest: seq<byte>)
    requires AllSignificant(block) && |block| == 4 && |Significant(rest)| % 4 == 0
    ensures forall i :: 0 <= i < 4 ==> Value(block[i]) < 64
    ensures Remaining(block, rest) == BlockResult(block, Remaining([], rest))
  {
    hide Significant, Groups, BlockResult;
    SignificantValues(rest);
    var later := Significant(rest);
    assert [] + later == later;
    assert forall c :: c in block + later ==> c in block || c in later;
    GroupsStep(block, later);
  }

  lemma PadsGrow(q: seq<byte>, c: byte)
    ensures Pads(q + [c]) == Pads(q) + if c == PAD then 1 else 0
  {
    if q != [] {
      assert (q + [c])[1..] == q[1..] + [c];
      PadsGrow(q[1..], c);
    }
  }

  /** The three bytes of a full block. */
  method PutBlock(v: array<byte>, out: Writer)
    requires v.Length == 4 && forall i :: 0 <= i < 4 ==> v[i] < 64
    requires out.Valid() && out.pos + 3 <= out.buf.Length && v != out.buf
    modifies out, out.buf
    ensures out.Valid() && out.Text() == old(out.Text()) + Triple(v[0], v[1], v[2], v[3])
  {
    hide Triple;
    TripleByFields(v[0], v[1], v[2], v[3]);
    var v0: int, v1: int, v2: int, v3: int := v[0], v[1], v[2], v[3];
    out.Put(v0 * 4 + v1 / 16);
    out.Put(v1 * 16 % 256 + v2 / 4);
    out.Put(v2 * 64 % 256 + v3);
  }

  /** The second pass holds the characters `chars` in its block array, `pad` of them padding. */
  ghost predicate Filling(block: seq<byte>, chars: seq<byte>, count: nat, pad: nat) {
    && |block| == 4 && count == |chars| < 4 && AllSignificant(chars) && pad == Pads(chars)
    && forall j :: 0 <= j < count ==> block[j] == Value(chars[j])
  }

  /** The output so far, and room for all that is still to come. */
  ghost predicate Pending(goal: Option<seq<byte>>, out: seq<byte>, room: nat, chars: seq<byte>, rest: seq<byte>) {
    && AllSignificant(chars) && (|chars| + |Significant(rest)|) % 4 == 0
    && room == (|chars| + |Significant(rest)|) / 4 * 3
    && goal == Prepend(out, Remaining(chars, rest))
  }

  lemma SkipOne(goal: Option<seq<byte>>, out: seq<byte>, room: nat, chars: seq<byte>, src: seq<byte>, i: nat)
    requires i < |src| && Pending(goal, out, room, chars, src[i..]) && Value(src[i]) == NONE
    ensures Pending(goal, out, room, chars, src[i + 1..])
  {
    hide Value, Remaining, Significant;
    assert src[i..][1..] == src[i + 1..];
    Skip(chars, src[i..]);
  }

  lemma TakeOne(goal: Option<seq<byte>>, out: seq<byte>, room: nat, chars: seq<byte>, src: seq<byte>, i: nat)
    requires i < |src| && Pending(goal, out, room, chars, src[i..]) && Value(src[i]) != NONE
    ensures Pending(goal, out, room, chars + [src[i]], src[i + 1..])
  {
    hide Value, Remaining, Significant;
    assert src[i..][1..] == src[i + 1..];
    Take(chars, src[i..]);
  }

  lemma Flush(goal: Option<seq<byte>>, out: seq<byte>, room: nat, chars: seq<byte>, rest: seq<byte>, t: seq<byte>)
    requires Pending(goal, out, room, chars, rest) && |chars| == 4
    requires forall i :: 0 <= i < 4 ==> Value(chars[i]) < 64
    requires t == Triple(Value(chars[0]), Value(chars[1]), Value(chars[2]), Value(chars[3]))
    ensures room >= 3
    ensures Pads(chars) == 0 ==> Pending(goal, out + t, room - 3, [], rest)
    ensures Pads(chars) == 1 ==> goal == Some(out + t[..2])
    ensures Pads(chars) == 2 ==> goal == Some(out + t[..1])
    ensures Pads(chars) > 2 ==> goal == None
  {
    hide Value, Remaining, Significant, Triple, Pads;
    BlockDone(chars, rest);
    var later := Remaining([], rest);
    if Pads(chars) == 0 && later.Some? {
      assert out + (t + later.value) == out + t + later.value;
    }
  }

  lemma Start(src: seq<byte>, goal: Option<seq<byte>>, block: seq<byte>)
    requires |Significant(src)| % 4 == 0 && goal == Remaining([], src) && |block| == 4
    ensures Pending(goal, [], |Significant(src)| / 4 * 3, [], src[0..]) && Filling(block, [], 0, 0)
  {
    assert src[0..] == src;
    if goal.Some? {
      assert [] + goal.value == goal.value;
    }
  }

  lemma AtEnd(src: seq<byte>, goal: Option<seq<byte>>, out: seq<byte>, room: nat,
              block: seq<byte>, chars: seq<byte>, count: nat, pad: nat)
    requires Pending(goal, out, room, chars, src[|src|..]) && Filling(block, chars, count, pad)
    ensures goal == Some(out)
  {
    assert src[|src|..] == [] && Significant([]) == [];
    assert chars == [] && chars + [] == [];
    assert out + [] == out;
  }

  /** Put a value into the block, counting padding. */
  method Hold(block: array<byte>, count: nat, pad: nat, tmp: byte, c: byte, ghost chars: seq<byte>)
    returns (count': nat, pad': nat, full: bool)
    requires Filling(block[..], chars, count, pad) && tmp == Value(c) && tmp != NONE
    modifies block
    ensures count' == count + 1 && pad' == Pads(chars + [c]) && full == (count' == 4)
    ensures AllSignificant(chars + [c]) && forall j :: 0 <= j < count' ==> block[j] == Value((chars + [c])[j])
  {
    hide Value, Pads;
    pad' := if c == PAD then pad + 1 else pad;
    PadsGrow(chars, c);
    assert forall j :: 0 <= j < count ==> block[j] == block[..][j];
    block[count] := tmp;
    count' := count + 1;
    full := count' == 4;
  }

  /** Write out a full block and act on its padding: `stop` with the result, or go on. */
  method EndBlock(block: array<byte>, pad: nat, out: Writer, ghost chars: seq<byte>)
    returns (stop: bool, r: Option<seq<byte>>)
    requires block.Length == 4 && block != out.buf && |chars| == 4 && pad == Pads(chars)
    requires forall j :: 0 <= j < 4 ==> block[j] == Value(chars[j]) < 64
    requires out.Valid() && out.pos + 3 <= out.buf.Length
    modifies out, out.buf
    ensures out.Valid() && stop == (pad != 0)
    ensures var t := Triple(Value(chars[0]), Value(chars[1]), Value(chars[2]), Value(chars[3]));
            && (pad == 0 ==> out.Text() == old(out.Text()) + t)
            && (pad == 1 ==> r == Some(old(out.Text()) + t[..2]))
            && (pad == 2 ==> r == Some(old(out.Text()) + t[..1]))
            && (pad > 2 ==> r == None)
  {
    hide Value, Pads, Triple;
    PutBlock(block, out);
    ghost var before, t := old(out.Text()), Triple(block[0], block[1], block[2], block[3]);
    stop, r := pad != 0, None;
    if pad == 1 {
      out.pos := out.pos - 1;
      assert out.buf[..out.pos] == (before + t)[..|before| + 2] == before + t[..2];
      r := Some(out.buf[..out.pos]);
    } else if pad == 2 {
      out.pos := out.pos - 2;
      assert out.buf[..out.pos] == (before + t)[..|before| + 1] == before + t[..1];
      r := Some(out.buf[..out.pos]);
    }
  }

  lemma FillingFits(block: seq<byte>, chars: seq<byte>, count: nat, pad: nat)
    requires Filling(block, chars, count, pad)
    ensures |block| == 4 && count == |chars| < 4
  {}

  lemma FillingAgain(block: seq<byte>)
    requires |block| == 4
    ensures Filling(block, [], 0, 0)
  {}

  lemma FillingOn(block: seq<byte>, chars: seq<byte>, count: nat, pad: nat)
    requires |block| == 4 && count == |chars| < 4 && AllSignificant(chars) && pad == Pads(chars)
    requires forall j :: 0 <= j < count ==> block[j] == Value(chars[j])
    ensures Filling(block, chars, count, pad)
  {}

  /** The second pass. */
  method DecodeBlocks(src: seq<byte>, dtable: array<byte>, out: Writer) returns (r: Option<seq<byte>>)
    requires dtable.Length == 256 && IsTable(dtable[..])
    requires |Significant(src)| % 4 == 0
    requires out.Valid() && out.pos == 0 && out.buf.Length == |Significant(src)| / 4 * 3
    requires dtable != out.buf
    modifies out, out.buf
    ensures r == Remaining([], src)
  {
    hide Value, Remaining, Significant, Triple, Pads, Filling, Pending;
    var block := new byte[4](_ => 0);
    var count, pad, i := 0, 0, 0;
    ghost var chars, goal := [], Remaining([], src);
    Start(src, goal, block[..]);
    while i < |src|
      invariant 0 <= i <= |src| && IsTable(dtable[..])
      invariant out.Valid() && Filling(block[..], chars, count, pad)
      invariant Pending(goal, out.Text(), out.buf.Length - out.pos, chars, src[i..])
    {
      var tmp := dtable[src[i]];
      assert dtable[..][src[i]] == Value(src[i]);
      if tmp == NONE {
        SkipOne(goal, out.Text(), out.buf.Length - out.pos, chars, src, i);
        i := i + 1;
        continue;
      }
      TakeOne(goal, out.Text(), out.buf.Length - out.pos, chars, src, i);
      FillingFits(block[..], chars, count, pad);
      var full;
      count, pad, full := Hold(block, count, pad, tmp, src[i], chars);
      chars := chars + [src[i]];
      if full {
        ValuesFit(chars);
        Flush(goal, out.Text(), out.buf.Length - out.pos, chars, src[i + 1..],
              Triple(Value(chars[0]), Value(chars[1]), Value(chars[2]), Value(chars[3])));
        var stop;
        stop, r := EndBlock(block, pad, out, chars);
        if stop {
          return;
        }
        count, chars := 0, [];
        FillingAgain(block[..]);
      } else {
        FillingOn(block[..], chars, count, pad);
      }
      i := i + 1;
    }
    AtEnd(src, goal, out.Text(), out.buf.Length - out.pos, block[..], chars, count, pad);
    r := Some(out.buf[..out.pos]);
  }

  /** base64_decode. */
  method Decode(src: seq<byte>) returns (r: Option<seq<byte>>)
    ensures r == Decoded(src)
  {
    hide Value, Significant, Groups;
    var dtable := BuildTable();
    var count := CountSignificant(src, dtable);
    if count == 0 || count % 4 != 0 {
      return None;
    }
    var out := new Writer(count / 4 * 3);
    r := DecodeBlocks(src, dtable, out);
    assert [] + Significant(src) == Significant(src);
  }

  // ----- the round trip ---------------------------------------------------------------------

  lemma {:induction false} SignificantAppend(a: seq<byte>, b: seq<byte>)
    ensures Significant(a + b) == Significant(a) + Significant(b)
  {
    hide Value;
    if a == [] {
      assert a + b == b;
    } else {
      assert (a + b)[1..] == a[1..] + b;
      SignificantAppend(a[1..], b);
    }
  }

  lemma {:induction false} AllSignificantKept(a: seq<byte>)
    requires AllSignificant(a)
    ensures Significant(a) == a
  {
    hide Value;
    if a != [] {
      assert a[0] in a && forall c :: c in a[1..] ==> c in a;
      AllSignificantKept(a[1..]);
    }
  }

  /** The values the decoder reads back from a group of characters. */
  lemma GroupValues(b0: byte, b1: byte, b2: byte)
    ensures var g, n := Group(b0, b1, b2), 0x1_0000 * b0 as int + 0x100 * b1 + b2;
            && Value(g[0]) == n / 0x4_0000 && Value(g[1]) == n / 0x1000 % 64
            && Value(g[2]) == n / 64 % 64 && Value(g[3]) == n % 64
            && g[0] != PAD && g[1] != PAD && g[2] != PAD && g[3] != PAD
  {
    hide Char, Value;
    var n: int := 0x1_0000 * b0 as int + 0x100 * b1 + b2;
    CharValue(n / 0x4_0000);
    CharValue(n / 0x1000 % 64);
    CharValue(n / 64 % 64);
    CharValue(n % 64);
  }

  lemma TripleOfNumber(b0: byte, b1: byte, b2: byte)
    ensures var n: int := 0x1_0000 * b0 as int + 0x100 * b1 + b2;
            Triple(n / 0x4_0000, n / 0x1000 % 64, n / 64 % 64, n % 64) == [b0, b1, b2]
  {
    var n: int := 0x1_0000 * b0 as int + 0x100 * b1 + b2;
    Octets(b0, b1, b2);
    var t := n / 64;
    var u := t / 64;
    assert n / 0x1000 == u && n / 0x4_0000 == u / 64;
    assert n == 64 * (64 * (64 * (u / 64) + u % 64) + t % 64) + n % 64;
  }

  /** A whole group reads back as its three bytes. */
  lemma WholeGroupBack(b0: byte, b1: byte, b2: byte, later: Option<seq<byte>>)
    ensures AllSignificant(Group(b0, b1, b2))
    ensures forall i :: 0 <= i < 4 ==> Value(Group(b0, b1, b2)[i]) < 64
    ensures BlockResult(Group(b0, b1, b2), later) == Prepend([b0, b1, b2], later)
  {
    GroupValues(b0, b1, b2);
    TripleOfNumber(b0, b1, b2);
    hide Group, Value, Triple;
    var g := Group(b0, b1, b2);
    assert g == [g[0], g[1], g[2], g[3]];
    FourPads(g[0], g[1], g[2], g[3]);
  }

  lemma FourPads(a: byte, b: byte, c: byte, d: byte)
    ensures Pads([a, b, c, d]) == (if a == PAD then 1 else 0) + (if b == PAD then 1 else 0)
                                + (if c == PAD then 1 else 0) + (if d == PAD then 1 else 0)
  {
    assert [a, b, c, d][1..] == [b, c, d] && [b, c, d][1..] == [c, d] && [c, d][1..] == [d];
    assert Pads([d]) == if d == PAD then 1 else 0;
    assert Pads([c, d]) == (if c == PAD then 1 else 0) + Pads([d]);
  }

  /** The characters of a padded group. */
  lemma LastGroupShape(y: seq<byte>)
    requires 1 <= |y| <= 2
    ensures |Text(y)| == 4 && Pads(Text(y)) == 3 - |y|
    ensures forall i :: 0 <= i < 4 ==> Value(Text(y)[i]) < 64
    ensures var b1: int := if |y| == 1 then 0 else y[1];
            var n: int, s := 0x1_0000 * y[0] as int + 0x100 * b1, Text(y);
            && Value(s[0]) == n / 0x4_0000 && Value(s[1]) == n / 0x1000 % 64
            && Value(s[2]) == n / 64 % 64 && Value(s[3]) == n % 64
  {
    var b1: byte := if |y| == 1 then 0 else y[1];
    GroupValues(y[0], b1, 0);
    PaddedZeros(y[0], b1);
    TextOfLast(y);
    PadValue();
    hide Group, Text, Value;
    var g, s := Group(y[0], b1, 0), Text(y);
    assert s[0] == g[0] && s[1] == g[1] && s[3] == PAD;
    assert s == [s[0], s[1], s[2], s[3]];
    FourPads(s[0], s[1], s[2], s[3]);
  }

  lemma PadValue()
    ensures Value(PAD) == 0
  {}

  /** A padded group reads back as its one or two bytes. */
  lemma LastGroupBack(y: seq<byte>, later: Option<seq<byte>>)
    requires 1 <= |y| <= 2
    ensures AllSignificant(Text(y)) && |Text(y)| == 4
    ensures forall i :: 0 <= i < 4 ==> Value(Text(y)[i]) < 64
    ensures BlockResult(Text(y), later) == Some(y)
  {
    hide Text, Triple, Value, Pads;
    var b1: byte := if |y| == 1 then 0 else y[1];
    LastGroupShape(y);
    TripleOfNumber(y[0], b1, 0);
    assert [y[0], b1, 0][..|y|] == y;
  }

  lemma TextOfLast(y: seq<byte>)
    requires 1 <= |y| <= 2
    ensures |y| == 1 ==> Text(y) == Group(y[0], 0, 0)[..2] + [PAD, PAD]
    ensures |y| == 2 ==> Text(y) == Group(y[0], y[1], 0)[..3] + [PAD]
  {
    hide Group;
  }

  lemma PaddedZeros(b0: byte, b1: byte)
    ensures (0x1_0000 * b0 as int + 0x100 * b1) % 64 == 0
    ensures b1 == 0 ==> (0x1_0000 * b0 as int + 0x100 * b1) / 64 % 64 == 0
  {}

  lemma {:induction false} TextSignificant(x: seq<byte>)
    ensures AllSignificant(Text(x)) && |Text(x)| % 4 == 0
  {
    hide Value, Group;
    if 1 <= |x| <= 2 {
      LastGroupBack(x, None);
    } else if |x| >= 3 {
      WholeGroupBack(x[0], x[1], x[2], None);
      TextSignificant(x[3..]);
    }
  }

  lemma {:induction false} TextBack(x: seq<byte>)
    requires AllSignificant(Text(x)) && |Text(x)| % 4 == 0
    ensures Groups(Text(x)) == Some(x)
  {
    if 1 <= |x| <= 2 {
      LastGroupBack(x, Some([]));
      hide Text, BlockResult, Value;
      assert Text(x) + [] == Text(x);
      GroupsStep(Text(x), []);
    } else if |x| >= 3 {
      var g, rest := Group(x[0], x[1], x[2]), Text(x[3..]);
      assert Text(x) == g + rest;
      TextSignificant(x[3..]);
      TextBack(x[3..]);
      WholeGroupBack(x[0], x[1], x[2], Groups(rest));
      hide Text, BlockResult, Value, Groups, Group;
      GroupsStep(g, rest);
      assert [x[0], x[1], x[2]] + x[3..] == x;
    }
  }

  /** Line feeds are skipped again. */
  lemma {:induction false} LinesSkipped(s: seq<byte>)
    requires AllSignificant(s)
    ensures Significant(Lines(s)) == s
    decreases |s|
  {
    if |s| < LINE {
      AllSignificantKept(s);
    } else {
      var a, b := s[..LINE], s[LINE..];
      assert forall c :: c in a ==> c in s;
      assert forall c :: c in b ==> c in s;
      LinesSkipped(b);
      AllSignificantKept(a);
      SignificantLF();
      SignificantAppend(a + [LF], Lines(b));
      SignificantAppend(a, [LF]);
      hide Significant, Value;
      assert a + [] == a;
      assert a + b == s;
    }
  }

  lemma SignificantLF()
    ensures Significant([LF]) == []
  {
    assert Value(LF) == NONE;
    assert [LF][1..] == [];
  }

  lemma EncodedSignificant(x: seq<byte>)
    ensures Significant(Encoded(x)) == Text(x)
  {
    TextSignificant(x);
    LinesSkipped(Text(x));
    SignificantLF();
    hide Significant, Text, Lines, Value;
    if |Text(x)| % LINE != 0 {
      SignificantAppend(Lines(Text(x)), [LF]);
      assert Text(x) + [] == Text(x);
    } else {
      assert Lines(Text(x)) + [] == Lines(Text(x));
    }
  }

  /** What is encoded decodes to itself, line feeds and all; only the empty string does not. */
  lemma RoundTrip(x: seq<byte>)
    ensures Decoded(Encoded(x)) == Some(x) <==> x != []
  {
    EncodedSignificant(x);
    TextLength(x);
    TextSignificant(x);
    if x != [] {
      TextBack(x);
    }
  }

  /** The two methods, one after the other. */
  method EncodeThenDecode(x: seq<byte>) returns (y: Option<seq<byte>>)
    requires x != [] && |x| < TWO62
    ensures y == Some(x)
  {
    hide Encoded, Decoded;
    var buf, n := Encode(x);
    RoundTrip(x);
    y := Decode(buf.value[..n]);
  }
}
