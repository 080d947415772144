/**
 * plugins/fastcgi/protocol.c: record headers (section 3.3 of the FastCGI Specification 1.0)
 * and name-value pairs (section 3.4).
 */
module Protocol {
  import opened Bytes

  type uint16 = x: int | 0 <= x < TWO16

  const HEADER_LEN: nat := 8
  const VERSION_1: byte := 1

  const BEGIN_REQUEST: byte := 1
  const END_REQUEST: byte := 3
  const PARAMS: byte := 4
  const STDIN: byte := 5
  const STDOUT: byte := 6

  const RESPONDER: uint16 := 1
  const KEEP_CONN: byte := 1

  datatype Header = Header(version: byte, kind: byte, reqId: uint16, bodyLen: uint16, bodyPad: byte)

  /** Two bytes in network order. */
  function Word(p: seq<byte>, at: nat): uint16
    requires at + 1 < |p|
  {
    256 * p[at] as int + p[at + 1] as int
  }

  /** fcgi_read_header. */
  function ReadHeader(p: seq<byte>): Header
    requires |p| >= HEADER_LEN
  {
    Header(p[0], p[1], Word(p, 2), Word(p, 4), p[6])
  }

  /** The seven bytes fcgi_write_header stores; the reserved eighth is left as it was. */
  function HeaderBytes(h: Header): seq<byte> {
    [h.version, h.kind, h.reqId / 256, h.reqId % 256, h.bodyLen / 256, h.bodyLen % 256, h.bodyPad]
  }

  lemma HeaderRoundTrip(h: Header, reserved: byte)
    ensures ReadHeader(HeaderBytes(h) + [reserved]) == h
  {}

  /** Only the reserved byte is lost in reading a header. */
  lemma HeaderReadBack(p: seq<byte>)
    requires |p| == HEADER_LEN
    ensures HeaderBytes(ReadHeader(p)) == p[..7]
  {
    WordParts(p, 2);
    WordParts(p, 4);
  }

  lemma WordParts(p: seq<byte>, at: nat)
    requires at + 1 < |p|
    ensures Word(p, at) / 256 == p[at] as int && Word(p, at) % 256 == p[at + 1] as int
  {}

  // ----- lengths ----------------------------------------------------------------------------

  /** write_length: one byte up to 127, else four bytes with the top bit set. */
  function LengthBytes(len: nat): (b: seq<byte>)
    ensures |b| == LengthSize(len) && (b[0] >= 128 ==> |b| == 4)
  {
    if len > 127 then
      [128 + len / 0x100_0000 % 128, len / 0x1_0000 % 256, len / 0x100 % 256, len % 256]
    else [len]
  }

  /** The byte count that fcgi_param_write predicts and that the entry iterator skips. */
  function LengthSize(len: nat): nat { if len > 127 then 4 else 1 }

  /** fcgi_param_read_length. */
  function ReadLength(p: seq<byte>): nat
    requires |p| >= 1 && (p[0] >= 128 ==> |p| >= 4)
  {
    if p[0] >= 128 then
      (p[0] - 128) as int * 0x100_0000 + p[1] as int * 0x1_0000 + p[2] as int * 0x100 + p[3] as int
    else p[0]
  }

  /** A length reads back as itself exactly when it fits in 31 bits. */
  lemma LengthRoundTrip(len: nat, rest: seq<byte>)
    ensures ReadLength(LengthBytes(len) + rest) == len <==> len < TWO31
  {
    var p := LengthBytes(len) + rest;
    if len > 127 {
      var a := len / 0x100_0000;
      var b, c, d := len / 0x1_0000 % 256, len / 0x100 % 256, len % 256;
      assert p[0] == 128 + a % 128 && p[1] == b && p[2] == c && p[3] == d;
      Octets4(len);
      assert len == a * 0x100_0000 + b * 0x1_0000 + c * 0x100 + d;
      assert a < 128 <==> len < TWO31;
    }
  }

  /** Big-endian, with the top bit of four bytes set, as in section 3.4 of the FastCGI Specification 1.0. */
  lemma LengthOnTheWire(len: nat)
    requires len < 0x8000_0000
    ensures var b := LengthBytes(len);
            if len < 128 then b == [len]
            else |b| == 4 && 0x100_0000 * b[0] as int + 0x1_0000 * b[1] as int + 0x100 * b[2] as int + b[3] as int
                             == 0x8000_0000 + len
  {
    Octets4(len);
  }

  lemma Octets4(n: nat)
    ensures n == n / 0x100_0000 * 0x100_0000 + n / 0x1_0000 % 256 * 0x1_0000 + n / 0x100 % 256 * 0x100 + n % 256
  {
    var x := n / 0x100;
    var y := x / 0x100;
    assert n / 0x1_0000 == y && n / 0x100_0000 == y / 0x100;
  }

  // ----- pairs ------------------------------------------------------------------------------

  datatype Pair = Pair(key: seq<byte>, value: seq<byte>)

  /** What fcgi_param_write stores for a pair. */
  function PairBytes(p: Pair): seq<byte> {
    LengthBytes(|p.key|) + LengthBytes(|p.value|) + p.key + p.value
  }

  /** The sizing call, fcgi_param_write with a NULL buffer. */
  function PairSize(p: Pair): nat {
    LengthSize(|p.key|) + LengthSize(|p.value|) + |p.key| + |p.value|
  }

  /** A short pair, byte by byte: AB=C. */
  lemma PairOnTheWire()
    ensures PairBytes(Pair([65, 66], [67])) == [2, 1, 65, 66, 67]
  {}

  /** The sizing call predicts the exact byte count. */
  lemma SizePredicted(p: Pair)
    ensures |PairBytes(p)| == PairSize(p)
  {}

  function ParamBytes(pairs: seq<Pair>): seq<byte> {
    if pairs == [] then [] else PairBytes(pairs[0]) + ParamBytes(pairs[1..])
  }

  ghost predicate Encodable(pairs: seq<Pair>) {
    forall p :: p in pairs ==> |p.key| < TWO31 && |p.value| < TWO31
  }

  lemma {:induction false} ParamAppend(a: seq<Pair>, b: seq<Pair>)
    ensures ParamBytes(a + b) == ParamBytes(a) + ParamBytes(b)
  {
    hide PairBytes;
    if a == [] {
      assert a + b == b;
    } else {
      assert (a + b)[1..] == a[1..] + b;
      ParamAppend(a[1..], b);
    }
  }

  lemma ParamNext(pairs: seq<Pair>, i: nat)
    requires i < |pairs|
    ensures ParamBytes(pairs[..i + 1]) == ParamBytes(pairs[..i]) + PairBytes(pairs[i])
    ensures ParamBytes(pairs[i..]) == PairBytes(pairs[i]) + ParamBytes(pairs[i + 1..])
  {
    hide PairBytes;
    assert pairs[..i + 1] == pairs[..i] + [pairs[i]];
    ParamAppend(pairs[..i], [pairs[i]]);
    assert [pairs[i]][1..] == [] && ParamBytes([]) == [];
    assert ParamBytes([pairs[i]]) == PairBytes(pairs[i]);
    assert pairs[i..][1..] == pairs[i + 1..];
  }

  // ----- writing into a buffer --------------------------------------------------------------

  /** `s` with `bytes` stored at `at`. */
  function Patch(s: seq<byte>, at: nat, bytes: seq<byte>): (r: seq<byte>)
    requires at + |bytes| <= |s|
    ensures |r| == |s|
  {
    s[..at] + bytes + s[at + |bytes|..]
  }

  lemma PatchNext(s: seq<byte>, at: nat, a: seq<byte>, b: seq<byte>)
    requires at + |a| + |b| <= |s|
    ensures Patch(Patch(s, at, a), at + |a|, b) == Patch(s, at, a + b)
  {}

  lemma PatchRead(s: seq<byte>, at: nat, bytes: seq<byte>)
    requires at + |bytes| <= |s|
    ensures Patch(s, at, bytes)[..at] == s[..at]
    ensures Patch(s, at, bytes)[at..at + |bytes|] == bytes
    ensures Patch(s, at, bytes)[at + |bytes|..] == s[at + |bytes|..]
  {}

  /** memcpy. */
  method Copy(buf: array<byte>, at: nat, bytes: seq<byte>)
    requires at + |bytes| <= buf.Length
    modifies buf
    ensures buf[..] == Patch(old(buf[..]), at, bytes)
  {
    hide Patch;
    var i := 0;
    PatchNothing(buf[..], at);
    assert bytes[..0] == [];
    while i < |bytes|
      invariant 0 <= i <= |bytes|
      invariant buf[..] == Patch(old(buf[..]), at, bytes[..i])
    {
      ghost var before := buf[..];
      buf[at + i] := bytes[i];
      assert buf[..] == before[at + i := bytes[i]];
      PatchStep(old(buf[..]), at, bytes, i);
      i := i + 1;
    }
    assert bytes[..i] == bytes;
  }

  lemma PatchNothing(s: seq<byte>, at: nat)
    requires at <= |s|
    ensures Patch(s, at, []) == s
  {}

  lemma PatchStep(s: seq<byte>, at: nat, bytes: seq<byte>, i: nat)
    requires i < |bytes| && at + |bytes| <= |s|
    ensures Patch(s, at, bytes[..i])[at + i := bytes[i]] == Patch(s, at, bytes[..i + 1])
  {}

  /** fcgi_write_header. */
  method WriteHeader(buf: array<byte>, at: nat, h: Header)
    requires at + HEADER_LEN <= buf.Length
    modifies buf
    ensures buf[..] == Patch(old(buf[..]), at, HeaderBytes(h))
  {
    hide Patch;
    Copy(buf, at, HeaderBytes(h));
  }

  /** fcgi_param_write with a buffer. */
  method WriteParam(buf: array<byte>, at: nat, p: Pair) returns (cnt: nat)
    requires at + PairSize(p) <= buf.Length
    modifies buf
    ensures cnt == PairSize(p) && cnt == |PairBytes(p)|
    ensures buf[..] == Patch(old(buf[..]), at, PairBytes(p))
  {
    hide LengthBytes, LengthSize, Patch;
    var k, v := LengthBytes(|p.key|), LengthBytes(|p.value|);
    ghost var s := buf[..];
    Copy(buf, at, k);
    cnt := |k|;
    PatchNext(s, at, k, v);
    Copy(buf, at + cnt, v);
    cnt := cnt + |v|;
    PatchNext(s, at, k + v, p.key);
    Copy(buf, at + cnt, p.key);
    cnt := cnt + |p.key|;
    PatchNext(s, at, k + v + p.key, p.value);
    Copy(buf, at + cnt, p.value);
    cnt := cnt + |p.value|;
  }

  // ----- iterating over pairs ---------------------------------------------------------------

  /** The bytes before pair i, and the two lengths pair i begins with. */
  lemma PairAt(pairs: seq<Pair>, i: nat)
    requires i < |pairs| && Encodable(pairs)
    ensures var base, s, p := ParamBytes(pairs), |ParamBytes(pairs[..i])|, pairs[i];
            && s + PairSize(p) == |ParamBytes(pairs[..i + 1])| <= |base|
            && base[s..s + PairSize(p)] == PairBytes(p)
            && (s + PairSize(p) < |base| <==> i + 1 < |pairs|)
  {
    hide PairBytes, PairSize;
    assert pairs == pairs[..i] + pairs[i..];
    ParamAppend(pairs[..i], pairs[i..]);
    ParamNext(pairs, i);
    SizePredicted(pairs[i]);
    ParamNonempty(pairs[i + 1..]);
    var base, s, b := ParamBytes(pairs), |ParamBytes(pairs[..i])|, PairBytes(pairs[i]);
    assert base == ParamBytes(pairs[..i]) + (b + ParamBytes(pairs[i + 1..]));
  }

  lemma ParamNonempty(pairs: seq<Pair>)
    ensures |ParamBytes(pairs)| > 0 <==> pairs != []
  {}

  /** The fields of a pair's encoding, found as the iterator finds them. */
  lemma PairFields(p: Pair, b: seq<byte>)
    requires |p.key| < TWO31 && |p.value| < TWO31 && b == PairBytes(p)
    ensures var ks, vs := LengthSize(|p.key|), LengthSize(|p.value|);
            && |b| == ks + vs + |p.key| + |p.value|
            && (b[0] >= 128 ==> |b| >= 4) && ReadLength(b) == |p.key|
            && (b[ks] >= 128 ==> |b| >= ks + 4) && ReadLength(b[ks..]) == |p.value|
            && b[ks + vs..ks + vs + |p.key|] == p.key
            && b[ks + vs + |p.key|..] == p.value
  {
    hide ReadLength;
    var k, v := LengthBytes(|p.key|), LengthBytes(|p.value|);
    hide LengthBytes, LengthSize;
    assert b == k + (v + p.key + p.value);
    LengthRoundTrip(|p.key|, v + p.key + p.value);
    var ks := |k|;
    assert b[ks..] == v + (p.key + p.value);
    LengthRoundTrip(|p.value|, p.key + p.value);
    assert b[ks] == v[0];
  }

  lemma ReadLengthPrefix(p: seq<byte>, q: seq<byte>)
    requires |p| >= 1 && (p[0] >= 128 ==> |p| >= 4) && p <= q
    ensures (q[0] >= 128 ==> |q| >= 4) && ReadLength(q) == ReadLength(p)
  {
    assert q[0] == p[0];
    if p[0] >= 128 {
      assert q[1] == p[1] && q[2] == p[2] && q[3] == p[3];
    }
  }

  lemma Within(base: seq<byte>, s: nat, b: seq<byte>, x: nat, y: nat)
    requires s + |b| <= |base| && base[s..s + |b|] == b && x <= y <= |b|
    ensures base[s + x..s + y] == b[x..y]
    ensures b[x..] <= base[s + x..]
  {
    forall k | x <= k < |b| ensures base[s + k] == b[k] {
      assert base[s..s + |b|][k] == base[s + k];
    }
    assert base[s + x..s + y] == b[x..y];
    assert base[s + x..s + |b|] == b[x..];
    assert base[s + x..][..|b| - x] == b[x..];
  }

  lemma PairBounds(p: Pair)
    ensures LengthSize(|p.key|) >= 1 && LengthSize(|p.value|) >= 1
    ensures PairSize(p) == |PairBytes(p)| > LengthSize(|p.key|)
  {
    SizePredicted(p);
  }

  /** Pair `p` stands at `s` in `base`. */
  ghost predicate PairHere(base: seq<byte>, s: nat, p: Pair) {
    s + |PairBytes(p)| <= |base| && base[s..s + |PairBytes(p)|] == PairBytes(p)
  }

  /** What entry_next reads at the start of a pair. */
  lemma LengthsHere(base: seq<byte>, s: nat, p: Pair)
    requires PairHere(base, s, p) && |p.key| < TWO31 && |p.value| < TWO31
    ensures var t := s + LengthSize(|p.key|);
            && s < t < |base|
            && (base[s] >= 128 ==> |base| >= s + 4) && ReadLength(base[s..]) == |p.key|
            && (base[t] >= 128 ==> |base| >= t + 4) && ReadLength(base[t..]) == |p.value|
  {
    PairBounds(p);
    hide ReadLength, PairBytes, LengthSize, PairSize;
    var b, ks := PairBytes(p), LengthSize(|p.key|);
    PairFields(p, b);
    Within(base, s, b, 0, |b|);
    Within(base, s, b, ks, |b|);
    assert b[0..] == b;
    ReadLengthPrefix(b, base[s..]);
    ReadLengthPrefix(b[ks..], base[s + ks..]);
  }

  /** Key and value of a pair, found as entry_key and entry_value find them. */
  lemma ContentHere(base: seq<byte>, s: nat, p: Pair)
    requires PairHere(base, s, p) && |p.key| < TWO31 && |p.value| < TWO31
    ensures var at := s + LengthSize(|p.key|) + LengthSize(|p.value|);
            && at + |p.key| + |p.value| == s + PairSize(p) <= |base|
            && base[at..at + |p.key|] == p.key
            && base[at + |p.key|..at + |p.key| + |p.value|] == p.value
  {
    PairBounds(p);
    var b, h := PairBytes(p), LengthSize(|p.key|) + LengthSize(|p.value|);
    assert PairSize(p) == h + |p.key| + |p.value|;
    hide ReadLength, PairBytes, LengthSize, PairSize;
    PairFields(p, b);
    Within(base, s, b, h, h + |p.key|);
    Within(base, s, b, h + |p.key|, |b|);
  }

  /** The pair at index i, where the iterator expects it. */
  lemma PairsHere(pairs: seq<Pair>, i: nat)
    requires i < |pairs| && Encodable(pairs)
    ensures PairHere(ParamBytes(pairs), |ParamBytes(pairs[..i])|, pairs[i])
    ensures |pairs[i].key| < TWO31 && |pairs[i].value| < TWO31
    ensures |ParamBytes(pairs[..i])| + PairSize(pairs[i]) == |ParamBytes(pairs[..i + 1])|
    ensures |ParamBytes(pairs[..i + 1])| < |ParamBytes(pairs)| <==> i + 1 < |pairs|
  {
    PairBounds(pairs[i]);
    hide PairBytes, ParamBytes, PairSize, LengthSize;
    assert pairs[i] in pairs;
    PairAt(pairs, i);
  }

  /** struct fcgi_param_entry: a cursor over a buffer of pairs. */
  class ParamEntry {
    var keyLen: nat
    var valueLen: nat
    var position: nat
    const base: seq<byte>
    ghost const pairs: seq<Pair>

    /** The buffer holds `pairs`, written back to back. */
    ghost predicate Holds() {
      base == ParamBytes(pairs) && Encodable(pairs)
    }

    /** The cursor is on pair i. */
    ghost predicate At(i: nat)
      reads this
    {
      && Holds() && i < |pairs|
      && keyLen == |pairs[i].key| && valueLen == |pairs[i].value|
      && position == |ParamBytes(pairs[..i])| + LengthSize(keyLen) + LengthSize(valueLen)
    }

    /** The cursor as it stands on an empty buffer. */
    ghost predicate AtNothing()
      reads this
    {
      Holds() && pairs == [] && keyLen == 0 && valueLen == 0 && position == 0
    }

    /** Read the lengths of pair i from its first byte. */
    method ReadLengths(ghost i: nat)
      requires Holds() && i < |pairs| && position == |ParamBytes(pairs[..i])|
      modifies this
      ensures At(i)
    {
      hide ReadLength, LengthSize, ParamBytes, PairHere, PairSize;
      PairsHere(pairs, i);
      LengthsHere(base, position, pairs[i]);
      keyLen := ReadLength(base[position..]);
      position := position + LengthSize(keyLen);
      valueLen := ReadLength(base[position..]);
      position := position + LengthSize(valueLen);
    }

    /** fcgi_param_entry_next: on to the next pair, or -1 at the end of the buffer. */
    method Next(ghost i: nat) returns (ok: bool)
      requires At(i) || AtNothing()
      modifies this
      ensures ok <==> i + 1 < |pairs|
      ensures ok ==> At(i + 1)
    {
      hide ReadLength, LengthSize, PairBytes, PairSize, PairHere;
      ParamNonempty(pairs);
      if |base| > 0 {
        PairsHere(pairs, i);
        ContentHere(base, |ParamBytes(pairs[..i])|, pairs[i]);
      }
      hide ParamBytes;
      position := position + keyLen + valueLen;
      if position >= |base| {
        return false;
      }
      ReadLengths(i + 1);
      ok := true;
    }

    /** fcgi_param_entry_init. */
    constructor (p: seq<byte>, ghost ps: seq<Pair>)
      requires p == ParamBytes(ps) && Encodable(ps)
      ensures base == p && pairs == ps
      ensures if ps == [] then AtNothing() else At(0)
    {
      keyLen, valueLen, position := 0, 0, 0;
      base, pairs := p, ps;
      new;
      ParamNonempty(ps);
      assert pairs[..0] == [] && ParamBytes([]) == [];
      hide ParamBytes;
      if position < |base| {
        ReadLengths(0);
      }
    }

    /** fcgi_param_entry_key. */
    method Key(ghost i: nat) returns (k: seq<byte>)
      requires At(i) || AtNothing()
      ensures At(i) ==> k == pairs[i].key
      ensures AtNothing() ==> k == []
    {
      hide LengthSize, ParamBytes, PairHere, PairSize;
      if keyLen == 0 {
        return [];
      }
      PairsHere(pairs, i);
      ContentHere(base, |ParamBytes(pairs[..i])|, pairs[i]);
      k := base[position..position + keyLen];
    }

    /** fcgi_param_entry_value. */
    method Value(ghost i: nat) returns (v: seq<byte>)
      requires At(i)
      ensures v == pairs[i].value
    {
      hide LengthSize, ParamBytes, PairHere, PairSize;
      PairsHere(pairs, i);
      ContentHere(base, |ParamBytes(pairs[..i])|, pairs[i]);
      v := base[position + keyLen..position + keyLen + valueLen];
    }

    /**
     * fcgi_param_entry_search: the first pair at or after the current one with this key. On an
     * empty buffer the empty key is reported as found.
     */
    method Search(key: seq<byte>, ghost i: nat) returns (found: bool, ghost j: nat)
      requires At(i) || AtNothing()
      modifies this
      ensures pairs != [] ==> (found <==> exists k :: i <= k < |pairs| && pairs[k].key == key)
      ensures pairs != [] && found ==> i <= j && At(j) && pairs[j].key == key
      ensures pairs != [] && found ==> forall k :: i <= k < j ==> pairs[k].key != key
      ensures pairs == [] ==> (found <==> key == [])
    {
      hide LengthSize, ParamBytes, PairHere, PairSize;
      j := i;
      var k := Key(j);
      while k != key
        invariant At(j) || AtNothing()
        invariant i <= j && (pairs == [] ==> k == [])
        invariant pairs != [] ==> At(j) && k == pairs[j].key
        invariant forall m :: i <= m < j && m < |pairs| ==> pairs[m].key != key
        decreases |pairs| - j
      {
        var more := Next(j);
        if !more {
          return false, j;
        }
        j := j + 1;
        k := Key(j);
      }
      found := true;
    }
  }

  /** Every pair, read back in order with entry_init, entry_key, entry_value and entry_next. */
  method ReadPairs(p: seq<byte>, ghost pairs: seq<Pair>) returns (out: seq<Pair>)
    requires p == ParamBytes(pairs) && Encodable(pairs)
    ensures out == pairs
  {
    hide ParamBytes, LengthSize;
    ParamNonempty(pairs);
    out := [];
    if |p| == 0 {
      return;
    }
    var e := new ParamEntry(p, pairs);
    var more := true;
    while more
      invariant e.pairs == pairs && |out| <= |pairs| && out == pairs[..|out|] && fresh(e)
      invariant if more then e.At(|out|) else |out| == |pairs|
      decreases |pairs| - |out|, more
    {
      ghost var i := |out|;
      var k := e.Key(i);
      var v := e.Value(i);
      out := out + [Pair(k, v)];
      more := e.Next(i);
    }
  }
}

/** The record framing of section 3.3: a byte stream as packets and an incomplete tail. */
module Records {
  import opened Bytes
  import opened Protocol

  /** A header, its body and its padding, as they stand in the stream. */
  type Packet = p: seq<byte> | |p| >= HEADER_LEN && |p| == PacketSize(p) witness [0, 0, 0, 0, 0, 0, 0, 0]

  function PacketSize(p: seq<byte>): nat
    requires |p| >= HEADER_LEN
  {
    HEADER_LEN + ReadHeader(p).bodyLen + ReadHeader(p).bodyPad
  }

  predicate Complete(b: seq<byte>) {
    |b| >= HEADER_LEN && |b| >= PacketSize(b)
  }

  lemma PrefixHeader(a: seq<byte>, b: seq<byte>)
    requires |a| >= HEADER_LEN && a <= b
    ensures ReadHeader(a) == ReadHeader(b)
  {}

  function First(b: seq<byte>): (p: Packet)
    requires Complete(b)
    ensures p <= b && |p| == PacketSize(b) && ReadHeader(p) == ReadHeader(b)
  {
    b[..PacketSize(b)]
  }

  function Body(p: Packet): seq<byte> { p[HEADER_LEN..HEADER_LEN + ReadHeader(p).bodyLen] }

  /** The whole packets at the front of a stream, and what is left. */
  function Packets(b: seq<byte>): seq<Packet>
    decreases |b|
  {
    if Complete(b) then [First(b)] + Packets(b[PacketSize(b)..]) else []
  }

  function Tail(b: seq<byte>): seq<byte>
    decreases |b|
  {
    if Complete(b) then Tail(b[PacketSize(b)..]) else b
  }

  function Joined(ps: seq<Packet>): seq<byte> {
    if ps == [] then [] else ps[0] + Joined(ps[1..])
  }

  lemma JoinedNext(p: Packet, ps: seq<Packet>)
    ensures Joined([p] + ps) == p + Joined(ps)
  {
    assert ([p] + ps)[1..] == ps;
  }

  lemma FirstAndRest(b: seq<byte>)
    requires Complete(b)
    ensures HEADER_LEN <= PacketSize(b) <= |b| && b == First(b) + b[PacketSize(b)..]
  {
    hide Packets, Tail, ReadHeader;
  }

  /** One step of the framing. */
  lemma CutOne(b: seq<byte>)
    requires Complete(b)
    ensures PacketSize(b) <= |b|
    ensures Packets(b) == [First(b)] + Packets(b[PacketSize(b)..]) && Tail(b) == Tail(b[PacketSize(b)..])
  {
    hide ReadHeader, PacketSize, First;
  }

  lemma CutNone(b: seq<byte>)
    requires !Complete(b)
    ensures Packets(b) == [] && Joined([]) == [] && Tail(b) == b == [] + b
  {
    hide PacketSize;
  }

  /** The framing is exact: packets and tail are the stream, and the tail is incomplete. */
  lemma {:induction false} StreamSplit(b: seq<byte>)
    ensures b == Joined(Packets(b)) + Tail(b)
    ensures !Complete(Tail(b))
    decreases |b|
  {
    hide *;
    if Complete(b) {
      FirstAndRest(b);
      CutOne(b);
      var rest := b[PacketSize(b)..];
      StreamSplit(rest);
      JoinedNext(First(b), Packets(rest));
    } else {
      CutNone(b);
    }
  }

  /** It is the only one: any packets followed by an incomplete tail are the packets of the stream. */
  lemma {:induction false} FramingUnique(ps: seq<Packet>, t: seq<byte>)
    requires !Complete(t)
    ensures Packets(Joined(ps) + t) == ps && Tail(Joined(ps) + t) == t
  {
    if ps == [] {
      assert Joined(ps) + t == t;
    } else {
      var rest := Joined(ps[1..]) + t;
      var b := Joined(ps) + t;
      assert b == ps[0] + rest;
      PrefixHeader(ps[0], b);
      assert b[|ps[0]|..] == rest;
      assert First(b) == ps[0];
      FramingUnique(ps[1..], t);
    }
  }

  /** More bytes after a prefix: its packets stand, and only its tail is read again. */
  lemma {:induction false} StreamGrows(a: seq<byte>, b: seq<byte>)
    ensures Packets(a + b) == Packets(a) + Packets(Tail(a) + b)
    ensures Tail(a + b) == Tail(Tail(a) + b)
    decreases |a|
  {
    if Complete(a) {
      PrefixHeader(a, a + b);
      var n := PacketSize(a);
      assert (a + b)[n..] == a[n..] + b;
      assert First(a + b) == First(a);
      StreamGrows(a[n..], b);
      assert [First(a)] + (Packets(a[n..]) + Packets(Tail(a) + b)) == Packets(a) + Packets(Tail(a) + b);
    }
  }
}
